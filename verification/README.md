# Verification of the follower tracker

The service takes the relationship exports Instagram offers for download, keeps every one of them as
an *execution* of an account, and answers who left, who came, who came back and under what new name.
This project models its store, its worker and its parsing of lists, and proves what they promise.

* **The store** (`Store.dfy`) is a class whose fields are the tables `uploads`, `snapshot_members`,
  `upload_lists` and `changes`. Each statement is a method; the loops of `recomputeAccount`,
  `recomputeListsBetween` and `classifyRenames` are loops. A transaction commits or leaves the tables
  as they were. `Statements.dfy` holds what single statements do to rows, `History.dfy` what an
  account's history *is*: a function of its completed executions, their dates and their lists. The
  rebuild is proved to compute that function, so whatever follows is about the tables themselves.
* **Comparisons** (`Buckets.dfy`, `Gaps.dfy`, `Replay.dfy`, `Departures.dfy`) say how the materialised
  change log, the recorded counts, the four buckets of a diff and the reasons for departures relate to
  the snapshots, and exactly when that relation breaks.
* **Edits** (`Locality.dfy`, `Confluence.dfy`, `Admission.dfy`) compare the wholesale rebuild with a
  local patch, show that processing order does not matter, and compare the execution an upload is
  judged against with the one it is later compared with.
* **The service** (`Machine.dfy`) is a machine of atomic steps: intake, claim, record, refuse, clear a
  file, reread, a crash at any point, a restart. `Safety.dfy`, `Judging.dfy`, `Collapse.dfy`,
  `Sweep.dfy`, `SweepRuns.dfy` and `Rereads.dfy` prove what holds over all its runs, `Upgrade.dfy`
  what becomes of a store an earlier version left. `Provenance.dfy` goes from the documents of a file
  and the columns an upload came with to the rows of its execution. `Witnesses.dfy` and `Runs.dfy`
  reach the states in which a promise fails. `Service.dfy` is the worker as a class over the store and
  the files; what it does is stated as steps of the machine. What the outside does in a turn (a file
  that does not open, a commit that fails, a cancellation) is a parameter, and `Turns.dfy` says which
  steps each turn takes because of it.
* **Lists and charts** (`Export.dfy`, `Text.dfy`, `Chart.dfy`) are the collapsing of repeated entries,
  the grouping of an archive's documents, label separation and the value axis.

A store is `WellFormed` when its tables fit together and `Sound` when moreover everything derived in it
agrees with the executions it was derived from. The operations ask for the first alone, since a store
upgraded from an earlier version is no more than that: each says exactly which accounts agree
afterwards. From an empty store every operation and every step keeps the second, and most theorems
are about any sound store, hence about every store the service can reach.

## Where the code and its prose differ

The model follows the code.

* At most one upload is in processing, except that an upload whose failure could not be written stays
  in processing beside the next one claimed (`internal/tracker/worker.go:98-102`). `Safety.OneAtATime`
  says over all runs exactly when, `Runs.SomeRunLeavesTwo` is a run with two. Crashes alone never
  leave two.
* An execution is compared only with its immediate predecessor. A list missing from an execution in
  the middle breaks the chain: `Gaps.ReturnedExactly`, `Gaps.LostExactly` and `Gaps.GainedExactly` say
  exactly when a return is missed and when a loss or gain is not in the log, `Gaps.NetExactly` when
  counting the log and comparing the ends differ. `Witnesses.SomeGapHidesLoss` and
  `Witnesses.SomeReentryHidesReturn` are histories recorded from the empty store in which it happens.
* A list that is absent is not a list that is empty (`README.md:296`,
  `internal/store/snapshot.go:186-189`), yet the queries of a diff read it so
  (`internal/store/diff.go:100-116`): everybody at one end is lost to, or gained since, an end that
  did not carry the list, while the log rightly holds no change there
  (`Gaps.SilenceIsReadAsEmptiness`). `Gaps.LostExactly`, `Gaps.GainedExactly` and
  `Gaps.TransientExactly` say exactly when a diff is free of it, whoever the members are;
  `Witnesses.SomeSilenceIsReadAsLoss` is such a history. For followers neither this nor the gap can
  occur, because no export without followers is recorded.
* A departure recorded before reasons were kept has none, and its account does not agree with its
  executions. Where dates were unknown the start of the service repairs it
  (`Upgrade.UpgradeIsMended`); where they were known already nothing does until an execution of the
  account is recorded or read again (`Upgrade.UnexplainedStays`, `Upgrade.SomeDatedStore`).
* The execution an upload is judged against is the one it is then compared with, unless an execution
  of the very same date was uploaded after it: `Admission.JudgedAgainstPredecessor`. While failures
  are written and arrivals come in order of time that never happens
  (`Judging.JudgedAgainstPredecessorThroughout`); `Runs.SomeRunJudgesAgainstLater` is a run in which
  it does.
* Sequence numbers are in order of export date, not of processing
  (`internal/store/snapshot.go:252-274`; `internal/tracker/worker.go:26-28` still says otherwise).
* `SnapshotResult.PrevUploadID` is empty when the comparison recorded no change, not only for the
  baseline (`internal/store/snapshot.go:108-112`).
* `valueTicks` gives equal whole steps exactly when the top is divisible by 2, 3 or 5; for a top of 1
  it repeats 0. Every round number above 1 qualifies (`Chart.NiceDivides`).

## Model

| member | source | states |
|---|---|---|
| Store.Store.ExecutionsInDateOrder | internal/store/snapshot.go:252-274 | the completed executions of one account, each once, by date, upload time and id |
| Store.Store.AssignSequenceNo | internal/store/snapshot.go:146-149 | one renumbering statement: the per-account uniqueness index still holds after it |
| Store.Store.RecordChanges | internal/store/snapshot.go:276-304 | inserts one row per member of a one-sided difference, overwriting none, and returns how many |
| Store.Store.RecomputeListsBetween | internal/store/snapshot.go:183-234 | after comparing every list both executions carried, rows, counts, reasons and renames are those of the pair |
| Store.Store.RecomputeAccount | internal/store/snapshot.go:124-181 | the loop over executions leaves exactly the history derived from them |
| Store.Store.ApplySnapshot | internal/store/snapshot.go:17-122 | from any well-formed store: commits the recorded execution with the rebuilt history and reports its place, counts and predecessor, or changes nothing; afterwards the execution holds the lists given and no other changed, it is dated as given and numbered after exactly the executions that come before that date, no other column that is not derived is written, its account agrees with its executions and every other does exactly if it did; an unknown id is an error |
| Store.Store.SetSnapshotDate | internal/store/queries.go:327-358 | from any well-formed store: commits the new date with the rebuilt history, or changes nothing; afterwards the execution bears the date and source given and is numbered after exactly the executions that come before that date, no other column that is not derived is written, the account agrees with its executions, whatever it did before, and every other does exactly if it did |
| Store.Store.PairRenames | internal/store/departure.go:188-231 | the rename query returns each pair of names once, and all of them |
| Store.Store.ClassifyDepartures | internal/store/departure.go:63-146 | the statements executed; and if the rows were not classified before, each row of the execution is left with the one decision for it and no other row changes |
| Store.Store.PrecedingCompletedUpload | internal/store/queries.go:280-301 | the last completed execution dated no later, by date, upload time and id |
| Store.Store.BoundaryUpload | internal/store/diff.go:65-84 | a completed execution with the least or greatest number; where the numbering follows the dates, the end of the date order |
| Store.Store.CurrentFollowers | internal/store/diff.go:303-314 | the followers of the execution numbered last, in order of name; where the numbering follows the dates, of the latest |
| Store.Store.Diff | internal/store/diff.go:86-158 | the four buckets as the queries select them, each in order of name; none without sequence numbers |
| Store.Store.ClaimNextPending | internal/store/queries.go:197-233 | the pending upload longest waiting goes into processing; nothing changes if there is none |
| Store.Store.RequeueProcessing | internal/store/queries.go:235-243 | exactly the uploads in processing become pending, and are counted |
| Store.Store.MarkForReprocess | internal/store/queries.go:435-446 | flags exactly the completed executions not yet flagged, and counts them |
| Store.Store.ClaimNextReprocess | internal/store/queries.go:448-467 | the completed execution flagged longest ago, without changing it |
| Store.Store.UploadsWithUnknownSnapshotDate | internal/store/queries.go:303-325 | exactly the completed executions dated by processing order, by id |
| History.ConsistentIsFixpoint | internal/store/snapshot.go:124-181 | an account's history agrees with its executions exactly when rebuilding it changes nothing |
| History.RecomputeIdempotent | internal/store/snapshot.go:17-26 | rebuilding twice is rebuilding once |
| History.ConsistentForeign | internal/store/snapshot.go:136-143 | after one account is rebuilt any other agrees with its executions exactly if it did before |
| Statements.CompareRefines | internal/store/snapshot.go:190-234 | the statements run list by list in any order of lists refine one comparison of two snapshots |
| Statements.ClassifiedRow | internal/store/departure.go:70-146 | the cascade of guarded updates is one first-match decision per row |
| Statements.SettleCommutes | internal/store/departure.go:102-132 | the statements for survivors and for the vanished can be swapped |
| Statements.TurnRebuilds | internal/store/snapshot.go:145-180 | one turn of the loop extends the rebuilt history by one execution |
| Snapshots.RenamesInverse | internal/store/departure.go:233-247 | renamed-to and renamed-from undo each other |
| Snapshots.PairingIsMaximal | internal/store/departure.go:173-213 | a follow time is paired exactly when one dated departure and one dated arrival bear it |
| Departures.DeparturesAreExplained | internal/store/departure.go:63-146 | in the tables every follower departure has one reason and nothing else has any; which reason, exactly; none is drawn from a following list either execution lacks |
| Departures.RenamesAreMutual | internal/store/departure.go:173-250 | in the tables a departure is renamed to an arrival exactly when the arrival is renamed from it, and exactly when they alone bear a known follow time |
| Departures.RenamedArrived | internal/store/departure.go:233-247 | whoever a departure was renamed to arrived in the same execution |
| DateOrder.TimelineDetermined | internal/store/snapshot.go:252-274 | the date order depends on dates, upload times and ids alone |
| Operations.AppliedSound | internal/store/snapshot.go:26-122 | recording an execution keeps every account's history in agreement |
| Operations.RedatedSound | internal/store/queries.go:329-358 | so does moving one |
| Operations.AppliedConsistency | internal/store/snapshot.go:26-122 | from any well-formed store, recording an execution leaves an account in agreement if and only if it is the execution's own or agreed before |
| Operations.RedatedConsistency | internal/store/queries.go:329-358 | so does moving one: a wrong history of its own account is repaired |
| Operations.AppliedPutsAt | internal/store/snapshot.go:85-101 | recording writes the given date, source and completion to the one row and nothing else that is not derived, and the executions before that date, by date, upload time and id, and no others, have smaller numbers |
| Operations.RedatedPutsAt | internal/store/queries.go:340-352 | redating writes the given date and source to the one row and nothing else that is not derived, with the same numbering |
| Operations.NumbersFollowDates | internal/store/snapshot.go:252-274 | wherever a history agrees with its executions one number is smaller than another exactly when its date, upload time and id come first |
| Operations.RowsNamePredecessor | internal/store/snapshot.go:108-112 | the change rows of an execution all name the one before it |
| Buckets.LogAgrees | internal/store/snapshot.go:183-234 | a change is in the log exactly between two neighbours that both carried the list and differ on the user |
| Buckets.NetIsPresence | internal/store/diff.go:88-158 | departures less arrivals in the log is the change in presence |
| Buckets.BucketTheorem | internal/store/diff.go:88-158 | the four buckets are a counting of the event log: lost net 1, gained net -1, returned net 0 with a departure, transient net 0 with an arrival |
| Buckets.BucketsPartition | internal/store/diff.go:11-28 | everybody seen in the range is in exactly one bucket or stayed throughout |
| Gaps.ReturnedIsSound | internal/store/diff.go:120-139 | somebody reported as returned was absent from an execution in between that carried the list |
| Gaps.ReturnedExactly | internal/store/diff.go:120-139 | all who came back are reported, whoever the members are, if and only if no execution inside the range carried the list right after one that did not, or an end did not carry it |
| Gaps.ReentryHidesReturn | internal/store/diff.go:120-139 | in any sound store with a re-entry, some memberships in the same lists make a return that is not reported |
| Gaps.NetExactly | internal/store/snapshot.go:183-190 | the log agrees with the ends, whoever the members are, if and only if every execution in the range carried the list, or neither end did and no two neighbours between them |
| Gaps.SilenceIsReadAsEmptiness | internal/store/diff.go:98-118 | an end that did not carry the list counts as empty: everybody at the other end is lost or gained, and no change is logged there |
| Gaps.LostExactly | internal/store/diff.go:98-107 | nobody is reported lost to a silent execution, whoever the members are, if and only if the later end carried the list or the earlier did not; every loss is in the log if and only if all the range carried it or the earlier end did not |
| Gaps.GainedExactly | internal/store/diff.go:109-118 | the same of gains, with the ends exchanged |
| Gaps.TransientExactly | internal/store/diff.go:141-155 | only people both ends showed absent are reported as seen in between, whoever the members are, if and only if both ends carried the list or nothing between them did |
| Gaps.GapHidesLoss | internal/store/snapshot.go:183-190 | in any sound store with a gap, at the later end or before it, some memberships in the same lists make a loss with no change in the log |
| Gaps.GapHidesGain | internal/store/snapshot.go:183-190 | the same of a gain, the gap being at the earlier end or after it |
| Witnesses.AnyHistory | internal/store/snapshot.go:17-122 | any sequence of snapshots is the history of a sound store that accepting and recording reach from the empty one |
| Witnesses.SomeGapHidesLoss | internal/store/snapshot.go:183-190 | from the empty store: three executions, somebody lost between the ends, and no change in the log |
| Witnesses.SomeSilenceIsReadAsLoss | internal/store/diff.go:98-107 | from the empty store: two executions, the second silent about the list, somebody reported lost to it, and no change in the log |
| Witnesses.SomeReentryHidesReturn | internal/store/diff.go:120-139 | from the empty store: four executions, somebody gone and back, and not reported |
| Replay.ReplayRebuilds | internal/store/snapshot.go:276-304 | applying the change rows to one execution's list gives any later one's |
| Replay.NumbersAreRows | internal/store/snapshot.go:151-160 | the counts recorded for a list are its size and the numbers of its rows |
| Replay.CountsAddUp | internal/store/snapshot.go:204-220 | a later count is the earlier one plus what was added less what was removed |
| Replay.WholeLogIsCounted | internal/store/diff.go:184-200 | the length of an account's log of one list is the sum of the counts recorded with its executions |
| Locality.ApplyIsLocal | internal/store/snapshot.go:124-181 | recording an execution, for the first time or again at another date, changes only itself and its successors, and moves every other by exactly the places it left and took; other accounts stay |
| Locality.RedateIsLocal | internal/store/queries.go:327-358 | moving an execution changes only itself, its old successor and its new one, and others move by the one place it left or took |
| Confluence.SoundDetermined | internal/store/snapshot.go:17-26 | two sound stores with the same executions are the same store |
| Confluence.ApplyCommutes | internal/store/snapshot.go:17-26 | two executions recorded in either order leave the very same store |
| Confluence.ApplyAgainIsIdentity | internal/store/snapshot.go:42-48 | recording again what is recorded changes nothing |
| Confluence.ProcessingOrderIsIrrelevant | internal/store/snapshot.go:17-26 | any two runs of accepting, recording and redating that end with the same executions end with the same history |
| Admission.JudgedAgainstPredecessor | internal/tracker/worker.go:149-161 | the execution judged against is the diff predecessor, and there is none just for the baseline, if and only if no execution of the same date was uploaded later |
| Admission.AdmittedExactly | internal/tracker/coverage.go:39-63 | admitted exactly with the override, or when not declared partial and, after a predecessor of 25 or more, at least half of it is kept; which refusal otherwise |
| Judging.JudgedAgainstPredecessorThroughout | internal/tracker/worker.go:149-163 | over every run in which failures are written and arrivals come in order of time, crashes, rereads and redating included, whatever is recorded was judged against its predecessor |
| Runs.SomeRunJudgesAgainstLater | internal/store/queries.go:280-301 | a run from a new service at whose end an upload is judged against an execution that is not its predecessor |
| Export.Dedupe | internal/instagram/parse.go:275-298 | the loop over entries, then the sort, give the one collapsed list |
| Export.DedupedIs | internal/instagram/parse.go:275-298 | strictly increasing usernames, the same ones as before, each with its first non-empty link and first known time |
| Export.DedupeOfParts | internal/instagram/archive.go:59-88 | a list split into parts, each collapsed, collapses to the same |
| Export.Parse | internal/instagram/parse.go:115-146 | what a single document or an archive parses to, and when it is refused |
| Export.ParseArchive | internal/instagram/archive.go:55-89 | a list is there exactly when one of its documents was recognised, possibly empty; it names exactly who some recognised document names, each once and in order, with the first link and the first follow time by document and then by entry |
| Export.GatheredIs | internal/instagram/archive.go:59-88 | the same for the documents of one list: what they say between them is their entries collapsed |
| Export.DedupeOfDocuments | internal/instagram/archive.go:59-88 | collapsing the documents one by one first makes no difference |
| Export.ParsedIsValid | internal/instagram/archive.go:91-94 | whatever parses carries followers, at least one, and distinct ordered names in every list |
| Text.LessIs | internal/instagram/parse.go:275-298 | names are ordered by their first difference, a name before what it begins |
| Provenance.ParsesWhen | internal/instagram/archive.go:91-94 | a file is accepted exactly when some recognised document of it names a follower |
| Export.ListSnapshots | internal/tracker/worker.go:123-139 | the lists handed to the store are the export's |
| Export.MembersStored | internal/store/snapshot.go:68-83 | storing a list of distinct names stores each with its own time |
| Machine.StepInv | internal/tracker/worker.go:29-55 | every step, crashes included, keeps the invariant |
| Machine.PathInv | internal/tracker/worker.go:29-55 | so it holds over every run, uploads and requests while the worker is down included |
| Machine.StepConsistency | internal/tracker/worker.go:57-83 | from whatever an earlier version left: an account agrees after a step if and only if the step rebuilt it or it did before |
| Machine.PathConsistency | internal/tracker/worker.go:29-83 | the same over every run |
| Machine.FlagsAreCompleted | internal/store/queries.go:437-488 | whatever is flagged is completed, so the count and the claim query agree |
| Safety.NothingIsLost | internal/tracker/worker.go:29-105 | over any run no accepted upload is lost, its accepted columns never change, completed and failed are final |
| Provenance.RecordIsAsSent | internal/tracker/worker.go:123-170 | a recording or reread leaves, list by list and name by name, what the documents of the file say, each name with its first follow time, at the date that goes first: typed, declared, newest entry, file name, arrival |
| Provenance.RecordEnabledIs | internal/tracker/worker.go:141-163 | a claimed upload can be recorded exactly when its file reads and it has the override, or does not declare itself partial and keeps half of the execution before its date |
| Provenance.RedateEnabledIs | internal/tracker/snapshotdate.go:91-116 | an execution can be redated exactly when its date is unknown and its file reads and it or its name gives a date |
| Provenance.RedateIsAsDetected | internal/tracker/snapshotdate.go:91-116 | a redating writes the file's own date, and its name's only if it has none, and puts the execution there |
| Provenance.CompletedIsAsSent | internal/tracker/worker.go:123-170 | over any run an upload keeps the columns and the file it came with, and if completed its rows are what that file says, its date the one that goes first, and it had the override or did not declare itself partial |
| Provenance.EveryUploadWasSent | internal/tracker/service.go:97-159 | in a service that began empty there is no upload the run did not accept |
| Provenance.AgreesMeans | internal/tracker/reprocess.go:64-87 | to agree with a file is to hold what its documents say at the date that goes first |
| Safety.OneAtATime | internal/tracker/worker.go:57-105 | from a new service, at most one upload is in processing in every state of a run if and only if no claim follows an unwritten failure without a restart in between |
| Safety.OneAfterCrash | internal/store/queries.go:235-254 | the same after any crash that left at most one in processing |
| Safety.UnrecordedFailureLeavesTwo | internal/tracker/worker.go:98-102 | from any state at rest with two uploads waiting, three steps leave two in processing |
| Runs.SomeRunLeavesTwo | internal/tracker/worker.go:98-102 | a run from a new service that ends with two in processing |
| Safety.EmptiedIsDecided | internal/tracker/worker.go:57-83 | once the queue is empty every upload is completed, failed, or its failure could not be written |
| Safety.RecordedOnce | internal/tracker/worker.go:141-170 | the pending path records an upload once if the run completes it and otherwise never |
| Safety.FileOutlivesCommit | internal/tracker/worker.go:182-187 | a file is removed only after its completion has committed |
| Safety.NumberingHolds | internal/store/migrations/0001_init.sql:39-40 | completed uploads carry the numbers 1 to n in date order and no other upload carries one |
| Safety.FollowersReplay | internal/instagram/archive.go:91-94 | in every reachable state the follower log replays and the follower counts add up, with no hypothesis about lists |
| Safety.FollowerBuckets | internal/store/diff.go:88-158 | the bucket theorem for followers in every reachable state |
| Safety.ManualDateStands | internal/tracker/snapshotdate.go:31-34 | a date typed by a person is the date of its execution in every reachable state |
| Safety.SilenceIsNotEmptiness | internal/instagram/archive.go:83-89 | a list an export lacks leaves no change; one it carries empty is registered, with a departure for every previous member |
| Safety.RecognisedIsCarried | internal/instagram/archive.go:83-89 | a list is in the export exactly when one of its documents was recognised, however few entries it had |
| Safety.DocumentsDecide | internal/instagram/archive.go:55-89 | from the documents of an archive: none recognised logs nothing; recognised without entries registers an empty list and a departure for every previous member |
| Collapse.CountsNeverCollapse | internal/tracker/coverage.go:39-55 | a run without overrides, rereads or redating, newest last, keeps the counts from collapsing |
| Collapse.CollapseBound | internal/tracker/coverage.go:39-55 | from an empty service, each count is at least half of the one before if that was 25 or more |
| Sweep.StepsReread | internal/tracker/reprocess.go:44-62 | the worker's steps over a claimed execution are one reread; one that fails changes nothing but the flag |
| Sweep.SweptIsSettled | internal/tracker/reprocess.go:44-87 | after a sweep every execution it read agrees with its file and is off the queue |
| Sweep.SweepTwice | internal/tracker/reprocess.go:44-87 | a second sweep over unchanged files, in any order, changes nothing |
| Sweep.ReprocessTwice | internal/tracker/reprocess.go:12-35 | asking for a reread a second time, worked in whatever order, gives the very same store |
| SweepRuns.SweepOrderIsIrrelevant | internal/store/queries.go:448-467 | two orders of the same flagged executions leave the very same store |
| SweepRuns.RunIsSweep | internal/tracker/reprocess.go:37-62 | a run of rereads that has cleared every flag, crashes, restarts and repeated reads included, leaves the store one sweep leaves |
| SweepRuns.SecondRunChangesNothing | internal/tracker/reprocess.go:12-62 | asking again and running again changes nothing, whatever interrupted either run |
| Rereads.FlaggedIsRead | internal/tracker/reprocess.go:37-87 | over any run of the service, an execution once flagged and no longer is as its file says, unless the file was lost, cleared or passed over |
| Rereads.UnreadableStands | internal/tracker/reprocess.go:37-62 | over any run, an execution whose file is gone or cannot be read keeps its lists and its date |
| Upgrade.UpgradedIsUsable | internal/store/migrations/0004_list_kinds.sql:17-44 | a service can be started over a store the upgrades left |
| Upgrade.UnexplainedIsNotMended | internal/store/migrations/0006_departure_reason.sql:1-17 | in any store, an account with a departure that has no reason does not agree with its executions |
| Upgrade.MendedExactly | internal/tracker/worker.go:29-83 | from whatever an earlier version left, a run ends sound if and only if each account that did not agree has an execution recorded, read again or redated in it |
| Upgrade.UnexplainedStays | internal/tracker/snapshotdate.go:44-88 | where an account's dates are known, a run that records and rereads nothing, start-up included, neither mends nor harms it |
| Upgrade.SomeDatedStore | internal/store/migrations/0006_departure_reason.sql:1-17 | a usable store with known dates and a departure without a reason |
| Upgrade.UpgradeIsMended | internal/tracker/snapshotdate.go:44-88 | a run with a rebuilding step for the account of each datable execution leaves an upgraded store sound, if every account with executions has one |
| Upgrade.SomeUpgrade | internal/store/migrations/0003_snapshot_date.sql:10-15 | an upgraded store that is not sound and whose files give dates |
| Service.Tracker.ParseStored | internal/tracker/worker.go:107-121 | what the stored file holds, or nothing |
| Service.Tracker.Judge | internal/tracker/worker.go:149-163 | names the preceding execution, and admits exactly with the override, or an export not declared partial that keeps at least half of a preceding 25 or more |
| Service.Tracker.TryRecord | internal/tracker/worker.go:141-170 | records exactly when the file reads, the store answers, the export is admissible and the transaction commits, leaving what the file says at the date that goes first; otherwise nothing changes |
| Service.Tracker.ClearFile | internal/tracker/worker.go:182-187 | the file goes only where files are not kept, and failing to remove it is no failure |
| Service.Tracker.ProcessNext | internal/tracker/worker.go:85-105 | claims the next upload, settles it the one way the turn allows and puts its file away if it was recorded; an error only where the queue or the failure could not be written |
| Service.Tracker.ReprocessNext | internal/tracker/reprocess.go:37-62 | rereads the next flagged execution or keeps it as it is, then takes it off the queue |
| Service.Tracker.TakeTurn | internal/tracker/worker.go:57-83 | one turn serves what came in, then processes an upload if one waits, else rereads a flagged execution, and says why the drain ends if it does |
| Service.Tracker.Drain | internal/tracker/worker.go:57-83 | its steps are those the turns make of it, one after the other, and it ends as the last turn says; it terminates, never rereads while an upload is pending, returns with both queues empty unless stopped, and is not stopped if nothing outside stops it |
| Service.Tracker.TakeIn | internal/tracker/service.go:97-159 | of what comes in between two turns, a file under a new name is accepted and a reread flagged, in order, and nothing else |
| Turns.ClaimsAreSettled | internal/tracker/worker.go:85-105 | every upload claimed in a drain is settled by its next step as its turn allows, from the state reached there |
| Turns.RereadsAreDone | internal/tracker/reprocess.go:44-62 | every execution claimed for rereading is read or kept by the next step, as its turn allows, and then let go of |
| Turns.RefusedIsUnrecordable | internal/tracker/worker.go:97-103 | where every turn opens, answers and commits, an upload fails in a drain only if it could not be recorded |
| Turns.RecordableIs | internal/tracker/worker.go:141-163 | what could be recorded, said of the file |
| Service.Tracker.BackfillSnapshotDates | internal/tracker/snapshotdate.go:44-88 | from any usable store: looks at each execution of unknown date in turn, by id, until told to stop, and redates those whose file opens, gives a date and is committed; counts its corrections, each of which leaves its account in agreement; with nothing in the way every datable execution is redated and none is left undated |
| Service.Tracker.StartUp | internal/tracker/worker.go:29-43 | a restart, the backfill and readiness, in that order: nothing is left in processing and nothing is stranded when work begins; with nothing in the way every datable execution is redated and its account repaired, and an upgraded store all of whose accounts are datable is sound |
| Service.ClaimWork | internal/tracker/worker.go:57-83 | a claim shortens the work left by one |
| Service.UnflagWork | internal/tracker/reprocess.go:57-61 | so does taking an execution off the reread queue |
| Chart.SeparateLabels | internal/chart/chart.go:181-200 | in place: the least heights that keep labels in order, at least 14 apart, none moved up |
| Chart.LeastIsUnique | internal/chart/chart.go:181-200 | there is one such assignment |
| Chart.SeparatedStays | internal/chart/chart.go:181-200 | separating again moves nothing |
| Chart.UnmovedIsApart | internal/chart/chart.go:193-199 | no label moves exactly when all were far enough apart |
| Chart.NiceCeiling | internal/chart/scale.go:36-49 | the least of 1, 2, 5 and 25 times a power of ten not below the value, and less than twice it |
| Chart.CeilingIsMonotone | internal/chart/scale.go:36-49 | a larger maximum never gives a lower axis |
| Chart.CeilingIsIdempotent | internal/chart/scale.go:36-49 | a round number is its own ceiling |
| Chart.ValueTicks | internal/chart/scale.go:51-69 | gradations from 0 to the top, in 4, 5, 2 or 3 divisions, the first that divides it; in equal whole steps if and only if the top is positive and divisible by 2, 3 or 5 |
| Chart.NiceDivides | internal/chart/scale.go:36-69 | an axis that ends at a round number above 1 always divides evenly |

## Left out

- HTTP handlers, templates, scripts, configuration: plumbing and presentation.
- Zip, JSON, HTML, regular expressions and time parsing: a file is given as its documents, recognised or not, with a declared date and the newest entry time. Size limits, and the archive entry that fails to decompress, count as a file that does not parse.
- Writing, hashing and naming files on intake: acceptance is one step that adds a pending row and a file; a file whose row was never written is not part of this model.
- Surrogate row ids, wall-clock columns and profile links in the store: users are named by username, a change by execution, list, user and direction. That no two inserted rows share such a name is part of `Store.Store.RecordChanges`.
- `internal/store/diff.go` listings of raw rows (`ChangesForUpload`, `AllUnfollowers`, `MembersForUpload`, `NotFollowingBack`, `Fans`): plain selections; the length of the raw log is `Replay.WholeLogIsCounted`.
- Goroutines, tickers and the notify channel: one worker and one database connection serialise everything, so steps interleave.
- Service.Tracker.RunFor: the worker loop starts and then drains for a given number of wake-ups, because an endless loop has no final state to speak about; what every run keeps is stated over the machine.
- Service.Tracker.Drain: requests are taken in between turns and stop at some turn, since a queue that is added to for ever need not be emptied; that they may also come in the middle of a turn is part of the machine.
- Service.Tracker.Judge: the failure of the query itself is the parameter `answers` of a turn.
- Rounding in floating point: the half in the coverage check and the charts are over reals; the power of ten below an axis maximum may come out one too low at a power itself, and `Chart.NiceCeiling` holds either way.
- The path strings, ticks and bars of the charts.
- SweepRuns.RunIsSweep: no upload is accepted, no date corrected and no file lost during the run, and a file that can be read is read before its flag is cleared; a reread that fails though its file reads (`internal/tracker/reprocess.go:47-56`) is a step of the machine and covered by `Sweep.StepsReread`. `Rereads.FlaggedIsRead` speaks of one execution over any run.
- Upgrade.UpgradeIsMended: an account none of whose files gives a date any more stays as the upgrade left it until something of it is recorded or read again; `Upgrade.MendedExactly` says exactly when.
- Collapse.CollapseBound: makes no claim about backfills, since a backfilled execution is checked against its predecessor only.

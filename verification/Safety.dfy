/**
 What holds in every state the service can reach, and over every run that reaches it, whatever
 crashes on the way.
 */
module Safety {
  import opened Schema
  import opened DateOrder
  import opened History
  import opened Operations
  import opened Buckets
  import opened Replay
  import opened Export
  import opened Machine

  // ---------------------------------------------------------------- nothing accepted is lost

  /** An upload stays the upload it was; completed stays completed and failed stays failed. */
  ghost predicate Kept(s: System, t: System, id: UploadId) {
    id in s.db.uploads ==>
      && id in t.db.uploads && SameIdentity(s.db.uploads[id], t.db.uploads[id])
      && (s.db.uploads[id].status == Completed ==> t.db.uploads[id].status == Completed)
      && (s.db.uploads[id].status == Failed ==> t.db.uploads[id].status == Failed)
  }

  lemma StepKeeps(s: System, step: Step, id: UploadId)
    requires Fit(s) && Enabled(s, step)
    ensures Kept(s, Perform(s, step), id)
  {
    hide Fit;
    hide Enabled;
    hide Perform;
    if id in s.db.uploads {
      if step.Redate? {
        RedateKeeps(s, step.id, id);
      } else if Rebuilding(step) {
        RecordKeeps(s, step, id);
      } else {
        OtherKeeps(s, step, id);
      }
    }
  }

  lemma RecordKeeps(s: System, step: Step, id: UploadId)
    requires Fit(s) && Enabled(s, step) && (step.Record? || step.ReadAgain?) && id in s.db.uploads
    ensures Kept(s, Perform(s, step), id)
  {
    ParsedIsValid(s.files[step.id]);
    AppliedKeeps(s, step.id, ReadFile(s, step.id).value, id);
  }

  lemma RedateKeeps(s: System, x: UploadId, id: UploadId)
    requires Fit(s) && Enabled(s, Redate(x)) && id in s.db.uploads
    ensures Kept(s, Perform(s, Redate(x)), id)
  {
    assert UploadOk(s.db, x) && UploadOk(s.db, id);
    var when := DetectSnapshotDate(ReadFile(s, x).value, s.db.uploads[x]).value;
    RedatedOk(s.db, x, when.0, when.1, id);
  }

  lemma OtherKeeps(s: System, step: Step, id: UploadId)
    requires Fit(s) && Enabled(s, step) && id in s.db.uploads && !Rebuilding(step)
    ensures Kept(s, Perform(s, step), id)
  {
    hide Enabled;
    hide Perform;
    hide Kept;
    hide Edits;
    hide WellFormed;
    hide UploadOk;
    OtherEdits(s, step);
    EditKeeps(s, step, Perform(s, step), id);
  }

  lemma EditKeeps(s: System, step: Step, t: System, id: UploadId)
    requires Edits(s, step, t) && id in s.db.uploads
    ensures Kept(s, t, id)
  {
  }

  lemma AppliedKeeps(s: System, x: UploadId, e: Export, id: UploadId)
    requires Fit(s) && x in s.db.uploads && id in s.db.uploads && ValidExport(e)
    requires s.pc == Busy(x) || s.pc == Rereading(x)
    ensures var r := AppliedExport(s.db, x, e);
            id in r.uploads && SameIdentity(s.db.uploads[id], r.uploads[id])
            && r.uploads[id].status == (if id == x then Completed else s.db.uploads[id].status)
    ensures s.db.uploads[x].status == Processing || s.db.uploads[x].status == Completed
  {
    AppliedItself(s.db, x, e);
    if id != x {
      assert UploadOk(s.db, id);
      AppliedOther(s.db, x, e, id);
    }
  }

  /** Recording an export moves nobody in the queue. */
  lemma SameArrivals(db: Db, id: UploadId, e: Export)
    requires id in db.uploads
    ensures var r := AppliedExport(db, id, e);
            r.uploads.Keys == db.uploads.Keys && forall x | x in db.uploads ::
                r.uploads[x].uploadedAt == db.uploads[x].uploadedAt
  {
  }

  /** Over any run no accepted upload is lost, and the final states are final. */
  lemma {:induction false} NothingIsLost(s: System, steps: seq<Step>, t: System, id: UploadId)
    requires Fit(s) && Path(s, steps, t)
    ensures Kept(s, t, id)
    decreases |steps|
  {
    if steps != [] {
      StepKeeps(s, steps[0], id);
      StepFit(s, steps[0]);
      NothingIsLost(Perform(s, steps[0]), steps[1..], t, id);
    }
  }

  // ---------------------------------------------------------------- one at a time

  ghost function InProcessing(s: System): set<UploadId> {
    set id | id in s.db.uploads && s.db.uploads[id].status == Processing
  }

  /** The uploads in processing are the one the worker holds and those whose failure went unrecorded. */
  lemma ProcessingIsAccountedFor(s: System)
    requires Fit(s)
    ensures |InProcessing(s)| == |s.stranded| + if s.pc.Busy? then 1 else 0
  {
    var held := if s.pc.Busy? then {s.pc.id} else {};
    assert InProcessing(s) == s.stranded + held;
    assert s.stranded !! held;
  }

  /** At most one upload is in processing in every state of the run. */
  ghost predicate OneThroughout(s: System, steps: seq<Step>)
    decreases |steps|
  {
    && |InProcessing(s)| <= 1
    && (steps != [] && Enabled(s, steps[0]) ==> OneThroughout(Perform(s, steps[0]), steps[1..]))
  }

  /** An upload is claimed after the failure of another could not be written, with no restart in between. */
  predicate ClaimsBesideUnwritten(steps: seq<Step>) {
    exists i, j :: 0 <= i < j < |steps| && steps[i].Strand? && ClaimAt(steps, i, j)
  }

  predicate ClaimAt(steps: seq<Step>, i: nat, j: nat)
    requires i < j < |steps|
  {
    steps[j].Claim? && forall k | i < k < j :: !steps[k].Start?
  }

  /** A claim in `steps` that no restart precedes. */
  predicate ClaimsBeforeStart(steps: seq<Step>)
    decreases |steps|
  {
    steps != [] && !steps[0].Start? && (steps[0].Claim? || ClaimsBeforeStart(steps[1..]))
  }

  lemma {:induction false} ClaimsBeforeStartIs(steps: seq<Step>)
    ensures ClaimsBeforeStart(steps) <==> exists j :: 0 <= j < |steps| && steps[j].Claim? && forall k | 0 <= k <= j ::
              !steps[k].Start?
    decreases |steps|
  {
    if steps != [] {
      var rest := steps[1..];
      ClaimsBeforeStartIs(rest);
      if j :| 0 <= j < |rest| && rest[j].Claim? && forall k | 0 <= k <= j :: !rest[k].Start? {
        assert steps[j + 1].Claim?;
        assert forall k | 0 < k <= j + 1 :: steps[k] == rest[k - 1];
      }
      if j :| 0 <= j < |steps| && steps[j].Claim? && forall k | 0 <= k <= j :: !steps[k].Start? {
        if j > 0 {
          assert rest[j - 1].Claim?;
          assert forall k | 0 <= k <= j - 1 :: rest[k] == steps[k + 1];
        }
      }
    }
  }

  lemma BesideUnwrittenFirst(steps: seq<Step>)
    requires steps != []
    ensures ClaimsBesideUnwritten(steps) <==>
              (steps[0].Strand? && ClaimsBeforeStart(steps[1..])) || ClaimsBesideUnwritten(steps[1..])
  {
    var rest := steps[1..];
    ClaimsBeforeStartIs(rest);
    if i, j :| 0 <= i < j < |steps| && steps[i].Strand? && ClaimAt(steps, i, j) {
      if i == 0 {
        assert rest[j - 1].Claim?;
        assert forall k | 0 <= k <= j - 1 :: rest[k] == steps[k + 1];
      } else {
        assert rest[i - 1].Strand? && ClaimAt(rest, i - 1, j - 1) by {
          assert forall k | i - 1 < k < j - 1 :: rest[k] == steps[k + 1];
        }
      }
    }
    if steps[0].Strand? && ClaimsBeforeStart(rest) {
      var j :| 0 <= j < |rest| && rest[j].Claim? && forall k | 0 <= k <= j :: !rest[k].Start?;
      assert ClaimAt(steps, 0, j + 1) by {
        assert forall k | 0 < k < j + 1 :: steps[k] == rest[k - 1];
      }
    }
    if ClaimsBesideUnwritten(rest) {
      var i, j :| 0 <= i < j < |rest| && rest[i].Strand? && ClaimAt(rest, i, j);
      assert steps[i + 1].Strand? && ClaimAt(steps, i + 1, j + 1) by {
        assert forall k | i + 1 < k < j + 1 :: steps[k] == rest[k - 1];
      }
    }
  }

  /** Something is in processing that the running worker does not hold. */
  predicate Beside(s: System) {
    s.pc != Down && s.stranded != {}
  }

  lemma CountsAccountedFor(s: System, step: Step)
    requires Fit(s) && Enabled(s, step)
    ensures var t := Perform(s, step);
            && |InProcessing(s)| == |s.stranded| + (if s.pc.Busy? then 1 else 0)
            && |InProcessing(t)| == |t.stranded| + if t.pc.Busy? then 1 else 0
  {
    hide *;
    StepFit(s, step);
    ProcessingIsAccountedFor(s);
    ProcessingIsAccountedFor(Perform(s, step));
  }

  /** How one step moves the count of uploads in processing, from a state with at most one. */
  lemma StepCounts(s: System, step: Step)
    requires Fit(s) && Enabled(s, step) && |InProcessing(s)| <= 1
    ensures var t := Perform(s, step);
            && (|InProcessing(t)| <= 1 <==> !(step.Claim? && Beside(s)))
            && (!(step.Claim? && Beside(s)) ==>
                 (Beside(t) <==> step.Strand? || (Beside(s) && !step.Crash? && !step.Start?)))
            && (step.Crash? ==> t.pc == Down)
  {
    hide *;
    CountsAccountedFor(s, step);
    StepMoves(s, step);
    CountsAre(s, step, Perform(s, step));
  }

  lemma CountsAre(s: System, step: Step, t: System)
    requires Moves(s, step, t)
    requires |InProcessing(s)| == |s.stranded| + (if s.pc.Busy? then 1 else 0) && |InProcessing(s)| <= 1
    requires |InProcessing(t)| == |t.stranded| + if t.pc.Busy? then 1 else 0
    ensures |InProcessing(t)| <= 1 <==> !(step.Claim? && Beside(s))
    ensures !(step.Claim? && Beside(s)) ==> (Beside(t) <==> step.Strand? || (Beside(s) && !step.Crash? && !step.Start?))
    ensures step.Crash? ==> t.pc == Down
  {
    hide InProcessing;
    assert s.stranded == {} <==> |s.stranded| == 0;
  }

  /** While the service is down nothing is claimed before it is started. */
  lemma {:induction false} DownClaimsNothing(s: System, steps: seq<Step>, t: System)
    requires s.pc == Down && Path(s, steps, t)
    ensures !ClaimsBeforeStart(steps)
    decreases |steps|
  {
    if steps != [] && !steps[0].Start? {
      DownClaimsNothing(Perform(s, steps[0]), steps[1..], t);
    }
  }

  lemma {:induction false} OneThroughoutFrom(s: System, steps: seq<Step>, t: System)
    requires Fit(s) && Path(s, steps, t) && |InProcessing(s)| <= 1
    ensures OneThroughout(s, steps) <==> !ClaimsBesideUnwritten(steps) && !(Beside(s) && ClaimsBeforeStart(steps))
    decreases |steps|
  {
    if steps != [] {
      var s1 := Perform(s, steps[0]);
      StepCounts(s, steps[0]);
      StepFit(s, steps[0]);
      BesideUnwrittenFirst(steps);
      if |InProcessing(s1)| <= 1 {
        OneThroughoutFrom(s1, steps[1..], t);
        if s1.pc == Down {
          DownClaimsNothing(s1, steps[1..], t);
        }
      }
    }
  }

  /** After any crash, with at most one upload left in processing. */
  lemma OneAfterCrash(s: System, steps: seq<Step>, t: System)
    requires Fit(s) && Path(s, steps, t) && s.pc == Down && |InProcessing(s)| <= 1
    ensures OneThroughout(s, steps) <==> !ClaimsBesideUnwritten(steps)
  {
    OneThroughoutFrom(s, steps, t);
  }

  /**
   From a service that has never run, at most one upload is ever in processing if and only if no
   upload is claimed after the failure of another could not be written, with no restart in between.
   Crashes alone never lead to two.
   */
  lemma OneAtATime(s: System, steps: seq<Step>, t: System)
    requires Initial(s) && Path(s, steps, t)
    ensures OneThroughout(s, steps) <==> !ClaimsBesideUnwritten(steps)
  {
    InitialInv(s);
    assert InProcessing(s) == {};
    OneAfterCrash(s, steps, t);
  }

  /**
   Once a worker at rest has emptied the queue, every upload there was is decided, or its failure
   could not be written.
   */
  lemma EmptiedIsDecided(s: System, steps: seq<Step>, t: System, id: UploadId)
    requires Fit(s) && Path(s, steps, t) && id in s.db.uploads
    requires t.pc == Idle && PendingTimes(t.db) == map[]
    ensures id in t.db.uploads
    ensures t.db.uploads[id].status == Completed || t.db.uploads[id].status == Failed || id in t.stranded
  {
    NothingIsLost(s, steps, t, id);
    PathFit(s, steps, t);
    hide WellFormed;
    hide UploadOk;
    assert id !in PendingTimes(t.db);
  }

  lemma PendingAfterStrand(s: System, a: UploadId)
    requires Enabled(s, Claim(a))
    ensures PendingTimes(Perform(Perform(s, Claim(a)), Strand(a)).db) == PendingTimes(s.db) - {a}
  {
  }

  /** A failure that could not be recorded, and the next claim: two uploads in processing. */
  lemma UnrecordedFailureLeavesTwo(s: System, a: UploadId, b: UploadId) returns (t: System)
    requires Fit(s) && Enabled(s, Claim(a))
    requires IsOldest(PendingTimes(s.db) - {a}, b)
    ensures Path(s, [Claim(a), Strand(a), Claim(b)], t) && Fit(t)
    ensures a != b && {a, b} <= InProcessing(t)
  {
    hide Fit;
    hide Enabled;
    hide Perform;
    hide Path;
    hide InProcessing;
    var s1 := Perform(s, Claim(a));
    StrandEnabled(s, a, b);
    var s2 := Perform(s1, Strand(a));
    t := Perform(s2, Claim(b));
    StepFit(s, Claim(a));
    StepFit(s1, Strand(a));
    StepFit(s2, Claim(b));
    ThreeSteps(s, Claim(a), Strand(a), Claim(b));
    BothHeld(s, a, b);
  }

  lemma StrandEnabled(s: System, a: UploadId, b: UploadId)
    requires Enabled(s, Claim(a)) && IsOldest(PendingTimes(s.db) - {a}, b)
    ensures Enabled(Perform(s, Claim(a)), Strand(a))
    ensures Enabled(Perform(Perform(s, Claim(a)), Strand(a)), Claim(b))
  {
    PendingAfterStrand(s, a);
    hide PendingTimes;
    hide IsOldest;
  }

  lemma BothHeld(s: System, a: UploadId, b: UploadId)
    requires Enabled(s, Claim(a)) && Enabled(Perform(s, Claim(a)), Strand(a))
    requires Enabled(Perform(Perform(s, Claim(a)), Strand(a)), Claim(b))
    ensures a != b && {a, b} <= InProcessing(Perform(Perform(Perform(s, Claim(a)), Strand(a)), Claim(b)))
  {
    ClaimIsPending(s, a);
    ClaimIsPending(Perform(Perform(s, Claim(a)), Strand(a)), b);
    hide IsOldest;
    hide PendingTimes;
    hide Enabled;
  }

  lemma ThreeSteps(s: System, a: Step, b: Step, c: Step)
    requires Enabled(s, a) && Enabled(Perform(s, a), b) && Enabled(Perform(Perform(s, a), b), c)
    ensures Path(s, [a, b, c], Perform(Perform(Perform(s, a), b), c))
  {
    var t := Perform(Perform(Perform(s, a), b), c);
    assert Path(t, [], t);
    assert [c][1..] == [] && [b, c][1..] == [c] && [a, b, c][1..] == [b, c];
    assert Path(Perform(Perform(s, a), b), [c], t);
    assert Path(Perform(s, a), [b, c], t);
  }

  // ---------------------------------------------------------------- recorded once

  /** How often the pending path records upload `id` in a run. */
  ghost function Records(steps: seq<Step>, id: UploadId): nat {
    if steps == [] then 0
    else Records(steps[1..], id) + if steps[0].Record? && steps[0].id == id then 1 else 0
  }

  ghost function Done(s: System, id: UploadId): nat {
    if id in s.db.uploads && s.db.uploads[id].status == Completed then 1 else 0
  }

  lemma StepRecords(s: System, step: Step, id: UploadId)
    requires Fit(s) && Enabled(s, step)
    ensures Done(Perform(s, step), id) == Done(s, id) + if step.Record? && step.id == id then 1 else 0
  {
    if step.Record? || step.ReadAgain? {
      RebuildRecords(s, step, id);
    } else if !step.Redate? {
      OtherColumns(s, step);
      hide Fit;
      hide Enabled;
      hide Perform;
    } else {
      RedateRecords(s, step.id, id);
      hide Fit;
      hide Enabled;
      hide Perform;
    }
  }

  lemma RebuildRecords(s: System, step: Step, id: UploadId)
    requires Fit(s) && Enabled(s, step) && (step.Record? || step.ReadAgain?)
    ensures Done(Perform(s, step), id) == Done(s, id) + if step.Record? && step.id == id then 1 else 0
  {
    hide Enabled;
    hide Perform;
    hide WellFormed;
    hide UploadOk;
    hide AppliedExport;
    hide ReadFile;
    RecordEffect(s, step);
    AppliedStatuses(s.db, step.id, ReadFile(s, step.id).value);
  }

  lemma RedateRecords(s: System, x: UploadId, id: UploadId)
    requires Enabled(s, Redate(x))
    ensures Done(Perform(s, Redate(x)), id) == Done(s, id)
  {
  }

  /** The pending path records an upload once if the run completes it, and otherwise never. */
  lemma {:induction false} RecordedOnce(s: System, steps: seq<Step>, t: System, id: UploadId)
    requires Fit(s) && Path(s, steps, t)
    ensures Done(s, id) + Records(steps, id) == Done(t, id)
    decreases |steps|
  {
    if steps != [] {
      StepRecords(s, steps[0], id);
      StepFit(s, steps[0]);
      RecordedOnce(Perform(s, steps[0]), steps[1..], t, id);
    }
  }

  // ---------------------------------------------------------------- files

  /** Unless something else takes it away, the file of an upload is there until its completion has committed. */
  lemma {:induction false} FileOutlivesCommit(s: System, steps: seq<Step>, t: System, id: UploadId)
    requires Fit(s) && Path(s, steps, t) && Lose(id) !in steps && id in s.files
    ensures id in t.files || (id in t.db.uploads && t.db.uploads[id].status == Completed)
    decreases |steps|
  {
    if steps != [] {
      var s1 := Perform(s, steps[0]);
      StepFit(s, steps[0]);
      assert Lose(id) !in steps[1..];
      assert steps[0] in steps;
      if id in s1.files {
        FileOutlivesCommit(s1, steps[1..], t, id);
      } else {
        assert steps[0] == Clear(id, true);
        NothingIsLost(s1, steps[1..], t, id);
      }
    }
  }

  // ---------------------------------------------------------------- the history at all times

  /**
   The numbering: an account's completed uploads carry the numbers 1 to n in order of date, upload
   time and id, and no other upload carries one.
   */
  lemma NumberingHolds(s: System, account: AccountId)
    requires Inv(s)
    ensures var order := Timeline(s.db.uploads, account);
            && IsTimeline(s.db.uploads, account, order)
            && (forall i: nat | i < |order| ::
                 order[i] in s.db.uploads && s.db.uploads[order[i]].sequenceNo == Some(i + 1))
            && (forall id | id in s.db.uploads && s.db.uploads[id].account == account && id !in order ::
                 s.db.uploads[id].sequenceNo == None)
  {
    hide Sound;
    hide UploadOk;
    hide Consistent;
    SoundIsConsistent(s.db, account);
    ConsistentIsNumbered(s.db, account);
    OthersUnnumbered(s.db, account);
  }

  lemma SoundIsConsistent(db: Db, account: AccountId)
    requires Sound(db)
    ensures Consistent(db, account)
  {
  }

  lemma OthersUnnumbered(db: Db, account: AccountId)
    requires Sound(db)
    ensures forall id | id in db.uploads && db.uploads[id].account == account && id !in Timeline(db.uploads, account) ::
              db.uploads[id].sequenceNo == None
  {
    assert Consistent(db, account);
  }

  /** Every execution carries followers, so for them the log has no gaps. */
  lemma FollowersAlwaysCarried(s: System, account: AccountId, i: nat, j: nat)
    requires Inv(s) && i <= j < |Timeline(s.db.uploads, account)|
    ensures CarriedThroughout(s.db, Timeline(s.db.uploads, account), Followers, i, j)
  {
    var order := Timeline(s.db.uploads, account);
    forall k: nat | i <= k <= j
      ensures Carried(s.db, order, Followers, k)
    {
      assert order[k] in order;
      assert UploadOk(s.db, order[k]);
    }
  }

  /**
   In every state a run can reach, replaying the follower changes between two executions turns the
   first one's followers into the second one's, and the counts add up.
   */
  lemma FollowersReplay(s: System, steps: seq<Step>, t: System, account: AccountId, i: nat, j: nat)
    requires Initial(s) && Path(s, steps, t) && i <= j < |Timeline(t.db.uploads, account)|
    ensures var order := Timeline(t.db.uploads, account);
            && Replayed(t.db, order, Followers, i, j) == Names(t.db.members, order[j], Followers)
            && t.db.uploads[order[j]].totals.members
               == t.db.uploads[order[i]].totals.members
                 + Moved(t.db, order, Followers, Followed, i, j) - Moved(t.db, order, Followers, Unfollowed, i, j)
  {
    InitialInv(s);
    PathInv(s, steps, t);
    FollowersAlwaysCarried(t, account, i, j);
    ReplayRebuilds(t.db, account, Followers, i, j);
    CountsAddUp(t.db, account, Followers, i, j);
    FollowerColumn(t, account, i);
    FollowerColumn(t, account, j);
  }

  /** The follower column of an execution is the total of its follower list. */
  lemma FollowerColumn(s: System, account: AccountId, i: nat)
    requires Inv(s) && i < |Timeline(s.db.uploads, account)|
    ensures var order := Timeline(s.db.uploads, account);
            order[i] in s.db.uploads && s.db.uploads[order[i]].totals == Numbers(s.db, order[i], Followers)
  {
    var order := Timeline(s.db.uploads, account);
    assert order[i] in order;
    assert UploadOk(s.db, order[i]);
    CompletedIsNumbered(s.db, order[i]);
    assert Consistent(s.db, account);
    var l := ListKey(order[i], Followers);
    assert s.db.lists[l] == DerivedTotals(s.db, order, l);
  }

  /** For followers the bucket theorem needs no hypothesis about the lists. */
  lemma FollowerBuckets(s: System, steps: seq<Step>, t: System, account: AccountId, u: User, f: nat, h: nat)
    requires Initial(s) && Path(s, steps, t) && f <= h < |Timeline(t.db.uploads, account)|
    ensures var order := Timeline(t.db.uploads, account);
            var net := Count(t.db, order, Followers, u, Unfollowed, f, h)
                       - Count(t.db, order, Followers, u, Followed, f, h);
            && (u in Lost(t.db, order[f], order[h], Followers) <==> net == 1)
            && (u in Gained(t.db, order[f], order[h], Followers) <==> net == -1)
            && (u in Returned(t.db, account, order[f], order[h], Followers, f + 1, h + 1) <==>
                  net == 0 && Present(t.db, order, Followers, u, f)
                    && Count(t.db, order, Followers, u, Unfollowed, f, h) > 0)
            && (u in Transient(t.db, account, order[f], order[h], Followers, f + 1, h + 1) <==>
                  net == 0 && !Present(t.db, order, Followers, u, f)
                    && Count(t.db, order, Followers, u, Followed, f, h) > 0)
            && -1 <= net <= 1
  {
    InitialInv(s);
    PathInv(s, steps, t);
    FollowersAlwaysCarried(t, account, f, h);
    BucketTheorem(t.db, account, Followers, u, f, h);
  }

  /** A date set by hand is the execution's date for ever. */
  lemma ManualDateStands(s: System, steps: seq<Step>, t: System, id: UploadId)
    requires Initial(s) && Path(s, steps, t)
    requires id in t.db.uploads && t.db.uploads[id].status == Completed && t.db.uploads[id].manualDate.Some?
    ensures t.db.uploads[id].takenAt == t.db.uploads[id].manualDate
  {
    InitialInv(s);
    PathInv(s, steps, t);
    assert UploadOk(t.db, id);
  }

  // ---------------------------------------------------------------- silence and emptiness

  /**
   An export that does not carry a list leaves no change for it; one that carries it empty records
   it, with a departure for everybody the execution before listed.
   */
  lemma SilenceIsNotEmptiness(db: Db, id: UploadId, c: Content, kind: Kind, u: User, change: ChangeType)
    requires Sound(db) && id in db.uploads && Parsed(c).Some?
    ensures var e := Parsed(c).value;
            var r := AppliedExport(db, id, e);
            var order := Timeline(r.uploads, db.uploads[id].account);
            var prev := Predecessor(order, id);
            && id in order
            && (ListKey(id, kind) in r.lists <==> kind in e.lists)
            && (EventKey(id, kind, u, change) in r.changes ==>
                  kind in e.lists && prev.Some? && ListKey(prev.value, kind) in r.lists)
            && (kind in e.lists && e.lists[kind] == [] ==> Names(r.members, id, kind) == {})
            && (kind in e.lists && e.lists[kind] == [] && prev.Some? && u in Names(r.members, prev.value, kind) ==>
                  EventKey(id, kind, u, Unfollowed) in r.changes)
  {
    var e := Parsed(c).value;
    var when, account := ResolveSnapshotDate(e, db.uploads[id]), db.uploads[id].account;
    AppliedSound(db, id, SnapshotIn(e), when.0, when.1);
    AppliedStatuses(db, id, e);
    AppliedAccounts(db, id, SnapshotIn(e), when.0, when.1);
    ListsOfExport(db, id, e, kind);
    hide Sound;
    hide Applied;
    ChangesNeedBothLists(AppliedExport(db, id, e), account, id, kind, u, change);
  }

  /** The changes of one list at one execution, read off the tables. */
  lemma ChangesNeedBothLists(db: Db, account: AccountId, id: UploadId, kind: Kind, u: User, change: ChangeType)
    requires Sound(db) && IsCompleted(db.uploads, account, id)
    ensures var order := Timeline(db.uploads, account); var prev := Predecessor(order, id);
            && id in order
            && (EventKey(id, kind, u, change) in db.changes ==>
                  ListKey(id, kind) in db.lists && prev.Some? && ListKey(prev.value, kind) in db.lists)
            && (ListKey(id, kind) in db.lists && u !in Names(db.members, id, kind) && prev.Some?
                 && u in Names(db.members, prev.value, kind) ==>
                  EventKey(id, kind, u, Unfollowed) in db.changes)
  {
    hide Sound;
    var order := Timeline(db.uploads, account);
    assert id in order;
    var i := Position(order, id);
    LogAgrees(db, account, order, kind, u, i);
    if i > 0 {
      LogAgrees(db, account, order, kind, u, i - 1);
    }
  }

  lemma ListsOfExport(db: Db, id: UploadId, e: Export, kind: Kind)
    requires id in db.uploads
    ensures var r := AppliedExport(db, id, e);
            && (ListKey(id, kind) in r.lists <==> kind in e.lists)
            && (kind in e.lists && e.lists[kind] == [] ==> Names(r.members, id, kind) == {})
  {
    var r := AppliedExport(db, id, e);
    assert ListKey(id, kind) in ListKeys(id, SnapshotIn(e)) <==> kind in e.lists;
    if kind in e.lists && e.lists[kind] == [] {
      assert MembersIn(e.lists[kind]) == [];
      forall u
        ensures MemberKey(id, kind, u) !in r.members
      {
        assert MemberKey(id, kind, u) !in MemberKeys(id, SnapshotIn(e));
      }
    }
  }

  // ---------------------------------------------------------------- from the documents

  /** The archive holds a recognised document of the list. */
  ghost predicate Recognises(parts: map<Kind, seq<Part>>, kind: Kind) {
    kind in parts && AnyRecognised(parts[kind])
  }

  /** None of the recognised documents of the list names anybody. */
  ghost predicate NamesNobody(parts: map<Kind, seq<Part>>, kind: Kind) {
    kind in parts ==> forall part | part in parts[kind] && part.Recognised? :: part.entries == []
  }

  /** A list is in the export exactly when one of its documents was recognised, however few entries it had. */
  lemma RecognisedIsCarried(
    parts: map<Kind, seq<Part>>, partial: bool, declaredAt: Option<Time>, newestEntry: Option<Time>, kind: Kind)
    requires Parsed(Archive(parts, partial, declaredAt, newestEntry)).Some?
    ensures kind in Parsed(Archive(parts, partial, declaredAt, newestEntry)).value.lists <==> Recognises(parts, kind)
  {
    DefinitionsAreComplete(kind);
    if kind in parts {
      ParsedAnyIs(parts[kind]);
    }
  }

  lemma VacantIsEmpty(
    parts: map<Kind, seq<Part>>, partial: bool, declaredAt: Option<Time>, newestEntry: Option<Time>, kind: Kind)
    requires Parsed(Archive(parts, partial, declaredAt, newestEntry)).Some?
    requires Recognises(parts, kind) && NamesNobody(parts, kind)
    ensures var e := Parsed(Archive(parts, partial, declaredAt, newestEntry)).value;
            kind in e.lists && e.lists[kind] == []
  {
    RecognisedIsCarried(parts, partial, declaredAt, newestEntry, kind);
    NoEntries(parts[kind]);
    ListingUnique(Remembered([]), Deduped([]), []);
  }

  lemma {:induction false} NoEntries(parts: seq<Part>)
    requires forall part | part in parts && part.Recognised? :: part.entries == []
    ensures Entries(parts) == []
  {
    if parts != [] {
      NoEntries(parts[..|parts| - 1]);
      assert parts[|parts| - 1] in parts;
    }
  }

  /**
   The same, from the documents of the archive: a list none of whose documents was recognised is
   silence and logs nothing; one whose recognised documents name nobody is registered as empty, and
   everybody the execution before listed has left it.
   */
  lemma DocumentsDecide(
    db: Db, id: UploadId, parts: map<Kind, seq<Part>>, partial: bool, declaredAt: Option<Time>,
    newestEntry: Option<Time>, kind: Kind, u: User, change: ChangeType)
    requires Sound(db) && id in db.uploads && Parsed(Archive(parts, partial, declaredAt, newestEntry)).Some?
    ensures var r := AppliedExport(db, id, Parsed(Archive(parts, partial, declaredAt, newestEntry)).value);
            var prev := Predecessor(Timeline(r.uploads, db.uploads[id].account), id);
            && (ListKey(id, kind) in r.lists <==> Recognises(parts, kind))
            && (!Recognises(parts, kind) ==> EventKey(id, kind, u, change) !in r.changes)
            && (Recognises(parts, kind) && NamesNobody(parts, kind) ==>
                  && Names(r.members, id, kind) == {}
                  && (prev.Some? && u in Names(r.members, prev.value, kind) ==>
                        EventKey(id, kind, u, Unfollowed) in r.changes))
  {
    hide Sound;
    hide AppliedExport;
    hide Parsed;
    hide Timeline;
    var c := Archive(parts, partial, declaredAt, newestEntry);
    SilenceIsNotEmptiness(db, id, c, kind, u, change);
    RecognisedIsCarried(parts, partial, declaredAt, newestEntry, kind);
    if Recognises(parts, kind) && NamesNobody(parts, kind) {
      VacantIsEmpty(parts, partial, declaredAt, newestEntry, kind);
    }
  }
}

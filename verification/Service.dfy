/**
 The worker: claiming, processing, rereading and draining both queues, over the store and the files
 on disk.

 What happens outside the program -- whether a file opens, a statement or a commit goes through, a
 cancellation arrives -- is a parameter.  What the worker does is stated as steps of the machine, so
 that what holds over all runs of the machine holds of it: a method that chooses among steps returns
 those it took, one that always takes the same step names it, and the methods a step is made of say
 what they leave in the store.
 */
module Service {
  import opened Schema
  import opened DateOrder
  import opened History
  import opened Operations
  import opened Admission
  import opened Export
  import opened Machine
  import opened Provenance
  import opened Turns
  import opened Upgrade
  import St = Store

  /** The work left in both queues. */
  ghost function Work(db: Db): nat {
    |PendingTimes(db)| + |FlaggedTimes(db)|
  }

  // ---------------------------------------------------------------- the measure of a drain

  /** A claim takes its upload out of the queue. */
  lemma ClaimWork(db: Db, id: UploadId)
    requires id in PendingTimes(db)
    ensures Work(SetStatus(db, id, Processing)) == Work(db) - 1
  {
    var t := SetStatus(db, id, Processing);
    assert PendingTimes(t) == PendingTimes(db) - {id};
    assert FlaggedTimes(t) == FlaggedTimes(db);
    FewerKeys(PendingTimes(db), id);
  }

  /** A failure to process leaves both queues as they are. */
  lemma FailWork(db: Db, id: UploadId)
    requires id in db.uploads && db.uploads[id].status == Processing
    ensures Work(SetStatus(db, id, Failed)) == Work(db)
  {
    var t := SetStatus(db, id, Failed);
    assert PendingTimes(t) == PendingTimes(db);
    assert FlaggedTimes(t) == FlaggedTimes(db);
  }

  /** A cleared flag takes its execution out of the queue. */
  lemma UnflagWork(db: Db, id: UploadId)
    requires id in FlaggedTimes(db)
    ensures Work(Unmarked(db, id)) == Work(db) - 1
  {
    var t := Unmarked(db, id);
    forall x | x in db.uploads
      ensures t.uploads[x].status == db.uploads[x].status && t.uploads[x].uploadedAt == db.uploads[x].uploadedAt
    {
    }
    assert PendingTimes(t) == PendingTimes(db);
    UnflagQueue(db, id);
    FewerKeys(FlaggedTimes(db), id);
  }

  lemma UnflagQueue(db: Db, id: UploadId)
    requires id in FlaggedTimes(db)
    ensures FlaggedTimes(Unmarked(db, id)) == FlaggedTimes(db) - {id}
  {
    hide PendingTimes;
    var t := FlaggedTimes(Unmarked(db, id));
    forall x
      ensures x in t <==> x in FlaggedTimes(db) && x != id
      ensures x in t ==> t[x] == FlaggedTimes(db)[x]
    {
    }
  }

  lemma FewerKeys(rows: map<UploadId, Time>, id: UploadId)
    requires id in rows
    ensures |rows - {id}| == |rows| - 1
  {
    assert (rows - {id}).Keys == rows.Keys - {id};
    assert |rows.Keys - {id}| == |rows.Keys| - 1;
  }

  /** Recording a claimed upload, or rereading a flagged execution, leaves both queues as they are. */
  lemma RecordWork(s: System, id: UploadId, e: Export)
    requires Fit(s) && id in s.db.uploads && (s.pc == Busy(id) || s.pc == Rereading(id))
    ensures PendingTimes(AppliedExport(s.db, id, e)) == PendingTimes(s.db)
    ensures FlaggedTimes(AppliedExport(s.db, id, e)) == FlaggedTimes(s.db)
    ensures Work(AppliedExport(s.db, id, e)) == Work(s.db)
  {
    hide WellFormed;
    assert UploadOk(s.db, id);
    AppliedQueues(s.db, id, e);
  }

  lemma AppliedQueues(db: Db, id: UploadId, e: Export)
    requires id in db.uploads && db.uploads[id].status != Pending
    requires db.uploads[id].reprocessAt.Some? ==> db.uploads[id].status == Completed
    ensures PendingTimes(AppliedExport(db, id, e)) == PendingTimes(db)
    ensures FlaggedTimes(AppliedExport(db, id, e)) == FlaggedTimes(db)
  {
    hide AppliedExport;
    AppliedColumns(db, id, e);
    AppliedStatuses(db, id, e);
  }

  lemma AppliedColumns(db: Db, id: UploadId, e: Export)
    requires id in db.uploads
    ensures var r := AppliedExport(db, id, e);
            && r.uploads.Keys == db.uploads.Keys
            && forall x | x in db.uploads :: r.uploads[x].uploadedAt == db.uploads[x].uploadedAt
                                             && r.uploads[x].reprocessAt == db.uploads[x].reprocessAt
  {
  }

  class Tracker {
    const store: St.Store
    const retain: bool
    var files: map<UploadId, Content>
    ghost var sys: System

    ghost predicate Valid()
      reads this, store
      ensures Valid() ==> sys.retain == retain
    {
      sys.db == store.State() && sys.files == files && sys.retain == retain && Fit(sys)
    }

    /** A service over an empty store; nothing runs yet. */
    constructor (store: St.Store, retain: bool)
      requires store.State() == Db(map[], map[], map[], map[])
      ensures Valid() && Initial(sys) && this.store == store && this.retain == retain
    {
      this.store, this.retain, this.files := store, retain, map[];
      sys := System(Db(map[], map[], map[], map[]), map[], retain, Down, {});
      new;
      InitialInv(sys);
    }

    /** A service over what an earlier run, or an earlier version, left; nothing runs yet. */
    constructor Open(store: St.Store, files: map<UploadId, Content>, retain: bool)
      requires Usable(store.State())
      ensures Valid() && sys == Opened(store.State(), files, retain) && this.store == store && this.retain == retain
    {
      this.store, this.retain, this.files := store, retain, files;
      sys := Opened(store.State(), files, retain);
      new;
      OpenedIsFit(store.State(), files, retain);
    }

    // -------------------------------------------------------------- intake

    /** Stores a received file and queues it under a new id. */
    method AcceptUpload(id: UploadId, up: Upload, content: Content)
      requires Valid() && Enabled(sys, Step.Accept(id, up, content))
      modifies this, store
      ensures Valid() && sys == Perform(old(sys), Step.Accept(id, up, content))
      ensures files == old(files)[id := content] && store.uploads == old(store.uploads)[id := up]
    {
      StepFit(sys, Step.Accept(id, up, content));
      files := files[id := content];
      store.CreateUpload(id, up);
      sys := Perform(sys, Step.Accept(id, up, content));
    }

    /** Flags an account's completed executions for rereading. */
    method Reprocess(account: AccountId, now: Time) returns (queued: nat)
      requires Valid()
      modifies this, store
      ensures Valid() && sys == Perform(old(sys), Mark(account, now))
      ensures queued == |set x | x in old(store.uploads) && IsCompleted(old(store.uploads), account, x)
                         && old(store.uploads)[x].reprocessAt.None?|
    {
      hide WellFormed;
      hide UploadOk;
      hide ReadFile;
      hide Admits;
      StepFit(sys, Mark(account, now));
      queued := store.MarkForReprocess(account, now);
      sys := Perform(sys, Mark(account, now));
    }

    /** Serves one request; a file under a name that is taken is turned away. */
    method Serve(request: Request) returns (ghost steps: seq<Step>)
      requires Valid()
      modifies this, store
      ensures Valid() && Run(old(sys), steps, sys) && sys.pc == old(sys.pc)
      ensures steps == Answer(old(sys), request)
      ensures request.ReadOver? ==> steps == [Mark(request.account, request.now)]
      ensures request.Send? ==>
                var taken := request.id in old(files) || exists x | x in old(store.uploads) :: x.n >= request.id.n;
                steps == if taken || !IsNewUpload(request.up) then []
                         else [Step.Accept(request.id, request.up, request.content)]
    {
      hide Fit;
      hide WellFormed;
      hide Created;
      hide Marked;
      hide Path;
      hide UploadsFirst;
      steps := [];
      Stay(sys);
      match request {
        case Send(id, up, content) =>
          if IsNewUpload(up) && id !in files && forall x | x in store.uploads :: x.n < id.n {
            OneStep(sys, Step.Accept(id, up, content));
            AcceptUpload(id, up, content);
            steps := [Step.Accept(id, up, content)];
          }
        case ReadOver(account, now) =>
          OneStep(sys, Mark(account, now));
          var queued := Reprocess(account, now);
          steps := [Mark(account, now)];
      }
    }

    /** Serves what has come in since the last turn. */
    method TakeIn(requests: seq<Request>) returns (ghost steps: seq<Step>)
      requires Valid()
      modifies this, store
      ensures Valid() && Run(old(sys), steps, sys) && sys.pc == old(sys.pc)
      ensures steps == Served(old(sys), requests)
    {
      hide *;
      Stay(sys);
      NothingServed(sys);
      steps := [];
      for i := 0 to |requests|
        invariant Valid() && Run(old(sys), steps, sys) && sys.pc == old(sys.pc)
        invariant steps == Served(old(sys), requests[..i])
      {
        ghost var was := sys;
        RunReached(old(sys), steps, sys);
        assert requests[..i + 1] == requests[..i] + [requests[i]];
        ServedSnoc(old(sys), requests[..i], requests[i]);
        ghost var more := Serve(requests[i]);
        Join(old(sys), steps, was, more, sys);
        steps := steps + more;
      }
      assert requests[..|requests|] == requests;
    }

    // -------------------------------------------------------------- new uploads

    /** What the file kept for an upload holds, if it opens and parses. */
    method ParseStored(id: UploadId, opens: bool) returns (e: Option<Export>)
      requires Valid()
      ensures e == if opens then ReadFile(sys, id) else None
      ensures e.Some? ==> ValidExport(e.value)
    {
      hide Fit;
      e := None;
      if opens && id in files {
        e := Parse(files[id]);
        if e.Some? {
          ParsedIsValid(files[id]);
        }
      }
    }

    /** Whether the export may be recorded, judged against whichever execution precedes it in time. */
    method Judge(id: UploadId, e: Export) returns (admitted: bool, previous: Option<UploadId>)
      requires Valid() && id in sys.db.uploads && ValidExport(e)
      ensures admitted ==> Admits(sys, id, e, previous)
      ensures !admitted ==> forall p :: !Admits(sys, id, e, p)
      ensures var up := store.uploads[id];
              && IsPreceding(sys.db, up.account, ResolveSnapshotDate(e, up).0, id, previous)
              && (previous.Some? ==> previous.value in store.uploads)
              && (admitted <==>
                    up.allowPartial
                    || (!e.partial
                        && (previous.Some? ==>
                              store.uploads[previous.value].totals.members < 25
                              || 2 * |e.lists[Followers]| >= store.uploads[previous.value].totals.members)))
    {
      hide Fit;
      var up := store.uploads[id];
      var when := ResolveSnapshotDate(e, up);
      previous := store.PrecedingCompletedUpload(up.account, when.0, id);
      var count := if previous.Some? then Some(store.uploads[previous.value].totals.members) else None;
      admitted := CheckCoverage(e.partial, |e.lists[Followers]|, count, up.allowPartial) == Admitted;
      AdmittedExactly(e.partial, |e.lists[Followers]|, count, up.allowPartial);
      forall p | IsPreceding(sys.db, up.account, when.0, id, p)
        ensures p == previous
      {
        PrecedingIsUnique(sys.db, up.account, when.0, id, p, previous);
      }
    }

    /** Records an export for `id`, unless the transaction is rolled back. */
    method ApplyExport(id: UploadId, e: Export, commits: bool)
      requires Valid() && id in sys.db.uploads
      modifies store
      ensures store.State() == if commits then AppliedExport(sys.db, id, e) else sys.db
    {
      var when := ResolveSnapshotDate(e, store.uploads[id]);
      var lists := ListSnapshots(e);
      var r := store.ApplySnapshot(id, lists, when.0, when.1, commits);
    }

    /** Removes the file of a recorded upload where files are not kept; failing to is no failure. */
    method ClearFile(id: UploadId, removes: bool) returns (ghost step: Step)
      requires Valid() && sys.pc == Pc.Recorded(id)
      modifies this
      ensures step == Clear(id, !retain && removes)
      ensures files == if !retain && removes then old(files) - {id} else old(files)
      ensures Valid() && Enabled(old(sys), step) && sys == Perform(old(sys), step)
      ensures sys.pc == Idle && sys.db == old(sys.db)
    {
      hide WellFormed;
      hide UploadOk;
      if !retain {
        if removes {
          files := files - {id};
        }
      }
      step := Clear(id, !retain && removes);
      StepFit(sys, step);
      sys := Perform(sys, step);
    }

    /** The decisions and the one transaction of processing an upload. */
    method TryRecord(id: UploadId, turn: Turn) returns (ok: bool, ghost step: Step)
      requires Valid() && sys.pc == Busy(id)
      modifies `sys, store
      ensures Valid()
      ensures ok <==> turn.opens && turn.answers && turn.commits && Recordable(old(sys), id)
      ensures !ok ==> sys == old(sys)
      ensures ok ==> step.Record? && step.id == id && Enabled(old(sys), step) && sys == Perform(old(sys), step)
      ensures ok ==> sys.pc == Pc.Recorded(id) && Work(sys.db) == Work(old(sys.db))
      ensures ok ==> RecordedAsSent(old(sys), sys, id)
    {
      hide WellFormed;
      hide UploadOk;
      hide Applied;
      hide Admits;
      hide Work;
      hide PendingTimes;
      hide FlaggedTimes;
      hide AppliedExport;
      hide RecordedAsSent;
      ok, step := false, Rest;
      var e := ParseStored(id, turn.opens);
      if e.None? || !turn.answers {
        return;
      }
      var admitted, previous := Judge(id, e.value);
      if !admitted {
        return;
      }
      ApplyExport(id, e.value, turn.commits);
      if turn.commits {
        ok, step := true, Record(id, previous);
        StepFit(sys, step);
        RecordWork(sys, id, e.value);
        RecordIsAsSent(sys, step);
        sys := Perform(sys, step);
      }
    }

    /** Records a claimed upload and puts its file away, or changes nothing. */
    method Process(id: UploadId, turn: Turn) returns (ok: bool, ghost steps: seq<Step>)
      requires Valid() && sys.pc == Busy(id)
      modifies this, store
      ensures Valid() && Run(old(sys), steps, sys) && Work(sys.db) == Work(old(sys.db))
      ensures ok <==> turn.opens && turn.answers && turn.commits && Recordable(old(sys), id)
      ensures !ok ==> sys == old(sys) && steps == []
      ensures ok ==> sys.pc == Idle && |steps| == 2 && steps[0].Record? && steps[0].id == id
                     && steps[1] == Clear(id, !retain && turn.removes)
    {
      hide *;
      Stay(sys);
      steps := [];
      ghost var step;
      ok, step := TryRecord(id, turn);
      if ok {
        ghost var recorded := sys;
        Extend(old(sys), steps, old(sys), step);
        steps := steps + [step];
        step := ClearFile(id, turn.removes);
        Extend(old(sys), steps, recorded, step);
        steps := steps + [step];
      }
    }

    /** Takes the oldest pending upload, or finds that there is none. */
    method Claim() returns (id: Option<UploadId>, ghost step: Step)
      requires Valid() && sys.pc == Idle
      modifies `sys, store
      ensures Valid() && Enabled(old(sys), step) && sys == Perform(old(sys), step)
      ensures step == if id.Some? then Step.Claim(id.value) else FindQuiet
      ensures id.Some? <==> PendingTimes(old(sys.db)) != map[]
      ensures id.Some? ==> sys.pc == Busy(id.value) && Work(sys.db) < Work(old(sys.db))
      ensures id.None? ==> sys.pc == Quiet && sys.db == old(sys.db) && PendingTimes(sys.db) == map[]
    {
      hide WellFormed;
      hide UploadOk;
      hide Work;
      hide FlaggedTimes;
      hide ReadFile;
      hide Admits;
      hide AppliedExport;
      id := store.ClaimNextPending();
      if id.Some? {
        step := Step.Claim(id.value);
        assert id.value in PendingTimes(sys.db);
        ClaimWork(sys.db, id.value);
      } else {
        step := FindQuiet;
        assert forall x :: x !in PendingTimes(sys.db);
      }
      StepFit(sys, step);
      sys := Perform(sys, step);
    }

    /** Records that a claimed upload could not be processed; where even that fails it stays claimed. */
    method Fail(id: UploadId, writes: bool) returns (ghost step: Step)
      requires Valid() && sys.pc == Busy(id)
      modifies `sys, store
      ensures step == if writes then Refuse(id) else Strand(id)
      ensures Valid() && Enabled(old(sys), step) && sys == Perform(old(sys), step)
      ensures sys.pc == Idle && Work(sys.db) == Work(old(sys.db))
    {
      hide WellFormed;
      hide UploadOk;
      hide ReadFile;
      hide Admits;
      hide Work;
      hide PendingTimes;
      hide FlaggedTimes;
      hide AppliedExport;
      if writes {
        FailWork(sys.db, id);
        store.FailUpload(id);
        step := Refuse(id);
      } else {
        step := Strand(id);
      }
      StepFit(sys, step);
      sys := Perform(sys, step);
    }

    /** Processes a claimed upload, recording the failure if it could not be. */
    method ProcessClaimed(id: UploadId, turn: Turn) returns (ok: bool, ghost steps: seq<Step>)
      requires Valid() && sys.pc == Busy(id)
      modifies this, store
      ensures Valid() && Run(old(sys), steps, sys) && sys.pc == Idle && Work(sys.db) == Work(old(sys.db))
      ensures steps != [] && Settles(old(sys), id, turn, steps[0])
      ensures steps[1..] == if steps[0].Record? then [Clear(id, !retain && turn.removes)] else []
      ensures (ok <==> !steps[0].Strand?) && (turn.writes ==> ok)
    {
      hide Valid;
      hide Run;
      hide Recordable;
      hide Work;
      hide Fit;
      hide Enabled;
      hide Perform;
      ok, steps := Process(id, turn);
      if !ok {
        ghost var was := sys;
        ghost var step := Fail(id, turn.writes);
        Extend(old(sys), steps, was, step);
        steps, ok := steps + [step], turn.writes;
      }
    }

    /** Claims and processes one queued upload; `ok` is false when the queue itself could not be worked. */
    method ProcessNext(turn: Turn) returns (processed: bool, ok: bool, ghost steps: seq<Step>)
      requires Valid() && sys.pc == Idle
      modifies this, store
      ensures Valid() && Run(old(sys), steps, sys)
      ensures turn.claims && turn.writes ==> ok
      ensures ok ==> turn.claims
      ensures processed ==> sys.pc == Idle && Work(sys.db) < Work(old(sys.db))
      ensures processed <==> turn.claims && PendingTimes(old(sys.db)) != map[]
      ensures processed ==> Processed(old(sys), turn, steps) && (ok <==> !steps[1].Strand?)
      ensures !processed && ok ==> sys.pc == Quiet && sys.db == old(sys.db) && PendingTimes(sys.db) == map[]
      ensures !processed && ok ==>
                steps == [FindQuiet] && Enabled(old(sys), FindQuiet) && sys == Perform(old(sys), FindQuiet)
      ensures !processed && !ok ==> sys == old(sys) && !turn.claims && steps == []
    {
      hide *;
      Stay(sys);
      processed, ok, steps := false, turn.claims, [];
      if !turn.claims {
        return;
      }
      ghost var step;
      var id;
      id, step := Claim();
      OneStep(old(sys), step);
      steps := [step];
      if id.None? {
        return;
      }
      processed := true;
      ghost var claimed := sys;
      ghost var more;
      ok, more := ProcessClaimed(id.value, turn);
      ProcessedIs(old(sys), turn, step, more);
      Join(old(sys), steps, claimed, more, sys);
      steps := steps + more;
    }

    // -------------------------------------------------------------- rereading

    /** Takes the execution flagged longest ago, or finds that none is. */
    method ClaimFlagged() returns (id: Option<UploadId>, ghost step: Step)
      requires Valid() && sys.pc == Quiet
      modifies `sys
      ensures Valid() && Enabled(old(sys), step) && sys == Perform(old(sys), step) && sys.db == old(sys.db)
      ensures step == if id.Some? then ClaimReread(id.value) else Rest
      ensures id.Some? <==> FlaggedTimes(sys.db) != map[]
      ensures id.Some? ==> sys.pc == Rereading(id.value) && id.value in FlaggedTimes(sys.db)
      ensures id.None? ==> sys.pc == Idle && FlaggedTimes(sys.db) == map[]
    {
      hide WellFormed;
      hide UploadOk;
      id := store.ClaimNextReprocess();
      if id.Some? {
        step := ClaimReread(id.value);
        assert id.value in FlaggedTimes(sys.db);
      } else {
        step := Rest;
        assert forall x :: x !in FlaggedTimes(sys.db);
      }
      StepFit(sys, step);
      sys := Perform(sys, step);
    }

    /** Reads an execution again from its file; if that cannot be done it stays as it was. */
    method RereadOne(id: UploadId, turn: Turn) returns (ghost step: Step)
      requires Valid() && sys.pc == Rereading(id) && id in FlaggedTimes(sys.db)
      modifies `sys, store
      ensures Redoes(old(sys), id, turn, step) && !step.ClaimReread?
      ensures Valid() && Enabled(old(sys), step) && sys == Perform(old(sys), step)
      ensures sys.pc == Pc.Reread(id) && id in FlaggedTimes(sys.db) && Work(sys.db) == Work(old(sys.db))
    {
      hide WellFormed;
      hide UploadOk;
      hide Applied;
      hide Work;
      hide PendingTimes;
      hide FlaggedTimes;
      hide AppliedExport;
      hide Enabled;
      hide Perform;
      hide Parsed;
      KeepEffect(sys, id);
      step := KeepAsIs(id);
      var e := ParseStored(id, turn.opens);
      if e.Some? {
        ApplyExport(id, e.value, turn.commits);
        if turn.commits {
          step := ReadAgain(id);
          ReadAgainEnabled(sys, id);
          RecordEffect(sys, step);
          RecordWork(sys, id, e.value);
        }
      }
      StepFit(sys, step);
      sys := Perform(sys, step);
    }

    /** Clears the flag of an execution that has been dealt with, unless that cannot be written. */
    method Finish(id: UploadId, writes: bool) returns (ghost step: Step)
      requires Valid() && sys.pc == Pc.Reread(id) && id in FlaggedTimes(sys.db)
      modifies `sys, store
      ensures step == if writes then Unflag(id) else StayFlagged(id)
      ensures Valid() && Enabled(old(sys), step) && sys == Perform(old(sys), step)
      ensures sys.pc == Idle
      ensures writes ==> Work(sys.db) < Work(old(sys.db))
    {
      hide WellFormed;
      hide UploadOk;
      hide ReadFile;
      hide Admits;
      hide Work;
      hide PendingTimes;
      hide FlaggedTimes;
      hide AppliedExport;
      if writes {
        UnflagWork(sys.db, id);
        store.FinishReprocess(id);
        step := Unflag(id);
      } else {
        step := StayFlagged(id);
      }
      StepFit(sys, step);
      sys := Perform(sys, step);
    }

    /** Lets a worker that could not ask for more go back to waiting. */
    method GiveUp() returns (ghost step: Step)
      requires Valid() && sys.pc == Quiet
      modifies `sys
      ensures step == Rest
      ensures Valid() && Enabled(old(sys), step) && sys == Perform(old(sys), step)
      ensures sys.pc == Idle && sys.db == old(sys.db)
    {
      hide WellFormed;
      hide UploadOk;
      step := Rest;
      StepFit(sys, step);
      sys := Perform(sys, step);
    }

    /** Rereads a claimed execution and takes it off the queue. */
    method RereadClaimed(id: UploadId, turn: Turn) returns (ghost steps: seq<Step>)
      requires Valid() && sys.pc == Rereading(id) && id in FlaggedTimes(sys.db)
      modifies this, store
      ensures Valid() && Run(old(sys), steps, sys) && sys.pc == Idle
      ensures turn.writes ==> Work(sys.db) < Work(old(sys.db))
      ensures |steps| == 2 && Redoes(old(sys), id, turn, steps[0]) && steps[1] == if turn.writes then Unflag(id)
              else StayFlagged(id)
    {
      hide *;
      Stay(sys);
      ghost var step := RereadOne(id, turn);
      Extend(old(sys), [], old(sys), step);
      steps := [] + [step];
      ghost var was := sys;
      step := Finish(id, turn.writes);
      Extend(old(sys), steps, was, step);
      steps := steps + [step];
    }

    /** Rereads one flagged execution, once no upload is waiting. */
    method ReprocessNext(turn: Turn) returns (reread: bool, ok: bool, ghost steps: seq<Step>)
      requires Valid() && sys.pc == Quiet && PendingTimes(sys.db) == map[]
      modifies this, store
      ensures Valid() && Run(old(sys), steps, sys) && sys.pc == Idle
      ensures ok <==> turn.claimsFlagged && (reread ==> turn.writes)
      ensures reread && ok ==> Work(sys.db) < Work(old(sys.db))
      ensures Reprocessed(old(sys), turn, steps)
      ensures reread <==> turn.claimsFlagged && FlaggedTimes(old(sys.db)) != map[]
      ensures !reread ==> sys.db == old(sys.db)
      ensures !reread && ok ==> FlaggedTimes(sys.db) == map[]
    {
      hide *;
      Stay(sys);
      reread, ok, steps := false, turn.claimsFlagged, [];
      ghost var step;
      if !turn.claimsFlagged {
        NothingReprocessed(sys, turn);
        step := GiveUp();
        OneStep(old(sys), step);
        steps := [step];
        return;
      }
      var id;
      id, step := ClaimFlagged();
      OneStep(old(sys), step);
      steps := [step];
      if id.None? {
        NothingReprocessed(old(sys), turn);
        return;
      }
      reread, ok := true, turn.writes;
      ghost var was := sys;
      ghost var more := RereadClaimed(id.value, turn);
      ReprocessedIs(old(sys), turn, step, more);
      Join(old(sys), steps, was, more, sys);
      steps := steps + more;
    }

    // -------------------------------------------------------------- draining

    /** One turn: the requests that came in, if they are still taken, then an upload or else a reread. */
    method TakeTurn(turn: Turn, serves: bool) returns (stop: Option<Outcome>, ghost steps: seq<Step>)
      requires Valid() && sys.pc == Idle
      modifies this, store
      ensures Valid() && Run(old(sys), steps, sys) && sys.pc == Idle
      ensures TurnTaken(old(sys), turn, serves, steps, stop)
      ensures stop.None? && !serves ==> Work(sys.db) < Work(old(sys.db))
      ensures stop == Some(Emptied) ==> PendingTimes(sys.db) == map[] && FlaggedTimes(sys.db) == map[]
      ensures Calm(turn) ==> stop.None? || stop == Some(Emptied)
    {
      hide *;
      ghost var first: seq<Step> := [];
      Stay(sys);
      if serves {
        first := TakeIn(turn.requests);
      }
      ghost var mid := sys;
      RunIsPath(old(sys), first, mid);
      steps := first;
      CalmIs(turn);
      if turn.cancelled {
        WorkedNothing(mid, turn);
        TurnIs(old(sys), turn, serves, first, mid, [], Some(Cancelled));
        assert first + [] == first;
        return Some(Cancelled), steps;
      }
      var processed, ok;
      ghost var more;
      processed, ok, more := ProcessNext(turn);
      Join(old(sys), steps, mid, more, sys);
      steps := steps + more;
      if processed {
        stop := if ok then None else Some(Errored);
        WorkedUpload(mid, turn, more);
        TurnIs(old(sys), turn, serves, first, mid, more, stop);
        return;
      }
      if !ok {
        WorkedNothing(mid, turn);
        TurnIs(old(sys), turn, serves, first, mid, [], Some(Errored));
        return Some(Errored), steps;
      }
      ghost var quiet := sys;
      var reread;
      ghost var last;
      reread, ok, last := ReprocessNext(turn);
      Join(old(sys), steps, quiet, last, sys);
      assert steps + last == first + ([FindQuiet] + last);
      steps := steps + last;
      WorkedReread(mid, turn, last);
      stop := if !ok then Some(Errored) else if reread then None else Some(Emptied);
      TurnIs(old(sys), turn, serves, first, mid, [FindQuiet] + last, stop);
    }

    /**
     Works both queues, uploads first, until they are empty, something goes wrong or the service is
     told to stop, while requests keep coming in before every turn up to `until`.  It always ends.
     Each turn takes the steps that the outside makes of it, and with nothing standing in its way the
     drain ends with both queues empty, whatever became of the single uploads.
     */
    method Drain(world: nat -> Turn, until: nat)
      returns (outcome: Outcome, ghost steps: seq<Step>, ghost turns: seq<seq<Step>>)
      requires Valid() && sys.pc == Idle
      modifies this, store
      ensures Valid() && Run(old(sys), steps, sys) && sys.pc == Idle
      ensures steps == Flat(turns) && Drained(old(sys), world, until, turns, outcome)
      ensures outcome == Emptied ==> PendingTimes(sys.db) == map[] && FlaggedTimes(sys.db) == map[]
      ensures (forall n: nat :: Calm(world(n))) ==> outcome == Emptied
    {
      hide *;
      Stay(sys);
      NoTurnsYet(sys, world, until);
      steps, turns := [], [];
      var n: nat := 0;
      while true
        invariant Valid() && Run(old(sys), steps, sys) && sys.pc == Idle
        invariant |turns| == n && steps == Flat(turns) && GoesOn(old(sys), world, until, turns)
        decreases if n < until then until - n else 0, Work(sys.db)
      {
        ghost var was := sys;
        RunReached(old(sys), steps, sys);
        var stop;
        ghost var more;
        stop, more := TakeTurn(world(n), n < until);
        TurnSnoc(old(sys), world, until, turns, more, stop);
        Join(old(sys), steps, was, more, sys);
        steps, turns := steps + more, turns + [more];
        if stop.Some? {
          return stop.value, steps, turns;
        }
        n := n + 1;
      }
    }

    // -------------------------------------------------------------- starting

    /** The date a stored file gives by itself, if the file can be read and gives one. */
    method DetectStored(id: UploadId, opens: bool) returns (date: Option<(Time, Source)>)
      requires Valid() && Undated(sys.db, id)
      ensures date.Some? <==> opens && Datable(sys, id)
      ensures date.Some? ==> DetectSnapshotDate(ReadFile(sys, id).value, sys.db.uploads[id]) == date
    {
      hide Fit;
      var e := ParseStored(id, opens);
      date := if e.Some? then DetectSnapshotDate(e.value, store.uploads[id]) else None;
    }

    /** Corrects one date; a transaction that is rolled back leaves the date it was. */
    method CorrectDate(id: UploadId, takenAt: Time, source: Source, commits: bool)
      requires Valid() && Enabled(sys, Redate(id))
      requires DetectSnapshotDate(ReadFile(sys, id).value, sys.db.uploads[id]) == Some((takenAt, source))
      modifies `sys, store
      ensures Valid() && sys.pc == Starting
      ensures sys == if commits then Perform(old(sys), Redate(id)) else old(sys)
      ensures commits ==> !Undated(sys.db, id) && Mended(sys.db, id)
      ensures forall x | Mended(old(sys.db), x) :: Mended(sys.db, x)
      ensures forall x | x != id ::
                (Undated(sys.db, x) <==> Undated(old(sys.db), x)) && (Datable(sys, x) <==> Datable(old(sys), x))
    {
      hide WellFormed;
      hide UploadOk;
      hide Undated;
      hide Datable;
      hide Mended;
      hide Consistent;
      var r := store.SetSnapshotDate(id, takenAt, source, commits);
      if commits {
        RedateMends(sys, id);
        StepFit(sys, Redate(id));
        DatedOnce(sys, id, takenAt, source);
        sys := Perform(sys, Redate(id));
      }
    }

    /** The executions whose dates are unknown, by id. */
    method UndatedExecutions() returns (ids: seq<UploadId>)
      requires Valid()
      ensures ListsUndated(sys.db, ids)
    {
      hide Fit;
      ids := store.UploadsWithUnknownSnapshotDate();
    }

    /**
     Reads the dates of the executions recorded before dates were tracked, where a file still says.
     Every account so corrected ends with a history that agrees with its executions.  If nothing
     stands in the way, no execution is left undated whose file gives a date.
     */
    method BackfillSnapshotDates(looks: bool, world: nat -> Turn) returns (corrected: nat, ghost steps: seq<Step>)
      requires Valid() && sys.pc == Starting
      modifies `sys, store
      ensures Valid() && Run(old(sys), steps, sys) && sys.pc == Starting
      ensures Backfilled(old(sys), looks, world, steps)
      ensures corrected == |steps| && forall step | step in steps :: step.Redate? && Mended(sys.db, step.id)
      ensures looks && (forall n: nat :: Legible(world(n))) ==> forall x :: Undated(sys.db, x) ==> !Datable(sys, x)
      ensures looks && (forall n: nat :: Legible(world(n))) ==>
                forall x | Undated(old(sys.db), x) && Datable(old(sys), x) :: Redate(x) in steps
    {
      hide Mended;
      hide Valid;
      hide Run;
      hide Undated;
      hide Datable;
      hide Fit;
      hide Enabled;
      hide Perform;
      hide ReadFile;
      hide DetectSnapshotDate;
      hide ListsUndated;
      Stay(sys);
      corrected, steps := 0, [];
      if !looks {
        return;
      }
      var ids := UndatedExecutions();
      UndatedListed(sys.db, ids);
      var i: nat := 0;
      while i < |ids|
        invariant Valid() && Run(old(sys), steps, sys) && sys.pc == Starting && i <= |ids|
        invariant corrected == |steps|
        invariant forall step | step in steps ::
                    step.Redate? && Mended(sys.db, step.id) && !Undated(sys.db, step.id)
        invariant forall j | i <= j < |ids| :: Undated(sys.db, ids[j])
        invariant forall x | Undated(sys.db, x) ::
                    Undated(old(sys.db), x) && (Datable(sys, x) <==> Datable(old(sys), x))
        invariant steps == Corrections(old(sys), ids, world, i) && forall k: nat | k < i :: !world(k).cancelled
      {
        var turn := world(i);
        if turn.cancelled {
          assert !Legible(turn);
          assert BackfilledOver(old(sys), ids, world, i, steps);
          return;
        }
        var id := ids[i];
        ghost var was := sys;
        var date := DetectStored(id, turn.opens);
        if date.Some? {
          RedateEnabled(sys, id);
          CorrectDate(id, date.value.0, date.value.1, turn.commits);
          if turn.commits {
            Extend(old(sys), steps, was, Redate(id));
            steps, corrected := steps + [Redate(id)], corrected + 1;
          }
        }
        i := i + 1;
      }
      assert BackfilledOver(old(sys), ids, world, i, steps);
      if forall n: nat :: Legible(world(n)) {
        AllCorrected(old(sys), ids, world);
      }
    }

    /**
     Puts back what a crash left in processing, corrects unknown dates, and starts working.  With
     nothing in the way, an upgraded store whose files still give dates is sound from then on.
     */
    method StartUp(requeues: bool, looks: bool, world: nat -> Turn) returns (ghost steps: seq<Step>)
      requires Valid() && sys.pc == Down
      modifies `sys, store
      ensures Valid() && Run(old(sys), steps, sys)
      ensures !requeues ==> sys == old(sys) && steps == []
      ensures requeues ==>
                |steps| >= 2 && steps[0] == Start && steps[|steps| - 1] == Ready
                && Backfilled(Reached(old(sys), [Start]), looks, world, steps[1..|steps| - 1])
      ensures requeues ==> sys.pc == Idle && sys.stranded == {}
                           && forall x | x in sys.db.uploads :: sys.db.uploads[x].status != Processing
      ensures requeues && looks && (forall n: nat :: Legible(world(n))) ==>
                && (forall x | Undated(old(sys.db), x) && Datable(old(sys), x) ::
                      Redate(x) in steps && Mended(sys.db, x))
                && (Upgraded(old(sys.db)) && AccountsDatable(old(sys)) ==> Inv(sys))
    {
      hide Path;
      hide UploadsFirst;
      hide WellFormed;
      hide UploadOk;
      hide Sound;
      hide Mended;
      hide Undated;
      hide Datable;
      hide Upgraded;
      hide AccountsDatable;
      hide Legible;
      hide Backfilled;
      Stay(sys);
      steps := [];
      if !requeues {
        return;
      }
      var requeued := store.RequeueProcessing();
      StepFit(sys, Start);
      RequeueKeepsDates(sys);
      OneStep(sys, Start);
      steps := [Start];
      RunReached(sys, steps, Perform(sys, Start));
      sys := Perform(sys, Start);
      ghost var was := sys;
      var corrected;
      ghost var more;
      corrected, more := BackfillSnapshotDates(looks, world);
      Join(old(sys), steps, was, more, sys);
      steps := steps + more;
      StepFit(sys, Ready);
      Extend(old(sys), steps, sys, Ready);
      steps := steps + [Ready];
      sys := Perform(sys, Ready);
      assert steps[1..|steps| - 1] == more;
      if looks && forall n: nat :: Legible(world(n)) {
        RedatingMends(old(sys), steps, sys);
      }
    }

    /** Starts, then drains once for every time the worker is woken, until it is told to stop. */
    method RunFor(wakes: nat, requeues: bool, looks: bool, start: nat -> Turn, worlds: nat -> (nat -> Turn),
        until: nat -> nat)
      returns (ghost steps: seq<Step>, ghost first: seq<Step>, ghost rounds: seq<seq<seq<Step>>>,
        ghost outcomes: seq<Outcome>)
      requires Valid() && sys.pc == Down
      modifies this, store
      ensures Valid() && Run(old(sys), steps, sys)
      ensures sys.pc == if requeues then Idle else Down
      ensures steps == first + FlatAll(rounds) && AllWoken(Reached(old(sys), first), worlds, until, rounds, outcomes)
      ensures |rounds| <= wakes
      ensures requeues && |rounds| < wakes ==> outcomes != [] && outcomes[|outcomes| - 1] == Cancelled
    {
      hide *;
      first := StartUp(requeues, looks, start);
      RunReached(old(sys), first, sys);
      steps, rounds, outcomes := first, [], [];
      ghost var begun := sys;
      ghost var more: seq<Step> := [];
      Stay(sys);
      NobodyWoken(begun, worlds, until);
      assert first + [] == first;
      if !requeues {
        return;
      }
      for i := 0 to wakes
        invariant Valid() && Run(old(sys), steps, sys) && Run(begun, more, sys) && sys.pc == Idle && |rounds| == i
        invariant steps == first + more && more == FlatAll(rounds)
        invariant AllWoken(begun, worlds, until, rounds, outcomes) && Cancelled !in outcomes
      {
        ghost var was := sys;
        RunReached(begun, more, was);
        var outcome;
        ghost var next, turns;
        outcome, next, turns := Drain(worlds(i), until(i));
        WokenSnoc(begun, worlds, until, rounds, outcomes, turns, outcome);
        Join(old(sys), steps, was, next, sys);
        Join(begun, more, was, next, sys);
        assert steps + next == first + (more + next);
        steps, more := steps + next, more + next;
        rounds, outcomes := rounds + [turns], outcomes + [outcome];
        if outcome == Cancelled {
          return;
        }
      }
    }
  }
}

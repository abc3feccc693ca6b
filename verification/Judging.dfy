/**
 Over whole runs: the execution an upload is judged against is the one it will be compared with, as
 long as the queue is worked in order.
 */
module Judging {
  import opened Schema
  import opened DateOrder
  import opened History
  import opened Operations
  import opened Admission
  import opened Export
  import opened Machine
  import Safety

  /** `a` was queued before `b`. */
  predicate Sooner(uploads: map<UploadId, Upload>, a: UploadId, b: UploadId)
    requires a in uploads && b in uploads
  {
    uploads[a].uploadedAt < uploads[b].uploadedAt || (uploads[a].uploadedAt == uploads[b].uploadedAt && a.n < b.n)
  }

  predicate Undecided(uploads: map<UploadId, Upload>, id: UploadId) {
    id in uploads && (uploads[id].status == Pending || uploads[id].status == Processing)
  }

  /** Every failure is written, and uploads arrive by a clock that does not run backwards. */
  ghost predicate Tidy(s: System, step: Step) {
    && !step.Strand?
    && (step.Accept? ==> forall x | x in s.db.uploads :: s.db.uploads[x].uploadedAt <= step.up.uploadedAt)
  }

  ghost predicate TidyPath(s: System, steps: seq<Step>, t: System)
    decreases |steps|
  {
    if steps == [] then s == t
    else Enabled(s, steps[0]) && Tidy(s, steps[0]) && TidyPath(Perform(s, steps[0]), steps[1..], t)
  }

  /** Completed executions were queued before undecided uploads, and the claimed one before the pending. */
  ghost predicate InTurn(s: System) {
    && (forall x, y | x in s.db.uploads && s.db.uploads[x].status == Completed && Undecided(s.db.uploads, y) ::
         Sooner(s.db.uploads, x, y))
    && (s.pc != Down ==> s.stranded == {})
    && (s.pc.Busy? && s.pc.id in s.db.uploads ==>
          forall y | Undecided(s.db.uploads, y) && y != s.pc.id :: Sooner(s.db.uploads, s.pc.id, y))
  }

  /** Executions and the queue stand as they did, but for `id`, which may have been completed. */
  ghost predicate SameQueue(d: Db, e: Db, id: UploadId) {
    && d.uploads.Keys == e.uploads.Keys
    && forall x | x in d.uploads :: e.uploads[x].uploadedAt == d.uploads[x].uploadedAt
                                    && e.uploads[x].status == if x == id then Completed else d.uploads[x].status
  }

  lemma RebuiltInTurn(s: System, t: System, id: UploadId)
    requires Accounted(s) && InTurn(s) && SameQueue(s.db, t.db, id) && t.stranded == s.stranded && !t.pc.Busy?
             && s.pc != Down
    requires s.pc == Busy(id) || (id in s.db.uploads && s.db.uploads[id].status == Completed)
    ensures InTurn(t)
  {
    forall x, y | x in t.db.uploads && t.db.uploads[x].status == Completed && Undecided(t.db.uploads, y)
      ensures Sooner(t.db.uploads, x, y)
    {
      assert Undecided(s.db.uploads, y);
      assert Sooner(s.db.uploads, x, y);
    }
  }

  lemma RebuildInTurn(s: System, step: Step)
    requires Fit(s) && InTurn(s) && Enabled(s, step) && Rebuilding(step)
    ensures InTurn(Perform(s, step))
  {
    RebuildQueue(s, step);
    hide WellFormed;
    hide UploadOk;
    hide SameQueue;
    hide InTurn;
    hide ReadFile;
    hide Admits;
    RebuiltInTurn(s, Perform(s, step), step.id);
  }

  lemma RebuildQueue(s: System, step: Step)
    requires Fit(s) && Enabled(s, step) && Rebuilding(step)
    ensures SameQueue(s.db, Perform(s, step).db, step.id)
  {
    hide WellFormed;
    hide UploadOk;
    if step.Redate? {
      var when := DetectSnapshotDate(ReadFile(s, step.id).value, s.db.uploads[step.id]).value;
      RedatedQueue(s.db, step.id, when.0, when.1);
      hide Redated;
    } else {
      AppliedStatuses(s.db, step.id, ReadFile(s, step.id).value);
      Safety.SameArrivals(s.db, step.id, ReadFile(s, step.id).value);
      hide AppliedExport;
    }
  }

  lemma RedatedQueue(db: Db, id: UploadId, takenAt: Time, source: Source)
    requires id in db.uploads && db.uploads[id].status == Completed
    ensures SameQueue(db, Redated(db, id, takenAt, source), id)
  {
  }

  lemma ClaimInTurn(s: System, id: UploadId)
    requires Fit(s) && InTurn(s) && Enabled(s, Claim(id))
    ensures InTurn(Perform(s, Claim(id)))
  {
    hide WellFormed;
    hide UploadOk;
    var rows := PendingTimes(s.db);
    forall y | Undecided(s.db.uploads, y) && y != id
      ensures Sooner(s.db.uploads, id, y)
    {
      assert y in rows;
      assert Older(rows, id, y);
    }
    var t := Perform(s, Claim(id));
    forall x, y | x in t.db.uploads && Undecided(t.db.uploads, y) && y != x
      && (x == id || t.db.uploads[x].status == Completed)
      ensures Sooner(t.db.uploads, x, y)
    {
      assert Undecided(s.db.uploads, y);
      assert Sooner(s.db.uploads, x, y);
    }
  }

  lemma OtherInTurn(s: System, step: Step)
    requires Fit(s) && InTurn(s) && Enabled(s, step) && Tidy(s, step) && !Rebuilding(step) && !step.Claim?
    ensures InTurn(Perform(s, step))
  {
    hide UploadOk;
    hide WellFormed;
    hide ReadFile;
    hide PendingTimes;
    hide FlaggedTimes;
    var t := Perform(s, step);
    forall x, y | x in t.db.uploads && Undecided(t.db.uploads, y) && y != x
      && (t.pc == Busy(x) || t.db.uploads[x].status == Completed)
      ensures Sooner(t.db.uploads, x, y)
    {
      if y in s.db.uploads {
        assert Undecided(s.db.uploads, y);
        assert Sooner(s.db.uploads, x, y);
      }
    }
  }

  lemma StepInTurn(s: System, step: Step)
    requires Fit(s) && InTurn(s) && Enabled(s, step) && Tidy(s, step)
    ensures InTurn(Perform(s, step))
  {
    hide Fit;
    hide InTurn;
    hide Enabled;
    hide Perform;
    if Rebuilding(step) {
      RebuildInTurn(s, step);
    } else if step.Claim? {
      ClaimInTurn(s, step.id);
    } else {
      OtherInTurn(s, step);
    }
  }

  lemma {:induction false} PathInTurn(s: System, steps: seq<Step>, t: System)
    requires Fit(s) && InTurn(s) && TidyPath(s, steps, t)
    ensures Fit(t) && InTurn(t)
    decreases |steps|
  {
    if steps != [] {
      StepInTurn(s, steps[0]);
      StepFit(s, steps[0]);
      hide Fit;
      hide InTurn;
      PathInTurn(Perform(s, steps[0]), steps[1..], t);
    }
  }

  /** Whatever is recorded while the queue is worked in turn is judged against its predecessor. */
  lemma RecordedAgainstPredecessor(s: System, id: UploadId, p: Option<UploadId>)
    requires Fit(s) && InTurn(s) && Enabled(s, Record(id, p))
    ensures var account := s.db.uploads[id].account;
            Predecessor(Timeline(Perform(s, Record(id, p)).db.uploads, account), id) == p
  {
    var e := ReadFile(s, id).value;
    var when := ResolveSnapshotDate(e, s.db.uploads[id]);
    TurnHasNoLaterTwin(s, id, when.0);
    forall y | IsCompleted(s.db.uploads, s.db.uploads[id].account, y)
      ensures s.db.uploads[y].takenAt.Some?
    {
      assert UploadOk(s.db, y);
    }
    hide WellFormed;
    hide UploadOk;
    hide InTurn;
    hide NoLaterTwin;
    hide IsPreceding;
    hide Applied;
    JudgedAgainstPredecessor(s.db, id, SnapshotIn(e), when.0, when.1, p);
  }

  lemma TurnHasNoLaterTwin(s: System, id: UploadId, takenAt: Time)
    requires Accounted(s) && InTurn(s) && s.pc == Busy(id)
    ensures NoLaterTwin(s.db, id, takenAt)
  {
    assert Undecided(s.db.uploads, id);
    forall y | IsCompleted(s.db.uploads, s.db.uploads[id].account, y) && y != id
      ensures Sooner(s.db.uploads, y, id)
    {
    }
  }

  /**
   In every run from a service that has never run, crashes, rereads and redating included, in which
   failures are written and arrivals are in order of time, each upload is judged against the very
   execution it is then compared with.
   */
  lemma JudgedAgainstPredecessorThroughout(s: System, steps: seq<Step>, t: System, id: UploadId, p: Option<UploadId>)
    requires Initial(s) && TidyPath(s, steps, t) && Enabled(t, Record(id, p))
    ensures var account := t.db.uploads[id].account;
            Predecessor(Timeline(Perform(t, Record(id, p)).db.uploads, account), id) == p
  {
    InitialInv(s);
    PathInTurn(s, steps, t);
    RecordedAgainstPredecessor(t, id, p);
  }
}

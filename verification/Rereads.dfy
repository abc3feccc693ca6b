/**
 One flagged execution over any run of the service, whatever else is accepted, recorded, reread or
 redated meanwhile: it leaves the reread queue only as its file says, or as it was.
 */
module Rereads {
  import opened Schema
  import opened DateOrder
  import opened History
  import opened Operations
  import opened Export
  import opened Machine
  import opened Sweep
  import Safety

  // ---------------------------------------------------------------- what a step does to one execution

  /** The date of an execution and what it is resolved from. */
  predicate SameDating(a: Upload, b: Upload) {
    && a.status == b.status && a.takenAt == b.takenAt && a.source == b.source
    && a.manualDate == b.manualDate && a.filenameDate == b.filenameDate && a.uploadedAt == b.uploadedAt
  }

  /** The record of `x` is the same. */
  ghost predicate Untouched(d: Db, e: Db, x: UploadId) {
    && x in d.uploads && x in e.uploads && SameDating(d.uploads[x], e.uploads[x])
    && SnapshotOf(d, x) == SnapshotOf(e, x)
  }

  /** `x` keeps its place in the reread queue. */
  predicate StaysFlagged(d: Db, e: Db, x: UploadId) {
    x in d.uploads && x in e.uploads && (d.uploads[x].reprocessAt.Some? ==> e.uploads[x].reprocessAt.Some?)
  }

  /** `x` is a completed execution. */
  predicate Executed(s: System, x: UploadId) {
    x in s.db.uploads && s.db.uploads[x].status == Completed
  }

  lemma AgreesSame(d: Db, e: Db, files: map<UploadId, Content>, x: UploadId)
    requires Untouched(d, e, x) && Agrees(d, files, x)
    ensures Agrees(e, files, x)
  {
    hide SnapshotOf;
    hide SnapshotIn;
    hide Parsed;
  }

  lemma RecordTouches(s: System, step: Step, x: UploadId)
    requires Enabled(s, step) && (step.Record? || step.ReadAgain?) && step.id != x && Executed(s, x)
    ensures Untouched(s.db, Perform(s, step).db, x) && StaysFlagged(s.db, Perform(s, step).db, x)
  {
    RecordEffect(s, step);
    AppliedExportElsewhere(s.db, step.id, ReadFile(s, step.id).value, x);
    hide Enabled;
    hide Perform;
    hide AppliedExport;
    hide SnapshotOf;
  }

  lemma RedatedLeaves(db: Db, id: UploadId, takenAt: Time, source: Source, x: UploadId)
    requires id in db.uploads && x in db.uploads
    ensures var r := Redated(db, id, takenAt, source);
            && StaysFlagged(db, r, x) && r.uploads[x].status == db.uploads[x].status
            && (x != id ==> Untouched(db, r, x))
  {
    var e := db.(uploads := db.uploads[id := db.uploads[id].(takenAt := Some(takenAt), source := source)]);
    RebuiltKeepsSnapshots(e, db.uploads[id].account, Timeline(e.uploads, db.uploads[id].account));
    SnapshotsAgree(e, db, x);
    hide SnapshotOf;
  }

  lemma RedateTouches(s: System, id: UploadId, x: UploadId)
    requires Enabled(s, Redate(id)) && Executed(s, x)
    ensures var t := Perform(s, Redate(id));
            StaysFlagged(s.db, t.db, x) && Executed(t, x) && (x != id ==> Untouched(s.db, t.db, x))
  {
    var when := DetectSnapshotDate(ReadFile(s, id).value, s.db.uploads[id]).value;
    RedatedLeaves(s.db, id, when.0, when.1, x);
    hide Redated;
    hide Untouched;
  }

  lemma EditTouches(s: System, step: Step, t: System, x: UploadId)
    requires Edits(s, step, t) && Executed(s, x)
    ensures Untouched(s.db, t.db, x) && (step != Unflag(x) ==> StaysFlagged(s.db, t.db, x))
  {
    EditColumns(s, step, t);
    Safety.EditKeeps(s, step, t, x);
    SnapshotsAgree(s.db, t.db, x);
    hide SnapshotOf;
    hide SameHistoryColumns;
    EditRow(s, step, t, x);
  }

  lemma EditRow(s: System, step: Step, t: System, x: UploadId)
    requires Edits(s, step, t) && Executed(s, x)
    ensures x in t.db.uploads && SameDating(s.db.uploads[x], t.db.uploads[x])
    ensures step != Unflag(x) ==> StaysFlagged(s.db, t.db, x)
  {
  }

  lemma FilesKept(s: System, step: Step, x: UploadId)
    requires Enabled(s, step) && x in s.db.uploads
    ensures var t := Perform(s, step);
            && (x in t.files ==> x in s.files && t.files[x] == s.files[x])
            && (x in s.files && step != Lose(x) && step != Clear(x, true) ==> x in t.files)
  {
    hide ReadFile;
    hide Admits;
    hide AppliedExport;
    hide Redated;
    hide PendingTimes;
    hide FlaggedTimes;
  }

  /** Only reading its own file again, or redating it, touches the record of a completed execution. */
  lemma StepTouches(s: System, step: Step, x: UploadId)
    requires Fit(s) && Enabled(s, step) && Executed(s, x)
    ensures var t := Perform(s, step);
            && Executed(t, x)
            && (step != ReadAgain(x) && step != Redate(x) ==> Untouched(s.db, t.db, x))
            && (step != Unflag(x) ==> StaysFlagged(s.db, t.db, x))
  {
    hide Enabled;
    hide Perform;
    hide WellFormed;
    hide UploadOk;
    if step.Redate? {
      RedateTouches(s, step.id, x);
    } else if step == ReadAgain(x) {
      ReadsItself(s, x);
    } else if step.Record? || step.ReadAgain? {
      if step.Record? {
        RecordedIsAnother(s, step, x);
      }
      RecordTouches(s, step, x);
    } else {
      OtherEdits(s, step);
      hide Fit;
      EditTouches(s, step, Perform(s, step), x);
    }
    hide SnapshotOf;
  }

  /** An execution is not recorded a second time by the pending path. */
  lemma RecordedIsAnother(s: System, step: Step, x: UploadId)
    requires Accounted(s) && Enabled(s, step) && Executed(s, x) && step.Record?
    ensures step.id != x
  {
  }

  lemma ReadsItself(s: System, x: UploadId)
    requires Enabled(s, ReadAgain(x))
    ensures var t := Perform(s, ReadAgain(x));
            Executed(t, x) && Agrees(t.db, s.files, x) && StaysFlagged(s.db, t.db, x)
  {
    RecordEffect(s, ReadAgain(x));
    AppliedExportIs(s.db, x, ReadFile(s, x).value);
    hide AppliedExport;
    hide SnapshotOf;
    hide Enabled;
    hide Perform;
  }

  // ---------------------------------------------------------------- a file that can be read

  /** The file of `x` can be read, and unless `x` is waiting to be read again its record agrees with it. */
  ghost predicate Owed(s: System, x: UploadId) {
    && Executed(s, x) && x in s.files && Parsed(s.files[x]).Some?
    && (s.db.uploads[x].reprocessAt.Some? || Agrees(s.db, s.files, x))
    && (s.pc == Pc.Reread(x) ==> Agrees(s.db, s.files, x))
  }

  /** The step takes the file of `x` away, or gives up on rereading it. */
  predicate PassesOver(step: Step, x: UploadId) {
    step == Lose(x) || step == Clear(x, true) || step == KeepAsIs(x)
  }

  /** A date resolved from a file is never the order of processing. */
  lemma ResolvedIsKnown(c: Content, up: Upload)
    requires Parsed(c).Some?
    ensures ResolveSnapshotDate(Parsed(c).value, up).1 != ProcessingOrder
  {
  }

  lemma RedateIsOwed(s: System, x: UploadId)
    requires Owed(s, x) && Enabled(s, Redate(x))
    ensures s.db.uploads[x].reprocessAt.Some? && s.pc == Starting
  {
    ResolvedIsKnown(s.files[x], s.db.uploads[x]);
    hide SnapshotOf;
    hide Parsed;
  }

  lemma StepOwed(s: System, step: Step, x: UploadId)
    requires Fit(s) && Owed(s, x) && Enabled(s, step) && !PassesOver(step, x)
    ensures Owed(Perform(s, step), x) && Perform(s, step).files[x] == s.files[x]
  {
    hide Fit;
    hide Enabled;
    hide Perform;
    var t := Perform(s, step);
    StepTouches(s, step, x);
    FilesKept(s, step, x);
    StepMoves(s, step);
    if step == ReadAgain(x) {
      ReadsItself(s, x);
      AgreesByFile(t.db, s.files, t.files, x);
    } else if step == Redate(x) {
      RedateIsOwed(s, x);
    } else if Agrees(s.db, s.files, x) {
      AgreesSame(s.db, t.db, s.files, x);
      AgreesByFile(t.db, s.files, t.files, x);
    }
    hide Agrees;
    hide Untouched;
    hide Parsed;
  }

  lemma AgreesByFile(db: Db, files: map<UploadId, Content>, others: map<UploadId, Content>, x: UploadId)
    requires x in db.uploads && x in files && x in others && files[x] == others[x]
    ensures Agrees(db, files, x) <==> Agrees(db, others, x)
  {
    hide SnapshotOf;
    hide Parsed;
  }

  lemma {:induction false} PathOwed(s: System, steps: seq<Step>, t: System, x: UploadId)
    requires Fit(s) && Owed(s, x) && Path(s, steps, t)
    requires forall step | step in steps :: !PassesOver(step, x)
    ensures Owed(t, x) && t.files[x] == s.files[x]
    decreases |steps|
  {
    hide Fit;
    hide Enabled;
    hide Perform;
    hide Agrees;
    hide PassesOver;
    if steps != [] {
      assert steps[0] in steps;
      StepOwed(s, steps[0], x);
      StepFit(s, steps[0]);
      PathOwed(Perform(s, steps[0]), steps[1..], t, x);
    }
  }

  /**
   Over any run an execution that was waiting to be read again, and no longer is, is as its file
   says, unless the file was lost, cleared or passed over.  If the worker has just been at it when
   the run begins, it must not have passed it over either.
   */
  lemma FlaggedIsRead(s: System, steps: seq<Step>, t: System, x: UploadId)
    requires Fit(s) && Path(s, steps, t)
    requires x in FlaggedTimes(s.db) && x in s.files && Parsed(s.files[x]).Some?
    requires s.pc == Pc.Reread(x) ==> Agrees(s.db, s.files, x)
    requires forall step | step in steps :: !PassesOver(step, x)
    ensures x in t.db.uploads
    ensures t.db.uploads[x].reprocessAt.None? ==> Agrees(t.db, s.files, x)
  {
    hide Fit;
    hide Path;
    hide PassesOver;
    PathOwed(s, steps, t, x);
    AgreesByFile(t.db, s.files, t.files, x);
    hide Agrees;
  }

  // ---------------------------------------------------------------- a file that cannot

  /** Over any run an execution whose file is gone or cannot be read keeps its lists and its date. */
  lemma {:induction false} UnreadableStands(s: System, steps: seq<Step>, t: System, x: UploadId)
    requires Fit(s) && Path(s, steps, t) && Executed(s, x) && ReadFile(s, x).None?
    ensures Untouched(s.db, t.db, x)
    decreases |steps|
  {
    hide Fit;
    hide Enabled;
    hide Perform;
    hide Parsed;
    if steps != [] {
      var s1 := Perform(s, steps[0]);
      NothingToRead(s, steps[0], x);
      StepTouches(s, steps[0], x);
      FilesKept(s, steps[0], x);
      StepFit(s, steps[0]);
      UnreadableStands(s1, steps[1..], t, x);
    }
    hide SnapshotOf;
  }

  lemma NothingToRead(s: System, step: Step, x: UploadId)
    requires Enabled(s, step) && ReadFile(s, x).None?
    ensures step != ReadAgain(x) && step != Redate(x)
  {
  }
}

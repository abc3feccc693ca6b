/**
 Rereading over whole runs: crashes, restarts and rereads begun again included, once every flag is
 cleared the store is what one sweep over the flagged executions gives, in whatever order.
 */
module SweepRuns {
  import opened Schema
  import opened DateOrder
  import opened History
  import opened Operations
  import opened Confluence
  import opened Export
  import opened Machine
  import opened Sweep

  type Files = map<UploadId, Content>

  // ---------------------------------------------------------------- how far a sweep has come

  /** The record of `x` is the same, save for its flag. */
  ghost predicate AsWas(d: Db, e: Db, x: UploadId)
    requires x in d.uploads && x in e.uploads
  {
    && Bare(e.uploads[x]).(reprocessAt := None) == Bare(d.uploads[x]).(reprocessAt := None)
    && SnapshotOf(e, x) == SnapshotOf(d, x)
  }

  /** The record of `x` is the same. */
  ghost predicate SameRecord(d: Db, e: Db, x: UploadId)
    requires x in d.uploads && x in e.uploads
  {
    && Bare(e.uploads[x]) == Bare(d.uploads[x]) && SnapshotOf(e, x) == SnapshotOf(d, x)
    && (e.uploads[x].status != Completed ==> forall l | l in d.lists && l in e.lists && l.upload == x ::
         e.lists[l] == d.lists[l])
  }

  ghost predicate Parses(files: Files, x: UploadId) {
    x in files && Parsed(files[x]).Some?
  }

  /**
   A flagged execution is as it was or as its file says; once off the queue it is as its file says,
   if that can be read.
   */
  ghost predicate Underway(d: Db, e: Db, files: Files, x: UploadId)
    requires x in d.uploads && x in e.uploads
  {
    && e.uploads[x].status == Completed && e.uploads[x].takenAt.Some? && SameIdentity(d.uploads[x], e.uploads[x])
    && (e.uploads[x].reprocessAt == d.uploads[x].reprocessAt || e.uploads[x].reprocessAt.None?)
    && (if Parses(files, x) then (AsWas(d, e, x) && e.uploads[x].reprocessAt.Some?) || Agrees(e, files, x)
         else AsWas(d, e, x))
  }

  ghost predicate Stage(d: Db, e: Db, files: Files, ids: set<UploadId>, x: UploadId)
    requires x in d.uploads && x in e.uploads
  {
    (x in ids ==> Underway(d, e, files, x)) && (x !in ids ==> SameRecord(d, e, x))
  }

  /** `e` is `d` somewhere in a sweep over the executions in `ids`. */
  ghost predicate Progress(d: Db, e: Db, files: Files, ids: set<UploadId>) {
    && d.uploads.Keys == e.uploads.Keys
    && forall x | x in d.uploads :: Stage(d, e, files, ids, x)
  }

  lemma NoProgressYet(d: Db, files: Files)
    requires forall x | x in FlaggedTimes(d) :: d.uploads[x].takenAt.Some?
    ensures Progress(d, d, files, FlaggedTimes(d).Keys)
  {
  }

  lemma ElsewhereSame(db: Db, id: UploadId, e: Export, y: UploadId)
    requires id in db.uploads && y in db.uploads && y != id && WellFormed(db)
    ensures var r := AppliedExport(db, id, e); y in r.uploads && SameRecord(db, r, y)
  {
    var when, account := ResolveSnapshotDate(e, db.uploads[id]), db.uploads[id].account;
    var p := Replaced(db, id, SnapshotIn(e), when.0, when.1);
    AppliedExportElsewhere(db, id, e, y);
    RecomputedSameBase(p, account);
    hide SnapshotOf;
    hide Recomputed;
    hide WellFormed;
  }

  lemma UnmarkedSame(db: Db, id: UploadId, y: UploadId)
    requires id in db.uploads && y in db.uploads
    ensures var r := Unmarked(db, id);
            && y in r.uploads && SnapshotOf(r, y) == SnapshotOf(db, y) && r.lists == db.lists
            && r.uploads[y] == if y == id then db.uploads[y].(reprocessAt := None) else db.uploads[y]
  {
    UnmarkedKeeps(db, id, y);
  }

  lemma SameListKeys(d: Db, e: Db, x: UploadId, l: ListKey)
    requires SnapshotOf(d, x) == SnapshotOf(e, x) && l.upload == x
    ensures l in d.lists <==> l in e.lists
  {
    assert l in d.lists <==> l.kind in SnapshotOf(d, x);
    assert l in e.lists <==> l.kind in SnapshotOf(e, x);
  }

  lemma StillTheSame(d: Db, e: Db, r: Db, y: UploadId)
    requires y in d.uploads && y in e.uploads && y in r.uploads && SameRecord(e, r, y) && SameRecord(d, e, y)
    ensures SameRecord(d, r, y)
  {
    hide SnapshotOf;
    forall l: ListKey | l.upload == y {
      SameListKeys(d, e, y, l);
    }
  }

  lemma StillBegun(d: Db, e: Db, r: Db, files: Files, y: UploadId)
    requires y in d.uploads && y in e.uploads && y in r.uploads && SameRecord(e, r, y) && Underway(d, e, files, y)
    ensures Underway(d, r, files, y)
  {
    hide SnapshotOf;
    hide SnapshotIn;
    hide Parsed;
  }

  /** A record that stays the same stays where it was in the sweep. */
  lemma StillUnderway(d: Db, e: Db, r: Db, files: Files, ids: set<UploadId>, y: UploadId)
    requires y in d.uploads && y in e.uploads && y in r.uploads && SameRecord(e, r, y)
    requires Stage(d, e, files, ids, y)
    ensures Stage(d, r, files, ids, y)
  {
    hide SameRecord;
    hide Underway;
    if y in ids {
      StillBegun(d, e, r, files, y);
    } else {
      StillTheSame(d, e, r, y);
    }
  }

  /** Reading an execution's file brings its record in line with it and leaves the rest of the sweep where it was. */
  lemma ReadProgress(d: Db, e: Db, files: Files, ids: set<UploadId>, x: UploadId)
    requires Progress(d, e, files, ids) && x in ids && x in e.uploads && Parses(files, x) && WellFormed(e)
    ensures var r := AppliedExport(e, x, Parsed(files[x]).value);
            Progress(d, r, files, ids) && x in r.uploads && Agrees(r, files, x)
              && r.uploads[x].reprocessAt == e.uploads[x].reprocessAt
  {
    hide AppliedExport;
    hide SameRecord;
    hide Underway;
    hide Agrees;
    var r := AppliedExport(e, x, Parsed(files[x]).value);
    ReadItself(d, e, files, x);
    forall y | y in d.uploads
      ensures y in r.uploads && Stage(d, r, files, ids, y)
    {
      if y != x {
        ElsewhereSame(e, x, Parsed(files[x]).value, y);
        StillUnderway(d, e, r, files, ids, y);
      }
    }
  }

  lemma ReadItself(d: Db, e: Db, files: Files, x: UploadId)
    requires x in d.uploads && x in e.uploads && Underway(d, e, files, x) && Parses(files, x)
    ensures var r := AppliedExport(e, x, Parsed(files[x]).value);
            && r.uploads.Keys == e.uploads.Keys && Underway(d, r, files, x) && Agrees(r, files, x)
            && r.uploads[x].reprocessAt == e.uploads[x].reprocessAt
  {
    AppliedExportIs(e, x, Parsed(files[x]).value);
    hide AppliedExport;
    hide SnapshotOf;
    hide SnapshotIn;
    hide Parsed;
  }

  /** Taking an execution off the queue, once its file has been read if that can be done. */
  lemma UnmarkProgress(d: Db, e: Db, files: Files, ids: set<UploadId>, x: UploadId)
    requires Progress(d, e, files, ids) && x in ids && x in e.uploads && (Parses(files, x) ==> Agrees(e, files, x))
    ensures Progress(d, Unmarked(e, x), files, ids)
  {
    var r := Unmarked(e, x);
    hide SnapshotOf;
    hide SnapshotIn;
    hide Parsed;
    forall y | y in d.uploads
      ensures y in r.uploads && Stage(d, r, files, ids, y)
    {
      UnmarkedSame(e, x, y);
    }
  }

  // ---------------------------------------------------------------- where a sweep ends

  /** With every flag of the sweep cleared, two records agree. */
  lemma EndsAlike(d: Db, e: Db, r: Db, files: Files, ids: set<UploadId>, x: UploadId)
    requires Progress(d, e, files, ids) && Progress(d, r, files, ids) && x in d.uploads
    requires x in ids ==> e.uploads[x].reprocessAt.None? && r.uploads[x].reprocessAt.None?
    ensures Bare(e.uploads[x]) == Bare(r.uploads[x]) && SnapshotOf(e, x) == SnapshotOf(r, x)
  {
    hide SnapshotOf;
    hide SnapshotIn;
    hide Parsed;
  }

  /** Two records the same throughout make two stores with the same base. */
  lemma RecordsMakeBase(d: Db, e: Db, r: Db, files: Files, ids: set<UploadId>)
    requires WellFormed(e) && WellFormed(r) && Progress(d, e, files, ids) && Progress(d, r, files, ids)
    requires forall x | x in ids && x in d.uploads :: e.uploads[x].reprocessAt.None? && r.uploads[x].reprocessAt.None?
    ensures SameBase(e, r)
  {
    hide SnapshotOf;
    hide Stage;
    hide WellFormed;
    forall x | x in d.uploads
      ensures Bare(e.uploads[x]) == Bare(r.uploads[x]) && SnapshotOf(e, x) == SnapshotOf(r, x)
    {
      EndsAlike(d, e, r, files, ids, x);
    }
    SameSnapshotsSameRows(e, r);
    forall l | l in e.lists && l in r.lists && l.upload in e.uploads && e.uploads[l.upload].status != Completed
      ensures e.lists[l] == r.lists[l]
    {
      PlainListsAgree(d, e, r, files, ids, l);
    }
    hide SnapshotOf;
    hide WellFormed;
    hide Progress;
    hide Bare;
  }

  lemma PlainListsAgree(d: Db, e: Db, r: Db, files: Files, ids: set<UploadId>, l: ListKey)
    requires Progress(d, e, files, ids) && Progress(d, r, files, ids)
    requires l in e.lists && l in r.lists && l.upload in e.uploads && e.uploads[l.upload].status != Completed
    ensures e.lists[l] == r.lists[l]
  {
    hide SnapshotOf;
    hide Parsed;
    assert l.upload !in ids && SameRecord(d, e, l.upload) && SameRecord(d, r, l.upload);
    SameListKeys(d, e, l.upload, l);
  }

  lemma SameSnapshotsSameRows(e: Db, r: Db)
    requires WellFormed(e) && WellFormed(r) && e.uploads.Keys == r.uploads.Keys
    requires forall x | x in e.uploads :: SnapshotOf(e, x) == SnapshotOf(r, x)
    ensures e.members == r.members && e.lists.Keys == r.lists.Keys
  {
    forall l: ListKey
      ensures l in e.lists <==> l in r.lists
    {
      if l.upload in e.uploads {
        SameListKeys(e, r, l.upload, l);
      }
    }
    forall m: MemberKey
      ensures m in e.members <==> m in r.members
      ensures m in e.members ==> e.members[m] == r.members[m]
    {
      SameMember(e, r, m);
    }
  }

  lemma SameMember(e: Db, r: Db, m: MemberKey)
    requires WellFormed(e) && WellFormed(r) && e.uploads.Keys == r.uploads.Keys
    requires m.upload in e.uploads ==> SnapshotOf(e, m.upload) == SnapshotOf(r, m.upload)
    ensures m in e.members <==> m in r.members
    ensures m in e.members ==> e.members[m] == r.members[m]
  {
    assert m == MemberKey(m.upload, m.kind, m.user);
    if m.upload in e.uploads {
      MemberIn(e, m);
      MemberIn(r, m);
    }
  }

  lemma MemberIn(e: Db, m: MemberKey)
    requires WellFormed(e)
    ensures var s := SnapshotOf(e, m.upload);
            && (m in e.members <==> m.kind in s && m.user in s[m.kind])
            && (m in e.members ==> s[m.kind][m.user] == e.members[m])
  {
    assert m == MemberKey(m.upload, m.kind, m.user);
  }

  /** There is one sound store a sweep can end with. */
  lemma SweepEndsOneWay(d: Db, e: Db, r: Db, files: Files, ids: set<UploadId>)
    requires Sound(e) && Sound(r) && Progress(d, e, files, ids) && Progress(d, r, files, ids)
    requires forall x | x in ids && x in d.uploads :: e.uploads[x].reprocessAt.None? && r.uploads[x].reprocessAt.None?
    ensures e == r
  {
    RecordsMakeBase(d, e, r, files, ids);
    hide Progress;
    hide WellFormed;
    SoundDetermined(e, r);
  }

  /** Rereading the executions one after the other, in any order, is one way a sweep can go. */
  lemma {:induction false} RereadProgress(d: Db, files: Files, ids: seq<UploadId>, all: set<UploadId>)
    requires Sound(d) && Progress(d, d, files, all) && (forall id | id in ids :: id in all && id in d.uploads)
    ensures var r := Swept(d, files, ids);
            Sound(r) && Progress(d, r, files, all) && forall id | id in ids ::
                id in r.uploads && r.uploads[id].reprocessAt.None?
    decreases |ids|
  {
    hide Progress;
    hide Sound;
    hide RereadOne;
    if ids != [] {
      var front, last := ids[..|ids| - 1], ids[|ids| - 1];
      assert forall id :: id in ids <==> id in front || id == last;
      RereadProgress(d, files, front, all);
      OneMoreReread(d, Swept(d, files, front), files, all, last);
    }
  }

  lemma OneMoreReread(d: Db, e: Db, files: Files, all: set<UploadId>, x: UploadId)
    requires Sound(e) && Progress(d, e, files, all) && x in all && x in e.uploads
    ensures var r := RereadOne(e, files, x);
            && Sound(r) && Progress(d, r, files, all) && r.uploads.Keys == e.uploads.Keys
            && r.uploads[x].reprocessAt.None?
            && forall y | y in e.uploads && e.uploads[y].reprocessAt.None? :: r.uploads[y].reprocessAt.None?
  {
    hide Progress;
    hide AppliedExport;
    hide Agrees;
    RereadSound(e, files, x);
    assert WellFormed(e);
    hide Sound;
    hide WellFormed;
    if Parses(files, x) {
      ReadProgress(d, e, files, all, x);
      FlagsStand(e, x, Parsed(files[x]).value);
      UnmarkProgress(d, AppliedExport(e, x, Parsed(files[x]).value), files, all, x);
    } else {
      UnmarkProgress(d, e, files, all, x);
    }
  }

  lemma FlagsStand(db: Db, x: UploadId, e: Export)
    requires x in db.uploads
    ensures var r := AppliedExport(db, x, e);
            r.uploads.Keys == db.uploads.Keys && forall y | y in db.uploads ::
                r.uploads[y].reprocessAt == db.uploads[y].reprocessAt
  {
  }

  /** The order of a sweep does not matter. */
  lemma SweepOrderIsIrrelevant(db: Db, files: Files, ids: seq<UploadId>, other: seq<UploadId>)
    requires Sound(db) && (forall id :: id in ids <==> id in other)
    requires forall id | id in ids :: id in FlaggedTimes(db) && id in db.uploads && db.uploads[id].takenAt.Some?
    requires forall id | id in FlaggedTimes(db) :: id in ids
    ensures forall id | id in other :: id in db.uploads
    ensures Swept(db, files, ids) == Swept(db, files, other)
  {
    var all := FlaggedTimes(db).Keys;
    NoProgressYet(db, files);
    RereadProgress(db, files, ids, all);
    RereadProgress(db, files, other, all);
    hide Progress;
    hide Sound;
    SweepEndsOneWay(db, Swept(db, files, ids), Swept(db, files, other), files, all);
  }

  // ---------------------------------------------------------------- runs

  /** Nothing is waiting to be processed: every upload is decided. */
  predicate Quiescent(db: Db) {
    forall x | x in db.uploads :: db.uploads[x].status == Completed || db.uploads[x].status == Failed
  }

  /**
   The steps of rereading, crashes and restarts included; a file that can be read is read before its
   flag is cleared.
   */
  ghost predicate Sweeping(s: System, step: Step) {
    match step
    case Crash | Start | Ready | FindQuiet | ClaimReread(_) | ReadAgain(_) | Unflag(_) | StayFlagged(_) | Rest => true
    case KeepAsIs(id) => !Parses(s.files, id)
    case _ => false
  }

  ghost predicate SweepPath(s: System, steps: seq<Step>, t: System)
    decreases |steps|
  {
    if steps == [] then s == t
    else Enabled(s, steps[0]) && Sweeping(s, steps[0]) && SweepPath(Perform(s, steps[0]), steps[1..], t)
  }

  /** The worker is somewhere in a sweep over `ids` that began at `d`. */
  ghost predicate Midway(d: Db, s: System, files: Files, ids: set<UploadId>) {
    && Inv(s) && s.files == files && Quiescent(s.db) && Progress(d, s.db, files, ids)
    && (forall x | x in s.db.uploads && s.db.uploads[x].reprocessAt.Some? :: x in ids)
    && AtWork(s, files, ids)
  }

  /** What the worker is reading is a flagged part of the sweep, and read if it can be. */
  ghost predicate AtWork(s: System, files: Files, ids: set<UploadId>) {
    && (s.pc.Rereading? || s.pc.Reread? ==>
          s.pc.id in ids && s.pc.id in s.db.uploads && s.db.uploads[s.pc.id].reprocessAt.Some?)
    && (s.pc.Reread? && s.pc.id in s.db.uploads && Parses(files, s.pc.id) ==> Agrees(s.db, files, s.pc.id))
    && !s.pc.Busy? && !s.pc.Recorded?
  }

  /** What one step of a sweep does. */
  ghost predicate SweepMoves(s: System, step: Step, t: System) {
    && t.files == s.files && t.retain == s.retain
    && (step.ReadAgain? ==>
          s.pc == Rereading(step.id) && step.id in s.db.uploads && Parses(s.files, step.id)
          && t.db == AppliedExport(s.db, step.id, Parsed(s.files[step.id]).value) && t.pc == Pc.Reread(step.id))
    && (step.Unflag? ==> s.pc == Pc.Reread(step.id) && t.db == Unmarked(s.db, step.id) && t.pc == Idle)
    && (step.KeepAsIs? ==>
         s.pc == Rereading(step.id) && !Parses(s.files, step.id) && t.db == s.db && t.pc == Pc.Reread(step.id))
    && (step.ClaimReread? ==> step.id in FlaggedTimes(s.db) && t.db == s.db && t.pc == Rereading(step.id))
    && (!step.ReadAgain? && !step.Unflag? && !step.KeepAsIs? && !step.ClaimReread? ==>
          t.db == s.db && (t.pc == Down || t.pc == Starting || t.pc == Idle || t.pc == Quiet))
  }

  lemma StepSweepMoves(s: System, step: Step)
    requires Enabled(s, step) && Sweeping(s, step) && Quiescent(s.db)
    ensures SweepMoves(s, step, Perform(s, step))
  {
    assert Requeued(s.db) == s.db;
    hide Requeued;
    hide AppliedExport;
    hide Parsed;
    hide Quiescent;
    if step.ReadAgain? {
      RecordEffect(s, step);
      hide Perform;
    } else if step.ClaimReread? {
      OldestIsThere(FlaggedTimes(s.db), step.id);
    }
    hide IsOldest;
    hide PendingTimes;
    hide FlaggedTimes;
    hide IsNewUpload;
    hide Admits;
  }

  lemma InvIsWellFormed(s: System)
    requires Inv(s)
    ensures WellFormed(s.db)
  {
  }

  lemma OldestIsThere(rows: map<UploadId, Time>, id: UploadId)
    ensures IsOldest(rows, id) ==> id in rows
  {
  }

  lemma ReadAgainMidway(d: Db, s: System, t: System, files: Files, ids: set<UploadId>, x: UploadId)
    requires Midway(d, s, files, ids) && SweepMoves(s, ReadAgain(x), t) && Inv(t)
    ensures Midway(d, t, files, ids)
  {
    hide Inv;
    hide WellFormed;
    hide Agrees;
    hide Progress;
    hide Parsed;
    hide AppliedExport;
    InvIsWellFormed(s);
    ReadProgress(d, s.db, files, ids, x);
    FlagsStand(s.db, x, Parsed(files[x]).value);
    AppliedStatuses(s.db, x, Parsed(files[x]).value);
  }

  lemma UnflagMidway(d: Db, s: System, t: System, files: Files, ids: set<UploadId>, x: UploadId)
    requires Midway(d, s, files, ids) && SweepMoves(s, Unflag(x), t) && Inv(t)
    ensures Midway(d, t, files, ids)
  {
    hide Inv;
    hide Agrees;
    hide Progress;
    hide Parsed;
    UnmarkProgress(d, s.db, files, ids, x);
  }

  lemma OtherMidway(d: Db, s: System, t: System, step: Step, files: Files, ids: set<UploadId>)
    requires Midway(d, s, files, ids) && SweepMoves(s, step, t) && Inv(t) && !step.ReadAgain? && !step.Unflag?
    ensures Midway(d, t, files, ids)
  {
    hide Inv;
    hide Agrees;
    hide Progress;
    hide Parsed;
    hide AppliedExport;
  }

  lemma StepMidway(d: Db, s: System, step: Step, files: Files, ids: set<UploadId>)
    requires Midway(d, s, files, ids) && Enabled(s, step) && Sweeping(s, step)
    ensures Midway(d, Perform(s, step), files, ids)
  {
    hide Inv;
    hide Progress;
    hide Enabled;
    hide Perform;
    hide SweepMoves;
    hide AtWork;
    StepInv(s, step);
    StepSweepMoves(s, step);
    if step.ReadAgain? {
      ReadAgainMidway(d, s, Perform(s, step), files, ids, step.id);
    } else if step.Unflag? {
      UnflagMidway(d, s, Perform(s, step), files, ids, step.id);
    } else {
      OtherMidway(d, s, Perform(s, step), step, files, ids);
    }
  }

  lemma {:induction false} PathMidway(d: Db, s: System, steps: seq<Step>, t: System, files: Files, ids: set<UploadId>)
    requires Midway(d, s, files, ids) && SweepPath(s, steps, t)
    ensures Midway(d, t, files, ids)
    decreases |steps|
  {
    hide Midway;
    hide Enabled;
    hide Perform;
    if steps != [] {
      StepMidway(d, s, steps[0], files, ids);
      PathMidway(d, Perform(s, steps[0]), steps[1..], t, files, ids);
    }
  }

  /** A worker about to sweep: nothing else to do, and nothing begun. */
  ghost predicate Poised(s: System) {
    Inv(s) && Quiescent(s.db) && (s.pc == Idle || s.pc == Quiet || s.pc == Down || s.pc == Starting)
  }

  lemma PoisedIsMidway(s: System)
    requires Poised(s)
    ensures Midway(s.db, s, s.files, FlaggedTimes(s.db).Keys)
  {
    forall x | x in FlaggedTimes(s.db)
      ensures s.db.uploads[x].takenAt.Some?
    {
      assert UploadOk(s.db, x);
    }
    FlagsAreCompleted(s);
    NoProgressYet(s.db, s.files);
    hide Fit;
    hide Sound;
    hide Progress;
  }

  lemma NoFlagsLeft(s: System, x: UploadId)
    requires Inv(s) && FlaggedTimes(s.db) == map[] && x in s.db.uploads
    ensures s.db.uploads[x].reprocessAt.None?
  {
    FlagsAreCompleted(s);
    hide Fit;
    hide Sound;
    assert x !in FlaggedTimes(s.db).Keys;
  }

  /**
   However often it crashed, restarted and read the same file again, a run of rereads that has
   cleared every flag leaves the store one sweep over the flagged executions gives, in any order.
   */
  lemma RunIsSweep(s: System, steps: seq<Step>, t: System, ids: seq<UploadId>)
    requires Poised(s) && SweepPath(s, steps, t) && FlaggedTimes(t.db) == map[]
    requires forall id :: id in ids <==> id in FlaggedTimes(s.db)
    ensures forall id | id in ids :: id in s.db.uploads
    ensures t.db == Swept(s.db, s.files, ids)
  {
    hide Progress;
    hide Sound;
    var all := FlaggedTimes(s.db).Keys;
    PoisedIsMidway(s);
    PathMidway(s.db, s, steps, t, s.files, all);
    RereadProgress(s.db, s.files, ids, all);
    forall x | x in all && x in s.db.uploads
      ensures x in t.db.uploads && t.db.uploads[x].reprocessAt.None?
    {
      ProgressKeys(s.db, t.db, s.files, all);
      NoFlagsLeft(t, x);
    }
    hide Fit;
    hide FlaggedTimes;
    SweepEndsOneWay(s.db, t.db, Swept(s.db, s.files, ids), s.files, all);
  }

  lemma ProgressKeys(d: Db, e: Db, files: Files, ids: set<UploadId>)
    requires Progress(d, e, files, ids)
    ensures d.uploads.Keys == e.uploads.Keys
  {
  }

  /** An execution swept and off the queue is settled. */
  lemma SweptSettled(d: Db, e: Db, files: Files, ids: set<UploadId>, x: UploadId)
    requires Progress(d, e, files, ids) && x in ids && x in e.uploads && e.uploads[x].reprocessAt.None?
    ensures Settled(e, files, x)
  {
    assert Stage(d, e, files, ids, x);
    hide SnapshotOf;
    hide SnapshotIn;
    hide Parsed;
  }

  lemma SweepKeepsCompleted(d: Db, e: Db, files: Files, ids: set<UploadId>, account: AccountId, x: UploadId)
    requires Progress(d, e, files, ids) && IsCompleted(e.uploads, account, x)
    requires x in ids ==> x in d.uploads && d.uploads[x].status == Completed
    ensures IsCompleted(d.uploads, account, x)
  {
    assert Stage(d, e, files, ids, x);
    hide SnapshotOf;
    hide Parsed;
  }

  /** With no flag left the worker is reading nothing. */
  lemma SweptIsPoised(d: Db, s: System, files: Files, ids: set<UploadId>)
    requires Midway(d, s, files, ids) && FlaggedTimes(s.db) == map[]
    ensures Poised(s)
  {
    hide Sound;
    hide Progress;
    if s.pc.Rereading? || s.pc.Reread? {
      NoFlagsLeft(s, s.pc.id);
    }
    hide Fit;
  }

  lemma MarkedFlags(db: Db, account: AccountId, now: Time, x: UploadId)
    requires FlaggedTimes(db) == map[]
    requires forall y | y in db.uploads && db.uploads[y].reprocessAt.Some? :: db.uploads[y].status == Completed
    ensures x in FlaggedTimes(Marked(db, account, now)) <==> IsCompleted(db.uploads, account, x)
  {
    assert x !in FlaggedTimes(db);
  }

  lemma MarkEffect(s: System, account: AccountId, now: Time)
    requires Enabled(s, Mark(account, now))
    ensures Perform(s, Mark(account, now)) == s.(db := Marked(s.db, account, now))
  {
  }

  lemma MarkedIsPoised(s: System, account: AccountId, now: Time)
    requires Poised(s)
    ensures Poised(s.(db := Marked(s.db, account, now)))
  {
    StepInv(s, Mark(account, now));
    hide Inv;
    MarkEffect(s, account, now);
    hide Enabled;
    hide Perform;
  }

  /**
   Asking for an account to be read again once it has been, whatever happens on the way, ends with
   the very store there was.
   */
  lemma SecondRunChangesNothing(s: System, first: seq<Step>, t: System, account: AccountId, later: Time,
      second: seq<Step>, u: System)
    requires Poised(s) && SweepPath(s, first, t) && FlaggedTimes(t.db) == map[]
    requires forall x | IsCompleted(s.db.uploads, account, x) :: x in FlaggedTimes(s.db)
    requires SweepPath(t.(db := Marked(t.db, account, later)), second, u) && FlaggedTimes(u.db) == map[]
    ensures u.db == t.db
  {
    hide SweepPath;
    hide Fit;
    hide Sound;
    hide Progress;
    hide Settled;
    var all, other := FlaggedTimes(s.db).Keys, Timeline(t.db.uploads, account);
    PoisedIsMidway(s);
    PathMidway(s.db, s, first, t, s.files, all);
    forall x | x in other
      ensures x in t.db.uploads && Settled(t.db, s.files, x)
    {
      SweepKeepsCompleted(s.db, t.db, s.files, all, account, x);
      NoFlagsLeft(t, x);
      SweptSettled(s.db, t.db, s.files, all, x);
    }
    SweptIsPoised(s.db, t, s.files, all);
    MarkedAgain(t.db, s.files, account, later, other);
    var m := t.(db := Marked(t.db, account, later));
    MarkedIsPoised(t, account, later);
    FlagsAreCompleted(t);
    forall x
      ensures x in other <==> x in FlaggedTimes(m.db)
    {
      MarkedFlags(t.db, account, later, x);
    }
    RunIsSweep(m, second, u, other);
  }
}

/**
 Rereading stored exports: a sweep over files that have not changed gives the same store however
 often it is run.
 */
module Sweep {
  import opened Schema
  import opened DateOrder
  import opened History
  import opened Operations
  import opened Confluence
  import opened Export
  import opened Machine

  /** One execution read again and taken off the queue; unreadable, it keeps the data it had. */
  ghost function RereadOne(db: Db, files: map<UploadId, Content>, id: UploadId): Db
    requires id in db.uploads
  {
    if id in files && Parsed(files[id]).Some? then Unmarked(AppliedExport(db, id, Parsed(files[id]).value), id)
    else Unmarked(db, id)
  }

  /** The executions `ids` read again one after the other. */
  ghost function Swept(db: Db, files: map<UploadId, Content>, ids: seq<UploadId>): (r: Db)
    requires forall id | id in ids :: id in db.uploads
    ensures r.uploads.Keys == db.uploads.Keys
    decreases |ids|
  {
    if ids == [] then db
    else
      var front := ids[..|ids| - 1];
      RereadOne(Swept(db, files, front), files, ids[|ids| - 1])
  }

  /** The record of `id` is what its file says. */
  ghost predicate Agrees(db: Db, files: map<UploadId, Content>, id: UploadId)
    requires id in db.uploads
  {
    && db.uploads[id].status == Completed && db.uploads[id].takenAt.Some?
    && (id in files && Parsed(files[id]).Some? ==>
          var e := Parsed(files[id]).value;
          && SnapshotOf(db, id) == SnapshotIn(e)
          && (db.uploads[id].takenAt.value, db.uploads[id].source) == ResolveSnapshotDate(e, db.uploads[id]))
  }

  /** The record of `id` is what its file says, and it is not queued. */
  ghost predicate Settled(db: Db, files: map<UploadId, Content>, id: UploadId)
    requires id in db.uploads
  {
    Agrees(db, files, id) && db.uploads[id].reprocessAt.None?
  }

  lemma UnmarkedKeeps(db: Db, id: UploadId, x: UploadId)
    ensures SnapshotOf(Unmarked(db, id), x) == SnapshotOf(db, x)
    ensures x in db.uploads ==>
              x in Unmarked(db, id).uploads && SameIdentity(db.uploads[x], Unmarked(db, id).uploads[x])
  {
  }

  /** Recording an export leaves its execution with exactly what the export says. */
  lemma AppliedExportIs(db: Db, id: UploadId, e: Export)
    requires id in db.uploads
    ensures var r := AppliedExport(db, id, e);
            && r.uploads.Keys == db.uploads.Keys
            && SnapshotOf(r, id) == SnapshotIn(e)
            && r.uploads[id].status == Completed && r.uploads[id].reprocessAt == db.uploads[id].reprocessAt
            && SameIdentity(db.uploads[id], r.uploads[id])
            && r.uploads[id].takenAt.Some?
            && (r.uploads[id].takenAt.value, r.uploads[id].source) == ResolveSnapshotDate(e, r.uploads[id])
  {
    var when := ResolveSnapshotDate(e, db.uploads[id]);
    var p := Replaced(db, id, SnapshotIn(e), when.0, when.1);
    ReplacedSnapshots(db, id, SnapshotIn(e), when.0, when.1);
    RebuiltKeepsSnapshots(p, db.uploads[id].account, Timeline(p.uploads, db.uploads[id].account));
  }

  /** Recording an export leaves the records of other executions alone. */
  lemma AppliedExportElsewhere(db: Db, id: UploadId, e: Export, x: UploadId)
    requires id in db.uploads && x in db.uploads && x != id
    ensures var r := AppliedExport(db, id, e);
            && x in r.uploads && SnapshotOf(r, x) == SnapshotOf(db, x)
            && Bare(r.uploads[x]) == Bare(db.uploads[x])
  {
    var when, account := ResolveSnapshotDate(e, db.uploads[id]), db.uploads[id].account;
    var p := Replaced(db, id, SnapshotIn(e), when.0, when.1);
    ReplacedSnapshots(db, id, SnapshotIn(e), when.0, when.1);
    RebuiltKeepsSnapshots(p, account, Timeline(p.uploads, account));
    RecomputedSameBase(p, account);
  }

  /** Reading one execution settles it. */
  lemma RereadItself(db: Db, files: map<UploadId, Content>, id: UploadId)
    requires id in db.uploads && db.uploads[id].status == Completed && db.uploads[id].takenAt.Some?
    ensures var r := RereadOne(db, files, id); id in r.uploads && Settled(r, files, id)
  {
    if id in files && Parsed(files[id]).Some? {
      AppliedExportIs(db, id, Parsed(files[id]).value);
      UnmarkedKeeps(AppliedExport(db, id, Parsed(files[id]).value), id, id);
    }
  }

  /** Reading one execution unsettles no other. */
  lemma RereadOther(db: Db, files: map<UploadId, Content>, id: UploadId, x: UploadId)
    requires id in db.uploads && x in db.uploads && x != id
    ensures var r := RereadOne(db, files, id);
            && x in r.uploads && Bare(r.uploads[x]) == Bare(db.uploads[x]) && SnapshotOf(r, x) == SnapshotOf(db, x)
  {
    if id in files && Parsed(files[id]).Some? {
      AppliedExportElsewhere(db, id, Parsed(files[id]).value, x);
      UnmarkedKeeps(AppliedExport(db, id, Parsed(files[id]).value), id, x);
    } else {
      UnmarkedKeeps(db, id, x);
    }
  }

  lemma SettledSame(d: Db, e: Db, files: map<UploadId, Content>, x: UploadId)
    requires x in d.uploads && x in e.uploads && Bare(d.uploads[x]) == Bare(e.uploads[x])
             && SnapshotOf(d, x) == SnapshotOf(e, x)
    ensures Settled(d, files, x) ==> Settled(e, files, x)
    ensures d.uploads[x].status == e.uploads[x].status && d.uploads[x].takenAt == e.uploads[x].takenAt
  {
  }

  lemma RereadSound(db: Db, files: map<UploadId, Content>, id: UploadId)
    requires Sound(db) && id in db.uploads
    ensures Sound(RereadOne(db, files, id))
  {
    if id in files && Parsed(files[id]).Some? {
      var e := Parsed(files[id]).value;
      var when := ResolveSnapshotDate(e, db.uploads[id]);
      AppliedSound(db, id, SnapshotIn(e), when.0, when.1);
      UnmarkedSound(AppliedExport(db, id, e), id);
    } else {
      UnmarkedSound(db, id);
    }
  }

  /** Reading one execution settles it and unsettles nobody. */
  lemma RereadSettles(db: Db, files: map<UploadId, Content>, id: UploadId, x: UploadId)
    requires Sound(db) && id in db.uploads && x in db.uploads
    requires db.uploads[id].status == Completed && db.uploads[id].takenAt.Some?
    requires x != id ==> db.uploads[x].status == Completed && db.uploads[x].takenAt.Some?
    ensures var r := RereadOne(db, files, id);
            && Sound(r) && x in r.uploads && r.uploads[x].status == Completed && r.uploads[x].takenAt.Some?
            && (x == id || Settled(db, files, x) ==> Settled(r, files, x))
  {
    RereadSound(db, files, id);
    if x == id {
      RereadItself(db, files, id);
    } else {
      RereadOther(db, files, id, x);
      SettledSame(db, RereadOne(db, files, id), files, x);
    }
  }

  lemma {:induction false} SweepSettles(db: Db, files: map<UploadId, Content>, ids: seq<UploadId>, x: UploadId)
    requires Sound(db) && x in db.uploads
    requires forall id | id in ids :: id in db.uploads
    requires forall id | id in db.uploads && (id in ids || id == x) ::
               db.uploads[id].status == Completed && db.uploads[id].takenAt.Some?
    ensures var r := Swept(db, files, ids);
            && Sound(r) && x in r.uploads && r.uploads[x].status == Completed && r.uploads[x].takenAt.Some?
            && (x in ids || Settled(db, files, x) ==> Settled(r, files, x))
    decreases |ids|
  {
    if ids != [] {
      var front, last := ids[..|ids| - 1], ids[|ids| - 1];
      assert forall id :: id in ids <==> id in front || id == last;
      SweepSettles(db, files, front, x);
      SweepSettles(db, files, front, last);
      RereadSettles(Swept(db, files, front), files, last, x);
    }
  }

  /** Reading again what already agrees with its file takes it off the queue and does nothing else. */
  lemma AgreedIsOnlyUnmarked(db: Db, files: map<UploadId, Content>, id: UploadId)
    requires Sound(db) && id in db.uploads && Agrees(db, files, id)
    ensures RereadOne(db, files, id) == Unmarked(db, id)
  {
    if id in files && Parsed(files[id]).Some? {
      ApplyAgainIsIdentity(db, id);
    }
  }

  function UnmarkedAll(db: Db, ids: seq<UploadId>): Db
    decreases |ids|
  {
    if ids == [] then db else Unmarked(UnmarkedAll(db, ids[..|ids| - 1]), ids[|ids| - 1])
  }

  lemma {:induction false} UnmarkedAllIs(db: Db, ids: seq<UploadId>)
    ensures var r := UnmarkedAll(db, ids);
            && r.members == db.members && r.lists == db.lists && r.changes == db.changes
            && r.uploads.Keys == db.uploads.Keys
            && forall x | x in db.uploads ::
                 r.uploads[x] == if x in ids then db.uploads[x].(reprocessAt := None) else db.uploads[x]
    decreases |ids|
  {
    if ids != [] {
      UnmarkedAllIs(db, ids[..|ids| - 1]);
      assert forall id :: id in ids <==> id in ids[..|ids| - 1] || id == ids[|ids| - 1];
    }
  }

  lemma UnmarkedAgrees(db: Db, files: map<UploadId, Content>, ids: seq<UploadId>, x: UploadId)
    requires x in db.uploads && Agrees(db, files, x)
    ensures x in UnmarkedAll(db, ids).uploads && Agrees(UnmarkedAll(db, ids), files, x)
  {
    UnmarkedAllIs(db, ids);
    SnapshotsAgree(UnmarkedAll(db, ids), db, x);
  }

  lemma {:induction false} AgreedSweep(db: Db, files: map<UploadId, Content>, ids: seq<UploadId>)
    requires Sound(db)
    requires forall id | id in ids :: id in db.uploads
    requires forall id | id in ids && id in db.uploads :: Agrees(db, files, id)
    ensures Swept(db, files, ids) == UnmarkedAll(db, ids)
    ensures Sound(UnmarkedAll(db, ids))
    decreases |ids|
  {
    if ids != [] {
      var front, last := ids[..|ids| - 1], ids[|ids| - 1];
      AgreedSweep(db, files, front);
      assert last in ids;
      UnmarkedAgrees(db, files, front, last);
      AgreedIsOnlyUnmarked(UnmarkedAll(db, front), files, last);
      UnmarkedSound(UnmarkedAll(db, front), last);
    }
  }

  /** After a sweep every execution it read agrees with its file and is off the queue. */
  lemma SweptIsSettled(db: Db, files: map<UploadId, Content>, ids: seq<UploadId>)
    requires Sound(db)
    requires forall id | id in ids :: id in db.uploads
    requires forall id | id in ids && id in db.uploads ::
               db.uploads[id].status == Completed && db.uploads[id].takenAt.Some?
    ensures var r := Swept(db, files, ids);
            Sound(r) && forall id | id in ids :: id in r.uploads && Settled(r, files, id)
  {
    forall id | id in ids {
      SweepSettles(db, files, ids, id);
    }
    if ids != [] {
      SweepSettles(db, files, ids, ids[0]);
    }
  }

  /** A sweep repeated over the same files changes nothing, whatever order it takes the executions in. */
  lemma SweepTwice(db: Db, files: map<UploadId, Content>, ids: seq<UploadId>, other: seq<UploadId>)
    requires Sound(db) && forall id :: id in other <==> id in ids
    requires forall id | id in ids :: id in db.uploads
    requires forall id | id in ids && id in db.uploads ::
               db.uploads[id].status == Completed && db.uploads[id].takenAt.Some?
    ensures forall id | id in other :: id in Swept(db, files, ids).uploads
    ensures Swept(Swept(db, files, ids), files, other) == Swept(db, files, ids)
  {
    var r := Swept(db, files, ids);
    SweptIsSettled(db, files, ids);
    AgreedSweep(r, files, other);
    forall id | id in other
      ensures r.uploads[id].reprocessAt.None?
    {
      assert Settled(r, files, id);
    }
    UnmarkedNothing(r, other);
  }

  lemma UnmarkedNothing(db: Db, ids: seq<UploadId>)
    requires forall id | id in ids && id in db.uploads :: db.uploads[id].reprocessAt.None?
    ensures UnmarkedAll(db, ids) == db
  {
    UnmarkedAllIs(db, ids);
    assert UnmarkedAll(db, ids).uploads == db.uploads;
  }

  lemma UnmarkedMarked(db: Db, account: AccountId, now: Time, ids: seq<UploadId>)
    requires forall id :: id in ids <==> IsCompleted(db.uploads, account, id)
    requires forall id | id in ids && id in db.uploads :: db.uploads[id].reprocessAt.None?
    ensures UnmarkedAll(Marked(db, account, now), ids) == db
  {
    UnmarkedAllIs(Marked(db, account, now), ids);
    assert UnmarkedAll(Marked(db, account, now), ids).uploads == db.uploads;
  }

  /** A sweep changes neither which executions are completed nor whose they are. */
  lemma {:induction false} SweptAccounts(db: Db, files: map<UploadId, Content>, ids: seq<UploadId>, account: AccountId)
    requires forall id | id in ids :: id in db.uploads
    requires forall id | id in ids && id in db.uploads :: db.uploads[id].status == Completed
    ensures forall id :: IsCompleted(Swept(db, files, ids).uploads, account, id) <==> IsCompleted(db.uploads, account,
            id)
    decreases |ids|
  {
    if ids != [] {
      var front, last := ids[..|ids| - 1], ids[|ids| - 1];
      assert forall id :: id in ids <==> id in front || id == last;
      SweptAccounts(db, files, front, account);
      SweptAccounts(db, files, front, db.uploads[last].account);
      var r := Swept(db, files, front);
      assert IsCompleted(r.uploads, db.uploads[last].account, last);
      hide RereadOne;
      RereadAccounts(r, files, last, account);
    }
  }

  lemma RereadAccounts(db: Db, files: map<UploadId, Content>, id: UploadId, account: AccountId)
    requires id in db.uploads && db.uploads[id].status == Completed
    ensures forall x :: IsCompleted(RereadOne(db, files, id).uploads, account, x) <==> IsCompleted(db.uploads, account,
            x)
  {
    if id in files && Parsed(files[id]).Some? {
      AppliedStands(db, id, Parsed(files[id]).value, account);
    }
    hide AppliedExport;
    hide Parsed;
  }

  lemma AppliedStands(db: Db, id: UploadId, e: Export, account: AccountId)
    requires id in db.uploads && db.uploads[id].status == Completed
    ensures forall x :: IsCompleted(AppliedExport(db, id, e).uploads, account, x) <==> IsCompleted(db.uploads, account,
            x)
  {
    var when := ResolveSnapshotDate(e, db.uploads[id]);
    AppliedStatuses(db, id, e);
    AppliedAccounts(db, id, SnapshotIn(e), when.0, when.1);
    hide Applied;
  }

  /**
   Marking an account and rereading it a second time, in whatever order, over files that have not
   changed, gives the very store that doing it once gave.
   */
  lemma ReprocessTwice(db: Db, files: map<UploadId, Content>, account: AccountId, now: Time, later: Time,
      ids: seq<UploadId>, other: seq<UploadId>)
    requires Sound(db)
    requires forall id :: id in ids <==> IsCompleted(db.uploads, account, id)
    requires forall id :: id in other <==> IsCompleted(db.uploads, account, id)
    requires forall id | id in db.uploads && db.uploads[id].status == Completed :: db.uploads[id].takenAt.Some?
    ensures forall id | id in ids :: id in Marked(db, account, now).uploads
    ensures var once := Swept(Marked(db, account, now), files, ids);
            && (forall id | id in other :: id in Marked(once, account, later).uploads)
            && Swept(Marked(once, account, later), files, other) == once
  {
    hide Sound;
    hide Settled;
    var m := Marked(db, account, now);
    MarkedSound(db, account, now);
    var once := Swept(m, files, ids);
    SweptIsSettled(m, files, ids);
    SweptAccounts(m, files, ids, account);
    MarkedAgain(once, files, account, later, other);
  }

  lemma MarkedAgain(once: Db, files: map<UploadId, Content>, account: AccountId, later: Time, ids: seq<UploadId>)
    requires Sound(once)
    requires forall id :: id in ids <==> IsCompleted(once.uploads, account, id)
    requires forall id | id in ids :: id in once.uploads && Settled(once, files, id)
    ensures forall id | id in ids :: id in Marked(once, account, later).uploads
    ensures Swept(Marked(once, account, later), files, ids) == once
  {
    hide Sound;
    hide SnapshotIn;
    hide Parsed;
    var m := Marked(once, account, later);
    MarkedSound(once, account, later);
    forall id | id in ids
      ensures id in m.uploads && Agrees(m, files, id)
    {
      SnapshotsAgree(m, once, id);
      assert Settled(once, files, id);
    }
    AgreedSweep(m, files, ids);
    forall id | id in ids
      ensures once.uploads[id].reprocessAt.None?
    {
      assert Settled(once, files, id);
    }
    UnmarkedMarked(once, account, later, ids);
  }

  /**
   What the worker does with a claimed execution, step by step, is one reread; one that fails changes
   nothing but the flag.
   */
  lemma StepsReread(s: System, id: UploadId)
    requires Inv(s) && s.pc == Rereading(id)
    ensures var first := if ReadFile(s, id).Some? then ReadAgain(id) else KeepAsIs(id);
            && id in s.db.uploads && Enabled(s, first) && Enabled(Perform(s, first), Unflag(id))
            && Perform(Perform(s, first), Unflag(id)).db == RereadOne(s.db, s.files, id)
    ensures Enabled(s, KeepAsIs(id)) && Enabled(Perform(s, KeepAsIs(id)), Unflag(id))
            && Perform(Perform(s, KeepAsIs(id)), Unflag(id)).db
               == s.db.(uploads := s.db.uploads[id := s.db.uploads[id].(reprocessAt := None)])
  {
    hide Enabled;
    hide Perform;
    hide Sound;
    hide UploadOk;
    hide AppliedExport;
    hide Parsed;
    KeepEffect(s, id);
    UnflagEffect(s.(pc := Pc.Reread(id)), id);
    if ReadFile(s, id).Some? {
      ReadAgainEnabled(s, id);
      RecordEffect(s, ReadAgain(id));
      UnflagEffect(Perform(s, ReadAgain(id)), id);
    }
  }
}

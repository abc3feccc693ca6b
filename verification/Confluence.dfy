/**
 The history depends on which executions were recorded, never on the order they were processed in.
 */
module Confluence {
  import opened Schema
  import opened Snapshots
  import opened DateOrder
  import opened History
  import opened Operations
  import opened Locality

  // ---------------------------------------------------------------- one account

  /**
   Two sound stores with the same completed executions for an account, placed alike and carrying the
   same lists, hold the same history for it: numbers, follower columns, list counts, change rows,
   reasons and renames.
   */
  lemma HistoryDetermined(d: Db, e: Db, account: AccountId, id: UploadId)
    requires Sound(d) && Sound(e) && SameExecutions(d, e, account) && IsCompleted(d.uploads, account, id)
    ensures id in e.uploads && SameHistoryAt(d, e, id) && d.uploads[id].sequenceNo == e.uploads[id].sequenceNo
  {
    TimelineDetermined(d.uploads, e.uploads, account);
    var order := Timeline(d.uploads, account);
    assert IsCompleted(e.uploads, account, id);
    match Predecessor(order, id) {
      case None =>
      case Some(p) => assert IsCompleted(d.uploads, account, p) && IsCompleted(e.uploads, account, p);
    }
    HistoryFromPair(d, e, account, id);
    CompletedIsNumbered(d, id);
    CompletedIsNumbered(e, id);
  }

  // ---------------------------------------------------------------- the whole store

  /** An upload row without the columns a rebuild writes. */
  function Bare(up: Upload): Upload {
    if up.status == Completed then up.(sequenceNo := None, totals := Totals(0, 0, 0)) else up.(sequenceNo := None)
  }

  /** The two stores differ at most in what a rebuild writes. */
  ghost predicate SameBase(d: Db, e: Db) {
    && d.uploads.Keys == e.uploads.Keys && d.members == e.members && d.lists.Keys == e.lists.Keys
    && (forall id | id in d.uploads && id in e.uploads :: Bare(d.uploads[id]) == Bare(e.uploads[id]))
    && (forall l | l in d.lists && l in e.lists && l.upload in d.uploads && d.uploads[l.upload].status != Completed ::
          d.lists[l] == e.lists[l])
  }

  lemma SameBaseExecutions(d: Db, e: Db, account: AccountId)
    requires SameBase(d, e)
    ensures SameExecutions(d, e, account)
  {
    forall id
      ensures id in d.uploads && id in e.uploads ==>
                d.uploads[id].account == e.uploads[id].account && d.uploads[id].status == e.uploads[id].status
                && d.uploads[id].takenAt == e.uploads[id].takenAt
                && d.uploads[id].uploadedAt == e.uploads[id].uploadedAt
    {
      if id in d.uploads && id in e.uploads {
        assert Bare(d.uploads[id]) == Bare(e.uploads[id]);
      }
    }
  }

  lemma UploadDetermined(d: Db, e: Db, id: UploadId)
    requires Sound(d) && Sound(e) && SameBase(d, e) && id in d.uploads
    ensures d.uploads[id] == e.uploads[id]
  {
    var account := d.uploads[id].account;
    SameBaseExecutions(d, e, account);
    assert Bare(d.uploads[id]) == Bare(e.uploads[id]);
    if d.uploads[id].status == Completed {
      HistoryDetermined(d, e, account, id);
    } else {
      assert Consistent(d, account) && Consistent(e, account);
      assert d.uploads[id] == DerivedUpload(d, account, Timeline(d.uploads, account), id);
      assert e.uploads[id] == DerivedUpload(e, account, Timeline(e.uploads, account), id);
    }
  }

  lemma ListDetermined(d: Db, e: Db, l: ListKey)
    requires Sound(d) && Sound(e) && SameBase(d, e) && l in d.lists
    ensures d.lists[l] == e.lists[l]
  {
    var account := d.uploads[l.upload].account;
    SameBaseExecutions(d, e, account);
    if d.uploads[l.upload].status == Completed {
      HistoryDetermined(d, e, account, l.upload);
    }
  }

  lemma ChangeDetermined(d: Db, e: Db, k: EventKey)
    requires Sound(d) && Sound(e) && SameBase(d, e) && k in d.changes
    ensures k in e.changes && d.changes[k] == e.changes[k]
  {
    var account := d.uploads[k.upload].account;
    SameBaseExecutions(d, e, account);
    assert Consistent(d, account);
    assert d.changes[k].account == account;
    assert k in KeysAt(d, Timeline(d.uploads, account), k.upload);
    assert IsCompleted(d.uploads, account, k.upload);
    HistoryDetermined(d, e, account, k.upload);
  }

  /** A sound store is determined by its base. */
  lemma SoundDetermined(d: Db, e: Db)
    requires Sound(d) && Sound(e) && SameBase(d, e)
    ensures d == e
  {
    forall id | id in d.uploads {
      UploadDetermined(d, e, id);
    }
    forall l | l in d.lists {
      ListDetermined(d, e, l);
    }
    forall k | k in d.changes {
      ChangeDetermined(d, e, k);
    }
    SameBaseSymmetric(d, e);
    forall k | k in e.changes {
      ChangeDetermined(e, d, k);
    }
    assert d.changes.Keys == e.changes.Keys;
  }

  lemma SameBaseSymmetric(d: Db, e: Db)
    requires SameBase(d, e)
    ensures SameBase(e, d)
  {
    forall id | id in d.uploads && id in e.uploads
      ensures d.uploads[id].status == e.uploads[id].status
    {
      assert Bare(d.uploads[id]) == Bare(e.uploads[id]);
    }
  }

  lemma SameBaseTransitive(a: Db, b: Db, c: Db)
    requires SameBase(a, b) && SameBase(b, c)
    ensures SameBase(a, c)
  {
    forall id | id in a.uploads
      ensures Bare(a.uploads[id]) == Bare(c.uploads[id]) && a.uploads[id].status == b.uploads[id].status
    {
      assert Bare(a.uploads[id]) == Bare(b.uploads[id]);
      assert Bare(b.uploads[id]) == Bare(c.uploads[id]);
    }
  }

  lemma RecomputedSameBase(db: Db, account: AccountId)
    ensures SameBase(db, Recomputed(db, account))
  {
    var order, e := Timeline(db.uploads, account), Recomputed(db, account);
    forall id | id in db.uploads
      ensures Bare(db.uploads[id]) == Bare(e.uploads[id])
    {
      assert id in order <==> IsCompleted(db.uploads, account, id);
    }
    forall l | l in db.lists && l.upload in db.uploads && db.uploads[l.upload].status != Completed
      ensures db.lists[l] == e.lists[l]
    {
      assert l.upload !in order;
    }
  }

  /** Recording an execution depends on the base alone. */
  lemma ReplacedSameBase(d: Db, e: Db, id: UploadId, snapshot: Snapshot, takenAt: Time, source: Source)
    requires SameBase(d, e) && id in d.uploads && WellFormed(d) && WellFormed(e)
    ensures id in e.uploads
            && SameBase(Replaced(d, id, snapshot, takenAt, source), Replaced(e, id, snapshot, takenAt, source))
  {
    var r, s := Replaced(d, id, snapshot, takenAt, source), Replaced(e, id, snapshot, takenAt, source);
    assert Bare(d.uploads[id]) == Bare(e.uploads[id]);
    assert r.lists.Keys == s.lists.Keys;
    forall x | x in r.uploads
      ensures Bare(r.uploads[x]) == Bare(s.uploads[x])
    {
      assert Bare(d.uploads[x]) == Bare(e.uploads[x]);
    }
  }

  lemma AppliedSameBase(d: Db, e: Db, id: UploadId, snapshot: Snapshot, takenAt: Time, source: Source)
    requires SameBase(d, e) && id in d.uploads && WellFormed(d) && WellFormed(e)
    ensures id in e.uploads
            && SameBase(Applied(d, id, snapshot, takenAt, source), Replaced(e, id, snapshot, takenAt, source))
  {
    var r, s := Replaced(d, id, snapshot, takenAt, source), Replaced(e, id, snapshot, takenAt, source);
    ReplacedSameBase(d, e, id, snapshot, takenAt, source);
    RecomputedSameBase(r, d.uploads[id].account);
    SameBaseSymmetric(r, Applied(d, id, snapshot, takenAt, source));
    SameBaseTransitive(Applied(d, id, snapshot, takenAt, source), r, s);
  }

  /** Replacing the lists of two different executions, in either order. */
  lemma ReplacedCommutes(db: Db, a: UploadId, sa: Snapshot, ta: Time, ra: Source, b: UploadId, sb: Snapshot, tb: Time,
      rb: Source)
    requires a != b && a in db.uploads && b in db.uploads
    ensures Replaced(Replaced(db, a, sa, ta, ra), b, sb, tb, rb) == Replaced(Replaced(db, b, sb, tb, rb), a, sa, ta, ra)
  {
    MembersCommute(db.members, a, sa, b, sb);
    ListsCommute(db.lists, a, sa, b, sb);
    var left, right := Replaced(Replaced(db, a, sa, ta, ra), b, sb, tb, rb),
        Replaced(Replaced(db, b, sb, tb, rb), a, sa, ta, ra);
    assert left.uploads == right.uploads;
  }

  lemma MembersCommute(members: Members, a: UploadId, sa: Snapshot, b: UploadId, sb: Snapshot)
    requires a != b
    ensures RecordedMembers(RecordedMembers(members, a, sa), b, sb)
            == RecordedMembers(RecordedMembers(members, b, sb), a, sa)
  {
    hide RecordedMembers;
  }

  lemma ListsCommute(lists: map<ListKey, Totals>, a: UploadId, sa: Snapshot, b: UploadId, sb: Snapshot)
    requires a != b
    ensures RecordedLists(RecordedLists(lists, a, sa), b, sb) == RecordedLists(RecordedLists(lists, b, sb), a, sa)
  {
    hide RecordedLists;
  }

  /** Two executions recorded in either order leave the very same store. */
  lemma ApplyCommutes(db: Db, a: UploadId, sa: Snapshot, ta: Time, ra: Source, b: UploadId, sb: Snapshot, tb: Time,
      rb: Source)
    requires Sound(db) && a != b && a in db.uploads && b in db.uploads
    ensures Applied(Applied(db, a, sa, ta, ra), b, sb, tb, rb) == Applied(Applied(db, b, sb, tb, rb), a, sa, ta, ra)
  {
    AppliedTwice(db, a, sa, ta, ra, b, sb, tb, rb);
    AppliedTwice(db, b, sb, tb, rb, a, sa, ta, ra);
    ReplacedCommutes(db, a, sa, ta, ra, b, sb, tb, rb);
    var left, right := Applied(Applied(db, a, sa, ta, ra), b, sb, tb, rb),
        Applied(Applied(db, b, sb, tb, rb), a, sa, ta, ra);
    SameBaseSymmetric(right, Replaced(Replaced(db, a, sa, ta, ra), b, sb, tb, rb));
    SameBaseTransitive(left, Replaced(Replaced(db, a, sa, ta, ra), b, sb, tb, rb), right);
    SoundDetermined(left, right);
  }

  lemma AppliedTwice(db: Db, a: UploadId, sa: Snapshot, ta: Time, ra: Source, b: UploadId, sb: Snapshot, tb: Time,
      rb: Source)
    requires Sound(db) && a != b && a in db.uploads && b in db.uploads
    ensures Sound(Applied(Applied(db, a, sa, ta, ra), b, sb, tb, rb))
    ensures SameBase(Applied(Applied(db, a, sa, ta, ra), b, sb, tb, rb),
            Replaced(Replaced(db, a, sa, ta, ra), b, sb, tb, rb))
  {
    AppliedSound(db, a, sa, ta, ra);
    AppliedSound(Applied(db, a, sa, ta, ra), b, sb, tb, rb);
    ReplacedWellFormed(db, a, sa, ta, ra);
    RecomputedSameBase(Replaced(db, a, sa, ta, ra), db.uploads[a].account);
    SameBaseSymmetric(Replaced(db, a, sa, ta, ra), Applied(db, a, sa, ta, ra));
    AppliedSameBase(Applied(db, a, sa, ta, ra), Replaced(db, a, sa, ta, ra), b, sb, tb, rb);
  }

  /** Recording again what is already recorded changes nothing. */
  lemma ApplyAgainIsIdentity(db: Db, id: UploadId)
    requires Sound(db) && id in db.uploads && db.uploads[id].status == Completed && db.uploads[id].takenAt.Some?
    ensures Applied(db, id, SnapshotOf(db, id), db.uploads[id].takenAt.value, db.uploads[id].source) == db
  {
    var s, t, src := SnapshotOf(db, id), db.uploads[id].takenAt.value, db.uploads[id].source;
    var r := Replaced(db, id, s, t, src);
    assert r.uploads == db.uploads;
    RecordedSame(db, id);
    assert SameBase(r, db);
    RecomputedSameBase(r, db.uploads[id].account);
    SameBaseSymmetric(r, Applied(db, id, s, t, src));
    SameBaseTransitive(Applied(db, id, s, t, src), r, db);
    AppliedSound(db, id, s, t, src);
    SoundDetermined(Applied(db, id, s, t, src), db);
  }

  lemma RecordedSame(db: Db, id: UploadId)
    requires WellFormed(db)
    ensures RecordedMembers(db.members, id, SnapshotOf(db, id)) == db.members
    ensures RecordedLists(db.lists, id, SnapshotOf(db, id)).Keys == db.lists.Keys
    ensures forall l | l in db.lists && l.upload != id ::
              RecordedLists(db.lists, id, SnapshotOf(db, id))[l] == db.lists[l]
  {
    forall m
      ensures m in RecordedMembers(db.members, id, SnapshotOf(db, id)) <==> m in db.members
      ensures m in db.members ==> RecordedMembers(db.members, id, SnapshotOf(db, id))[m] == db.members[m]
    {
      assert m == MemberKey(m.upload, m.kind, m.user);
    }
    forall l
      ensures l in RecordedLists(db.lists, id, SnapshotOf(db, id)) <==> l in db.lists
    {
      assert l == ListKey(l.upload, l.kind);
    }
  }

  // ---------------------------------------------------------------- whole runs

  /** One call on the store that commits. */
  datatype Call =
    | Accept(id: UploadId, up: Upload)
    | Apply(id: UploadId, snapshot: Snapshot, takenAt: Time, source: Source)
    | Redate(id: UploadId, takenAt: Time, source: Source)

  ghost predicate Allowed(db: Db, c: Call) {
    match c
    case Accept(id, up) => id !in db.uploads && IsNewUpload(up)
    case Apply(id, _, _, _) => id in db.uploads
    case Redate(id, _, _) => id in db.uploads
  }

  ghost function After(db: Db, c: Call): Db
    requires Allowed(db, c)
  {
    match c
    case Accept(id, up) => Created(db, id, up)
    case Apply(id, snapshot, takenAt, source) => Applied(db, id, snapshot, takenAt, source)
    case Redate(id, takenAt, source) => Redated(db, id, takenAt, source)
  }

  ghost predicate Follows(mid: Db, c: Call, db: Db) {
    Allowed(mid, c) && After(mid, c) == db
  }

  /** `run` leads from an empty store to `db`. */
  ghost predicate Leads(run: seq<Call>, db: Db)
    decreases |run|
  {
    if run == [] then db == Db(map[], map[], map[], map[])
    else
      var earlier, last := run[..|run| - 1], run[|run| - 1];
      exists mid: Db :: Leads(earlier, mid) && Follows(mid, last, db)
  }

  lemma EmptySound()
    ensures Sound(Db(map[], map[], map[], map[]))
  {
    var db := Db(map[], map[], map[], map[]);
    forall account: AccountId
      ensures Consistent(db, account)
    {
      var order := Timeline(db.uploads, account);
      assert forall id :: id !in order;
    }
  }

  lemma {:induction false} RunSound(run: seq<Call>, db: Db)
    requires Leads(run, db)
    ensures Sound(db)
    decreases |run|
  {
    if run == [] {
      EmptySound();
    } else {
      var c := run[|run| - 1];
      var mid: Db :| Leads(run[..|run| - 1], mid) && Follows(mid, c, db);
      RunSound(run[..|run| - 1], mid);
      match c
      case Accept(id, up) => CreatedSound(mid, id, up);
      case Apply(id, snapshot, takenAt, source) => AppliedSound(mid, id, snapshot, takenAt, source);
      case Redate(id, takenAt, source) => RedatedSound(mid, id, takenAt, source);
    }
  }

  /**
   Whatever was accepted, recorded, recorded again and redated, and in whatever order: two runs that
   end with the same completed executions for an account end with the same history for it.
   */
  lemma ProcessingOrderIsIrrelevant(run: seq<Call>, other: seq<Call>, d: Db, e: Db, account: AccountId, id: UploadId)
    requires Leads(run, d) && Leads(other, e)
    requires SameExecutions(d, e, account) && IsCompleted(d.uploads, account, id)
    ensures id in e.uploads && SameHistoryAt(d, e, id) && d.uploads[id].sequenceNo == e.uploads[id].sequenceNo
  {
    RunSound(run, d);
    RunSound(other, e);
    HistoryDetermined(d, e, account, id);
  }
}

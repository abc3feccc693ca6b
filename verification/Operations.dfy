/**
 What each transaction of the store does to the tables, and the invariant all of them keep.
 */
module Operations {
  import opened Schema
  import opened Snapshots
  import opened DateOrder
  import opened History

  // ---------------------------------------------------------------- recording an execution

  /** A name already recorded for the list is left as it is. */
  function AddMember(m: Membership, member: Member): Membership {
    if member.username in m then m else m[member.username := member.followedAt]
  }

  function AddMembers(m: Membership, members: seq<Member>): Membership {
    if members == [] then m
    else AddMember(AddMembers(m, members[..|members| - 1]), members[|members| - 1])
  }

  /** The snapshot a sequence of lists amounts to. */
  function Incoming(lists: seq<ListSnapshot>): Snapshot {
    if lists == [] then map[]
    else
      var before, l := Incoming(lists[..|lists| - 1]), lists[|lists| - 1];
      before[l.kind := AddMembers(if l.kind in before then before[l.kind] else map[], l.members)]
  }

  /** `snapshot_members` with the rows of `id` replaced by those of `snapshot`. */
  function RecordedMembers(members: map<MemberKey, Option<Time>>, id: UploadId,
      snapshot: Snapshot): (r: map<MemberKey, Option<Time>>)
    ensures forall m :: m in r <==>
              if m.upload == id then m.kind in snapshot && m.user in snapshot[m.kind] else m in members
    ensures forall m | m in r :: r[m] == if m.upload == id then snapshot[m.kind][m.user] else members[m]
  {
    map m | m in (set m | m in members && m.upload != id) + MemberKeys(id, snapshot) ::
      if m.upload == id then snapshot[m.kind][m.user] else members[m]
  }

  /** `upload_lists` with the rows of `id` replaced by those of `snapshot`, not yet counted. */
  function RecordedLists(lists: map<ListKey, Totals>, id: UploadId, snapshot: Snapshot): (r: map<ListKey, Totals>)
    ensures forall l :: l in r <==> if l.upload == id then l.kind in snapshot else l in lists
    ensures forall l | l in r :: r[l] == if l.upload == id then Totals(0, 0, 0) else lists[l]
  {
    map l | l in (set l | l in lists && l.upload != id) + ListKeys(id, snapshot) ::
      if l.upload == id then Totals(0, 0, 0) else lists[l]
  }

  /** `lists[..i]` with the first `j` entries of the next list already in. */
  function Partly(lists: seq<ListSnapshot>, i: nat, j: nat): Snapshot
    requires i < |lists| && j <= |lists[i].members|
  {
    var before, l := Incoming(lists[..i]), lists[i];
    before[l.kind := AddMembers(if l.kind in before then before[l.kind] else map[], l.members[..j])]
  }

  lemma PartlyDone(lists: seq<ListSnapshot>, i: nat)
    requires i < |lists|
    ensures Partly(lists, i, |lists[i].members|) == Incoming(lists[..i + 1])
  {
    assert lists[..i + 1][..i] == lists[..i];
    assert lists[i].members[..|lists[i].members|] == lists[i].members;
  }

  /** The tables once the lists of `id` have been replaced and it is completed; nothing is derived yet. */
  ghost function Replaced(db: Db, id: UploadId, snapshot: Snapshot, takenAt: Time, source: Source): Db
    requires id in db.uploads
  {
    Db(db.uploads[id := db.uploads[id].(status := Completed, takenAt := Some(takenAt), source := source)],
       RecordedMembers(db.members, id, snapshot), RecordedLists(db.lists, id, snapshot), db.changes)
  }

  function MemberKeys(id: UploadId, snapshot: Snapshot): (keys: set<MemberKey>)
    ensures forall m :: m in keys <==> m.upload == id && m.kind in snapshot && m.user in snapshot[m.kind]
  {
    set kind, u | kind in snapshot && u in snapshot[kind] :: MemberKey(id, kind, u)
  }

  function ListKeys(id: UploadId, snapshot: Snapshot): (keys: set<ListKey>)
    ensures forall l :: l in keys <==> l.upload == id && l.kind in snapshot
  {
    set kind | kind in snapshot :: ListKey(id, kind)
  }

  /** One more entry of a list, unless the name is already there. */
  lemma RecordMember(members: map<MemberKey, Option<Time>>, id: UploadId, snapshot: Snapshot, kind: Kind, m: Membership,
      member: Member)
    ensures var before, k := RecordedMembers(members, id, snapshot[kind := m]), MemberKey(id, kind, member.username);
            RecordedMembers(members, id, snapshot[kind := AddMember(m, member)])
            == if k in before then before else before[k := member.followedAt]
  {
    hide RecordedMembers;
  }

  lemma RecordEntry(members: map<MemberKey, Option<Time>>, id: UploadId, lists: seq<ListSnapshot>, i: nat, j: nat)
    requires i < |lists| && j < |lists[i].members|
    ensures var before := RecordedMembers(members, id, Partly(lists, i, j));
            var k := MemberKey(id, lists[i].kind, lists[i].members[j].username);
            RecordedMembers(members, id, Partly(lists, i, j + 1))
            == if k in before then before else before[k := lists[i].members[j].followedAt]
  {
    var before, l := Incoming(lists[..i]), lists[i];
    assert l.members[..j + 1][..j] == l.members[..j];
    RecordMember(members, id, before, l.kind,
                 AddMembers(if l.kind in before then before[l.kind] else map[], l.members[..j]), l.members[j]);
  }

  lemma RecordBegun(members: map<MemberKey, Option<Time>>, id: UploadId, lists: seq<ListSnapshot>, i: nat)
    requires i < |lists|
    ensures RecordedMembers(members, id, Partly(lists, i, 0)) == RecordedMembers(members, id, Incoming(lists[..i]))
  {
    var before, kind := Incoming(lists[..i]), lists[i].kind;
    if kind in before {
      assert before[kind := before[kind]] == before;
    } else {
      RecordNothing(members, id, before, kind);
    }
  }

  lemma RecordList(lists: map<ListKey, Totals>, id: UploadId, all: seq<ListSnapshot>, i: nat)
    requires i < |all|
    ensures var before, l := RecordedLists(lists, id, Incoming(all[..i])), ListKey(id, all[i].kind);
            RecordedLists(lists, id, Incoming(all[..i + 1])) == if l in before then before
              else before[l := Totals(0, 0, 0)]
  {
    assert all[..i + 1][..i] == all[..i];
  }

  /** Deleting the rows of `id` leaves the tables with an empty snapshot recorded. */
  lemma RecordedCleared(members: map<MemberKey, Option<Time>>, lists: map<ListKey, Totals>, id: UploadId)
    ensures (map m | m in members && m.upload != id :: members[m]) == RecordedMembers(members, id, map[])
    ensures (map l | l in lists && l.upload != id :: lists[l]) == RecordedLists(lists, id, map[])
  {
  }

  /** A list begun empty has no rows yet. */
  lemma RecordNothing(members: map<MemberKey, Option<Time>>, id: UploadId, snapshot: Snapshot, kind: Kind)
    requires kind !in snapshot
    ensures RecordedMembers(members, id, snapshot[kind := map[]]) == RecordedMembers(members, id, snapshot)
  {
    assert MemberKeys(id, snapshot[kind := map[]]) == MemberKeys(id, snapshot);
  }

  /** `ApplySnapshot`, when it commits. */
  ghost function Applied(db: Db, id: UploadId, snapshot: Snapshot, takenAt: Time, source: Source): Db
    requires id in db.uploads
  {
    Recomputed(Replaced(db, id, snapshot, takenAt, source), db.uploads[id].account)
  }

  /** `SetSnapshotDate`, when it commits. */
  ghost function Redated(db: Db, id: UploadId, takenAt: Time, source: Source): Db
    requires id in db.uploads
  {
    Recomputed(db.(uploads := db.uploads[id := db.uploads[id].(takenAt := Some(takenAt), source := source)]),
      db.uploads[id].account)
  }

  // ---------------------------------------------------------------- the queues

  function SetStatus(db: Db, id: UploadId, status: Status): Db
    requires id in db.uploads
  {
    db.(uploads := db.uploads[id := db.uploads[id].(status := status)])
  }

  function Requeued(db: Db): Db {
    db.(uploads := map id | id in db.uploads ::
      if db.uploads[id].status == Processing then db.uploads[id].(status := Pending) else db.uploads[id])
  }

  function Marked(db: Db, account: AccountId, now: Time): Db {
    db.(uploads := map id | id in db.uploads ::
      if IsCompleted(db.uploads, account, id) && db.uploads[id].reprocessAt.None?
      then db.uploads[id].(reprocessAt := Some(now)) else db.uploads[id])
  }

  function Unmarked(db: Db, id: UploadId): Db {
    db.(uploads := if id in db.uploads then db.uploads[id := db.uploads[id].(reprocessAt := None)] else db.uploads)
  }

  /** The row of `a` comes before the row of `b`: by time, then by id. */
  predicate Older(rows: map<UploadId, Time>, a: UploadId, b: UploadId)
    requires a in rows && b in rows
  {
    rows[a] < rows[b] || (rows[a] == rows[b] && a.n < b.n)
  }

  ghost predicate IsOldest(rows: map<UploadId, Time>, id: UploadId) {
    id in rows && forall x | x in rows && x != id :: Older(rows, id, x)
  }

  /** The upload queue: when each pending upload arrived. */
  function PendingTimes(db: Db): map<UploadId, Time> {
    map id | id in db.uploads && db.uploads[id].status == Pending :: db.uploads[id].uploadedAt
  }

  /** The reread queue: when each flagged execution was flagged. */
  function FlaggedTimes(db: Db): map<UploadId, Time> {
    map id | id in db.uploads && db.uploads[id].status == Completed && db.uploads[id].reprocessAt.Some? ::
      db.uploads[id].reprocessAt.value
  }

  /** A freshly accepted upload. */
  predicate IsNewUpload(up: Upload) {
    && up.status == Pending && up.takenAt.None? && up.source == Unset
    && up.reprocessAt.None? && up.sequenceNo.None? && up.totals == Totals(0, 0, 0)
  }

  function Created(db: Db, id: UploadId, up: Upload): Db {
    db.(uploads := db.uploads[id := up])
  }

  // ---------------------------------------------------------------- the invariant

  /** Every account's derived data agrees with its executions. */
  ghost predicate Sound(db: Db) {
    WellFormed(db) && forall account: AccountId :: Consistent(db, account)
  }

  lemma ReplacedSnapshots(db: Db, id: UploadId, snapshot: Snapshot, takenAt: Time, source: Source)
    requires id in db.uploads
    ensures SnapshotOf(Replaced(db, id, snapshot, takenAt, source), id) == snapshot
    ensures forall other | other != id ::
              SnapshotOf(Replaced(db, id, snapshot, takenAt, source), other) == SnapshotOf(db, other)
  {
    forall kind {
      ReplacedList(db, id, snapshot, takenAt, source, kind);
    }
    SnapshotIs(Replaced(db, id, snapshot, takenAt, source), id, snapshot);
    forall other | other != id {
      ReplacedOther(db, id, snapshot, takenAt, source, other);
    }
  }

  lemma SnapshotIs(db: Db, id: UploadId, snapshot: Snapshot)
    requires forall kind :: ListKey(id, kind) in db.lists <==> kind in snapshot
    requires forall kind | kind in snapshot :: ListOf(db.members, id, kind) == snapshot[kind]
    ensures SnapshotOf(db, id) == snapshot
  {
  }

  lemma ReplacedOther(db: Db, id: UploadId, snapshot: Snapshot, takenAt: Time, source: Source, other: UploadId)
    requires id in db.uploads && other != id
    ensures SnapshotOf(Replaced(db, id, snapshot, takenAt, source), other) == SnapshotOf(db, other)
  {
    SnapshotsAgree(Replaced(db, id, snapshot, takenAt, source), db, other);
  }

  lemma ReplacedList(db: Db, id: UploadId, snapshot: Snapshot, takenAt: Time, source: Source, kind: Kind)
    requires id in db.uploads
    ensures ListKey(id, kind) in Replaced(db, id, snapshot, takenAt, source).lists <==> kind in snapshot
    ensures kind in snapshot ==> ListOf(Replaced(db, id, snapshot, takenAt, source).members, id, kind) == snapshot[kind]
  {
    var e := Replaced(db, id, snapshot, takenAt, source);
    if kind in snapshot {
      forall u
        ensures u in ListOf(e.members, id, kind) <==> u in snapshot[kind]
      {
        assert MemberKey(id, kind, u) in e.members <==> MemberKey(id, kind, u) in MemberKeys(id, snapshot);
      }
    }
  }

  lemma ReplacedWellFormed(db: Db, id: UploadId, snapshot: Snapshot, takenAt: Time, source: Source)
    requires id in db.uploads && WellFormed(db)
    ensures WellFormed(Replaced(db, id, snapshot, takenAt, source))
  {
  }

  /**
   A transaction that leaves other accounts' rows alone and rebuilds its own, `d` before and `e` with
   the account's own rows edited, mends its own account and neither mends nor harms another.
   */
  lemma RebuiltConsistency(d: Db, e: Db, account: AccountId, other: AccountId)
    requires WellFormed(e) && (other != account ==> SameRows(d, e, other))
    ensures Consistent(Recomputed(e, account), other) <==> other == account || Consistent(d, other)
  {
    hide *;
    if other == account {
      RecomputedConsistent(e, account);
    } else {
      SameRowsConsistent(d, e, other);
      ConsistentForeign(e, account, other);
    }
  }

  lemma RecomputedSound(d: Db, e: Db, account: AccountId)
    requires Sound(d) && WellFormed(e)
    requires forall other | other != account :: SameRows(d, e, other)
    ensures Sound(Recomputed(e, account))
  {
    RecomputedWellFormed(e, account);
    forall other: AccountId {
      RebuiltConsistency(d, e, account, other);
    }
    hide WellFormed;
    hide Consistent;
  }

  /** Recording an execution mends its account's history, whatever it was, and touches no other's. */
  lemma AppliedConsistency(db: Db, id: UploadId, snapshot: Snapshot, takenAt: Time, source: Source, account: AccountId)
    requires WellFormed(db) && id in db.uploads
    ensures Consistent(Applied(db, id, snapshot, takenAt, source), account)
            <==> account == db.uploads[id].account || Consistent(db, account)
  {
    var e := Replaced(db, id, snapshot, takenAt, source);
    ReplacedWellFormed(db, id, snapshot, takenAt, source);
    if account != db.uploads[id].account {
      ReplacedSameRows(db, id, snapshot, takenAt, source, account);
    }
    hide WellFormed;
    hide Consistent;
    hide SameRows;
    RebuiltConsistency(db, e, db.uploads[id].account, account);
  }

  lemma AppliedWellFormed(db: Db, id: UploadId, snapshot: Snapshot, takenAt: Time, source: Source)
    requires WellFormed(db) && id in db.uploads
    ensures WellFormed(Applied(db, id, snapshot, takenAt, source))
  {
    hide WellFormed;
    ReplacedWellFormed(db, id, snapshot, takenAt, source);
    RecomputedWellFormed(Replaced(db, id, snapshot, takenAt, source), db.uploads[id].account);
  }

  lemma ReplacedSameRows(db: Db, id: UploadId, snapshot: Snapshot, takenAt: Time, source: Source, other: AccountId)
    requires id in db.uploads && other != db.uploads[id].account
    ensures SameRows(db, Replaced(db, id, snapshot, takenAt, source), other)
  {
    var e := Replaced(db, id, snapshot, takenAt, source);
    forall x | x != id
      ensures SameLists(db, e, x)
    {
      ReplacedOther(db, id, snapshot, takenAt, source, x);
    }
    hide SameLists;
  }

  lemma AppliedSound(db: Db, id: UploadId, snapshot: Snapshot, takenAt: Time, source: Source)
    requires Sound(db) && id in db.uploads
    ensures Sound(Applied(db, id, snapshot, takenAt, source))
  {
    AppliedWellFormed(db, id, snapshot, takenAt, source);
    forall account: AccountId {
      AppliedConsistency(db, id, snapshot, takenAt, source, account);
    }
    hide WellFormed;
    hide Consistent;
    hide Applied;
  }

  /** Moving an execution mends its account's history, whatever it was, and touches no other's. */
  lemma RedatedConsistency(db: Db, id: UploadId, takenAt: Time, source: Source, account: AccountId)
    requires WellFormed(db) && id in db.uploads
    ensures Consistent(Redated(db, id, takenAt, source), account)
            <==> account == db.uploads[id].account || Consistent(db, account)
  {
    var e := db.(uploads := db.uploads[id := db.uploads[id].(takenAt := Some(takenAt), source := source)]);
    if account != db.uploads[id].account {
      MovedSameRows(db, id, takenAt, source, account);
    }
    assert WellFormed(e);
    hide WellFormed;
    hide Consistent;
    hide SameRows;
    RebuiltConsistency(db, e, db.uploads[id].account, account);
  }

  lemma MovedSameRows(db: Db, id: UploadId, takenAt: Time, source: Source, other: AccountId)
    requires id in db.uploads && other != db.uploads[id].account
    ensures SameRows(db, db.(uploads := db.uploads[id := db.uploads[id].(takenAt := Some(takenAt), source := source)]),
            other)
  {
    SameTables(db, db.(uploads := db.uploads[id := db.uploads[id].(takenAt := Some(takenAt), source := source)]));
    hide SameLists;
  }

  lemma RedatedWellFormed(db: Db, id: UploadId, takenAt: Time, source: Source)
    requires WellFormed(db) && id in db.uploads
    ensures WellFormed(Redated(db, id, takenAt, source))
  {
    var e := db.(uploads := db.uploads[id := db.uploads[id].(takenAt := Some(takenAt), source := source)]);
    RecomputedWellFormed(e, db.uploads[id].account);
  }

  lemma RedatedSound(db: Db, id: UploadId, takenAt: Time, source: Source)
    requires Sound(db) && id in db.uploads
    ensures Sound(Redated(db, id, takenAt, source))
  {
    RedatedWellFormed(db, id, takenAt, source);
    forall account: AccountId {
      RedatedConsistency(db, id, takenAt, source, account);
    }
    hide WellFormed;
    hide Consistent;
    hide Redated;
  }

  lemma SameTables(d: Db, e: Db)
    requires d.members == e.members && d.lists == e.lists
    ensures forall id :: SameLists(d, e, id)
  {
    forall id {
      SnapshotsAgree(d, e, id);
    }
  }

  /** `e` is `d` but for new uploads not yet completed and for columns no history is derived from. */
  ghost predicate SameHistoryColumns(d: Db, e: Db) {
    && d.members == e.members && d.lists == e.lists && d.changes == e.changes
    && (forall id | id in d.uploads :: id in e.uploads && SameRow(d.uploads[id], e.uploads[id]))
    && (forall id | id in e.uploads && id !in d.uploads ::
         e.uploads[id].status != Completed && e.uploads[id].sequenceNo.None?)
  }

  predicate SameRow(a: Upload, b: Upload) {
    && a.account == b.account && a.takenAt == b.takenAt && a.uploadedAt == b.uploadedAt
    && a.sequenceNo == b.sequenceNo && a.totals == b.totals
    && a.manualDate == b.manualDate && a.source == b.source
    && (a.status != b.status ==> a.status != Completed && b.status != Completed)
  }

  lemma ColumnsSound(d: Db, e: Db)
    requires Sound(d) && SameHistoryColumns(d, e)
    ensures Sound(e)
  {
    ColumnsWellFormed(d, e);
    forall account: AccountId {
      ColumnsConsistency(d, e, account);
    }
    hide WellFormed;
    hide Consistent;
    hide SameHistoryColumns;
  }

  lemma ColumnsConsistency(d: Db, e: Db, account: AccountId)
    requires SameHistoryColumns(d, e)
    ensures Consistent(d, account) <==> Consistent(e, account)
  {
    hide *;
    ColumnsSameRows(d, e, account);
    SameRowsConsistent(d, e, account);
  }

  lemma ColumnsWellFormed(d: Db, e: Db)
    requires WellFormed(d) && SameHistoryColumns(d, e)
    ensures WellFormed(e)
  {
  }

  lemma ColumnsSameRows(d: Db, e: Db, account: AccountId)
    requires SameHistoryColumns(d, e)
    ensures SameRows(d, e, account)
  {
    SameTables(d, e);
  }

  lemma CreatedColumns(db: Db, id: UploadId, up: Upload)
    requires id !in db.uploads && IsNewUpload(up)
    ensures SameHistoryColumns(db, Created(db, id, up))
  {
  }

  lemma SetStatusColumns(db: Db, id: UploadId, status: Status)
    requires id in db.uploads && db.uploads[id].status != Completed && status != Completed
    ensures SameHistoryColumns(db, SetStatus(db, id, status))
  {
  }

  lemma RequeuedColumns(db: Db)
    ensures SameHistoryColumns(db, Requeued(db))
  {
  }

  lemma MarkedColumns(db: Db, account: AccountId, now: Time)
    ensures SameHistoryColumns(db, Marked(db, account, now))
  {
  }

  lemma UnmarkedColumns(db: Db, id: UploadId)
    ensures SameHistoryColumns(db, Unmarked(db, id))
  {
  }

  lemma MarkedSound(db: Db, account: AccountId, now: Time)
    requires Sound(db)
    ensures Sound(Marked(db, account, now))
  {
    hide Sound;
    hide SameHistoryColumns;
    MarkedColumns(db, account, now);
    ColumnsSound(db, Marked(db, account, now));
  }

  lemma UnmarkedSound(db: Db, id: UploadId)
    requires Sound(db)
    ensures Sound(Unmarked(db, id))
  {
    hide Sound;
    hide SameHistoryColumns;
    UnmarkedColumns(db, id);
    ColumnsSound(db, Unmarked(db, id));
  }

  lemma CreatedSound(db: Db, id: UploadId, up: Upload)
    requires Sound(db) && id !in db.uploads && IsNewUpload(up)
    ensures Sound(Created(db, id, up))
  {
    hide Sound;
    hide SameHistoryColumns;
    CreatedColumns(db, id, up);
    ColumnsSound(db, Created(db, id, up));
  }

  lemma AppliedAccounts(db: Db, id: UploadId, snapshot: Snapshot, takenAt: Time, source: Source)
    requires id in db.uploads
    ensures Applied(db, id, snapshot, takenAt, source).uploads.Keys == db.uploads.Keys
    ensures forall x | x in db.uploads ::
              Applied(db, id, snapshot, takenAt, source).uploads[x].account == db.uploads[x].account
  {
  }

  /** The change rows of a completed execution of a sound store are the ones derived from its pair. */
  lemma RowIsDerived(db: Db, account: AccountId, k: EventKey)
    requires Sound(db) && IsCompleted(db.uploads, account, k.upload)
    ensures var order := Timeline(db.uploads, account);
            && k.upload in order
            && (k in db.changes <==> k in KeysAt(db, order, k.upload))
            && (k in db.changes ==> db.changes[k] == DerivedRow(db, account, order, k))
  {
    assert Consistent(db, account);
  }

  /** A completed execution of a mended account has the number its place gives it, and the tallies. */
  lemma NumberedInAccount(db: Db, id: UploadId)
    requires id in db.uploads && db.uploads[id].status == Completed && Consistent(db, db.uploads[id].account)
    ensures var account := db.uploads[id].account; var order := Timeline(db.uploads, account);
            && id in order
            && db.uploads[id].sequenceNo == Some(Position(order, id) + 1)
            && db.uploads[id].totals == FollowerTally(SnapshotOf(db, id), PrevSnapshot(db, order, id))
            && (Position(order, id) == 0 <==> order[0] == id)
  {
    var account := db.uploads[id].account;
    var order := Timeline(db.uploads, account);
    assert IsCompleted(db.uploads, account, id);
    SortedDistinct(db.uploads, order);
    PositionIs(order, 0);
  }

  lemma CompletedIsNumbered(db: Db, id: UploadId)
    requires Sound(db) && id in db.uploads && db.uploads[id].status == Completed
    ensures var account := db.uploads[id].account; var order := Timeline(db.uploads, account);
            && id in order
            && db.uploads[id].sequenceNo == Some(Position(order, id) + 1)
            && db.uploads[id].totals == FollowerTally(SnapshotOf(db, id), PrevSnapshot(db, order, id))
            && (Position(order, id) == 0 <==> order[0] == id)
  {
    assert Consistent(db, db.uploads[id].account);
    hide Sound;
    hide Consistent;
    NumberedInAccount(db, id);
  }

  /** The change rows of an execution of a mended account all name the one before it. */
  lemma RowsNamePredecessor(db: Db, id: UploadId)
    requires WellFormed(db) && id in db.uploads && db.uploads[id].status == Completed
    requires Consistent(db, db.uploads[id].account)
    ensures var order := Timeline(db.uploads, db.uploads[id].account);
            && (forall k | k in db.changes && k.upload == id :: Predecessor(order, id) == Some(db.changes[k].prev))
            && (KeysAt(db, order, id) == {} <==> forall k | k in db.changes :: k.upload != id)
  {
    var account := db.uploads[id].account;
    var order := Timeline(db.uploads, account);
    forall k | k in db.changes && k.upload == id
      ensures k in KeysAt(db, order, id) && Predecessor(order, id) == Some(db.changes[k].prev)
    {
      assert db.changes[k].account == account;
      assert db.changes[k] == DerivedRow(db, account, order, k);
    }
    if k :| k in KeysAt(db, order, id) {
      assert k in db.changes;
    }
  }

  // ---------------------------------------------------------------- the ends of the numbering

  /** Where a row sorts by its number, first to last or last to first; a row without one is least. */
  function NumberKey(up: Upload, last: bool): int {
    match up.sequenceNo
    case None => if last then 1 else -1
    case Some(n) => if last then -(n as int) else n
  }

  /** `id` is the account's first or last completed execution by number, if it has any. */
  ghost predicate IsBoundary(db: Db, account: AccountId, last: bool, id: Option<UploadId>) {
    match id
    case None => forall x :: !IsCompleted(db.uploads, account, x)
    case Some(b) =>
      IsCompleted(db.uploads, account, b)
      && forall x | IsCompleted(db.uploads, account, x) ::
           NumberKey(db.uploads[b], last) <= NumberKey(db.uploads[x], last)
  }

  /** The completed executions carry the numbers 1 to n in date order. */
  ghost predicate Numbered(db: Db, account: AccountId) {
    var order := Timeline(db.uploads, account);
    forall i: nat | i < |order| :: order[i] in db.uploads && db.uploads[order[i]].sequenceNo == Some(i + 1)
  }

  lemma ConsistentIsNumbered(db: Db, account: AccountId)
    requires Consistent(db, account)
    ensures Numbered(db, account)
  {
    var order := Timeline(db.uploads, account);
    SortedDistinct(db.uploads, order);
    forall i: nat | i < |order|
      ensures order[i] in db.uploads && db.uploads[order[i]].sequenceNo == Some(i + 1)
    {
      assert order[i] in order;
      PositionIs(order, i);
      NumberedInAccount(db, order[i]);
    }
  }

  /** Where the numbers follow the dates, the extremes of the numbering are the ends of the timeline. */
  lemma BoundaryIs(db: Db, account: AccountId, last: bool, id: Option<UploadId>)
    requires Numbered(db, account) && IsBoundary(db, account, last, id)
    ensures var order := Timeline(db.uploads, account);
            id == if order == [] then None else Some(if last then order[|order| - 1] else order[0])
  {
    var order := Timeline(db.uploads, account);
    if order == [] {
      assert forall x :: x !in order;
    } else {
      var end := if last then |order| - 1 else 0;
      assert order[end] in order;
      assert IsCompleted(db.uploads, account, order[end]);
      assert id.value in order;
      var i := Position(order, id.value);
      assert db.uploads[order[i]].sequenceNo == Some(i + 1) && db.uploads[order[end]].sequenceNo == Some(end + 1);
    }
  }

  // ---------------------------------------------------------------- where a transaction puts an execution

  /**
   An execution with row `a` comes before one dated `takenAt`: by date, an unknown one before all,
   then by upload time, then by id.
   */
  predicate DatedEarlier(a: Upload, x: UploadId, takenAt: Time, uploadedAt: Time, y: UploadId) {
    || a.takenAt.None? || a.takenAt.value < takenAt
    || (a.takenAt.value == takenAt && a.uploadedAt < uploadedAt)
    || (a.takenAt.value == takenAt && a.uploadedAt == uploadedAt && x.n < y.n)
  }

  /** In a history that agrees with its executions the numbers follow date, upload time and id. */
  lemma NumbersFollowDates(db: Db, account: AccountId, x: UploadId, y: UploadId)
    requires Consistent(db, account) && x != y && IsCompleted(db.uploads, account, x)
    requires IsCompleted(db.uploads, account, y) && db.uploads[y].takenAt.Some?
    ensures var a, b := db.uploads[x], db.uploads[y];
            && a.sequenceNo.Some? && b.sequenceNo.Some?
            && (a.sequenceNo.value < b.sequenceNo.value
                <==> DatedEarlier(a, x, b.takenAt.value, b.uploadedAt, y))
  {
    var order := Timeline(db.uploads, account);
    ConsistentIsNumbered(db, account);
    hide Consistent;
    assert x in order && y in order;
    var i, j := Position(order, x), Position(order, y);
    assert db.uploads[order[i]].sequenceNo == Some(i + 1) && db.uploads[order[j]].sequenceNo == Some(j + 1);
  }

  /** The row `b` is `a` but for what a rebuild derives. */
  predicate SameButDerived(a: Upload, b: Upload) {
    b.(sequenceNo := a.sequenceNo, totals := a.totals) == a
  }

  /**
   The transaction that led from `db` to `r` dated `id` at `takenAt` and wrote no other column that is
   not derived; if `id` is completed, the completed executions of its account that come before that
   date, and no others, now have smaller numbers.
   */
  ghost predicate PutAt(db: Db, r: Db, id: UploadId, status: Status, takenAt: Time, source: Source) {
    && id in db.uploads && r.uploads.Keys == db.uploads.Keys
    && r.uploads[id].status == status
    && r.uploads[id].takenAt == Some(takenAt) && r.uploads[id].source == source
    && SameButDerived(db.uploads[id].(status := status, takenAt := Some(takenAt), source := source), r.uploads[id])
    && (forall x | x in db.uploads && x != id :: SameButDerived(db.uploads[x], r.uploads[x]))
    && (status == Completed ==>
          r.uploads[id].sequenceNo.Some? &&
          forall x | IsCompleted(db.uploads, db.uploads[id].account, x) && x != id ::
            x in r.uploads && r.uploads[x].sequenceNo.Some?
            && (r.uploads[x].sequenceNo.value < r.uploads[id].sequenceNo.value
                <==> DatedEarlier(db.uploads[x], x, takenAt, db.uploads[id].uploadedAt, id)))
  }

  lemma PlacedByNumber(db: Db, r: Db, id: UploadId, takenAt: Time)
    requires id in db.uploads && r.uploads.Keys == db.uploads.Keys && Consistent(r, db.uploads[id].account)
    requires IsCompleted(r.uploads, db.uploads[id].account, id) && r.uploads[id].takenAt == Some(takenAt)
    requires r.uploads[id].uploadedAt == db.uploads[id].uploadedAt
    requires forall x | x in db.uploads && x != id :: SameButDerived(db.uploads[x], r.uploads[x])
    ensures r.uploads[id].sequenceNo.Some?
    ensures forall x | IsCompleted(db.uploads, db.uploads[id].account, x) && x != id ::
              x in r.uploads && r.uploads[x].sequenceNo.Some?
              && (r.uploads[x].sequenceNo.value < r.uploads[id].sequenceNo.value
                  <==> DatedEarlier(db.uploads[x], x, takenAt, db.uploads[id].uploadedAt, id))
  {
    NumberedInAccount(r, id);
    hide Consistent;
    forall x | IsCompleted(db.uploads, db.uploads[id].account, x) && x != id {
      NumbersFollowDates(r, db.uploads[id].account, x, id);
    }
  }

  /** What recording an execution writes, and where it puts it. */
  lemma AppliedPutsAt(db: Db, id: UploadId, snapshot: Snapshot, takenAt: Time, source: Source)
    requires WellFormed(db) && id in db.uploads
    ensures PutAt(db, Applied(db, id, snapshot, takenAt, source), id, Completed, takenAt, source)
  {
    var r := Applied(db, id, snapshot, takenAt, source);
    AppliedConsistency(db, id, snapshot, takenAt, source, db.uploads[id].account);
    hide WellFormed;
    hide Consistent;
    AppliedWrites(db, id, snapshot, takenAt, source);
    hide Applied;
    PlacedByNumber(db, r, id, takenAt);
  }

  /** Recording an execution replaces its lists and no other's. */
  lemma AppliedSnapshots(db: Db, id: UploadId, snapshot: Snapshot, takenAt: Time, source: Source)
    requires id in db.uploads
    ensures SnapshotOf(Applied(db, id, snapshot, takenAt, source), id) == snapshot
    ensures forall x | x != id ::
              SnapshotOf(Applied(db, id, snapshot, takenAt, source), x) == SnapshotOf(db, x)
  {
    var p := Replaced(db, id, snapshot, takenAt, source);
    ReplacedSnapshots(db, id, snapshot, takenAt, source);
    RebuiltKeepsSnapshots(p, db.uploads[id].account, Timeline(p.uploads, db.uploads[id].account));
    hide Replaced;
    hide SnapshotOf;
  }

  lemma AppliedWrites(db: Db, id: UploadId, snapshot: Snapshot, takenAt: Time, source: Source)
    requires id in db.uploads
    ensures var r, up := Applied(db, id, snapshot, takenAt, source), db.uploads[id];
            && r.uploads.Keys == db.uploads.Keys
            && SameButDerived(up.(status := Completed, takenAt := Some(takenAt), source := source), r.uploads[id])
            && forall x | x in db.uploads && x != id :: SameButDerived(db.uploads[x], r.uploads[x])
  {
  }

  /** What redating an execution writes, and where it puts it. */
  lemma RedatedPutsAt(db: Db, id: UploadId, takenAt: Time, source: Source)
    requires WellFormed(db) && id in db.uploads
    ensures PutAt(db, Redated(db, id, takenAt, source), id, db.uploads[id].status, takenAt, source)
  {
    var r := Redated(db, id, takenAt, source);
    RedatedConsistency(db, id, takenAt, source, db.uploads[id].account);
    hide WellFormed;
    hide Consistent;
    RedatedWrites(db, id, takenAt, source);
    hide Redated;
    if db.uploads[id].status == Completed {
      PlacedByNumber(db, r, id, takenAt);
    }
  }

  lemma RedatedWrites(db: Db, id: UploadId, takenAt: Time, source: Source)
    requires id in db.uploads
    ensures var r, up := Redated(db, id, takenAt, source), db.uploads[id];
            && r.uploads.Keys == db.uploads.Keys && r.members == db.members && r.lists.Keys == db.lists.Keys
            && SameButDerived(up.(takenAt := Some(takenAt), source := source), r.uploads[id])
            && forall x | x in db.uploads && x != id :: SameButDerived(db.uploads[x], r.uploads[x])
  {
  }
}

/**
 The history of an account: everything the store derives from the executions it holds.

 Sequence numbers, per-list counts, mirrored follower columns, change rows, departure reasons and
 rename pairs are a function of the completed executions, their place in time and their lists.
 */
module History {
  import opened Schema
  import opened Snapshots
  import opened DateOrder

  // ---------------------------------------------------------------- reading snapshots

  type Members = map<MemberKey, Option<Time>>

  /** The names in one list of one execution. */
  function Names(members: Members, id: UploadId, kind: Kind): (names: set<User>)
    ensures forall u :: u in names <==> MemberKey(id, kind, u) in members
  {
    var names := set m | m in members && m.upload == id && m.kind == kind :: m.user;
    assert forall u :: MemberKey(id, kind, u) in members ==> MemberKey(id, kind, u).user in names;
    names
  }

  function ListOf(members: Members, id: UploadId, kind: Kind): (m: Membership)
    ensures m.Keys == Names(members, id, kind)
  {
    map u | u in Names(members, id, kind) :: members[MemberKey(id, kind, u)]
  }

  /** The lists one execution carried. */
  function Kinds(lists: set<ListKey>, id: UploadId): (kinds: set<Kind>)
    ensures forall kind :: kind in kinds <==> ListKey(id, kind) in lists
  {
    var kinds := set l | l in lists && l.upload == id :: l.kind;
    assert forall kind :: ListKey(id, kind) in lists ==> ListKey(id, kind).kind in kinds;
    kinds
  }

  function ReadSnapshot(members: Members, lists: set<ListKey>, id: UploadId): Snapshot {
    map kind | kind in Kinds(lists, id) :: ListOf(members, id, kind)
  }

  /** One execution as the tables hold it. */
  function SnapshotOf(db: Db, id: UploadId): Snapshot {
    ReadSnapshot(db.members, db.lists.Keys, id)
  }

  // ---------------------------------------------------------------- derived rows

  ghost function PrevSnapshot(db: Db, order: seq<UploadId>, id: UploadId): Option<Snapshot> {
    match Predecessor(order, id)
    case None => None
    case Some(p) => Some(SnapshotOf(db, p))
  }

  /** The upload row once the executions in `done` have been rebuilt. */
  ghost function DerivedUpload(db: Db, account: AccountId, done: seq<UploadId>, id: UploadId): Upload
    requires id in db.uploads
  {
    var up := db.uploads[id];
    if up.account != account then up
    else if id !in done then up.(sequenceNo := None)
    else up.(sequenceNo := Some(Position(done, id) + 1),
             totals := FollowerTally(SnapshotOf(db, id), PrevSnapshot(db, done, id)))
  }

  ghost function DerivedTotals(db: Db, done: seq<UploadId>, l: ListKey): Totals
    requires l in db.lists
  {
    if l.upload in done then Tally(SnapshotOf(db, l.upload), PrevSnapshot(db, done, l.upload), l.kind)
    else db.lists[l]
  }

  /** The change rows execution `id` has when `done` is the order. */
  ghost function KeysAt(db: Db, done: seq<UploadId>, id: UploadId): (keys: set<EventKey>)
    ensures forall k: EventKey | k in keys :: k.upload == id && id in done
  {
    match Predecessor(done, id)
    case None => {}
    case Some(p) => EventKeys(id, SnapshotOf(db, id), SnapshotOf(db, p))
  }

  ghost function DerivedKeys(db: Db, done: seq<UploadId>): (keys: set<EventKey>)
    ensures forall k: EventKey :: k in keys <==> k in KeysAt(db, done, k.upload)
  {
    set id, k | id in done && k in KeysAt(db, done, id) :: k
  }

  ghost function DerivedRow(db: Db, account: AccountId, done: seq<UploadId>, k: EventKey): (e: Event)
    requires k in KeysAt(db, done, k.upload)
    ensures e.account == account
  {
    var p := Predecessor(done, k.upload).value;
    Row(account, p, SnapshotOf(db, k.upload), SnapshotOf(db, p), k)
  }

  /** Change rows filed under other accounts. */
  function ForeignKeys(db: Db, account: AccountId): set<EventKey> {
    set k | k in db.changes && db.changes[k].account != account
  }

  ghost function DerivedChanges(db: Db, account: AccountId, done: seq<UploadId>): map<EventKey, Event>
  {
    map k | k in ForeignKeys(db, account) + DerivedKeys(db, done) ::
      if k in KeysAt(db, done, k.upload) then DerivedRow(db, account, done, k) else db.changes[k]
  }

  /** The tables after the executions in `done`, a prefix of the timeline, have been rebuilt. */
  ghost function Rebuilt(db: Db, account: AccountId, done: seq<UploadId>): Db {
    Db(map id | id in db.uploads :: DerivedUpload(db, account, done, id),
       db.members,
       map l | l in db.lists :: DerivedTotals(db, done, l),
       DerivedChanges(db, account, done))
  }

  /** The tables after the account's whole history has been rebuilt. */
  ghost function Recomputed(db: Db, account: AccountId): Db {
    Rebuilt(db, account, Timeline(db.uploads, account))
  }

  // ---------------------------------------------------------------- invariants

  /** No two uploads of one account share a sequence number. */
  ghost predicate SequenceIndex(uploads: map<UploadId, Upload>) {
    forall a, b | a in uploads && b in uploads && a != b && uploads[a].account == uploads[b].account ::
      uploads[a].sequenceNo.None? || uploads[a].sequenceNo != uploads[b].sequenceNo
  }

  /** Rows refer to rows that exist, and members only to lists their execution carried. */
  ghost predicate WellFormed(db: Db) {
    && SequenceIndex(db.uploads)
    && (forall k | k in db.changes :: k.upload in db.uploads && db.uploads[k.upload].account == db.changes[k].account)
    && (forall l | l in db.lists :: l.upload in db.uploads)
    && (forall m | m in db.members :: ListKey(m.upload, m.kind) in db.lists)
  }

  /** Everything derived for `account` agrees with the executions it was derived from. */
  ghost predicate Consistent(db: Db, account: AccountId) {
    var order := Timeline(db.uploads, account);
    && (forall id | id in db.uploads && db.uploads[id].account == account ::
          db.uploads[id] == DerivedUpload(db, account, order, id))
    && (forall l | l in db.lists && l.upload in order :: db.lists[l] == DerivedTotals(db, order, l))
    && (forall k :: k in db.changes && db.changes[k].account == account <==> k in KeysAt(db, order, k.upload))
    && (forall k | k in db.changes && db.changes[k].account == account ::
          db.changes[k] == DerivedRow(db, account, order, k))
  }

  // ---------------------------------------------------------------- recomputing

  /** Two databases hold the same completed executions for `account`. */
  ghost predicate SameExecutions(d: Db, e: Db, account: AccountId) {
    && (forall id :: IsCompleted(d.uploads, account, id) <==> IsCompleted(e.uploads, account, id))
    && (forall id | IsCompleted(d.uploads, account, id) && IsCompleted(e.uploads, account, id) ::
          SamePlace(d.uploads[id], e.uploads[id]) && SnapshotOf(d, id) == SnapshotOf(e, id))
  }

  lemma SnapshotsAgree(d: Db, e: Db, id: UploadId)
    requires forall kind :: ListKey(id, kind) in d.lists <==> ListKey(id, kind) in e.lists
    requires forall kind, u :: MemberKey(id, kind, u) in d.members <==> MemberKey(id, kind, u) in e.members
    requires forall kind, u | MemberKey(id, kind, u) in d.members && MemberKey(id, kind, u) in e.members ::
               d.members[MemberKey(id, kind, u)] == e.members[MemberKey(id, kind, u)]
    ensures SnapshotOf(d, id) == SnapshotOf(e, id)
  {
    forall kind
      ensures ListOf(d.members, id, kind) == ListOf(e.members, id, kind)
    {
    }
  }

  /** What is derived for an execution depends only on it and its predecessor. */
  lemma DerivedAgree(d: Db, e: Db, account: AccountId, order: seq<UploadId>)
    requires forall id | id in order :: SnapshotOf(d, id) == SnapshotOf(e, id)
    ensures forall id | id in order :: PrevSnapshot(d, order, id) == PrevSnapshot(e, order, id)
    ensures forall id :: KeysAt(d, order, id) == KeysAt(e, order, id)
    ensures forall k: EventKey | k in KeysAt(d, order, k.upload) ::
              DerivedRow(d, account, order, k) == DerivedRow(e, account, order, k)
  {
  }

  lemma RebuiltKeepsSnapshots(db: Db, account: AccountId, done: seq<UploadId>)
    ensures forall id :: SnapshotOf(Rebuilt(db, account, done), id) == SnapshotOf(db, id)
  {
    forall id {
      SnapshotsAgree(Rebuilt(db, account, done), db, id);
    }
  }

  lemma RecomputedSameExecutions(db: Db, account: AccountId, other: AccountId)
    ensures SameExecutions(db, Recomputed(db, account), other)
    ensures Timeline(Recomputed(db, account).uploads, other) == Timeline(db.uploads, other)
  {
    RebuiltKeepsSnapshots(db, account, Timeline(db.uploads, account));
    TimelineDetermined(db.uploads, Recomputed(db, account).uploads, other);
  }

  lemma DerivedUploadAgree(d: Db, e: Db, account: AccountId, order: seq<UploadId>, id: UploadId)
    requires forall x | x in order :: SnapshotOf(d, x) == SnapshotOf(e, x)
    requires id in d.uploads && id in e.uploads && e.uploads[id] == DerivedUpload(d, account, order, id)
    ensures DerivedUpload(e, account, order, id) == e.uploads[id]
  {
    DerivedAgree(d, e, account, order);
  }

  /** Rebuilding makes the account consistent. */
  lemma RecomputedConsistent(db: Db, account: AccountId)
    requires WellFormed(db)
    ensures Consistent(Recomputed(db, account), account)
  {
    var order, e := Timeline(db.uploads, account), Recomputed(db, account);
    RecomputedSameExecutions(db, account, account);
    RebuiltKeepsSnapshots(db, account, order);
    forall id | id in e.uploads
      ensures e.uploads[id] == DerivedUpload(e, account, order, id)
    {
      DerivedUploadAgree(db, e, account, order, id);
    }
    forall l | l in e.lists && l.upload in order
      ensures e.lists[l] == DerivedTotals(e, order, l)
    {
      DerivedAgree(db, e, account, order);
    }
    forall k: EventKey {
      RecomputedChangeConsistent(db, account, k);
    }
  }

  lemma RecomputedChangeConsistent(db: Db, account: AccountId, k: EventKey)
    requires WellFormed(db)
    ensures var order, e := Timeline(db.uploads, account), Recomputed(db, account);
            && (k in e.changes && e.changes[k].account == account <==> k in KeysAt(e, order, k.upload))
            && (k in KeysAt(e, order, k.upload) ==> e.changes[k] == DerivedRow(e, account, order, k))
  {
    var order := Timeline(db.uploads, account);
    RebuiltKeepsSnapshots(db, account, order);
    DerivedAgree(db, Recomputed(db, account), account, order);
    RecomputedChange(db, account, k);
  }

  /** The change row `k` after rebuilding `account`. */
  lemma RecomputedChange(db: Db, account: AccountId, k: EventKey)
    requires WellFormed(db)
    ensures k in KeysAt(db, Timeline(db.uploads, account), k.upload) ==>
              && IsCompleted(db.uploads, account, k.upload)
              && k in Recomputed(db, account).changes
              && Recomputed(db, account).changes[k] == DerivedRow(db, account, Timeline(db.uploads, account), k)
    ensures k !in KeysAt(db, Timeline(db.uploads, account), k.upload) ==>
              && (k in Recomputed(db, account).changes <==> k in ForeignKeys(db, account))
              && (k in ForeignKeys(db, account) ==> Recomputed(db, account).changes[k] == db.changes[k])
    ensures k in ForeignKeys(db, account) ==> k !in KeysAt(db, Timeline(db.uploads, account), k.upload)
  {
  }

  /** Rebuilding one account leaves every other account's rows alone. */
  lemma RecomputedForeign(db: Db, account: AccountId, other: AccountId)
    requires other != account && WellFormed(db)
    ensures forall id | id in db.uploads && db.uploads[id].account == other ::
              Recomputed(db, account).uploads[id] == db.uploads[id]
    ensures forall l | l in db.lists && db.uploads[l.upload].account == other ::
              Recomputed(db, account).lists[l] == db.lists[l]
    ensures forall k :: (k in Recomputed(db, account).changes && Recomputed(db, account).changes[k].account == other)
                        <==> (k in db.changes && db.changes[k].account == other)
    ensures forall k | k in db.changes && db.changes[k].account == other ::
              k in Recomputed(db, account).changes && Recomputed(db, account).changes[k] == db.changes[k]
  {
    forall k {
      RecomputedForeignChange(db, account, other, k);
    }
  }

  lemma RecomputedForeignChange(db: Db, account: AccountId, other: AccountId, k: EventKey)
    requires other != account && WellFormed(db)
    ensures (k in Recomputed(db, account).changes && Recomputed(db, account).changes[k].account == other)
            <==> (k in db.changes && db.changes[k].account == other)
    ensures k in db.changes && db.changes[k].account == other ==>
              k in Recomputed(db, account).changes && Recomputed(db, account).changes[k] == db.changes[k]
  {
    
    RecomputedChange(db, account, k);
  }

  /** The rows filed under `account` are the same, save for columns no history is derived from. */
  ghost predicate SameRows(d: Db, e: Db, account: AccountId) {
    && (forall id :: IsCompleted(d.uploads, account, id) <==> IsCompleted(e.uploads, account, id))
    && (forall id | id in d.uploads && d.uploads[id].account == account ::
         id in e.uploads && e.uploads[id].account == account)
    && (forall id | id in e.uploads && e.uploads[id].account == account :: SameDerived(d, e, id))
    && (forall id | IsCompleted(e.uploads, account, id) ::
          id in d.uploads && SamePlace(d.uploads[id], e.uploads[id]) && SameLists(d, e, id))
    && (forall k ::
          (k in d.changes && d.changes[k].account == account)
          <==> (k in e.changes && e.changes[k].account == account))
    && (forall k | k in d.changes && k in e.changes && d.changes[k].account == account :: d.changes[k] == e.changes[k])
  }

  /** The derived columns of one upload are unchanged; a new upload has none. */
  ghost predicate SameDerived(d: Db, e: Db, id: UploadId)
    requires id in e.uploads
  {
    if id in d.uploads then
      e.uploads[id].sequenceNo == d.uploads[id].sequenceNo && e.uploads[id].totals == d.uploads[id].totals
                            && e.uploads[id].account == d.uploads[id].account
    else e.uploads[id].sequenceNo == None
  }

  ghost predicate SameLists(d: Db, e: Db, id: UploadId) {
    && SnapshotOf(d, id) == SnapshotOf(e, id)
    && (forall l: ListKey | l in d.lists && l in e.lists && l.upload == id :: d.lists[l] == e.lists[l])
  }

  /** An edit of columns no history is derived from neither mends a history nor harms it. */
  lemma SameRowsConsistent(d: Db, e: Db, account: AccountId)
    requires SameRows(d, e, account)
    ensures Consistent(d, account) <==> Consistent(e, account)
  {
    var order := Timeline(d.uploads, account);
    TimelineDetermined(d.uploads, e.uploads, account);
    SameRowsRows(d, e, account, order);
    SameRowsLists(d, e, account, order);
    DerivedAgree(d, e, account, order);
    hide SameRows;
    hide DerivedRow;
    hide KeysAt;
  }

  lemma SameRowsRows(d: Db, e: Db, account: AccountId, order: seq<UploadId>)
    requires SameRows(d, e, account) && order == Timeline(d.uploads, account)
    ensures (forall id | id in d.uploads && d.uploads[id].account == account ::
              d.uploads[id] == DerivedUpload(d, account, order, id))
            <==> (forall id | id in e.uploads && e.uploads[id].account == account ::
                e.uploads[id] == DerivedUpload(e, account, order, id))
  {
    forall id | id in d.uploads && d.uploads[id].account == account
      ensures id in e.uploads && e.uploads[id].account == account
      ensures d.uploads[id] == DerivedUpload(d, account, order, id)
              <==> e.uploads[id] == DerivedUpload(e, account, order, id)
    {
      SameRowsRow(d, e, account, order, id);
    }
    forall id | id in e.uploads && e.uploads[id].account == account && id !in d.uploads
      ensures e.uploads[id] == DerivedUpload(e, account, order, id)
    {
      assert SameDerived(d, e, id) && !IsCompleted(d.uploads, account, id);
    }
  }

  lemma SameRowsRow(d: Db, e: Db, account: AccountId, order: seq<UploadId>, id: UploadId)
    requires SameRows(d, e, account) && order == Timeline(d.uploads, account)
    requires id in d.uploads && d.uploads[id].account == account
    ensures id in e.uploads && e.uploads[id].account == account
    ensures d.uploads[id] == DerivedUpload(d, account, order, id)
            <==> e.uploads[id] == DerivedUpload(e, account, order, id)
  {
    DerivedAgree(d, e, account, order);
    assert SameDerived(d, e, id);
    if id in order {
      assert SameLists(d, e, id);
    }
  }

  lemma SameRowsLists(d: Db, e: Db, account: AccountId, order: seq<UploadId>)
    requires SameRows(d, e, account) && order == Timeline(d.uploads, account)
    ensures forall l: ListKey | l.upload in order :: l in d.lists <==> l in e.lists
    ensures forall l: ListKey | l.upload in order && l in d.lists && l in e.lists ::
              d.lists[l] == DerivedTotals(d, order, l) <==> e.lists[l] == DerivedTotals(e, order, l)
  {
    DerivedAgree(d, e, account, order);
    forall l: ListKey | l.upload in order
      ensures SameLists(d, e, l.upload)
      ensures l in d.lists <==> l in e.lists
    {
      assert IsCompleted(e.uploads, account, l.upload);
      assert l in d.lists <==> l.kind in SnapshotOf(d, l.upload);
      assert l in e.lists <==> l.kind in SnapshotOf(e, l.upload);
    }
  }

  /** Rebuilding one account neither mends nor harms another. */
  lemma ConsistentForeign(db: Db, account: AccountId, other: AccountId)
    requires other != account && WellFormed(db)
    ensures Consistent(Recomputed(db, account), other) <==> Consistent(db, other)
  {
    hide *;
    RecomputedSameRows(db, account, other);
    SameRowsConsistent(db, Recomputed(db, account), other);
  }

  lemma RecomputedSameRows(db: Db, account: AccountId, other: AccountId)
    requires other != account && WellFormed(db)
    ensures SameRows(db, Recomputed(db, account), other)
  {
    hide Recomputed;
    hide Consistent;
    var e := Recomputed(db, account);
    RecomputedSameExecutions(db, account, other);
    RecomputedForeign(db, account, other);
    RecomputedColumns(db, account);
    forall id | IsCompleted(e.uploads, other, id)
      ensures SameLists(db, e, id)
    {
      assert IsCompleted(db.uploads, other, id);
    }
  }

  lemma RecomputedColumns(db: Db, account: AccountId)
    ensures var e := Recomputed(db, account);
            && e.uploads.Keys == db.uploads.Keys && e.members == db.members && e.lists.Keys == db.lists.Keys
            && forall id | id in db.uploads ::
                 e.uploads[id].account == db.uploads[id].account && e.uploads[id].status == db.uploads[id].status
  {
  }

  lemma RebuiltSequenceIndex(db: Db, account: AccountId, done: seq<UploadId>)
    requires SequenceIndex(db.uploads) && Distinct(done)
    ensures SequenceIndex(Rebuilt(db, account, done).uploads)
  {
    var e := Rebuilt(db, account, done).uploads;
    forall a, b | a in e && b in e && a != b && e[a].account == e[b].account
      ensures e[a].sequenceNo.None? || e[a].sequenceNo != e[b].sequenceNo
    {
      if a in done && b in done {
        assert done[Position(done, a)] != done[Position(done, b)];
      }
    }
  }

  lemma RebuiltWellFormed(db: Db, account: AccountId, done: seq<UploadId>)
    requires WellFormed(db) && Distinct(done)
    requires forall id | id in done :: id in db.uploads && db.uploads[id].account == account
    ensures WellFormed(Rebuilt(db, account, done))
  {
    var e := Rebuilt(db, account, done);
    RebuiltSequenceIndex(db, account, done);
    forall k | k in e.changes {
      RebuiltFiled(db, account, done, k);
    }
  }

  lemma RebuiltFiled(db: Db, account: AccountId, done: seq<UploadId>, k: EventKey)
    requires WellFormed(db) && k in DerivedChanges(db, account, done)
    requires forall id | id in done :: id in db.uploads && db.uploads[id].account == account
    ensures k.upload in db.uploads && db.uploads[k.upload].account == DerivedChanges(db, account, done)[k].account
  {
  }

  lemma RecomputedWellFormed(db: Db, account: AccountId)
    requires WellFormed(db)
    ensures WellFormed(Recomputed(db, account))
  {
    SortedDistinct(db.uploads, Timeline(db.uploads, account));
    RebuiltWellFormed(db, account, Timeline(db.uploads, account));
  }

  /** An account's history is consistent exactly when rebuilding it changes nothing. */
  lemma ConsistentIsFixpoint(db: Db, account: AccountId)
    requires WellFormed(db)
    ensures Consistent(db, account) <==> Recomputed(db, account) == db
  {
    var order, e := Timeline(db.uploads, account), Recomputed(db, account);
    if Consistent(db, account) {
      assert e.uploads == db.uploads;
      assert e.lists == db.lists;
      assert e.changes == db.changes;
    }
    if e == db {
      RecomputedConsistent(db, account);
    }
  }

  /** Rebuilding twice is rebuilding once. */
  lemma RecomputeIdempotent(db: Db, account: AccountId)
    requires WellFormed(db)
    ensures Recomputed(Recomputed(db, account), account) == Recomputed(db, account)
  {
    RecomputedWellFormed(db, account);
    RecomputedConsistent(db, account);
    ConsistentIsFixpoint(Recomputed(db, account), account);
  }
}

/**
 The effect of each statement a rebuild executes, and why running them in order rebuilds one more
 execution of the history.
 */
module Statements {
  import opened Schema
  import opened Snapshots
  import opened DateOrder
  import opened History

  type Changes = map<EventKey, Event>

  // ---------------------------------------------------------------- uploads and upload_lists

  function ReleaseNumbers(db: Db, account: AccountId): Db {
    db.(uploads := map id | id in db.uploads ::
      if db.uploads[id].account == account then db.uploads[id].(sequenceNo := None) else db.uploads[id])
  }

  function DeleteChanges(db: Db, account: AccountId): Db {
    db.(changes := map k | k in db.changes && db.changes[k].account != account :: db.changes[k])
  }

  function Number(db: Db, id: UploadId, n: nat): Db
    requires id in db.uploads
  {
    db.(uploads := db.uploads[id := db.uploads[id].(sequenceNo := Some(n))])
  }

  function RefreshCounts(db: Db, id: UploadId): Db {
    db.(lists := map l | l in db.lists ::
      if l.upload == id then Totals(|ListOf(db.members, id, l.kind)|, 0, 0) else db.lists[l])
  }

  function Mirror(db: Db, id: UploadId): Db
    requires id in db.uploads
  {
    var l := ListKey(id, Followers);
    db.(uploads := db.uploads[id :=
      db.uploads[id].(totals := if l in db.lists then db.lists[l] else Totals(0, 0, 0))])
  }

  /** The members of one list in `present` that the same list in `absent` does not have. */
  function Difference(db: Db, present: UploadId, absent: UploadId, kind: Kind): set<User> {
    set u | u in Names(db.members, present, kind) && MemberKey(absent, kind, u) !in db.members
  }

  function ChangedRows(db: Db, id: UploadId, prev: UploadId, kind: Kind, change: ChangeType): set<User> {
    if change == Followed then Difference(db, id, prev, kind) else Difference(db, prev, id, kind)
  }

  function ChangeKeys(id: UploadId, kind: Kind, change: ChangeType, users: set<User>): (keys: set<EventKey>)
    ensures forall k :: k in keys <==> k.upload == id && k.kind == kind && k.change == change && k.user in users
  {
    set u | u in users :: EventKey(id, kind, u, change)
  }

  function InsertChanges(db: Db, account: AccountId, id: UploadId, prev: UploadId, kind: Kind, change: ChangeType): Db {
    var rows := map k | k in ChangeKeys(id, kind, change, ChangedRows(db, id, prev, kind, change)) ::
                  Event(account, prev, None, None, None);
    db.(changes := db.changes + rows)
  }

  function SetCounts(db: Db, l: ListKey, added: nat, removed: nat): Db
    requires l in db.lists
  {
    db.(lists := db.lists[l := db.lists[l].(added := added, removed := removed)])
  }

  // ---------------------------------------------------------------- departures

  function MarkRenamedTo(changes: Changes, id: UploadId, from: User, to: User): Changes {
    map k | k in changes ::
      if k == EventKey(id, Followers, from, Unfollowed) then changes[k].(reason := Some(Renamed), renamedTo := Some(to))
      else changes[k]
  }

  function MarkRenamedFrom(changes: Changes, id: UploadId, from: User, to: User): Changes {
    map k | k in changes ::
      if k == EventKey(id, Followers, to, Followed) then changes[k].(renamedFrom := Some(from))
      else changes[k]
  }

  /** The departures of `id` no statement has explained yet. */
  predicate Unsettled(changes: Changes, id: UploadId, k: EventKey) {
    k in changes && k.upload == id && k.kind == Followers && k.change == Unfollowed && changes[k].reason.None?
  }

  function Settle(changes: Changes, id: UploadId, users: set<User>, reason: Reason): Changes {
    map k | k in changes ::
      if Unsettled(changes, id, k) && k.user in users then changes[k].(reason := Some(reason)) else changes[k]
  }

  function SettleRest(changes: Changes, id: UploadId, reason: Reason): Changes {
    map k | k in changes ::
      if Unsettled(changes, id, k) then changes[k].(reason := Some(reason)) else changes[k]
  }

  /** Both updates for each pair, in the order the pairs were read. */
  function AfterRenames(changes: Changes, id: UploadId, pairs: seq<(User, User)>): Changes {
    if pairs == [] then changes
    else
      var p := pairs[|pairs| - 1];
      MarkRenamedFrom(MarkRenamedTo(AfterRenames(changes, id, pairs[..|pairs| - 1]), id, p.0, p.1), id, p.0, p.1)
  }

  lemma AfterOneMore(changes: Changes, id: UploadId, pairs: seq<(User, User)>, i: nat)
    requires i < |pairs|
    ensures AfterRenames(changes, id, pairs[..i + 1])
            == var marked := MarkRenamedTo(AfterRenames(changes, id, pairs[..i]), id, pairs[i].0, pairs[i].1);
               MarkRenamedFrom(marked, id, pairs[i].0, pairs[i].1)
  {
    assert pairs[..i + 1][..i] == pairs[..i];
  }

  /** The statements that follow the renames, each guarded on the reason still being unset. */
  function Cascade(changes: Changes, id: UploadId, cur: Snapshot, prev: Snapshot): Changes {
    var a := if Blocked in cur then Settle(changes, id, cur[Blocked].Keys, YouBlocked) else changes;
    var b := if Following in cur && Following in prev then Settle(a, id, cur[Following].Keys, StillFollowed) else a;
    var c := if Following in cur && Following in prev
             then Settle(b, id, prev[Following].Keys - cur[Following].Keys, Vanished) else b;
    SettleRest(c, id, Unknown)
  }

  /** The two statements that read the following list could run in either order. */
  lemma SettleCommutes(changes: Changes, id: UploadId, cur: Snapshot, prev: Snapshot)
    requires Following in cur && Following in prev
    ensures var stay, gone := cur[Following].Keys, prev[Following].Keys - cur[Following].Keys;
            Settle(Settle(changes, id, stay, StillFollowed), id, gone, Vanished)
            == Settle(Settle(changes, id, gone, Vanished), id, stay, StillFollowed)
  {
  }

  /** `pairs` lists every rename between the two snapshots, once. */
  ghost predicate ListsRenames(pairs: seq<(User, User)>, cur: Snapshot, prev: Snapshot) {
    && (forall from, to :: Renaming(cur, prev, from, to) <==> (from, to) in pairs)
    && (forall i, j | 0 <= i < j < |pairs| :: pairs[i] != pairs[j])
  }

  /** The follower changes of `id` in one direction whose follow time is recorded at `at`. */
  function DatedRows(db: Db, id: UploadId, at: UploadId, change: ChangeType): map<User, Time> {
    map u | u in Names(db.members, at, Followers) && EventKey(id, Followers, u, change) in db.changes
            && db.members[MemberKey(at, Followers, u)].Some?
          :: db.members[MemberKey(at, Followers, u)].value
  }

  /** Departures joined to arrivals on the follow time, where each side has one row for it. */
  function UniquePairs(gone: map<User, Time>, arrived: map<User, Time>): set<(User, User)> {
    set g, a | g in gone && a in arrived && arrived[a] == gone[g]
               && |Bearing(gone, gone[g])| == 1 && |Bearing(arrived, gone[g])| == 1 :: (g, a)
  }

  function Bearing(rows: map<User, Time>, t: Time): set<User> {
    set u | u in rows && rows[u] == t
  }

  lemma DatedRowsAre(db: Db, id: UploadId, prev: UploadId, u: User, t: Time)
    requires forall k: EventKey | k.upload == id ::
               k in db.changes <==> k in EventKeys(id, SnapshotOf(db, id), SnapshotOf(db, prev))
    ensures var gone := DatedRows(db, id, prev, Unfollowed);
            GoneAt(SnapshotOf(db, id), SnapshotOf(db, prev), u, t) <==> u in gone && gone[u] == t
    ensures var arrived := DatedRows(db, id, id, Followed);
            CameAt(SnapshotOf(db, id), SnapshotOf(db, prev), u, t) <==> u in arrived && arrived[u] == t
  {
    var left, came := EventKey(id, Followers, u, Unfollowed), EventKey(id, Followers, u, Followed);
    assert left.user == u && came.user == u;
    assert left in db.changes <==> u in Changed(SnapshotOf(db, id), SnapshotOf(db, prev), Followers, Unfollowed);
    assert came in db.changes <==> u in Changed(SnapshotOf(db, id), SnapshotOf(db, prev), Followers, Followed);
  }

  lemma BearingIs(db: Db, id: UploadId, prev: UploadId, t: Time)
    requires forall k: EventKey | k.upload == id ::
               k in db.changes <==> k in EventKeys(id, SnapshotOf(db, id), SnapshotOf(db, prev))
    ensures Bearing(DatedRows(db, id, prev, Unfollowed), t) == GoneWith(SnapshotOf(db, id), SnapshotOf(db, prev), t)
    ensures Bearing(DatedRows(db, id, id, Followed), t) == CameWith(SnapshotOf(db, id), SnapshotOf(db, prev), t)
  {
    forall u
      ensures u in Bearing(DatedRows(db, id, prev, Unfollowed), t)
              <==> u in GoneWith(SnapshotOf(db, id), SnapshotOf(db, prev), t)
      ensures u in Bearing(DatedRows(db, id, id, Followed), t)
              <==> u in CameWith(SnapshotOf(db, id), SnapshotOf(db, prev), t)
    {
      DatedRowsAre(db, id, prev, u, t);
    }
  }

  /** At time `t` one departure and one arrival stand, and no others. */
  predicate OnlyBearers(gone: map<User, Time>, arrived: map<User, Time>, g: User, a: User, t: Time) {
    Bearing(gone, t) == {g} && Bearing(arrived, t) == {a}
  }

  lemma UniquePair(gone: map<User, Time>, arrived: map<User, Time>, g: User, a: User)
    ensures (g, a) in UniquePairs(gone, arrived) <==> exists t :: OnlyBearers(gone, arrived, g, a, t)
  {
    if (g, a) in UniquePairs(gone, arrived) {
      var t := gone[g];
      assert g in Bearing(gone, t) && a in Bearing(arrived, t);
      assert Bearing(gone, t) == {Only(Bearing(gone, t))} && Bearing(arrived, t) == {Only(Bearing(arrived, t))};
      assert OnlyBearers(gone, arrived, g, a, t);
    }
    if t :| OnlyBearers(gone, arrived, g, a, t) {
      assert g in Bearing(gone, t) && a in Bearing(arrived, t);
    }
  }

  /** The rename query finds exactly the renames. */
  lemma RenameQuery(db: Db, id: UploadId, prev: UploadId)
    requires forall k: EventKey | k.upload == id ::
               k in db.changes <==> k in EventKeys(id, SnapshotOf(db, id), SnapshotOf(db, prev))
    ensures var gone, arrived := DatedRows(db, id, prev, Unfollowed), DatedRows(db, id, id, Followed);
            forall g, a ::
              Renaming(SnapshotOf(db, id), SnapshotOf(db, prev), g, a) <==> (g, a) in UniquePairs(gone, arrived)
  {
    var gone, arrived := DatedRows(db, id, prev, Unfollowed), DatedRows(db, id, id, Followed);
    forall g, a
      ensures Renaming(SnapshotOf(db, id), SnapshotOf(db, prev), g, a) <==> (g, a) in UniquePairs(gone, arrived)
    {
      RenameQueryPair(db, id, prev, g, a);
    }
  }

  lemma RenameQueryPair(db: Db, id: UploadId, prev: UploadId, g: User, a: User)
    requires forall k: EventKey | k.upload == id ::
               k in db.changes <==> k in EventKeys(id, SnapshotOf(db, id), SnapshotOf(db, prev))
    ensures Renaming(SnapshotOf(db, id), SnapshotOf(db, prev), g, a)
            <==> (g, a) in UniquePairs(DatedRows(db, id, prev, Unfollowed), DatedRows(db, id, id, Followed))
  {
    forall t {
      PairedQuery(db, id, prev, g, a, t);
    }
    RenamingIsBearing(SnapshotOf(db, id), SnapshotOf(db, prev), DatedRows(db, id, prev, Unfollowed),
      DatedRows(db, id, id, Followed), g, a);
  }

  lemma RenamingIsBearing(cur: Snapshot, prev: Snapshot, gone: map<User, Time>, arrived: map<User, Time>, g: User,
      a: User)
    requires forall t :: PairedAt(cur, prev, g, a, t) <==> OnlyBearers(gone, arrived, g, a, t)
    ensures Renaming(cur, prev, g, a) <==> (g, a) in UniquePairs(gone, arrived)
  {
    UniquePair(gone, arrived, g, a);
  }

  lemma PairedQuery(db: Db, id: UploadId, prev: UploadId, g: User, a: User, t: Time)
    requires forall k: EventKey | k.upload == id ::
               k in db.changes <==> k in EventKeys(id, SnapshotOf(db, id), SnapshotOf(db, prev))
    ensures PairedAt(SnapshotOf(db, id), SnapshotOf(db, prev), g, a, t) <==>
              OnlyBearers(DatedRows(db, id, prev, Unfollowed), DatedRows(db, id, id, Followed), g, a, t)
  {
    BearingIs(db, id, prev, t);
    PairedIsOnly(SnapshotOf(db, id), SnapshotOf(db, prev), g, a, t);
  }

  /** No name is paired twice, on either side. */
  ghost predicate Injective(pairs: seq<(User, User)>) {
    forall i, j | 0 <= i < j < |pairs| :: pairs[i].0 != pairs[j].0 && pairs[i].1 != pairs[j].1
  }

  lemma RenamesInjective(pairs: seq<(User, User)>, cur: Snapshot, prev: Snapshot)
    requires ListsRenames(pairs, cur, prev)
    ensures Injective(pairs)
  {
    forall i, j | 0 <= i < j < |pairs|
      ensures pairs[i].0 != pairs[j].0 && pairs[i].1 != pairs[j].1
    {
      var p, q := pairs[i], pairs[j];
      assert (p.0, p.1) in pairs && (q.0, q.1) in pairs;
      RenamingUnique(cur, prev, p.0, p.1, q.0, q.1);
    }
  }

  ghost predicate PairedFrom(pairs: seq<(User, User)>, u: User, to: User) { (u, to) in pairs }

  /** What the rename updates leave in the row `k` of `id`'s follower list. */
  lemma {:induction false} AfterRenamesRow(changes: Changes, id: UploadId, pairs: seq<(User, User)>, k: EventKey)
    requires k in changes && Injective(pairs)
    ensures AfterRenames(changes, id, pairs).Keys == changes.Keys
    ensures k.upload != id || k.kind != Followers ==> AfterRenames(changes, id, pairs)[k] == changes[k]
    ensures k.upload == id && k.kind == Followers && k.change == Unfollowed ==>
              && (forall to | PairedFrom(pairs, k.user, to) ::
                    AfterRenames(changes, id, pairs)[k] == changes[k].(reason := Some(Renamed), renamedTo := Some(to)))
              && ((forall to :: !PairedFrom(pairs, k.user, to)) ==> AfterRenames(changes, id, pairs)[k] == changes[k])
    ensures k.upload == id && k.kind == Followers && k.change == Followed ==>
              && (forall from | PairedFrom(pairs, from, k.user) ::
                    AfterRenames(changes, id, pairs)[k] == changes[k].(renamedFrom := Some(from)))
              && ((forall from :: !PairedFrom(pairs, from, k.user)) ==>
                   AfterRenames(changes, id, pairs)[k] == changes[k])
  {
    if pairs != [] {
      var rest, p := pairs[..|pairs| - 1], pairs[|pairs| - 1];
      AfterRenamesRow(changes, id, rest, k);
      assert forall from, to :: PairedFrom(pairs, from, to) <==> PairedFrom(rest, from, to) || (from, to) == p;
      forall i | 0 <= i < |rest| ensures rest[i].0 != p.0 && rest[i].1 != p.1 { assert pairs[i] == rest[i]; }
    }
  }

  /** The guarded statements settle each open departure by the first of them that matches. */
  lemma CascadeRow(changes: Changes, id: UploadId, cur: Snapshot, prev: Snapshot, k: EventKey)
    requires k in changes
    ensures Cascade(changes, id, cur, prev).Keys == changes.Keys
    ensures !Unsettled(changes, id, k) ==> Cascade(changes, id, cur, prev)[k] == changes[k]
    ensures Unsettled(changes, id, k) && RenamedTo(cur, prev, k.user).None? ==>
              Cascade(changes, id, cur, prev)[k] == changes[k].(reason := Some(ReasonFor(cur, prev, k.user)))
  {
  }

  /** The rows of `id` as inserted, before any statement has explained them. */
  ghost predicate Unclassified(changes: Changes, account: AccountId, id: UploadId, prevId: UploadId, cur: Snapshot,
      prev: Snapshot) {
    forall k: EventKey | k.upload == id ::
      (k in changes <==> k in EventKeys(id, cur, prev)) &&
      (k in changes ==> changes[k] == Event(account, prevId, None, None, None))
  }

  /** Renames first, then the cascade: together they write exactly the row the decision calls for. */
  lemma ClassifiedRow(changes: Changes, account: AccountId, id: UploadId, prevId: UploadId,
                      cur: Snapshot, prev: Snapshot, pairs: seq<(User, User)>, k: EventKey)
    requires Unclassified(changes, account, id, prevId, cur, prev) && ListsRenames(pairs, cur, prev)
    requires k in changes
    ensures var after := Cascade(AfterRenames(changes, id, pairs), id, cur, prev);
            && after.Keys == changes.Keys
            && after[k] == if k.upload == id then Row(account, prevId, cur, prev, k) else changes[k]
  {
    RenamesInjective(pairs, cur, prev);
    AfterRenamesRow(changes, id, pairs, k);
    CascadeRow(AfterRenames(changes, id, pairs), id, cur, prev, k);
    if k.upload == id && k.kind == Followers {
      if k.change == Unfollowed {
        match RenamedTo(cur, prev, k.user)
        case None => assert forall to :: !PairedFrom(pairs, k.user, to);
        case Some(to) => assert PairedFrom(pairs, k.user, to);
      } else {
        match RenamedFrom(cur, prev, k.user)
        case None => assert forall from :: !PairedFrom(pairs, from, k.user);
        case Some(from) => assert PairedFrom(pairs, from, k.user);
      }
    }
  }

  /** Every row of `id` as the one decision has it, and every other as it was. */
  ghost predicate Classified(before: Changes, after: Changes, account: AccountId, id: UploadId, prevId: UploadId,
      cur: Snapshot, prev: Snapshot) {
    && after.Keys == before.Keys
    && forall k | k in before && k in after ::
         after[k] == if k.upload == id && k in EventKeys(id, cur, prev) then Row(account, prevId, cur, prev, k)
                     else before[k]
  }

  lemma AllClassified(changes: Changes, account: AccountId, id: UploadId, prevId: UploadId, cur: Snapshot,
      prev: Snapshot, pairs: seq<(User, User)>)
    requires Unclassified(changes, account, id, prevId, cur, prev) && ListsRenames(pairs, cur, prev)
    ensures var after := Cascade(AfterRenames(changes, id, pairs), id, cur, prev);
            Classified(changes, after, account, id, prevId, cur, prev)
  {
    ClassifiedKeys(changes, id, pairs, cur, prev);
    hide Cascade;
    hide AfterRenames;
    hide ListsRenames;
    forall k | k in changes {
      ClassifiedRow(changes, account, id, prevId, cur, prev, pairs, k);
    }
  }

  // ---------------------------------------------------------------- one pair of executions

  /** Both directions of one list recorded and counted. */
  function CompareKind(db: Db, account: AccountId, id: UploadId, prev: UploadId, kind: Kind): Db
    requires ListKey(id, kind) in db.lists
  {
    SetCounts(InsertChanges(InsertChanges(db, account, id, prev, kind, Followed), account, id, prev, kind, Unfollowed),
              ListKey(id, kind), |ChangedRows(db, id, prev, kind, Followed)|,
                |ChangedRows(db, id, prev, kind, Unfollowed)|)
  }

  /** The shared lists compared one after the other. */
  function CompareKinds(db: Db, account: AccountId, id: UploadId, prev: UploadId, kinds: seq<Kind>): (r: Db)
    requires forall kind | kind in kinds :: ListKey(id, kind) in db.lists
    ensures r.lists.Keys == db.lists.Keys && r.members == db.members && r.uploads == db.uploads
  {
    if kinds == [] then db
    else CompareKind(CompareKinds(db, account, id, prev, kinds[..|kinds| - 1]), account, id, prev, kinds[|kinds| - 1])
  }

  lemma DifferenceIsChanged(db: Db, id: UploadId, prev: UploadId, kind: Kind, change: ChangeType)
    requires ListKey(id, kind) in db.lists && ListKey(prev, kind) in db.lists
    ensures ChangedRows(db, id, prev, kind, change) == Changed(SnapshotOf(db, id), SnapshotOf(db, prev), kind, change)
  {
  }

  /** One statement's rows. */
  lemma InsertedRow(db: Db, account: AccountId, id: UploadId, prev: UploadId, kind: Kind, change: ChangeType,
      k: EventKey)
    requires ListKey(id, kind) in db.lists && ListKey(prev, kind) in db.lists
    ensures var added := k.kind == kind && k.change == change
                         && k in EventKeys(id, SnapshotOf(db, id), SnapshotOf(db, prev));
            var r := InsertChanges(db, account, id, prev, kind, change).changes;
            && (k in r <==> k in db.changes || added)
            && (k in r ==> r[k] == if added then Event(account, prev, None, None, None) else db.changes[k])
  {
    DifferenceIsChanged(db, id, prev, kind, change);
  }

  lemma InsertKeepsSnapshots(db: Db, account: AccountId, id: UploadId, prev: UploadId, kind: Kind, change: ChangeType,
      other: UploadId)
    ensures SnapshotOf(InsertChanges(db, account, id, prev, kind, change), other) == SnapshotOf(db, other)
  {
    SnapshotsAgree(InsertChanges(db, account, id, prev, kind, change), db, other);
  }

  /** What comparing one list adds to the change log. */
  lemma CompareKindRow(db: Db, account: AccountId, id: UploadId, prev: UploadId, kind: Kind, k: EventKey)
    requires ListKey(id, kind) in db.lists && ListKey(prev, kind) in db.lists
    ensures var added := k.kind == kind && k in EventKeys(id, SnapshotOf(db, id), SnapshotOf(db, prev));
            var r := CompareKind(db, account, id, prev, kind).changes;
            && (k in r <==> k in db.changes || added)
            && (k in r ==> r[k] == if added then Event(account, prev, None, None, None) else db.changes[k])
  {
    var mid := InsertChanges(db, account, id, prev, kind, Followed);
    InsertedRow(db, account, id, prev, kind, Followed, k);
    InsertKeepsSnapshots(db, account, id, prev, kind, Followed, id);
    InsertKeepsSnapshots(db, account, id, prev, kind, Followed, prev);
    InsertedRow(mid, account, id, prev, kind, Unfollowed, k);
  }

  /** The counts comparing one list writes. */
  lemma CompareKindCounts(db: Db, account: AccountId, id: UploadId, prev: UploadId, kind: Kind)
    requires ListKey(id, kind) in db.lists && ListKey(prev, kind) in db.lists
    ensures var cur, before, l := SnapshotOf(db, id), SnapshotOf(db, prev), ListKey(id, kind);
            CompareKind(db, account, id, prev, kind).lists == db.lists[l :=
              db.lists[l].(added := |Changed(cur, before, kind, Followed)|,
                removed := |Changed(cur, before, kind, Unfollowed)|)]
  {
    DifferenceIsChanged(db, id, prev, kind, Followed);
    DifferenceIsChanged(db, id, prev, kind, Unfollowed);
  }

  /** What comparing `kinds` leaves of the row `k` of the change log. */
  ghost predicate ComparedChange(db: Db, r: Db, account: AccountId, id: UploadId, prev: UploadId, kinds: seq<Kind>,
      k: EventKey) {
    && (k in r.changes <==>
          k in db.changes || (k in EventKeys(id, SnapshotOf(db, id), SnapshotOf(db, prev)) && k.kind in kinds))
    && (k in r.changes ==>
          r.changes[k] == if k in db.changes then db.changes[k] else Event(account, prev, None, None, None))
  }

  /** What comparing `kinds` leaves in the counts `l`. */
  ghost predicate ComparedCounts(db: Db, r: Db, id: UploadId, prev: UploadId, kinds: seq<Kind>, l: ListKey) {
    var cur, before := SnapshotOf(db, id), SnapshotOf(db, prev);
    && (l in db.lists <==> l in r.lists)
    && (l in db.lists ==>
          r.lists[l] ==
          if l.upload == id && l.kind in kinds
          then db.lists[l].(added := |Changed(cur, before, l.kind, Followed)|,
            removed := |Changed(cur, before, l.kind, Unfollowed)|)
          else db.lists[l])
  }

  ghost predicate Compared(db: Db, r: Db, account: AccountId, id: UploadId, prev: UploadId, kinds: seq<Kind>) {
    && r.members == db.members && r.uploads == db.uploads
    && (forall k :: ComparedChange(db, r, account, id, prev, kinds, k))
    && (forall l :: ComparedCounts(db, r, id, prev, kinds, l))
  }

  lemma {:induction false} CompareKindsRows(db: Db, account: AccountId, id: UploadId, prev: UploadId, kinds: seq<Kind>)
    requires forall kind | kind in kinds :: ListKey(id, kind) in db.lists && ListKey(prev, kind) in db.lists
    requires forall k | k in db.changes :: k.upload != id
    ensures Compared(db, CompareKinds(db, account, id, prev, kinds), account, id, prev, kinds)
  {
    hide CompareKind;
    if kinds != [] {
      hide Compared;
      var rest, kind := kinds[..|kinds| - 1], kinds[|kinds| - 1];
      CompareKindsRows(db, account, id, prev, rest);
      assert kinds == rest + [kind];
      assert kind in kinds;
      ComparedStep(db, CompareKinds(db, account, id, prev, rest), account, id, prev, rest, kind);
    }
  }

  lemma ComparedStep(db: Db, r: Db, account: AccountId, id: UploadId, prev: UploadId, rest: seq<Kind>, kind: Kind)
    requires ListKey(id, kind) in db.lists && ListKey(prev, kind) in db.lists
    requires forall k | k in db.changes :: k.upload != id
    requires Compared(db, r, account, id, prev, rest)
    ensures ListKey(id, kind) in r.lists
    ensures Compared(db, CompareKind(r, account, id, prev, kind), account, id, prev, rest + [kind])
  {
    assert ComparedCounts(db, r, id, prev, rest, ListKey(id, kind));
    assert ComparedCounts(db, r, id, prev, rest, ListKey(prev, kind));
    ComparedKeepsSnapshots(db, r, account, id, prev, rest);
    var goal := CompareKind(r, account, id, prev, kind);
    forall k
      ensures ComparedChange(db, goal, account, id, prev, rest + [kind], k)
    {
      assert ComparedChange(db, r, account, id, prev, rest, k);
      CompareKindRow(r, account, id, prev, kind, k);
    }
    forall l
      ensures ComparedCounts(db, goal, id, prev, rest + [kind], l)
    {
      assert ComparedCounts(db, r, id, prev, rest, l);
      CompareKindCounts(r, account, id, prev, kind);
    }
  }

  lemma ComparedKeepsSnapshots(db: Db, r: Db, account: AccountId, id: UploadId, prev: UploadId, kinds: seq<Kind>)
    requires Compared(db, r, account, id, prev, kinds)
    ensures SnapshotOf(r, id) == SnapshotOf(db, id) && SnapshotOf(r, prev) == SnapshotOf(db, prev)
  {
    forall other, kind
      ensures ListKey(other, kind) in r.lists <==> ListKey(other, kind) in db.lists
    {
      assert ComparedCounts(db, r, id, prev, kinds, ListKey(other, kind));
    }
    SnapshotsAgree(r, db, id);
    SnapshotsAgree(r, db, prev);
  }

  /** Execution `id` compared against `prev`: counts, change rows, reasons and renames. */
  ghost function Compare(db: Db, account: AccountId, id: UploadId, prev: UploadId): Db {
    var cur, before := SnapshotOf(db, id), SnapshotOf(db, prev);
    Db(db.uploads, db.members,
       map l | l in db.lists ::
         if l.upload == id && l.kind in before
         then db.lists[l].(added := |Changed(cur, before, l.kind, Followed)|,
           removed := |Changed(cur, before, l.kind, Unfollowed)|)
         else db.lists[l],
       map k | k in db.changes.Keys + EventKeys(id, cur, before) ::
         if k in EventKeys(id, cur, before) then Row(account, prev, cur, before, k) else db.changes[k])
  }

  /** Comparing the shared lists and then classifying the departures is the whole comparison. */
  lemma CompareRefines(db: Db, account: AccountId, id: UploadId, prev: UploadId, kinds: seq<Kind>,
      pairs: seq<(User, User)>)
    requires forall kind :: kind in kinds <==> ListKey(id, kind) in db.lists && ListKey(prev, kind) in db.lists
    requires forall k | k in db.changes :: k.upload != id
    requires ListsRenames(pairs, SnapshotOf(db, id), SnapshotOf(db, prev))
    ensures var r, cur, before := CompareKinds(db, account, id, prev, kinds), SnapshotOf(db, id), SnapshotOf(db, prev);
            r.(changes := Cascade(AfterRenames(r.changes, id, pairs), id, cur, before))
              == Compare(db, account, id, prev)
  {
    var r, cur, before := CompareKinds(db, account, id, prev, kinds), SnapshotOf(db, id), SnapshotOf(db, prev);
    CompareKindsRows(db, account, id, prev, kinds);
    ComparedLists(db, r, account, id, prev, kinds);
    ComparedChanges(db, r, account, id, prev, kinds, pairs);
  }

  lemma ComparedLists(db: Db, r: Db, account: AccountId, id: UploadId, prev: UploadId, kinds: seq<Kind>)
    requires forall kind :: kind in kinds <==> ListKey(id, kind) in db.lists && ListKey(prev, kind) in db.lists
    requires Compared(db, r, account, id, prev, kinds)
    ensures r.lists == Compare(db, account, id, prev).lists
  {
    var goal := Compare(db, account, id, prev).lists;
    forall l
      ensures l in r.lists <==> l in goal
      ensures l in goal ==> r.lists[l] == goal[l]
    {
      assert ComparedCounts(db, r, id, prev, kinds, l);
    }
  }

  lemma ComparedChanges(db: Db, r: Db, account: AccountId, id: UploadId, prev: UploadId, kinds: seq<Kind>,
      pairs: seq<(User, User)>)
    requires forall kind :: kind in kinds <==> ListKey(id, kind) in db.lists && ListKey(prev, kind) in db.lists
    requires forall k | k in db.changes :: k.upload != id
    requires ListsRenames(pairs, SnapshotOf(db, id), SnapshotOf(db, prev))
    requires Compared(db, r, account, id, prev, kinds)
    ensures Cascade(AfterRenames(r.changes, id, pairs), id, SnapshotOf(db, id), SnapshotOf(db, prev))
            == Compare(db, account, id, prev).changes
  {
    ComparedUnclassified(db, r, account, id, prev, kinds);
    ClassifiedKeys(r.changes, id, pairs, SnapshotOf(db, id), SnapshotOf(db, prev));
    forall k {
      ComparedRow(db, r, account, id, prev, kinds, pairs, k);
    }
    SameChanges(Cascade(AfterRenames(r.changes, id, pairs), id, SnapshotOf(db, id), SnapshotOf(db, prev)),
      Compare(db, account, id, prev).changes);
  }

  lemma ComparedUnclassified(db: Db, r: Db, account: AccountId, id: UploadId, prev: UploadId, kinds: seq<Kind>)
    requires forall kind :: kind in kinds <==> ListKey(id, kind) in db.lists && ListKey(prev, kind) in db.lists
    requires forall k | k in db.changes :: k.upload != id
    requires Compared(db, r, account, id, prev, kinds)
    ensures Unclassified(r.changes, account, id, prev, SnapshotOf(db, id), SnapshotOf(db, prev))
  {
    forall k: EventKey | k.upload == id
      ensures k in r.changes <==> k in EventKeys(id, SnapshotOf(db, id), SnapshotOf(db, prev))
      ensures k in r.changes ==> r.changes[k] == Event(account, prev, None, None, None)
    {
      assert ComparedChange(db, r, account, id, prev, kinds, k);
      assert k in EventKeys(id, SnapshotOf(db, id), SnapshotOf(db, prev)) ==> k.kind in kinds;
    }
  }

  lemma ComparedRow(db: Db, r: Db, account: AccountId, id: UploadId, prev: UploadId, kinds: seq<Kind>,
      pairs: seq<(User, User)>, k: EventKey)
    requires forall kind :: kind in kinds <==> ListKey(id, kind) in db.lists && ListKey(prev, kind) in db.lists
    requires ListsRenames(pairs, SnapshotOf(db, id), SnapshotOf(db, prev))
    requires Compared(db, r, account, id, prev, kinds)
    requires Unclassified(r.changes, account, id, prev, SnapshotOf(db, id), SnapshotOf(db, prev))
    ensures k in r.changes <==> k in Compare(db, account, id, prev).changes
    ensures k in r.changes ==>
              && k in Cascade(AfterRenames(r.changes, id, pairs), id, SnapshotOf(db, id), SnapshotOf(db, prev))
              && Cascade(AfterRenames(r.changes, id, pairs), id, SnapshotOf(db, id), SnapshotOf(db, prev))[k]
                 == Compare(db, account, id, prev).changes[k]
  {
    var cur, before := SnapshotOf(db, id), SnapshotOf(db, prev);
    assert ComparedChange(db, r, account, id, prev, kinds, k);
    assert k in EventKeys(id, cur, before) ==> k.kind in kinds;
    if k in r.changes {
      ClassifiedRow(r.changes, account, id, prev, cur, before, pairs, k);
    }
  }

  /** Before a list's turn its rows for `id` are not there yet. */
  lemma NotYetCompared(db: Db, account: AccountId, id: UploadId, prev: UploadId, kinds: seq<Kind>, i: nat)
    requires i < |kinds| && forall j | 0 <= j < i :: kinds[j] != kinds[i]
    requires forall kind | kind in kinds :: ListKey(id, kind) in db.lists && ListKey(prev, kind) in db.lists
    requires forall k | k in db.changes :: k.upload != id
    ensures forall u, change ::
              EventKey(id, kinds[i], u, change) !in CompareKinds(db, account, id, prev, kinds[..i]).changes
  {
    CompareKindsRows(db, account, id, prev, kinds[..i]);
    forall u, change
      ensures EventKey(id, kinds[i], u, change) !in CompareKinds(db, account, id, prev, kinds[..i]).changes
    {
      assert ComparedChange(db, CompareKinds(db, account, id, prev, kinds[..i]), account, id, prev, kinds[..i],
             EventKey(id, kinds[i], u, change));
    }
  }

  lemma CompareOneMore(db: Db, account: AccountId, id: UploadId, prev: UploadId, kinds: seq<Kind>, i: nat)
    requires i < |kinds|
    requires forall kind | kind in kinds :: ListKey(id, kind) in db.lists
    ensures CompareKinds(db, account, id, prev, kinds[..i + 1])
            == CompareKind(CompareKinds(db, account, id, prev, kinds[..i]), account, id, prev, kinds[i])
  {
    assert kinds[..i + 1][..i] == kinds[..i];
  }

  lemma SameChanges(a: Changes, b: Changes)
    requires a.Keys == b.Keys
    requires forall k | k in a && k in b :: a[k] == b[k]
    ensures a == b
  {
  }

  lemma {:induction false} ClassifiedKeys(changes: Changes, id: UploadId, pairs: seq<(User, User)>, cur: Snapshot,
      prev: Snapshot)
    ensures Cascade(AfterRenames(changes, id, pairs), id, cur, prev).Keys == changes.Keys
  {
    if pairs != [] {
      ClassifiedKeys(changes, id, pairs[..|pairs| - 1], cur, prev);
    }
  }

  // ---------------------------------------------------------------- one execution

  /** One turn of the rebuild: number, count, compare with the predecessor if there is one, mirror. */
  ghost function Turn(db: Db, account: AccountId, id: UploadId, n: nat, prev: Option<UploadId>): Db
    requires id in db.uploads
  {
    var counted := RefreshCounts(Number(db, id, n), id);
    Mirror(if prev.None? then counted else Compare(counted, account, id, prev.value), id)
  }

  ghost function RebuildOne(db: Db, account: AccountId, done: seq<UploadId>, x: UploadId): Db
    requires x in db.uploads
  {
    Turn(db, account, x, |done| + 1, if done == [] then None else Some(done[|done| - 1]))
  }

  /** Released numbers and an emptied log are a history with nothing rebuilt yet. */
  lemma RebuildStart(db: Db, account: AccountId)
    ensures DeleteChanges(ReleaseNumbers(db, account), account) == Rebuilt(db, account, [])
  {
  }

  /** Before the turn of `order[i]` neither its number nor its rows are taken. */
  lemma TurnIsFree(db: Db, account: AccountId, order: seq<UploadId>, i: nat)
    requires WellFormed(db) && i < |order| && order == Timeline(db.uploads, account)
    ensures var d, id := Rebuilt(db, account, order[..i]), order[i];
            && id in d.uploads && d.uploads[id].account == account
            && (forall other | other in d.uploads && other != id && d.uploads[other].account == account ::
                  d.uploads[other].sequenceNo != Some(i + 1))
            && (forall k | k in d.changes :: k.upload != id)
  {
    assert order[i] in order;
    SortedDistinct(db.uploads, order);
    assert order[i] !in order[..i];
  }

  /** The statements of one turn rebuild one more execution. */
  lemma TurnRebuilds(db: Db, account: AccountId, order: seq<UploadId>, i: nat)
    requires WellFormed(db) && i < |order| && order == Timeline(db.uploads, account)
    ensures order[i] in db.uploads
    ensures Turn(Rebuilt(db, account, order[..i]), account, order[i], i + 1, if i == 0 then None
            else Some(order[i - 1]))
            == Rebuilt(db, account, order[..i + 1])
  {
    hide Turn;
    hide Rebuilt;
    assert order[i] in order;
    SortedDistinct(db.uploads, order);
    assert order[..i + 1] == order[..i] + [order[i]];
    RebuildStep(db, account, order[..i], order[i]);
  }

  lemma RebuildStep(db: Db, account: AccountId, done: seq<UploadId>, x: UploadId)
    requires WellFormed(db) && x in db.uploads && db.uploads[x].account == account && Distinct(done + [x])
    ensures RebuildOne(Rebuilt(db, account, done), account, done, x) == Rebuilt(db, account, done + [x])
  {
    RebuildStepLists(db, account, done, x);
    RebuildStepChanges(db, account, done, x);
    RebuildStepUploads(db, account, done, x);
  }

  lemma NotYetDone(done: seq<UploadId>, x: UploadId)
    requires Distinct(done + [x])
    ensures x !in done
  {
    var next := done + [x];
    forall i | 0 <= i < |done|
      ensures done[i] != x
    {
      assert next[i] == done[i] && next[|done|] == x;
    }
  }

  /** The tables once `x` has been numbered and its lists counted. */
  ghost function Counted(db: Db, account: AccountId, done: seq<UploadId>, x: UploadId): Db
    requires x in db.uploads
  {
    RefreshCounts(Number(Rebuilt(db, account, done), x, |done| + 1), x)
  }

  lemma CountedRows(db: Db, account: AccountId, done: seq<UploadId>, x: UploadId)
    requires x in db.uploads && db.uploads[x].account == account && x !in done
    ensures forall id :: SnapshotOf(Counted(db, account, done, x), id) == SnapshotOf(db, id)
    ensures Counted(db, account, done, x).changes == DerivedChanges(db, account, done)
    ensures forall l | l in db.lists :: Counted(db, account, done, x).lists[l] ==
              if l.upload == x then Totals(|SnapshotOf(db, x)[l.kind]|, 0, 0) else DerivedTotals(db, done, l)
    ensures Counted(db, account, done, x).uploads[x] == db.uploads[x].(sequenceNo := Some(|done| + 1))
  {
    var counted := Counted(db, account, done, x);
    forall id {
      SnapshotsAgree(counted, db, id);
    }
  }

  lemma RebuildStepList(db: Db, account: AccountId, done: seq<UploadId>, x: UploadId, l: ListKey)
    requires x in db.uploads && db.uploads[x].account == account && Distinct(done + [x]) && l in db.lists
    ensures l in RebuildOne(Rebuilt(db, account, done), account, done, x).lists
    ensures RebuildOne(Rebuilt(db, account, done), account, done, x).lists[l] == DerivedTotals(db, done + [x], l)
  {
    NotYetDone(done, x);
    Appended(done, x);
    CountedRows(db, account, done, x);
    var counted := Counted(db, account, done, x);
    if done != [] {
      CompareList(counted, account, x, done[|done| - 1], l);
    }
    if l.upload == x {
      assert l.kind in SnapshotOf(db, x);
      assert PrevSnapshot(db, done + [x], x) == if done == [] then None else Some(SnapshotOf(db, done[|done| - 1]));
    } else {
      assert PrevSnapshot(db, done + [x], l.upload) == PrevSnapshot(db, done, l.upload);
    }
  }

  lemma CompareList(db: Db, account: AccountId, id: UploadId, prev: UploadId, l: ListKey)
    requires l in db.lists
    ensures l.upload != id ==> Compare(db, account, id, prev).lists[l] == db.lists[l]
    ensures l.upload == id && db.lists[l] == Totals(|SnapshotOf(db, id)[l.kind]|, 0, 0) ==>
              Compare(db, account, id, prev).lists[l] == Tally(SnapshotOf(db, id), Some(SnapshotOf(db, prev)), l.kind)
  {
  }

  lemma RebuildStepLists(db: Db, account: AccountId, done: seq<UploadId>, x: UploadId)
    requires x in db.uploads && db.uploads[x].account == account && Distinct(done + [x])
    ensures RebuildOne(Rebuilt(db, account, done), account, done, x).lists == Rebuilt(db, account, done + [x]).lists
  {
    var r := RebuildOne(Rebuilt(db, account, done), account, done, x);
    forall l | l in db.lists {
      RebuildStepList(db, account, done, x, l);
    }
    assert r.lists.Keys == db.lists.Keys;
  }

  lemma RebuildStepUpload(db: Db, account: AccountId, done: seq<UploadId>, x: UploadId, id: UploadId)
    requires x in db.uploads && db.uploads[x].account == account && Distinct(done + [x]) && id in db.uploads
    ensures id in RebuildOne(Rebuilt(db, account, done), account, done, x).uploads
    ensures RebuildOne(Rebuilt(db, account, done), account, done, x).uploads[id]
            == DerivedUpload(db, account, done + [x], id)
  {
    hide DerivedUpload;
    hide DerivedChanges;
    if id == x {
      RebuildStepItself(db, account, done, x);
    } else {
      RebuildStepOther(db, account, done, x, id);
    }
  }

  lemma RebuildStepOther(db: Db, account: AccountId, done: seq<UploadId>, x: UploadId, id: UploadId)
    requires x in db.uploads && db.uploads[x].account == account && Distinct(done + [x]) && id in db.uploads && id != x
    ensures id in RebuildOne(Rebuilt(db, account, done), account, done, x).uploads
    ensures RebuildOne(Rebuilt(db, account, done), account, done, x).uploads[id]
            == DerivedUpload(db, account, done + [x], id)
  {
    NotYetDone(done, x);
    Appended(done, x);
    hide DerivedChanges;
    hide DerivedTotals;
  }

  lemma RebuildStepItself(db: Db, account: AccountId, done: seq<UploadId>, x: UploadId)
    requires x in db.uploads && db.uploads[x].account == account && Distinct(done + [x])
    ensures RebuildOne(Rebuilt(db, account, done), account, done, x).uploads[x]
            == DerivedUpload(db, account, done + [x], x)
  {
    NotYetDone(done, x);
    Appended(done, x);
    CountedRows(db, account, done, x);
    var l := ListKey(x, Followers);
    if l in db.lists {
      RebuildStepList(db, account, done, x, l);
    }
  }

  lemma RebuildStepUploads(db: Db, account: AccountId, done: seq<UploadId>, x: UploadId)
    requires x in db.uploads && db.uploads[x].account == account && Distinct(done + [x])
    ensures RebuildOne(Rebuilt(db, account, done), account, done, x).uploads == Rebuilt(db, account, done + [x]).uploads
  {
    var r := RebuildOne(Rebuilt(db, account, done), account, done, x);
    forall id | id in db.uploads {
      RebuildStepUpload(db, account, done, x, id);
    }
    assert r.uploads.Keys == db.uploads.Keys;
  }

  lemma RebuildStepChange(db: Db, account: AccountId, done: seq<UploadId>, x: UploadId, k: EventKey)
    requires WellFormed(db) && x in db.uploads && db.uploads[x].account == account && Distinct(done + [x])
    ensures var r, goal := RebuildOne(Rebuilt(db, account, done), account, done, x).changes, DerivedChanges(db, account,
            done + [x]);
            (k in r <==> k in goal) && (k in r ==> r[k] == goal[k])
  {
    NotYetDone(done, x);
    Appended(done, x);
    CountedRows(db, account, done, x);
    if k.upload == x {
      assert k !in DerivedChanges(db, account, done);
    } else {
      assert KeysAt(db, done + [x], k.upload) == KeysAt(db, done, k.upload);
    }
  }

  lemma RebuildStepChanges(db: Db, account: AccountId, done: seq<UploadId>, x: UploadId)
    requires WellFormed(db) && x in db.uploads && db.uploads[x].account == account && Distinct(done + [x])
    ensures RebuildOne(Rebuilt(db, account, done), account, done, x).changes == Rebuilt(db, account, done + [x]).changes
  {
    forall k {
      RebuildStepChange(db, account, done, x, k);
    }
  }
}

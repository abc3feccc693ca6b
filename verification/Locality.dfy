/**
 Rebuilding the whole account is patching around the edited execution: only it, the execution that
 followed it before and the one that follows it now can change, and everybody else keeps their
 place but for the one step the edited execution moved past them.
 */
module Locality {
  import opened Schema
  import opened Snapshots
  import opened DateOrder
  import opened History
  import opened Operations

  /** `d` and `e` hold the same completed executions, `id` aside. */
  ghost predicate SameApartFrom(d: Db, e: Db, account: AccountId, id: UploadId) {
    && (forall x | x != id :: IsCompleted(d.uploads, account, x) <==> IsCompleted(e.uploads, account, x))
    && (forall x | x != id && IsCompleted(d.uploads, account, x) && IsCompleted(e.uploads, account, x) ::
          SamePlace(d.uploads[x], e.uploads[x]) && SnapshotOf(d, x) == SnapshotOf(e, x))
  }

  ghost function Without(order: seq<UploadId>, id: UploadId): seq<UploadId> {
    if id in order then order[..Position(order, id)] + order[Position(order, id) + 1..] else order
  }

  lemma WithoutElements(order: seq<UploadId>, id: UploadId)
    requires Distinct(order)
    ensures Distinct(Without(order, id))
    ensures forall x :: x in Without(order, id) <==> x in order && x != id
  {
    if id in order {
      var p, rest := Position(order, id), Without(order, id);
      forall x
        ensures x in rest <==> x in order && x != id
      {
        if x in order && x != id {
          var q := Position(order, x);
          assert rest[if q < p then q else q - 1] == x;
        }
        if x in rest {
          var q := Position(rest, x);
          assert order[if q < p then q else q + 1] == x;
        }
      }
    }
  }

  lemma WithoutSorted(uploads: map<UploadId, Upload>, order: seq<UploadId>, id: UploadId)
    requires Sorted(uploads, order)
    ensures Sorted(uploads, Without(order, id))
  {
  }

  /** Where `x` stands once `id` is taken out. */
  lemma WithoutPosition(order: seq<UploadId>, id: UploadId, x: UploadId)
    requires Distinct(order) && x in order && x != id
    ensures x in Without(order, id)
    ensures Position(Without(order, id), x) ==
              if id in order && Position(order, id) < Position(order, x) then Position(order, x) - 1
                else Position(order, x)
    ensures Predecessor(order, x) != Some(id) ==> Predecessor(Without(order, id), x) == Predecessor(order, x)
  {
    WithoutElements(order, id);
    if id in order {
      var p, q, rest := Position(order, id), Position(order, x), Without(order, id);
      var r := if p < q then q - 1 else q;
      assert rest[r] == x;
      PositionIs(rest, r);
    }
  }

  /** Taken out of both timelines, the edited execution leaves the same order behind. */
  lemma SameWithout(d: Db, e: Db, account: AccountId, id: UploadId)
    requires SameApartFrom(d, e, account, id)
    ensures Without(Timeline(d.uploads, account), id) == Without(Timeline(e.uploads, account), id)
  {
    var a, b := Timeline(d.uploads, account), Timeline(e.uploads, account);
    SortedDistinct(d.uploads, a);
    SortedDistinct(e.uploads, b);
    WithoutElements(a, id);
    WithoutElements(b, id);
    WithoutSorted(d.uploads, a, id);
    WithoutSorted(e.uploads, b, id);
    var rest := Without(b, id);
    forall i | 0 <= i < |rest|
      ensures rest[i] in d.uploads && SamePlace(d.uploads[rest[i]], e.uploads[rest[i]])
    {
      assert rest[i] in rest;
    }
    SortedUnique(d.uploads, Without(a, id), rest);
  }

  /** Everything the history says about execution `x`, its sequence number aside. */
  ghost predicate SameHistoryAt(d: Db, e: Db, x: UploadId)
    requires x in d.uploads && x in e.uploads
  {
    && d.uploads[x].totals == e.uploads[x].totals
    && (forall l: ListKey | l.upload == x :: l in d.lists <==> l in e.lists)
    && (forall l: ListKey | l.upload == x && l in d.lists && l in e.lists :: d.lists[l] == e.lists[l])
    && (forall k: EventKey | k.upload == x :: k in d.changes <==> k in e.changes)
    && (forall k: EventKey | k.upload == x && k in d.changes && k in e.changes :: d.changes[k] == e.changes[k])
  }

  /** Two sound stores that agree on an execution and on its predecessor agree on its history. */
  lemma HistoryFromPair(d: Db, e: Db, account: AccountId, x: UploadId)
    requires Sound(d) && Sound(e) && IsCompleted(d.uploads, account, x) && IsCompleted(e.uploads, account, x)
    requires SnapshotOf(d, x) == SnapshotOf(e, x)
    requires PrevSnapshot(d, Timeline(d.uploads, account), x) == PrevSnapshot(e, Timeline(e.uploads, account), x)
    requires Predecessor(Timeline(d.uploads, account), x) == Predecessor(Timeline(e.uploads, account), x)
    ensures SameHistoryAt(d, e, x)
  {
    var a, b := Timeline(d.uploads, account), Timeline(e.uploads, account);
    assert Consistent(d, account) && Consistent(e, account);
    assert x in a && x in b;
    forall l: ListKey | l.upload == x
      ensures l in d.lists <==> l in e.lists
      ensures l in d.lists ==> d.lists[l] == e.lists[l]
    {
      assert l in d.lists <==> l.kind in SnapshotOf(d, x);
      assert l in e.lists <==> l.kind in SnapshotOf(e, x);
    }
    forall k: EventKey | k.upload == x
      ensures k in d.changes <==> k in e.changes
      ensures k in d.changes ==> d.changes[k] == e.changes[k]
    {
      RowsFromPair(d, e, account, k);
    }
  }

  lemma RowsFromPair(d: Db, e: Db, account: AccountId, k: EventKey)
    requires Sound(d) && Sound(e) && IsCompleted(d.uploads, account, k.upload)
             && IsCompleted(e.uploads, account, k.upload)
    requires SnapshotOf(d, k.upload) == SnapshotOf(e, k.upload)
    requires PrevSnapshot(d, Timeline(d.uploads, account), k.upload)
             == PrevSnapshot(e, Timeline(e.uploads, account), k.upload)
    requires Predecessor(Timeline(d.uploads, account), k.upload) == Predecessor(Timeline(e.uploads, account), k.upload)
    ensures k in d.changes <==> k in e.changes
    ensures k in d.changes ==> d.changes[k] == e.changes[k]
  {
    hide Sound;
    RowIsDerived(d, account, k);
    RowIsDerived(e, account, k);
  }

  /**
   Whatever happened to execution `id`, the history of every other execution `x` of the account is
   what it was, unless `x` followed `id` before or follows it now; and its number moves by at most
   the one place `id` left or took.
   */
  lemma RebuildIsLocal(d: Db, e: Db, account: AccountId, id: UploadId, x: UploadId)
    requires Sound(d) && Sound(e) && SameApartFrom(d, e, account, id)
    requires x != id && IsCompleted(d.uploads, account, x)
    ensures x in e.uploads && x in Timeline(d.uploads, account) && x in Timeline(e.uploads, account)
    ensures var before, after := Timeline(d.uploads, account), Timeline(e.uploads, account);
            && (Predecessor(before, x) != Some(id) && Predecessor(after, x) != Some(id) ==> SameHistoryAt(d, e, x))
            && e.uploads[x].sequenceNo == Some(Position(after, x) + 1)
            && d.uploads[x].sequenceNo == Some(Position(before, x) + 1)
            && Position(after, x) == Position(before, x)
                 - (if id in before && Position(before, id) < Position(before, x) then 1 else 0)
                 + (if id in after && Position(after, id) < Position(after, x) then 1 else 0)
  {
    hide *;
    RebuildMoves(d, e, account, id, x);
    RebuildKeepsHistory(d, e, account, id, x);
  }

  /** How far an execution moves when another leaves its place for one elsewhere. */
  lemma RebuildMoves(d: Db, e: Db, account: AccountId, id: UploadId, x: UploadId)
    requires Sound(d) && Sound(e) && SameApartFrom(d, e, account, id)
    requires x != id && IsCompleted(d.uploads, account, x)
    ensures x in e.uploads && x in d.uploads && x in Timeline(d.uploads, account) && x in Timeline(e.uploads, account)
    ensures var before, after := Timeline(d.uploads, account), Timeline(e.uploads, account);
            && e.uploads[x].sequenceNo == Some(Position(after, x) + 1)
            && d.uploads[x].sequenceNo == Some(Position(before, x) + 1)
            && Position(after, x) == Position(before, x)
                 - (if id in before && Position(before, id) < Position(before, x) then 1 else 0)
                 + (if id in after && Position(after, id) < Position(after, x) then 1 else 0)
  {
    hide Sound;
    hide FollowerTally;
    hide PrevSnapshot;
    hide SnapshotOf;
    assert IsCompleted(e.uploads, account, x);
    CompletedIsNumbered(d, x);
    CompletedIsNumbered(e, x);
    hide SameApartFrom;
    PlacesMove(d, e, account, id, x);
    hide Predecessor;
    hide Position;
  }

  lemma PlacesMove(d: Db, e: Db, account: AccountId, id: UploadId, x: UploadId)
    requires SameApartFrom(d, e, account, id) && x != id
    requires x in Timeline(d.uploads, account) && x in Timeline(e.uploads, account)
    ensures var before, after := Timeline(d.uploads, account), Timeline(e.uploads, account);
            Position(after, x) == Position(before, x)
              - (if id in before && Position(before, id) < Position(before, x) then 1 else 0)
              + (if id in after && Position(after, id) < Position(after, x) then 1 else 0)
  {
    var before, after := Timeline(d.uploads, account), Timeline(e.uploads, account);
    SortedDistinct(d.uploads, before);
    SortedDistinct(e.uploads, after);
    SameWithout(d, e, account, id);
    hide SameApartFrom;
    hide Timeline;
    WithoutPosition(before, id, x);
    WithoutPosition(after, id, x);
    hide Without;
  }

  /** Whoever follows neither the old place nor the new one has the predecessor it had. */
  lemma SamePredecessor(d: Db, e: Db, account: AccountId, id: UploadId, x: UploadId)
    requires SameApartFrom(d, e, account, id) && x != id && IsCompleted(d.uploads, account, x)
    requires Predecessor(Timeline(d.uploads, account), x) != Some(id)
             && Predecessor(Timeline(e.uploads, account), x) != Some(id)
    ensures Predecessor(Timeline(d.uploads, account), x) == Predecessor(Timeline(e.uploads, account), x)
  {
    var before, after := Timeline(d.uploads, account), Timeline(e.uploads, account);
    assert IsCompleted(e.uploads, account, x);
    SortedDistinct(d.uploads, before);
    SortedDistinct(e.uploads, after);
    SameWithout(d, e, account, id);
    hide SameApartFrom;
    WithoutPosition(before, id, x);
    WithoutPosition(after, id, x);
    hide Without;
  }

  lemma RebuildKeepsHistory(d: Db, e: Db, account: AccountId, id: UploadId, x: UploadId)
    requires Sound(d) && Sound(e) && SameApartFrom(d, e, account, id)
    requires x != id && IsCompleted(d.uploads, account, x)
    ensures x in e.uploads && x in d.uploads && x in Timeline(d.uploads, account) && x in Timeline(e.uploads, account)
    ensures Predecessor(Timeline(d.uploads, account), x) != Some(id)
            && Predecessor(Timeline(e.uploads, account), x) != Some(id) ==>
              SameHistoryAt(d, e, x)
  {
    hide Sound;
    hide SameHistoryAt;
    hide SnapshotOf;
    var before, after := Timeline(d.uploads, account), Timeline(e.uploads, account);
    assert IsCompleted(e.uploads, account, x);
    if Predecessor(before, x) != Some(id) && Predecessor(after, x) != Some(id) {
      SamePredecessor(d, e, account, id, x);
      hide Predecessor;
      match Predecessor(before, x) {
        case None =>
        case Some(p) =>
          assert p in before && p != id;
          assert IsCompleted(d.uploads, account, p) && IsCompleted(e.uploads, account, p);
      }
      HistoryFromPair(d, e, account, x);
    }
  }

  /** Other accounts are not touched at all. */
  ghost predicate ForeignUntouched(d: Db, e: Db, account: AccountId) {
    && (forall x | x in d.uploads && d.uploads[x].account != account :: x in e.uploads && e.uploads[x] == d.uploads[x])
    && (forall l | l in d.lists && l.upload in d.uploads && d.uploads[l.upload].account != account ::
         l in e.lists && e.lists[l] == d.lists[l])
    && (forall k ::
          (k in d.changes && d.changes[k].account != account)
          <==> (k in e.changes && e.changes[k].account != account))
    && (forall k | k in d.changes && d.changes[k].account != account :: k in e.changes && e.changes[k] == d.changes[k])
  }

  lemma RecomputedForeignUntouched(db: Db, account: AccountId)
    requires WellFormed(db)
    ensures ForeignUntouched(db, Recomputed(db, account), account)
  {
    forall k {
      RecomputedChange(db, account, k);
    }
  }

  lemma AppliedForeignUntouched(db: Db, id: UploadId, snapshot: Snapshot, takenAt: Time, source: Source)
    requires WellFormed(db) && id in db.uploads
    ensures ForeignUntouched(db, Applied(db, id, snapshot, takenAt, source), db.uploads[id].account)
  {
    hide Recomputed;
    hide WellFormed;
    ReplacedWellFormed(db, id, snapshot, takenAt, source);
    RecomputedForeignUntouched(Replaced(db, id, snapshot, takenAt, source), db.uploads[id].account);
  }

  /** How far `x` moves when `id` leaves one place in the order for another. */
  ghost function Passed(order: seq<UploadId>, id: UploadId, x: UploadId): int
    requires x in order
  {
    if id in order && Position(order, id) < Position(order, x) then 1 else 0
  }

  /** Recording an execution, new or read again at another date, is a local patch. */
  lemma ApplyIsLocal(db: Db, id: UploadId, snapshot: Snapshot, takenAt: Time, source: Source, x: UploadId)
    requires Sound(db) && id in db.uploads
    requires x != id && IsCompleted(db.uploads, db.uploads[id].account, x)
    ensures var account, e := db.uploads[id].account, Applied(db, id, snapshot, takenAt, source);
            var before, after := Timeline(db.uploads, account), Timeline(e.uploads, account);
            && ForeignUntouched(db, e, account)
            && x in e.uploads && x in before && x in after && id in after
            && (Predecessor(before, x) != Some(id) && Predecessor(after, x) != Some(id) ==> SameHistoryAt(db, e, x))
            && db.uploads[x].sequenceNo == Some(Position(before, x) + 1)
            && e.uploads[x].sequenceNo == Some(Position(after, x) + 1)
            && Position(after, x) - Position(before, x) == Passed(after, id, x) - Passed(before, id, x)
  {
    hide Consistent;
    hide SameHistoryAt;
    hide ForeignUntouched;
    hide SameApartFrom;
    hide Predecessor;
    hide Timeline;
    hide Applied;
    var account, e := db.uploads[id].account, Applied(db, id, snapshot, takenAt, source);
    AppliedSound(db, id, snapshot, takenAt, source);
    AppliedForeignUntouched(db, id, snapshot, takenAt, source);
    AppliedSameApart(db, id, snapshot, takenAt, source);
    RebuildIsLocal(db, e, account, id, x);
  }

  lemma AppliedSameApart(db: Db, id: UploadId, snapshot: Snapshot, takenAt: Time, source: Source)
    requires id in db.uploads
    ensures var account, e := db.uploads[id].account, Applied(db, id, snapshot, takenAt, source);
            SameApartFrom(db, e, account, id) && id in Timeline(e.uploads, account)
  {
    var account, r := db.uploads[id].account, Replaced(db, id, snapshot, takenAt, source);
    var e := Applied(db, id, snapshot, takenAt, source);
    ReplacedSnapshots(db, id, snapshot, takenAt, source);
    RecomputedSameExecutions(r, account, account);
    assert IsCompleted(e.uploads, account, id);
  }

  lemma RedateSameApart(db: Db, id: UploadId, takenAt: Time, source: Source)
    requires Sound(db) && id in db.uploads
    ensures SameApartFrom(db, Redated(db, id, takenAt, source), db.uploads[id].account, id)
  {
    hide Sound;
    var account := db.uploads[id].account;
    var r := db.(uploads := db.uploads[id := db.uploads[id].(takenAt := Some(takenAt), source := source)]);
    forall y {
      SnapshotsAgree(db, r, y);
    }
    RecomputedSameExecutions(r, account, account);
  }

  lemma RedatedForeignUntouched(db: Db, id: UploadId, takenAt: Time, source: Source)
    requires WellFormed(db) && id in db.uploads
    ensures ForeignUntouched(db, Redated(db, id, takenAt, source), db.uploads[id].account)
  {
    var account := db.uploads[id].account;
    var r := db.(uploads := db.uploads[id := db.uploads[id].(takenAt := Some(takenAt), source := source)]);
    RecomputedForeignUntouched(r, account);
  }

  /** Moving an execution to another date is a local patch. */
  lemma RedateIsLocal(db: Db, id: UploadId, takenAt: Time, source: Source, x: UploadId)
    requires Sound(db) && id in db.uploads
    requires x != id && IsCompleted(db.uploads, db.uploads[id].account, x)
    ensures var account, e := db.uploads[id].account, Redated(db, id, takenAt, source);
            var before, after := Timeline(db.uploads, account), Timeline(e.uploads, account);
            && ForeignUntouched(db, e, account)
            && x in e.uploads && x in before && x in after
            && (Predecessor(before, x) != Some(id) && Predecessor(after, x) != Some(id) ==> SameHistoryAt(db, e, x))
            && db.uploads[x].sequenceNo == Some(Position(before, x) + 1)
            && e.uploads[x].sequenceNo == Some(Position(after, x) + 1)
            && Position(after, x) - Position(before, x) == Passed(after, id, x) - Passed(before, id, x)
  {
    hide Consistent;
    hide SameHistoryAt;
    hide ForeignUntouched;
    hide SameApartFrom;
    hide Predecessor;
    hide Timeline;
    hide Redated;
    RedatedSound(db, id, takenAt, source);
    RedateSameApart(db, id, takenAt, source);
    RedatedForeignUntouched(db, id, takenAt, source);
    RebuildIsLocal(db, Redated(db, id, takenAt, source), db.uploads[id].account, id, x);
  }
}

/**
 The order an account's history is built in: completed executions by export date, then upload time,
 then id.
 */
module DateOrder {
  import opened Schema

  /** The database sorts an unknown date before every known one. */
  predicate Earlier(a: Option<Time>, b: Option<Time>) {
    b.Some? && (a.None? || a.value < b.value)
  }

  /** Upload `a` with id `i` comes strictly before upload `b` with id `j`. */
  predicate Before(a: Upload, i: UploadId, b: Upload, j: UploadId) {
    Earlier(a.takenAt, b.takenAt) ||
    (a.takenAt == b.takenAt && (a.uploadedAt < b.uploadedAt || (a.uploadedAt == b.uploadedAt && i.n < j.n)))
  }

  predicate IsCompleted(uploads: map<UploadId, Upload>, account: AccountId, id: UploadId) {
    id in uploads && uploads[id].account == account && uploads[id].status == Completed
  }

  ghost predicate Sorted(uploads: map<UploadId, Upload>, order: seq<UploadId>) {
    (forall i | 0 <= i < |order| :: order[i] in uploads) &&
    (forall i, j | 0 <= i < j < |order| :: Before(uploads[order[i]], order[i], uploads[order[j]], order[j]))
  }

  /** `order` is the completed executions of the account and no others, each before the later ones. */
  ghost predicate IsTimeline(uploads: map<UploadId, Upload>, account: AccountId, order: seq<UploadId>) {
    Sorted(uploads, order) && (forall id :: id in order <==> IsCompleted(uploads, account, id))
  }

  ghost function Timeline(uploads: map<UploadId, Upload>, account: AccountId): (order: seq<UploadId>)
    ensures IsTimeline(uploads, account, order)
  {
    TimelineExists(uploads, account);
    var order :| IsTimeline(uploads, account, order);
    order
  }

  // ---------------------------------------------------------------- existence and uniqueness

  /** `x` comes before every other member of `ids`. */
  ghost predicate IsLeast(uploads: map<UploadId, Upload>, ids: set<UploadId>, x: UploadId)
    requires ids <= uploads.Keys
  {
    x in ids && forall other | other in ids && other != x :: Before(uploads[x], x, uploads[other], other)
  }

  lemma {:induction false} LeastExists(uploads: map<UploadId, Upload>, ids: set<UploadId>) returns (least: UploadId)
    requires ids != {} && ids <= uploads.Keys
    ensures IsLeast(uploads, ids, least)
    decreases ids
  {
    var x :| x in ids;
    if ids == {x} {
      least := x;
    } else {
      var y := LeastExists(uploads, ids - {x});
      if Before(uploads[x], x, uploads[y], y) {
        least := x;
        forall other | other in ids && other != x
          ensures Before(uploads[x], x, uploads[other], other)
        {
          assert other in ids - {x};
        }
      } else {
        least := y;
        forall other | other in ids && other != y
          ensures Before(uploads[y], y, uploads[other], other)
        {
          assert other == x || other in ids - {x};
        }
      }
    }
  }

  lemma {:induction false} SortedExists(uploads: map<UploadId, Upload>, ids: set<UploadId>)
    returns (order: seq<UploadId>)
    requires ids <= uploads.Keys
    ensures Sorted(uploads, order) && (forall id :: id in order <==> id in ids)
    decreases ids
  {
    if ids == {} {
      order := [];
    } else {
      var x := LeastExists(uploads, ids);
      var rest := SortedExists(uploads, ids - {x});
      order := [x] + rest;
    }
  }

  lemma TimelineExists(uploads: map<UploadId, Upload>, account: AccountId)
    ensures exists order :: IsTimeline(uploads, account, order)
  {
    var ids := set id | id in uploads && IsCompleted(uploads, account, id);
    var order := SortedExists(uploads, ids);
    assert IsTimeline(uploads, account, order);
  }

  lemma HeadIn(order: seq<UploadId>)
    requires order != []
    ensures exists id :: id in order
  {
    assert order[0] in order;
  }

  /** A set of executions can be put in date order in one way only. */
  lemma {:induction false} SortedUnique(uploads: map<UploadId, Upload>, a: seq<UploadId>, b: seq<UploadId>)
    requires Sorted(uploads, a) && Sorted(uploads, b)
    requires forall id :: id in a <==> id in b
    ensures a == b
  {
    if a == [] {
      if b != [] {
        HeadIn(b);
        assert false;
      }
    } else {
      assert a[0] in a;
      assert a[0] in b;
      assert b[0] in b;
      var i :| 0 <= i < |b| && b[i] == a[0];
      var j :| 0 <= j < |a| && a[j] == b[0];
      assert a[0] == b[0];
      forall id
        ensures id in a[1..] <==> id in b[1..]
      {
        assert id in a <==> id == a[0] || id in a[1..];
        assert id in b <==> id == b[0] || id in b[1..];
        if id in a[1..] { var k :| 0 <= k < |a[1..]| && a[1..][k] == id; assert a[k + 1] == id; }
        if id in b[1..] { var k :| 0 <= k < |b[1..]| && b[1..][k] == id; assert b[k + 1] == id; }
      }
      SortedUnique(uploads, a[1..], b[1..]);
      assert a == [a[0]] + a[1..] && b == [b[0]] + b[1..];
    }
  }

  /** The columns that place an execution in the order. */
  ghost predicate SamePlace(a: Upload, b: Upload) {
    a.account == b.account && a.status == b.status && a.takenAt == b.takenAt && a.uploadedAt == b.uploadedAt
  }

  /** Two upload tables whose completed executions for `account` are placed alike have one timeline. */
  lemma TimelineDetermined(u: map<UploadId, Upload>, v: map<UploadId, Upload>, account: AccountId)
    requires forall id :: IsCompleted(u, account, id) <==> IsCompleted(v, account, id)
    requires forall id | IsCompleted(u, account, id) && IsCompleted(v, account, id) :: SamePlace(u[id], v[id])
    ensures Timeline(u, account) == Timeline(v, account)
  {
    var a, b := Timeline(u, account), Timeline(v, account);
    forall i | 0 <= i < |b|
      ensures b[i] in u && SamePlace(u[b[i]], v[b[i]])
    {
      assert b[i] in b;
    }
    assert Sorted(u, b);
    SortedUnique(u, a, b);
  }

  lemma TimelineIs(uploads: map<UploadId, Upload>, account: AccountId, order: seq<UploadId>)
    requires IsTimeline(uploads, account, order)
    ensures Timeline(uploads, account) == order
  {
    SortedUnique(uploads, Timeline(uploads, account), order);
  }

  // ---------------------------------------------------------------- positions

  ghost predicate Distinct(order: seq<UploadId>) {
    forall i, j | 0 <= i < j < |order| :: order[i] != order[j]
  }

  ghost function Position(order: seq<UploadId>, id: UploadId): (i: nat)
    requires id in order
    ensures i < |order| && order[i] == id
  {
    var i :| 0 <= i < |order| && order[i] == id;
    i
  }

  /** The execution `id` is compared against; none for the oldest. */
  ghost function Predecessor(order: seq<UploadId>, id: UploadId): (prev: Option<UploadId>)
    ensures prev.Some? ==> prev.value in order
  {
    if id in order && Position(order, id) > 0 then Some(order[Position(order, id) - 1]) else None
  }

  lemma SortedDistinct(uploads: map<UploadId, Upload>, order: seq<UploadId>)
    requires Sorted(uploads, order)
    ensures Distinct(order)
  {
  }

  lemma PositionIs(order: seq<UploadId>, i: nat)
    requires Distinct(order) && i < |order|
    ensures Position(order, order[i]) == i
    ensures Predecessor(order, order[i]) == if i > 0 then Some(order[i - 1]) else None
  {
  }

  /** Appending a later execution moves nobody already placed. */
  lemma Appended(done: seq<UploadId>, x: UploadId)
    requires Distinct(done + [x])
    ensures Position(done + [x], x) == |done|
    ensures Predecessor(done + [x], x) == if done == [] then None else Some(done[|done| - 1])
    ensures forall id | id in done :: Position(done + [x], id) == Position(done, id)
                                   && Predecessor(done + [x], id) == Predecessor(done, id)
  {
    var next := done + [x];
    PositionIs(next, |done|);
    forall id | id in done
      ensures Position(next, id) == Position(done, id) && Predecessor(next, id) == Predecessor(done, id)
    {
      assert next[Position(done, id)] == id;
    }
  }
}

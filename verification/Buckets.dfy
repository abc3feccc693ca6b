/**
 Comparing two executions of one account: the four buckets, the event log between them, and exactly
 when the two agree.
 */
module Buckets {
  import opened Schema
  import opened Snapshots
  import opened DateOrder
  import opened History
  import opened Operations

  // ---------------------------------------------------------------- what the queries select

  function Lost(db: Db, from: UploadId, to: UploadId, kind: Kind): set<User> {
    set u | u in Names(db.members, from, kind) && MemberKey(to, kind, u) !in db.members
  }

  function Gained(db: Db, from: UploadId, to: UploadId, kind: Kind): set<User> {
    set u | u in Names(db.members, to, kind) && MemberKey(from, kind, u) !in db.members
  }

  /** The upload belongs to the account and is numbered after `lo` and no later than `hi`. */
  predicate Within(db: Db, account: AccountId, id: UploadId, lo: nat, hi: nat) {
    id in db.uploads && db.uploads[id].account == account
    && db.uploads[id].sequenceNo.Some? && lo < db.uploads[id].sequenceNo.value <= hi
  }

  /** The change log holds a departure of `u` between the two numbers. */
  predicate LoggedDeparture(db: Db, account: AccountId, kind: Kind, u: User, lo: nat, hi: nat) {
    exists id | id in db.uploads :: Within(db, account, id, lo, hi) && EventKey(id, kind, u, Unfollowed) in db.changes
  }

  function Returned(db: Db, account: AccountId, from: UploadId, to: UploadId, kind: Kind, lo: nat, hi: nat): set<User> {
    set u | u in Names(db.members, from, kind) && MemberKey(to, kind, u) in db.members
            && LoggedDeparture(db, account, kind, u, lo, hi)
  }

  /** Some completed execution strictly between the two numbers lists `u`. */
  predicate SeenBetween(db: Db, account: AccountId, kind: Kind, u: User, lo: nat, hi: nat) {
    exists id | id in db.uploads ::
      hi > 0 && Within(db, account, id, lo, hi - 1) && db.uploads[id].status == Completed
        && MemberKey(id, kind, u) in db.members
  }

  function Transient(db: Db, account: AccountId, from: UploadId, to: UploadId, kind: Kind, lo: nat,
      hi: nat): set<User> {
    set m | m in db.members && m.kind == kind && SeenBetween(db, account, kind, m.user, lo, hi)
            && MemberKey(from, kind, m.user) !in db.members && MemberKey(to, kind, m.user) !in db.members :: m.user
  }

  // ---------------------------------------------------------------- the event log by position

  ghost predicate Carried(db: Db, order: seq<UploadId>, kind: Kind, i: nat)
    requires i < |order|
  {
    ListKey(order[i], kind) in db.lists
  }

  ghost predicate CarriedThroughout(db: Db, order: seq<UploadId>, kind: Kind, f: nat, t: nat)
    requires t < |order|
  {
    forall i: nat | f <= i <= t :: Carried(db, order, kind, i)
  }

  ghost predicate Present(db: Db, order: seq<UploadId>, kind: Kind, u: User, i: nat)
    requires i < |order|
  {
    MemberKey(order[i], kind, u) in db.members
  }

  ghost predicate Logged(db: Db, order: seq<UploadId>, kind: Kind, u: User, change: ChangeType, i: nat)
    requires i < |order|
  {
    EventKey(order[i], kind, u, change) in db.changes
  }

  /** How many changes in one direction the log holds for `u` after position `f`, up to `t`. */
  ghost function Count(db: Db, order: seq<UploadId>, kind: Kind, u: User, change: ChangeType, f: nat, t: nat): nat
    requires f <= t < |order|
    decreases t
  {
    if f == t then 0
    else Count(db, order, kind, u, change, f, t - 1) + if Logged(db, order, kind, u, change, t) then 1 else 0
  }

  /** The log against the snapshots: a change is recorded exactly between two executions that both carried the list. */
  lemma LogAgrees(db: Db, account: AccountId, order: seq<UploadId>, kind: Kind, u: User, i: nat)
    requires Sound(db) && order == Timeline(db.uploads, account) && i < |order|
    ensures Logged(db, order, kind, u, Unfollowed, i) <==>
              i > 0 && Carried(db, order, kind, i - 1) && Carried(db, order, kind, i)
              && Present(db, order, kind, u, i - 1) && !Present(db, order, kind, u, i)
    ensures Logged(db, order, kind, u, Followed, i) <==>
              i > 0 && Carried(db, order, kind, i - 1) && Carried(db, order, kind, i)
              && !Present(db, order, kind, u, i - 1) && Present(db, order, kind, u, i)
    ensures Present(db, order, kind, u, i) ==> Carried(db, order, kind, i)
  {
    assert order[i] in order;
    SortedDistinct(db.uploads, order);
    PositionIs(order, i);
    var left, came := EventKey(order[i], kind, u, Unfollowed), EventKey(order[i], kind, u, Followed);
    RowIsDerived(db, account, left);
    RowIsDerived(db, account, came);
    assert Present(db, order, kind, u, i) ==> Carried(db, order, kind, i);
    hide Sound;
    hide DerivedRow;
    if i > 0 {
      var cur, prev := SnapshotOf(db, order[i]), SnapshotOf(db, order[i - 1]);
      assert left in KeysAt(db, order, order[i]) <==> u in Changed(cur, prev, kind, Unfollowed);
      assert came in KeysAt(db, order, order[i]) <==> u in Changed(cur, prev, kind, Followed);
    }
  }

  /** A sequence number is a position in the timeline. */
  lemma WithinIsPosition(db: Db, account: AccountId, order: seq<UploadId>, id: UploadId, f: nat, t: nat)
    requires Sound(db) && order == Timeline(db.uploads, account) && f <= t <= |order|
    ensures Within(db, account, id, f, t) <==> exists i: nat :: f <= i < t && order[i] == id
  {
    assert Consistent(db, account);
    SortedDistinct(db.uploads, order);
    if Within(db, account, id, f, t) {
      assert order[Position(order, id)] == id;
    }
    if i: nat :| f <= i < t && order[i] == id {
      assert order[i] in order;
      PositionIs(order, i);
    }
  }

  lemma LoggedDepartureIs(db: Db, account: AccountId, order: seq<UploadId>, kind: Kind, u: User, f: nat, t: nat)
    requires Sound(db) && order == Timeline(db.uploads, account) && f <= t < |order|
    ensures LoggedDeparture(db, account, kind, u, f + 1, t + 1) <==> exists i: nat ::
              f < i <= t && Logged(db, order, kind, u, Unfollowed, i)
  {
    hide Sound;
    hide Timeline;
    if LoggedDeparture(db, account, kind, u, f + 1, t + 1) {
      var id :| id in db.uploads && Within(db, account, id, f + 1, t + 1)
          && EventKey(id, kind, u, Unfollowed) in db.changes;
      WithinIsPosition(db, account, order, id, f + 1, t + 1);
      var i: nat :| f + 1 <= i < t + 1 && order[i] == id;
      assert Logged(db, order, kind, u, Unfollowed, i);
    }
    if i: nat :| f < i <= t && Logged(db, order, kind, u, Unfollowed, i) {
      assert order[i] in order;
      WithinIsPosition(db, account, order, order[i], f + 1, t + 1);
      assert Within(db, account, order[i], f + 1, t + 1);
    }
  }

  lemma SeenBetweenIs(db: Db, account: AccountId, order: seq<UploadId>, kind: Kind, u: User, f: nat, t: nat)
    requires Sound(db) && order == Timeline(db.uploads, account) && f <= t < |order|
    ensures SeenBetween(db, account, kind, u, f + 1, t + 1) <==> exists i: nat ::
              f < i < t && Present(db, order, kind, u, i)
  {
    hide Sound;
    hide Timeline;
    if SeenBetween(db, account, kind, u, f + 1, t + 1) {
      var id :| id in db.uploads && Within(db, account, id, f + 1, t) && MemberKey(id, kind, u) in db.members;
      if f + 1 <= t {
        WithinIsPosition(db, account, order, id, f + 1, t);
        var i: nat :| f + 1 <= i < t && order[i] == id;
        assert Present(db, order, kind, u, i);
      }
    }
    if i: nat :| f < i < t && Present(db, order, kind, u, i) {
      assert order[i] in order;
      WithinIsPosition(db, account, order, order[i], f + 1, t);
      assert Within(db, account, order[i], f + 1, t);
    }
  }

  lemma {:induction false} CountPositive(db: Db, order: seq<UploadId>, kind: Kind, u: User, change: ChangeType, f: nat,
      t: nat)
    requires f <= t < |order|
    ensures Count(db, order, kind, u, change, f, t) > 0 <==> exists i: nat ::
              f < i <= t && Logged(db, order, kind, u, change, i)
    decreases t
  {
    if f < t {
      CountPositive(db, order, kind, u, change, f, t - 1);
    }
  }

  // ---------------------------------------------------------------- the bucket theorem

  /** Arrivals less departures is the change in presence. */
  lemma {:induction false} NetIsPresence(db: Db, account: AccountId, order: seq<UploadId>, kind: Kind, u: User, f: nat,
      t: nat)
    requires Sound(db) && order == Timeline(db.uploads, account) && f <= t < |order|
    requires CarriedThroughout(db, order, kind, f, t)
    ensures Count(db, order, kind, u, Unfollowed, f, t) - Count(db, order, kind, u, Followed, f, t)
            == (if Present(db, order, kind, u, f) then 1 else 0) - (if Present(db, order, kind, u, t) then 1 else 0)
    decreases t
  {
    if f < t {
      NetIsPresence(db, account, order, kind, u, f, t - 1);
      LogAgrees(db, account, order, kind, u, t);
    }
  }

  /** Somebody present at `f` with no departure logged since is present throughout. */
  lemma {:induction false} NoDepartureStays(db: Db, account: AccountId, order: seq<UploadId>, kind: Kind, u: User,
      f: nat, t: nat, i: nat)
    requires Sound(db) && order == Timeline(db.uploads, account) && f <= i <= t < |order|
    requires CarriedThroughout(db, order, kind, f, t) && Present(db, order, kind, u, f)
    requires Count(db, order, kind, u, Unfollowed, f, t) == 0
    ensures Present(db, order, kind, u, i)
    decreases i
  {
    if f < i {
      NoDepartureStays(db, account, order, kind, u, f, t, i - 1);
      LogAgrees(db, account, order, kind, u, i);
      CountPositive(db, order, kind, u, Unfollowed, f, t);
    }
  }

  ghost predicate StayedThroughout(db: Db, order: seq<UploadId>, kind: Kind, u: User, f: nat, t: nat)
    requires t < |order|
  {
    forall i: nat | f <= i <= t :: Present(db, order, kind, u, i)
  }

  /**
   When every execution in the range carried the list, the buckets are a counting of the event log:
   lost is a net departure, gained a net arrival, returned a balanced log of somebody who was there,
   transient a balanced log of somebody who was not.
   */
  lemma BucketTheorem(db: Db, account: AccountId, kind: Kind, u: User, f: nat, t: nat)
    requires Sound(db) && f <= t < |Timeline(db.uploads, account)|
    requires CarriedThroughout(db, Timeline(db.uploads, account), kind, f, t)
    ensures var order := Timeline(db.uploads, account);
            var departures, arrivals := Count(db, order, kind, u, Unfollowed, f, t),
                Count(db, order, kind, u, Followed, f, t);
            && -1 <= departures - arrivals <= 1
            && (u in Lost(db, order[f], order[t], kind) <==> departures - arrivals == 1)
            && (u in Gained(db, order[f], order[t], kind) <==> departures - arrivals == -1)
            && (u in Returned(db, account, order[f], order[t], kind, f + 1, t + 1)
                <==> departures == arrivals && Present(db, order, kind, u, f) && departures > 0)
            && (u in Transient(db, account, order[f], order[t], kind, f + 1, t + 1)
                <==> departures == arrivals && !Present(db, order, kind, u, f) && arrivals > 0)
  {
    var order := Timeline(db.uploads, account);
    NetIsPresence(db, account, order, kind, u, f, t);
    LoggedDepartureIs(db, account, order, kind, u, f, t);
    CountPositive(db, order, kind, u, Unfollowed, f, t);
    TransientIs(db, account, order, kind, u, f, t);
    if !Present(db, order, kind, u, f) && !Present(db, order, kind, u, t) {
      TransientHasArrival(db, account, order, kind, u, f, t);
    }
  }

  lemma TransientIs(db: Db, account: AccountId, order: seq<UploadId>, kind: Kind, u: User, f: nat, t: nat)
    requires Sound(db) && order == Timeline(db.uploads, account) && f <= t < |order|
    ensures u in Transient(db, account, order[f], order[t], kind, f + 1, t + 1)
            <==> (exists i: nat :: f < i < t && Present(db, order, kind, u, i))
                 && !Present(db, order, kind, u, f) && !Present(db, order, kind, u, t)
  {
    hide Sound;
    hide Timeline;
    SeenBetweenIs(db, account, order, kind, u, f, t);
    if i: nat :| f < i < t && Present(db, order, kind, u, i) {
      var m := MemberKey(order[i], kind, u);
      assert m in db.members && m.user == u && m.kind == kind;
    }
  }

  lemma TransientHasArrival(db: Db, account: AccountId, order: seq<UploadId>, kind: Kind, u: User, f: nat, t: nat)
    requires Sound(db) && order == Timeline(db.uploads, account) && f <= t < |order|
    requires CarriedThroughout(db, order, kind, f, t)
    requires !Present(db, order, kind, u, f) && !Present(db, order, kind, u, t)
    ensures Count(db, order, kind, u, Followed, f, t) > 0 <==> exists i: nat ::
              f < i < t && Present(db, order, kind, u, i)
  {
    CountPositive(db, order, kind, u, Followed, f, t);
    if i: nat :| f < i <= t && Logged(db, order, kind, u, Followed, i) {
      LogAgrees(db, account, order, kind, u, i);
      assert Present(db, order, kind, u, i);
    }
    if i: nat :| f < i < t && Present(db, order, kind, u, i) {
      FirstPresence(db, account, order, kind, u, f, i);
    }
  }

  lemma {:induction false} FirstPresence(db: Db, account: AccountId, order: seq<UploadId>, kind: Kind, u: User, f: nat,
      i: nat)
    requires Sound(db) && order == Timeline(db.uploads, account) && f < i < |order|
    requires CarriedThroughout(db, order, kind, f, i)
    requires !Present(db, order, kind, u, f) && Present(db, order, kind, u, i)
    ensures exists j: nat :: f < j <= i && Logged(db, order, kind, u, Followed, j)
    decreases i
  {
    LogAgrees(db, account, order, kind, u, i);
    if Present(db, order, kind, u, i - 1) {
      FirstPresence(db, account, order, kind, u, f, i - 1);
    }
  }

  function One(holds: bool): nat { if holds then 1 else 0 }

  /** Present at both ends: there throughout, or returned, never both. */
  lemma StayedOrReturned(db: Db, account: AccountId, kind: Kind, u: User, f: nat, t: nat)
    requires Sound(db) && f <= t < |Timeline(db.uploads, account)|
    requires CarriedThroughout(db, Timeline(db.uploads, account), kind, f, t)
    requires Present(db, Timeline(db.uploads, account), kind, u, f)
             && Present(db, Timeline(db.uploads, account), kind, u, t)
    ensures StayedThroughout(db, Timeline(db.uploads, account), kind, u, f, t)
            <==> Count(db, Timeline(db.uploads, account), kind, u, Unfollowed, f, t) == 0
  {
    var order := Timeline(db.uploads, account);
    if Count(db, order, kind, u, Unfollowed, f, t) == 0 {
      forall i: nat | f <= i <= t {
        NoDepartureStays(db, account, order, kind, u, f, t, i);
      }
    } else {
      CountPositive(db, order, kind, u, Unfollowed, f, t);
      var i: nat :| f < i <= t && Logged(db, order, kind, u, Unfollowed, i);
      LogAgrees(db, account, order, kind, u, i);
      assert !Present(db, order, kind, u, i);
    }
  }

  /** Everybody seen in the range falls in exactly one bucket, or was there throughout. */
  lemma BucketsPartition(db: Db, account: AccountId, kind: Kind, u: User, f: nat, t: nat)
    requires Sound(db) && f <= t < |Timeline(db.uploads, account)|
    requires CarriedThroughout(db, Timeline(db.uploads, account), kind, f, t)
    requires exists i: nat :: f <= i <= t && Present(db, Timeline(db.uploads, account), kind, u, i)
    ensures var order := Timeline(db.uploads, account);
            One(u in Lost(db, order[f], order[t], kind)) + One(u in Gained(db, order[f], order[t], kind))
            + One(u in Returned(db, account, order[f], order[t], kind, f + 1, t + 1))
            + One(u in Transient(db, account, order[f], order[t], kind, f + 1, t + 1))
            + One(StayedThroughout(db, order, kind, u, f, t)) == 1
  {
    var order := Timeline(db.uploads, account);
    BucketTheorem(db, account, kind, u, f, t);
    NetIsPresence(db, account, order, kind, u, f, t);
    TransientIs(db, account, order, kind, u, f, t);
    if Present(db, order, kind, u, f) && Present(db, order, kind, u, t) {
      StayedOrReturned(db, account, kind, u, f, t);
    } else {
      assert !StayedThroughout(db, order, kind, u, f, t);
    }
  }
}

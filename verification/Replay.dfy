/**
 The change log as a log: starting from one execution's list and applying the rows recorded since
 yields a later execution's list, and the recorded counts add up.
 */
module Replay {
  import opened Schema
  import opened DateOrder
  import opened History
  import opened Operations
  import opened Buckets

  /** The names in the change rows of one execution, list and direction. */
  function Rows(db: Db, id: UploadId, kind: Kind, change: ChangeType): set<User> {
    set k | k in db.changes && k.upload == id && k.kind == kind && k.change == change :: k.user
  }

  /** The list at position `i` with the rows of the executions after it, up to `j`, applied in order. */
  function Replayed(db: Db, order: seq<UploadId>, kind: Kind, i: nat, j: nat): set<User>
    requires i <= j < |order|
    decreases j
  {
    if i == j then Names(db.members, order[i], kind)
    else
      var before := Replayed(db, order, kind, i, j - 1);
      (before - Rows(db, order[j], kind, Unfollowed)) + Rows(db, order[j], kind, Followed)
  }

  /** The sum of the counts recorded in one direction after position `i`, up to `j`. */
  function Moved(db: Db, order: seq<UploadId>, kind: Kind, change: ChangeType, i: nat, j: nat): nat
    requires i <= j < |order|
    decreases j
  {
    if i == j then 0
    else Moved(db, order, kind, change, i, j - 1) + CountOf(db, order[j], kind, change)
  }

  function CountOf(db: Db, id: UploadId, kind: Kind, change: ChangeType): nat {
    if change == Followed then Numbers(db, id, kind).added else Numbers(db, id, kind).removed
  }

  /** The totals recorded for one list of one execution. */
  function Numbers(db: Db, id: UploadId, kind: Kind): Totals {
    if ListKey(id, kind) in db.lists then db.lists[ListKey(id, kind)] else Totals(0, 0, 0)
  }

  lemma RowIsLogged(db: Db, order: seq<UploadId>, kind: Kind, change: ChangeType, u: User, i: nat)
    requires i < |order|
    ensures u in Rows(db, order[i], kind, change) <==> Logged(db, order, kind, u, change, i)
  {
    var k := EventKey(order[i], kind, u, change);
    assert k in db.changes ==> k.user in Rows(db, order[i], kind, change);
  }

  /** Applying one execution's rows to the list before it gives its own list. */
  lemma RowsAreDifference(db: Db, account: AccountId, order: seq<UploadId>, kind: Kind, i: nat)
    requires Sound(db) && order == Timeline(db.uploads, account) && 0 < i < |order|
    requires Carried(db, order, kind, i - 1) && Carried(db, order, kind, i)
    ensures Rows(db, order[i], kind, Followed)
            == Names(db.members, order[i], kind) - Names(db.members, order[i - 1], kind)
    ensures Rows(db, order[i], kind, Unfollowed)
            == Names(db.members, order[i - 1], kind) - Names(db.members, order[i], kind)
  {
    forall u
      ensures u in Rows(db, order[i], kind, Followed)
              <==> Present(db, order, kind, u, i) && !Present(db, order, kind, u, i - 1)
      ensures u in Rows(db, order[i], kind, Unfollowed)
              <==> !Present(db, order, kind, u, i) && Present(db, order, kind, u, i - 1)
    {
      RowIsLogged(db, order, kind, Followed, u, i);
      RowIsLogged(db, order, kind, Unfollowed, u, i);
      LogAgrees(db, account, order, kind, u, i);
    }
  }

  /** Replaying the log from one execution yields the membership of any later one. */
  lemma {:induction false} ReplayRebuilds(db: Db, account: AccountId, kind: Kind, i: nat, j: nat)
    requires Sound(db) && i <= j < |Timeline(db.uploads, account)|
    requires CarriedThroughout(db, Timeline(db.uploads, account), kind, i, j)
    ensures Replayed(db, Timeline(db.uploads, account), kind, i, j)
            == Names(db.members, Timeline(db.uploads, account)[j], kind)
    decreases j
  {
    var order := Timeline(db.uploads, account);
    if i < j {
      ReplayRebuilds(db, account, kind, i, j - 1);
      assert Carried(db, order, kind, j - 1) && Carried(db, order, kind, j);
      RowsAreDifference(db, account, order, kind, j);
    }
  }

  /** No rows are recorded against an execution that did not carry the list, nor against none. */
  lemma NoRowsWithoutPair(db: Db, account: AccountId, order: seq<UploadId>, kind: Kind, i: nat, change: ChangeType)
    requires Sound(db) && order == Timeline(db.uploads, account) && i < |order|
    requires i == 0 || !Carried(db, order, kind, i - 1) || !Carried(db, order, kind, i)
    ensures Rows(db, order[i], kind, change) == {}
  {
    forall u
      ensures u !in Rows(db, order[i], kind, change)
    {
      RowIsLogged(db, order, kind, change, u, i);
      LogAgrees(db, account, order, kind, u, i);
    }
  }

  /** The counts recorded for a list are its size and the sizes of its two sets of rows. */
  lemma NumbersAreRows(db: Db, account: AccountId, order: seq<UploadId>, kind: Kind, i: nat)
    requires Sound(db) && order == Timeline(db.uploads, account) && i < |order|
    ensures Carried(db, order, kind, i) ==> Numbers(db, order[i], kind).members == |Names(db.members, order[i], kind)|
    ensures Numbers(db, order[i], kind).added == |Rows(db, order[i], kind, Followed)|
    ensures Numbers(db, order[i], kind).removed == |Rows(db, order[i], kind, Unfollowed)|
  {
    if i > 0 && Carried(db, order, kind, i - 1) && Carried(db, order, kind, i) {
      RowsAreDifference(db, account, order, kind, i);
    } else {
      NoRowsWithoutPair(db, account, order, kind, i, Followed);
      NoRowsWithoutPair(db, account, order, kind, i, Unfollowed);
    }
    if Carried(db, order, kind, i) {
      TotalsAre(db, account, order, kind, i);
    }
  }

  lemma TotalsAre(db: Db, account: AccountId, order: seq<UploadId>, kind: Kind, i: nat)
    requires Sound(db) && order == Timeline(db.uploads, account) && i < |order| && Carried(db, order, kind, i)
    ensures var names := Names(db.members, order[i], kind);
            var before := if i > 0 then Names(db.members, order[i - 1], kind) else {};
            Numbers(db, order[i], kind) == if i > 0 && Carried(db, order, kind, i - 1)
                                           then Totals(|names|, |names - before|, |before - names|)
                                           else Totals(|names|, 0, 0)
  {
    var l := ListKey(order[i], kind);
    assert Consistent(db, account);
    assert order[i] in order;
    SortedDistinct(db.uploads, order);
    PositionIs(order, i);
    assert db.lists[l] == DerivedTotals(db, order, l);
    assert |SnapshotOf(db, order[i])[kind]| == |SnapshotOf(db, order[i])[kind].Keys|;
  }

  lemma SizeByDifference(cur: set<User>, prev: set<User>)
    ensures |cur| == |prev| + |cur - prev| - |prev - cur|
  {
    assert cur == (cur * prev) + (cur - prev);
    assert prev == (cur * prev) + (prev - cur);
  }

  /** A later count is the earlier one plus what was added less what was removed in between. */
  lemma {:induction false} CountsAddUp(db: Db, account: AccountId, kind: Kind, i: nat, j: nat)
    requires Sound(db) && i <= j < |Timeline(db.uploads, account)|
    requires CarriedThroughout(db, Timeline(db.uploads, account), kind, i, j)
    ensures var order := Timeline(db.uploads, account);
            Numbers(db, order[j], kind).members
            == Numbers(db, order[i], kind).members
              + Moved(db, order, kind, Followed, i, j) - Moved(db, order, kind, Unfollowed, i, j)
    decreases j
  {
    var order := Timeline(db.uploads, account);
    if i < j {
      CountsAddUp(db, account, kind, i, j - 1);
      assert Carried(db, order, kind, j - 1) && Carried(db, order, kind, j);
      NumbersAreRows(db, account, order, kind, j - 1);
      NumbersAreRows(db, account, order, kind, j);
      RowsAreDifference(db, account, order, kind, j);
      SizeByDifference(Names(db.members, order[j], kind), Names(db.members, order[j - 1], kind));
    }
  }

  // ---------------------------------------------------------------- the raw log

  /** Every change of one list in one direction recorded for the account. */
  function EventLog(db: Db, account: AccountId, kind: Kind, change: ChangeType): set<EventKey> {
    set k | k in db.changes && db.changes[k].account == account && k.kind == kind && k.change == change
  }

  function RowKeys(db: Db, id: UploadId, kind: Kind, change: ChangeType): set<EventKey> {
    set k | k in db.changes && k.upload == id && k.kind == kind && k.change == change
  }

  /** The log of the executions up to position `j`. */
  function LogUpTo(db: Db, order: seq<UploadId>, kind: Kind, change: ChangeType, j: nat): (keys: set<EventKey>)
    requires j < |order|
    ensures forall k | k in keys :: exists i :: 0 <= i <= j && order[i] == k.upload
  {
    (if j == 0 then {} else LogUpTo(db, order, kind, change, j - 1)) + RowKeys(db, order[j], kind, change)
  }

  lemma {:induction false} RowsInLog(db: Db, order: seq<UploadId>, kind: Kind, change: ChangeType, i: nat, j: nat)
    requires i <= j < |order|
    ensures RowKeys(db, order[i], kind, change) <= LogUpTo(db, order, kind, change, j) <= db.changes.Keys
    ensures forall k | k in LogUpTo(db, order, kind, change, j) :: k.kind == kind && k.change == change
    decreases j
  {
    if j > 0 {
      RowsInLog(db, order, kind, change, if i < j then i else j - 1, j - 1);
    }
  }

  lemma {:induction false} SameSize(keys: set<EventKey>, users: set<User>, id: UploadId, kind: Kind, change: ChangeType)
    requires forall u :: u in users <==> EventKey(id, kind, u, change) in keys
    requires forall k | k in keys :: k == EventKey(id, kind, k.user, change)
    ensures |keys| == |users|
    decreases keys
  {
    if keys != {} {
      var k :| k in keys;
      SameSize(keys - {k}, users - {k.user}, id, kind, change);
    } else {
      assert forall u :: u !in users;
    }
  }

  /** The length of the log up to an execution is the sum of the counts recorded up to it. */
  lemma {:induction false} LogLength(db: Db, account: AccountId, order: seq<UploadId>, kind: Kind, change: ChangeType,
      j: nat)
    requires Sound(db) && order == Timeline(db.uploads, account) && j < |order|
    ensures |LogUpTo(db, order, kind, change, j)| == Moved(db, order, kind, change, 0, j)
    decreases j
  {
    hide Sound;
    hide Timeline;
    hide Rows;
    hide LogUpTo;
    hide RowKeys;
    SortedDistinct(db.uploads, order);
    NumbersAreRows(db, account, order, kind, j);
    OneExecutionMore(db, order, kind, change, j);
    if j == 0 {
      NoRowsWithoutPair(db, account, order, kind, 0, change);
    } else {
      LogLength(db, account, order, kind, change, j - 1);
    }
  }

  lemma OneExecutionMore(db: Db, order: seq<UploadId>, kind: Kind, change: ChangeType, j: nat)
    requires Distinct(order) && j < |order|
    ensures |LogUpTo(db, order, kind, change, j)|
            == (if j == 0 then 0 else |LogUpTo(db, order, kind, change, j - 1)|) + |Rows(db, order[j], kind, change)|
  {
    var keys := RowKeys(db, order[j], kind, change);
    forall u
      ensures u in Rows(db, order[j], kind, change) <==> EventKey(order[j], kind, u, change) in keys
    {
      RowIsLogged(db, order, kind, change, u, j);
    }
    SameSize(keys, Rows(db, order[j], kind, change), order[j], kind, change);
    if j > 0 {
      assert LogUpTo(db, order, kind, change, j - 1) !! keys;
    }
  }

  /** Nothing is missing from the account's log and nothing is in it twice: its length is the sum of all the counts. */
  lemma WholeLogIsCounted(db: Db, account: AccountId, kind: Kind, change: ChangeType)
    requires Sound(db)
    ensures var order := Timeline(db.uploads, account);
            |EventLog(db, account, kind, change)| == if order == [] then 0
              else Moved(db, order, kind, change, 0, |order| - 1)
  {
    hide Sound;
    hide EventLog;
    hide LogUpTo;
    hide Moved;
    hide Timeline;
    var order := Timeline(db.uploads, account);
    forall k
      ensures k in EventLog(db, account, kind, change) <==>
                order != [] && k in LogUpTo(db, order, kind, change, |order| - 1)
    {
      LoggedOrNot(db, account, order, kind, change, k);
    }
    if order == [] {
      assert EventLog(db, account, kind, change) == {};
    } else {
      assert EventLog(db, account, kind, change) == LogUpTo(db, order, kind, change, |order| - 1);
      LogLength(db, account, order, kind, change, |order| - 1);
    }
  }

  lemma LoggedOrNot(db: Db, account: AccountId, order: seq<UploadId>, kind: Kind, change: ChangeType, k: EventKey)
    requires Sound(db) && order == Timeline(db.uploads, account)
    ensures k in EventLog(db, account, kind, change)
            <==> order != [] && k in LogUpTo(db, order, kind, change, |order| - 1)
  {
    if k in EventLog(db, account, kind, change) {
      assert k.upload in order by {
        assert Consistent(db, account);
        assert k in KeysAt(db, order, k.upload);
      }
      RowsInLog(db, order, kind, change, Position(order, k.upload), |order| - 1);
      assert k in RowKeys(db, order[Position(order, k.upload)], kind, change);
    }
    if order != [] && k in LogUpTo(db, order, kind, change, |order| - 1) {
      RowsInLog(db, order, kind, change, 0, |order| - 1);
      var i :| 0 <= i <= |order| - 1 && order[i] == k.upload;
      assert order[i] in order;
      RowIsDerived(db, account, k);
    }
  }
}

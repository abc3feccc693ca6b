/**
 What the change rows of a sound store say about the people who left: every follower who left has one
 reason, drawn from the lists the two executions carried, and renames pair departures with arrivals.
 */
module Departures {
  import opened Schema
  import opened Snapshots
  import opened DateOrder
  import opened History
  import opened Operations
  import opened Statements

  /** A change row compares its execution with the one before it. */
  lemma RowOf(db: Db, k: EventKey)
    requires Sound(db) && k in db.changes
    ensures var e := db.changes[k]; var order := Timeline(db.uploads, e.account);
            && k.upload in order && Predecessor(order, k.upload) == Some(e.prev)
            && k.user in Changed(SnapshotOf(db, k.upload), SnapshotOf(db, e.prev), k.kind, k.change)
            && e == Row(e.account, e.prev, SnapshotOf(db, k.upload), SnapshotOf(db, e.prev), k)
  {
    var account := db.changes[k].account;
    assert Consistent(db, account);
    assert k in KeysAt(db, Timeline(db.uploads, account), k.upload);
    assert IsCompleted(db.uploads, account, k.upload);
    RowIsDerived(db, account, k);
  }

  /** The change rows of an execution are all those owed to its predecessor. */
  lemma RowsOf(db: Db, k: EventKey, other: EventKey)
    requires Sound(db) && k in db.changes && other.upload == k.upload
    ensures other in db.changes <==>
              other in EventKeys(k.upload, SnapshotOf(db, k.upload), SnapshotOf(db, db.changes[k].prev))
  {
    RowOf(db, k);
    RowIsDerived(db, db.changes[k].account, other);
  }

  /**
   Every departure from the follower list has exactly one reason and no other change has any.  A
   reason is what the tables bear out, tried in one order; nothing is concluded from a following
   list that either execution did not carry.
   */
  lemma DeparturesAreExplained(db: Db, k: EventKey)
    requires Sound(db) && k in db.changes
    ensures db.changes[k].reason.Some? <==> k.kind == Followers && k.change == Unfollowed
    ensures k.kind == Followers && k.change == Unfollowed ==>
              var e, id := db.changes[k], k.upload;
              var why := e.reason.value;
              var known := ListKey(id, Following) in db.lists && ListKey(e.prev, Following) in db.lists;
              var renamed, blocked := e.renamedTo.Some?, k.user in Names(db.members, id, Blocked);
              var now := k.user in Names(db.members, id, Following);
              var before := k.user in Names(db.members, e.prev, Following);
              && (why == Renamed <==> renamed)
              && (why == YouBlocked <==> !renamed && blocked)
              && (why == StillFollowed <==> !renamed && !blocked && known && now)
              && (why == Vanished <==> !renamed && !blocked && known && !now && before)
              && (why == Unknown <==> !renamed && !blocked && !(known && (now || before)))
  {
    RowOf(db, k);
    ListedIs(db, k.upload, Blocked, k.user);
    ListedIs(db, k.upload, Following, k.user);
    ListedIs(db, db.changes[k].prev, Following, k.user);
  }

  lemma ListedIs(db: Db, id: UploadId, kind: Kind, user: User)
    requires Sound(db)
    ensures kind in SnapshotOf(db, id) <==> ListKey(id, kind) in db.lists
    ensures kind in SnapshotOf(db, id) && user in SnapshotOf(db, id)[kind] <==> user in Names(db.members, id, kind)
  {
  }

  /**
   A departure is recorded as a rename to an arrival exactly when the arrival is recorded as a
   rename from it, and exactly when the two alone bear some known follow time.
   */
  lemma RenamesAreMutual(db: Db, left: EventKey, came: EventKey)
    requires Sound(db) && left in db.changes && came in db.changes && left.upload == came.upload
    requires left.kind == came.kind == Followers && left.change == Unfollowed && came.change == Followed
    ensures db.changes[left].renamedTo == Some(came.user) <==> db.changes[came].renamedFrom == Some(left.user)
    ensures var gone := DatedRows(db, left.upload, db.changes[left].prev, Unfollowed);
            var arrived := DatedRows(db, left.upload, left.upload, Followed);
            db.changes[left].renamedTo == Some(came.user) <==>
              exists t :: OnlyBearers(gone, arrived, left.user, came.user, t)
  {
    var id, prev := left.upload, db.changes[left].prev;
    var cur, was := SnapshotOf(db, id), SnapshotOf(db, prev);
    RowOf(db, left);
    RowOf(db, came);
    SameAccount(db, left, came);
    RenamesInverse(cur, was, left.user, came.user);
    forall k: EventKey | k.upload == id
      ensures k in db.changes <==> k in EventKeys(id, cur, was)
    {
      RowsOf(db, left, k);
    }
    forall t
      ensures OnlyBearers(DatedRows(db, id, prev, Unfollowed), DatedRows(db, id, id, Followed), left.user, came.user, t)
              <==> PairedAt(cur, was, left.user, came.user, t)
    {
      PairedQuery(db, id, prev, left.user, came.user, t);
    }
  }

  lemma SameAccount(db: Db, a: EventKey, b: EventKey)
    requires Sound(db) && a in db.changes && b in db.changes && a.upload == b.upload
    ensures db.changes[a].account == db.changes[b].account && db.changes[a].prev == db.changes[b].prev
  {
    RowOf(db, a);
    RowOf(db, b);
  }

  /** Whoever a departure is recorded as renamed to did arrive in the same execution. */
  lemma RenamedArrived(db: Db, left: EventKey)
    requires Sound(db) && left in db.changes && db.changes[left].renamedTo.Some?
    ensures var came := EventKey(left.upload, Followers, db.changes[left].renamedTo.value, Followed);
            && left.kind == Followers && left.change == Unfollowed
            && came in db.changes && db.changes[came].renamedFrom == Some(left.user)
  {
    RowOf(db, left);
    var cur, was := SnapshotOf(db, left.upload), SnapshotOf(db, db.changes[left].prev);
    var to := db.changes[left].renamedTo.value;
    var t :| PairedAt(cur, was, left.user, to, t);
    var came := EventKey(left.upload, Followers, to, Followed);
    RowsOf(db, left, came);
    RenamesAreMutual(db, left, came);
  }
}

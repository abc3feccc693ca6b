/**
 The store: four tables, updated in place.

 Every method that runs one statement says what that statement does to the tables; the methods that
 run several are proved against the functions of `Operations`, whose properties are proved there and
 in the theorem modules.
 */
module Store {
  import opened Schema
  import opened Snapshots
  import opened DateOrder
  import opened History
  import S = Statements
  import Op = Operations
  import A = Admission
  import B = Buckets
  import Text

  /** The kinds in the order the database sorts their names. */
  const ALPHABETICAL: seq<Kind> := [
    Blocked, CloseFriends, Favourited, Followers, Following,
    PendingRequests, RecentRequests, RecentlyUnfollowed, RemovedSuggestions, Restricted]

  lemma AlphabeticalIsComplete(kind: Kind)
    ensures kind in ALPHABETICAL
  {
    assert ALPHABETICAL[0] == Blocked && ALPHABETICAL[1] == CloseFriends && ALPHABETICAL[2] == Favourited;
    assert ALPHABETICAL[3] == Followers && ALPHABETICAL[4] == Following && ALPHABETICAL[5] == PendingRequests;
    assert ALPHABETICAL[6] == RecentRequests && ALPHABETICAL[7] == RecentlyUnfollowed;
    assert ALPHABETICAL[8] == RemovedSuggestions && ALPHABETICAL[9] == Restricted;
  }

  datatype Error = NotFound | RolledBack

  datatype Result<+T> = Ok(value: T) | Err(error: Error)

  /** The four buckets, each in order of name. */
  datatype NetDiff = NetDiff(lost: seq<User>, gained: seq<User>, returned: seq<User>, transient: seq<User>)

  datatype SnapshotResult = SnapshotResult(
    id: UploadId, sequenceNo: nat, prev: Option<UploadId>, totals: Totals, isBaseline: bool)

  class Store {
    var uploads: map<UploadId, Upload>
    var members: map<MemberKey, Option<Time>>
    var lists: map<ListKey, Totals>
    var changes: map<EventKey, Event>

    ghost function State(): Db
      reads this
    {
      Db(uploads, members, lists, changes)
    }

    constructor ()
      ensures State() == Db(map[], map[], map[], map[])
    {
      uploads, members, lists, changes := map[], map[], map[], map[];
    }

    /** Opens the tables as an earlier run, or an earlier version, left them. */
    constructor Open(db: Db)
      ensures State() == db
    {
      uploads, members, lists, changes := db.uploads, db.members, db.lists, db.changes;
    }

    // -------------------------------------------------------------- rebuilding

    /** The account's completed executions, read oldest first. */
    method ExecutionsInDateOrder(account: AccountId) returns (ordered: seq<UploadId>)
      ensures ordered == Timeline(uploads, account)
    {
      var rows := set id | id in uploads && IsCompleted(uploads, account, id);
      ghost var all := rows;
      ordered := [];
      while rows != {}
        invariant rows <= all <= uploads.Keys
        invariant Sorted(uploads, ordered)
        invariant forall id :: id in ordered <==> id in all && id !in rows
        invariant forall id, i | id in rows && 0 <= i < |ordered| ::
                    Before(uploads[ordered[i]], ordered[i], uploads[id], id)
      {
        ghost var least := LeastExists(uploads, rows);
        assert IsLeast(uploads, rows, least);
        var next :| next in rows && forall other | other in rows && other != next ::
              Before(uploads[next], next, uploads[other], other);
        ordered := ordered + [next];
        rows := rows - {next};
      }
      TimelineIs(uploads, account, ordered);
    }

    method ReleaseNumbers(account: AccountId)
      modifies `uploads
      ensures State() == S.ReleaseNumbers(old(State()), account)
    {
      uploads := map id | id in uploads ::
        if uploads[id].account == account then uploads[id].(sequenceNo := None) else uploads[id];
    }

    method DeleteChanges(account: AccountId)
      modifies `changes
      ensures State() == S.DeleteChanges(old(State()), account)
    {
      changes := map k | k in changes && changes[k].account != account :: changes[k];
    }

    /** Fails in the database if the account already uses the number, hence the requirement. */
    method AssignSequenceNo(id: UploadId, n: nat)
      requires id in uploads && SequenceIndex(uploads)
      requires forall other | other in uploads && other != id && uploads[other].account == uploads[id].account ::
                 uploads[other].sequenceNo != Some(n)
      modifies `uploads
      ensures SequenceIndex(uploads)
      ensures State() == S.Number(old(State()), id, n)
    {
      uploads := uploads[id := uploads[id].(sequenceNo := Some(n))];
    }

    method RefreshListCounts(id: UploadId)
      modifies `lists
      ensures State() == S.RefreshCounts(old(State()), id)
    {
      ghost var before := State();
      lists := map l | l in lists ::
        if l.upload == id then Totals(|ListOf(members, id, l.kind)|, 0, 0) else lists[l];
    }

    method SyncFollowerColumns(id: UploadId)
      requires id in uploads
      modifies `uploads
      ensures State() == S.Mirror(old(State()), id)
    {
      var l := ListKey(id, Followers);
      uploads := uploads[id := uploads[id].(totals := if l in lists then lists[l] else Totals(0, 0, 0))];
    }

    /** One side of the difference between two snapshots of one list, and how many rows it has. */
    method RecordChanges(account: AccountId, id: UploadId, prev: UploadId, kind: Kind, change: ChangeType)
      returns (affected: nat)
      requires forall u :: EventKey(id, kind, u, change) !in changes
      modifies `changes
      ensures State() == S.InsertChanges(old(State()), account, id, prev, kind, change)
      ensures affected == |S.ChangedRows(old(State()), id, prev, kind, change)|
    {
      var presentIn, absentFrom := id, prev;
      if change == Unfollowed {
        presentIn, absentFrom := prev, id;
      }
      var users := S.Difference(Db(uploads, members, lists, changes), presentIn, absentFrom, kind);
      var rows := map k | k in S.ChangeKeys(id, kind, change, users) :: Event(account, prev, None, None, None);
      changes := changes + rows;
      affected := |users|;
    }

    method UpdateListCounts(id: UploadId, kind: Kind, added: nat, removed: nat)
      requires ListKey(id, kind) in lists
      modifies `lists
      ensures State() == S.SetCounts(old(State()), ListKey(id, kind), added, removed)
    {
      lists := lists[ListKey(id, kind) := lists[ListKey(id, kind)].(added := added, removed := removed)];
    }

    /** The kinds both executions carried, by name. */
    method SharedKinds(id: UploadId, prev: UploadId) returns (kinds: seq<Kind>)
      ensures forall kind :: kind in kinds <==> ListKey(id, kind) in lists && ListKey(prev, kind) in lists
      ensures forall i, j | 0 <= i < j < |kinds| :: kinds[i] != kinds[j]
    {
      kinds := [];
      for i := 0 to |ALPHABETICAL|
        invariant forall kind :: kind in kinds <==>
                    kind in ALPHABETICAL[..i] && ListKey(id, kind) in lists && ListKey(prev, kind) in lists
        invariant forall j, k | 0 <= j < k < |kinds| :: kinds[j] != kinds[k]
      {
        var kind := ALPHABETICAL[i];
        assert kind !in ALPHABETICAL[..i];
        if ListKey(id, kind) in lists && ListKey(prev, kind) in lists {
          kinds := kinds + [kind];
        }
      }
      assert ALPHABETICAL[..|ALPHABETICAL|] == ALPHABETICAL;
      forall kind
        ensures kind in ALPHABETICAL
      {
        AlphabeticalIsComplete(kind);
      }
    }

    // -------------------------------------------------------------- departures

    /** Whether the list is registered for the upload, with however many members. */
    function Recorded(id: UploadId, kind: Kind): bool
      reads this
    {
      ListKey(id, kind) in lists
    }

    /** The names one list of an execution holds. */
    function MembersOf(id: UploadId, kind: Kind): set<User>
      reads this
    {
      Names(members, id, kind)
    }

    function BothRecorded(id: UploadId, prev: UploadId, kind: Kind): bool
      reads this
    {
      ListKey(id, kind) in lists && ListKey(prev, kind) in lists
    }

    /** The pairs of names the rename query returns, in the order it returned them. */
    method PairRenames(id: UploadId, prev: UploadId) returns (pairs: seq<(User, User)>)
      requires forall k: EventKey | k.upload == id ::
                 k in changes <==> k in EventKeys(id, SnapshotOf(State(), id), SnapshotOf(State(), prev))
      ensures S.ListsRenames(pairs, SnapshotOf(State(), id), SnapshotOf(State(), prev))
    {
      var db := Db(uploads, members, lists, changes);
      var gone := S.DatedRows(db, id, prev, Unfollowed);
      var arrived := S.DatedRows(db, id, id, Followed);
      var rows := S.UniquePairs(gone, arrived);
      S.RenameQuery(db, id, prev);
      pairs := ReadPairs(rows);
    }

    /** The rows of a result set, read one after the other in whatever order they come. */
    method ReadPairs(result: set<(User, User)>) returns (pairs: seq<(User, User)>)
      ensures forall p :: p in pairs <==> p in result
      ensures forall i, j | 0 <= i < j < |pairs| :: pairs[i] != pairs[j]
    {
      var rows := result;
      pairs := [];
      while rows != {}
        invariant rows <= result
        invariant forall p :: p in pairs <==> p in result && p !in rows
        invariant forall i, j | 0 <= i < j < |pairs| :: pairs[i] != pairs[j]
      {
        var p :| p in rows;
        pairs := pairs + [p];
        rows := rows - {p};
      }
    }

    /** Both sides of each pair name the other. */
    method MarkRenames(id: UploadId, rows: seq<(User, User)>)
      modifies `changes
      ensures changes == S.AfterRenames(old(changes), id, rows)
    {
      for i := 0 to |rows|
        invariant changes == S.AfterRenames(old(changes), id, rows[..i])
      {
        S.AfterOneMore(old(changes), id, rows, i);
        changes := S.MarkRenamedTo(changes, id, rows[i].0, rows[i].1);
        changes := S.MarkRenamedFrom(changes, id, rows[i].0, rows[i].1);
      }
      assert rows[..|rows|] == rows;
    }

    method ClassifyRenames(id: UploadId, prev: UploadId) returns (ghost pairs: seq<(User, User)>)
      requires forall k: EventKey | k.upload == id ::
                 k in changes <==> k in EventKeys(id, SnapshotOf(State(), id), SnapshotOf(State(), prev))
      modifies `changes
      ensures S.ListsRenames(pairs, SnapshotOf(old(State()), id), SnapshotOf(old(State()), prev))
      ensures changes == S.AfterRenames(old(changes), id, pairs)
    {
      var rows := PairRenames(id, prev);
      pairs := rows;
      MarkRenames(id, rows);
    }

    /** The departures no rename explains, settled against the other lists. */
    method SettleDepartures(id: UploadId, prev: UploadId)
      modifies `changes
      ensures changes == S.Cascade(old(changes), id, SnapshotOf(old(State()), id), SnapshotOf(old(State()), prev))
    {
      ghost var cur, before := SnapshotOf(State(), id), SnapshotOf(State(), prev);
      if Recorded(id, Blocked) {
        changes := S.Settle(changes, id, MembersOf(id, Blocked), YouBlocked);
      }
      if BothRecorded(id, prev, Following) {
        changes := S.Settle(changes, id, MembersOf(id, Following), StillFollowed);
        changes := S.Settle(changes, id, MembersOf(prev, Following) - MembersOf(id, Following), Vanished);
      }
      changes := S.SettleRest(changes, id, Unknown);
    }

    /** Fills in why everybody who left the follower list between two executions left it. */
    method ClassifyDepartures(id: UploadId, prev: UploadId) returns (ghost pairs: seq<(User, User)>)
      requires forall k: EventKey | k.upload == id ::
                 k in changes <==> k in EventKeys(id, SnapshotOf(State(), id), SnapshotOf(State(), prev))
      modifies `changes
      ensures S.ListsRenames(pairs, SnapshotOf(old(State()), id), SnapshotOf(old(State()), prev))
      ensures changes == S.Cascade(S.AfterRenames(old(changes), id, pairs), id, SnapshotOf(old(State()), id),
              SnapshotOf(old(State()), prev))
      ensures forall account | S.Unclassified(old(changes), account, id, prev, SnapshotOf(old(State()), id),
              SnapshotOf(old(State()), prev)) ::
                S.Classified(old(changes), changes, account, id, prev, SnapshotOf(old(State()), id),
                  SnapshotOf(old(State()), prev))
    {
      ghost var before := State();
      pairs := ClassifyRenames(id, prev);
      SnapshotsAgree(State(), before, id);
      SnapshotsAgree(State(), before, prev);
      SettleDepartures(id, prev);
      hide S.Cascade;
      hide S.AfterRenames;
      hide S.ListsRenames;
      hide S.Unclassified;
      forall account | S.Unclassified(before.changes, account, id, prev, SnapshotOf(before, id),
        SnapshotOf(before, prev)) {
        S.AllClassified(before.changes, account, id, prev, SnapshotOf(before, id), SnapshotOf(before, prev), pairs);
      }
    }

    // -------------------------------------------------------------- one pair of executions

    /** Both directions of one list, and their counts. */
    method CompareOneList(account: AccountId, id: UploadId, prev: UploadId, kind: Kind)
      requires ListKey(id, kind) in lists
      requires forall u, change :: EventKey(id, kind, u, change) !in changes
      modifies `changes, `lists
      ensures State() == S.CompareKind(old(State()), account, id, prev, kind)
    {
      ghost var before := State();
      var added := RecordChanges(account, id, prev, kind, Followed);
      var removed := RecordChanges(account, id, prev, kind, Unfollowed);
      assert removed == |S.ChangedRows(before, id, prev, kind, Unfollowed)|;
      UpdateListCounts(id, kind, added, removed);
    }

    /** The lists an execution shares with the one before it, each compared in turn. */
    method CompareSharedLists(account: AccountId, id: UploadId, prev: UploadId) returns (kinds: seq<Kind>)
      requires forall k | k in changes :: k.upload != id
      modifies `changes, `lists
      ensures forall kind :: kind in kinds <==> ListKey(id, kind) in old(lists) && ListKey(prev, kind) in old(lists)
      ensures State() == S.CompareKinds(old(State()), account, id, prev, kinds)
    {
      ghost var before := State();
      kinds := SharedKinds(id, prev);
      for i := 0 to |kinds|
        invariant State() == S.CompareKinds(before, account, id, prev, kinds[..i])
      {
        S.NotYetCompared(before, account, id, prev, kinds, i);
        S.CompareOneMore(before, account, id, prev, kinds, i);
        CompareOneList(account, id, prev, kinds[i]);
      }
      assert kinds[..|kinds|] == kinds;
    }

    /** Everything execution `id` owes to the one before it. */
    method RecomputeListsBetween(account: AccountId, id: UploadId, prev: UploadId)
      requires forall k | k in changes :: k.upload != id
      modifies `changes, `lists
      ensures State() == S.Compare(old(State()), account, id, prev)
    {
      ghost var before := State();
      var kinds := CompareSharedLists(account, id, prev);
      S.CompareKindsRows(before, account, id, prev, kinds);
      S.ComparedUnclassified(before, State(), account, id, prev, kinds);
      S.ComparedKeepsSnapshots(before, State(), account, id, prev, kinds);
      ghost var compared := State();
      ghost var pairs := ClassifyDepartures(id, prev);
      S.CompareRefines(before, account, id, prev, kinds, pairs);
      assert State() == compared.(changes := changes);
    }

    // -------------------------------------------------------------- the whole account

    /**
     Writes an account's numbers, counts and change rows afresh, one execution after the other by date.
     No statement on the way breaks the uniqueness of sequence numbers.
     */
    method RecomputeAccount(account: AccountId)
      requires WellFormed(State())
      modifies this
      ensures State() == Recomputed(old(State()), account)
      ensures WellFormed(State())
    {
      hide Rebuilt;
      hide S.Turn;
      ghost var before := State();
      var ordered := ExecutionsInDateOrder(account);
      SortedDistinct(uploads, ordered);
      ReleaseNumbers(account);
      DeleteChanges(account);
      S.RebuildStart(before, account);
      for i := 0 to |ordered|
        invariant State() == Rebuilt(before, account, ordered[..i])
        invariant SequenceIndex(uploads)
      {
        S.TurnIsFree(before, account, ordered, i);
        S.TurnRebuilds(before, account, ordered, i);
        RecomputeExecution(account, ordered[i], i + 1, if i == 0 then None else Some(ordered[i - 1]));
      }
      assert ordered[..|ordered|] == ordered;
      RecomputedWellFormed(before, account);
    }

    /** One turn of the loop above. */
    method RecomputeExecution(account: AccountId, id: UploadId, n: nat, prev: Option<UploadId>)
      requires id in uploads && uploads[id].account == account && SequenceIndex(uploads)
      requires forall other | other in uploads && other != id && uploads[other].account == account ::
                 uploads[other].sequenceNo != Some(n)
      requires forall k | k in changes :: k.upload != id
      modifies this
      ensures State() == S.Turn(old(State()), account, id, n, prev)
      ensures SequenceIndex(uploads)
    {
      AssignSequenceNo(id, n);
      RefreshListCounts(id);
      if prev.None? {
        SyncFollowerColumns(id);
        return;
      }
      RecomputeListsBetween(account, id, prev.value);
      SyncFollowerColumns(id);
    }

    // -------------------------------------------------------------- transactions

    /**
     Replaces the lists of an upload by those of its export, completes it and rebuilds its account.
     `commits` is whether the database carries the transaction through; when it does not, nothing
     of it remains.
     */
    method ApplySnapshot(id: UploadId, snapshots: seq<ListSnapshot>, takenAt: Time, source: Source, commits: bool)
      returns (r: Result<SnapshotResult>)
      requires WellFormed(State())
      modifies this
      ensures WellFormed(State())
      ensures r.Ok? <==> id in old(uploads) && commits
      ensures id !in old(uploads) ==> r == Err(NotFound)
      ensures r.Err? ==> State() == old(State())
      ensures r.Ok? ==> State() == Op.Applied(old(State()), id, Op.Incoming(snapshots), takenAt, source)
      ensures r.Ok? ==> forall account :: Consistent(State(), account)
                          <==> account == old(uploads)[id].account || Consistent(old(State()), account)
      ensures r.Ok? ==> Op.PutAt(old(State()), State(), id, Completed, takenAt, source)
      ensures r.Ok? ==> SnapshotOf(State(), id) == Op.Incoming(snapshots)
      ensures r.Ok? ==> forall x | x != id :: SnapshotOf(State(), x) == SnapshotOf(old(State()), x)
      ensures r.Ok? ==> Reported(State(), id, r.value)
    {
      if id !in uploads {
        return Err(NotFound);
      }
      ghost var before := State();
      var begun := Db(uploads, members, lists, changes);
      RecordExecution(id, snapshots, takenAt, source);
      Op.AppliedWellFormed(before, id, Op.Incoming(snapshots), takenAt, source);
      forall account {
        Op.AppliedConsistency(before, id, Op.Incoming(snapshots), takenAt, source, account);
      }
      Op.AppliedPutsAt(before, id, Op.Incoming(snapshots), takenAt, source);
      Op.AppliedSnapshots(before, id, Op.Incoming(snapshots), takenAt, source);
      var result := Reload(id);
      if !commits {
        Rollback(begun);
        return Err(RolledBack);
      }
      return Ok(result);
    }

    /** The statements of the transaction: replace the lists, complete the upload, rebuild the account. */
    method RecordExecution(id: UploadId, snapshots: seq<ListSnapshot>, takenAt: Time, source: Source)
      requires WellFormed(State()) && id in uploads
      modifies this
      ensures State() == Op.Applied(old(State()), id, Op.Incoming(snapshots), takenAt, source)
      ensures id in uploads && uploads[id].status == Completed
    {
      ghost var before := State();
      var account := uploads[id].account;
      ReplaceLists(id, snapshots);
      uploads := uploads[id := uploads[id].(status := Completed, takenAt := Some(takenAt), source := source)];
      Op.ReplacedWellFormed(before, id, Op.Incoming(snapshots), takenAt, source);
      assert State() == Op.Replaced(before, id, Op.Incoming(snapshots), takenAt, source);
      RecomputeAccount(account);
    }

    /** Clears what an earlier attempt recorded, then records every list. */
    method ReplaceLists(id: UploadId, snapshots: seq<ListSnapshot>)
      modifies `members, `lists
      ensures members == Op.RecordedMembers(old(members), id, Op.Incoming(snapshots))
      ensures lists == Op.RecordedLists(old(lists), id, Op.Incoming(snapshots))
    {
      ghost var before := State();
      members := map m | m in members && m.upload != id :: members[m];
      lists := map l | l in lists && l.upload != id :: lists[l];
      Op.RecordedCleared(before.members, before.lists, id);
      for i := 0 to |snapshots|
        invariant members == Op.RecordedMembers(before.members, id, Op.Incoming(snapshots[..i]))
        invariant lists == Op.RecordedLists(before.lists, id, Op.Incoming(snapshots[..i]))
      {
        RecordOneList(id, snapshots, i, before);
      }
      assert snapshots[..|snapshots|] == snapshots;
    }

    /** The members of one list, then the list itself, so that an empty one is registered too. */
    method RecordOneList(id: UploadId, snapshots: seq<ListSnapshot>, i: nat, ghost before: Db)
      requires i < |snapshots|
      requires members == Op.RecordedMembers(before.members, id, Op.Incoming(snapshots[..i]))
      requires lists == Op.RecordedLists(before.lists, id, Op.Incoming(snapshots[..i]))
      modifies `members, `lists
      ensures members == Op.RecordedMembers(before.members, id, Op.Incoming(snapshots[..i + 1]))
      ensures lists == Op.RecordedLists(before.lists, id, Op.Incoming(snapshots[..i + 1]))
    {
      var list := snapshots[i];
      Op.RecordBegun(before.members, id, snapshots, i);
      for j := 0 to |list.members|
        invariant members == Op.RecordedMembers(before.members, id, Op.Partly(snapshots, i, j))
        invariant lists == old(lists)
      {
        Op.RecordEntry(before.members, id, snapshots, i, j);
        var k := MemberKey(id, list.kind, list.members[j].username);
        if k !in members {
          members := members[k := list.members[j].followedAt];
        }
      }
      Op.PartlyDone(snapshots, i);
      Op.RecordList(before.lists, id, snapshots, i);
      if ListKey(id, list.kind) !in lists {
        lists := lists[ListKey(id, list.kind) := Totals(0, 0, 0)];
      }
    }

    method Rollback(begun: Db)
      modifies this
      ensures State() == begun
    {
      uploads, members, lists, changes := begun.uploads, begun.members, begun.lists, begun.changes;
    }

    /** What the rebuilt rows of `id` say, read back before committing. */
    method Reload(id: UploadId) returns (result: SnapshotResult)
      requires WellFormed(State()) && id in uploads && uploads[id].status == Completed
      requires Consistent(State(), uploads[id].account)
      ensures Reported(State(), id, result)
    {
      Op.NumberedInAccount(State(), id);
      var prev := PreviousUpload(id);
      var n := uploads[id].sequenceNo.value;
      result := SnapshotResult(id, n, prev, uploads[id].totals, n == 1);
    }

    /** The predecessor as any change row of `id` names it. */
    method PreviousUpload(id: UploadId) returns (prev: Option<UploadId>)
      requires WellFormed(State()) && id in uploads && uploads[id].status == Completed
      requires Consistent(State(), uploads[id].account)
      ensures var order := Timeline(uploads, uploads[id].account);
              prev == if KeysAt(State(), order, id) == {} then None else Predecessor(order, id)
    {
      Op.RowsNamePredecessor(State(), id);
      var rows := set k | k in changes && k.upload == id;
      assert forall k | k in changes && k.upload == id :: k in rows;
      if rows == {} {
        return None;
      }
      var k :| k in rows;
      return Some(changes[k].prev);
    }

    /** Gives an execution another date and rebuilds its account. */
    method SetSnapshotDate(id: UploadId, takenAt: Time, source: Source, commits: bool) returns (r: Result<()>)
      requires WellFormed(State())
      modifies this
      ensures WellFormed(State())
      ensures r.Ok? <==> id in old(uploads) && commits
      ensures id !in old(uploads) ==> r == Err(NotFound)
      ensures r.Err? ==> State() == old(State())
      ensures r.Ok? ==> State() == Op.Redated(old(State()), id, takenAt, source)
      ensures r.Ok? ==> Op.PutAt(old(State()), State(), id, old(uploads)[id].status, takenAt, source)
      ensures r.Ok? ==> members == old(members) && lists.Keys == old(lists.Keys)
      ensures r.Ok? ==> forall account :: Consistent(State(), account)
                          <==> account == old(uploads)[id].account || Consistent(old(State()), account)
    {
      if id !in uploads {
        return Err(NotFound);
      }
      ghost var before := State();
      var begun := Db(uploads, members, lists, changes);
      var account := uploads[id].account;
      uploads := uploads[id := uploads[id].(takenAt := Some(takenAt), source := source)];
      RecomputeAccount(account);
      Op.RedatedWellFormed(before, id, takenAt, source);
      forall other {
        Op.RedatedConsistency(before, id, takenAt, source, other);
      }
      Op.RedatedPutsAt(before, id, takenAt, source);
      Op.RedatedWrites(before, id, takenAt, source);
      if !commits {
        Rollback(begun);
        return Err(RolledBack);
      }
      return Ok(());
    }

    // -------------------------------------------------------------- the queues

    /** The id of the row with the least time, the smaller id winning a tie. */
    static method Oldest(rows: map<UploadId, Time>) returns (id: Option<UploadId>)
      ensures id.None? <==> rows == map[]
      ensures id.Some? ==> Op.IsOldest(rows, id.value)
    {
      id := None;
      var rest := rows.Keys;
      while rest != {}
        invariant rest <= rows.Keys
        invariant id.None? <==> rest == rows.Keys
        invariant id.Some? ==> id.value in rows && id.value !in rest
                               && forall x | x in rows && x !in rest && x != id.value :: Op.Older(rows, id.value, x)
      {
        var row :| row in rest;
        if id.None? || Op.Older(rows, row, id.value) {
          id := Some(row);
        }
        rest := rest - {row};
      }
      assert rows.Keys == {} <==> rows == map[];
    }

    /** Records a received file as pending work under an id never used before. */
    method CreateUpload(id: UploadId, up: Upload)
      requires id !in uploads && Op.IsNewUpload(up)
      modifies `uploads
      ensures State() == Op.Created(old(State()), id, up)
      ensures uploads == old(uploads)[id := up]
    {
      uploads := uploads[id := up];
    }

    /** Moves the oldest pending upload into processing. */
    method ClaimNextPending() returns (id: Option<UploadId>)
      modifies `uploads
      ensures id.None? ==> State() == old(State()) && forall x | x in uploads :: uploads[x].status != Pending
      ensures id.Some? ==> id.value in old(uploads) && Op.IsOldest(Op.PendingTimes(old(State())), id.value)
                           && State() == Op.SetStatus(old(State()), id.value, Processing)
      ensures id.Some? ==>
                var up := old(uploads)[id.value];
                && up.status == Pending && uploads == old(uploads)[id.value := up.(status := Processing)]
                && forall x | x in uploads && uploads[x].status == Pending ::
                     up.uploadedAt < uploads[x].uploadedAt
                     || (up.uploadedAt == uploads[x].uploadedAt && id.value.n < x.n)
    {
      id := Oldest(Op.PendingTimes(Db(uploads, members, lists, changes)));
      if id.Some? {
        assert forall x | x in uploads && uploads[x].status == Pending && x != id.value ::
                 Op.Older(Op.PendingTimes(State()), id.value, x);
        uploads := uploads[id.value := uploads[id.value].(status := Processing)];
      } else {
        assert forall x | x in uploads && uploads[x].status == Pending :: x in Op.PendingTimes(State());
      }
    }

    /** Puts whatever is in processing back among the pending. */
    method RequeueProcessing() returns (affected: nat)
      modifies `uploads
      ensures State() == Op.Requeued(old(State()))
      ensures uploads.Keys == old(uploads).Keys
      ensures forall x | x in uploads ::
                uploads[x] == if old(uploads)[x].status == Processing then old(uploads)[x].(status := Pending)
                              else old(uploads)[x]
      ensures affected == |set x | x in old(uploads) && old(uploads)[x].status == Processing|
    {
      affected := |set x | x in uploads && uploads[x].status == Processing|;
      uploads := map x | x in uploads ::
        if uploads[x].status == Processing then uploads[x].(status := Pending) else uploads[x];
    }

    /** Marks an upload failed.  The statement itself would do so to any upload, completed or not. */
    method FailUpload(id: UploadId)
      modifies `uploads
      ensures State() == if id in old(uploads) then Op.SetStatus(old(State()), id, Failed) else old(State())
    {
      if id in uploads {
        uploads := uploads[id := uploads[id].(status := Failed)];
      }
    }

    method MarkForReprocess(account: AccountId, now: Time) returns (affected: nat)
      modifies `uploads
      ensures State() == Op.Marked(old(State()), account, now)
      ensures uploads.Keys == old(uploads).Keys
      ensures forall x | x in uploads ::
                var up := old(uploads)[x];
                uploads[x] == if up.account == account && up.status == Completed && up.reprocessAt.None?
                              then up.(reprocessAt := Some(now)) else up
      ensures affected == |set x | x in old(uploads) && IsCompleted(old(uploads), account, x)
              && old(uploads)[x].reprocessAt.None?|
    {
      affected := |set x | x in uploads && IsCompleted(uploads, account, x) && uploads[x].reprocessAt.None?|;
      uploads := map x | x in uploads ::
        if IsCompleted(uploads, account, x) && uploads[x].reprocessAt.None? then uploads[x].(reprocessAt := Some(now))
          else uploads[x];
    }

    /** The flagged execution whose turn it is; its status and data are left as they are. */
    method ClaimNextReprocess() returns (id: Option<UploadId>)
      ensures id.None? ==> forall x | x in uploads && uploads[x].status == Completed :: uploads[x].reprocessAt.None?
      ensures id.Some? ==> Op.IsOldest(Op.FlaggedTimes(State()), id.value)
      ensures id.Some? ==>
                && id.value in uploads && uploads[id.value].status == Completed
                && uploads[id.value].reprocessAt.Some?
                && forall x | x in uploads && x != id.value && uploads[x].status == Completed
                     && uploads[x].reprocessAt.Some? ::
                     FlaggedSooner(uploads[id.value].reprocessAt.value, id.value, uploads[x].reprocessAt.value, x)
    {
      id := Oldest(Op.FlaggedTimes(Db(uploads, members, lists, changes)));
      assert forall x | x in uploads && uploads[x].status == Completed && uploads[x].reprocessAt.Some? ::
               x in Op.FlaggedTimes(State());
      assert id.Some? ==> forall x | x in Op.FlaggedTimes(State()) && x != id.value ::
                            Op.Older(Op.FlaggedTimes(State()), id.value, x);
    }

    method FinishReprocess(id: UploadId)
      modifies `uploads
      ensures State() == Op.Unmarked(old(State()), id)
      ensures uploads == if id in old(uploads) then old(uploads)[id := old(uploads)[id].(reprocessAt := None)]
                         else old(uploads)
    {
      if id in uploads {
        uploads := uploads[id := uploads[id].(reprocessAt := None)];
      }
    }

    /** Completed executions whose date is only the order they were processed in, by id. */
    method UploadsWithUnknownSnapshotDate() returns (ids: seq<UploadId>)
      ensures forall x :: x in ids <==>
                x in uploads && uploads[x].status == Completed && uploads[x].source == ProcessingOrder
      ensures forall i, j | 0 <= i < j < |ids| :: ids[i].n < ids[j].n
    {
      var rows := map x | x in uploads && uploads[x].status == Completed && uploads[x].source == ProcessingOrder :: 0;
      ghost var all := rows;
      ids := [];
      while rows != map[]
        invariant rows.Keys <= all.Keys && forall x | x in rows :: rows[x] == 0
        invariant forall x :: x in ids <==> x in all && x !in rows
        invariant forall x, i | x in rows && 0 <= i < |ids| :: ids[i].n < x.n
        invariant forall i, j | 0 <= i < j < |ids| :: ids[i].n < ids[j].n
        decreases rows.Keys
      {
        var next := Oldest(rows);
        ids := ids + [next.value];
        rows := rows - {next.value};
      }
    }

    // -------------------------------------------------------------- reading

    /** The execution immediately before a date, in date order. */
    method PrecedingCompletedUpload(account: AccountId, takenAt: Time, exclude: UploadId) returns (p: Option<UploadId>)
      ensures A.IsPreceding(State(), account, takenAt, exclude, p)
    {
      var rest := set x | x in uploads
          && A.Candidate(Db(uploads, members, lists, changes), account, takenAt, exclude, x);
      ghost var all := rest;
      assert forall x | A.Candidate(State(), account, takenAt, exclude, x) :: x in all;
      p := None;
      while rest != {}
        invariant rest <= all
        invariant p.None? <==> rest == all
        invariant p.Some? ==> p.value in all && p.value !in rest
                              && forall x | x in all && x !in rest && x != p.value ::
                                   Before(uploads[x], x, uploads[p.value], p.value)
      {
        var row :| row in rest;
        if p.None? || Before(uploads[p.value], p.value, uploads[row], row) {
          p := Some(row);
        }
        rest := rest - {row};
      }
    }

    /** The account's first or last completed execution, by sequence number. */
    method BoundaryUpload(account: AccountId, last: bool) returns (id: Option<UploadId>)
      ensures Op.IsBoundary(State(), account, last, id)
      ensures var order := Timeline(uploads, account);
              Op.Numbered(State(), account) ==>
                id == if order == [] then None else Some(if last then order[|order| - 1] else order[0])
    {
      var rows := map x | x in uploads && IsCompleted(uploads, account, x) :: Op.NumberKey(uploads[x], last);
      id := Oldest(rows);
      assert forall x | IsCompleted(uploads, account, x) :: x in rows;
      if Op.Numbered(State(), account) {
        Op.BoundaryIs(State(), account, last, id);
      }
    }

    /** Everybody in the account's latest execution. */
    method CurrentFollowers(account: AccountId) returns (names: seq<User>)
      ensures Text.Increasing(names)
      ensures exists latest :: Op.IsBoundary(State(), account, true, latest)
                               && forall u :: u in names <==>
                                    latest.Some? && MemberKey(latest.value, Followers, u) in members
      ensures var order := Timeline(uploads, account);
              Op.Numbered(State(), account) ==>
                forall u :: u in names <==> order != [] && MemberKey(order[|order| - 1], Followers, u) in members
    {
      var latest := BoundaryUpload(account, true);
      if latest.None? {
        return [];
      }
      names := Text.OrderByName(MembersOf(latest.value, Followers));
    }

    /** Splits two executions of one account into the four buckets. */
    method Diff(account: AccountId, from: UploadId, to: UploadId, kind: Kind) returns (diff: Option<NetDiff>)
      requires from in uploads && to in uploads
      ensures diff.None? <==> uploads[from].sequenceNo.None? || uploads[to].sequenceNo.None?
      ensures diff.Some? ==>
                var lo, hi := uploads[from].sequenceNo.value, uploads[to].sequenceNo.value;
                && Lists(diff.value.lost, B.Lost(State(), from, to, kind))
                && Lists(diff.value.gained, B.Gained(State(), from, to, kind))
                && Lists(diff.value.returned, B.Returned(State(), account, from, to, kind, lo, hi))
                && Lists(diff.value.transient, B.Transient(State(), account, from, to, kind, lo, hi))
    {
      var db := Db(uploads, members, lists, changes);
      if uploads[from].sequenceNo.None? || uploads[to].sequenceNo.None? {
        return None;
      }
      var lo, hi := uploads[from].sequenceNo.value, uploads[to].sequenceNo.value;
      var lost := Text.OrderByName(B.Lost(db, from, to, kind));
      var gained := Text.OrderByName(B.Gained(db, from, to, kind));
      var returned := Text.OrderByName(B.Returned(db, account, from, to, kind, lo, hi));
      var transient := Text.OrderByName(B.Transient(db, account, from, to, kind, lo, hi));
      return Some(NetDiff(lost, gained, returned, transient));
    }
  }

  /** Flagged at an earlier time, or at the same one under a smaller id. */
  predicate FlaggedSooner(a: Time, x: UploadId, b: Time, y: UploadId) {
    a < b || (a == b && x.n < y.n)
  }

  /** `names` is the set `s` in order of name. */
  ghost predicate Lists(names: seq<User>, s: set<User>) {
    Text.Increasing(names) && forall u :: u in names <==> u in s
  }

  /**
   What recording an execution reports: its place, its follower numbers, and the execution it was
   compared against, which is named only when the comparison recorded a change.
   */
  ghost predicate Reported(db: Db, id: UploadId, r: SnapshotResult) {
    id in db.uploads &&
    var order := Timeline(db.uploads, db.uploads[id].account);
    && id in order
    && db.uploads[id].sequenceNo == Some(r.sequenceNo) && db.uploads[id].totals == r.totals
    && (r.isBaseline <==> r.sequenceNo == 1)
    && (r.prev.None? ==> forall k | k in db.changes :: k.upload != id)
    && (r.prev.Some? ==> exists k | k in db.changes :: k.upload == id && db.changes[k].prev == r.prev.value)
    && r.id == id && r.sequenceNo == Position(order, id) + 1
    && r.totals == FollowerTally(SnapshotOf(db, id), PrevSnapshot(db, order, id))
    && (r.isBaseline <==> order[0] == id)
    && r.prev == if KeysAt(db, order, id) == {} then None else Predecessor(order, id)
  }
}

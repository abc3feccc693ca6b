/**
 Histories and runs that exist: every sequence of snapshots is the history of some store reached from
 the empty one, and the failures the other modules speak of do happen.
 */
module Witnesses {
  import opened Schema
  import opened Snapshots
  import opened DateOrder
  import opened History
  import opened Operations
  import opened Buckets
  import opened Confluence
  import opened Admission
  import Gaps

  // ---------------------------------------------------------------- any history can happen

  function IdAt(i: nat): UploadId { UploadId(i + 1) }

  function Ids(n: nat): (ids: seq<UploadId>)
    ensures |ids| == n && forall i | 0 <= i < n :: ids[i] == IdAt(i)
  {
    seq(n, i requires 0 <= i < n => IdAt(i))
  }

  function Arrival(at: Time): Upload {
    Upload(0, Pending, at, None, Unset, None, None, false, None, None, Totals(0, 0, 0))
  }

  /** The store once one more execution has been accepted and recorded. */
  ghost function OneMore(db: Db, i: nat, snapshot: Snapshot): Db {
    Applied(Created(db, IdAt(i), Arrival(i)), IdAt(i), snapshot, i, Declared)
  }

  /** The store after executions with these lists have been accepted and recorded one by one, a day apart. */
  ghost function Built(snapshots: seq<Snapshot>): Db {
    if snapshots == [] then Db(map[], map[], map[], map[])
    else
      var i := |snapshots| - 1;
      OneMore(Built(snapshots[..i]), i, snapshots[i])
  }

  function Calls(snapshots: seq<Snapshot>): seq<Call> {
    if snapshots == [] then []
    else
      var i := |snapshots| - 1;
      Calls(snapshots[..i]) + [Accept(IdAt(i), Arrival(i)), Apply(IdAt(i), snapshots[i], i, Declared)]
  }

  ghost predicate Holds(db: Db, snapshots: seq<Snapshot>) {
    && Sound(db)
    && (forall id :: id in db.uploads <==> 1 <= id.n <= |snapshots|)
    && (forall i: nat | i < |snapshots| :: PlacedAt(db, i) && SnapshotOf(db, IdAt(i)) == snapshots[i])
  }

  ghost predicate PlacedAt(db: Db, i: nat) {
    && IsCompleted(db.uploads, 0, IdAt(i)) && db.uploads[IdAt(i)].takenAt == Some(i)
    && db.uploads[IdAt(i)].uploadedAt == i
  }

  lemma OneMoreSound(db: Db, i: nat, snapshot: Snapshot)
    requires Sound(db) && IdAt(i) !in db.uploads
    ensures Sound(OneMore(db, i, snapshot))
  {
    hide Sound;
    CreatedSound(db, IdAt(i), Arrival(i));
    AppliedSound(Created(db, IdAt(i), Arrival(i)), IdAt(i), snapshot, i, Declared);
  }

  lemma OneMoreUploads(db: Db, i: nat, snapshot: Snapshot, j: nat)
    requires IdAt(i) !in db.uploads && j <= i && (j < i ==> PlacedAt(db, j))
    ensures var e := OneMore(db, i, snapshot);
            && e.uploads.Keys == db.uploads.Keys + {IdAt(i)} && PlacedAt(e, j)
  {
    var c := Created(db, IdAt(i), Arrival(i));
    AppliedAccounts(c, IdAt(i), snapshot, i, Declared);
    AppliedPlaces(c, IdAt(i), snapshot, i, Declared);
    hide Applied;
  }

  lemma OneMoreSnapshots(db: Db, i: nat, snapshot: Snapshot, x: UploadId)
    requires IdAt(i) !in db.uploads
    ensures SnapshotOf(OneMore(db, i, snapshot), x) == if x == IdAt(i) then snapshot else SnapshotOf(db, x)
  {
    var c := Created(db, IdAt(i), Arrival(i));
    var p := Replaced(c, IdAt(i), snapshot, i, Declared);
    SnapshotsAgree(c, db, x);
    ReplacedSnapshots(c, IdAt(i), snapshot, i, Declared);
    RebuiltKeepsSnapshots(p, 0, Timeline(p.uploads, 0));
    hide Replaced;
    hide SnapshotOf;
  }

  lemma OneMoreExecution(db: Db, snapshots: seq<Snapshot>, snapshot: Snapshot)
    requires Holds(db, snapshots)
    ensures IdAt(|snapshots|) !in db.uploads
    ensures Holds(OneMore(db, |snapshots|, snapshot), snapshots + [snapshot])
  {
    hide Sound;
    hide OneMore;
    hide PlacedAt;
    hide SnapshotOf;
    var i := |snapshots|;
    OneMoreSound(db, i, snapshot);
    OneMoreUploads(db, i, snapshot, i);
    forall j: nat | j <= i
      ensures PlacedAt(OneMore(db, i, snapshot), j)
              && SnapshotOf(OneMore(db, i, snapshot), IdAt(j)) == (snapshots + [snapshot])[j]
    {
      OneMoreUploads(db, i, snapshot, j);
      OneMoreSnapshots(db, i, snapshot, IdAt(j));
    }
  }

  lemma OneMoreCall(run: seq<Call>, mid: Db, c: Call, db: Db)
    requires Leads(run, mid) && Follows(mid, c, db)
    ensures Leads(run + [c], db)
  {
    hide Follows;
    assert (run + [c])[..|run|] == run;
  }

  lemma TwoMoreCalls(run: seq<Call>, db: Db, i: nat, snapshot: Snapshot)
    requires Leads(run, db) && IdAt(i) !in db.uploads
    ensures Leads(run + [Accept(IdAt(i), Arrival(i)), Apply(IdAt(i), snapshot, i, Declared)], OneMore(db, i, snapshot))
  {
    hide Applied;
    hide Leads;
    var accept, apply := Accept(IdAt(i), Arrival(i)), Apply(IdAt(i), snapshot, i, Declared);
    var c := Created(db, IdAt(i), Arrival(i));
    OneMoreCall(run, db, accept, c);
    OneMoreCall(run + [accept], c, apply, OneMore(db, i, snapshot));
    assert run + [accept] + [apply] == run + [accept, apply];
  }

  lemma NothingYet()
    ensures Leads([], Db(map[], map[], map[], map[])) && Holds(Db(map[], map[], map[], map[]), [])
  {
    hide Sound;
    EmptySound();
  }

  /** The store built from any snapshots is reached from the empty one and holds just them, in order. */
  lemma {:induction false} AnyHistory(snapshots: seq<Snapshot>)
    ensures Leads(Calls(snapshots), Built(snapshots))
    ensures Holds(Built(snapshots), snapshots)
    decreases |snapshots|
  {
    hide Leads;
    hide Holds;
    hide OneMore;
    if snapshots == [] {
      NothingYet();
    } else {
      var i := |snapshots| - 1;
      var front := snapshots[..i];
      AnyHistory(front);
      OneMoreExecution(Built(front), front, snapshots[i]);
      TwoMoreCalls(Calls(front), Built(front), i, snapshots[i]);
      assert front + [snapshots[i]] == snapshots;
    }
  }

  lemma PlacedTimeline(db: Db, n: nat)
    requires forall id :: id in db.uploads <==> 1 <= id.n <= n
    requires forall i: nat | i < n :: PlacedAt(db, i)
    ensures Timeline(db.uploads, 0) == Ids(n)
  {
    var ids := Ids(n);
    forall id
      ensures id in ids <==> IsCompleted(db.uploads, 0, id)
    {
      if id in db.uploads {
        assert PlacedAt(db, id.n - 1) && ids[id.n - 1] == id;
      }
      if id in ids {
        var i :| 0 <= i < |ids| && ids[i] == id;
        assert PlacedAt(db, i);
      }
    }
    forall i | 0 <= i < |ids|
      ensures PlacedAt(db, i) && ids[i] in db.uploads && db.uploads[ids[i]].takenAt == Some(i)
    {
    }
    hide PlacedAt;
    hide IsCompleted;
    assert Sorted(db.uploads, ids);
    TimelineIs(db.uploads, 0, ids);
  }

  /** Carrying a list and being in it, read off the snapshots. */
  lemma BuiltRows(snapshots: seq<Snapshot>, kind: Kind, u: User, i: nat)
    requires i < |snapshots|
    ensures var db := Built(snapshots); var order := Timeline(db.uploads, 0);
            && order == Ids(|snapshots|) && Sound(db)
            && (Carried(db, order, kind, i) <==> kind in snapshots[i])
            && (Present(db, order, kind, u, i) <==> kind in snapshots[i] && u in snapshots[i][kind])
  {
    hide Built;
    hide Holds;
    hide Sound;
    hide Carried;
    hide Present;
    AnyHistory(snapshots);
    HeldRows(Built(snapshots), snapshots, kind, u, i);
  }

  lemma HeldRows(db: Db, snapshots: seq<Snapshot>, kind: Kind, u: User, i: nat)
    requires Holds(db, snapshots) && i < |snapshots|
    ensures var order := Timeline(db.uploads, 0);
            && order == Ids(|snapshots|) && Sound(db)
            && (Carried(db, order, kind, i) <==> kind in snapshots[i])
            && (Present(db, order, kind, u, i) <==> kind in snapshots[i] && u in snapshots[i][kind])
  {
    assert WellFormed(db);
    PlacedTimeline(db, |snapshots|);
    assert SnapshotOf(db, IdAt(i)) == snapshots[i];
    hide Sound;
    hide Holds;
    RowsOfSnapshot(db, IdAt(i), kind, u);
    hide SnapshotOf;
    hide WellFormed;
  }

  lemma RowsOfSnapshot(db: Db, id: UploadId, kind: Kind, u: User)
    ensures kind in SnapshotOf(db, id) <==> ListKey(id, kind) in db.lists
    ensures ListKey(id, kind) in db.lists ==> (u in SnapshotOf(db, id)[kind] <==> MemberKey(id, kind, u) in db.members)
    ensures WellFormed(db) && MemberKey(id, kind, u) in db.members ==> ListKey(id, kind) in db.lists
  {
  }

  // ---------------------------------------------------------------- lists that come and go

  /** An execution that carried the following list, with or without one account in it. */
  function Carrying(ann: bool): Snapshot {
    map[Followers := map["zoe" := None], Following := if ann then map["ann" := None] else map[]]
  }

  function Silent(): Snapshot { map[Followers := map["zoe" := None]] }

  lemma LostIs(db: Db, order: seq<UploadId>, kind: Kind, u: User, f: nat, t: nat)
    requires f < |order| && t < |order|
    ensures u in Lost(db, order[f], order[t], kind)
            <==> Present(db, order, kind, u, f) && !Present(db, order, kind, u, t)
  {
  }

  function LosingHistory(): seq<Snapshot> { [Carrying(true), Silent(), Carrying(false)] }

  /** Lost between the ends, with no change in the log: the execution in the middle did not carry the list. */
  lemma SomeGapHidesLoss()
    ensures var db, order := Built(LosingHistory()), Ids(3);
            && Leads(Calls(LosingHistory()), db) && order == Timeline(db.uploads, 0)
            && "ann" in Lost(db, order[0], order[2], Following)
            && Count(db, order, Following, "ann", Unfollowed, 0, 2) == 0
            && Count(db, order, Following, "ann", Followed, 0, 2) == 0
  {
    hide Sound;
    hide Built;
    hide Calls;
    hide Holds;
    hide Leads;
    hide Carried;
    hide Present;
    hide Logged;
    hide Lost;
    var snapshots := LosingHistory();
    var db, order := Built(snapshots), Ids(3);
    AnyHistory(snapshots);
    BuiltRows(snapshots, Following, "ann", 0);
    BuiltRows(snapshots, Following, "ann", 1);
    BuiltRows(snapshots, Following, "ann", 2);
    LogAgrees(db, 0, order, Following, "ann", 1);
    LogAgrees(db, 0, order, Following, "ann", 2);
    LostIs(db, order, Following, "ann", 0, 2);
    NoneCounted(db, order, Following, "ann", Followed);
    NoneCounted(db, order, Following, "ann", Unfollowed);
  }

  lemma NoneCounted(db: Db, order: seq<UploadId>, kind: Kind, u: User, change: ChangeType)
    requires |order| == 3 && !Logged(db, order, kind, u, change, 1) && !Logged(db, order, kind, u, change, 2)
    ensures Count(db, order, kind, u, change, 0, 2) == 0
  {
    assert Count(db, order, kind, u, change, 0, 1) == 0;
  }

  function FallingSilent(): seq<Snapshot> { [Carrying(true), Silent()] }

  /** Reported lost to an execution that said nothing about the list, with no change in the log. */
  lemma SomeSilenceIsReadAsLoss()
    ensures var db, order := Built(FallingSilent()), Ids(2);
            && Leads(Calls(FallingSilent()), db) && order == Timeline(db.uploads, 0)
            && !Carried(db, order, Following, 1)
            && "ann" in Lost(db, order[0], order[1], Following)
            && Gaps.Unlogged(db, order, Following, 0) && Gaps.Unlogged(db, order, Following, 1)
  {
    hide Sound;
    hide Built;
    hide Calls;
    hide Holds;
    hide Leads;
    hide Carried;
    hide Present;
    hide Logged;
    hide Lost;
    var snapshots := FallingSilent();
    var db, order := Built(snapshots), Ids(2);
    AnyHistory(snapshots);
    BuiltRows(snapshots, Following, "ann", 0);
    BuiltRows(snapshots, Following, "ann", 1);
    LostIs(db, order, Following, "ann", 0, 1);
    Gaps.SilenceIsNotCompared(db, 0, order, Following, 1);
    FirstIsUnlogged(db, 0, order, Following);
  }

  /** The oldest execution is compared with nothing. */
  lemma FirstIsUnlogged(db: Db, account: AccountId, order: seq<UploadId>, kind: Kind)
    requires Sound(db) && order == Timeline(db.uploads, account) && order != []
    ensures Gaps.Unlogged(db, order, kind, 0)
  {
    hide Sound;
    forall u, change: ChangeType
      ensures !Logged(db, order, kind, u, change, 0)
    {
      LogAgrees(db, account, order, kind, u, 0);
      assert change == Followed || change == Unfollowed;
    }
  }

  function ReturningHistory(): seq<Snapshot> { [Carrying(true), Silent(), Carrying(false), Carrying(true)] }

  /** Gone and back between the ends and not reported: the list was missing just before the absence. */
  lemma SomeReentryHidesReturn()
    ensures var db, order := Built(ReturningHistory()), Ids(4);
            && Leads(Calls(ReturningHistory()), db) && order == Timeline(db.uploads, 0)
            && Gaps.CameBack(db, order, Following, "ann", 0, 3)
            && "ann" !in Returned(db, 0, order[0], order[3], Following, 1, 4)
  {
    hide Sound;
    hide Built;
    hide Calls;
    hide Holds;
    hide Leads;
    hide Carried;
    hide Present;
    hide Logged;
    hide Returned;
    var snapshots := ReturningHistory();
    var db, order := Built(snapshots), Ids(4);
    AnyHistory(snapshots);
    BuiltRows(snapshots, Following, "ann", 0);
    BuiltRows(snapshots, Following, "ann", 1);
    BuiltRows(snapshots, Following, "ann", 2);
    BuiltRows(snapshots, Following, "ann", 3);
    LogAgrees(db, 0, order, Following, "ann", 1);
    LogAgrees(db, 0, order, Following, "ann", 2);
    LogAgrees(db, 0, order, Following, "ann", 3);
    Gaps.NotReturned(db, 0, order, Following, "ann", 0, 3);
  }
}

/**
 The guard against partial exports, over whole runs: exports admitted in order of date, without the
 override, never lose more than half of a sizeable following from one execution to the next.
 */
module Collapse {
  import opened Schema
  import opened Snapshots
  import opened DateOrder
  import opened History
  import opened Operations
  import opened Locality
  import opened Admission
  import opened Export
  import opened Machine
  import Safety

  /** The follower counts of one account, oldest first, never halve and more from 25 up. */
  ghost predicate Bounded(db: Db, account: AccountId) {
    var order := Timeline(db.uploads, account);
    forall i: nat | i + 1 < |order| :: Keeps(db, order[i], order[i + 1])
  }

  ghost predicate Keeps(db: Db, earlier: UploadId, later: UploadId) {
    earlier in db.uploads && later in db.uploads &&
    (db.uploads[earlier].totals.members >= COLLAPSE_MINIMUM_FOLLOWERS ==>
       2 * db.uploads[later].totals.members >= db.uploads[earlier].totals.members)
  }

  /** Every completed execution of the account is dated before `takenAt`. */
  ghost predicate Newest(db: Db, account: AccountId, takenAt: Time) {
    forall y | IsCompleted(db.uploads, account, y) ::
        db.uploads[y].takenAt.Some? && db.uploads[y].takenAt.value < takenAt
  }

  /** A step without the override, without rereading or redating, and newest last. */
  ghost predicate Plain(s: System, step: Step)
    requires Enabled(s, step)
  {
    match step
    case Accept(_, up, _) => !up.allowPartial
    case Record(id, _) =>
      Newest(s.db, s.db.uploads[id].account, ResolveSnapshotDate(ReadFile(s, id).value, s.db.uploads[id]).0)
    case Redate(_) => false
    case ReadAgain(_) => false
    case _ => true
  }

  ghost predicate PlainPath(s: System, steps: seq<Step>, t: System)
    decreases |steps|
  {
    if steps == [] then s == t
    else Enabled(s, steps[0]) && Plain(s, steps[0]) && PlainPath(Perform(s, steps[0]), steps[1..], t)
  }

  /** No upload asks for the override, and every account's counts are bounded. */
  ghost predicate Guarded(s: System) {
    && Inv(s)
    && (forall id | id in s.db.uploads :: !s.db.uploads[id].allowPartial)
    && (forall account: AccountId :: Bounded(s.db, account))
  }

  /** Steps that leave the completed executions alone leave the bound alone. */
  lemma BoundedUntouched(d: Db, e: Db, account: AccountId)
    requires Bounded(d, account)
    requires forall id :: IsCompleted(d.uploads, account, id) <==> IsCompleted(e.uploads, account, id)
    requires forall id | IsCompleted(d.uploads, account, id) && IsCompleted(e.uploads, account, id) ::
               SamePlace(d.uploads[id], e.uploads[id]) && d.uploads[id].totals == e.uploads[id].totals
    ensures Bounded(e, account)
  {
    TimelineDetermined(d.uploads, e.uploads, account);
    var order := Timeline(d.uploads, account);
    forall i: nat | i + 1 < |order|
      ensures Keeps(e, order[i], order[i + 1])
    {
      assert Keeps(d, order[i], order[i + 1]);
      assert order[i] in order && order[i + 1] in order;
    }
  }

  /** The newest execution goes to the end of the timeline. */
  lemma NewestIsAppended(db: Db, id: UploadId, snapshot: Snapshot, takenAt: Time, source: Source)
    requires id in db.uploads && db.uploads[id].status != Completed && Newest(db, db.uploads[id].account, takenAt)
    ensures var account, e := db.uploads[id].account, Applied(db, id, snapshot, takenAt, source);
            Timeline(e.uploads, account) == Timeline(db.uploads, account) + [id]
  {
    var account, e := db.uploads[id].account, Applied(db, id, snapshot, takenAt, source);
    var order := Timeline(db.uploads, account);
    AppliedPlaces(db, id, snapshot, takenAt, source);
    hide Applied;
    var next := order + [id];
    forall i | 0 <= i < |order|
      ensures order[i] in e.uploads && SamePlace(db.uploads[order[i]], e.uploads[order[i]])
      ensures Before(e.uploads[order[i]], order[i], e.uploads[id], id)
    {
      assert order[i] in order;
    }
    assert Sorted(e.uploads, next);
    forall x
      ensures x in next <==> IsCompleted(e.uploads, account, x)
    {
      assert x in next <==> x in order || x == id;
    }
    TimelineIs(e.uploads, account, next);
  }

  /** Recording the newest execution of an account changes nobody else's follower count. */
  lemma OtherCountsStand(db: Db, id: UploadId, snapshot: Snapshot, takenAt: Time, source: Source, x: UploadId)
    requires Sound(db) && id in db.uploads && db.uploads[id].status != Completed
             && Newest(db, db.uploads[id].account, takenAt)
    requires IsCompleted(db.uploads, db.uploads[id].account, x)
    ensures var e := Applied(db, id, snapshot, takenAt, source);
            x in e.uploads && e.uploads[x].totals == db.uploads[x].totals
  {
    var account, e := db.uploads[id].account, Applied(db, id, snapshot, takenAt, source);
    var before, after := Timeline(db.uploads, account), Timeline(e.uploads, account);
    ApplyIsLocal(db, id, snapshot, takenAt, source, x);
    NewestIsAppended(db, id, snapshot, takenAt, source);
    SortedDistinct(e.uploads, after);
    PositionIs(after, |before|);
    assert id !in before;
    assert x in before;
    if Predecessor(after, x) == Some(id) {
      assert after[Position(before, x)] == x;
      PositionIs(after, Position(before, x));
      assert false;
    }
  }

  /** The follower count recorded for an export is the number of followers it lists. */
  lemma CountIsListed(db: Db, id: UploadId, e: Export)
    requires Sound(db) && id in db.uploads && ValidExport(e)
    ensures var r := AppliedExport(db, id, e);
            id in r.uploads && r.uploads[id].totals.members == |e.lists[Followers]|
  {
    var when, r := ResolveSnapshotDate(e, db.uploads[id]), AppliedExport(db, id, e);
    AppliedSound(db, id, SnapshotIn(e), when.0, when.1);
    AppliedItself(db, id, e);
    CompletedIsNumbered(r, id);
    var p := Replaced(db, id, SnapshotIn(e), when.0, when.1);
    ReplacedSnapshots(db, id, SnapshotIn(e), when.0, when.1);
    RebuiltKeepsSnapshots(p, db.uploads[id].account, Timeline(p.uploads, db.uploads[id].account));
    MembersStored(e.lists[Followers]);
  }

  /** The execution judged against is the last of the timeline. */
  lemma PrecedingIsLast(db: Db, id: UploadId, takenAt: Time, p: Option<UploadId>)
    requires id in db.uploads && db.uploads[id].status != Completed && Newest(db, db.uploads[id].account, takenAt)
    requires IsPreceding(db, db.uploads[id].account, takenAt, id, p)
    ensures var order := Timeline(db.uploads, db.uploads[id].account);
            p == if order == [] then None else Some(order[|order| - 1])
  {
    var account := db.uploads[id].account;
    var order := Timeline(db.uploads, account);
    if order != [] {
      var last := order[|order| - 1];
      assert last in order;
      assert Candidate(db, account, takenAt, id, last);
      assert p.value in order;
    } else {
      forall y
        ensures !Candidate(db, account, takenAt, id, y)
      {
        assert y !in order;
      }
    }
  }

  lemma RecordBounded(s: System, id: UploadId, p: Option<UploadId>)
    requires Guarded(s) && Enabled(s, Record(id, p)) && Plain(s, Record(id, p))
    ensures Bounded(Perform(s, Record(id, p)).db, s.db.uploads[id].account)
  {
    var e, account := ReadFile(s, id).value, s.db.uploads[id].account;
    var when := ResolveSnapshotDate(e, s.db.uploads[id]);
    NewestIsAppended(s.db, id, SnapshotIn(e), when.0, when.1);
    forall x | IsCompleted(s.db.uploads, account, x) {
      OtherCountsStand(s.db, id, SnapshotIn(e), when.0, when.1, x);
    }
    RecordKeepsHalf(s, id, p);
    BoundedAppend(s.db, AppliedExport(s.db, id, e), account, id);
  }

  /** The admitted export stands up to the last execution of the timeline. */
  lemma RecordKeepsHalf(s: System, id: UploadId, p: Option<UploadId>)
    requires Guarded(s) && Enabled(s, Record(id, p)) && Plain(s, Record(id, p))
    ensures var order := Timeline(s.db.uploads, s.db.uploads[id].account);
            order != [] ==> Keeps(Perform(s, Record(id, p)).db, order[|order| - 1], id)
  {
    hide CheckCoverage;
    var e, account := ReadFile(s, id).value, s.db.uploads[id].account;
    var when := ResolveSnapshotDate(e, s.db.uploads[id]);
    var order := Timeline(s.db.uploads, account);
    PrecedingIsLast(s.db, id, when.0, p);
    CountIsListed(s.db, id, e);
    if order != [] {
      var last := order[|order| - 1];
      assert last in order;
      OtherCountsStand(s.db, id, SnapshotIn(e), when.0, when.1, last);
      AdmittedExactly(e.partial, |e.lists[Followers]|, Some(s.db.uploads[last].totals.members), false);
    }
  }

  lemma BoundedAppend(d: Db, e: Db, account: AccountId, id: UploadId)
    requires Bounded(d, account) && Timeline(e.uploads, account) == Timeline(d.uploads, account) + [id]
    requires forall x | IsCompleted(d.uploads, account, x) ::
               x in e.uploads && e.uploads[x].totals == d.uploads[x].totals
    requires var order := Timeline(d.uploads, account); order != [] ==> Keeps(e, order[|order| - 1], id)
    ensures Bounded(e, account)
  {
    var order, next := Timeline(d.uploads, account), Timeline(e.uploads, account);
    forall i: nat | i + 1 < |next|
      ensures Keeps(e, next[i], next[i + 1])
    {
      assert order[i] in order;
      if i + 1 < |order| {
        assert order[i + 1] in order;
        assert Keeps(d, order[i], order[i + 1]);
      }
    }
  }

  lemma NoOverrides(s: System, step: Step)
    requires Guarded(s) && Enabled(s, step) && Plain(s, step)
    ensures forall x | x in Perform(s, step).db.uploads :: !Perform(s, step).db.uploads[x].allowPartial
  {
    var t := Perform(s, step);
    NewcomersOnly(s, step);
    hide Fit;
    hide Sound;
    hide Perform;
    hide Enabled;
    forall x | x in t.db.uploads
      ensures !t.db.uploads[x].allowPartial
    {
      Safety.StepKeeps(s, step, x);
    }
  }

  lemma NewcomersOnly(s: System, step: Step)
    requires Fit(s) && Enabled(s, step) && Plain(s, step)
    ensures forall x | x in Perform(s, step).db.uploads ::
              x in s.db.uploads || !Perform(s, step).db.uploads[x].allowPartial
  {
    if step.Record? {
      RecordEffect(s, step);
      AppliedStatuses(s.db, step.id, ReadFile(s, step.id).value);
    } else {
      assert step.Accept? ==> !step.up.allowPartial;
      OtherEdits(s, step);
    }
    hide Fit;
    hide Enabled;
    hide Perform;
    hide AppliedExport;
    hide ReadFile;
  }

  lemma RecordGuarded(s: System, id: UploadId, p: Option<UploadId>)
    requires Guarded(s) && Enabled(s, Record(id, p)) && Plain(s, Record(id, p))
    ensures Guarded(Perform(s, Record(id, p)))
  {
    StepInv(s, Record(id, p));
    NoOverrides(s, Record(id, p));
    RecordEffect(s, Record(id, p));
    hide Inv;
    hide Bounded;
    hide Enabled;
    hide Perform;
    hide Plain;
    hide AppliedExport;
    forall other: AccountId
      ensures Bounded(Perform(s, Record(id, p)).db, other)
    {
      if other == s.db.uploads[id].account {
        RecordBounded(s, id, p);
      } else {
        RecordElsewhere(s, id, p, other);
      }
    }
  }

  lemma RecordElsewhere(s: System, id: UploadId, p: Option<UploadId>, other: AccountId)
    requires Guarded(s) && Enabled(s, Record(id, p)) && other != s.db.uploads[id].account
    ensures Bounded(Perform(s, Record(id, p)).db, other)
  {
    var e := ReadFile(s, id).value;
    var when := ResolveSnapshotDate(e, s.db.uploads[id]);
    AppliedForeignUntouched(s.db, id, SnapshotIn(e), when.0, when.1);
    AppliedAccounts(s.db, id, SnapshotIn(e), when.0, when.1);
    BoundedForeign(s.db, AppliedExport(s.db, id, e), id, other);
  }

  lemma BoundedForeign(d: Db, e: Db, id: UploadId, other: AccountId)
    requires Bounded(d, other) && id in d.uploads && other != d.uploads[id].account
    requires ForeignUntouched(d, e, d.uploads[id].account) && e.uploads.Keys == d.uploads.Keys
    requires forall x | x in d.uploads && d.uploads[x].account == d.uploads[id].account ::
               e.uploads[x].account == d.uploads[id].account
    ensures Bounded(e, other)
  {
    BoundedUntouched(d, e, other);
  }

  lemma PlainStepGuarded(s: System, step: Step)
    requires Guarded(s) && Enabled(s, step) && Plain(s, step)
    ensures Guarded(Perform(s, step))
  {
    if step.Record? {
      RecordGuarded(s, step.id, step.preceding);
    } else {
      QuietStepGuarded(s, step);
    }
  }

  lemma QuietStepGuarded(s: System, step: Step)
    requires Guarded(s) && Enabled(s, step) && Plain(s, step) && !step.Record?
    ensures Guarded(Perform(s, step))
  {
    StepInv(s, step);
    NoOverrides(s, step);
    QuietStepCounts(s, step);
    hide Inv;
    hide Bounded;
    hide Enabled;
    hide Perform;
    forall account: AccountId
      ensures Bounded(Perform(s, step).db, account)
    {
      BoundedUntouched(s.db, Perform(s, step).db, account);
    }
  }

  lemma QuietStepCounts(s: System, step: Step)
    requires Inv(s) && Enabled(s, step) && !step.Record? && !step.ReadAgain? && !step.Redate?
    ensures forall id, account ::
              IsCompleted(s.db.uploads, account, id) <==> IsCompleted(Perform(s, step).db.uploads, account, id)
    ensures forall id, account | IsCompleted(s.db.uploads, account, id)
            && IsCompleted(Perform(s, step).db.uploads, account, id) ::
              SamePlace(s.db.uploads[id], Perform(s, step).db.uploads[id])
              && s.db.uploads[id].totals == Perform(s, step).db.uploads[id].totals
  {
    OtherColumns(s, step);
    hide Inv;
    hide Enabled;
    hide Perform;
  }

  /** Over any plain run the follower counts stay bounded. */
  lemma {:induction false} CountsNeverCollapse(s: System, steps: seq<Step>, t: System, account: AccountId)
    requires Guarded(s) && PlainPath(s, steps, t)
    ensures Bounded(t.db, account)
    decreases |steps|
  {
    if steps != [] {
      PlainStepGuarded(s, steps[0]);
      CountsNeverCollapse(Perform(s, steps[0]), steps[1..], t, account);
    }
  }

  /** In particular from a service that has never run. */
  lemma CollapseBound(s: System, steps: seq<Step>, t: System, account: AccountId, i: nat)
    requires Initial(s) && PlainPath(s, steps, t) && i + 1 < |Timeline(t.db.uploads, account)|
    ensures var order := Timeline(t.db.uploads, account);
            && order[i] in t.db.uploads && order[i + 1] in t.db.uploads
            && (t.db.uploads[order[i]].totals.members >= 25 ==>
                  2 * t.db.uploads[order[i + 1]].totals.members >= t.db.uploads[order[i]].totals.members)
  {
    InitialInv(s);
    forall a: AccountId
      ensures Bounded(s.db, a)
    {
      assert forall id :: id !in Timeline(s.db.uploads, a);
      assert forall i: nat | i < |Timeline(s.db.uploads, a)| ::
               Timeline(s.db.uploads, a)[i] in Timeline(s.db.uploads, a);
    }
    CountsNeverCollapse(s, steps, t, account);
    assert Keeps(t.db, Timeline(t.db.uploads, account)[i], Timeline(t.db.uploads, account)[i + 1]);
  }
}

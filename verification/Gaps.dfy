/**
 A list absent from an execution breaks the chain of comparisons, because each execution is compared
 only with the one just before it; absent from one end of a range, it is read by the buckets as a list
 nobody is in.  These lemmas say exactly which patterns of absence cost the buckets and the log
 something, whoever the members are.
 */
module Gaps {
  import opened Schema
  import opened DateOrder
  import opened History
  import opened Operations
  import opened Buckets

  /** The same executions, placed alike, carrying `kind` alike; their members may differ. */
  ghost predicate SameCarried(d: Db, e: Db, account: AccountId, kind: Kind) {
    && (forall id :: IsCompleted(d.uploads, account, id) <==> IsCompleted(e.uploads, account, id))
    && (forall id | IsCompleted(d.uploads, account, id) && IsCompleted(e.uploads, account, id) ::
         SamePlace(d.uploads[id], e.uploads[id]))
    && (forall id | IsCompleted(d.uploads, account, id) ::
         ListKey(id, kind) in d.lists <==> ListKey(id, kind) in e.lists)
  }

  /** Every execution strictly inside the range that carried the list follows one that did. */
  ghost predicate NoReentry(db: Db, order: seq<UploadId>, kind: Kind, f: nat, t: nat)
    requires t < |order|
  {
    forall i: nat | f < i < t && Carried(db, order, kind, i) :: Carried(db, order, kind, i - 1)
  }

  /** `u` is there at both ends and missing from some execution between them that carried the list. */
  ghost predicate CameBack(db: Db, order: seq<UploadId>, kind: Kind, u: User, f: nat, t: nat)
    requires f <= t < |order|
  {
    && Present(db, order, kind, u, f) && Present(db, order, kind, u, t)
    && exists i: nat :: f < i < t && Carried(db, order, kind, i) && !Present(db, order, kind, u, i)
  }

  /** Whoever is reported as returned did come back. */
  lemma ReturnedIsSound(db: Db, account: AccountId, kind: Kind, u: User, f: nat, t: nat)
    requires Sound(db) && f <= t < |Timeline(db.uploads, account)|
    ensures var order := Timeline(db.uploads, account);
            u in Returned(db, account, order[f], order[t], kind, f + 1, t + 1) ==> CameBack(db, order, kind, u, f, t)
  {
    var order := Timeline(db.uploads, account);
    if u in Returned(db, account, order[f], order[t], kind, f + 1, t + 1) {
      LoggedDepartureIs(db, account, order, kind, u, f, t);
      var i: nat :| f < i <= t && Logged(db, order, kind, u, Unfollowed, i);
      LogAgrees(db, account, order, kind, u, i);
    }
  }

  lemma {:induction false} CarriedBack(db: Db, order: seq<UploadId>, kind: Kind, f: nat, t: nat, i: nat, j: nat)
    requires f <= j <= i < t < |order| && NoReentry(db, order, kind, f, t) && Carried(db, order, kind, i)
    ensures Carried(db, order, kind, j)
    decreases i - j
  {
    if j < i {
      CarriedBack(db, order, kind, f, t, i, j + 1);
      assert Carried(db, order, kind, j + 1);
    }
  }

  /** From present to absent over executions that all carried the list, some departure is logged. */
  lemma {:induction false} FirstAbsence(db: Db, account: AccountId, order: seq<UploadId>, kind: Kind, u: User, f: nat,
      i: nat)
    requires Sound(db) && order == Timeline(db.uploads, account) && f < i < |order|
    requires CarriedThroughout(db, order, kind, f, i)
    requires Present(db, order, kind, u, f) && !Present(db, order, kind, u, i)
    ensures exists j: nat :: f < j <= i && Logged(db, order, kind, u, Unfollowed, j)
    decreases i
  {
    LogAgrees(db, account, order, kind, u, i);
    if !Present(db, order, kind, u, i - 1) {
      FirstAbsence(db, account, order, kind, u, f, i - 1);
    }
  }

  /** Without re-entry everybody who came back is reported as returned. */
  lemma ReturnedIsComplete(db: Db, account: AccountId, kind: Kind, u: User, f: nat, t: nat)
    requires Sound(db) && f <= t < |Timeline(db.uploads, account)|
    requires NoReentry(db, Timeline(db.uploads, account), kind, f, t)
    requires CameBack(db, Timeline(db.uploads, account), kind, u, f, t)
    ensures var order := Timeline(db.uploads, account);
            u in Returned(db, account, order[f], order[t], kind, f + 1, t + 1)
  {
    var order := Timeline(db.uploads, account);
    var i: nat :| f < i < t && Carried(db, order, kind, i) && !Present(db, order, kind, u, i);
    forall j: nat | f <= j <= i {
      CarriedBack(db, order, kind, f, t, i, j);
    }
    FirstAbsence(db, account, order, kind, u, f, i);
    LoggedDepartureIs(db, account, order, kind, u, f, t);
  }

  // ---------------------------------------------------------------- counterexamples to order

  /** The same history with `u` in the list exactly at the executions `at`. */
  ghost function WithPresence(db: Db, account: AccountId, kind: Kind, u: User, at: set<UploadId>): Db {
    Recomputed(db.(members := PresenceEdit(db, account, kind, u, at)), account)
  }

  ghost function PresenceEdit(db: Db, account: AccountId, kind: Kind, u: User,
      at: set<UploadId>): map<MemberKey, Option<Time>> {
    map m | m in (set m | m in db.members
      && !(m.kind == kind && m.user == u && IsCompleted(db.uploads, account, m.upload)))
                 + (set id | id in at :: MemberKey(id, kind, u)) ::
      if m in db.members then db.members[m] else None
  }

  lemma PresenceEditWellFormed(db: Db, account: AccountId, kind: Kind, u: User, at: set<UploadId>)
    requires WellFormed(db)
    requires forall id | id in at :: IsCompleted(db.uploads, account, id) && ListKey(id, kind) in db.lists
    ensures WellFormed(db.(members := PresenceEdit(db, account, kind, u, at)))
  {
    var d := db.(members := PresenceEdit(db, account, kind, u, at));
    forall m | m in d.members
      ensures ListKey(m.upload, m.kind) in d.lists
    {
    }
  }

  lemma PresenceEditSameRows(db: Db, account: AccountId, kind: Kind, u: User, at: set<UploadId>, other: AccountId)
    requires other != account
    requires forall id | id in at :: IsCompleted(db.uploads, account, id)
    ensures SameRows(db, db.(members := PresenceEdit(db, account, kind, u, at)), other)
  {
    var d := db.(members := PresenceEdit(db, account, kind, u, at));
    forall id | IsCompleted(d.uploads, other, id)
      ensures SameLists(db, d, id)
    {
      SnapshotsAgree(db, d, id);
    }
  }

  lemma PresenceEditPresent(db: Db, account: AccountId, kind: Kind, u: User, at: set<UploadId>, id: UploadId)
    requires IsCompleted(db.uploads, account, id)
    ensures MemberKey(id, kind, u) in PresenceEdit(db, account, kind, u, at) <==> id in at
  {
  }

  lemma WithPresenceSound(db: Db, account: AccountId, kind: Kind, u: User, at: set<UploadId>)
    requires Sound(db)
    requires forall id | id in at :: IsCompleted(db.uploads, account, id) && ListKey(id, kind) in db.lists
    ensures Sound(WithPresence(db, account, kind, u, at))
  {
    PresenceEditWellFormed(db, account, kind, u, at);
    forall other: AccountId | other != account {
      PresenceEditSameRows(db, account, kind, u, at, other);
    }
    RecomputedSound(db, db.(members := PresenceEdit(db, account, kind, u, at)), account);
  }

  /** The edit changes who is in the list and nothing about which executions carried it. */
  lemma WithPresenceIs(db: Db, account: AccountId, kind: Kind, u: User, at: set<UploadId>)
    ensures var e, order := WithPresence(db, account, kind, u, at), Timeline(db.uploads, account);
            && SameCarried(db, e, account, kind)
            && Timeline(e.uploads, account) == order
            && forall j: nat | j < |order| ::
                 && (Carried(e, order, kind, j) <==> Carried(db, order, kind, j))
                 && (Present(e, order, kind, u, j) <==> order[j] in at)
  {
    var d, order := db.(members := PresenceEdit(db, account, kind, u, at)), Timeline(db.uploads, account);
    RecomputedSameExecutions(d, account, account);
    forall j: nat | j < |order|
      ensures Present(WithPresence(db, account, kind, u, at), order, kind, u, j) <==> order[j] in at
    {
      assert order[j] in order;
      PresenceEditPresent(db, account, kind, u, at, order[j]);
    }
  }

  /** The positions `at` picks out of a timeline. */
  ghost function Picked(order: seq<UploadId>, at: set<nat>): set<UploadId> {
    set j | j in at && j < |order| :: order[j]
  }

  lemma PickedAt(order: seq<UploadId>, at: set<nat>, j: nat)
    requires Distinct(order) && j < |order|
    ensures order[j] in Picked(order, at) <==> j in at
  {
  }

  /** The history with `u` present exactly at the positions `at`, all of which carried the list. */
  lemma Staged(db: Db, account: AccountId, kind: Kind, u: User, at: set<nat>) returns (e: Db)
    requires Sound(db)
    requires forall j | j in at ::
               j < |Timeline(db.uploads, account)| && Carried(db, Timeline(db.uploads, account), kind, j)
    ensures var order := Timeline(db.uploads, account);
            && Sound(e) && SameCarried(db, e, account, kind) && Timeline(e.uploads, account) == order
            && forall j: nat | j < |order| ::
                 (Carried(e, order, kind, j) <==> Carried(db, order, kind, j))
                   && (Present(e, order, kind, u, j) <==> j in at)
  {
    var order := Timeline(db.uploads, account);
    SortedDistinct(db.uploads, order);
    var ids := Picked(order, at);
    forall id | id in ids
      ensures IsCompleted(db.uploads, account, id) && ListKey(id, kind) in db.lists
    {
      var j :| j in at && j < |order| && order[j] == id;
      assert id in order && Carried(db, order, kind, j);
    }
    e := WithPresence(db, account, kind, u, ids);
    WithPresenceSound(db, account, kind, u, ids);
    WithPresenceIs(db, account, kind, u, ids);
    forall j: nat | j < |order| {
      PickedAt(order, at, j);
    }
  }

  /** The positions from `i` up to `t` that the list reaches without a break. */
  ghost function Stretch(db: Db, order: seq<UploadId>, kind: Kind, i: nat, t: nat): set<nat>
    requires t < |order|
  {
    set j: nat | i <= j < t && CarriedThroughout(db, order, kind, i, j)
  }

  /** Every execution that carried the list, save those of the stretch. */
  ghost function Elsewhere(db: Db, order: seq<UploadId>, kind: Kind, i: nat, t: nat): set<nat>
    requires t < |order|
  {
    set j: nat | j < |order| && Carried(db, order, kind, j) && j !in Stretch(db, order, kind, i, t)
  }

  lemma StretchHoldsNoDeparture(db: Db, order: seq<UploadId>, kind: Kind, i: nat, t: nat, j: nat)
    requires 0 < i < t < |order| && 0 < j < |order|
    requires Carried(db, order, kind, j) && Carried(db, order, kind, j - 1) && !Carried(db, order, kind, i - 1)
    requires j - 1 in Elsewhere(db, order, kind, i, t)
    ensures j in Elsewhere(db, order, kind, i, t)
  {
    if j in Stretch(db, order, kind, i, t) && i < j {
      assert CarriedThroughout(db, order, kind, i, j - 1);
      assert false;
    }
  }

  lemma ElsewhereEnds(db: Db, order: seq<UploadId>, kind: Kind, f: nat, t: nat, i: nat)
    requires f < i < t < |order|
    requires Carried(db, order, kind, f) && Carried(db, order, kind, t) && Carried(db, order, kind, i)
    ensures f in Elsewhere(db, order, kind, i, t) && t in Elsewhere(db, order, kind, i, t)
    ensures i !in Elsewhere(db, order, kind, i, t)
  {
    assert CarriedThroughout(db, order, kind, i, i);
  }

  /** A re-entry hides a return: `u` present except over the stretch that re-enters at `i`. */
  lemma ReentryHidesReturn(db: Db, account: AccountId, kind: Kind, u: User, f: nat, t: nat, i: nat) returns (e: Db)
    requires Sound(db) && f < i < t < |Timeline(db.uploads, account)|
    requires Carried(db, Timeline(db.uploads, account), kind, f) && Carried(db, Timeline(db.uploads, account), kind, t)
    requires Carried(db, Timeline(db.uploads, account), kind, i)
             && !Carried(db, Timeline(db.uploads, account), kind, i - 1)
    ensures var order := Timeline(db.uploads, account);
            && Sound(e) && SameCarried(db, e, account, kind)
            && CameBack(e, order, kind, u, f, t)
            && u !in Returned(e, account, order[f], order[t], kind, f + 1, t + 1)
  {
    var order := Timeline(db.uploads, account);
    e := Staged(db, account, kind, u, Elsewhere(db, order, kind, i, t));
    ElsewhereEnds(db, order, kind, f, t, i);
    assert CameBack(e, order, kind, u, f, t) by {
      assert Carried(e, order, kind, i) && !Present(e, order, kind, u, i);
    }
    forall j: nat | f < j <= t {
      NoDepartureElsewhere(db, e, account, order, kind, u, i, t, j);
    }
    NotReturned(e, account, order, kind, u, f, t);
  }

  lemma NotReturned(e: Db, account: AccountId, order: seq<UploadId>, kind: Kind, u: User, f: nat, t: nat)
    requires Sound(e) && order == Timeline(e.uploads, account) && f <= t < |order|
    requires forall j: nat | f < j <= t :: !Logged(e, order, kind, u, Unfollowed, j)
    ensures u !in Returned(e, account, order[f], order[t], kind, f + 1, t + 1)
  {
    LoggedDepartureIs(e, account, order, kind, u, f, t);
  }

  lemma NoDepartureElsewhere(db: Db, e: Db, account: AccountId, order: seq<UploadId>, kind: Kind, u: User, i: nat,
      t: nat, j: nat)
    requires Sound(e) && order == Timeline(e.uploads, account) && 0 < i < t < |order| && 0 < j < |order|
    requires !Carried(db, order, kind, i - 1)
    requires Carried(e, order, kind, j) <==> Carried(db, order, kind, j)
    requires Carried(e, order, kind, j - 1) <==> Carried(db, order, kind, j - 1)
    requires Present(e, order, kind, u, j) <==> j in Elsewhere(db, order, kind, i, t)
    requires Present(e, order, kind, u, j - 1) <==> j - 1 in Elsewhere(db, order, kind, i, t)
    ensures !Logged(e, order, kind, u, Unfollowed, j)
  {
    LogAgrees(e, account, order, kind, u, j);
    if Carried(e, order, kind, j) && Carried(e, order, kind, j - 1) && Present(e, order, kind, u, j - 1) {
      StretchHoldsNoDeparture(db, order, kind, i, t, j);
    }
  }

  /**
   Given which executions carried the list, the returned bucket holds everybody who came back,
   whoever the members are, exactly when no execution strictly inside the range carried the list
   after one that did not, or when an end is silent, so that nobody is there at both.
   */
  lemma ReturnedExactly(db: Db, account: AccountId, kind: Kind, f: nat, t: nat)
    requires Sound(db) && f <= t < |Timeline(db.uploads, account)|
    ensures var order := Timeline(db.uploads, account);
            (forall e: Db, u: User | Sound(e) && SameCarried(db, e, account, kind) ::
                AllReturned(e, account, order, kind, u, f, t))
            <==> NoReentry(db, order, kind, f, t) || !Carried(db, order, kind, f) || !Carried(db, order, kind, t)
  {
    hide Sound;
    hide SameCarried;
    hide AllReturned;
    hide Carried;
    hide NoReentry;
    var order := Timeline(db.uploads, account);
    if NoReentry(db, order, kind, f, t) {
      forall e: Db, u: User | Sound(e) && SameCarried(db, e, account, kind) {
        ReturnedElsewhere(db, e, account, kind, u, f, t);
      }
    } else if Carried(db, order, kind, f) && Carried(db, order, kind, t) {
      var e := NotAllReturned(db, account, kind, "anybody", f, t);
    } else {
      forall e: Db, u: User | Sound(e) && SameCarried(db, e, account, kind) {
        NobodyAtSilentEnd(db, e, account, kind, u, f, t);
      }
    }
  }

  lemma NobodyAtSilentEnd(db: Db, e: Db, account: AccountId, kind: Kind, u: User, f: nat, t: nat)
    requires Sound(e) && SameCarried(db, e, account, kind) && f <= t < |Timeline(db.uploads, account)|
    requires !Carried(db, Timeline(db.uploads, account), kind, f)
             || !Carried(db, Timeline(db.uploads, account), kind, t)
    ensures AllReturned(e, account, Timeline(db.uploads, account), kind, u, f, t)
  {
    var order := Timeline(db.uploads, account);
    SameOrder(db, e, account, kind);
    LogAgrees(e, account, order, kind, u, f);
    LogAgrees(e, account, order, kind, u, t);
    hide Sound;
    hide SameCarried;
    hide Returned;
  }

  lemma NotAllReturned(db: Db, account: AccountId, kind: Kind, u: User, f: nat, t: nat) returns (e: Db)
    requires Sound(db) && f <= t < |Timeline(db.uploads, account)|
    requires Carried(db, Timeline(db.uploads, account), kind, f) && Carried(db, Timeline(db.uploads, account), kind, t)
    requires !NoReentry(db, Timeline(db.uploads, account), kind, f, t)
    ensures Sound(e) && SameCarried(db, e, account, kind)
            && !AllReturned(e, account, Timeline(db.uploads, account), kind, u, f, t)
  {
    var order := Timeline(db.uploads, account);
    var i: nat :| f < i < t && Carried(db, order, kind, i) && !Carried(db, order, kind, i - 1);
    e := ReentryHidesReturn(db, account, kind, u, f, t, i);
  }

  /** If `u` came back, `u` is in the returned bucket. */
  ghost predicate AllReturned(e: Db, account: AccountId, order: seq<UploadId>, kind: Kind, u: User, f: nat, t: nat)
    requires f <= t < |order|
  {
    CameBack(e, order, kind, u, f, t) ==> u in Returned(e, account, order[f], order[t], kind, f + 1, t + 1)
  }

  lemma ReturnedElsewhere(db: Db, e: Db, account: AccountId, kind: Kind, u: User, f: nat, t: nat)
    requires Sound(e) && SameCarried(db, e, account, kind) && f <= t < |Timeline(db.uploads, account)|
    requires NoReentry(db, Timeline(db.uploads, account), kind, f, t)
    ensures AllReturned(e, account, Timeline(db.uploads, account), kind, u, f, t)
  {
    var order := Timeline(db.uploads, account);
    SameOrder(db, e, account, kind);
    assert NoReentry(e, order, kind, f, t);
    if CameBack(e, order, kind, u, f, t) {
      ReturnedIsComplete(e, account, kind, u, f, t);
    }
  }

  /** The same executions in the same order, carrying the list alike. */
  lemma SameOrder(d: Db, e: Db, account: AccountId, kind: Kind)
    requires SameCarried(d, e, account, kind)
    ensures Timeline(e.uploads, account) == Timeline(d.uploads, account)
    ensures forall j: nat | j < |Timeline(d.uploads, account)| ::
              Carried(d, Timeline(d.uploads, account), kind, j) <==> Carried(e, Timeline(d.uploads, account), kind, j)
  {
    var order := Timeline(d.uploads, account);
    TimelineDetermined(d.uploads, e.uploads, account);
    forall j: nat | j < |order|
      ensures Carried(d, order, kind, j) <==> Carried(e, order, kind, j)
    {
      assert order[j] in order;
    }
  }

  // ---------------------------------------------------------------- silence and the log

  /** The executions from position `f` to just before `g` that carried the list. */
  ghost function Span(db: Db, order: seq<UploadId>, kind: Kind, f: nat, g: nat): set<nat>
    requires g <= |order|
  {
    set j: nat | f <= j < g && Carried(db, order, kind, j)
  }

  /** A gap hides a loss: `u` present up to the gap and never after it. */
  lemma GapHidesLoss(db: Db, account: AccountId, kind: Kind, u: User, f: nat, t: nat, g: nat) returns (e: Db)
    requires Sound(db) && f < g <= t < |Timeline(db.uploads, account)|
    requires CarriedThroughout(db, Timeline(db.uploads, account), kind, f, g - 1)
    requires !Carried(db, Timeline(db.uploads, account), kind, g)
    ensures var order := Timeline(db.uploads, account);
            && Sound(e) && SameCarried(db, e, account, kind)
            && u in Lost(e, order[f], order[t], kind)
            && Count(e, order, kind, u, Unfollowed, f, t) == 0 && Count(e, order, kind, u, Followed, f, t) == 0
  {
    hide Sound;
    hide SameCarried;
    hide Logged;
    var order := Timeline(db.uploads, account);
    assert Carried(db, order, kind, f);
    e := Staged(db, account, kind, u, Span(db, order, kind, f, g));
    assert Present(e, order, kind, u, f) && !Present(e, order, kind, u, t);
    forall j: nat | f < j <= t {
      NothingAcrossGap(e, account, order, kind, u, f, g, j);
    }
    NothingCounted(e, order, kind, u, f, t);
  }

  lemma NothingAcrossGap(e: Db, account: AccountId, order: seq<UploadId>, kind: Kind, u: User, f: nat, g: nat, j: nat)
    requires Sound(e) && order == Timeline(e.uploads, account) && f < g < |order| && f < j < |order|
    requires !Carried(e, order, kind, g)
    requires forall i: nat | i < |order| :: Present(e, order, kind, u, i) <==> f <= i < g
    ensures !Logged(e, order, kind, u, Unfollowed, j) && !Logged(e, order, kind, u, Followed, j)
  {
    LogAgrees(e, account, order, kind, u, j);
  }

  /** A gap hides a gain: `u` present from just after the gap on. */
  lemma GapHidesGain(db: Db, account: AccountId, kind: Kind, u: User, f: nat, t: nat, g: nat) returns (e: Db)
    requires Sound(db) && f <= g < t < |Timeline(db.uploads, account)|
    requires CarriedThroughout(db, Timeline(db.uploads, account), kind, g + 1, t)
    requires !Carried(db, Timeline(db.uploads, account), kind, g)
    ensures var order := Timeline(db.uploads, account);
            && Sound(e) && SameCarried(db, e, account, kind)
            && u in Gained(e, order[f], order[t], kind)
            && Count(e, order, kind, u, Unfollowed, f, t) == 0 && Count(e, order, kind, u, Followed, f, t) == 0
  {
    hide Sound;
    hide SameCarried;
    hide Logged;
    var order := Timeline(db.uploads, account);
    assert Carried(db, order, kind, t);
    e := Staged(db, account, kind, u, Span(db, order, kind, g + 1, t + 1));
    assert Present(e, order, kind, u, t) && !Present(e, order, kind, u, f);
    forall j: nat | f < j <= t {
      NothingSinceGap(e, account, order, kind, u, g, t, j);
    }
    NothingCounted(e, order, kind, u, f, t);
  }

  lemma NothingSinceGap(e: Db, account: AccountId, order: seq<UploadId>, kind: Kind, u: User, g: nat, t: nat, j: nat)
    requires Sound(e) && order == Timeline(e.uploads, account) && g < t < |order| && 0 < j <= t
    requires !Carried(e, order, kind, g)
    requires forall i: nat | i < |order| :: Present(e, order, kind, u, i) <==> g < i <= t
    ensures !Logged(e, order, kind, u, Unfollowed, j) && !Logged(e, order, kind, u, Followed, j)
  {
    LogAgrees(e, account, order, kind, u, j);
  }

  lemma NothingCounted(e: Db, order: seq<UploadId>, kind: Kind, u: User, f: nat, t: nat)
    requires f <= t < |order|
    requires forall j: nat | f < j <= t ::
               !Logged(e, order, kind, u, Unfollowed, j) && !Logged(e, order, kind, u, Followed, j)
    ensures Count(e, order, kind, u, Unfollowed, f, t) == 0 && Count(e, order, kind, u, Followed, f, t) == 0
  {
    CountPositive(e, order, kind, u, Unfollowed, f, t);
    CountPositive(e, order, kind, u, Followed, f, t);
  }

  /** No execution in the range carried the list right after one that did, so nothing in it was compared. */
  ghost predicate NothingCompared(db: Db, order: seq<UploadId>, kind: Kind, f: nat, t: nat)
    requires t < |order|
  {
    forall i: nat | f < i <= t && Carried(db, order, kind, i) :: !Carried(db, order, kind, i - 1)
  }

  /** Departures less arrivals in the log, against what the two ends show. */
  ghost predicate NetAgrees(db: Db, order: seq<UploadId>, kind: Kind, u: User, f: nat, t: nat)
    requires f <= t < |order|
  {
    Count(db, order, kind, u, Unfollowed, f, t) - Count(db, order, kind, u, Followed, f, t)
    == One(Present(db, order, kind, u, f)) - One(Present(db, order, kind, u, t))
  }

  /** Where counting the log and comparing the ends come to the same. */
  ghost predicate NetCondition(db: Db, order: seq<UploadId>, kind: Kind, f: nat, t: nat)
    requires f <= t < |order|
  {
    || CarriedThroughout(db, order, kind, f, t)
    || (!Carried(db, order, kind, f) && !Carried(db, order, kind, t) && NothingCompared(db, order, kind, f, t))
  }

  /**
   Counting the log agrees with comparing the ends, whoever the members are, exactly when every
   execution in the range carried the list, or neither end did and nothing between was compared.
   */
  lemma NetExactly(db: Db, account: AccountId, kind: Kind, f: nat, t: nat)
    requires Sound(db) && f <= t < |Timeline(db.uploads, account)|
    ensures var order := Timeline(db.uploads, account);
            (forall e: Db, u: User | Sound(e) && SameCarried(db, e, account, kind) ::
                NetAgrees(e, order, kind, u, f, t))
            <==> NetCondition(db, order, kind, f, t)
  {
    hide Sound;
    hide SameCarried;
    hide NetAgrees;
    hide NetCondition;
    var order := Timeline(db.uploads, account);
    if NetCondition(db, order, kind, f, t) {
      forall e: Db, u: User | Sound(e) && SameCarried(db, e, account, kind) {
        NetAgreesElsewhere(db, e, account, kind, u, f, t);
      }
    } else {
      var e := NetDisagrees(db, account, kind, "anybody", f, t);
    }
  }

  lemma NetAgreesElsewhere(db: Db, e: Db, account: AccountId, kind: Kind, u: User, f: nat, t: nat)
    requires Sound(e) && SameCarried(db, e, account, kind) && f <= t < |Timeline(db.uploads, account)|
    requires NetCondition(db, Timeline(db.uploads, account), kind, f, t)
    ensures NetAgrees(e, Timeline(db.uploads, account), kind, u, f, t)
  {
    hide Sound;
    hide SameCarried;
    hide Logged;
    hide Timeline;
    var order := Timeline(db.uploads, account);
    SameOrder(db, e, account, kind);
    if CarriedThroughout(db, order, kind, f, t) {
      NetIsPresence(e, account, order, kind, u, f, t);
    } else {
      forall j: nat | f <= j <= t {
        LogAgrees(e, account, order, kind, u, j);
      }
      NothingCounted(e, order, kind, u, f, t);
    }
  }

  lemma NetDisagrees(db: Db, account: AccountId, kind: Kind, u: User, f: nat, t: nat) returns (e: Db)
    requires Sound(db) && f <= t < |Timeline(db.uploads, account)|
    requires !NetCondition(db, Timeline(db.uploads, account), kind, f, t)
    ensures Sound(e) && SameCarried(db, e, account, kind)
            && !NetAgrees(e, Timeline(db.uploads, account), kind, u, f, t)
  {
    hide Sound;
    hide SameCarried;
    var order := Timeline(db.uploads, account);
    if Carried(db, order, kind, f) {
      var g := FirstGap(db, order, kind, f, t);
      e := GapHidesLoss(db, account, kind, u, f, t, g);
    } else if Carried(db, order, kind, t) {
      var g := LastGap(db, order, kind, f, t);
      e := GapHidesGain(db, account, kind, u, f, t, g);
    } else {
      var i := FirstCompared(db, order, kind, f, t);
      e := DepartureBetweenSilentEnds(db, account, kind, u, f, t, i);
    }
  }

  lemma {:induction false} FirstGap(db: Db, order: seq<UploadId>, kind: Kind, f: nat, t: nat) returns (g: nat)
    requires f <= t < |order| && Carried(db, order, kind, f) && !CarriedThroughout(db, order, kind, f, t)
    ensures f < g <= t && !Carried(db, order, kind, g) && CarriedThroughout(db, order, kind, f, g - 1)
    decreases t
  {
    if CarriedThroughout(db, order, kind, f, t - 1) {
      g := t;
    } else {
      g := FirstGap(db, order, kind, f, t - 1);
    }
  }

  lemma {:induction false} LastGap(db: Db, order: seq<UploadId>, kind: Kind, f: nat, t: nat) returns (g: nat)
    requires f <= t < |order| && !Carried(db, order, kind, f) && Carried(db, order, kind, t)
    ensures f <= g < t && !Carried(db, order, kind, g) && CarriedThroughout(db, order, kind, g + 1, t)
    decreases t - f
  {
    if CarriedThroughout(db, order, kind, f + 1, t) {
      g := f;
    } else {
      var h: nat :| f + 1 <= h <= t && !Carried(db, order, kind, h);
      g := LastGap(db, order, kind, h, t);
    }
  }

  /** The first execution compared with the one before it, in a range that begins in silence. */
  lemma {:induction false} FirstCompared(db: Db, order: seq<UploadId>, kind: Kind, f: nat, t: nat) returns (i: nat)
    requires f <= t < |order| && !Carried(db, order, kind, f) && !NothingCompared(db, order, kind, f, t)
    ensures f + 2 <= i <= t && Carried(db, order, kind, i) && Carried(db, order, kind, i - 1)
    ensures !Carried(db, order, kind, i - 2)
    decreases t
  {
    if NothingCompared(db, order, kind, f, t - 1) {
      i := t;
    } else {
      i := FirstCompared(db, order, kind, f, t - 1);
    }
  }

  /** Logged as departed between two ends neither of which says anything: `u` in one execution alone. */
  lemma DepartureBetweenSilentEnds(db: Db, account: AccountId, kind: Kind, u: User, f: nat, t: nat, i: nat)
    returns (e: Db)
    requires Sound(db) && f + 2 <= i <= t < |Timeline(db.uploads, account)|
    requires !Carried(db, Timeline(db.uploads, account), kind, f)
    requires !Carried(db, Timeline(db.uploads, account), kind, i - 2)
    requires Carried(db, Timeline(db.uploads, account), kind, i - 1)
    requires Carried(db, Timeline(db.uploads, account), kind, i)
    ensures var order := Timeline(db.uploads, account);
            && Sound(e) && SameCarried(db, e, account, kind)
            && !Present(e, order, kind, u, f) && !Present(e, order, kind, u, t)
            && Count(e, order, kind, u, Unfollowed, f, t) > 0 && Count(e, order, kind, u, Followed, f, t) == 0
  {
    hide Sound;
    hide SameCarried;
    var order := Timeline(db.uploads, account);
    hide Timeline;
    e := Staged(db, account, kind, u, {i - 1});
    LogAgrees(e, account, order, kind, u, i);
    forall j: nat | f < j <= t {
      NoArrivalAfterSilence(e, account, order, kind, u, i, j);
    }
    hide Logged;
    CountPositive(e, order, kind, u, Unfollowed, f, t);
    CountPositive(e, order, kind, u, Followed, f, t);
  }

  lemma NoArrivalAfterSilence(e: Db, account: AccountId, order: seq<UploadId>, kind: Kind, u: User, i: nat, j: nat)
    requires Sound(e) && order == Timeline(e.uploads, account) && 2 <= i < |order| && 0 < j < |order|
    requires !Carried(e, order, kind, i - 2)
    requires forall k: nat | k < |order| :: Present(e, order, kind, u, k) <==> k == i - 1
    ensures !Logged(e, order, kind, u, Followed, j)
  {
    LogAgrees(e, account, order, kind, u, j);
  }

  // ---------------------------------------------------------------- silence at an end

  ghost predicate Unlogged(db: Db, order: seq<UploadId>, kind: Kind, i: nat)
    requires i < |order|
  {
    forall u, change :: !Logged(db, order, kind, u, change, i)
  }

  /** An execution that did not carry the list is compared neither way. */
  lemma SilenceIsNotCompared(db: Db, account: AccountId, order: seq<UploadId>, kind: Kind, i: nat)
    requires Sound(db) && order == Timeline(db.uploads, account) && i < |order|
    requires !Carried(db, order, kind, i) || (i > 0 && !Carried(db, order, kind, i - 1))
    ensures Unlogged(db, order, kind, i)
  {
    hide Sound;
    forall u, change: ChangeType
      ensures !Logged(db, order, kind, u, change, i)
    {
      LogAgrees(db, account, order, kind, u, i);
      assert change == Followed || change == Unfollowed;
    }
  }

  lemma SilentHoldsNobody(db: Db, account: AccountId, order: seq<UploadId>, kind: Kind, i: nat)
    requires Sound(db) && order == Timeline(db.uploads, account) && i < |order|
    requires !Carried(db, order, kind, i)
    ensures forall u :: MemberKey(order[i], kind, u) !in db.members
  {
    hide Sound;
    forall u
      ensures MemberKey(order[i], kind, u) !in db.members
    {
      LogAgrees(db, account, order, kind, u, i);
      assert !Present(db, order, kind, u, i);
    }
  }

  /**
   An end that says nothing about the list is read as one nobody is in: everybody at the other end
   is lost to it or gained since it, and the log holds no change there.
   */
  lemma SilenceIsReadAsEmptiness(db: Db, account: AccountId, kind: Kind, f: nat, t: nat)
    requires Sound(db) && f <= t < |Timeline(db.uploads, account)|
    ensures var order := Timeline(db.uploads, account);
            !Carried(db, order, kind, t) ==>
              && Lost(db, order[f], order[t], kind) == Names(db.members, order[f], kind)
              && Gained(db, order[f], order[t], kind) == {}
              && Unlogged(db, order, kind, t)
    ensures var order := Timeline(db.uploads, account);
            !Carried(db, order, kind, f) ==>
              && Gained(db, order[f], order[t], kind) == Names(db.members, order[t], kind)
              && Lost(db, order[f], order[t], kind) == {}
              && (f < t ==> Unlogged(db, order, kind, f + 1))
  {
    hide Sound;
    hide Unlogged;
    var order := Timeline(db.uploads, account);
    if !Carried(db, order, kind, t) {
      SilentHoldsNobody(db, account, order, kind, t);
      SilenceIsNotCompared(db, account, order, kind, t);
    }
    if !Carried(db, order, kind, f) {
      SilentHoldsNobody(db, account, order, kind, f);
      if f < t {
        SilenceIsNotCompared(db, account, order, kind, f + 1);
      }
    }
  }

  /** If `u` is reported lost, the later end carried the list. */
  ghost predicate LossSeen(e: Db, order: seq<UploadId>, kind: Kind, u: User, f: nat, t: nat)
    requires f <= t < |order|
  {
    u in Lost(e, order[f], order[t], kind) ==> Carried(e, order, kind, t)
  }

  /** If `u` is reported gained, the earlier end carried the list. */
  ghost predicate GainSeen(e: Db, order: seq<UploadId>, kind: Kind, u: User, f: nat, t: nat)
    requires f <= t < |order|
  {
    u in Gained(e, order[f], order[t], kind) ==> Carried(e, order, kind, f)
  }

  /** If `u` is reported lost, a departure of `u` is logged in the range. */
  ghost predicate LossLogged(e: Db, order: seq<UploadId>, kind: Kind, u: User, f: nat, t: nat)
    requires f <= t < |order|
  {
    u in Lost(e, order[f], order[t], kind) ==> Count(e, order, kind, u, Unfollowed, f, t) > 0
  }

  /** If `u` is reported gained, an arrival of `u` is logged in the range. */
  ghost predicate GainLogged(e: Db, order: seq<UploadId>, kind: Kind, u: User, f: nat, t: nat)
    requires f <= t < |order|
  {
    u in Gained(e, order[f], order[t], kind) ==> Count(e, order, kind, u, Followed, f, t) > 0
  }

  /**
   Whoever the members are, nobody is reported lost to a silent execution exactly when the later end
   carried the list or the earlier did not; and every loss reported is in the log exactly when all
   the range carried the list or its earlier end did not.
   */
  lemma LostExactly(db: Db, account: AccountId, kind: Kind, f: nat, t: nat)
    requires Sound(db) && f <= t < |Timeline(db.uploads, account)|
    ensures var order := Timeline(db.uploads, account);
            (forall e: Db, u: User | Sound(e) && SameCarried(db, e, account, kind) ::
                LossSeen(e, order, kind, u, f, t))
            <==> Carried(db, order, kind, t) || !Carried(db, order, kind, f)
    ensures var order := Timeline(db.uploads, account);
            (forall e: Db, u: User | Sound(e) && SameCarried(db, e, account, kind) ::
                LossLogged(e, order, kind, u, f, t))
            <==> CarriedThroughout(db, order, kind, f, t) || !Carried(db, order, kind, f)
  {
    hide Sound;
    hide SameCarried;
    var order := Timeline(db.uploads, account);
    forall e: Db, u: User | Sound(e) && SameCarried(db, e, account, kind)
      ensures Carried(db, order, kind, t) || !Carried(db, order, kind, f) ==> LossSeen(e, order, kind, u, f, t)
      ensures CarriedThroughout(db, order, kind, f, t) || !Carried(db, order, kind, f) ==>
                LossLogged(e, order, kind, u, f, t)
    {
      LostElsewhere(db, e, account, kind, u, f, t);
    }
    if Carried(db, order, kind, f) && !CarriedThroughout(db, order, kind, f, t) {
      var g := FirstGap(db, order, kind, f, t);
      var e := GapHidesLoss(db, account, kind, "anybody", f, t, g);
      SameOrder(db, e, account, kind);
      assert !LossLogged(e, order, kind, "anybody", f, t);
      assert !Carried(db, order, kind, t) ==> !LossSeen(e, order, kind, "anybody", f, t);
    }
  }

  lemma LostElsewhere(db: Db, e: Db, account: AccountId, kind: Kind, u: User, f: nat, t: nat)
    requires Sound(e) && SameCarried(db, e, account, kind) && f <= t < |Timeline(db.uploads, account)|
    ensures var order := Timeline(db.uploads, account);
            && (Carried(db, order, kind, t) || !Carried(db, order, kind, f) ==> LossSeen(e, order, kind, u, f, t))
            && (CarriedThroughout(db, order, kind, f, t) || !Carried(db, order, kind, f) ==>
                  LossLogged(e, order, kind, u, f, t))
  {
    hide Sound;
    hide SameCarried;
    hide Timeline;
    hide Unlogged;
    hide Returned;
    hide Transient;
    var order := Timeline(db.uploads, account);
    SameOrder(db, e, account, kind);
    SilenceIsReadAsEmptiness(e, account, kind, f, t);
    if CarriedThroughout(db, order, kind, f, t) {
      BucketTheorem(e, account, kind, u, f, t);
    }
  }

  /**
   The same of gains: nobody is reported gained since a silent execution exactly when the earlier
   end carried the list or the later did not; and every gain reported is in the log exactly when all
   the range carried the list or its later end did not.
   */
  lemma GainedExactly(db: Db, account: AccountId, kind: Kind, f: nat, t: nat)
    requires Sound(db) && f <= t < |Timeline(db.uploads, account)|
    ensures var order := Timeline(db.uploads, account);
            (forall e: Db, u: User | Sound(e) && SameCarried(db, e, account, kind) ::
                GainSeen(e, order, kind, u, f, t))
            <==> Carried(db, order, kind, f) || !Carried(db, order, kind, t)
    ensures var order := Timeline(db.uploads, account);
            (forall e: Db, u: User | Sound(e) && SameCarried(db, e, account, kind) ::
                GainLogged(e, order, kind, u, f, t))
            <==> CarriedThroughout(db, order, kind, f, t) || !Carried(db, order, kind, t)
  {
    hide Sound;
    hide SameCarried;
    var order := Timeline(db.uploads, account);
    forall e: Db, u: User | Sound(e) && SameCarried(db, e, account, kind)
      ensures Carried(db, order, kind, f) || !Carried(db, order, kind, t) ==> GainSeen(e, order, kind, u, f, t)
      ensures CarriedThroughout(db, order, kind, f, t) || !Carried(db, order, kind, t) ==>
                GainLogged(e, order, kind, u, f, t)
    {
      GainedElsewhere(db, e, account, kind, u, f, t);
    }
    if Carried(db, order, kind, t) && !CarriedThroughout(db, order, kind, f, t) {
      var h: nat :| f <= h <= t && !Carried(db, order, kind, h);
      var g := LastGap(db, order, kind, h, t);
      var e := GapHidesGain(db, account, kind, "anybody", f, t, g);
      SameOrder(db, e, account, kind);
      assert !GainLogged(e, order, kind, "anybody", f, t);
      assert !Carried(db, order, kind, f) ==> !GainSeen(e, order, kind, "anybody", f, t);
    }
  }

  lemma GainedElsewhere(db: Db, e: Db, account: AccountId, kind: Kind, u: User, f: nat, t: nat)
    requires Sound(e) && SameCarried(db, e, account, kind) && f <= t < |Timeline(db.uploads, account)|
    ensures var order := Timeline(db.uploads, account);
            && (Carried(db, order, kind, f) || !Carried(db, order, kind, t) ==> GainSeen(e, order, kind, u, f, t))
            && (CarriedThroughout(db, order, kind, f, t) || !Carried(db, order, kind, t) ==>
                  GainLogged(e, order, kind, u, f, t))
  {
    hide Sound;
    hide SameCarried;
    hide Timeline;
    hide Unlogged;
    hide Returned;
    hide Transient;
    var order := Timeline(db.uploads, account);
    SameOrder(db, e, account, kind);
    SilenceIsReadAsEmptiness(e, account, kind, f, t);
    if CarriedThroughout(db, order, kind, f, t) {
      BucketTheorem(e, account, kind, u, f, t);
    }
  }

  /** If `u` is reported as seen only in between, both ends carried the list and so showed `u` absent. */
  ghost predicate AbsenceSeen(e: Db, account: AccountId, order: seq<UploadId>, kind: Kind, u: User, f: nat, t: nat)
    requires f <= t < |order|
  {
    u in Transient(e, account, order[f], order[t], kind, f + 1, t + 1) ==>
      Carried(e, order, kind, f) && Carried(e, order, kind, t)
  }

  ghost predicate SilentBetween(db: Db, order: seq<UploadId>, kind: Kind, f: nat, t: nat)
    requires t < |order|
  {
    forall i: nat | f < i < t :: !Carried(db, order, kind, i)
  }

  /**
   Whoever the members are, only people both ends showed absent are reported as seen only in
   between, exactly when both ends carried the list or nothing between them did.
   */
  lemma TransientExactly(db: Db, account: AccountId, kind: Kind, f: nat, t: nat)
    requires Sound(db) && f <= t < |Timeline(db.uploads, account)|
    ensures var order := Timeline(db.uploads, account);
            (forall e: Db, u: User | Sound(e) && SameCarried(db, e, account, kind) ::
                AbsenceSeen(e, account, order, kind, u, f, t))
            <==> (Carried(db, order, kind, f) && Carried(db, order, kind, t)) || SilentBetween(db, order, kind, f, t)
  {
    hide Sound;
    hide SameCarried;
    hide Transient;
    var order := Timeline(db.uploads, account);
    if Carried(db, order, kind, f) && Carried(db, order, kind, t) {
      forall e: Db, u: User | Sound(e) && SameCarried(db, e, account, kind)
        ensures AbsenceSeen(e, account, order, kind, u, f, t)
      {
        SameOrder(db, e, account, kind);
      }
    } else if SilentBetween(db, order, kind, f, t) {
      forall e: Db, u: User | Sound(e) && SameCarried(db, e, account, kind) {
        NobodyInSilence(db, e, account, kind, u, f, t);
      }
    } else {
      var i: nat :| f < i < t && Carried(db, order, kind, i);
      var e := Staged(db, account, kind, "anybody", {i});
      TransientIs(e, account, order, kind, "anybody", f, t);
      assert Present(e, order, kind, "anybody", i);
      assert !AbsenceSeen(e, account, order, kind, "anybody", f, t);
    }
  }

  lemma NobodyInSilence(db: Db, e: Db, account: AccountId, kind: Kind, u: User, f: nat, t: nat)
    requires Sound(e) && SameCarried(db, e, account, kind) && f <= t < |Timeline(db.uploads, account)|
    requires SilentBetween(db, Timeline(db.uploads, account), kind, f, t)
    ensures AbsenceSeen(e, account, Timeline(db.uploads, account), kind, u, f, t)
  {
    hide Sound;
    hide SameCarried;
    hide Transient;
    var order := Timeline(db.uploads, account);
    SameOrder(db, e, account, kind);
    TransientIs(e, account, order, kind, u, f, t);
    forall i: nat | f < i < t
      ensures !Present(e, order, kind, u, i)
    {
      LogAgrees(e, account, order, kind, u, i);
    }
  }
}

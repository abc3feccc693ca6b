/**
 What two consecutive snapshots of one account say about each other: who arrived, who left, which
 departure and arrival are one renamed person, and why a follower left.
 */
module Snapshots {
  import opened Schema

  /** One list: who is in it and, where known, when each of them followed. */
  type Membership = map<User, Option<Time>>

  /** One execution.  A list it did not carry is absent; a list it carried empty is a key. */
  type Snapshot = map<Kind, Membership>

  /** Who changed sides between `prev` and `cur`.  A list missing from either says nothing. */
  function Changed(cur: Snapshot, prev: Snapshot, kind: Kind, change: ChangeType): set<User> {
    if kind !in cur || kind !in prev then {}
    else if change == Followed then cur[kind].Keys - prev[kind].Keys
    else prev[kind].Keys - cur[kind].Keys
  }

  /** The numbers recorded for one list of an execution; the baseline has no predecessor. */
  function Tally(cur: Snapshot, prev: Option<Snapshot>, kind: Kind): Totals
    requires kind in cur
  {
    if prev.None? then Totals(|cur[kind]|, 0, 0)
    else Totals(|cur[kind]|, |Changed(cur, prev.value, kind, Followed)|, |Changed(cur, prev.value, kind, Unfollowed)|)
  }

  /** The follower numbers mirrored onto the execution itself. */
  function FollowerTally(cur: Snapshot, prev: Option<Snapshot>): Totals {
    if Followers in cur then Tally(cur, prev, Followers) else Totals(0, 0, 0)
  }

  /** `user` left the follower list having followed at the known time `t`. */
  predicate GoneAt(cur: Snapshot, prev: Snapshot, user: User, t: Time) {
    user in Changed(cur, prev, Followers, Unfollowed) && prev[Followers][user] == Some(t)
  }

  /** `user` joined the follower list with the known follow time `t`. */
  predicate CameAt(cur: Snapshot, prev: Snapshot, user: User, t: Time) {
    user in Changed(cur, prev, Followers, Followed) && cur[Followers][user] == Some(t)
  }

  /** `from` and `to` are the only departure and the only arrival bearing the follow time `t`. */
  ghost predicate PairedAt(cur: Snapshot, prev: Snapshot, from: User, to: User, t: Time) {
    && GoneAt(cur, prev, from, t)
    && CameAt(cur, prev, to, t)
    && (forall user :: GoneAt(cur, prev, user, t) ==> user == from)
    && (forall user :: CameAt(cur, prev, user, t) ==> user == to)
  }

  ghost predicate Renaming(cur: Snapshot, prev: Snapshot, from: User, to: User) {
    exists t :: PairedAt(cur, prev, from, to, t)
  }

  ghost function RenamedTo(cur: Snapshot, prev: Snapshot, from: User): (to: Option<User>)
    ensures to.Some? ==> Renaming(cur, prev, from, to.value)
    ensures to.None? ==> forall u :: !Renaming(cur, prev, from, u)
  {
    if to :| Renaming(cur, prev, from, to) then Some(to) else None
  }

  ghost function RenamedFrom(cur: Snapshot, prev: Snapshot, to: User): (from: Option<User>)
    ensures from.Some? ==> Renaming(cur, prev, from.value, to)
    ensures from.None? ==> forall u :: !Renaming(cur, prev, u, to)
  {
    if from :| Renaming(cur, prev, from, to) then Some(from) else None
  }

  /** The one decision that explains a follower's departure; the first match wins. */
  ghost function ReasonFor(cur: Snapshot, prev: Snapshot, user: User): Reason {
    if RenamedTo(cur, prev, user).Some? then Renamed
    else if Blocked in cur && user in cur[Blocked] then YouBlocked
    else if Following in cur && Following in prev && user in cur[Following] then StillFollowed
    else if Following in cur && Following in prev && user in prev[Following] then Vanished
    else Unknown
  }

  /** The row recorded for one change once its execution has been classified. */
  ghost function Row(account: AccountId, prevId: UploadId, cur: Snapshot, prev: Snapshot, k: EventKey): (e: Event)
    ensures e.account == account && e.prev == prevId
  {
    if k.kind != Followers then Event(account, prevId, None, None, None)
    else if k.change == Unfollowed then
      Event(account, prevId, Some(ReasonFor(cur, prev, k.user)), RenamedTo(cur, prev, k.user), None)
    else
      Event(account, prevId, None, None, RenamedFrom(cur, prev, k.user))
  }

  /** Every change row execution `id` owes to its predecessor. */
  ghost function EventKeys(id: UploadId, cur: Snapshot, prev: Snapshot): (keys: set<EventKey>)
    ensures forall k :: k in keys <==> k.upload == id && k.user in Changed(cur, prev, k.kind, k.change)
  {
    var arrivals := set kind, u | kind in cur
        && u in Changed(cur, prev, kind, Followed) :: EventKey(id, kind, u, Followed);
    var departures := set kind, u | kind in cur
        && u in Changed(cur, prev, kind, Unfollowed) :: EventKey(id, kind, u, Unfollowed);
    arrivals + departures
  }

  // ---------------------------------------------------------------- renames

  /** The two directions of a rename undo each other, so each is a partial injection. */
  lemma RenamesInverse(cur: Snapshot, prev: Snapshot, from: User, to: User)
    ensures RenamedTo(cur, prev, from) == Some(to) <==> RenamedFrom(cur, prev, to) == Some(from)
    ensures RenamedTo(cur, prev, from) == Some(to) <==> Renaming(cur, prev, from, to)
  {
    if Renaming(cur, prev, from, to) {
      var t :| PairedAt(cur, prev, from, to, t);
      RenamingUnique(cur, prev, from, to, RenamedFrom(cur, prev, to).value, RenamedTo(cur, prev, from).value);
    }
  }

  lemma RenamingUnique(cur: Snapshot, prev: Snapshot, from: User, to: User, from2: User, to2: User)
    requires Renaming(cur, prev, from, to)
    ensures Renaming(cur, prev, from2, to) ==> from2 == from
    ensures Renaming(cur, prev, from, to2) ==> to2 == to
  {
    var t :| PairedAt(cur, prev, from, to, t);
    if Renaming(cur, prev, from2, to) {
      var s :| PairedAt(cur, prev, from2, to, s);
    }
    if Renaming(cur, prev, from, to2) {
      var s :| PairedAt(cur, prev, from, to2, s);
    }
  }

  ghost function GoneWith(cur: Snapshot, prev: Snapshot, t: Time): set<User> {
    set u | u in Changed(cur, prev, Followers, Unfollowed) && GoneAt(cur, prev, u, t)
  }

  ghost function CameWith(cur: Snapshot, prev: Snapshot, t: Time): set<User> {
    set u | u in Changed(cur, prev, Followers, Followed) && CameAt(cur, prev, u, t)
  }

  lemma PairedIsOnly(cur: Snapshot, prev: Snapshot, from: User, to: User, t: Time)
    ensures PairedAt(cur, prev, from, to, t) <==> (GoneWith(cur, prev, t) == {from} && CameWith(cur, prev, t) == {to})
  {
    var gone, came := GoneWith(cur, prev, t), CameWith(cur, prev, t);
    assert from in gone <==> GoneAt(cur, prev, from, t);
    assert to in came <==> CameAt(cur, prev, to, t);
    if gone == {from} && came == {to} {
      assert forall u :: GoneAt(cur, prev, u, t) ==> u in gone;
      assert forall u :: CameAt(cur, prev, u, t) ==> u in came;
    }
  }

  /**
   The pairing is the maximal unambiguous one: a follow time is paired exactly when one dated
   departure and one dated arrival bear it, and those two are then the pair.
   */
  lemma PairingIsMaximal(cur: Snapshot, prev: Snapshot, t: Time)
    ensures (exists from, to :: PairedAt(cur, prev, from, to, t))
            <==> (|GoneWith(cur, prev, t)| == 1 && |CameWith(cur, prev, t)| == 1)
    ensures forall from, to ::
              PairedAt(cur, prev, from, to, t)
              <==> (GoneWith(cur, prev, t) == {from} && CameWith(cur, prev, t) == {to})
  {
    forall from, to
      ensures PairedAt(cur, prev, from, to, t) <==> (GoneWith(cur, prev, t) == {from} && CameWith(cur, prev, t) == {to})
    {
      PairedIsOnly(cur, prev, from, to, t);
    }
    var gone, came := GoneWith(cur, prev, t), CameWith(cur, prev, t);
    if |gone| == 1 && |came| == 1 {
      assert PairedAt(cur, prev, Only(gone), Only(came), t);
    }
  }

  ghost function Only<T>(s: set<T>): (x: T)
    requires |s| == 1
    ensures s == {x}
  {
    var x :| x in s;
    assert s == {x} by {
      if y :| y in s && y != x {
        assert {x, y} <= s;
        SubsetSize({x, y}, s);
      }
    }
    x
  }

  lemma {:induction false} SubsetSize<T>(a: set<T>, b: set<T>)
    requires a <= b
    ensures |a| <= |b|
    decreases a
  {
    if a != {} {
      var x :| x in a;
      SubsetSize(a - {x}, b - {x});
    }
  }
}

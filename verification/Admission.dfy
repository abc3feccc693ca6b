/**
 Which earlier execution a new upload is judged against, and whether it may be recorded.
 */
module Admission {
  import opened Schema
  import opened Snapshots
  import opened DateOrder
  import opened Operations

  // ---------------------------------------------------------------- the preceding execution

  /** A completed execution dated no later than `takenAt`. */
  predicate Candidate(db: Db, account: AccountId, takenAt: Time, exclude: UploadId, id: UploadId) {
    IsCompleted(db.uploads, account, id) && id != exclude
    && db.uploads[id].takenAt.Some? && db.uploads[id].takenAt.value <= takenAt
  }

  /** `p` is the last candidate in date order, if there is any. */
  ghost predicate IsPreceding(db: Db, account: AccountId, takenAt: Time, exclude: UploadId, p: Option<UploadId>) {
    match p
    case None => forall id :: !Candidate(db, account, takenAt, exclude, id)
    case Some(x) =>
      Candidate(db, account, takenAt, exclude, x)
      && forall y | Candidate(db, account, takenAt, exclude, y) && y != x :: Before(db.uploads[y], y, db.uploads[x], x)
  }

  /** There is at most one. */
  lemma PrecedingIsUnique(db: Db, account: AccountId, takenAt: Time, exclude: UploadId, p: Option<UploadId>,
      q: Option<UploadId>)
    requires IsPreceding(db, account, takenAt, exclude, p) && IsPreceding(db, account, takenAt, exclude, q)
    ensures p == q
  {
    if p.Some? {
      assert Candidate(db, account, takenAt, exclude, p.value);
      assert q.Some?;
    }
  }

  /** No completed execution dated `takenAt` was uploaded after upload `id`. */
  ghost predicate NoLaterTwin(db: Db, id: UploadId, takenAt: Time)
    requires id in db.uploads
  {
    forall y | IsCompleted(db.uploads, db.uploads[id].account, y) && y != id
      && db.uploads[y].takenAt == Some(takenAt) ::
      db.uploads[y].uploadedAt < db.uploads[id].uploadedAt
      || (db.uploads[y].uploadedAt == db.uploads[id].uploadedAt && y.n < id.n)
  }

  /** The predecessor in a timeline is the last execution before. */
  lemma PredecessorIsLast(uploads: map<UploadId, Upload>, account: AccountId, id: UploadId)
    requires IsCompleted(uploads, account, id)
    ensures var p := Predecessor(Timeline(uploads, account), id);
            match p
            case None => forall y | IsCompleted(uploads, account, y) && y != id ::
                !Before(uploads[y], y, uploads[id], id)
            case Some(x) =>
              && IsCompleted(uploads, account, x) && x != id && Before(uploads[x], x, uploads[id], id)
              && forall y | IsCompleted(uploads, account, y) && y != x && Before(uploads[y], y, uploads[id], id) ::
                   Before(uploads[y], y, uploads[x], x)
  {
    var order := Timeline(uploads, account);
    assert id in order;
    var q := Position(order, id);
    forall y | IsCompleted(uploads, account, y)
      ensures Before(uploads[y], y, uploads[id], id) <==> Position(order, y) < q
      ensures q > 0 && Position(order, y) < q - 1 ==> Before(uploads[y], y, uploads[order[q - 1]], order[q - 1])
    {
      assert y in order;
    }
    if q > 0 {
      assert order[q - 1] in order;
    }
  }

  lemma AppliedPlaces(db: Db, id: UploadId, snapshot: Snapshot, takenAt: Time, source: Source)
    requires id in db.uploads
    ensures var e, account := Applied(db, id, snapshot, takenAt, source), db.uploads[id].account;
            && IsCompleted(e.uploads, account, id) && e.uploads[id].takenAt == Some(takenAt)
            && e.uploads[id].uploadedAt == db.uploads[id].uploadedAt
            && (forall y | y != id :: IsCompleted(e.uploads, account, y) <==> IsCompleted(db.uploads, account, y))
            && (forall y | y != id && IsCompleted(db.uploads, account, y) ::
                 y in e.uploads && SamePlace(db.uploads[y], e.uploads[y]))
  {
  }

  /**
   The execution an upload is judged against is the one it will be compared with, and there is none
   just when it will be the baseline -- unless an execution of the very same date was uploaded after
   it: then, and only then, the two differ.
   */
  lemma JudgedAgainstPredecessor(db: Db, id: UploadId, snapshot: Snapshot, takenAt: Time, source: Source,
      p: Option<UploadId>)
    requires id in db.uploads && db.uploads[id].status != Completed
    requires forall y | IsCompleted(db.uploads, db.uploads[id].account, y) :: db.uploads[y].takenAt.Some?
    requires IsPreceding(db, db.uploads[id].account, takenAt, id, p)
    ensures var e, account := Applied(db, id, snapshot, takenAt, source), db.uploads[id].account;
            Predecessor(Timeline(e.uploads, account), id) == p <==> NoLaterTwin(db, id, takenAt)
  {
    var e, account := Applied(db, id, snapshot, takenAt, source), db.uploads[id].account;
    AppliedPlaces(db, id, snapshot, takenAt, source);
    PredecessorIsLast(e.uploads, account, id);
    if NoLaterTwin(db, id, takenAt) {
      forall y | IsCompleted(db.uploads, account, y) {
        CandidateIsBefore(db, e, account, id, takenAt, y);
      }
      TwinFree(db, e, account, id, takenAt, p);
    } else {
      LaterTwin(db, e, account, id, takenAt, p);
    }
  }

  lemma CandidateIsBefore(db: Db, e: Db, account: AccountId, id: UploadId, takenAt: Time, y: UploadId)
    requires id in db.uploads && db.uploads[id].account == account && NoLaterTwin(db, id, takenAt)
    requires id in e.uploads && e.uploads[id].takenAt == Some(takenAt)
             && e.uploads[id].uploadedAt == db.uploads[id].uploadedAt
    requires y != id && IsCompleted(db.uploads, account, y) && IsCompleted(e.uploads, account, y)
             && SamePlace(db.uploads[y], e.uploads[y])
    requires db.uploads[y].takenAt.Some?
    ensures Candidate(db, account, takenAt, id, y) <==> Before(e.uploads[y], y, e.uploads[id], id)
  {
  }

  lemma LaterTwin(db: Db, e: Db, account: AccountId, id: UploadId, takenAt: Time, p: Option<UploadId>)
    requires id in db.uploads && db.uploads[id].account == account && !NoLaterTwin(db, id, takenAt)
    requires IsCompleted(e.uploads, account, id)
    requires e.uploads[id].takenAt == Some(takenAt) && e.uploads[id].uploadedAt == db.uploads[id].uploadedAt
    requires forall y | y != id :: IsCompleted(e.uploads, account, y) <==> IsCompleted(db.uploads, account, y)
    requires forall y | y != id && IsCompleted(db.uploads, account, y) && IsCompleted(e.uploads, account, y) ::
               SamePlace(db.uploads[y], e.uploads[y])
    requires IsPreceding(db, account, takenAt, id, p)
    ensures Predecessor(Timeline(e.uploads, account), id) != p
  {
    var y :| IsCompleted(db.uploads, account, y) && y != id && db.uploads[y].takenAt == Some(takenAt)
             && !(db.uploads[y].uploadedAt < db.uploads[id].uploadedAt
                  || (db.uploads[y].uploadedAt == db.uploads[id].uploadedAt && y.n < id.n));
    assert Candidate(db, account, takenAt, id, y);
    var x := p.value;
    assert IsCompleted(e.uploads, account, x) && SamePlace(db.uploads[x], e.uploads[x]);
    assert !Before(e.uploads[x], x, e.uploads[id], id);
    PredecessorIsLast(e.uploads, account, id);
  }

  lemma TwinFree(db: Db, e: Db, account: AccountId, id: UploadId, takenAt: Time, p: Option<UploadId>)
    requires IsCompleted(e.uploads, account, id)
    requires forall y | y != id :: IsCompleted(e.uploads, account, y) <==> IsCompleted(db.uploads, account, y)
    requires forall y | y != id && IsCompleted(db.uploads, account, y) && IsCompleted(e.uploads, account, y) ::
               SamePlace(db.uploads[y], e.uploads[y])
    requires !IsCompleted(db.uploads, account, id)
    requires forall y | IsCompleted(db.uploads, account, y) && IsCompleted(e.uploads, account, y) ::
               Candidate(db, account, takenAt, id, y) <==> Before(e.uploads[y], y, e.uploads[id], id)
    requires IsPreceding(db, account, takenAt, id, p)
    ensures Predecessor(Timeline(e.uploads, account), id) == p
  {
    var q := Predecessor(Timeline(e.uploads, account), id);
    PredecessorIsLast(e.uploads, account, id);
    if p.Some? {
      assert IsCompleted(e.uploads, account, p.value);
      assert Before(e.uploads[p.value], p.value, e.uploads[id], id);
    }
    if q.Some? {
      assert IsCompleted(db.uploads, account, q.value);
      assert Candidate(db, account, takenAt, id, q.value);
    }
  }

  // ---------------------------------------------------------------- coverage

  const COLLAPSE_DROP_RATIO: real := 0.5
  const COLLAPSE_MINIMUM_FOLLOWERS: nat := 25

  datatype Verdict = Admitted | DeclaredPartial | Collapsed

  /** Whether an export listing `count` followers may be recorded after an execution with `previous`. */
  function CheckCoverage(declaredPartial: bool, count: nat, previous: Option<nat>, allowPartial: bool): Verdict {
    if allowPartial then Admitted
    else if declaredPartial then DeclaredPartial
    else if previous.None? || previous.value < COLLAPSE_MINIMUM_FOLLOWERS then Admitted
    else if count as real >= previous.value as real * COLLAPSE_DROP_RATIO then Admitted
    else Collapsed
  }

  /**
   An export is admitted exactly when the override is set, or it does not declare itself partial and
   keeps at least half of what stood in a predecessor of 25 or more.  What it declares is looked at
   before the numbers are.
   */
  lemma AdmittedExactly(declaredPartial: bool, count: nat, previous: Option<nat>, allowPartial: bool)
    ensures var verdict := CheckCoverage(declaredPartial, count, previous, allowPartial);
            var keepsHalf := previous.None? || previous.value < 25 || 2 * count >= previous.value;
            && (verdict == Admitted <==> allowPartial || (!declaredPartial && keepsHalf))
            && (verdict == DeclaredPartial <==> !allowPartial && declaredPartial)
            && (verdict == Collapsed <==> !allowPartial && !declaredPartial && !keepsHalf)
  {
  }
}

/**
 Stores left by earlier versions.  In the oldest the executions carry only the order they were
 processed in, the departures no reason, and the lists are the follower list alone: reading the dates
 the retained files still give mends it.  Where the dates are known already nothing is read at
 start-up, and departures without a reason stay until something of their account is recorded.
 */
module Upgrade {
  import opened Schema
  import opened DateOrder
  import opened History
  import opened Operations
  import opened Export
  import opened Machine
  import Provenance
  import Safety

  // ---------------------------------------------------------------- unknown dates

  /** A completed execution whose date is only the order it was processed in. */
  ghost predicate Undated(db: Db, id: UploadId) {
    id in db.uploads && db.uploads[id].status == Completed && db.uploads[id].source == ProcessingOrder
  }

  /** Its file is there and gives a date. */
  ghost predicate Datable(s: System, id: UploadId) {
    id in s.db.uploads && ReadFile(s, id).Some? && DetectSnapshotDate(ReadFile(s, id).value, s.db.uploads[id]).Some?
  }

  /** Said of the file: it reads, and it or its name says when it was made. */
  lemma DatableIs(s: System, id: UploadId)
    ensures Datable(s, id) <==>
              && id in s.db.uploads && id in s.files && Parsed(s.files[id]).Some?
              && (Provenance.DatesItself(s.files[id]) || s.db.uploads[id].filenameDate.Some?)
  {
    if id in s.db.uploads && ReadFile(s, id).Some? {
      Provenance.DetectedIs(s.files[id], s.db.uploads[id]);
    }
    hide Parsed;
    hide DetectSnapshotDate;
  }

  /** The history of the account of `id` agrees with its executions. */
  ghost predicate Mended(db: Db, id: UploadId) {
    id in db.uploads && Consistent(db, db.uploads[id].account)
  }

  lemma RedateEnabled(s: System, id: UploadId)
    requires s.pc == Starting && Undated(s.db, id) && Datable(s, id)
    ensures Enabled(s, Redate(id))
  {
  }

  /** A corrected date is known from then on, and other executions are as datable as before. */
  lemma DatedOnce(s: System, id: UploadId, takenAt: Time, source: Source)
    requires id in s.db.uploads && ReadFile(s, id).Some?
    requires DetectSnapshotDate(ReadFile(s, id).value, s.db.uploads[id]) == Some((takenAt, source))
    ensures var t := s.(db := Redated(s.db, id, takenAt, source));
            && !Undated(t.db, id)
            && forall x | x != id :: (Undated(t.db, x) <==> Undated(s.db, x)) && (Datable(t, x) <==> Datable(s, x))
  {
    hide Redated;
    hide Parsed;
    ParsedIsValid(s.files[id]);
    RedatedColumns(s.db, id, takenAt, source);
  }

  lemma RedatedColumns(db: Db, id: UploadId, takenAt: Time, source: Source)
    requires id in db.uploads
    ensures var r := Redated(db, id, takenAt, source);
            && r.uploads.Keys == db.uploads.Keys && r.uploads[id].source == source
            && forall x | x in db.uploads ::
                 && r.uploads[x].status == db.uploads[x].status && r.uploads[x].account == db.uploads[x].account
                 && r.uploads[x].filenameDate == db.uploads[x].filenameDate
                 && (x != id ==> r.uploads[x].source == db.uploads[x].source)
  {
  }

  /** A corrected date mends its account, and what was mended stays so. */
  lemma RedateMends(s: System, id: UploadId)
    requires Fit(s) && Enabled(s, Redate(id))
    ensures Mended(Perform(s, Redate(id)).db, id)
    ensures forall x | Mended(s.db, x) :: Mended(Perform(s, Redate(id)).db, x)
  {
    hide Consistent;
    hide UploadOk;
    var when := DetectSnapshotDate(ReadFile(s, id).value, s.db.uploads[id]).value;
    RedatedColumns(s.db, id, when.0, when.1);
    forall account: AccountId {
      RedatedConsistency(s.db, id, when.0, when.1, account);
    }
    hide WellFormed;
    hide Redated;
  }

  /** Putting uploads back in the queue touches no execution. */
  lemma RequeueKeepsDates(s: System)
    requires Enabled(s, Start)
    ensures var t := Perform(s, Start);
            forall x :: (Undated(t.db, x) <==> Undated(s.db, x)) && (Datable(t, x) <==> Datable(s, x))
  {
    hide Parsed;
  }

  // ---------------------------------------------------------------- upgraded stores

  /** What the upgrades leave of one upload. */
  ghost predicate UpgradedRow(db: Db, id: UploadId)
    requires id in db.uploads
  {
    var up := db.uploads[id];
    && up.manualDate.None? && up.reprocessAt.None?
    && (up.status == Completed <==> up.sequenceNo.Some?)
    && (up.status == Completed ==>
          up.takenAt.Some? && up.source == ProcessingOrder
          && ListKey(id, Followers) in db.lists && Names(db.members, id, Followers) != {})
  }

  ghost predicate Upgraded(db: Db) {
    && WellFormed(db)
    && (forall id | id in db.uploads :: UpgradedRow(db, id))
    && (forall l | l in db.lists :: l.kind == Followers)
    && (forall k | k in db.changes :: k.kind == Followers && db.changes[k].reason.None? && db.changes[k].renamedTo.None?
                                      && k.upload in db.uploads && db.uploads[k.upload].status == Completed)
  }

  /** Each account with an execution has one whose file gives its date. */
  ghost predicate AccountsDatable(s: System) {
    forall id | id in s.db.uploads && s.db.uploads[id].status == Completed ::
        AccountDatable(s, s.db.uploads[id].account)
  }

  ghost predicate AccountDatable(s: System, account: AccountId) {
    exists x :: Undated(s.db, x) && Datable(s, x) && IsCompleted(s.db.uploads, account, x)
  }

  /** A service can be started over an upgraded store. */
  lemma UpgradedIsUsable(db: Db)
    requires Upgraded(db)
    ensures Usable(db)
  {
    hide WellFormed;
    forall id | id in db.uploads
      ensures UploadOk(db, id)
    {
      assert UpgradedRow(db, id);
    }
  }

  /** An account with a departure that has no reason does not agree with its executions. */
  lemma UnexplainedIsNotMended(db: Db, k: EventKey)
    requires k in db.changes && k.kind == Followers && k.change == Unfollowed && db.changes[k].reason.None?
    ensures !Consistent(db, db.changes[k].account)
  {
    var account := db.changes[k].account;
    if Consistent(db, account) {
      DerivedHasReason(db, account, k);
      assert false;
    }
  }

  lemma DerivedHasReason(db: Db, account: AccountId, k: EventKey)
    requires k.kind == Followers && k.change == Unfollowed && Consistent(db, account)
    requires k in db.changes && db.changes[k].account == account
    ensures db.changes[k].reason.Some?
  {
    var order := Timeline(db.uploads, account);
    assert k in KeysAt(db, order, k.upload);
    assert db.changes[k] == DerivedRow(db, account, order, k);
  }

  lemma NothingToMend(db: Db, account: AccountId)
    requires Upgraded(db) && forall id :: !IsCompleted(db.uploads, account, id)
    ensures Consistent(db, account)
  {
    var order := Timeline(db.uploads, account);
    assert forall id :: id !in order;
    assert forall id :: KeysAt(db, order, id) == {};
    forall id | id in db.uploads && db.uploads[id].account == account
      ensures db.uploads[id] == DerivedUpload(db, account, order, id)
    {
      assert UpgradedRow(db, id) && !IsCompleted(db.uploads, account, id);
    }
    forall k | k in db.changes
      ensures db.changes[k].account != account
    {
      assert !IsCompleted(db.uploads, account, k.upload);
    }
  }

  // ---------------------------------------------------------------- runs that mend

  /** Some step of `steps` rebuilds the account, to which its execution belongs in `db`. */
  ghost predicate Rebuilds(steps: seq<Step>, db: Db, account: AccountId) {
    exists step | step in steps ::
      Rebuilding(step) && step.id in db.uploads && db.uploads[step.id].account == account
  }

  lemma RebuildIsThere(s: System, steps: seq<Step>, t: System, account: AccountId)
    requires Fit(s) && steps != [] && Path(s, steps, t) && Rebuilding(steps[0])
    ensures Mends(s, steps[0], account) <==>
              steps[0].id in t.db.uploads && t.db.uploads[steps[0].id].account == account
  {
    hide Fit;
    Safety.NothingIsLost(s, steps, t, steps[0].id);
    hide Perform;
    hide Path;
    hide ReadFile;
    hide Admits;
  }

  lemma {:induction false} MendsIs(s: System, steps: seq<Step>, t: System, account: AccountId)
    requires Fit(s) && Path(s, steps, t)
    ensures MendsOnTheWay(s, steps, account) <==> Rebuilds(steps, t.db, account)
    decreases |steps|
  {
    hide Fit;
    hide Enabled;
    hide Perform;
    if steps != [] {
      StepFit(s, steps[0]);
      MendsIs(Perform(s, steps[0]), steps[1..], t, account);
      assert forall step :: step in steps <==> step == steps[0] || step in steps[1..];
      if Rebuilding(steps[0]) {
        RebuildIsThere(s, steps, t, account);
      }
    }
  }

  /**
   Over any run, from whatever an earlier version left, every history ends in agreement exactly when
   each account that did not agree before has an execution recorded, read again or redated.
   */
  lemma MendedExactly(s: System, steps: seq<Step>, t: System)
    requires Fit(s) && Path(s, steps, t)
    ensures Inv(t) <==> forall account :: Rebuilds(steps, t.db, account) || Consistent(s.db, account)
  {
    hide Path;
    hide Rebuilds;
    hide Consistent;
    hide MendsOnTheWay;
    PathFit(s, steps, t);
    forall account: AccountId
      ensures Consistent(t.db, account) <==> Rebuilds(steps, t.db, account) || Consistent(s.db, account)
    {
      MendsIs(s, steps, t, account);
      PathConsistency(s, steps, t, account);
    }
    hide UploadOk;
    hide WellFormed;
    hide Accounted;
    hide AtCompleted;
  }

  /**
   A run that rebuilds the account of every execution whose file gives its date leaves an upgraded
   store sound, if every account with executions has one.
   */
  lemma UpgradeIsMended(s: System, steps: seq<Step>, t: System)
    requires Upgraded(s.db) && AccountsDatable(s) && Fit(s) && Path(s, steps, t)
    requires forall x | Undated(s.db, x) && Datable(s, x) :: Rebuilds(steps, t.db, s.db.uploads[x].account)
    ensures Inv(t)
  {
    hide Path;
    hide Rebuilds;
    hide Consistent;
    hide Fit;
    MendedExactly(s, steps, t);
    forall account: AccountId
      ensures Rebuilds(steps, t.db, account) || Consistent(s.db, account)
    {
      if id :| IsCompleted(s.db.uploads, account, id) {
        assert AccountDatable(s, s.db.uploads[id].account);
        var x :| Undated(s.db, x) && Datable(s, x) && IsCompleted(s.db.uploads, account, x);
      } else {
        NothingToMend(s.db, account);
      }
    }
    hide Upgraded;
    hide Datable;
  }

  /** A redating on the way leaves its account mended at the end. */
  lemma RedatedIsMended(s: System, steps: seq<Step>, t: System, x: UploadId)
    requires Fit(s) && Path(s, steps, t) && x in s.db.uploads && Redate(x) in steps
    ensures Rebuilds(steps, t.db, s.db.uploads[x].account) && Mended(t.db, x)
  {
    hide Path;
    hide Fit;
    hide Consistent;
    hide MendsOnTheWay;
    var account := s.db.uploads[x].account;
    Safety.NothingIsLost(s, steps, t, x);
    assert Rebuilding(Redate(x));
    MendsIs(s, steps, t, account);
    PathConsistency(s, steps, t, account);
  }

  /** A run that redates every execution whose file gives its date. */
  lemma RedatingMends(s: System, steps: seq<Step>, t: System)
    requires Fit(s) && Path(s, steps, t)
    requires forall x | Undated(s.db, x) && Datable(s, x) :: Redate(x) in steps
    ensures forall x | Undated(s.db, x) && Datable(s, x) :: Mended(t.db, x)
    ensures Upgraded(s.db) && AccountsDatable(s) ==> Inv(t)
  {
    hide Path;
    hide Fit;
    hide Datable;
    hide Mended;
    hide Rebuilds;
    hide Upgraded;
    hide AccountsDatable;
    hide Inv;
    forall x | Undated(s.db, x) && Datable(s, x)
      ensures Mended(t.db, x) && Rebuilds(steps, t.db, s.db.uploads[x].account)
    {
      RedatedIsMended(s, steps, t, x);
    }
    if Upgraded(s.db) && AccountsDatable(s) {
      UpgradeIsMended(s, steps, t);
    }
  }

  // ---------------------------------------------------------------- dates already known

  /** No date of the account is unknown, so start-up reads none of its files. */
  ghost predicate AllDated(db: Db, account: AccountId) {
    forall x | IsCompleted(db.uploads, account, x) :: !Undated(db, x)
  }

  lemma StepStaysDated(s: System, step: Step, account: AccountId)
    requires Fit(s) && Enabled(s, step) && AllDated(s.db, account) && !step.Record? && !step.ReadAgain?
    ensures AllDated(Perform(s, step).db, account) && !Mends(s, step, account)
  {
    hide WellFormed;
    hide UploadOk;
    if step.Redate? {
      RedateStaysDated(s, step.id, account);
      hide Enabled;
      hide Perform;
    } else {
      OtherEdits(s, step);
      hide Enabled;
      hide Perform;
      EditStaysDated(s, step, Perform(s, step), account);
    }
  }

  lemma RedateStaysDated(s: System, id: UploadId, account: AccountId)
    requires Enabled(s, Redate(id)) && AllDated(s.db, account)
    ensures AllDated(Perform(s, Redate(id)).db, account) && !Mends(s, Redate(id), account)
  {
    var t := Perform(s, Redate(id));
    var when := DetectSnapshotDate(ReadFile(s, id).value, s.db.uploads[id]).value;
    RedatedColumns(s.db, id, when.0, when.1);
    assert s.db.uploads[id].account == account ==> IsCompleted(s.db.uploads, account, id);
    hide Redated;
    hide ReadFile;
    forall x | IsCompleted(t.db.uploads, account, x)
      ensures !Undated(t.db, x)
    {
      assert IsCompleted(s.db.uploads, account, x);
    }
  }

  lemma EditStaysDated(s: System, step: Step, t: System, account: AccountId)
    requires Edits(s, step, t) && AllDated(s.db, account)
    ensures AllDated(t.db, account)
  {
    forall x | IsCompleted(t.db.uploads, account, x)
      ensures !Undated(t.db, x)
    {
      assert IsCompleted(s.db.uploads, account, x);
    }
  }

  /**
   Where every date is known, a departure without a reason outlives any run that records and rereads
   nothing, the start of the service included.
   */
  lemma {:induction false} UnexplainedStays(s: System, steps: seq<Step>, t: System, account: AccountId)
    requires Fit(s) && Path(s, steps, t) && AllDated(s.db, account)
    requires forall step | step in steps :: !step.Record? && !step.ReadAgain?
    ensures AllDated(t.db, account)
    ensures Consistent(t.db, account) <==> Consistent(s.db, account)
    decreases |steps|
  {
    hide Consistent;
    hide AllDated;
    hide Mends;
    hide Fit;
    hide Enabled;
    hide Perform;
    if steps != [] {
      assert steps[0] in steps;
      StepStaysDated(s, steps[0], account);
      StepConsistency(s, steps[0], account);
      StepFit(s, steps[0]);
      UnexplainedStays(Perform(s, steps[0]), steps[1..], t, account);
    }
  }

  // ---------------------------------------------------------------- one such store

  const FIRST := UploadId(1)
  const SECOND := UploadId(2)

  /** A row as the upgrades leave it, dated by `source`, with an earlier date in its file name. */
  function OldRow(source: Source, processed: Time, named: Time, n: nat, totals: Totals): Upload {
    Upload(0, Completed, processed, Some(processed), source, None, Some(named), false, None, Some(n), totals)
  }

  /** Two executions, dated by `source`, and a departure without a reason. */
  function OldStore(source: Source): Db {
    Db(map[FIRST := OldRow(source, 10, 5, 1, Totals(1, 0, 0)), SECOND := OldRow(source, 20, 3, 2, Totals(1, 1, 1))],
       map[MemberKey(FIRST, Followers, "ann") := None, MemberKey(SECOND, Followers, "bob") := None],
       map[ListKey(FIRST, Followers) := Totals(1, 0, 0), ListKey(SECOND, Followers) := Totals(1, 1, 1)],
       map[EventKey(SECOND, Followers, "ann", Unfollowed) := Event(0, FIRST, None, None, None),
           EventKey(SECOND, Followers, "bob", Followed) := Event(0, FIRST, None, None, None)])
  }

  /** An upgraded store that is not sound, all of whose executions have files that date them. */
  lemma SomeUpgrade(id: UploadId, content: Content)
    requires Parsed(content).Some?
    ensures var db := OldStore(ProcessingOrder);
            && Upgraded(db) && !Sound(db) && AccountsDatable(Opened(db, map[FIRST := content, SECOND := content], true))
            && (id in db.uploads ==> Undated(db, id))
  {
    OldStoreIsUpgraded();
    OldIsNotSound();
    OldFilesDate(content);
    OldIsUndated(id);
    hide Upgraded;
    hide AccountsDatable;
    hide Undated;
    hide Sound;
    hide OldStore;
  }

  lemma OldIsUndated(id: UploadId)
    ensures id in OldStore(ProcessingOrder).uploads ==> Undated(OldStore(ProcessingOrder), id)
  {
  }

  lemma OldIsNotSound()
    ensures !Sound(OldStore(ProcessingOrder))
  {
    hide Consistent;
    hide OldStore;
    OldDepartureIsUnexplained(ProcessingOrder);
  }

  /** A store a service can be started over that has all its dates and a departure without a reason. */
  lemma SomeDatedStore(source: Source)
    requires source != ProcessingOrder
    ensures Usable(OldStore(source)) && AllDated(OldStore(source), 0) && !Consistent(OldStore(source), 0)
  {
    OldDepartureIsUnexplained(source);
    OldStoreIsWellFormed(source);
    hide Consistent;
    hide WellFormed;
    forall id | id in OldStore(source).uploads
      ensures UploadOk(OldStore(source), id)
    {
      OldRowIsOk(source, id, if id == FIRST then "ann" else "bob");
    }
  }

  lemma OldDepartureIsUnexplained(source: Source)
    ensures !Consistent(OldStore(source), 0)
  {
    UnexplainedIsNotMended(OldStore(source), EventKey(SECOND, Followers, "ann", Unfollowed));
    hide Consistent;
  }

  lemma OldFilesDate(content: Content)
    requires Parsed(content).Some?
    ensures AccountsDatable(Opened(OldStore(ProcessingOrder), map[FIRST := content, SECOND := content], true))
  {
    hide Parsed;
    var s := Opened(OldStore(ProcessingOrder), map[FIRST := content, SECOND := content], true);
    assert Undated(s.db, FIRST) && Datable(s, FIRST) && IsCompleted(s.db.uploads, 0, FIRST);
    assert AccountDatable(s, 0);
    hide AccountDatable;
  }

  lemma OldStoreIsUpgraded()
    ensures Upgraded(OldStore(ProcessingOrder))
  {
    hide WellFormed;
    hide UpgradedRow;
    hide UploadOk;
    var db := OldStore(ProcessingOrder);
    OldStoreIsWellFormed(ProcessingOrder);
    forall id | id in db.uploads
      ensures UpgradedRow(db, id)
    {
      OldRowIsOk(ProcessingOrder, id, if id == FIRST then "ann" else "bob");
      OldRowIsUpgraded(id);
    }
    OldRest();
    hide OldStore;
  }

  lemma OldRest()
    ensures var db := OldStore(ProcessingOrder);
            && (forall l | l in db.lists :: l.kind == Followers)
            && (forall k | k in db.changes ::
                  && k.kind == Followers && db.changes[k].reason.None? && db.changes[k].renamedTo.None?
                  && k.upload in db.uploads && db.uploads[k.upload].status == Completed)
  {
  }

  lemma OldRowIsOk(source: Source, id: UploadId, u: User)
    requires id in OldStore(source).uploads && MemberKey(id, Followers, u) in OldStore(source).members
    ensures UploadOk(OldStore(source), id)
  {
    assert u in Names(OldStore(source).members, id, Followers);
    hide Names;
  }

  lemma OldRowIsUpgraded(id: UploadId)
    requires id in OldStore(ProcessingOrder).uploads && UploadOk(OldStore(ProcessingOrder), id)
    ensures UpgradedRow(OldStore(ProcessingOrder), id)
  {
    hide Names;
  }

  lemma OldStoreIsWellFormed(source: Source)
    ensures WellFormed(OldStore(source))
  {
  }
}

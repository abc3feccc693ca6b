/**
 Runs of the service that happen: two uploads in processing at once, and an upload judged against an
 execution it is not then compared with.
 */
module Runs {
  import opened Schema
  import opened DateOrder
  import opened Operations
  import opened Admission
  import opened Export
  import opened Machine
  import Safety

  const A := UploadId(1)
  const B := UploadId(2)

  /** A download of one document that lists one follower. */
  const FILE: Content := SingleFile(Recognised([Follower("zoe", "", None)]))

  /** An upload with a date typed by the person uploading, and the override set. */
  function Sent(at: Time): Upload {
    Upload(0, Pending, at, None, Unset, Some(7), None, true, None, None, Totals(0, 0, 0))
  }

  function Empty(): System { System(Db(map[], map[], map[], map[]), map[], true, Down, {}) }

  /** The two uploads stand like this, their files are there, and the worker is at `pc`. */
  ghost predicate Shape(s: System, a: Status, b: Status, pc: Pc, stranded: set<UploadId>) {
    && s.db.uploads.Keys == {A, B} && s.files == map[A := FILE, B := FILE] && s.pc == pc && s.stranded == stranded
    && RowOf(s.db.uploads[A], a, 1) && RowOf(s.db.uploads[B], b, 2)
  }

  predicate RowOf(up: Upload, status: Status, at: Time) {
    && up.account == 0 && up.status == status && up.uploadedAt == at && up.manualDate == Some(7) && up.allowPartial
    && (status == Completed ==> up.takenAt == Some(7))
  }

  // ---------------------------------------------------------------- two uploads arrive

  lemma Opens()
    ensures Enabled(Empty(), Start)
    ensures var s := Perform(Empty(), Start); s == Empty().(pc := Starting) && Enabled(s, Ready)
    ensures Perform(Empty().(pc := Starting), Ready) == Empty().(pc := Idle)
  {
    assert Requeued(Empty().db) == Empty().db;
  }

  lemma Arrives(s: System, id: UploadId, at: Time)
    requires s.pc == Idle && (forall x | x in s.db.uploads :: x.n < id.n) && id !in s.files
    ensures var step := Accept(id, Sent(at), FILE);
            Enabled(s, step) && Perform(s, step) == s.(db := Created(s.db, id, Sent(at)), files := s.files[id := FILE])
  {
  }

  lemma BothArrive() returns (t: System)
    ensures Path(Empty(), [Start, Ready, Accept(A, Sent(1), FILE), Accept(B, Sent(2), FILE)], t)
    ensures Fit(t) && Shape(t, Pending, Pending, Idle, {})
  {
    hide Path;
    hide Fit;
    hide Enabled;
    hide Perform;
    var s0, s2 := Empty(), Empty().(pc := Idle);
    Opens();
    Arrives(s2, A, 1);
    var s3 := Perform(s2, Accept(A, Sent(1), FILE));
    Arrives(s3, B, 2);
    t := Perform(s3, Accept(B, Sent(2), FILE));
    NoSteps(s0);
    PathSnoc(s0, [], s0, Start);
    PathSnoc(s0, [] + [Start], Perform(s0, Start), Ready);
    PathSnoc(s0, [] + [Start] + [Ready], s2, Accept(A, Sent(1), FILE));
    PathSnoc(s0, [] + [Start] + [Ready] + [Accept(A, Sent(1), FILE)], s3, Accept(B, Sent(2), FILE));
    var steps := [Start, Ready, Accept(A, Sent(1), FILE), Accept(B, Sent(2), FILE)];
    assert [] + [Start] + [Ready] + [Accept(A, Sent(1), FILE)] + [Accept(B, Sent(2), FILE)] == steps;
    EmptyFits();
    PathFit(s0, steps, t);
  }

  lemma NoSteps(s: System)
    ensures Path(s, [], s)
  {
  }

  lemma EmptyFits()
    ensures Fit(Empty()) && Initial(Empty())
  {
    InitialInv(Empty());
  }

  // ---------------------------------------------------------------- two in processing

  lemma ClaimsA(s: System, b: Status)
    requires Shape(s, Pending, b, Idle, {}) && (b == Pending || b == Completed)
    ensures Enabled(s, Claim(A)) && Shape(Perform(s, Claim(A)), Processing, b, Busy(A), {})
  {
    assert PendingTimes(s.db).Keys <= {A, B};
  }

  lemma StrandsA(s: System)
    requires Shape(s, Processing, Pending, Busy(A), {})
    ensures Enabled(s, Strand(A)) && Shape(Perform(s, Strand(A)), Processing, Pending, Idle, {A})
  {
  }

  lemma ClaimsB(s: System)
    requires Shape(s, Processing, Pending, Idle, {A})
    ensures Enabled(s, Claim(B)) && Shape(Perform(s, Claim(B)), Processing, Processing, Busy(B), {A})
  {
    assert PendingTimes(s.db).Keys <= {B};
  }

  function Stranding(): seq<Step> {
    [Start, Ready, Accept(A, Sent(1), FILE), Accept(B, Sent(2), FILE)] + [Claim(A)] + [Strand(A)] + [Claim(B)]
  }

  /** The failure of one upload cannot be written and the next is claimed: both are in processing. */
  lemma SomeRunLeavesTwo() returns (t: System)
    ensures Initial(Empty()) && Path(Empty(), Stranding(), t) && Fit(t)
    ensures Safety.InProcessing(t) == {A, B} && Safety.ClaimsBesideUnwritten(Stranding())
    ensures Shape(t, Processing, Processing, Busy(B), {A})
  {
    hide Path;
    hide Fit;
    hide Enabled;
    hide Perform;
    var steps := [Start, Ready, Accept(A, Sent(1), FILE), Accept(B, Sent(2), FILE)];
    var s4 := BothArrive();
    ClaimsA(s4, Pending);
    PathSnoc(Empty(), steps, s4, Claim(A));
    var s5 := Perform(s4, Claim(A));
    StrandsA(s5);
    PathSnoc(Empty(), steps + [Claim(A)], s5, Strand(A));
    var s6 := Perform(s5, Strand(A));
    ClaimsB(s6);
    PathSnoc(Empty(), steps + [Claim(A)] + [Strand(A)], s6, Claim(B));
    t := Perform(s6, Claim(B));
    EmptyFits();
    PathFit(Empty(), Stranding(), t);
    assert Stranding()[5].Strand? && Safety.ClaimAt(Stranding(), 5, 6);
  }

  // ---------------------------------------------------------------- judged against another execution

  lemma FileReads(s: System, id: UploadId)
    requires id in s.files && s.files[id] == FILE
    ensures ReadFile(s, id).Some? && ValidExport(ReadFile(s, id).value)
  {
    ParsedIsValid(FILE);
  }

  lemma Records(s: System, id: UploadId, p: Option<UploadId>)
    requires s.pc == Busy(id) && id in s.db.uploads && RowOf(s.db.uploads[id], Processing, s.db.uploads[id].uploadedAt)
    requires id in s.files && s.files[id] == FILE
    requires IsPreceding(s.db, 0, 7, id, p)
    ensures Enabled(s, Record(id, p))
  {
    FileReads(s, id);
    hide Parsed;
    hide IsPreceding;
  }

  lemma RecordsB(s: System)
    requires Shape(s, Processing, Processing, Busy(B), {A})
    ensures Enabled(s, Record(B, None)) && Shape(Perform(s, Record(B, None)), Processing, Completed, Recorded(B), {A})
  {
    Records(s, B, None);
    hide Enabled;
    hide Perform;
    hide ReadFile;
    hide AppliedExport;
    RecordEffect(s, Record(B, None));
    RowsAfterB(s.db, ReadFile(s, B).value);
  }

  lemma RowsAfterB(db: Db, e: Export)
    requires db.uploads.Keys == {A, B} && RowOf(db.uploads[A], Processing, 1) && RowOf(db.uploads[B], Processing, 2)
    ensures var r := AppliedExport(db, B, e);
            && r.uploads.Keys == {A, B} && RowOf(r.uploads[A], Processing, 1) && RowOf(r.uploads[B], Completed, 2)
  {
    AppliedRow(db, B, e);
    AppliedStatuses(db, B, e);
    OtherRow(db, B, e, A);
    hide AppliedExport;
  }

  lemma OtherRow(db: Db, id: UploadId, e: Export, x: UploadId)
    requires id in db.uploads && x in db.uploads && x != id
    ensures var r := AppliedExport(db, id, e); x in r.uploads && SameIdentity(db.uploads[x], r.uploads[x])
  {
  }

  lemma Restarts(s: System)
    requires Shape(s, Processing, Completed, Recorded(B), {A})
    ensures Enabled(s, Clear(B, false)) && Shape(Perform(s, Clear(B, false)), Processing, Completed, Idle, {A})
  {
  }

  lemma Crashes(s: System)
    requires Shape(s, Processing, Completed, Idle, {A})
    ensures Enabled(s, Crash) && Shape(Perform(s, Crash), Processing, Completed, Down, {A})
  {
  }

  lemma StartsAgain(s: System)
    requires Shape(s, Processing, Completed, Down, {A})
    ensures Enabled(s, Start) && Shape(Perform(s, Start), Pending, Completed, Starting, {})
  {
  }

  lemma IsReady(s: System)
    requires Shape(s, Pending, Completed, Starting, {})
    ensures Enabled(s, Ready) && Shape(Perform(s, Ready), Pending, Completed, Idle, {})
  {
  }

  function Returning(): seq<Step> {
    Stranding() + [Record(B, None)] + [Clear(B, false)] + [Crash] + [Start] + [Ready] + [Claim(A)]
  }

  /**
   Requeued after the later upload of the same date has been recorded: judged against it, and not
   compared with it.
   */
  lemma SomeRunJudgesAgainstLater() returns (t: System)
    ensures Initial(Empty()) && Path(Empty(), Returning(), t) && Enabled(t, Record(A, Some(B)))
    ensures Predecessor(Timeline(Perform(t, Record(A, Some(B))).db.uploads, 0), A) != Some(B)
  {
    hide Path;
    hide Fit;
    hide Enabled;
    hide Perform;
    hide Shape;
    var s7 := SomeRunLeavesTwo();
    RecordsB(s7);
    PathSnoc(Empty(), Stranding(), s7, Record(B, None));
    var steps := Stranding() + [Record(B, None)];
    var s8 := Perform(s7, Record(B, None));
    Restarts(s8);
    PathSnoc(Empty(), steps, s8, Clear(B, false));
    var s9 := Perform(s8, Clear(B, false));
    Crashes(s9);
    PathSnoc(Empty(), steps + [Clear(B, false)], s9, Crash);
    var s10 := Perform(s9, Crash);
    StartsAgain(s10);
    PathSnoc(Empty(), steps + [Clear(B, false)] + [Crash], s10, Start);
    var s11 := Perform(s10, Start);
    IsReady(s11);
    PathSnoc(Empty(), steps + [Clear(B, false)] + [Crash] + [Start], s11, Ready);
    var s12 := Perform(s11, Ready);
    ClaimsA(s12, Completed);
    PathSnoc(Empty(), steps + [Clear(B, false)] + [Crash] + [Start] + [Ready], s12, Claim(A));
    t := Perform(s12, Claim(A));
    EmptyFits();
    JudgedAgainstB(t);
  }

  lemma JudgedAgainstB(s: System)
    requires Shape(s, Processing, Completed, Busy(A), {})
    ensures Enabled(s, Record(A, Some(B)))
    ensures Predecessor(Timeline(Perform(s, Record(A, Some(B))).db.uploads, 0), A) != Some(B)
  {
    assert IsPreceding(s.db, 0, 7, A, Some(B));
    Records(s, A, Some(B));
    hide Enabled;
    hide Perform;
    hide ReadFile;
    hide AppliedExport;
    RecordEffect(s, Record(A, Some(B)));
    LaterTwinB(s.db, ReadFile(s, A).value);
  }

  lemma LaterTwinB(db: Db, e: Export)
    requires db.uploads.Keys == {A, B} && RowOf(db.uploads[A], Processing, 1) && RowOf(db.uploads[B], Completed, 2)
    requires IsPreceding(db, 0, 7, A, Some(B))
    ensures Predecessor(Timeline(AppliedExport(db, A, e).uploads, 0), A) != Some(B)
  {
    assert IsCompleted(db.uploads, 0, B) && !NoLaterTwin(db, A, 7);
    hide IsPreceding;
    hide NoLaterTwin;
    hide Applied;
    JudgedAgainstPredecessor(db, A, SnapshotIn(e), 7, Manual, Some(B));
  }
}

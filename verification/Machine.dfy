/**
 The service as a machine of atomic steps: intake, the single worker with its two queues, and
 crashes at any point between two transactions.

 A step is one committed transaction, one file operation, or the loss of the process.
 */
module Machine {
  import opened Schema
  import opened DateOrder
  import opened History
  import opened Operations
  import opened Admission
  import opened Export

  /**
   Where the worker is; everything but the tables and the files is lost in a crash.  Uploads and
   requests for a reread come in whatever the worker does, and also while it is not running.
   */
  datatype Pc =
    | Down
    | Starting                   // requeued what a crash left, correcting unknown dates
    | Idle
    | Busy(id: UploadId)         // claimed a pending upload, nothing recorded yet
    | Recorded(id: UploadId)     // its snapshot committed, its file not yet dealt with
    | Quiet                      // found no pending upload
    | Rereading(id: UploadId)
    | Reread(id: UploadId)       // read again or left as it was, its flag not yet cleared

  /** `stranded` are uploads whose failure could not be recorded; a restart requeues them. */
  datatype System = System(db: Db, files: map<UploadId, Content>, retain: bool, pc: Pc, stranded: set<UploadId>)

  datatype Step =
    | Accept(id: UploadId, up: Upload, content: Content)
    | Crash
    | Start
    | Redate(id: UploadId)
    | Ready
    | Claim(id: UploadId)
    | Record(id: UploadId, preceding: Option<UploadId>)
    | Refuse(id: UploadId)
    | Strand(id: UploadId)
    | Clear(id: UploadId, removed: bool)
    | FindQuiet
    | ClaimReread(id: UploadId)
    | ReadAgain(id: UploadId)
    | KeepAsIs(id: UploadId)
    | Unflag(id: UploadId)
    | StayFlagged(id: UploadId)
    | Rest
    | Mark(account: AccountId, now: Time)
    | Lose(id: UploadId)

  // ---------------------------------------------------------------- reading a stored file

  ghost function ReadFile(s: System, id: UploadId): Option<Export> {
    if id in s.files then Parsed(s.files[id]) else None
  }

  /** When an export was generated, by how easily each source is wrong. */
  function ResolveSnapshotDate(e: Export, up: Upload): (Time, Source) {
    if up.manualDate.Some? then (up.manualDate.value, Manual)
    else if e.takenAt.Some? then (e.takenAt.value, e.source)
    else if up.filenameDate.Some? then (up.filenameDate.value, Filename)
    else (up.uploadedAt, UploadTime)
  }

  /** The date a file gives by itself, for an execution recorded before dates were tracked. */
  function DetectSnapshotDate(e: Export, up: Upload): Option<(Time, Source)> {
    if e.takenAt.Some? then Some((e.takenAt.value, e.source))
    else if up.filenameDate.Some? then Some((up.filenameDate.value, Filename))
    else None
  }

  /** The execution `preceding` is the one to judge `id` against, and the export passes. */
  ghost predicate Admits(s: System, id: UploadId, e: Export, preceding: Option<UploadId>)
    requires id in s.db.uploads && ValidExport(e)
  {
    var up := s.db.uploads[id];
    && IsPreceding(s.db, up.account, ResolveSnapshotDate(e, up).0, id, preceding)
    && CheckCoverage(e.partial, |e.lists[Followers]|,
                     if preceding.Some? then Some(s.db.uploads[preceding.value].totals.members) else None,
                     up.allowPartial) == Admitted
  }

  /** The store once the export `e` has been recorded for `id`. */
  ghost function AppliedExport(db: Db, id: UploadId, e: Export): Db
    requires id in db.uploads
  {
    var when := ResolveSnapshotDate(e, db.uploads[id]);
    Applied(db, id, SnapshotIn(e), when.0, when.1)
  }

  // ---------------------------------------------------------------- steps

  ghost predicate Enabled(s: System, step: Step) {
    match step
    case Accept(id, up, _) =>
      IsNewUpload(up) && id !in s.files && forall x | x in s.db.uploads :: x.n < id.n
    case Crash => true
    case Start => s.pc == Down
    case Redate(id) =>
      && s.pc == Starting && id in s.db.uploads && s.db.uploads[id].status == Completed
      && s.db.uploads[id].source == ProcessingOrder
      && ReadFile(s, id).Some? && DetectSnapshotDate(ReadFile(s, id).value, s.db.uploads[id]).Some?
    case Ready => s.pc == Starting
    case Claim(id) => s.pc == Idle && IsOldest(PendingTimes(s.db), id)
    case Record(id, preceding) =>
      && s.pc == Busy(id) && id in s.db.uploads && ReadFile(s, id).Some?
      && ValidExport(ReadFile(s, id).value) && Admits(s, id, ReadFile(s, id).value, preceding)
    case Refuse(id) => s.pc == Busy(id)
    case Strand(id) => s.pc == Busy(id)
    case Clear(id, removed) => s.pc == Recorded(id) && (removed ==> !s.retain)
    case FindQuiet => s.pc == Idle && PendingTimes(s.db) == map[]
    case ClaimReread(id) => s.pc == Quiet && IsOldest(FlaggedTimes(s.db), id)
    case ReadAgain(id) => s.pc == Rereading(id) && id in s.db.uploads && ReadFile(s, id).Some?
    case KeepAsIs(id) => s.pc == Rereading(id)
    case Unflag(id) => s.pc == Reread(id)
    case StayFlagged(id) => s.pc == Reread(id)
    case Rest => s.pc == Quiet
    case Mark(_, _) => true
    case Lose(_) => true
  }

  ghost function Perform(s: System, step: Step): System
    requires Enabled(s, step)
  {
    match step
    case Accept(id, up, content) => s.(db := Created(s.db, id, up), files := s.files[id := content])
    case Crash => s.(pc := Down, stranded := if s.pc.Busy? then s.stranded + {s.pc.id} else s.stranded)
    case Start => s.(db := Requeued(s.db), pc := Starting, stranded := {})
    case Redate(id) =>
      var when := DetectSnapshotDate(ReadFile(s, id).value, s.db.uploads[id]).value;
      s.(db := Redated(s.db, id, when.0, when.1))
    case Ready => s.(pc := Idle)
    case Claim(id) => s.(db := SetStatus(s.db, id, Processing), pc := Busy(id))
    case Record(id, _) => s.(db := AppliedExport(s.db, id, ReadFile(s, id).value), pc := Recorded(id))
    case Refuse(id) => s.(db := if id in s.db.uploads then SetStatus(s.db, id, Failed) else s.db, pc := Idle)
    case Strand(id) => s.(pc := Idle, stranded := s.stranded + {id})
    case Clear(id, removed) => s.(files := if removed then s.files - {id} else s.files, pc := Idle)
    case FindQuiet => s.(pc := Quiet)
    case ClaimReread(id) => s.(pc := Rereading(id))
    case ReadAgain(id) => s.(db := AppliedExport(s.db, id, ReadFile(s, id).value), pc := Reread(id))
    case KeepAsIs(id) => s.(pc := Reread(id))
    case Unflag(id) => s.(db := Unmarked(s.db, id), pc := Idle)
    case StayFlagged(_) => s.(pc := Idle)
    case Rest => s.(pc := Idle)
    case Mark(account, now) => s.(db := Marked(s.db, account, now))
    case Lose(id) => s.(files := s.files - {id})
  }

  /** The steps lead from `s` to `t`. */
  ghost predicate Path(s: System, steps: seq<Step>, t: System)
    decreases |steps|
  {
    if steps == [] then s == t
    else Enabled(s, steps[0]) && Path(Perform(s, steps[0]), steps[1..], t)
  }

  lemma {:induction false} PathConcat(s: System, a: seq<Step>, t: System, b: seq<Step>, u: System)
    requires Path(s, a, t) && Path(t, b, u)
    ensures Path(s, a + b, u)
    decreases |a|
  {
    if a == [] {
      assert a + b == b;
    } else {
      assert (a + b)[1..] == a[1..] + b;
      PathConcat(Perform(s, a[0]), a[1..], t, b, u);
    }
  }

  lemma PathSnoc(s: System, steps: seq<Step>, t: System, step: Step)
    requires Path(s, steps, t) && Enabled(t, step)
    ensures Path(s, steps + [step], Perform(t, step))
  {
    hide Enabled;
    hide Perform;
    var u := Perform(t, step);
    assert Path(u, [], u) && [step][1..] == [];
    assert Path(t, [step], u);
    PathConcat(s, steps, t, [step], u);
  }

  /** A service that has never run. */
  ghost predicate Initial(s: System) {
    s.db == Db(map[], map[], map[], map[]) && s.files == map[] && s.pc == Down && s.stranded == {}
  }

  /** Where a step takes the worker, and what it strands. */
  predicate Moves(s: System, step: Step, t: System) {
    && (match step
        case Crash => t.pc == Down
        case Start => s.pc == Down && t.pc == Starting
        case Ready => s.pc == Starting && t.pc == Idle
        case Claim(id) => s.pc == Idle && t.pc == Busy(id)
        case Record(id, _) => s.pc == Busy(id) && t.pc == Pc.Recorded(id)
        case Refuse(id) => s.pc == Busy(id) && t.pc == Idle
        case Strand(id) => s.pc == Busy(id) && t.pc == Idle
        case Clear(id, _) => s.pc == Pc.Recorded(id) && t.pc == Idle
        case FindQuiet => s.pc == Idle && t.pc == Quiet
        case ClaimReread(id) => s.pc == Quiet && t.pc == Rereading(id)
        case ReadAgain(id) => s.pc == Rereading(id) && t.pc == Pc.Reread(id)
        case KeepAsIs(id) => s.pc == Rereading(id) && t.pc == Pc.Reread(id)
        case Unflag(id) => s.pc == Pc.Reread(id) && t.pc == Idle
        case StayFlagged(id) => s.pc == Pc.Reread(id) && t.pc == Idle
        case Rest => s.pc == Quiet && t.pc == Idle
        case _ => t.pc == s.pc)
    && t.stranded == match step
                     case Crash => if s.pc.Busy? then s.stranded + {s.pc.id} else s.stranded
                     case Start => {}
                     case Strand(id) => s.stranded + {id}
                     case _ => s.stranded
  }

  lemma StepMoves(s: System, step: Step)
    requires Enabled(s, step)
    ensures Moves(s, step, Perform(s, step))
  {
    hide IsOldest;
    hide IsNewUpload;
    hide ReadFile;
    hide Admits;
    hide AppliedExport;
  }

  /** Recording an export, the first time or again. */
  lemma RecordEffect(s: System, step: Step)
    requires Enabled(s, step) && (step.Record? || step.ReadAgain?)
    ensures step.id in s.db.uploads && ReadFile(s, step.id).Some?
    ensures s.pc == if step.Record? then Busy(step.id) else Rereading(step.id)
    ensures Perform(s, step) == s.(db := AppliedExport(s.db, step.id, ReadFile(s, step.id).value),
                                   pc := if step.Record? then Pc.Recorded(step.id) else Pc.Reread(step.id))
  {
    hide ReadFile;
    hide AppliedExport;
    hide Admits;
  }

  lemma ReadAgainEnabled(s: System, id: UploadId)
    requires s.pc == Rereading(id) && id in s.db.uploads && ReadFile(s, id).Some?
    ensures Enabled(s, ReadAgain(id))
  {
  }

  lemma KeepEffect(s: System, id: UploadId)
    requires s.pc == Rereading(id)
    ensures Enabled(s, KeepAsIs(id)) && Perform(s, KeepAsIs(id)) == s.(pc := Pc.Reread(id))
  {
  }

  lemma UnflagEffect(s: System, id: UploadId)
    requires s.pc == Pc.Reread(id)
    ensures Enabled(s, Unflag(id)) && Perform(s, Unflag(id)) == s.(db := Unmarked(s.db, id), pc := Idle)
  {
  }

  // ---------------------------------------------------------------- the invariant

  /** An upload is in processing exactly when the worker holds it or its failure went unrecorded. */
  ghost predicate Accounted(s: System) {
    && (forall id | id in s.db.uploads ::
         s.db.uploads[id].status == Processing <==> (s.pc == Busy(id) || id in s.stranded))
    && s.stranded <= s.db.uploads.Keys
    && (s.pc.Busy? ==> s.pc.id in s.db.uploads && s.pc.id !in s.stranded)
    && (s.pc == Starting ==> s.stranded == {})
  }

  /** The worker past a commit is working on a completed execution. */
  ghost predicate AtCompleted(s: System) {
    s.pc.Recorded? || s.pc.Rereading? || s.pc.Reread? ==>
        s.pc.id in s.db.uploads && s.db.uploads[s.pc.id].status == Completed
  }

  /** What every upload row satisfies. */
  ghost predicate UploadOk(db: Db, id: UploadId)
    requires id in db.uploads
  {
    var up := db.uploads[id];
    && (up.reprocessAt.Some? ==> up.status == Completed)
    && (up.status == Completed ==>
          && up.takenAt.Some?
          && ListKey(id, Followers) in db.lists
          && Names(db.members, id, Followers) != {}
          && (up.manualDate.Some? ==> up.takenAt == up.manualDate && up.source == Manual))
  }

  /** What the worker relies on, and a store left by an earlier version satisfies too. */
  ghost predicate Fit(s: System) {
    WellFormed(s.db) && Accounted(s) && AtCompleted(s) && forall id | id in s.db.uploads :: UploadOk(s.db, id)
  }

  /** Moreover every account's history agrees with its executions. */
  ghost predicate Inv(s: System) {
    Sound(s.db) && Fit(s)
  }

  /** A store a service can be started over. */
  ghost predicate Usable(db: Db) {
    WellFormed(db) && forall id | id in db.uploads :: UploadOk(db, id)
  }

  /** A service not yet started over such a store; what is in processing was left by a crash. */
  ghost function Opened(db: Db, files: map<UploadId, Content>, retain: bool): System {
    System(db, files, retain, Down, set id | id in db.uploads && db.uploads[id].status == Processing)
  }

  lemma OpenedIsFit(db: Db, files: map<UploadId, Content>, retain: bool)
    requires Usable(db)
    ensures Fit(Opened(db, files, retain))
  {
  }

  lemma InitialInv(s: System)
    requires Initial(s)
    ensures Inv(s)
  {
    forall account: AccountId
      ensures Consistent(s.db, account)
    {
      assert forall id :: id !in Timeline(s.db.uploads, account);
    }
  }

  /** Rows keep their properties when nothing they speak of changes. */
  lemma KeepOk(d: Db, e: Db, x: UploadId)
    requires x in d.uploads && x in e.uploads && UploadOk(d, x)
    requires Names(d.members, x, Followers) == Names(e.members, x, Followers)
    requires ListKey(x, Followers) in d.lists ==> ListKey(x, Followers) in e.lists
    requires e.uploads[x].status == Completed ==>
               d.uploads[x].status == Completed && e.uploads[x].takenAt == d.uploads[x].takenAt
               && e.uploads[x].manualDate == d.uploads[x].manualDate && e.uploads[x].source == d.uploads[x].source
    requires e.uploads[x].reprocessAt.Some? ==> e.uploads[x].status == Completed
    ensures UploadOk(e, x)
  {
  }

  /** What recording an export leaves in the rows of other uploads. */
  lemma AppliedOther(db: Db, id: UploadId, e: Export, x: UploadId)
    requires id in db.uploads && x in db.uploads && x != id && UploadOk(db, x)
    ensures var r := AppliedExport(db, id, e);
            && x in r.uploads && UploadOk(r, x)
            && r.uploads[x].status == db.uploads[x].status && SameIdentity(db.uploads[x], r.uploads[x])
  {
    var when, r := ResolveSnapshotDate(e, db.uploads[id]), AppliedExport(db, id, e);
    assert Names(r.members, x, Followers) == Names(db.members, x, Followers);
    KeepOk(db, r, x);
  }

  /** What recording an export leaves in its own row. */
  lemma AppliedItself(db: Db, id: UploadId, e: Export)
    requires id in db.uploads && ValidExport(e)
    ensures var r := AppliedExport(db, id, e);
            && r.uploads.Keys == db.uploads.Keys
            && UploadOk(r, id)
            && r.uploads[id].status == Completed && SameIdentity(db.uploads[id], r.uploads[id])
  {
    hide AppliedExport;
    AppliedFollowers(db, id, e);
    AppliedRow(db, id, e);
  }

  lemma AppliedRow(db: Db, id: UploadId, e: Export)
    requires id in db.uploads
    ensures var r, when, up := AppliedExport(db, id, e), ResolveSnapshotDate(e, db.uploads[id]), db.uploads[id];
            && r.uploads.Keys == db.uploads.Keys
            && r.uploads[id].status == Completed && r.uploads[id].reprocessAt == up.reprocessAt
            && r.uploads[id].takenAt == Some(when.0) && r.uploads[id].source == when.1
            && SameIdentity(up, r.uploads[id])
  {
  }

  lemma AppliedFollowers(db: Db, id: UploadId, e: Export)
    requires id in db.uploads && ValidExport(e)
    ensures var r := AppliedExport(db, id, e);
            ListKey(id, Followers) in r.lists && Names(r.members, id, Followers) != {}
  {
    var r, first := AppliedExport(db, id, e), e.lists[Followers][0];
    MembersStored(e.lists[Followers]);
    assert first.username in SnapshotIn(e)[Followers];
    assert MemberKey(id, Followers, first.username) in MemberKeys(id, SnapshotIn(e));
    assert first.username in Names(r.members, id, Followers);
  }

  /** The columns set when an upload is accepted. */
  ghost predicate SameIdentity(a: Upload, b: Upload) {
    && a.account == b.account && a.uploadedAt == b.uploadedAt && a.manualDate == b.manualDate
    && a.filenameDate == b.filenameDate && a.allowPartial == b.allowPartial
  }

  /** The statuses once an export has been recorded. */
  lemma AppliedStatuses(db: Db, id: UploadId, e: Export)
    requires id in db.uploads
    ensures var r := AppliedExport(db, id, e);
            && r.uploads.Keys == db.uploads.Keys
            && forall x | x in db.uploads :: r.uploads[x].status == if x == id then Completed else db.uploads[x].status
  {
  }

  lemma AppliedFit(s: System, id: UploadId, e: Export, pc: Pc)
    requires Fit(s) && id in s.db.uploads && ValidExport(e)
    requires (s.pc == Busy(id) && pc == Recorded(id)) || (s.pc == Rereading(id) && pc == Reread(id))
    ensures Fit(s.(db := AppliedExport(s.db, id, e), pc := pc))
  {
    var when := ResolveSnapshotDate(e, s.db.uploads[id]);
    AppliedWellFormed(s.db, id, SnapshotIn(e), when.0, when.1);
    hide WellFormed;
    AppliedRows(s.db, id, e);
    AppliedStatuses(s.db, id, e);
    AppliedWorker(s, AppliedExport(s.db, id, e), id, pc);
  }

  lemma AppliedRows(db: Db, id: UploadId, e: Export)
    requires id in db.uploads && ValidExport(e) && forall x | x in db.uploads :: UploadOk(db, x)
    ensures var r := AppliedExport(db, id, e); forall x | x in r.uploads :: UploadOk(r, x)
  {
    AppliedItself(db, id, e);
    forall x | x in db.uploads && x != id {
      AppliedOther(db, id, e, x);
    }
  }

  lemma AppliedWorker(s: System, r: Db, id: UploadId, pc: Pc)
    requires Accounted(s) && AtCompleted(s) && id in s.db.uploads && r.uploads.Keys == s.db.uploads.Keys
    requires forall x | x in s.db.uploads ::
               r.uploads[x].status == if x == id then Completed else s.db.uploads[x].status
    requires (s.pc == Busy(id) && pc == Recorded(id)) || (s.pc == Rereading(id) && pc == Reread(id))
    ensures Accounted(s.(db := r, pc := pc)) && AtCompleted(s.(db := r, pc := pc))
  {
  }

  lemma RedatedFit(s: System, id: UploadId, takenAt: Time, source: Source)
    requires Fit(s) && s.pc == Starting && id in s.db.uploads
    requires s.db.uploads[id].status == Completed && s.db.uploads[id].source == ProcessingOrder
    ensures Fit(s.(db := Redated(s.db, id, takenAt, source)))
  {
    hide WellFormed;
    hide Redated;
    hide UploadOk;
    RedatedWellFormed(s.db, id, takenAt, source);
    RedatedRows(s.db, id, takenAt, source);
  }

  lemma RedatedRows(db: Db, id: UploadId, takenAt: Time, source: Source)
    requires id in db.uploads && db.uploads[id].status == Completed && db.uploads[id].source == ProcessingOrder
    requires forall x | x in db.uploads :: UploadOk(db, x)
    ensures var r := Redated(db, id, takenAt, source);
            && r.uploads.Keys == db.uploads.Keys
            && forall x | x in db.uploads :: UploadOk(r, x) && r.uploads[x].status == db.uploads[x].status
  {
    assert UploadOk(db, id) && db.uploads[id].manualDate.None?;
    assert Redated(db, id, takenAt, source).uploads.Keys == db.uploads.Keys;
    hide Redated;
    hide UploadOk;
    forall x | x in db.uploads {
      RedatedOk(db, id, takenAt, source, x);
    }
  }

  lemma RedatedOk(db: Db, id: UploadId, takenAt: Time, source: Source, x: UploadId)
    requires id in db.uploads && x in db.uploads && UploadOk(db, x)
    requires db.uploads[id].manualDate.None?
    ensures var r := Redated(db, id, takenAt, source);
            && r.uploads.Keys == db.uploads.Keys && UploadOk(r, x)
            && r.uploads[x].status == db.uploads[x].status && SameIdentity(db.uploads[x], r.uploads[x])
  {
    var r := Redated(db, id, takenAt, source);
    if x != id {
      KeepOk(db, r, x);
    }
  }

  /** Whatever is flagged for rereading is completed, so the count and the claim query agree. */
  lemma FlagsAreCompleted(s: System)
    requires Fit(s)
    ensures forall x | x in s.db.uploads && s.db.uploads[x].reprocessAt.Some? :: s.db.uploads[x].status == Completed
    ensures (set x | x in s.db.uploads && s.db.uploads[x].reprocessAt.Some?) == FlaggedTimes(s.db).Keys
  {
    forall x | x in s.db.uploads && s.db.uploads[x].reprocessAt.Some?
      ensures s.db.uploads[x].status == Completed
    {
      assert UploadOk(s.db, x);
    }
  }

  /** The steps that rebuild a history. */
  predicate Rebuilding(step: Step) {
    step.Record? || step.ReadAgain? || step.Redate?
  }

  lemma ClaimIsPending(s: System, id: UploadId)
    requires Enabled(s, Claim(id))
    ensures id in s.db.uploads && s.db.uploads[id].status == Pending
  {
  }

  /** What a step that rebuilds nothing writes to the tables. */
  ghost predicate Edits(s: System, step: Step, t: System) {
    match step
    case Accept(id, up, _) => id !in s.db.uploads && IsNewUpload(up) && t.db == Created(s.db, id, up)
    case Start => t.db == Requeued(s.db)
    case Claim(id) => id in s.db.uploads && s.db.uploads[id].status == Pending
      && t.db == SetStatus(s.db, id, Processing)
    case Refuse(id) => id in s.db.uploads && s.db.uploads[id].status == Processing
      && t.db == SetStatus(s.db, id, Failed)
    case Unflag(id) => t.db == Unmarked(s.db, id)
    case Mark(account, now) => t.db == Marked(s.db, account, now)
    case _ => t.db == s.db
  }

  lemma OtherEdits(s: System, step: Step)
    requires Accounted(s) && Enabled(s, step) && !Rebuilding(step)
    ensures Edits(s, step, Perform(s, step))
  {
    if step.Claim? {
      ClaimIsPending(s, step.id);
    }
    hide IsOldest;
    hide PendingTimes;
    hide ReadFile;
    hide Admits;
    hide Created;
    hide Requeued;
    hide SetStatus;
    hide Marked;
    hide Unmarked;
  }

  /** Any other step touches only statuses before completion, flags and new rows. */
  lemma OtherColumns(s: System, step: Step)
    requires Fit(s) && Enabled(s, step) && !Rebuilding(step)
    ensures SameHistoryColumns(s.db, Perform(s, step).db)
  {
    OtherEdits(s, step);
    hide Fit;
    hide Enabled;
    hide Perform;
    hide SameHistoryColumns;
    EditColumns(s, step, Perform(s, step));
  }

  lemma EditColumns(s: System, step: Step, t: System)
    requires Edits(s, step, t)
    ensures SameHistoryColumns(s.db, t.db)
  {
    match step {
      case Accept(id, up, _) => CreatedColumns(s.db, id, up);
      case Start => RequeuedColumns(s.db);
      case Claim(id) => SetStatusColumns(s.db, id, Processing);
      case Refuse(id) => SetStatusColumns(s.db, id, Failed);
      case Unflag(id) => UnmarkedColumns(s.db, id);
      case Mark(account, now) => MarkedColumns(s.db, account, now);
      case _ =>
    }
    hide Created;
    hide Requeued;
    hide SetStatus;
    hide Unmarked;
    hide Marked;
  }

  /** A step that changes statuses and flags only. */
  lemma EditFit(s: System, t: System)
    requires Fit(s) && SameHistoryColumns(s.db, t.db) && Accounted(t) && AtCompleted(t)
    requires forall x | x in t.db.uploads && t.db.uploads[x].reprocessAt.Some? :: t.db.uploads[x].status == Completed
    ensures Fit(t)
  {
    ColumnsWellFormed(s.db, t.db);
    hide WellFormed;
    forall x | x in t.db.uploads
      ensures UploadOk(t.db, x)
    {
      if x in s.db.uploads {
        assert UploadOk(s.db, x);
        KeepOk(s.db, t.db, x);
      }
    }
  }

  lemma OtherFlags(s: System, step: Step)
    requires Fit(s) && Enabled(s, step) && !Rebuilding(step)
    ensures var t := Perform(s, step);
            forall x | x in t.db.uploads && t.db.uploads[x].reprocessAt.Some? :: t.db.uploads[x].status == Completed
  {
    FlagsAreCompleted(s);
    OtherEdits(s, step);
    hide *;
    EditFlags(s, step, Perform(s, step));
  }

  lemma EditFlags(s: System, step: Step, t: System)
    requires Edits(s, step, t)
    requires forall x | x in s.db.uploads && s.db.uploads[x].reprocessAt.Some? :: s.db.uploads[x].status == Completed
    ensures forall x | x in t.db.uploads && t.db.uploads[x].reprocessAt.Some? :: t.db.uploads[x].status == Completed
  {
  }

  lemma OtherFit(s: System, step: Step)
    requires Fit(s) && Enabled(s, step) && !Rebuilding(step)
    ensures Fit(Perform(s, step))
  {
    OtherAccounted(s, step);
    OtherAtCompleted(s, step);
    hide *;
    OtherColumns(s, step);
    OtherFlags(s, step);
    EditFit(s, Perform(s, step));
  }

  lemma OtherAccounted(s: System, step: Step)
    requires Accounted(s) && Enabled(s, step) && !Rebuilding(step)
    ensures Accounted(Perform(s, step))
  {
    hide Enabled;
    hide Perform;
    hide Accounted;
    hide Edits;
    hide Moves;
    OtherEdits(s, step);
    StepMoves(s, step);
    EditsAccounted(s, step, Perform(s, step));
  }

  lemma EditsAccounted(s: System, step: Step, t: System)
    requires Accounted(s) && !Rebuilding(step) && Edits(s, step, t) && Moves(s, step, t)
    ensures Accounted(t)
  {
    if step.Start? || step.Mark? {
      TableEditsAccounted(s, step, t);
    } else {
      RowEditsAccounted(s, step, t);
    }
    hide *;
  }

  lemma TableEditsAccounted(s: System, step: Step, t: System)
    requires Accounted(s) && (step.Start? || step.Mark?) && Edits(s, step, t) && Moves(s, step, t)
    ensures Accounted(t)
  {
  }

  lemma RowEditsAccounted(s: System, step: Step, t: System)
    requires Accounted(s) && !Rebuilding(step) && !step.Start? && !step.Mark? && Edits(s, step, t) && Moves(s, step, t)
    ensures Accounted(t)
  {
  }

  lemma OtherAtCompleted(s: System, step: Step)
    requires Accounted(s) && AtCompleted(s) && Enabled(s, step) && !Rebuilding(step)
    ensures AtCompleted(Perform(s, step))
  {
    OtherEdits(s, step);
    StepMoves(s, step);
    if step.ClaimReread? {
      RereadIsCompleted(s, step.id);
    }
    hide Enabled;
    hide Perform;
    hide Accounted;
  }

  lemma RereadIsCompleted(s: System, id: UploadId)
    requires Enabled(s, ClaimReread(id))
    ensures id in s.db.uploads && s.db.uploads[id].status == Completed
  {
  }

  /** Every step keeps what the worker relies on. */
  lemma StepFit(s: System, step: Step)
    requires Fit(s) && Enabled(s, step)
    ensures Fit(Perform(s, step))
  {
    hide WellFormed;
    hide UploadOk;
    if step.Record? {
      AppliedFit(s, step.id, ReadFile(s, step.id).value, Recorded(step.id));
    } else if step.ReadAgain? {
      ParsedIsValid(s.files[step.id]);
      AppliedFit(s, step.id, ReadFile(s, step.id).value, Reread(step.id));
    } else if step.Redate? {
      var when := DetectSnapshotDate(ReadFile(s, step.id).value, s.db.uploads[step.id]).value;
      RedatedFit(s, step.id, when.0, when.1);
    } else {
      OtherFit(s, step);
    }
  }

  /** The step rebuilds the history of `account`. */
  ghost predicate Mends(s: System, step: Step, account: AccountId) {
    Rebuilding(step) && step.id in s.db.uploads && s.db.uploads[step.id].account == account
  }

  /** A history agrees with its executions after a step if it did before or the step rebuilt it, and not otherwise. */
  lemma StepConsistency(s: System, step: Step, account: AccountId)
    requires Fit(s) && Enabled(s, step)
    ensures Consistent(Perform(s, step).db, account) <==> Mends(s, step, account) || Consistent(s.db, account)
  {
    hide Consistent;
    hide UploadOk;
    hide WellFormed;
    if step.Record? || step.ReadAgain? {
      var e := ReadFile(s, step.id).value;
      var when := ResolveSnapshotDate(e, s.db.uploads[step.id]);
      AppliedConsistency(s.db, step.id, SnapshotIn(e), when.0, when.1, account);
    } else if step.Redate? {
      var when := DetectSnapshotDate(ReadFile(s, step.id).value, s.db.uploads[step.id]).value;
      RedatedConsistency(s.db, step.id, when.0, when.1, account);
    } else {
      OtherColumns(s, step);
      ColumnsConsistency(s.db, Perform(s, step).db, account);
    }
  }

  /** Every step keeps the invariant. */
  lemma StepInv(s: System, step: Step)
    requires Inv(s) && Enabled(s, step)
    ensures Inv(Perform(s, step))
  {
    StepFit(s, step);
    forall account: AccountId
      ensures Consistent(Perform(s, step).db, account)
    {
      StepConsistency(s, step, account);
    }
    assert WellFormed(Perform(s, step).db);
    hide WellFormed;
    hide Fit;
    hide Consistent;
    hide Enabled;
    hide Perform;
  }

  /** So it does over every run. */
  lemma {:induction false} PathFit(s: System, steps: seq<Step>, t: System)
    requires Fit(s) && Path(s, steps, t)
    ensures Fit(t)
    decreases |steps|
  {
    if steps != [] {
      StepFit(s, steps[0]);
      hide Fit;
      PathFit(Perform(s, steps[0]), steps[1..], t);
    }
  }

  /** The invariant holds over every run, crashes included. */
  lemma {:induction false} PathInv(s: System, steps: seq<Step>, t: System)
    requires Inv(s) && Path(s, steps, t)
    ensures Inv(t)
    decreases |steps|
  {
    if steps != [] {
      StepInv(s, steps[0]);
      hide Inv;
      PathInv(Perform(s, steps[0]), steps[1..], t);
    }
  }

  /** Some step of the run rebuilds the history of `account`. */
  ghost predicate MendsOnTheWay(s: System, steps: seq<Step>, account: AccountId)
    decreases |steps|
  {
    steps != [] && Enabled(s, steps[0])
    && (Mends(s, steps[0], account) || MendsOnTheWay(Perform(s, steps[0]), steps[1..], account))
  }

  /**
   Over any run, from whatever an earlier version left, a history ends in agreement with its
   executions exactly when it began so or was rebuilt on the way.
   */
  lemma {:induction false} PathConsistency(s: System, steps: seq<Step>, t: System, account: AccountId)
    requires Fit(s) && Path(s, steps, t)
    ensures Consistent(t.db, account) <==> MendsOnTheWay(s, steps, account) || Consistent(s.db, account)
    decreases |steps|
  {
    hide Consistent;
    hide Mends;
    hide Fit;
    hide Enabled;
    hide Perform;
    if steps != [] {
      StepFit(s, steps[0]);
      StepConsistency(s, steps[0], account);
      PathConsistency(Perform(s, steps[0]), steps[1..], t, account);
    }
  }
}

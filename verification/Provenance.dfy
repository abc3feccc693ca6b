/**
 From the files to the tables: what a completed execution holds is what its file says, at the date its
 file, its name or the person sending it gave, and it was let in by what the file declares.  All of it
 is said of the documents and of the columns written on arrival.
 */
module Provenance {
  import opened Schema
  import opened History
  import opened Operations
  import opened Admission
  import opened Export
  import opened Machine
  import Rereads
  import Safety
  import Sweep

  // ---------------------------------------------------------------- what a file says

  /** The documents of one list; a file that is not an archive is one document of followers. */
  function Documents(c: Content, kind: Kind): seq<Part> {
    match c
    case Broken => []
    case SingleFile(document) => if kind == Followers then [document] else []
    case Archive(parts, _, _, _) => if kind in parts then parts[kind] else []
  }

  predicate DeclaresPartial(c: Content) {
    c.Archive? && c.partial
  }

  /** The file says when it was made. */
  predicate DatesItself(c: Content) {
    c.Archive? && (c.declaredAt.Some? || c.newestEntry.Some?)
  }

  /** What it declares goes before the newest time inside it. */
  predicate DatedByFile(c: Content, at: Time, source: Source) {
    && c.Archive?
    && (c.declaredAt.Some? ==> at == c.declaredAt.value && source == Declared)
    && (c.declaredAt.None? ==> c.newestEntry == Some(at) && source == ArchiveEntry)
  }

  /** The date typed by the sender; failing that, the file's own; then its name's; and only then when it came. */
  predicate DatedBy(c: Content, up: Upload, at: Time, source: Source) {
    && (up.manualDate.Some? ==> at == up.manualDate.value && source == Manual)
    && (up.manualDate.None? && DatesItself(c) ==> DatedByFile(c, at, source))
    && (up.manualDate.None? && !DatesItself(c) && up.filenameDate.Some? ==>
          at == up.filenameDate.value && source == Filename)
    && (up.manualDate.None? && !DatesItself(c) && up.filenameDate.None? ==>
          at == up.uploadedAt && source == UploadTime)
  }

  /** The date of the file alone, or of its name. */
  predicate DetectedBy(c: Content, up: Upload, at: Time, source: Source) {
    && (DatesItself(c) ==> DatedByFile(c, at, source))
    && (!DatesItself(c) ==> up.filenameDate == Some(at) && source == Filename)
  }

  lemma ResolvedIs(c: Content, up: Upload)
    requires Parsed(c).Some?
    ensures var when := ResolveSnapshotDate(Parsed(c).value, up); DatedBy(c, up, when.0, when.1)
  {
  }

  lemma DetectedIs(c: Content, up: Upload)
    requires Parsed(c).Some?
    ensures var when := DetectSnapshotDate(Parsed(c).value, up);
            && (when.Some? <==> DatesItself(c) || up.filenameDate.Some?)
            && (when.Some? ==> DetectedBy(c, up, when.value.0, when.value.1))
  {
  }

  lemma ParsedPartial(c: Content)
    requires Parsed(c).Some?
    ensures Parsed(c).value.partial <==> DeclaresPartial(c)
  {
  }

  /** The lists of an export are those a document of which was recognised, and what the documents say. */
  lemma ParsedLists(c: Content, kind: Kind)
    requires Parsed(c).Some?
    ensures var lists := Parsed(c).value.lists;
            && (kind in lists <==> AnyRecognised(Documents(c, kind)))
            && (kind in lists ==> Gathers(Documents(c, kind), lists[kind]))
  {
    match c {
      case SingleFile(document) =>
        GatheredIs([document]);
        assert [document][..0] == [] && Entries([document]) == document.entries;
        assert AnyRecognised([document]) by {
          assert [document][0].Recognised?;
        }
      case Archive(parts, _, _, _) =>
        ListsAreGathered(parts);
      case Broken =>
    }
    hide Gathers;
    hide Deduped;
    hide ListsAmong;
  }

  /** A file is accepted exactly when some recognised document names a follower. */
  lemma ParsesWhen(c: Content)
    ensures Parsed(c).Some? <==> exists u :: NamedIn(Documents(c, Followers), u)
  {
    match c {
      case Broken =>
      case SingleFile(document) =>
        if document.Recognised? && document.entries != [] {
          assert Naming([document], document.entries[0].username, 0, 0);
          assert NamedIn(Documents(c, Followers), document.entries[0].username);
        }
      case Archive(parts, _, _, _) =>
        ArchiveParsesWhen(c);
    }
  }

  lemma ArchiveParsesWhen(c: Content)
    requires c.Archive?
    ensures Parsed(c).Some? <==> exists u :: NamedIn(Documents(c, Followers), u)
  {
    var docs: seq<Part>, lists: map<Kind, seq<Follower>> :=
      Documents(c, Followers), ListsAmong(c.parts, LIST_DEFINITIONS);
    ListsAreGathered(c.parts);
    if Followers in lists && lists[Followers] != [] {
      var u := lists[Followers][0].username;
      assert Usernames(lists[Followers])[0] == u;
      assert NamedIn(docs, u);
    }
    if u :| NamedIn(docs, u) {
      var i, j :| Naming(docs, u, i, j);
      assert AnyRecognised(docs);
      assert u in Usernames(lists[Followers]);
    }
  }

  // ---------------------------------------------------------------- what the tables hold of it

  /** The rows of `id` are what the documents of its file say, list by list and name by name. */
  ghost predicate HoldsFile(db: Db, id: UploadId, c: Content) {
    && (forall kind :: ListKey(id, kind) in db.lists <==> AnyRecognised(Documents(c, kind)))
    && (forall kind, u :: MemberKey(id, kind, u) in db.members <==> NamedIn(Documents(c, kind), u))
    && (forall kind, u | MemberKey(id, kind, u) in db.members ::
          IsFirstTime(Documents(c, kind), u, db.members[MemberKey(id, kind, u)]))
  }

  lemma RowsOfFile(db: Db, id: UploadId, c: Content)
    requires WellFormed(db) && Parsed(c).Some? && SnapshotOf(db, id) == SnapshotIn(Parsed(c).value)
    ensures HoldsFile(db, id, c)
  {
    hide Parsed;
    hide SnapshotOf;
    hide AnyRecognised;
    hide NamedIn;
    hide IsFirstTime;
    hide Documents;
    forall kind
      ensures ListKey(id, kind) in db.lists <==> AnyRecognised(Documents(c, kind))
    {
      RowsOfList(db, id, c, kind, "");
    }
    forall kind, u
      ensures MemberKey(id, kind, u) in db.members <==> NamedIn(Documents(c, kind), u)
      ensures MemberKey(id, kind, u) in db.members ==>
                IsFirstTime(Documents(c, kind), u, db.members[MemberKey(id, kind, u)])
    {
      RowsOfList(db, id, c, kind, u);
    }
  }

  lemma RowsOfList(db: Db, id: UploadId, c: Content, kind: Kind, u: User)
    requires WellFormed(db) && Parsed(c).Some? && SnapshotOf(db, id) == SnapshotIn(Parsed(c).value)
    ensures ListKey(id, kind) in db.lists <==> AnyRecognised(Documents(c, kind))
    ensures MemberKey(id, kind, u) in db.members <==> NamedIn(Documents(c, kind), u)
    ensures MemberKey(id, kind, u) in db.members ==>
              IsFirstTime(Documents(c, kind), u, db.members[MemberKey(id, kind, u)])
  {
    hide Parsed;
    var lists := Parsed(c).value.lists;
    assert kind in SnapshotOf(db, id) <==> ListKey(id, kind) in db.lists;
    assert MemberKey(id, kind, u) in db.members ==> ListKey(id, kind) in db.lists;
    ParsedLists(c, kind);
    if kind in lists {
      assert SnapshotOf(db, id)[kind] == ListOf(db.members, id, kind);
      hide SnapshotOf;
      hide WellFormed;
      ListStored(Documents(c, kind), lists[kind], u);
    } else {
      hide SnapshotOf;
      hide WellFormed;
      NobodyUnrecognised(Documents(c, kind), u);
    }
    hide AnyRecognised;
    hide NamedIn;
    hide IsFirstTime;
  }

  /** An execution that agrees with its file holds what the documents say, at the date that goes first. */
  lemma AgreesMeans(db: Db, files: map<UploadId, Content>, id: UploadId)
    requires WellFormed(db) && id in db.uploads && id in files && Parsed(files[id]).Some?
    requires Sweep.Agrees(db, files, id)
    ensures HoldsFile(db, id, files[id]) && db.uploads[id].takenAt.Some?
    ensures DatedBy(files[id], db.uploads[id], db.uploads[id].takenAt.value, db.uploads[id].source)
  {
    hide HoldsFile;
    hide Parsed;
    hide SnapshotOf;
    hide SnapshotIn;
    hide WellFormed;
    RowsOfFile(db, id, files[id]);
    ResolvedIs(files[id], db.uploads[id]);
    hide ResolveSnapshotDate;
    hide DatedBy;
  }

  lemma NobodyUnrecognised(docs: seq<Part>, u: User)
    requires !AnyRecognised(docs)
    ensures !NamedIn(docs, u)
  {
  }

  lemma ListStored(docs: seq<Part>, list: seq<Follower>, u: User)
    requires Gathers(docs, list)
    ensures var stored := AddMembers(map[], MembersIn(list));
            && (u in stored <==> NamedIn(docs, u))
            && (u in stored ==> IsFirstTime(docs, u, stored[u]))
  {
    hide NamedIn;
    hide IsFirstTime;
    hide AddMembers;
    MembersStored(list);
    if u in AddMembers(map[], MembersIn(list)) {
      var i :| 0 <= i < |Usernames(list)| && Usernames(list)[i] == u;
      assert list[i] in list;
    }
  }

  // ---------------------------------------------------------------- single steps

  /** What one recording leaves: the rows of the file, at the date that goes first, and nothing else written. */
  ghost predicate RecordedAsSent(s: System, t: System, id: UploadId) {
    && id in s.db.uploads && id in s.files && Parsed(s.files[id]).Some?
    && id in t.db.uploads && t.db.uploads[id].takenAt.Some?
    && HoldsFile(t.db, id, s.files[id])
    && DatedBy(s.files[id], s.db.uploads[id], t.db.uploads[id].takenAt.value, t.db.uploads[id].source)
    && PutAt(s.db, t.db, id, Completed, t.db.uploads[id].takenAt.value, t.db.uploads[id].source)
  }

  /** A recording, the first or a reread, leaves what the file says where its date belongs. */
  lemma RecordIsAsSent(s: System, step: Step)
    requires Fit(s) && Enabled(s, step) && (step.Record? || step.ReadAgain?)
    ensures RecordedAsSent(s, Perform(s, step), step.id)
  {
    hide Enabled;
    hide Perform;
    hide UploadOk;
    RecordEffect(s, step);
    StepFit(s, step);
    AppliedIsAsSent(s.db, step.id, s.files[step.id]);
    hide WellFormed;
    hide AppliedExport;
  }

  lemma AppliedIsAsSent(db: Db, id: UploadId, c: Content)
    requires WellFormed(db) && id in db.uploads && Parsed(c).Some?
    ensures var r := AppliedExport(db, id, Parsed(c).value);
            && SnapshotOf(r, id) == SnapshotIn(Parsed(c).value)
            && HoldsFile(r, id, c) && id in r.uploads && r.uploads[id].takenAt.Some?
            && DatedBy(c, db.uploads[id], r.uploads[id].takenAt.value, r.uploads[id].source)
            && PutAt(db, r, id, Completed, r.uploads[id].takenAt.value, r.uploads[id].source)
  {
    hide Parsed;
    hide WellFormed;
    hide HoldsFile;
    hide DatedBy;
    hide SnapshotIn;
    var e := Parsed(c).value;
    var when := ResolveSnapshotDate(e, db.uploads[id]);
    ResolvedIs(c, db.uploads[id]);
    AppliedPutsAt(db, id, SnapshotIn(e), when.0, when.1);
    AppliedSnapshots(db, id, SnapshotIn(e), when.0, when.1);
    AppliedWellFormed(db, id, SnapshotIn(e), when.0, when.1);
    hide ResolveSnapshotDate;
    hide Applied;
    hide SnapshotOf;
    RowsOfFile(AppliedExport(db, id, e), id, c);
  }

  /** A redating writes the date of the file, or of its name, and nothing else that is not derived. */
  lemma RedateIsAsDetected(s: System, id: UploadId)
    requires Fit(s) && Enabled(s, Redate(id))
    ensures var t := Perform(s, Redate(id));
            && id in s.files && id in t.db.uploads && t.db.uploads[id].takenAt.Some?
            && DetectedBy(s.files[id], s.db.uploads[id], t.db.uploads[id].takenAt.value, t.db.uploads[id].source)
            && PutAt(s.db, t.db, id, Completed, t.db.uploads[id].takenAt.value, t.db.uploads[id].source)
            && t.db.members == s.db.members && t.db.lists.Keys == s.db.lists.Keys
  {
    hide UploadOk;
    var when := DetectSnapshotDate(ReadFile(s, id).value, s.db.uploads[id]).value;
    DetectedIs(s.files[id], s.db.uploads[id]);
    RedatedPutsAt(s.db, id, when.0, when.1);
    RedatedWrites(s.db, id, when.0, when.1);
    hide WellFormed;
    hide DetectSnapshotDate;
    hide DetectedBy;
    hide Redated;
    hide Parsed;
  }

  /** When a redating is possible, said of the file. */
  lemma RedateEnabledIs(s: System, id: UploadId)
    ensures Enabled(s, Redate(id)) <==>
              && s.pc == Starting && id in s.db.uploads && s.db.uploads[id].status == Completed
              && s.db.uploads[id].source == ProcessingOrder
              && id in s.files && Parsed(s.files[id]).Some?
              && (DatesItself(s.files[id]) || s.db.uploads[id].filenameDate.Some?)
  {
    if id in s.db.uploads && id in s.files && Parsed(s.files[id]).Some? {
      DetectedIs(s.files[id], s.db.uploads[id]);
    }
    hide Parsed;
    hide DetectSnapshotDate;
  }

  /** How many followers a file names, each once. */
  ghost function FollowersIn(c: Content): set<User> {
    if Parsed(c).Some? && Followers in Parsed(c).value.lists
    then set u | u in Usernames(Parsed(c).value.lists[Followers]) else {}
  }

  lemma FollowersAre(c: Content)
    requires Parsed(c).Some?
    ensures forall u :: u in FollowersIn(c) <==> NamedIn(Documents(c, Followers), u)
    ensures Followers in Parsed(c).value.lists && |FollowersIn(c)| == |Parsed(c).value.lists[Followers]|
  {
    ParsedIsValid(c);
    ParsedLists(c, Followers);
    hide Parsed;
    var list := Parsed(c).value.lists[Followers];
    MembersStored(list);
    hide NamedIn;
    hide IsFirstTime;
    hide IsFirstLink;
    hide AddMembers;
    assert FollowersIn(c) == AddMembers(map[], MembersIn(list)).Keys;
  }

  /** Only one date goes first. */
  lemma DateIsOne(c: Content, up: Upload)
    requires Parsed(c).Some?
    ensures var when := ResolveSnapshotDate(Parsed(c).value, up);
            && DatedBy(c, up, when.0, when.1)
            && forall at, source :: DatedBy(c, up, at, source) ==> at == when.0 && source == when.1
  {
    ResolvedIs(c, up);
  }

  /**
   What lets a file in, judged against `p`, the execution before the date that goes first: the
   override, or else that it does not declare itself partial and names at least half as many followers
   as `p` had, if those were 25 or more.
   */
  ghost predicate LetIn(db: Db, up: Upload, id: UploadId, c: Content, p: Option<UploadId>) {
    && (exists at, source :: DatedBy(c, up, at, source) && IsPreceding(db, up.account, at, id, p))
    && (up.allowPartial
        || (!DeclaresPartial(c) && (p.Some? && p.value in db.uploads ==> KeepsHalf(db.uploads[p.value], c))))
  }

  ghost predicate KeepsHalf(previous: Upload, c: Content) {
    previous.totals.members < 25 || 2 * |FollowersIn(c)| >= previous.totals.members
  }

  lemma AdmitsIs(s: System, id: UploadId, c: Content, p: Option<UploadId>)
    requires id in s.db.uploads && Parsed(c).Some? && ValidExport(Parsed(c).value)
    ensures Admits(s, id, Parsed(c).value, p) <==> LetIn(s.db, s.db.uploads[id], id, c, p)
  {
    hide Parsed;
    hide FollowersIn;
    hide DeclaresPartial;
    hide CheckCoverage;
    var up, e := s.db.uploads[id], Parsed(c).value;
    ParsedPartial(c);
    FollowersAre(c);
    DateIsOne(c, up);
    hide ResolveSnapshotDate;
    hide DatedBy;
    PrecedingIsThere(s.db, up.account, ResolveSnapshotDate(e, up).0, id, p);
    hide IsPreceding;
    var count := if p.Some? && p.value in s.db.uploads then Some(s.db.uploads[p.value].totals.members) else None;
    AdmittedExactly(e.partial, |e.lists[Followers]|, count, up.allowPartial);
  }

  lemma PrecedingIsThere(db: Db, account: AccountId, takenAt: Time, id: UploadId, p: Option<UploadId>)
    ensures IsPreceding(db, account, takenAt, id, p) && p.Some? ==> p.value in db.uploads
  {
  }

  /** When a claimed upload can be recorded, said of its file and the columns it came with. */
  lemma RecordEnabledIs(s: System, id: UploadId, p: Option<UploadId>)
    ensures Enabled(s, Record(id, p)) <==>
              && s.pc == Busy(id) && id in s.db.uploads && id in s.files && Parsed(s.files[id]).Some?
              && LetIn(s.db, s.db.uploads[id], id, s.files[id], p)
  {
    hide Parsed;
    hide LetIn;
    hide Admits;
    if id in s.db.uploads && id in s.files && Parsed(s.files[id]).Some? {
      ParsedIsValid(s.files[id]);
      AdmitsIs(s, id, s.files[id], p);
    }
  }

  // ---------------------------------------------------------------- over runs

  /** Upload `id` came with the columns `up` and the file `c`, and if it is an execution it is that file. */
  ghost predicate Filed(s: System, id: UploadId, up: Upload, c: Content) {
    && id in s.db.uploads && SameIdentity(up, s.db.uploads[id])
    && (id in s.files ==> s.files[id] == c)
    && (s.db.uploads[id].status == Completed ==>
          && s.db.uploads[id].takenAt.Some? && Parsed(c).Some?
          && SnapshotOf(s.db, id) == SnapshotIn(Parsed(c).value)
          && DatedBy(c, up, s.db.uploads[id].takenAt.value, s.db.uploads[id].source)
          && (up.allowPartial || !DeclaresPartial(c)))
  }

  lemma DatedByAlike(c: Content, a: Upload, b: Upload, at: Time, source: Source)
    requires SameIdentity(a, b)
    ensures DatedBy(c, a, at, source) <==> DatedBy(c, b, at, source)
    ensures DatedBy(c, a, at, source) ==> source != ProcessingOrder
  {
  }

  lemma AcceptFiles(s: System, id: UploadId, up: Upload, c: Content)
    requires Enabled(s, Accept(id, up, c))
    ensures Filed(Perform(s, Accept(id, up, c)), id, up, c)
  {
  }

  /** A recording files what was sent. */
  lemma RecordFiles(s: System, step: Step, up: Upload, c: Content)
    requires Fit(s) && Enabled(s, step) && (step.Record? || step.ReadAgain?) && Filed(s, step.id, up, c)
    ensures Filed(Perform(s, step), step.id, up, c)
  {
    var id := step.id;
    if step.Record? {
      RecordEnabledIs(s, id, step.preceding);
    } else {
      RereadIsExecuted(s, id);
    }
    hide Enabled;
    hide Perform;
    hide UploadOk;
    RecordEffect(s, step);
    AppliedIsAsSent(s.db, id, s.files[id]);
    Safety.StepKeeps(s, step, id);
    var row := Perform(s, step).db.uploads[id];
    DatedByAlike(c, up, s.db.uploads[id], row.takenAt.value, row.source);
    hide WellFormed;
    hide Accounted;
    hide AppliedExport;
    hide SnapshotOf;
    hide SnapshotIn;
    hide DatedBy;
    hide Parsed;
    hide IsPreceding;
    hide HoldsFile;
    hide PutAt;
  }

  lemma RereadIsExecuted(s: System, id: UploadId)
    requires AtCompleted(s) && Enabled(s, ReadAgain(id))
    ensures id in s.db.uploads && s.db.uploads[id].status == Completed
  {
  }

  lemma OtherStepFiles(s: System, step: Step, id: UploadId, up: Upload, c: Content)
    requires Fit(s) && Enabled(s, step) && Filed(s, id, up, c)
    requires !((step.Record? || step.ReadAgain?) && step.id == id)
    ensures Filed(Perform(s, step), id, up, c)
  {
    hide Fit;
    hide Enabled;
    hide Perform;
    Safety.StepKeeps(s, step, id);
    Rereads.FilesKept(s, step, id);
    Safety.StepRecords(s, step, id);
    if s.db.uploads[id].status == Completed {
      Rereads.StepTouches(s, step, id);
      if step == Redate(id) {
        RedateIsUndated(s, id);
        DatedByAlike(c, up, up, s.db.uploads[id].takenAt.value, s.db.uploads[id].source);
        assert false;
      }
    }
    hide SnapshotOf;
    hide SnapshotIn;
    hide DatedBy;
    hide Parsed;
  }

  lemma RedateIsUndated(s: System, id: UploadId)
    requires Enabled(s, Redate(id))
    ensures id in s.db.uploads && s.db.uploads[id].source == ProcessingOrder
  {
  }

  lemma {:induction false} PathFiles(s: System, steps: seq<Step>, t: System, id: UploadId, up: Upload, c: Content)
    requires Fit(s) && Path(s, steps, t) && Filed(s, id, up, c)
    ensures Fit(t) && Filed(t, id, up, c)
    decreases |steps|
  {
    hide Fit;
    hide Filed;
    hide Enabled;
    hide Perform;
    if steps != [] {
      if (steps[0].Record? || steps[0].ReadAgain?) && steps[0].id == id {
        RecordFiles(s, steps[0], up, c);
      } else {
        OtherStepFiles(s, steps[0], id, up, c);
      }
      StepFit(s, steps[0]);
      PathFiles(Perform(s, steps[0]), steps[1..], t, id, up, c);
    }
  }

  lemma {:induction false} SentIsFiled(s: System, steps: seq<Step>, t: System, id: UploadId, up: Upload, c: Content)
    requires Fit(s) && Path(s, steps, t) && Accept(id, up, c) in steps
    ensures Fit(t) && Filed(t, id, up, c)
    decreases |steps|
  {
    hide Fit;
    hide Filed;
    hide Enabled;
    hide Perform;
    StepFit(s, steps[0]);
    if steps[0] == Accept(id, up, c) {
      AcceptFiles(s, id, up, c);
      PathFiles(Perform(s, steps[0]), steps[1..], t, id, up, c);
    } else {
      SentIsFiled(Perform(s, steps[0]), steps[1..], t, id, up, c);
    }
  }

  /**
   Over any run an upload keeps the columns it came with and its file stays the file that was sent; if
   it is completed, its rows are what that file says, its date is the one that goes first among those
   that came with it, and it had the override or did not declare itself partial.
   */
  lemma CompletedIsAsSent(s: System, steps: seq<Step>, t: System, id: UploadId, up: Upload, c: Content)
    requires Fit(s) && Path(s, steps, t) && Accept(id, up, c) in steps
    ensures id in t.db.uploads && SameIdentity(up, t.db.uploads[id])
    ensures id in t.files ==> t.files[id] == c
    ensures t.db.uploads[id].status == Completed ==>
              && HoldsFile(t.db, id, c)
              && t.db.uploads[id].takenAt.Some?
              && DatedBy(c, up, t.db.uploads[id].takenAt.value, t.db.uploads[id].source)
              && (up.allowPartial || !DeclaresPartial(c))
  {
    hide Path;
    hide UploadOk;
    SentIsFiled(s, steps, t, id, up, c);
    hide DatedBy;
    hide HoldsFile;
    if t.db.uploads[id].status == Completed {
      RowsOfFile(t.db, id, c);
    }
    hide WellFormed;
    hide Parsed;
    hide SnapshotOf;
  }

  /** In a service that began empty every upload was sent in the run. */
  lemma {:induction false} EveryUploadWasSent(s: System, steps: seq<Step>, t: System, id: UploadId)
    requires Path(s, steps, t) && id !in s.db.uploads && id in t.db.uploads
    ensures exists up, c :: Accept(id, up, c) in steps
    decreases |steps|
  {
    var s1 := Perform(s, steps[0]);
    if id in s1.db.uploads {
      NewIsAccepted(s, steps[0], id);
    } else {
      EveryUploadWasSent(s1, steps[1..], t, id);
      var up, c :| Accept(id, up, c) in steps[1..];
      assert Accept(id, up, c) in steps;
    }
  }

  lemma NewIsAccepted(s: System, step: Step, id: UploadId)
    requires Enabled(s, step) && id !in s.db.uploads && id in Perform(s, step).db.uploads
    ensures step.Accept? && step.id == id
  {
  }
}

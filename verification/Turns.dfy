/**
 The turns of a drain: what the outside asks and allows in each, which steps a turn takes because of
 it, and what that makes of every upload claimed and every execution reread on the way.
 */
module Turns {
  import opened Schema
  import opened Operations
  import opened Export
  import opened Machine
  import opened Provenance
  import opened Upgrade

  /** Why a drain stopped. */
  datatype Outcome = Emptied | Cancelled | Errored

  /** What the server asks for: a file is sent in, or an account is to be read again. */
  datatype Request = Send(id: UploadId, up: Upload, content: Content) | ReadOver(account: AccountId, now: Time)

  /** What the outside asks and allows during one turn of the worker. */
  datatype Turn = Turn(
    requests: seq<Request>,   // what comes in before the turn
    cancelled: bool,      // the service has been told to stop
    claims: bool,         // the store hands out the next pending upload
    opens: bool,          // the stored file can be opened
    answers: bool,        // the store answers which execution precedes an upload
    commits: bool,        // the transaction recording an execution commits
    removes: bool,        // a processed file can be removed
    writes: bool,         // a failure, or the end of a reread, can be written
    claimsFlagged: bool)  // the store hands out the next flagged execution

  /** Nothing in the turn stops the worker; reading or recording may still fail. */
  predicate Calm(turn: Turn) {
    !turn.cancelled && turn.claims && turn.claimsFlagged && turn.writes
  }

  /** Nothing in the turn stands in the way of correcting a date. */
  predicate Legible(turn: Turn) {
    !turn.cancelled && turn.opens && turn.commits
  }

  /** The file of an upload can be read and passes the check on what it covers. */
  ghost predicate Recordable(s: System, id: UploadId) {
    && id in s.db.uploads && ReadFile(s, id).Some? && ValidExport(ReadFile(s, id).value)
    && exists preceding :: Admits(s, id, ReadFile(s, id).value, preceding)
  }

  /** What becomes of a claimed upload. */
  ghost predicate Settles(s: System, id: UploadId, turn: Turn, step: Step) {
    if turn.opens && turn.answers && turn.commits && Recordable(s, id) then step.Record? && step.id == id
    else step == if turn.writes then Refuse(id) else Strand(id)
  }

  /** What becomes of an execution being read again. */
  ghost predicate Redoes(s: System, id: UploadId, turn: Turn, step: Step) {
    step == if turn.opens && turn.commits && ReadFile(s, id).Some? then ReadAgain(id) else KeepAsIs(id)
  }

  /** No execution is claimed for rereading while an upload is pending. */
  ghost predicate UploadsFirst(s: System, steps: seq<Step>)
    decreases |steps|
  {
    steps != [] && Enabled(s, steps[0]) ==>
      (steps[0].ClaimReread? ==> PendingTimes(s.db) == map[]) && UploadsFirst(Perform(s, steps[0]), steps[1..])
  }

  lemma {:induction false} UploadsFirstConcat(s: System, a: seq<Step>, t: System, b: seq<Step>)
    requires Path(s, a, t) && UploadsFirst(s, a) && UploadsFirst(t, b)
    ensures UploadsFirst(s, a + b)
    decreases |a|
  {
    if a == [] {
      assert a + b == b;
    } else {
      assert (a + b)[1..] == a[1..] + b;
      UploadsFirstConcat(Perform(s, a[0]), a[1..], t, b);
    }
  }

  /** A run of the machine from `s` to `t` that rereads nothing while an upload is pending. */
  ghost predicate Run(s: System, steps: seq<Step>, t: System) {
    Path(s, steps, t) && UploadsFirst(s, steps)
  }

  lemma Stay(s: System)
    ensures Run(s, [], s)
  {
  }

  lemma OneStep(s: System, step: Step)
    requires Enabled(s, step) && (step.ClaimReread? ==> PendingTimes(s.db) == map[])
    ensures Run(s, [step], Perform(s, step))
  {
    hide Enabled;
    hide Perform;
    var t := Perform(s, step);
    assert Path(t, [], t) && UploadsFirst(t, []);
    assert [step][1..] == [];
  }

  lemma {:induction false} Extend(s: System, steps: seq<Step>, t: System, step: Step)
    requires Run(s, steps, t) && Enabled(t, step) && (step.ClaimReread? ==> PendingTimes(t.db) == map[])
    ensures Run(s, steps + [step], Perform(t, step))
  {
    OneStep(t, step);
    Join(s, steps, t, [step], Perform(t, step));
  }

  lemma Join(s: System, a: seq<Step>, t: System, b: seq<Step>, u: System)
    requires Run(s, a, t) && Run(t, b, u)
    ensures Run(s, a + b, u)
  {
    PathConcat(s, a, t, b, u);
    UploadsFirstConcat(s, a, t, b);
  }

  // ---------------------------------------------------------------- states on the way

  /** The state a run of steps has reached. */
  ghost function Reached(s: System, steps: seq<Step>): System
    decreases |steps|
  {
    if steps == [] || !Enabled(s, steps[0]) then s else Reached(Perform(s, steps[0]), steps[1..])
  }

  lemma {:induction false} PathReached(s: System, steps: seq<Step>, t: System)
    requires Path(s, steps, t)
    ensures Reached(s, steps) == t
    decreases |steps|
  {
    hide Enabled;
    hide Perform;
    if steps != [] {
      PathReached(Perform(s, steps[0]), steps[1..], t);
    }
  }

  lemma {:induction false} ReachedConcat(s: System, a: seq<Step>, t: System, b: seq<Step>)
    requires Path(s, a, t)
    ensures Reached(s, a + b) == Reached(t, b)
    decreases |a|
  {
    hide Enabled;
    hide Perform;
    if a == [] {
      assert a + b == b;
    } else {
      assert (a + b)[1..] == a[1..] + b;
      ReachedConcat(Perform(s, a[0]), a[1..], t, b);
    }
  }

  // ---------------------------------------------------------------- what a turn takes

  /** What a request makes the service do: a file under a name that is taken is turned away. */
  ghost function Answer(s: System, request: Request): seq<Step> {
    match request
    case Send(id, up, content) =>
      if IsNewUpload(up) && id !in s.files && forall x | x in s.db.uploads :: x.n < id.n
      then [Accept(id, up, content)] else []
    case ReadOver(account, now) => [Mark(account, now)]
  }

  /** What a sequence of requests makes it do, one after the other. */
  ghost function Served(s: System, requests: seq<Request>): seq<Step> {
    if requests == [] then []
    else
      var before := Served(s, requests[..|requests| - 1]);
      before + Answer(Reached(s, before), requests[|requests| - 1])
  }

  lemma NothingServed(s: System)
    ensures Served(s, []) == []
  {
  }

  lemma ServedSnoc(s: System, requests: seq<Request>, request: Request)
    ensures var before := Served(s, requests);
            Served(s, requests + [request]) == before + Answer(Reached(s, before), request)
  {
    assert (requests + [request])[..|requests|] == requests;
  }

  lemma RunReached(s: System, steps: seq<Step>, t: System)
    requires Run(s, steps, t)
    ensures Reached(s, steps) == t
  {
    PathReached(s, steps, t);
  }

  /** One pending upload claimed and settled, and its file dealt with if it was recorded. */
  ghost predicate Processed(s: System, turn: Turn, steps: seq<Step>) {
    && |steps| >= 2 && steps[0].Claim? && Enabled(s, steps[0])
    && Settles(Perform(s, steps[0]), steps[0].id, turn, steps[1])
    && steps[2..] == if steps[1].Record? then [Clear(steps[0].id, !s.retain && turn.removes)] else []
  }

  /** One flagged execution reread or kept and taken off the queue, if there is one. */
  ghost predicate Reprocessed(s: System, turn: Turn, steps: seq<Step>) {
    if !turn.claimsFlagged || FlaggedTimes(s.db) == map[] then steps == [Rest]
    else
      && |steps| == 3 && steps[0].ClaimReread? && Enabled(s, steps[0])
      && Redoes(Perform(s, steps[0]), steps[0].id, turn, steps[1])
      && steps[2] == if turn.writes then Unflag(steps[0].id) else StayFlagged(steps[0].id)
  }

  lemma ProcessedIs(s: System, turn: Turn, claim: Step, more: seq<Step>)
    requires claim.Claim? && Enabled(s, claim) && more != []
    requires Settles(Perform(s, claim), claim.id, turn, more[0])
    requires more[1..] == if more[0].Record? then [Clear(claim.id, !s.retain && turn.removes)] else []
    ensures Processed(s, turn, [claim] + more) && ([claim] + more)[1] == more[0]
  {
    assert ([claim] + more)[2..] == more[1..];
    hide Enabled;
    hide Perform;
    hide Settles;
  }

  lemma ReprocessedIs(s: System, turn: Turn, claim: Step, more: seq<Step>)
    requires claim.ClaimReread? && Enabled(s, claim) && turn.claimsFlagged && FlaggedTimes(s.db) != map[]
    requires |more| == 2 && Redoes(Perform(s, claim), claim.id, turn, more[0])
    requires more[1] == if turn.writes then Unflag(claim.id) else StayFlagged(claim.id)
    ensures Reprocessed(s, turn, [claim] + more)
  {
    hide Enabled;
    hide Perform;
    hide Redoes;
    hide FlaggedTimes;
  }

  lemma NothingReprocessed(s: System, turn: Turn)
    requires !turn.claimsFlagged || FlaggedTimes(s.db) == map[]
    ensures Reprocessed(s, turn, [Rest])
  {
  }

  /** What the worker does in one turn: the uploads first, and a reread only when none is waiting. */
  ghost predicate Worked(s: System, turn: Turn, steps: seq<Step>) {
    if turn.cancelled || !turn.claims then steps == []
    else if PendingTimes(s.db) != map[] then Processed(s, turn, steps)
    else
      && steps != [] && steps[0] == FindQuiet && Enabled(s, FindQuiet)
      && Reprocessed(Perform(s, FindQuiet), turn, steps[1..])
  }

  /** Why the turn ends the drain, if it does. */
  ghost function Stops(s: System, turn: Turn, steps: seq<Step>): Option<Outcome> {
    if turn.cancelled then Some(Cancelled)
    else if !turn.claims then Some(Errored)
    else if PendingTimes(s.db) != map[] then
      if |steps| >= 2 && steps[1].Strand? then Some(Errored) else None
    else if !turn.claimsFlagged then Some(Errored)
    else if FlaggedTimes(s.db) == map[] then Some(Emptied)
    else if turn.writes then None else Some(Errored)
  }

  /** A whole turn from `s`: the requests that came in, if they are still taken, and then the work. */
  ghost predicate TurnTaken(s: System, turn: Turn, serves: bool, steps: seq<Step>, stop: Option<Outcome>) {
    var first := if serves then Served(s, turn.requests) else [];
    && |first| <= |steps| && steps[..|first|] == first
    && Worked(Reached(s, first), turn, steps[|first|..])
    && stop == Stops(Reached(s, first), turn, steps[|first|..])
  }

  /** The steps of all the turns. */
  function Flat(turns: seq<seq<Step>>): seq<Step> {
    if turns == [] then [] else Flat(turns[..|turns| - 1]) + turns[|turns| - 1]
  }

  /** Where turn `k` begins. */
  ghost function StartOf(s: System, turns: seq<seq<Step>>, k: nat): System
    requires k <= |turns|
  {
    Reached(s, Flat(turns[..k]))
  }

  /** Turn `k` is what its turn of the world makes of it, and goes on unless `stop` says why not. */
  ghost predicate Taken(
    s: System, world: nat -> Turn, until: nat, turns: seq<seq<Step>>, k: nat, stop: Option<Outcome>)
    requires k < |turns|
  {
    TurnTaken(StartOf(s, turns, k), world(k), k < until, turns[k], stop)
  }

  /** All turns went on. */
  ghost predicate GoesOn(s: System, world: nat -> Turn, until: nat, turns: seq<seq<Step>>) {
    forall k: nat | k < |turns| :: Taken(s, world, until, turns, k, None)
  }

  /** A drain: turns that go on, and a last one that ends it. */
  ghost predicate Drained(s: System, world: nat -> Turn, until: nat, turns: seq<seq<Step>>, outcome: Outcome) {
    && turns != []
    && GoesOn(s, world, until, turns[..|turns| - 1])
    && Taken(s, world, until, turns, |turns| - 1, Some(outcome))
  }

  // ---------------------------------------------------------------- putting turns together

  lemma RunIsPath(s: System, steps: seq<Step>, t: System)
    requires Run(s, steps, t)
    ensures Path(s, steps, t)
  {
  }

  lemma CalmIs(turn: Turn)
    ensures Calm(turn) <==> !turn.cancelled && turn.claims && turn.claimsFlagged && turn.writes
  {
  }

  lemma WorkedNothing(s: System, turn: Turn)
    requires turn.cancelled || !turn.claims
    ensures Worked(s, turn, []) && Stops(s, turn, []) == Some(if turn.cancelled then Cancelled else Errored)
  {
  }

  lemma WorkedUpload(s: System, turn: Turn, steps: seq<Step>)
    requires !turn.cancelled && turn.claims && PendingTimes(s.db) != map[] && Processed(s, turn, steps)
    ensures Worked(s, turn, steps) && Stops(s, turn, steps) == if steps[1].Strand? then Some(Errored) else None
  {
    hide Settles;
    hide Enabled;
    hide Perform;
    hide PendingTimes;
  }

  lemma WorkedReread(s: System, turn: Turn, more: seq<Step>)
    requires !turn.cancelled && turn.claims && PendingTimes(s.db) == map[] && Enabled(s, FindQuiet)
    requires Reprocessed(Perform(s, FindQuiet), turn, more)
    ensures Worked(s, turn, [FindQuiet] + more)
    ensures Stops(s, turn, [FindQuiet] + more) ==
              if !turn.claimsFlagged then Some(Errored)
              else if FlaggedTimes(s.db) == map[] then Some(Emptied)
              else if turn.writes then None else Some(Errored)
  {
    hide Reprocessed;
    hide Enabled;
    hide Perform;
  }

  lemma TurnIs(
    s: System, turn: Turn, serves: bool, first: seq<Step>, mid: System, rest: seq<Step>, stop: Option<Outcome>)
    requires first == if serves then Served(s, turn.requests) else []
    requires Path(s, first, mid) && Worked(mid, turn, rest) && stop == Stops(mid, turn, rest)
    ensures TurnTaken(s, turn, serves, first + rest, stop)
  {
    hide Served;
    hide Worked;
    hide Stops;
    hide Path;
    PathReached(s, first, mid);
    assert (first + rest)[..|first|] == first && (first + rest)[|first|..] == rest;
  }

  /** One more turn after the others. */
  lemma TurnSnoc(
    s: System, world: nat -> Turn, until: nat, turns: seq<seq<Step>>, steps: seq<Step>, stop: Option<Outcome>)
    requires TurnTaken(Reached(s, Flat(turns)), world(|turns|), |turns| < until, steps, stop)
    ensures Flat(turns + [steps]) == Flat(turns) + steps
    ensures Taken(s, world, until, turns + [steps], |turns|, stop)
    ensures GoesOn(s, world, until, turns) && stop.None? ==> GoesOn(s, world, until, turns + [steps])
    ensures GoesOn(s, world, until, turns) && stop.Some? ==> Drained(s, world, until, turns + [steps], stop.value)
  {
    hide TurnTaken;
    hide Reached;
    var all := turns + [steps];
    assert all[..|turns|] == turns;
    forall k: nat, w | k < |turns| && Taken(s, world, until, turns, k, w)
      ensures Taken(s, world, until, all, k, w)
    {
      assert all[..k] == turns[..k];
    }
    assert all[..|all| - 1] == turns;
  }

  lemma NoTurnsYet(s: System, world: nat -> Turn, until: nat)
    ensures GoesOn(s, world, until, []) && Flat([]) == []
  {
  }

  // ---------------------------------------------------------------- every step of a drain

  lemma {:induction false} PathPrefix(s: System, steps: seq<Step>, t: System, i: nat)
    requires Path(s, steps, t) && i <= |steps|
    ensures Path(s, steps[..i], Reached(s, steps[..i]))
    decreases |steps|
  {
    hide Enabled;
    hide Perform;
    if i > 0 {
      assert steps[..i][0] == steps[0] && steps[..i][1..] == steps[1..][..i - 1];
      PathPrefix(Perform(s, steps[0]), steps[1..], t, i - 1);
    }
  }

  lemma {:induction false} ServedIsRequested(s: System, requests: seq<Request>)
    ensures forall step | step in Served(s, requests) :: step.Accept? || step.Mark?
  {
    if requests != [] {
      ServedIsRequested(s, requests[..|requests| - 1]);
    }
  }

  /** The turn a step belongs to, and what stands around it there. */
  lemma {:induction false} TurnOf(turns: seq<seq<Step>>, i: nat) returns (k: nat)
    requires i < |Flat(turns)|
    ensures k < |turns|
    ensures |Flat(turns[..k])| <= i < |Flat(turns[..k])| + |turns[k]| <= |Flat(turns)|
    ensures Flat(turns)[|Flat(turns[..k])|..][..|turns[k]|] == turns[k]
    ensures Flat(turns)[..|Flat(turns[..k])|] == Flat(turns[..k])
    decreases |turns|
  {
    var front, last := turns[..|turns| - 1], turns[|turns| - 1];
    if i < |Flat(front)| {
      k := TurnOf(front, i);
      assert front[..k] == turns[..k] && front[k] == turns[k];
      assert Flat(turns)[..|Flat(front)|] == Flat(front);
      var n := |Flat(turns[..k])|;
      assert Flat(turns)[n..][..|turns[k]|] == Flat(front)[n..][..|turns[k]|];
      assert Flat(turns)[..n] == Flat(front)[..n];
    } else {
      k := |turns| - 1;
      assert Flat(turns)[|Flat(front)|..] == last;
    }
  }

  lemma DrainedTakes(s: System, world: nat -> Turn, until: nat, turns: seq<seq<Step>>, outcome: Outcome, k: nat)
    returns (stop: Option<Outcome>)
    requires Drained(s, world, until, turns, outcome) && k < |turns|
    ensures TurnTaken(Reached(s, Flat(turns[..k])), world(k), k < until, turns[k], stop)
  {
    hide TurnTaken;
    hide Reached;
    var front := turns[..|turns| - 1];
    stop := Some(outcome);
    if k < |front| {
      stop := None;
      assert Taken(s, world, until, front, k, None);
      assert front[..k] == turns[..k];
    }
  }

  /** A step of the worker's stands among the work of one turn, begun in the state reached there. */
  lemma AmongWork(
    s: System, world: nat -> Turn, until: nat, turns: seq<seq<Step>>, outcome: Outcome, t: System, i: nat)
    returns (k: nat, begins: nat, work: seq<Step>)
    requires Drained(s, world, until, turns, outcome) && Path(s, Flat(turns), t) && i < |Flat(turns)|
    requires !Flat(turns)[i].Accept? && !Flat(turns)[i].Mark?
    ensures begins <= i < begins + |work| <= |Flat(turns)|
    ensures forall j | 0 <= j < |work| :: Flat(turns)[begins + j] == work[j]
    ensures Worked(Reached(s, Flat(turns)[..begins]), world(k), work)
  {
    hide Worked;
    hide Served;
    hide Stops;
    hide Path;
    k := TurnOf(turns, i);
    var stop := DrainedTakes(s, world, until, turns, outcome, k);
    var steps, before := Flat(turns), Flat(turns[..k]);
    var start := Reached(s, before);
    var first := if k < until then Served(start, world(k).requests) else [];
    begins, work := |before| + |first|, turns[k][|first|..];
    ServedIsRequested(start, world(k).requests);
    PathPrefix(s, steps, t, |before|);
    ReachedConcat(s, before, start, first);
    hide *;
    ChunkWithin(steps, before, turns[k], first, i);
  }

  /** Where a turn's steps, the requests first, lie among all. */
  lemma ChunkWithin(steps: seq<Step>, before: seq<Step>, chunk: seq<Step>, first: seq<Step>, i: nat)
    requires |before| <= i < |before| + |chunk| <= |steps| && steps[..|before|] == before
    requires steps[|before|..][..|chunk|] == chunk && |first| <= |chunk| && chunk[..|first|] == first
    requires forall step | step in first :: step.Accept? || step.Mark?
    requires !steps[i].Accept? && !steps[i].Mark?
    ensures |before| + |first| <= i && steps[..|before| + |first|] == before + first
    ensures forall j | 0 <= j < |chunk| - |first| :: steps[|before| + |first| + j] == chunk[|first|..][j]
  {
    assert forall j | 0 <= j < |chunk| :: steps[|before| + j] == steps[|before|..][..|chunk|][j] == chunk[j];
    assert forall j | 0 <= j < |first| :: chunk[j] == chunk[..|first|][j] && first[j] in first;
  }

  /** In the given turn the upload claimed by step `i` is settled next, and its file dealt with. */
  ghost predicate SettledUnder(s: System, steps: seq<Step>, i: nat, turn: Turn) {
    && i + 1 < |steps| && steps[i].Claim?
    && Settles(Reached(s, steps[..i + 1]), steps[i].id, turn, steps[i + 1])
    && (steps[i + 1].Record? ==> i + 2 < |steps| && steps[i + 2].Clear? && steps[i + 2].id == steps[i].id)
  }

  lemma ReachedSnoc(s: System, steps: seq<Step>, t: System, i: nat)
    requires Path(s, steps, t) && i < |steps| && Enabled(Reached(s, steps[..i]), steps[i])
    ensures Reached(s, steps[..i + 1]) == Perform(Reached(s, steps[..i]), steps[i])
  {
    hide Enabled;
    hide Perform;
    PathPrefix(s, steps, t, i);
    hide Path;
    var mid := Reached(s, steps[..i]);
    ReachedConcat(s, steps[..i], mid, [steps[i]]);
    assert steps[..i] + [steps[i]] == steps[..i + 1];
    assert [steps[i]][1..] == [];
  }

  /**
   Every upload a drain claims is settled in its next step as the turn it was claimed in allows, from
   the state reached there: recorded if the file opened, the store answered, the export was admissible
   and the transaction committed, and otherwise failed, or left in processing.
   */
  lemma ClaimsAreSettled(
    s: System, world: nat -> Turn, until: nat, turns: seq<seq<Step>>, outcome: Outcome, t: System, i: nat)
    returns (k: nat)
    requires Drained(s, world, until, turns, outcome) && Path(s, Flat(turns), t)
    requires i < |Flat(turns)| && Flat(turns)[i].Claim?
    ensures SettledUnder(s, Flat(turns), i, world(k))
  {
    hide Path;
    hide Drained;
    hide Flat;
    hide Settles;
    hide Redoes;
    hide Enabled;
    hide Perform;
    var begins, work;
    k, begins, work := AmongWork(s, world, until, turns, outcome, t, i);
    var mid := Reached(s, Flat(turns)[..begins]);
    hide Reached;
    ClaimIsFirst(mid, world(k), work, i - begins);
    hide Worked;
    ReachedSnoc(s, Flat(turns), t, begins);
  }

  lemma TailsOf(work: seq<Step>)
    ensures |work| >= 1 ==> |work[1..]| == |work| - 1 && forall j | 1 <= j < |work| :: work[j] == work[1..][j - 1]
    ensures |work| >= 2 ==> |work[2..]| == |work| - 2 && forall j | 2 <= j < |work| :: work[j] == work[2..][j - 2]
  {
  }

  lemma ClaimIsFirst(s: System, turn: Turn, work: seq<Step>, j: nat)
    requires Worked(s, turn, work) && j < |work| && work[j].Claim?
    ensures j == 0 && |work| >= 2 && Enabled(s, work[0]) && Settles(Perform(s, work[0]), work[0].id, turn, work[1])
    ensures work[1].Record? ==> |work| == 3 && work[2] == Clear(work[0].id, !s.retain && turn.removes)
  {
    hide Enabled;
    hide Perform;
    hide PendingTimes;
    hide FlaggedTimes;
    hide Recordable;
    TailsOf(work);
  }

  /** Every execution a drain claims for rereading is reread, or kept if it cannot be, and then let go of. */
  ghost predicate RedoneUnder(s: System, steps: seq<Step>, i: nat, turn: Turn) {
    && i + 2 < |steps| && steps[i].ClaimReread?
    && Redoes(Reached(s, steps[..i + 1]), steps[i].id, turn, steps[i + 1])
    && steps[i + 2] == if turn.writes then Unflag(steps[i].id) else StayFlagged(steps[i].id)
  }

  lemma RereadsAreDone(
    s: System, world: nat -> Turn, until: nat, turns: seq<seq<Step>>, outcome: Outcome, t: System, i: nat)
    returns (k: nat)
    requires Drained(s, world, until, turns, outcome) && Path(s, Flat(turns), t)
    requires i < |Flat(turns)| && Flat(turns)[i].ClaimReread?
    ensures RedoneUnder(s, Flat(turns), i, world(k))
  {
    hide Path;
    hide Drained;
    hide Flat;
    hide Settles;
    hide Redoes;
    hide Enabled;
    hide Perform;
    var begins, work;
    k, begins, work := AmongWork(s, world, until, turns, outcome, t, i);
    var mid := Reached(s, Flat(turns)[..begins]);
    hide Reached;
    RereadIsSecond(mid, world(k), work, i - begins);
    hide Worked;
    ReachedSnoc(s, Flat(turns), t, begins);
    ReachedSnoc(s, Flat(turns), t, begins + 1);
  }

  lemma RereadIsSecond(s: System, turn: Turn, work: seq<Step>, j: nat)
    requires Worked(s, turn, work) && j < |work| && work[j].ClaimReread?
    ensures j == 1 && |work| == 4 && work[0] == FindQuiet && Enabled(s, FindQuiet)
    ensures var quiet := Perform(s, FindQuiet);
            && Enabled(quiet, work[1]) && Redoes(Perform(quiet, work[1]), work[1].id, turn, work[2])
            && work[3] == if turn.writes then Unflag(work[1].id) else StayFlagged(work[1].id)
  {
    hide Enabled;
    hide Perform;
    hide PendingTimes;
    hide FlaggedTimes;
    hide Recordable;
    hide ReadFile;
    TailsOf(work);
  }

  /**
   Where every turn opens, answers and commits, an upload fails in a drain only if it could not be
   recorded in the state it was claimed in.
   */
  lemma RefusedIsUnrecordable(
    s: System, world: nat -> Turn, until: nat, turns: seq<seq<Step>>, outcome: Outcome, t: System, i: nat)
    requires Drained(s, world, until, turns, outcome) && Path(s, Flat(turns), t)
    requires forall n: nat :: world(n).opens && world(n).answers && world(n).commits
    requires i < |Flat(turns)| && (Flat(turns)[i].Refuse? || Flat(turns)[i].Strand?)
    ensures i > 0 && Flat(turns)[i - 1] == Claim(Flat(turns)[i].id)
    ensures !Recordable(Reached(s, Flat(turns)[..i]), Flat(turns)[i].id)
  {
    hide Path;
    hide Drained;
    hide Flat;
    hide Recordable;
    hide Enabled;
    hide Perform;
    var k, begins, work := AmongWork(s, world, until, turns, outcome, t, i);
    var mid := Reached(s, Flat(turns)[..begins]);
    hide Reached;
    FailureIsSecond(mid, world(k), work, i - begins);
    hide Worked;
    ReachedSnoc(s, Flat(turns), t, begins);
  }

  lemma FailureIsSecond(s: System, turn: Turn, work: seq<Step>, j: nat)
    requires Worked(s, turn, work) && j < |work| && (work[j].Refuse? || work[j].Strand?)
    ensures j == 1 && work[0] == Claim(work[1].id) && Enabled(s, work[0])
    ensures Settles(Perform(s, work[0]), work[1].id, turn, work[1])
  {
    hide Enabled;
    hide Perform;
    hide PendingTimes;
    hide FlaggedTimes;
    hide Recordable;
    hide ReadFile;
    TailsOf(work);
  }

  /** What could be recorded, said of the file. */
  lemma RecordableIs(s: System, id: UploadId)
    ensures Recordable(s, id) <==>
              && id in s.db.uploads && id in s.files && Parsed(s.files[id]).Some?
              && exists p :: LetIn(s.db, s.db.uploads[id], id, s.files[id], p)
  {
    hide Parsed;
    hide LetIn;
    hide Admits;
    if id in s.db.uploads && id in s.files && Parsed(s.files[id]).Some? {
      ParsedIsValid(s.files[id]);
      forall p
        ensures Admits(s, id, Parsed(s.files[id]).value, p) <==> LetIn(s.db, s.db.uploads[id], id, s.files[id], p)
      {
        AdmitsIs(s, id, s.files[id], p);
      }
    }
  }

  // ---------------------------------------------------------------- start-up

  /** The redatings of the first `n` of `ids`: those whose file opens, gives a date and is committed. */
  ghost function Corrections(s: System, ids: seq<UploadId>, world: nat -> Turn, n: nat): seq<Step>
    requires n <= |ids|
  {
    if n == 0 then []
    else
      var before, turn := Corrections(s, ids, world, n - 1), world(n - 1);
      if turn.opens && turn.commits && Datable(s, ids[n - 1]) then before + [Redate(ids[n - 1])] else before
  }

  /** `ids` are the executions whose date is unknown, by id. */
  ghost predicate ListsUndated(db: Db, ids: seq<UploadId>) {
    && (forall x :: x in ids <==> Undated(db, x))
    && (forall i, j | 0 <= i < j < |ids| :: ids[i].n < ids[j].n)
  }

  /**
   The steps of a backfill: each execution whose date is unknown is looked at in turn, by id, until the
   service is told to stop, and one that cannot be corrected is passed over.
   */
  ghost predicate BackfilledOver(s: System, ids: seq<UploadId>, world: nat -> Turn, n: nat, steps: seq<Step>) {
    && ListsUndated(s.db, ids) && n <= |ids|
    && (forall k: nat | k < n :: !world(k).cancelled) && (n < |ids| ==> world(n).cancelled)
    && steps == Corrections(s, ids, world, n)
  }

  lemma UndatedListed(db: Db, ids: seq<UploadId>)
    requires ListsUndated(db, ids)
    ensures forall x :: x in ids <==> Undated(db, x)
    ensures forall i, j | 0 <= i < j < |ids| :: ids[i] != ids[j]
  {
  }

  lemma {:induction false} CorrectedUpTo(s: System, ids: seq<UploadId>, world: nat -> Turn, n: nat, j: nat)
    requires j < n <= |ids| && world(j).opens && world(j).commits && Datable(s, ids[j])
    ensures Redate(ids[j]) in Corrections(s, ids, world, n)
  {
    hide Datable;
    if j < n - 1 {
      CorrectedUpTo(s, ids, world, n - 1, j);
    }
  }

  /** With nothing in the way every execution whose file gives a date is redated. */
  lemma AllCorrected(s: System, ids: seq<UploadId>, world: nat -> Turn)
    requires ListsUndated(s.db, ids) && forall n: nat :: Legible(world(n))
    ensures forall x | Undated(s.db, x) && Datable(s, x) :: Redate(x) in Corrections(s, ids, world, |ids|)
  {
    hide Datable;
    hide Undated;
    forall x | Undated(s.db, x) && Datable(s, x)
      ensures Redate(x) in Corrections(s, ids, world, |ids|)
    {
      var j :| 0 <= j < |ids| && ids[j] == x;
      assert Legible(world(j));
      CorrectedUpTo(s, ids, world, |ids|, j);
    }
  }

  ghost predicate Backfilled(s: System, looks: bool, world: nat -> Turn, steps: seq<Step>) {
    if looks then exists ids, n :: BackfilledOver(s, ids, world, n, steps) else steps == []
  }

  // ---------------------------------------------------------------- being woken

  /** The steps of all the drains. */
  function FlatAll(rounds: seq<seq<seq<Step>>>): seq<Step> {
    if rounds == [] then [] else FlatAll(rounds[..|rounds| - 1]) + Flat(rounds[|rounds| - 1])
  }

  /** Drain `r` is what the world makes of it. */
  ghost predicate Woken(
    s: System, worlds: nat -> (nat -> Turn), until: nat -> nat, rounds: seq<seq<seq<Step>>>, r: nat, outcome: Outcome)
    requires r < |rounds|
  {
    Drained(Reached(s, FlatAll(rounds[..r])), worlds(r), until(r), rounds[r], outcome)
  }

  /** One drain for each outcome, none but the last cancelled. */
  ghost predicate AllWoken(
    s: System, worlds: nat -> (nat -> Turn), until: nat -> nat, rounds: seq<seq<seq<Step>>>, outcomes: seq<Outcome>) {
    && |outcomes| == |rounds|
    && (forall r: nat | r < |rounds| :: Woken(s, worlds, until, rounds, r, outcomes[r]))
    && (forall r: nat | r + 1 < |outcomes| :: outcomes[r] != Cancelled)
  }

  lemma NobodyWoken(s: System, worlds: nat -> (nat -> Turn), until: nat -> nat)
    ensures AllWoken(s, worlds, until, [], []) && FlatAll([]) == []
  {
  }

  lemma WokenSnoc(
    s: System, worlds: nat -> (nat -> Turn), until: nat -> nat, rounds: seq<seq<seq<Step>>>, outcomes: seq<Outcome>,
    turns: seq<seq<Step>>, outcome: Outcome)
    requires AllWoken(s, worlds, until, rounds, outcomes) && Cancelled !in outcomes
    requires Drained(Reached(s, FlatAll(rounds)), worlds(|rounds|), until(|rounds|), turns, outcome)
    ensures FlatAll(rounds + [turns]) == FlatAll(rounds) + Flat(turns)
    ensures AllWoken(s, worlds, until, rounds + [turns], outcomes + [outcome])
  {
    hide Drained;
    hide Reached;
    var all := rounds + [turns];
    assert all[..|rounds|] == rounds;
    forall r: nat | r < |rounds|
      ensures Woken(s, worlds, until, all, r, outcomes[r])
    {
      assert all[..r] == rounds[..r];
      assert Woken(s, worlds, until, rounds, r, outcomes[r]);
    }
  }
}

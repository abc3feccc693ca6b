/**
 The arithmetic of the charts: labels nudged apart at the end of their lines, and the round numbers
 the value axis ends at and is divided into.  Positions are reals; a larger one is further down.
 */
module Chart {

  const MIN_GAP: real := 14.0

  datatype Series = Series(name: string, labelY: real)

  // ---------------------------------------------------------------- labels

  ghost function Heights(series: seq<Series>): (ys: seq<real>)
    ensures |ys| == |series| && forall k | 0 <= k < |ys| :: ys[k] == series[k].labelY
  {
    seq(|series|, k requires 0 <= k < |series| => series[k].labelY)
  }

  /** Label `a` stands above label `b`, the earlier series first where they are level. */
  predicate Above(ys: seq<real>, a: nat, b: nat)
    requires a < |ys| && b < |ys|
  {
    ys[a] < ys[b] || (ys[a] == ys[b] && a < b)
  }

  /** `z` keeps labels in the order they stand in by `ys`, far enough apart, and moves none up. */
  ghost predicate Admissible(ys: seq<real>, z: seq<real>) {
    && |z| == |ys|
    && (forall k: nat | k < |ys| :: z[k] >= ys[k])
    && (forall a: nat, b: nat | a < |ys| && b < |ys| && Above(ys, a, b) :: z[b] >= z[a] + 14.0)
  }

  ghost predicate IsLeast(ys: seq<real>, z: seq<real>) {
    && Admissible(ys, z)
    && forall w | Admissible(ys, w) :: AtMost(z, w)
  }

  ghost predicate AtMost(z: seq<real>, w: seq<real>) {
    |z| == |w| && forall k: nat | k < |z| :: z[k] <= w[k]
  }

  ghost predicate Placed(order: seq<nat>, k: nat) {
    exists i: nat :: i < |order| && order[i] == k
  }

  /** The indices in label order, each once. */
  ghost predicate Ordered(ys: seq<real>, order: seq<nat>, n: nat)
    requires n <= |ys|
  {
    && |order| == n
    && (forall i: nat | i < |order| :: order[i] < n)
    && (forall k: nat | k < n :: Placed(order, k))
    && (forall i: nat, j: nat | i < j < |order| :: Above(ys, order[i], order[j]))
  }

  /** Sorts the indices by height, keeping the order of labels that are level. */
  method StableOrder(series: array<Series>) returns (order: seq<nat>)
    ensures Ordered(Heights(series[..]), order, series.Length)
  {
    ghost var ys := Heights(series[..]);
    order := [];
    for n := 0 to series.Length
      invariant Ordered(ys, order, n)
    {
      var p := n;
      while p > 0 && series[order[p - 1]].labelY > series[n].labelY
        invariant p <= n
        invariant forall i: nat | p <= i < n :: ys[order[i]] > ys[n]
      {
        p := p - 1;
      }
      Inserted(ys, order, n, p);
      order := order[..p] + [n] + order[p..];
    }
  }

  lemma Inserted(ys: seq<real>, order: seq<nat>, n: nat, p: nat)
    requires n < |ys| && p <= n && Ordered(ys, order, n)
    requires p > 0 ==> ys[order[p - 1]] <= ys[n]
    requires forall i: nat | p <= i < n :: ys[order[i]] > ys[n]
    ensures Ordered(ys, order[..p] + [n] + order[p..], n + 1)
  {
    var next := order[..p] + [n] + order[p..];
    forall k: nat | k <= n
      ensures Placed(next, k)
    {
      if k < n {
        assert Placed(order, k);
        var i: nat :| i < |order| && order[i] == k;
        assert next[if i < p then i else i + 1] == k;
      } else {
        assert next[p] == k;
      }
    }
    forall i: nat | i < p
      ensures Above(ys, order[i], n)
    {
      assert i < p - 1 ==> Above(ys, order[i], order[p - 1]);
    }
    forall i: nat, j: nat | i < j < |next|
      ensures Above(ys, next[i], next[j])
    {
      if i != p && j != p {
        assert Above(ys, order[if i < p then i else i - 1], order[if j < p then j else j - 1]);
      }
    }
  }

  /**
   Nudges the labels apart in place: the new heights are the least that keep the labels in order and
   far enough apart and move none up, and nothing but the heights changes.
   */
  method SeparateLabels(series: array<Series>)
    modifies series
    ensures IsLeast(Heights(old(series[..])), Heights(series[..]))
    ensures forall k | 0 <= k < series.Length :: series[k].name == old(series[k].name)
  {
    hide Underway;
    hide Ordered;
    hide IsLeast;
    hide Heights;
    var order := StableOrder(series);
    ghost var was := series[..];
    Begin(was, order);
    var i := 1;
    while i < |order|
      invariant 1 <= i
      invariant Underway(was, series[..], order, i)
    {
      ghost var now := series[..];
      InRange(was, now, order, i);
      var prev, cur := series[order[i - 1]].labelY, series[order[i]].labelY;
      if cur - prev < MIN_GAP {
        series[order[i]] := series[order[i]].(labelY := prev + MIN_GAP);
      }
      assert series[..] == NudgedAt(now, order[i - 1], order[i]);
      Advance(was, now, order, i);
      i := i + 1;
    }
    Complete(was, series[..], order, i);
  }

  /** The label at `cur`, moved down where it stands too near the one at `prev`. */
  function NudgedAt(now: seq<Series>, prev: nat, cur: nat): seq<Series>
    requires prev < |now| && cur < |now|
  {
    if now[cur].labelY - now[prev].labelY < MIN_GAP then now[cur := now[cur].(labelY := now[prev].labelY + MIN_GAP)]
      else now
  }

  /** The first `i` labels of the order have been dealt with and the others not touched. */
  ghost predicate Underway(was: seq<Series>, now: seq<Series>, order: seq<nat>, i: nat) {
    && |now| == |was| && Ordered(Heights(was), order, |was|)
    && (forall k | 0 <= k < |now| :: now[k].name == was[k].name)
    && (forall j: nat | i <= j < |order| :: now[order[j]] == was[order[j]])
    && Nudged(Heights(was), Heights(now), order, i)
  }

  lemma Begin(was: seq<Series>, order: seq<nat>)
    requires Ordered(Heights(was), order, |was|)
    ensures Underway(was, was, order, 1)
  {
  }

  lemma Complete(was: seq<Series>, now: seq<Series>, order: seq<nat>, i: nat)
    requires Underway(was, now, order, i) && i >= |order|
    ensures IsLeast(Heights(was), Heights(now))
    ensures |now| == |was| && forall k | 0 <= k < |now| :: now[k].name == was[k].name
  {
    hide IsLeast;
    NudgedIsLeast(Heights(was), Heights(now), order);
  }

  lemma InRange(was: seq<Series>, now: seq<Series>, order: seq<nat>, i: nat)
    requires Underway(was, now, order, i) && 0 < i < |order|
    ensures order[i - 1] < |now| && order[i] < |now|
  {
  }

  lemma Advance(was: seq<Series>, now: seq<Series>, order: seq<nat>, i: nat)
    requires Underway(was, now, order, i) && 0 < i < |order|
    requires order[i - 1] < |now| && order[i] < |now|
    ensures Underway(was, NudgedAt(now, order[i - 1], order[i]), order, i + 1)
  {
    var next := NudgedAt(now, order[i - 1], order[i]);
    OrderIsDistinct(Heights(was), order, i);
    hide Nudged;
    NudgeOne(Heights(was), Heights(now), Heights(next), order, i);
  }

  lemma OrderIsDistinct(ys: seq<real>, order: seq<nat>, i: nat)
    requires Ordered(ys, order, |ys|) && i < |order|
    ensures forall j: nat | j < |order| && j != i :: order[j] != order[i]
  {
    forall j: nat | j < |order| && j != i
      ensures order[j] != order[i]
    {
      assert if j < i then Above(ys, order[j], order[i]) else Above(ys, order[i], order[j]);
    }
  }

  /** The first `n` labels of the order stand where they finally will; nobody has moved up. */
  ghost predicate Nudged(ys: seq<real>, z: seq<real>, order: seq<nat>, n: nat)
    requires |z| == |ys| && Ordered(ys, order, |ys|)
  {
    && (forall j: nat | j < n && j < |order| :: z[order[j]] >= ys[order[j]])
    && (forall j: nat | 0 < j < n && j < |order| :: z[order[j]] >= z[order[j - 1]] + MIN_GAP)
    && (forall w, j: nat | Admissible(ys, w) && j < n && j < |order| :: z[order[j]] <= w[order[j]])
  }

  lemma NudgeOne(ys: seq<real>, z: seq<real>, next: seq<real>, order: seq<nat>, i: nat)
    requires |z| == |next| == |ys| && Ordered(ys, order, |ys|) && 0 < i < |order|
    requires Nudged(ys, z, order, i) && z[order[i]] == ys[order[i]]
    requires forall j: nat | j < |order| && j != i :: next[order[j]] == z[order[j]]
    requires next[order[i]] == if z[order[i]] - z[order[i - 1]] < MIN_GAP then z[order[i - 1]] + MIN_GAP
             else z[order[i]]
    ensures Nudged(ys, next, order, i + 1)
  {
    forall w | Admissible(ys, w)
      ensures next[order[i]] <= w[order[i]]
    {
      assert Above(ys, order[i - 1], order[i]);
      assert z[order[i - 1]] <= w[order[i - 1]];
    }
  }

  lemma {:induction false} GapsAddUp(ys: seq<real>, z: seq<real>, order: seq<nat>, i: nat, j: nat)
    requires |z| == |ys| && Ordered(ys, order, |ys|) && Nudged(ys, z, order, |ys|) && i < j < |ys|
    ensures z[order[j]] >= z[order[i]] + MIN_GAP
  {
    if i + 1 < j {
      GapsAddUp(ys, z, order, i, j - 1);
    }
  }

  lemma NudgedIsLeast(ys: seq<real>, z: seq<real>, order: seq<nat>)
    requires |z| == |ys| && Ordered(ys, order, |ys|) && Nudged(ys, z, order, |ys|)
    ensures IsLeast(ys, z)
  {
    forall k: nat | k < |ys|
      ensures z[k] >= ys[k] && forall w | Admissible(ys, w) :: z[k] <= w[k]
    {
      assert Placed(order, k);
      var j: nat :| j < |order| && order[j] == k;
    }
    forall a: nat, b: nat | a < |ys| && b < |ys| && Above(ys, a, b)
      ensures z[b] >= z[a] + MIN_GAP
    {
      PairIsApart(ys, z, order, a, b);
    }
    hide Nudged;
    hide Ordered;
  }

  lemma PairIsApart(ys: seq<real>, z: seq<real>, order: seq<nat>, a: nat, b: nat)
    requires |z| == |ys| && Ordered(ys, order, |ys|) && Nudged(ys, z, order, |ys|)
    requires a < |ys| && b < |ys| && Above(ys, a, b)
    ensures z[b] >= z[a] + MIN_GAP
  {
    assert Placed(order, a) && Placed(order, b);
    var i: nat :| i < |order| && order[i] == a;
    var j: nat :| j < |order| && order[j] == b;
    assert j < i ==> Above(ys, b, a);
    hide Placed;
    GapsAddUp(ys, z, order, i, j);
  }

  /** There is one such assignment. */
  lemma LeastIsUnique(ys: seq<real>, y: seq<real>, z: seq<real>)
    requires IsLeast(ys, y) && IsLeast(ys, z)
    ensures y == z
  {
    assert AtMost(y, z) && AtMost(z, y);
    assert forall k: nat | k < |y| :: y[k] == z[k];
  }

  /** Labels once separated stay where they are when separated again. */
  lemma SeparatedStays(ys: seq<real>, z: seq<real>)
    requires IsLeast(ys, z)
    ensures IsLeast(z, z)
  {
    forall a: nat, b: nat | a < |z| && b < |z| && Above(z, a, b)
      ensures z[b] >= z[a] + MIN_GAP
    {
      assert Above(ys, a, b);
    }
    forall w | Admissible(z, w)
      ensures AtMost(z, w)
    {
    }
  }

  /** No label moves exactly when none stood too near the one above it. */
  lemma UnmovedIsApart(ys: seq<real>, z: seq<real>)
    requires IsLeast(ys, z)
    ensures z == ys <==> forall a: nat, b: nat | a < |ys| && b < |ys| && Above(ys, a, b) :: ys[b] >= ys[a] + MIN_GAP
  {
    if forall a: nat, b: nat | a < |ys| && b < |ys| && Above(ys, a, b) :: ys[b] >= ys[a] + MIN_GAP {
      assert Admissible(ys, ys);
      assert AtMost(z, ys);
      assert forall k: nat | k < |ys| :: z[k] == ys[k];
    }
  }

  // ---------------------------------------------------------------- the value axis

  function Pow10(k: nat): (p: nat)
    ensures p >= 1 && (k > 0 ==> p % 10 == 0)
  {
    if k == 0 then 1 else 10 * Pow10(k - 1)
  }

  /** 1, 2, 5 or 25 times a power of ten. */
  ghost predicate IsNice(n: nat) {
    exists k: nat :: NiceAt(n, k)
  }

  ghost predicate NiceAt(n: nat, k: nat) {
    var p := Pow10(k);
    n == p || n == 2 * p || n == 5 * p || n == 25 * p
  }

  /** The least round number that is not below `v`. */
  ghost predicate IsCeiling(v: nat, r: nat) {
    IsNice(r) && v <= r && forall n: nat | IsNice(n) && v <= n :: r <= n
  }

  lemma {:induction false} PowersGrow(j: nat, k: nat)
    requires j <= k
    ensures Pow10(j) <= Pow10(k)
    ensures j < k ==> 10 * Pow10(j) <= Pow10(k)
    decreases k - j
  {
    if j < k {
      PowersGrow(j, k - 1);
    }
  }

  lemma {:induction false} MagnitudeExists(v: nat)
    requires v >= 1
    ensures exists k: nat :: Pow10(k) <= v <= Pow10(k + 1)
  {
    if v <= 10 {
      assert Pow10(0) <= v <= Pow10(0 + 1);
    } else {
      MagnitudeExists(v / 10);
      var k: nat :| Pow10(k) <= v / 10 <= Pow10(k + 1);
      if v <= Pow10(k + 1 + 1) {
        assert Pow10(k + 1) <= v;
      } else {
        assert Pow10(k + 2) <= v <= Pow10(k + 2 + 1);
      }
    }
  }

  /** The round numbers within one power of ten of each other, in tenths of the lower one. */
  lemma NiceBetween(n: nat, k: nat)
    requires IsNice(n) && Pow10(k) <= n <= Pow10(k + 1)
    ensures var m := Pow10(k); n == m || n == 2 * m || 2 * n == 5 * m || n == 5 * m || n == 10 * m
  {
    var j: nat :| NiceAt(n, j);
    if k + 1 < j {
      PowersGrow(k + 1, j);
    } else if j + 1 < k {
      PowersGrow(j, k - 1);
    }
  }

  /** A power of ten at most `v` whose next one is at least `v`, which may be either of two at a power itself. */
  method Magnitude(v: nat) returns (magnitude: real, k: nat)
    requires v >= 1
    ensures Pow10(k) <= v <= Pow10(k + 1) && magnitude == Pow10(k) as real
  {
    MagnitudeExists(v);
    var e: nat :| Pow10(e) <= v <= Pow10(e + 1);
    magnitude, k := Pow10(e) as real, e;
  }

  const STEPS: seq<real> := [1.0, 2.0, 2.5, 5.0, 10.0]

  /** The first step to reach `v` gives the least round number to do so. */
  lemma StepIsCeiling(v: nat, k: nat, i: nat, r: nat)
    requires v >= 1 && Pow10(k) <= v <= Pow10(k + 1) && i < |STEPS|
    requires i > 0 ==> STEPS[i - 1] * Pow10(k) as real < v as real
    requires STEPS[i] * Pow10(k) as real >= v as real && r == (STEPS[i] * Pow10(k) as real).Floor
    ensures IsCeiling(v, r) && r < 2 * v
  {
    hide IsNice;
    hide STEPS;
    StepIs(v, k, i, r);
    StepIsNice(k, i, r);
    forall n: nat | IsNice(n) && v <= n
      ensures r <= n
    {
      if n < r {
        NiceBetween(n, k);
      }
    }
  }

  /** What twice the candidate of each step is, in units of the power of ten. */
  function Doubled(i: nat): nat {
    if i == 0 then 2 else if i == 1 then 4 else if i == 2 then 5 else if i == 3 then 10 else 20
  }

  /** The step reached is the candidate itself, and the one before falls short of `v`. */
  lemma StepIs(v: nat, k: nat, i: nat, r: nat)
    requires v >= 1 && Pow10(k) <= v <= Pow10(k + 1) && i < |STEPS|
    requires i > 0 ==> STEPS[i - 1] * Pow10(k) as real < v as real
    requires STEPS[i] * Pow10(k) as real >= v as real && r == (STEPS[i] * Pow10(k) as real).Floor
    ensures i < 5 && (i == 2 ==> k > 0) && 2 * r == Doubled(i) * Pow10(k)
    ensures v <= r && (i > 0 ==> Doubled(i - 1) * Pow10(k) < 2 * v)
  {
    var m := Pow10(k);
    assert |STEPS| == 5;
    StepOf(m, i);
    if i > 0 {
      StepOf(m, i - 1);
    }
    assert i == 2 ==> k > 0;
    assert i == 2 ==> Even(m);
    HalfIs(STEPS[i] * m as real, Doubled(i) * m, r);
  }

  predicate Even(m: nat) { m % 2 == 0 }

  lemma StepOf(m: nat, i: nat)
    requires i < |STEPS|
    ensures 2.0 * (STEPS[i] * m as real) == (Doubled(i) * m) as real
    ensures i != 2 || Even(m) ==> Even(Doubled(i) * m)
  {
    if i == 2 {
      if Even(m) {
        Halved(5 * m, 5 * (m / 2));
      }
    } else {
      var c := if i == 0 then 1 else if i == 1 then 2 else if i == 3 then 5 else 10;
      Halved(Doubled(i) * m, c * m);
    }
  }

  lemma HalfIs(x: real, twice: nat, r: int)
    requires 2.0 * x == twice as real && Even(twice) && r == x.Floor
    ensures 2 * r == twice && x == r as real
  {
    assert x == (twice / 2) as real;
  }

  lemma StepIsNice(k: nat, i: nat, r: nat)
    requires i < |STEPS| && (i == 2 ==> k > 0)
    requires 2 * r == Doubled(i) * Pow10(k)
    ensures IsNice(r)
  {
    if i == 2 {
      assert Pow10(k) == 10 * Pow10(k - 1);
      assert NiceAt(r, k - 1);
    } else if i == 4 {
      assert NiceAt(r, k + 1);
    } else {
      assert NiceAt(r, k);
    }
  }

  /** The least round number not below `v`, where an axis can end. */
  method NiceCeiling(v: int) returns (r: nat)
    ensures v <= 0 ==> r == 1
    ensures v >= 1 ==> IsCeiling(v, r) && r < 2 * v
  {
    if v <= 0 {
      return 1;
    }
    var magnitude, k := Magnitude(v);
    r := 1;
    var i := 0;
    while i < |STEPS|
      invariant 0 <= i <= |STEPS|
      invariant i > 0 ==> STEPS[i - 1] * magnitude < v as real
    {
      var candidate := STEPS[i] * magnitude;
      if candidate >= v as real {
        r := candidate.Floor;
        StepIsCeiling(v, k, i, r);
        return;
      }
      i := i + 1;
    }
    assert false;
  }

  /** A larger maximum never gives a lower axis. */
  lemma CeilingIsMonotone(v: nat, w: nat, r: nat, t: nat)
    requires IsCeiling(v, r) && IsCeiling(w, t) && v <= w
    ensures r <= t
  {
  }

  /** A round number is its own ceiling, so rounding again changes nothing. */
  lemma CeilingIsIdempotent(v: nat, r: nat, t: nat)
    requires IsCeiling(v, r) && IsCeiling(r, t)
    ensures t == r
  {
  }

  // ---------------------------------------------------------------- gradations

  /** Gradations from 0 to `top` in equal whole steps. */
  ghost predicate EvenlySpaced(ticks: seq<nat>, top: nat) {
    && |ticks| >= 2 && ticks[0] == 0 && ticks[|ticks| - 1] == top
    && exists step: nat :: Stepped(ticks, step)
  }

  ghost predicate Stepped(ticks: seq<nat>, step: nat) {
    step > 0 && forall i | 0 < i < |ticks| :: ticks[i] == ticks[i - 1] + step
  }

  const CANDIDATES: seq<nat> := [4, 5, 2, 3]

  /** The first candidate that divides `top`, or four. */
  lemma FirstDivisor(top: nat, c: nat, divisions: nat)
    requires c <= 4 && forall j | 0 <= j < c :: top % CANDIDATES[j] != 0
    requires if c < 4 then top % CANDIDATES[c] == 0 && divisions == CANDIDATES[c] else divisions == 4
    ensures divisions == if top % 4 == 0 then 4 else if top % 5 == 0 then 5
                         else if top % 2 == 0 then 2 else if top % 3 == 0 then 3 else 4
    ensures top % divisions != 0 <==> top % 2 != 0 && top % 3 != 0 && top % 5 != 0
  {
    assert CANDIDATES[0] == 4 && CANDIDATES[1] == 5 && CANDIDATES[2] == 2 && CANDIDATES[3] == 3;
    assert c > 0 ==> top % CANDIDATES[0] != 0;
    assert c > 1 ==> top % CANDIDATES[1] != 0;
    assert c > 2 ==> top % CANDIDATES[2] != 0;
    assert c > 3 ==> top % CANDIDATES[3] != 0;
  }

  /** Gradations of the value axis: in equal whole steps exactly when some number of divisions allows it. */
  method ValueTicks(top: nat) returns (out: seq<nat>)
    ensures 3 <= |out| <= 6 && out[0] == 0 && out[|out| - 1] == top
    ensures forall i | 0 < i < |out| :: out[i - 1] <= out[i]
    ensures EvenlySpaced(out, top) <==> top > 0 && (top % 2 == 0 || top % 3 == 0 || top % 5 == 0)
    ensures |out| == 1 + if top % 4 == 0 then 4 else if top % 5 == 0 then 5
                         else if top % 2 == 0 then 2 else if top % 3 == 0 then 3 else 4
    ensures forall j: nat | j < |out| :: out[j] == top * j / (|out| - 1)
  {
    var divisions := 4;
    var c := 0;
    while c < |CANDIDATES|
      invariant 0 <= c <= |CANDIDATES| && divisions == 4
      invariant forall j | 0 <= j < c :: top % CANDIDATES[j] != 0
    {
      if top % CANDIDATES[c] == 0 {
        divisions := CANDIDATES[c];
        break;
      }
      c := c + 1;
    }
    FirstDivisor(top, c, divisions);
    out := [];
    var i := 0;
    while i <= divisions
      invariant 0 <= i <= divisions + 1 && |out| == i
      invariant forall j: nat | j < i :: out[j] == Tick(top, j, divisions)
    {
      out := out + [Tick(top, i, divisions)];
      i := i + 1;
    }
    TicksAreOrdered(out, top, divisions);
    if top % divisions == 0 {
      EvenDivision(out, top, divisions);
    } else {
      UnevenDivision(out, top);
    }
  }

  function Tick(top: nat, i: nat, divisions: nat): nat
    requires divisions > 0
  {
    top * i / divisions
  }

  ghost predicate Divided(ticks: seq<nat>, top: nat, divisions: nat)
    requires divisions > 0
  {
    |ticks| == divisions + 1 && forall j: nat | j <= divisions :: ticks[j] == Tick(top, j, divisions)
  }

  lemma TicksAreOrdered(ticks: seq<nat>, top: nat, divisions: nat)
    requires 2 <= divisions <= 5 && Divided(ticks, top, divisions)
    ensures ticks[0] == 0 && ticks[divisions] == top
    ensures forall j: nat | 0 < j <= divisions :: ticks[j - 1] <= ticks[j]
  {
    forall j: nat | 0 < j <= divisions
      ensures ticks[j - 1] <= ticks[j]
    {
      assert ticks[j - 1] == Tick(top, j - 1, divisions);
    }
  }

  lemma EvenDivision(ticks: seq<nat>, top: nat, divisions: nat)
    requires 2 <= divisions <= 5 && top % divisions == 0 && Divided(ticks, top, divisions)
    ensures EvenlySpaced(ticks, top) <==> top > 0
  {
    var step := top / divisions;
    forall j: nat | 0 < j <= divisions
      ensures ticks[j] == ticks[j - 1] + step
    {
      EvenTick(top, step, j, divisions);
      EvenTick(top, step, j - 1, divisions);
    }
    if top > 0 {
      assert Stepped(ticks, step);
    }
    forall gap: nat | Stepped(ticks, gap)
      ensures ticks[divisions] == ticks[0] + gap * divisions
    {
      SteppedAt(ticks, gap, divisions);
    }
    TicksAreOrdered(ticks, top, divisions);
  }

  lemma {:induction false} SteppedAt(ticks: seq<nat>, step: nat, j: nat)
    requires Stepped(ticks, step) && j < |ticks|
    ensures ticks[j] == ticks[0] + step * j
  {
    if j > 0 {
      SteppedAt(ticks, step, j - 1);
      assert step * j == step * (j - 1) + step;
    }
  }

  lemma EvenTick(top: nat, step: nat, j: nat, divisions: nat)
    requires 2 <= divisions <= 5 && top == step * divisions
    ensures Tick(top, j, divisions) == step * j
  {
    assert top * j == step * j * divisions;
  }

  /** Four divisions of a number that four does not divide are not whole and equal. */
  lemma UnevenDivision(ticks: seq<nat>, top: nat)
    requires Divided(ticks, top, 4) && top % 4 != 0
    ensures !EvenlySpaced(ticks, top)
  {
    forall step: nat | Stepped(ticks, step)
      ensures ticks[4] == ticks[0] + step * 4
    {
      SteppedAt(ticks, step, 4);
    }
  }

  /** Every round number above 1 can be divided evenly, so an axis that ends at one is. */
  lemma NiceDivides(n: nat)
    requires IsNice(n) && n > 1
    ensures n % 2 == 0 || n % 5 == 0
  {
    var k: nat :| NiceAt(n, k);
    if k > 0 {
      var p, q := Pow10(k), Pow10(k - 1);
      Halved(n, if n == p then 5 * q else if n == 2 * p then 10 * q else if n == 5 * p then 25 * q else 125 * q);
    }
  }

  lemma Halved(n: nat, half: nat)
    requires n == 2 * half
    ensures n % 2 == 0
  {
  }
}

/** The order of names: by character, a prefix before its extensions. */
module Text {

  predicate Less(a: string, b: string) {
    b != [] && (a == [] || a[0] < b[0] || (a[0] == b[0] && Less(a[1..], b[1..])))
  }

  /** The two agree up to `i`, where `a` ends or has the smaller character. */
  predicate DifferAt(a: string, b: string, i: int) {
    0 <= i <= |a| && i < |b| && a[..i] == b[..i] && (i == |a| || a[i] < b[i])
  }

  lemma {:induction false} LessDiffers(a: string, b: string) returns (i: int)
    requires Less(a, b)
    ensures DifferAt(a, b, i)
  {
    i := 0;
    if a != [] && a[0] == b[0] {
      i := LessDiffers(a[1..], b[1..]);
      assert a[..i + 1] == [a[0]] + a[1..][..i] && b[..i + 1] == [b[0]] + b[1..][..i];
      i := i + 1;
    }
  }

  lemma {:induction false} DifferingLess(a: string, b: string, i: int)
    requires DifferAt(a, b, i)
    ensures Less(a, b)
    decreases i
  {
    if i > 0 {
      assert a[..i][0] == b[..i][0];
      assert a[1..][..i - 1] == a[..i][1..] && b[1..][..i - 1] == b[..i][1..];
      DifferingLess(a[1..], b[1..], i - 1);
    }
  }

  /** The order of names is by their first difference, a name before what it begins. */
  lemma LessIs(a: string, b: string)
    ensures Less(a, b) <==> exists i :: DifferAt(a, b, i)
  {
    if Less(a, b) {
      var i := LessDiffers(a, b);
    }
    if i :| DifferAt(a, b, i) {
      DifferingLess(a, b, i);
    }
  }

  lemma {:induction false} LessIrreflexive(a: string)
    ensures !Less(a, a)
  {
    if a != [] {
      LessIrreflexive(a[1..]);
    }
  }

  lemma {:induction false} LessTrichotomy(a: string, b: string)
    ensures Less(a, b) || a == b || Less(b, a)
    ensures !(Less(a, b) && Less(b, a)) && !Less(a, a)
  {
    LessIrreflexive(a);
    if a != [] && b != [] {
      LessTrichotomy(a[1..], b[1..]);
      assert a == [a[0]] + a[1..] && b == [b[0]] + b[1..];
    }
  }

  lemma {:induction false} LessTransitive(a: string, b: string, c: string)
    requires Less(a, b) && Less(b, c)
    ensures Less(a, c)
  {
    if a != [] && a[0] == b[0] == c[0] {
      LessTransitive(a[1..], b[1..], c[1..]);
    }
  }

  /** Strictly increasing, hence without repeats. */
  ghost predicate Increasing(names: seq<string>) {
    forall i, j | 0 <= i < j < |names| :: Less(names[i], names[j])
  }

  /** One set of names can be listed in increasing order in one way only. */
  lemma {:induction false} IncreasingUnique(a: seq<string>, b: seq<string>)
    requires Increasing(a) && Increasing(b)
    requires forall n :: n in a <==> n in b
    ensures a == b
  {
    if a == [] {
      if b != [] {
        SomeName(b);
        assert false;
      }
    } else {
      assert a[0] in a;
      assert a[0] in b;
      assert b[0] in b;
      var i :| 0 <= i < |b| && b[i] == a[0];
      var j :| 0 <= j < |a| && a[j] == b[0];
      LessTrichotomy(a[0], b[0]);
      assert a[0] == b[0];
      forall n
        ensures n in a[1..] <==> n in b[1..]
      {
        TailNames(a, n);
        TailNames(b, n);
      }
      IncreasingUnique(a[1..], b[1..]);
      assert a == [a[0]] + a[1..] && b == [b[0]] + b[1..];
    }
  }

  lemma SomeName(names: seq<string>)
    requires names != []
    ensures exists n :: n in names
  {
    assert names[0] in names;
  }

  lemma TailNames(names: seq<string>, n: string)
    requires names != [] && Increasing(names)
    ensures n in names[1..] <==> n in names && n != names[0]
  {
    if n in names[1..] {
      var k :| 0 <= k < |names[1..]| && names[1..][k] == n;
      assert names[k + 1] == n;
      LessTrichotomy(names[0], n);
    }
    if n in names && n != names[0] {
      var k :| 0 <= k < |names| && names[k] == n;
      assert names[1..][k - 1] == n;
    }
  }

  lemma {:induction false} LeastName(names: set<string>) returns (least: string)
    requires names != {}
    ensures least in names && forall n | n in names && n != least :: Less(least, n)
    decreases names
  {
    var x :| x in names;
    if names == {x} {
      least := x;
    } else {
      var y := LeastName(names - {x});
      LessTrichotomy(x, y);
      least := if Less(x, y) then x else y;
      forall n | n in names && n != least
        ensures Less(least, n)
      {
        if least == x && n != y {
          assert n in names - {x};
          LessTransitive(x, y, n);
        } else if least == y && n != x {
          assert n in names - {x};
        }
      }
    }
  }

  /** The names of a result set, read in order. */
  method OrderByName(names: set<string>) returns (ordered: seq<string>)
    ensures Increasing(ordered)
    ensures forall n :: n in ordered <==> n in names
  {
    var rows := names;
    ordered := [];
    while rows != {}
      invariant rows <= names && Increasing(ordered)
      invariant forall n :: n in ordered <==> n in names && n !in rows
      invariant forall n, i | n in rows && 0 <= i < |ordered| :: Less(ordered[i], n)
    {
      ghost var least := LeastName(rows);
      var next :| next in rows && forall n | n in rows && n != next :: Less(next, n);
      ordered := ordered + [next];
      rows := rows - {next};
    }
  }
}

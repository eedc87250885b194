/** Levenshtein distance: the two-row table, the recursive cost, the metric laws and the edits it counts. */
module EditDistances {

  function Min(a: nat, b: nat): nat {
    if a <= b then a else b
  }

  function Max(a: nat, b: nat): nat {
    if a >= b then a else b
  }

  function Cost(c: char, d: char): nat {
    if c == d then 0 else 1
  }

  /** The cheapest way to turn one string into the other, by its last step. */
  function Dist(a: string, b: string): nat
    decreases |a| + |b|
  {
    if a == "" then |b|
    else if b == "" then |a|
    else
      var n, m := |a| - 1, |b| - 1;
      Min(Min(Dist(a, b[..m]) + 1, Dist(a[..n], b) + 1), Dist(a[..n], b[..m]) + Cost(a[n], b[m]))
  }

  /** One row of the table. */
  ghost predicate Filled(row: seq<nat>, a: string, b: string, upto: nat)
    requires upto <= |b| + 1
  {
    |row| == upto && forall j :: 0 <= j < upto ==> row[j] == Dist(a, b[..j])
  }

  lemma FirstRow(b: string, row: seq<nat>)
    requires |row| == |b| + 1 && forall j :: 0 <= j <= |b| ==> row[j] == j
    ensures Filled(row, "", b, |b| + 1)
  {
  }

  lemma FirstCell(a: string, b: string, i: nat)
    requires |a| == i
    ensures Filled([i], a, b, 1)
  {
    assert b[..0] == "";
  }

  lemma RowLength(row: seq<nat>, a: string, b: string, upto: nat)
    requires upto <= |b| + 1 && Filled(row, a, b, upto)
    ensures |row| == upto && (upto == |b| + 1 ==> row[|b|] == Dist(a, b))
  {
    assert b[..|b|] == b;
  }

  lemma NextCell(row: seq<nat>, a: string, b: string, j: nat, cell: nat)
    requires j <= |b| && Filled(row, a, b, j) && cell == Dist(a, b[..j])
    ensures Filled(row + [cell], a, b, j + 1)
  {
    hide Dist;
  }

  method EditDistance(left: string, right: string) returns (d: nat)
    ensures d == Dist(left, right)
  {
    hide Dist, Filled;
    EmptyDist(left, right);
    if |left| == 0 {
      return |right|;
    }
    if |right| == 0 {
      return |left|;
    }
    var previous: seq<nat> := seq(|right| + 1, j => j);
    FirstRow(right, previous);
    assert left[..0] == "";
    var i := 1;
    while i <= |left|
      invariant 1 <= i <= |left| + 1 && Filled(previous, left[..i - 1], right, |right| + 1)
    {
      var current: seq<nat> := [i];
      FirstCell(left[..i], right, i);
      var j := 1;
      while j <= |right|
        invariant 1 <= j <= |right| + 1 && Filled(current, left[..i], right, j)
      {
        RowLength(previous, left[..i - 1], right, |right| + 1);
        RowLength(current, left[..i], right, j);
        var cost := Cost(left[i - 1], right[j - 1]);
        var cell := Min(Min(current[j - 1] + 1, previous[j] + 1), previous[j - 1] + cost);
        CellIsDist(left, right, i, j, previous, current);
        NextCell(current, left[..i], right, j, cell);
        current := current + [cell];
        j := j + 1;
      }
      previous, i := current, i + 1;
    }
    assert left[..i - 1] == left && right[..|right|] == right;
    RowLength(previous, left, right, |right| + 1);
    d := previous[|right|];
  }

  lemma CellIsDist(a: string, b: string, i: nat, j: nat, previous: seq<nat>, current: seq<nat>)
    requires 1 <= i <= |a| && 1 <= j <= |b|
    requires Filled(previous, a[..i - 1], b, |b| + 1) && Filled(current, a[..i], b, j)
    ensures Min(Min(current[j - 1] + 1, previous[j] + 1), previous[j - 1] + Cost(a[i - 1], b[j - 1])) ==
            Dist(a[..i], b[..j])
  {
    assert a[..i][..i - 1] == a[..i - 1] && b[..j][..j - 1] == b[..j - 1];
  }

  // ---------- A metric ----------

  lemma {:induction false} Reflexive(a: string)
    ensures Dist(a, a) == 0
  {
    if a != "" {
      Reflexive(a[..|a| - 1]);
    }
  }

  lemma {:induction false} ZeroIsEqual(a: string, b: string)
    ensures Dist(a, b) == 0 <==> a == b
    decreases |a| + |b|
  {
    if a == b {
      Reflexive(a);
    } else if a != "" && b != "" {
      var n, m := |a| - 1, |b| - 1;
      ZeroIsEqual(a[..n], b[..m]);
      assert a == a[..n] + [a[n]] && b == b[..m] + [b[m]];
    }
  }

  lemma {:induction false} Symmetric(a: string, b: string)
    ensures Dist(a, b) == Dist(b, a)
    decreases |a| + |b|
  {
    if a != "" && b != "" {
      var n, m := |a| - 1, |b| - 1;
      Symmetric(a, b[..m]);
      Symmetric(a[..n], b);
      Symmetric(a[..n], b[..m]);
    }
  }

  /** Between the difference of the lengths and the longer length. */
  lemma {:induction false} Bounds(a: string, b: string)
    ensures |a| <= |b| + Dist(a, b) && |b| <= |a| + Dist(a, b)
    ensures Dist(a, b) <= Max(|a|, |b|)
    decreases |a| + |b|
  {
    if a != "" && b != "" {
      var n, m := |a| - 1, |b| - 1;
      Bounds(a, b[..m]);
      Bounds(a[..n], b);
      Bounds(a[..n], b[..m]);
    }
  }

  lemma {:induction false} Triangle(a: string, b: string, c: string)
    ensures Dist(a, c) <= Dist(a, b) + Dist(b, c)
    decreases |a| + |b| + |c|
  {
    hide Dist;
    Bounds(a, b);
    Bounds(b, c);
    Bounds(a, c);
    EmptyDist(a, b);
    EmptyDist(b, c);
    EmptyDist(a, c);
    if a != "" && b != "" && c != "" {
      var a', b', c' := a[..|a| - 1], b[..|b| - 1], c[..|c| - 1];
      LastStep(a, b);
      LastStep(b, c);
      LastStep(a, c);
      if Dist(a, b) == Dist(a', b) + 1 {
        Triangle(a', b, c);
      } else if Dist(b, c) == Dist(b, c') + 1 {
        Triangle(a, b, c');
      } else if Dist(a, b) == Dist(a, b') + 1 {
        Triangle(a, b', c);
        Triangle(a, b', c');
      } else {
        Triangle(a', b', c);
        Triangle(a', b', c');
      }
    }
  }

  lemma EmptyDist(a: string, b: string)
    ensures a == "" ==> Dist(a, b) == |b|
    ensures b == "" ==> Dist(a, b) == |a|
  {
  }

  /** The three last steps, none cheaper than the distance and one as cheap. */
  lemma LastStep(a: string, b: string)
    requires a != "" && b != ""
    ensures var a', b', cost := a[..|a| - 1], b[..|b| - 1], Cost(a[|a| - 1], b[|b| - 1]);
            && Dist(a, b) <= Dist(a', b) + 1 && Dist(a, b) <= Dist(a, b') + 1 && Dist(a, b) <= Dist(a', b') + cost
            && (Dist(a, b) == Dist(a', b) + 1 || Dist(a, b) == Dist(a, b') + 1 || Dist(a, b) == Dist(a', b') + cost)
  {
  }

  /** The ratio reported for two different texts. */
  function EditRatio(previous: string, next: string): real {
    var longest := Max(|previous|, |next|);
    if longest == 0 then 0.0 else Dist(previous, next) as real / longest as real
  }

  lemma RatioRange(previous: string, next: string)
    ensures 0.0 <= EditRatio(previous, next) <= 1.0
    ensures EditRatio(previous, next) == 0.0 <==> previous == next
    ensures EditRatio(previous, next) * (if |previous| < |next| then |next| else |previous|) as real ==
            Dist(previous, next) as real
  {
    Bounds(previous, next);
    ZeroIsEqual(previous, next);
    hide Dist;
    var d, n := Dist(previous, next) as real, Max(|previous|, |next|) as real;
    if n > 0.0 {
      Fraction(d, n);
    }
  }

  lemma Fraction(d: real, n: real)
    requires 0.0 <= d <= n && 0.0 < n
    ensures 0.0 <= d / n <= 1.0 && (d / n == 0.0 <==> d == 0.0) && d / n * n == d
  {
    assert d / n * n == d;
  }

  // ---------- What it counts ----------

  ghost predicate EditAt(a: string, b: string, i: nat) {
    || (i <= |a| && |b| == |a| + 1 && b == a[..i] + [b[i]] + a[i..])
    || (i <= |b| && |a| == |b| + 1 && a == b[..i] + [a[i]] + b[i..])
    || (i < |a| && |a| == |b| && b == a[i := b[i]])
  }

  /** One character inserted, deleted or replaced. */
  ghost predicate OneEdit(a: string, b: string) {
    exists i: nat :: EditAt(a, b, i)
  }

  ghost predicate Path(p: seq<string>, a: string, b: string) {
    p != [] && p[0] == a && p[|p| - 1] == b && forall k :: 0 <= k < |p| - 1 ==> OneEdit(p[k], p[k + 1])
  }

  lemma {:induction false} SameEnd(a: string, b: string, s: string)
    ensures Dist(a + s, b + s) <= Dist(a, b)
  {
    if s == "" {
      assert a + s == a && b + s == b;
    } else {
      var n := |s| - 1;
      assert (a + s)[..|a + s| - 1] == a + s[..n] && (b + s)[..|b + s| - 1] == b + s[..n];
      SameEnd(a, b, s[..n]);
    }
  }

  lemma LastChanges(p: string, c: char, d: char)
    ensures Dist(p, p + [c]) <= 1 && Dist(p + [c], p) <= 1 && Dist(p + [c], p + [d]) <= 1
  {
    Reflexive(p);
    assert (p + [c])[..|p|] == p && (p + [d])[..|p|] == p;
  }

  lemma EditCostsOne(a: string, b: string)
    requires OneEdit(a, b)
    ensures Dist(a, b) <= 1
  {
    hide Dist;
    var i: nat :| EditAt(a, b, i);
    if |a| == |b| {
      var p, s := a[..i], a[i + 1..];
      LastChanges(p, a[i], b[i]);
      SameEnd(p + [a[i]], p + [b[i]], s);
      assert a == p + [a[i]] + s && b == p + [b[i]] + s;
    } else if |b| == |a| + 1 {
      LastChanges(a[..i], b[i], b[i]);
      SameEnd(a[..i], a[..i] + [b[i]], a[i..]);
      assert a == a[..i] + a[i..];
    } else {
      LastChanges(b[..i], a[i], a[i]);
      SameEnd(b[..i] + [a[i]], b[..i], b[i..]);
      assert b == b[..i] + b[i..];
    }
  }

  /** No path is shorter than the distance. */
  lemma {:induction false} PathsAreLong(p: seq<string>, a: string, b: string)
    requires Path(p, a, b)
    ensures |p| >= Dist(a, b) + 1
    decreases |p|
  {
    hide Dist, OneEdit;
    if |p| == 1 {
      Reflexive(a);
    } else {
      var q := p[..|p| - 1];
      var last := q[|q| - 1];
      assert OneEdit(p[|p| - 2], p[|p| - 1]);
      PathsAreLong(q, a, last);
      EditCostsOne(last, b);
      Triangle(a, last, b);
    }
  }

  lemma Append(p: seq<string>, a: string, b: string, c: string)
    requires Path(p, a, b) && OneEdit(b, c)
    ensures Path(p + [c], a, c)
  {
    hide OneEdit;
    forall k | 0 <= k < |p + [c]| - 1
      ensures OneEdit((p + [c])[k], (p + [c])[k + 1])
    {
      if k < |p| - 1 {
        assert OneEdit(p[k], p[k + 1]);
      }
    }
  }

  lemma Prepend(c: string, p: seq<string>, a: string, b: string)
    requires Path(p, a, b) && OneEdit(c, a)
    ensures Path([c] + p, c, b)
  {
    hide OneEdit;
    forall k | 0 <= k < |[c] + p| - 1
      ensures OneEdit(([c] + p)[k], ([c] + p)[k + 1])
    {
      if k > 0 {
        assert OneEdit(p[k - 1], p[k]);
      }
    }
  }

  lemma EditUnderEnd(a: string, b: string, c: char)
    requires OneEdit(a, b)
    ensures OneEdit(a + [c], b + [c])
  {
    var i: nat :| EditAt(a, b, i);
    assert i <= |a| ==> (a + [c])[..i] == a[..i] && (a + [c])[i..] == a[i..] + [c];
    assert i <= |b| ==> (b + [c])[..i] == b[..i] && (b + [c])[i..] == b[i..] + [c];
    assert EditAt(a + [c], b + [c], i);
  }

  /** A path carried along in front of a fixed last character. */
  lemma UnderEnd(p: seq<string>, a: string, b: string, c: char) returns (q: seq<string>)
    requires Path(p, a, b)
    ensures Path(q, a + [c], b + [c]) && |q| == |p|
  {
    hide OneEdit;
    q := seq(|p|, k requires 0 <= k < |p| => p[k] + [c]);
    forall k | 0 <= k < |q| - 1
      ensures OneEdit(q[k], q[k + 1])
    {
      assert OneEdit(p[k], p[k + 1]);
      EditUnderEnd(p[k], p[k + 1], c);
    }
  }

  lemma LastEdits(p: string, c: char, d: char)
    ensures OneEdit(p, p + [c]) && OneEdit(p + [c], p) && OneEdit(p + [c], p + [d])
  {
    assert EditAt(p, p + [c], |p|) && EditAt(p + [c], p, |p|) && EditAt(p + [c], p + [d], |p|);
  }

  /** And some path is exactly that long. */
  lemma {:induction false} ShortestPath(a: string, b: string) returns (p: seq<string>)
    ensures Path(p, a, b) && |p| == Dist(a, b) + 1
    decreases |a| + |b|
  {
    assert Path([""], "", "");
    hide OneEdit, Path;
    if a == "" && b == "" {
      p := [""];
      return;
    }
    var n, m := |a| - 1, |b| - 1;
    if b != "" {
      assert b == b[..m] + [b[m]];
    }
    if a != "" {
      assert a == a[..n] + [a[n]];
    }
    if b != "" && Dist(a, b) == Dist(a, b[..m]) + 1 {
      var q := ShortestPath(a, b[..m]);
      LastEdits(b[..m], b[m], b[m]);
      Append(q, a, b[..m], b);
      p := q + [b];
    } else if a != "" && Dist(a, b) == Dist(a[..n], b) + 1 {
      var q := ShortestPath(a[..n], b);
      LastEdits(a[..n], a[n], a[n]);
      Prepend(a, q, a[..n], b);
      p := [a] + q;
    } else {
      var q := ShortestPath(a[..n], b[..m]);
      p := UnderEnd(q, a[..n], b[..m], a[n]);
      if a[n] != b[m] {
        LastEdits(b[..m], a[n], b[m]);
        Append(p, a, b[..m] + [a[n]], b);
        p := p + [b];
      }
    }
  }

  /** The distance is the least number of single-character edits. */
  lemma FewestEdits(a: string, b: string)
    ensures exists p :: Path(p, a, b) && |p| == Dist(a, b) + 1
    ensures forall p :: Path(p, a, b) ==> |p| >= Dist(a, b) + 1
  {
    hide Path, Dist;
    var p := ShortestPath(a, b);
    forall q | Path(q, a, b)
      ensures |q| >= Dist(a, b) + 1
    {
      PathsAreLong(q, a, b);
    }
  }
}

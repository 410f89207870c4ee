/**
 `percentile` (scripts/benchmark_latency.py) over exact reals: linear interpolation between the two
 samples around position (n - 1) * p / 100 of the sorted list.
 */
module Percentile {
  import opened Prelude

  // ---------------------------------------------------------------------------
  // Definition
  // ---------------------------------------------------------------------------

  function Insert(x: real, sorted: seq<real>): seq<real> {
    if sorted == [] || x <= sorted[0] then [x] + sorted else [sorted[0]] + Insert(x, sorted[1..])
  }

  /** `sorted(values)`. */
  function Sort(values: seq<real>): (s: seq<real>)
    ensures Ascending(s) && |s| == |values| && multiset(s) == multiset(values)
  {
    if values == [] then []
    else
      var rest := Sort(values[1..]);
      InsertSorts(values[0], rest);
      InsertAdds(values[0], rest);
      assert values == [values[0]] + values[1..];
      Insert(values[0], rest)
  }

  predicate Ascending(s: seq<real>) {
    forall i, j :: 0 <= i < j < |s| ==> s[i] <= s[j]
  }

  lemma {:induction false} InsertSorts(x: real, s: seq<real>)
    requires Ascending(s)
    ensures Ascending(Insert(x, s)) && |Insert(x, s)| == |s| + 1
    ensures Insert(x, s)[0] == if s == [] || x <= s[0] then x else s[0]
  {
    if s != [] && x > s[0] {
      InsertSorts(x, s[1..]);
    }
  }

  lemma {:induction false} InsertAdds(x: real, s: seq<real>)
    ensures multiset(Insert(x, s)) == multiset(s) + multiset{x}
  {
    if s != [] && x > s[0] {
      InsertAdds(x, s[1..]);
      assert s == [s[0]] + s[1..];
    }
  }

  /** The position of a percentile in a list of n samples. */
  function Position(n: nat, p: real): (k: real)
    requires n > 0 && 0.0 <= p <= 100.0
    ensures 0.0 <= k <= (n - 1) as real
  {
    PositionInRange(n, p);
    (n - 1) as real * p / 100.0
  }

  lemma Product(m: real, a: real, b: real)
    requires m >= 0.0 && a <= b
    ensures m * a <= m * b
  {
    assert m * (b - a) >= 0.0;
  }

  lemma PositionInRange(n: nat, p: real)
    requires n > 0 && 0.0 <= p <= 100.0
    ensures 0.0 <= (n - 1) as real * p / 100.0 <= (n - 1) as real
  {
    var m := (n - 1) as real;
    Product(m, 0.0, p);
    Product(m, p, 100.0);
  }

  lemma PositionIs(n: nat, p: real)
    requires n > 0 && 0.0 <= p <= 100.0
    ensures Position(n, p) == (n - 1) as real * p / 100.0
  {
  }

  lemma PositionMonotone(n: nat, p: real, p': real)
    requires n > 0 && 0.0 <= p <= p' <= 100.0
    ensures Position(n, p) <= Position(n, p')
    ensures Position(n, 0.0) == 0.0 && Position(n, 100.0) == (n - 1) as real
  {
    var m := (n - 1) as real;
    Product(m, p, p');
    var a, b := m * p, m * p';
    assert a / 100.0 <= b / 100.0;
  }

  function Blend(a: real, b: real, w: real): real {
    a + (b - a) * w
  }

  /** The value between the samples around a position. */
  function At(s: seq<real>, k: real): real
    requires |s| > 0 && 0.0 <= k <= (|s| - 1) as real
  {
    var f := k.Floor;
    var c := if f + 1 < |s| - 1 then f + 1 else |s| - 1;
    Blend(s[f], s[c], k - f as real)
  }

  function Percentile(values: seq<real>, p: real): real
    requires 0.0 <= p <= 100.0
  {
    if values == [] then 0.0 else At(Sort(values), Position(|values|, p))
  }

  // ---------------------------------------------------------------------------
  // Between the neighbours
  // ---------------------------------------------------------------------------

  lemma BlendBetween(a: real, b: real, w: real)
    requires a <= b && 0.0 <= w <= 1.0
    ensures a <= Blend(a, b, w) <= b
    ensures Blend(a, b, 0.0) == a
  {
    var d := b - a;
    Product(d, 0.0, w);
    Product(d, w, 1.0);
  }

  lemma BlendMonotone(a: real, b: real, w: real, w': real)
    requires a <= b && w <= w'
    ensures Blend(a, b, w) <= Blend(a, b, w')
  {
    Product(b - a, w, w');
  }

  function Times(a: real, b: real): real {
    a * b
  }

  lemma TimesMonotone(m: real, a: real, b: real)
    requires m >= 0.0 && a <= b
    ensures Times(m, a) <= Times(m, b)
  {
    Product(m, a, b);
  }

  lemma BlendIsAverage(a: real, b: real, w: real, u: real)
    requires u == 1.0 - w
    ensures Blend(a, b, w) == Times(u, a) + Times(w, b)
  {
  }

  lemma BlendBelow(a: real, b: real, a': real, b': real, w: real)
    requires a <= a' && b <= b' && 0.0 <= w <= 1.0
    ensures Blend(a, b, w) <= Blend(a', b', w)
  {
    hide *;
    var u := 1.0 - w;
    TimesMonotone(u, a, a');
    TimesMonotone(w, b, b');
    BlendIsAverage(a, b, w, u);
    BlendIsAverage(a', b', w, u);
  }

  /** Interpolation stays between the samples on either side. */
  lemma Between(s: seq<real>, k: real)
    requires Ascending(s) && |s| > 0 && 0.0 <= k <= (|s| - 1) as real
    ensures forall j :: 0 <= j <= k.Floor ==> s[j] <= At(s, k)
    ensures forall j :: k.Floor < j < |s| ==> At(s, k) <= s[j]
    ensures k == k.Floor as real ==> At(s, k) == s[k.Floor]
  {
    var f := k.Floor;
    var c := if f + 1 < |s| - 1 then f + 1 else |s| - 1;
    BlendBetween(s[f], s[c], k - f as real);
    hide Blend;
  }

  lemma BoundsAt(s: seq<real>, k: real)
    requires Ascending(s) && |s| > 0 && 0.0 <= k <= (|s| - 1) as real
    ensures s[0] <= At(s, k) <= s[|s| - 1]
    ensures forall j :: 0 <= j < |s| ==> if j as real <= k then s[j] <= At(s, k) else At(s, k) <= s[j]
    ensures At(s, 0.0) == s[0] && At(s, (|s| - 1) as real) == s[|s| - 1]
  {
    hide At;
    Between(s, k);
    Between(s, 0.0);
    Between(s, (|s| - 1) as real);
  }

  /**
   Between minimum and maximum, which are the values at 0 and at 100; the samples up to p percent of
   the way from the first to the last are no larger, and the others are no smaller.
   */
  lemma {:induction false} PercentileBounds(values: seq<real>, p: real)
    requires values != [] && 0.0 <= p <= 100.0
    ensures var s, r, k := Sort(values), Percentile(values, p), (|values| - 1) as real * p / 100.0;
            && s[0] <= r <= s[|s| - 1]
            && forall j :: 0 <= j < |s| ==> if j as real <= k then s[j] <= r else r <= s[j]
    ensures Percentile(values, 0.0) == Sort(values)[0]
    ensures Percentile(values, 100.0) == Sort(values)[|values| - 1]
    ensures Percentile([], p) == 0.0
  {
    PositionMonotone(|values|, p, p);
    PositionIs(|values|, p);
    var s, k := Sort(values), Position(|values|, p);
    PercentileIs(values, p);
    PercentileIs(values, 0.0);
    PercentileIs(values, 100.0);
    assert Percentile([], p) == 0.0;
    hide *;
    BoundsAt(s, k);
  }

  lemma PercentileIs(values: seq<real>, p: real)
    requires values != [] && 0.0 <= p <= 100.0
    ensures Percentile(values, p) == At(Sort(values), Position(|values|, p))
  {
  }

  lemma BlendStraight(a: real, d: real, k: real, f: real)
    ensures Blend(a + d * f, a + d * f + d, k - f) == a + d * k
  {
    var w := k - f;
    assert d * f + d * w == d * (f + w);
  }

  lemma NextOnLine(a: real, d: real, f: int)
    ensures a + d * (f + 1) as real == a + d * f as real + d
  {
    assert (f + 1) as real == f as real + 1.0;
  }

  lemma AtOnLine(s: seq<real>, a: real, d: real, k: real)
    requires |s| > 0 && 0.0 <= k <= (|s| - 1) as real
    requires forall i :: 0 <= i < |s| ==> s[i] == a + d * i as real
    ensures At(s, k) == a + d * k
  {
    var f := k.Floor;
    if f + 1 < |s| {
      NextOnLine(a, d, f);
      BlendStraight(a, d, k, f as real);
      assert s[f + 1] == a + d * (f + 1) as real;
      hide Blend;
    } else {
      assert k == f as real;
    }
  }

  /**
   The interpolation is linear: samples that lie evenly spaced on a line, in whatever order they were
   taken, give the point of the line at p percent of the way from the first to the last.
   */
  lemma {:induction false} StraightLine(values: seq<real>, a: real, d: real, p: real)
    requires values != [] && 0.0 <= p <= 100.0
    requires forall i :: 0 <= i < |values| ==> Sort(values)[i] == a + d * i as real
    ensures Percentile(values, p) == a + d * ((|values| - 1) as real * p / 100.0)
  {
    hide *;
    PositionIs(|values|, p);
    PercentileIs(values, p);
    AtOnLine(Sort(values), a, d, Position(|values|, p));
  }

  // ---------------------------------------------------------------------------
  // Monotone in p
  // ---------------------------------------------------------------------------

  lemma AtMonotone(s: seq<real>, k: real, k': real)
    requires Ascending(s) && |s| > 0 && 0.0 <= k <= k' <= (|s| - 1) as real
    ensures At(s, k) <= At(s, k')
  {
    if k.Floor == k'.Floor {
      var f := k.Floor;
      var c := if f + 1 < |s| - 1 then f + 1 else |s| - 1;
      BlendMonotone(s[f], s[c], k - f as real, k' - f as real);
    } else {
      Between(s, k);
      Between(s, k');
    }
  }

  /** A higher percentile is never a lower value, across the boundaries of the segments. */
  lemma {:induction false} MonotoneInP(values: seq<real>, p: real, p': real)
    requires 0.0 <= p <= p' <= 100.0
    ensures Percentile(values, p) <= Percentile(values, p')
  {
    if values != [] {
      PositionMonotone(|values|, p, p');
      hide Position;
      AtMonotone(Sort(values), Position(|values|, p), Position(|values|, p'));
    }
  }

  // ---------------------------------------------------------------------------
  // Independent of the order
  // ---------------------------------------------------------------------------

  lemma SameFirst(s: seq<real>, t: seq<real>)
    requires Ascending(s) && Ascending(t) && multiset(s) == multiset(t) && s != []
    ensures t != [] && s[0] == t[0]
  {
    assert s[0] in multiset(t);
    var i :| 0 <= i < |t| && t[i] == s[0];
    assert t[0] in multiset(s);
    var j :| 0 <= j < |s| && s[j] == t[0];
  }

  lemma {:induction false} SortedIsUnique(s: seq<real>, t: seq<real>)
    requires Ascending(s) && Ascending(t) && multiset(s) == multiset(t)
    ensures s == t
  {
    if s == [] {
      assert |multiset(t)| == 0;
    } else {
      SameFirst(s, t);
      TailMultiset(s);
      TailMultiset(t);
      SortedIsUnique(s[1..], t[1..]);
    }
  }

  /** The order in which samples were taken does not matter. */
  lemma {:induction false} OrderDoesNotMatter(values: seq<real>, values': seq<real>, p: real)
    requires multiset(values) == multiset(values') && 0.0 <= p <= 100.0
    ensures Percentile(values, p) == Percentile(values', p)
  {
    SortedIsUnique(Sort(values), Sort(values'));
    assert |multiset(values)| == |multiset(values')|;
  }

  // ---------------------------------------------------------------------------
  // Monotone in the samples
  // ---------------------------------------------------------------------------

  predicate Below(s: seq<real>, t: seq<real>) {
    |s| == |t| && forall i :: 0 <= i < |s| ==> s[i] <= t[i]
  }

  function Smaller(x: real, y: real): real {
    if x <= y then x else y
  }

  function Larger(x: real, y: real): real {
    if x <= y then y else x
  }

  /** Inserting into a sorted list puts the smaller of two in front and inserts the other behind it. */
  lemma SplitInsert(x: real, s: seq<real>)
    requires Ascending(s) && s != []
    ensures Insert(x, s) == [Smaller(x, s[0])] + Insert(Larger(x, s[0]), s[1..])
  {
    if x <= s[0] {
      assert Insert(s[0], s[1..]) == [s[0]] + s[1..] == s;
    }
  }

  lemma {:induction false} InsertMonotone(x: real, s: seq<real>, y: real, t: seq<real>)
    requires Ascending(s) && Ascending(t) && x <= y && Below(s, t)
    ensures Below(Insert(x, s), Insert(y, t))
    decreases |s|
  {
    if s != [] {
      SplitInsert(x, s);
      SplitInsert(y, t);
      hide Insert;
      InsertMonotone(Larger(x, s[0]), s[1..], Larger(y, t[0]), t[1..]);
    }
  }

  lemma {:induction false} SortMonotone(values: seq<real>, values': seq<real>)
    requires Below(values, values')
    ensures Below(Sort(values), Sort(values'))
  {
    if values != [] {
      SortMonotone(values[1..], values'[1..]);
      InsertMonotone(values[0], Sort(values[1..]), values'[0], Sort(values'[1..]));
    }
  }

  /** When no sample shrinks, no percentile does. */
  lemma {:induction false} MonotoneInSamples(values: seq<real>, values': seq<real>, p: real)
    requires Below(values, values') && 0.0 <= p <= 100.0
    ensures Percentile(values, p) <= Percentile(values', p)
  {
    if values != [] {
      SortMonotone(values, values');
      AtBelow(Sort(values), Sort(values'), Position(|values|, p));
    }
  }

  lemma AtBelow(s: seq<real>, t: seq<real>, k: real)
    requires |s| > 0 && Below(s, t) && 0.0 <= k <= (|s| - 1) as real
    ensures At(s, k) <= At(t, k)
  {
    var f := k.Floor;
    var c := if f + 1 < |s| - 1 then f + 1 else |s| - 1;
    BlendBelow(s[f], s[c], t[f], t[c], k - f as real);
    hide Blend;
  }
}

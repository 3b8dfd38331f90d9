/** The numeric reductions the dashboard applies to every column:
    pandas' NaN-skipping `mean()` and numpy's round-half-to-even `round`. */
module Stats {
  import opened Wrappers

  /** The present values of a column, in order: what `mean()` looks at
      when it skips NaN. */
  function Present(xs: seq<Option<real>>): (p: seq<real>)
    ensures |p| <= |xs|
    ensures p == [] <==> forall i :: 0 <= i < |xs| ==> xs[i].None?
  {
    if xs == [] then []
    else
      (if xs[0].Some? then [xs[0].value] else []) + Present(xs[1..])
  }

  function Sum(xs: seq<real>): real
  {
    if xs == [] then 0.0 else xs[0] + Sum(xs[1..])
  }

  /** `Series.mean()`: the sum of the present values divided by how many
      there are; NaN (None) when no value is present. */
  function Mean(xs: seq<Option<real>>): (m: Option<real>)
    ensures m.None? <==> forall i :: 0 <= i < |xs| ==> xs[i].None?
  {
    var p := Present(xs);
    if p == [] then None
    else
      Some(Sum(p) / |p| as real)
  }

  lemma DivideThenMultiply(m: real, s: real, n: real)
    requires n > 0.0 && m == s / n
    ensures m * n == s
  {
  }

  lemma DivBounds(s: real, n: real, lo: real, hi: real)
    requires n > 0.0
    requires n * lo <= s <= n * hi
    ensures lo <= s / n <= hi
  {
    DivideThenMultiply(s / n, s, n);
  }

  /** numpy's `round` to zero decimals: the nearest integer, and the even
      one of the two when `x` lies exactly half-way. */
  function Round(x: real): (r: int)
    ensures r as real - 0.5 <= x <= r as real + 0.5
    ensures (x == r as real - 0.5 || x == r as real + 0.5) ==> r % 2 == 0
  {
    var f := x.Floor;
    var frac := x - f as real;
    if frac < 0.5 then f
    else if frac > 0.5 then f + 1
    else if f % 2 == 0 then f
    else f + 1
  }

  /** `round` applied to a cell: NaN stays NaN. */
  function RoundOpt(x: Option<real>): (r: Option<int>)
    ensures r.Some? <==> x.Some?
    ensures r.Some? ==> r.value as real - 0.5 <= x.value <= r.value as real + 0.5
    ensures r.Some? && (x.value == r.value as real - 0.5 || x.value == r.value as real + 0.5) ==> r.value % 2 == 0
  {
    match x
    case None => None
    case Some(v) => Some(Round(v))
  }

  /** The reduction every aggregate of the dashboard ends with:
      `round(<column>.mean())`. */
  function RoundedMean(xs: seq<Option<real>>): (r: Option<int>)
    ensures r.None? <==> forall i :: 0 <= i < |xs| ==> xs[i].None?
    ensures r.Some? ==> r.value as real - 0.5 <= Mean(xs).value <= r.value as real + 0.5
  {
    RoundOpt(Mean(xs))
  }

  /** An integer cell read back as a real, as pandas holds it in a float
      column. */
  function AsReal(x: Option<int>): (r: Option<real>)
    ensures r.Some? <==> x.Some?
    ensures r.Some? ==> r.value == x.value as real
  {
    match x
    case None => None
    case Some(n) => Some(n as real)
  }

  // ---------------------------------------------------------------- lemmas

  /** Rounding leaves a whole number unchanged. */
  lemma RoundOfInteger(n: int)
    ensures Round(n as real) == n
  {
  }

  /** Rounding never reorders two values. */
  lemma RoundMonotone(x: real, y: real)
    requires x <= y
    ensures Round(x) <= Round(y)
  {
  }

  /** A rounded value that lies between two integers stays between them. */
  lemma RoundWithin(x: real, lo: int, hi: int)
    requires lo as real <= x <= hi as real
    ensures lo <= Round(x) <= hi
  {
    RoundOfInteger(lo);
    RoundOfInteger(hi);
    RoundMonotone(lo as real, x);
    RoundMonotone(x, hi as real);
  }

  lemma {:induction false} SumBounds(p: seq<real>, lo: real, hi: real)
    requires forall i :: 0 <= i < |p| ==> lo <= p[i] <= hi
    ensures (|p| as real) * lo <= Sum(p) <= (|p| as real) * hi
  {
    if p != [] {
      SumBounds(p[1..], lo, hi);
    }
  }

  /** Every present value, and nothing else, is kept. */
  lemma {:induction false} PresentMembers(xs: seq<Option<real>>)
    ensures forall i :: 0 <= i < |Present(xs)| ==> Some(Present(xs)[i]) in xs
    ensures forall i :: 0 <= i < |xs| && xs[i].Some? ==> xs[i].value in Present(xs)
  {
    if xs != [] {
      PresentMembers(xs[1..]);
      assert xs == [xs[0]] + xs[1..];
    }
  }

  /** Repeated readings all count: each value occurs in `Present(xs)` as
      many times as it occurs, present, in the column. */
  lemma {:induction false} PresentCounts(xs: seq<Option<real>>)
    ensures forall v :: multiset(Present(xs))[v] == multiset(xs)[Some(v)]
  {
    if xs != [] {
      PresentCounts(xs[1..]);
      assert xs == [xs[0]] + xs[1..];
      var head := if xs[0].Some? then [xs[0].value] else [];
      assert Present(xs) == head + Present(xs[1..]);
      forall v ensures multiset(Present(xs))[v] == multiset(xs)[Some(v)] {
        assert multiset(xs)[Some(v)] == multiset([xs[0]])[Some(v)] + multiset(xs[1..])[Some(v)];
        assert multiset(Present(xs))[v] == multiset(head)[v] + multiset(Present(xs[1..]))[v];
      }
    }
  }

  /** Readings 20, 20, 20 and 200 average to 65: the repeated 20 is counted
      three times. */
  lemma RepeatedReadingsCount()
    ensures Mean([Some(20.0), Some(20.0), Some(20.0), Some(200.0)]) == Some(65.0)
    ensures RoundedMean([Some(20.0), Some(20.0), Some(20.0), Some(200.0)]) == Some(65)
  {
    var xs := [Some(20.0), Some(20.0), Some(20.0), Some(200.0)];
    assert Present(xs) == [20.0, 20.0, 20.0, 200.0] by {
      assert xs[1..] == [Some(20.0), Some(20.0), Some(200.0)];
      assert xs[1..][1..] == [Some(20.0), Some(200.0)];
      assert xs[1..][1..][1..] == [Some(200.0)];
    }
    var p := [20.0, 20.0, 20.0, 200.0];
    assert Sum(p) == 260.0 by {
      assert p[1..] == [20.0, 20.0, 200.0];
      assert p[1..][1..] == [20.0, 200.0];
      assert p[1..][1..][1..] == [200.0];
    }
    RoundOfInteger(65);
  }

  lemma {:induction false} PresentWithin(xs: seq<Option<real>>, lo: real, hi: real)
    requires forall i :: 0 <= i < |xs| && xs[i].Some? ==> lo <= xs[i].value <= hi
    ensures forall i :: 0 <= i < |Present(xs)| ==> lo <= Present(xs)[i] <= hi
  {
    if xs != [] {
      PresentWithin(xs[1..], lo, hi);
    }
  }

  /** The mean of the present values lies between their least and greatest. */
  lemma {:induction false} MeanWithinBounds(xs: seq<Option<real>>, lo: real, hi: real)
    requires forall i :: 0 <= i < |xs| && xs[i].Some? ==> lo <= xs[i].value <= hi
    ensures Mean(xs).Some? ==> lo <= Mean(xs).value <= hi
  {
    var p := Present(xs);
    if p != [] {
      PresentWithin(xs, lo, hi);
      SumBounds(p, lo, hi);
      DivBounds(Sum(p), |p| as real, lo, hi);
    }
  }

  /** The mean times the number of present values is their sum. */
  lemma {:induction false} MeanTimesCount(xs: seq<Option<real>>)
    requires Mean(xs).Some?
    ensures Mean(xs).value * (|Present(xs)| as real) == Sum(Present(xs))
  {
    var p := Present(xs);
    DivideThenMultiply(Mean(xs).value, Sum(p), |p| as real);
  }

  /** A group with a single record has that record's own value as mean. */
  lemma MeanOfSingle(x: Option<real>)
    ensures Mean([x]) == x
  {
    assert [x][1..] == [];
    if x.Some? {
      assert Present([x]) == [x.value];
      assert Sum([x.value]) == x.value + Sum([]);
    } else {
      assert Present([x]) == [];
    }
  }

  /** Missing cells do not count towards the mean: dropping them changes
      nothing. */
  lemma {:induction false} PresentIgnoresMissing(xs: seq<Option<real>>, ys: seq<Option<real>>)
    ensures Present(xs + [None] + ys) == Present(xs + ys)
  {
    if xs == [] {
      assert xs + [None] + ys == [None] + ys;
      assert xs + ys == ys;
      assert ([None] + ys)[1..] == ys;
    } else {
      assert (xs + [None] + ys)[1..] == xs[1..] + [None] + ys;
      assert (xs + ys)[1..] == xs[1..] + ys;
      PresentIgnoresMissing(xs[1..], ys);
    }
  }

  lemma MeanIgnoresMissing(xs: seq<Option<real>>, ys: seq<Option<real>>)
    ensures Mean(xs + [None] + ys) == Mean(xs + ys)
  {
    PresentIgnoresMissing(xs, ys);
  }
}

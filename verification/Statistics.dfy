/** Which of many points the slope is taken from (valuation.py:334-337). */
module SlopeSample {
  import opened Rounding
  import opened Floats

  const MAX_SLOPE_POINTS := 200
  const POINTS := MAX_SLOPE_POINTS as real

  /** int(i * step) with step = n / 200, each rounded to a float. */
  function SpreadIndex(n: nat, i: nat): (k: nat)
    requires n > MAX_SLOPE_POINTS && i < MAX_SLOPE_POINTS
    ensures k < n
  {
    if i == 0 then 0
    else
      var size, at := n as real, i as real;
      var step := Double(size / POINTS);
      SpreadStays(size, at, step);
      Truncated(Double(at * step), n)
  }

  function Truncated(d: real, n: nat): (k: nat)
    requires 0.0 <= d < n as real
    ensures k < n
  {
    d.Floor
  }

  lemma SpreadStays(n: real, i: real, step: real)
    requires n >= POINTS + 1.0 && 1.0 <= i <= POINTS - 1.0 && step == Double(n / POINTS)
    ensures 1.0 <= i * step && 0.0 <= Double(i * step) < n
  {
    var q, at := n / POINTS, i * step;
    DoubleIsClose(q);
    StepSize(n, q, step);
    Steps(n, i, step, at);
    DoubleIsClose(at);
    WithinOne(at, Double(at), n);
  }

  lemma StepSize(n: real, q: real, step: real)
    requires n >= POINTS + 1.0 && q == n / POINTS && Close(step, q)
    ensures 1.0 <= step <= 1.001 * q
  {
    assert q >= 1.005;
    assert q * ERROR <= q * 0.001;
  }

  lemma Steps(n: real, i: real, step: real, at: real)
    requires 1.0 <= i <= POINTS - 1.0 && 1.0 <= step <= 1.001 * (n / POINTS) && at == i * step
    ensures 1.0 <= at <= 0.997 * n
  {
    MulNonNegative(i - 1.0, step);
    MulNonNegative(POINTS - 1.0 - i, step);
    assert (i - 1.0) * step == at - step;
    assert (POINTS - 1.0 - i) * step == (POINTS - 1.0) * step - at;
  }

  lemma WithinOne(at: real, d: real, n: real)
    requires 1.0 <= at <= 0.997 * n && Close(d, at)
    ensures 0.0 <= d < n
  {
    assert at * ERROR <= at * 0.001;
  }
}

/** The robust statistics of valuation.py, over exact numbers: median, MAD
    rejection, weighted quantiles and the Theil-Sen slope. */
module Statistics {
  import opened Options
  import opened SlopeSample
  import opened Sequences

  predicate RealLeq(a: real, b: real) {
    a <= b
  }

  lemma RealOrder()
    ensures TotalOrder(RealLeq)
  {
  }

  function Abs(x: real): (r: real)
    ensures r >= 0.0 && (r == x || r == -x)
  {
    if x < 0.0 then -x else x
  }

  /** statistics.median. */
  function Median(s: seq<real>): real
    requires s != []
  {
    var t := Sort(RealLeq, s);
    var n := |t|;
    if n % 2 == 1 then t[n / 2] else (t[n / 2 - 1] + t[n / 2]) / 2.0
  }

  lemma MedianOfPermutation(a: seq<real>, b: seq<real>)
    requires Permutation(a, b) && a != []
    ensures b != [] && Median(a) == Median(b)
  {
    SameLength(a, b);
    RealOrder();
    SortIsCanonical(RealLeq, a, b);
  }

  // ---------- MAD rejection ----------------------------------------------------------

  function Deviation(v: real, center: real): real {
    Abs(v - center)
  }

  function Deviations(vals: seq<real>, center: real): (r: seq<real>)
    ensures |r| == |vals| && forall k :: 0 <= k < |r| ==> r[k] == Deviation(vals[k], center)
  {
    Map((v: real) => Deviation(v, center), vals)
  }

  function Mad(vals: seq<real>): real
    requires vals != []
  {
    Median(Deviations(vals, Median(vals))) * 1.4826
  }

  function Near<T>(value: T -> real, center: real, cut: real): T -> bool {
    (p: T) => Deviation(value(p), center) <= cut
  }

  /** Fewer than four values, or no spread at all: everything is kept. */
  function MadFilter<T>(value: T -> real, pairs: seq<T>): (r: seq<T>)
    ensures |r| <= |pairs|
  {
    if |pairs| < 4 then pairs
    else
      var vals := Map(value, pairs);
      Within(value, pairs, Median(vals), Mad(vals))
  }

  function Cut(mad: real): real {
    3.0 * mad
  }

  function Within<T>(value: T -> real, pairs: seq<T>, center: real, mad: real): (r: seq<T>)
    ensures |r| <= |pairs|
  {
    if mad == 0.0 then pairs else Filter(Near(value, center, Cut(mad)), pairs)
  }

  lemma {:induction false} CountPrefix<T>(p: T -> bool, s: seq<T>, k: nat)
    requires k <= |s| && forall i :: 0 <= i < k ==> p(s[i])
    ensures Count(p, s) >= k
  {
    if k > 0 { CountPrefix(p, s[1..], k - 1); }
  }

  /** The middle of non-negative numbers is at most twice their median. */
  lemma MiddleBelowTwiceMedian(s: seq<real>)
    requires s != [] && forall k :: 0 <= k < |s| ==> s[k] >= 0.0
    ensures Sort(RealLeq, s)[|s| / 2] <= 2.0 * Median(s) && Median(s) >= 0.0
  {
    var t := Sort(RealLeq, s);
    forall k | 0 <= k < |t| ensures t[k] >= 0.0 { SameMembers(t, s, t[k]); }
  }

  function AtMost(cut: real): real -> bool {
    (x: real) => x <= cut
  }

  /** A majority is within any cut at or above twice the median. */
  lemma MajorityIsNear(s: seq<real>, cut: real)
    requires s != [] && (forall k :: 0 <= k < |s| ==> s[k] >= 0.0) && cut >= 2.0 * Median(s)
    ensures Count(AtMost(cut), s) >= |s| / 2 + 1
  {
    var t := Sort(RealLeq, s);
    RealOrder();
    SortSorts(RealLeq, s);
    MiddleBelowTwiceMedian(s);
    forall k | 0 <= k < |s| / 2 + 1 ensures t[k] <= cut {
      if k < |s| / 2 { assert RealLeq(t[k], t[|s| / 2]); }
    }
    CountPrefix(AtMost(cut), t, |s| / 2 + 1);
    CountOfPermutation(AtMost(cut), t, s);
  }

  lemma MedianNonNegative(s: seq<real>)
    requires s != [] && forall k :: 0 <= k < |s| ==> s[k] >= 0.0
    ensures Median(s) >= 0.0
  {
    MiddleBelowTwiceMedian(s);
  }

  lemma WideEnough(median: real, mad: real)
    requires median >= 0.0 && mad == median * 1.4826
    ensures Cut(mad) >= 2.0 * median
  {
  }

  lemma {:induction false} KeptAreNear<T>(value: T -> real, pairs: seq<T>, center: real, cut: real)
    ensures |Filter(Near(value, center, cut), pairs)|
         == Count(AtMost(cut), Deviations(Map(value, pairs), center))
  {
    if pairs != [] {
      KeptAreNear(value, pairs[1..], center, cut);
      assert Deviations(Map(value, pairs), center)[1..] == Deviations(Map(value, pairs[1..]), center);
    }
  }

  lemma MajorityWithin<T>(value: T -> real, pairs: seq<T>, center: real, mad: real)
    requires pairs != [] && mad == Median(Deviations(Map(value, pairs), center)) * 1.4826
    ensures |Within(value, pairs, center, mad)| >= |pairs| / 2 + 1
  {
    var devs := Deviations(Map(value, pairs), center);
    KeptAreNear(value, pairs, center, Cut(mad));
    MedianNonNegative(devs);
    WideEnough(Median(devs), mad);
    MajorityIsNear(devs, Cut(mad));
  }

  /** MAD rejection keeps at least half of the values plus one, so three
      comparables never become fewer than three. */
  lemma MadKeepsMajority<T>(value: T -> real, pairs: seq<T>)
    ensures |pairs| >= 4 ==> |MadFilter(value, pairs)| >= |pairs| / 2 + 1
    ensures |pairs| >= 3 <==> |MadFilter(value, pairs)| >= 3
  {
    if |pairs| >= 4 {
      var vals := Map(value, pairs);
      MajorityWithin(value, pairs, Median(vals), Mad(vals));
    }
  }

  lemma MadKeepsMembers<T>(value: T -> real, pairs: seq<T>, p: T)
    requires p in MadFilter(value, pairs)
    ensures p in pairs
  {
    if |pairs| >= 4 {
      var vals := Map(value, pairs);
      FilterMembers(Near(value, Median(vals), Cut(Mad(vals))), pairs, p);
    }
  }

  lemma MadOfPermutation(a: seq<real>, b: seq<real>)
    requires Permutation(a, b) && a != []
    ensures b != [] && Mad(a) == Mad(b) && Median(a) == Median(b)
  {
    MedianOfPermutation(a, b);
    MapOfPermutation((v: real) => Deviation(v, Median(a)), a, b);
    MedianOfPermutation(Deviations(a, Median(a)), Deviations(b, Median(a)));
  }

  lemma WithinOfPermutation<T>(value: T -> real, a: seq<T>, b: seq<T>, center: real, mad: real)
    requires Permutation(a, b)
    ensures Permutation(Within(value, a, center, mad), Within(value, b, center, mad))
  {
    FilterOfPermutation(Near(value, center, Cut(mad)), a, b);
  }

  lemma MadFilterOfPermutation<T>(value: T -> real, a: seq<T>, b: seq<T>)
    requires Permutation(a, b)
    ensures Permutation(MadFilter(value, a), MadFilter(value, b))
  {
    SameLength(a, b);
    if |a| >= 4 {
      var u, v := Map(value, a), Map(value, b);
      MapOfPermutation(value, a, b);
      MadOfPermutation(u, v);
      WithinOfPermutation(value, a, b, Median(u), Mad(u));
    }
  }

  // ---------- weighted quantiles --------------------------------------------------------

  /** A value and its weight, ordered like the tuple. */
  datatype Weighted = Weighted(value: real, weight: real)

  predicate WeightedLeq(a: Weighted, b: Weighted) {
    a.value < b.value || (a.value == b.value && a.weight <= b.weight)
  }

  lemma WeightedOrder()
    ensures TotalOrder(WeightedLeq)
  {
  }

  function All(): Weighted -> bool {
    (x: Weighted) => true
  }

  function Below(v: real): Weighted -> bool {
    (x: Weighted) => x.value < v
  }

  function UpTo(v: real): Weighted -> bool {
    (x: Weighted) => x.value <= v
  }

  /** The weight of the elements a test picks. */
  function Weight(p: Weighted -> bool, s: seq<Weighted>): real {
    if s == [] then 0.0 else (if p(s[0]) then s[0].weight else 0.0) + Weight(p, s[1..])
  }

  function Total(s: seq<Weighted>): real {
    Weight(All(), s)
  }

  ghost predicate Positive(s: seq<Weighted>) {
    forall x :: x in s ==> x.weight > 0.0
  }

  /** The first value at which the running weight `acc` reaches `need`. */
  function Reach(s: seq<Weighted>, need: real, acc: real): real
    requires s != []
  {
    if acc + s[0].weight >= need || |s| == 1 then s[0].value
    else Reach(s[1..], need, acc + s[0].weight)
  }

  function Ranked(s: seq<Weighted>): (t: seq<Weighted>)
    ensures Permutation(t, s) && |t| == |s|
  {
    Sort(WeightedLeq, s)
  }

  lemma RankedIsCanonical(a: seq<Weighted>, b: seq<Weighted>)
    requires Permutation(a, b)
    ensures Ranked(a) == Ranked(b)
  {
    WeightedOrder();
    SortIsCanonical(WeightedLeq, a, b);
  }

  lemma RankedIsSorted(s: seq<Weighted>)
    ensures Sorted(WeightedLeq, Ranked(s))
  {
    WeightedOrder();
    SortSorts(WeightedLeq, s);
  }

  function Share(q: real, total: real): real {
    q * total
  }

  function Quantile(s: seq<Weighted>, q: real): real
    requires s != []
  {
    Reach(Ranked(s), Share(q, Total(s)), 0.0)
  }

  method WQuantile(pairs: seq<Weighted>, q: real) returns (v: real)
    requires pairs != []
    ensures v == Quantile(pairs, q)
  {
    var t := Ranked(pairs);
    var total := 0.0;
    for n := 0 to |t|
      invariant total + Total(t[n..]) == Total(t)
    {
      assert t[n..][0] == t[n] && t[n..][1..] == t[n + 1..];
      total := total + t[n].weight;
    }
    assert t[|t|..] == [];
    WeightOfPermutation(All(), t, pairs);
    var need := Share(q, total);
    assert Quantile(pairs, q) == Reach(t, need, 0.0);
    var acc := 0.0;
    for n := 0 to |t|
      invariant n < |t| ==> Reach(t[n..], need, acc) == Reach(t, need, 0.0)
      invariant n == |t| ==> Reach(t, need, 0.0) == t[|t| - 1].value
    {
      assert t[n..][0] == t[n] && t[n..][1..] == t[n + 1..];
      acc := acc + t[n].weight;
      if acc >= need { return t[n].value; }
    }
    return t[|t| - 1].value;
  }

  lemma {:induction false} WeightDrop(p: Weighted -> bool, s: seq<Weighted>, i: nat)
    requires i < |s|
    ensures Weight(p, s) == (if p(s[i]) then s[i].weight else 0.0) + Weight(p, Drop(s, i))
  {
    if i == 0 {
      assert Drop(s, 0) == s[1..];
    } else {
      var rest, left := s[1..], Drop(s, i);
      WeightDrop(p, rest, i - 1);
      assert left[0] == s[0] && rest[i - 1] == s[i];
      assert left[1..] == Drop(rest, i - 1);
    }
  }

  lemma {:induction false} WeightOfPermutation(p: Weighted -> bool, a: seq<Weighted>, b: seq<Weighted>)
    requires Permutation(a, b)
    ensures Weight(p, a) == Weight(p, b)
  {
    if a == [] {
      SameLength(a, b);
    } else {
      var i := PermutationHead(a, b);
      WeightOfPermutation(p, a[1..], Drop(b, i));
      WeightDrop(p, b, i);
    }
  }

  lemma QuantileOfPermutation(a: seq<Weighted>, b: seq<Weighted>, q: real)
    requires Permutation(a, b) && a != []
    ensures b != [] && Quantile(a, q) == Quantile(b, q)
  {
    SameLength(a, b);
    RankedIsCanonical(a, b);
    WeightOfPermutation(All(), a, b);
  }

  lemma {:induction false} WeightNonNegative(p: Weighted -> bool, s: seq<Weighted>)
    requires Positive(s)
    ensures 0.0 <= Weight(p, s) <= Total(s)
    ensures s != [] ==> Total(s) > 0.0
  {
    if s != [] { WeightNonNegative(p, s[1..]); }
  }

  lemma {:induction false} NoneBelow(s: seq<Weighted>, v: real)
    requires forall k :: 0 <= k < |s| ==> v <= s[k].value
    ensures Weight(Below(v), s) == 0.0
  {
    if s != [] { NoneBelow(s[1..], v); }
  }

  lemma {:induction false} ReachIsMember(s: seq<Weighted>, need: real, acc: real)
    requires s != []
    ensures exists x :: x in s && x.value == Reach(s, need, acc)
  {
    if acc + s[0].weight >= need || |s| == 1 {
      assert s[0] in s;
    } else {
      ReachIsMember(s[1..], need, acc + s[0].weight);
    }
  }

  lemma QuantileIsMember(s: seq<Weighted>, q: real)
    requires s != []
    ensures exists x :: x in s && x.value == Quantile(s, q)
  {
    var need := Share(q, Total(s));
    ReachIsMember(Ranked(s), need, 0.0);
    var x :| x in Ranked(s) && x.value == Reach(Ranked(s), need, 0.0);
    SameMembers(Ranked(s), s, x);
  }

  /** Where a sorted run-through stops, between what lies below and what lies
      at or below. */
  ghost predicate Splits(s: seq<Weighted>, v: real, need: real, acc: real) {
    && (exists x :: x in s && x.value == v)
    && acc + Weight(Below(v), s) < need
    && need <= acc + Weight(UpTo(v), s)
  }

  lemma {:induction false} ReachSplitsWeight(s: seq<Weighted>, need: real, acc: real)
    requires s != [] && Sorted(WeightedLeq, s) && Positive(s)
    requires acc < need <= acc + Total(s)
    ensures Splits(s, Reach(s, need, acc), need, acc) && s[0].value <= Reach(s, need, acc)
  {
    var v := Reach(s, need, acc);
    WeightNonNegative(UpTo(v), s[1..]);
    if acc + s[0].weight >= need || |s| == 1 {
      forall k | 0 <= k < |s| ensures v <= s[k].value { if k > 0 { assert WeightedLeq(s[0], s[k]); } }
      NoneBelow(s, v);
      assert s[0] in s;
    } else {
      ReachSplitsWeight(s[1..], need, acc + s[0].weight);
      assert WeightedLeq(s[0], s[1]);
    }
  }

  /** The weighted quantile is one of the values, with less than the share q
      of the weight strictly below it and at least that share at or below. */
  lemma QuantileSplitsWeight(s: seq<Weighted>, q: real)
    requires s != [] && Positive(s) && 0.0 < q <= 1.0
    ensures Splits(s, Quantile(s, q), Share(q, Total(s)), 0.0)
  {
    var t, need := Ranked(s), Share(q, Total(s));
    RankedIsSorted(s);
    PositiveOfPermutation(t, s);
    WeightOfPermutation(All(), t, s);
    WeightNonNegative(All(), t);
    ShareOfTotal(q, Total(s));
    ReachSplitsWeight(t, need, 0.0);
    SplitsOfPermutation(t, s, Reach(t, need, 0.0), need);
  }

  lemma SplitsOfPermutation(t: seq<Weighted>, s: seq<Weighted>, v: real, need: real)
    requires Permutation(t, s) && Splits(t, v, need, 0.0)
    ensures Splits(s, v, need, 0.0)
  {
    WeightOfPermutation(Below(v), t, s);
    WeightOfPermutation(UpTo(v), t, s);
    var x :| x in t && x.value == v;
    SameMembers(t, s, x);
  }

  lemma PositiveOfPermutation(a: seq<Weighted>, b: seq<Weighted>)
    requires Permutation(a, b) && Positive(b)
    ensures Positive(a)
  {
    forall x | x in a ensures x.weight > 0.0 { SameMembers(a, b, x); }
  }

  lemma ShareOfTotal(q: real, total: real)
    requires 0.0 < q <= 1.0 && total > 0.0
    ensures 0.0 < Share(q, total) <= total
  {
    assert (1.0 - q) * total >= 0.0;
  }

  lemma {:induction false} ReachMonotone(s: seq<Weighted>, need: real, more: real, acc: real)
    requires s != [] && Sorted(WeightedLeq, s) && need <= more
    ensures s[0].value <= Reach(s, need, acc) <= Reach(s, more, acc)
  {
    if |s| > 1 {
      assert WeightedLeq(s[0], s[1]);
      ReachMonotone(s[1..], need, more, acc + s[0].weight);
    }
  }

  lemma SharesGrow(p: real, q: real, total: real)
    requires p <= q && total >= 0.0
    ensures Share(p, total) <= Share(q, total)
  {
    assert (q - p) * total >= 0.0;
  }

  /** A larger share never gives a smaller quantile. */
  lemma QuantileMonotone(s: seq<Weighted>, p: real, q: real)
    requires s != [] && Positive(s) && p <= q
    ensures Quantile(s, p) <= Quantile(s, q)
  {
    RankedIsSorted(s);
    WeightNonNegative(All(), s);
    SharesGrow(p, q, Total(s));
    ReachMonotone(Ranked(s), Share(p, Total(s)), Share(q, Total(s)), 0.0);
  }

  // ---------- all pairs --------------------------------------------------------------------

  /** What `f` yields for `a` with each of `s`. */
  function Row<T, R>(f: (T, T) -> seq<R>, a: T, s: seq<T>): seq<R> {
    if s == [] then [] else f(a, s[0]) + Row(f, a, s[1..])
  }

  /** What `f` yields for each pair, row by row. */
  function Pairs<T, R>(f: (T, T) -> seq<R>, s: seq<T>): seq<R> {
    if s == [] then [] else Row(f, s[0], s[1..]) + Pairs(f, s[1..])
  }

  ghost predicate Symmetric<T(!new), R>(f: (T, T) -> seq<R>) {
    forall a, b :: f(a, b) == f(b, a)
  }

  ghost function Cell<T, R>(f: (T, T) -> seq<R>, a: T): T -> multiset<R> {
    (b: T) => multiset(f(a, b))
  }

  lemma {:induction false} RowAsBag<T, R>(f: (T, T) -> seq<R>, a: T, s: seq<T>)
    ensures multiset(Row(f, a, s)) == Bag(Cell(f, a), s)
  {
    if s != [] { RowAsBag(f, a, s[1..]); }
  }

  lemma RowDrop<T, R>(f: (T, T) -> seq<R>, a: T, s: seq<T>, i: nat)
    requires i < |s|
    ensures multiset(Row(f, a, s)) == multiset(f(a, s[i])) + multiset(Row(f, a, Drop(s, i)))
  {
    RowAsBag(f, a, s);
    RowAsBag(f, a, Drop(s, i));
    BagDrop(Cell(f, a), s, i);
  }

  lemma RowOfPermutation<T, R>(f: (T, T) -> seq<R>, p: T, a: seq<T>, b: seq<T>)
    requires Permutation(a, b)
    ensures multiset(Row(f, p, a)) == multiset(Row(f, p, b))
  {
    RowAsBag(f, p, a);
    RowAsBag(f, p, b);
    BagOfPermutation(Cell(f, p), a, b);
  }

  lemma PairsUnfold<T, R>(f: (T, T) -> seq<R>, h: T, s: seq<T>)
    ensures multiset(Pairs(f, [h] + s)) == multiset(Row(f, h, s)) + multiset(Pairs(f, s))
  {
    assert ([h] + s)[1..] == s;
  }

  lemma RowUnfold<T, R>(f: (T, T) -> seq<R>, a: T, h: T, s: seq<T>)
    ensures multiset(Row(f, a, [h] + s)) == multiset(f(a, h)) + multiset(Row(f, a, s))
  {
    assert ([h] + s)[1..] == s;
  }

  /** Any element may be taken first. */
  lemma {:induction false} PairsDrop<T(!new), R>(f: (T, T) -> seq<R>, s: seq<T>, i: nat)
    requires i < |s| && Symmetric(f)
    ensures multiset(Pairs(f, s)) == multiset(Row(f, s[i], Drop(s, i))) + multiset(Pairs(f, Drop(s, i)))
  {
    if i == 0 {
      assert Drop(s, 0) == s[1..];
    } else {
      var rest, h, x := Drop(s[1..], i - 1), s[0], s[i];
      assert s == [h] + s[1..] && Drop(s, i) == [h] + rest;
      PairsDrop(f, s[1..], i - 1);
      RowDrop(f, h, s[1..], i - 1);
      PairsUnfold(f, h, s[1..]);
      PairsUnfold(f, h, rest);
      RowUnfold(f, x, h, rest);
      assert f(h, x) == f(x, h);
    }
  }

  lemma {:induction false} PairsOfPermutation<T(!new), R>(f: (T, T) -> seq<R>, a: seq<T>, b: seq<T>)
    requires Permutation(a, b) && Symmetric(f)
    ensures Permutation(Pairs(f, a), Pairs(f, b))
  {
    if a == [] {
      SameLength(a, b);
    } else {
      var i := PermutationHead(a, b);
      PairsOfPermutation(f, a[1..], Drop(b, i));
      RowOfPermutation(f, a[0], a[1..], Drop(b, i));
      PairsDrop(f, b, i);
    }
  }

  // ---------- Theil-Sen -------------------------------------------------------------------

  datatype Point = Point(miles: int, price: real)

  predicate PointLeq(a: Point, b: Point) {
    a.miles < b.miles || (a.miles == b.miles && a.price <= b.price)
  }

  /** Points less than a thousand miles apart have no slope. */
  function SlopeOf(a: Point, b: Point): seq<real> {
    var dx := b.miles - a.miles;
    if dx >= 1000 || dx <= -1000 then [(b.price - a.price) / dx as real] else []
  }

  function Slopes(s: seq<Point>): seq<real> {
    Pairs(SlopeOf, s)
  }

  /** At most 200 points, spread evenly over the sorted ones. */
  function Spread(s: seq<Point>): seq<Point> {
    if |s| <= MAX_SLOPE_POINTS then s
    else
      var t := Sort(PointLeq, s);
      seq(MAX_SLOPE_POINTS, i requires 0 <= i < MAX_SLOPE_POINTS => t[SpreadIndex(|t|, i)])
  }

  /** The median of the slopes, when there is one. */
  function TheilSen(points: seq<Point>): Option<real> {
    var slopes := Slopes(Spread(points));
    if slopes == [] then None else Some(Median(slopes))
  }

  method TheilSenSlope(points: seq<Point>) returns (slope: Option<real>)
    ensures slope == TheilSen(points)
  {
    var s := Spread(points);
    var slopes := AllSlopes(s);
    slope := if slopes == [] then None else Some(Median(slopes));
  }

  method AllSlopes(s: seq<Point>) returns (slopes: seq<real>)
    ensures slopes == Slopes(s)
  {
    slopes := [];
    for i := 0 to |s|
      invariant slopes + Slopes(s[i..]) == Slopes(s)
    {
      ghost var before, row := slopes, Row(SlopeOf, s[i], s[i + 1..]);
      for j := i + 1 to |s|
        invariant slopes + Row(SlopeOf, s[i], s[j..]) == before + row
      {
        RowFrom(SlopeOf, s[i], s, j);
        Regroup(slopes, SlopeOf(s[i], s[j]), Row(SlopeOf, s[i], s[j + 1..]));
        var dx := s[j].miles - s[i].miles;
        if dx >= 1000 || dx <= -1000 {
          slopes := slopes + [(s[j].price - s[i].price) / dx as real];
        } else {
          assert slopes + [] == slopes;
        }
      }
      assert slopes + Row(SlopeOf, s[i], s[|s|..]) == slopes;
      PairsFrom(SlopeOf, s, i);
      Regroup(before, row, Slopes(s[i + 1..]));
    }
    assert slopes + Slopes(s[|s|..]) == slopes;
  }

  lemma Regroup<T>(a: seq<T>, b: seq<T>, c: seq<T>)
    ensures a + (b + c) == (a + b) + c
  {
  }

  lemma PairsFrom<T, R>(f: (T, T) -> seq<R>, s: seq<T>, i: nat)
    requires i < |s|
    ensures Pairs(f, s[i..]) == Row(f, s[i], s[i + 1..]) + Pairs(f, s[i + 1..])
  {
    assert s[i..][0] == s[i] && s[i..][1..] == s[i + 1..];
  }

  lemma RowFrom<T, R>(f: (T, T) -> seq<R>, a: T, s: seq<T>, j: nat)
    requires j < |s|
    ensures Row(f, a, s[j..]) == f(a, s[j]) + Row(f, a, s[j + 1..])
  {
    assert s[j..][0] == s[j] && s[j..][1..] == s[j + 1..];
  }

  lemma SlopeIsSymmetric()
    ensures Symmetric(SlopeOf)
  {
    forall a, b ensures SlopeOf(a, b) == SlopeOf(b, a) {
      var dx, dy := b.miles - a.miles, b.price - a.price;
      if dx >= 1000 || dx <= -1000 { Quotient(dy, dx as real); }
    }
  }

  lemma Quotient(x: real, y: real)
    requires y != 0.0
    ensures x / y == (-x) / (-y)
  {
    var r := x / y;
    assert r * y == x;
    assert r * (-y) == -x;
  }

  lemma PointOrder()
    ensures TotalOrder(PointLeq)
  {
  }

  lemma SpreadOfPermutation(a: seq<Point>, b: seq<Point>)
    requires Permutation(a, b)
    ensures Permutation(Spread(a), Spread(b))
  {
    SameLength(a, b);
    if |a| > MAX_SLOPE_POINTS {
      PointOrder();
      SortIsCanonical(PointLeq, a, b);
    }
  }

  /** The slope does not depend on the order of the points. */
  lemma TheilSenOfPermutation(a: seq<Point>, b: seq<Point>)
    requires Permutation(a, b)
    ensures TheilSen(a) == TheilSen(b)
  {
    SpreadOfPermutation(a, b);
    SlopeIsSymmetric();
    var s, t := Slopes(Spread(a)), Slopes(Spread(b));
    PairsOfPermutation(SlopeOf, Spread(a), Spread(b));
    SameLength(s, t);
    if s != [] { MedianOfPermutation(s, t); }
  }
}

/** What the probe's report says about the records: which are the same vehicle,
    which a segment claims, and how each vehicle is dated. */
module ProbeLaws {
  import opened Options
  import opened Sequences
  import opened ProbeListing
  import opened ProbeTally
  import opened ProbeBudget
  import opened ProbeReport

  // ---------- vehicles and claims -------------------------------------------------------------

  /** The same vehicle: the same VIN, or no VIN and the same title, odometer
      and photo. */
  lemma SameVehicleExactly(x: Listing, y: Listing)
    ensures DedupeKey(x) == DedupeKey(y)
       <==> (x.vin != "" && x.vin == y.vin)
            || (x.vin == "" && y.vin == "" && x.title == y.title && x.odometer == y.odometer && x.photo == y.photo)
  {
  }

  predicate Within(lo: Option<int>, x: Option<int>, hi: Option<int>) {
    (lo.Some? || hi.Some? ==> x.Some?) && (lo.Some? ==> lo.value <= x.value) && (hi.Some? ==> x.value <= hi.value)
  }

  /** A segment claims a record in its price and year bounds, of one of its
      makes if it has any, and whose model starts with one of its models. */
  lemma ClaimedExactly(s: Segment, l: Listing)
    ensures Matches(s, l)
       <==> && Within(Some(s.minPrice), l.price, Some(s.maxPrice)) && Within(s.minYear, l.year, s.maxYear)
            && (s.makes == [] || l.make in s.makes)
            && (s.models == [] || (l.model != "" && exists m :: m in s.models && |m| <= |l.model| && l.model[..|m|] == m))
  {
    if m :| m in s.models && |m| <= |l.model| && l.model[..|m|] == m {
      var k :| 0 <= k < |s.models| && s.models[k] == m;
      assert s.models[k] <= l.model;
    }
    if k :| 0 <= k < |s.models| && s.models[k] <= l.model {
      assert s.models[k] in s.models && l.model[..|s.models[k]|] == s.models[k];
    }
  }

  /** A number, or -1 where there is none. */
  function OrMinusOne(x: Option<int>): int {
    if x.None? then -1 else x.value
  }

  /** Two records have the same place in the canonical order exactly when dates,
      texts and numbers agree, a missing number counting as -1. */
  lemma TieExactly(x: Listing, y: Listing)
    ensures CanonicalKey(x) == CanonicalKey(y)
       <==> && x.firstSeen == y.firstSeen && x.posted == y.posted && x.sourceId == y.sourceId && x.title == y.title
            && x.make == y.make && x.model == y.model && x.zip == y.zip && x.photo == y.photo
            && OrMinusOne(x.price) == OrMinusOne(y.price) && OrMinusOne(x.year) == OrMinusOne(y.year)
            && OrMinusOne(x.odometer) == OrMinusOne(y.odometer)
  {
    var a, b := CanonicalKey(x), CanonicalKey(y);
    if a == b {
      TieFixesFields(x, y);
      assert a[5] == b[5] && a[6] == b[6] && a[7] == b[7] && a[10] == b[10] && a[11] == b[11] && a[12] == b[12];
      CodesInjective(x.title, y.title);
      CodesInjective(x.zip, y.zip);
      CodesInjective(x.photo, y.photo);
      assert Or(x.price, -1)[0] == Or(y.price, -1)[0] && Or(x.year, -1)[0] == Or(y.year, -1)[0];
      assert Or(x.odometer, -1)[0] == Or(y.odometer, -1)[0];
    } else if x.firstSeen == y.firstSeen && x.posted == y.posted && x.sourceId == y.sourceId && x.title == y.title
        && x.make == y.make && x.model == y.model && x.zip == y.zip && x.photo == y.photo {
      assert Or(x.price, -1) == [OrMinusOne(x.price)] && Or(y.price, -1) == [OrMinusOne(y.price)];
      assert Or(x.year, -1) == [OrMinusOne(x.year)] && Or(y.year, -1) == [OrMinusOne(y.year)];
      assert Or(x.odometer, -1) == [OrMinusOne(x.odometer)] && Or(y.odometer, -1) == [OrMinusOne(y.odometer)];
    }
  }

  /** Prices and years from zero on make the order of the records invisible. */
  lemma FromZeroOrderNeverShows(records: seq<Listing>)
    requires forall k :: 0 <= k < |records| ==> (records[k].price.Some? ==> 0 <= records[k].price.value)
                                                && (records[k].year.Some? ==> 0 <= records[k].year.value)
    ensures OrderNeverShows(records)
  {
    OrderShowsExactlyWhenAmbiguous(records);
  }

  /** A segment is polled in the fewest pages that hold its records, and in one
      if it has none. */
  lemma NoPageToSpare(records: nat, size: nat)
    requires size > 0
    ensures var n := PageCount(records, size);
            && records <= n * size && (n > 1 ==> (n - 1) * size < records) && (records <= size <==> n == 1)
  {
    PagesCoverEverything(records, size);
    var n, whole := PageCount(records, size), (records + size - 1) / size;
    assert whole * size + (records + size - 1) % size == records + size - 1;
    if n > 1 {
      assert n == whole && (n - 1) * size == n * size - size;
      OneIsLess(n - 1, size);
    } else {
      assert n * size == size;
    }
  }

  lemma OneIsLess(n: nat, size: nat)
    requires n >= 1
    ensures n * size >= size
  {
  }

  // ---------- dates -----------------------------------------------------------------------------

  /** A date in the future of the run, or first seen before it was posted. */
  predicate Misdated(o: Observation, runDay: Option<int>) {
    && o.firstSeen.Some?
    && (|| (runDay.Some? && (o.firstSeen.value > runDay.value || (o.posted.Some? && o.posted.value > runDay.value)))
        || (o.posted.Some? && o.firstSeen.value < o.posted.value))
  }

  /** A date is missing, and what there is is not in the future. */
  predicate Undated(o: Observation, runDay: Option<int>) {
    o.firstSeen.None? || (o.posted.None? && !Misdated(o, runDay))
  }

  predicate SeenFirstOn(o: Observation, runDay: Option<int>, day: int) {
    o.firstSeen == Some(day) && !Misdated(o, runDay)
  }

  predicate SeenAfter(o: Observation, runDay: Option<int>, lag: int) {
    o.firstSeen.Some? && o.posted.Some? && !Misdated(o, runDay) && o.firstSeen.value - o.posted.value == lag
  }

  lemma ClassifiedExactly(o: Observation, runDay: Option<int>, n: int)
    ensures IsInvalid(Classify(o, runDay)) <==> Misdated(o, runDay)
    ensures IsUnknown(Classify(o, runDay)) <==> Undated(o, runDay)
    ensures OnDay(Classify(o, runDay), n) <==> SeenFirstOn(o, runDay, n)
    ensures Classify(o, runDay).Dated? && Classify(o, runDay).lag == n <==> SeenAfter(o, runDay, n)
  {
  }

  /** The observation a vehicle is dated by. */
  function ObservationOf(os: seq<Outcome>, key: VehicleKey): Observation {
    Canonical(Observations(os, key))
  }

  lemma {:induction false} CountOfMapped<T, R>(p: R -> bool, f: T -> R, q: T -> bool, s: seq<T>)
    requires forall x :: x in s ==> p(f(x)) == q(x)
    ensures Count(p, Map(f, s)) == Count(q, s)
  {
    if s != [] {
      CountOfMapped(p, f, q, s[1..]);
      assert Map(f, s)[1..] == Map(f, s[1..]);
    }
  }

  /** Invalid, unknown and daily counts are of vehicles, each by its own
      observation's dates. */
  lemma DatesAreCounted(os: seq<Outcome>, m: Meter, order: seq<VehicleKey>, runDay: Option<int>, day: int)
    ensures var r := ReportOf(os, m, order, runDay);
            var thatDay := Count((key: VehicleKey) => SeenFirstOn(ObservationOf(os, key), runDay, day), order);
            && r.invalid == Count((key: VehicleKey) => Misdated(ObservationOf(os, key), runDay), order)
            && r.unknown == Count((key: VehicleKey) => Undated(ObservationOf(os, key), runDay), order)
            && (day in r.byDay <==> thatDay > 0) && (day in r.byDay ==> r.byDay[day] == thatDay)
  {
    var f := (key: VehicleKey) => DatingOf(os, key, runDay);
    forall key ensures IsInvalid(f(key)) == Misdated(ObservationOf(os, key), runDay)
               ensures IsUnknown(f(key)) == Undated(ObservationOf(os, key), runDay)
               ensures OnDay(f(key), day) == SeenFirstOn(ObservationOf(os, key), runDay, day) {
      ClassifiedExactly(ObservationOf(os, key), runDay, day);
    }
    CountOfMapped(IsInvalid, f, (key: VehicleKey) => Misdated(ObservationOf(os, key), runDay), order);
    CountOfMapped(IsUnknown, f, (key: VehicleKey) => Undated(ObservationOf(os, key), runDay), order);
    CountOfMapped((d: Dating) => OnDay(d, day), f, (key: VehicleKey) => SeenFirstOn(ObservationOf(os, key), runDay, day), order);
    ByDayCounts(Datings(os, order, runDay), day);
  }

  /** A lag is reported as often as a dated vehicle has it. */
  lemma LagsAreCounted(os: seq<Outcome>, order: seq<VehicleKey>, runDay: Option<int>, lag: int)
    ensures multiset(LagsOf(Datings(os, order, runDay)))[lag]
         == Count((key: VehicleKey) => SeenAfter(ObservationOf(os, key), runDay, lag), order)
  {
    var f := (key: VehicleKey) => DatingOf(os, key, runDay);
    forall key ensures (f(key).Dated? && f(key).lag == lag) == SeenAfter(ObservationOf(os, key), runDay, lag) {
      ClassifiedExactly(ObservationOf(os, key), runDay, lag);
    }
    CountOfMapped((d: Dating) => d.Dated? && d.lag == lag, f,
                  (key: VehicleKey) => SeenAfter(ObservationOf(os, key), runDay, lag), order);
    LagsCount(Datings(os, order, runDay), lag);
  }

  lemma SortedEnds(lags: seq<int>, t: seq<int>)
    requires lags != [] && Permutation(t, lags) && Sorted(IntLeq, t)
    ensures t != [] && t[0] in lags && t[|t| - 1] in lags && forall x :: x in lags ==> t[0] <= x <= t[|t| - 1]
  {
    SameLength(t, lags);
    SameMembers(t, lags, t[0]);
    SameMembers(t, lags, t[|t| - 1]);
    forall x | x in lags ensures t[0] <= x <= t[|t| - 1] {
      SameMembers(t, lags, x);
      var i :| 0 <= i < |t| && t[i] == x;
      assert i > 0 ==> IntLeq(t[0], t[i]);
      assert i < |t| - 1 ==> IntLeq(t[i], t[|t| - 1]);
    }
  }

  /** The middle of sorted numbers, or the mean of the two in the middle. */
  function MiddleOf(t: seq<int>): real
    requires t != []
  {
    if |t| % 2 == 1 then t[|t| / 2] as real else (t[|t| / 2 - 1] + t[|t| / 2]) as real / 2.0
  }

  ghost predicate Describes(stats: LagStats, lags: seq<int>, t: seq<int>) {
    && t != [] && Permutation(t, lags) && Sorted(IntLeq, t)
    && stats.count == |lags| && stats.least in lags && stats.greatest in lags
    && (forall x :: x in lags ==> stats.least <= x <= stats.greatest)
    && stats.median == MiddleOf(t)
  }

  lemma StatsDescribe(lags: seq<int>, t: seq<int>)
    requires lags != [] && t == Sort(IntLeq, lags)
    ensures StatsOf(t).Some? && Describes(StatsOf(t).value, lags, t)
  {
    assert TotalOrder(IntLeq);
    SortSorts(IntLeq, lags);
    SameLength(t, lags);
    SortedEnds(lags, t);
  }

  /** The statistics: how many lags, the least, the greatest, and the middle
      one or the mean of the two in the middle; none without a lag. */
  lemma LagStatistics(os: seq<Outcome>, m: Meter, order: seq<VehicleKey>, runDay: Option<int>)
    ensures var lags, stats := LagsOf(Datings(os, order, runDay)), ReportOf(os, m, order, runDay).lags;
            && (stats.None? <==> lags == [])
            && (stats.Some? ==> exists t :: Describes(stats.value, lags, t))
  {
    var lags := LagsOf(Datings(os, order, runDay));
    if lags != [] { StatsDescribe(lags, Sort(IntLeq, lags)); }
  }

  lemma LexOfThree<T>(leq: (T, T) -> bool, a: seq<T>, b: seq<T>)
    requires |a| >= 3 && |b| >= 3 && Lex(leq, a, b)
    ensures a[0] == b[0] || leq(a[0], b[0])
    ensures a[0] == b[0] ==> a[1] == b[1] || leq(a[1], b[1])
    ensures a[0] == b[0] && a[1] == b[1] ==> a[2] == b[2] || leq(a[2], b[2])
  {
    assert a[1..][0] == a[1] && b[1..][0] == b[1];
    if a[0] == b[0] && a[1] == b[1] {
      assert Lex(leq, a[1..], b[1..]);
      assert a[1..][1..] == a[2..] && b[1..][1..] == b[2..];
      assert Lex(leq, a[2..], b[2..]);
    }
  }

  /** A vehicle is dated by its earliest known first day, and among those by
      source id; an unknown day only if there is no other. */
  lemma DatedByTheEarliest(s: seq<Observation>, x: Observation)
    requires x in s
    ensures var o := Canonical(s);
            && o in s && (o.firstSeen.None? ==> x.firstSeen.None?)
            && (o.firstSeen.Some? && x.firstSeen.Some? ==> o.firstSeen.value <= x.firstSeen.value)
            && (o.firstSeen == x.firstSeen ==> Codes(o.sourceId) == Codes(x.sourceId) || ElementLeq(Codes(o.sourceId), Codes(x.sourceId)))
  {
    ObservationOrder();
    CanonicalIsLeast(s);
    var k :| 0 <= k < |s| && s[k] == x;
    var o := Canonical(s);
    assert ObservationLeq(o, s[k]);
    LexOfThree(ElementLeq, ObservationKey(o), ObservationKey(x));
    FirstsCompare(o.firstSeen, x.firstSeen);
  }

  lemma OneCompares(x: int, y: int)
    ensures ElementLeq([x], [y]) <==> x <= y
  {
    assert [x][1..] == [] && [y][1..] == [];
    assert Lex(IntLeq, [x][1..], [y][1..]);
  }

  lemma FirstsCompare(a: Option<int>, b: Option<int>)
    ensures Unknown(a) == Unknown(b) <==> a.Some? == b.Some?
    ensures ElementLeq(Unknown(a), Unknown(b)) <==> (a.None? ==> b.None?)
    ensures a.Some? && b.Some? ==> (ElementLeq(Or(a, DATE_MIN), Or(b, DATE_MIN)) <==> a.value <= b.value)
    ensures a == b ==> Or(a, DATE_MIN) == Or(b, DATE_MIN)
  {
    assert Unknown(a)[0] == (if a.Some? then 0 else 1) && Unknown(b)[0] == (if b.Some? then 0 else 1);
    OneCompares(Unknown(a)[0], Unknown(b)[0]);
    OneCompares(Or(a, DATE_MIN)[0], Or(b, DATE_MIN)[0]);
  }
}

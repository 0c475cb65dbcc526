/** What a valuation means for the peers and sales it is made from: which peers
    count, how much each weighs, which one ends up in the middle, and what the
    label rests on. */
module ValuationLaws {
  import opened Options
  import opened Rounding
  import opened Sequences
  import opened Statistics
  import opened Comparables
  import opened Valuations

  // ---------- which peers count ----------------------------------------------------------------

  /** A peer is usable exactly when it is another car, sound, for sale at a
      plausible price, of the listing's variant if it has one, within two
      years, and seen in the last forty-five days or at an unknown time. */
  lemma UsableExactlyWhen(t: Target, peers: seq<Peer>, c: Peer)
    ensures c in Filter(Usable(t), peers)
       <==> && c in peers && c.id != t.id && (t.vehicleKey == "" || c.vehicleKey != t.vehicleKey)
            && !c.salvageOrWork && !c.auction && 1000.0 <= c.price <= 250000.0
            && (t.variant.None? || c.variant == t.variant)
            && c.year != 0 && (c.year - t.year) in {-2, -1, 0, 1, 2}
            && (c.age.None? || c.age.value <= 45.0)
  {
    FilterMembers(Usable(t), peers, c);
  }

  /** Two rows are the same physical car: the same known vehicle; or two of
      unknown vehicle, alike in year, make, model and price, both with an
      odometer in the same five hundred miles, or both without one and with
      the same title. */
  predicate SameCar(c: Peer, d: Peer) {
    || (c.vehicleKey != "" && c.vehicleKey == d.vehicleKey)
    || (&& c.vehicleKey == "" && d.vehicleKey == ""
        && c.year == d.year && c.make == d.make && c.model == d.model && c.price == d.price
        && (|| (c.miles != 0 && d.miles != 0 && c.miles / 500 == d.miles / 500)
            || (c.miles == 0 && d.miles == 0 && c.title == d.title)))
  }

  /** One row of each car is left, one that none of its copies was seen after. */
  lemma OneRowACar(s: seq<Peer>, c: Peer)
    requires c in s
    ensures exists d :: d in Collapse(s) && SameCar(c, d)
    ensures forall d, e :: d in Collapse(s) && e in Collapse(s) && SameCar(d, e) ==> d == e
    ensures c in Collapse(s) ==> forall d :: d in s && SameCar(c, d) ==> !LaterSeen(d, c)
  {
    KeysAreTheKeys(s, KeyOf(c));
    SurvivorIsLatest(s, KeyOf(c));
    CollapseMembers(s, Survivor(s, KeyOf(c)).value);
    CollapseMembers(s, c);
    assert SameCar(c, Survivor(s, KeyOf(c)).value);
    forall d, e | d in Collapse(s) && e in Collapse(s) && SameCar(d, e) ensures d == e {
      CollapseMembers(s, d);
      CollapseMembers(s, e);
      assert KeyOf(d) == KeyOf(e);
    }
  }

  // ---------- narrowing: three that fit, or all --------------------------------------------------

  lemma NarrowExactly(on: bool, p: Peer -> bool, s: seq<Peer>, c: Peer)
    ensures c in Narrow(on, p, s) <==> c in s && (on && Count(p, s) >= 3 ==> p(c))
  {
    FilterMembers(p, s, c);
    CountIsFilterLength(p, s);
  }

  /** Each stage keeps the peers that fit when at least three do, and otherwise
      all of them: within 150 miles when the place is known, private sellers,
      within a year, then trim, drivetrain and engine when the listing has one. */
  lemma StagesKeepThreeOrAll(t: Target, s: seq<Peer>, c: Peer)
    ensures c in ByPlace(t, s) <==> c in s && (t.located && Count(IsLocal(), s) >= 3 ==> c.dist.Some? && c.dist.value <= 150.0)
    ensures c in BySeller(t, s)
       <==> c in ByPlace(t, s) && (Count(IsPrivate(), ByPlace(t, s)) >= 3 ==> c.seller == PrivateSeller)
    ensures c in ByYear(t, s)
       <==> c in BySeller(t, s) && (Count(NearYear(t.year), BySeller(t, s)) >= 3 ==> (c.year - t.year) in {-1, 0, 1})
    ensures c in ByTrim(t, s)
       <==> c in ByYear(t, s) && (t.trim.Some? && Count(HasTrim(t.trim), ByYear(t, s)) >= 3 ==> c.trim == t.trim)
  {
    NarrowExactly(t.located, IsLocal(), s, c);
    NarrowExactly(true, IsPrivate(), ByPlace(t, s), c);
    NarrowExactly(true, NearYear(t.year), BySeller(t, s), c);
    NarrowExactly(t.trim.Some?, HasTrim(t.trim), ByYear(t, s), c);
  }

  lemma LastStagesKeepThreeOrAll(t: Target, s: seq<Peer>, c: Peer)
    ensures var trimmed := ByTrim(t, s);
            var driven := Narrow(t.drivetrain.Some?, HasDrivetrain(t.drivetrain), trimmed);
            var byDrive := t.drivetrain.Some? && Count(HasDrivetrain(t.drivetrain), trimmed) >= 3;
            var byEngine := t.engine.Some? && Count(HasEngine(t.engine), driven) >= 3;
            && (c in driven <==> (c in trimmed && (byDrive ==> c.drivetrain == t.drivetrain)))
            && (c in Selected(t, s) <==> (c in driven && (byEngine ==> c.engine == t.engine)))
  {
    var driven := Narrow(t.drivetrain.Some?, HasDrivetrain(t.drivetrain), ByTrim(t, s));
    NarrowExactly(t.drivetrain.Some?, HasDrivetrain(t.drivetrain), ByTrim(t, s), c);
    NarrowExactly(t.engine.Some?, HasEngine(t.engine), driven, c);
  }

  // ---------- the middle, the outliers and the slope ---------------------------------------------------

  /** The middle value, or the mean of the two in the middle. */
  lemma MedianOfSorted(s: seq<real>)
    requires s != [] && Sorted(RealLeq, s)
    ensures Median(s) == if |s| % 2 == 1 then s[|s| / 2] else (s[|s| / 2 - 1] + s[|s| / 2]) / 2.0
  {
    RealOrder();
    SortSorts(RealLeq, s);
    SortedIsUnique(RealLeq, Sort(RealLeq, s), s);
  }

  /** Of four or more values, those more than three times 1.4826 times the
      median deviation away from the median are dropped, unless that is zero. */
  lemma OutliersExactly<T>(value: T -> real, pairs: seq<T>, p: T)
    ensures p in MadFilter(value, pairs)
       <==> p in pairs
            && (|pairs| >= 4 ==>
                  var vals := Map(value, pairs);
                  var spread := Median(Deviations(vals, Median(vals)));
                  spread == 0.0 || (value(p) - Median(vals) <= 4.4478 * spread && Median(vals) - value(p) <= 4.4478 * spread))
  {
    if |pairs| >= 4 {
      var vals := Map(value, pairs);
      FilterMembers(Near(value, Median(vals), Cut(Mad(vals))), pairs, p);
    }
  }

  /** An adjustment takes the listing's mileage and six odometers; it is the
      falling slope of their prices, at most thirty cents a mile. */
  lemma SlopeExactly(t: Target, chosen: seq<Peer>)
    ensures var points := Map(ToPoint(), Filter(Metered(), chosen));
            SlopeFor(t, chosen)
            == if t.miles == 0 || |points| < 6 || TheilSen(points).None? || TheilSen(points).value >= 0.0 then None
               else Some(if TheilSen(points).value < -0.30 then -0.30 else TheilSen(points).value)
    ensures forall c :: c in Filter(Metered(), chosen) <==> c in chosen && c.miles != 0
  {
    forall c ensures c in Filter(Metered(), chosen) <==> c in chosen && c.miles != 0 { FilterMembers(Metered(), chosen, c); }
  }

  // ---------- what a comparable weighs --------------------------------------------------------------

  /** A comparable with its price and weight, in some valuation of the listing. */
  ghost predicate Weighed(t: Target, p: Pair) {
    exists slope, chosen :: p in PairsFor(t, slope, chosen)
  }

  function Priced(slope: Option<real>, miles: int, price: real, odometer: int): real {
    if slope.None? then price else price + slope.value * (miles - odometer) as real
  }

  lemma AdjustedIsPriced(t: Target, slope: Option<real>, c: Peer)
    requires slope.None? || c.miles != 0
    ensures Adjusted(t, slope, c) == Priced(slope, t.miles, c.price, c.miles)
  {
  }

  /** The price is what is asked, plus the slope for every mile the listing has
      more; without an odometer there is no such price. */
  lemma PairsArePriced(t: Target, slope: Option<real>, chosen: seq<Peer>, p: Pair)
    requires p in PairsFor(t, slope, chosen)
    ensures p.peer in chosen && (slope.None? || p.peer.miles != 0)
    ensures p.value == Priced(slope, t.miles, p.peer.price, p.peer.miles)
  {
    var fit := Filter(Adjustable(slope), chosen);
    var k :| 0 <= k < |fit| && ToPair(t, slope)(fit[k]) == p;
    FilterMembers(Adjustable(slope), chosen, fit[k]);
    AdjustedIsPriced(t, slope, p.peer);
  }

  /** Every comparable that can be priced is. */
  lemma EveryFitPeerIsPriced(t: Target, slope: Option<real>, chosen: seq<Peer>, c: Peer)
    requires c in chosen && (slope.None? || c.miles != 0)
    ensures exists p :: p in PairsFor(t, slope, chosen) && p.peer == c
  {
    FilterMembers(Adjustable(slope), chosen, c);
    var fit := Filter(Adjustable(slope), chosen);
    var k :| 0 <= k < |fit| && fit[k] == c;
    assert PairsFor(t, slope, chosen)[k].peer == c;
  }

  /** A weight of one with the shares taken, one after the other. */
  function Taken(s: seq<Share>): real {
    if s == [] then 1.0 else Take(Taken(s[..|s| - 1]), s[|s| - 1])
  }

  lemma TakeTwice(x: real, a: Share, b: Share)
    ensures Take(Take(x, a), b) == Take(Take(x, b), a)
  {
  }

  lemma OneAfterTheOther(w: real, v: real, r: real, x: real, a: Share, b: Share)
    requires w == Take(r, b) && v == Take(x, b) && r == Take(x, a)
    ensures w == Take(v, a)
  {
    TakeTwice(x, a, b);
  }

  /** Any of the shares may be taken last. */
  lemma {:induction false} TakenLast(s: seq<Share>, i: nat)
    requires i < |s|
    ensures Taken(s) == Take(Taken(s[i := Full]), s[i])
  {
    var full, n := s[i := Full], |s| - 1;
    if i == n {
      assert full[..n] == s[..n];
    } else {
      var rest := s[..n];
      var x := Taken(rest[i := Full]);
      TakenLast(rest, i);
      assert full[..n] == rest[i := Full] && rest[i] == s[i];
      OneAfterTheOther(Taken(s), Taken(full), Taken(rest), x, s[i], s[n]);
    }
  }

  function SharesOf(t: Target, c: Peer): (s: seq<Share>)
    ensures |s| == 5
  {
    [YearShare(t, c), MileShare(t, c), PlaceShare(t, c), TrimShare(t, c), AgeShare(c.age)]
  }

  lemma FiveTaken(a: Share, b: Share, c: Share, d: Share, e: Share)
    ensures Taken([a, b, c, d, e]) == Take(Take(Take(Take(Take(1.0, a), b), c), d), e)
  {
    var s := [a, b, c, d, e];
    assert s[..4] == [a, b, c, d] && [a, b, c, d][..3] == [a, b, c] && [a, b, c][..2] == [a, b];
    assert [a, b][..1] == [a] && [a][..0] == [];
    assert Taken([a]) == Take(1.0, a);
    assert Taken([a, b]) == Take(Taken([a]), b);
    assert Taken([a, b, c]) == Take(Taken([a, b]), c);
    assert Taken([a, b, c, d]) == Take(Taken([a, b, c]), d);
  }

  lemma PairIsTaken(value: real, t: Target, c: Peer)
    ensures MakePair(value, t, c).weight == Taken(SharesOf(t, c))
  {
    FiveTaken(YearShare(t, c), MileShare(t, c), PlaceShare(t, c), TrimShare(t, c), AgeShare(c.age));
  }

  lemma WeightIsTaken(t: Target, p: Pair)
    requires Weighed(t, p)
    ensures p.weight == Taken(SharesOf(t, p.peer))
  {
    var slope, chosen :| p in PairsFor(t, slope, chosen);
    var fit := Filter(Adjustable(slope), chosen);
    var k :| 0 <= k < |fit| && ToPair(t, slope)(fit[k]) == p;
    PairIsTaken(p.value, t, p.peer);
  }

  lemma TakeOut(w: real, v: real, s: seq<Share>, full: seq<Share>, i: nat)
    requires i < |s| && full == s[i := Full] && w == Taken(s) && v == Taken(full)
    ensures w == Take(v, s[i])
  {
    TakenLast(s, i);
  }

  /** Two comparables that are alike but for one share, full in the second. */
  lemma OneShareApart(t: Target, p: Pair, q: Pair, i: nat, s: Share)
    requires Weighed(t, p) && Weighed(t, q) && i < 5 && s == SharesOf(t, p.peer)[i]
    requires SharesOf(t, q.peer) == SharesOf(t, p.peer)[i := Full]
    ensures p.weight == Take(q.weight, s)
  {
    WeightIsTaken(t, p);
    WeightIsTaken(t, q);
    TakeOut(p.weight, q.weight, SharesOf(t, p.peer), SharesOf(t, q.peer), i);
  }

  lemma OnlyAge(t: Target, c: Peer)
    ensures SharesOf(t, c.(age := Some(0.0))) == SharesOf(t, c)[4 := Full]
  {
  }

  lemma OnlyYear(t: Target, c: Peer)
    ensures SharesOf(t, c.(year := t.year)) == SharesOf(t, c)[0 := Full]
  {
  }

  lemma OnlyMile(t: Target, c: Peer)
    requires t.miles != 0
    ensures SharesOf(t, c.(miles := t.miles)) == SharesOf(t, c)[1 := Full]
  {
  }

  lemma OnlyPlace(t: Target, c: Peer)
    requires t.located
    ensures SharesOf(t, c.(dist := Some(0.0))) == SharesOf(t, c)[2 := Full]
  {
  }

  lemma OnlyTrim(t: Target, c: Peer)
    requires t.trim.Some?
    ensures SharesOf(t, c.(trim := t.trim)) == SharesOf(t, c)[3 := Full]
  {
  }

  /** A peer like the listing in every way, seen this week. */
  function Twin(t: Target, c: Peer): Peer {
    c.(age := Some(0.0), year := t.year, miles := t.miles, dist := Some(0.0), trim := t.trim)
  }

  lemma {:induction false} TakenIsPositive(s: seq<Share>)
    requires Nothing !in s
    ensures 0.0 < Taken(s) <= 1.0
  {
    if s != [] { TakenIsPositive(s[..|s| - 1]); }
  }

  /** A peer seen in the last forty-five days, or who knows when, weighs
      something, and none weighs more than one. */
  lemma WeightIsPositive(t: Target, p: Pair)
    requires Weighed(t, p) && (p.peer.age.Some? ==> p.peer.age.value <= 45.0)
    ensures 0.0 < p.weight <= 1.0
  {
    WeightIsTaken(t, p);
    TakenIsPositive(SharesOf(t, p.peer));
  }

  lemma TwinWeighsOne(t: Target, p: Pair)
    requires Weighed(t, p) && p.peer == Twin(t, p.peer)
    ensures p.weight == 1.0
  {
    WeightIsTaken(t, p);
    FiveTaken(Full, Full, Full, Full, Full);
  }

  /** Seen in the last week, the last three, the last forty-five days, earlier,
      or at an unknown time: 10, 6, 3, 0 and 5 tenths of the same weight. */
  lemma WeightByAge(t: Target, p: Pair, q: Pair)
    requires Weighed(t, p) && Weighed(t, q) && q.peer == p.peer.(age := Some(0.0))
    ensures q.weight > 0.0
    ensures p.peer.age.None? ==> p.weight == 0.5 * q.weight
    ensures p.peer.age.Some? ==>
              var days := p.peer.age.value;
              && (days <= 7.0 ==> p.weight == q.weight)
              && (7.0 < days <= 21.0 ==> p.weight == 0.6 * q.weight)
              && (21.0 < days <= 45.0 ==> p.weight == 0.3 * q.weight)
              && (45.0 < days ==> p.weight == 0.0)
  {
    OnlyAge(t, p.peer);
    OneShareApart(t, p, q, 4, AgeShare(p.peer.age));
    WeightIsPositive(t, q);
  }

  /** The staler of two peers that differ in age only weighs strictly less, if
      a week, three weeks or forty-five days lie between them. */
  lemma StalerWeighsLess(t: Target, p: Pair, q: Pair, r: Pair)
    requires Weighed(t, p) && Weighed(t, q) && Weighed(t, r) && r.peer == p.peer.(age := Some(0.0))
    requires p.peer.age.Some? && q.peer == p.peer.(age := q.peer.age) && q.peer.age.Some?
    requires var sooner, later := p.peer.age.value, q.peer.age.value;
             (sooner <= 7.0 < later) || (sooner <= 21.0 < later) || (sooner <= 45.0 < later)
    ensures q.weight < p.weight
  {
    WeightByAge(t, p, r);
    WeightByAge(t, q, r);
  }

  /** One model year off leaves nine tenths of the weight, two three quarters. */
  lemma WeightByYear(t: Target, p: Pair, q: Pair)
    requires Weighed(t, p) && Weighed(t, q) && q.peer == p.peer.(year := t.year)
    ensures p.peer.year == t.year ==> p.weight == q.weight
    ensures p.peer.year == t.year + 1 || p.peer.year == t.year - 1 ==> p.weight == 0.9 * q.weight
    ensures p.peer.year > t.year + 1 || p.peer.year < t.year - 1 ==> p.weight == 0.75 * q.weight
  {
    OnlyYear(t, p.peer);
    OneShareApart(t, p, q, 0, YearShare(t, p.peer));
  }

  lemma MilesApart(t: Target, c: Peer)
    requires t.miles != 0
    ensures c.miles == 0 ==> MileShare(t, c) == Of85
    ensures c.miles != 0 ==>
              var apart := if c.miles > t.miles then c.miles - t.miles else t.miles - c.miles;
              MileShare(t, c) == if apart <= 15000 then Full else if apart <= 40000 then Of90 else Of75
  {
  }

  lemma MilesTaken(t: Target, p: Pair, q: Pair)
    requires Weighed(t, p) && Weighed(t, q) && q.peer == p.peer.(miles := t.miles) && t.miles != 0
    ensures p.weight == Take(q.weight, MileShare(t, p.peer))
  {
    OnlyMile(t, p.peer);
    OneShareApart(t, p, q, 1, MileShare(t, p.peer));
  }

  /** More than 15,000 miles apart leaves nine tenths, more than 40,000 three
      quarters, and no odometer 85 hundredths, if the listing has one. */
  lemma WeightByMiles(t: Target, p: Pair, q: Pair)
    requires Weighed(t, p) && Weighed(t, q) && q.peer == p.peer.(miles := t.miles) && t.miles != 0
    ensures p.peer.miles == 0 ==> p.weight == 0.85 * q.weight
    ensures p.peer.miles != 0 ==>
              var apart := if p.peer.miles > t.miles then p.peer.miles - t.miles else t.miles - p.peer.miles;
              && (apart <= 15000 ==> p.weight == q.weight)
              && (15000 < apart <= 40000 ==> p.weight == 0.9 * q.weight)
              && (40000 < apart ==> p.weight == 0.75 * q.weight)
  {
    MilesTaken(t, p, q);
    MilesApart(t, p.peer);
  }

  /** More than fifty miles away leaves 95 hundredths, more than 150 eight
      tenths, and an unknown place nine tenths, if the listing's is known. */
  lemma WeightByPlace(t: Target, p: Pair, q: Pair)
    requires Weighed(t, p) && Weighed(t, q) && q.peer == p.peer.(dist := Some(0.0)) && t.located
    ensures p.peer.dist.None? ==> p.weight == 0.9 * q.weight
    ensures p.peer.dist.Some? ==>
              var away := p.peer.dist.value;
              && (away <= 50.0 ==> p.weight == q.weight)
              && (50.0 < away <= 150.0 ==> p.weight == 0.95 * q.weight)
              && (150.0 < away ==> p.weight == 0.8 * q.weight)
  {
    OnlyPlace(t, p.peer);
    OneShareApart(t, p, q, 2, PlaceShare(t, p.peer));
  }

  /** Another trim leaves 85 hundredths and an unknown one nine tenths, if the
      listing's is known. */
  lemma WeightByTrim(t: Target, p: Pair, q: Pair)
    requires Weighed(t, p) && Weighed(t, q) && q.peer == p.peer.(trim := t.trim) && t.trim.Some?
    ensures p.peer.trim == t.trim ==> p.weight == q.weight
    ensures p.peer.trim.None? ==> p.weight == 0.9 * q.weight
    ensures p.peer.trim.Some? && p.peer.trim != t.trim ==> p.weight == 0.85 * q.weight
  {
    OnlyTrim(t, p.peer);
    OneShareApart(t, p, q, 3, TrimShare(t, p.peer));
  }

  /** What the listing does not say makes no difference between peers. */
  lemma UnknownsMakeNoDifference(t: Target, p: Pair, q: Pair)
    requires Weighed(t, p) && Weighed(t, q)
    requires || (t.miles == 0 && q.peer == p.peer.(miles := q.peer.miles))
             || (!t.located && q.peer == p.peer.(dist := q.peer.dist))
             || (t.trim.None? && q.peer == p.peer.(trim := q.peer.trim))
    ensures p.weight == q.weight
  {
    assert SharesOf(t, p.peer) == SharesOf(t, q.peer);
    WeightIsTaken(t, p);
    WeightIsTaken(t, q);
  }

  // ---------- a majority of the weight is the middle ----------------------------------------------------

  lemma {:induction false} WeightApart(p: Weighted -> bool, s: seq<Weighted>, x: Weighted)
    requires x in s && !p(x) && Positive(s)
    ensures Weight(p, s) + x.weight <= Total(s)
  {
    WeightNonNegative(p, s[1..]);
    if x == s[0] {
    } else {
      WeightApart(p, s[1..], x);
    }
  }

  lemma {:induction false} WeightWith(p: Weighted -> bool, s: seq<Weighted>, x: Weighted)
    requires x in s && p(x) && Positive(s)
    ensures Weight(p, s) >= x.weight
  {
    WeightNonNegative(p, s[1..]);
    if x == s[0] {
    } else {
      WeightWith(p, s[1..], x);
    }
  }

  /** A value with more than half of the weight is the middle one. */
  lemma MajorityIsTheMiddle(s: seq<Weighted>, x: Weighted)
    requires x in s && Positive(s) && 2.0 * x.weight > Total(s)
    ensures Quantile(s, 0.5) == x.value
  {
    QuantileSplitsWeight(s, 0.5);
    var v := Quantile(s, 0.5);
    if v < x.value { WeightApart(UpTo(v), s, x); }
    if v > x.value { WeightWith(Below(v), s, x); }
  }

  /** A comparable with more than half of the weight is the reported middle. */
  lemma MajorityIsReported(t: Target, peers: seq<Peer>, sold: Sold, p: Pair)
    requires |sold.confirmed| < 3 && |KeptPairs(t, Selected(t, Candidates(t, peers)))| >= 3
    requires p in KeptPairs(t, Selected(t, Candidates(t, peers)))
    requires 2.0 * p.weight > Total(Map(PairWeighted(), KeptPairs(t, Selected(t, Candidates(t, peers)))))
    ensures var v := ValueFor(t, Candidates(t, peers), sold);
            v.evidence == Asking && v.range.Some? && v.range.value.mid == RoundCents(p.value)
  {
    var chosen := Selected(t, Candidates(t, peers));
    var kept := KeptPairs(t, chosen);
    var s := Map(PairWeighted(), kept);
    forall c | c in chosen ensures IsUsable(t, c) { ComparablesAreUsable(t, peers, c, c); }
    PairsArePositive(t, SlopeFor(t, chosen), chosen);
    var k :| 0 <= k < |kept| && kept[k] == p;
    assert s[k] == Weighted(p.value, p.weight) && s[k] in s;
    MajorityIsTheMiddle(s, s[k]);
  }

  // ---------- what decides, and how sure it is ----------------------------------------------------------------

  /** Three completed sales decide, else three comparables left after outlier
      rejection, else three historical records, else nothing. */
  lemma EvidenceInOrder(t: Target, notes: Notes, slope: Option<real>, pairs: seq<Pair>, sold: Sold)
    ensures Appraise(t, notes, slope, pairs, sold).evidence
         == if |sold.confirmed| >= 3 then ConfirmedSales else if |pairs| >= 3 then Asking
            else if |sold.historical| >= 3 then Historical else Insufficient
  {
  }

  /** What is reported beside the range. */
  lemma CountsAndSlope(t: Target, notes: Notes, slope: Option<real>, pairs: seq<Pair>, sold: Sold)
    ensures var v := Appraise(t, notes, slope, pairs, sold);
            && (v.evidence == Asking || v.evidence == Insufficient ==> v.n == |pairs|)
            && v.slope == (if v.evidence == ConfirmedSales || v.evidence == Asking then slope else None)
            && v.geography == notes.geography
  {
  }

  lemma DealersAreOfAskingPrices(t: Target, notes: Notes, slope: Option<real>, pairs: seq<Pair>, sold: Sold)
    ensures var v := Appraise(t, notes, slope, pairs, sold);
            && v.dealerShare == (if v.evidence == Asking then DealerShare(pairs) else 0.0)
            && (v.confidence == NoConfidence <==> v.evidence == Insufficient)
  {
    if |sold.confirmed| < 3 && |pairs| >= 3 {
      var r := AskingRange(pairs).value;
      assert FinishConfidence(Asking, r, AskingPoints(t, notes, slope, pairs, r)) != NoConfidence;
    }
  }

  /** The share of dealers, and of sellers who do not say, to the cent. */
  lemma DealerShareIsClose(pairs: seq<Pair>)
    ensures pairs == [] ==> DealerShare(pairs) == 0.0
    ensures pairs != [] ==>
              var share := Count((p: Pair) => p.peer.seller != PrivateSeller, pairs) as real / |pairs| as real;
              -0.005 <= DealerShare(pairs) - share <= 0.005
  {
    var test := (p: Pair) => p.peer.seller != PrivateSeller;
    CountImplies(test, NotPrivate(), pairs);
    CountImplies(NotPrivate(), test, pairs);
    if pairs != [] { RoundCentsIsClose(Count(NotPrivate(), pairs) as real / |pairs| as real); }
  }

  /** The other trims are most of the comparables, and trim was not matched. */
  lemma OtherTrimsExactly(t: Target, notes: Notes, pairs: seq<Pair>)
    ensures MostlyOtherTrims(t, notes, pairs)
       <==> t.trim.Some? && !notes.trimMatched
            && 2 * Count((p: Pair) => p.peer.trim.Some? && p.peer.trim != t.trim, pairs) > |pairs|
  {
    var test := (p: Pair) => p.peer.trim.Some? && p.peer.trim != t.trim;
    CountImplies(test, OtherTrim(t), pairs);
    CountImplies(OtherTrim(t), test, pairs);
  }

  /** What is said about place, sellers, years and trim. */
  lemma NotesExactly(t: Target, s: seq<Peer>)
    ensures var notes := NotesOf(t, s);
            var near := Count((c: Peer) => c.dist.Some? && c.dist.value <= 150.0, s);
            var private := Count((c: Peer) => c.seller == PrivateSeller, ByPlace(t, s));
            && notes.geography == (if !t.located || (near < 3 && s == []) then Unknown else if near >= 3 then Regional else National)
            && (notes.dealerFallback <==> private < 3 && private < |ByPlace(t, s)|)
            && (notes.wideYears <==> Count((c: Peer) => -1 <= c.year - t.year <= 1, BySeller(t, s)) < 3)
            && (notes.trimMatched <==> t.trim.Some? && Count((c: Peer) => c.trim == t.trim, ByYear(t, s)) >= 3)
  {
    SameCount((c: Peer) => c.dist.Some? && c.dist.value <= 150.0, IsLocal(), s);
    SameCount((c: Peer) => c.seller == PrivateSeller, IsPrivate(), ByPlace(t, s));
    SameCount((c: Peer) => -1 <= c.year - t.year <= 1, NearYear(t.year), BySeller(t, s));
    SameCount((c: Peer) => c.trim == t.trim, HasTrim(t.trim), ByYear(t, s));
  }

  lemma SameCount(p: Peer -> bool, q: Peer -> bool, s: seq<Peer>)
    requires forall c :: p(c) == q(c)
    ensures Count(p, s) == Count(q, s) == |Filter(q, s)|
  {
    CountImplies(p, q, s);
    CountImplies(q, p, s);
    CountIsFilterLength(q, s);
  }

  /** Three per cent of the middle wider on each side. */
  function Wider(low: real, mid: real, high: real): Range {
    Range(RoundCents(low - 0.03 * mid), RoundCents(mid), RoundCents(high + 0.03 * mid))
  }

  lemma AskedIsWidened(evidence: Evidence, r: Range)
    ensures evidence == Asking || evidence == Historical ==> FinishRange(evidence, r) == Wider(r.low, r.mid, r.high)
    ensures evidence == ConfirmedSales ==>
              FinishRange(evidence, r) == Range(RoundCents(r.low), RoundCents(r.mid), RoundCents(r.high))
  {
  }

  /** Asking prices are reported by their weighted quartiles, three per cent of
      the middle wider on each side, to the cent. */
  lemma AskingIsReportedByQuartiles(t: Target, candidates: seq<Peer>, sold: Sold)
    requires |sold.confirmed| < 3 && |KeptPairs(t, Selected(t, candidates))| >= 3
    ensures var kept := Map(PairWeighted(), KeptPairs(t, Selected(t, candidates)));
            ValueFor(t, candidates, sold).range
            == Some(Wider(Quantile(kept, 0.25), Quantile(kept, 0.5), Quantile(kept, 0.75)))
  {
    AskedIsWidened(Asking, RangeOf(Map(PairWeighted(), KeptPairs(t, Selected(t, candidates)))));
  }

  /** Completed sales by their own quartiles, and historical records wider too. */
  lemma SalesAreReportedByQuartiles(t: Target, notes: Notes, slope: Option<real>, pairs: seq<Pair>, sold: Sold)
    ensures |sold.confirmed| >= 3 ==>
              var v, kept := Appraise(t, notes, slope, pairs, sold), Map(PriceWeighted(), KeptSales(sold.confirmed));
              v.n == |kept| && v.range == Some(Range(RoundCents(Quantile(kept, 0.25)), RoundCents(Quantile(kept, 0.5)),
                                                     RoundCents(Quantile(kept, 0.75))))
    ensures |sold.confirmed| < 3 && |pairs| < 3 && |sold.historical| >= 3 ==>
              var v, kept := Appraise(t, notes, slope, pairs, sold), Map(PriceWeighted(), KeptSales(sold.historical));
              v.n == |kept| && v.range == Some(Wider(Quantile(kept, 0.25), Quantile(kept, 0.5), Quantile(kept, 0.75)))
  {
    if |sold.confirmed| >= 3 {
      AskedIsWidened(ConfirmedSales, SalesRange(sold.confirmed));
    } else if |pairs| < 3 && |sold.historical| >= 3 {
      AskedIsWidened(Historical, SalesRange(sold.historical));
    }
  }

  /** Every sale counts the same. */
  lemma SalesCountAlike(x: SalePrice)
    ensures PriceWeighted()(x) == Weighted(x, 1.0)
  {
  }

  /** A tight spread counts for the label, a wide one against it. */
  lemma SpreadCounts(r: Range)
    ensures r.mid > 0.0 ==>
              SpreadPoints(r) == if r.high - r.low <= 0.15 * r.mid then 1 else if r.high - r.low > 0.35 * r.mid then -1 else 0
    ensures r.mid == 0.0 ==> SpreadPoints(r) == -1
    ensures r.mid < 0.0 && r.low <= r.high ==> SpreadPoints(r) == 1
  {
    if r.mid != 0.0 {
      var width, spread := r.high - r.low, (r.high - r.low) / r.mid;
      assert spread * r.mid == width;
      SpreadAgainst(width, r.mid, spread, 0.15);
      SpreadAgainst(width, r.mid, spread, 0.35);
    }
  }

  lemma SpreadAgainst(width: real, mid: real, spread: real, limit: real)
    requires mid != 0.0 && spread * mid == width && limit > 0.0
    ensures mid > 0.0 ==> (spread <= limit <==> width <= limit * mid)
    ensures mid < 0.0 && width >= 0.0 ==> spread <= 0.0
  {
  }

  /** The listing is more than 40,000 miles from every one of at least three
      odometers, on the same side; from above only, if nothing is adjusted. */
  lemma GapExactly(t: Target, slope: Option<real>, pairs: seq<Pair>)
    ensures Gap(t, slope, pairs)
       <==> && t.miles != 0 && Count((p: Pair) => p.peer.miles != 0, pairs) >= 3
            && (|| (forall p :: p in pairs && p.peer.miles != 0 ==> t.miles > p.peer.miles + 40000)
                || (slope.Some? && forall p :: p in pairs && p.peer.miles != 0 ==> p.peer.miles > t.miles + 40000))
  {
    var test := (p: Pair) => p.peer.miles != 0;
    CountIsFilterLength(HasMiles(), pairs);
    CountImplies(test, HasMiles(), pairs);
    CountImplies(HasMiles(), test, pairs);
    forall p ensures p in Filter(HasMiles(), pairs) <==> p in pairs && p.peer.miles != 0 { FilterMembers(HasMiles(), pairs, p); }
  }

  /** The middle of the sales and that of asking prices differ by more than a
      quarter of the former. */
  lemma ConflictExactly(asking: Option<Range>, mid: real)
    requires mid > 0.0
    ensures Conflict(asking, mid) <==> asking.Some? && (asking.value.mid > 1.25 * mid || asking.value.mid < 0.75 * mid)
  {
    if asking.Some? {
      var apart, share := Abs(asking.value.mid - mid), Abs(asking.value.mid - mid) / mid;
      assert share * mid == apart;
      SpreadAgainst(apart, mid, share, 0.25);
    }
  }

  /** Medium takes two points, and only completed sales with four are high. */
  lemma LabelsByPoints(t: Target, notes: Notes, slope: Option<real>, pairs: seq<Pair>, sold: Sold)
    ensures var v := Appraise(t, notes, slope, pairs, sold);
            && (v.evidence == ConfirmedSales ==>
                  var p := SalesPoints(notes, v.n, SalesRange(sold.confirmed), AskingRange(pairs));
                  v.confidence == if p >= 4 then High else if p >= 2 then Medium else Low)
            && (v.evidence == Asking ==>
                  var p := AskingPoints(t, notes, slope, pairs, AskingRange(pairs).value);
                  v.confidence == if p >= 2 then Medium else Low)
            && (v.evidence == Historical ==> v.confidence == Low)
  {
    if |sold.confirmed| < MIN_COMPS && AskingRange(pairs).Some? {
      AskingIsNeverHigh(t, notes, slope, pairs, AskingRange(pairs).value);
    }
  }
}

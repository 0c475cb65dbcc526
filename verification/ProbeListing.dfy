/** One fixture record of the probe: what decides its place in the canonical
    order, which vehicle it is, and whether a segment claims it. */
module ProbeListing {
  import opened Options
  import opened Sequences

  /** Title, make and model are normalised; dates are day numbers, None when
      missing or malformed; `inRadius` is the outcome of the distance test. */
  datatype Listing = Listing(
    sourceId: string, firstSeen: Option<int>, posted: Option<int>, title: string,
    price: Option<int>, year: Option<int>, make: string, model: string,
    odometer: Option<int>, zip: string, photo: string, vin: string, inRadius: bool)

  /** VIN when there is one, else title, odometer and photo. */
  datatype VehicleKey = ByVin(vin: string) | ByLook(title: string, odometer: Option<int>, photo: string)

  function DedupeKey(l: Listing): VehicleKey {
    if l.vin != "" then ByVin(l.vin) else ByLook(l.title, l.odometer, l.photo)
  }

  datatype Segment = Segment(
    id: string, minPrice: int, maxPrice: int, minYear: Option<int>, maxYear: Option<int>,
    makes: seq<string>, models: seq<string>)

  predicate Matches(s: Segment, l: Listing) {
    && l.price.Some? && s.minPrice <= l.price.value <= s.maxPrice
    && (s.minYear.Some? ==> l.year.Some? && l.year.value >= s.minYear.value)
    && (s.maxYear.Some? ==> l.year.Some? && l.year.value <= s.maxYear.value)
    && (s.models != [] ==> l.model != "" && exists k | 0 <= k < |s.models| :: s.models[k] <= l.model)
    && (s.makes != [] ==> l.make in s.makes)
  }

  // ---------- the canonical key ------------------------------------------------------

  const DATE_MIN := 1

  function Codes(s: string): (c: seq<int>)
    ensures |c| == |s| && forall k :: 0 <= k < |s| ==> c[k] == s[k] as int
  {
    seq(|s|, k requires 0 <= k < |s| => s[k] as int)
  }

  function Unknown(d: Option<int>): seq<int> {
    [if d.Some? then 0 else 1]
  }

  function Or(d: Option<int>, missing: int): seq<int> {
    [if d.Some? then d.value else missing]
  }

  function CanonicalKey(l: Listing): seq<seq<int>> {
    [Unknown(l.firstSeen), Or(l.firstSeen, DATE_MIN), Codes(l.sourceId),
     Unknown(l.posted), Or(l.posted, DATE_MIN), Codes(l.title), Or(l.price, -1), Or(l.year, -1),
     Codes(l.make), Codes(l.model), Or(l.odometer, -1), Codes(l.zip), Codes(l.photo)]
  }

  predicate IntLeq(a: int, b: int) {
    a <= b
  }

  predicate ElementLeq(a: seq<int>, b: seq<int>) {
    Lex(IntLeq, a, b)
  }

  /** Python's order on such tuples. */
  predicate TupleLeq(a: seq<seq<int>>, b: seq<seq<int>>) {
    Lex(ElementLeq, a, b)
  }

  predicate CanonicalLeq(a: Listing, b: Listing) {
    TupleLeq(CanonicalKey(a), CanonicalKey(b))
  }

  lemma TupleOrder()
    ensures TotalOrder(TupleLeq)
    ensures Preorder(CanonicalLeq)
  {
    assert TotalOrder(IntLeq);
    LexIsTotalOrder(IntLeq);
    var elements := (a: seq<int>, b: seq<int>) => Lex(IntLeq, a, b);
    assert TotalOrder(ElementLeq) by {
      forall a, b, c
        ensures ElementLeq(a, b) || ElementLeq(b, a)
        ensures ElementLeq(a, b) && ElementLeq(b, c) ==> ElementLeq(a, c)
        ensures ElementLeq(a, b) && ElementLeq(b, a) ==> a == b
      {
        assert elements(a, b) || elements(b, a);
        assert elements(a, b) && elements(b, c) ==> elements(a, c);
      }
    }
    LexIsTotalOrder(ElementLeq);
    var tuples := (a: seq<seq<int>>, b: seq<seq<int>>) => Lex(ElementLeq, a, b);
    forall a, b, c
      ensures TupleLeq(a, b) || TupleLeq(b, a)
      ensures TupleLeq(a, b) && TupleLeq(b, c) ==> TupleLeq(a, c)
      ensures TupleLeq(a, b) && TupleLeq(b, a) ==> a == b
    {
      assert tuples(a, b) || tuples(b, a);
      assert tuples(a, b) && tuples(b, c) ==> tuples(a, c);
    }
  }

  // ---------- what a tie on the key leaves open -----------------------------------------

  lemma CodesInjective(a: string, b: string)
    requires Codes(a) == Codes(b)
    ensures a == b
  {
    assert |a| == |b|;
    forall k | 0 <= k < |a| ensures a[k] == b[k] {
      assert Codes(a)[k] == Codes(b)[k];
    }
  }

  lemma TieFixesFields(x: Listing, y: Listing)
    requires CanonicalKey(x) == CanonicalKey(y)
    ensures x.firstSeen == y.firstSeen && x.posted == y.posted && x.sourceId == y.sourceId
    ensures x.make == y.make && x.model == y.model
    ensures Or(x.price, -1) == Or(y.price, -1) && Or(x.year, -1) == Or(y.year, -1)
  {
    var a, b := CanonicalKey(x), CanonicalKey(y);
    assert a[0] == b[0] && a[1] == b[1] && a[2] == b[2] && a[3] == b[3] && a[4] == b[4];
    assert a[6] == b[6] && a[7] == b[7] && a[8] == b[8] && a[9] == b[9];
    assert Unknown(x.firstSeen)[0] == Unknown(y.firstSeen)[0] && Or(x.firstSeen, DATE_MIN)[0] == Or(y.firstSeen, DATE_MIN)[0];
    assert Unknown(x.posted)[0] == Unknown(y.posted)[0] && Or(x.posted, DATE_MIN)[0] == Or(y.posted, DATE_MIN)[0];
    CodesInjective(x.sourceId, y.sourceId);
    CodesInjective(x.make, y.make);
    CodesInjective(x.model, y.model);
  }

  /** A price or year of -1 is indistinguishable, on the key, from a missing
      one. This is all that a tie can hide from a segment. */
  predicate SamePresence(x: Listing, y: Listing) {
    x.price.Some? == y.price.Some? && (x.price.Some? ==> x.year.Some? == y.year.Some?)
  }

  /** Records that tie are interchangeable for every segment exactly when
      they agree on which of price and year they have. */
  lemma TieInterchangeable(x: Listing, y: Listing)
    requires CanonicalKey(x) == CanonicalKey(y)
    ensures (forall s :: Matches(s, x) == Matches(s, y)) <==> SamePresence(x, y)
  {
    TieFixesFields(x, y);
    assert Or(x.price, -1)[0] == Or(y.price, -1)[0] && Or(x.year, -1)[0] == Or(y.year, -1)[0];
    if !SamePresence(x, y) {
      var p := Or(x.price, -1)[0];
      var year := if x.price.Some? == y.price.Some? then Some(0) else None;
      var s := Segment("s", p, p, None, year, [], []);
      assert Matches(s, x) != Matches(s, y);
    }
  }

  /** No negative price and no negative year: what the fixtures mean. */
  predicate NonNegative(l: Listing) {
    && (l.price.Some? ==> l.price.value >= 0)
    && (l.year.Some? ==> l.year.value >= 0)
  }
}

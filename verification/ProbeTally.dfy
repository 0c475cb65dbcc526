/** One segment of run_probe: the pass over its records in canonical order,
    and why the order of the fixture file cannot show in its result. */
module ProbeTally {
  import opened Options
  import opened Sequences
  import opened ProbeListing

  datatype Observation = Observation(firstSeen: Option<int>, posted: Option<int>, sourceId: string)

  function Observe(l: Listing): Observation {
    Observation(l.firstSeen, l.posted, l.sourceId)
  }

  /** `first` holds each vehicle's first observation in the segment. */
  datatype Tally = Tally(
    seen: nat, outOfRadius: nat, relists: nat, repeated: nat,
    first: map<VehicleKey, Observation>, matches: set<VehicleKey>)

  const EMPTY := Tally(0, 0, 0, 0, map[], {})

  /** Later first-seen date than the vehicle's first, under another source id. */
  predicate Relist(first: map<VehicleKey, Observation>, l: Listing) {
    && l.inRadius && DedupeKey(l) in first
    && var f := first[DedupeKey(l)];
       l.firstSeen.Some? && f.firstSeen.Some? && l.firstSeen.value > f.firstSeen.value && l.sourceId != f.sourceId
  }

  function Add(s: Segment, t: Tally, l: Listing): Tally {
    var key := DedupeKey(l);
    if !l.inRadius then t.(seen := t.seen + 1, outOfRadius := t.outOfRadius + 1)
    else if key in t.first then
      if Relist(t.first, l) then t.(seen := t.seen + 1, relists := t.relists + 1)
      else t.(seen := t.seen + 1, repeated := t.repeated + 1)
    else t.(seen := t.seen + 1, first := t.first[key := Observe(l)],
            matches := if Matches(s, l) then t.matches + {key} else t.matches)
  }

  function Pass(s: Segment, polled: seq<Listing>): Tally {
    if polled == [] then EMPTY
    else Add(s, Pass(s, polled[..|polled| - 1]), polled[|polled| - 1])
  }

  /** The segment's loop. */
  method Walk(s: Segment, polled: seq<Listing>) returns (t: Tally)
    ensures t == Pass(s, polled)
  {
    var seen, outOfRadius, relists, repeated := 0, 0, 0, 0;
    var first: map<VehicleKey, Observation> := map[];
    var matches: set<VehicleKey> := {};
    for n := 0 to |polled|
      invariant Tally(seen, outOfRadius, relists, repeated, first, matches) == Pass(s, polled[..n])
    {
      var l := polled[n];
      assert polled[..n + 1][..n] == polled[..n];
      seen := seen + 1;
      if !l.inRadius {
        outOfRadius := outOfRadius + 1;
        continue;
      }
      var key := DedupeKey(l);
      if key in first {
        var f := first[key];
        if l.firstSeen.Some? && f.firstSeen.Some? && l.firstSeen.value > f.firstSeen.value && l.sourceId != f.sourceId {
          relists := relists + 1;
        } else {
          repeated := repeated + 1;
        }
        continue;
      }
      first := first[key := Observe(l)];
      if Matches(s, l) { matches := matches + {key}; }
    }
    assert polled[..|polled|] == polled;
    t := Tally(seen, outOfRadius, relists, repeated, first, matches);
  }

  // ---------- the pass without its order ---------------------------------------------

  predicate Sighting(l: Listing, key: VehicleKey) {
    l.inRadius && DedupeKey(l) == key
  }

  /** The first sighting of a vehicle in a sequence. */
  function FirstOf(polled: seq<Listing>, key: VehicleKey): (r: Option<Listing>)
    ensures r.Some? ==> r.value in polled && Sighting(r.value, key)
    ensures r.None? ==> forall k :: 0 <= k < |polled| ==> !Sighting(polled[k], key)
  {
    if polled == [] then None
    else if Sighting(polled[0], key) then Some(polled[0])
    else FirstOf(polled[1..], key)
  }

  lemma {:induction false} FirstOfAppend(polled: seq<Listing>, l: Listing, key: VehicleKey)
    ensures FirstOf(polled + [l], key)
         == if FirstOf(polled, key).Some? then FirstOf(polled, key) else if Sighting(l, key) then Some(l) else None
  {
    if polled == [] {
      assert [] + [l] == [l] && [l][1..] == [];
    } else {
      assert (polled + [l])[1..] == polled[1..] + [l];
      FirstOfAppend(polled[1..], l, key);
    }
  }

  lemma {:induction false} PassFindsFirsts(s: Segment, polled: seq<Listing>, key: VehicleKey)
    ensures var t := Pass(s, polled);
            && (key in t.first <==> FirstOf(polled, key).Some?)
            && (key in t.first ==> t.first[key] == Observe(FirstOf(polled, key).value))
            && (key in t.matches <==> FirstOf(polled, key).Some? && Matches(s, FirstOf(polled, key).value))
  {
    if polled != [] {
      var before, l := polled[..|polled| - 1], polled[|polled| - 1];
      PassFindsFirsts(s, before, key);
      FirstOfAppend(before, l, key);
      assert polled == before + [l];
    }
  }

  lemma {:induction false} CountAgrees<T>(p: T -> bool, q: T -> bool, s: seq<T>)
    requires forall k :: 0 <= k < |s| ==> p(s[k]) == q(s[k])
    ensures Count(p, s) == Count(q, s)
  {
    if s != [] { CountAgrees(p, q, s[1..]); }
  }

  /** Every record is counted in exactly one way, and the relists are the
      records later than their vehicle's first with another source id. */
  lemma {:induction false} PassCounts(s: Segment, polled: seq<Listing>)
    ensures var t := Pass(s, polled);
            && t.seen == |polled|
            && t.outOfRadius == Count((l: Listing) => !l.inRadius, polled)
            && t.relists == Count((l: Listing) => Relist(t.first, l), polled)
            && t.seen == t.outOfRadius + |t.first| + t.relists + t.repeated
  {
    if polled != [] {
      var before, l := polled[..|polled| - 1], polled[|polled| - 1];
      PassCounts(s, before);
      var t, u := Pass(s, before), Pass(s, polled);
      assert polled == before + [l];
      CountAppend((x: Listing) => !x.inRadius, before, l);
      CountAppend((x: Listing) => Relist(u.first, x), before, l);
      forall k | 0 <= k < |before| ensures Relist(t.first, before[k]) == Relist(u.first, before[k]) {
        PassFindsFirsts(s, before, DedupeKey(before[k]));
      }
      CountAgrees((x: Listing) => Relist(t.first, x), (x: Listing) => Relist(u.first, x), before);
    }
  }

  /** In canonical order the first sighting is a least one. */
  lemma {:induction false} FirstIsLeast(polled: seq<Listing>, key: VehicleKey, x: Listing)
    requires Sorted(CanonicalLeq, polled) && Preorder(CanonicalLeq)
    requires x in polled && Sighting(x, key)
    ensures FirstOf(polled, key).Some? && CanonicalLeq(FirstOf(polled, key).value, x)
  {
    var k :| 0 <= k < |polled| && polled[k] == x;
    if Sighting(polled[0], key) {
      assert CanonicalLeq(x, x) || CanonicalLeq(x, x);
    } else {
      assert x == polled[1..][k - 1];
      FirstIsLeast(polled[1..], key, x);
    }
  }

  /** A sighting no other sighting of the vehicle precedes. */
  ghost predicate LeastSighting(records: seq<Listing>, x: Listing) {
    && x in records && x.inRadius
    && forall y :: y in records && Sighting(y, DedupeKey(x)) ==> CanonicalLeq(x, y)
  }

  /** Least sightings of one vehicle have the same of price and year. */
  ghost predicate Unambiguous(records: seq<Listing>) {
    forall x, y :: LeastSighting(records, x) && LeastSighting(records, y) && DedupeKey(x) == DedupeKey(y)
      ==> SamePresence(x, y)
  }

  ghost predicate AllNonNegative(records: seq<Listing>) {
    forall k :: 0 <= k < |records| ==> NonNegative(records[k])
  }

  lemma NonNegativeIsUnambiguous(records: seq<Listing>)
    requires AllNonNegative(records)
    ensures Unambiguous(records)
  {
    forall x, y | LeastSighting(records, x) && LeastSighting(records, y) && DedupeKey(x) == DedupeKey(y)
      ensures SamePresence(x, y)
    {
      LeastSightingsTie(records, x, y);
      TieFixesFields(x, y);
      assert Or(x.price, -1)[0] == Or(y.price, -1)[0] && Or(x.year, -1)[0] == Or(y.year, -1)[0];
    }
  }

  lemma FirstIsLeastSighting(polled: seq<Listing>, records: seq<Listing>, key: VehicleKey)
    requires Permutation(polled, records) && Sorted(CanonicalLeq, polled) && Preorder(CanonicalLeq)
    requires FirstOf(polled, key).Some?
    ensures LeastSighting(records, FirstOf(polled, key).value)
  {
    var f := FirstOf(polled, key).value;
    SameMembers(polled, records, f);
    forall y | y in records && Sighting(y, key) ensures CanonicalLeq(f, y) {
      SameMembers(polled, records, y);
      FirstIsLeast(polled, key, y);
    }
  }

  lemma FirstsTie(a: seq<Listing>, b: seq<Listing>, records: seq<Listing>, key: VehicleKey)
    requires Permutation(a, records) && Permutation(b, records)
    requires Sorted(CanonicalLeq, a) && Sorted(CanonicalLeq, b)
    ensures FirstOf(a, key).Some? == FirstOf(b, key).Some?
    ensures FirstOf(a, key).Some? ==>
              var x, y := FirstOf(a, key).value, FirstOf(b, key).value;
              LeastSighting(records, x) && LeastSighting(records, y) && CanonicalKey(x) == CanonicalKey(y)
  {
    TupleOrder();
    if FirstOf(a, key).Some? {
      SameMembers(a, b, FirstOf(a, key).value);
      FirstIsLeast(b, key, FirstOf(a, key).value);
      FirstIsLeastSighting(a, records, key);
    }
    if FirstOf(b, key).Some? {
      SameMembers(a, b, FirstOf(b, key).value);
      FirstIsLeast(a, key, FirstOf(b, key).value);
      FirstIsLeastSighting(b, records, key);
    }
  }

  /** However ties are arranged, the pass over the same records gives the same
      tally: counts, first observations and matches. */
  lemma PassIgnoresTies(s: Segment, a: seq<Listing>, b: seq<Listing>)
    requires Permutation(a, b) && Sorted(CanonicalLeq, a) && Sorted(CanonicalLeq, b)
    requires Unambiguous(a)
    ensures Pass(s, a) == Pass(s, b)
  {
    var t, u := Pass(s, a), Pass(s, b);
    forall key
      ensures (key in t.first <==> key in u.first) && (key in t.first ==> t.first[key] == u.first[key])
      ensures key in t.matches <==> key in u.matches
    {
      PassFindsFirsts(s, a, key);
      PassFindsFirsts(s, b, key);
      FirstsTie(a, b, a, key);
      if FirstOf(a, key).Some? {
        var x, y := FirstOf(a, key).value, FirstOf(b, key).value;
        TieFixesFields(x, y);
        TieInterchangeable(x, y);
      }
    }
    assert t.first == u.first;
    assert t.matches == u.matches;
    PassCounts(s, a);
    PassCounts(s, b);
    SameLength(a, b);
    CountOfPermutation((l: Listing) => !l.inRadius, a, b);
    CountOfPermutation((l: Listing) => Relist(t.first, l), a, b);
  }

  /** The tally of a segment's records in whatever order they were read. */
  function TallyOf(s: Segment, records: seq<Listing>): Tally {
    Pass(s, Sort(CanonicalLeq, records))
  }

  lemma UnambiguousSorted(records: seq<Listing>)
    requires Unambiguous(records)
    ensures Unambiguous(Sort(CanonicalLeq, records))
  {
    var x := Sort(CanonicalLeq, records);
    forall y ensures y in x <==> y in records { SameMembers(x, records, y); }
    forall y ensures LeastSighting(x, y) <==> LeastSighting(records, y) {}
  }

  lemma TallyIgnoresOrder(s: Segment, a: seq<Listing>, b: seq<Listing>)
    requires Permutation(a, b) && Unambiguous(a)
    ensures TallyOf(s, a) == TallyOf(s, b)
  {
    TupleOrder();
    SortSorts(CanonicalLeq, a);
    SortSorts(CanonicalLeq, b);
    UnambiguousSorted(a);
    PassIgnoresTies(s, Sort(CanonicalLeq, a), Sort(CanonicalLeq, b));
  }

  /** The sort is stable: a least sighting read first is its vehicle's first. */
  lemma {:induction false} InsertedLeastComesFirst(sorted: seq<Listing>, x: Listing)
    requires Sorted(CanonicalLeq, sorted) && x.inRadius
    requires forall y :: y in sorted && Sighting(y, DedupeKey(x)) ==> CanonicalLeq(x, y)
    ensures FirstOf(Insert(CanonicalLeq, x, sorted), DedupeKey(x)) == Some(x)
  {
    if sorted != [] && !CanonicalLeq(x, sorted[0]) {
      var rest := Insert(CanonicalLeq, x, sorted[1..]);
      InsertedLeastComesFirst(sorted[1..], x);
      assert ([sorted[0]] + rest)[1..] == rest;
    } else {
      assert ([x] + sorted)[0] == x;
    }
  }

  /** Reading `records` again with the least sighting at `i` in front. */
  lemma ReadFirst(s: Segment, records: seq<Listing>, i: nat)
    requires i < |records| && LeastSighting(records, records[i])
    ensures var x := records[i];
            && Permutation([x] + Drop(records, i), records)
            && (DedupeKey(x) in TallyOf(s, [x] + Drop(records, i)).matches <==> Matches(s, x))
  {
    var x, rest := records[i], Drop(records, i);
    assert [x] + rest == [([x] + rest)[0]] + ([x] + rest)[1..];
    assert ([x] + rest)[1..] == rest;
    var sorted := Sort(CanonicalLeq, rest);
    TupleOrder();
    SortSorts(CanonicalLeq, rest);
    forall y | y in sorted && Sighting(y, DedupeKey(x)) ensures CanonicalLeq(x, y) {
      SameMembers(sorted, rest, y);
    }
    InsertedLeastComesFirst(sorted, x);
    PassFindsFirsts(s, Sort(CanonicalLeq, [x] + rest), DedupeKey(x));
  }

  ghost predicate OrderNeverShows(records: seq<Listing>) {
    forall s, b :: Permutation(records, b) ==> TallyOf(s, records) == TallyOf(s, b)
  }

  /** The order of a segment's records never shows, in any segment's tally,
      exactly when the records are unambiguous; non-negative prices and years
      make them so. */
  lemma OrderShowsExactlyWhenAmbiguous(records: seq<Listing>)
    ensures OrderNeverShows(records) <==> Unambiguous(records)
    ensures AllNonNegative(records) ==> OrderNeverShows(records)
  {
    if AllNonNegative(records) { NonNegativeIsUnambiguous(records); }
    if Unambiguous(records) {
      forall s, b | Permutation(records, b) ensures TallyOf(s, records) == TallyOf(s, b) {
        TallyIgnoresOrder(s, records, b);
      }
    } else {
      var x, y :| LeastSighting(records, x) && LeastSighting(records, y) && DedupeKey(x) == DedupeKey(y)
                  && !SamePresence(x, y);
      AmbiguityShows(records, x, y);
    }
  }

  /** One is missing and the other -1, which the key cannot tell apart. */
  predicate MinusOneOrMissing(a: Option<int>, b: Option<int>) {
    (a == None && b == Some(-1)) || (a == Some(-1) && b == None)
  }

  predicate MinusOneApart(x: Listing, y: Listing) {
    MinusOneOrMissing(x.price, y.price)
    || (x.price.Some? && y.price.Some? && MinusOneOrMissing(x.year, y.year))
  }

  /** What ambiguity is: two least sightings of one vehicle, one with a price
      of -1 and one without a price, or both priced and their years so. */
  lemma AmbiguousExactlyByMinusOne(records: seq<Listing>)
    ensures !Unambiguous(records)
       <==> exists x, y :: LeastSighting(records, x) && LeastSighting(records, y) && DedupeKey(x) == DedupeKey(y)
                           && MinusOneApart(x, y)
  {
    forall x, y | LeastSighting(records, x) && LeastSighting(records, y) && DedupeKey(x) == DedupeKey(y)
      ensures SamePresence(x, y) <==> !MinusOneApart(x, y)
    {
      LeastSightingsTie(records, x, y);
      TieFixesFields(x, y);
      assert Or(x.price, -1)[0] == Or(y.price, -1)[0] && Or(x.year, -1)[0] == Or(y.year, -1)[0];
    }
  }

  /** A concrete list: any record in radius without a price, and the same
      record again with a price of -1. */
  lemma AMinusOneShows(l: Listing)
    requires l.inRadius && l.price == None
    ensures !OrderNeverShows([l, l.(price := Some(-1))])
  {
    var x := l.(price := Some(-1));
    var records := [l, x];
    TupleOrder();
    assert CanonicalKey(l) == CanonicalKey(x);
    assert records[0] == l && records[1] == x;
    assert LeastSighting(records, l) && LeastSighting(records, x) && MinusOneApart(l, x);
    AmbiguousExactlyByMinusOne(records);
    OrderShowsExactlyWhenAmbiguous(records);
  }

  lemma LeastSightingsTie(records: seq<Listing>, x: Listing, y: Listing)
    requires LeastSighting(records, x) && LeastSighting(records, y) && DedupeKey(x) == DedupeKey(y)
    ensures CanonicalKey(x) == CanonicalKey(y)
  {
    TupleOrder();
    assert Sighting(y, DedupeKey(x)) && Sighting(x, DedupeKey(y));
  }

  lemma TwoReadingsDiffer(s: Segment, records: seq<Listing>, a: seq<Listing>, b: seq<Listing>, key: VehicleKey)
    requires Permutation(a, records) && Permutation(b, records)
    requires key in TallyOf(s, a).matches <==> key !in TallyOf(s, b).matches
    ensures !OrderNeverShows(records)
  {
    assert Permutation(records, a) && Permutation(records, b);
    assert OrderNeverShows(records) ==> TallyOf(s, records) == TallyOf(s, a) == TallyOf(s, b);
  }

  lemma ReadBothWays(s: Segment, records: seq<Listing>, i: nat, j: nat)
    requires i < |records| && LeastSighting(records, records[i])
    requires j < |records| && LeastSighting(records, records[j])
    requires DedupeKey(records[i]) == DedupeKey(records[j])
    requires Matches(s, records[i]) != Matches(s, records[j])
    ensures !OrderNeverShows(records)
  {
    ReadFirst(s, records, i);
    ReadFirst(s, records, j);
    TwoReadingsDiffer(s, records, [records[i]] + Drop(records, i), [records[j]] + Drop(records, j), DedupeKey(records[i]));
  }

  lemma AmbiguityShows(records: seq<Listing>, x: Listing, y: Listing)
    requires LeastSighting(records, x) && LeastSighting(records, y) && DedupeKey(x) == DedupeKey(y)
    requires !SamePresence(x, y)
    ensures !OrderNeverShows(records)
  {
    LeastSightingsTie(records, x, y);
    TieInterchangeable(x, y);
    var s :| Matches(s, x) != Matches(s, y);
    var i :| 0 <= i < |records| && records[i] == x;
    var j :| 0 <= j < |records| && records[j] == y;
    ReadBothWays(s, records, i, j);
  }

  /** Each segment's totals, from its records alone: the identities, and each
      vehicle's first as a least sighting in canonical order. */
  lemma TallyAddsUp(s: Segment, records: seq<Listing>, key: VehicleKey, x: Listing)
    requires x in records && Sighting(x, key)
    ensures var t := TallyOf(s, records);
            && t.seen == |records| == t.outOfRadius + |t.first| + t.relists + t.repeated
            && t.relists == Count((l: Listing) => Relist(t.first, l), records)
            && key in t.first
            && exists f :: f in records && Sighting(f, key) && t.first[key] == Observe(f) && CanonicalLeq(f, x)
                           && (key in t.matches <==> Matches(s, f))
  {
    var sorted := Sort(CanonicalLeq, records);
    TupleOrder();
    SortSorts(CanonicalLeq, records);
    PassCounts(s, sorted);
    var t := Pass(s, sorted);
    CountOfPermutation((l: Listing) => Relist(t.first, l), records, sorted);
    SameMembers(sorted, records, x);
    FirstIsLeast(sorted, key, x);
    PassFindsFirsts(s, sorted, key);
    SameMembers(sorted, records, FirstOf(sorted, key).value);
  }
}

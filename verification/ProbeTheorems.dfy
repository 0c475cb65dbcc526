/** What the probe's documentation promises of its report. */
module ProbeTheorems {
  import opened Options
  import opened Sequences
  import opened ProbeListing
  import opened ProbeTally
  import opened ProbeBudget
  import opened ProbeReport

  // ---------- the order of the fixture file ------------------------------------------

  lemma GroupOfPermutation(a: seq<Fixture>, b: seq<Fixture>, id: string)
    requires Permutation(a, b)
    ensures Permutation(Group(a, id), Group(b, id)) && |Group(a, id)| == |Group(b, id)|
  {
    FilterOfPermutation((f: Fixture) => f.segment == id, a, b);
    MapOfPermutation((f: Fixture) => f.listing,
                     Filter((f: Fixture) => f.segment == id, a), Filter((f: Fixture) => f.segment == id, b));
    SameLength(Group(a, id), Group(b, id));
  }

  lemma {:induction false} SameOutcomes(segments: seq<Segment>, a: seq<Fixture>, b: seq<Fixture>, cap: nat, size: nat)
    requires size > 0 && Permutation(a, b)
    requires forall k :: 0 <= k < |segments| ==> Unambiguous(Group(a, segments[k].id))
    ensures Outcomes(segments, a, cap, size) == Outcomes(segments, b, cap, size)
    ensures MeterAfter(segments, a, cap, size) == MeterAfter(segments, b, cap, size)
  {
    if segments != [] {
      var n := |segments| - 1;
      SameOutcomes(segments[..n], a, b, cap, size);
      GroupOfPermutation(a, b, segments[n].id);
      TallyIgnoresOrder(segments[n], Group(a, segments[n].id), Group(b, segments[n].id));
    }
  }

  /** Two runs over the same fixtures in different orders report the same in
      every number: counts, relists, matches, freshness and budget. */
  lemma FixtureOrderNeverShows(segments: seq<Segment>, a: seq<Fixture>, b: seq<Fixture>, cap: nat, size: nat,
                               runDay: Option<int>, r: Report, q: Report)
    requires size > 0 && Permutation(a, b)
    requires forall k :: 0 <= k < |segments| ==> Unambiguous(Group(a, segments[k].id))
    requires IsReport(r, segments, a, cap, size, runDay) && IsReport(q, segments, b, cap, size, runDay)
    ensures r == q
  {
    SameOutcomes(segments, a, b, cap, size);
    var os, m := Outcomes(segments, a, cap, size), MeterAfter(segments, a, cap, size);
    var x :| Enumerates(x, os) && r == ReportOf(os, m, x, runDay);
    var y :| Enumerates(y, os) && q == ReportOf(os, m, y, runDay);
    ReportIgnoresEnumeration(os, m, x, y, runDay);
  }

  /** Fixtures without negative prices or years meet the condition. */
  lemma NonNegativeFixturesQualify(fixtures: seq<Fixture>, id: string)
    requires forall k :: 0 <= k < |fixtures| ==> NonNegative(fixtures[k].listing)
    ensures Unambiguous(Group(fixtures, id))
  {
    var p := (f: Fixture) => f.segment == id;
    var kept := Filter(p, fixtures);
    forall k | 0 <= k < |kept| ensures NonNegative(kept[k].listing) {
      FilterMembers(p, fixtures, kept[k]);
    }
    NonNegativeIsUnambiguous(Group(fixtures, id));
  }

  // ---------- the order of the segments ------------------------------------------------

  ghost predicate DistinctIds(segments: seq<Segment>) {
    forall i, j :: 0 <= i < j < |segments| ==> segments[i].id != segments[j].id
  }

  function PagesOf(s: Segment, fixtures: seq<Fixture>, size: nat): int
    requires size > 0
  {
    PageCount(|Group(fixtures, s.id)|, size)
  }

  function TotalPages(segments: seq<Segment>, fixtures: seq<Fixture>, size: nat): int
    requires size > 0
  {
    Sum((s: Segment) => PagesOf(s, fixtures, size), segments)
  }

  function Reached(s: Segment, fixtures: seq<Fixture>): Outcome {
    OutcomeOf(s, Group(fixtures, s.id), true)
  }

  function ReachedAll(segments: seq<Segment>, fixtures: seq<Fixture>): seq<Outcome> {
    Map((s: Segment) => Reached(s, fixtures), segments)
  }

  function Ids(segments: seq<Segment>): set<string> {
    set s | s in segments :: s.id
  }

  lemma NewId(segments: seq<Segment>)
    requires segments != [] && DistinctIds(segments)
    ensures var n := |segments| - 1;
            segments[n].id !in Ids(segments[..n]) && Ids(segments) == Ids(segments[..n]) + {segments[n].id}
  {
    var n := |segments| - 1;
    assert segments == segments[..n] + [segments[n]];
  }

  lemma PagesGrow(before: seq<Segment>, s: Segment, fixtures: seq<Fixture>, size: nat)
    requires size > 0
    ensures TotalPages(before + [s], fixtures, size) == TotalPages(before, fixtures, size) + PagesOf(s, fixtures, size)
    ensures PagesOf(s, fixtures, size) >= 0
  {
    SumAppend((x: Segment) => PagesOf(x, fixtures, size), before, s);
  }

  /** Enough for a new segment: all its pages are charged and it is cached. */
  lemma ChargedInFull(m: Meter, cap: nat, id: string, pages: nat)
    requires id !in m.cached && m.used + pages <= cap
    ensures Affordable(m, cap, id, pages)
    ensures Charge(m, cap, id, pages)
         == Meter(m.used + pages, m.stopped, m.entries + pages, m.polls + 1, m.cached + {id})
  {
  }

  function FullMeter(segments: seq<Segment>, pages: nat): Meter {
    Meter(pages, false, pages, |segments|, Ids(segments))
  }

  /** Every segment is polled for exactly its pages and nothing is refused. */
  ghost predicate InFull(segments: seq<Segment>, fixtures: seq<Fixture>, cap: nat, size: nat, pages: nat)
    requires size > 0
  {
    && Outcomes(segments, fixtures, cap, size) == ReachedAll(segments, fixtures)
    && MeterAfter(segments, fixtures, cap, size) == FullMeter(segments, pages)
  }

  lemma ReachedNext(segments: seq<Segment>, n: nat, fixtures: seq<Fixture>)
    requires n < |segments|
    ensures ReachedAll(segments[..n + 1], fixtures) == ReachedAll(segments[..n], fixtures) + [Reached(segments[n], fixtures)]
  {
  }

  lemma FullMeterNext(segments: seq<Segment>, n: nat, cap: nat, pages: nat, more: nat)
    requires n < |segments| && DistinctIds(segments) && pages + more <= cap
    ensures var m := FullMeter(segments[..n], pages);
            && Affordable(m, cap, segments[n].id, more)
            && Charge(m, cap, segments[n].id, more) == FullMeter(segments[..n + 1], pages + more)
  {
    assert segments[..n + 1][..n] == segments[..n];
    NewId(segments[..n + 1]);
    ChargedInFull(FullMeter(segments[..n], pages), cap, segments[n].id, more);
  }

  lemma OneMoreInFull(segments: seq<Segment>, n: nat, fixtures: seq<Fixture>, cap: nat, size: nat, pages: nat, more: nat)
    requires size > 0 && n < |segments| && DistinctIds(segments)
    requires InFull(segments[..n], fixtures, cap, size, pages)
    requires more == PageCount(|Group(fixtures, segments[n].id)|, size) && pages + more <= cap
    ensures InFull(segments[..n + 1], fixtures, cap, size, pages + more)
  {
    OneMoreSegment(segments, n, fixtures, cap, size);
    FullMeterNext(segments, n, cap, pages, more);
    ReachedNext(segments, n, fixtures);
  }

  /** With a budget for every page, every segment is polled for exactly its
      pages and nothing is refused. */
  lemma {:induction false} EnoughBudget(segments: seq<Segment>, fixtures: seq<Fixture>, cap: nat, size: nat)
    requires size > 0 && DistinctIds(segments) && TotalPages(segments, fixtures, size) <= cap
    ensures TotalPages(segments, fixtures, size) >= 0
    ensures InFull(segments, fixtures, cap, size, TotalPages(segments, fixtures, size))
  {
    if segments != [] {
      var n := |segments| - 1;
      var before, s := segments[..n], segments[n];
      assert segments == before + [s] == segments[..n + 1];
      PagesGrow(before, s, fixtures, size);
      EnoughBudget(before, fixtures, cap, size);
      OneMoreInFull(segments, n, fixtures, cap, size, TotalPages(before, fixtures, size), PagesOf(s, fixtures, size));
    }
  }

  lemma {:induction false} UnionMembers<T>(f: Outcome -> set<T>, os: seq<Outcome>, x: T)
    ensures x in Union(f, os) <==> exists k :: 0 <= k < |os| && x in f(os[k])
  {
    if os != [] {
      var n := |os| - 1;
      UnionMembers(f, os[..n], x);
      if x in Union(f, os[..n]) {
        var k :| 0 <= k < n && x in f(os[..n][k]);
        assert x in f(os[k]);
      }
      if exists k :: 0 <= k < |os| && x in f(os[k]) {
        var k :| 0 <= k < |os| && x in f(os[k]);
        if k < n { assert x in f(os[..n][k]); }
      }
    }
  }

  lemma UnionGrows<T>(f: Outcome -> set<T>, a: seq<Outcome>, b: seq<Outcome>)
    requires forall o :: o in a ==> o in b
    ensures Union(f, a) <= Union(f, b)
  {
    forall x | x in Union(f, a) ensures x in Union(f, b) {
      UnionMembers(f, a, x);
      UnionMembers(f, b, x);
      var k :| 0 <= k < |a| && x in f(a[k]);
      assert a[k] in b;
      var j :| 0 <= j < |b| && b[j] == a[k];
      assert x in f(b[j]);
    }
  }

  lemma UnionOfPermutation<T>(f: Outcome -> set<T>, a: seq<Outcome>, b: seq<Outcome>)
    requires Permutation(a, b)
    ensures Union(f, a) == Union(f, b)
  {
    forall o ensures o in a <==> o in b { SameMembers(a, b, o); }
    UnionGrows(f, a, b);
    UnionGrows(f, b, a);
  }

  lemma {:induction false} ObservationMembers(os: seq<Outcome>, key: VehicleKey, x: Observation)
    ensures x in Observations(os, key) <==> exists o :: o in os && x in ObservedIn(o, key)
  {
    if os != [] {
      var n := |os| - 1;
      ObservationMembers(os[..n], key, x);
      assert os == os[..n] + [os[n]];
    }
  }

  lemma CanonicalOfPermutation(a: seq<Outcome>, b: seq<Outcome>, key: VehicleKey)
    requires Permutation(a, b)
    ensures Canonical(Observations(a, key)) == Canonical(Observations(b, key))
  {
    forall x ensures x in Observations(a, key) <==> x in Observations(b, key) {
      ObservationMembers(a, key, x);
      ObservationMembers(b, key, x);
      forall o ensures o in a <==> o in b { SameMembers(a, b, o); }
    }
    CanonicalIgnoresOrder(Observations(a, key), Observations(b, key));
  }

  ghost predicate DistinctOutcomes(os: seq<Outcome>) {
    forall i, j :: 0 <= i < j < |os| ==> os[i].id != os[j].id
  }

  lemma {:induction false} LinesLookup(os: seq<Outcome>, id: string)
    requires DistinctOutcomes(os)
    ensures id in Lines(os) <==> exists o :: o in os && o.id == id
    ensures forall o :: o in os && o.id == id ==> id in Lines(os) && Lines(os)[id] == LineOf(o)
  {
    if os != [] {
      var n := |os| - 1;
      LinesLookup(os[..n], id);
      assert os == os[..n] + [os[n]];
    }
  }

  lemma LinesOfPermutation(a: seq<Outcome>, b: seq<Outcome>)
    requires Permutation(a, b) && DistinctOutcomes(a) && DistinctOutcomes(b)
    ensures Lines(a) == Lines(b)
  {
    forall o ensures o in a <==> o in b { SameMembers(a, b, o); }
    forall id
      ensures id in Lines(a) <==> id in Lines(b)
      ensures id in Lines(a) ==> Lines(a)[id] == Lines(b)[id]
    {
      LinesLookup(a, id);
      LinesLookup(b, id);
    }
  }

  lemma TwiceCountsTwo<T>(s: seq<T>, i: nat, j: nat)
    requires i < j < |s| && s[i] == s[j]
    ensures multiset(s)[s[i]] >= 2
  {
    var d := Drop(s, j);
    assert d[i] == s[i] && d[i] in multiset(d);
  }

  lemma DistinctOfPermutation(a: seq<Segment>, b: seq<Segment>)
    requires Permutation(a, b) && DistinctIds(a)
    ensures DistinctIds(b)
  {
    forall i, j | 0 <= i < j < |b| ensures b[i].id != b[j].id {
      SameMembers(a, b, b[i]);
      SameMembers(a, b, b[j]);
      var x :| 0 <= x < |a| && a[x] == b[i];
      var y :| 0 <= y < |a| && a[y] == b[j];
      if b[i] == b[j] {
        TwiceCountsTwo(b, i, j);
        DistinctOnce(a, b[i]);
        assert false;
      }
    }
  }

  lemma ReportOfPermutation(a: seq<Outcome>, b: seq<Outcome>, m: Meter, order: seq<VehicleKey>, runDay: Option<int>)
    requires Permutation(a, b) && DistinctOutcomes(a) && DistinctOutcomes(b)
    ensures ReportOf(a, m, order, runDay) == ReportOf(b, m, order, runDay)
  {
    SumOfPermutation(Seen, a, b);
    SumOfPermutation(Outside, a, b);
    SumOfPermutation(Relists, a, b);
    SumOfPermutation(Repeated, a, b);
    UnionOfPermutation(MatchedIn, a, b);
    LinesOfPermutation(a, b);
    forall k | 0 <= k < |order| ensures Datings(a, order, runDay)[k] == Datings(b, order, runDay)[k] {
      CanonicalOfPermutation(a, b, order[k]);
    }
    assert Datings(a, order, runDay) == Datings(b, order, runDay);
  }

  lemma SameIds(a: seq<Segment>, b: seq<Segment>)
    requires Permutation(a, b)
    ensures Ids(a) == Ids(b)
  {
    forall s ensures s in a <==> s in b { SameMembers(a, b, s); }
  }

  lemma PermutedMeters(a: seq<Segment>, b: seq<Segment>, fixtures: seq<Fixture>, cap: nat, size: nat)
    requires size > 0 && Permutation(a, b) && DistinctIds(a) && DistinctIds(b)
    requires TotalPages(a, fixtures, size) <= cap
    ensures TotalPages(b, fixtures, size) <= cap
    ensures MeterAfter(a, fixtures, cap, size) == MeterAfter(b, fixtures, cap, size)
  {
    SumOfPermutation((s: Segment) => PagesOf(s, fixtures, size), a, b);
    SameLength(a, b);
    SameIds(a, b);
    EnoughBudget(a, fixtures, cap, size);
    EnoughBudget(b, fixtures, cap, size);
  }

  lemma ReachedAllDistinct(a: seq<Segment>, fixtures: seq<Fixture>)
    requires DistinctIds(a)
    ensures DistinctOutcomes(ReachedAll(a, fixtures))
  {
    forall k | 0 <= k < |a| ensures ReachedAll(a, fixtures)[k].id == a[k].id {}
  }

  lemma PermutedRuns(a: seq<Segment>, b: seq<Segment>, fixtures: seq<Fixture>, cap: nat, size: nat)
    requires size > 0 && Permutation(a, b) && DistinctIds(a) && DistinctIds(b)
    requires TotalPages(a, fixtures, size) <= cap && TotalPages(b, fixtures, size) <= cap
    ensures var os, ps := Outcomes(a, fixtures, cap, size), Outcomes(b, fixtures, cap, size);
            Permutation(os, ps) && DistinctOutcomes(os) && DistinctOutcomes(ps)
  {
    EnoughBudget(a, fixtures, cap, size);
    EnoughBudget(b, fixtures, cap, size);
    MapOfPermutation((s: Segment) => Reached(s, fixtures), a, b);
    ReachedAllDistinct(a, fixtures);
    ReachedAllDistinct(b, fixtures);
  }

  lemma EnumerationOfPermutation(a: seq<Outcome>, b: seq<Outcome>, order: seq<VehicleKey>)
    requires Permutation(a, b) && Enumerates(order, b)
    ensures Enumerates(order, a)
  {
    UnionOfPermutation(Vehicles, a, b);
  }

  /** With distinct segment ids and a budget that reaches every segment,
      rearranging the segments changes no number in the report. */
  lemma SegmentOrderNeverShows(a: seq<Segment>, b: seq<Segment>, fixtures: seq<Fixture>, cap: nat, size: nat,
                               runDay: Option<int>, r: Report, q: Report)
    requires size > 0 && Permutation(a, b) && DistinctIds(a) && TotalPages(a, fixtures, size) <= cap
    requires IsReport(r, a, fixtures, cap, size, runDay) && IsReport(q, b, fixtures, cap, size, runDay)
    ensures r == q
  {
    DistinctOfPermutation(a, b);
    PermutedMeters(a, b, fixtures, cap, size);
    PermutedRuns(a, b, fixtures, cap, size);
    var os, ps := Outcomes(a, fixtures, cap, size), Outcomes(b, fixtures, cap, size);
    var m := MeterAfter(a, fixtures, cap, size);
    var x :| Enumerates(x, os) && r == ReportOf(os, m, x, runDay);
    var y :| Enumerates(y, ps) && q == ReportOf(ps, m, y, runDay);
    EnumerationOfPermutation(os, ps, y);
    ReportOfPermutation(os, ps, m, y, runDay);
    ReportIgnoresEnumeration(os, m, x, y, runDay);
  }

  // ---------- the report adds up -------------------------------------------------------

  ghost predicate Balanced(o: Outcome) {
    Seen(o) == Outside(o) + UniqueIn(o) + Relists(o) + Repeated(o)
  }

  lemma {:induction false} BalancedSums(os: seq<Outcome>)
    requires forall k :: 0 <= k < |os| ==> Balanced(os[k])
    ensures Sum(Seen, os) == Sum(Outside, os) + Sum(UniqueIn, os) + Sum(Relists, os) + Sum(Repeated, os)
  {
    if os != [] {
      forall k | 0 <= k < |os[1..]| ensures Balanced(os[1..][k]) { assert Balanced(os[k + 1]); }
      BalancedSums(os[1..]);
      assert Balanced(os[0]);
    }
  }

  lemma {:induction false} OutcomesBalanced(segments: seq<Segment>, fixtures: seq<Fixture>, cap: nat, size: nat, k: nat)
    requires size > 0 && k < |segments|
    ensures Balanced(Outcomes(segments, fixtures, cap, size)[k])
  {
    var n := |segments| - 1;
    if k < n {
      OutcomesBalanced(segments[..n], fixtures, cap, size, k);
    } else {
      var s := segments[n];
      PassCounts(s, Sort(CanonicalLeq, Group(fixtures, s.id)));
    }
  }

  lemma {:induction false} DatingsPartition(ds: seq<Dating>)
    ensures |LagsOf(ds)| + Count(IsUnknown, ds) + Count(IsInvalid, ds) == |ds|
  {
    if ds != [] {
      var n := |ds| - 1;
      DatingsPartition(ds[..n]);
      FreshnessAppend(ds[..n], ds[n]);
      assert ds == ds[..n] + [ds[n]];
    }
  }

  /** Records: each is out of radius, a first, a relist or a repetition.
      Vehicles: each is dated, unknown or invalid. The budget is not passed. */
  lemma ReportAddsUp(segments: seq<Segment>, fixtures: seq<Fixture>, cap: nat, size: nat, runDay: Option<int>, r: Report)
    requires size > 0 && IsReport(r, segments, fixtures, cap, size, runDay)
    ensures r.seen == r.outOfRadius + Sum(UniqueIn, Outcomes(segments, fixtures, cap, size)) + r.relists + r.repeated
    ensures (if r.lags.Some? then r.lags.value.count else 0) + r.unknown + r.invalid == r.unique
    ensures r.used <= cap
  {
    var os := Outcomes(segments, fixtures, cap, size);
    forall k | 0 <= k < |os| ensures Balanced(os[k]) { OutcomesBalanced(segments, fixtures, cap, size, k); }
    BalancedSums(os);
    var order :| Enumerates(order, os) && r == ReportOf(os, MeterAfter(segments, fixtures, cap, size), order, runDay);
    DatingsPartition(Datings(os, order, runDay));
  }
}

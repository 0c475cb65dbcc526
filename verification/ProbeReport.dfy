/**
 * run_probe: segments polled through one budget, one tally each, global
 * counts and freshness. The report is a function of the segments and, per
 * segment, of its records as a collection.
 */
module ProbeReport {
  import opened Options
  import opened Sequences
  import opened ProbeListing
  import opened ProbeTally
  import opened ProbeBudget

  datatype Fixture = Fixture(segment: string, listing: Listing)

  function Group(fixtures: seq<Fixture>, id: string): seq<Listing> {
    Map((f: Fixture) => f.listing, Filter((f: Fixture) => f.segment == id, fixtures))
  }

  // ---------- polling the segments ------------------------------------------------------

  datatype Meter = Meter(used: nat, stopped: bool, entries: nat, polls: nat, cached: set<string>)

  const FRESH := Meter(0, false, 0, 0, {})

  predicate Affordable(m: Meter, cap: nat, id: string, pages: nat) {
    id in m.cached || m.used + pages <= cap
  }

  /** One call a page, until the cap; the refused call is recorded too. */
  function Charge(m: Meter, cap: nat, id: string, pages: nat): (r: Meter)
    requires m.used <= cap
    ensures r.used <= cap
  {
    if id in m.cached then m
    else if m.used + pages <= cap
    then Meter(m.used + pages, m.stopped, m.entries + pages, m.polls + 1, m.cached + {id})
    else Meter(cap, true, m.entries + (cap - m.used) + 1, m.polls, m.cached)
  }

  /** A segment that was polled, or one the budget did not reach. */
  datatype Outcome = Outcome(id: string, tally: Option<Tally>)

  function OutcomeOf(s: Segment, records: seq<Listing>, reached: bool): Outcome {
    Outcome(s.id, if reached then Some(TallyOf(s, records)) else None)
  }

  function MeterAfter(segments: seq<Segment>, fixtures: seq<Fixture>, cap: nat, size: nat): (m: Meter)
    requires size > 0
    ensures m.used <= cap
  {
    if segments == [] then FRESH
    else
      var s := segments[|segments| - 1];
      Charge(MeterAfter(segments[..|segments| - 1], fixtures, cap, size), cap, s.id,
             PageCount(|Group(fixtures, s.id)|, size))
  }

  function Outcomes(segments: seq<Segment>, fixtures: seq<Fixture>, cap: nat, size: nat): (os: seq<Outcome>)
    requires size > 0
    ensures |os| == |segments|
  {
    if segments == [] then []
    else
      var before, s := segments[..|segments| - 1], segments[|segments| - 1];
      var records := Group(fixtures, s.id);
      Outcomes(before, fixtures, cap, size)
      + [OutcomeOf(s, records, Affordable(MeterAfter(before, fixtures, cap, size), cap, s.id,
                                          PageCount(|records|, size)))]
  }

  // ---------- totals over the outcomes --------------------------------------------------

  function Seen(o: Outcome): int { if o.tally.Some? then o.tally.value.seen else 0 }
  function Outside(o: Outcome): int { if o.tally.Some? then o.tally.value.outOfRadius else 0 }
  function Relists(o: Outcome): int { if o.tally.Some? then o.tally.value.relists else 0 }
  function Repeated(o: Outcome): int { if o.tally.Some? then o.tally.value.repeated else 0 }
  function UniqueIn(o: Outcome): int { if o.tally.Some? then |o.tally.value.first| else 0 }

  datatype Line = Line(seen: nat, unique: nat, matches: nat, relists: nat, repeated: nat, outOfRadius: nat, stopped: bool)

  function LineOf(o: Outcome): Line {
    match o.tally
    case Some(t) => Line(t.seen, |t.first|, |t.matches|, t.relists, t.repeated, t.outOfRadius, false)
    case None => Line(0, 0, 0, 0, 0, 0, true)
  }

  function Lines(os: seq<Outcome>): map<string, Line> {
    if os == [] then map[]
    else Lines(os[..|os| - 1])[os[|os| - 1].id := LineOf(os[|os| - 1])]
  }

  function Vehicles(o: Outcome): set<VehicleKey> {
    if o.tally.Some? then o.tally.value.first.Keys else {}
  }

  function MatchedIn(o: Outcome): set<VehicleKey> {
    if o.tally.Some? then o.tally.value.matches else {}
  }

  function Union<T>(f: Outcome -> set<T>, os: seq<Outcome>): set<T> {
    if os == [] then {} else Union(f, os[..|os| - 1]) + f(os[|os| - 1])
  }

  function ObservedIn(o: Outcome, key: VehicleKey): seq<Observation> {
    if o.tally.Some? && key in o.tally.value.first then [o.tally.value.first[key]] else []
  }

  /** One vehicle's first observations, segment by segment. */
  function Observations(os: seq<Outcome>, key: VehicleKey): seq<Observation> {
    if os == [] then [] else Observations(os[..|os| - 1], key) + ObservedIn(os[|os| - 1], key)
  }

  // ---------- one canonical observation per vehicle ----------------------------------------

  function ObservationKey(o: Observation): seq<seq<int>> {
    [Unknown(o.firstSeen), Or(o.firstSeen, DATE_MIN), Codes(o.sourceId), Unknown(o.posted), Or(o.posted, DATE_MIN)]
  }

  predicate ObservationLeq(a: Observation, b: Observation) {
    TupleLeq(ObservationKey(a), ObservationKey(b))
  }

  const NOTHING := Observation(None, None, "")

  /** Python's `min`: the first least one. */
  function Canonical(observations: seq<Observation>): Observation {
    if observations == [] then NOTHING
    else
      var last := observations[|observations| - 1];
      if |observations| == 1 then last
      else
        var best := Canonical(observations[..|observations| - 1]);
        if ObservationLeq(best, last) then best else last
  }

  lemma ObservationOrder()
    ensures TotalOrder(ObservationLeq)
  {
    TupleOrder();
    forall a, b | ObservationLeq(a, b) && ObservationLeq(b, a) ensures a == b {
      var x, y := ObservationKey(a), ObservationKey(b);
      assert x == y;
      assert x[0] == y[0] && x[1] == y[1] && x[2] == y[2] && x[3] == y[3] && x[4] == y[4];
      assert Unknown(a.firstSeen)[0] == Unknown(b.firstSeen)[0] && Or(a.firstSeen, DATE_MIN)[0] == Or(b.firstSeen, DATE_MIN)[0];
      assert Unknown(a.posted)[0] == Unknown(b.posted)[0] && Or(a.posted, DATE_MIN)[0] == Or(b.posted, DATE_MIN)[0];
      CodesInjective(a.sourceId, b.sourceId);
    }
  }

  lemma {:induction false} CanonicalIsLeast(s: seq<Observation>)
    requires s != [] && TotalOrder(ObservationLeq)
    ensures Canonical(s) in s && forall k :: 0 <= k < |s| ==> ObservationLeq(Canonical(s), s[k])
  {
    var last := s[|s| - 1];
    assert ObservationLeq(last, last) || ObservationLeq(last, last);
    if |s| > 1 { CanonicalIsLeast(s[..|s| - 1]); }
  }

  lemma CanonicalIgnoresOrder(a: seq<Observation>, b: seq<Observation>)
    requires forall o :: o in a <==> o in b
    ensures Canonical(a) == Canonical(b)
  {
    ObservationOrder();
    if a == [] {
      assert forall k :: 0 <= k < |b| ==> b[k] in a;
    } else {
      assert a[0] in b;
      CanonicalIsLeast(a);
      CanonicalIsLeast(b);
      assert ObservationLeq(Canonical(a), Canonical(b)) && ObservationLeq(Canonical(b), Canonical(a));
    }
  }

  // ---------- freshness -------------------------------------------------------------------

  datatype Dating = Dated(day: int, lag: int) | PostedUnknown(day: int) | FirstUnknown | Invalid

  function Classify(o: Observation, runDay: Option<int>): Dating {
    if o.firstSeen.None? then FirstUnknown
    else if runDay.Some? && o.firstSeen.value > runDay.value then Invalid
    else if o.posted.None? then PostedUnknown(o.firstSeen.value)
    else if runDay.Some? && o.posted.value > runDay.value then Invalid
    else if o.firstSeen.value < o.posted.value then Invalid
    else Dated(o.firstSeen.value, o.firstSeen.value - o.posted.value)
  }

  predicate IsUnknown(d: Dating) { d.FirstUnknown? || d.PostedUnknown? }
  predicate IsInvalid(d: Dating) { d.Invalid? }
  predicate IsDated(d: Dating) { d.Dated? }
  predicate OnDay(d: Dating, day: int) { (d.Dated? || d.PostedUnknown?) && d.day == day }

  function AddDay(m: map<int, nat>, d: Dating): map<int, nat> {
    if d.Dated? || d.PostedUnknown?
    then m[d.day := (if d.day in m then m[d.day] else 0) + 1]
    else m
  }

  function ByDay(ds: seq<Dating>): map<int, nat> {
    if ds == [] then map[] else AddDay(ByDay(ds[..|ds| - 1]), ds[|ds| - 1])
  }

  function LagIn(d: Dating): seq<int> {
    if d.Dated? then [d.lag] else []
  }

  function LagsOf(ds: seq<Dating>): seq<int> {
    if ds == [] then [] else LagsOf(ds[..|ds| - 1]) + LagIn(ds[|ds| - 1])
  }

  datatype LagStats = LagStats(median: real, least: int, greatest: int, count: nat)

  function StatsOf(sorted: seq<int>): Option<LagStats> {
    var n := |sorted|;
    if n == 0 then None
    else Some(LagStats(if n % 2 == 1 then sorted[n / 2] as real
                       else (sorted[n / 2 - 1] + sorted[n / 2]) as real / 2.0,
                       sorted[0], sorted[n - 1], n))
  }

  lemma {:induction false} ByDayCounts(ds: seq<Dating>, day: int)
    ensures day in ByDay(ds) <==> Count((d: Dating) => OnDay(d, day), ds) > 0
    ensures day in ByDay(ds) ==> ByDay(ds)[day] == Count((d: Dating) => OnDay(d, day), ds)
  {
    if ds != [] {
      ByDayCounts(ds[..|ds| - 1], day);
      CountAppend((d: Dating) => OnDay(d, day), ds[..|ds| - 1], ds[|ds| - 1]);
      assert ds == ds[..|ds| - 1] + [ds[|ds| - 1]];
    }
  }

  lemma {:induction false} LagsCount(ds: seq<Dating>, lag: int)
    ensures multiset(LagsOf(ds))[lag] == Count((d: Dating) => d.Dated? && d.lag == lag, ds)
    ensures |LagsOf(ds)| == Count(IsDated, ds)
  {
    if ds != [] {
      var d := ds[|ds| - 1];
      LagsCount(ds[..|ds| - 1], lag);
      CountAppend((x: Dating) => x.Dated? && x.lag == lag, ds[..|ds| - 1], d);
      CountAppend(IsDated, ds[..|ds| - 1], d);
      assert ds == ds[..|ds| - 1] + [d];
    }
  }

  // ---------- the report ---------------------------------------------------------------------

  datatype Report = Report(
    seen: int, unique: nat, matched: nat, relists: int, repeated: int, outOfRadius: int,
    byDay: map<int, nat>, lags: Option<LagStats>, unknown: nat, invalid: nat,
    lines: map<string, Line>, used: nat, stoppedAtCap: bool, polls: nat, entries: nat)

  function Datings(os: seq<Outcome>, order: seq<VehicleKey>, runDay: Option<int>): seq<Dating> {
    Map((key: VehicleKey) => DatingOf(os, key, runDay), order)
  }

  function DatingOf(os: seq<Outcome>, key: VehicleKey, runDay: Option<int>): Dating {
    Classify(Canonical(Observations(os, key)), runDay)
  }

  function ReportOf(os: seq<Outcome>, m: Meter, order: seq<VehicleKey>, runDay: Option<int>): Report {
    var ds := Datings(os, order, runDay);
    Report(Sum(Seen, os), |order|, |Union(MatchedIn, os)|, Sum(Relists, os), Sum(Repeated, os), Sum(Outside, os),
           ByDay(ds), StatsOf(Sort(IntLeq, LagsOf(ds))), Count(IsUnknown, ds), Count(IsInvalid, ds),
           Lines(os), m.used, m.stopped, m.polls, m.entries)
  }

  /** `order` is some order of the vehicles, such as a dictionary's. */
  ghost predicate Enumerates(order: seq<VehicleKey>, os: seq<Outcome>) {
    && (forall i, j :: 0 <= i < j < |order| ==> order[i] != order[j])
    && (forall key :: key in order <==> key in Union(Vehicles, os))
  }

  lemma EnumerationsArePermutations(a: seq<VehicleKey>, b: seq<VehicleKey>, os: seq<Outcome>)
    requires Enumerates(a, os) && Enumerates(b, os)
    ensures Permutation(a, b) && |a| == |b|
  {
    DistinctSameMembers(a, b);
  }

  lemma FreshnessIgnoresOrder(a: seq<Dating>, b: seq<Dating>)
    requires Permutation(a, b)
    ensures ByDay(a) == ByDay(b) && Sort(IntLeq, LagsOf(a)) == Sort(IntLeq, LagsOf(b))
    ensures Count(IsUnknown, a) == Count(IsUnknown, b) && Count(IsInvalid, a) == Count(IsInvalid, b)
  {
    forall day
      ensures day in ByDay(a) <==> day in ByDay(b)
      ensures day in ByDay(a) ==> ByDay(a)[day] == ByDay(b)[day]
    {
      ByDayCounts(a, day);
      ByDayCounts(b, day);
      CountOfPermutation((d: Dating) => OnDay(d, day), a, b);
    }
    forall lag ensures multiset(LagsOf(a))[lag] == multiset(LagsOf(b))[lag] {
      LagsCount(a, lag);
      LagsCount(b, lag);
      CountOfPermutation((d: Dating) => d.Dated? && d.lag == lag, a, b);
    }
    assert TotalOrder(IntLeq);
    SortIsCanonical(IntLeq, LagsOf(a), LagsOf(b));
    CountOfPermutation(IsUnknown, a, b);
    CountOfPermutation(IsInvalid, a, b);
  }

  /** Whatever order the vehicles are visited in, the report is the same. */
  lemma ReportIgnoresEnumeration(os: seq<Outcome>, m: Meter, a: seq<VehicleKey>, b: seq<VehicleKey>, runDay: Option<int>)
    requires Enumerates(a, os) && Enumerates(b, os)
    ensures ReportOf(os, m, a, runDay) == ReportOf(os, m, b, runDay)
  {
    EnumerationsArePermutations(a, b, os);
    MapOfPermutation((key: VehicleKey) => DatingOf(os, key, runDay), a, b);
    FreshnessIgnoresOrder(Datings(os, a, runDay), Datings(os, b, runDay));
  }

  ghost predicate IsReport(r: Report, segments: seq<Segment>, fixtures: seq<Fixture>, cap: nat, size: nat, runDay: Option<int>)
    requires size > 0
  {
    var os := Outcomes(segments, fixtures, cap, size);
    exists order :: Enumerates(order, os)
      && r == ReportOf(os, MeterAfter(segments, fixtures, cap, size), order, runDay)
  }

  // ---------- the run --------------------------------------------------------------------------

  datatype RunDate = NoDate | Day(day: int) | Malformed

  datatype Result = BlockedSource | BadPageSize | BadRunDate | BadCap | Probed(report: Report)

  lemma {:induction false} GroupAppend(fixtures: seq<Fixture>, f: Fixture, id: string)
    ensures Group(fixtures + [f], id) == Group(fixtures, id) + (if f.segment == id then [f.listing] else [])
  {
    FilterAppend((x: Fixture) => x.segment == id, fixtures, f);
  }

  lemma {:induction false} FilterAppend<T>(p: T -> bool, s: seq<T>, x: T)
    ensures Filter(p, s + [x]) == Filter(p, s) + (if p(x) then [x] else [])
  {
    if s == [] {
      assert [] + [x] == [x] && [x][1..] == [];
    } else {
      assert (s + [x])[1..] == s[1..] + [x];
      FilterAppend(p, s[1..], x);
    }
  }

  method GroupBySegment(fixtures: seq<Fixture>) returns (groups: map<string, seq<Listing>>)
    ensures forall id :: (if id in groups then groups[id] else []) == Group(fixtures, id)
  {
    groups := map[];
    for n := 0 to |fixtures|
      invariant forall id :: (if id in groups then groups[id] else []) == Group(fixtures[..n], id)
    {
      var f := fixtures[n];
      forall id { GroupAppend(fixtures[..n], f, id); }
      assert fixtures[..n + 1] == fixtures[..n] + [f];
      groups := groups[f.segment := (if f.segment in groups then groups[f.segment] else []) + [f.listing]];
    }
    assert fixtures[..|fixtures|] == fixtures;
  }

  lemma {:induction false} SumAppend<T>(f: T -> int, s: seq<T>, x: T)
    ensures Sum(f, s + [x]) == Sum(f, s) + f(x)
  {
    if s == [] {
      assert [] + [x] == [x] && [x][1..] == [];
    } else {
      assert (s + [x])[1..] == s[1..] + [x];
      SumAppend(f, s[1..], x);
    }
  }

  /** Adds one segment's first observations to the global ones. */
  method Absorb(first: map<VehicleKey, Observation>, have: map<VehicleKey, seq<Observation>>, order: seq<VehicleKey>)
    returns (all: map<VehicleKey, seq<Observation>>, visited: seq<VehicleKey>)
    requires forall i, j :: 0 <= i < j < |order| ==> order[i] != order[j]
    requires forall key :: key in order <==> key in have
    ensures Absorbed(first, have, all, visited)
  {
    all, visited := have, order;
    var left := first.Keys;
    while left != {}
      invariant left <= first.Keys
      invariant forall i, j :: 0 <= i < j < |visited| ==> visited[i] != visited[j]
      invariant forall key :: key in visited <==> key in all
      invariant all.Keys == have.Keys + (first.Keys - left)
      invariant forall key :: key in all ==>
                  all[key] == (if key in have then have[key] else [])
                              + (if key in first.Keys - left then [first[key]] else [])
      decreases left
    {
      var key :| key in left;
      left := left - {key};
      if key in all {
        all := all[key := all[key] + [first[key]]];
      } else {
        all := all[key := [first[key]]];
        visited := visited + [key];
      }
    }
  }

  method LeastObservation(observations: seq<Observation>) returns (best: Observation)
    requires observations != []
    ensures best == Canonical(observations)
  {
    best := observations[0];
    for n := 1 to |observations|
      invariant best == Canonical(observations[..n])
    {
      assert observations[..n + 1][..n] == observations[..n];
      if !ObservationLeq(best, observations[n]) { best := observations[n]; }
    }
    assert observations[..|observations|] == observations;
  }

  /** One vehicle's canonical observation: where it is counted. */
  method DateVehicle(o: Observation, runDay: Option<int>, lags: seq<int>, byDay: map<int, nat>, unknown: nat, invalid: nat)
    returns (lags': seq<int>, byDay': map<int, nat>, unknown': nat, invalid': nat)
    ensures var d := Classify(o, runDay);
            && lags' == lags + LagIn(d) && byDay' == AddDay(byDay, d)
            && unknown' == unknown + (if IsUnknown(d) then 1 else 0)
            && invalid' == invalid + (if IsInvalid(d) then 1 else 0)
  {
    lags', byDay', unknown', invalid' := lags, byDay, unknown, invalid;
    if o.firstSeen.None? {
      unknown' := unknown + 1;
      return;
    }
    var day := o.firstSeen.value;
    if runDay.Some? && day > runDay.value {
      invalid' := invalid + 1;
      return;
    }
    if o.posted.None? {
      unknown' := unknown + 1;
      byDay' := byDay[day := (if day in byDay then byDay[day] else 0) + 1];
      return;
    }
    if (runDay.Some? && o.posted.value > runDay.value) || day < o.posted.value {
      invalid' := invalid + 1;
      return;
    }
    lags' := lags + [day - o.posted.value];
    byDay' := byDay[day := (if day in byDay then byDay[day] else 0) + 1];
  }

  lemma FreshnessAppend(ds: seq<Dating>, d: Dating)
    ensures LagsOf(ds + [d]) == LagsOf(ds) + LagIn(d) && ByDay(ds + [d]) == AddDay(ByDay(ds), d)
    ensures Count(IsUnknown, ds + [d]) == Count(IsUnknown, ds) + (if IsUnknown(d) then 1 else 0)
    ensures Count(IsInvalid, ds + [d]) == Count(IsInvalid, ds) + (if IsInvalid(d) then 1 else 0)
  {
    assert (ds + [d])[..|ds|] == ds;
    CountAppend(IsUnknown, ds, d);
    CountAppend(IsInvalid, ds, d);
  }

  /** The freshness accumulators after these vehicles. */
  ghost predicate AccountsFor(ds: seq<Dating>, lags: seq<int>, byDay: map<int, nat>, unknown: nat, invalid: nat) {
    lags == LagsOf(ds) && byDay == ByDay(ds) && unknown == Count(IsUnknown, ds) && invalid == Count(IsInvalid, ds)
  }

  lemma AccountsForNext(ds: seq<Dating>, d: Dating, lags: seq<int>, byDay: map<int, nat>, unknown: nat, invalid: nat)
    requires AccountsFor(ds, lags, byDay, unknown, invalid)
    ensures AccountsFor(ds + [d], lags + LagIn(d), AddDay(byDay, d), unknown + (if IsUnknown(d) then 1 else 0),
                  invalid + (if IsInvalid(d) then 1 else 0))
  {
    FreshnessAppend(ds, d);
  }

  method DateNext(observations: seq<Observation>, runDay: Option<int>, ghost ds: seq<Dating>, lags: seq<int>,
                  byDay: map<int, nat>, unknown: nat, invalid: nat)
    returns (lags': seq<int>, byDay': map<int, nat>, unknown': nat, invalid': nat)
    requires observations != [] && AccountsFor(ds, lags, byDay, unknown, invalid)
    ensures AccountsFor(ds + [Classify(Canonical(observations), runDay)], lags', byDay', unknown', invalid')
  {
    var o := LeastObservation(observations);
    AccountsForNext(ds, Classify(o, runDay), lags, byDay, unknown, invalid);
    lags', byDay', unknown', invalid' := DateVehicle(o, runDay, lags, byDay, unknown, invalid);
  }

  lemma DatingsNext(os: seq<Outcome>, order: seq<VehicleKey>, runDay: Option<int>, n: nat)
    requires n < |order|
    ensures Datings(os, order[..n], runDay) + [DatingOf(os, order[n], runDay)] == Datings(os, order[..n + 1], runDay)
  {
  }

  method Freshness(order: seq<VehicleKey>, observations: map<VehicleKey, seq<Observation>>, ghost os: seq<Outcome>, runDay: Option<int>)
    returns (lags: seq<int>, byDay: map<int, nat>, unknown: nat, invalid: nat)
    requires forall key :: key in order ==> key in observations && observations[key] == Observations(os, key) != []
    ensures AccountsFor(Datings(os, order, runDay), lags, byDay, unknown, invalid)
  {
    lags, byDay, unknown, invalid := [], map[], 0, 0;
    for n := 0 to |order|
      invariant AccountsFor(Datings(os, order[..n], runDay), lags, byDay, unknown, invalid)
    {
      ghost var ds := Datings(os, order[..n], runDay);
      DatingsNext(os, order, runDay, n);
      lags, byDay, unknown, invalid := DateNext(observations[order[n]], runDay, ds, lags, byDay, unknown, invalid);
    }
    assert order[..|order|] == order;
  }

  /** Polls one segment; what the poller and the budget then hold. */
  method PollSegment(poller: Poller<Listing>, id: string, records: seq<Listing>, size: nat, ghost m: Meter, ghost cap: nat)
    returns (polled: Option<seq<Listing>>)
    requires size > 0 && poller.Valid() && Metered(poller, m, cap)
    requires id in poller.cache ==> poller.cache[id] == records
    modifies poller, poller.budget
    ensures poller.Valid() && Metered(poller, Charge(m, cap, id, PageCount(|records|, size)), cap)
    ensures polled == if Affordable(m, cap, id, PageCount(|records|, size)) then Some(records) else None
    ensures forall x :: x in poller.cache ==>
              (x in old(poller.cache) && poller.cache[x] == old(poller.cache)[x]) || (x == id && poller.cache[x] == records)
  {
    PagesJoinToTheRecords(records, size);
    var got := poller.PollPaged(id, FixturePages(records, size), PageCount(|records|, size), 1);
    polled := if got.Got? then Some(got.listings) else None;
  }

  ghost predicate Metered(poller: Poller<Listing>, m: Meter, cap: nat)
    reads poller, poller.budget
  {
    && m.used <= cap && poller.budget.cap == cap && poller.budget.loadedUsed == 0
    && poller.budget.used == m.used && poller.budget.stoppedAtCap == m.stopped
    && |poller.budget.ledger| == m.entries && poller.pollCalls == m.polls && poller.cache.Keys == m.cached
  }

  /** The whole run: the argument checks, and otherwise the report. */
  method RunProbe(segments: seq<Segment>, fixtures: seq<Fixture>, cap: int, sourceIds: seq<string>,
                  runDate: RunDate, size: int) returns (r: Result)
    ensures r.BlockedSource? <==> exists k :: 0 <= k < |sourceIds| && sourceIds[k] != "fixture"
    ensures r.Probed? <==> (forall k :: 0 <= k < |sourceIds| ==> sourceIds[k] == "fixture")
                           && size > 0 && !runDate.Malformed? && cap > 0
    ensures r.Probed? ==> IsReport(r.report, segments, fixtures, cap, size,
                                   if runDate.Day? then Some(runDate.day) else None)
  {
    for k := 0 to |sourceIds|
      invariant forall i :: 0 <= i < k ==> sourceIds[i] == "fixture"
    {
      if sourceIds[k] != "fixture" { return BlockedSource; }
    }
    if size <= 0 { return BadPageSize; }
    if runDate.Malformed? { return BadRunDate; }
    if cap <= 0 { return BadCap; }
    var runDay := if runDate.Day? then Some(runDate.day) else None;
    var tot, used, stopped, polls, entries := PollAll(segments, fixtures, cap, size);
    ghost var os := Outcomes(segments, fixtures, cap, size);
    var lags, byDay, unknown, invalid := Freshness(tot.order, tot.observations, os, runDay);
    r := Probed(Report(tot.seen, |tot.order|, |tot.matched|, tot.relists, tot.repeated, tot.outside, byDay,
                       StatsOf(Sort(IntLeq, lags)), unknown, invalid, tot.lines, used, stopped, polls, entries));
    assert r.report == ReportOf(os, MeterAfter(segments, fixtures, cap, size), tot.order, runDay);
  }

  /** The segment loop, through one fresh budget and poller. */
  method PollAll(segments: seq<Segment>, fixtures: seq<Fixture>, cap: nat, size: nat)
    returns (tot: Totals, used: nat, stopped: bool, polls: nat, entries: nat)
    requires cap > 0 && size > 0
    ensures TotalsOf(tot, Outcomes(segments, fixtures, cap, size))
    ensures var m := MeterAfter(segments, fixtures, cap, size);
            used == m.used && stopped == m.stopped && polls == m.polls && entries == m.entries
  {
    var budget := new Budget(cap);
    var poller := new Poller<Listing>(budget);
    var groups := GroupBySegment(fixtures);
    tot := Totals(0, 0, 0, 0, {}, map[], [], map[]);
    assert segments[..0] == [];
    for n := 0 to |segments|
      invariant fresh(budget) && fresh(poller) && poller.budget == budget
      invariant Progress(poller, tot, MeterAfter(segments[..n], fixtures, cap, size),
                         Outcomes(segments[..n], fixtures, cap, size), fixtures, cap)
    {
      ghost var m, os := MeterAfter(segments[..n], fixtures, cap, size), Outcomes(segments[..n], fixtures, cap, size);
      tot := PollOneMore(poller, tot, segments[n], m, os, groups, fixtures, cap, size);
      OneMoreSegment(segments, n, fixtures, cap, size);
    }
    assert segments[..|segments|] == segments;
    used, stopped, polls, entries := budget.used, budget.stoppedAtCap, poller.pollCalls, |budget.ledger|;
  }

  /** Between two segments: meter, cache and accumulators. */
  ghost predicate Progress(poller: Poller<Listing>, tot: Totals, m: Meter, os: seq<Outcome>, fixtures: seq<Fixture>, cap: nat)
    reads poller, poller.budget
  {
    && poller.Valid() && Metered(poller, m, cap)
    && (forall id :: id in poller.cache ==> poller.cache[id] == Group(fixtures, id))
    && TotalsOf(tot, os)
  }

  method PollOneMore(poller: Poller<Listing>, tot: Totals, s: Segment, ghost m: Meter, ghost os: seq<Outcome>,
                     groups: map<string, seq<Listing>>, ghost fixtures: seq<Fixture>, ghost cap: nat, size: nat)
    returns (tot': Totals)
    requires size > 0 && Progress(poller, tot, m, os, fixtures, cap)
    requires forall id :: (if id in groups then groups[id] else []) == Group(fixtures, id)
    modifies poller, poller.budget
    ensures var records := Group(fixtures, s.id);
            var pages := PageCount(|records|, size);
            Progress(poller, tot', Charge(m, cap, s.id, pages),
                     os + [OutcomeOf(s, records, Affordable(m, cap, s.id, pages))], fixtures, cap)
  {
    var records := if s.id in groups then groups[s.id] else [];
    var polled := PollSegment(poller, s.id, records, size, m, cap);
    tot' := AddSegment(tot, s, records, polled, os);
  }

  lemma OneMoreSegment(segments: seq<Segment>, n: nat, fixtures: seq<Fixture>, cap: nat, size: nat)
    requires n < |segments| && size > 0
    ensures var m := MeterAfter(segments[..n], fixtures, cap, size);
            var records := Group(fixtures, segments[n].id);
            var pages := PageCount(|records|, size);
            && MeterAfter(segments[..n + 1], fixtures, cap, size) == Charge(m, cap, segments[n].id, pages)
            && Outcomes(segments[..n + 1], fixtures, cap, size)
               == Outcomes(segments[..n], fixtures, cap, size)
                  + [OutcomeOf(segments[n], records, Affordable(m, cap, segments[n].id, pages))]
  {
    assert segments[..n + 1][..n] == segments[..n];
  }

  /** The accumulators of the segment loop. */
  datatype Totals = Totals(
    seen: int, outside: int, relists: int, repeated: int, matched: set<VehicleKey>,
    observations: map<VehicleKey, seq<Observation>>, order: seq<VehicleKey>, lines: map<string, Line>)

  ghost predicate TotalsOf(t: Totals, os: seq<Outcome>) {
    && t.seen == Sum(Seen, os) && t.outside == Sum(Outside, os)
    && t.relists == Sum(Relists, os) && t.repeated == Sum(Repeated, os)
    && t.matched == Union(MatchedIn, os) && t.lines == Lines(os)
    && Enumerates(t.order, os) && t.observations.Keys == Union(Vehicles, os)
    && forall key :: key in t.observations ==> t.observations[key] == Observations(os, key) != []
  }

  /** What Absorb promises. */
  ghost predicate Absorbed(first: map<VehicleKey, Observation>,
                           have: map<VehicleKey, seq<Observation>>, all: map<VehicleKey, seq<Observation>>,
                           visited: seq<VehicleKey>) {
    && (forall i, j :: 0 <= i < j < |visited| ==> visited[i] != visited[j])
    && (forall key :: key in visited <==> key in all)
    && all.Keys == have.Keys + first.Keys
    && (forall key :: key in all ==>
          all[key] == (if key in have then have[key] else []) + (if key in first then [first[key]] else []))
  }

  lemma ObservationsAbsorbed(os: seq<Outcome>, o: Outcome, have: map<VehicleKey, seq<Observation>>,
                             all: map<VehicleKey, seq<Observation>>, visited: seq<VehicleKey>)
    requires o.tally.Some? && Absorbed(o.tally.value.first, have, all, visited)
    requires have.Keys == Union(Vehicles, os)
    requires forall key :: key in have ==> have[key] == Observations(os, key) != []
    ensures Enumerates(visited, os + [o]) && all.Keys == Union(Vehicles, os + [o])
    ensures forall key :: key in all ==> all[key] == Observations(os + [o], key) != []
  {
    UnionsAppend(os, o);
    AbsentUnobserved(os);
    forall key | key in all ensures all[key] == Observations(os + [o], key) != [] {
      assert Observations(os + [o], key) == Observations(os, key) + ObservedIn(o, key);
    }
  }

  method AddSegment(t: Totals, s: Segment, records: seq<Listing>, polled: Option<seq<Listing>>, ghost os: seq<Outcome>)
    returns (t': Totals)
    requires TotalsOf(t, os) && (polled.Some? ==> polled.value == records)
    ensures TotalsOf(t', os + [OutcomeOf(s, records, polled.Some?)])
  {
    if polled.None? {
      t' := t.(lines := t.lines[s.id := Line(0, 0, 0, 0, 0, 0, true)]);
      UnreachedSegment(t, os, Outcome(s.id, None));
    } else {
      var w := Walk(s, Sort(CanonicalLeq, polled.value));
      var observations, order := Absorb(w.first, t.observations, t.order);
      t' := Totals(t.seen + w.seen, t.outside + w.outOfRadius, t.relists + w.relists, t.repeated + w.repeated,
                   t.matched + w.matches, observations, order,
                   t.lines[s.id := Line(w.seen, |w.first|, |w.matches|, w.relists, w.repeated, w.outOfRadius, false)]);
      ReachedSegment(t, os, Outcome(s.id, Some(w)), t');
      assert OutcomeOf(s, records, true) == Outcome(s.id, Some(w));
    }
  }

  lemma UnreachedSegment(t: Totals, os: seq<Outcome>, o: Outcome)
    requires TotalsOf(t, os) && o.tally.None?
    ensures TotalsOf(t.(lines := t.lines[o.id := LineOf(o)]), os + [o])
  {
    TotalsAppend(os, o);
    UnionsAppend(os, o);
    UnreachedObservations(t, os, o);
  }

  lemma UnreachedObservations(t: Totals, os: seq<Outcome>, o: Outcome)
    requires TotalsOf(t, os) && o.tally.None?
    ensures Enumerates(t.order, os + [o])
    ensures forall key :: key in t.observations ==> t.observations[key] == Observations(os + [o], key) != []
  {
    UnionsAppend(os, o);
    forall key | key in t.observations ensures t.observations[key] == Observations(os + [o], key) != [] {
      assert ObservedIn(o, key) == [];
      assert Observations(os, key) + [] == Observations(os, key);
    }
  }

  lemma ReachedSegment(t: Totals, os: seq<Outcome>, o: Outcome, t': Totals)
    requires TotalsOf(t, os) && o.tally.Some?
    requires Absorbed(o.tally.value.first, t.observations, t'.observations, t'.order)
    requires var w := o.tally.value;
             && t'.seen == t.seen + w.seen && t'.outside == t.outside + w.outOfRadius
             && t'.relists == t.relists + w.relists && t'.repeated == t.repeated + w.repeated
             && t'.matched == t.matched + w.matches && t'.lines == t.lines[o.id := LineOf(o)]
    ensures TotalsOf(t', os + [o])
  {
    TotalsAppend(os, o);
    UnionsAppend(os, o);
    ObservationsAbsorbed(os, o, t.observations, t'.observations, t'.order);
  }

  lemma TotalsAppend(os: seq<Outcome>, o: Outcome)
    ensures Sum(Seen, os + [o]) == Sum(Seen, os) + Seen(o)
    ensures Sum(Outside, os + [o]) == Sum(Outside, os) + Outside(o)
    ensures Sum(Relists, os + [o]) == Sum(Relists, os) + Relists(o)
    ensures Sum(Repeated, os + [o]) == Sum(Repeated, os) + Repeated(o)
  {
    SumAppend(Seen, os, o);
    SumAppend(Outside, os, o);
    SumAppend(Relists, os, o);
    SumAppend(Repeated, os, o);
  }

  lemma UnionsAppend(os: seq<Outcome>, o: Outcome)
    ensures Union(MatchedIn, os + [o]) == Union(MatchedIn, os) + MatchedIn(o)
    ensures Union(Vehicles, os + [o]) == Union(Vehicles, os) + Vehicles(o)
    ensures Lines(os + [o]) == Lines(os)[o.id := LineOf(o)]
    ensures forall key :: Observations(os + [o], key) == Observations(os, key) + ObservedIn(o, key)
  {
    assert (os + [o])[..|os|] == os;
  }

  /** A vehicle has observations exactly when some segment saw it. */
  lemma {:induction false} AbsentUnobserved(os: seq<Outcome>)
    ensures forall key :: key in Union(Vehicles, os) <==> Observations(os, key) != []
  {
    if os != [] { AbsentUnobserved(os[..|os| - 1]); }
  }
}

/** The asking price comparables of valuation.py: which peers count, how
    cross-posted copies collapse to one, and how the set is narrowed. */
module Comparables {
  import opened Options
  import opened Sequences
  import opened Timestamps

  datatype Seller = PrivateSeller | Dealer | UnknownSeller

  /** A listings row, with what titles and provider extras parse to. A year,
      price or odometer of zero is a missing one. */
  datatype Peer = Peer(
    id: string, vehicleKey: string, make: string, model: string, title: string,
    salvageOrWork: bool, auction: bool, variant: Option<string>,
    year: int, price: real, miles: int, lastSeen: string, age: Option<real>,
    seller: Seller, dist: Option<real>, trim: Option<string>, drivetrain: Option<string>,
    engine: Option<string>)

  datatype Target = Target(
    id: string, vehicleKey: string, year: int, miles: int, located: bool, variant: Option<string>,
    trim: Option<string>, drivetrain: Option<string>, engine: Option<string>)

  const MIN_COMPS := 3
  const REGIONAL_RADIUS := 150.0

  /** How much of a weight something leaves, in hundredths. */
  datatype Share = Full | Of95 | Of90 | Of85 | Of80 | Of75 | Of60 | Of50 | Of30 | Nothing

  function Take(x: real, s: Share): (r: real)
    ensures 0.0 <= x ==> 0.0 <= r <= x
    ensures 0.0 < x && s != Nothing ==> 0.0 < r
  {
    match s
    case Full => x
    case Of95 => 0.95 * x
    case Of90 => 0.9 * x
    case Of85 => 0.85 * x
    case Of80 => 0.8 * x
    case Of75 => 0.75 * x
    case Of60 => 0.6 * x
    case Of50 => 0.5 * x
    case Of30 => 0.3 * x
    case Nothing => 0.0
  }

  function AgeShare(age: Option<real>): Share {
    match age
    case None => Of50
    case Some(days) =>
      if days <= 7.0 then Full else if days <= 21.0 then Of60 else if days <= 45.0 then Of30 else Nothing
  }

  function AgeWeight(age: Option<real>): real {
    Take(1.0, AgeShare(age))
  }

  predicate IsUsable(t: Target, c: Peer) {
    && c.id != t.id
    && !(t.vehicleKey != "" && c.vehicleKey == t.vehicleKey)
    && !c.salvageOrWork && c.price != 0.0 && !c.auction
    && (t.variant.Some? ==> c.variant == t.variant)
    && c.year != 0 && -2 <= c.year - t.year <= 2
    && 1000.0 <= c.price <= 250000.0
    && AgeWeight(c.age) > 0.0
  }

  function Usable(t: Target): Peer -> bool {
    (c: Peer) => IsUsable(t, c)
  }

  method KeepUsable(t: Target, peers: seq<Peer>) returns (usable: seq<Peer>)
    ensures usable == Filter(Usable(t), peers)
  {
    usable := [];
    for n := 0 to |peers|
      invariant usable + Filter(Usable(t), peers[n..]) == Filter(Usable(t), peers)
    {
      assert peers[n..][0] == peers[n] && peers[n..][1..] == peers[n + 1..];
      ghost var rest := Filter(Usable(t), peers[n + 1..]);
      if IsUsable(t, peers[n]) {
        assert usable + ([peers[n]] + rest) == (usable + [peers[n]]) + rest;
        usable := usable + [peers[n]];
      } else {
        assert [] + rest == rest;
      }
    }
    assert peers[|peers|..] == [];
  }

  // ---------- cross-posted copies ----------------------------------------------------

  /** When two rows are the same physical car. */
  datatype CrossKey =
    | ByVehicle(vehicleKey: string)
    | ByMileage(year: int, make: string, model: string, price: real, band: int)
    | ByTitle(year: int, make: string, model: string, price: real, title: string)

  function KeyOf(c: Peer): CrossKey {
    if c.vehicleKey != "" then ByVehicle(c.vehicleKey)
    else if c.miles != 0 then ByMileage(c.year, c.make, c.model, c.price, c.miles / 500)
    else ByTitle(c.year, c.make, c.model, c.price, c.title)
  }

  predicate LaterSeen(c: Peer, cur: Peer) {
    TextLess(cur.lastSeen, c.lastSeen)
  }

  /** The copy under key `k` that survives reading `s`. */
  function Survivor(s: seq<Peer>, k: CrossKey): Option<Peer> {
    if s == [] then None
    else
      var cur, c := Survivor(s[..|s| - 1], k), s[|s| - 1];
      if KeyOf(c) == k && (cur.None? || LaterSeen(c, cur.value)) then Some(c) else cur
  }

  /** The keys of `s`, each where it first appears. */
  function Keys(s: seq<Peer>): (r: seq<CrossKey>)
  {
    if s == [] then []
    else
      var r, k := Keys(s[..|s| - 1]), KeyOf(s[|s| - 1]);
      if k in r then r else r + [k]
  }

  lemma {:induction false} KeysAreTheKeys(s: seq<Peer>, k: CrossKey)
    ensures k in Keys(s) <==> exists c :: c in s && KeyOf(c) == k
    ensures k in Keys(s) <==> Survivor(s, k).Some?
  {
    if s != [] {
      var init, c := s[..|s| - 1], s[|s| - 1];
      KeysAreTheKeys(init, k);
      assert s == init + [c];
    }
  }

  lemma {:induction false} KeysAreDistinct(s: seq<Peer>)
    ensures forall i, j :: 0 <= i < j < |Keys(s)| ==> Keys(s)[i] != Keys(s)[j]
  {
    if s != [] { KeysAreDistinct(s[..|s| - 1]); }
  }

  /** One row a key. */
  function Collapse(s: seq<Peer>): (r: seq<Peer>)
    ensures |r| == |Keys(s)|
  {
    var keys := Keys(s);
    seq(|keys|, i requires 0 <= i < |keys| =>
      KeysAreTheKeys(s, keys[i]);
      Survivor(s, keys[i]).value)
  }

  method CollapseCrossPosts(usable: seq<Peer>) returns (r: seq<Peer>)
    ensures r == Collapse(usable)
  {
    var order: seq<CrossKey> := [];
    var kept: map<CrossKey, Peer> := map[];
    for n := 0 to |usable|
      invariant order == Keys(usable[..n])
      invariant forall k :: k in kept <==> k in order
      invariant forall k :: k in kept ==> Survivor(usable[..n], k) == Some(kept[k])
    {
      var c := usable[n];
      var k := KeyOf(c);
      assert usable[..n + 1][..n] == usable[..n] && usable[..n + 1][n] == c;
      KeysAreTheKeys(usable[..n], k);
      if k !in kept {
        order := order + [k];
        kept := kept[k := c];
      } else if LaterSeen(c, kept[k]) {
        kept := kept[k := c];
      }
    }
    assert usable[..|usable|] == usable;
    r := seq(|order|, i requires 0 <= i < |order| => kept[order[i]]);
  }

  // ---------- which copy survives -----------------------------------------------------

  /** No copy of the same car in `s` was seen later. */
  ghost predicate IsLatest(s: seq<Peer>, c: Peer) {
    c in s && forall d :: d in s && KeyOf(d) == KeyOf(c) ==> !LaterSeen(d, c)
  }

  /** All copies that tie for latest are the same row. */
  ghost predicate Unambiguous(s: seq<Peer>) {
    forall c, d :: IsLatest(s, c) && IsLatest(s, d) && KeyOf(c) == KeyOf(d) ==> c == d
  }

  lemma CharOrder()
    ensures TotalOrder(CharLeq)
  {
  }

  lemma LaterSeenIsTransitive(a: Peer, b: Peer, c: Peer)
    ensures LaterSeen(a, b) && !LaterSeen(c, b) ==> !LaterSeen(c, a)
    ensures !LaterSeen(a, a) && !(LaterSeen(a, b) && LaterSeen(b, a))
  {
    CharOrder();
    LexTotalAndAntisymmetric(CharLeq, a.lastSeen, b.lastSeen);
    LexTotalAndAntisymmetric(CharLeq, b.lastSeen, c.lastSeen);
    if LaterSeen(c, a) && LaterSeen(a, b) {
      LexTransitive(CharLeq, b.lastSeen, a.lastSeen, c.lastSeen);
      LexTotalAndAntisymmetric(CharLeq, a.lastSeen, c.lastSeen);
    }
  }

  lemma {:induction false} SurvivorIsLatest(s: seq<Peer>, k: CrossKey)
    requires Survivor(s, k).Some?
    ensures var c := Survivor(s, k).value; KeyOf(c) == k && IsLatest(s, c)
  {
    var init, last, c := s[..|s| - 1], s[|s| - 1], Survivor(s, k).value;
    assert s == init + [last];
    if Survivor(init, k).Some? {
      var cur := Survivor(init, k).value;
      SurvivorIsLatest(init, k);
      forall d | d in s && KeyOf(d) == k ensures !LaterSeen(d, c) {
        LaterSeenIsTransitive(c, cur, d);
        LaterSeenIsTransitive(d, d, d);
      }
    } else {
      forall d | d in s && KeyOf(d) == k ensures !LaterSeen(d, c) {
        KeysAreTheKeys(init, k);
        LaterSeenIsTransitive(d, d, d);
      }
    }
  }

  lemma CollapseMembers(s: seq<Peer>, c: Peer)
    ensures c in Collapse(s) <==> Survivor(s, KeyOf(c)) == Some(c)
  {
    var keys := Keys(s);
    if c in Collapse(s) {
      var i :| 0 <= i < |keys| && Collapse(s)[i] == c;
      KeysAreTheKeys(s, keys[i]);
      SurvivorIsLatest(s, keys[i]);
    }
    if Survivor(s, KeyOf(c)) == Some(c) {
      KeysAreTheKeys(s, KeyOf(c));
      var i :| 0 <= i < |keys| && keys[i] == KeyOf(c);
      assert Collapse(s)[i] == c;
    }
  }

  lemma CollapseIsDistinct(s: seq<Peer>)
    ensures forall i, j :: 0 <= i < j < |Collapse(s)| ==> Collapse(s)[i] != Collapse(s)[j]
  {
    KeysAreDistinct(s);
    forall i, j | 0 <= i < j < |Collapse(s)| ensures Collapse(s)[i] != Collapse(s)[j] {
      KeysAreTheKeys(s, Keys(s)[i]);
      KeysAreTheKeys(s, Keys(s)[j]);
      SurvivorIsLatest(s, Keys(s)[i]);
      SurvivorIsLatest(s, Keys(s)[j]);
    }
  }

  lemma LatestOfPermutation(a: seq<Peer>, b: seq<Peer>, c: Peer)
    requires Permutation(a, b)
    ensures IsLatest(a, c) <==> IsLatest(b, c)
  {
    forall d ensures d in a <==> d in b { SameMembers(a, b, d); }
  }

  lemma SurvivorOfPermutation(a: seq<Peer>, b: seq<Peer>, k: CrossKey)
    requires Permutation(a, b) && Unambiguous(a)
    ensures Survivor(a, k) == Survivor(b, k)
  {
    forall d ensures d in a <==> d in b { SameMembers(a, b, d); }
    KeysAreTheKeys(a, k);
    KeysAreTheKeys(b, k);
    if Survivor(a, k).Some? {
      SurvivorIsLatest(a, k);
      SurvivorIsLatest(b, k);
      LatestOfPermutation(a, b, Survivor(b, k).value);
    }
  }

  lemma CollapseOfPermutation(a: seq<Peer>, b: seq<Peer>)
    requires Permutation(a, b) && Unambiguous(a)
    ensures Permutation(Collapse(a), Collapse(b))
  {
    forall c ensures c in Collapse(a) <==> c in Collapse(b) {
      CollapseMembers(a, c);
      CollapseMembers(b, c);
      SurvivorOfPermutation(a, b, KeyOf(c));
    }
    CollapseIsDistinct(a);
    CollapseIsDistinct(b);
    DistinctSameMembers(Collapse(a), Collapse(b));
  }

  lemma {:induction false} FirstCopyStands(s: seq<Peer>)
    requires s != [] && IsLatest(s, s[0])
    ensures Survivor(s, KeyOf(s[0])) == Some(s[0])
  {
    if |s| > 1 {
      var init := s[..|s| - 1];
      assert init[0] == s[0] && forall d :: d in init ==> d in s;
      FirstCopyStands(init);
    } else {
      assert Survivor(s[..0], KeyOf(s[0])).None?;
    }
  }

  /** `s` with one of its elements moved to the front. */
  lemma ToFront(s: seq<Peer>, c: Peer) returns (r: seq<Peer>)
    requires c in s
    ensures r != [] && r[0] == c && Permutation(s, r)
  {
    var i :| 0 <= i < |s| && s[i] == c;
    r := [c] + Drop(s, i);
  }

  ghost predicate CollapseIgnoresOrder(s: seq<Peer>) {
    forall b: seq<Peer> :: Permutation(s, b) ==> Permutation(Collapse(s), Collapse(b))
  }

  lemma AmbiguityShows(s: seq<Peer>, c: Peer, d: Peer)
    requires IsLatest(s, c) && IsLatest(s, d) && KeyOf(c) == KeyOf(d) && c != d
    ensures !CollapseIgnoresOrder(s)
  {
    var a := ToFront(s, c);
    var b := ToFront(s, d);
    LatestOfPermutation(s, a, c);
    LatestOfPermutation(s, b, d);
    FirstCopyStands(a);
    FirstCopyStands(b);
    CollapseMembers(a, c);
    CollapseMembers(b, c);
    assert c in Collapse(a) && c !in Collapse(b);
    assert multiset(Collapse(a))[c] != multiset(Collapse(b))[c];
  }

  /** The order of the peers is invisible after the collapse exactly when no
      car has two different copies that tie for latest. */
  lemma OrderShowsExactlyWhenAmbiguous(s: seq<Peer>)
    ensures CollapseIgnoresOrder(s) <==> Unambiguous(s)
  {
    if Unambiguous(s) {
      forall b: seq<Peer> | Permutation(s, b) ensures Permutation(Collapse(s), Collapse(b)) {
        CollapseOfPermutation(s, b);
      }
    } else {
      var c, d :| IsLatest(s, c) && IsLatest(s, d) && KeyOf(c) == KeyOf(d) && c != d;
      AmbiguityShows(s, c, d);
    }
  }

  // ---------- narrowing ----------------------------------------------------------------

  /** The matching peers when there are enough of them, else all. */
  function Narrow(on: bool, p: Peer -> bool, s: seq<Peer>): (r: seq<Peer>)
    ensures |r| <= |s| && (|s| >= MIN_COMPS ==> |r| >= MIN_COMPS)
  {
    var m := Filter(p, s);
    if on && |m| >= MIN_COMPS then m else s
  }

  lemma NarrowOfPermutation(on: bool, p: Peer -> bool, a: seq<Peer>, b: seq<Peer>)
    requires Permutation(a, b)
    ensures Permutation(Narrow(on, p, a), Narrow(on, p, b))
    ensures |Filter(p, a)| == |Filter(p, b)| && |a| == |b|
  {
    FilterOfPermutation(p, a, b);
    SameLength(a, b);
  }

  function IsLocal(): Peer -> bool {
    (c: Peer) => c.dist.Some? && c.dist.value <= REGIONAL_RADIUS
  }

  function IsPrivate(): Peer -> bool {
    (c: Peer) => c.seller == PrivateSeller
  }

  function NearYear(year: int): Peer -> bool {
    (c: Peer) => -1 <= c.year - year <= 1
  }

  function HasTrim(trim: Option<string>): Peer -> bool {
    (c: Peer) => c.trim == trim
  }

  function HasDrivetrain(d: Option<string>): Peer -> bool {
    (c: Peer) => c.drivetrain == d
  }

  function HasEngine(e: Option<string>): Peer -> bool {
    (c: Peer) => c.engine == e
  }

  datatype Geography = Unknown | Regional | National

  /** What the narrowing says about the set it leaves. */
  datatype Notes = Notes(geography: Geography, dealerFallback: bool, wideYears: bool, trimMatched: bool)

  function ByPlace(t: Target, s: seq<Peer>): seq<Peer> {
    Narrow(t.located, IsLocal(), s)
  }

  function BySeller(t: Target, s: seq<Peer>): seq<Peer> {
    Narrow(true, IsPrivate(), ByPlace(t, s))
  }

  function ByYear(t: Target, s: seq<Peer>): seq<Peer> {
    Narrow(true, NearYear(t.year), BySeller(t, s))
  }

  function ByTrim(t: Target, s: seq<Peer>): seq<Peer> {
    Narrow(t.trim.Some?, HasTrim(t.trim), ByYear(t, s))
  }

  function Selected(t: Target, s: seq<Peer>): (r: seq<Peer>)
    ensures |s| >= MIN_COMPS ==> |r| >= MIN_COMPS
  {
    Narrow(t.engine.Some?, HasEngine(t.engine), Narrow(t.drivetrain.Some?, HasDrivetrain(t.drivetrain), ByTrim(t, s)))
  }

  function NotesOf(t: Target, s: seq<Peer>): Notes {
    var placed := ByPlace(t, s);
    var private := |Filter(IsPrivate(), placed)|;
    Notes(
      if !t.located then Unknown
      else if |Filter(IsLocal(), s)| >= MIN_COMPS then Regional
      else if s != [] then National else Unknown,
      private < MIN_COMPS && private < |placed|,
      |Filter(NearYear(t.year), BySeller(t, s))| < MIN_COMPS,
      t.trim.Some? && |Filter(HasTrim(t.trim), ByYear(t, s))| >= MIN_COMPS)
  }

  lemma PlaceAndSeller(t: Target, a: seq<Peer>, b: seq<Peer>)
    requires Permutation(a, b)
    ensures Permutation(ByPlace(t, a), ByPlace(t, b)) && Permutation(BySeller(t, a), BySeller(t, b))
  {
    NarrowOfPermutation(t.located, IsLocal(), a, b);
    NarrowOfPermutation(true, IsPrivate(), ByPlace(t, a), ByPlace(t, b));
  }

  lemma YearAndTrim(t: Target, a: seq<Peer>, b: seq<Peer>)
    requires Permutation(a, b)
    ensures Permutation(ByYear(t, a), ByYear(t, b)) && Permutation(ByTrim(t, a), ByTrim(t, b))
  {
    PlaceAndSeller(t, a, b);
    NarrowOfPermutation(true, NearYear(t.year), BySeller(t, a), BySeller(t, b));
    NarrowOfPermutation(t.trim.Some?, HasTrim(t.trim), ByYear(t, a), ByYear(t, b));
  }

  lemma SelectedOfPermutation(t: Target, a: seq<Peer>, b: seq<Peer>)
    requires Permutation(a, b)
    ensures Permutation(Selected(t, a), Selected(t, b))
  {
    YearAndTrim(t, a, b);
    var p, q := HasDrivetrain(t.drivetrain), HasEngine(t.engine);
    var on, engineOn := t.drivetrain.Some?, t.engine.Some?;
    NarrowOfPermutation(on, p, ByTrim(t, a), ByTrim(t, b));
    NarrowOfPermutation(engineOn, q, Narrow(on, p, ByTrim(t, a)), Narrow(on, p, ByTrim(t, b)));
  }

  lemma SameCounts(p: Peer -> bool, a: seq<Peer>, b: seq<Peer>)
    requires Permutation(a, b)
    ensures |Filter(p, a)| == |Filter(p, b)| && |a| == |b|
  {
    NarrowOfPermutation(true, p, a, b);
  }

  lemma NotesOfPermutation(t: Target, a: seq<Peer>, b: seq<Peer>)
    requires Permutation(a, b)
    ensures NotesOf(t, a) == NotesOf(t, b)
  {
    PlaceAndSeller(t, a, b);
    YearAndTrim(t, a, b);
    SameCounts(IsLocal(), a, b);
    SameCounts(IsPrivate(), ByPlace(t, a), ByPlace(t, b));
    SameCounts(NearYear(t.year), BySeller(t, a), BySeller(t, b));
    SameCounts(HasTrim(t.trim), ByYear(t, a), ByYear(t, b));
  }

  // ---------- what the narrowing leaves ------------------------------------------------------

  lemma NarrowMembers(on: bool, p: Peer -> bool, s: seq<Peer>, c: Peer)
    requires c in Narrow(on, p, s)
    ensures c in s && (on && |Filter(p, s)| >= MIN_COMPS ==> p(c))
  {
    FilterMembers(p, s, c);
  }

  lemma {:induction false} FilterKeepsAll(p: Peer -> bool, s: seq<Peer>, c: Peer)
    requires |Filter(p, s)| == |s| && c in s
    ensures p(c)
  {
    if c != s[0] { FilterKeepsAll(p, s[1..], c); }
  }

  lemma SelectedStages(t: Target, s: seq<Peer>, c: Peer)
    requires c in Selected(t, s)
    ensures c in ByTrim(t, s) && c in ByYear(t, s) && c in BySeller(t, s) && c in ByPlace(t, s) && c in s
  {
    var p, q := HasDrivetrain(t.drivetrain), HasEngine(t.engine);
    NarrowMembers(t.engine.Some?, q, Narrow(t.drivetrain.Some?, p, ByTrim(t, s)), c);
    NarrowMembers(t.drivetrain.Some?, p, ByTrim(t, s), c);
    NarrowMembers(t.trim.Some?, HasTrim(t.trim), ByYear(t, s), c);
    NarrowMembers(true, NearYear(t.year), BySeller(t, s), c);
    NarrowMembers(true, IsPrivate(), ByPlace(t, s), c);
    NarrowMembers(t.located, IsLocal(), s, c);
  }

  /** What is reported about the comparables is true of each one that is used,
      however the later stages narrow. */
  lemma NotesAreTrue(t: Target, s: seq<Peer>, c: Peer)
    requires c in Selected(t, s)
    ensures NotesOf(t, s).geography == Regional ==> c.dist.Some? && c.dist.value <= REGIONAL_RADIUS
    ensures !NotesOf(t, s).dealerFallback ==> c.seller == PrivateSeller
    ensures !NotesOf(t, s).wideYears ==> -1 <= c.year - t.year <= 1
    ensures NotesOf(t, s).trimMatched ==> c.trim == t.trim
  {
    SelectedStages(t, s, c);
    NarrowMembers(t.located, IsLocal(), s, c);
    NarrowMembers(true, IsPrivate(), ByPlace(t, s), c);
    NarrowMembers(true, NearYear(t.year), BySeller(t, s), c);
    NarrowMembers(t.trim.Some?, HasTrim(t.trim), ByYear(t, s), c);
    if |Filter(IsPrivate(), ByPlace(t, s))| == |ByPlace(t, s)| { FilterKeepsAll(IsPrivate(), ByPlace(t, s), c); }
  }

  /** Every comparable is a usable peer, and no two are the same car. */
  lemma ComparablesAreUsable(t: Target, peers: seq<Peer>, c: Peer, d: Peer)
    requires c in Selected(t, Collapse(Filter(Usable(t), peers)))
    requires d in Selected(t, Collapse(Filter(Usable(t), peers)))
    ensures c in peers && IsUsable(t, c)
    ensures KeyOf(c) == KeyOf(d) ==> c == d
  {
    var u := Filter(Usable(t), peers);
    SelectedStages(t, Collapse(u), c);
    SelectedStages(t, Collapse(u), d);
    CollapseMembers(u, c);
    CollapseMembers(u, d);
    SurvivorIsLatest(u, KeyOf(c));
    FilterMembers(Usable(t), peers, c);
  }
}

/** Market value of a listing from the evidence valuation.py accepts. */
module Valuations {
  import opened Options
  import opened Rounding
  import opened Sequences
  import opened Statistics
  import opened Comparables

  // ---------- from peers to weighted prices -----------------------------------------

  datatype Pair = Pair(value: real, weight: real, peer: Peer)

  const MIN_MILEAGE_POINTS := 6
  const MILEAGE_GAP := 40000

  function Metered(): Peer -> bool {
    (c: Peer) => c.miles != 0
  }

  function ToPoint(): Peer -> Point {
    (c: Peer) => Point(c.miles, c.price)
  }

  /** Dollars a mile, never upwards and never steeper than thirty cents. */
  function Clamp(slope: real): (r: real)
    ensures -0.30 <= r <= 0.0
  {
    if slope > 0.0 then 0.0 else if slope < -0.30 then -0.30 else slope
  }

  function Adjustment(slope: Option<real>): (r: Option<real>)
    ensures r.Some? ==> -0.30 <= r.value < 0.0
  {
    if slope.Some? && Clamp(slope.value) < 0.0 then Some(Clamp(slope.value)) else None
  }

  /** The mileage adjustment, when there are points enough and they fall. */
  function SlopeFor(t: Target, chosen: seq<Peer>): (r: Option<real>)
    ensures r.Some? ==> t.miles != 0 && -0.30 <= r.value < 0.0
  {
    var m := Filter(Metered(), chosen);
    if t.miles == 0 || |m| < MIN_MILEAGE_POINTS then None
    else Adjustment(TheilSen(Map(ToPoint(), m)))
  }

  function YearShare(t: Target, c: Peer): Share {
    var dy := c.year - t.year;
    if dy == 0 then Full else if dy == 1 || dy == -1 then Of90 else Of75
  }

  function MileShare(t: Target, c: Peer): Share {
    var d := c.miles - t.miles;
    if t.miles == 0 then Full
    else if c.miles == 0 then Of85
    else if d > 40000 || d < -40000 then Of75
    else if d > 15000 || d < -15000 then Of90
    else Full
  }

  function PlaceShare(t: Target, c: Peer): Share {
    if !t.located then Full
    else if c.dist.None? then Of90
    else if c.dist.value > REGIONAL_RADIUS then Of80
    else if c.dist.value > 50.0 then Of95
    else Full
  }

  function TrimShare(t: Target, c: Peer): Share {
    if t.trim.None? then Full else if c.trim.None? then Of90 else if c.trim != t.trim then Of85 else Full
  }

  /** match_quality: a peer's similarity, never zero. */
  function Quality(t: Target, c: Peer): (q: real)
    ensures 0.0 < q <= 1.0
  {
    Take(Take(Take(Take(1.0, YearShare(t, c)), MileShare(t, c)), PlaceShare(t, c)), TrimShare(t, c))
  }

  function Adjusted(t: Target, slope: Option<real>, c: Peer): real {
    if slope.Some? && c.miles != 0 then c.price + slope.value * (t.miles - c.miles) as real else c.price
  }

  function MakePair(value: real, t: Target, c: Peer): Pair {
    Pair(value, Take(Quality(t, c), AgeShare(c.age)), c)
  }

  function ToPair(t: Target, slope: Option<real>): Peer -> Pair {
    (c: Peer) => MakePair(Adjusted(t, slope, c), t, c)
  }

  /** A peer without an odometer cannot be adjusted and drops out. */
  function Adjustable(slope: Option<real>): Peer -> bool {
    (c: Peer) => slope.None? || c.miles != 0
  }

  function PairsFor(t: Target, slope: Option<real>, chosen: seq<Peer>): (r: seq<Pair>)
    ensures |r| <= |chosen|
  {
    Map(ToPair(t, slope), Filter(Adjustable(slope), chosen))
  }

  lemma PairsHead(t: Target, slope: Option<real>, c: Peer, rest: seq<Peer>)
    ensures PairsFor(t, slope, [c] + rest)
         == (if Adjustable(slope)(c) then [ToPair(t, slope)(c)] else []) + PairsFor(t, slope, rest)
  {
    assert ([c] + rest)[1..] == rest;
    var f := Filter(Adjustable(slope), rest);
    assert Map(ToPair(t, slope), [c] + f) == [ToPair(t, slope)(c)] + Map(ToPair(t, slope), f);
    assert [] + f == f && [] + PairsFor(t, slope, rest) == PairsFor(t, slope, rest);
  }

  method PriceOne(t: Target, slope: Option<real>, c: Peer) returns (v: real)
    ensures v == Adjusted(t, slope, c)
  {
    v := c.price;
    if slope.Some? && c.miles != 0 {
      v := v + slope.value * (t.miles - c.miles) as real;
    }
  }

  method PricePairs(t: Target, slope: Option<real>, chosen: seq<Peer>) returns (pairs: seq<Pair>)
    ensures pairs == PairsFor(t, slope, chosen)
  {
    pairs := [];
    for n := 0 to |chosen|
      invariant pairs + PairsFor(t, slope, chosen[n..]) == PairsFor(t, slope, chosen)
    {
      ghost var rest := PairsFor(t, slope, chosen[n + 1..]);
      assert chosen[n..] == [chosen[n]] + chosen[n + 1..];
      PairsHead(t, slope, chosen[n], chosen[n + 1..]);
      if slope.Some? && chosen[n].miles == 0 {
        assert [] + rest == rest;
        continue;
      }
      var v := PriceOne(t, slope, chosen[n]);
      var p := MakePair(v, t, chosen[n]);
      Regroup(pairs, [p], rest);
      pairs := pairs + [p];
    }
    assert chosen[|chosen|..] == [];
  }

  lemma PairsOfPermutedPeers(t: Target, slope: Option<real>, a: seq<Peer>, b: seq<Peer>)
    requires Permutation(a, b)
    ensures Permutation(PairsFor(t, slope, a), PairsFor(t, slope, b))
  {
    FilterOfPermutation(Adjustable(slope), a, b);
    MapOfPermutation(ToPair(t, slope), Filter(Adjustable(slope), a), Filter(Adjustable(slope), b));
  }

  lemma SlopeOfPermutedPeers(t: Target, a: seq<Peer>, b: seq<Peer>)
    requires Permutation(a, b)
    ensures SlopeFor(t, a) == SlopeFor(t, b)
  {
    var m, n := Filter(Metered(), a), Filter(Metered(), b);
    FilterOfPermutation(Metered(), a, b);
    MapOfPermutation(ToPoint(), m, n);
    TheilSenOfPermutation(Map(ToPoint(), m), Map(ToPoint(), n));
  }

  // ---------- the value and its range ------------------------------------------------

  datatype Range = Range(low: real, mid: real, high: real)

  ghost predicate Ordered(r: Range) {
    r.low <= r.mid <= r.high
  }

  function RangeOf(s: seq<Weighted>): Range
    requires s != []
  {
    Range(Quantile(s, 0.25), Quantile(s, 0.5), Quantile(s, 0.75))
  }

  method ValueFrom(s: seq<Weighted>) returns (r: Range)
    requires s != []
    ensures r == RangeOf(s)
  {
    var low := WQuantile(s, 0.25);
    var mid := WQuantile(s, 0.5);
    var high := WQuantile(s, 0.75);
    r := Range(low, mid, high);
  }

  lemma RangeIsOrdered(s: seq<Weighted>)
    requires s != [] && Positive(s)
    ensures Ordered(RangeOf(s))
  {
    QuantileMonotone(s, 0.25, 0.5);
    QuantileMonotone(s, 0.5, 0.75);
  }

  lemma RangeOfPermutation(a: seq<Weighted>, b: seq<Weighted>)
    requires Permutation(a, b) && a != []
    ensures b != [] && RangeOf(a) == RangeOf(b)
  {
    SameLength(a, b);
    QuantileOfPermutation(a, b, 0.25);
    QuantileOfPermutation(a, b, 0.5);
    QuantileOfPermutation(a, b, 0.75);
  }

  function PairValue(): Pair -> real {
    (p: Pair) => p.value
  }

  function PairWeighted(): Pair -> Weighted {
    (p: Pair) => Weighted(p.value, p.weight)
  }

  /** Sold prices that the classification lets through. */
  type SalePrice = x: real | 1000.0 <= x <= 250000.0 witness 1000.0

  datatype Sold = Sold(confirmed: seq<SalePrice>, historical: seq<SalePrice>)

  function Price(): SalePrice -> real {
    (x: SalePrice) => x
  }

  function PriceWeighted(): SalePrice -> Weighted {
    (x: SalePrice) => Weighted(x, 1.0)
  }

  function KeptSales(sales: seq<SalePrice>): (r: seq<SalePrice>)
    ensures |sales| >= MIN_COMPS ==> |r| >= MIN_COMPS
  {
    MadKeepsMajority(Price(), sales);
    MadFilter(Price(), sales)
  }

  function SalesRange(sales: seq<SalePrice>): (r: Range)
    requires |sales| >= MIN_COMPS
    ensures r.mid >= 1000.0
  {
    var s := Map(PriceWeighted(), KeptSales(sales));
    QuantileIsMember(s, 0.5);
    RangeOf(s)
  }

  lemma SalesOfPermutation(a: seq<SalePrice>, b: seq<SalePrice>)
    requires Permutation(a, b) && |a| >= MIN_COMPS
    ensures |a| == |b| && |KeptSales(a)| == |KeptSales(b)| && SalesRange(a) == SalesRange(b)
  {
    SameLength(a, b);
    MadFilterOfPermutation(Price(), a, b);
    SameLength(KeptSales(a), KeptSales(b));
    MapOfPermutation(PriceWeighted(), KeptSales(a), KeptSales(b));
    RangeOfPermutation(Map(PriceWeighted(), KeptSales(a)), Map(PriceWeighted(), KeptSales(b)));
  }

  lemma SalesRangeIsOrdered(sales: seq<SalePrice>)
    requires |sales| >= MIN_COMPS
    ensures Ordered(SalesRange(sales))
  {
    RangeIsOrdered(Map(PriceWeighted(), KeptSales(sales)));
  }

  // ---------- confidence ----------------------------------------------------------------

  datatype Evidence = ConfirmedSales | Asking | Historical | Insufficient

  datatype Confidence = High | Medium | Low | NoConfidence

  datatype Valuation = Valuation(
    evidence: Evidence, range: Option<Range>, n: nat, confidence: Confidence,
    slope: Option<real>, dealerShare: real, geography: Geography)

  function ConfidenceOf(points: int): Confidence {
    if points >= 4 then High else if points >= 2 then Medium else Low
  }

  function SamplePoints(n: nat): int {
    if n >= 10 then 2 else if n >= 5 then 1 else 0
  }

  function SpreadPoints(r: Range): int {
    var spread := if r.mid != 0.0 then (r.high - r.low) / r.mid else 1.0;
    if spread <= 0.15 then 1 else if spread > 0.35 then -1 else 0
  }

  function PlacePoints(notes: Notes): int {
    if notes.geography == National then -1 else 0
  }

  function OtherTrim(t: Target): Pair -> bool {
    (p: Pair) => p.peer.trim.Some? && p.peer.trim != t.trim
  }

  function HasMiles(): Pair -> bool {
    (p: Pair) => p.peer.miles != 0
  }

  predicate AboveAll(t: Target, metered: seq<Pair>) {
    forall p :: p in metered ==> t.miles - p.peer.miles > MILEAGE_GAP
  }

  predicate BelowAll(t: Target, metered: seq<Pair>) {
    forall p :: p in metered ==> p.peer.miles - t.miles > MILEAGE_GAP
  }

  /** The odometers are far from the listing's, and there are enough to say so. */
  predicate Gap(t: Target, slope: Option<real>, pairs: seq<Pair>) {
    var metered := Filter(HasMiles(), pairs);
    && t.miles != 0 && |metered| >= MIN_COMPS
    && (AboveAll(t, metered) || (slope.Some? && BelowAll(t, metered)))
  }

  predicate MostlyOtherTrims(t: Target, notes: Notes, pairs: seq<Pair>) {
    t.trim.Some? && !notes.trimMatched && 2 * Count(OtherTrim(t), pairs) > |pairs|
  }

  /** Reasons that hold confidence at low. */
  predicate CappedLow(t: Target, notes: Notes, slope: Option<real>, pairs: seq<Pair>) {
    MostlyOtherTrims(t, notes, pairs) || (slope.None? && Gap(t, slope, pairs))
  }

  function FitPoints(t: Target, notes: Notes, slope: Option<real>, pairs: seq<Pair>): int {
    (if notes.wideYears then 0 else 1) + (if notes.trimMatched then 1 else 0)
    - (if slope.None? && t.miles == 0 then 1 else 0)
    - (if slope.Some? && Gap(t, slope, pairs) then 1 else 0)
    - (if notes.dealerFallback then 1 else 0)
  }

  function AskingPoints(t: Target, notes: Notes, slope: Option<real>, pairs: seq<Pair>, r: Range): int {
    var points := PlacePoints(notes) + SamplePoints(|pairs|) + SpreadPoints(r) + FitPoints(t, notes, slope, pairs);
    if CappedLow(t, notes, slope, pairs) && points > 1 then 1 else points
  }

  predicate Conflict(asking: Option<Range>, mid: real)
    requires mid > 0.0
  {
    asking.Some? && Abs(asking.value.mid - mid) / mid > 0.25
  }

  function SalesPoints(notes: Notes, n: nat, r: Range, asking: Option<Range>): int
    requires r.mid > 0.0
  {
    PlacePoints(notes) + 1 + SamplePoints(n) + SpreadPoints(r) - (if Conflict(asking, r.mid) then 1 else 0)
  }

  function NotPrivate(): Pair -> bool {
    (p: Pair) => p.peer.seller != PrivateSeller
  }

  function DealerShare(pairs: seq<Pair>): real {
    if pairs == [] then 0.0 else RoundCents(Count(NotPrivate(), pairs) as real / |pairs| as real)
  }

  /** Asking prices are not transactions: three per cent wider on each side. */
  function Widen(r: Range): Range {
    Range(r.low - r.mid * 0.03, r.mid, r.high + r.mid * 0.03)
  }

  function Cents(r: Range): Range {
    Range(RoundCents(r.low), RoundCents(r.mid), RoundCents(r.high))
  }

  /** _finish: the label, the widening, and the rounding. */
  function FinishRange(evidence: Evidence, r: Range): Range {
    Cents(if (evidence == Asking || evidence == Historical) && r.mid != 0.0 then Widen(r) else r)
  }

  function FinishConfidence(evidence: Evidence, r: Range, points: int): Confidence {
    var c := ConfidenceOf(points);
    if (evidence == Asking || evidence == Historical) && r.mid != 0.0 && c == High then Medium else c
  }

  // ---------- value_listing ----------------------------------------------------------------

  function AskingRange(pairs: seq<Pair>): Option<Range> {
    if |pairs| >= MIN_COMPS then Some(RangeOf(Map(PairWeighted(), pairs))) else None
  }

  /** The strongest evidence there is enough of decides. */
  function Appraise(t: Target, notes: Notes, slope: Option<real>, pairs: seq<Pair>, sold: Sold): Valuation {
    var asking := AskingRange(pairs);
    if |sold.confirmed| >= MIN_COMPS then
      var n, r := |KeptSales(sold.confirmed)|, SalesRange(sold.confirmed);
      Valuation(ConfirmedSales, Some(FinishRange(ConfirmedSales, r)), n,
                FinishConfidence(ConfirmedSales, r, SalesPoints(notes, n, r, asking)),
                slope, 0.0, notes.geography)
    else if asking.Some? then
      var r := asking.value;
      Valuation(Asking, Some(FinishRange(Asking, r)), |pairs|,
                FinishConfidence(Asking, r, AskingPoints(t, notes, slope, pairs, r)),
                slope, DealerShare(pairs), notes.geography)
    else if |sold.historical| >= MIN_COMPS then
      var r := SalesRange(sold.historical);
      Valuation(Historical, Some(FinishRange(Historical, r)), |KeptSales(sold.historical)|,
                FinishConfidence(Historical, r, PlacePoints(notes) - 1), None, 0.0, notes.geography)
    else
      Valuation(Insufficient, None, |pairs|, NoConfidence, None, 0.0, notes.geography)
  }

  function KeptPairs(t: Target, chosen: seq<Peer>): seq<Pair> {
    MadFilter(PairValue(), PairsFor(t, SlopeFor(t, chosen), chosen))
  }

  /** The peers that survive the usability rules, one a car. */
  function Candidates(t: Target, peers: seq<Peer>): seq<Peer> {
    Collapse(Filter(Usable(t), peers))
  }

  function ValueFor(t: Target, candidates: seq<Peer>, sold: Sold): Valuation {
    var chosen := Selected(t, candidates);
    Appraise(t, NotesOf(t, candidates), SlopeFor(t, chosen), KeptPairs(t, chosen), sold)
  }

  method ValueListing(t: Target, peers: seq<Peer>, sold: Sold) returns (v: Valuation)
    ensures v == ValueFor(t, Candidates(t, peers), sold)
  {
    var usable := KeepUsable(t, peers);
    usable := CollapseCrossPosts(usable);
    var notes := NotesOf(t, usable);
    usable := Selected(t, usable);
    var slope: Option<real> := None;
    var withMiles := Filter(Metered(), usable);
    if t.miles != 0 && |withMiles| >= MIN_MILEAGE_POINTS {
      slope := TheilSenSlope(Map(ToPoint(), withMiles));
      slope := Adjustment(slope);
    }
    var pairs := PricePairs(t, slope, usable);
    pairs := MadFilter(PairValue(), pairs);
    v := Judge(t, notes, slope, pairs, sold);
  }

  method ScoreSales(notes: Notes, n: nat, r: Range, asking: Option<Range>) returns (points: int)
    requires r.mid > 0.0
    ensures points == SalesPoints(notes, n, r, asking)
  {
    points := 0;
    if notes.geography == National { points := points - 1; }
    points := points + 1;
    if n >= 10 { points := points + 2; } else if n >= 5 { points := points + 1; }
    if Conflict(asking, r.mid) { points := points - 1; }
    points := points + SpreadPoints(r);
  }

  method ScoreAsking(t: Target, notes: Notes, slope: Option<real>, pairs: seq<Pair>, r: Range)
    returns (points: int)
    ensures points == AskingPoints(t, notes, slope, pairs, r)
  {
    points := 0;
    if notes.geography == National { points := points - 1; }
    if |pairs| >= 10 { points := points + 2; } else if |pairs| >= 5 { points := points + 1; }
    points := points + SpreadPoints(r);
    if !notes.wideYears { points := points + 1; }
    if notes.trimMatched { points := points + 1; }
    if slope.None? && t.miles == 0 { points := points - 1; }
    var gap := Gap(t, slope, pairs);
    if slope.Some? && gap { points := points - 1; }
    if notes.dealerFallback { points := points - 1; }
    var capped := MostlyOtherTrims(t, notes, pairs) || (slope.None? && gap);
    if capped && points > 1 { points := 1; }
  }

  method SalesValue(sales: seq<SalePrice>) returns (n: nat, r: Range)
    requires |sales| >= MIN_COMPS
    ensures n == |KeptSales(sales)| && r == SalesRange(sales)
  {
    var kept := KeptSales(sales);
    n := |kept|;
    r := ValueFrom(Map(PriceWeighted(), kept));
  }

  method Judge(t: Target, notes: Notes, slope: Option<real>, pairs: seq<Pair>, sold: Sold) returns (v: Valuation)
    ensures v == Appraise(t, notes, slope, pairs, sold)
  {
    var asking: Option<Range> := None;
    if |pairs| >= MIN_COMPS {
      var r := ValueFrom(Map(PairWeighted(), pairs));
      asking := Some(r);
    }
    if |sold.confirmed| >= MIN_COMPS {
      var n, r := SalesValue(sold.confirmed);
      var points := ScoreSales(notes, n, r, asking);
      v := Valuation(ConfirmedSales, Some(FinishRange(ConfirmedSales, r)), n,
                     FinishConfidence(ConfirmedSales, r, points), slope, 0.0, notes.geography);
    } else if asking.Some? {
      var r := asking.value;
      var points := ScoreAsking(t, notes, slope, pairs, r);
      v := Valuation(Asking, Some(FinishRange(Asking, r)), |pairs|,
                     FinishConfidence(Asking, r, points), slope, DealerShare(pairs), notes.geography);
    } else if |sold.historical| >= MIN_COMPS {
      var n, r := SalesValue(sold.historical);
      v := Valuation(Historical, Some(FinishRange(Historical, r)), n,
                     FinishConfidence(Historical, r, PlacePoints(notes) - 1), None, 0.0, notes.geography);
    } else {
      v := Valuation(Insufficient, None, |pairs|, NoConfidence, None, 0.0, notes.geography);
    }
  }

  // ---------- the order of the evidence never shows ---------------------------------------

  lemma GapOfPermutation(t: Target, slope: Option<real>, a: seq<Pair>, b: seq<Pair>)
    requires Permutation(a, b)
    ensures Gap(t, slope, a) == Gap(t, slope, b)
  {
    var m, n := Filter(HasMiles(), a), Filter(HasMiles(), b);
    FilterOfPermutation(HasMiles(), a, b);
    forall p ensures p in m <==> p in n { SameMembers(m, n, p); }
  }

  lemma AskingOfPermutation(t: Target, notes: Notes, slope: Option<real>, a: seq<Pair>, b: seq<Pair>, r: Range)
    requires Permutation(a, b)
    ensures |a| == |b| && AskingPoints(t, notes, slope, a, r) == AskingPoints(t, notes, slope, b, r)
    ensures DealerShare(a) == DealerShare(b)
  {
    SameLength(a, b);
    GapOfPermutation(t, slope, a, b);
    CountOfPermutation(OtherTrim(t), a, b);
    CountOfPermutation(NotPrivate(), a, b);
  }

  lemma AskingRangeOfPermutation(a: seq<Pair>, b: seq<Pair>)
    requires Permutation(a, b)
    ensures AskingRange(a) == AskingRange(b)
  {
    SameLength(a, b);
    if |a| >= MIN_COMPS {
      MapOfPermutation(PairWeighted(), a, b);
      RangeOfPermutation(Map(PairWeighted(), a), Map(PairWeighted(), b));
    }
  }

  ghost predicate SameSales(a: Sold, b: Sold) {
    Permutation(a.confirmed, b.confirmed) && Permutation(a.historical, b.historical)
  }

  lemma AppraiseOfPermutation(t: Target, notes: Notes, slope: Option<real>, a: seq<Pair>, b: seq<Pair>,
                              sold: Sold, same: Sold)
    requires Permutation(a, b) && SameSales(sold, same)
    ensures Appraise(t, notes, slope, a, sold) == Appraise(t, notes, slope, b, same)
  {
    SameLength(a, b);
    SameLength(sold.confirmed, same.confirmed);
    SameLength(sold.historical, same.historical);
    AskingRangeOfPermutation(a, b);
    if |sold.confirmed| >= MIN_COMPS { SalesOfPermutation(sold.confirmed, same.confirmed); }
    else if AskingRange(a).Some? { AskingOfPermutation(t, notes, slope, a, b, AskingRange(a).value); }
    else if |sold.historical| >= MIN_COMPS { SalesOfPermutation(sold.historical, same.historical); }
  }

  /** Shuffling the peers and the sales changes nothing about the valuation,
      unless two different copies of a car tie for most recently seen. */
  lemma ValuationIgnoresOrder(t: Target, a: seq<Peer>, b: seq<Peer>, sold: Sold, same: Sold)
    requires Permutation(a, b) && SameSales(sold, same)
    requires Unambiguous(Filter(Usable(t), a))
    ensures ValueFor(t, Candidates(t, a), sold) == ValueFor(t, Candidates(t, b), same)
  {
    FilterOfPermutation(Usable(t), a, b);
    CollapseOfPermutation(Filter(Usable(t), a), Filter(Usable(t), b));
    CandidatesOfPermutation(t, Candidates(t, a), Candidates(t, b), sold, same);
  }

  lemma CandidatesOfPermutation(t: Target, a: seq<Peer>, b: seq<Peer>, sold: Sold, same: Sold)
    requires Permutation(a, b) && SameSales(sold, same)
    ensures ValueFor(t, a, sold) == ValueFor(t, b, same)
  {
    NotesOfPermutation(t, a, b);
    SelectedOfPermutation(t, a, b);
    var c, d := Selected(t, a), Selected(t, b);
    SlopeOfPermutedPeers(t, c, d);
    PairsOfPermutedPeers(t, SlopeFor(t, c), c, d);
    MadFilterOfPermutation(PairValue(), PairsFor(t, SlopeFor(t, c), c), PairsFor(t, SlopeFor(t, d), d));
    AppraiseOfPermutation(t, NotesOf(t, a), SlopeFor(t, c), KeptPairs(t, c), KeptPairs(t, d), sold, same);
  }

  // ---------- enough evidence stays enough ---------------------------------------------------

  /** Outlier rejection never decides that there is too little evidence. */
  lemma OutliersNeverMakeInsufficient(t: Target, candidates: seq<Peer>, sold: Sold)
    ensures var chosen := Selected(t, candidates);
            var v := ValueFor(t, candidates, sold);
            && (v.evidence == Insufficient
                <==> |PairsFor(t, SlopeFor(t, chosen), chosen)| < MIN_COMPS
                     && |sold.confirmed| < MIN_COMPS && |sold.historical| < MIN_COMPS)
            && (v.evidence == Insufficient <==> v.n < MIN_COMPS)
            && (v.evidence == Insufficient <==> v.range.None?)
  {
    var chosen := Selected(t, candidates);
    MadKeepsMajority(PairValue(), PairsFor(t, SlopeFor(t, chosen), chosen));
  }

  // ---------- the range keeps its order ---------------------------------------------------------

  /** Widening keeps every ordered range ordered exactly when the middle is
      not negative. */
  lemma WideningNeedsNonNegativeMiddle(mid: real)
    ensures (forall low, high :: Ordered(Range(low, mid, high)) ==> Ordered(Widen(Range(low, mid, high))))
            <==> mid >= 0.0
  {
    if mid < 0.0 {
      var r := Range(mid, mid, mid);
      assert Ordered(r) && !Ordered(Widen(r));
    }
  }

  lemma FinishKeepsOrder(evidence: Evidence, r: Range)
    requires Ordered(r) && r.mid >= 0.0
    ensures Ordered(FinishRange(evidence, r))
  {
    var w := if (evidence == Asking || evidence == Historical) && r.mid != 0.0 then Widen(r) else r;
    RoundCentsMonotone(w.low, w.mid);
    RoundCentsMonotone(w.mid, w.high);
  }

  lemma PairsHaveWeight(t: Target, slope: Option<real>, chosen: seq<Peer>)
    requires forall c :: c in chosen ==> IsUsable(t, c)
    ensures forall p :: p in PairsFor(t, slope, chosen) ==>
              p.weight > 0.0 && p.peer in chosen && p.value == Adjusted(t, slope, p.peer)
  {
    forall p | p in PairsFor(t, slope, chosen)
      ensures p.weight > 0.0 && p.peer in chosen && p.value == Adjusted(t, slope, p.peer)
    {
      FilterMembers(Adjustable(slope), chosen, p.peer);
      assert p.peer in Filter(Adjustable(slope), chosen);
    }
  }

  lemma PairsArePositive(t: Target, slope: Option<real>, chosen: seq<Peer>)
    requires forall c :: c in chosen ==> IsUsable(t, c)
    ensures Positive(Map(PairWeighted(), MadFilter(PairValue(), PairsFor(t, slope, chosen))))
  {
    var pairs := PairsFor(t, slope, chosen);
    var kept := MadFilter(PairValue(), pairs);
    PairsHaveWeight(t, slope, chosen);
    forall x | x in Map(PairWeighted(), kept) ensures x.weight > 0.0 {
      var k :| 0 <= k < |kept| && PairWeighted()(kept[k]) == x;
      MadKeepsMembers(PairValue(), pairs, kept[k]);
    }
  }

  lemma MiddleIsAMember(pairs: seq<Pair>) returns (p: Pair)
    requires |pairs| >= MIN_COMPS
    ensures p in pairs && AskingRange(pairs).value.mid == p.value
  {
    var s := Map(PairWeighted(), pairs);
    QuantileIsMember(s, 0.5);
    var x :| x in s && x.value == Quantile(s, 0.5);
    var k :| 0 <= k < |s| && s[k] == x;
    p := pairs[k];
  }

  /** No comparable's price is eaten up by thirty cents for each mile the
      listing has more. */
  ghost predicate PricesOutlastMiles(t: Target, chosen: seq<Peer>) {
    forall c :: c in chosen && c.miles != 0 ==> c.price >= 0.30 * (t.miles - c.miles) as real
  }

  lemma AdjustedStaysPositive(t: Target, slope: Option<real>, c: Peer)
    requires c.price >= 0.0
    requires slope.Some? ==> -0.30 <= slope.value < 0.0
    requires slope.Some? && c.miles != 0 ==> c.price >= 0.30 * (t.miles - c.miles) as real
    ensures Adjusted(t, slope, c) >= 0.0
  {
    if slope.Some? && c.miles != 0 {
      var d := (t.miles - c.miles) as real;
      if d >= 0.0 { assert (slope.value + 0.30) * d >= 0.0; } else { assert slope.value * d >= 0.0; }
    }
  }

  lemma AskingRangeIsOrdered(t: Target, chosen: seq<Peer>)
    requires forall c :: c in chosen ==> IsUsable(t, c)
    requires SlopeFor(t, chosen).Some? ==> PricesOutlastMiles(t, chosen)
    requires |KeptPairs(t, chosen)| >= MIN_COMPS
    ensures var r := AskingRange(KeptPairs(t, chosen)).value; Ordered(r) && r.mid >= 0.0
  {
    var slope := SlopeFor(t, chosen);
    var pairs := PairsFor(t, slope, chosen);
    PairsArePositive(t, slope, chosen);
    RangeIsOrdered(Map(PairWeighted(), KeptPairs(t, chosen)));
    var p := MiddleIsAMember(KeptPairs(t, chosen));
    MadKeepsMembers(PairValue(), pairs, p);
    PairsHaveWeight(t, slope, chosen);
    AdjustedStaysPositive(t, slope, p.peer);
  }

  /** The middle is far enough from its bounds for three per cent of it, or
      the widened bound falls on its cent. */
  predicate HasRoom(r: Range) {
    && (r.mid - r.low >= -0.03 * r.mid || RoundCents(r.low - r.mid * 0.03) == RoundCents(r.mid))
    && (r.high - r.mid >= -0.03 * r.mid || RoundCents(r.high + r.mid * 0.03) == RoundCents(r.mid))
  }

  /** Widening and rounding keep one ordered range in order exactly when it
      has that room. */
  lemma FinishKeepsOrderExactly(evidence: Evidence, r: Range)
    requires Ordered(r)
    ensures Ordered(FinishRange(evidence, r)) <==> (evidence == Asking || evidence == Historical ==> HasRoom(r))
  {
    var w := if (evidence == Asking || evidence == Historical) && r.mid != 0.0 then Widen(r) else r;
    RoundCentsOrder(w.low, w.mid);
    RoundCentsOrder(w.mid, w.high);
  }

  lemma KeptAskingIsOrdered(t: Target, peers: seq<Peer>)
    requires |KeptPairs(t, Selected(t, Candidates(t, peers)))| >= MIN_COMPS
    ensures Ordered(AskingRange(KeptPairs(t, Selected(t, Candidates(t, peers)))).value)
  {
    var chosen := Selected(t, Candidates(t, peers));
    forall c | c in chosen ensures IsUsable(t, c) { ComparablesAreUsable(t, peers, c, c); }
    PairsArePositive(t, SlopeFor(t, chosen), chosen);
    RangeIsOrdered(Map(PairWeighted(), KeptPairs(t, chosen)));
  }

  /** low <= mid <= high: in every reported range but that of asking prices,
      and in that one exactly when its quartiles have the room. */
  lemma RangesAreOrdered(t: Target, peers: seq<Peer>, sold: Sold)
    ensures var v := ValueFor(t, Candidates(t, peers), sold);
            var asking := AskingRange(KeptPairs(t, Selected(t, Candidates(t, peers))));
            v.range.Some? ==>
              (Ordered(v.range.value) <==> (v.evidence == Asking ==> asking.Some? && HasRoom(asking.value)))
  {
    var chosen := Selected(t, Candidates(t, peers));
    if |sold.confirmed| >= MIN_COMPS {
      SalesRangeIsOrdered(sold.confirmed);
      FinishKeepsOrder(ConfirmedSales, SalesRange(sold.confirmed));
    } else if |KeptPairs(t, chosen)| >= MIN_COMPS {
      KeptAskingIsOrdered(t, peers);
      FinishKeepsOrderExactly(Asking, AskingRange(KeptPairs(t, chosen)).value);
    } else if |sold.historical| >= MIN_COMPS {
      SalesRangeIsOrdered(sold.historical);
      FinishKeepsOrder(Historical, SalesRange(sold.historical));
    }
  }

  /** On the inputs: there is room without a mileage adjustment, and with one
      as long as no comparable's price is eaten up by it. */
  lemma RoomWithoutSteepAdjustment(t: Target, peers: seq<Peer>)
    requires |KeptPairs(t, Selected(t, Candidates(t, peers)))| >= MIN_COMPS
    requires SlopeFor(t, Selected(t, Candidates(t, peers))).Some? ==> PricesOutlastMiles(t, Selected(t, Candidates(t, peers)))
    ensures HasRoom(AskingRange(KeptPairs(t, Selected(t, Candidates(t, peers)))).value)
  {
    var chosen := Selected(t, Candidates(t, peers));
    forall c | c in chosen ensures IsUsable(t, c) { ComparablesAreUsable(t, peers, c, c); }
    AskingRangeIsOrdered(t, chosen);
  }

  // ---------- what confidence takes ----------------------------------------------------------------

  /** High confidence takes ten completed sales that agree, close together,
      and nothing said against them. */
  lemma HighConfidenceNeedsSales(t: Target, notes: Notes, slope: Option<real>, pairs: seq<Pair>, sold: Sold)
    ensures var v := Appraise(t, notes, slope, pairs, sold);
            v.confidence == High
            <==> (v.evidence == ConfirmedSales && v.n >= 10 && notes.geography != National
                  && SpreadPoints(SalesRange(sold.confirmed)) == 1
                  && !Conflict(AskingRange(pairs), SalesRange(sold.confirmed).mid))
  {
    var asking := AskingRange(pairs);
    if |sold.confirmed| < MIN_COMPS && asking.Some? {
      AskingIsNeverHigh(t, notes, slope, pairs, asking.value);
    }
  }

  lemma AskingIsNeverHigh(t: Target, notes: Notes, slope: Option<real>, pairs: seq<Pair>, r: Range)
    ensures FinishConfidence(Asking, r, AskingPoints(t, notes, slope, pairs, r)) != High
  {
    if r.mid == 0.0 { assert SpreadPoints(r) == -1; }
  }

  /** Comparables that mostly state another trim, or a listing far above every
      odometer without an adjustment, hold asking evidence at low. */
  lemma CapHoldsAtLow(t: Target, notes: Notes, slope: Option<real>, pairs: seq<Pair>, sold: Sold)
    requires CappedLow(t, notes, slope, pairs)
    ensures var v := Appraise(t, notes, slope, pairs, sold); v.evidence == Asking ==> v.confidence == Low
  {
    if |sold.confirmed| < MIN_COMPS && |pairs| >= MIN_COMPS {
      assert AskingPoints(t, notes, slope, pairs, AskingRange(pairs).value) <= 1;
    }
  }
}

/** A listing whose reported range is upside down: comparables on one straight
    price line, and so many miles that every adjusted price is negative. */
module ReversedRanges {
  import opened Options
  import opened Rounding
  import opened Sequences
  import opened SlopeSample
  import opened Statistics
  import opened Comparables
  import opened Valuations

  // ---------- constants through the statistics -------------------------------------------

  ghost predicate AllAre(s: seq<real>, v: real) {
    forall x :: x in s ==> x == v
  }

  lemma MedianOfConstant(s: seq<real>, v: real)
    requires s != [] && AllAre(s, v)
    ensures Median(s) == v
  {
    var t := Sort(RealLeq, s);
    forall k | 0 <= k < |t| ensures t[k] == v { SameMembers(t, s, t[k]); }
  }

  lemma MadOfConstant(s: seq<real>, v: real)
    requires s != [] && AllAre(s, v)
    ensures Mad(s) == 0.0
  {
    MedianOfConstant(s, v);
    var d := Deviations(s, v);
    forall x | x in d ensures x == 0.0 {
      var k :| 0 <= k < |d| && d[k] == x;
      assert s[k] in s;
    }
    MedianOfConstant(d, 0.0);
  }

  lemma {:induction false} RowIsConstant<T>(f: (T, T) -> seq<real>, a: T, s: seq<T>, v: real)
    requires forall b :: b in s ==> AllAre(f(a, b), v)
    ensures AllAre(Row(f, a, s), v)
  {
    if s != [] { RowIsConstant(f, a, s[1..], v); }
  }

  lemma {:induction false} PairsAreConstant<T>(f: (T, T) -> seq<real>, s: seq<T>, v: real)
    requires forall a, b :: a in s && b in s ==> AllAre(f(a, b), v)
    ensures AllAre(Pairs(f, s), v)
  {
    if s != [] {
      RowIsConstant(f, s[0], s[1..], v);
      PairsAreConstant(f, s[1..], v);
    }
  }

  // ---------- points on a line ---------------------------------------------------------------

  predicate OnLine(p: Point, top: real) {
    p.price == top - 0.30 * p.miles as real
  }

  lemma LineSlope(a: Point, b: Point, top: real)
    requires OnLine(a, top) && OnLine(b, top)
    ensures AllAre(SlopeOf(a, b), -0.30)
  {
    var dx := b.miles - a.miles;
    if dx >= 1000 || dx <= -1000 {
      var y, x := b.price - a.price, dx as real;
      assert y == -0.30 * x;
      assert y / x == -0.30;
    }
  }

  lemma SlopeOfLine(points: seq<Point>, top: real)
    requires 2 <= |points| <= MAX_SLOPE_POINTS && forall p :: p in points ==> OnLine(p, top)
    requires points[1].miles - points[0].miles >= 1000
    ensures TheilSen(points) == Some(-0.30)
  {
    forall a, b | a in points && b in points ensures AllAre(SlopeOf(a, b), -0.30) { LineSlope(a, b, top); }
    PairsAreConstant(SlopeOf, points, -0.30);
    var slopes := Slopes(points);
    assert Row(SlopeOf, points[0], points[1..]) == SlopeOf(points[0], points[1]) + Row(SlopeOf, points[0], points[1..][1..]);
    assert slopes != [];
    MedianOfConstant(slopes, -0.30);
  }

  // ---------- any such comparables reverse the range ------------------------------------------

  predicate CarOnLine(c: Peer, top: real) {
    c.miles != 0 && c.price == top - 0.30 * c.miles as real
  }

  lemma {:induction false} FilterAll<T>(p: T -> bool, s: seq<T>)
    requires forall x :: x in s ==> p(x)
    ensures Filter(p, s) == s
  {
    if s != [] {
      FilterAll(p, s[1..]);
      assert s == [s[0]] + s[1..];
    }
  }

  lemma LineAdjustment(t: Target, chosen: seq<Peer>, top: real)
    requires t.miles != 0 && MIN_MILEAGE_POINTS <= |chosen| <= MAX_SLOPE_POINTS
    requires (forall c :: c in chosen ==> CarOnLine(c, top)) && chosen[1].miles - chosen[0].miles >= 1000
    ensures SlopeFor(t, chosen) == Some(-0.30)
  {
    FilterAll(Metered(), chosen);
    var points := Map(ToPoint(), chosen);
    forall p | p in points ensures OnLine(p, top) {
      var k :| 0 <= k < |points| && points[k] == p;
      assert CarOnLine(chosen[k], top);
    }
    SlopeOfLine(points, top);
  }

  lemma AdjustedOnLine(t: Target, c: Peer, top: real)
    requires CarOnLine(c, top)
    ensures Adjusted(t, Some(-0.30), c) == top - 0.30 * t.miles as real
  {
  }

  lemma LineKeepsAll(t: Target, chosen: seq<Peer>, top: real, v: real)
    requires |chosen| >= MIN_COMPS && (forall c :: c in chosen ==> CarOnLine(c, top))
    requires SlopeFor(t, chosen) == Some(-0.30) && v == top - 0.30 * t.miles as real
    ensures |KeptPairs(t, chosen)| == |chosen| && AllAre(Map(PairValue(), KeptPairs(t, chosen)), v)
  {
    var slope := Some(-0.30);
    FilterAll(Adjustable(slope), chosen);
    var pairs := PairsFor(t, slope, chosen);
    var vals := Map(PairValue(), pairs);
    forall x | x in vals ensures x == v {
      var k :| 0 <= k < |vals| && vals[k] == x;
      AdjustedOnLine(t, chosen[k], top);
    }
    MadOfConstant(vals, v);
  }

  lemma RangeOfConstant(pairs: seq<Pair>, v: real)
    requires |pairs| >= MIN_COMPS && AllAre(Map(PairValue(), pairs), v)
    ensures AskingRange(pairs) == Some(Range(v, v, v))
  {
    var s := Map(PairWeighted(), pairs);
    forall x | x in s ensures x.value == v {
      var k :| 0 <= k < |s| && s[k] == x;
      assert Map(PairValue(), pairs)[k] in Map(PairValue(), pairs);
    }
    QuantileIsMember(s, 0.25);
    QuantileIsMember(s, 0.5);
    QuantileIsMember(s, 0.75);
  }

  lemma NoRoomBelowZero(v: real)
    requires v <= -1.0
    ensures !HasRoom(Range(v, v, v)) && !Ordered(FinishRange(Asking, Range(v, v, v)))
  {
    var low := v - v * 0.03;
    RoundCentsIsClose(low);
    RoundCentsIsClose(v);
    FinishKeepsOrderExactly(Asking, Range(v, v, v));
  }

  /** Six to two hundred comparables on such a line value the listing at one
      price; a dollar or more below zero, the range is reported upside down. */
  lemma LineReverses(t: Target, notes: Notes, chosen: seq<Peer>, top: real)
    requires t.miles != 0 && MIN_MILEAGE_POINTS <= |chosen| <= MAX_SLOPE_POINTS
    requires (forall c :: c in chosen ==> CarOnLine(c, top)) && chosen[1].miles - chosen[0].miles >= 1000
    requires top - 0.30 * t.miles as real <= -1.0
    ensures var v := Appraise(t, notes, SlopeFor(t, chosen), KeptPairs(t, chosen), Sold([], []));
            v.evidence == Asking && v.range.Some? && !Ordered(v.range.value)
  {
    var v := top - 0.30 * t.miles as real;
    LineAdjustment(t, chosen, top);
    LineKeepsAll(t, chosen, top, v);
    RangeOfConstant(KeptPairs(t, chosen), v);
    NoRoomBelowZero(v);
  }

  // ---------- a request value_listing can get ----------------------------------------------------

  function Vin(n: nat): string {
    seq(n, _ => 'v')
  }

  /** 20,000 dollars at 24,000 miles, 30 cents less for each mile more. */
  function Car(i: nat): Peer {
    var miles := 24000 + 1000 * i;
    Peer(Vin(i + 1), Vin(i + 1), "make", "model", "title", false, false, None, 2015,
         27200.0 - 0.30 * miles as real, miles, "", Some(0.0), PrivateSeller, None, None, None, None)
  }

  const CARS: seq<Peer> := seq(6, i requires 0 <= i < 6 => Car(i))

  const LISTING := Target("listing", "", 2015, 150000, false, None, None, None, None)

  lemma {:induction false} KeysOfDistinct(s: seq<Peer>)
    requires forall i, j :: 0 <= i < j < |s| ==> KeyOf(s[i]) != KeyOf(s[j])
    ensures |Keys(s)| == |s| && forall i :: 0 <= i < |s| ==> Keys(s)[i] == KeyOf(s[i])
  {
    if s != [] {
      var n := |s| - 1;
      KeysOfDistinct(s[..n]);
      KeysAreTheKeys(s[..n], KeyOf(s[n]));
    }
  }

  lemma DistinctCarsStay(s: seq<Peer>)
    requires forall i, j :: 0 <= i < j < |s| ==> KeyOf(s[i]) != KeyOf(s[j])
    ensures Collapse(s) == s
  {
    KeysOfDistinct(s);
    forall i | 0 <= i < |s| ensures Collapse(s)[i] == s[i] {
      KeysAreTheKeys(s, KeyOf(s[i]));
      assert s[i] in s && Keys(s)[i] == KeyOf(s[i]);
      SurvivorIsLatest(s, KeyOf(s[i]));
      var c := Survivor(s, KeyOf(s[i])).value;
      var j :| 0 <= j < |s| && s[j] == c;
      assert i == j;
    }
  }

  lemma CarsAreCandidates()
    ensures Candidates(LISTING, CARS) == CARS
  {
    forall c | c in CARS ensures IsUsable(LISTING, c) {
      var i: nat :| 0 <= i < 6 && CARS[i] == c;
      assert c == Car(i) && |c.id| == i + 1 && i < 6 && |LISTING.id| == 7;
    }
    FilterAll(Usable(LISTING), CARS);
    forall i, j | 0 <= i < j < |CARS| ensures KeyOf(CARS[i]) != KeyOf(CARS[j]) {
      assert |Car(i).vehicleKey| == i + 1 && |Car(j).vehicleKey| == j + 1;
    }
    DistinctCarsStay(CARS);
  }

  lemma AllAreSelected(t: Target, s: seq<Peer>)
    requires !t.located && t.trim.None? && t.drivetrain.None? && t.engine.None?
    requires forall c :: c in s ==> c.seller == PrivateSeller && c.year == t.year
    ensures Selected(t, s) == s
  {
    FilterAll(IsPrivate(), s);
    FilterAll(NearYear(t.year), s);
  }

  /** For this listing and these six cars the value is -17,800 dollars, from
      a low above it to a high below it. */
  lemma AReportedRangeIsReversed()
    ensures var v := ValueFor(LISTING, Candidates(LISTING, CARS), Sold([], []));
            v.evidence == Asking && v.range.Some? && !Ordered(v.range.value)
  {
    CarsAreCandidates();
    forall c | c in CARS ensures c.seller == PrivateSeller && c.year == 2015 && CarOnLine(c, 27200.0) {
      var i: nat :| 0 <= i < 6 && CARS[i] == c;
      assert c == Car(i);
    }
    AllAreSelected(LISTING, CARS);
    assert CARS[0] == Car(0) && CARS[1] == Car(1);
    LineReverses(LISTING, NotesOf(LISTING, CARS), CARS, 27200.0);
  }
}

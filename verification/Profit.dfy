/** Flip-profit estimates (profit.py) and the offer that leaves a wanted
    profit (analyze.py). */
module Profit {
  import opened Options
  import opened Rounding
  import opened Valuations

  // ---------- assumptions -----------------------------------------------------------

  datatype Key =
    | Negotiation | AskingToSale | SalesTax | TitleRegistration | Transport | TransportPerMile
    | DealerToPrivate | NegotiationSpread | Mechanical | Recon | HoldingPerDay | DaysToSell
    | SellingFees | Misc

  /** What a settings form can hold: nothing, something that is no number, or
      a number. */
  datatype Raw = Blank | Garbage | Num(value: real)

  type Settings = map<Key, Raw>

  const BOUNDED: seq<Key> := [
    Negotiation, AskingToSale, SalesTax, TitleRegistration, Transport, Recon, SellingFees, Misc,
    TransportPerMile, DealerToPrivate, NegotiationSpread, Mechanical, HoldingPerDay, DaysToSell ]

  function Default(k: Key): Option<real> {
    match k
    case SalesTax => None
    case TitleRegistration => None
    case AskingToSale => Some(5.0)
    case DealerToPrivate => Some(10.0)
    case NegotiationSpread => Some(5.0)
    case Mechanical => Some(500.0)
    case Recon => Some(250.0)
    case HoldingPerDay => Some(5.0)
    case DaysToSell => Some(21.0)
    case SellingFees => Some(100.0)
    case _ => Some(0.0)
  }

  function Least(k: Key): real {
    if k == DaysToSell then 1.0 else 0.0
  }

  function Most(k: Key): real {
    match k
    case Negotiation => 60.0
    case AskingToSale => 40.0
    case SalesTax => 15.0
    case TitleRegistration => 5000.0
    case Transport => 20000.0
    case TransportPerMile => 5.0
    case DealerToPrivate => 40.0
    case NegotiationSpread => 30.0
    case HoldingPerDay => 500.0
    case DaysToSell => 365.0
    case SellingFees => 20000.0
    case _ => 100000.0
  }

  function Bounded(k: Key, x: real): real {
    if x < Least(k) then Least(k) else if x > Most(k) then Most(k) else x
  }

  function CleanValue(k: Key, r: Raw): Option<real> {
    if r.Num? then Some(Bounded(k, r.value)) else None
  }

  /** Numbers are clamped, blanks mean "not set", the rest is dropped. */
  function Clean(raw: Settings): map<Key, Option<real>> {
    map k | k in raw && raw[k] != Garbage :: CleanValue(k, raw[k])
  }

  method CleanSettings(raw: Settings) returns (out: map<Key, Option<real>>)
    ensures out == Clean(raw)
  {
    out := map[];
    for n := 0 to |BOUNDED|
      invariant out == map k | k in BOUNDED[..n] && k in raw && raw[k] != Garbage :: CleanValue(k, raw[k])
    {
      var k := BOUNDED[n];
      assert BOUNDED[..n + 1] == BOUNDED[..n] + [k];
      if k !in raw { continue; }
      match raw[k] {
        case Blank => out := out[k := None];
        case Garbage =>
        case Num(x) => out := out[k := Some(Bounded(k, x))];
      }
    }
    assert BOUNDED[..|BOUNDED|] == BOUNDED;
    EveryKeyIsBounded();
  }

  lemma EveryKeyIsBounded()
    ensures forall k: Key :: k in BOUNDED
  {
    forall k: Key ensures k in BOUNDED {
      match k {
        case Negotiation => assert BOUNDED[0] == k;
        case AskingToSale => assert BOUNDED[1] == k;
        case SalesTax => assert BOUNDED[2] == k;
        case TitleRegistration => assert BOUNDED[3] == k;
        case Transport => assert BOUNDED[4] == k;
        case Recon => assert BOUNDED[5] == k;
        case SellingFees => assert BOUNDED[6] == k;
        case Misc => assert BOUNDED[7] == k;
        case TransportPerMile => assert BOUNDED[8] == k;
        case DealerToPrivate => assert BOUNDED[9] == k;
        case NegotiationSpread => assert BOUNDED[10] == k;
        case Mechanical => assert BOUNDED[11] == k;
        case HoldingPerDay => assert BOUNDED[12] == k;
        case DaysToSell => assert BOUNDED[13] == k;
      }
    }
  }

  predicate MayBeUnset(k: Key) {
    k == SalesTax || k == TitleRegistration
  }

  /** The user's number, else the default. A lone "recon" was saved before
      mechanical work had its own allowance. */
  function Layered(k: Key, mine: map<Key, Option<real>>): Option<real> {
    if k in mine then mine[k]
    else if k == Mechanical && Recon in mine then Some(0.0)
    else Default(k)
  }

  /** Blanks become zero, days to sell its default, and two may stay unset. */
  function Filled(k: Key, v: Option<real>): (r: Option<real>)
    ensures r.None? ==> MayBeUnset(k)
  {
    if MayBeUnset(k) then v
    else if k == DaysToSell then (if v.None? || v.value == 0.0 then Some(21.0) else v)
    else if v.None? then Some(0.0)
    else v
  }

  function Assumed(k: Key, mine: map<Key, Option<real>>): Option<real> {
    Filled(k, Layered(k, mine))
  }

  type Assumptions = map<Key, Option<real>>

  function Merged(raw: Settings): Assumptions {
    map k: Key | true :: Assumed(k, Clean(raw))
  }

  const ZEROED: seq<Key> := [
    Negotiation, AskingToSale, Transport, Recon, SellingFees, Misc, TransportPerMile,
    DealerToPrivate, NegotiationSpread, Mechanical, HoldingPerDay ]

  lemma ZeroedKeys(k: Key)
    ensures k in ZEROED <==> !MayBeUnset(k) && k != DaysToSell
  {
    match k {
      case Negotiation => assert ZEROED[0] == k;
      case AskingToSale => assert ZEROED[1] == k;
      case Transport => assert ZEROED[2] == k;
      case Recon => assert ZEROED[3] == k;
      case SellingFees => assert ZEROED[4] == k;
      case Misc => assert ZEROED[5] == k;
      case TransportPerMile => assert ZEROED[6] == k;
      case DealerToPrivate => assert ZEROED[7] == k;
      case NegotiationSpread => assert ZEROED[8] == k;
      case Mechanical => assert ZEROED[9] == k;
      case HoldingPerDay => assert ZEROED[10] == k;
      case _ =>
    }
  }

  ghost predicate Total(a: Assumptions) {
    forall k: Key :: k in a
  }

  method ZeroBlanks(a: Assumptions) returns (r: Assumptions)
    requires Total(a)
    ensures Total(r)
    ensures forall k: Key :: r[k] == if a[k].None? && !MayBeUnset(k) && k != DaysToSell then Some(0.0) else a[k]
  {
    r := a;
    for n := 0 to |ZEROED|
      invariant Total(r)
      invariant forall k: Key :: r[k] == if k in ZEROED[..n] && a[k].None? then Some(0.0) else a[k]
    {
      var k := ZEROED[n];
      assert ZEROED[..n + 1] == ZEROED[..n] + [k];
      if r[k].None? { r := r[k := Some(0.0)]; }
    }
    assert ZEROED[..|ZEROED|] == ZEROED;
    forall k: Key ensures k in ZEROED <==> !MayBeUnset(k) && k != DaysToSell { ZeroedKeys(k); }
  }

  method LayerSettings(mine: map<Key, Option<real>>) returns (a: Assumptions)
    ensures forall k: Key :: k in a && a[k] == Layered(k, mine)
  {
    a := map k: Key | true :: Default(k);
    if Recon in mine && Mechanical !in mine {
      a := a[Mechanical := Some(0.0)];
    }
    a := a + mine;
  }

  method FillBlanks(layered: Assumptions) returns (a: Assumptions)
    requires Total(layered)
    ensures forall k: Key :: k in a && a[k] == Filled(k, layered[k])
  {
    a := ZeroBlanks(layered);
    if a[DaysToSell].None? || a[DaysToSell].value == 0.0 {
      a := a[DaysToSell := Some(21.0)];
    }
  }

  method MergeSettings(raw: Settings) returns (a: Assumptions)
    ensures a == Merged(raw)
  {
    var mine := CleanSettings(raw);
    a := LayerSettings(mine);
    a := FillBlanks(a);
  }

  /** What a stored or overlaid assumption looks like as input. */
  function AsRaw(v: Option<real>): Raw {
    if v.None? then Blank else Num(v.value)
  }

  function AsSettings(a: Assumptions): Settings {
    map k | k in a :: AsRaw(a[k])
  }

  lemma AssumedIsBounded(raw: Settings, k: Key)
    ensures var v := Assumed(k, Clean(raw)); v.Some? ==> Least(k) <= v.value <= Most(k)
  {
  }

  lemma CleanAt(b: Assumptions, k: Key)
    requires k in b
    ensures k in Clean(AsSettings(b))
    ensures Clean(AsSettings(b))[k] == if b[k].None? then None else Some(Bounded(k, b[k].value))
  {
  }

  lemma Settled(k: Key, v: Option<real>, mine: Assumptions)
    requires Mechanical in mine && k in mine && (v.None? ==> MayBeUnset(k))
    requires v.Some? ==> Least(k) <= v.value <= Most(k)
    requires mine[k] == if v.None? then None else Some(Bounded(k, v.value))
    ensures Assumed(k, mine) == v
  {
  }

  /** Costs laid over the merged assumptions replace those keys and no other;
      in particular a lone cosmetic cost keeps the mechanical allowance. */
  lemma OverlayKeepsTheRest(raw: Settings, costs: Assumptions, k: Key)
    requires k !in costs
    ensures Merged(AsSettings(Merged(raw) + costs))[k] == Merged(raw)[k]
  {
    var b := Merged(raw) + costs;
    CleanAt(b, Mechanical);
    CleanAt(b, k);
    AssumedIsBounded(raw, k);
    Settled(k, Assumed(k, Clean(raw)), Clean(AsSettings(b)));
  }

  /** Merging what was merged changes nothing. */
  lemma MergedIsIdempotent(raw: Settings)
    ensures Merged(AsSettings(Merged(raw))) == Merged(raw)
  {
    var none: Assumptions := map[];
    assert Merged(raw) + none == Merged(raw);
    forall k: Key ensures Merged(AsSettings(Merged(raw)))[k] == Merged(raw)[k] {
      OverlayKeepsTheRest(raw, none, k);
    }
  }

  /** Laid over the raw settings instead, it would lose it. */
  lemma OverlayOnRawLosesTheAllowance(cosmetic: real)
    ensures Merged(map[])[Mechanical] == Some(500.0)
    ensures Merged(map[] + map[Recon := Num(cosmetic)])[Mechanical] == Some(0.0)
  {
    EveryKeyIsBounded();
  }

  // ---------- buying costs ---------------------------------------------------------------

  function Amount(a: Assumptions, k: Key): real {
    if k in a && a[k].Some? then a[k].value else 0.0
  }

  function TaxRate(a: Assumptions): real {
    Amount(a, SalesTax) / 100.0
  }

  /** Every cost that does not depend on the price. */
  function FixedCosts(a: Assumptions, miles: real): real {
    Amount(a, TitleRegistration) + Amount(a, Transport) + Amount(a, Mechanical) + Amount(a, Recon)
    + Amount(a, SellingFees) + Amount(a, Misc) + 2.0 * miles * Amount(a, TransportPerMile)
  }

  function Purchase(price: real, discount: real): real {
    price * (1.0 - discount / 100.0)
  }

  function Entry(costs: map<Key, real>, k: Key): real {
    if k in costs then costs[k] else 0.0
  }

  function SumOfCosts(costs: map<Key, real>): real {
    Entry(costs, SalesTax) + Entry(costs, TitleRegistration) + Entry(costs, Transport)
    + Entry(costs, Mechanical) + Entry(costs, Recon) + Entry(costs, SellingFees) + Entry(costs, Misc)
    + Entry(costs, TransportPerMile)
  }

  const PLAIN_COSTS: seq<Key> := [Transport, Mechanical, Recon, SellingFees, Misc]

  predicate IsPlain(k: Key) {
    k == Transport || k == Mechanical || k == Recon || k == SellingFees || k == Misc
  }

  method AddPlain(a: Assumptions, first: map<Key, real>) returns (costs: map<Key, real>)
    requires forall k :: IsPlain(k) ==> k !in first
    ensures forall k :: k in costs <==> k in first || (IsPlain(k) && Amount(a, k) != 0.0)
    ensures forall k :: k in costs ==> costs[k] == if IsPlain(k) then Amount(a, k) else first[k]
  {
    costs := first;
    for n := 0 to |PLAIN_COSTS|
      invariant forall k :: k in costs <==> k in first || (k in PLAIN_COSTS[..n] && Amount(a, k) != 0.0)
      invariant forall k :: k in costs ==> costs[k] == if k in PLAIN_COSTS[..n] then Amount(a, k) else first[k]
    {
      var k := PLAIN_COSTS[n];
      assert PLAIN_COSTS[..n + 1] == PLAIN_COSTS[..n] + [k];
      PlainCosts();
      assert k in PLAIN_COSTS;
      PlainOnce(n);
      if Amount(a, k) != 0.0 { costs := costs[k := Amount(a, k)]; }
    }
    assert PLAIN_COSTS[..|PLAIN_COSTS|] == PLAIN_COSTS;
    PlainCosts();
  }

  lemma PlainOnce(n: nat)
    requires n < |PLAIN_COSTS|
    ensures PLAIN_COSTS[n] !in PLAIN_COSTS[..n]
  {
  }

  function TaxOn(acquisition: real, a: Assumptions): real {
    acquisition * Amount(a, SalesTax) / 100.0
  }

  predicate HasEntry(a: Assumptions, miles: real, k: Key) {
    || ((k == SalesTax || k == TitleRegistration) && k in a && a[k].Some?)
    || (IsPlain(k) && Amount(a, k) != 0.0)
    || (k == TransportPerMile && Amount(a, k) != 0.0 && miles != 0.0)
  }

  lemma EntriesAddUp(costs: map<Key, real>, a: Assumptions, miles: real, tax: real, road: real)
    requires tax == 0.0 || Amount(a, SalesTax) != 0.0
    requires Amount(a, TransportPerMile) == 0.0 || miles == 0.0 ==> road == 0.0
    requires forall k :: k in costs <==> HasEntry(a, miles, k)
    requires forall k :: k in costs ==> costs[k] == if k == SalesTax then tax else if k == TransportPerMile then road else Amount(a, k)
    ensures Entry(costs, SalesTax) == tax
    ensures SumOfCosts(costs) == tax + road + Amount(a, TitleRegistration) + Amount(a, Transport) + Amount(a, Mechanical)
                                 + Amount(a, Recon) + Amount(a, SellingFees) + Amount(a, Misc)
  {
  }

  /** Tax and title have an entry where they are set, the others unless zero;
      the total is the tax on the purchase plus the fixed costs. */
  method BuyCosts(price: real, a: Assumptions, discount: real, miles: real)
    returns (acquisition: real, costs: map<Key, real>)
    ensures acquisition == Purchase(price, discount)
    ensures forall k :: k in costs <==> HasEntry(a, miles, k)
    ensures var road := 2.0 * miles * Amount(a, TransportPerMile);
            forall k :: k in costs ==> costs[k] == if k == SalesTax then TaxOn(acquisition, a)
                                                   else if k == TransportPerMile then road else Amount(a, k)
    ensures Entry(costs, SalesTax) == TaxOn(acquisition, a)
    ensures SumOfCosts(costs) - Entry(costs, SalesTax) == FixedCosts(a, miles)
  {
    acquisition := price * (1.0 - discount / 100.0);
    var tax := TaxOn(acquisition, a);
    costs := map[];
    if SalesTax in a && a[SalesTax].Some? { costs := costs[SalesTax := tax]; }
    if TitleRegistration in a && a[TitleRegistration].Some? {
      costs := costs[TitleRegistration := a[TitleRegistration].value];
    }
    assert forall k :: k in costs <==> (k == SalesTax || k == TitleRegistration) && k in a && a[k].Some?;
    assert forall k :: k in costs ==> costs[k] == if k == SalesTax then tax else Amount(a, k);
    costs := AddPlain(a, costs);
    var road := 2.0 * miles * Amount(a, TransportPerMile);
    if Amount(a, TransportPerMile) != 0.0 && miles != 0.0 { costs := costs[TransportPerMile := road]; }
    EntriesAddUp(costs, a, miles, tax, road);
  }

  lemma PlainCosts()
    ensures forall k :: k in PLAIN_COSTS <==> IsPlain(k)
  {
    assert PLAIN_COSTS[0] == Transport && PLAIN_COSTS[1] == Mechanical && PLAIN_COSTS[2] == Recon
        && PLAIN_COSTS[3] == SellingFees && PLAIN_COSTS[4] == Misc;
  }
}

/** The three scenarios, and the maximum offer solved from them. */
module Scenarios {
  import opened Options
  import opened Rounding
  import opened Valuations
  import opened Profit

  /** Where a resale value comes from. */
  datatype Basis = UserEstimate | Market(evidence: Evidence)

  /** Exact figures of one scenario. */
  datatype Figures = Figures(resale: real, purchase: real, holding: real, invested: real, profit: real)

  /** What is reported: whole dollars. */
  datatype Report = Report(resale: int, purchase: int, holding: int, invested: int, profit: int)

  datatype Shape = Shape(value: real, discount: real, pace: real)

  datatype Outlook = Outlook(conservative: Report, base: Report, optimistic: Report)

  function Max(x: real, y: real): real {
    if x >= y then x else y
  }

  function Min(x: real, y: real): real {
    if x <= y then x else y
  }

  /** Asking prices overstate sales, dealer asking prices more so. */
  function Haircut(a: Assumptions, basis: Option<Basis>, dealerShare: real): (h: real)
    ensures h <= 0.9
  {
    var sold := basis.None? || basis.value == UserEstimate || basis.value == Market(ConfirmedSales);
    var asking := if sold then 0.0 else Amount(a, AskingToSale) / 100.0;
    var dealer := if basis == Some(Market(Asking))
                  then Max(0.0, Min(1.0, dealerShare)) * Amount(a, DealerToPrivate) / 100.0 else 0.0;
    Min(0.9, asking + dealer)
  }

  function Holding(a: Assumptions, pace: real): real {
    Amount(a, HoldingPerDay) * (Amount(a, DaysToSell) * pace)
  }

  function Resale(value: real, haircut: real): real {
    value * (1.0 - haircut)
  }

  function Costs(a: Assumptions, purchase: real, miles: real): real {
    TaxOn(purchase, a) + FixedCosts(a, miles)
  }

  function Assemble(resale: real, purchase: real, costs: real, holding: real): Figures {
    var invested := purchase + costs + holding;
    Figures(resale, purchase, holding, invested, resale - invested)
  }

  function FiguresOf(price: real, a: Assumptions, miles: real, haircut: real, shape: Shape): Figures {
    var purchase := Purchase(price, shape.discount);
    Assemble(Resale(shape.value, haircut), purchase, Costs(a, purchase, miles), Holding(a, shape.pace))
  }

  function ReportOf(f: Figures): Report {
    Report(Round(f.resale), Round(f.purchase), Round(f.holding), Round(f.invested), Round(f.profit))
  }

  /** A missing or zero bound falls back to the middle. */
  function OrMiddle(bound: Option<real>, mid: real): real {
    if bound.None? || bound.value == 0.0 then mid else bound.value
  }

  function Cautious(a: Assumptions, low: Option<real>, mid: real): Shape {
    Shape(OrMiddle(low, mid), Max(0.0, Amount(a, Negotiation) - Amount(a, NegotiationSpread)), 1.5)
  }

  function Expected(a: Assumptions, mid: real): Shape {
    Shape(mid, Amount(a, Negotiation), 1.0)
  }

  function Hopeful(a: Assumptions, high: Option<real>, mid: real): Shape {
    Shape(OrMiddle(high, mid), Min(60.0, Amount(a, Negotiation) + Amount(a, NegotiationSpread)), 0.5)
  }

  function Outcome(price: real, a: Assumptions, miles: real, haircut: real, shape: Shape): Report {
    ReportOf(FiguresOf(price, a, miles, haircut, shape))
  }

  /** compute: nothing without a price and a middle value. */
  function Compute(price: real, low: Option<real>, mid: Option<real>, high: Option<real>,
                   basis: Option<Basis>, raw: Settings, miles: real, dealerShare: real): Option<Outlook>
  {
    if price == 0.0 || mid.None? || mid.value == 0.0 then None
    else
      var a, m := Merged(raw), mid.value;
      var h := Haircut(a, basis, dealerShare);
      Some(Outlook(Outcome(price, a, miles, h, Cautious(a, low, m)),
                   Outcome(price, a, miles, h, Expected(a, m)),
                   Outcome(price, a, miles, h, Hopeful(a, high, m))))
  }

  method CostTotals(price: real, a: Assumptions, discount: real, miles: real)
    returns (purchase: real, total: real, fixed: real)
    ensures purchase == Purchase(price, discount)
    ensures total == Costs(a, purchase, miles) && fixed == FixedCosts(a, miles)
  {
    var costs;
    purchase, costs := BuyCosts(price, a, discount, miles);
    total := SumOfCosts(costs);
    fixed := total - Entry(costs, SalesTax);
  }

  method ReportScenario(price: real, a: Assumptions, miles: real, haircut: real, shape: Shape)
    returns (r: Report)
    ensures r == Outcome(price, a, miles, haircut, shape)
  {
    var purchase, total, _ := CostTotals(price, a, shape.discount, miles);
    var holding := Holding(a, shape.pace);
    var invested := purchase + total + holding;
    var resale := Resale(shape.value, haircut);
    r := ReportOf(Figures(resale, purchase, holding, invested, resale - invested));
  }

  method ComputeOutlook(price: real, low: Option<real>, mid: Option<real>, high: Option<real>,
                        basis: Option<Basis>, raw: Settings, miles: real, dealerShare: real)
    returns (outlook: Option<Outlook>)
    ensures outlook == Compute(price, low, mid, high, basis, raw, miles, dealerShare)
  {
    if price == 0.0 || mid.None? || mid.value == 0.0 { return None; }
    var a := MergeSettings(raw);
    var haircut := Haircut(a, basis, dealerShare);
    var shapes := [Cautious(a, low, mid.value), Expected(a, mid.value), Hopeful(a, high, mid.value)];
    var reports: seq<Report> := [];
    for n := 0 to |shapes|
      invariant |reports| == n
      invariant forall i :: 0 <= i < n ==> reports[i] == Outcome(price, a, miles, haircut, shapes[i])
    {
      var r := ReportScenario(price, a, miles, haircut, shapes[n]);
      reports := reports + [r];
    }
    return Some(Outlook(reports[0], reports[1], reports[2]));
  }

  // ---------- the scenarios are in order ---------------------------------------------------

  ghost predicate Sensible(a: Assumptions) {
    forall k: Key :: Least(k) <= Amount(a, k) <= Most(k) || (MayBeUnset(k) && Amount(a, k) == 0.0)
  }

  lemma MergedIsSensible(raw: Settings)
    ensures Sensible(Merged(raw))
  {
    forall k: Key ensures Least(k) <= Amount(Merged(raw), k) <= Most(k)
                       || (MayBeUnset(k) && Amount(Merged(raw), k) == 0.0) {
      AssumedIsBounded(raw, k);
    }
  }

  lemma Scale(x: real, y: real, f: real)
    requires x <= y && f >= 0.0
    ensures x * f <= y * f
  {
    assert (y - x) * f >= 0.0;
  }

  lemma CheaperWithMoreDiscount(price: real, d: real, e: real)
    requires price >= 0.0 && d <= e <= 100.0
    ensures 0.0 <= Purchase(price, e) <= Purchase(price, d)
  {
    Scale(1.0 - e / 100.0, 1.0 - d / 100.0, price);
    Scale(0.0, 1.0 - e / 100.0, price);
  }

  lemma AssembleInOrder(f: Figures, g: Figures, costs: real, less: real)
    requires f == Assemble(f.resale, f.purchase, costs, f.holding)
    requires g == Assemble(g.resale, g.purchase, less, g.holding)
    requires f.resale <= g.resale && g.purchase <= f.purchase && less <= costs && g.holding <= f.holding
    ensures ReportOf(f).profit <= ReportOf(g).profit && ReportOf(f).resale <= ReportOf(g).resale
  {
    RoundMonotone(f.profit, g.profit);
    RoundMonotone(f.resale, g.resale);
  }

  lemma ResaleGrows(v: real, w: real, haircut: real)
    requires v <= w && haircut <= 0.9
    ensures Resale(v, haircut) <= Resale(w, haircut)
  {
    Scale(v, w, 1.0 - haircut);
  }

  /** A better shape never makes less. */
  lemma BetterShapeProfitsMore(price: real, a: Assumptions, miles: real, haircut: real, s: Shape, t: Shape)
    requires price >= 0.0 && Sensible(a) && haircut <= 0.9
    requires s.value <= t.value && s.discount <= t.discount <= 100.0 && t.pace <= s.pace
    ensures Outcome(price, a, miles, haircut, s).profit <= Outcome(price, a, miles, haircut, t).profit
    ensures Outcome(price, a, miles, haircut, s).resale <= Outcome(price, a, miles, haircut, t).resale
  {
    var f, g := FiguresOf(price, a, miles, haircut, s), FiguresOf(price, a, miles, haircut, t);
    CheaperWithMoreDiscount(price, s.discount, t.discount);
    CostsGrow(g.purchase, f.purchase, a, miles);
    HoldingGrows(a, t.pace, s.pace);
    ResaleGrows(s.value, t.value, haircut);
    AssembleInOrder(f, g, Costs(a, f.purchase, miles), Costs(a, g.purchase, miles));
  }

  lemma CostsGrow(x: real, y: real, a: Assumptions, miles: real)
    requires x <= y && Sensible(a)
    ensures Costs(a, x, miles) <= Costs(a, y, miles)
  {
    assert Least(SalesTax) == 0.0;
    Scale(x, y, Amount(a, SalesTax));
  }

  lemma HoldingGrows(a: Assumptions, slow: real, fast: real)
    requires slow <= fast && Sensible(a)
    ensures Holding(a, slow) <= Holding(a, fast)
  {
    var d, h := Amount(a, DaysToSell), Amount(a, HoldingPerDay);
    assert d >= Least(DaysToSell) && h >= Least(HoldingPerDay);
    Scale(slow, fast, d);
    Scale(slow * d, fast * d, h);
  }

  /** For every setting, conservative profit <= base profit <= optimistic. */
  lemma ScenariosAreOrdered(price: real, low: Option<real>, mid: real, high: Option<real>,
                            basis: Option<Basis>, raw: Settings, miles: real, dealerShare: real)
    requires price > 0.0 && mid != 0.0
    requires (low.Some? ==> low.value <= mid) && (high.Some? ==> mid <= high.value)
    ensures var o := Compute(price, low, Some(mid), high, basis, raw, miles, dealerShare);
            && o.Some?
            && o.value.conservative.profit <= o.value.base.profit <= o.value.optimistic.profit
            && o.value.conservative.resale <= o.value.base.resale <= o.value.optimistic.resale
  {
    var a := Merged(raw);
    var h := Haircut(a, basis, dealerShare);
    MergedIsSensible(raw);
    assert Most(Negotiation) == 60.0 && Least(NegotiationSpread) == 0.0 && Least(Negotiation) == 0.0;
    assert 0.0 <= Amount(a, Negotiation) <= 60.0 && Amount(a, NegotiationSpread) >= 0.0;
    BetterShapeProfitsMore(price, a, miles, h, Cautious(a, low, mid), Expected(a, mid));
    BetterShapeProfitsMore(price, a, miles, h, Expected(a, mid), Hopeful(a, high, mid));
  }

  // ---------- the maximum offer -----------------------------------------------------------------

  /** cost_basis: money in without a resale value. */
  datatype CostBasis = CostBasis(invested: real, fixed: real, taxRate: real)

  /** The same arithmetic as the base scenario's. */
  method CostBasisOf(price: real, raw: Settings, miles: real) returns (c: CostBasis)
    ensures c.fixed == FixedCosts(Merged(raw), miles) && c.taxRate == TaxRate(Merged(raw))
    ensures forall value, haircut ::
              c.invested == FiguresOf(price, Merged(raw), miles, haircut, Expected(Merged(raw), value)).invested
  {
    var a := MergeSettings(raw);
    var acquisition, total, fixed := CostTotals(price, a, Amount(a, Negotiation), miles);
    var holding := Amount(a, HoldingPerDay) * Amount(a, DaysToSell);
    BaseHolding(a);
    c := CostBasis(acquisition + total + holding, fixed, TaxRate(a));
  }

  lemma BaseHolding(a: Assumptions)
    ensures Holding(a, 1.0) == Amount(a, HoldingPerDay) * Amount(a, DaysToSell)
  {
    assert Amount(a, DaysToSell) * 1.0 == Amount(a, DaysToSell);
  }

  /** The price that leaves `target`, to the dollar and never below zero. */
  function MaxOffer(sc: Report, target: int, fixed: real, taxRate: real): (offer: nat)
    requires taxRate >= 0.0
  {
    var room := sc.resale as real - target as real - fixed - sc.holding as real;
    var p := Round(room / (1.0 + taxRate));
    if p > 0 then p else 0
  }

  /** One analysis works on merged assumptions, overlaid with the car's own
      costs and with no discount to negotiate. */
  function OfferSettings(raw: Settings, costs: Assumptions): Settings {
    AsSettings(Merged(raw) + costs + map[Negotiation := Some(0.0)])
  }

  lemma Distribute(x: real, y: real, f: real)
    ensures (x + y) * f == x * f + y * f
  {
  }

  lemma HalfTimes(e: real, f: real)
    requires e <= 0.5 && 1.0 <= f <= 1.15
    ensures e * f <= 0.575
  {
    Scale(e, 0.5, f);
    var half := 0.5 * f;
    assert half <= 0.575;
  }

  lemma ErrorTimes(e: real, f: real)
    requires -0.5 <= e <= 0.5 && 1.0 <= f <= 1.15
    ensures -0.575 <= e * f <= 0.575
  {
    HalfTimes(e, f);
    HalfTimes(-e, f);
    assert (-e) * f == -(e * f);
  }

  lemma RoundedPriceIsClose(room: real, f: real, p: real)
    requires 1.0 <= f <= 1.15 && p == Round(room / f) as real
    ensures -0.575 <= p * f - room <= 0.575
  {
    var q := room / f;
    assert q * f == room;
    ErrorTimes(p - q, f);
    Distribute(q, p - q, f);
    assert q + (p - q) == p;
  }

  lemma TwoDollarsMore(p: real, price: real, f: real)
    requires price >= p + 2.0 && f >= 1.0
    ensures price * f >= p * f + 2.0
  {
    assert (price - p) * (f - 1.0) >= 0.0;
  }

  /** `cost` is what paying a price takes, tax included; `room` was solved
      from rounded figures. */
  lemma RoundingsAddUp(resale: real, holding: real, fixed: real, target: int, room: real, cost: real)
    requires room == Round(resale) as real - target as real - fixed - Round(holding) as real
    ensures -0.575 <= cost - room <= 0.575 ==> -2 <= Round(resale - (cost + fixed + holding)) - target <= 2
    ensures cost - room >= 1.425 ==> resale - (cost + fixed + holding) < target as real
  {
  }

  /** Exact figures, rounded before the offer is solved: the offer misses the
      target by at most two dollars, and two dollars more always miss it. */
  lemma OfferArithmetic(resale: real, holding: real, fixed: real, f: real, target: int, paid: real, p: int)
    requires 1.0 <= f <= 1.15
    requires p == Round((Round(resale) as real - target as real - fixed - Round(holding) as real) / f)
    ensures paid == p as real ==> -2 <= Round(resale - (paid * f + fixed + holding)) - target <= 2
    ensures paid >= p as real + 2.0 ==> resale - (paid * f + fixed + holding) < target as real
  {
    var room := Round(resale) as real - target as real - fixed - Round(holding) as real;
    var cost := paid * f;
    RoundedPriceIsClose(room, f, p as real);
    if paid >= p as real + 2.0 {
      TwoDollarsMore(p as real, paid, f);
      assert cost - room >= 1.425;
    }
    RoundingsAddUp(resale, holding, fixed, target, room, cost);
    assert paid == p as real ==> cost == p as real * f;
  }

  // ---------- the offer, in the model of the whole analysis ----------------------------------

  lemma OfferHasNoDiscount(raw: Settings, costs: Assumptions, low: Option<real>, mid: real)
    ensures var a := Merged(OfferSettings(raw, costs));
            && Expected(a, mid).discount == 0.0
            && Cautious(a, low, mid).discount == 0.0
            && 0.0 <= TaxRate(a) <= 0.15
  {
    var b := Merged(raw) + costs + map[Negotiation := Some(0.0)];
    var a := Merged(OfferSettings(raw, costs));
    CleanAt(b, Negotiation);
    assert Amount(a, Negotiation) == 0.0;
    MergedIsSensible(OfferSettings(raw, costs));
    assert Least(NegotiationSpread) == 0.0 && Least(SalesTax) == 0.0 && Most(SalesTax) == 15.0;
    assert Amount(a, NegotiationSpread) >= 0.0 && 0.0 <= Amount(a, SalesTax) <= 15.0;
  }

  /** What is left when `paid` is paid and nothing is negotiated off. */
  lemma ProfitAtPrice(paid: real, a: Assumptions, miles: real, haircut: real, shape: Shape, f: real)
    requires shape.discount == 0.0 && f == 1.0 + TaxRate(a)
    ensures FiguresOf(paid, a, miles, haircut, shape).profit
         == Resale(shape.value, haircut) - (paid * f + FixedCosts(a, miles) + Holding(a, shape.pace))
  {
    var rate := Amount(a, SalesTax);
    assert Purchase(paid, 0.0) == paid;
    assert paid * rate / 100.0 == paid * (rate / 100.0);
    Distribute(1.0, rate / 100.0, paid);
    assert f == 1.0 + rate / 100.0 && paid * f == f * paid;
  }

  /** Paying the offer shows the wanted profit to within two dollars, and no
      price two dollars or more above it shows more than the wanted profit. */
  ghost predicate LeavesTarget(offer: nat, report: real -> Report, target: int) {
    && (offer > 0 ==> -2 <= report(offer as real).profit - target <= 2)
    && (forall p: real :: p >= offer as real + 2.0 ==> report(p).profit <= target)
  }

  function ReportAt(a: Assumptions, miles: real, haircut: real, shape: Shape): real -> Report {
    (p: real) => Outcome(p, a, miles, haircut, shape)
  }

  /** The maximum offer inverts the profit model at every setting, in the
      expected and in the conservative case, whatever price was analysed. */
  lemma MaxOfferInvertsTheModel(paid: real, low: Option<real>, mid: real, high: Option<real>, basis: Option<Basis>,
                                raw: Settings, costs: Assumptions, miles: real, dealerShare: real, target: int)
    requires paid != 0.0 && mid != 0.0
    ensures var s := OfferSettings(raw, costs);
            var a, o := Merged(s), Compute(paid, low, Some(mid), high, basis, s, miles, dealerShare);
            var h := Haircut(a, basis, dealerShare);
            && o.Some? && TaxRate(a) >= 0.0
            && LeavesTarget(MaxOffer(o.value.base, target, FixedCosts(a, miles), TaxRate(a)),
                            ReportAt(a, miles, h, Expected(a, mid)), target)
            && LeavesTarget(MaxOffer(o.value.conservative, target, FixedCosts(a, miles), TaxRate(a)),
                            ReportAt(a, miles, h, Cautious(a, low, mid)), target)
  {
    var a := Merged(OfferSettings(raw, costs));
    var h := Haircut(a, basis, dealerShare);
    OfferHasNoDiscount(raw, costs, low, mid);
    OfferLeavesTarget(paid, a, miles, h, Expected(a, mid), target);
    OfferLeavesTarget(paid, a, miles, h, Cautious(a, low, mid), target);
  }

  lemma OfferLeavesTarget(paid: real, a: Assumptions, miles: real, haircut: real, shape: Shape, target: int)
    requires shape.discount == 0.0 && 0.0 <= TaxRate(a) <= 0.15
    ensures LeavesTarget(MaxOffer(Outcome(paid, a, miles, haircut, shape), target, FixedCosts(a, miles), TaxRate(a)),
                         ReportAt(a, miles, haircut, shape), target)
  {
    var sc := Outcome(paid, a, miles, haircut, shape);
    var offer := MaxOffer(sc, target, FixedCosts(a, miles), TaxRate(a)) as real;
    OfferInverts(a, miles, haircut, shape, target, sc, offer);
    forall p: real | p >= offer + 2.0 ensures Outcome(p, a, miles, haircut, shape).profit <= target {
      BelowRoundsBelow(FiguresOf(p, a, miles, haircut, shape).profit, target);
    }
  }

  lemma BelowRoundsBelow(x: real, n: int)
    requires x < n as real
    ensures Round(x) <= n
  {
    RoundMonotone(x, n as real);
    RoundOfInt(n);
  }

  lemma OfferInverts(a: Assumptions, miles: real, haircut: real, shape: Shape, target: int, sc: Report, offer: real)
    requires shape.discount == 0.0 && 0.0 <= TaxRate(a) <= 0.15
    requires sc.resale == Round(Resale(shape.value, haircut)) && sc.holding == Round(Holding(a, shape.pace))
    requires offer == MaxOffer(sc, target, FixedCosts(a, miles), TaxRate(a)) as real
    ensures offer > 0.0 ==> -2 <= Outcome(offer, a, miles, haircut, shape).profit - target <= 2
    ensures forall p :: p >= offer + 2.0 ==> FiguresOf(p, a, miles, haircut, shape).profit < target as real
  {
    AtOffer(a, miles, haircut, shape, target, sc, offer, offer);
    forall paid: real | paid >= offer + 2.0
      ensures FiguresOf(paid, a, miles, haircut, shape).profit < target as real
    {
      AtOffer(a, miles, haircut, shape, target, sc, offer, paid);
    }
  }

  lemma AtOffer(a: Assumptions, miles: real, haircut: real, shape: Shape, target: int, sc: Report, offer: real,
                paid: real)
    requires shape.discount == 0.0 && 0.0 <= TaxRate(a) <= 0.15
    requires sc.resale == Round(Resale(shape.value, haircut)) && sc.holding == Round(Holding(a, shape.pace))
    requires offer == MaxOffer(sc, target, FixedCosts(a, miles), TaxRate(a)) as real
    ensures paid == offer > 0.0 ==> -2 <= Round(FiguresOf(paid, a, miles, haircut, shape).profit) - target <= 2
    ensures paid >= offer + 2.0 ==> FiguresOf(paid, a, miles, haircut, shape).profit < target as real
  {
    var f := 1.0 + TaxRate(a);
    ProfitAtPrice(paid, a, miles, haircut, shape, f);
    OfferAndPrice(Resale(shape.value, haircut), Holding(a, shape.pace), FixedCosts(a, miles), TaxRate(a), f,
                  target, paid, sc, offer, FiguresOf(paid, a, miles, haircut, shape).profit);
  }

  lemma OfferAndPrice(resale: real, holding: real, fixed: real, rate: real, f: real, target: int, paid: real,
                      sc: Report, offer: real, profit: real)
    requires 0.0 <= rate <= 0.15 && f == 1.0 + rate && sc.resale == Round(resale) && sc.holding == Round(holding)
    requires offer == MaxOffer(sc, target, fixed, rate) as real
    requires profit == resale - (paid * f + fixed + holding)
    ensures paid == offer > 0.0 ==> -2 <= Round(profit) - target <= 2
    ensures paid >= offer + 2.0 ==> profit < target as real
  {
    var p := Round((sc.resale as real - target as real - fixed - sc.holding as real) / f);
    assert MaxOffer(sc, target, fixed, rate) == if p > 0 then p else 0;
    OfferArithmetic(resale, holding, fixed, f, target, paid, p);
  }
}

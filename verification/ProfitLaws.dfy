/** What a profit estimate is made of, for any settings. */
module ProfitLaws {
  import opened Options
  import opened Rounding
  import opened Valuations
  import opened Profit
  import opened Scenarios

  // ---------- settings ---------------------------------------------------------------------------

  /** What is assumed of a user who set nothing. */
  lemma DefaultAssumptions(k: Key)
    ensures Merged(map[])[k]
         == if k == SalesTax || k == TitleRegistration then None
            else if k == Mechanical then Some(500.0) else if k == Recon then Some(250.0)
            else if k == SellingFees then Some(100.0) else if k == DaysToSell then Some(21.0)
            else if k == DealerToPrivate then Some(10.0)
            else if k == AskingToSale || k == NegotiationSpread || k == HoldingPerDay then Some(5.0)
            else Some(0.0)
  {
  }

  /** The largest value each setting can have: percentages, dollars and days. */
  function Limit(k: Key): real {
    if k == Negotiation then 60.0
    else if k == AskingToSale || k == DealerToPrivate then 40.0
    else if k == NegotiationSpread then 30.0
    else if k == SalesTax then 15.0
    else if k == TransportPerMile then 5.0
    else if k == DaysToSell then 365.0
    else if k == HoldingPerDay then 500.0
    else if k == TitleRegistration then 5000.0
    else if k == Transport || k == SellingFees then 20000.0
    else 100000.0
  }

  /** A number the user set is taken as it is within its limits, and at the
      nearer one beyond them; days to sell are at least one. */
  lemma SettingsAreClamped(raw: Settings, k: Key, x: real)
    requires k in raw && raw[k] == Num(x)
    ensures var least := if k == DaysToSell then 1.0 else 0.0;
            Merged(raw)[k] == Some(if x < least then least else if x > Limit(k) then Limit(k) else x)
  {
  }

  /** Something that is no number counts as not set; a blank is zero, or unset
      for the two that may be, or the default of days to sell. */
  lemma BlanksAndGarbage(raw: Settings, k: Key)
    requires k in raw && !raw[k].Num? && (k == Mechanical ==> Recon !in raw || raw[Recon].Garbage?)
    ensures raw[k].Garbage? ==> Merged(raw)[k] == Merged(map[])[k]
    ensures raw[k].Blank? ==> Merged(raw)[k] == if k == SalesTax || k == TitleRegistration then None
                                               else if k == DaysToSell then Some(21.0) else Some(0.0)
  {
  }

  // ---------- the resale value ---------------------------------------------------------------------

  /** A share of dealers between none and all. */
  function Dealers(share: real): real {
    if share < 0.0 then 0.0 else if share > 1.0 then 1.0 else share
  }

  lemma ShareOfDealers(share: real, pct: real)
    requires 0.0 <= pct <= 40.0
    ensures 0.0 <= Dealers(share) * pct / 100.0 <= 0.4
  {
    MulNonNegative(Dealers(share), pct);
    MulNonNegative(1.0 - Dealers(share), pct);
    assert Dealers(share) * pct <= pct;
  }

  /** What is taken off: nothing from sales and from the user's own estimate,
      the asking-to-sale gap from any other evidence, and from asking prices
      also the dealer gap in proportion to the dealers among them. The cap of
      nine tenths is never reached with settings in their limits. */
  lemma HaircutExactly(raw: Settings, basis: Option<Basis>, share: real)
    ensures var a, h := Merged(raw), Haircut(Merged(raw), basis, share);
            && (basis.None? || basis == Some(UserEstimate) || basis == Some(Market(ConfirmedSales)) ==> h == 0.0)
            && (basis == Some(Market(Historical)) || basis == Some(Market(Insufficient)) ==> h == a[AskingToSale].value / 100.0)
            && (basis == Some(Market(Asking)) ==>
                  h == a[AskingToSale].value / 100.0 + Dealers(share) * a[DealerToPrivate].value / 100.0)
  {
    var a := Merged(raw);
    AssumedIsBounded(raw, AskingToSale);
    AssumedIsBounded(raw, DealerToPrivate);
    var asking, dealer := a[AskingToSale].value, a[DealerToPrivate].value;
    assert Least(AskingToSale) == 0.0 && Most(AskingToSale) == 40.0;
    assert Least(DealerToPrivate) == 0.0 && Most(DealerToPrivate) == 40.0;
    assert Amount(a, AskingToSale) == asking && Amount(a, DealerToPrivate) == dealer;
    ShareOfDealers(share, dealer);
    assert Max(0.0, Min(1.0, share)) == Dealers(share);
  }

  // ---------- the three scenarios ---------------------------------------------------------------------

  /** The scenarios: sold at the middle, or at the ends of the range where they
      are known; bought at what is negotiated off, by a spread less and more,
      between nothing and sixty per cent; held for one, one and a half, and half
      the days. */
  lemma ShapesAre(a: Assumptions, low: Option<real>, mid: real, high: Option<real>)
    ensures var off, spread := Amount(a, Negotiation), Amount(a, NegotiationSpread);
            && Expected(a, mid) == Shape(mid, off, 1.0)
            && Cautious(a, low, mid) == Shape(if low.Some? && low.value != 0.0 then low.value else mid,
                                              if off > spread then off - spread else 0.0, 1.5)
            && Hopeful(a, high, mid) == Shape(if high.Some? && high.value != 0.0 then high.value else mid,
                                              if off + spread < 60.0 then off + spread else 60.0, 0.5)
  {
  }

  /** Each scenario is reported in its own shape. */
  lemma ScenariosAre(price: real, low: Option<real>, mid: real, high: Option<real>, basis: Option<Basis>, raw: Settings,
                     miles: real, share: real, a: Assumptions, h: real)
    requires price != 0.0 && mid != 0.0 && a == Merged(raw) && h == Haircut(a, basis, share)
    ensures var o := Compute(price, low, Some(mid), high, basis, raw, miles, share);
            && o.Some? && o.value.base == Outcome(price, a, miles, h, Expected(a, mid))
            && o.value.conservative == Outcome(price, a, miles, h, Cautious(a, low, mid))
            && o.value.optimistic == Outcome(price, a, miles, h, Hopeful(a, high, mid))
  {
  }

  /** Nothing is estimated without a price and a middle value. */
  lemma NothingWithoutAPrice(price: real, low: Option<real>, mid: Option<real>, high: Option<real>, basis: Option<Basis>,
                             raw: Settings, miles: real, share: real)
    ensures Compute(price, low, mid, high, basis, raw, miles, share).None? <==> price == 0.0 || mid.None? || mid.value == 0.0
  {
  }

  /** Each is sold at its value less the haircut, bought at its discount, held
      at so much a day, and reported to the dollar. */
  lemma ScenariosSellBuyAndHold(price: real, a: Assumptions, miles: real, h: real, shape: Shape, sold: real, paid: real, held: real)
    requires sold == shape.value * (1.0 - h) && paid == price * (1.0 - shape.discount / 100.0)
    requires held == Amount(a, HoldingPerDay) * (Amount(a, DaysToSell) * shape.pace)
    ensures var f := FiguresOf(price, a, miles, h, shape); f.resale == sold && f.purchase == paid && f.holding == held
    ensures var r := Outcome(price, a, miles, h, shape);
            r.resale == Round(sold) && r.purchase == Round(paid) && r.holding == Round(held)
  {
    assert Purchase(price, shape.discount) == paid && Resale(shape.value, h) == sold && Holding(a, shape.pace) == held;
  }

  /** A dollar more of any plain cost, at the same price, is a dollar less of
      profit and a dollar more put in; so is a dollar more of tax. */
  lemma CostsComeOffTheProfit(price: real, a: Assumptions, miles: real, h: real, shape: Shape)
    ensures var f := FiguresOf(price, a, miles, h, shape);
            && f.profit == f.resale - f.invested
            && f.invested == f.purchase + f.holding + f.purchase * Amount(a, SalesTax) / 100.0
                             + Amount(a, TitleRegistration) + Amount(a, Transport) + Amount(a, Mechanical) + Amount(a, Recon)
                             + Amount(a, SellingFees) + Amount(a, Misc) + 2.0 * miles * Amount(a, TransportPerMile)
            && Outcome(price, a, miles, h, shape).profit == Round(f.resale - f.invested)
            && Outcome(price, a, miles, h, shape).invested == Round(f.invested)
  {
  }
}

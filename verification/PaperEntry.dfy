// Sizing, the two-leg entry and the synthetic gateway together: what an entry
// sized on a book does when it is placed on that book in paper mode.
module PaperEntry {
  import opened RealArith
  import opened Books
  import opened Domain
  import opened Sizing
  import opened PaperGateway
  import opened Symbols
  import Gateways
  import Executor
  import LegThreads
  import Gate

  /** What the harness injects besides the books. */
  datatype Fixtures = Fixtures(funding: map<string, Gateways.FundingInfo>, rates: seq<Gateways.FundingInfo>,
                               fees: map<(string, string), (real, real)>, lots: map<string, real>,
                               perps: map<string, real>)

  function Balance(w: Wallet): Gateways.WalletBalance {
    Gateways.WalletBalance(w.free, w.total)
  }

  /** The synthetic gateway as one machine among all those the loop can face. */
  function PaperAnswer(cfg: Config, fix: Fixtures, st: PaperState, request: Gateways.Request)
    : (Gateways.Reply, PaperState)
  {
    match request
    case PlaceOrder(order) =>
      var (fill, st') := Place(cfg, st, order); (Gateways.Ordered(fill, Gateways.Answered), st')
    case FetchFundingRates => (Gateways.Rates(fix.rates), st)
    case FetchFunding(symbol) =>
      (if symbol in fix.funding then Gateways.Funding(fix.funding[symbol]) else Gateways.Failed, st)
    case SnapshotBook(symbol) =>
      (if symbol in cfg.books then Gateways.Book(cfg.books[symbol]) else Gateways.Failed, st)
    case FetchFees(spotSymbol, perpSymbol) =>
      var key := (spotSymbol, perpSymbol);
      (if key in fix.fees then Gateways.Fees(fix.fees[key].0, fix.fees[key].1)
       else Gateways.Fees(cfg.feeBps, cfg.feeBps), st)
    case FetchBalance(asset) =>
      (Gateways.Balances(Balance(WalletIn(st.spot, asset)), Balance(WalletIn(st.futures, asset))), st)
    case ListOpenPerps => (Gateways.Perps(fix.perps), st)
    case FetchLotStep(symbol) => (Gateways.LotStep(if symbol in fix.lots then fix.lots[symbol] else 0.001), st)
  }

  function PaperMachine(cfg: Config, fix: Fixtures): Gateways.Machine<PaperState> {
    (st: PaperState, request: Gateways.Request) => PaperAnswer(cfg, fix, st, request)
  }

  /** A sized entry about to be placed on the books it was sized on, under ids not used before. */
  ghost predicate ReadyToPlace(cfg: Config, st: PaperState, inp: SizingInputs, e: Executor.EntryOrder) {
    && e.spotSymbol in cfg.books && e.perpSymbol in cfg.books
    && inp.spotBook == cfg.books[e.spotSymbol] && inp.perpBook == cfg.books[e.perpSymbol]
    && Positive(inp.spotBook.asks) && Ascending(inp.spotBook.asks)
    && Positive(inp.perpBook.bids) && Descending(inp.perpBook.bids)
    && 0.0 <= inp.subTarget <= 1.0 && -10000.0 < cfg.slippageBps < 10000.0
    && EntrySize(inp).rejection.None? && e.qty == EntrySize(inp).targetQty
    && e.spotCoid !in st.seen && e.perpCoid !in st.seen && e.spotCoid != e.perpCoid
  }

  lemma FillPricePositive(cfg: Config, levels: seq<Level>, side: Side, qty: real)
    requires Positive(levels) && 0.0 < qty <= Depth(levels, |levels|) && -10000.0 < cfg.slippageBps < 10000.0
    ensures 0.0 < FillPrice(cfg, levels, side, qty)
  {
    CostPositive(levels, qty, |levels|);
    var cost := Cost(levels, qty, |levels|);
    QuotientPositive(cost, qty);
    ProductPositive(Over(cost, qty), SlippageFactor(cfg, side));
  }

  /** An order within the depth of a positive book, under a new id, is filled whole at a positive price. */
  lemma FreshOrderFills(cfg: Config, st: PaperState, order: Order)
    requires order.coid !in st.seen && order.symbol in cfg.books && -10000.0 < cfg.slippageBps < 10000.0
    requires var levels := Levels(cfg.books[order.symbol], order.side);
      Positive(levels) && 0.0 < order.qty <= Depth(levels, |levels|)
    ensures Place(cfg, st, order).0.accepted && AllOrNothing(order, Place(cfg, st, order).0)
  {
    FillPricePositive(cfg, Levels(cfg.books[order.symbol], order.side), order.side, order.qty);
  }

  /** The legs of a ready entry fill in either order: the outcome is SUCCESS, and no orphan can arise. */
  lemma SizedEntrySucceeds(cfg: Config, fix: Fixtures, st: PaperState, inp: SizingInputs, e: Executor.EntryOrder,
                           spotFirst: bool)
    requires ReadyToPlace(cfg, st, inp, e)
    ensures var t := Executor.Enter(PaperMachine(cfg, fix), st, e, spotFirst).0;
      && Executor.Verdict(t).Some? && Executor.Verdict(t).value.outcome == Executor.Success
      && Executor.Witnessed(t) && t.spot.fill.qty == t.perp.fill.qty == EntrySize(inp).targetQty
  {
    EntrySizeFits(inp);
    var spot, perp := Executor.SpotOrder(e), Executor.PerpOrder(e);
    FreshOrderFills(cfg, st, spot);
    FreshOrderFills(cfg, st, perp);
    FreshOrderFills(cfg, Place(cfg, st, spot).1, perp);
    FreshOrderFills(cfg, Place(cfg, st, perp).1, spot);
  }

  // ----- the wallets after a sized entry -----

  function Rate(bps: real): real {
    Over(bps, 10000.0)
  }

  /** The safety margin covers slippage and fee. */
  predicate MarginCovers(cfg: Config, safety: real) {
    && 0.0 <= safety && 0.0 <= cfg.slippageBps < 10000.0 && 0.0 <= cfg.feeBps <= 10000.0
    && Times(Times(safety, 1.0 + Rate(cfg.slippageBps)), 1.0 + Rate(cfg.feeBps)) <= 1.0
  }

  function Notional(fill: Fill): real {
    Times(fill.qty, fill.price)
  }

  lemma NotionalOfQuote(cfg: Config, levels: seq<Level>, side: Side, qty: real)
    requires 0.0 < qty
    ensures Times(qty, FillPrice(cfg, levels, side, qty))
        == Times(Cost(levels, qty, |levels|), SlippageFactor(cfg, side))
  {
    var cost, factor := Cost(levels, qty, |levels|), SlippageFactor(cfg, side);
    Quotient(cost, qty);
    Associate(qty, Over(cost, qty), factor);
    Commute(qty, Over(cost, qty));
  }

  /** What a reservable buy debits, slippage and fee included, fits the free balance it was sized on. */
  lemma DebitFits(cfg: Config, asks: seq<Level>, free: real, safety: real, qty: real)
    requires Positive(asks) && Ascending(asks) && 0.0 <= free && MarginCovers(cfg, safety)
    requires Reservable(asks, Times(free, safety), qty)
    ensures var notional := Times(qty, FillPrice(cfg, asks, Buy, qty));
      notional + Times(notional, Rate(cfg.feeBps)) <= free
  {
    var cost := Cost(asks, qty, |asks|);
    var s, f := 1.0 + Rate(cfg.slippageBps), 1.0 + Rate(cfg.feeBps);
    NotionalOfQuote(cfg, asks, Buy, qty);
    assert SlippageFactor(cfg, Buy) == s;
    ReservableIsAffordable(asks, Times(free, safety), qty);
    DebitArithmetic(cost, free, safety, s, f);
    Distribute(1.0, Rate(cfg.feeBps), Times(cost, s));
  }

  lemma DebitArithmetic(cost: real, free: real, safety: real, s: real, f: real)
    requires cost <= Times(free, safety) && 0.0 <= free && 1.0 <= s && 1.0 <= f && Times(Times(safety, s), f) <= 1.0
    ensures Times(Times(cost, s), f) <= free
  {
    Scale(s, cost, Times(free, safety));
    Scale(f, Times(cost, s), Times(Times(free, safety), s));
    Associate(free, safety, s);
    Associate(free, Times(safety, s), f);
    Scale(free, Times(Times(safety, s), f), 1.0);
  }

  predicate Solvent(w: Wallet) {
    0.0 <= w.free <= w.total
  }

  function Shifted(w: Wallet, delta: real): Wallet {
    Wallet(w.free + delta, w.total + delta)
  }

  /** The spot leg never reaches the clamp: quote falls by notional and fee, base rises by the quantity. */
  lemma SpotLegIsExact(cfg: Config, st: PaperState, inp: SizingInputs, e: Executor.EntryOrder)
    requires ReadyToPlace(cfg, st, inp, e) && MarginCovers(cfg, inp.safety) && cfg.trackWallets && '/' in e.spotSymbol
    requires var base, quote := BaseAsset(e.spotSymbol), QuoteAsset(e.spotSymbol);
      && base != quote && Solvent(WalletIn(st.spot, base)) && Solvent(WalletIn(st.spot, quote))
      && WalletIn(st.spot, quote).free == inp.spotFree
    ensures var base, quote := BaseAsset(e.spotSymbol), QuoteAsset(e.spotSymbol);
      var (fill, st') := Place(cfg, st, Executor.SpotOrder(e));
      && fill.accepted
      && WalletIn(st'.spot, quote) == Shifted(WalletIn(st.spot, quote), -(Notional(fill) + fill.fee))
      && WalletIn(st'.spot, base) == Shifted(WalletIn(st.spot, base), fill.qty)
      && (forall asset :: asset != base && asset != quote ==> WalletIn(st'.spot, asset) == WalletIn(st.spot, asset))
      && st'.futures == st.futures
  {
    EntrySizeFits(inp);
    FreshOrderFills(cfg, st, Executor.SpotOrder(e));
    DebitFits(cfg, inp.spotBook.asks, inp.spotFree, inp.safety, e.qty);
  }

  /** The perp leg never reaches the clamp either: quote rises by exactly notional less fee. */
  lemma PerpLegIsExact(cfg: Config, st: PaperState, inp: SizingInputs, e: Executor.EntryOrder)
    requires ReadyToPlace(cfg, st, inp, e) && 0.0 <= cfg.feeBps <= 10000.0 && cfg.trackWallets && '/' in e.perpSymbol
    requires Solvent(WalletIn(st.futures, QuoteAsset(e.perpSymbol)))
    ensures var quote := QuoteAsset(e.perpSymbol);
      var (fill, st') := Place(cfg, st, Executor.PerpOrder(e));
      && fill.accepted && fill.fee <= Notional(fill)
      && WalletIn(st'.futures, quote) == Shifted(WalletIn(st.futures, quote), Notional(fill) - fill.fee)
      && (forall asset :: asset != quote ==> WalletIn(st'.futures, asset) == WalletIn(st.futures, asset))
      && st'.spot == st.spot
  {
    EntrySizeFits(inp);
    FreshOrderFills(cfg, st, Executor.PerpOrder(e));
    var fill := Place(cfg, st, Executor.PerpOrder(e)).0;
    ProductPositive(fill.qty, fill.price);
    Scale(Notional(fill), Rate(cfg.feeBps), 1.0);
  }

  /** The spot wallets after the fill: quote down by notional and fee, base up by the quantity, nothing else moved. */
  ghost predicate SpotMoved(before: Bucket, after: Bucket, symbol: string, fill: Fill) {
    var base, quote := BaseAsset(symbol), QuoteAsset(symbol);
    && WalletIn(after, quote) == Shifted(WalletIn(before, quote), -(Notional(fill) + fill.fee))
    && WalletIn(after, base) == Shifted(WalletIn(before, base), fill.qty)
    && forall asset :: asset != base && asset != quote ==> WalletIn(after, asset) == WalletIn(before, asset)
  }

  /** The futures wallets after the fill: quote up by notional less fee, nothing else moved. */
  ghost predicate FuturesMoved(before: Bucket, after: Bucket, symbol: string, fill: Fill) {
    var quote := QuoteAsset(symbol);
    && WalletIn(after, quote) == Shifted(WalletIn(before, quote), Notional(fill) - fill.fee)
    && forall asset :: asset != quote ==> WalletIn(after, asset) == WalletIn(before, asset)
  }

  /** A sized entry ends where spot placed before perp ends, whichever leg is served first. */
  lemma EntryPlacesBoth(cfg: Config, fix: Fixtures, st: PaperState, inp: SizingInputs, e: Executor.EntryOrder,
                        spotFirst: bool)
    requires ReadyToPlace(cfg, st, inp, e)
    ensures var (spot, st1) := Place(cfg, st, Executor.SpotOrder(e));
      var (perp, end) := Place(cfg, st1, Executor.PerpOrder(e));
      Executor.Enter(PaperMachine(cfg, fix), st, e, spotFirst)
      == (Executor.Trace(Gateways.Answer(spot, Gateways.Answered), Gateways.Answer(perp, Gateways.Answered), None), end)
  {
    EntrySizeFits(inp);
    var spot, perp := Executor.SpotOrder(e), Executor.PerpOrder(e);
    FreshOrderFills(cfg, st, spot);
    FreshOrderFills(cfg, st, perp);
    FreshOrderFills(cfg, Place(cfg, st, spot).1, perp);
    FreshOrderFills(cfg, Place(cfg, st, perp).1, spot);
    LegThreads.LegsCommute(cfg, st, spot, perp);
  }

  /** A whole sized entry, whichever leg is served first: both legs fill and both wallets move by exactly their fill. */
  lemma EntryIsExact(cfg: Config, fix: Fixtures, st: PaperState, inp: SizingInputs, e: Executor.EntryOrder,
                     spotFirst: bool)
    requires ReadyToPlace(cfg, st, inp, e) && MarginCovers(cfg, inp.safety) && cfg.trackWallets
    requires '/' in e.spotSymbol && '/' in e.perpSymbol
    requires var base, quote := BaseAsset(e.spotSymbol), QuoteAsset(e.spotSymbol);
      && base != quote && Solvent(WalletIn(st.spot, base)) && Solvent(WalletIn(st.spot, quote))
      && WalletIn(st.spot, quote).free == inp.spotFree && Solvent(WalletIn(st.futures, QuoteAsset(e.perpSymbol)))
    ensures var (t, end) := Executor.Enter(PaperMachine(cfg, fix), st, e, spotFirst);
      && t.spot.fill.accepted && t.perp.fill.accepted && t.rollback == None
      && SpotMoved(st.spot, end.spot, e.spotSymbol, t.spot.fill)
      && FuturesMoved(st.futures, end.futures, e.perpSymbol, t.perp.fill)
      && end.seen == st.seen + {e.spotCoid, e.perpCoid}
  {
    var spot, perp := Executor.SpotOrder(e), Executor.PerpOrder(e);
    EntryPlacesBoth(cfg, fix, st, inp, e, spotFirst);
    SpotLegIsExact(cfg, st, inp, e);
    PerpLegIsExact(cfg, st, inp, e);
    LegThreads.LegsCommute(cfg, st, spot, perp);
    LegThreads.PlaceLeavesTheOther(cfg, perp, Place(cfg, st, spot).1, spot);
    LegThreads.PlaceLeavesTheOther(cfg, spot, Place(cfg, st, perp).1, perp);
    PlaceAnswersTheOrder(cfg, st, spot);
    PlaceAnswersTheOrder(cfg, Place(cfg, st, spot).1, perp);
  }

  // ----- forecasts against fills -----

  /** Both forecasts are on the unfavourable side of what the books give the floored quantity. */
  lemma ForecastsArePessimistic(inp: SizingInputs)
    requires Positive(inp.spotBook.asks) && Ascending(inp.spotBook.asks)
    requires Positive(inp.perpBook.bids) && Descending(inp.perpBook.bids)
    requires 0.0 <= inp.subTarget <= 1.0 && EntrySize(inp).rejection.None?
    ensures var r := EntrySize(inp);
      Vwap(inp.spotBook.asks, r.targetQty) <= r.spotForecast && r.perpForecast <= Vwap(inp.perpBook.bids, r.targetQty)
  {
    EntrySizeFits(inp);
    var r := EntrySize(inp);
    BuySpotIsOptimal(inp.spotBook.asks, inp.spotFree, inp.safety);
    VwapAscends(inp.spotBook.asks, r.targetQty, r.spotQty);
    VwapDescends(inp.perpBook.bids, r.targetQty, r.perpQty);
  }

  lemma BasisOrder(perp: real, spot: real, perp': real, spot': real)
    requires 0.0 < spot' <= spot && 0.0 <= perp <= perp'
    ensures Gate.BasisBps(perp, spot) <= Gate.BasisBps(perp', spot')
  {
    BasisCross(perp, spot, perp', spot');
    CompareQuotients(perp - spot, spot, perp' - spot', spot');
    Scale(10000.0, Over(perp - spot, spot), Over(perp' - spot', spot'));
  }

  lemma BasisCross(perp: real, spot: real, perp': real, spot': real)
    requires 0.0 < spot' <= spot && 0.0 <= perp <= perp'
    ensures Times(spot', perp - spot) <= Times(spot, perp' - spot')
  {
    Distribute(perp, -spot, spot');
    Distribute(perp', -spot', spot);
    Scale(perp, spot', spot);
    Scale(spot, perp, perp');
    Negate(spot', spot);
    Negate(spot, spot');
    Commute(spot, spot');
  }

  /** Without slippage a paper fill is at the average price of the levels it takes. */
  lemma FillWithoutSlippage(cfg: Config, levels: seq<Level>, side: Side, qty: real)
    requires cfg.slippageBps == 0.0 && 0.0 < qty <= Depth(levels, |levels|)
    ensures FillPrice(cfg, levels, side, qty) == Vwap(levels, qty)
  {
    assert SlippageFactor(cfg, side) == 1.0;
  }

  /**
   * Reducing the quantity from p down to q leaves the average where it was: nothing was reduced,
   * or p stays within one price.
   */
  ghost predicate Steady(levels: seq<Level>, q: real, p: real) {
    q == p || (0.0 < p <= Depth(levels, |levels|) && OnePrice(levels, p, DeepestPrice(levels, p)))
  }

  function PriceRatio(perp: real, spot: real): real {
    if spot <= 0.0 then 0.0 else Over(perp, spot)
  }

  /** Plain prices: forecasts on the unfavourable side of the fills. */
  lemma BasisCompared(perpSeen: real, spotSeen: real, perp: real, spot: real)
    requires 0.0 < spot <= spotSeen && 0.0 < perpSeen <= perp
    ensures var seen, filled := Gate.BasisBps(perpSeen, spotSeen), Gate.BasisBps(perp, spot);
      && seen <= filled
      && (seen == filled <==> perpSeen == perp && spotSeen == spot)
      && (seen + filled <= 0.0 <==> PriceRatio(perpSeen, spotSeen) + PriceRatio(perp, spot) <= 2.0)
  {
    BasisOrder(perpSeen, spotSeen, perp, spot);
    Gate.BasisAsRatio(perpSeen, spotSeen);
    Gate.BasisAsRatio(perp, spot);
    if Over(perpSeen, spotSeen) == Over(perp, spot) {
      Quotient(perpSeen, spotSeen);
      Quotient(perp, spot);
      QuotientPositive(perp, spot);
      if spot < spotSeen {
        ScaleStrict(Over(perp, spot), spot, spotSeen);
      }
    }
  }

  /** Both forecasts are averages on their own books, and the fill at the floored quantity is no larger than either. */
  lemma ForecastsAreAverages(inp: SizingInputs)
    requires Positive(inp.spotBook.asks) && Ascending(inp.spotBook.asks)
    requires 0.0 <= inp.subTarget <= 1.0 && EntrySize(inp).rejection.None?
    ensures var r := EntrySize(inp);
      && r.spotForecast == Vwap(inp.spotBook.asks, r.spotQty) && r.perpForecast == Vwap(inp.perpBook.bids, r.perpQty)
      && 0.0 < r.targetQty <= r.spotQty <= Depth(inp.spotBook.asks, |inp.spotBook.asks|)
      && r.targetQty <= r.perpQty <= Depth(inp.perpBook.bids, |inp.perpBook.bids|)
  {
    EntrySizeFits(inp);
    BuySpotIsOptimal(inp.spotBook.asks, inp.spotFree, inp.safety);
  }

  /**
   * The basis the gate sees is at most the basis a paper entry fills at without
   * slippage. The gate charges for its absolute value. It charges at least the
   * filled one exactly when reducing each leg's quantity to the target (the other
   * leg, the operator's cap, the sub-target factor and the lot step) moved neither
   * average, or the two ratios of perp to spot price, forecast and filled, do not
   * average above one.
   */
  lemma GateSeesNoMoreBasis(cfg: Config, inp: SizingInputs)
    requires Positive(inp.spotBook.asks) && Ascending(inp.spotBook.asks)
    requires Positive(inp.perpBook.bids) && Descending(inp.perpBook.bids)
    requires 0.0 <= inp.subTarget <= 1.0 && EntrySize(inp).rejection.None? && cfg.slippageBps == 0.0
    ensures var r := EntrySize(inp);
      var perp, spot := Vwap(inp.perpBook.bids, r.targetQty), Vwap(inp.spotBook.asks, r.targetQty);
      var seen, filled := Gate.BasisBps(r.perpForecast, r.spotForecast), Gate.BasisBps(perp, spot);
      && FillPrice(cfg, inp.perpBook.bids, Sell, r.targetQty) == perp
      && FillPrice(cfg, inp.spotBook.asks, Buy, r.targetQty) == spot
      && seen <= filled
      && (Abs(filled) <= Abs(seen) <==>
            (Steady(inp.spotBook.asks, r.targetQty, r.spotQty) && Steady(inp.perpBook.bids, r.targetQty, r.perpQty))
            || PriceRatio(r.perpForecast, r.spotForecast) + PriceRatio(perp, spot) <= 2.0)
  {
    var r := EntrySize(inp);
    var perp, spot := Vwap(inp.perpBook.bids, r.targetQty), Vwap(inp.spotBook.asks, r.targetQty);
    ForecastsArePessimistic(inp);
    ForecastsAreAverages(inp);
    FillWithoutSlippage(cfg, inp.perpBook.bids, Sell, r.targetQty);
    FillWithoutSlippage(cfg, inp.spotBook.asks, Buy, r.targetQty);
    VwapPositive(inp.spotBook.asks, r.targetQty);
    VwapPositive(inp.perpBook.bids, r.perpQty);
    BasisCompared(r.perpForecast, r.spotForecast, perp, spot);
    if r.targetQty < r.spotQty {
      VwapSteadyIff(inp.spotBook.asks, r.targetQty, r.spotQty);
    }
    if r.targetQty < r.perpQty {
      VwapSteadyDownIff(inp.perpBook.bids, r.targetQty, r.perpQty);
    }
  }

  /** Filled at no premium, the gate always charges at least the filled basis. */
  lemma NoPremiumIsCharged(cfg: Config, inp: SizingInputs)
    requires Positive(inp.spotBook.asks) && Ascending(inp.spotBook.asks)
    requires Positive(inp.perpBook.bids) && Descending(inp.perpBook.bids)
    requires 0.0 <= inp.subTarget <= 1.0 && EntrySize(inp).rejection.None? && cfg.slippageBps == 0.0
    requires Vwap(inp.perpBook.bids, EntrySize(inp).targetQty) <= Vwap(inp.spotBook.asks, EntrySize(inp).targetQty)
    ensures var r := EntrySize(inp);
      Abs(Gate.BasisBps(Vwap(inp.perpBook.bids, r.targetQty), Vwap(inp.spotBook.asks, r.targetQty)))
      <= Abs(Gate.BasisBps(r.perpForecast, r.spotForecast))
  {
    var r := EntrySize(inp);
    ForecastsArePessimistic(inp);
    ForecastsAreAverages(inp);
    VwapPositive(inp.spotBook.asks, r.targetQty);
    VwapPositive(inp.perpBook.bids, r.perpQty);
    var perp, spot := Vwap(inp.perpBook.bids, r.targetQty), Vwap(inp.spotBook.asks, r.targetQty);
    BasisCompared(r.perpForecast, r.spotForecast, perp, spot);
    QuotientBound(1.0, r.perpForecast, r.spotForecast);
    QuotientBound(1.0, perp, spot);
  }

  /**
   * The failing input: the floored order stays on a cheap first ask the forecast averaged away,
   * and doubles the basis.
   */
  lemma GateCanUndercharge(inp: SizingInputs)
    requires inp.spotBook.asks == [Level(1.0, 1.0), Level(2.0, 1.0)]
    requires inp.perpBook.bids == [Level(3.0, 2.0)] && inp.perpBook.mid == 3.0
    requires inp.spotFree == inp.perpFree == 10.0 && inp.safety == 0.99 && inp.leverage == 1.0
    requires inp.subTarget == inp.operatorCap == inp.spotStep == inp.perpStep == 1.0
    ensures var r := EntrySize(inp);
      && r.rejection.None? && r.targetQty == 1.0
      && Gate.BasisBps(r.perpForecast, r.spotForecast) == 10000.0
      && Gate.BasisBps(Vwap(inp.perpBook.bids, r.targetQty), Vwap(inp.spotBook.asks, r.targetQty)) == 20000.0
  {
    var asks, bids := inp.spotBook.asks, inp.perpBook.bids;
    UnderchargeSpot(asks, Times(inp.spotFree, inp.safety));
    UnderchargePerp(bids);
    assert SpotSide(inp) == SideBinding(2.0, 1.5, None);
    assert PerpSide(inp) == SideBinding(2.0, 3.0, None);
    assert RawTarget(inp) == 1.0;
    assert Over(1.0, 1.0) == 1.0 && Truncate(1.0) == 1 && Steps(1, 1.0) == 1.0;
    assert Times(RawTarget(inp), inp.subTarget) == 1.0;
    assert Gate.BasisBps(3.0, 1.5) == 10000.0;
    assert Gate.BasisBps(3.0, 1.0) == 20000.0;
  }

  lemma UnderchargeSpot(asks: seq<Level>, budget: real)
    requires asks == [Level(1.0, 1.0), Level(2.0, 1.0)] && budget == 9.9
    ensures Funded(asks, budget, 2) == 2.0 && Vwap(asks, 2.0) == 1.5 && Vwap(asks, 1.0) == 1.0
  {
    assert Depth(asks, 1) == 1.0 && Depth(asks, 2) == 2.0;
    assert PricedDepth(asks, 1) == 1.0 && PricedDepth(asks, 2) == 2.0;
    assert Funded(asks, budget, 1) == 1.0;
    assert Cost(asks, 2.0, 1) == 1.0 && Cost(asks, 2.0, 2) == 3.0;
    assert Cost(asks, 1.0, 1) == 1.0 && Cost(asks, 1.0, 2) == 1.0;
  }

  lemma UnderchargePerp(bids: seq<Level>)
    requires bids == [Level(3.0, 2.0)]
    ensures Depth(bids, 1) == 2.0 && Vwap(bids, 2.0) == 3.0 && Vwap(bids, 1.0) == 3.0
  {
    assert Cost(bids, 2.0, 1) == 6.0 && Cost(bids, 1.0, 1) == 3.0;
  }

  lemma VwapPositive(levels: seq<Level>, q: real)
    requires Positive(levels) && 0.0 < q <= Depth(levels, |levels|)
    ensures 0.0 < Vwap(levels, q)
  {
    CostPositive(levels, q, |levels|);
    QuotientPositive(Cost(levels, q, |levels|), q);
  }
}

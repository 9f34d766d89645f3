// Closed-form sizing of an entry (core/sizing.py): buy spot against the asks,
// sell the perp short against the bids.
module Sizing {
  import opened RealArith
  import opened Books
  import opened Domain

  datatype SideBinding = SideBinding(qty: real, avgPrice: real, rejection: Option<string>)

  function Rejected(reason: string): SideBinding {
    SideBinding(0.0, 0.0, Some(reason))
  }

  // ----- forecast prices -----

  /** The average price over the levels up to qtyTarget; over the whole side when qtyTarget exceeds its depth. */
  method VwapUpTo(levels: seq<Level>, qtyTarget: real) returns (avg: real)
    ensures avg == Vwap(levels, qtyTarget)
  {
    if qtyTarget <= 0.0 {
      return 0.0;
    }
    var spentQty, spentQuote := 0.0, 0.0;
    var i := 0;
    while i < |levels| && spentQty < qtyTarget
      invariant i <= |levels|
      invariant spentQty == Filled(levels, qtyTarget, i)
      invariant spentQuote == Cost(levels, qtyTarget, i)
    {
      var take := Min(levels[i].depth, qtyTarget - spentQty);
      assert take == Take(levels, qtyTarget, i);
      spentQuote := spentQuote + Times(take, levels[i].price);
      spentQty := spentQty + take;
      i := i + 1;
    }
    if i < |levels| {
      CostSettled(levels, qtyTarget, i, |levels|);
      DepthMonotone(levels, i, |levels|);
    }
    if spentQty <= 0.0 {
      return 0.0;
    }
    return Over(spentQuote, spentQty);
  }

  lemma VwapOfPrefix(levels: seq<Level>, k: nat, q: real)
    requires k <= |levels| && 0.0 < q <= Depth(levels, k)
    ensures Vwap(levels[..k], q) == Vwap(levels, q)
  {
    CostOfPrefix(levels, k, q, k);
    DepthMonotone(levels, k, |levels|);
    CostSettled(levels, q, k, |levels|);
  }

  // ----- buying spot: the reservation depends on the price -----

  /** Cumulative depth over the levels the walk does not skip. */
  function PricedDepth(asks: seq<Level>, n: nat): (d: real)
    requires n <= |asks|
    ensures 0.0 <= d <= Depth(asks, n)
  {
    if n == 0 then 0.0
    else PricedDepth(asks, n - 1) + if asks[n - 1].price <= 0.0 then 0.0 else asks[n - 1].depth
  }

  /** The best per-level feasible quantity over the first n asks. */
  function Funded(asks: seq<Level>, budget: real, n: nat): (best: real)
    requires n <= |asks|
    ensures 0.0 <= best
  {
    if n == 0 then 0.0
    else if asks[n - 1].price <= 0.0 then Funded(asks, budget, n - 1)
    else Max(Funded(asks, budget, n - 1), Min(PricedDepth(asks, n), Over(budget, asks[n - 1].price)))
  }

  function BuySpotBinding(asks: seq<Level>, walletFree: real, safety: real): SideBinding {
    if walletFree <= 0.0 || asks == [] then Rejected("empty_wallet_or_book")
    else
      var best := Funded(asks, Times(walletFree, safety), |asks|);
      if best <= 0.0 then Rejected("no_feasible_level")
      else SideBinding(best, Vwap(asks, best), None)
  }

  method SizeBuySpot(asks: seq<Level>, walletFree: real, safety: real) returns (b: SideBinding)
    ensures b == BuySpotBinding(asks, walletFree, safety)
  {
    if walletFree <= 0.0 || asks == [] {
      return Rejected("empty_wallet_or_book");
    }
    var budget := Times(walletFree, safety);
    var cumQty, bestQty := 0.0, 0.0;
    var bestLevel := -1;
    for i := 0 to |asks|
      invariant cumQty == PricedDepth(asks, i)
      invariant bestQty == Funded(asks, budget, i)
      invariant -1 <= bestLevel < i
      invariant 0.0 < bestQty ==> 0 <= bestLevel && bestQty <= Depth(asks, bestLevel + 1)
    {
      if 0.0 < asks[i].price {
        cumQty := cumQty + asks[i].depth;
        var feasible := Min(cumQty, Over(budget, asks[i].price));
        if feasible > bestQty {
          bestQty, bestLevel := feasible, i;
        }
      }
    }
    if bestQty <= 0.0 || bestLevel < 0 {
      return Rejected("no_feasible_level");
    }
    var avg := VwapUpTo(asks[..bestLevel + 1], bestQty);
    VwapOfPrefix(asks, bestLevel + 1, bestQty);
    return SideBinding(bestQty, avg, None);
  }

  /** The reservation constraint: q can be filled, and q at the deepest price it needs fits the budget. */
  ghost predicate Reservable(asks: seq<Level>, budget: real, q: real) {
    0.0 < q <= Depth(asks, |asks|) && Times(q, DeepestPrice(asks, q)) <= budget
  }

  ghost predicate LargestReservable(asks: seq<Level>, budget: real, q: real) {
    Reservable(asks, budget, q) && forall q' :: Reservable(asks, budget, q') ==> q' <= q
  }

  lemma {:induction false} AllPriced(asks: seq<Level>, n: nat)
    requires n <= |asks| && Positive(asks)
    ensures PricedDepth(asks, n) == Depth(asks, n)
  {
    if n > 0 {
      AllPriced(asks, n - 1);
    }
  }

  /** The argmax is attained at some level, and levels only get dearer: it is reservable. */
  lemma {:induction false} FundedIsReservable(asks: seq<Level>, budget: real, n: nat)
    requires n <= |asks| && Positive(asks) && Ascending(asks) && 0.0 < Funded(asks, budget, n)
    ensures Reservable(asks, budget, Funded(asks, budget, n))
  {
    var q := Funded(asks, budget, n);
    if q == Funded(asks, budget, n - 1) {
      FundedIsReservable(asks, budget, n - 1);
    } else {
      var price := asks[n - 1].price;
      AllPriced(asks, n);
      DepthMonotone(asks, n, |asks|);
      QuotientBound(q, budget, price);
      var k := Reach(asks, q, |asks|);
      if n <= k {
        DepthMonotone(asks, n, k);
      }
      Scale(q, asks[k].price, price);
    }
  }

  /** Whatever is reservable is offered to the argmax at its own deepest level. */
  lemma {:induction false} FundedIsUpperBound(asks: seq<Level>, budget: real, q: real, n: nat)
    requires n <= |asks| && Positive(asks) && Reservable(asks, budget, q)
    requires Reach(asks, q, |asks|) < n
    ensures q <= Funded(asks, budget, n)
  {
    var k := Reach(asks, q, |asks|);
    if k < n - 1 {
      FundedIsUpperBound(asks, budget, q, n - 1);
    } else {
      AllPriced(asks, n);
      QuotientBound(q, budget, asks[k].price);
    }
  }

  /** Optimality: on ascending positive asks the single pass finds the largest reservable quantity, or there is none. */
  lemma BuySpotIsOptimal(asks: seq<Level>, walletFree: real, safety: real)
    requires Positive(asks) && Ascending(asks)
    ensures var b := BuySpotBinding(asks, walletFree, safety);
      && (b.rejection.None? ==> LargestReservable(asks, Times(walletFree, safety), b.qty))
      && (b.rejection.None? <==> 0.0 < walletFree && exists q :: Reservable(asks, Times(walletFree, safety), q))
  {
    var budget := Times(walletFree, safety);
    var best := Funded(asks, budget, |asks|);
    forall q | Reservable(asks, budget, q)
      ensures q <= best
    {
      FundedIsUpperBound(asks, budget, q, |asks|);
    }
    if 0.0 < best {
      FundedIsReservable(asks, budget, |asks|);
    }
  }

  /** What is reservable stays reservable when reduced. */
  lemma ReservableShrinks(asks: seq<Level>, budget: real, p: real, q: real)
    requires Positive(asks) && Ascending(asks) && 0.0 < p <= q && Reservable(asks, budget, q)
    ensures Reservable(asks, budget, p)
  {
    ReachMonotone(asks, p, q);
    Scale(p, DeepestPrice(asks, p), DeepestPrice(asks, q));
    Scale(DeepestPrice(asks, q), p, q);
  }

  /** A reservable quantity costs at most the budget. */
  lemma ReservableIsAffordable(asks: seq<Level>, budget: real, q: real)
    requires Ascending(asks) && Reservable(asks, budget, q)
    ensures Cost(asks, q, |asks|) <= budget
  {
    var k := Reach(asks, q, |asks|);
    CostSettled(asks, q, k + 1, |asks|);
    CostBelow(asks, q, k + 1, asks[k].price);
  }

  // ----- the perp leg: a flat cap at the mark price -----

  function PerpBinding(levels: seq<Level>, mark: real, walletFree: real, safety: real, leverage: real): SideBinding {
    if walletFree <= 0.0 || mark <= 0.0 || levels == [] then Rejected("empty_wallet_or_book")
    else
      var cap := Over(Times(Times(walletFree, safety), leverage), mark);
      var qty := Min(Depth(levels, |levels|), cap);
      if qty <= 0.0 then Rejected("zero_qty") else SideBinding(qty, Vwap(levels, qty), None)
  }

  method SizePerp(levels: seq<Level>, mark: real, walletFree: real, safety: real, leverage: real)
    returns (b: SideBinding)
    ensures b == PerpBinding(levels, mark, walletFree, safety, leverage)
  {
    if walletFree <= 0.0 || mark <= 0.0 || levels == [] {
      return Rejected("empty_wallet_or_book");
    }
    var cap := Over(Times(Times(walletFree, safety), leverage), mark);
    var qty := Min(Depth(levels, |levels|), cap);
    if qty <= 0.0 {
      return Rejected("zero_qty");
    }
    var avg := VwapUpTo(levels, qty);
    return SideBinding(qty, avg, None);
  }

  /** q can be filled on the bids, and q at the mark fits what the wallet backs. */
  ghost predicate Marginable(bids: seq<Level>, mark: real, budget: real, q: real) {
    0.0 < q <= Depth(bids, |bids|) && Times(q, mark) <= budget
  }

  ghost predicate LargestMarginable(bids: seq<Level>, mark: real, budget: real, q: real) {
    Marginable(bids, mark, budget, q) && forall q' :: Marginable(bids, mark, budget, q') ==> q' <= q
  }

  /** The perp leg is the largest quantity the whole side and the leveraged wallet allow, or there is none. */
  lemma PerpIsOptimal(bids: seq<Level>, mark: real, walletFree: real, safety: real, leverage: real)
    ensures var b := PerpBinding(bids, mark, walletFree, safety, leverage);
      var budget := Times(Times(walletFree, safety), leverage);
      && (b.rejection.None? ==> LargestMarginable(bids, mark, budget, b.qty) && b.avgPrice == Vwap(bids, b.qty))
      && (b.rejection.None? <==> 0.0 < walletFree && 0.0 < mark && exists q :: Marginable(bids, mark, budget, q))
      && (b.rejection == Some("empty_wallet_or_book") <==> walletFree <= 0.0 || mark <= 0.0 || bids == [])
      && (b.rejection.Some? ==> b.qty == b.avgPrice == 0.0)
  {
    var budget := Times(Times(walletFree, safety), leverage);
    if 0.0 < walletFree && 0.0 < mark {
      forall q
        ensures q <= Over(budget, mark) <==> Times(q, mark) <= budget
      {
        QuotientBound(q, budget, mark);
      }
      assert PerpBinding(bids, mark, walletFree, safety, leverage).rejection != Some("empty_wallet_or_book")
          || bids == [];
      var qty := Min(Depth(bids, |bids|), Over(budget, mark));
      if 0.0 < qty {
        assert Marginable(bids, mark, budget, qty);
      }
    }
  }

  // ----- the pair -----

  /** Truncation towards zero, as Python's int() does it. */
  function Truncate(x: real): int {
    if 0.0 <= x then x.Floor else -(-x).Floor
  }

  function Steps(k: int, step: real): real {
    Times(k as real, step)
  }

  function FloorToStep(value: real, step: real): real {
    if step <= 0.0 then value else Steps(Truncate(Over(value, step)), step)
  }

  ghost predicate OnStep(q: real, step: real) {
    exists k: int :: q == Steps(k, step)
  }

  /** Truncation keeps to the grid, moves towards zero and by less than one step. */
  lemma FloorToStepFloors(value: real, step: real)
    requires 0.0 < step
    ensures OnStep(FloorToStep(value, step), step)
    ensures 0.0 <= value ==> FloorToStep(value, step) <= value < FloorToStep(value, step) + step
    ensures value < 0.0 ==> value <= FloorToStep(value, step) <= 0.0 && FloorToStep(value, step) < value + step
  {
    var x := Over(value, step);
    var k := Truncate(x);
    assert FloorToStep(value, step) == Steps(k, step);
    Quotient(value, step);
    if 0.0 <= value {
      QuotientBound(0.0, value, step);
      Scale(step, k as real, x);
      ScaleStrict(step, x, k as real + 1.0);
      Distribute(k as real, 1.0, step);
    } else {
      QuotientBound(0.0, value, step);
      Scale(step, k as real, 0.0);
      Scale(step, x, k as real);
      ScaleStrict(step, k as real, x + 1.0);
      Distribute(x, 1.0, step);
    }
  }

  datatype SizingInputs = SizingInputs(
    spotBook: BookSnapshot, perpBook: BookSnapshot,
    spotFree: real, perpFree: real,
    leverage: real, safety: real, subTarget: real, operatorCap: real,
    spotStep: real, perpStep: real)

  datatype SizingResult = SizingResult(
    targetQty: real, spotForecast: real, perpForecast: real,
    spotQty: real, perpQty: real, rejection: Option<string>)

  function SpotSide(inp: SizingInputs): SideBinding {
    BuySpotBinding(inp.spotBook.asks, inp.spotFree, inp.safety)
  }

  function PerpSide(inp: SizingInputs): SideBinding {
    PerpBinding(inp.perpBook.bids, inp.perpBook.mid, inp.perpFree, inp.safety, inp.leverage)
  }

  function LotStep(inp: SizingInputs): real {
    Max(inp.spotStep, inp.perpStep)
  }

  function RawTarget(inp: SizingInputs): real {
    Min(Min(SpotSide(inp).qty, PerpSide(inp).qty), inp.operatorCap)
  }

  function EntrySize(inp: SizingInputs): SizingResult {
    if inp.spotBook.asks == [] || inp.perpBook.bids == [] then
      SizingResult(0.0, 0.0, 0.0, 0.0, 0.0, Some("empty_book"))
    else
      var spot, perp := SpotSide(inp), PerpSide(inp);
      if spot.rejection.Some? || perp.rejection.Some? then
        SizingResult(0.0, 0.0, 0.0, spot.qty, perp.qty,
                     if spot.rejection.Some? then spot.rejection else perp.rejection)
      else
        var target := FloorToStep(Times(RawTarget(inp), inp.subTarget), LotStep(inp));
        if target <= 0.0 then
          SizingResult(0.0, spot.avgPrice, perp.avgPrice, spot.qty, perp.qty, Some("below_lot_step_after_sub_target"))
        else
          SizingResult(target, spot.avgPrice, perp.avgPrice, spot.qty, perp.qty, None)
  }

  method SizeEntry(inp: SizingInputs) returns (r: SizingResult)
    ensures r == EntrySize(inp)
  {
    if inp.spotBook.asks == [] || inp.perpBook.bids == [] {
      return SizingResult(0.0, 0.0, 0.0, 0.0, 0.0, Some("empty_book"));
    }
    var spot := SizeBuySpot(inp.spotBook.asks, inp.spotFree, inp.safety);
    var perp := SizePerp(inp.perpBook.bids, inp.perpBook.mid, inp.perpFree, inp.safety, inp.leverage);
    if spot.rejection.Some? || perp.rejection.Some? {
      return SizingResult(0.0, 0.0, 0.0, spot.qty, perp.qty,
                          if spot.rejection.Some? then spot.rejection else perp.rejection);
    }
    var raw := Min(Min(spot.qty, perp.qty), inp.operatorCap);
    var target := FloorToStep(Times(raw, inp.subTarget), Max(inp.spotStep, inp.perpStep));
    if target <= 0.0 {
      return SizingResult(0.0, spot.avgPrice, perp.avgPrice, spot.qty, perp.qty,
        Some("below_lot_step_after_sub_target"));
    }
    return SizingResult(target, spot.avgPrice, perp.avgPrice, spot.qty, perp.qty, None);
  }

  /** Scaling by the sub-target factor and flooring stay below the raw target, on the grid, and within one step. */
  lemma TargetBelowRaw(raw: real, factor: real, step: real)
    requires 0.0 <= factor <= 1.0 && 0.0 < FloorToStep(Times(raw, factor), step)
    ensures FloorToStep(Times(raw, factor), step) <= raw
    ensures 0.0 < step ==> OnStep(FloorToStep(Times(raw, factor), step), step)
    ensures 0.0 < step ==> Times(raw, factor) < FloorToStep(Times(raw, factor), step) + step
    ensures step <= 0.0 ==> FloorToStep(Times(raw, factor), step) == Times(raw, factor)
  {
    if 0.0 < step {
      FloorToStepFloors(Times(raw, factor), step);
    }
    if raw < 0.0 {
      Scale(factor, raw, 0.0);
    } else {
      Scale(raw, factor, 1.0);
    }
  }

  /** A size that passes fits both books, both wallets and the operator's cap. */
  lemma EntrySizeFits(inp: SizingInputs)
    requires Positive(inp.spotBook.asks) && Ascending(inp.spotBook.asks) && 0.0 <= inp.subTarget <= 1.0
    requires EntrySize(inp).rejection.None?
    ensures var q := EntrySize(inp).targetQty;
      && 0.0 < q <= Depth(inp.spotBook.asks, |inp.spotBook.asks|) && q <= Depth(inp.perpBook.bids, |inp.perpBook.bids|)
      && q <= EntrySize(inp).spotQty && q <= EntrySize(inp).perpQty && q <= inp.operatorCap
      && Reservable(inp.spotBook.asks, Times(inp.spotFree, inp.safety), q)
      && Times(q, inp.perpBook.mid) <= Times(Times(inp.perpFree, inp.safety), inp.leverage)
  {
    var q, raw := EntrySize(inp).targetQty, RawTarget(inp);
    TargetBelowRaw(raw, inp.subTarget, LotStep(inp));
    var budget := Times(inp.spotFree, inp.safety);
    BuySpotIsOptimal(inp.spotBook.asks, inp.spotFree, inp.safety);
    ReservableShrinks(inp.spotBook.asks, budget, q, SpotSide(inp).qty);
    QuotientBound(q, Times(Times(inp.perpFree, inp.safety), inp.leverage), inp.perpBook.mid);
  }

  /** ... and is the largest multiple of the coarser lot step within the scaled target. */
  lemma EntrySizeOnGrid(inp: SizingInputs)
    requires 0.0 <= inp.subTarget <= 1.0 && 0.0 < LotStep(inp) && EntrySize(inp).rejection.None?
    ensures var q, scaled := EntrySize(inp).targetQty, Times(RawTarget(inp), inp.subTarget);
      && OnStep(q, LotStep(inp)) && q <= scaled
      && forall p :: OnStep(p, LotStep(inp)) && p <= scaled ==> p <= q
  {
    var q, scaled, step := EntrySize(inp).targetQty, Times(RawTarget(inp), inp.subTarget), LotStep(inp);
    TargetBelowRaw(RawTarget(inp), inp.subTarget, step);
    FloorToStepFloors(scaled, step);
    forall p | OnStep(p, step) && p <= scaled
      ensures p <= q
    {
      var j: int :| p == Steps(j, step);
      var k: int :| q == Steps(k, step);
      if k < j {
        Scale(step, k as real + 1.0, j as real);
        Distribute(k as real, 1.0, step);
      } else {
        Scale(step, j as real, k as real);
      }
    }
  }

  /** Every bound on one entry: the spot reservation, the perp margin and the operator's cap. */
  ghost predicate Fits(inp: SizingInputs, q: real) {
    && Reservable(inp.spotBook.asks, Times(inp.spotFree, inp.safety), q)
    && Marginable(inp.perpBook.bids, inp.perpBook.mid, Times(Times(inp.perpFree, inp.safety), inp.leverage), q)
    && q <= inp.operatorCap
  }

  ghost predicate LargestFit(inp: SizingInputs, q: real) {
    Fits(inp, q) && forall q' :: Fits(inp, q') ==> q' <= q
  }

  /** The largest multiple of the step up to scaled; scaled itself when there is no step. */
  ghost predicate FlooredTo(q: real, scaled: real, step: real) {
    if step <= 0.0 then q == scaled
    else OnStep(q, step) && q <= scaled && forall p :: OnStep(p, step) && p <= scaled ==> p <= q
  }

  lemma RawTargetIsLargest(inp: SizingInputs)
    requires Positive(inp.spotBook.asks) && Ascending(inp.spotBook.asks)
    ensures var spot, perp := SpotSide(inp), PerpSide(inp);
      spot.rejection.None? && perp.rejection.None? && 0.0 < RawTarget(inp) ==> LargestFit(inp, RawTarget(inp))
    ensures forall q :: Fits(inp, q) && 0.0 < inp.spotFree && 0.0 < inp.perpFree && 0.0 < inp.perpBook.mid ==>
      SpotSide(inp).rejection.None? && PerpSide(inp).rejection.None? && q <= RawTarget(inp)
  {
    var budget := Times(inp.spotFree, inp.safety);
    BuySpotIsOptimal(inp.spotBook.asks, inp.spotFree, inp.safety);
    PerpIsOptimal(inp.perpBook.bids, inp.perpBook.mid, inp.perpFree, inp.safety, inp.leverage);
    var raw := RawTarget(inp);
    if SpotSide(inp).rejection.None? && PerpSide(inp).rejection.None? && 0.0 < raw {
      ReservableShrinks(inp.spotBook.asks, budget, raw, SpotSide(inp).qty);
      Scale(inp.perpBook.mid, raw, PerpSide(inp).qty);
    }
  }

  /**
   * What an entry is sized to: take the largest quantity that fits the spot
   * reservation, the perp margin and the operator's cap, scale it, and floor it to
   * the coarser of the two lot steps. It is rejected exactly when a wallet or the
   * mark is not positive, nothing fits, or what fits, scaled, is below that step.
   */
  lemma EntrySizeIsLargest(inp: SizingInputs)
    requires Positive(inp.spotBook.asks) && Ascending(inp.spotBook.asks) && 0.0 <= inp.subTarget <= 1.0
    ensures var r, step := EntrySize(inp), if inp.spotStep <= inp.perpStep then inp.perpStep else inp.spotStep;
      && (r.rejection.None? ==>
            exists raw :: LargestFit(inp, raw) && FlooredTo(r.targetQty, Times(raw, inp.subTarget), step))
      && (r.rejection.None? <==>
            && 0.0 < inp.spotFree && 0.0 < inp.perpFree && 0.0 < inp.perpBook.mid
            && exists raw ::
                 LargestFit(inp, raw) && 0.0 < Times(raw, inp.subTarget) && step <= Times(raw, inp.subTarget))
      && (r.rejection.Some? ==> r.targetQty == 0.0)
  {
    var step := if inp.spotStep <= inp.perpStep then inp.perpStep else inp.spotStep;
    var raw := RawTarget(inp);
    var scaled := Times(raw, inp.subTarget);
    RawTargetIsLargest(inp);
    TargetPositiveIff(scaled, step);
    if EntrySize(inp).rejection.None? {
      TargetBelowRaw(raw, inp.subTarget, step);
      assert LargestFit(inp, raw);
      if 0.0 < step {
        EntrySizeOnGrid(inp);
      }
    }
    forall fit | LargestFit(inp, fit) && 0.0 < inp.spotFree && 0.0 < inp.perpFree && 0.0 < inp.perpBook.mid
      ensures fit == raw && SpotSide(inp).rejection.None? && PerpSide(inp).rejection.None?
    {
      assert Fits(inp, fit);
      assert LargestFit(inp, raw);
    }
  }

  lemma TargetPositiveIff(scaled: real, step: real)
    ensures 0.0 < FloorToStep(scaled, step) <==> 0.0 < scaled && step <= scaled
  {
    if 0.0 < step {
      FloorToStepFloors(scaled, step);
      var k :| FloorToStep(scaled, step) == Steps(k, step);
      if 0 < k {
        Scale(step, 1.0, k as real);
      } else {
        Scale(step, k as real, 0.0);
      }
      assert Times(1.0, step) == step;
    }
  }

  /** Sizes on the coarser grid are all orderable on the other leg exactly when that grid contains the coarser step. */
  lemma CoarseGridServesFineIff(coarse: real, fine: real)
    ensures (forall q :: OnStep(q, coarse) ==> OnStep(q, fine)) <==> OnStep(coarse, fine)
  {
    assert Steps(1, coarse) == coarse;
    if OnStep(coarse, fine) {
      var j: int :| coarse == Steps(j, fine);
      forall q | OnStep(q, coarse)
        ensures OnStep(q, fine)
      {
        var k: int :| q == Steps(k, coarse);
        Associate(k as real, j as real, fine);
        assert Times(k as real, j as real) == (k * j) as real;
        assert q == Steps(k * j, fine);
      }
    }
  }

  // ----- past the end of the book -----

  /** Beyond the depth the forecast is the average over the whole side ... */
  lemma BeyondDepthIsWholeSide(levels: seq<Level>, q: real)
    requires Depth(levels, |levels|) < q && 0.0 < Depth(levels, |levels|)
    ensures Vwap(levels, q) == Vwap(levels, Depth(levels, |levels|))
  {
    SameWalk(levels, Depth(levels, |levels|), q, |levels|);
  }

  /** ... which is the last price exactly when every level that offers anything has that price. */
  lemma BeyondDepthIsLastPriceIff(levels: seq<Level>, q: real)
    requires Ascending(levels) && 0.0 < Depth(levels, |levels|) < q
    ensures Vwap(levels, q) == levels[|levels| - 1].price
      <==> forall i :: 0 <= i < |levels| && 0.0 < levels[i].depth ==> levels[i].price == levels[|levels| - 1].price
  {
    var n := |levels|;
    forall i | 0 <= i < n
      ensures Take(levels, q, i) == levels[i].depth
    {
      DepthMonotone(levels, i + 1, n);
      DepthMonotone(levels, i, n);
    }
    VwapIsDearestIff(levels, q, levels[n - 1].price);
  }

  /** The same on bids, which the perp leg sells into. */
  lemma BeyondDepthIsLastBidIff(levels: seq<Level>, q: real)
    requires Descending(levels) && 0.0 < Depth(levels, |levels|) < q
    ensures Vwap(levels, q) == levels[|levels| - 1].price
      <==> forall i :: 0 <= i < |levels| && 0.0 < levels[i].depth ==> levels[i].price == levels[|levels| - 1].price
  {
    var mirror := Mirror(levels);
    CostOfMirror(levels, q, |levels|);
    VwapOfMirror(levels, q);
    BeyondDepthIsLastPriceIff(mirror, q);
    assert forall i :: 0 <= i < |levels| ==> mirror[i] == Level(-levels[i].price, levels[i].depth);
  }

  /** The failing input: a book of two prices, for which the average is neither. */
  lemma BeyondDepthIsNotLastPrice(levels: seq<Level>, q: real)
    requires levels == [Level(1.0, 1.0), Level(3.0, 1.0)] && 2.0 < q
    ensures Vwap(levels, q) == 2.0
  {
    assert Depth(levels, 1) == 1.0 && Depth(levels, 2) == 2.0;
    assert Cost(levels, q, 1) == 1.0 && Cost(levels, q, 2) == 4.0;
  }
}

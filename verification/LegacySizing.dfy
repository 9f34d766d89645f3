// The v1.3 sizing that closed-form sizing replaced: simulate a fill on each
// book, shrink, and try again, at most four times
// (archive/v1.3-legacy/app/exchange.py and app/bot.py).
module LegacySizing {
  import opened RealArith
  import opened Books
  import opened Domain
  import opened Sizing

  const FILL_TOLERANCE: real := 0.000000000001
  const SHRINK_TOLERANCE: real := 0.000000001
  const SAFETY: real := 0.99
  const PASSES: nat := 4

  // ----- simulate_fill -----

  datatype Simulation = Simulation(filled: real, avg: real, worst: real, notional: real)

  /** The book as the walk sees it: a level with a non-positive price is skipped, so it offers no depth. */
  function Usable(levels: seq<Level>): (u: seq<Level>)
    ensures |u| == |levels|
    ensures forall i :: 0 <= i < |levels| ==>
      u[i] == if levels[i].price <= 0.0 then Level(levels[i].price, 0.0) else levels[i]
  {
    seq(|levels|, i requires 0 <= i < |levels| =>
      if levels[i].price <= 0.0 then Level(levels[i].price, 0.0) else levels[i])
  }

  /** What one simulation promises about the book it walked. */
  ghost predicate Simulates(levels: seq<Level>, target: real, sim: Simulation) {
    var n := |levels|;
    && 0.0 <= sim.filled <= Min(Max(target, 0.0), Depth(levels, n))
    && (sim.filled < target - FILL_TOLERANCE ==> sim.filled == Depth(levels, n))
    && (0.0 < sim.filled ==>
      && sim.worst == DeepestPrice(levels, sim.filled) && 0.0 < sim.worst
      && sim.notional == Cost(levels, sim.filled, n)
      && sim.avg == Over(sim.notional, sim.filled))
    && (sim.filled == 0.0 ==> sim.worst == sim.notional == sim.avg == 0.0)
  }

  lemma {:induction false} EmptyWalk(levels: seq<Level>, n: nat)
    requires n <= |levels|
    ensures Cost(levels, 0.0, n) == 0.0
  {
    if n > 0 {
      EmptyWalk(levels, n - 1);
      assert Take(levels, 0.0, n - 1) == 0.0;
    }
  }

  /** The walk stopped with what the first i levels give: that is the fill, and it is priced like one. */
  lemma WalkIsAFill(levels: seq<Level>, t: real, i: nat)
    requires i <= |levels| && 0.0 <= t
    ensures var f := Filled(levels, t, i); Cost(levels, t, i) == Cost(levels, f, |levels|)
  {
    var f := Filled(levels, t, i);
    if f < t {
      SameWalk(levels, f, t, i);
    }
    CostSettled(levels, f, i, |levels|);
  }

  /** After i levels: what is filled and paid, and the deepest level k reached if anything is filled. */
  ghost predicate Walked(levels: seq<Level>, t: real, i: nat, k: nat, filled: real, cost: real, worst: real) {
    && k <= i <= |levels| && 0.0 <= t
    && filled == Filled(levels, t, i) && cost == Cost(levels, t, i)
    && if filled == 0.0 then worst == 0.0
       else k < i && worst == levels[k].price && 0.0 < worst && Depth(levels, k) < filled <= Depth(levels, k + 1)
  }

  lemma WalkStep(levels: seq<Level>, t: real, i: nat, k: nat, filled: real, cost: real, worst: real)
    requires i < |levels| && Walked(levels, t, i, k, filled, cost, worst)
    ensures var take := Min(levels[i].depth, Max(0.0, t - filled));
      if take <= 0.0 || levels[i].price <= 0.0 then
        levels[i].depth <= 0.0 ==> Walked(levels, t, i + 1, k, filled, cost, worst)
      else
        Walked(levels, t, i + 1, i, filled + take, cost + Times(take, levels[i].price), levels[i].price)
  {
    assert Take(levels, t, i) == Min(levels[i].depth, Max(0.0, t - filled));
  }

  /** A walk of i levels that stopped for one of the three reasons has simulated the fill. */
  lemma WalkSimulates(levels: seq<Level>, target: real, i: nat, k: nat, filled: real, cost: real, worst: real)
    requires Walked(levels, Max(target, 0.0), i, k, filled, cost, worst)
    requires i == |levels| || target - FILL_TOLERANCE <= filled
    ensures Simulates(levels, target, Outcome(filled, cost, worst))
  {
    WalkIsAFill(levels, Max(target, 0.0), i);
    DepthMonotone(levels, i, |levels|);
    if 0.0 < filled {
      ReachUnique(levels, filled, k);
    } else {
      EmptyWalk(levels, |levels|);
    }
  }

  function Outcome(filled: real, cost: real, worst: real): Simulation {
    Simulation(filled, if 0.0 < filled then Over(cost, filled) else 0.0, worst, cost)
  }

  method SimulateFill(levels: seq<Level>, target: real) returns (sim: Simulation)
    ensures Simulates(Usable(levels), target, sim)
  {
    ghost var book, k := Usable(levels), 0;
    var filled, cost, worst := 0.0, 0.0, 0.0;
    var i := 0;
    while i < |levels|
      invariant Walked(book, Max(target, 0.0), i, k, filled, cost, worst)
    {
      var price, depth := levels[i].price, levels[i].depth;
      WalkStep(book, Max(target, 0.0), i, k, filled, cost, worst);
      if price <= 0.0 || depth <= 0.0 {
        i := i + 1;
        continue;
      }
      var take := Min(depth, Max(0.0, target - filled));
      if take <= 0.0 {
        break;
      }
      cost := cost + Times(take, price);
      filled := filled + take;
      worst, k := price, i;
      i := i + 1;
      if target - FILL_TOLERANCE <= filled {
        break;
      }
    }
    WalkSimulates(book, target, i, k, filled, cost, worst);
    sim := Outcome(filled, cost, worst);
  }

  // ----- the shrink loop -----

  /** The books one pass reads, and what both wallets and the configuration say. */
  datatype Pass = Pass(asks: seq<Level>, bids: seq<Level>)

  datatype Wallets = Wallets(spotFree: real, perpFree: real, leverage: real, tickBps: real)

  function SpotLimit(w: Wallets, sim: Simulation): real {
    Times(sim.worst, 1.0 + Over(w.tickBps, 10000.0))
  }

  function PerpLimit(w: Wallets, sim: Simulation): real {
    Times(sim.worst, 1.0 - Over(w.tickBps, 10000.0))
  }

  function SpotBudget(w: Wallets): real {
    Times(w.spotFree, SAFETY)
  }

  function PerpBudget(w: Wallets): real {
    Times(Times(w.perpFree, SAFETY), w.leverage)
  }

  /**
   * A quantity both simulations filled and both wallets can reserve, with 1% to
   * spare, at the deepest prices moved by the tick buffer: up for spot, down for
   * the perp.
   */
  ghost predicate Placeable(w: Wallets, spot: Simulation, perp: Simulation, q: real) {
    && 0.0 < spot.filled && 0.0 < perp.filled
    && q <= spot.filled && q <= perp.filled
    && Times(q, Times(spot.worst, 1.0 + Over(w.tickBps, 10000.0))) <= Times(w.spotFree, 0.99)
    && Times(q, Times(perp.worst, 1.0 - Over(w.tickBps, 10000.0))) <= Times(Times(w.perpFree, 0.99), w.leverage)
  }

  lemma LimitsPositive(w: Wallets, sim: Simulation)
    requires -10000.0 < w.tickBps < 10000.0 && 0.0 < sim.worst
    ensures 0.0 < SpotLimit(w, sim) && 0.0 < PerpLimit(w, sim)
  {
    QuotientBound(-1.0, w.tickBps, 10000.0);
    QuotientBound(1.0, w.tickBps, 10000.0);
    assert Over(w.tickBps, 10000.0) != 1.0 && Over(w.tickBps, 10000.0) != -1.0;
    ScaleStrict(sim.worst, 0.0, 1.0 + Over(w.tickBps, 10000.0));
    ScaleStrict(sim.worst, 0.0, 1.0 - Over(w.tickBps, 10000.0));
  }

  lemma PlaceableLess(w: Wallets, spot: Simulation, perp: Simulation, p: real, q: real)
    requires Placeable(w, spot, perp, q) && p <= q
    requires 0.0 < spot.worst && 0.0 < perp.worst && -10000.0 < w.tickBps < 10000.0
    ensures Placeable(w, spot, perp, p)
  {
    LimitsPositive(w, spot);
    LimitsPositive(w, perp);
    Scale(SpotLimit(w, spot), p, q);
    Scale(PerpLimit(w, perp), p, q);
  }

  /** The reservation clamp of one pass. */
  method Clamp(w: Wallets, spot: Simulation, perp: Simulation, target: real) returns (shrunk: real)
    requires 0.0 < spot.filled && 0.0 < perp.filled && 0.0 < spot.worst && 0.0 < perp.worst
    requires -10000.0 < w.tickBps < 10000.0
    ensures shrunk <= target && Placeable(w, spot, perp, shrunk)
    ensures forall q :: q <= target && Placeable(w, spot, perp, q) ==> q <= shrunk
  {
    LimitsPositive(w, spot);
    LimitsPositive(w, perp);
    var spotLimit := if 0.0 < spot.worst then SpotLimit(w, spot) else 0.0;
    var perpLimit := if 0.0 < perp.worst then PerpLimit(w, perp) else 0.0;
    var maxBySpot := if 0.0 < spotLimit then Over(SpotBudget(w), spotLimit) else target;
    var maxByPerp := if 0.0 < perpLimit then Over(PerpBudget(w), perpLimit) else target;
    shrunk := Min(Min(spot.filled, perp.filled), Min(Min(maxBySpot, maxByPerp), target));
    forall q
      ensures q <= maxBySpot <==> Times(q, SpotLimit(w, spot)) <= SpotBudget(w)
      ensures q <= maxByPerp <==> Times(q, PerpLimit(w, perp)) <= PerpBudget(w)
    {
      QuotientBound(q, SpotBudget(w), SpotLimit(w, spot));
      QuotientBound(q, PerpBudget(w), PerpLimit(w, perp));
    }
  }

  /** Both simulations of one pass, made for the same quantity. */
  ghost predicate SimulatedFor(pass: Pass, asked: real, spot: Simulation, perp: Simulation) {
    Simulates(Usable(pass.asks), asked, spot) && Simulates(Usable(pass.bids), asked, perp)
  }

  /** Nothing when a book fills nothing; else the largest placeable quantity within the one asked for. */
  ghost predicate ClampedTo(w: Wallets, spot: Simulation, perp: Simulation, asked: real, shrunk: Option<real>) {
    match shrunk
    case None => spot.filled <= 0.0 || perp.filled <= 0.0
    case Some(q) =>
      && q <= asked && Placeable(w, spot, perp, q)
      && forall q' :: q' <= asked && Placeable(w, spot, perp, q') ==> q' <= q
  }

  /** One pass of the loop: the quantity asked for, both simulations and what the clamp made of it. */
  datatype Attempt = Attempt(asked: real, spot: Simulation, perp: Simulation, shrunk: Option<real>)

  ghost predicate Attempted(pass: Pass, w: Wallets, a: Attempt) {
    SimulatedFor(pass, a.asked, a.spot, a.perp) && ClampedTo(w, a.spot, a.perp, a.asked, a.shrunk)
  }

  predicate Follows(a: Attempt, b: Attempt) {
    a.shrunk == Some(b.asked) && b.asked < a.asked - 0.000000001
  }

  /**
   * The passes the loop made: each asks for what the one before left, the first for
   * what was desired; every one but the last shrank by more than 1e-9.
   */
  ghost predicate Shrinks(passes: seq<Pass>, w: Wallets, desired: real, log: seq<Attempt>) {
    && 0 < |log| <= |passes| && log[0].asked == desired
    && (forall k {:trigger Attempted(passes[k], w, log[k])} :: 0 <= k < |log| ==> Attempted(passes[k], w, log[k]))
    && (forall j, k {:trigger Follows(log[j], log[k])} ::
          0 <= j < |log| && k == j + 1 < |log| ==> Follows(log[j], log[k]))
  }

  /**
   * Where the loop ends: at nothing, at a quantity that no longer shrinks by more than 1e-9, or
   * after the fourth pass.
   */
  ghost predicate EndsAt(last: Attempt, passes: nat, target: real) {
    match last.shrunk
    case None => target == 0.0
    case Some(q) => if last.asked - 0.000000001 <= q then target == last.asked else passes == 4 && target == q
  }

  /** One pass: simulate both legs and clamp; nothing to clamp when a book fills nothing. */
  method OnePass(pass: Pass, w: Wallets, target: real)
    returns (spot: Simulation, perp: Simulation, shrunk: Option<real>)
    requires -10000.0 < w.tickBps < 10000.0
    ensures SimulatedFor(pass, target, spot, perp) && ClampedTo(w, spot, perp, target, shrunk)
    ensures shrunk.Some? ==> forall q :: q <= shrunk.value ==> Placeable(w, spot, perp, q)
  {
    spot := SimulateFill(pass.asks, target);
    perp := SimulateFill(pass.bids, target);
    if Min(spot.filled, perp.filled) <= 0.0 {
      return spot, perp, None;
    }
    var clamped := Clamp(w, spot, perp, target);
    shrunk := Some(clamped);
    forall q | q <= clamped
      ensures Placeable(w, spot, perp, q)
    {
      PlaceableLess(w, spot, perp, q, clamped);
    }
  }

  lemma LogGrows(passes: seq<Pass>, w: Wallets, desired: real, log: seq<Attempt>, next: Attempt)
    requires |log| < |passes|
    requires Attempted(passes[|log|], w, next)
    requires if log == [] then next.asked == desired
             else Shrinks(passes, w, desired, log) && Follows(log[|log| - 1], next)
    ensures Shrinks(passes, w, desired, log + [next])
  {
    var longer := log + [next];
    forall k | 0 <= k < |longer|
      ensures Attempted(passes[k], w, longer[k])
    {
      assert k < |log| ==> Attempted(passes[k], w, log[k]);
    }
    forall j, k | 0 <= j < |longer| && k == j + 1 < |longer|
      ensures Follows(longer[j], longer[k])
    {
      assert k < |log| ==> Follows(log[j], log[k]);
    }
  }

  /** The loop itself, with a log of what each pass asked for and was left with. */
  method ShrinkLoop(passes: seq<Pass>, w: Wallets, desired: real)
    returns (target: real, spot: Simulation, perp: Simulation, ghost log: seq<Attempt>)
    requires |passes| == 4 && -10000.0 < w.tickBps < 10000.0
    ensures Shrinks(passes, w, desired, log) && EndsAt(log[|log| - 1], |log|, target)
    ensures spot == log[|log| - 1].spot && perp == log[|log| - 1].perp
  {
    target, log := desired, [];
    spot, perp := Outcome(0.0, 0.0, 0.0), Outcome(0.0, 0.0, 0.0);
    for last := 0 to PASSES
      invariant |log| == last
      invariant if last == 0 then target == desired
                else Shrinks(passes, w, desired, log) && log[last - 1].shrunk == Some(target)
                     && target < log[last - 1].asked - SHRINK_TOLERANCE
      invariant 0 < last ==> spot == log[last - 1].spot && perp == log[last - 1].perp
    {
      var shrunk;
      spot, perp, shrunk := OnePass(passes[last], w, target);
      LogGrows(passes, w, desired, log, Attempt(target, spot, perp, shrunk));
      log := log + [Attempt(target, spot, perp, shrunk)];
      if shrunk == None {
        return 0.0, spot, perp, log;
      }
      if target - SHRINK_TOLERANCE <= shrunk.value {
        return;
      }
      target := shrunk.value;
    }
  }

  lemma {:induction false} ShrinksBelowDesired(passes: seq<Pass>, w: Wallets, desired: real, log: seq<Attempt>, k: nat)
    requires Shrinks(passes, w, desired, log) && k < |log|
    ensures log[k].asked <= desired
  {
    if k > 0 {
      ShrinksBelowDesired(passes, w, desired, log, k - 1);
      assert Follows(log[k - 1], log[k]);
    }
  }

  /** What is left, less the tolerance, is placeable on the last pass's books, and never more than was desired. */
  lemma ShrunkIsPlaceable(passes: seq<Pass>, w: Wallets, desired: real, log: seq<Attempt>, target: real)
    requires Shrinks(passes, w, desired, log) && EndsAt(log[|log| - 1], |log|, target)
    requires -10000.0 < w.tickBps < 10000.0
    ensures target <= Max(desired, 0.0)
    ensures target != 0.0 ==> Placeable(w, log[|log| - 1].spot, log[|log| - 1].perp, target - 0.000000001)
    ensures var asks := passes[|log| - 1].asks;
      Positive(asks) && Ascending(asks) && 0.0 <= w.tickBps ==>
        target <= BuySpotBinding(asks, w.spotFree, 0.99).qty + 0.000000001
  {
    var last := |log| - 1;
    assert Attempted(passes[last], w, log[last]);
    ShrinksBelowDesired(passes, w, desired, log, last);
    if log[last].shrunk.Some? {
      PlaceableLess(w, log[last].spot, log[last].perp, target - 0.000000001, log[last].shrunk.value);
      LoopIsDominated(passes[last], w, log[last].spot, log[last].perp, log[last].asked, target - 0.000000001);
    }
  }

  /**
   * Up to four passes; pass k reads the books passes[k]. The log says what each
   * asked for and was left with, and so what the loop ends at. Whether or not it
   * converged, a non-zero result less the tolerance is placeable against the
   * last pass's books, and nothing exceeds the quantity asked for. So, on ascending
   * positive asks and with a non-negative tick buffer, the rewrite dominates: the
   * loop ends at most the tolerance above the closed-form spot quantity.
   */
  method Shrink(passes: seq<Pass>, w: Wallets, desired: real)
    returns (target: real, spot: Simulation, perp: Simulation, ghost log: seq<Attempt>)
    requires |passes| == 4 && -10000.0 < w.tickBps < 10000.0
    ensures Shrinks(passes, w, desired, log) && EndsAt(log[|log| - 1], |log|, target)
    ensures spot == log[|log| - 1].spot && perp == log[|log| - 1].perp
    ensures target <= Max(desired, 0.0)
    ensures target != 0.0 ==> Placeable(w, spot, perp, target - 0.000000001)
    ensures var asks := passes[|log| - 1].asks;
      Positive(asks) && Ascending(asks) && 0.0 <= w.tickBps ==>
        target <= BuySpotBinding(asks, w.spotFree, 0.99).qty + 0.000000001
  {
    target, spot, perp, log := ShrinkLoop(passes, w, desired);
    ShrunkIsPlaceable(passes, w, desired, log, target);
  }

  /**
   * The rewrite dominates: on ascending positive asks, a quantity placeable in
   * v1.3 with a non-negative tick buffer is at most the closed-form spot quantity
   * for the same book and budget.
   */
  lemma ClosedFormDominates(asks: seq<Level>, w: Wallets, spot: Simulation, perp: Simulation, asked: real, q: real)
    requires Positive(asks) && Ascending(asks) && 0.0 <= w.tickBps
    requires Simulates(Usable(asks), asked, spot) && Placeable(w, spot, perp, q)
    ensures q <= BuySpotBinding(asks, w.spotFree, SAFETY).qty
  {
    assert Usable(asks) == asks;
    if 0.0 < q {
      ReachMonotone(asks, q, spot.filled);
      QuotientBound(0.0, w.tickBps, 10000.0);
      Scale(spot.worst, 1.0, 1.0 + Over(w.tickBps, 10000.0));
      Scale(q, DeepestPrice(asks, q), SpotLimit(w, spot));
      assert Reservable(asks, SpotBudget(w), q);
      FundedIsUpperBound(asks, SpotBudget(w), q, |asks|);
      BudgetNeedsAWallet(q, DeepestPrice(asks, q), w.spotFree);
    }
  }

  lemma LoopIsDominated(pass: Pass, w: Wallets, spot: Simulation, perp: Simulation, asked: real, q: real)
    requires SimulatedFor(pass, asked, spot, perp) && Placeable(w, spot, perp, q)
    ensures Positive(pass.asks) && Ascending(pass.asks) && 0.0 <= w.tickBps ==>
      q <= BuySpotBinding(pass.asks, w.spotFree, SAFETY).qty
  {
    if Positive(pass.asks) && Ascending(pass.asks) && 0.0 <= w.tickBps {
      ClosedFormDominates(pass.asks, w, spot, perp, asked, q);
    }
  }

  lemma BudgetNeedsAWallet(q: real, price: real, free: real)
    requires 0.0 < q && 0.0 < price && Times(q, price) <= Times(free, SAFETY)
    ensures 0.0 < free
  {
    ProductPositive(q, price);
  }
}

// The profitability gate, the annualisation behind it and the exit arithmetic
// (core/math.py), with the number of funding windows a year as a natural number.
module Gate {
  import opened RealArith

  function Power(x: real, n: nat): real {
    if n == 0 then 1.0 else Times(x, Power(x, n - 1))
  }

  /** Growth of one unit over one window that nets perWindowBps. */
  function Growth(perWindowBps: real): real {
    1.0 + Over(perWindowBps, 10000.0)
  }

  function ApyCompound(perWindowBps: real, windows: nat): real {
    Power(Growth(perWindowBps), windows) - 1.0
  }

  function BasisBps(perpPrice: real, spotPrice: real): real {
    if spotPrice <= 0.0 then 0.0 else Times(Over(perpPrice - spotPrice, spotPrice), 10000.0)
  }

  function BasisRoundTripBps(entryBasisBps: real, multiple: real): real {
    -Times(multiple, Abs(entryBasisBps))
  }

  function FeesRoundTripBps(spotFeeBps: real, perpFeeBps: real, swapBasisBps: real): real {
    2.0 * (spotFeeBps + perpFeeBps) + if 0.0 < swapBasisBps then 2.0 * (spotFeeBps + swapBasisBps) else 0.0
  }

  datatype GateInputs = GateInputs(
    fundingRate: real, windows: nat, entryBasisBps: real,
    spotFeeBps: real, perpFeeBps: real, swapBasisBps: real, bufferMultiple: real)

  function NetPerWindow(g: GateInputs): real {
    g.fundingRate * 10000.0 + BasisRoundTripBps(g.entryBasisBps, g.bufferMultiple)
    - FeesRoundTripBps(g.spotFeeBps, g.perpFeeBps, g.swapBasisBps)
  }

  function NetApy(g: GateInputs): real {
    ApyCompound(NetPerWindow(g), g.windows)
  }

  function ForwardNetApy(fundingRate: real, windows: nat, liveBasisBps: real, spotFeeBps: real, perpFeeBps: real,
                         bufferMultiple: real): real {
    NetApy(GateInputs(fundingRate, windows, liveBasisBps, spotFeeBps, perpFeeBps, 0.0, bufferMultiple))
  }

  predicate BasisDislocated(entryBasisBps: real, liveBasisBps: real, thresholdBps: real) {
    liveBasisBps - entryBasisBps > thresholdBps
  }

  function UnrealizedPnlFraction(qty: real, spotEntry: real, perpEntry: real, spotMark: real, perpMark: real): real {
    if qty <= 0.0 || spotEntry <= 0.0 then 0.0
    else
      ProductPositive(qty, spotEntry);
      Over(Times(qty, spotMark - spotEntry) + Times(qty, perpEntry - perpMark), Times(qty, spotEntry))
  }

  // ----- powers -----

  lemma {:induction false} PowerPositive(x: real, n: nat)
    requires 0.0 <= x
    ensures 0.0 <= Power(x, n)
    ensures 0.0 < x ==> 0.0 < Power(x, n)
  {
    if n > 0 {
      PowerPositive(x, n - 1);
      Scale(x, 0.0, Power(x, n - 1));
      if 0.0 < x {
        ScaleStrict(x, 0.0, Power(x, n - 1));
      }
    }
  }

  lemma {:induction false} PowerGrows(x: real, y: real, n: nat)
    requires 0.0 <= x <= y
    ensures Power(x, n) <= Power(y, n)
    ensures x < y && 0 < n ==> Power(x, n) < Power(y, n)
  {
    if n > 0 {
      PowerGrows(x, y, n - 1);
      PowerPositive(y, n - 1);
      Scale(x, Power(x, n - 1), Power(y, n - 1));
      Scale(Power(y, n - 1), x, y);
      if x < y {
        ScaleStrict(Power(y, n - 1), x, y);
      }
    }
  }

  lemma {:induction false} PowerOfNegative(x: real, n: nat)
    ensures Power(-x, n) == if n % 2 == 0 then Power(x, n) else -Power(x, n)
  {
    if n > 0 {
      PowerOfNegative(x, n - 1);
      Negate(x, Power(x, n - 1));
      Negate(-x, Power(x, n - 1));
    }
  }

  /** Exactly when a larger base has the larger power. */
  lemma PowerOrder(x: real, y: real, n: nat)
    requires x <= y
    ensures Power(x, n) <= Power(y, n) <==> n % 2 == 1 || n == 0 || x == y || 0.0 <= x + y
  {
    PowerOfNegative(x, n);
    PowerOfNegative(y, n);
    if 0.0 <= x {
      PowerGrows(x, y, n);
    } else if n % 2 == 1 {
      PowerPositive(-x, n);
      if 0.0 <= y {
        PowerPositive(y, n);
      } else {
        PowerGrows(-y, -x, n);
      }
    } else {
      assert Power(-x, n) == Power(x, n);
      if -x <= y {
        PowerGrows(-x, y, n);
      } else {
        PowerGrows(Abs(y), -x, n);
        assert Power(Abs(y), n) == Power(y, n);
        assert Abs(y) == -x ==> x == y;
      }
    }
  }

  lemma GrowthOrder(a: real, b: real)
    ensures a <= b <==> Growth(a) <= Growth(b)
    ensures a == b <==> Growth(a) == Growth(b)
    ensures -20000.0 <= a + b <==> 0.0 <= Growth(a) + Growth(b)
  {
  }

  /**
   * A better window is a better year exactly when the year has an odd number of
   * windows (or none), or the two windows do not both lose the whole position on average.
   */
  lemma ApyOrder(a: real, b: real, windows: nat)
    requires a <= b
    ensures ApyCompound(a, windows) <= ApyCompound(b, windows) <==>
      windows % 2 == 1 || windows == 0 || a == b || -20000.0 <= a + b
  {
    GrowthOrder(a, b);
    PowerOrder(Growth(a), Growth(b), windows);
  }

  /** The failing input: with two windows a year, losing 300% a window annualises above losing all of it. */
  lemma ApyOrderFailsBelowRuin()
    ensures ApyCompound(-30000.0, 2) > ApyCompound(-10000.0, 2)
  {
    ApyOrder(-30000.0, -10000.0, 2);
  }

  /** Bernoulli: compounding beats the simple sum, down to losing twice the position a window. */
  lemma {:induction false} Bernoulli(x: real, n: nat)
    requires -2.0 <= x
    ensures 1.0 + Times(n as real, x) <= Power(1.0 + x, n)
  {
    if n == 0 {
    } else if n == 1 {
      assert Power(1.0 + x, 1) == Times(1.0 + x, Power(1.0 + x, 0));
    } else if -1.0 <= x {
      Bernoulli(x, n - 1);
      BernoulliStep(x, (n - 1) as real, Power(1.0 + x, n - 1));
    } else {
      var y := -(1.0 + x);
      PowerOfNegative(y, n);
      PowerGrows(y, 1.0, n);
      PowerOfOne(n);
      PowerPositive(y, n);
      Scale(n as real, x, -1.0);
      Negate(n as real, 1.0);
    }
  }

  lemma BernoulliStep(x: real, m: real, p: real)
    requires -1.0 <= x && 0.0 <= m && 1.0 + Times(m, x) <= p
    ensures 1.0 + Times(m + 1.0, x) <= Times(1.0 + x, p)
  {
    Scale(1.0 + x, 1.0 + Times(m, x), p);
    assert 0.0 <= Times(x, x);
    Scale(m, 0.0, Times(x, x));
    assert Times(1.0 + x, 1.0 + Times(m, x)) == 1.0 + Times(m + 1.0, x) + Times(m, Times(x, x));
  }

  lemma {:induction false} PowerOfOne(n: nat)
    ensures Power(1.0, n) == 1.0
  {
    if n > 0 {
      PowerOfOne(n - 1);
    }
  }

  /** Compounding beats the simple sum; with an even number of windows, or at most one, whatever they lose. */
  lemma ApyAtLeastSimple(perWindowBps: real, windows: nat)
    requires windows % 2 == 0 || windows <= 1 || -20000.0 <= perWindowBps
    ensures Over(Times(windows as real, perWindowBps), 10000.0) <= ApyCompound(perWindowBps, windows)
  {
    var x := Over(perWindowBps, 10000.0);
    assert Over(Times(windows as real, perWindowBps), 10000.0) == Times(windows as real, x);
    if -20000.0 <= perWindowBps {
      Bernoulli(x, windows);
    } else if windows == 1 {
      assert Power(Growth(perWindowBps), 1) == Times(Growth(perWindowBps), Power(Growth(perWindowBps), 0));
    } else if windows != 0 {
      EvenPowerPositive(Growth(perWindowBps), windows);
      Scale(windows as real, x, -2.0);
    }
  }

  lemma EvenPowerPositive(x: real, n: nat)
    requires n % 2 == 0
    ensures 0.0 <= Power(x, n)
  {
    PowerOfNegative(-x, n);
    PowerPositive(Abs(x), n);
    assert Abs(x) == x || Abs(x) == -x;
  }

  // ----- the gate -----

  /** h is no worse than g for the position: more funding, less basis, lower fees, the same conventions. */
  predicate NoWorse(g: GateInputs, h: GateInputs) {
    && g.fundingRate <= h.fundingRate && g.windows == h.windows
    && Abs(h.entryBasisBps) <= Abs(g.entryBasisBps)
    && 0.0 <= h.spotFeeBps <= g.spotFeeBps && 0.0 <= h.perpFeeBps <= g.perpFeeBps
    && h.swapBasisBps <= g.swapBasisBps
    && 0.0 <= h.bufferMultiple <= g.bufferMultiple
  }

  lemma GateMonotone(g: GateInputs, h: GateInputs)
    requires NoWorse(g, h)
    ensures NetPerWindow(g) <= NetPerWindow(h)
    ensures NetApy(g) <= NetApy(h) <==>
      g.windows % 2 == 1 || g.windows == 0 || NetPerWindow(g) == NetPerWindow(h)
      || -20000.0 <= NetPerWindow(g) + NetPerWindow(h)
  {
    Scale(h.bufferMultiple, Abs(h.entryBasisBps), Abs(g.entryBasisBps));
    Scale(Abs(g.entryBasisBps), h.bufferMultiple, g.bufferMultiple);
    ApyOrder(NetPerWindow(g), NetPerWindow(h), g.windows);
  }

  /** The voluntary-exit test of one live reading (loop/cycle.py). */
  predicate VoluntaryExit(live: GateInputs, exitMin: real) {
    NetApy(live) < exitMin
  }

  /**
   * Hysteresis: while nothing got worse, a position that passed the entry gate does
   * not ask to leave, unless windows are even and the entry itself was past ruin.
   */
  lemma EntryThenNoExit(entry: GateInputs, live: GateInputs, entryMin: real, exitMin: real)
    requires NoWorse(entry, live) && exitMin <= entryMin
    requires entryMin <= NetApy(entry)
    ensures VoluntaryExit(live, exitMin) ==>
      0 < entry.windows && entry.windows % 2 == 0 && NetPerWindow(entry) < -10000.0
  {
    GateMonotone(entry, live);
  }

  /**
   * The worst a passed entry can come to while nothing gets worse: its rate, or a lost position
   * if it was past ruin.
   */
  lemma RuinIsReachable(entry: GateInputs) returns (live: GateInputs)
    requires NoWorse(entry, entry) && 0 < entry.windows && NetPerWindow(entry) <= -10000.0
    ensures NoWorse(entry, live) && NetApy(live) == -1.0
    ensures live == entry.(fundingRate := live.fundingRate)
  {
    live := entry.(fundingRate := entry.fundingRate + Over(-10000.0 - NetPerWindow(entry), 10000.0));
    QuotientBound(0.0, -10000.0 - NetPerWindow(entry), 10000.0);
    Quotient(-10000.0 - NetPerWindow(entry), 10000.0);
    assert NetPerWindow(live) == -10000.0;
    assert Growth(NetPerWindow(live)) == 0.0;
  }

  /**
   * Exactly when a passed entry can flap: some reading that is no worse makes the
   * voluntary exit ask to leave if and only if windows are even in number (and
   * there are any), the entry was past ruin, and the exit asks for more than a
   * total loss.
   */
  lemma FlapsIff(entry: GateInputs, entryMin: real, exitMin: real)
    requires NoWorse(entry, entry) && exitMin <= entryMin <= NetApy(entry)
    ensures (exists live :: NoWorse(entry, live) && VoluntaryExit(live, exitMin))
      <==> 0 < entry.windows && entry.windows % 2 == 0 && NetPerWindow(entry) < -10000.0 && -1.0 < exitMin
  {
    forall live | NoWorse(entry, live) && VoluntaryExit(live, exitMin)
      ensures 0 < entry.windows && entry.windows % 2 == 0 && NetPerWindow(entry) < -10000.0 && -1.0 < exitMin
    {
      EntryThenNoExit(entry, live, entryMin, exitMin);
      EvenPowerPositive(Growth(NetPerWindow(live)), live.windows);
    }
    if 0 < entry.windows && entry.windows % 2 == 0 && NetPerWindow(entry) < -10000.0 && -1.0 < exitMin {
      var live := RuinIsReachable(entry);
      assert VoluntaryExit(live, exitMin);
    }
  }

  /** The failing input: an entry past ruin passes a 20% gate, and the same fees at better funding then leave. */
  lemma EntryPastRuinPasses(entry: GateInputs, live: GateInputs)
    requires entry.fundingRate == -4.0 && entry.windows == 2 && entry.entryBasisBps == entry.swapBasisBps == 0.0
    requires entry.spotFeeBps == entry.perpFeeBps == 0.0 && 0.0 <= entry.bufferMultiple
    requires live == entry.(fundingRate := -2.0)
    ensures NoWorse(entry, live) && 0.2 <= NetApy(entry) && VoluntaryExit(live, 0.05)
  {
    assert Times(entry.bufferMultiple, Abs(0.0)) == 0.0;
    TwoWindows(entry, -3.0);
    TwoWindows(live, -1.0);
  }

  lemma TwoWindows(g: GateInputs, growth: real)
    requires g.windows == 2 && Growth(NetPerWindow(g)) == growth
    ensures NetApy(g) == Times(growth, growth) - 1.0
  {
    assert Power(growth, 1) == Times(growth, Power(growth, 0)) == growth;
  }

  /** The basis is how far the ratio of perp to spot price is from one, in basis points. */
  lemma BasisAsRatio(perp: real, spot: real)
    requires 0.0 < spot
    ensures BasisBps(perp, spot) == Times(Over(perp, spot) - 1.0, 10000.0)
  {
    var x, y := Over(perp, spot) - 1.0, Over(perp - spot, spot);
    Quotient(perp, spot);
    Quotient(perp - spot, spot);
    Distribute(Over(perp, spot), 1.0, spot);
    assert Times(1.0, spot) == spot;
    Cancel(spot, x, y);
    Cancel(spot, y, x);
  }

  /**
   * What entering and leaving costs, in basis points: both legs' fees twice, any quote swap
   * twice, and the buffered basis.
   */
  function RoundTripCost(g: GateInputs): real {
    g.spotFeeBps + g.perpFeeBps + g.spotFeeBps + g.perpFeeBps
    + (if 0.0 < g.swapBasisBps then g.spotFeeBps + g.swapBasisBps + g.spotFeeBps + g.swapBasisBps else 0.0)
    + Times(g.bufferMultiple, if g.entryBasisBps < 0.0 then -g.entryBasisBps else g.entryBasisBps)
  }

  /**
   * A year is not a loss exactly when the funding of one window covers the round
   * trip, or windows are even in number and each loses twice the position or more.
   */
  lemma BreaksEvenIff(g: GateInputs)
    requires 0 < g.windows
    ensures 0.0 <= NetApy(g) <==>
      RoundTripCost(g) <= 10000.0 * g.fundingRate
      || (g.windows % 2 == 0 && 10000.0 * g.fundingRate - RoundTripCost(g) <= -20000.0)
  {
    var net := NetPerWindow(g);
    assert net == 10000.0 * g.fundingRate - RoundTripCost(g);
    assert Growth(0.0) == 1.0;
    PowerOfOne(g.windows);
    assert ApyCompound(0.0, g.windows) == 0.0;
    if 0.0 <= net {
      ApyOrder(0.0, net, g.windows);
    } else {
      ApyOrder(net, 0.0, g.windows);
      if g.windows % 2 == 1 || -20000.0 < net {
        StrictlyBelowZero(net, g.windows);
      } else {
        PowerOfNegative(1.0, g.windows);
        assert net == -20000.0 ==> Growth(net) == -1.0;
      }
    }
  }

  lemma StrictlyBelowZero(net: real, windows: nat)
    requires net < 0.0 && 0 < windows && (windows % 2 == 1 || -20000.0 < net)
    ensures ApyCompound(net, windows) < 0.0
  {
    var x := Growth(net);
    PowerOfOne(windows);
    if 0.0 <= x {
      PowerGrows(x, 1.0, windows);
    } else {
      PowerOfNegative(x, windows);
      PowerOfNegative(-x, windows);
      PowerPositive(-x, windows);
      if -x < 1.0 {
        PowerGrows(-x, 1.0, windows);
      }
    }
  }

  // ----- tier 1 against tier 3 -----

  const APPROX_FEE_BPS: real := 5.0

  function Tier1NetPerWindow(fundingRate: real): real {
    fundingRate * 10000.0 - 2.0 * (APPROX_FEE_BPS + APPROX_FEE_BPS)
  }

  function Tier1Apy(fundingRate: real, windows: nat): real {
    ApyCompound(Tier1NetPerWindow(fundingRate), windows)
  }

  function Tier3(funding: real, windows: nat, basis: real, spotFeeBps: real, perpFeeBps: real,
                 multiple: real): GateInputs {
    GateInputs(funding, windows, basis, spotFeeBps, perpFeeBps, 0.0, multiple)
  }

  /** Tier 1 never rates a candidate below tier 3, so at no threshold does it drop one that tier 3 would accept. */
  ghost predicate Tier1Lossless(windows: nat, spotFeeBps: real, perpFeeBps: real, multiple: real) {
    forall funding, basis ::
      NetApy(Tier3(funding, windows, basis, spotFeeBps, perpFeeBps, multiple)) <= Tier1Apy(funding, windows)
  }

  /** The same for the candidates whose windows do not lose more than the whole position. */
  ghost predicate Tier1LosslessAboveRuin(windows: nat, spotFeeBps: real, perpFeeBps: real, multiple: real) {
    forall funding, basis ::
      -10000.0 <= NetPerWindow(Tier3(funding, windows, basis, spotFeeBps, perpFeeBps, multiple))
      ==> NetApy(Tier3(funding, windows, basis, spotFeeBps, perpFeeBps, multiple)) <= Tier1Apy(funding, windows)
  }

  /** Break-even at real fees below tier 1's assumption: tier 3 rates it zero, tier 1 below zero. */
  lemma CheapFeesAreDropped(windows: nat, spotFeeBps: real, perpFeeBps: real, multiple: real)
    requires 0 < windows && 0.0 <= spotFeeBps && 0.0 <= perpFeeBps && spotFeeBps + perpFeeBps < 10.0
    ensures !Tier1LosslessAboveRuin(windows, spotFeeBps, perpFeeBps, multiple)
  {
    var funding := (spotFeeBps + perpFeeBps) / 5000.0;
    var g := Tier3(funding, windows, 0.0, spotFeeBps, perpFeeBps, multiple);
    assert Times(multiple, Abs(0.0)) == 0.0;
    assert NetPerWindow(g) == 0.0;
    PowerGrows(Growth(Tier1NetPerWindow(funding)), Growth(0.0), windows);
    assert NetApy(g) > Tier1Apy(funding, windows);
  }

  /** Past ruin an even year turns the order round: the deeper loss of tier 3 compounds to the higher rate. */
  lemma DeepLossesAreDropped(windows: nat, basis: real, spotFeeBps: real, perpFeeBps: real, multiple: real)
    requires 0 < windows && windows % 2 == 0
    requires 20.0 < 2.0 * (spotFeeBps + perpFeeBps) + Times(multiple, Abs(basis))
    ensures !Tier1Lossless(windows, spotFeeBps, perpFeeBps, multiple)
  {
    var g := Tier3(-3.0, windows, basis, spotFeeBps, perpFeeBps, multiple);
    ApyOrder(NetPerWindow(g), Tier1NetPerWindow(-3.0), windows);
    assert NetApy(g) > Tier1Apy(-3.0, windows);
  }

  /**
   * The cheap pre-filter drops nothing the full gate would accept exactly when a
   * leg pair costs at least 10 bps and the year has an odd number of windows or
   * the two tiers are one formula (or the year has no windows at all).
   */
  lemma Tier1LosslessIff(windows: nat, spotFeeBps: real, perpFeeBps: real, multiple: real)
    requires 0.0 <= multiple && 0.0 <= spotFeeBps && 0.0 <= perpFeeBps
    ensures Tier1Lossless(windows, spotFeeBps, perpFeeBps, multiple) <==>
      windows == 0
      || (10.0 <= spotFeeBps + perpFeeBps
          && (windows % 2 == 1 || (spotFeeBps + perpFeeBps == 10.0 && multiple == 0.0)))
  {
    if 0 < windows && spotFeeBps + perpFeeBps < 10.0 {
      CheapFeesAreDropped(windows, spotFeeBps, perpFeeBps, multiple);
    } else if 0 < windows && windows % 2 == 0 && 10.0 < spotFeeBps + perpFeeBps {
      assert Times(multiple, Abs(0.0)) == 0.0;
      DeepLossesAreDropped(windows, 0.0, spotFeeBps, perpFeeBps, multiple);
    } else if 0 < windows && windows % 2 == 0 && 0.0 < multiple {
      assert Times(multiple, Abs(1.0)) == multiple;
      DeepLossesAreDropped(windows, 1.0, spotFeeBps, perpFeeBps, multiple);
    } else {
      forall funding, basis
        ensures NetApy(Tier3(funding, windows, basis, spotFeeBps, perpFeeBps, multiple)) <= Tier1Apy(funding, windows)
      {
        var g := Tier3(funding, windows, basis, spotFeeBps, perpFeeBps, multiple);
        Scale(multiple, 0.0, Abs(basis));
        if 0 < windows {
          ApyOrder(NetPerWindow(g), Tier1NetPerWindow(funding), windows);
        }
      }
    }
  }

  /** Above ruin 10 bps are enough, and needed, whatever the number of windows. */
  lemma Tier1LosslessAboveRuinIff(windows: nat, spotFeeBps: real, perpFeeBps: real, multiple: real)
    requires 0.0 <= multiple && 0.0 <= spotFeeBps && 0.0 <= perpFeeBps
    ensures Tier1LosslessAboveRuin(windows, spotFeeBps, perpFeeBps, multiple) <==>
      windows == 0 || 10.0 <= spotFeeBps + perpFeeBps
  {
    if windows == 0 || 10.0 <= spotFeeBps + perpFeeBps {
      forall funding, basis | -10000.0 <= NetPerWindow(Tier3(funding, windows, basis, spotFeeBps, perpFeeBps, multiple))
        ensures NetApy(Tier3(funding, windows, basis, spotFeeBps, perpFeeBps, multiple)) <= Tier1Apy(funding, windows)
      {
        var g := Tier3(funding, windows, basis, spotFeeBps, perpFeeBps, multiple);
        Scale(multiple, 0.0, Abs(basis));
        if 0 < windows {
          ApyOrder(NetPerWindow(g), Tier1NetPerWindow(funding), windows);
        }
      }
    } else {
      CheapFeesAreDropped(windows, spotFeeBps, perpFeeBps, multiple);
    }
  }

  // ----- stop loss -----

  /** Delta neutrality: a move of both marks by the same amount is no profit and no loss. */
  lemma PnlIsDeltaNeutral(qty: real, spotEntry: real, perpEntry: real, spotMark: real, perpMark: real, move: real)
    ensures UnrealizedPnlFraction(qty, spotEntry, perpEntry, spotMark + move, perpMark + move)
         == UnrealizedPnlFraction(qty, spotEntry, perpEntry, spotMark, perpMark)
  {
    Distribute(spotMark - spotEntry, move, qty);
    Distribute(perpEntry - perpMark, move, qty);
    Distribute(perpEntry - perpMark - move, move, qty);
    assert spotMark + move - spotEntry == (spotMark - spotEntry) + move;
    assert perpEntry - (perpMark + move) == perpEntry - perpMark - move;
  }

  /** The fraction is the narrowing of the basis since entry, whatever the quantity. */
  lemma PnlIsBasisNarrowing(qty: real, spotEntry: real, perpEntry: real, spotMark: real, perpMark: real)
    requires 0.0 < qty && 0.0 < spotEntry
    ensures UnrealizedPnlFraction(qty, spotEntry, perpEntry, spotMark, perpMark)
         == Over((perpEntry - spotEntry) - (perpMark - spotMark), spotEntry)
  {
    var a := (perpEntry - spotEntry) - (perpMark - spotMark);
    Distribute(spotMark - spotEntry, perpEntry - perpMark, qty);
    assert a == spotMark - spotEntry + (perpEntry - perpMark);
    ProductPositive(qty, spotEntry);
    CancelFactor(qty, a, spotEntry);
  }

  lemma CancelFactor(q: real, a: real, b: real)
    requires q != 0.0 && b != 0.0 && Times(q, b) != 0.0
    ensures Over(Times(q, a), Times(q, b)) == Over(a, b)
  {
    var x := Over(a, b);
    Quotient(a, b);
    assert Times(q, a) == Times(x, Times(q, b));
  }
}

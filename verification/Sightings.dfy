// Which legs of a position the venue shows (loop/cycle.py, Phase A).
module Sightings {
  import opened RealArith
  import opened Domain
  import opened Lifecycle
  import opened Positions
  import opened Gateways
  import Gate

  function PerpQuantity(perps: map<string, real>, symbol: string): real {
    Abs(if symbol in perps then perps[symbol] else 0.0)
  }

  /** Half of the coarser lot step. */
  function Epsilon(spotStep: real, perpStep: real): real {
    Times(Max(spotStep, perpStep), 0.5)
  }

  // ----- hedge integrity -----

  function IntegrityRequests(p: Position): seq<Request> {
    [FetchBalance(p.symbol), FetchLotStep(p.spotSymbol), FetchLotStep(p.perpSymbol), ListOpenPerps]
  }

  /** The tolerance of the check, from the two lot steps it asked for. */
  function Tolerance(p: Position, seen: seq<Reply>): real
    requires AllFit(IntegrityRequests(p), seen)
  {
    assert Fits(IntegrityRequests(p)[1], seen[1]) && Fits(IntegrityRequests(p)[2], seen[2]);
    Epsilon(seen[1].step, seen[2].step)
  }

  function SpotWallet(p: Position, seen: seq<Reply>): WalletBalance
    requires AllFit(IntegrityRequests(p), seen)
  {
    assert Fits(IntegrityRequests(p)[0], seen[0]);
    seen[0].spot
  }

  predicate SpotPresent(p: Position, seen: seq<Reply>)
    requires AllFit(IntegrityRequests(p), seen)
  {
    p.quantity - Tolerance(p, seen) <= SpotWallet(p, seen).free + SpotWallet(p, seen).total
  }

  predicate PerpPresent(p: Position, seen: seq<Reply>)
    requires AllFit(IntegrityRequests(p), seen)
  {
    assert Fits(IntegrityRequests(p)[3], seen[3]);
    p.quantity - Tolerance(p, seen) <= PerpQuantity(seen[3].perps, p.perpSymbol)
  }

  /** What the venue reports for a symbol, signed; nothing counts as zero. */
  function Shown(perps: map<string, real>, symbol: string): real {
    if symbol in perps then perps[symbol] else 0.0
  }

  /**
   * Within half the coarser lot step: the spot leg is there when free and total add
   * up to the quantity, the perp leg when the position shown is that large, long or
   * short.
   */
  lemma PresenceMeaning(p: Position, spot: WalletBalance, futures: WalletBalance, spotStep: real, perpStep: real,
                        perps: map<string, real>)
    ensures var seen := [Balances(spot, futures), LotStep(spotStep), LotStep(perpStep), Perps(perps)];
      var twice := if spotStep <= perpStep then perpStep else spotStep;
      var x := Shown(perps, p.perpSymbol);
      && AllFit([FetchBalance(p.symbol), FetchLotStep(p.spotSymbol), FetchLotStep(p.perpSymbol), ListOpenPerps], seen)
      && IntegrityRequests(p)
          == [FetchBalance(p.symbol), FetchLotStep(p.spotSymbol), FetchLotStep(p.perpSymbol), ListOpenPerps]
      && (SpotPresent(p, seen) <==> 2.0 * p.quantity <= 2.0 * (spot.free + spot.total) + twice)
      && (PerpPresent(p, seen) <==> 2.0 * p.quantity <= 2.0 * x + twice || 2.0 * p.quantity <= -2.0 * x + twice)
  {
  }

  /** A venue that shows the short, and the whole spot quantity in the wallet, leaves an OPEN row as it is. */
  lemma WholePositionStaysOpen(p: Position, q: Position, now: int, spot: WalletBalance, futures: WalletBalance,
                               spotStep: real, perpStep: real, perps: map<string, real>)
    requires p.status == Open && 0.0 <= spotStep && 0.0 <= perpStep
    requires p.perpSymbol in perps && perps[p.perpSymbol] == -p.quantity && p.quantity <= spot.free + spot.total
    requires var seen := [Balances(spot, futures), LotStep(spotStep), LotStep(perpStep), Perps(perps)];
      AllFit(IntegrityRequests(p), seen) && ClaimsExactly(p, q, now, SpotPresent(p, seen), PerpPresent(p, seen))
    ensures q == p
  {
    PresenceMeaning(p, spot, futures, spotStep, perpStep, perps);
  }

  /** The status that claims exactly the legs seen. */
  function SeenStatus(spotPresent: bool, perpPresent: bool): Status {
    if spotPresent then (if perpPresent then Open else NakedSpot) else (if perpPresent then NakedPerp else Closed)
  }

  predicate ClaimsLeg(p: Position, leg: Leg) {
    p.status == Open || p.status == (if leg == Spot then NakedSpot else NakedPerp)
  }

  /** q is p made to claim exactly the legs that are there. */
  predicate ClaimsExactly(p: Position, q: Position, now: int, spotPresent: bool, perpPresent: bool) {
    && (ClaimsLeg(q, Spot) <==> spotPresent) && (ClaimsLeg(q, Futures) <==> perpPresent)
    && q == if IsExposed(q.status) then p.(status := q.status)
            else p.(status := Closed, closedAt := Some(now), lastCloseError := "hedge_integrity:both_legs_missing")
  }

  /** The test means what it says for a wallet when, at any quantity, passing implies the total covers it. */
  ghost predicate PresenceIsSound(p: Position, seen: seq<Reply>)
    requires AllFit(IntegrityRequests(p), seen)
  {
    forall q: real :: SpotPresent(p.(quantity := q), seen) ==> q - Tolerance(p, seen) <= SpotWallet(p, seen).total
  }

  /** Presence is judged on free plus total, which counts free units twice: it is sound exactly when none are free. */
  lemma PresenceIsSoundIff(p: Position, seen: seq<Reply>)
    requires AllFit(IntegrityRequests(p), seen)
    requires 0.0 <= SpotWallet(p, seen).free <= SpotWallet(p, seen).total
    ensures PresenceIsSound(p, seen) <==> SpotWallet(p, seen).free == 0.0
  {
    var w, eps := SpotWallet(p, seen), Tolerance(p, seen);
    if PresenceIsSound(p, seen) {
      var q := w.free + w.total + eps;
      assert SpotPresent(p.(quantity := q), seen);
    }
  }

  /** The failing input: half the quantity in the wallet, all of it free, passes for the whole leg. */
  lemma HalfAWalletPasses(p: Position, seen: seq<Reply>, half: real)
    requires AllFit(IntegrityRequests(p), seen) && 0.0 <= Tolerance(p, seen)
    requires half + half == p.quantity && SpotWallet(p, seen) == WalletBalance(half, half)
    ensures SpotPresent(p, seen)
  {
  }

  // ----- stale reconciliation -----

  function GoneRequests(p: Position): seq<Request> {
    [FetchLotStep(p.spotSymbol), FetchLotStep(p.perpSymbol)]
    + match p.status
      case NakedSpot => [FetchBalance(p.symbol)]
      case NakedPerp => [ListOpenPerps]
      case _ => []
  }

  predicate UnderlyingGone(p: Position, seen: seq<Reply>)
    requires AllFit(GoneRequests(p), seen)
  {
    assert Fits(GoneRequests(p)[0], seen[0]) && Fits(GoneRequests(p)[1], seen[1]);
    var eps := Epsilon(seen[0].step, seen[1].step);
    match p.status
    case NakedSpot =>
      assert Fits(GoneRequests(p)[2], seen[2]);
      seen[2].spot.free + seen[2].spot.total < p.quantity - eps
    case NakedPerp =>
      assert Fits(GoneRequests(p)[2], seen[2]);
      PerpQuantity(seen[2].perps, p.perpSymbol) < p.quantity - eps
    case _ => false
  }

  /**
   * A naked row is stale exactly when the leg it has is short of its quantity by more than half
   * the coarser lot step.
   */
  lemma GoneMeaning(p: Position, spotStep: real, perpStep: real, last: Reply)
    requires IsNaked(p.status) && if p.status == NakedSpot then last.Balances? else last.Perps?
    ensures var seen := [LotStep(spotStep), LotStep(perpStep), last];
      var twice := if spotStep <= perpStep then perpStep else spotStep;
      && GoneRequests(p) == [FetchLotStep(p.spotSymbol), FetchLotStep(p.perpSymbol),
                             if p.status == NakedSpot then FetchBalance(p.symbol) else ListOpenPerps]
      && AllFit(GoneRequests(p), seen)
      && (UnderlyingGone(p, seen) <==>
            if p.status == NakedSpot then 2.0 * (last.spot.free + last.spot.total) + twice < 2.0 * p.quantity
            else 2.0 * Shown(last.perps, p.perpSymbol) + twice < 2.0 * p.quantity
                 && -2.0 * Shown(last.perps, p.perpSymbol) + twice < 2.0 * p.quantity)
  {
  }

  /** On the same replies a naked row is stale exactly when the integrity check would miss its leg. */
  lemma GoneIffMissing(p: Position, integrity: seq<Reply>, gone: seq<Reply>)
    requires AllFit(IntegrityRequests(p), integrity) && AllFit(GoneRequests(p), gone)
    requires p.status == NakedSpot || p.status == NakedPerp
    requires gone[0] == integrity[1] && gone[1] == integrity[2]
        && gone[2] == integrity[if p.status == NakedSpot then 0 else 3]
    ensures UnderlyingGone(p, gone)
        <==> !(if p.status == NakedSpot then SpotPresent(p, integrity) else PerpPresent(p, integrity))
  {
  }

  // ----- recovery -----

  /** What the venue still shows of the surviving leg; spot counts free and total. */
  function Held(p: Position, last: Reply): real
    requires last.Balances? || last.Perps?
  {
    if last.Balances? then last.spot.free + last.spot.total else PerpQuantity(last.perps, p.perpSymbol)
  }

  /** What is held is never negative: free and total of the wallet, or the size of the position, long or short. */
  lemma HeldMeaning(p: Position, last: Reply)
    requires last.Balances? || last.Perps?
    ensures last.Balances? ==> Held(p, last) == last.spot.free + last.spot.total
    ensures last.Perps? ==>
      var x := Shown(last.perps, p.perpSymbol);
      (Held(p, last) == x || Held(p, last) == -x) && x <= Held(p, last) && -x <= Held(p, last)
  {
  }

  /** The forward gate at zero basis. */
  function ForwardApy(funding: Reply, fees: Reply, cfg: Settings): real
    requires funding.Funding? && fees.Fees?
  {
    Gate.ForwardNetApy(funding.funding.predictedRate, funding.funding.windows, 0.0, fees.spotFeeBps, fees.perpFeeBps,
      cfg.bufferMultiple)
  }

  /**
   * A hedge is worth no loss a year exactly when the funding of one window covers both legs' fees
   * twice, or ruin compounds.
   */
  lemma HedgeBreaksEvenIff(funding: Reply, fees: Reply, cfg: Settings)
    requires funding.Funding? && fees.Fees? && 0 < funding.funding.windows
    ensures var net := 10000.0 * funding.funding.predictedRate - 2.0 * (fees.spotFeeBps + fees.perpFeeBps);
      0.0 <= ForwardApy(funding, fees, cfg) <==> 0.0 <= net || (funding.funding.windows % 2 == 0 && net <= -20000.0)
  {
    Gate.BreaksEvenIff(Gate.GateInputs(funding.funding.predictedRate, funding.funding.windows, 0.0, fees.spotFeeBps,
                                       fees.perpFeeBps, 0.0, cfg.bufferMultiple));
    assert Times(cfg.bufferMultiple, 0.0) == 0.0;
  }
}

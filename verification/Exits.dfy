// When Phase B leaves a position (loop/cycle.py), as a decision on one reading of the market.
module Exits {
  import opened RealArith
  import opened Domain
  import opened Positions
  import opened Lifecycle
  import opened Gateways
  import Gate

  datatype Reading = Reading(funding: FundingInfo, spotBook: BookSnapshot, perpBook: BookSnapshot, spotFeeBps: real,
                             perpFeeBps: real)

  datatype Reason = StopLoss | BasisDislocation | ForwardProfit | Maintenance

  datatype Decision = Hold | Defer | Leave(reason: Reason)

  function LiveBasis(r: Reading): real {
    Gate.BasisBps(r.perpBook.mid, r.spotBook.mid)
  }

  /** The gate inputs of "would we open this now". */
  function LiveGate(r: Reading, cfg: Settings): Gate.GateInputs {
    Gate.GateInputs(r.funding.predictedRate, r.funding.windows, LiveBasis(r), r.spotFeeBps, r.perpFeeBps, 0.0,
                    cfg.bufferMultiple)
  }

  /** Mandatory triggers first, then the voluntary one, deferred on an adverse basis. */
  function Decide(p: Position, r: Reading, cfg: Settings): Decision {
    var pnl := Gate.UnrealizedPnlFraction(p.quantity, p.spotEntryPrice, p.perpEntryPrice, r.spotBook.mid,
                                          r.perpBook.mid);
    if pnl <= cfg.stopLossPct then Leave(StopLoss)
    else if Gate.BasisDislocated(Gate.BasisBps(p.perpEntryPrice, p.spotEntryPrice), LiveBasis(r), cfg.dislocationBps)
    then Leave(BasisDislocation)
    else if Gate.VoluntaryExit(LiveGate(r, cfg), cfg.exitMinNetApy) then
      (if LiveBasis(r) > cfg.maxExitBasisBps then Defer else Leave(ForwardProfit))
    else Hold
  }

  /**
   * When the stop loss fires: with a quantity and a spot entry price, exactly when
   * the spread between the marks has widened since entry by the stop fraction of
   * the spot entry price. Without them the profit fraction is zero, and no loss
   * however large fires a negative stop; but an OPEN row always has both.
   */
  lemma StopLossIff(p: Position, r: Reading, cfg: Settings)
    ensures Decide(p, r, cfg) == Leave(StopLoss) <==>
      if 0.0 < p.quantity && 0.0 < p.spotEntryPrice then
        (r.perpBook.mid - r.spotBook.mid) - (p.perpEntryPrice - p.spotEntryPrice)
        >= Times(-cfg.stopLossPct, p.spotEntryPrice)
      else 0.0 <= cfg.stopLossPct
    ensures RowOk(p) && p.status == Open ==> 0.0 < p.quantity && 0.0 < p.spotEntryPrice
  {
    if 0.0 < p.quantity && 0.0 < p.spotEntryPrice {
      var narrowed := (p.perpEntryPrice - p.spotEntryPrice) - (r.perpBook.mid - r.spotBook.mid);
      Gate.PnlIsBasisNarrowing(p.quantity, p.spotEntryPrice, p.perpEntryPrice, r.spotBook.mid, r.perpBook.mid);
      QuotientBound(cfg.stopLossPct, narrowed, p.spotEntryPrice);
      Negate(cfg.stopLossPct, p.spotEntryPrice);
    }
  }

  /**
   * The whole decision on an OPEN row, in marks and entry prices. A dislocation is
   * a rise of the ratio of perp to spot price since entry by more than the
   * threshold; it and the stop loss leave at once, the stop loss first. A position
   * the gate would not open now at a premium above the limit is deferred, at a
   * smaller premium or a discount it leaves.
   */
  lemma DecisionIff(p: Position, r: Reading, cfg: Settings)
    requires RowOk(p) && p.status == Open && 0.0 < r.spotBook.mid
    ensures var live, entry := Over(r.perpBook.mid, r.spotBook.mid), Over(p.perpEntryPrice, p.spotEntryPrice);
      var stopped := (r.perpBook.mid - r.spotBook.mid) - (p.perpEntryPrice - p.spotEntryPrice)
                     >= Times(-cfg.stopLossPct, p.spotEntryPrice);
      var dislocated := Times(live - entry, 10000.0) > cfg.dislocationBps;
      var thin := Gate.NetApy(Gate.GateInputs(r.funding.predictedRate, r.funding.windows, Times(live - 1.0, 10000.0),
                                              r.spotFeeBps, r.perpFeeBps, 0.0, cfg.bufferMultiple)) < cfg.exitMinNetApy;
      var adverse := Times(live - 1.0, 10000.0) > cfg.maxExitBasisBps;
      match Decide(p, r, cfg)
      case Leave(StopLoss) => stopped
      case Leave(BasisDislocation) => !stopped && dislocated
      case Defer => !stopped && !dislocated && thin && adverse
      case Leave(ForwardProfit) => !stopped && !dislocated && thin && !adverse
      case Hold => !stopped && !dislocated && !thin
      case Leave(Maintenance) => false
  {
    var live, entry := Over(r.perpBook.mid, r.spotBook.mid), Over(p.perpEntryPrice, p.spotEntryPrice);
    StopLossIff(p, r, cfg);
    Gate.BasisAsRatio(r.perpBook.mid, r.spotBook.mid);
    Gate.BasisAsRatio(p.perpEntryPrice, p.spotEntryPrice);
    Distribute(live - 1.0, entry - 1.0, 10000.0);
    assert live - 1.0 - (entry - 1.0) == live - entry;
  }

  predicate WantsOut(d: Decision) {
    d == Defer || d == Leave(ForwardProfit)
  }

  /**
   * Entry and exit do not flap: with nothing worse than at entry, a position whose
   * entry passed the gate leaves for lack of forward profit, or wants to, only when
   * the year has an even number of windows and the entry itself was past ruin.
   */
  lemma EntryDoesNotFlap(p: Position, r: Reading, cfg: Settings, entry: Gate.GateInputs)
    requires Gate.NoWorse(entry, LiveGate(r, cfg)) && cfg.exitMinNetApy <= cfg.entryMinNetApy <= Gate.NetApy(entry)
    ensures WantsOut(Decide(p, r, cfg)) ==>
      0 < entry.windows && entry.windows % 2 == 0 && Gate.NetPerWindow(entry) < -10000.0 && -1.0 < cfg.exitMinNetApy
  {
    Gate.FlapsIff(entry, cfg.entryMinNetApy, cfg.exitMinNetApy);
  }

  /** Marks that show a given basis, without moving a position entered at them. */
  lemma MarksForBasis(basis: real) returns (mid: real)
    ensures Gate.BasisBps(mid, 1.0) == basis
  {
    mid := 1.0 + Over(basis, 10000.0);
    Quotient(basis, 10000.0);
    assert Over(mid - 1.0, 1.0) == Over(basis, 10000.0);
  }

  /**
   * ... and exactly then some row and reading do flap, with a stop loss below zero,
   * a dislocation threshold at or above it, and an entry gated under the settings.
   */
  lemma EntryFlapsIff(cfg: Settings, entry: Gate.GateInputs)
    requires Gate.NoWorse(entry, entry) && cfg.exitMinNetApy <= cfg.entryMinNetApy <= Gate.NetApy(entry)
    requires entry.bufferMultiple == cfg.bufferMultiple && entry.swapBasisBps == 0.0
    requires cfg.stopLossPct < 0.0 && 0.0 <= cfg.dislocationBps
    ensures (exists p: Position, r: Reading :: Gate.NoWorse(entry, LiveGate(r, cfg)) && WantsOut(Decide(p, r, cfg)))
      <==>
      0 < entry.windows && entry.windows % 2 == 0 && Gate.NetPerWindow(entry) < -10000.0 && -1.0 < cfg.exitMinNetApy
  {
    forall p: Position, r: Reading | Gate.NoWorse(entry, LiveGate(r, cfg)) && WantsOut(Decide(p, r, cfg))
      ensures 0 < entry.windows && entry.windows % 2 == 0
      ensures Gate.NetPerWindow(entry) < -10000.0 && -1.0 < cfg.exitMinNetApy
    {
      EntryDoesNotFlap(p, r, cfg, entry);
    }
    if 0 < entry.windows && entry.windows % 2 == 0 && Gate.NetPerWindow(entry) < -10000.0 && -1.0 < cfg.exitMinNetApy {
      var live := Gate.RuinIsReachable(entry);
      var mid := MarksForBasis(entry.entryBasisBps);
      var r := Reading(FundingInfo("", live.fundingRate, live.windows),
                       BookSnapshot([], [], 1.0, 0), BookSnapshot([], [], mid, 0),
                       live.spotFeeBps, live.perpFeeBps);
      var p := Position(Paper, "", Open, "", "", "", 1.0, 0.0, 0.0, 1.0, mid, 0, None, "");
      assert LiveGate(r, cfg) == live;
      assert WantsOut(Decide(p, r, cfg));
    }
  }

  // ----- what is asked -----

  /**
   * The row and the reading an evaluation decides on, and where the venue is then.
   * The row's funding terms are refreshed as soon as funding is known, whatever is
   * raised later; books apart in time give no reading, and the fees are only asked
   * for after that test.
   */
  function MarketRead<S>(machine: Machine<S>, s: S, p: Position): (r: (Position, Result<Option<Reading>>, S))
    ensures r.1.Raised? ==> r.1.exn == GatewayRaised
  {
    var (first, s1) := Consulted(machine, s, [FetchFunding(p.perpSymbol)]);
    if first.Raised? then (p, Raised(first.exn), s1)
    else
      assert Fits([FetchFunding(p.perpSymbol)][0], first.value[0]);
      var funding := first.value[0].funding;
      var noted := p.(lastFundingRate := funding.predictedRate, windows := funding.windows);
      var asked := [SnapshotBook(p.spotSymbol), SnapshotBook(p.perpSymbol)];
      var (books, s2) := Consulted(machine, s1, asked);
      if books.Raised? then (noted, Raised(books.exn), s2)
      else
        assert Fits(asked[0], books.value[0]) && Fits(asked[1], books.value[1]);
        if !CoTemporal(books.value[0].book, books.value[1].book) then (noted, Ok(None), s2)
        else
          var (fees, s3) := Consulted(machine, s2, [FetchFees(p.spotSymbol, p.perpSymbol)]);
          if fees.Raised? then (noted, Raised(fees.exn), s3)
          else
            assert Fits([FetchFees(p.spotSymbol, p.perpSymbol)][0], fees.value[0]);
            (noted,
             Ok(Some(Reading(funding, books.value[0].book, books.value[1].book, fees.value[0].spotFeeBps,
                             fees.value[0].perpFeeBps))),
             s3)
  }

  /**
   * With every reply in: the row takes over the funding terms, and there is a reading unless the
   * books are over 50 ms apart.
   */
  lemma ReadingMeaning<S>(machine: Machine<S>, s: S, s1: S, s2: S, s3: S, p: Position, funding: FundingInfo,
                          spotBook: BookSnapshot, perpBook: BookSnapshot, spotFeeBps: real, perpFeeBps: real)
    requires Consulted(machine, s, [FetchFunding(p.perpSymbol)]) == (Ok([Funding(funding)]), s1)
    requires Consulted(machine, s1, [SnapshotBook(p.spotSymbol), SnapshotBook(p.perpSymbol)])
          == (Ok([Book(spotBook), Book(perpBook)]), s2)
    requires Consulted(machine, s2, [FetchFees(p.spotSymbol, p.perpSymbol)]) == (Ok([Fees(spotFeeBps, perpFeeBps)]), s3)
    ensures var noted := p.(lastFundingRate := funding.predictedRate, windows := funding.windows);
      var apart := spotBook.takenAt - perpBook.takenAt > 50000 || perpBook.takenAt - spotBook.takenAt > 50000;
      MarketRead(machine, s, p)
      == if apart then (noted, Ok(None), s2)
         else (noted, Ok(Some(Reading(funding, spotBook, perpBook, spotFeeBps, perpFeeBps))), s3)
  {
  }
}

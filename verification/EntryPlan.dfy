// Whether and how much to enter one candidate (loop/cycle.py, Phase C): the stages
// as the code runs them, and what they amount to.
module EntryPlan {
  import opened RealArith
  import opened Domain
  import opened Lifecycle
  import opened Positions
  import opened Gateways
  import opened Executor
  import opened ClientOrderIds
  import opened Accounts
  import opened Scan
  import opened Books
  import S = Sizing
  import Gate

  const SAFETY: real := 0.99

  // ----- what is asked, in order -----

  function BookRequests(c: Candidate): seq<Request> {
    [SnapshotBook(c.spotSymbol), SnapshotBook(c.perpSymbol)]
  }

  function WalletRequests(c: Candidate): seq<Request> {
    [FetchBalance(c.quote), FetchBalance(c.quote)]
  }

  function StepRequests(c: Candidate): seq<Request> {
    [FetchLotStep(c.spotSymbol), FetchLotStep(c.perpSymbol)]
  }

  function FeeRequests(c: Candidate): seq<Request> {
    [FetchFees(c.spotSymbol, c.perpSymbol)]
  }

  // ----- what is seen -----

  datatype View = View(spotBook: BookSnapshot, perpBook: BookSnapshot, spotFree: real, perpFree: real, spotStep: real,
                       perpStep: real)

  function ViewOf(c: Candidate, books: seq<Reply>, wallets: seq<Reply>, steps: seq<Reply>): View
    requires AllFit(BookRequests(c), books) && AllFit(WalletRequests(c), wallets) && AllFit(StepRequests(c), steps)
  {
    assert Fits(BookRequests(c)[0], books[0]) && Fits(BookRequests(c)[1], books[1]);
    assert Fits(WalletRequests(c)[0], wallets[0]) && Fits(WalletRequests(c)[1], wallets[1]);
    assert Fits(StepRequests(c)[0], steps[0]) && Fits(StepRequests(c)[1], steps[1]);
    View(books[0].book, books[1].book, wallets[0].spot.free, wallets[1].futures.free, steps[0].step, steps[1].step)
  }

  function Equity(v: View): real {
    v.spotFree + v.perpFree
  }

  function SizingOf(v: View, cfg: Settings): S.SizingInputs
    requires v.spotBook.mid != 0.0
  {
    S.SizingInputs(v.spotBook, v.perpBook, v.spotFree, v.perpFree, cfg.leverage as real, SAFETY, cfg.subTarget,
                   Over(Times(cfg.maxPositionPct, Equity(v)), v.spotBook.mid), v.spotStep, v.perpStep)
  }

  function Size(v: View, cfg: Settings): S.SizingResult
    requires v.spotBook.mid != 0.0
  {
    S.EntrySize(SizingOf(v, cfg))
  }

  /** Large enough to be worth entering. */
  predicate WorthEntering(v: View, cfg: Settings)
    requires v.spotBook.mid != 0.0
  {
    var size := Size(v, cfg);
    0.0 < size.targetQty && Times(cfg.minPositionPct, Equity(v)) <= Times(size.targetQty, size.spotForecast)
  }

  /** The tier-3 gate: real fees, and the basis between the two forecast prices. */
  function GateOf(c: Candidate, size: S.SizingResult, fees: Reply, cfg: Settings): Gate.GateInputs
    requires fees.Fees?
  {
    Gate.GateInputs(c.fundingRate, c.windows, Gate.BasisBps(size.perpForecast, size.spotForecast),
                    fees.spotFeeBps, fees.perpFeeBps, 0.0, cfg.bufferMultiple)
  }

  predicate BooksTogether(c: Candidate, books: seq<Reply>)
    requires AllFit(BookRequests(c), books)
  {
    assert Fits(BookRequests(c)[0], books[0]) && Fits(BookRequests(c)[1], books[1]);
    CoTemporal(books[0].book, books[1].book)
  }

  function SpotMid(c: Candidate, books: seq<Reply>): real
    requires AllFit(BookRequests(c), books)
  {
    assert Fits(BookRequests(c)[0], books[0]);
    books[0].book.mid
  }

  // ----- the stages -----

  /** The quantity to enter, None when some stage rejects the candidate; an exception ends the cycle. */
  function Planned<S>(machine: Machine<S>, s: S, c: Candidate, cfg: Settings): (r: (Result<Option<real>>, S))
    ensures r.0.Ok? && r.0.value.Some? ==> 0.0 < r.0.value.value
    ensures r.0.Raised? ==> r.0.exn == GatewayRaised || r.0.exn == DivisionByZero
  {
    var (books, s1) := Consulted(machine, s, BookRequests(c));
    if books.Raised? then (Raised(books.exn), s1)
    else if !BooksTogether(c, books.value) then (Ok(None), s1)
    else
      var (wallets, s2) := Consulted(machine, s1, WalletRequests(c));
      if wallets.Raised? then (Raised(wallets.exn), s2)
      else if SpotMid(c, books.value) == 0.0 then (Raised(DivisionByZero), s2)
      else
        var (steps, s3) := Consulted(machine, s2, StepRequests(c));
        if steps.Raised? then (Raised(steps.exn), s3)
        else PlannedForFees(machine, s3, c, ViewOf(c, books.value, wallets.value, steps.value), cfg)
  }

  function PlannedForFees<S>(machine: Machine<S>, s: S, c: Candidate, v: View, cfg: Settings)
    : (r: (Result<Option<real>>, S))
    requires v.spotBook.mid != 0.0
    ensures r.0.Ok? && r.0.value.Some? ==> 0.0 < r.0.value.value
    ensures r.0.Raised? ==> r.0.exn == GatewayRaised
  {
    if !WorthEntering(v, cfg) then (Ok(None), s)
    else
      var (fees, s') := Consulted(machine, s, FeeRequests(c));
      if fees.Raised? then (Raised(fees.exn), s')
      else
        assert Fits(FeeRequests(c)[0], fees.value[0]);
        var net := Gate.NetApy(GateOf(c, Size(v, cfg), fees.value[0], cfg));
        (Ok(if net < cfg.entryMinNetApy then None else Some(Size(v, cfg).targetQty)), s')
  }

  // ----- what a plan guarantees -----

  /** All that has to hold of a candidate for an order of q units. */
  ghost predicate Justified(c: Candidate, v: View, fees: Reply, cfg: Settings, q: real) {
    && CoTemporal(v.spotBook, v.perpBook) && v.spotBook.mid != 0.0 && fees.Fees?
    && q == Size(v, cfg).targetQty && 0.0 < q
    && Times(cfg.minPositionPct, Equity(v)) <= Times(q, Size(v, cfg).spotForecast)
    && cfg.entryMinNetApy <= Gate.NetApy(GateOf(c, Size(v, cfg), fees, cfg))
  }

  /** When the venue replies to everything, a quantity is planned exactly when the whole view justifies it. */
  lemma PlannedIffJustified<S>(machine: Machine<S>, s: S, c: Candidate, cfg: Settings, q: real)
    requires var (books, s1) := Consulted(machine, s, BookRequests(c));
      var (wallets, s2) := Consulted(machine, s1, WalletRequests(c));
      var (steps, s3) := Consulted(machine, s2, StepRequests(c));
      var fees := Consulted(machine, s3, FeeRequests(c)).0;
      books.Ok? && wallets.Ok? && steps.Ok? && fees.Ok?
    ensures var (books, s1) := Consulted(machine, s, BookRequests(c));
      var (wallets, s2) := Consulted(machine, s1, WalletRequests(c));
      var (steps, s3) := Consulted(machine, s2, StepRequests(c));
      var fees := Consulted(machine, s3, FeeRequests(c)).0;
      Planned(machine, s, c, cfg).0 == Ok(Some(q))
      <==> Justified(c, ViewOf(c, books.value, wallets.value, steps.value), fees.value[0], cfg, q)
  {
    var (books, s1) := Consulted(machine, s, BookRequests(c));
    var (wallets, s2) := Consulted(machine, s1, WalletRequests(c));
    var (steps, s3) := Consulted(machine, s2, StepRequests(c));
    var fees := Consulted(machine, s3, FeeRequests(c)).0;
    assert Fits(FeeRequests(c)[0], fees.value[0]);
    var v := ViewOf(c, books.value, wallets.value, steps.value);
    assert BooksTogether(c, books.value) == CoTemporal(v.spotBook, v.perpBook);
  }

  /** The four rounds of questions, in order, and their replies. */
  ghost predicate Replied<S>(machine: Machine<S>, s: S, c: Candidate, spotBook: BookSnapshot, perpBook: BookSnapshot,
                             first: Reply, second: Reply, spotStep: real, perpStep: real, fees: Reply,
                             after: seq<S>) {
    && |after| == 4 && first.Balances? && second.Balances? && fees.Fees?
    && Consulted(machine, s, [SnapshotBook(c.spotSymbol), SnapshotBook(c.perpSymbol)])
       == (Ok([Book(spotBook), Book(perpBook)]), after[0])
    && Consulted(machine, after[0], [FetchBalance(c.quote), FetchBalance(c.quote)]) == (Ok([first, second]), after[1])
    && Consulted(machine, after[1], [FetchLotStep(c.spotSymbol), FetchLotStep(c.perpSymbol)])
       == (Ok([LotStep(spotStep), LotStep(perpStep)]), after[2])
    && Consulted(machine, after[2], [FetchFees(c.spotSymbol, c.perpSymbol)]) == (Ok([fees]), after[3])
  }

  /**
   * The plan on the replies themselves: spot money is what the first balance reply
   * has free on spot, perp money what the second has free on futures, and equity
   * their sum. Books more than 50 ms apart end it at once, a spot mid of zero after
   * the balances, a size too small for the operator before the fees are asked for.
   */
  lemma PlanMeaning<S>(machine: Machine<S>, s: S, c: Candidate, cfg: Settings, spotBook: BookSnapshot,
                       perpBook: BookSnapshot, first: Reply, second: Reply, spotStep: real, perpStep: real, fees: Reply,
                       after: seq<S>)
    requires Replied(machine, s, c, spotBook, perpBook, first, second, spotStep, perpStep, fees, after)
    ensures var apart := spotBook.takenAt - perpBook.takenAt > 50000 || perpBook.takenAt - spotBook.takenAt > 50000;
      Planned(machine, s, c, cfg)
      == if apart then (Ok(None), after[0])
         else if spotBook.mid == 0.0 then (Raised(DivisionByZero), after[1])
         else
           var equity := first.spot.free + second.futures.free;
           var size := S.EntrySize(S.SizingInputs(
             spotBook, perpBook, first.spot.free, second.futures.free, cfg.leverage as real, 0.99, cfg.subTarget,
             Over(Times(cfg.maxPositionPct, equity), spotBook.mid), spotStep, perpStep));
           if size.targetQty <= 0.0 || Times(size.targetQty, size.spotForecast) < Times(cfg.minPositionPct, equity)
           then (Ok(None), after[2])
           else
             var gate := Gate.GateInputs(
               c.fundingRate, c.windows, Gate.BasisBps(size.perpForecast, size.spotForecast), fees.spotFeeBps,
               fees.perpFeeBps, 0.0, cfg.bufferMultiple);
             (Ok(if Gate.NetApy(gate) < cfg.entryMinNetApy then None else Some(size.targetQty)), after[3])
  {
  }

  /**
   * What every justified order keeps to: both books' depth, the reservation both
   * wallets can make with 1% to spare, and the operator's share of equity at the
   * spot mid.
   */
  lemma JustifiedFits(c: Candidate, v: View, fees: Reply, cfg: Settings, q: real)
    requires Justified(c, v, fees, cfg, q) && 0.0 < v.spotBook.mid
    requires Positive(v.spotBook.asks) && Ascending(v.spotBook.asks) && 0.0 <= cfg.subTarget <= 1.0
    ensures q <= Depth(v.spotBook.asks, |v.spotBook.asks|) && q <= Depth(v.perpBook.bids, |v.perpBook.bids|)
    ensures Times(q, DeepestPrice(v.spotBook.asks, q)) <= Times(v.spotFree, 0.99)
    ensures Times(q, v.perpBook.mid) <= Times(Times(v.perpFree, 0.99), cfg.leverage as real)
    ensures Times(q, v.spotBook.mid) <= Times(cfg.maxPositionPct, Equity(v))
  {
    var inp := SizingOf(v, cfg);
    S.EntrySizeFits(inp);
    QuotientBound(q, Times(cfg.maxPositionPct, Equity(v)), v.spotBook.mid);
  }

  // ----- the order and the row -----

  function EntryFor(c: Candidate, qty: real, cycleId: string, digest: Digest): EntryOrder {
    EntryOrder(c.spotSymbol, c.perpSymbol, qty,
               IdFor(digest, Entry(cycleId, c.spotSymbol, Spot, Buy)),
               IdFor(digest, Entry(cycleId, c.perpSymbol, Futures, Sell)))
  }

  function Template(c: Candidate, w: Worker): Position {
    Position(w.mode, w.exchange, Open, c.base, c.spotSymbol, c.perpSymbol, 0.0, c.fundingRate, c.fundingRate, 0.0, 0.0,
             c.windows, None, "")
  }
}

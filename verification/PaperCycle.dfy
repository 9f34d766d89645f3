// The cycle on the synthetic gateway: a planned entry always opens a whole position.
module PaperCycle {
  import opened Books
  import opened Domain
  import opened Positions
  import opened Lifecycle
  import opened PaperGateway
  import opened PaperEntry
  import opened ClientOrderIds
  import opened Scan
  import opened Accounts
  import G = Gateways
  import E = Executor
  import P = EntryPlan
  import S = Sizing

  /** Questions change nothing on the synthetic gateway, and each is answered from the state. */
  lemma {:induction false} QuestionsLeaveState(cfg: Config, fix: Fixtures, st: PaperState, requests: seq<G.Request>)
    requires forall i :: 0 <= i < |requests| ==> !requests[i].PlaceOrder?
    ensures var (r, end) := G.Consulted(PaperMachine(cfg, fix), st, requests);
      && end == st
      && (r.Ok? ==> forall i :: 0 <= i < |requests| ==> r.value[i] == PaperAnswer(cfg, fix, st, requests[i]).0)
  {
    if requests != [] {
      QuestionsLeaveState(cfg, fix, st, requests[..|requests| - 1]);
    }
  }

  lemma PlanSeesTheBooks(cfg: Config, fix: Fixtures, st: PaperState, c: Candidate, books: seq<G.Reply>)
    requires G.Consulted(PaperMachine(cfg, fix), st, P.BookRequests(c)).0 == Ok(books)
    ensures c.spotSymbol in cfg.books && c.perpSymbol in cfg.books
    ensures books == [G.Book(cfg.books[c.spotSymbol]), G.Book(cfg.books[c.perpSymbol])]
  {
    QuestionsLeaveState(cfg, fix, st, P.BookRequests(c));
    assert G.Fits(P.BookRequests(c)[0], books[0]) && G.Fits(P.BookRequests(c)[1], books[1]);
  }

  /** The sizing behind a plan read the very books and wallets the order will meet. */
  lemma PlanIsSized(cfg: Config, fix: Fixtures, st: PaperState, c: Candidate, settings: Settings, q: real)
    returns (inp: S.SizingInputs)
    requires P.Planned(PaperMachine(cfg, fix), st, c, settings).0 == Ok(Some(q))
    ensures P.Planned(PaperMachine(cfg, fix), st, c, settings).1 == st
    ensures c.spotSymbol in cfg.books && c.perpSymbol in cfg.books
    ensures inp.spotBook == cfg.books[c.spotSymbol] && inp.perpBook == cfg.books[c.perpSymbol]
    ensures inp.subTarget == settings.subTarget && inp.safety == 0.99 && inp.leverage == settings.leverage as real
    ensures inp.spotFree == (if c.quote in st.spot then st.spot[c.quote].free else 0.0)
    ensures inp.perpFree == (if c.quote in st.futures then st.futures[c.quote].free else 0.0)
    ensures inp.spotStep == (if c.spotSymbol in fix.lots then fix.lots[c.spotSymbol] else 0.001)
    ensures inp.perpStep == (if c.perpSymbol in fix.lots then fix.lots[c.perpSymbol] else 0.001)
    ensures S.EntrySize(inp).rejection.None? && q == S.EntrySize(inp).targetQty
  {
    var machine := PaperMachine(cfg, fix);
    QuestionsLeaveState(cfg, fix, st, P.BookRequests(c));
    QuestionsLeaveState(cfg, fix, st, P.WalletRequests(c));
    QuestionsLeaveState(cfg, fix, st, P.StepRequests(c));
    QuestionsLeaveState(cfg, fix, st, P.FeeRequests(c));
    var books := G.Consulted(machine, st, P.BookRequests(c)).0;
    PlanSeesTheBooks(cfg, fix, st, c, books.value);
    var wallets := G.Consulted(machine, st, P.WalletRequests(c)).0;
    var steps := G.Consulted(machine, st, P.StepRequests(c)).0;
    var v := P.ViewOf(c, books.value, wallets.value, steps.value);
    inp := P.SizingOf(v, settings);
  }

  /**
   * What the synthetic gateway replies to the questions of a plan: its books, what
   * its wallets hold of the quote asset, the injected lot steps or 0.001, and the
   * injected fees or the configured rate on both legs. Asking changes nothing.
   */
  lemma PaperReplied(cfg: Config, fix: Fixtures, st: PaperState, c: Candidate)
    requires c.spotSymbol in cfg.books && c.perpSymbol in cfg.books
    ensures var spot := if c.quote in st.spot then st.spot[c.quote] else Wallet(0.0, 0.0);
      var futures := if c.quote in st.futures then st.futures[c.quote] else Wallet(0.0, 0.0);
      var balances := G.Balances(G.WalletBalance(spot.free, spot.total), G.WalletBalance(futures.free, futures.total));
      var key := (c.spotSymbol, c.perpSymbol);
      P.Replied(PaperMachine(cfg, fix), st, c, cfg.books[c.spotSymbol], cfg.books[c.perpSymbol], balances, balances,
                if c.spotSymbol in fix.lots then fix.lots[c.spotSymbol] else 0.001,
                if c.perpSymbol in fix.lots then fix.lots[c.perpSymbol] else 0.001,
                if key in fix.fees then G.Fees(fix.fees[key].0, fix.fees[key].1) else G.Fees(cfg.feeBps, cfg.feeBps),
                [st, st, st, st])
  {
    var machine := PaperMachine(cfg, fix);
    TwoQuestions(cfg, fix, st, G.SnapshotBook(c.spotSymbol), G.SnapshotBook(c.perpSymbol));
    TwoQuestions(cfg, fix, st, G.FetchBalance(c.quote), G.FetchBalance(c.quote));
    TwoQuestions(cfg, fix, st, G.FetchLotStep(c.spotSymbol), G.FetchLotStep(c.perpSymbol));
    OneQuestion(cfg, fix, st, G.FetchFees(c.spotSymbol, c.perpSymbol));
  }

  lemma OneQuestion(cfg: Config, fix: Fixtures, st: PaperState, q: G.Request)
    requires !q.PlaceOrder? && G.Fits(q, PaperAnswer(cfg, fix, st, q).0)
    ensures G.Consulted(PaperMachine(cfg, fix), st, [q]) == (Ok([PaperAnswer(cfg, fix, st, q).0]), st)
  {
    QuestionsLeaveState(cfg, fix, st, [q]);
    assert [q][..0] == [];
    var r := G.Consulted(PaperMachine(cfg, fix), st, [q]).0;
    assert r.Ok? && r.value == [PaperAnswer(cfg, fix, st, q).0];
  }

  lemma TwoQuestions(cfg: Config, fix: Fixtures, st: PaperState, q: G.Request, r: G.Request)
    requires !q.PlaceOrder? && !r.PlaceOrder?
    requires G.Fits(q, PaperAnswer(cfg, fix, st, q).0) && G.Fits(r, PaperAnswer(cfg, fix, st, r).0)
    ensures G.Consulted(PaperMachine(cfg, fix), st, [q, r])
         == (Ok([PaperAnswer(cfg, fix, st, q).0, PaperAnswer(cfg, fix, st, r).0]), st)
  {
    QuestionsLeaveState(cfg, fix, st, [q, r]);
    OneQuestion(cfg, fix, st, q);
    assert [q, r][..1] == [q];
    var both := G.Consulted(PaperMachine(cfg, fix), st, [q, r]).0;
    assert both.Ok? && both.value == [PaperAnswer(cfg, fix, st, q).0, PaperAnswer(cfg, fix, st, r).0];
  }

  /**
   * From scan to row: in paper mode a planned entry under unused ids ends SUCCESS,
   * whichever leg is served first, and opens a row of exactly the planned quantity.
   */
  lemma PlannedEntryOpens(cfg: Config, fix: Fixtures, st: PaperState, c: Candidate, settings: Settings, q: real,
                          w: Worker, cycleId: string, digest: Digest, inUse: set<string>, spotFirst: bool)
    requires P.Planned(PaperMachine(cfg, fix), st, c, settings).0 == Ok(Some(q))
    requires c.spotSymbol in cfg.books && c.perpSymbol in cfg.books
    requires Positive(cfg.books[c.spotSymbol].asks) && Ascending(cfg.books[c.spotSymbol].asks)
    requires Positive(cfg.books[c.perpSymbol].bids) && Descending(cfg.books[c.perpSymbol].bids)
    requires 0.0 <= settings.subTarget <= 1.0 && -10000.0 < cfg.slippageBps < 10000.0
    requires var spotUse := Entry(cycleId, c.spotSymbol, Spot, Buy);
      var perpUse := Entry(cycleId, c.perpSymbol, Futures, Sell);
      && Faithful(digest, inUse) && Hashed(spotUse) <= inUse && Hashed(perpUse) <= inUse
      && PipeFree(spotUse) && PipeFree(perpUse)
      && IdFor(digest, spotUse) !in st.seen && IdFor(digest, perpUse) !in st.seen
    ensures var t := E.Enter(PaperMachine(cfg, fix), st, P.EntryFor(c, q, cycleId, digest), spotFirst).0;
      && E.Verdict(t).Some? && E.Verdict(t).value.outcome == E.Success && E.Witnessed(t)
      && var row := RowFor(P.Template(c, w), E.Verdict(t));
      row.Some? && row.value.status == Open && row.value.quantity == q
  {
    var spotUse, perpUse := Entry(cycleId, c.spotSymbol, Spot, Buy), Entry(cycleId, c.perpSymbol, Futures, Sell);
    if IdFor(digest, spotUse) == IdFor(digest, perpUse) {
      IdsAreUnique(digest, inUse, spotUse, perpUse);
    }
    var inp := PlanIsSized(cfg, fix, st, c, settings, q);
    SizedEntrySucceeds(cfg, fix, st, inp, P.EntryFor(c, q, cycleId, digest), spotFirst);
  }

  // ----- incidents in paper mode -----

  /** Every accepted answer is priced above zero. */
  ghost predicate Sound(cfg: Config) {
    && -10000.0 < cfg.slippageBps < 10000.0
    && forall s :: s in cfg.books ==> Positive(cfg.books[s].asks) && Positive(cfg.books[s].bids)
  }

  lemma PaperAnswersInTime(cfg: Config, fix: Fixtures, st: PaperState, order: Order)
    requires Sound(cfg)
    ensures G.CallOrder(PaperMachine(cfg, fix), st, order)
        == (G.Answer(Place(cfg, st, order).0, G.Answered), Place(cfg, st, order).1)
  {
    var fill := Place(cfg, st, order).0;
    if fill.accepted {
      FillPricePositive(cfg, Levels(cfg.books[order.symbol], order.side), order.side, order.qty);
    }
  }

  /** On the synthetic gateway no entry is ever lost from sight, whatever its outcome. */
  lemma PaperEntriesAreWitnessed(cfg: Config, fix: Fixtures, st: PaperState, e: E.EntryOrder, spotFirst: bool)
    requires Sound(cfg)
    ensures E.Witnessed(E.Enter(PaperMachine(cfg, fix), st, e, spotFirst).0)
  {
    var machine := PaperMachine(cfg, fix);
    var first := if spotFirst then E.SpotOrder(e) else E.PerpOrder(e);
    var second := if spotFirst then E.PerpOrder(e) else E.SpotOrder(e);
    PaperAnswersInTime(cfg, fix, st, first);
    PaperAnswersInTime(cfg, fix, Place(cfg, st, first).1, second);
    var (spot, perp, s2) := E.CallLegs(machine, st, e, spotFirst);
    PaperAnswersInTime(cfg, fix, s2, E.RollbackOrder(E.FilledLeg(spot, perp)));
  }

  // ----- exits in paper mode -----

  /** Once its id has been seen, an order does nothing. */
  lemma SeenIsRefused(cfg: Config, fix: Fixtures, st: PaperState, order: Order)
    requires Sound(cfg) && order.coid in st.seen
    ensures var (a, st') := G.CallOrder(PaperMachine(cfg, fix), st, order);
      st' == st && !a.fill.accepted && a.seen == G.Answered
  {
    PaperAnswersInTime(cfg, fix, st, order);
  }

  /** The synthetic gateway is such a venue as Recovery.RecoveryTriesOnce speaks of. */
  lemma PaperRefusesRepeats(cfg: Config, fix: Fixtures)
    ensures G.RefusesRepeats(PaperMachine(cfg, fix), (st: PaperState) => st.seen)
  {
    forall st: PaperState, order: Order
      ensures order.coid in G.CallOrder(PaperMachine(cfg, fix), st, order).1.seen
      ensures order.coid in st.seen ==> !G.CallOrder(PaperMachine(cfg, fix), st, order).0.fill.accepted
    {
      PlaceAnswersTheOrder(cfg, st, order);
    }
  }

  function PhaseBClose(cfg: Config, fix: Fixtures, st: PaperState, digest: Digest, p: Position)
    : (CloseTrace, PaperState)
  {
    Close(PaperMachine(cfg, fix), st, p, IdFor(digest, Exit(EXIT_CYCLE, p.spotSymbol, Spot, Sell)),
          IdFor(digest, Exit(EXIT_CYCLE, p.perpSymbol, Futures, Buy)))
  }

  /**
   * Phase B exits a pair of symbols once: after one attempt, successful or not, and
   * any orders in between, no later attempt on the same symbols, for this or any
   * other position and on whatever the books have become, executes anything. A
   * close that failed stays failed.
   */
  lemma PhaseBExitsOnce(cfg: Config, fix: Fixtures, st: PaperState, digest: Digest, p: Position,
                        others: seq<(Config, Order)>, cfg': Config, fix': Fixtures, q: Position)
    requires Sound(cfg) && Sound(cfg') && p.spotSymbol == q.spotSymbol && p.perpSymbol == q.perpSymbol
    ensures var later := Run(PhaseBClose(cfg, fix, st, digest, p).1, others).1;
      var (t, end) := PhaseBClose(cfg', fix', later, digest, q);
      CloseExecuted(t) == [] && !ClosesRow(t) && end == later
  {
    var spotId := IdFor(digest, Exit(EXIT_CYCLE, p.spotSymbol, Spot, Sell));
    var perpId := IdFor(digest, Exit(EXIT_CYCLE, p.perpSymbol, Futures, Buy));
    var sold := CloseSpotOrder(p, spotId);
    PaperAnswersInTime(cfg, fix, st, sold);
    var st1 := Place(cfg, st, sold).1;
    PaperAnswersInTime(cfg, fix, st1, ClosePerpOrder(p, perpId));
    PlaceAnswersTheOrder(cfg, st, sold);
    PlaceAnswersTheOrder(cfg, st1, ClosePerpOrder(p, perpId));
    var st2 := PhaseBClose(cfg, fix, st, digest, p).1;
    SeenForever(st2, others, spotId);
    SeenForever(st2, others, perpId);
    var later := Run(st2, others).1;
    SeenIsRefused(cfg', fix', later, CloseSpotOrder(q, spotId));
    SeenIsRefused(cfg', fix', later, ClosePerpOrder(q, perpId));
  }

  predicate Fillable(cfg: Config, order: Order) {
    && order.symbol in cfg.books
    && var levels := if order.side == Buy then cfg.books[order.symbol].asks else cfg.books[order.symbol].bids;
    0.0 < order.qty <= Depth(levels, |levels|)
  }

  /**
   * A Phase B attempt closes the row exactly when both exit ids are unused and different and both
   * books can fill their leg.
   */
  lemma PhaseBClosesIff(cfg: Config, fix: Fixtures, st: PaperState, digest: Digest, p: Position)
    requires Sound(cfg)
    ensures var sold := CloseSpotOrder(p, IdFor(digest, Exit(EXIT_CYCLE, p.spotSymbol, Spot, Sell)));
      var bought := ClosePerpOrder(p, IdFor(digest, Exit(EXIT_CYCLE, p.perpSymbol, Futures, Buy)));
      ClosesRow(PhaseBClose(cfg, fix, st, digest, p).0)
      <==> sold.coid !in st.seen && bought.coid !in st.seen && sold.coid != bought.coid
           && Fillable(cfg, sold) && Fillable(cfg, bought)
  {
    var sold := CloseSpotOrder(p, IdFor(digest, Exit(EXIT_CYCLE, p.spotSymbol, Spot, Sell)));
    var bought := ClosePerpOrder(p, IdFor(digest, Exit(EXIT_CYCLE, p.perpSymbol, Futures, Buy)));
    PaperAnswersInTime(cfg, fix, st, sold);
    PaperAnswersInTime(cfg, fix, Place(cfg, st, sold).1, bought);
    PlaceAnswersTheOrder(cfg, st, sold);
  }
}

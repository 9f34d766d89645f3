// Closes and rollbacks on the synthetic gateway: what they leave in the wallets,
// and when a lone leg is taken back.
module PaperWallets {
  import opened RealArith
  import opened Books
  import opened Domain
  import opened Symbols
  import opened Positions
  import opened PaperGateway
  import opened PaperEntry
  import opened PaperCycle
  import opened ClientOrderIds
  import opened Scan
  import opened Accounts
  import G = Gateways
  import E = Executor
  import P = EntryPlan
  import I = OrderIds
  import S = Sizing

  // ----- a close -----

  lemma CloseIsTwoOrders(cfg: Config, fix: Fixtures, st: PaperState, p: Position, spotCoid: string, perpCoid: string)
    requires Sound(cfg)
    ensures var (spot, st1) := Place(cfg, st, CloseSpotOrder(p, spotCoid));
      var (perp, end) := Place(cfg, st1, ClosePerpOrder(p, perpCoid));
      Close(PaperMachine(cfg, fix), st, p, spotCoid, perpCoid)
      == (CloseTrace(G.Answer(spot, G.Answered), Some(G.Answer(perp, G.Answered))), end)
  {
    PaperAnswersInTime(cfg, fix, st, CloseSpotOrder(p, spotCoid));
    PaperAnswersInTime(cfg, fix, Place(cfg, st, CloseSpotOrder(p, spotCoid)).1, ClosePerpOrder(p, perpCoid));
  }

  /** The wallets the model follows, and symbols that name two different assets. */
  predicate Tracked(cfg: Config, p: Position) {
    && cfg.trackWallets && '/' in p.spotSymbol && '/' in p.perpSymbol
    && BaseAsset(p.spotSymbol) != QuoteAsset(p.spotSymbol)
  }

  /**
   * A close that fills both legs: spot quote rises by the value sold less the fee,
   * spot base falls by the quantity, futures quote falls by the value bought back
   * and the fee, each down to zero at the least, and nothing else moves.
   */
  lemma CloseIsExact(cfg: Config, fix: Fixtures, st: PaperState, p: Position, spotCoid: string, perpCoid: string)
    requires Sound(cfg) && Tracked(cfg, p)
    requires ClosesRow(Close(PaperMachine(cfg, fix), st, p, spotCoid, perpCoid).0)
    ensures var (t, end) := Close(PaperMachine(cfg, fix), st, p, spotCoid, perpCoid);
      var base, quote, margin := BaseAsset(p.spotSymbol), QuoteAsset(p.spotSymbol), QuoteAsset(p.perpSymbol);
      var sold, bought := t.spot.fill, t.perp.value.fill;
      && MovedBy(WalletIn(st.spot, quote), WalletIn(end.spot, quote), Times(p.quantity, sold.price) - sold.fee)
      && MovedBy(WalletIn(st.spot, base), WalletIn(end.spot, base), -p.quantity)
      && MovedBy(WalletIn(st.futures, margin), WalletIn(end.futures, margin),
                 -Times(p.quantity, bought.price) - bought.fee)
      && (forall asset :: asset != base && asset != quote ==> WalletIn(end.spot, asset) == WalletIn(st.spot, asset))
      && (forall asset :: asset != margin ==> WalletIn(end.futures, asset) == WalletIn(st.futures, asset))
  {
    var sold, bought := CloseSpotOrder(p, spotCoid), ClosePerpOrder(p, perpCoid);
    CloseIsTwoOrders(cfg, fix, st, p, spotCoid, perpCoid);
    PlaceIsExact(cfg, st, sold);
    PlaceIsExact(cfg, Place(cfg, st, sold).1, bought);
  }

  /**
   * A sized entry and the whole close that follows it, on books that may have moved
   * in between: the base wallet is back where it was, and the spot quote wallet has
   * moved by what was sold less what was bought and both fees.
   */
  lemma RoundTripReturnsBase(cfg: Config, fix: Fixtures, st: PaperState, inp: S.SizingInputs, e: E.EntryOrder,
                             spotFirst: bool, cfg': Config, fix': Fixtures, p: Position, spotCoid: string,
                             perpCoid: string)
    requires ReadyToPlace(cfg, st, inp, e) && MarginCovers(cfg, inp.safety) && Tracked(cfg, p)
    requires p.spotSymbol == e.spotSymbol && p.perpSymbol == e.perpSymbol && p.quantity == e.qty
    requires var base, quote := BaseAsset(e.spotSymbol), QuoteAsset(e.spotSymbol);
      && Solvent(WalletIn(st.spot, base)) && Solvent(WalletIn(st.spot, quote))
      && WalletIn(st.spot, quote).free == inp.spotFree && Solvent(WalletIn(st.futures, QuoteAsset(e.perpSymbol)))
    requires Sound(cfg') && Tracked(cfg', p) && 0.0 <= cfg'.feeBps <= 10000.0
    requires var mid := E.Enter(PaperMachine(cfg, fix), st, e, spotFirst).1;
      ClosesRow(Close(PaperMachine(cfg', fix'), mid, p, spotCoid, perpCoid).0)
    ensures var (t, mid) := E.Enter(PaperMachine(cfg, fix), st, e, spotFirst);
      var (u, end) := Close(PaperMachine(cfg', fix'), mid, p, spotCoid, perpCoid);
      var base, quote := BaseAsset(e.spotSymbol), QuoteAsset(e.spotSymbol);
      var fees := u.spot.fill.fee + t.spot.fill.fee;
      var earned := Times(e.qty, u.spot.fill.price) - Times(e.qty, t.spot.fill.price) - fees;
      && WalletIn(end.spot, base) == WalletIn(st.spot, base)
      && WalletIn(end.spot, quote) == Shifted(WalletIn(st.spot, quote), earned)
      && (forall asset :: asset != base && asset != quote ==> WalletIn(end.spot, asset) == WalletIn(st.spot, asset))
  {
    var mid := E.Enter(PaperMachine(cfg, fix), st, e, spotFirst).1;
    EntryIsExact(cfg, fix, st, inp, e, spotFirst);
    EntryPlacesBoth(cfg, fix, st, inp, e, spotFirst);
    S.EntrySizeFits(inp);
    CloseIsExact(cfg', fix', mid, p, spotCoid, perpCoid);
    DebitLeavesQuote(cfg, st, inp, e);
    CloseIsTwoOrders(cfg', fix', mid, p, spotCoid, perpCoid);
    SaleIsNotNegative(cfg', mid, CloseSpotOrder(p, spotCoid));
  }

  /** The fee on a sale is at most its value. */
  lemma SaleIsNotNegative(cfg: Config, st: PaperState, order: Order)
    requires Sound(cfg) && 0.0 <= cfg.feeBps <= 10000.0 && Place(cfg, st, order).0.accepted
    ensures var fill := Place(cfg, st, order).0; fill.fee <= Times(order.qty, fill.price)
  {
    var fill := Place(cfg, st, order).0;
    FillPricePositive(cfg, Levels(cfg.books[order.symbol], order.side), order.side, order.qty);
    ProductPositive(order.qty, fill.price);
    Scale(Times(order.qty, fill.price), Rate(cfg.feeBps), 1.0);
  }

  /** What the entry debits leaves the quote wallet at or above zero. */
  lemma DebitLeavesQuote(cfg: Config, st: PaperState, inp: S.SizingInputs, e: E.EntryOrder)
    requires ReadyToPlace(cfg, st, inp, e) && MarginCovers(cfg, inp.safety)
    requires 0.0 <= inp.spotFree
    ensures var fill := Place(cfg, st, E.SpotOrder(e)).0; Times(fill.qty, fill.price) + fill.fee <= inp.spotFree
  {
    S.EntrySizeFits(inp);
    FreshOrderFills(cfg, st, E.SpotOrder(e));
    DebitFits(cfg, inp.spotBook.asks, inp.spotFree, inp.safety, e.qty);
  }

  /**
   * From plan to wallets: an entry planned in paper mode, under unused ids, takes
   * from the quote wallet it was sized on exactly the value and the fee of its spot
   * fill, while 0.99 covers slippage and fee, and leaves it at or above zero.
   */
  lemma PlannedEntryIsExact(cfg: Config, fix: Fixtures, st: PaperState, c: Candidate, settings: Settings, q: real,
                            e: E.EntryOrder, spotFirst: bool)
    requires P.Planned(PaperMachine(cfg, fix), st, c, settings).0 == Ok(Some(q))
    requires e == E.EntryOrder(c.spotSymbol, c.perpSymbol, q, e.spotCoid, e.perpCoid)
    requires e.spotCoid !in st.seen && e.perpCoid !in st.seen && e.spotCoid != e.perpCoid
    requires c.spotSymbol in cfg.books && c.perpSymbol in cfg.books
    requires Positive(cfg.books[c.spotSymbol].asks) && Ascending(cfg.books[c.spotSymbol].asks)
    requires Positive(cfg.books[c.perpSymbol].bids) && Descending(cfg.books[c.perpSymbol].bids)
    requires 0.0 <= settings.subTarget <= 1.0 && MarginCovers(cfg, 0.99) && cfg.trackWallets
    requires '/' in c.spotSymbol && '/' in c.perpSymbol && QuoteAsset(c.spotSymbol) == c.quote
    requires BaseAsset(c.spotSymbol) != c.quote
    requires Solvent(WalletIn(st.spot, BaseAsset(c.spotSymbol))) && Solvent(WalletIn(st.spot, c.quote))
    requires Solvent(WalletIn(st.futures, QuoteAsset(c.perpSymbol)))
    ensures var (t, end) := E.Enter(PaperMachine(cfg, fix), st, e, spotFirst);
      var cost := Times(q, t.spot.fill.price) + t.spot.fill.fee;
      && t.spot.fill.accepted && t.perp.fill.accepted && t.rollback == None
      && WalletIn(end.spot, c.quote).free == WalletIn(st.spot, c.quote).free - cost >= 0.0
      && WalletIn(end.spot, BaseAsset(c.spotSymbol)) == Shifted(WalletIn(st.spot, BaseAsset(c.spotSymbol)), q)
      && FuturesMoved(st.futures, end.futures, c.perpSymbol, t.perp.fill)
  {
    var inp := PlanIsSized(cfg, fix, st, c, settings, q);
    EntryIsExact(cfg, fix, st, inp, e, spotFirst);
    EntryPlacesBoth(cfg, fix, st, inp, e, spotFirst);
    PlaceAnswersTheOrder(cfg, st, E.SpotOrder(e));
    DebitLeavesQuote(cfg, st, inp, e);
  }

  // ----- a rollback -----

  /** Enough on the side of the book that takes the filled leg back. */
  predicate CanTakeBack(cfg: Config, filled: Fill) {
    && filled.order.symbol in cfg.books
    && var book := cfg.books[filled.order.symbol];
    if filled.order.side == Buy then filled.qty <= Depth(book.bids, |book.bids|)
    else filled.qty <= Depth(book.asks, |book.asks|)
  }

  /** Both legs, and after a lone one the rollback, as the synthetic gateway answers them. */
  lemma PaperEntryIsPlaced(cfg: Config, fix: Fixtures, st: PaperState, e: E.EntryOrder, spotFirst: bool)
    requires Sound(cfg)
    ensures var (t, end) := E.Enter(PaperMachine(cfg, fix), st, e, spotFirst);
      && t.spot.seen == t.perp.seen == G.Answered && (t.rollback.Some? ==> t.rollback.value.seen == G.Answered)
      && (t.rollback.Some? ==>
            exists st2: PaperState ::
              st2.seen == st.seen + {e.spotCoid, e.perpCoid}
              && t.rollback.value.fill == Place(cfg, st2, E.RollbackOrder(E.FilledLeg(t.spot, t.perp))).0)
  {
    var machine := PaperMachine(cfg, fix);
    var first := if spotFirst then E.SpotOrder(e) else E.PerpOrder(e);
    var second := if spotFirst then E.PerpOrder(e) else E.SpotOrder(e);
    PaperAnswersInTime(cfg, fix, st, first);
    PaperAnswersInTime(cfg, fix, Place(cfg, st, first).1, second);
    PlaceAnswersTheOrder(cfg, st, first);
    PlaceAnswersTheOrder(cfg, Place(cfg, st, first).1, second);
    var (spot, perp, st2) := E.CallLegs(machine, st, e, spotFirst);
    PaperAnswersInTime(cfg, fix, st2, E.RollbackOrder(E.FilledLeg(spot, perp)));
    assert st2.seen == st.seen + {e.spotCoid, e.perpCoid};
  }

  /** With every call answered, a lone leg is recovered exactly when its rollback was filled. */
  lemma AnsweredRollback(e: E.EntryOrder, t: E.Trace)
    requires E.AnswersEntry(e, t) && t.spot.seen == t.perp.seen == G.Answered
    requires t.spot.fill.accepted != t.perp.fill.accepted
    requires t.rollback.Some? && t.rollback.value.seen == G.Answered
    ensures E.Verdict(t).Some?
    ensures E.Verdict(t).value.outcome == if t.rollback.value.fill.accepted then E.OrphanRecovered else E.OrphanNaked
    ensures E.FilledLeg(t.spot, t.perp) == if t.spot.fill.accepted then t.spot.fill else t.perp.fill
  {
  }

  /** A rollback is filled exactly under a new id and where the other side of the book covers it. */
  lemma RollbackFillsIff(cfg: Config, st: PaperState, filled: Fill)
    requires 0.0 < filled.qty
    ensures var order := E.RollbackOrder(filled);
      Place(cfg, st, order).0.accepted <==> order.coid !in st.seen && CanTakeBack(cfg, filled)
  {
    PlaceAcceptsIff(cfg, st, E.RollbackOrder(filled));
  }

  /**
   * On the synthetic gateway a lone leg of a planned entry ends recovered exactly
   * when its rollback id has not been used before and the opposite side of its book
   * covers the quantity; otherwise it ends naked.
   */
  lemma LoneLegIsRecoveredIff(cfg: Config, fix: Fixtures, st: PaperState, c: Candidate, qty: real, cycle: string,
                              digest: Digest, inUse: set<string>, spotFirst: bool)
    requires Sound(cfg) && 0.0 < qty
    requires var spot, perp := Entry(cycle, c.spotSymbol, Spot, Buy), Entry(cycle, c.perpSymbol, Futures, Sell);
      Faithful(digest, inUse) && Hashed(spot) <= inUse && Hashed(perp) <= inUse && PipeFree(spot) && PipeFree(perp)
    ensures var t := E.Enter(PaperMachine(cfg, fix), st, P.EntryFor(c, qty, cycle, digest), spotFirst).0;
      t.spot.fill.accepted != t.perp.fill.accepted ==>
        var filled := if t.spot.fill.accepted then t.spot.fill else t.perp.fill;
        var id := IdFor(digest, Rollback(cycle, filled.order.symbol, filled.order.leg, filled.order.side));
        && E.Verdict(t).Some?
        && (E.Verdict(t).value.outcome == E.OrphanRecovered <==> id !in st.seen && CanTakeBack(cfg, filled))
        && (E.Verdict(t).value.outcome == E.OrphanRecovered || E.Verdict(t).value.outcome == E.OrphanNaked)
  {
    var e := P.EntryFor(c, qty, cycle, digest);
    var t := E.Enter(PaperMachine(cfg, fix), st, e, spotFirst).0;
    PaperEntryIsPlaced(cfg, fix, st, e, spotFirst);
    E.EntryIsAnswered(PaperMachine(cfg, fix), st, e, spotFirst);
    I.RollbackCarriesItsId(PaperMachine(cfg, fix), st, c, qty, cycle, digest, inUse, spotFirst);
    if t.spot.fill.accepted != t.perp.fill.accepted {
      var order := E.RollbackOrder(E.FilledLeg(t.spot, t.perp));
      var st2: PaperState :| st2.seen == st.seen + {e.spotCoid, e.perpCoid}
                             && t.rollback.value.fill == Place(cfg, st2, order).0;
      AnsweredRollback(e, t);
      RollbackFillsIff(cfg, st2, E.FilledLeg(t.spot, t.perp));
    }
  }
}

// Which client order id each order of the loop goes out under.
module OrderIds {
  import opened Domain
  import opened Lifecycle
  import opened Positions
  import opened Gateways
  import opened Executor
  import opened ClientOrderIds
  import opened Scan
  import opened Accounts
  import opened Recovery
  import P = EntryPlan

  /** The id of an order, made from its own symbol, leg and side under a cycle id. */
  predicate Carries(digest: Digest, order: Order, cycle: string) {
    order.coid == IdFor(digest, Entry(cycle, order.symbol, order.leg, order.side))
  }

  /** Both legs of an entry go out under the entry ids of the cycle, each made from its own symbol, leg and side. */
  lemma EntryOrdersCarryTheirIds(c: Candidate, qty: real, cycle: string, digest: Digest)
    ensures var e := P.EntryFor(c, qty, cycle, digest);
      && Carries(digest, SpotOrder(e), cycle) && Carries(digest, PerpOrder(e), cycle)
      && SpotOrder(e).(coid := "") == Order(c.spotSymbol, Spot, Buy, qty, "")
      && PerpOrder(e).(coid := "") == Order(c.perpSymbol, Futures, Sell, qty, "")
  {
  }

  /**
   * After a lone leg the order sent is the rollback of that very leg: the same
   * symbol, leg and quantity, the other side, under the rollback id of the leg's own
   * use. With a collision-free digest that id is neither of the two entry ids.
   */
  lemma RollbackCarriesItsId<S>(machine: Machine<S>, s: S, c: Candidate, qty: real, cycle: string, digest: Digest,
                                inUse: set<string>, spotFirst: bool)
    requires var spot, perp := Entry(cycle, c.spotSymbol, Spot, Buy), Entry(cycle, c.perpSymbol, Futures, Sell);
      Faithful(digest, inUse) && Hashed(spot) <= inUse && Hashed(perp) <= inUse && PipeFree(spot) && PipeFree(perp)
    ensures var e := P.EntryFor(c, qty, cycle, digest);
      var t := Enter(machine, s, e, spotFirst).0;
      t.rollback.Some? ==>
        var sent := t.rollback.value.fill.order;
        && (if Observed(t.spot).accepted then
              sent == Order(c.spotSymbol, Spot, Sell, qty, IdFor(digest, Rollback(cycle, c.spotSymbol, Spot, Buy)))
            else
              sent == Order(c.perpSymbol, Futures, Buy, qty,
                            IdFor(digest, Rollback(cycle, c.perpSymbol, Futures, Sell))))
        && sent.coid != e.spotCoid && sent.coid != e.perpCoid
  {
    EntryIsAnswered(machine, s, P.EntryFor(c, qty, cycle, digest), spotFirst);
    RollbackIdsAreNew(c, cycle, digest, inUse);
  }

  lemma RollbackIdsAreNew(c: Candidate, cycle: string, digest: Digest, inUse: set<string>)
    requires var spot, perp := Entry(cycle, c.spotSymbol, Spot, Buy), Entry(cycle, c.perpSymbol, Futures, Sell);
      Faithful(digest, inUse) && Hashed(spot) <= inUse && Hashed(perp) <= inUse && PipeFree(spot) && PipeFree(perp)
    ensures var spotId := IdFor(digest, Entry(cycle, c.spotSymbol, Spot, Buy));
      var perpId := IdFor(digest, Entry(cycle, c.perpSymbol, Futures, Sell));
      var spotBack := IdFor(digest, Rollback(cycle, c.spotSymbol, Spot, Buy));
      var perpBack := IdFor(digest, Rollback(cycle, c.perpSymbol, Futures, Sell));
      spotId != perpId && spotBack !in {spotId, perpId} && perpBack !in {spotId, perpId}
  {
    Namespace(digest, inUse, Entry(cycle, c.spotSymbol, Spot, Buy));
    Namespace(digest, inUse, Entry(cycle, c.perpSymbol, Futures, Sell));
    Namespace(digest, inUse, Rollback(cycle, c.spotSymbol, Spot, Buy));
    Namespace(digest, inUse, Rollback(cycle, c.perpSymbol, Futures, Sell));
    if IdFor(digest, Entry(cycle, c.spotSymbol, Spot, Buy))
        == IdFor(digest, Entry(cycle, c.perpSymbol, Futures, Sell)) {
      IdsAreUnique(digest, inUse, Entry(cycle, c.spotSymbol, Spot, Buy), Entry(cycle, c.perpSymbol, Futures, Sell));
    }
  }

  /** Hedge and close-out ids name the row and the leg the order trades, and the two orders trade different legs. */
  lemma RecoveryOrdersCarryTheirIds(p: Position, id: nat, qty: real, digest: Digest)
    requires IsNaked(p.status)
    ensures var hedge := HedgeOrder(p, qty, HedgeId(p, id, digest));
      var unwind := UnwindOrder(p, qty, UnwindId(p, id, digest));
      && hedge.coid == IdFor(digest, Hedge(id, hedge.leg)) && unwind.coid == IdFor(digest, CloseOut(id, unwind.leg))
      && hedge.leg != unwind.leg && (unwind.leg == Spot <==> p.status == NakedSpot)
      && hedge.symbol == (if hedge.leg == Spot then p.spotSymbol else p.perpSymbol)
      && unwind.symbol == (if unwind.leg == Spot then p.spotSymbol else p.perpSymbol)
  {
  }
}

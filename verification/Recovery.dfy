// Hedge or close: what Phase A makes of a naked row (loop/cycle.py).
module Recovery {
  import opened RealArith
  import opened Domain
  import opened Lifecycle
  import opened Positions
  import opened Gateways
  import opened ClientOrderIds

  /** The missing leg, opened against the surviving one. */
  function HedgeOrder(p: Position, qty: real, coid: string): Order {
    if p.status == NakedSpot then Order(p.perpSymbol, Futures, Sell, qty, coid)
    else Order(p.spotSymbol, Spot, Buy, qty, coid)
  }

  /** The surviving leg, taken back. */
  function UnwindOrder(p: Position, qty: real, coid: string): Order {
    if p.status == NakedSpot then Order(p.spotSymbol, Spot, Sell, qty, coid)
    else Order(p.perpSymbol, Futures, Buy, qty, coid)
  }

  function HedgeId(p: Position, id: nat, digest: Digest): string {
    IdFor(digest, Hedge(id, if p.status == NakedSpot then Futures else Spot))
  }

  function UnwindId(p: Position, id: nat, digest: Digest): string {
    IdFor(digest, CloseOut(id, if p.status == NakedSpot then Spot else Futures))
  }

  /** What was held of the surviving leg, and the answers of the orders that were sent. */
  datatype RecoveryTrace = RecoveryTrace(held: real, hedge: Option<Answer>, unwind: Option<Answer>)

  /** Without a hedge, or after one reported as refused, the surviving leg is taken back. */
  predicate Declined(hedge: Option<Answer>) {
    hedge.None? || (hedge.value.seen != Threw && !Reported(hedge.value).accepted)
  }

  function Recover<S>(machine: Machine<S>, s: S, p: Position, held: real, profitable: bool, hedgeId: string,
                      unwindId: string)
    : (RecoveryTrace, S)
  {
    var qty := Min(held, p.quantity);
    if qty <= 0.0 then (RecoveryTrace(held, None, None), s)
    else if profitable then
      var (a, s1) := CallOrder(machine, s, HedgeOrder(p, qty, hedgeId));
      if Declined(Some(a)) then Unwound(machine, s1, p, held, Some(a), unwindId)
      else (RecoveryTrace(held, Some(a), None), s1)
    else Unwound(machine, s, p, held, None, unwindId)
  }

  function Unwound<S>(machine: Machine<S>, s: S, p: Position, held: real, hedge: Option<Answer>, unwindId: string)
    : (RecoveryTrace, S)
  {
    var (b, s') := CallOrder(machine, s, UnwindOrder(p, Min(held, p.quantity), unwindId));
    (RecoveryTrace(held, hedge, Some(b)), s')
  }

  /**
   * What a recovery sends: nothing when nothing is held; a hedge of what is held, up
   * to the row's quantity, when that pays; and the surviving leg taken back when it
   * does not, or when the hedge came back and was not reported filled.
   */
  lemma RecoverySends<S>(machine: Machine<S>, s: S, p: Position, held: real, profitable: bool, hedgeId: string,
                         unwindId: string)
    ensures var t := Recover(machine, s, p, held, profitable, hedgeId, unwindId).0;
      var qty := if held <= p.quantity then held else p.quantity;
      && (t.hedge.Some? <==> 0.0 < qty && profitable)
      && (t.unwind.Some?
          <==> 0.0 < qty && (!profitable || (t.hedge.value.seen != Threw && !Reported(t.hedge.value).accepted)))
      && (t.hedge.Some? ==> t.hedge.value == CallOrder(machine, s, HedgeOrder(p, qty, hedgeId)).0)
      && (t.unwind.Some? && !profitable ==> t.unwind.value == CallOrder(machine, s, UnwindOrder(p, qty, unwindId)).0)
  {
  }

  predicate AnswersRecovery(p: Position, t: RecoveryTrace) {
    var qty := Min(t.held, p.quantity);
    && (t.hedge.Some?
        ==> 0.0 < qty && AllOrNothing(HedgeOrder(p, qty, t.hedge.value.fill.order.coid), t.hedge.value.fill))
    && (t.unwind.Some? ==> AllOrNothing(UnwindOrder(p, qty, t.unwind.value.fill.order.coid), t.unwind.value.fill))
    && (t.unwind.Some? <==> 0.0 < qty && Declined(t.hedge))
  }

  lemma RecoveryIsAnswered<S>(machine: Machine<S>, s: S, p: Position, held: real, profitable: bool, hedgeId: string,
                              unwindId: string)
    ensures AnswersRecovery(p, Recover(machine, s, p, held, profitable, hedgeId, unwindId).0)
  {
  }

  function ExecutedIf(answer: Option<Answer>): seq<Fill> {
    match answer case None => [] case Some(a) => Executed(a)
  }

  function RecoveryExecuted(t: RecoveryTrace): seq<Fill> {
    ExecutedIf(t.hedge) + ExecutedIf(t.unwind)
  }

  predicate Lost(answer: Option<Answer>) {
    answer.Some? && answer.value.seen == Threw
  }

  predicate RecoveryRaised(t: RecoveryTrace) {
    Lost(t.hedge) || Lost(t.unwind)
  }

  function NothingLeft(status: Status): string {
    if status == NakedSpot then "naked_spot_zero_balance" else "naked_perp_zero_position"
  }

  const FAILED_PREFIX: string := "recover_failed:"

  /** The row once its missing leg has been filled; rescuing spot also takes over the funding terms. */
  function Hedged(p: Position, fill: Fill, funding: FundingInfo): Position {
    if p.status == NakedSpot then
      p.(status := Open, perpEntryPrice := fill.price, entryFundingRate := funding.predictedRate,
         lastFundingRate := funding.predictedRate, windows := funding.windows)
    else p.(status := Open, spotEntryPrice := fill.price)
  }

  function RowAfterRecovery(p: Position, now: int, funding: FundingInfo, t: RecoveryTrace): Position {
    if RecoveryRaised(t) then p
    else if !Declined(t.hedge) then Hedged(p, t.hedge.value.fill, funding)
    else match t.unwind
      case None => ClosedRow(p, now, NothingLeft(p.status))
      case Some(b) =>
        if Reported(b).accepted then ClosedRow(p, now, "") else p.(lastCloseError := FAILED_PREFIX + Reported(b).error)
  }

  /** The trade of the one order that was reported filled. */
  function RecoveryTrades(id: nat, t: RecoveryTrace): seq<Trade> {
    if RecoveryRaised(t) then []
    else if !Declined(t.hedge) then [TradeOf(id, t.hedge.value.fill)]
    else if t.unwind.Some? && Reported(t.unwind.value).accepted then [TradeOf(id, t.unwind.value.fill)]
    else []
  }

  /** The status the row is left with. */
  function StatusAfterRecovery(p: Position, t: RecoveryTrace): Status {
    if RecoveryRaised(t) then p.status
    else if !Declined(t.hedge) then Open
    else if t.unwind.None? || Reported(t.unwind.value).accepted then Closed
    else p.status
  }

  /** Closed, whole again, or marked: no naked row is left unexplained. */
  ghost predicate DealtWith(q: Position) {
    IsExposed(q.status) ==> q.status == Open || ErrorBegins(q, FAILED_PREFIX)
  }

  lemma RecoveryDealsWith(p: Position, now: int, funding: FundingInfo, t: RecoveryTrace)
    requires IsNaked(p.status) && AnswersRecovery(p, t) && !RecoveryRaised(t)
    ensures DealtWith(RowAfterRecovery(p, now, funding, t))
  {
  }

  /** One fill in full of this order. */
  predicate FilledOnce(fills: seq<Fill>, order: Order) {
    |fills| == 1 && fills[0].accepted && AllOrNothing(order, fills[0])
  }

  /** Executed, but reported as refused. */
  function Hidden(answer: Option<Answer>): seq<Fill> {
    if answer.Some? && answer.value.seen == Denied then Executed(answer.value) else []
  }

  /**
   * What the end of a recovery says: a row that is OPEN has had exactly its missing
   * leg filled, at the price it records; a closed one has had its surviving leg
   * taken back, unless nothing was left; one that stays naked is marked. Beyond that
   * the venue executed nothing but what it reported as refused. The quantity is what
   * was held, up to the row's own.
   */
  lemma RecoveryMeaning(p: Position, now: int, funding: FundingInfo, t: RecoveryTrace)
    requires RowOk(p) && IsNaked(p.status) && AnswersRecovery(p, t)
    ensures var q := RowAfterRecovery(p, now, funding, t);
      RowOk(q) && SameIdentity(p, q) && q.status == StatusAfterRecovery(p, t) && (!RecoveryRaised(t) ==> DealtWith(q))
    ensures var q, qty, fills := RowAfterRecovery(p, now, funding, t), Min(t.held, p.quantity), RecoveryExecuted(t);
      RecoveryRaised(t) ||
      match q.status
      case Open =>
        && t.hedge.Some? && FilledOnce(fills, HedgeOrder(p, qty, t.hedge.value.fill.order.coid))
        && (if p.status == NakedSpot then
              q == p.(status := Open, perpEntryPrice := fills[0].price, entryFundingRate := funding.predictedRate,
                      lastFundingRate := funding.predictedRate, windows := funding.windows)
            else q == p.(status := Open, spotEntryPrice := fills[0].price))
      case Closed =>
        if qty <= 0.0 then
          fills == [] && q.lastCloseError == if p.status == NakedSpot then "naked_spot_zero_balance"
                                             else "naked_perp_zero_position"
        else
          && t.unwind.Some? && FilledOnce(ExecutedIf(t.unwind), UnwindOrder(p, qty, t.unwind.value.fill.order.coid))
          && fills == Hidden(t.hedge) + ExecutedIf(t.unwind)
      case _ => fills == Hidden(t.hedge) + Hidden(t.unwind) && ErrorBegins(q, FAILED_PREFIX)
  {
  }

  // ----- row and venue -----

  /** A status change for the whole quantity after no hidden hedge, or nothing happened. */
  predicate RecoveryFaithful(p: Position, t: RecoveryTrace) {
    if StatusAfterRecovery(p, t) != p.status then
      p.quantity <= t.held && (Declined(t.hedge) ==> ExecutedIf(t.hedge) == [])
    else RecoveryExecuted(t) == []
  }

  function NetIf(answer: Option<Answer>, leg: Leg, symbol: string): real {
    match answer case None => 0.0 case Some(a) => SignedOn(a.fill, leg, symbol)
  }

  lemma NetOfRecovery(t: RecoveryTrace, leg: Leg, symbol: string)
    ensures Net(RecoveryExecuted(t), leg, symbol) == NetIf(t.hedge, leg, symbol) + NetIf(t.unwind, leg, symbol)
  {
    NetAdds(ExecutedIf(t.hedge), ExecutedIf(t.unwind), leg, symbol);
    if t.hedge.Some? {
      NetOfAnswer(t.hedge.value, leg, symbol);
    }
    if t.unwind.Some? {
      NetOfAnswer(t.unwind.value, leg, symbol);
    }
  }

  /** On any leg, in plain numbers: what an executed hedge opens, and what an executed unwind takes back. */
  lemma RecoveryInNumbers(p: Position, t: RecoveryTrace, leg: Leg, symbol: string)
    requires IsNaked(p.status) && AnswersRecovery(p, t)
    ensures var qty := Min(t.held, p.quantity);
      var spotLeg, perpLeg := leg == Spot && symbol == p.spotSymbol, leg == Futures && symbol == p.perpSymbol;
      && NetIf(t.hedge, leg, symbol)
         == (if ExecutedIf(t.hedge) == [] then 0.0
             else if p.status == NakedSpot then (if perpLeg then -qty else 0.0) else if spotLeg then qty else 0.0)
      && NetIf(t.unwind, leg, symbol)
         == (if ExecutedIf(t.unwind) == [] then 0.0
             else if p.status == NakedSpot then (if spotLeg then -qty else 0.0) else if perpLeg then qty else 0.0)
  {
  }

  /** What the recovery left at the venue beyond what the row was made to say. */
  function RecoveryGap(p: Position, t: RecoveryTrace, leg: Leg, symbol: string): real {
    Net(RecoveryExecuted(t), leg, symbol)
    - (RowExposure(p.(status := StatusAfterRecovery(p, t)), leg, symbol) - RowExposure(p, leg, symbol))
  }

  lemma FaithfulLeavesNoGap(p: Position, t: RecoveryTrace, leg: Leg, symbol: string)
    requires IsNaked(p.status) && 0.0 < p.quantity && AnswersRecovery(p, t) && RecoveryFaithful(p, t)
    ensures RecoveryGap(p, t, leg, symbol) == 0.0
  {
    NetOfRecovery(t, leg, symbol);
    RecoveryInNumbers(p, t, leg, symbol);
  }

  lemma UnfaithfulLeavesAGap(p: Position, t: RecoveryTrace)
    requires IsNaked(p.status) && 0.0 < p.quantity && AnswersRecovery(p, t) && !RecoveryFaithful(p, t)
    ensures RecoveryGap(p, t, Spot, p.spotSymbol) != 0.0 || RecoveryGap(p, t, Futures, p.perpSymbol) != 0.0
  {
    NetOfRecovery(t, Spot, p.spotSymbol);
    NetOfRecovery(t, Futures, p.perpSymbol);
    RecoveryInNumbers(p, t, Spot, p.spotSymbol);
    RecoveryInNumbers(p, t, Futures, p.perpSymbol);
  }

  /**
   * A recovery that changes the row's status keeps row and venue together exactly
   * when the venue still showed the whole quantity (the row's quantity is never
   * reduced to what was there) and no hedge it took for refused was executed. Any
   * other does exactly when nothing was executed.
   */
  lemma RecoveryFaithfulIff(p: Position, t: RecoveryTrace)
    requires IsNaked(p.status) && 0.0 < p.quantity && AnswersRecovery(p, t)
    ensures (forall leg, symbol :: RecoveryGap(p, t, leg, symbol) == 0.0) <==> RecoveryFaithful(p, t)
  {
    if RecoveryFaithful(p, t) {
      forall leg, symbol
        ensures RecoveryGap(p, t, leg, symbol) == 0.0
      {
        FaithfulLeavesNoGap(p, t, leg, symbol);
      }
    } else {
      UnfaithfulLeavesAGap(p, t);
    }
  }

  // ----- on a venue that refuses repeated ids -----

  /** The ids of the orders a recovery sent are spent afterwards. */
  lemma RecoverySpends<S(!new)>(machine: Machine<S>, used: S -> set<string>, s: S,
                                p: Position, held: real, profitable: bool, hedgeId: string, unwindId: string)
    requires RefusesRepeats(machine, used)
    ensures var (t, s') := Recover(machine, s, p, held, profitable, hedgeId, unwindId);
      (t.hedge.Some? ==> hedgeId in used(s')) && (t.unwind.Some? ==> unwindId in used(s'))
  {
    var hedge := HedgeOrder(p, Min(held, p.quantity), hedgeId);
    var s1 := if profitable then CallOrder(machine, s, hedge).1 else s;
    assert profitable ==> hedge.coid in used(s1);
    var unwind := UnwindOrder(p, Min(held, p.quantity), unwindId);
    assert unwind.coid in used(CallOrder(machine, s1, unwind).1);
    assert used(s1) <= used(machine(s1, PlaceOrder(unwind)).1);
  }

  lemma SpentRecovery<S(!new)>(machine: Machine<S>, used: S -> set<string>, s: S,
                               p: Position, held: real, profitable: bool, hedgeId: string, unwindId: string)
    requires RefusesRepeats(machine, used)
    ensures var t := Recover(machine, s, p, held, profitable, hedgeId, unwindId).0;
      && (hedgeId in used(s) ==> ExecutedIf(t.hedge) == [])
      && (unwindId in used(s) ==> ExecutedIf(t.unwind) == [])
  {
    var hedge := HedgeOrder(p, Min(held, p.quantity), hedgeId);
    var s1 := if profitable then CallOrder(machine, s, hedge).1 else s;
    assert used(s) <= used(machine(s, PlaceOrder(hedge)).1);
    assert hedge.coid in used(s) ==> !CallOrder(machine, s, hedge).0.fill.accepted;
    var unwind := UnwindOrder(p, Min(held, p.quantity), unwindId);
    assert unwind.coid in used(s1) ==> !CallOrder(machine, s1, unwind).0.fill.accepted;
  }

  /**
   * Hedge and close-out ids depend on the row and its status alone. On a venue that
   * refuses repeated ids, whatever was asked or ordered in between, an order that one
   * recovery sent is never executed for a later one; a row whose recovery was refused
   * both ways stays naked for as long as the venue shows anything of it.
   */
  lemma RecoveryTriesOnce<S(!new)>(machine: Machine<S>, used: S -> set<string>, s: S, id: nat, digest: Digest,
                                   p: Position, held: real, profitable: bool, others: seq<Request>,
                                   q: Position, held': real, profitable': bool)
    requires RefusesRepeats(machine, used) && IsNaked(p.status) && q.status == p.status
    ensures var (t, s1) := Recover(machine, s, p, held, profitable, HedgeId(p, id, digest), UnwindId(p, id, digest));
      var t' := Recover(machine, Served(machine, s1, others), q, held', profitable',
                        HedgeId(q, id, digest), UnwindId(q, id, digest)).0;
      && (t.hedge.Some? ==> ExecutedIf(t'.hedge) == [])
      && (t.unwind.Some? ==> ExecutedIf(t'.unwind) == [])
      && (t.unwind.Some? && (t'.hedge.Some? ==> t.hedge.Some?) && 0.0 < Min(held', q.quantity)
          ==> RecoveryExecuted(t') == [] && StatusAfterRecovery(q, t') == q.status)
  {
    var hedgeId, unwindId := HedgeId(p, id, digest), UnwindId(p, id, digest);
    var s1 := Recover(machine, s, p, held, profitable, hedgeId, unwindId).1;
    RecoverySpends(machine, used, s, p, held, profitable, hedgeId, unwindId);
    SpentStays(machine, used, s1, others);
    SpentRecovery(machine, used, Served(machine, s1, others), q, held', profitable', hedgeId, unwindId);
  }
}

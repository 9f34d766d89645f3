// What a cycle keeps true of the tables and the venue, as an invariant on values,
// and the two operations of the cycle that send orders for whole positions.
module Accounts {
  import opened Domain
  import opened Lifecycle
  import opened Positions
  import opened Gateways
  import opened Executor
  import opened Recovery
  import opened Sightings

  datatype Worker = Worker(mode: Mode, exchange: string)

  // ----- a close: spot sold, then perp bought back -----

  function CloseSpotOrder(p: Position, coid: string): Order {
    Order(p.spotSymbol, Spot, Sell, p.quantity, coid)
  }

  function ClosePerpOrder(p: Position, coid: string): Order {
    Order(p.perpSymbol, Futures, Buy, p.quantity, coid)
  }

  /** The answers of one close; the perp is not tried when the spot call raised. */
  datatype CloseTrace = CloseTrace(spot: Answer, perp: Option<Answer>)

  function Close<S>(machine: Machine<S>, s: S, p: Position, spotCoid: string, perpCoid: string): (CloseTrace, S) {
    var (spot, s1) := CallOrder(machine, s, CloseSpotOrder(p, spotCoid));
    if spot.seen == Threw then (CloseTrace(spot, None), s1)
    else
      var (perp, s2) := CallOrder(machine, s1, ClosePerpOrder(p, perpCoid));
      (CloseTrace(spot, Some(perp)), s2)
  }

  predicate AnswersClose(p: Position, t: CloseTrace) {
    && AllOrNothing(CloseSpotOrder(p, t.spot.fill.order.coid), t.spot.fill)
    && (t.perp.Some? ==> AllOrNothing(ClosePerpOrder(p, t.perp.value.fill.order.coid), t.perp.value.fill))
  }

  function CloseExecuted(t: CloseTrace): seq<Fill> {
    Executed(t.spot) + match t.perp case None => [] case Some(a) => Executed(a)
  }

  predicate CloseRaised(t: CloseTrace) {
    t.perp.None? || t.perp.value.seen == Threw
  }

  predicate ClosesRow(t: CloseTrace) {
    !CloseRaised(t) && Reported(t.spot).accepted && Reported(t.perp.value).accepted
  }

  const CLOSE_FAILED: string := "close_failed:"

  function RowAfterClose(p: Position, now: int, t: CloseTrace): Position {
    if CloseRaised(t) then p
    else if ClosesRow(t) then ClosedRow(p, now, "")
    else p.(lastCloseError := CLOSE_FAILED
        + ("spot=" + Reported(t.spot).error + ",perp=" + Reported(t.perp.value).error))
  }

  ghost predicate MarkedOrClosed(p: Position) {
    IsExposed(p.status) ==> ErrorBegins(p, CLOSE_FAILED)
  }

  lemma CloseMarks(p: Position, now: int, t: CloseTrace)
    requires !CloseRaised(t)
    ensures MarkedOrClosed(RowAfterClose(p, now, t))
  {
  }

  function CloseTrades(id: nat, t: CloseTrace): seq<Trade> {
    if ClosesRow(t) then [TradeOf(id, t.spot.fill)] + [TradeOf(id, t.perp.value.fill)] else []
  }

  /** A whole position was closed whole, or nothing happened. */
  predicate CloseFaithful(p: Position, t: CloseTrace) {
    if ClosesRow(t) then p.status == Open else CloseExecuted(t) == []
  }

  // ----- an entry -----

  /** The row an entry inserts for the result it has seen. */
  function RowFor(template: Position, result: Option<EntryResult>): Option<Position> {
    match result
    case None => None
    case Some(r) =>
      match r.outcome
      case Success =>
        Some(template.(status := Open, quantity := r.spotFill.qty, spotEntryPrice := r.spotFill.price,
          perpEntryPrice := r.perpFill.price))
      case OrphanNaked =>
        var f := Survivor(r);
        if f.order.leg == Spot then
          Some(template.(status := NakedSpot, quantity := f.qty, spotEntryPrice := f.price, perpEntryPrice := 0.0))
        else Some(template.(status := NakedPerp, quantity := f.qty, spotEntryPrice := 0.0, perpEntryPrice := f.price))
      case _ => None
  }

  /** An orphan writes no trades. */
  function EntryTrades(id: nat, result: Option<EntryResult>): seq<Trade> {
    if result.Some? && result.value.outcome == Success
    then [TradeOf(id, result.value.spotFill)] + [TradeOf(id, result.value.perpFill)] else []
  }

  /** A fresh row of this worker for the symbols being entered. */
  predicate TemplateFor(w: Worker, e: EntryOrder, template: Position) {
    && OwnedBy(template, w.mode, w.exchange) && template.closedAt == None
    && template.spotSymbol == e.spotSymbol && template.perpSymbol == e.perpSymbol
  }

  // ----- the state of the books -----

  /**
   * An operation after which the rows no longer say what the venue holds, a row restated
   * by what the venue showed, or the fills of a cycle whose session was rolled back.
   */
  datatype Incident =
    | LostEntry(entry: EntryOrder, spotFirst: bool, trace: Trace)
    | LostClose(position: Position, closing: CloseTrace)
    | LostRecovery(naked: Position, recovery: RecoveryTrace)
    | Restated(claimed: Position, status: Status, seen: seq<Reply>)
    | LostSession(fills: seq<Fill>)

  /** Both tables, everything the venue has executed, and the incidents so far. */
  datatype Snapshot = Snapshot(rows: seq<Position>, trades: seq<Trade>, executed: seq<Fill>, incidents: seq<Incident>)

  /** Row i becomes q, with these trades and fills, and an incident unless all is faithful. */
  function Booked(a: Snapshot, i: nat, q: Position, trades: seq<Trade>, fills: seq<Fill>, inc: Incident,
                  faithful: bool): Snapshot
    requires i < |a.rows|
  {
    Snapshot(a.rows[i := q], a.trades + trades, a.executed + fills,
             if faithful then a.incidents else a.incidents + [inc])
  }

  function AfterClose(a: Snapshot, i: nat, now: int, t: CloseTrace): Snapshot
    requires i < |a.rows|
  {
    var p := a.rows[i];
    Booked(a, i, RowAfterClose(p, now, t), CloseTrades(i, t), CloseExecuted(t), LostClose(p, t), CloseFaithful(p, t))
  }

  function AfterRecovery(a: Snapshot, i: nat, now: int, funding: FundingInfo, t: RecoveryTrace): Snapshot
    requires i < |a.rows|
  {
    var p := a.rows[i];
    Booked(a, i, RowAfterRecovery(p, now, funding, t), RecoveryTrades(i, t), RecoveryExecuted(t),
           LostRecovery(p, t), RecoveryFaithful(p, t))
  }

  /** The row restated as q on the strength of these replies; no order is sent. */
  function AfterRestating(a: Snapshot, i: nat, q: Position, seen: seq<Reply>): Snapshot
    requires i < |a.rows|
  {
    Booked(a, i, q, [], [], Restated(a.rows[i], q.status, seen), q.status == a.rows[i].status)
  }

  function AfterEntry(a: Snapshot, template: Position, e: EntryOrder, spotFirst: bool, t: Trace): Snapshot {
    Snapshot(match RowFor(template, Verdict(t)) case None => a.rows case Some(row) => a.rows + [row],
             a.trades + EntryTrades(|a.rows|, Verdict(t)), a.executed + ExecutedIn(spotFirst, t),
             if Witnessed(t) then a.incidents else a.incidents + [LostEntry(e, spotFirst, t)])
  }

  /** Fills that leave every leg of every symbol where it was. */
  ghost predicate Offsetting(fills: seq<Fill>) {
    forall leg, symbol :: Net(fills, leg, symbol) == 0.0
  }

  /** The tables and incidents of before; what was executed stays executed. */
  ghost function AfterRollback(a: Snapshot, fills: seq<Fill>): Snapshot {
    a.(executed := a.executed + fills,
       incidents := if Offsetting(fills) then a.incidents else a.incidents + [LostSession(fills)])
  }

  /** What the row claims on a leg once the close is over. */
  function ClaimAfterClose(p: Position, t: CloseTrace, leg: Leg, symbol: string): real {
    if ClosesRow(t) then 0.0 else RowExposure(p, leg, symbol)
  }

  /** What an incident left at the venue beyond what the rows were made to say. */
  function Unclaimed(inc: Incident, leg: Leg, symbol: string): real {
    match inc
    case LostEntry(_, spotFirst, t) => Net(ExecutedIn(spotFirst, t), leg, symbol) - Claimed(Verdict(t), leg, symbol)
    case LostClose(p, t) =>
      Net(CloseExecuted(t), leg, symbol) - (ClaimAfterClose(p, t, leg, symbol) - RowExposure(p, leg, symbol))
    case LostRecovery(p, t) => RecoveryGap(p, t, leg, symbol)
    case Restated(p, status, _) => RowExposure(p, leg, symbol) - RowExposure(p.(status := status), leg, symbol)
    case LostSession(fills) => Net(fills, leg, symbol)
  }

  function Missed(incidents: seq<Incident>, leg: Leg, symbol: string): real {
    if incidents == [] then 0.0
    else Missed(incidents[..|incidents| - 1], leg, symbol) + Unclaimed(incidents[|incidents| - 1], leg, symbol)
  }

  /** What the venue holds is what the worker's rows claim plus what the incidents left. */
  ghost predicate Accounted(s: Snapshot, w: Worker) {
    forall leg, symbol ::
      Net(s.executed, leg, symbol) == RowNet(s.rows, w.mode, w.exchange, leg, symbol) + Missed(s.incidents, leg, symbol)
  }

  ghost predicate AllIn(fills: seq<Fill>, executed: seq<Fill>) {
    forall f :: f in fills ==> f in executed
  }

  /** The venue's replies are what made Phase A change the status. */
  predicate ShownSo(p: Position, status: Status, seen: seq<Reply>) {
    || (IsNaked(p.status) && status == Closed && AllFit(GoneRequests(p), seen) && UnderlyingGone(p, seen))
    || (p.status == Open && status != Open && AllFit(IntegrityRequests(p), seen)
        && status == SeenStatus(SpotPresent(p, seen), PerpPresent(p, seen)))
  }

  /**
   * An incident is no excuse: it answers real orders whose fills were executed, or rests on
   * replies, and it did part row and venue.
   */
  ghost predicate Genuine(inc: Incident, executed: seq<Fill>) {
    match inc
    case LostEntry(e, spotFirst, t) =>
      0.0 < e.qty && AnswersEntry(e, t) && !Witnessed(t) && AllIn(ExecutedIn(spotFirst, t), executed)
    case LostClose(p, t) =>
      0.0 < p.quantity && IsExposed(p.status) && AnswersClose(p, t) && !CloseFaithful(p, t)
        && AllIn(CloseExecuted(t), executed)
    case LostRecovery(p, t) =>
      0.0 < p.quantity && IsNaked(p.status) && AnswersRecovery(p, t) && !RecoveryFaithful(p, t)
      && AllIn(RecoveryExecuted(t), executed)
    case Restated(p, status, seen) => 0.0 < p.quantity && ShownSo(p, status, seen)
    case LostSession(fills) => !Offsetting(fills) && AllIn(fills, executed)
  }

  ghost predicate AllGenuine(s: Snapshot) {
    forall inc :: inc in s.incidents ==> Genuine(inc, s.executed)
  }

  /**
   * The invariant of every run: rows are well formed, the venue is accounted for
   * up to genuine incidents, and the trade ledgers are those of the worker's mode.
   */
  ghost predicate Kept(s: Snapshot, w: Worker) {
    RowsOk(s.rows) && Accounted(s, w) && AllGenuine(s) && LedgersOk(s.rows, s.trades, w.mode, w.exchange)
  }

  lemma KeptFromNothing(w: Worker)
    ensures Kept(Snapshot([], [], [], []), w)
  {
  }

  // ----- progress -----

  datatype Tables = Tables(rows: seq<Position>, trades: seq<Trade>)

  function TablesOf(s: Snapshot): Tables {
    Tables(s.rows, s.trades)
  }

  /** New trades are appended, and only to rows of this worker. */
  ghost predicate OwnTrades(before: seq<Trade>, after: seq<Trade>, rows: seq<Position>, w: Worker) {
    before <= after
    && forall k :: |before| <= k < |after| ==>
         after[k].positionId < |rows| && OwnedBy(rows[after[k].positionId], w.mode, w.exchange)
  }

  /** All a worker does to the tables: its own exposed rows change, its own rows and trades are appended. */
  ghost predicate Advances(a: Tables, b: Tables, w: Worker) {
    Evolves(a.rows, b.rows, w.mode, w.exchange) && OwnTrades(a.trades, b.trades, b.rows, w)
  }

  lemma AdvancesTransitive(a: Tables, b: Tables, c: Tables, w: Worker)
    requires Advances(a, b, w) && Advances(b, c, w)
    ensures Advances(a, c, w)
  {
    EvolvesTransitive(a.rows, b.rows, c.rows, w.mode, w.exchange);
    forall k | |a.trades| <= k < |c.trades|
      ensures c.trades[k].positionId < |c.rows| && OwnedBy(c.rows[c.trades[k].positionId], w.mode, w.exchange)
    {
      if k < |b.trades| {
        assert c.trades[k] == b.trades[k];
        assert RowEvolves(b.rows[b.trades[k].positionId], c.rows[b.trades[k].positionId], w.mode, w.exchange);
      }
    }
  }

  lemma {:induction false} RowNetIgnoresOthers(rows: seq<Position>, rows': seq<Position>, w: Worker, leg: Leg,
                                               symbol: string)
    requires |rows| <= |rows'|
    requires forall i :: 0 <= i < |rows| ==>
      rows'[i] == rows[i] || (!OwnedBy(rows[i], w.mode, w.exchange) && !OwnedBy(rows'[i], w.mode, w.exchange))
    requires forall i :: |rows| <= i < |rows'| ==> !OwnedBy(rows'[i], w.mode, w.exchange)
    ensures RowNet(rows', w.mode, w.exchange, leg, symbol) == RowNet(rows, w.mode, w.exchange, leg, symbol)
    decreases |rows'|
  {
    if |rows| < |rows'| {
      RowNetIgnoresOthers(rows, rows'[..|rows'| - 1], w, leg, symbol);
    } else if rows != [] {
      RowNetIgnoresOthers(rows[..|rows| - 1], rows'[..|rows| - 1], w, leg, symbol);
    }
  }

  lemma {:induction false} TradesIgnoreOthers(trades: seq<Trade>, trades': seq<Trade>, id: nat)
    requires trades <= trades' && forall k :: |trades| <= k < |trades'| ==> trades'[k].positionId != id
    ensures TradesOf(trades', id) == TradesOf(trades, id)
    decreases |trades'|
  {
    if |trades| < |trades'| {
      TradesIgnoreOthers(trades, trades'[..|trades'| - 1], id);
    } else {
      assert trades' == trades;
    }
  }

  /** Whatever another worker does to the shared tables, a worker's own books stay right. */
  lemma OthersDoNotDisturb(s: Snapshot, w: Worker, other: Worker, t: Tables)
    requires Kept(s, w) && other != w && Advances(TablesOf(s), t, other) && RowsOk(t.rows)
    ensures Kept(s.(rows := t.rows, trades := t.trades), w)
  {
    forall i | 0 <= i < |s.rows|
      ensures t.rows[i] == s.rows[i]
          || (!OwnedBy(s.rows[i], w.mode, w.exchange) && !OwnedBy(t.rows[i], w.mode, w.exchange))
    {
      assert RowEvolves(s.rows[i], t.rows[i], other.mode, other.exchange);
    }
    forall leg, symbol
      ensures RowNet(t.rows, w.mode, w.exchange, leg, symbol) == RowNet(s.rows, w.mode, w.exchange, leg, symbol)
    {
      RowNetIgnoresOthers(s.rows, t.rows, w, leg, symbol);
    }
    OthersKeepLedgers(s, w, other, t);
  }

  lemma OthersKeepLedgers(s: Snapshot, w: Worker, other: Worker, t: Tables)
    requires other != w && Advances(TablesOf(s), t, other) && LedgersOk(s.rows, s.trades, w.mode, w.exchange)
    ensures LedgersOk(t.rows, t.trades, w.mode, w.exchange)
  {
    forall i | 0 <= i < |t.rows| && OwnedBy(t.rows[i], w.mode, w.exchange)
      ensures LedgerOk(t.rows[i], TradesOf(t.trades, i))
    {
      assert i < |s.rows| && RowEvolves(s.rows[i], t.rows[i], other.mode, other.exchange);
      TradesIgnoreOthers(s.trades, t.trades, i);
    }
    forall x | x in t.trades
      ensures x.positionId < |t.rows|
    {
      var k :| 0 <= k < |t.trades| && t.trades[k] == x;
      if k < |s.trades| {
        assert s.trades[k] in s.trades;
      }
    }
  }

  // ----- incidents -----

  /** What a close executed, in plain numbers. */
  lemma CloseInNumbers(p: Position, t: CloseTrace, leg: Leg, symbol: string)
    requires AnswersClose(p, t)
    ensures Net(CloseExecuted(t), leg, symbol)
         == (if t.spot.fill.accepted && leg == Spot && symbol == p.spotSymbol then -p.quantity else 0.0)
            + (if t.perp.Some? && t.perp.value.fill.accepted && leg == Futures && symbol == p.perpSymbol
               then p.quantity else 0.0)
  {
    NetOfAnswer(t.spot, leg, symbol);
    match t.perp
    case None => assert Executed(t.spot) + [] == Executed(t.spot);
    case Some(a) =>
      NetAdds(Executed(t.spot), Executed(a), leg, symbol);
      NetOfAnswer(a, leg, symbol);
  }

  /**
   * A close keeps row and venue together exactly when both legs were reported filled
   * and the row was OPEN, or neither was executed: a one-leg close, or one whose fills
   * were reported as refused, leaves the row standing on a missing leg, and a two-leg
   * close of a naked row opens the leg it never had.
   */
  lemma CloseFaithfulIff(p: Position, t: CloseTrace)
    requires IsExposed(p.status) && 0.0 < p.quantity && AnswersClose(p, t)
    ensures (forall leg, symbol :: Unclaimed(LostClose(p, t), leg, symbol) == 0.0) <==> CloseFaithful(p, t)
  {
    if CloseFaithful(p, t) {
      forall leg, symbol
        ensures Unclaimed(LostClose(p, t), leg, symbol) == 0.0
      {
        CloseInNumbers(p, t, leg, symbol);
      }
    } else {
      CloseInNumbers(p, t, Spot, p.spotSymbol);
      CloseInNumbers(p, t, Futures, p.perpSymbol);
      assert Unclaimed(LostClose(p, t), Spot, p.spotSymbol) != 0.0
          || Unclaimed(LostClose(p, t), Futures, p.perpSymbol) != 0.0;
    }
  }

  lemma RestatingMovesClaim(p: Position, status: Status, seen: seq<Reply>)
    requires 0.0 < p.quantity && ShownSo(p, status, seen)
    ensures var inc := Restated(p, status, seen);
      Unclaimed(inc, Spot, p.spotSymbol) != 0.0 || Unclaimed(inc, Futures, p.perpSymbol) != 0.0
  {
  }

  /** Every incident on record, in either mode, moved some leg away from what the rows say. */
  lemma IncidentsMatter(s: Snapshot, w: Worker, inc: Incident)
    requires Kept(s, w) && inc in s.incidents
    ensures exists leg, symbol :: Unclaimed(inc, leg, symbol) != 0.0
  {
    assert Genuine(inc, s.executed);
    match inc
    case LostEntry(e, spotFirst, t) =>
      UnwitnessedDiffers(e, spotFirst, t);
      assert Unclaimed(inc, Spot, e.spotSymbol) != 0.0 || Unclaimed(inc, Futures, e.perpSymbol) != 0.0;
    case LostClose(p, t) => CloseFaithfulIff(p, t);
    case LostRecovery(p, t) =>
      UnfaithfulLeavesAGap(p, t);
      assert Unclaimed(inc, Spot, p.spotSymbol) != 0.0 || Unclaimed(inc, Futures, p.perpSymbol) != 0.0;
    case Restated(p, status, seen) => RestatingMovesClaim(p, status, seen);
    case LostSession(fills) =>
      var leg, symbol :| Net(fills, leg, symbol) != 0.0;
      assert Unclaimed(inc, leg, symbol) != 0.0;
  }

  lemma MissedAppend(incidents: seq<Incident>, inc: Incident, leg: Leg, symbol: string)
    ensures Missed(incidents + [inc], leg, symbol) == Missed(incidents, leg, symbol) + Unclaimed(inc, leg, symbol)
  {
    assert (incidents + [inc])[..|incidents|] == incidents;
  }

  lemma GenuineStays(inc: Incident, executed: seq<Fill>, more: seq<Fill>)
    requires Genuine(inc, executed)
    ensures Genuine(inc, executed + more)
  {
  }

  // ----- a session rolled back -----

  /**
   * Orders stay executed when the session that sent them is rolled back: one incident for all
   * their fills keeps the books.
   */
  lemma RollbackKeeps(a: Snapshot, w: Worker, fills: seq<Fill>)
    requires Kept(a, w)
    ensures Kept(AfterRollback(a, fills), w)
  {
    var b := AfterRollback(a, fills);
    forall leg, symbol
      ensures Net(b.executed, leg, symbol)
          == RowNet(b.rows, w.mode, w.exchange, leg, symbol) + Missed(b.incidents, leg, symbol)
    {
      NetAdds(a.executed, fills, leg, symbol);
      MissedAppend(a.incidents, LostSession(fills), leg, symbol);
      assert Offsetting(fills) ==> Net(fills, leg, symbol) == 0.0;
    }
    forall x | x in b.incidents
      ensures Genuine(x, b.executed)
    {
      if x in a.incidents {
        GenuineStays(x, a.executed, fills);
      }
    }
  }

  // ----- trade ledgers -----

  lemma {:induction false} TradesOfSum(trades: seq<Trade>, more: seq<Trade>, j: nat)
    ensures TradesOf(trades + more, j) == TradesOf(trades, j) + TradesOf(more, j)
    decreases more
  {
    if more == [] {
      assert trades + more == trades;
    } else {
      var n := |more| - 1;
      TradesOfSum(trades, more[..n], j);
      assert (trades + more)[..|trades + more| - 1] == trades + more[..n];
    }
  }

  lemma {:induction false} TradesOfThis(more: seq<Trade>, id: nat, j: nat)
    requires forall k :: 0 <= k < |more| ==> more[k].positionId == id
    ensures TradesOf(more, j) == if j == id then more else []
  {
    if more != [] {
      var n := |more| - 1;
      TradesOfThis(more[..n], id, j);
      assert more == more[..n] + [more[n]];
    }
  }

  /** Trades of one position go to that position's ledger and to no other. */
  lemma TradesOfOne(trades: seq<Trade>, more: seq<Trade>, id: nat, j: nat)
    requires forall t :: t in more ==> t.positionId == id
    ensures TradesOf(trades + more, j) == TradesOf(trades, j) + if j == id then more else []
  {
    TradesOfSum(trades, more, j);
    TradesOfThis(more, id, j);
  }

  lemma {:induction false} NoTradesYet(trades: seq<Trade>, id: nat)
    requires forall t :: t in trades ==> t.positionId < id
    ensures TradesOf(trades, id) == []
  {
    if trades != [] {
      assert trades[|trades| - 1] in trades;
      NoTradesYet(trades[..|trades| - 1], id);
    }
  }

  lemma ClosedPaperLedger(p: Position, ts: seq<Trade>, now: int, sold: Trade, bought: Trade)
    requires PaperLedgerOk(p, ts) && IsExposed(p.status) && ExitPair([sold] + [bought], p)
    ensures PaperLedgerOk(ClosedRow(p, now, ""), ts + ([sold] + [bought]))
  {
    var all := ts + ([sold] + [bought]);
    if BornOpen(p) {
      assert all[..2] == ts;
    } else {
      assert all == [sold] + [bought];
    }
  }

  lemma CloseLedger(p: Position, i: nat, now: int, ts: seq<Trade>, t: CloseTrace)
    requires LedgerOk(p, ts) && IsExposed(p.status) && AnswersClose(p, t)
    ensures LedgerOk(RowAfterClose(p, now, t), ts + CloseTrades(i, t))
  {
    var all := ts + CloseTrades(i, t);
    if !ClosesRow(t) {
      assert all == ts;
    } else if p.mode == Paper {
      ClosedPaperLedger(p, ts, now, TradeOf(i, t.spot.fill), TradeOf(i, t.perp.value.fill));
    } else {
      assert all[..|all| - 2] == ts && all[|all| - 2..] == CloseTrades(i, t);
    }
  }

  lemma RecoveryLedger(p: Position, i: nat, now: int, funding: FundingInfo, ts: seq<Trade>, t: RecoveryTrace)
    requires p.mode == Live && IsNaked(p.status) && LedgerOk(p, ts) && AnswersRecovery(p, t)
    ensures LedgerOk(RowAfterRecovery(p, now, funding, t), ts + RecoveryTrades(i, t))
  {
    var all := ts + RecoveryTrades(i, t);
    if RecoveryTrades(i, t) == [] {
      assert all == ts;
    } else {
      assert all[..|all| - 1] == ts;
    }
  }

  /** Changing a row's notes leaves its ledger right. */
  predicate OnlyNotes(p: Position, q: Position) {
    && SameIdentity(p, q) && p.status == q.status && p.closedAt == q.closedAt
    && p.spotEntryPrice == q.spotEntryPrice && p.perpEntryPrice == q.perpEntryPrice
  }

  lemma LedgersAfterChange(a: Snapshot, w: Worker, i: nat, q: Position, more: seq<Trade>)
    requires i < |a.rows| && LedgersOk(a.rows, a.trades, w.mode, w.exchange) && OwnedBy(a.rows[i], w.mode, w.exchange)
    requires (forall t :: t in more ==> t.positionId == i) && LedgerOk(q, TradesOf(a.trades, i) + more)
    ensures LedgersOk(a.rows[i := q], a.trades + more, w.mode, w.exchange)
  {
    forall j | 0 <= j < |a.rows| && OwnedBy(a.rows[i := q][j], w.mode, w.exchange)
      ensures LedgerOk(a.rows[i := q][j], TradesOf(a.trades + more, j))
    {
      TradesOfOne(a.trades, more, i, j);
      assert j != i
          ==> LedgerOk(a.rows[j], TradesOf(a.trades, j)) && TradesOf(a.trades, j) + [] == TradesOf(a.trades, j);
    }
  }

  lemma LedgersAfterInsertion(rows: seq<Position>, trades: seq<Trade>, w: Worker, row: Position, more: seq<Trade>)
    requires LedgersOk(rows, trades, w.mode, w.exchange)
    requires (forall t :: t in more ==> t.positionId == |rows|) && LedgerOk(row, more)
    ensures LedgersOk(rows + [row], trades + more, w.mode, w.exchange)
  {
    forall j | 0 <= j < |rows| + 1 && OwnedBy((rows + [row])[j], w.mode, w.exchange)
      ensures LedgerOk((rows + [row])[j], TradesOf(trades + more, j))
    {
      TradesOfOne(trades, more, |rows|, j);
      if j < |rows| {
        assert LedgerOk(rows[j], TradesOf(trades, j)) && TradesOf(trades, j) + [] == TradesOf(trades, j);
      } else {
        NoTradesYet(trades, |rows|);
        assert [] + more == more;
      }
    }
  }

  // ----- one row changes -----

  /** The incident is the difference between what was executed and what the row's claim moved by. */
  ghost predicate Explains(inc: Incident, p: Position, q: Position, fills: seq<Fill>) {
    forall leg, symbol ::
      Unclaimed(inc, leg, symbol)
        == Net(fills, leg, symbol) - (RowExposure(q, leg, symbol) - RowExposure(p, leg, symbol))
  }

  ghost predicate Harmless(inc: Incident) {
    forall leg, symbol :: Unclaimed(inc, leg, symbol) == 0.0
  }

  lemma BookedIsAccounted(a: Snapshot, w: Worker, i: nat, q: Position, trades: seq<Trade>, fills: seq<Fill>,
                          inc: Incident, faithful: bool)
    requires i < |a.rows| && Accounted(a, w) && OwnedBy(a.rows[i], w.mode, w.exchange) && OwnedBy(q, w.mode, w.exchange)
    requires Explains(inc, a.rows[i], q, fills) && (faithful ==> Harmless(inc))
    ensures Accounted(Booked(a, i, q, trades, fills, inc, faithful), w)
  {
    var b := Booked(a, i, q, trades, fills, inc, faithful);
    forall leg, symbol
      ensures Net(b.executed, leg, symbol)
          == RowNet(b.rows, w.mode, w.exchange, leg, symbol) + Missed(b.incidents, leg, symbol)
    {
      RowNetReplace(a.rows, i, q, w.mode, w.exchange, leg, symbol);
      NetAdds(a.executed, fills, leg, symbol);
      MissedAppend(a.incidents, inc, leg, symbol);
      assert Unclaimed(inc, leg, symbol)
          == Net(fills, leg, symbol) - (RowExposure(q, leg, symbol) - RowExposure(a.rows[i], leg, symbol));
      assert Net(a.executed, leg, symbol)
          == RowNet(a.rows, w.mode, w.exchange, leg, symbol) + Missed(a.incidents, leg, symbol);
      assert faithful ==> Unclaimed(inc, leg, symbol) == 0.0;
    }
  }

  lemma BookedIsGenuine(a: Snapshot, i: nat, q: Position, trades: seq<Trade>, fills: seq<Fill>, inc: Incident,
                        faithful: bool)
    requires i < |a.rows| && AllGenuine(a) && (faithful || Genuine(inc, a.executed + fills))
    ensures AllGenuine(Booked(a, i, q, trades, fills, inc, faithful))
  {
    var b := Booked(a, i, q, trades, fills, inc, faithful);
    forall x | x in b.incidents
      ensures Genuine(x, b.executed)
    {
      if x in a.incidents {
        GenuineStays(x, a.executed, fills);
      }
    }
  }

  lemma BookedAdvances(a: Snapshot, w: Worker, i: nat, q: Position, trades: seq<Trade>, fills: seq<Fill>, inc: Incident,
                       faithful: bool)
    requires i < |a.rows| && RowsOk(a.rows) && OwnedBy(a.rows[i], w.mode, w.exchange) && IsExposed(a.rows[i].status)
    requires RowOk(q) && SameIdentity(a.rows[i], q) && forall t :: t in trades ==> t.positionId == i
    ensures var b := Booked(a, i, q, trades, fills, inc, faithful);
      RowsOk(b.rows) && Advances(TablesOf(a), TablesOf(b), w)
  {
    ReplaceEvolves(a.rows, i, q, w.mode, w.exchange);
    var b := Booked(a, i, q, trades, fills, inc, faithful);
    forall k | |a.trades| <= k < |b.trades|
      ensures b.trades[k].positionId == i
    {
      assert b.trades[k] == trades[k - |a.trades|];
    }
  }

  // ----- a close keeps the books -----

  lemma CloseIsExplained(p: Position, now: int, t: CloseTrace)
    requires IsExposed(p.status) && 0.0 < p.quantity && AnswersClose(p, t)
    ensures Explains(LostClose(p, t), p, RowAfterClose(p, now, t), CloseExecuted(t))
    ensures CloseFaithful(p, t) ==> Harmless(LostClose(p, t))
  {
    forall leg, symbol
      ensures RowExposure(RowAfterClose(p, now, t), leg, symbol) == ClaimAfterClose(p, t, leg, symbol)
    {
    }
    CloseFaithfulIff(p, t);
  }

  /** A close, whatever the answers, keeps the books and touches only its own row and trades. */
  lemma CloseKeeps(a: Snapshot, w: Worker, i: nat, now: int, t: CloseTrace)
    requires Kept(a, w) && i < |a.rows| && OwnedBy(a.rows[i], w.mode, w.exchange)
    requires IsExposed(a.rows[i].status) && AnswersClose(a.rows[i], t)
    ensures var b := AfterClose(a, i, now, t); Kept(b, w) && Advances(TablesOf(a), TablesOf(b), w)
  {
    var p := a.rows[i];
    var q, trades, fills, inc := RowAfterClose(p, now, t), CloseTrades(i, t), CloseExecuted(t), LostClose(p, t);
    CloseIsExplained(p, now, t);
    BookedIsAccounted(a, w, i, q, trades, fills, inc, CloseFaithful(p, t));
    BookedIsGenuine(a, i, q, trades, fills, inc, CloseFaithful(p, t));
    BookedAdvances(a, w, i, q, trades, fills, inc, CloseFaithful(p, t));
    assert LedgerOk(p, TradesOf(a.trades, i));
    CloseLedger(p, i, now, TradesOf(a.trades, i), t);
    LedgersAfterChange(a, w, i, q, trades);
  }

  // ----- a recovery and a restated row keep the books -----

  lemma RecoveryIsExplained(p: Position, now: int, funding: FundingInfo, t: RecoveryTrace)
    requires RowOk(p) && IsNaked(p.status) && AnswersRecovery(p, t)
    ensures Explains(LostRecovery(p, t), p, RowAfterRecovery(p, now, funding, t), RecoveryExecuted(t))
    ensures RecoveryFaithful(p, t) ==> Harmless(LostRecovery(p, t))
  {
    var q := RowAfterRecovery(p, now, funding, t);
    RecoveryMeaning(p, now, funding, t);
    RecoveryFaithfulIff(p, t);
    forall leg, symbol
      ensures RowExposure(q, leg, symbol) == RowExposure(p.(status := StatusAfterRecovery(p, t)), leg, symbol)
    {
    }
  }

  /** A recovery, whatever the answers, keeps a live worker's books. */
  lemma RecoveryKeeps(a: Snapshot, w: Worker, i: nat, now: int, funding: FundingInfo, t: RecoveryTrace)
    requires Kept(a, w) && w.mode == Live && i < |a.rows| && OwnedBy(a.rows[i], w.mode, w.exchange)
    requires IsNaked(a.rows[i].status) && AnswersRecovery(a.rows[i], t)
    ensures var b := AfterRecovery(a, i, now, funding, t); Kept(b, w) && Advances(TablesOf(a), TablesOf(b), w)
  {
    var p := a.rows[i];
    var q, trades, fills, inc := RowAfterRecovery(p, now, funding, t), RecoveryTrades(i, t), RecoveryExecuted(t),
        LostRecovery(p, t);
    RecoveryMeaning(p, now, funding, t);
    RecoveryIsExplained(p, now, funding, t);
    BookedIsAccounted(a, w, i, q, trades, fills, inc, RecoveryFaithful(p, t));
    BookedIsGenuine(a, i, q, trades, fills, inc, RecoveryFaithful(p, t));
    BookedAdvances(a, w, i, q, trades, fills, inc, RecoveryFaithful(p, t));
    assert LedgerOk(p, TradesOf(a.trades, i));
    RecoveryLedger(p, i, now, funding, TradesOf(a.trades, i), t);
    LedgersAfterChange(a, w, i, q, trades);
  }

  /** q is p restated, or p with only its notes changed. */
  predicate RestatedAs(p: Position, q: Position) {
    && SameIdentity(p, q) && p.spotEntryPrice == q.spotEntryPrice && p.perpEntryPrice == q.perpEntryPrice
    && (q.closedAt.Some? <==> q.status == Closed)
  }

  lemma RestatingIsExplained(p: Position, q: Position, seen: seq<Reply>)
    requires RestatedAs(p, q)
    ensures Explains(Restated(p, q.status, seen), p, q, [])
    ensures q.status == p.status ==> Harmless(Restated(p, q.status, seen))
  {
  }

  /** A row restated on what the venue showed keeps a live worker's books. */
  lemma RestatingKeeps(a: Snapshot, w: Worker, i: nat, q: Position, seen: seq<Reply>)
    requires Kept(a, w) && w.mode == Live && i < |a.rows| && OwnedBy(a.rows[i], w.mode, w.exchange)
    requires IsExposed(a.rows[i].status) && RestatedAs(a.rows[i], q) && RowOk(q)
    requires q.status == a.rows[i].status || ShownSo(a.rows[i], q.status, seen)
    ensures var b := AfterRestating(a, i, q, seen); Kept(b, w) && Advances(TablesOf(a), TablesOf(b), w)
  {
    var p := a.rows[i];
    var inc := Restated(p, q.status, seen);
    RestatingIsExplained(p, q, seen);
    BookedIsAccounted(a, w, i, q, [], [], inc, q.status == p.status);
    BookedIsGenuine(a, i, q, [], [], inc, q.status == p.status);
    BookedAdvances(a, w, i, q, [], [], inc, q.status == p.status);
    assert LedgerOk(p, TradesOf(a.trades, i)) && TradesOf(a.trades, i) + [] == TradesOf(a.trades, i);
    LedgersAfterChange(a, w, i, q, []);
  }

  /** Touching a row's funding rate or error text keeps everything. */
  lemma NotesKeep(a: Snapshot, w: Worker, i: nat, q: Position)
    requires Kept(a, w) && i < |a.rows| && OnlyNotes(a.rows[i], q)
    requires OwnedBy(a.rows[i], w.mode, w.exchange) && IsExposed(a.rows[i].status)
    ensures Kept(a.(rows := a.rows[i := q]), w) && Advances(TablesOf(a), Tables(a.rows[i := q], a.trades), w)
  {
    var p := a.rows[i];
    var inc := Restated(p, q.status, []);
    assert AfterRestating(a, i, q, []) == a.(rows := a.rows[i := q]);
    RestatingIsExplained(p, q, []);
    BookedIsAccounted(a, w, i, q, [], [], inc, true);
    BookedAdvances(a, w, i, q, [], [], inc, true);
    assert LedgerOk(p, TradesOf(a.trades, i)) && TradesOf(a.trades, i) + [] == TradesOf(a.trades, i);
    LedgersAfterChange(a, w, i, q, []);
  }

  // ----- an entry keeps the books -----

  /** The inserted row is well formed and claims exactly what the result claims of the venue. */
  lemma RowMatchesClaim(w: Worker, e: EntryOrder, t: Trace, template: Position)
    requires AnswersEntry(e, t) && 0.0 < e.qty && TemplateFor(w, e, template) && RowFor(template, Verdict(t)).Some?
    ensures var row := RowFor(template, Verdict(t)).value;
      && RowOk(row) && OwnedBy(row, w.mode, w.exchange) && row.symbol == template.symbol
      && (BornOpen(row) <==> row.status == Open) && IsExposed(row.status) && row.quantity == e.qty
      && (row.status != Open ==> BornNakedSpot(row) || BornNakedPerp(row))
      && (row.status == Open <==> Verdict(t).value.outcome == Success)
  {
  }

  /** The inserted row has the prices of the fills it rests on, zero on a leg it lacks, and the funding terms given. */
  lemma RowRecordsFills(w: Worker, e: EntryOrder, t: Trace, template: Position)
    requires AnswersEntry(e, t) && 0.0 < e.qty && TemplateFor(w, e, template) && RowFor(template, Verdict(t)).Some?
    ensures var row := RowFor(template, Verdict(t)).value;
      && row.spotEntryPrice == (if row.status == NakedPerp then 0.0 else t.spot.fill.price)
      && row.perpEntryPrice == (if row.status == NakedSpot then 0.0 else t.perp.fill.price)
      && (row.status != NakedPerp ==> t.spot.fill.accepted) && (row.status != NakedSpot ==> t.perp.fill.accepted)
      && row.entryFundingRate == template.entryFundingRate && row.lastFundingRate == template.lastFundingRate
      && row.windows == template.windows
  {
  }

  /** The trade repeats the fill in every column. */
  predicate Repeats(t: Trade, id: nat, fill: Fill) {
    && t.positionId == id && t.symbol == fill.order.symbol && t.venue == fill.order.leg && t.side == fill.order.side
    && t.quantity == fill.qty && t.price == fill.price && t.fee == fill.fee
  }

  /** Every trade ever written repeats one executed fill, spot first, under the row it belongs to. */
  lemma TradesRepeatFills(id: nat, spotFirst: bool, t: Trace, c: CloseTrace, r: RecoveryTrace)
    ensures var ts := EntryTrades(id, Verdict(t));
      ts == [] || (|ts| == 2 && Repeats(ts[0], id, t.spot.fill) && Repeats(ts[1], id, t.perp.fill)
                   && t.spot.fill in ExecutedIn(spotFirst, t) && t.perp.fill in ExecutedIn(spotFirst, t))
    ensures var ts := CloseTrades(id, c);
      ts == [] || (|ts| == 2 && Repeats(ts[0], id, c.spot.fill) && Repeats(ts[1], id, c.perp.value.fill)
                   && AllIn([c.spot.fill, c.perp.value.fill], CloseExecuted(c)))
    ensures var ts := RecoveryTrades(id, r);
      ts == [] || (|ts| == 1 && exists f :: f in RecoveryExecuted(r) && Repeats(ts[0], id, f))
  {
    if |EntryTrades(id, Verdict(t))| == 2 {
      assert t.spot.fill in Executed(t.spot) && t.perp.fill in Executed(t.perp);
    }
    if |CloseTrades(id, c)| == 2 {
      assert c.spot.fill in Executed(c.spot) && c.perp.value.fill in Executed(c.perp.value);
    }
    if |RecoveryTrades(id, r)| == 1 {
      var f := if Declined(r.hedge) then r.unwind.value.fill else r.hedge.value.fill;
      assert f in RecoveryExecuted(r) && Repeats(RecoveryTrades(id, r)[0], id, f);
    }
  }

  lemma RowClaims(w: Worker, e: EntryOrder, t: Trace, template: Position, leg: Leg, symbol: string)
    requires AnswersEntry(e, t) && TemplateFor(w, e, template)
    ensures Claimed(Verdict(t), leg, symbol)
         == match RowFor(template, Verdict(t)) case None => 0.0 case Some(row) => RowExposure(row, leg, symbol)
  {
  }

  lemma EntryLedger(w: Worker, e: EntryOrder, t: Trace, template: Position, id: nat)
    requires AnswersEntry(e, t) && 0.0 < e.qty && TemplateFor(w, e, template) && RowFor(template, Verdict(t)).Some?
    ensures LedgerOk(RowFor(template, Verdict(t)).value, EntryTrades(id, Verdict(t)))
  {
    RowMatchesClaim(w, e, t, template);
  }

  lemma EntryKeepsLedgers(a: Snapshot, w: Worker, template: Position, e: EntryOrder, spotFirst: bool, t: Trace)
    requires AnswersEntry(e, t) && 0.0 < e.qty && TemplateFor(w, e, template)
    requires LedgersOk(a.rows, a.trades, w.mode, w.exchange)
    ensures var b := AfterEntry(a, template, e, spotFirst, t); LedgersOk(b.rows, b.trades, w.mode, w.exchange)
  {
    if RowFor(template, Verdict(t)).Some? {
      EntryLedger(w, e, t, template, |a.rows|);
      LedgersAfterInsertion(a.rows, a.trades, w, RowFor(template, Verdict(t)).value, EntryTrades(|a.rows|, Verdict(t)));
    } else {
      assert AfterEntry(a, template, e, spotFirst, t).trades == a.trades;
    }
  }

  lemma EntryKeepsAccounts(a: Snapshot, w: Worker, template: Position, e: EntryOrder, spotFirst: bool, t: Trace)
    requires AnswersEntry(e, t) && 0.0 < e.qty && TemplateFor(w, e, template) && Accounted(a, w)
    ensures Accounted(AfterEntry(a, template, e, spotFirst, t), w)
  {
    var b := AfterEntry(a, template, e, spotFirst, t);
    forall leg, symbol
      ensures Net(b.executed, leg, symbol)
          == RowNet(b.rows, w.mode, w.exchange, leg, symbol) + Missed(b.incidents, leg, symbol)
    {
      NetAdds(a.executed, ExecutedIn(spotFirst, t), leg, symbol);
      MissedAppend(a.incidents, LostEntry(e, spotFirst, t), leg, symbol);
      EntryRowsClaim(a.rows, w, e, t, template, leg, symbol);
      if Witnessed(t) {
        WitnessedMatches(e, spotFirst, t);
      }
    }
  }

  lemma EntryRowsClaim(rows: seq<Position>, w: Worker, e: EntryOrder, t: Trace, template: Position, leg: Leg,
                       symbol: string)
    requires AnswersEntry(e, t) && TemplateFor(w, e, template)
    ensures var rows' := match RowFor(template, Verdict(t)) case None => rows case Some(row) => rows + [row];
      RowNet(rows', w.mode, w.exchange, leg, symbol)
        == RowNet(rows, w.mode, w.exchange, leg, symbol) + Claimed(Verdict(t), leg, symbol)
  {
    RowClaims(w, e, t, template, leg, symbol);
    match RowFor(template, Verdict(t))
    case None =>
    case Some(row) => RowNetAppend(rows, row, w.mode, w.exchange, leg, symbol);
  }

  lemma EntryKeepsIncidents(a: Snapshot, template: Position, e: EntryOrder, spotFirst: bool, t: Trace)
    requires AnswersEntry(e, t) && 0.0 < e.qty && AllGenuine(a)
    ensures AllGenuine(AfterEntry(a, template, e, spotFirst, t))
  {
    var b := AfterEntry(a, template, e, spotFirst, t);
    forall inc | inc in b.incidents
      ensures Genuine(inc, b.executed)
    {
      if inc in a.incidents {
        GenuineStays(inc, a.executed, ExecutedIn(spotFirst, t));
      } else {
        assert inc == LostEntry(e, spotFirst, t);
      }
    }
  }

  lemma EntryKeepsRows(a: Snapshot, w: Worker, template: Position, e: EntryOrder, spotFirst: bool, t: Trace)
    requires RowsOk(a.rows) && AnswersEntry(e, t) && 0.0 < e.qty && TemplateFor(w, e, template)
    ensures var b := AfterEntry(a, template, e, spotFirst, t);
      RowsOk(b.rows) && Advances(TablesOf(a), TablesOf(b), w)
  {
    if RowFor(template, Verdict(t)).Some? {
      RowMatchesClaim(w, e, t, template);
    }
  }

  lemma EntryKeeps(a: Snapshot, w: Worker, template: Position, e: EntryOrder, spotFirst: bool, t: Trace)
    requires Kept(a, w) && AnswersEntry(e, t) && 0.0 < e.qty && TemplateFor(w, e, template)
    ensures var b := AfterEntry(a, template, e, spotFirst, t); Kept(b, w) && Advances(TablesOf(a), TablesOf(b), w)
  {
    EntryKeepsRows(a, w, template, e, spotFirst, t);
    EntryKeepsAccounts(a, w, template, e, spotFirst, t);
    EntryKeepsIncidents(a, template, e, spotFirst, t);
    EntryKeepsLedgers(a, w, template, e, spotFirst, t);
  }
}

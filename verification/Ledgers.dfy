// What the kept invariant says of a worker's books: trade ledgers against rows,
// and realised profit against cash.
module Ledgers {
  import opened RealArith
  import opened Domain
  import opened Lifecycle
  import opened Positions
  import G = Gateways
  import opened Recovery
  import opened Accounts
  import opened RealizedPnl

  // ----- the signed ledger -----

  function TradeMove(t: Trade, leg: Leg): real {
    if t.venue != leg then 0.0 else if t.side == Buy then t.quantity else -t.quantity
  }

  /** Net units the first n trades of a position leave on one leg. */
  function TradeNet(ts: seq<Trade>, leg: Leg, n: nat): real
    requires n <= |ts|
  {
    if n == 0 then 0.0 else TradeNet(ts, leg, n - 1) + TradeMove(ts[n - 1], leg)
  }

  lemma PairNet(ts: seq<Trade>, p: Position)
    requires 2 <= |ts| && EntryPair(ts[..2], p)
    ensures TradeNet(ts, Spot, 2) == p.quantity && TradeNet(ts, Futures, 2) == -p.quantity
  {
    assert ts[..2][0] == ts[0] && ts[..2][1] == ts[1];
    assert TradeNet(ts, Spot, 1) == p.quantity && TradeNet(ts, Futures, 1) == 0.0;
  }

  lemma ExitNet(ts: seq<Trade>, p: Position)
    requires ExitPair(ts, p)
    ensures TradeNet(ts, Spot, 2) == -p.quantity && TradeNet(ts, Futures, 2) == p.quantity
  {
    assert TradeNet(ts, Spot, 1) == -p.quantity && TradeNet(ts, Futures, 1) == 0.0;
  }

  lemma OpenLedgerFollows(p: Position, ts: seq<Trade>)
    requires PaperLedgerOk(p, ts) && BornOpen(p)
    ensures TradeNet(ts, Spot, |ts|) == RowExposure(p, Spot, p.spotSymbol)
    ensures TradeNet(ts, Futures, |ts|) == RowExposure(p, Futures, p.perpSymbol)
  {
    if p.status == Open {
      assert ts[..2] == ts;
      PairNet(ts, p);
    } else {
      PairNet(ts, p);
      assert TradeNet(ts, Spot, 3) == 0.0 && TradeNet(ts, Futures, 3) == -p.quantity;
    }
  }

  /**
   * In every paper run the signed ledger of a row is what the row claims, plus and
   * minus its quantity while OPEN and nothing once closed, exactly when the row was
   * opened whole. A row born naked has no trades while naked, and only exits after.
   */
  lemma LedgerFollowsRowIff(s: Snapshot, w: Worker, i: nat)
    requires Kept(s, w) && w.mode == Paper && i < |s.rows| && OwnedBy(s.rows[i], Paper, w.exchange)
    ensures var p, ts := s.rows[i], TradesOf(s.trades, i);
      TradeNet(ts, Spot, |ts|) == RowExposure(p, Spot, p.spotSymbol)
        && TradeNet(ts, Futures, |ts|) == RowExposure(p, Futures, p.perpSymbol)
      <==> BornOpen(p)
  {
    var p, ts := s.rows[i], TradesOf(s.trades, i);
    assert RowOk(p) && LedgerOk(p, ts);
    if BornOpen(p) {
      OpenLedgerFollows(p, ts);
    } else if p.status == Closed {
      ExitNet(ts, p);
    }
  }

  // ----- realised profit -----

  predicate BothExits(ts: seq<Trade>) {
    LastExit(ts, Spot, Sell, |ts|).Some? && LastExit(ts, Futures, Buy, |ts|).Some?
  }

  /** What the openings paid and received, less what the row's quantity and entry prices make of them. */
  function EntryGap(p: Position, ts: seq<Trade>): real {
    (ValueOn(ts, Spot, Buy, |ts|) - Times(p.quantity, p.spotEntryPrice))
    - (ValueOn(ts, Futures, Sell, |ts|) - Times(p.quantity, p.perpEntryPrice))
  }

  /** A paper row opened whole has no gap; one born naked has an entry that no trade paid for. */
  function PaperGap(p: Position): real {
    if BornNakedSpot(p) then -Times(p.quantity, p.spotEntryPrice)
    else if BornNakedPerp(p) then Times(p.quantity, p.perpEntryPrice)
    else 0.0
  }

  /** What the dashboard books for a closed position beyond the cash of its trades. */
  function Misbooked(p: Position, ts: seq<Trade>): real {
    if p.mode == Paper then PaperGap(p)
    else if BothExits(ts) then EntryGap(p, ts)
    else -SignedCash(ts, |ts|)
  }

  lemma {:induction false} NoExitYet(ts: seq<Trade>, venue: Leg, side: Side, n: nat)
    requires n <= |ts| && (forall i :: 0 <= i < n ==> Opening(ts[i])) && (venue == Spot <==> side == Sell)
    ensures LastExit(ts, venue, side, n) == None && ValueOn(ts, venue, side, n) == 0.0
  {
    if n > 0 {
      NoExitYet(ts, venue, side, n - 1);
    }
  }

  /** Two exits after any openings: the figure is the cash, corrected by what the openings were not. */
  lemma TakenBackPnl(p: Position, ts: seq<Trade>)
    requires TakenBack(ts, p)
    ensures BothExits(ts) && PositionPnl(p, ts) == SignedCash(ts, |ts|) + EntryGap(p, ts)
  {
    var n := |ts| - 2;
    assert ts[n] == ts[n..][0] && ts[n + 1] == ts[n..][1];
    assert forall i :: 0 <= i < n ==> ts[i] == ts[..n][i];
    NoExitYet(ts, Spot, Sell, n);
    NoExitYet(ts, Futures, Buy, n);
    CashByVenue(ts, |ts|);
    assert LastExit(ts, Spot, Sell, n + 1) == Some(ts[n]) && LastExit(ts, Futures, Buy, n + 1) == None;
    assert ValueOn(ts, Spot, Sell, n + 1) == Times(ts[n].price, p.quantity) && ValueOn(ts, Futures, Buy, n + 1) == 0.0;
    Distribute(ts[n].price, p.spotEntryPrice, p.quantity);
    Distribute(p.perpEntryPrice, ts[n + 1].price, p.quantity);
    Commute(p.quantity, ts[n].price - p.spotEntryPrice);
    Commute(p.quantity, p.perpEntryPrice - ts[n + 1].price);
    Commute(p.quantity, p.spotEntryPrice);
    Commute(p.quantity, p.perpEntryPrice);
  }

  /** Openings and at most one exit: the dashboard books nothing. */
  lemma OneExitPnl(p: Position, ts: seq<Trade>)
    requires AllOpening(ts) || AllOpening(ts[..|ts| - 1])
    ensures !BothExits(ts) && PositionPnl(p, ts) == 0.0
  {
    var n := if AllOpening(ts) then |ts| else |ts| - 1;
    assert forall i :: 0 <= i < n ==> ts[i] == ts[..n][i];
    NoExitYet(ts, Spot, Sell, n);
    NoExitYet(ts, Futures, Buy, n);
  }

  lemma LivePnl(p: Position, ts: seq<Trade>)
    requires p.mode == Live && p.status == Closed && LiveLedgerOk(p, ts)
    ensures PositionPnl(p, ts) == SignedCash(ts, |ts|) + Misbooked(p, ts)
  {
    if AllOpening(ts) || AllOpening(ts[..|ts| - 1]) {
      OneExitPnl(p, ts);
    } else {
      TakenBackPnl(p, ts);
    }
  }

  lemma NothingBought(ts: seq<Trade>)
    requires |ts| == 2 && ts[0].venue == Spot && ts[0].side == Sell && ts[1].venue == Futures && ts[1].side == Buy
    ensures QuantityOn(ts, Spot, Buy, 2) == ValueOn(ts, Spot, Buy, 2) == 0.0
    ensures QuantityOn(ts, Futures, Sell, 2) == ValueOn(ts, Futures, Sell, 2) == 0.0
  {
    assert QuantityOn(ts, Spot, Buy, 1) == ValueOn(ts, Spot, Buy, 1) == 0.0;
    assert QuantityOn(ts, Futures, Sell, 1) == ValueOn(ts, Futures, Sell, 1) == 0.0;
  }

  lemma PaperPnl(p: Position, ts: seq<Trade>)
    requires RowOk(p) && p.mode == Paper && p.status == Closed && PaperLedgerOk(p, ts)
    ensures PositionPnl(p, ts) == SignedCash(ts, |ts|) + Misbooked(p, ts)
    ensures LegacyPnl(ts) + Fees(ts, |ts|) == if BornOpen(p) then SignedCash(ts, |ts|) else 0.0
  {
    if BornOpen(p) {
      CleanCloseAgrees(p, ts);
    } else {
      assert ts[|ts| - 2..] == ts;
      TakenBackPnl(p, ts);
      NothingBought(ts);
      assert Times(p.quantity, 0.0) == 0.0;
    }
  }

  lemma GapIff(p: Position)
    requires 0.0 < p.quantity && (BornOpen(p) || BornNakedSpot(p) || BornNakedPerp(p))
    ensures PaperGap(p) == 0.0 <==> BornOpen(p)
  {
    if !BornOpen(p) {
      ProductPositive(p.quantity, if BornNakedSpot(p) then p.spotEntryPrice else p.perpEntryPrice);
    }
  }

  /**
   * In every run, for every closed row of the worker, the dashboard's figure and the
   * cash of the row's trades. In paper mode they are one number exactly when the row
   * was opened whole; a row closed from naked is out by the entry it does not offset:
   * its spot entry booked again, or a perp entry that was never paid out. The v1.3
   * figure before fees is the cash of a row opened whole and nothing for any other.
   * In live mode a row whose legs were both taken back has its cash as the figure
   * exactly when its openings, hedges included, moved what its quantity and entry
   * prices say; a row that was unwound or gone has no figure, whatever its cash.
   */
  lemma ClosedPnlIff(s: Snapshot, w: Worker, i: nat)
    requires Kept(s, w) && i < |s.rows| && OwnedBy(s.rows[i], w.mode, w.exchange) && s.rows[i].status == Closed
    ensures var p, ts := s.rows[i], TradesOf(s.trades, i);
      var figure, cash := PositionPnl(p, ts), SignedCash(ts, |ts|);
      && figure == cash + Misbooked(p, ts)
      && (w.mode == Paper ==> (figure == cash <==> BornOpen(p))
                              && LegacyPnl(ts) + Fees(ts, |ts|) == if BornOpen(p) then cash else 0.0)
      && (w.mode == Live ==> (figure == cash <==> if BothExits(ts) then EntryGap(p, ts) == 0.0 else cash == 0.0))
  {
    var p, ts := s.rows[i], TradesOf(s.trades, i);
    assert RowOk(p) && LedgerOk(p, ts);
    if w.mode == Paper {
      PaperPnl(p, ts);
      GapIff(p);
    } else {
      LivePnl(p, ts);
    }
  }

  // ----- how figure and cash come apart -----

  /** Every naked paper row that a maintenance close closes whole is misbooked. */
  lemma NakedCloseIsMisbooked(a: Snapshot, w: Worker, i: nat, now: int, t: CloseTrace)
    requires Kept(a, w) && w.mode == Paper && i < |a.rows| && OwnedBy(a.rows[i], Paper, w.exchange)
    requires IsNaked(a.rows[i].status) && AnswersClose(a.rows[i], t) && ClosesRow(t)
    ensures var b := AfterClose(a, i, now, t);
      var p, ts := b.rows[i], TradesOf(b.trades, i);
      && Kept(b, w) && p.status == Closed
      && PositionPnl(p, ts) == SignedCash(ts, |ts|) + PaperGap(a.rows[i]) && PaperGap(a.rows[i]) != 0.0
  {
    assert LedgerOk(a.rows[i], TradesOf(a.trades, i));
    CloseKeeps(a, w, i, now, t);
    ClosedPnlIff(AfterClose(a, i, now, t), w, i);
    GapIff(a.rows[i]);
  }

  /** The ledger of a row born naked, hedged for its whole quantity and closed whole. */
  lemma HedgedGap(p: Position, i: nat, now: int, funding: G.FundingInfo, t: RecoveryTrace, u: CloseTrace)
    requires RowOk(p) && IsNaked(p.status) && AnswersRecovery(p, t) && p.quantity <= t.held
    requires StatusAfterRecovery(p, t) == Open
    requires var q := RowAfterRecovery(p, now, funding, t); AnswersClose(q, u) && ClosesRow(u)
    ensures var q, ts := RowAfterRecovery(p, now, funding, t), RecoveryTrades(i, t) + CloseTrades(i, u);
      TakenBack(ts, q) && EntryGap(q, ts) == NakedGap(p)
  {
    var q, ts := RowAfterRecovery(p, now, funding, t), RecoveryTrades(i, t) + CloseTrades(i, u);
    var hedge := TradeOf(i, t.hedge.value.fill);
    assert ts[..1] == [hedge] && ts[1..] == CloseTrades(i, u) && ts[0] == hedge;
    assert ValueOn(ts, Spot, Buy, 1) == if p.status == NakedPerp then Times(hedge.price, hedge.quantity) else 0.0;
    assert ValueOn(ts, Futures, Sell, 1) == if p.status == NakedSpot then Times(hedge.price, hedge.quantity) else 0.0;
    assert ValueOn(ts, Spot, Buy, 2) == ValueOn(ts, Spot, Buy, 1)
        && ValueOn(ts, Futures, Sell, 2) == ValueOn(ts, Futures, Sell, 1);
    Commute(hedge.price, hedge.quantity);
  }

  /** The entry of the leg a row is left with. */
  function NakedGap(p: Position): real {
    if p.status == NakedSpot then -Times(p.quantity, p.spotEntryPrice) else Times(p.quantity, p.perpEntryPrice)
  }

  lemma HedgedFigure(p: Position, i: nat, now: int, funding: G.FundingInfo, t: RecoveryTrace, later: int, u: CloseTrace)
    requires RowOk(p) && IsNaked(p.status) && AnswersRecovery(p, t) && p.quantity <= t.held
    requires StatusAfterRecovery(p, t) == Open
    requires var q := RowAfterRecovery(p, now, funding, t); AnswersClose(q, u) && ClosesRow(u)
    ensures var q := ClosedRow(RowAfterRecovery(p, now, funding, t), later, "");
      var ts := RecoveryTrades(i, t) + CloseTrades(i, u);
      PositionPnl(q, ts) == SignedCash(ts, |ts|) + NakedGap(p) && NakedGap(p) != 0.0
  {
    HedgedGap(p, i, now, funding, t, u);
    TakenBackPnl(RowAfterRecovery(p, now, funding, t), RecoveryTrades(i, t) + CloseTrades(i, u));
    ProductPositive(p.quantity, if p.status == NakedSpot then p.spotEntryPrice else p.perpEntryPrice);
  }

  /**
   * And so is every live row born naked that a recovery hedges whole and a close then
   * closes whole: its figure is its cash less its spot entry once more, or plus its
   * perp entry once more.
   */
  lemma HedgedCloseIsMisbooked(a: Snapshot, w: Worker, i: nat, now: int, funding: G.FundingInfo, t: RecoveryTrace,
                               later: int, u: CloseTrace)
    requires Kept(a, w) && w.mode == Live && i < |a.rows| && OwnedBy(a.rows[i], Live, w.exchange)
    requires IsNaked(a.rows[i].status) && TradesOf(a.trades, i) == []
    requires AnswersRecovery(a.rows[i], t) && a.rows[i].quantity <= t.held && StatusAfterRecovery(a.rows[i], t) == Open
    requires var b := AfterRecovery(a, i, now, funding, t); AnswersClose(b.rows[i], u) && ClosesRow(u)
    ensures var c := AfterClose(AfterRecovery(a, i, now, funding, t), i, later, u);
      var ts := TradesOf(c.trades, i);
      && Kept(c, w) && c.rows[i].status == Closed
      && PositionPnl(c.rows[i], ts) == SignedCash(ts, |ts|) + NakedGap(a.rows[i]) && NakedGap(a.rows[i]) != 0.0
  {
    var p, b := a.rows[i], AfterRecovery(a, i, now, funding, t);
    RecoveryMeaning(p, now, funding, t);
    RecoveryKeeps(a, w, i, now, funding, t);
    CloseKeeps(b, w, i, later, u);
    TradesOfOne(a.trades, RecoveryTrades(i, t), i, i);
    TradesOfOne(b.trades, CloseTrades(i, u), i, i);
    assert [] + RecoveryTrades(i, t) == RecoveryTrades(i, t);
    HedgedFigure(p, i, now, funding, t, later, u);
  }

  lemma UnwoundFigure(p: Position, i: nat, t: RecoveryTrace)
    requires RowOk(p) && IsNaked(p.status) && AnswersRecovery(p, t)
    requires StatusAfterRecovery(p, t) == Closed && t.unwind.Some?
    ensures var ts := RecoveryTrades(i, t);
      && (forall q: Position :: PositionPnl(q, ts) == 0.0)
      && if p.status == NakedSpot then SignedCash(ts, |ts|) > 0.0 else SignedCash(ts, |ts|) < 0.0
  {
    var ts := RecoveryTrades(i, t);
    forall q: Position
      ensures PositionPnl(q, ts) == 0.0
    {
      OneExitPnl(q, ts);
    }
    ProductPositive(ts[0].quantity, ts[0].price);
    assert SignedCash(ts, 0) == 0.0;
  }

  /** A live row born naked that a recovery takes back is closed with no figure for the cash the unwind moved. */
  lemma UnwoundIsMisbooked(a: Snapshot, w: Worker, i: nat, now: int, funding: G.FundingInfo, t: RecoveryTrace)
    requires Kept(a, w) && w.mode == Live && i < |a.rows| && OwnedBy(a.rows[i], Live, w.exchange)
    requires IsNaked(a.rows[i].status) && TradesOf(a.trades, i) == []
    requires AnswersRecovery(a.rows[i], t) && StatusAfterRecovery(a.rows[i], t) == Closed && t.unwind.Some?
    ensures var b := AfterRecovery(a, i, now, funding, t);
      var ts := TradesOf(b.trades, i);
      && Kept(b, w) && b.rows[i].status == Closed
      && PositionPnl(b.rows[i], ts) == 0.0
      && if a.rows[i].status == NakedSpot then SignedCash(ts, |ts|) > 0.0 else SignedCash(ts, |ts|) < 0.0
  {
    RecoveryMeaning(a.rows[i], now, funding, t);
    RecoveryKeeps(a, w, i, now, funding, t);
    TradesOfOne(a.trades, RecoveryTrades(i, t), i, i);
    assert [] + RecoveryTrades(i, t) == RecoveryTrades(i, t);
    UnwoundFigure(a.rows[i], i, t);
  }

  // ----- the total -----

  function Cash(rows: seq<Position>, trades: seq<Trade>, mode: Mode, i: nat): real
    requires i < |rows|
  {
    var ts := TradesOf(trades, i);
    if Realised(rows[i], mode) then SignedCash(ts, |ts|) else 0.0
  }

  /** Cash moved by the closed positions of a mode. */
  function RealizedCash(rows: seq<Position>, trades: seq<Trade>, mode: Mode, n: nat): real
    requires n <= |rows|
  {
    if n == 0 then 0.0 else RealizedCash(rows, trades, mode, n - 1) + Cash(rows, trades, mode, n - 1)
  }

  function MisbookedUpTo(rows: seq<Position>, trades: seq<Trade>, mode: Mode, n: nat): real
    requires n <= |rows|
  {
    if n == 0 then 0.0
    else MisbookedUpTo(rows, trades, mode, n - 1)
         + if Realised(rows[n - 1], mode) then Misbooked(rows[n - 1], TradesOf(trades, n - 1)) else 0.0
  }

  lemma {:induction false} SumsApart(rows: seq<Position>, trades: seq<Trade>, mode: Mode, n: nat)
    requires n <= |rows|
    requires forall i :: 0 <= i < n ==>
      Realized(rows, trades, mode, i)
      == Cash(rows, trades, mode, i) + if Realised(rows[i], mode) then Misbooked(rows[i], TradesOf(trades, i)) else 0.0
    ensures RealizedUpTo(rows, trades, mode, n)
        == RealizedCash(rows, trades, mode, n) + MisbookedUpTo(rows, trades, mode, n)
  {
    if n > 0 {
      SumsApart(rows, trades, mode, n - 1);
    }
  }

  /** The dashboard total of a mode over all exchanges is the cash of its closed positions plus what each is out by. */
  lemma DashboardIsCashAndGaps(rows: seq<Position>, trades: seq<Trade>, mode: Mode)
    requires forall i :: 0 <= i < |rows| && rows[i].mode == mode ==>
        RowOk(rows[i]) && LedgerOk(rows[i], TradesOf(trades, i))
    ensures RealizedUpTo(rows, trades, mode, |rows|)
         == RealizedCash(rows, trades, mode, |rows|) + MisbookedUpTo(rows, trades, mode, |rows|)
  {
    forall i | 0 <= i < |rows|
      ensures Realized(rows, trades, mode, i)
           == Cash(rows, trades, mode, i)
              + if Realised(rows[i], mode) then Misbooked(rows[i], TradesOf(trades, i)) else 0.0
    {
      if Realised(rows[i], mode) {
        assert LedgerOk(rows[i], TradesOf(trades, i));
        if mode == Paper {
          PaperPnl(rows[i], TradesOf(trades, i));
        } else {
          LivePnl(rows[i], TradesOf(trades, i));
        }
      }
    }
    SumsApart(rows, trades, mode, |rows|);
  }
}

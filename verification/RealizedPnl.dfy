// Realised profit of closed positions: the dashboard's figure
// (web/routes/dashboard.py) and the matched-fraction figure of v1.3
// (archive/v1.3-legacy/app/finance.py).
module RealizedPnl {
  import opened RealArith
  import opened Domain
  import opened Lifecycle
  import opened Positions

  // ----- the dashboard -----

  /** The last of the first n trades on one venue and side. */
  function LastExit(ts: seq<Trade>, venue: Leg, side: Side, n: nat): Option<Trade>
    requires n <= |ts|
  {
    if n == 0 then None
    else if ts[n - 1].venue == venue && ts[n - 1].side == side then Some(ts[n - 1])
    else LastExit(ts, venue, side, n - 1)
  }

  /** What one closed position adds; nothing without both exits. */
  function PositionPnl(p: Position, ts: seq<Trade>): real {
    var spotExit, perpExit := LastExit(ts, Spot, Sell, |ts|), LastExit(ts, Futures, Buy, |ts|);
    if spotExit == None || perpExit == None then 0.0
    else
      Times(p.quantity, spotExit.value.price - p.spotEntryPrice)
      + Times(p.quantity, p.perpEntryPrice - perpExit.value.price)
  }

  predicate Realised(p: Position, mode: Mode) {
    p.mode == mode && p.status == Closed
  }

  function Realized(rows: seq<Position>, trades: seq<Trade>, mode: Mode, i: nat): real
    requires i < |rows|
  {
    if Realised(rows[i], mode) then PositionPnl(rows[i], TradesOf(trades, i)) else 0.0
  }

  function RealizedUpTo(rows: seq<Position>, trades: seq<Trade>, mode: Mode, n: nat): real
    requires n <= |rows|
  {
    if n == 0 then 0.0
    else RealizedUpTo(rows, trades, mode, n - 1) + Realized(rows, trades, mode, n - 1)
  }

  method FindLast(ts: seq<Trade>, venue: Leg, side: Side) returns (found: Option<Trade>)
    ensures found == LastExit(ts, venue, side, |ts|)
    ensures found.Some? ==>
      exists i :: 0 <= i < |ts| && ts[i] == found.value && found.value.venue == venue && found.value.side == side
                  && forall j :: i < j < |ts| ==> !(ts[j].venue == venue && ts[j].side == side)
    ensures found == None <==> forall t :: t in ts ==> !(t.venue == venue && t.side == side)
  {
    var i := |ts|;
    while 0 < i
      invariant 0 <= i <= |ts|
      invariant LastExit(ts, venue, side, |ts|) == LastExit(ts, venue, side, i)
      invariant forall j :: i <= j < |ts| ==> !(ts[j].venue == venue && ts[j].side == side)
    {
      i := i - 1;
      if ts[i].venue == venue && ts[i].side == side {
        return Some(ts[i]);
      }
    }
    return None;
  }

  method RealizedTradePnl(rows: seq<Position>, trades: seq<Trade>, mode: Mode) returns (total: real)
    ensures total == RealizedUpTo(rows, trades, mode, |rows|)
  {
    total := 0.0;
    for i := 0 to |rows|
      invariant total == RealizedUpTo(rows, trades, mode, i)
    {
      var p := rows[i];
      if p.mode != mode || p.status != Closed {
        continue;
      }
      var ts := TradesOf(trades, i);
      var spotExit := FindLast(ts, Spot, Sell);
      var perpExit := FindLast(ts, Futures, Buy);
      if spotExit == None || perpExit == None {
        continue;
      }
      var spotLeg := Times(p.quantity, spotExit.value.price - p.spotEntryPrice);
      var perpLeg := Times(p.quantity, p.perpEntryPrice - perpExit.value.price);
      total := total + spotLeg + perpLeg;
    }
  }

  // ----- v1.3 -----

  function QuantityOn(ts: seq<Trade>, venue: Leg, side: Side, n: nat): real
    requires n <= |ts|
  {
    if n == 0 then 0.0
    else QuantityOn(ts, venue, side, n - 1)
         + if ts[n - 1].venue == venue && ts[n - 1].side == side then ts[n - 1].quantity else 0.0
  }

  function ValueOn(ts: seq<Trade>, venue: Leg, side: Side, n: nat): real
    requires n <= |ts|
  {
    if n == 0 then 0.0
    else ValueOn(ts, venue, side, n - 1)
         + if ts[n - 1].venue == venue && ts[n - 1].side == side
           then Times(ts[n - 1].price, ts[n - 1].quantity) else 0.0
  }

  function Fees(ts: seq<Trade>, n: nat): real
    requires n <= |ts|
  {
    if n == 0 then 0.0 else Fees(ts, n - 1) + ts[n - 1].fee
  }

  /** Proceeds less cost of the matched quantity, selling against buying. */
  function MatchedPnl(soldQty: real, soldValue: real, boughtQty: real, boughtValue: real): real {
    if 0.0 < soldQty && 0.0 < boughtQty then
      var matched := Min(soldQty, boughtQty);
      Over(Times(soldValue, matched), soldQty) - Over(Times(boughtValue, matched), boughtQty)
    else 0.0
  }

  /**
   * One leg earns the margin between its average prices on as much as was both sold and bought;
   * nothing on one side only.
   */
  lemma MatchedMargin(soldQty: real, soldValue: real, boughtQty: real, boughtValue: real)
    requires 0.0 <= soldQty && 0.0 <= boughtQty
    ensures MatchedPnl(soldQty, soldValue, boughtQty, boughtValue)
         == if soldQty == 0.0 || boughtQty == 0.0 then 0.0
            else Times(if soldQty <= boughtQty then soldQty else boughtQty,
                       Over(soldValue, soldQty) - Over(boughtValue, boughtQty))
  {
    if soldQty != 0.0 && boughtQty != 0.0 {
      var matched := if soldQty <= boughtQty then soldQty else boughtQty;
      PartOf(soldValue, soldQty, matched);
      PartOf(boughtValue, boughtQty, matched);
      Distribute(Over(soldValue, soldQty), Over(boughtValue, boughtQty), matched);
      Commute(matched, Over(soldValue, soldQty) - Over(boughtValue, boughtQty));
    }
  }

  lemma PartOf(value: real, qty: real, part: real)
    requires qty != 0.0
    ensures Over(Times(value, part), qty) == Times(Over(value, qty), part)
  {
    Quotient(value, qty);
    assert Times(value, part) == Times(Times(Over(value, qty), part), qty);
    Back(Times(Over(value, qty), part), qty);
  }

  function LegPnl(ts: seq<Trade>, venue: Leg): real {
    MatchedPnl(QuantityOn(ts, venue, Sell, |ts|), ValueOn(ts, venue, Sell, |ts|),
               QuantityOn(ts, venue, Buy, |ts|), ValueOn(ts, venue, Buy, |ts|))
  }

  /** position_realized_pnl: both legs' matched fractions, net of fees. */
  function LegacyPnl(ts: seq<Trade>): real {
    LegPnl(ts, Spot) + LegPnl(ts, Futures) - Fees(ts, |ts|)
  }

  // ----- the cash the trades moved -----

  function SignedCash(ts: seq<Trade>, n: nat): real
    requires n <= |ts|
  {
    if n == 0 then 0.0
    else
      var value := Times(ts[n - 1].quantity, ts[n - 1].price);
      SignedCash(ts, n - 1) + if ts[n - 1].side == Sell then value else -value
  }

  /** Cash by venue and side. */
  lemma {:induction false} CashByVenue(ts: seq<Trade>, n: nat)
    requires n <= |ts|
    ensures SignedCash(ts, n) == ValueOn(ts, Spot, Sell, n) - ValueOn(ts, Spot, Buy, n)
                               + ValueOn(ts, Futures, Sell, n) - ValueOn(ts, Futures, Buy, n)
  {
    if n > 0 {
      CashByVenue(ts, n - 1);
      Commute(ts[n - 1].price, ts[n - 1].quantity);
    }
  }

  /** Both venues sold exactly what they bought. */
  predicate Flat(ts: seq<Trade>) {
    && QuantityOn(ts, Spot, Sell, |ts|) == QuantityOn(ts, Spot, Buy, |ts|) > 0.0
    && QuantityOn(ts, Futures, Sell, |ts|) == QuantityOn(ts, Futures, Buy, |ts|) > 0.0
  }

  lemma WholeMatch(q: real, sold: real, bought: real)
    requires 0.0 < q
    ensures MatchedPnl(q, sold, q, bought) == sold - bought
  {
    Back(sold, q);
    Back(bought, q);
  }

  lemma Back(a: real, q: real)
    requires q != 0.0
    ensures Over(Times(a, q), q) == a
  {
  }

  /** For any number of trades that leave both venues flat, the v1.3 figure before fees is the cash they moved. */
  lemma FlatPnlIsCash(ts: seq<Trade>)
    requires Flat(ts)
    ensures LegacyPnl(ts) + Fees(ts, |ts|) == SignedCash(ts, |ts|)
  {
    CashByVenue(ts, |ts|);
    WholeMatch(QuantityOn(ts, Spot, Sell, |ts|), ValueOn(ts, Spot, Sell, |ts|), ValueOn(ts, Spot, Buy, |ts|));
    WholeMatch(QuantityOn(ts, Futures, Sell, |ts|), ValueOn(ts, Futures, Sell, |ts|), ValueOn(ts, Futures, Buy, |ts|));
  }

  function PlaceInQuad(venue: Leg, side: Side): nat {
    if venue == Spot then (if side == Buy then 0 else 2) else (if side == Sell then 1 else 3)
  }

  /** The folds over four trades of which only trade k is on this venue and side. */
  lemma OneOfFour(ts: seq<Trade>, venue: Leg, side: Side, k: nat)
    requires |ts| == 4 && k < 4 && forall i :: 0 <= i < 4 ==> ((ts[i].venue == venue && ts[i].side == side) <==> i == k)
    ensures QuantityOn(ts, venue, side, 4) == ts[k].quantity
    ensures ValueOn(ts, venue, side, 4) == Times(ts[k].price, ts[k].quantity)
  {
    assert QuantityOn(ts, venue, side, 1) == if k < 1 then ts[k].quantity else 0.0;
    assert QuantityOn(ts, venue, side, 2) == if k < 2 then ts[k].quantity else 0.0;
    assert QuantityOn(ts, venue, side, 3) == if k < 3 then ts[k].quantity else 0.0;
    assert ValueOn(ts, venue, side, 1) == if k < 1 then Times(ts[k].price, ts[k].quantity) else 0.0;
    assert ValueOn(ts, venue, side, 2) == if k < 2 then Times(ts[k].price, ts[k].quantity) else 0.0;
    assert ValueOn(ts, venue, side, 3) == if k < 3 then Times(ts[k].price, ts[k].quantity) else 0.0;
  }

  lemma QuadFolds(ts: seq<Trade>, p: Position, venue: Leg, side: Side)
    requires ClosedQuad(ts, p)
    ensures QuantityOn(ts, venue, side, 4) == p.quantity
    ensures ValueOn(ts, venue, side, 4) == Times(ts[PlaceInQuad(venue, side)].price, p.quantity)
  {
    assert ts[..2][0] == ts[0] && ts[..2][1] == ts[1];
    OneOfFour(ts, venue, side, PlaceInQuad(venue, side));
  }

  /**
   * A position that opened and closed whole: the dashboard's figure, the signed
   * cash of its four trades and the v1.3 figure before fees are one number.
   */
  lemma CleanCloseAgrees(p: Position, ts: seq<Trade>)
    requires ClosedQuad(ts, p) && 0.0 < p.quantity
    ensures PositionPnl(p, ts) == SignedCash(ts, |ts|) == LegacyPnl(ts) + Fees(ts, |ts|)
  {
    QuadFolds(ts, p, Spot, Buy);
    QuadFolds(ts, p, Spot, Sell);
    QuadFolds(ts, p, Futures, Buy);
    QuadFolds(ts, p, Futures, Sell);
    FlatPnlIsCash(ts);
    CashByVenue(ts, 4);
    assert ts[..2][0] == ts[0] && ts[..2][1] == ts[1];
    Distribute(ts[2].price, p.spotEntryPrice, p.quantity);
    Distribute(p.perpEntryPrice, ts[3].price, p.quantity);
    Commute(p.quantity, ts[2].price - p.spotEntryPrice);
    Commute(p.quantity, p.perpEntryPrice - ts[3].price);
    assert LastExit(ts, Spot, Sell, 3) == Some(ts[2]);
  }
}

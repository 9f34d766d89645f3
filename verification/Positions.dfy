// Position and trade rows and the repository's queries over them
// (state/models.py, state/repository.py). A row's id is its place in the table.
module Positions {
  import opened Domain
  import opened Lifecycle

  datatype Mode = Paper | Live

  datatype Position = Position(
    mode: Mode, exchange: string, status: Status, symbol: string, spotSymbol: string, perpSymbol: string,
    quantity: real, entryFundingRate: real, lastFundingRate: real, spotEntryPrice: real, perpEntryPrice: real,
    windows: nat, closedAt: Option<int>, lastCloseError: string)

  datatype Trade = Trade(positionId: nat, symbol: string, venue: Leg, side: Side, quantity: real, price: real,
                         fee: real)

  function ClosedRow(p: Position, now: int, reason: string): Position {
    p.(status := Closed, closedAt := Some(now), lastCloseError := reason)
  }

  function TradeOf(id: nat, fill: Fill): Trade {
    Trade(id, fill.order.symbol, fill.order.leg, fill.order.side, fill.qty, fill.price, fill.fee)
  }

  predicate Matches(p: Position, mode: Mode, exchange: Option<string>) {
    p.mode == mode && IsExposed(p.status) && (exchange == None || exchange == Some(p.exchange))
  }

  predicate OwnedBy(p: Position, mode: Mode, exchange: string) {
    p.mode == mode && p.exchange == exchange
  }

  ghost predicate Increasing(ids: seq<nat>) {
    forall i, j :: 0 <= i < j < |ids| ==> ids[i] < ids[j]
  }

  /** positions_currently_exposed over the first n rows, in id order. */
  function ExposedIds(rows: seq<Position>, mode: Mode, exchange: Option<string>, n: nat): (ids: seq<nat>)
    requires n <= |rows|
    ensures Increasing(ids)
    ensures forall k :: k in ids <==> 0 <= k < n && Matches(rows[k], mode, exchange)
  {
    if n == 0 then []
    else
      var before := ExposedIds(rows, mode, exchange, n - 1);
      assert forall i :: 0 <= i < |before| ==> before[i] in before;
      if Matches(rows[n - 1], mode, exchange) then before + [n - 1] else before
  }

  function ExposedCount(rows: seq<Position>, mode: Mode): nat {
    |ExposedIds(rows, mode, None, |rows|)|
  }

  /** The row's error text begins with this. */
  ghost predicate ErrorBegins(p: Position, prefix: string) {
    exists detail: string :: p.lastCloseError == prefix + detail
  }

  // ----- what every row satisfies -----

  /**
   * closed_at is set exactly on closed rows; the quantity and the entry price of every leg a row
   * claims are positive.
   */
  predicate RowOk(p: Position) {
    && (p.closedAt.Some? <==> p.status == Closed)
    && 0.0 < p.quantity
    && (p.status == Open ==> 0.0 < p.spotEntryPrice && 0.0 < p.perpEntryPrice)
    && (p.status == NakedSpot ==> 0.0 < p.spotEntryPrice)
    && (p.status == NakedPerp ==> 0.0 < p.perpEntryPrice)
  }

  ghost predicate RowsOk(rows: seq<Position>) {
    forall i :: 0 <= i < |rows| ==> RowOk(rows[i])
  }

  /** No two exposed rows of one exchange hold the same base asset. */
  ghost predicate BasesDistinct(rows: seq<Position>, mode: Mode, exchange: string) {
    forall i, j :: 0 <= i < j < |rows| && Matches(rows[i], mode, Some(exchange))
        && Matches(rows[j], mode, Some(exchange))
      ==> rows[i].symbol != rows[j].symbol
  }

  // ----- how rows may change -----

  /** The fields fixed at insertion. */
  predicate SameIdentity(p: Position, q: Position) {
    && p.mode == q.mode && p.exchange == q.exchange && p.symbol == q.symbol
    && p.spotSymbol == q.spotSymbol && p.perpSymbol == q.perpSymbol && p.quantity == q.quantity
  }

  /** A worker may change its own exposed rows; closed rows and the rows of others stay as they are. */
  predicate RowEvolves(p: Position, q: Position, mode: Mode, exchange: string) {
    SameIdentity(p, q) && (p == q || (OwnedBy(p, mode, exchange) && IsExposed(p.status)))
  }

  /** Rows are only appended, and only to the worker's own exchange. */
  ghost predicate Evolves(before: seq<Position>, after: seq<Position>, mode: Mode, exchange: string) {
    && |before| <= |after|
    && (forall i :: 0 <= i < |before| ==> RowEvolves(before[i], after[i], mode, exchange))
    && (forall i :: |before| <= i < |after| ==> OwnedBy(after[i], mode, exchange))
  }

  lemma EvolvesTransitive(a: seq<Position>, b: seq<Position>, c: seq<Position>, mode: Mode, exchange: string)
    requires Evolves(a, b, mode, exchange) && Evolves(b, c, mode, exchange)
    ensures Evolves(a, c, mode, exchange)
  {
    forall i | 0 <= i < |a|
      ensures RowEvolves(a[i], c[i], mode, exchange)
    {
      assert RowEvolves(a[i], b[i], mode, exchange) && RowEvolves(b[i], c[i], mode, exchange);
    }
    forall i | |a| <= i < |c|
      ensures OwnedBy(c[i], mode, exchange)
    {
      if i < |b| {
        assert RowEvolves(b[i], c[i], mode, exchange);
      }
    }
  }

  lemma ReplaceEvolves(rows: seq<Position>, i: nat, p: Position, mode: Mode, exchange: string)
    requires i < |rows| && SameIdentity(rows[i], p) && OwnedBy(rows[i], mode, exchange) && IsExposed(rows[i].status)
    ensures Evolves(rows, rows[i := p], mode, exchange)
    ensures RowsOk(rows) && RowOk(p) ==> RowsOk(rows[i := p])
  {
  }

  lemma {:induction false} CountShrinks(before: seq<Position>, after: seq<Position>, mode: Mode,
                                        exchange: Option<string>, n: nat)
    requires n <= |before| && n <= |after|
    requires forall i :: 0 <= i < n ==> (Matches(after[i], mode, exchange) ==> Matches(before[i], mode, exchange))
    ensures |ExposedIds(after, mode, exchange, n)| <= |ExposedIds(before, mode, exchange, n)|
  {
    if n > 0 {
      CountShrinks(before, after, mode, exchange, n - 1);
    }
  }

  /** The same for a longer table whose further rows do not match. */
  lemma {:induction false} CountOfExtension(before: seq<Position>, after: seq<Position>, mode: Mode,
                                            exchange: Option<string>, n: nat)
    requires |before| <= n <= |after|
    requires forall i :: 0 <= i < n && Matches(after[i], mode, exchange) ==>
        i < |before| && Matches(before[i], mode, exchange)
    ensures |ExposedIds(after, mode, exchange, n)| <= |ExposedIds(before, mode, exchange, |before|)|
  {
    if n == |before| {
      CountShrinks(before, after, mode, exchange, n);
    } else {
      CountOfExtension(before, after, mode, exchange, n - 1);
    }
  }

  lemma {:induction false} IdsOfLonger(rows: seq<Position>, p: Position, mode: Mode, exchange: Option<string>, n: nat)
    requires n <= |rows|
    ensures ExposedIds(rows + [p], mode, exchange, n) == ExposedIds(rows, mode, exchange, n)
  {
    if n > 0 {
      IdsOfLonger(rows, p, mode, exchange, n - 1);
    }
  }

  /** One insertion raises the count by at most one, and keeps bases distinct when its base was not held. */
  lemma InsertionCounts(rows: seq<Position>, p: Position, mode: Mode, exchange: string)
    ensures ExposedCount(rows + [p], mode) <= ExposedCount(rows, mode) + 1
    ensures BasesDistinct(rows, mode, exchange)
            && (forall i :: i in ExposedIds(rows, mode, Some(exchange), |rows|) ==> rows[i].symbol != p.symbol) ==>
            BasesDistinct(rows + [p], mode, exchange)
  {
    IdsOfLonger(rows, p, mode, None, |rows|);
  }

  /** Without insertions, a worker's activity never raises any exposed count. */
  lemma ExposureNeverGrows(before: seq<Position>, after: seq<Position>, mode: Mode, exchange: string)
    requires Evolves(before, after, mode, exchange) && |before| == |after|
    ensures ExposedCount(after, mode) <= ExposedCount(before, mode)
    ensures |ExposedIds(after, mode, Some(exchange), |after|)| <= |ExposedIds(before, mode, Some(exchange), |before|)|
  {
    forall i | 0 <= i < |before|
      ensures Matches(after[i], mode, None) ==> Matches(before[i], mode, None)
      ensures Matches(after[i], mode, Some(exchange)) ==> Matches(before[i], mode, Some(exchange))
    {
      assert RowEvolves(before[i], after[i], mode, exchange);
    }
    CountShrinks(before, after, mode, None, |before|);
    CountShrinks(before, after, mode, Some(exchange), |before|);
  }

  /** Bases that were distinct stay distinct while rows only evolve. */
  lemma EvolvingKeepsBases(before: seq<Position>, after: seq<Position>, mode: Mode, exchange: string)
    requires Evolves(before, after, mode, exchange) && |before| == |after| && BasesDistinct(before, mode, exchange)
    ensures BasesDistinct(after, mode, exchange)
  {
    forall i, j | 0 <= i < j < |after| && Matches(after[i], mode, Some(exchange))
        && Matches(after[j], mode, Some(exchange))
      ensures after[i].symbol != after[j].symbol
    {
      assert RowEvolves(before[i], after[i], mode, exchange) && RowEvolves(before[j], after[j], mode, exchange);
      assert Matches(before[i], mode, Some(exchange)) && Matches(before[j], mode, Some(exchange));
    }
  }

  // ----- exposure -----

  /** Base units a row claims on one leg of one symbol. */
  function RowExposure(p: Position, leg: Leg, symbol: string): real {
    if leg == Spot then
      (if symbol == p.spotSymbol && (p.status == Open || p.status == NakedSpot) then p.quantity else 0.0)
    else (if symbol == p.perpSymbol && (p.status == Open || p.status == NakedPerp) then -p.quantity else 0.0)
  }

  function OwnExposure(p: Position, mode: Mode, exchange: string, leg: Leg, symbol: string): real {
    if OwnedBy(p, mode, exchange) then RowExposure(p, leg, symbol) else 0.0
  }

  function RowNet(rows: seq<Position>, mode: Mode, exchange: string, leg: Leg, symbol: string): real {
    if rows == [] then 0.0
    else RowNet(rows[..|rows| - 1], mode, exchange, leg, symbol)
         + OwnExposure(rows[|rows| - 1], mode, exchange, leg, symbol)
  }

  lemma {:induction false} RowNetReplace(rows: seq<Position>, i: nat, p: Position, mode: Mode, exchange: string,
                                         leg: Leg, symbol: string)
    requires i < |rows|
    ensures RowNet(rows[i := p], mode, exchange, leg, symbol)
         == RowNet(rows, mode, exchange, leg, symbol)
            - OwnExposure(rows[i], mode, exchange, leg, symbol) + OwnExposure(p, mode, exchange, leg, symbol)
  {
    var n := |rows| - 1;
    if i == n {
      assert rows[i := p][..n] == rows[..n];
    } else {
      assert rows[i := p][..n] == rows[..n][i := p];
      RowNetReplace(rows[..n], i, p, mode, exchange, leg, symbol);
    }
  }

  lemma RowNetAppend(rows: seq<Position>, p: Position, mode: Mode, exchange: string, leg: Leg, symbol: string)
    ensures RowNet(rows + [p], mode, exchange, leg, symbol)
         == RowNet(rows, mode, exchange, leg, symbol) + OwnExposure(p, mode, exchange, leg, symbol)
  {
    assert (rows + [p])[..|rows|] == rows;
  }

  // ----- the trade ledger of a position -----

  /** The trades of one position, in the order they were written. */
  function TradesOf(trades: seq<Trade>, id: nat): (ts: seq<Trade>)
    ensures forall t :: t in ts ==> t in trades && t.positionId == id
  {
    if trades == [] then []
    else
      var t := trades[|trades| - 1];
      TradesOf(trades[..|trades| - 1], id) + if t.positionId == id then [t] else []
  }

  /** The two trades an opening writes: spot bought and perp sold, the row's quantity at the row's entry prices. */
  predicate EntryPair(ts: seq<Trade>, p: Position) {
    && |ts| == 2
    && ts[0].venue == Spot && ts[0].side == Buy && ts[0].quantity == p.quantity && ts[0].price == p.spotEntryPrice
    && ts[1].venue == Futures && ts[1].side == Sell && ts[1].quantity == p.quantity && ts[1].price == p.perpEntryPrice
  }

  /** ... and the four of a closed position: the opening pair, then spot sold and perp bought back. */
  predicate ClosedQuad(ts: seq<Trade>, p: Position) {
    && |ts| == 4 && EntryPair(ts[..2], p)
    && ts[2].venue == Spot && ts[2].side == Sell && ts[2].quantity == p.quantity
    && ts[3].venue == Futures && ts[3].side == Buy && ts[3].quantity == p.quantity
  }

  /** ... and the two of a position that was naked to the end: what a close sells and buys back. */
  predicate ExitPair(ts: seq<Trade>, p: Position) {
    && |ts| == 2
    && ts[0].venue == Spot && ts[0].side == Sell && ts[0].quantity == p.quantity
    && ts[1].venue == Futures && ts[1].side == Buy && ts[1].quantity == p.quantity
  }

  /** Inserted with both legs filled: both entry prices are set. */
  predicate BornOpen(p: Position) {
    0.0 < p.spotEntryPrice && 0.0 < p.perpEntryPrice
  }

  /** Inserted with the spot leg alone. */
  predicate BornNakedSpot(p: Position) {
    0.0 < p.spotEntryPrice && p.perpEntryPrice == 0.0
  }

  /** Inserted with the perp leg alone. */
  predicate BornNakedPerp(p: Position) {
    p.spotEntryPrice == 0.0 && 0.0 < p.perpEntryPrice
  }

  predicate IsNaked(status: Status) {
    status == NakedSpot || status == NakedPerp
  }

  /**
   * In paper mode nothing but its opening and its close writes a position's trades; an orphan's
   * opening writes none.
   */
  predicate PaperLedgerOk(p: Position, ts: seq<Trade>) {
    if BornOpen(p) then (p.status == Open && EntryPair(ts, p)) || (p.status == Closed && ClosedQuad(ts, p))
    else
      && (BornNakedSpot(p) || BornNakedPerp(p))
      && ((IsNaked(p.status) && ts == []) || (p.status == Closed && ExitPair(ts, p)))
  }

  /** Spot bought or perp sold: what entries and hedges write. */
  predicate Opening(t: Trade) {
    if t.venue == Spot then t.side == Buy else t.side == Sell
  }

  predicate AllOpening(ts: seq<Trade>) {
    forall i :: 0 <= i < |ts| ==> Opening(ts[i])
  }

  /** Openings, then the two exits of a close. */
  predicate TakenBack(ts: seq<Trade>, p: Position) {
    2 <= |ts| && AllOpening(ts[..|ts| - 2]) && ExitPair(ts[|ts| - 2..], p)
  }

  /** In live mode hedges open too, and a single exit or none may close: an unwind, or a row that was gone. */
  predicate LiveLedgerOk(p: Position, ts: seq<Trade>) {
    || AllOpening(ts)
    || (p.status == Closed && (TakenBack(ts, p) || AllOpening(ts[..|ts| - 1])))
  }

  predicate LedgerOk(p: Position, ts: seq<Trade>) {
    if p.mode == Paper then PaperLedgerOk(p, ts) else LiveLedgerOk(p, ts)
  }

  /** Every trade belongs to a row, and the ledgers of one worker's rows are right. */
  ghost predicate LedgersOk(rows: seq<Position>, trades: seq<Trade>, mode: Mode, exchange: string) {
    && (forall t :: t in trades ==> t.positionId < |rows|)
    && (forall i {:trigger TradesOf(trades, i)} ::
          0 <= i < |rows| && OwnedBy(rows[i], mode, exchange) ==> LedgerOk(rows[i], TradesOf(trades, i)))
  }
}

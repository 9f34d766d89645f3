// The synthetic gateway of paper mode (gateways/paper.py).
module PaperGateway {
  import opened RealArith
  import opened Books
  import opened Domain
  import opened Symbols

  datatype Wallet = Wallet(free: real, total: real)

  type Bucket = map<string, Wallet>

  datatype Config = Config(books: map<string, BookSnapshot>, slippageBps: real, feeBps: real, trackWallets: bool)

  datatype PaperState = PaperState(seen: set<string>, spot: Bucket, futures: Bucket)
  {
    function BucketOf(leg: Leg): Bucket {
      if leg == Spot then spot else futures
    }

    function WithBucket(leg: Leg, bucket: Bucket): PaperState {
      if leg == Spot then this.(spot := bucket) else this.(futures := bucket)
    }
  }

  // ----- what one order is worth against the books -----

  function Levels(book: BookSnapshot, side: Side): seq<Level> {
    if side == Buy then book.asks else book.bids
  }

  function SlippageFactor(cfg: Config, side: Side): real {
    1.0 + Over(cfg.slippageBps, 10000.0) * (if side == Buy then 1.0 else -1.0)
  }

  function FillPrice(cfg: Config, levels: seq<Level>, side: Side, qty: real): real
    requires 0.0 < qty
  {
    Times(Over(Cost(levels, qty, |levels|), qty), SlippageFactor(cfg, side))
  }

  function FeeOf(cfg: Config, qty: real, price: real): real {
    Times(Times(qty, price), Over(cfg.feeBps, 10000.0))
  }

  /** The answer to an order whose id has not been seen. */
  function Quote(cfg: Config, order: Order): Fill {
    if order.symbol !in cfg.books then Refused(order, "no_book")
    else
      var levels := Levels(cfg.books[order.symbol], order.side);
      if order.qty > Depth(levels, |levels|) || order.qty <= 0.0 then Refused(order, "fok_rejected")
      else
        var price := FillPrice(cfg, levels, order.side, order.qty);
        Fill(order, order.qty, price, FeeOf(cfg, order.qty, price), true, "")
  }

  // ----- wallets -----

  function WalletIn(bucket: Bucket, asset: string): Wallet {
    if asset in bucket then bucket[asset] else Wallet(0.0, 0.0)
  }

  function Mutate(bucket: Bucket, asset: string, delta: real): Bucket {
    var cur := WalletIn(bucket, asset);
    bucket[asset := Wallet(Max(0.0, cur.free + delta), Max(0.0, cur.total + delta))]
  }

  function QuoteDelta(fill: Fill): real {
    var notional := Times(fill.qty, fill.price);
    if fill.order.side == Buy then -(notional + fill.fee) else notional - fill.fee
  }

  function BaseDelta(fill: Fill): real {
    if fill.order.side == Buy then fill.qty else -fill.qty
  }

  function MoveQuote(bucket: Bucket, fill: Fill): Bucket {
    Mutate(bucket, QuoteAsset(fill.order.symbol), QuoteDelta(fill))
  }

  /** Only spot fills move base units; a perp position is not a wallet balance. */
  function MoveBase(bucket: Bucket, fill: Fill): Bucket {
    if fill.order.leg == Spot then Mutate(bucket, BaseAsset(fill.order.symbol), BaseDelta(fill)) else bucket
  }

  predicate MovesWallets(cfg: Config, fill: Fill) {
    fill.accepted && cfg.trackWallets && '/' in fill.order.symbol
  }

  // ----- the whole call -----

  function Place(cfg: Config, st: PaperState, order: Order): (Fill, PaperState) {
    if order.coid in st.seen then (Refused(order, "duplicate_client_order_id"), st)
    else
      var fill := Quote(cfg, order);
      var st' := st.(seen := st.seen + {order.coid});
      if MovesWallets(cfg, fill) then
        (fill, st'.WithBucket(order.leg, MoveBase(MoveQuote(st'.BucketOf(order.leg), fill), fill)))
      else (fill, st')
  }

  class InMemoryGateway {
    var books: map<string, BookSnapshot>
    var slippageBps: real
    var feeBps: real
    var trackWalletDrawdown: bool
    var seenClientOrderIds: set<string>
    var spotBalances: Bucket
    var futuresBalances: Bucket

    constructor (slippageBps: real, feeBps: real, trackWalletDrawdown: bool)
      ensures Configuration() == Config(map[], slippageBps, feeBps, trackWalletDrawdown)
      ensures State() == PaperState({}, map[], map[])
    {
      this.books := map[];
      this.slippageBps, this.feeBps, this.trackWalletDrawdown := slippageBps, feeBps, trackWalletDrawdown;
      this.seenClientOrderIds, this.spotBalances, this.futuresBalances := {}, map[], map[];
    }

    function Configuration(): Config
      reads this
    {
      Config(books, slippageBps, feeBps, trackWalletDrawdown)
    }

    function State(): PaperState
      reads this
    {
      PaperState(seenClientOrderIds, spotBalances, futuresBalances)
    }

    method MutateBalance(leg: Leg, asset: string, delta: real)
      modifies `spotBalances, `futuresBalances
      ensures State() == old(State()).WithBucket(leg, Mutate(old(State().BucketOf(leg)), asset, delta))
    {
      var bucket := if leg == Spot then spotBalances else futuresBalances;
      var cur := if asset in bucket then bucket[asset] else Wallet(0.0, 0.0);
      bucket := bucket[asset := Wallet(Max(0.0, cur.free + delta), Max(0.0, cur.total + delta))];
      if leg == Spot {
        spotBalances := bucket;
      } else {
        futuresBalances := bucket;
      }
    }

    method ApplyWalletDelta(fill: Fill)
      modifies `spotBalances, `futuresBalances
      ensures State() == old(State()).WithBucket(fill.order.leg,
                           MoveBase(MoveQuote(old(State().BucketOf(fill.order.leg)), fill), fill))
    {
      var leg := fill.order.leg;
      MutateBalance(leg, QuoteAsset(fill.order.symbol), QuoteDelta(fill));
      if leg == Spot {
        MutateBalance(leg, BaseAsset(fill.order.symbol), BaseDelta(fill));
      }
    }

    method PlaceMarketFok(order: Order) returns (fill: Fill)
      modifies `seenClientOrderIds, `spotBalances, `futuresBalances
      ensures (fill, State()) == Place(Configuration(), old(State()), order)
    {
      if order.coid in seenClientOrderIds {
        return Refused(order, "duplicate_client_order_id");
      }
      seenClientOrderIds := seenClientOrderIds + {order.coid};
      if order.symbol !in books {
        return Refused(order, "no_book");
      }
      var book := books[order.symbol];
      var levels := if order.side == Buy then book.asks else book.bids;
      if order.qty > Depth(levels, |levels|) || order.qty <= 0.0 {
        return Refused(order, "fok_rejected");
      }
      var spent := Consume(levels, order.qty);
      var price := Times(Over(spent, order.qty), SlippageFactor(Configuration(), order.side));
      var fee := Times(Times(order.qty, price), Over(feeBps, 10000.0));
      fill := Fill(order, order.qty, price, fee, true, "");
      if trackWalletDrawdown && '/' in order.symbol {
        ApplyWalletDelta(fill);
      }
    }
  }

  /** The fill loop: take from each level until nothing remains. */
  method Consume(levels: seq<Level>, qty: real) returns (spent: real)
    requires 0.0 < qty <= Depth(levels, |levels|)
    ensures spent == Cost(levels, qty, |levels|)
  {
    var remaining := qty;
    spent := 0.0;
    var i := 0;
    while i < |levels| && 0.0 < remaining
      invariant i <= |levels|
      invariant remaining == qty - Filled(levels, qty, i)
      invariant spent == Cost(levels, qty, i)
    {
      var take := Min(levels[i].depth, remaining);
      assert take == Take(levels, qty, i);
      spent := spent + Times(take, levels[i].price);
      remaining := remaining - take;
      i := i + 1;
    }
    CostSettled(levels, qty, i, |levels|);
  }

  // ----- at most once -----

  /** Orders one after the other; the books, slippage, fee and drawdown flag may be set anew before each. */
  function Run(st: PaperState, calls: seq<(Config, Order)>): (r: (seq<Fill>, PaperState))
    ensures |r.0| == |calls|
    decreases calls
  {
    if calls == [] then ([], st)
    else
      var (fill, st') := Place(calls[0].0, st, calls[0].1);
      var (fills, end) := Run(st', calls[1..]);
      ([fill] + fills, end)
  }

  /** Every answer is about its own order, all or nothing. */
  lemma PlaceAnswersTheOrder(cfg: Config, st: PaperState, order: Order)
    ensures var (fill, st') := Place(cfg, st, order);
      && fill.order == order && (fill.accepted ==> fill.qty == order.qty && order.coid !in st.seen)
      && (!fill.accepted ==> fill.qty == 0.0)
      && st'.seen == st.seen + {order.coid}
  {
  }

  /** Over any run on changing books, an id is accepted at most once, and never if it was seen before the run. */
  lemma {:induction false} AcceptedAtMostOnce(st: PaperState, calls: seq<(Config, Order)>)
    ensures var fills := Run(st, calls).0;
      && (forall i :: 0 <= i < |fills| ==> fills[i].order == calls[i].1)
      && (forall i :: 0 <= i < |fills| && fills[i].accepted ==> fills[i].order.coid !in st.seen)
      && (forall i, j :: 0 <= i < j < |fills| && fills[i].accepted && fills[j].accepted ==>
            fills[i].order.coid != fills[j].order.coid)
    decreases calls
  {
    if calls != [] {
      var (cfg, order) := calls[0];
      var (fill, st') := Place(cfg, st, order);
      PlaceAnswersTheOrder(cfg, st, order);
      AcceptedAtMostOnce(st', calls[1..]);
      var fills := Run(st', calls[1..]).0;
      assert Run(st, calls).0 == [fill] + fills;
      assert forall i :: 0 < i < |calls| ==> ([fill] + fills)[i] == fills[i - 1] && calls[i] == calls[1..][i - 1];
    }
  }

  // ----- what an order does, in plain arithmetic -----

  /**
   * An order is filled exactly under a new id, on a book that is there and deep
   * enough; otherwise, or untracked, or without two assets in the symbol, no wallet moves.
   */
  lemma PlaceAcceptsIff(cfg: Config, st: PaperState, order: Order)
    ensures var (fill, st') := Place(cfg, st, order);
      && (fill.accepted <==>
            && order.coid !in st.seen && order.symbol in cfg.books && 0.0 < order.qty
            && var book := cfg.books[order.symbol];
            if order.side == Buy then order.qty <= Depth(book.asks, |book.asks|)
            else order.qty <= Depth(book.bids, |book.bids|))
      && (!fill.accepted || !cfg.trackWallets || '/' !in order.symbol ==>
            st'.spot == st.spot && st'.futures == st.futures)
  {
  }

  /**
   * A fill is priced at the average of its own side of the book, raised by the
   * slippage when buying and lowered by it when selling; the fee is the rate on
   * the value.
   */
  lemma FillIsPriced(cfg: Config, st: PaperState, order: Order)
    requires Place(cfg, st, order).0.accepted
    ensures var fill, book := Place(cfg, st, order).0, cfg.books[order.symbol];
      && fill.qty == order.qty
      && Times(fill.price, 10000.0)
         == (if order.side == Buy then Times(Vwap(book.asks, order.qty), 10000.0 + cfg.slippageBps)
             else Times(Vwap(book.bids, order.qty), 10000.0 - cfg.slippageBps))
      && Times(fill.fee, 10000.0) == Times(Times(order.qty, fill.price), cfg.feeBps)
  {
    var fill, levels := Place(cfg, st, order).0, Levels(cfg.books[order.symbol], order.side);
    Quotient(cfg.slippageBps, 10000.0);
    Quotient(cfg.feeBps, 10000.0);
    assert Filled(levels, order.qty, |levels|) == order.qty;
    var avg, factor := Vwap(levels, order.qty), SlippageFactor(cfg, order.side);
    Associate(avg, factor, 10000.0);
    assert Times(factor, 10000.0) == if order.side == Buy then 10000.0 + cfg.slippageBps else 10000.0 - cfg.slippageBps;
    Associate(Times(order.qty, fill.price), Over(cfg.feeBps, 10000.0), 10000.0);
  }

  /** A wallet moved by x, free and total alike, neither below zero. */
  predicate MovedBy(before: Wallet, after: Wallet, x: real) {
    && after.free == (if before.free + x < 0.0 then 0.0 else before.free + x)
    && after.total == (if before.total + x < 0.0 then 0.0 else before.total + x)
  }

  /**
   * What every filled order moves, either side of either leg: buying pays the value
   * and the fee, selling receives the value less the fee; on spot the base units
   * move the other way. Nothing else moves, on this leg or the other.
   */
  lemma PlaceIsExact(cfg: Config, st: PaperState, order: Order)
    requires Place(cfg, st, order).0.accepted && cfg.trackWallets && '/' in order.symbol
    requires order.leg == Spot ==> BaseAsset(order.symbol) != QuoteAsset(order.symbol)
    ensures var (fill, st') := Place(cfg, st, order);
      var base, quote, value := BaseAsset(order.symbol), QuoteAsset(order.symbol), Times(order.qty, fill.price);
      var paid := if order.side == Buy then -value - fill.fee else value - fill.fee;
      if order.leg == Spot then
        && MovedBy(WalletIn(st.spot, quote), WalletIn(st'.spot, quote), paid)
        && MovedBy(WalletIn(st.spot, base), WalletIn(st'.spot, base),
                   if order.side == Buy then order.qty else -order.qty)
        && (forall asset :: asset != base && asset != quote ==> WalletIn(st'.spot, asset) == WalletIn(st.spot, asset))
        && st'.futures == st.futures
      else
        && MovedBy(WalletIn(st.futures, quote), WalletIn(st'.futures, quote), paid)
        && (forall asset :: asset != quote ==> WalletIn(st'.futures, asset) == WalletIn(st.futures, asset))
        && st'.spot == st.spot
  {
  }
}

// The plain values the rest of the model passes around (core/types.py).
module Domain {
  import opened Books

  datatype Option<+T> = None | Some(value: T)

  /** What can leave a call instead of a value. */
  datatype Exn = GatewayRaised | IllegalTransition | AssertionFailed | DivisionByZero

  datatype Result<+T> = Ok(value: T) | Raised(exn: Exn)
  {
    predicate IsFailure() {
      Raised?
    }

    function PropagateFailure<U>(): Result<U>
      requires Raised?
    {
      Raised(exn)
    }

    function Extract(): T
      requires Ok?
    {
      value
    }
  }

  /** Both sides of one book at one instant, best level first; takenAt in microseconds. */
  datatype BookSnapshot = BookSnapshot(bids: seq<Level>, asks: seq<Level>, mid: real, takenAt: int)

  datatype Leg = Spot | Futures

  datatype Side = Buy | Sell

  function Reverse(side: Side): Side {
    if side == Buy then Sell else Buy
  }

  datatype Order = Order(symbol: string, leg: Leg, side: Side, qty: real, coid: string)

  /** What a gateway answers for one order. A fill that was not accepted moved nothing. */
  datatype Fill = Fill(order: Order, qty: real, price: real, fee: real, accepted: bool, error: string)

  function Refused(order: Order, error: string): Fill {
    Fill(order, 0.0, 0.0, 0.0, false, error)
  }

  /** Fill-or-kill: all of the order at a positive price, or none of it. */
  predicate AllOrNothing(order: Order, fill: Fill) {
    && fill.order == order
    && (fill.accepted ==> fill.qty == order.qty && 0.0 < fill.price)
    && (!fill.accepted ==> fill.qty == 0.0)
  }

  const MAX_SKEW_MICROSECONDS: int := 50000

  /** The two books are close enough in time to be priced together. */
  predicate CoTemporal(spot: BookSnapshot, perp: BookSnapshot) {
    -MAX_SKEW_MICROSECONDS <= spot.takenAt - perp.takenAt <= MAX_SKEW_MICROSECONDS
  }

  /** The part of MergedConfig a cycle reads. */
  datatype Settings = Settings(
    entryMinNetApy: real, exitMinNetApy: real, bufferMultiple: real, maxExitBasisBps: real,
    stopLossPct: real, dislocationBps: real, minPositionPct: real, maxPositionPct: real,
    subTarget: real, leverage: int, maxOpenPositions: int, hedgeIntegrityCheck: bool)
}

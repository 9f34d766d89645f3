// The position state machine (core/lifecycle.py). An illegal move is None where
// the source raises IllegalTransition.
module Lifecycle {
  import opened Domain

  datatype Status = Open | NakedSpot | NakedPerp | Closed

  datatype Event =
    | OpenBothLegsFilled
    | OpenOnlySpotFilled
    | OpenOnlyPerpFilled
    | DiscoverOrphanSpot
    | DiscoverOrphanPerp
    | HedgeRecovered
    | FlatClosed
    | StaleReconciled
    | DustConverted

  function InitialStatus(event: Event): Option<Status> {
    match event
    case OpenBothLegsFilled => Some(Open)
    case OpenOnlySpotFilled | DiscoverOrphanSpot => Some(NakedSpot)
    case OpenOnlyPerpFilled | DiscoverOrphanPerp => Some(NakedPerp)
    case _ => None
  }

  function Transition(current: Status, event: Event): Option<Status> {
    match (current, event)
    case (Open, FlatClosed) => Some(Closed)
    case (Open, OpenOnlySpotFilled) => Some(NakedSpot)
    case (Open, OpenOnlyPerpFilled) => Some(NakedPerp)
    case (Open, DiscoverOrphanSpot) => Some(NakedSpot)
    case (Open, DiscoverOrphanPerp) => Some(NakedPerp)
    case (NakedSpot, HedgeRecovered) => Some(Open)
    case (NakedPerp, HedgeRecovered) => Some(Open)
    case (NakedSpot, FlatClosed) => Some(Closed)
    case (NakedPerp, FlatClosed) => Some(Closed)
    case (NakedSpot, StaleReconciled) => Some(Closed)
    case (NakedPerp, StaleReconciled) => Some(Closed)
    case (NakedSpot, DustConverted) => Some(Closed)
    case _ => None
  }

  predicate IsExposed(status: Status) {
    status == Open || status == NakedSpot || status == NakedPerp
  }

  /** The status after a whole history, None as soon as one event is illegal. */
  function Follow(status: Status, events: seq<Event>): Option<Status>
    decreases events
  {
    if events == [] then Some(status)
    else match Transition(status, events[0])
      case None => None
      case Some(next) => Follow(next, events[1..])
  }

  /** Nothing legal follows a close. */
  lemma ClosedIsFinal(events: seq<Event>)
    ensures Follow(Closed, events).Some? <==> events == []
  {
    if events != [] {
      assert Transition(Closed, events[0]) == None;
    }
  }

  /** Every legal history of an exposed row is exposed up to its last event: only that one can close it. */
  lemma {:induction false} ClosedOnlyAtTheEnd(status: Status, events: seq<Event>, n: nat)
    requires IsExposed(status) && Follow(status, events).Some? && n < |events|
    ensures Follow(status, events[..n]).Some? && IsExposed(Follow(status, events[..n]).value)
    decreases events
  {
    if 0 < n {
      var next := Transition(status, events[0]).value;
      ClosedIsFinal(events[1..]);
      ClosedOnlyAtTheEnd(next, events[1..], n - 1);
      assert events[1..][..n - 1] == events[..n][1..];
    }
  }

  /** The legs a status stands for. */
  function Legs(status: Status): set<Leg> {
    match status
    case Open => {Spot, Futures}
    case NakedSpot => {Spot}
    case NakedPerp => {Futures}
    case Closed => {}
  }

  /**
   * The table in terms of legs. A whole position can lose either leg; a naked one
   * can gain the other, or be found gone, and a naked spot be converted as dust;
   * any exposed one can be closed flat. Nothing else is legal.
   */
  lemma TransitionMovesLegs(current: Status, event: Event)
    ensures var next := Transition(current, event);
      var lone := Legs(current) == {Spot} || Legs(current) == {Futures};
      match event
      case OpenBothLegsFilled => next == None
      case OpenOnlySpotFilled | DiscoverOrphanSpot =>
        if Legs(current) == {Spot, Futures} then next.Some? && Legs(next.value) == {Spot} else next == None
      case OpenOnlyPerpFilled | DiscoverOrphanPerp =>
        if Legs(current) == {Spot, Futures} then next.Some? && Legs(next.value) == {Futures} else next == None
      case HedgeRecovered => if lone then next.Some? && Legs(next.value) == {Spot, Futures} else next == None
      case FlatClosed => if Legs(current) != {} then next.Some? && Legs(next.value) == {} else next == None
      case StaleReconciled => if lone then next.Some? && Legs(next.value) == {} else next == None
      case DustConverted => if Legs(current) == {Spot} then next.Some? && Legs(next.value) == {} else next == None
    ensures IsExposed(current) <==> Legs(current) != {}
    ensures match InitialStatus(event)
      case None => event in {HedgeRecovered, FlatClosed, StaleReconciled, DustConverted}
      case Some(first) =>
        Legs(first) == match event
                       case OpenBothLegsFilled => {Spot, Futures}
                       case OpenOnlySpotFilled | DiscoverOrphanSpot => {Spot}
                       case OpenOnlyPerpFilled | DiscoverOrphanPerp => {Futures}
                       case _ => {}
  {
    assert Spot in Legs(current) || Futures in Legs(current) || Legs(current) == {};
    assert Spot in {Spot, Futures} && Futures in {Spot, Futures} && Spot !in {Futures} && Futures !in {Spot};
  }
}

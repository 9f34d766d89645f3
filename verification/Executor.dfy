// The two-leg entry (loop/executor.py): buy spot and sell the perp at once,
// classify what landed, roll a single leg back.
module Executor {
  import opened Domain
  import opened Gateways

  datatype EntryOutcome = Success | Rejected | OrphanRecovered | OrphanNaked

  datatype EntryResult = EntryResult(
    outcome: EntryOutcome, spotFill: Fill, perpFill: Fill, rollbackFill: Option<Fill>, reason: string)

  datatype EntryOrder = EntryOrder(
    spotSymbol: string, perpSymbol: string, qty: real, spotCoid: string, perpCoid: string)

  function SpotOrder(e: EntryOrder): Order {
    Order(e.spotSymbol, Spot, Buy, e.qty, e.spotCoid)
  }

  function PerpOrder(e: EntryOrder): Order {
    Order(e.perpSymbol, Futures, Sell, e.qty, e.perpCoid)
  }

  function RollbackOrder(filled: Fill): Order {
    Order(filled.order.symbol, filled.order.leg, Reverse(filled.order.side), filled.qty, "r-" + filled.order.coid)
  }

  /** What the entry makes of one leg: a late or failed call counts as refused. */
  function Observed(answer: Answer): Fill {
    if answer.seen == TimedOut then Refused(answer.fill.order, "leg_timeout") else Reported(answer)
  }

  function CombineReasons(spot: Fill, perp: Fill): string {
    var s := if spot.error != "" then "spot:" + spot.error else "";
    var p := if perp.error != "" then "perp:" + perp.error else "";
    if s == "" && p == "" then "fok_rejected:unknown"
    else "fok_rejected:" + s + (if s != "" && p != "" then "+" else "") + p
  }

  /** The answers of one entry; there is a rollback exactly when one leg alone was seen to fill. */
  datatype Trace = Trace(spot: Answer, perp: Answer, rollback: Option<Answer>)

  predicate LoneLeg(spot: Answer, perp: Answer) {
    Observed(spot).accepted != Observed(perp).accepted
  }

  function FilledLeg(spot: Answer, perp: Answer): Fill {
    if Observed(spot).accepted then Observed(spot) else Observed(perp)
  }

  /** The classification; None when the rollback call raised and the exception left the entry. */
  function Verdict(t: Trace): Option<EntryResult> {
    var spot, perp := Observed(t.spot), Observed(t.perp);
    if spot.accepted && perp.accepted then Some(EntryResult(Success, spot, perp, None, ""))
    else if !spot.accepted && !perp.accepted then
      Some(EntryResult(Rejected, spot, perp, None, CombineReasons(spot, perp)))
    else match t.rollback
      case None => None
      case Some(a) =>
        if a.seen == Threw then None
        else if Reported(a).accepted then
          Some(EntryResult(OrphanRecovered, spot, perp, Some(Reported(a)), "single_leg_orphan_rolled_back"))
        else Some(EntryResult(OrphanNaked, spot, perp, Some(Reported(a)), "single_leg_orphan_rollback_failed"))
  }

  function LegsExecuted(spotFirst: bool, spot: Answer, perp: Answer): seq<Fill> {
    if spotFirst then Executed(spot) + Executed(perp) else Executed(perp) + Executed(spot)
  }

  /** What the venue executed, in its own order. */
  function ExecutedIn(spotFirst: bool, t: Trace): seq<Fill> {
    LegsExecuted(spotFirst, t.spot, t.perp) + match t.rollback case None => [] case Some(a) => Executed(a)
  }

  function CallLegs<S>(machine: Machine<S>, s: S, e: EntryOrder, spotFirst: bool): (Answer, Answer, S) {
    if spotFirst then
      var (spot, s1) := CallOrder(machine, s, SpotOrder(e));
      var (perp, s2) := CallOrder(machine, s1, PerpOrder(e));
      (spot, perp, s2)
    else
      var (perp, s1) := CallOrder(machine, s, PerpOrder(e));
      var (spot, s2) := CallOrder(machine, s1, SpotOrder(e));
      (spot, perp, s2)
  }

  /** The protocol as a function of the venue: spotFirst says which leg the venue serves first. */
  function Enter<S>(machine: Machine<S>, s: S, e: EntryOrder, spotFirst: bool): (Trace, S) {
    var (spot, perp, s2) := CallLegs(machine, s, e, spotFirst);
    if LoneLeg(spot, perp) then
      var (rollback, s3) := CallOrder(machine, s2, RollbackOrder(FilledLeg(spot, perp)));
      (Trace(spot, perp, Some(rollback)), s3)
    else (Trace(spot, perp, None), s2)
  }

  /** Both legs are sent at once; the venue serves them in some order. */
  method PlaceLegs<S>(gateway: Gateway<S>, e: EntryOrder, spotFirst: bool) returns (spot: Answer, perp: Answer)
    modifies gateway
    ensures (spot, perp, gateway.state) == CallLegs(gateway.machine, old(gateway.state), e, spotFirst)
    ensures gateway.executed == old(gateway.executed) + LegsExecuted(spotFirst, spot, perp)
  {
    if spotFirst {
      spot := gateway.Place(SpotOrder(e));
      perp := gateway.Place(PerpOrder(e));
    } else {
      perp := gateway.Place(PerpOrder(e));
      spot := gateway.Place(SpotOrder(e));
    }
  }

  /** None when the rollback call raised: the exception leaves the entry. */
  method ParallelEntry<S>(gateway: Gateway<S>, e: EntryOrder, spotFirst: bool)
    returns (r: Option<EntryResult>, ghost trace: Trace)
    modifies gateway
    ensures (trace, gateway.state) == Enter(gateway.machine, old(gateway.state), e, spotFirst)
    ensures r == Verdict(trace) && gateway.executed == old(gateway.executed) + ExecutedIn(spotFirst, trace)
  {
    var spotAnswer, perpAnswer := PlaceLegs(gateway, e, spotFirst);
    trace := Trace(spotAnswer, perpAnswer, None);
    ghost var legs := LegsExecuted(spotFirst, spotAnswer, perpAnswer);
    assert ExecutedIn(spotFirst, trace) == legs;
    var fills: map<Leg, Fill> := map[Spot := Observed(spotAnswer), Futures := Observed(perpAnswer)];

    var spot, perp := fills[Spot], fills[Futures];
    if spot.accepted && perp.accepted {
      return Some(EntryResult(Success, spot, perp, None, "")), trace;
    }
    if !spot.accepted && !perp.accepted {
      return Some(EntryResult(Rejected, spot, perp, None, CombineReasons(spot, perp))), trace;
    }
    var filled := if spot.accepted then spot else perp;
    var answer := gateway.Place(RollbackOrder(filled));
    trace := Trace(spotAnswer, perpAnswer, Some(answer));
    assert ExecutedIn(spotFirst, trace) == legs + Executed(answer);
    if answer.seen == Threw {
      return None, trace;
    }
    var rollback := Reported(answer);
    if rollback.accepted {
      return Some(EntryResult(OrphanRecovered, spot, perp, Some(rollback), "single_leg_orphan_rolled_back")), trace;
    }
    return Some(EntryResult(OrphanNaked, spot, perp, Some(rollback), "single_leg_orphan_rollback_failed")), trace;
  }

  // ----- what an outcome claims about the venue -----

  function Survivor(r: EntryResult): Fill {
    if r.spotFill.accepted then r.spotFill else r.perpFill
  }

  /** The exposure the caller books for a result; an escaped exception books nothing. */
  function Claimed(result: Option<EntryResult>, leg: Leg, symbol: string): real {
    match result
    case None => 0.0
    case Some(r) =>
      match r.outcome
      case Success => SignedOn(r.spotFill, leg, symbol) + SignedOn(r.perpFill, leg, symbol)
      case Rejected => 0.0
      case OrphanRecovered => 0.0
      case OrphanNaked => SignedOn(Survivor(r), leg, symbol)
  }

  ghost predicate ClaimMatchesVenue(spotFirst: bool, t: Trace) {
    forall leg, symbol :: Net(ExecutedIn(spotFirst, t), leg, symbol) == Claimed(Verdict(t), leg, symbol)
  }

  /**
   * Every leg the venue executed was answered in time; a rollback that raised had
   * been executed, and one that was reported as refused had not.
   */
  predicate Witnessed(t: Trace) {
    && (t.spot.fill.accepted ==> t.spot.seen == Answered)
    && (t.perp.fill.accepted ==> t.perp.seen == Answered)
    && (t.rollback.Some? && t.rollback.value.seen == Threw ==> t.rollback.value.fill.accepted)
    && (t.rollback.Some? && t.rollback.value.seen == Denied ==> !t.rollback.value.fill.accepted)
  }

  /** The answers are about the entry's own orders, whole or not at all. */
  predicate AnswersEntry(e: EntryOrder, t: Trace) {
    && AllOrNothing(SpotOrder(e), t.spot.fill) && AllOrNothing(PerpOrder(e), t.perp.fill)
    && (t.rollback.Some? <==> LoneLeg(t.spot, t.perp))
    && (t.rollback.Some? ==> AllOrNothing(RollbackOrder(FilledLeg(t.spot, t.perp)), t.rollback.value.fill))
  }

  lemma EntryIsAnswered<S>(machine: Machine<S>, s: S, e: EntryOrder, spotFirst: bool)
    ensures AnswersEntry(e, Enter(machine, s, e, spotFirst).0)
  {
    var (spot, perp, s2) := CallLegs(machine, s, e, spotFirst);
    if spotFirst {
      var (a, s1) := CallOrder(machine, s, SpotOrder(e));
      OrderIsAnswered(machine, s, SpotOrder(e));
      OrderIsAnswered(machine, s1, PerpOrder(e));
    } else {
      var (a, s1) := CallOrder(machine, s, PerpOrder(e));
      OrderIsAnswered(machine, s, PerpOrder(e));
      OrderIsAnswered(machine, s1, SpotOrder(e));
    }
    OrderIsAnswered(machine, s2, RollbackOrder(FilledLeg(spot, perp)));
  }

  lemma OrderIsAnswered<S>(machine: Machine<S>, s: S, order: Order)
    ensures AllOrNothing(order, CallOrder(machine, s, order).0.fill)
  {
  }

  function RollbackOn(t: Trace, leg: Leg, symbol: string): real {
    match t.rollback case None => 0.0 case Some(a) => SignedOn(a.fill, leg, symbol)
  }

  /** The venue's exposure is the sum over the answers, whichever leg went first. */
  lemma NetOfEntry(spotFirst: bool, t: Trace, leg: Leg, symbol: string)
    ensures Net(ExecutedIn(spotFirst, t), leg, symbol)
         == SignedOn(t.spot.fill, leg, symbol) + SignedOn(t.perp.fill, leg, symbol) + RollbackOn(t, leg, symbol)
  {
    NetOfAnswer(t.spot, leg, symbol);
    NetOfAnswer(t.perp, leg, symbol);
    NetAdds(Executed(t.spot), Executed(t.perp), leg, symbol);
    NetAdds(Executed(t.perp), Executed(t.spot), leg, symbol);
    var legs := LegsExecuted(spotFirst, t.spot, t.perp);
    match t.rollback
    case None => assert legs + [] == legs;
    case Some(a) =>
      NetOfAnswer(a, leg, symbol);
      NetAdds(legs, Executed(a), leg, symbol);
  }

  /** On the two legs of the entry, in plain numbers: what was executed and what is claimed. */
  lemma InNumbers(e: EntryOrder, t: Trace)
    requires AnswersEntry(e, t)
    ensures SignedOn(t.spot.fill, Spot, e.spotSymbol) == if t.spot.fill.accepted then e.qty else 0.0
    ensures SignedOn(t.perp.fill, Futures, e.perpSymbol) == if t.perp.fill.accepted then -e.qty else 0.0
    ensures SignedOn(t.perp.fill, Spot, e.spotSymbol) == SignedOn(t.spot.fill, Futures, e.perpSymbol) == 0.0
    ensures t.rollback.Some? && t.rollback.value.fill.accepted ==>
      if Observed(t.spot).accepted then
        RollbackOn(t, Spot, e.spotSymbol) == -e.qty && RollbackOn(t, Futures, e.perpSymbol) == 0.0
      else RollbackOn(t, Spot, e.spotSymbol) == 0.0 && RollbackOn(t, Futures, e.perpSymbol) == e.qty
    ensures t.rollback.Some? && !t.rollback.value.fill.accepted ==>
      RollbackOn(t, Spot, e.spotSymbol) == RollbackOn(t, Futures, e.perpSymbol) == 0.0
  {
  }

  /** An executed rollback takes back exactly the filled leg. */
  lemma RollbackUndoes(e: EntryOrder, t: Trace, leg: Leg, symbol: string)
    requires AnswersEntry(e, t) && t.rollback.Some?
    ensures RollbackOn(t, leg, symbol)
         == if t.rollback.value.fill.accepted then -SignedOn(FilledLeg(t.spot, t.perp), leg, symbol) else 0.0
  {
  }

  lemma WitnessedOn(e: EntryOrder, t: Trace, leg: Leg, symbol: string)
    requires AnswersEntry(e, t) && Witnessed(t)
    ensures SignedOn(t.spot.fill, leg, symbol) + SignedOn(t.perp.fill, leg, symbol) + RollbackOn(t, leg, symbol)
         == Claimed(Verdict(t), leg, symbol)
  {
    assert t.spot.fill.accepted == Observed(t.spot).accepted && t.perp.fill.accepted == Observed(t.perp).accepted;
    if t.rollback.Some? {
      RollbackUndoes(e, t, leg, symbol);
    }
  }

  lemma WitnessedMatches(e: EntryOrder, spotFirst: bool, t: Trace)
    requires AnswersEntry(e, t) && Witnessed(t)
    ensures ClaimMatchesVenue(spotFirst, t)
  {
    forall leg, symbol
      ensures Net(ExecutedIn(spotFirst, t), leg, symbol) == Claimed(Verdict(t), leg, symbol)
    {
      NetOfEntry(spotFirst, t, leg, symbol);
      WitnessedOn(e, t, leg, symbol);
    }
  }

  /** A rollback that came back refused leaves the filled leg on the books. */
  predicate Stuck(t: Trace) {
    t.rollback.Some? && t.rollback.value.seen != Threw && !Reported(t.rollback.value).accepted
  }

  lemma ClaimInNumbers(e: EntryOrder, t: Trace)
    requires AnswersEntry(e, t)
    ensures Claimed(Verdict(t), Spot, e.spotSymbol)
         == if Observed(t.spot).accepted && (Observed(t.perp).accepted || Stuck(t)) then e.qty else 0.0
    ensures Claimed(Verdict(t), Futures, e.perpSymbol)
         == if Observed(t.perp).accepted && (Observed(t.spot).accepted || Stuck(t)) then -e.qty else 0.0
  {
  }

  /** A leg executed out of sight is on the venue and in no claim; a rollback is of the other leg. */
  lemma UnseenLegDiffers(e: EntryOrder, spotFirst: bool, t: Trace)
    requires AnswersEntry(e, t) && 0.0 < e.qty
    ensures t.spot.fill.accepted && t.spot.seen != Answered ==>
      Net(ExecutedIn(spotFirst, t), Spot, e.spotSymbol) != Claimed(Verdict(t), Spot, e.spotSymbol)
    ensures t.perp.fill.accepted && t.perp.seen != Answered ==>
      Net(ExecutedIn(spotFirst, t), Futures, e.perpSymbol) != Claimed(Verdict(t), Futures, e.perpSymbol)
  {
    NetOfEntry(spotFirst, t, Spot, e.spotSymbol);
    NetOfEntry(spotFirst, t, Futures, e.perpSymbol);
    InNumbers(e, t);
    ClaimInNumbers(e, t);
  }

  /** A rollback its caller misjudges leaves the leg it was meant for apart from the claim. */
  lemma MisjudgedRollbackDiffers(e: EntryOrder, spotFirst: bool, t: Trace)
    requires AnswersEntry(e, t) && 0.0 < e.qty && t.rollback.Some?
    requires (t.spot.fill.accepted ==> t.spot.seen == Answered) && (t.perp.fill.accepted ==> t.perp.seen == Answered)
    requires var a := t.rollback.value; (a.seen == Threw && !a.fill.accepted) || (a.seen == Denied && a.fill.accepted)
    ensures if Observed(t.spot).accepted then
              Net(ExecutedIn(spotFirst, t), Spot, e.spotSymbol) != Claimed(Verdict(t), Spot, e.spotSymbol)
            else Net(ExecutedIn(spotFirst, t), Futures, e.perpSymbol) != Claimed(Verdict(t), Futures, e.perpSymbol)
  {
    NetOfEntry(spotFirst, t, Spot, e.spotSymbol);
    NetOfEntry(spotFirst, t, Futures, e.perpSymbol);
    InNumbers(e, t);
    ClaimInNumbers(e, t);
  }

  lemma UnwitnessedDiffers(e: EntryOrder, spotFirst: bool, t: Trace)
    requires AnswersEntry(e, t) && !Witnessed(t) && 0.0 < e.qty
    ensures !ClaimMatchesVenue(spotFirst, t)
    ensures Net(ExecutedIn(spotFirst, t), Spot, e.spotSymbol) != Claimed(Verdict(t), Spot, e.spotSymbol)
         || Net(ExecutedIn(spotFirst, t), Futures, e.perpSymbol) != Claimed(Verdict(t), Futures, e.perpSymbol)
  {
    if (t.spot.fill.accepted && t.spot.seen != Answered) || (t.perp.fill.accepted && t.perp.seen != Answered) {
      UnseenLegDiffers(e, spotFirst, t);
    } else {
      MisjudgedRollbackDiffers(e, spotFirst, t);
    }
  }

  /**
   * Against any venue, the booked exposure is the venue's exposure on every leg of
   * every symbol exactly when every executed leg was answered in time, a rollback
   * that raised was executed and a rollback reported as refused was not.
   */
  lemma EntryClaimIff<S>(machine: Machine<S>, s: S, e: EntryOrder, spotFirst: bool)
    requires 0.0 < e.qty
    ensures var t := Enter(machine, s, e, spotFirst).0; ClaimMatchesVenue(spotFirst, t) <==> Witnessed(t)
  {
    var t := Enter(machine, s, e, spotFirst).0;
    EntryIsAnswered(machine, s, e, spotFirst);
    if Witnessed(t) {
      WitnessedMatches(e, spotFirst, t);
    } else {
      UnwitnessedDiffers(e, spotFirst, t);
    }
  }

  /**
   * What each outcome leaves at the venue, once witnessed: a full pair, nothing,
   * nothing, or exactly the surviving leg.
   */
  lemma OutcomeMeaning<S>(machine: Machine<S>, s: S, e: EntryOrder, spotFirst: bool)
    requires Witnessed(Enter(machine, s, e, spotFirst).0)
    ensures var t := Enter(machine, s, e, spotFirst).0;
      var spot := Net(ExecutedIn(spotFirst, t), Spot, e.spotSymbol);
      var perp := Net(ExecutedIn(spotFirst, t), Futures, e.perpSymbol);
      match Verdict(t)
      case None => spot == perp == 0.0
      case Some(r) =>
        match r.outcome
        case Success => spot == e.qty && perp == -e.qty
        case Rejected => spot == perp == 0.0
        case OrphanRecovered => spot == perp == 0.0
        case OrphanNaked =>
          Survivor(r).accepted &&
          if Survivor(r).order.leg == Spot then spot == e.qty && perp == 0.0 else spot == 0.0 && perp == -e.qty
  {
    var t := Enter(machine, s, e, spotFirst).0;
    EntryIsAnswered(machine, s, e, spotFirst);
    WitnessedMatches(e, spotFirst, t);
    ClaimInNumbers(e, t);
  }
}

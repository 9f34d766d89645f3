// What the loop sees of any venue (gateways/base.py): a machine with hidden
// state that answers requests. The machine is arbitrary. A reply to an order says
// what the venue did with it and, apart from that, what the caller got to see.
module Gateways {
  import opened Domain

  datatype FundingInfo = FundingInfo(symbol: string, predictedRate: real, windows: nat)

  datatype WalletBalance = WalletBalance(free: real, total: real)

  datatype Request =
    | PlaceOrder(order: Order)
    | FetchFundingRates
    | FetchFunding(symbol: string)
    | SnapshotBook(symbol: string)
    | FetchFees(spotSymbol: string, perpSymbol: string)
    | FetchBalance(asset: string)
    | ListOpenPerps
    | FetchLotStep(symbol: string)

  /**
   * How an order call ended for the caller, whatever the venue did with the order.
   * Denied is an answer lost on the way: every live client turns an exception of its
   * order call into a refusal (gateways/binance.py:306, kucoin.py:289, hyperliquid.py:259).
   */
  datatype Seen = Answered | Denied | TimedOut | Threw

  datatype Reply =
    | Ordered(fill: Fill, seen: Seen)
    | Rates(rates: seq<FundingInfo>)
    | Funding(funding: FundingInfo)
    | Book(book: BookSnapshot)
    | Fees(spotFeeBps: real, perpFeeBps: real)
    | Balances(spot: WalletBalance, futures: WalletBalance)
    | Perps(perps: map<string, real>)
    | LotStep(step: real)
    | Failed

  type Machine<!S> = (S, Request) -> (Reply, S)

  /** What the venue did with an order, and what the caller saw of it. */
  datatype Answer = Answer(fill: Fill, seen: Seen)

  /** A reply that is no fill-or-kill answer to this order is an exception to the caller. */
  function AnswerTo(order: Order, reply: Reply): Answer {
    if reply.Ordered? && AllOrNothing(order, reply.fill) then Answer(reply.fill, reply.seen)
    else Answer(Refused(order, "no_answer"), Threw)
  }

  /** What a caller that waits for its order is told; an exception tells it nothing. */
  function Reported(answer: Answer): Fill {
    match answer.seen
    case Answered => answer.fill
    case TimedOut => answer.fill
    case Denied => Refused(answer.fill.order, "exception")
    case Threw => Refused(answer.fill.order, "exception")
  }

  function CallOrder<S>(machine: Machine<S>, s: S, order: Order): (Answer, S) {
    var (reply, s') := machine(s, PlaceOrder(order));
    (AnswerTo(order, reply), s')
  }

  /** Any other reply is an exception to the caller. */
  predicate Fits(request: Request, reply: Reply) {
    match request
    case PlaceOrder(_) => reply.Ordered?
    case FetchFundingRates => reply.Rates?
    case FetchFunding(_) => reply.Funding?
    case SnapshotBook(_) => reply.Book?
    case FetchFees(_, _) => reply.Fees?
    case FetchBalance(_) => reply.Balances?
    case ListOpenPerps => reply.Perps?
    case FetchLotStep(_) => reply.LotStep?
  }

  predicate AllFit(requests: seq<Request>, replies: seq<Reply>) {
    |replies| == |requests| && forall i :: 0 <= i < |requests| ==> Fits(requests[i], replies[i])
  }

  /** Questions asked one after the other, up to the first that raises. */
  function Consulted<S>(machine: Machine<S>, s: S, requests: seq<Request>): (r: (Result<seq<Reply>>, S))
    ensures r.0.Ok? ==> AllFit(requests, r.0.value)
    ensures r.0.Raised? ==> r.0.exn == GatewayRaised
  {
    if requests == [] then (Ok([]), s)
    else
      var n := |requests| - 1;
      var (before, s1) := Consulted(machine, s, requests[..n]);
      if before.Raised? then (before, s1) else NextReply(machine, s1, before.value, requests[n])
  }

  function NextReply<S>(machine: Machine<S>, s: S, before: seq<Reply>, request: Request): (Result<seq<Reply>>, S) {
    var (reply, s') := machine(s, request);
    (if Fits(request, reply) then Ok(before + [reply]) else Raised(GatewayRaised), s')
  }

  lemma {:induction false} ConsultedInTwo<S>(machine: Machine<S>, s: S, first: seq<Request>, second: seq<Request>)
    ensures var (a, s1) := Consulted(machine, s, first);
      var (b, s2) := Consulted(machine, s1, second);
      Consulted(machine, s, first + second)
      == if a.Raised? then (a, s1) else if b.Raised? then (b, s2) else (Ok(a.value + b.value), s2)
    decreases second
  {
    var a := Consulted(machine, s, first).0;
    if second == [] {
      assert first + second == first;
      assert a.Ok? ==> a.value + [] == a.value;
    } else {
      var n := |second| - 1;
      ConsultedInTwo(machine, s, first, second[..n]);
      assert (first + second)[..|first + second| - 1] == first + second[..n];
      if a.Ok? {
        var (b, s2) := Consulted(machine, Consulted(machine, s, first).1, second[..n]);
        if b.Ok? {
          var reply := machine(s2, second[n]).0;
          assert a.value + b.value + [reply] == a.value + (b.value + [reply]);
        }
      }
    }
  }

  /** The fills a venue has executed for one answer. */
  function Executed(answer: Answer): seq<Fill> {
    if answer.fill.accepted then [answer.fill] else []
  }

  class Gateway<!S> {
    const machine: Machine<S>
    var state: S
    ghost var executed: seq<Fill>

    constructor (machine: Machine<S>, state: S)
      ensures this.machine == machine && this.state == state && executed == []
    {
      this.machine, this.state, this.executed := machine, state, [];
    }

    method Ask(request: Request) returns (reply: Reply)
      requires !request.PlaceOrder?
      modifies `state
      ensures (reply, state) == machine(old(state), request)
    {
      var (r, s) := machine(state, request);
      reply, state := r, s;
    }

    method Consult(requests: seq<Request>) returns (r: Result<seq<Reply>>)
      requires forall q :: q in requests ==> !q.PlaceOrder?
      modifies `state
      ensures (r, state) == Consulted(machine, old(state), requests)
    {
      var replies: seq<Reply> := [];
      var n := 0;
      while n < |requests|
        invariant n <= |requests|
        invariant Consulted(machine, old(state), requests[..n]) == (Ok(replies), state)
      {
        var reply := Ask(requests[n]);
        assert requests[..n + 1][..n] == requests[..n];
        if !Fits(requests[n], reply) {
          ConsultedInTwo(machine, old(state), requests[..n + 1], requests[n + 1..]);
          assert requests == requests[..n + 1] + requests[n + 1..];
          return Raised(GatewayRaised);
        }
        replies := replies + [reply];
        n := n + 1;
      }
      assert requests[..n] == requests;
      return Ok(replies);
    }

    method Place(order: Order) returns (answer: Answer)
      modifies `state, `executed
      ensures (answer, state) == CallOrder(machine, old(state), order)
      ensures executed == old(executed) + Executed(answer) && AllOrNothing(order, answer.fill)
    {
      var (a, s) := CallOrder(machine, state, order);
      answer, state := a, s;
      executed := executed + Executed(a);
    }
  }

  // ----- venues that refuse repeated ids -----

  /**
   * used names the ids a venue has spent in a state: no request gives one back, an
   * order spends its own, and an order under a spent id is never executed.
   */
  ghost predicate RefusesRepeats<S(!new)>(machine: Machine<S>, used: S -> set<string>) {
    && (forall s, request :: used(s) <= used(machine(s, request).1))
    && (forall s, order: Order :: order.coid in used(CallOrder(machine, s, order).1))
    && (forall s, order: Order :: order.coid in used(s) ==> !CallOrder(machine, s, order).0.fill.accepted)
  }

  function Served<S>(machine: Machine<S>, s: S, requests: seq<Request>): S {
    if requests == [] then s else machine(Served(machine, s, requests[..|requests| - 1]), requests[|requests| - 1]).1
  }

  lemma {:induction false} SpentStays<S(!new)>(
    machine: Machine<S>, used: S -> set<string>, s: S, requests: seq<Request>)
    requires RefusesRepeats(machine, used)
    ensures used(s) <= used(Served(machine, s, requests))
  {
    if requests != [] {
      SpentStays(machine, used, s, requests[..|requests| - 1]);
    }
  }

  // ----- exposure -----

  function Signed(fill: Fill): real {
    if !fill.accepted then 0.0 else if fill.order.side == Buy then fill.qty else -fill.qty
  }

  function SignedOn(fill: Fill, leg: Leg, symbol: string): real {
    if fill.order.leg == leg && fill.order.symbol == symbol then Signed(fill) else 0.0
  }

  /** Net base units the executed fills leave on one leg of one symbol. */
  function Net(fills: seq<Fill>, leg: Leg, symbol: string): real {
    if fills == [] then 0.0
    else Net(fills[..|fills| - 1], leg, symbol) + SignedOn(fills[|fills| - 1], leg, symbol)
  }

  lemma {:induction false} NetAdds(fills: seq<Fill>, more: seq<Fill>, leg: Leg, symbol: string)
    ensures Net(fills + more, leg, symbol) == Net(fills, leg, symbol) + Net(more, leg, symbol)
    decreases more
  {
    if more == [] {
      assert fills + more == fills;
    } else {
      var n := |more| - 1;
      NetAdds(fills, more[..n], leg, symbol);
      assert (fills + more)[..|fills + more| - 1] == fills + more[..n];
    }
  }

  lemma NetOfAnswer(answer: Answer, leg: Leg, symbol: string)
    ensures Net(Executed(answer), leg, symbol) == SignedOn(answer.fill, leg, symbol)
  {
    if answer.fill.accepted {
      assert Executed(answer)[..0] == [];
    }
  }
}

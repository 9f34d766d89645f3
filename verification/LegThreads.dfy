// The two entry legs as threads sharing one synthetic gateway
// (loop/executor.py submits both; gateways/paper.py is what they share).
//
// Each leg is the body of the order call cut at every access to shared state, the
// read and the write of a wallet included; a schedule says whose turn each step is.
module LegThreads {
  import opened RealArith
  import opened Domain
  import opened PaperGateway
  import opened Symbols

  datatype Point = CheckId | RememberId | WalkBook | ReadQuote | WriteQuote | ReadBase | WriteBase | Returned

  /** read is the wallet the thread has read and not yet written back. */
  datatype Thread = Thread(order: Order, at: Point, fill: Fill, read: Wallet)

  function Start(order: Order): Thread {
    Thread(order, CheckId, Refused(order, ""), Wallet(0.0, 0.0))
  }

  function Read(t: Thread, st: PaperState, asset: string, next: Point): Thread {
    t.(read := WalletIn(st.BucketOf(t.order.leg), asset), at := next)
  }

  function Write(t: Thread, st: PaperState, asset: string, delta: real): PaperState {
    st.WithBucket(t.order.leg,
      st.BucketOf(t.order.leg)[asset := Wallet(Max(0.0, t.read.free + delta), Max(0.0, t.read.total + delta))])
  }

  function Step(cfg: Config, t: Thread, st: PaperState): (Thread, PaperState) {
    match t.at
    case CheckId =>
      if t.order.coid in st.seen then
        (t.(fill := Refused(t.order, "duplicate_client_order_id"), at := Returned), st)
      else (t.(at := RememberId), st)
    case RememberId => (t.(at := WalkBook), st.(seen := st.seen + {t.order.coid}))
    case WalkBook =>
      var fill := Quote(cfg, t.order);
      (t.(fill := fill, at := if MovesWallets(cfg, fill) then ReadQuote else Returned), st)
    case ReadQuote => (Read(t, st, QuoteAsset(t.order.symbol), WriteQuote), st)
    case WriteQuote =>
      (t.(at := if t.order.leg == Spot then ReadBase else Returned),
       Write(t, st, QuoteAsset(t.order.symbol), QuoteDelta(t.fill)))
    case ReadBase => (Read(t, st, BaseAsset(t.order.symbol), WriteBase), st)
    case WriteBase => (t.(at := Returned), Write(t, st, BaseAsset(t.order.symbol), BaseDelta(t.fill)))
    case Returned => (t, st)
  }

  const STEPS: nat := 7

  /** A thread running alone for k steps. */
  function Solo(cfg: Config, t: Thread, st: PaperState, k: nat): (Thread, PaperState)
    decreases k
  {
    if k == 0 then (t, st)
    else var (t', st') := Step(cfg, t, st); Solo(cfg, t', st', k - 1)
  }

  datatype Pair = Pair(first: Thread, second: Thread, st: PaperState)

  /** Two threads under a schedule; true gives the first thread a turn. */
  function Interleave(cfg: Config, p: Pair, schedule: seq<bool>): Pair
    decreases schedule
  {
    if schedule == [] then p
    else if schedule[0] then
      var (t, st) := Step(cfg, p.first, p.st); Interleave(cfg, Pair(t, p.second, st), schedule[1..])
    else
      var (t, st) := Step(cfg, p.second, p.st); Interleave(cfg, Pair(p.first, t, st), schedule[1..])
  }

  function Turns(schedule: seq<bool>, who: bool): nat {
    if schedule == [] then 0 else (if schedule[0] == who then 1 else 0) + Turns(schedule[1..], who)
  }

  /** The part of the shared state an order can see. */
  ghost predicate SameView(order: Order, s: PaperState, t: PaperState) {
    s.BucketOf(order.leg) == t.BucketOf(order.leg) && (order.coid in s.seen <==> order.coid in t.seen)
  }

  ghost predicate Apart(a: Order, b: Order) {
    a.leg != b.leg && a.coid != b.coid
  }

  /** A step depends on its own view only ... */
  lemma StepIsLocal(cfg: Config, t: Thread, s: PaperState, s': PaperState)
    requires SameView(t.order, s, s')
    ensures Step(cfg, t, s).0 == Step(cfg, t, s').0 && Step(cfg, t, s).0.order == t.order
    ensures SameView(t.order, Step(cfg, t, s).1, Step(cfg, t, s').1)
  {
  }

  /** ... and leaves the view of the other leg alone. */
  lemma StepLeavesTheOther(cfg: Config, t: Thread, st: PaperState, other: Order)
    requires Apart(t.order, other)
    ensures SameView(other, st, Step(cfg, t, st).1)
  {
  }

  /** Under any schedule the first thread does what it does alone. */
  lemma {:induction false} FirstIsUndisturbed(cfg: Config, p: Pair, alone: PaperState, schedule: seq<bool>)
    requires Apart(p.first.order, p.second.order) && SameView(p.first.order, p.st, alone)
    ensures var end, (t, st) := Interleave(cfg, p, schedule), Solo(cfg, p.first, alone, Turns(schedule, true));
      end.first == t && SameView(p.first.order, end.st, st)
    decreases schedule
  {
    if schedule != [] {
      if schedule[0] {
        StepIsLocal(cfg, p.first, p.st, alone);
        var (t, st) := Step(cfg, p.first, p.st);
        FirstIsUndisturbed(cfg, Pair(t, p.second, st), Step(cfg, p.first, alone).1, schedule[1..]);
      } else {
        StepLeavesTheOther(cfg, p.second, p.st, p.first.order);
        var (t, st) := Step(cfg, p.second, p.st);
        FirstIsUndisturbed(cfg, Pair(p.first, t, st), alone, schedule[1..]);
      }
    }
  }

  function Swapped(schedule: seq<bool>): seq<bool> {
    if schedule == [] then [] else [!schedule[0]] + Swapped(schedule[1..])
  }

  lemma {:induction false} SwapRoles(cfg: Config, p: Pair, schedule: seq<bool>)
    ensures var end := Interleave(cfg, p, schedule);
      Interleave(cfg, Pair(p.second, p.first, p.st), Swapped(schedule)) == Pair(end.second, end.first, end.st)
    ensures Turns(Swapped(schedule), true) == Turns(schedule, false)
    decreases schedule
  {
    if schedule != [] {
      var rest := Swapped(schedule[1..]);
      assert Swapped(schedule)[0] == !schedule[0] && Swapped(schedule)[1..] == rest;
      if schedule[0] {
        var (t, st) := Step(cfg, p.first, p.st);
        SwapRoles(cfg, Pair(t, p.second, st), schedule[1..]);
      } else {
        var (t, st) := Step(cfg, p.second, p.st);
        SwapRoles(cfg, Pair(p.first, t, st), schedule[1..]);
      }
    }
  }

  /** No schedule touches an id that is not one of the two. */
  lemma {:induction false} OtherIdsUntouched(cfg: Config, p: Pair, schedule: seq<bool>, id: string)
    requires id != p.first.order.coid && id != p.second.order.coid
    ensures id in Interleave(cfg, p, schedule).st.seen <==> id in p.st.seen
    decreases schedule
  {
    if schedule != [] {
      if schedule[0] {
        var (t, st) := Step(cfg, p.first, p.st);
        OtherIdsUntouched(cfg, Pair(t, p.second, st), schedule[1..], id);
      } else {
        var (t, st) := Step(cfg, p.second, p.st);
        OtherIdsUntouched(cfg, Pair(p.first, t, st), schedule[1..], id);
      }
    }
  }

  lemma {:induction false} ReturnedStays(cfg: Config, t: Thread, st: PaperState, k: nat)
    requires t.at == Returned
    ensures Solo(cfg, t, st, k) == (t, st)
  {
    if k > 0 {
      ReturnedStays(cfg, t, st, k - 1);
    }
  }

  /** Alone, seven steps are the whole order call. */
  lemma SoloIsPlace(cfg: Config, order: Order, st: PaperState, k: nat)
    requires STEPS <= k
    ensures var (t, st') := Solo(cfg, Start(order), st, k);
      t.at == Returned && (t.fill, st') == Place(cfg, st, order)
  {
    var (t1, s1) := Step(cfg, Start(order), st);
    if t1.at == Returned {
      ReturnedStays(cfg, t1, s1, k - 1);
    } else {
      var (t2, s2) := Step(cfg, t1, s1);
      var (t3, s3) := Step(cfg, t2, s2);
      assert Solo(cfg, Start(order), st, k) == Solo(cfg, t1, s1, k - 1) == Solo(cfg, t2, s2, k - 2)
          == Solo(cfg, t3, s3, k - 3);
      if t3.at == Returned {
        ReturnedStays(cfg, t3, s3, k - 3);
      } else {
        QuoteIsMoved(cfg, t3, s3, k - 3);
      }
    }
  }

  /** Reading and writing back the quote wallet moves it; a futures leg then returns. */
  lemma QuoteIsMoved(cfg: Config, t: Thread, st: PaperState, k: nat)
    requires t.at == ReadQuote && t.fill.order == t.order && 4 <= k
    ensures var leg := t.order.leg;
      var (end, st') := Solo(cfg, t, st, k);
      && end.at == Returned && end.fill == t.fill
      && st' == st.WithBucket(leg, MoveBase(MoveQuote(st.BucketOf(leg), t.fill), t.fill))
  {
    var leg := t.order.leg;
    var (t1, s1) := Step(cfg, t, st);
    var (t2, s2) := Step(cfg, t1, s1);
    assert Solo(cfg, t, st, k) == Solo(cfg, t1, s1, k - 1) == Solo(cfg, t2, s2, k - 2);
    assert s2 == st.WithBucket(leg, MoveQuote(st.BucketOf(leg), t.fill));
    if leg == Spot {
      BaseIsMoved(cfg, t2, s2, k - 2);
    } else {
      ReturnedStays(cfg, t2, s2, k - 2);
    }
  }

  lemma BaseIsMoved(cfg: Config, t: Thread, st: PaperState, k: nat)
    requires t.at == ReadBase && t.fill.order == t.order && t.order.leg == Spot && 2 <= k
    ensures var (end, st') := Solo(cfg, t, st, k);
      && end.at == Returned && end.fill == t.fill && st' == st.WithBucket(Spot, MoveBase(st.spot, t.fill))
  {
    var (t1, s1) := Step(cfg, t, st);
    var (t2, s2) := Step(cfg, t1, s1);
    assert Solo(cfg, t, st, k) == Solo(cfg, t1, s1, k - 1) == Solo(cfg, t2, s2, k - 2);
    ReturnedStays(cfg, t2, s2, k - 2);
  }

  lemma PlaceIsLocal(cfg: Config, order: Order, s: PaperState, s': PaperState)
    requires SameView(order, s, s')
    ensures Place(cfg, s, order).0 == Place(cfg, s', order).0
    ensures SameView(order, Place(cfg, s, order).1, Place(cfg, s', order).1)
  {
  }

  lemma PlaceLeavesTheOther(cfg: Config, order: Order, st: PaperState, other: Order)
    requires Apart(order, other)
    ensures SameView(other, st, Place(cfg, st, order).1)
  {
  }

  /** States that agree on both legs' views and on all other ids are equal. */
  lemma ViewsDetermineState(a: Order, b: Order, s: PaperState, t: PaperState)
    requires a.leg != b.leg && SameView(a, s, t) && SameView(b, s, t)
    requires forall id :: id != a.coid && id != b.coid ==> (id in s.seen <==> id in t.seen)
    ensures s == t
  {
    assert forall id :: id in s.seen <==> id in t.seen;
    assert s.seen == t.seen;
  }

  /**
   * Every schedule that gives both legs their seven steps ends in the same place:
   * the fills, the wallets and the ids of placing one leg after the other.
   */
  lemma AnyScheduleIsSequential(cfg: Config, st: PaperState, a: Order, b: Order, schedule: seq<bool>)
    requires Apart(a, b) && STEPS <= Turns(schedule, true) && STEPS <= Turns(schedule, false)
    ensures var end := Interleave(cfg, Pair(Start(a), Start(b), st), schedule);
      var (fillA, afterA) := Place(cfg, st, a);
      var (fillB, afterBoth) := Place(cfg, afterA, b);
      && end.first.at == end.second.at == Returned
      && end.first.fill == fillA && end.second.fill == fillB && end.st == afterBoth
  {
    var p := Pair(Start(a), Start(b), st);
    var end := Interleave(cfg, p, schedule);
    var (fillA, afterA) := Place(cfg, st, a);
    var (fillB, afterBoth) := Place(cfg, afterA, b);

    FirstIsUndisturbed(cfg, p, st, schedule);
    SoloIsPlace(cfg, a, st, Turns(schedule, true));
    PlaceLeavesTheOther(cfg, b, afterA, a);

    SwapRoles(cfg, p, schedule);
    FirstIsUndisturbed(cfg, Pair(Start(b), Start(a), st), st, Swapped(schedule));
    SoloIsPlace(cfg, b, st, Turns(schedule, false));
    PlaceLeavesTheOther(cfg, a, st, b);
    PlaceIsLocal(cfg, b, st, afterA);

    forall id | id != a.coid && id != b.coid
      ensures id in end.st.seen <==> id in afterBoth.seen
    {
      OtherIdsUntouched(cfg, p, schedule, id);
    }
    ViewsDetermineState(a, b, end.st, afterBoth);
  }

  /** In particular the two legs commute. */
  lemma LegsCommute(cfg: Config, st: PaperState, a: Order, b: Order)
    requires Apart(a, b)
    ensures var (fillA, afterA) := Place(cfg, st, a);
      var (fillB, afterB) := Place(cfg, st, b);
      Place(cfg, afterA, b) == (fillB, Place(cfg, afterB, a).1) && Place(cfg, afterB, a).0 == fillA
  {
    var (fillA, afterA) := Place(cfg, st, a);
    var (fillB, afterB) := Place(cfg, st, b);
    PlaceLeavesTheOther(cfg, a, st, b);
    PlaceLeavesTheOther(cfg, b, st, a);
    PlaceIsLocal(cfg, b, st, afterA);
    PlaceIsLocal(cfg, a, st, afterB);
    PlaceLeavesTheOther(cfg, b, afterA, a);
    PlaceLeavesTheOther(cfg, a, afterB, b);
    ViewsDetermineState(a, b, Place(cfg, afterA, b).1, Place(cfg, afterB, a).1);
  }
}

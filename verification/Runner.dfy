// Capacity under concurrency (loop/runner.py, loop/cycle.py): the workers of one
// mode, one per exchange, each running cycles in its own transaction against
// one shared position table and one limit.
//
// A worker's exposed rows are listed by base asset. Only the worker of an
// exchange writes that exchange's rows; the others count them as last committed.
module Runner {

  datatype Phase =
    | Idle
    | Running                // phases A and B: may close rows
    | Counted(others: int)   // has looked at the other exchanges' committed rows
    | Armed                  // found room: may insert one row
    | Finished

  datatype Worker = Worker(committed: seq<string>, working: seq<string>, phase: Phase)

  type System = seq<Worker>

  datatype Action =
    | Begin(w: nat)
    | Close(w: nat, i: nat)
    | Look(w: nat)
    | CheckCapacity(w: nat)
    | Insert(w: nat, base: string)
    | Commit(w: nat)
    | Abort(w: nat)

  // ----- sums -----

  function Sum(s: seq<int>): int {
    if s == [] then 0 else s[0] + Sum(s[1..])
  }

  lemma {:induction false} SumUpdate(s: seq<int>, i: nat, x: int)
    requires i < |s|
    ensures Sum(s[i := x]) == Sum(s) - s[i] + x
  {
    if i == 0 {
      assert s[i := x][1..] == s[1..];
    } else {
      SumUpdate(s[1..], i - 1, x);
      assert s[i := x][1..] == s[1..][i - 1 := x];
    }
  }

  /** A pointwise bound with slack one, exact at index i. */
  lemma {:induction false} SumSlack(s: seq<int>, t: seq<int>, slack: int)
    requires |s| == |t| && forall i :: 0 <= i < |s| ==> s[i] <= t[i] + slack
    ensures Sum(s) <= Sum(t) + slack * |s|
  {
    if s != [] {
      SumSlack(s[1..], t[1..], slack);
    }
  }

  function Sizes(sys: System): (s: seq<int>)
    ensures |s| == |sys| && forall v :: 0 <= v < |sys| ==> s[v] == |sys[v].committed|
  {
    seq(|sys|, v requires 0 <= v < |sys| => |sys[v].committed|)
  }

  /** Committed exposed rows over all exchanges. */
  function Exposed(sys: System): int {
    Sum(Sizes(sys))
  }

  function Others(sys: System, w: nat): int
    requires w < |sys|
  {
    Exposed(sys) - |sys[w].committed|
  }

  function MinInt(a: int, b: int): int {
    if a <= b then a else b
  }

  function MaxInt(a: int, b: int): int {
    if a <= b then b else a
  }

  // ----- steps -----

  function Without(s: seq<string>, i: nat): seq<string>
    requires i < |s|
  {
    s[..i] + s[i + 1..]
  }

  /** One action of one worker; an action that is not enabled changes nothing. */
  function Step(sys: System, cap: nat, action: Action): System {
    if action.w >= |sys| then sys
    else
      var me := sys[action.w];
      match action
      case Begin(w) => if me.phase == Idle then sys[w := Worker(me.committed, me.committed, Running)] else sys
      case Close(w, i) =>
        if (me.phase == Running || me.phase.Counted?) && i < |me.working|
        then sys[w := me.(working := Without(me.working, i))] else sys
      case Look(w) =>
        if me.phase == Running then sys[w := me.(phase := Counted(Others(sys, w)))] else sys
      case CheckCapacity(w) =>
        if me.phase.Counted?
        then sys[w := me.(phase := if me.phase.others + |me.working| >= cap then Finished else Armed)] else sys
      case Insert(w, base) =>
        if me.phase == Armed && base !in me.working
        then sys[w := me.(working := me.working + [base], phase := Finished)] else sys
      case Commit(w) =>
        if me.phase != Idle then sys[w := Worker(me.working, me.working, Idle)] else sys
      case Abort(w) => if me.phase != Idle then sys[w := Worker(me.committed, me.committed, Idle)] else sys
  }

  function Run(sys: System, cap: nat, actions: seq<Action>): System
    decreases actions
  {
    if actions == [] then sys else Run(Step(sys, cap, actions[0]), cap, actions[1..])
  }

  // ----- the invariant -----

  /** The most rows this worker's transaction can still commit. */
  function Potential(me: Worker, cap: nat): int {
    match me.phase
    case Idle => |me.committed|
    case Running => |me.working|
    case Counted(others) => MaxInt(|me.working|, MinInt(|me.working| + 1, cap - others))
    case Armed => |me.working| + 1
    case Finished => |me.working|
  }

  function Reserved(me: Worker, cap: nat): int {
    MaxInt(|me.committed|, Potential(me, cap))
  }

  function Reserves(sys: System, cap: nat): (s: seq<int>)
    ensures |s| == |sys| && forall v :: 0 <= v < |sys| ==> s[v] == Reserved(sys[v], cap)
  {
    seq(|sys|, v requires 0 <= v < |sys| => Reserved(sys[v], cap))
  }

  predicate Distinct(s: seq<string>) {
    forall i, j :: 0 <= i < j < |s| ==> s[i] != s[j]
  }

  ghost predicate Sane(me: Worker) {
    && Distinct(me.committed) && Distinct(me.working)
    && |me.working| <= |me.committed| + (if me.phase == Finished then 1 else 0)
  }

  ghost predicate Inv(sys: System, cap: nat) {
    && (forall v :: 0 <= v < |sys| ==> Sane(sys[v]))
    && Sum(Reserves(sys, cap)) <= cap + |sys| - 1
  }

  /** The worker an action leaves behind: its own row is all that changes. */
  lemma StepChangesOne(sys: System, cap: nat, action: Action)
    ensures |Step(sys, cap, action)| == |sys|
    ensures forall v :: 0 <= v < |sys| && v != action.w ==> Step(sys, cap, action)[v] == sys[v]
  {
  }

  lemma DistinctWithout(s: seq<string>, i: nat)
    requires i < |s| && Distinct(s)
    ensures Distinct(Without(s, i))
  {
  }

  lemma StepKeepsSane(sys: System, cap: nat, action: Action)
    requires action.w < |sys| && Sane(sys[action.w])
    ensures Sane(Step(sys, cap, action)[action.w])
  {
    var me := sys[action.w];
    match action
    case Close(w, i) => if i < |me.working| { DistinctWithout(me.working, i); }
    case _ =>
  }

  /** No action but a look can raise what its worker has reserved. */
  lemma StepShrinksReserve(sys: System, cap: nat, action: Action)
    requires action.w < |sys| && Sane(sys[action.w]) && !action.Look?
    ensures Reserved(Step(sys, cap, action)[action.w], cap) <= Reserved(sys[action.w], cap)
  {
  }

  /** A look reserves nothing new, or no more than the room it saw. */
  lemma LookReserves(sys: System, cap: nat, w: nat)
    requires w < |sys| && Sane(sys[w])
    ensures var r := Reserved(Step(sys, cap, Look(w))[w], cap);
      r <= Reserved(sys[w], cap) || r <= cap - Others(sys, w)
  {
  }

  /** What the others have reserved exceeds what they have committed by at most one row each. */
  lemma OthersReserve(sys: System, cap: nat, w: nat)
    requires w < |sys| && forall v :: 0 <= v < |sys| ==> Sane(sys[v])
    ensures Sum(Reserves(sys, cap)) - Reserved(sys[w], cap) <= Others(sys, w) + |sys| - 1
  {
    var r, c := Reserves(sys, cap), Sizes(sys);
    var r', c' := r[w := 0], c[w := 1];
    SumUpdate(r, w, 0);
    SumUpdate(c, w, 1);
    SumSlack(r'[w := 1], c[w := 0], 1);
    SumUpdate(r, w, 1);
    SumUpdate(c, w, 0);
    assert r'[w := 1] == r[w := 1];
  }

  lemma StepKeepsInv(sys: System, cap: nat, action: Action)
    requires Inv(sys, cap)
    ensures Inv(Step(sys, cap, action), cap)
  {
    var sys' := Step(sys, cap, action);
    StepChangesOne(sys, cap, action);
    if action.w < |sys| {
      var w := action.w;
      StepKeepsSane(sys, cap, action);
      var r, r' := Reserves(sys, cap), Reserves(sys', cap);
      assert r' == r[w := r'[w]];
      SumUpdate(r, w, r'[w]);
      if action.Look? {
        LookReserves(sys, cap, w);
        OthersReserve(sys, cap, w);
      } else {
        StepShrinksReserve(sys, cap, action);
      }
    }
  }

  lemma InvBounds(sys: System, cap: nat)
    requires Inv(sys, cap)
    ensures Exposed(sys) <= cap + |sys| - 1
  {
    SumSlack(Sizes(sys), Reserves(sys, cap), 0);
  }

  lemma {:induction false} RunKeepsInv(sys: System, cap: nat, actions: seq<Action>)
    requires Inv(sys, cap)
    ensures Inv(Run(sys, cap, actions), cap) && |Run(sys, cap, actions)| == |sys|
    decreases actions
  {
    if actions != [] {
      StepKeepsInv(sys, cap, actions[0]);
      StepChangesOne(sys, cap, actions[0]);
      RunKeepsInv(Step(sys, cap, actions[0]), cap, actions[1..]);
    }
  }

  function Fresh(workers: nat): (sys: System)
    ensures |sys| == workers
  {
    seq(workers, _ => Worker([], [], Idle))
  }

  lemma {:induction false} SumOfZeros(s: seq<int>)
    requires forall i :: 0 <= i < |s| ==> s[i] == 0
    ensures Sum(s) == 0
  {
    if s != [] {
      SumOfZeros(s[1..]);
    }
  }

  /**
   * On any schedule of any workers, committed rows exceed the limit by at most the
   * number of other workers, and bases stay distinct per exchange.
   */
  lemma CapacityBound(workers: nat, cap: nat, actions: seq<Action>)
    requires 0 < workers
    ensures var sys := Run(Fresh(workers), cap, actions);
      && |sys| == workers && Exposed(sys) <= cap + workers - 1
      && forall v :: 0 <= v < workers ==> Distinct(sys[v].committed)
  {
    SumOfZeros(Reserves(Fresh(workers), cap));
    RunKeepsInv(Fresh(workers), cap, actions);
    InvBounds(Run(Fresh(workers), cap, actions), cap);
  }

  // ----- the bound is exact -----

  /** A supply of distinct base assets. */
  function Name(i: nat): string {
    seq(i, _ => 'x')
  }

  function Names(n: nat): (s: seq<string>)
    ensures |s| == n && forall i :: 0 <= i < n ==> s[i] == Name(i)
  {
    seq(n, i requires 0 <= i < n => Name(i))
  }

  lemma NamesAreFresh(n: nat, m: nat)
    requires m <= n
    ensures Name(n) !in Names(m) && Names(m) + [Name(m)] == Names(m + 1)
  {
    forall i | 0 <= i < m
      ensures Name(i) != Name(n)
    {
      assert |Name(i)| == i && |Name(n)| == n;
    }
  }

  lemma {:induction false} RunAppend(sys: System, cap: nat, a: seq<Action>, b: seq<Action>)
    ensures Run(sys, cap, a + b) == Run(Run(sys, cap, a), cap, b)
    decreases a
  {
    if a == [] {
      assert a + b == b;
    } else {
      RunAppend(Step(sys, cap, a[0]), cap, a[1..], b);
      assert (a + b)[1..] == a[1..] + b;
    }
  }

  /** Worker 0 holds m rows, the others none. */
  function Seeded(workers: nat, m: nat): System
    requires 0 < workers
  {
    Fresh(workers)[0 := Worker(Names(m), Names(m), Idle)]
  }

  lemma SeededCounts(workers: nat, m: nat)
    requires 0 < workers
    ensures Exposed(Seeded(workers, m)) == m
  {
    assert Sizes(Seeded(workers, m)) == Sizes(Fresh(workers))[0 := m];
    SumUpdate(Sizes(Fresh(workers)), 0, m);
    SumOfZeros(Sizes(Fresh(workers)));
  }

  /** Replacing one worker by another with the same committed rows keeps the count. */
  lemma SameCommitted(sys: System, w: nat, me: Worker)
    requires w < |sys| && me.committed == sys[w].committed
    ensures Exposed(sys[w := me]) == Exposed(sys)
  {
    assert Sizes(sys[w := me]) == Sizes(sys);
  }

  function ArmActions(w: nat): seq<Action> {
    [Begin(w), Look(w), CheckCapacity(w)]
  }

  /** An idle worker that sees room gets armed. */
  lemma ArmOne(sys: System, cap: nat, w: nat)
    requires w < |sys| && sys[w].phase == Idle && Exposed(sys) < cap
    ensures Run(sys, cap, ArmActions(w)) == sys[w := Worker(sys[w].committed, sys[w].committed, Armed)]
  {
    var c := sys[w].committed;
    var s1 := Step(sys, cap, Begin(w));
    SameCommitted(sys, w, s1[w]);
    var s2 := Step(s1, cap, Look(w));
    var s3 := Step(s2, cap, CheckCapacity(w));
    assert s3 == sys[w := Worker(c, c, Armed)];
    assert ArmActions(w)[1..] == [Look(w), CheckCapacity(w)] && ArmActions(w)[1..][1..] == [CheckCapacity(w)];
    assert Run(s2, cap, [CheckCapacity(w)]) == Run(s3, cap, []);
  }

  function EnterActions(w: nat, base: string): seq<Action> {
    [Insert(w, base), Commit(w)]
  }

  /** An armed worker inserts a new base and commits. */
  lemma EnterOne(sys: System, cap: nat, w: nat, base: string)
    requires w < |sys| && sys[w].phase == Armed && base !in sys[w].working
    ensures Run(sys, cap, EnterActions(w, base))
        == sys[w := Worker(sys[w].working + [base], sys[w].working + [base], Idle)]
  {
    var s1 := Step(sys, cap, Insert(w, base));
    var s2 := Step(s1, cap, Commit(w));
    assert EnterActions(w, base)[1..] == [Commit(w)];
    assert Run(s1, cap, [Commit(w)]) == Run(s2, cap, []);
  }

  /** Worker 0 alone can fill all but one place. */
  lemma {:induction false} FillAlone(workers: nat, cap: nat, m: nat) returns (actions: seq<Action>)
    requires 0 < workers && m < cap
    ensures Run(Fresh(workers), cap, actions) == Seeded(workers, m)
  {
    if m == 0 {
      actions := [];
      assert Names(0) == [];
      assert Seeded(workers, 0) == Fresh(workers);
    } else {
      var before := FillAlone(workers, cap, m - 1);
      var sys := Seeded(workers, m - 1);
      SeededCounts(workers, m - 1);
      ArmOne(sys, cap, 0);
      NamesAreFresh(m - 1, m - 1);
      var armed := Run(sys, cap, ArmActions(0));
      EnterOne(armed, cap, 0, Name(m - 1));
      RunAppend(sys, cap, ArmActions(0), EnterActions(0, Name(m - 1)));
      actions := before + (ArmActions(0) + EnterActions(0, Name(m - 1)));
      RunAppend(Fresh(workers), cap, before, ArmActions(0) + EnterActions(0, Name(m - 1)));
      assert Run(Fresh(workers), cap, actions) == Seeded(workers, m);
    }
  }

  function Arming(me: Worker): Worker {
    Worker(me.committed, me.committed, Armed)
  }

  function ArmedUpTo(sys: System, k: nat): (s: System)
    ensures |s| == |sys|
    ensures forall v :: 0 <= v < |sys| ==> s[v] == if v < k then Arming(sys[v]) else sys[v]
  {
    seq(|sys|, v requires 0 <= v < |sys| => if v < k then Arming(sys[v]) else sys[v])
  }

  /** With room for one, every worker can be armed before any inserts. */
  lemma {:induction false} ArmAll(sys: System, cap: nat, k: nat) returns (actions: seq<Action>)
    requires k <= |sys| && Exposed(sys) < cap && forall v :: 0 <= v < |sys| ==> sys[v].phase == Idle
    ensures Run(sys, cap, actions) == ArmedUpTo(sys, k)
  {
    if k == 0 {
      actions := [];
      assert ArmedUpTo(sys, 0) == sys;
    } else {
      var before := ArmAll(sys, cap, k - 1);
      var now := ArmedUpTo(sys, k - 1);
      assert Sizes(now) == Sizes(sys);
      ArmOne(now, cap, k - 1);
      actions := before + ArmActions(k - 1);
      RunAppend(sys, cap, before, ArmActions(k - 1));
      assert now[k - 1 := Arming(sys[k - 1])] == ArmedUpTo(sys, k);
    }
  }

  function Entering(me: Worker, base: string): Worker {
    Worker(me.working + [base], me.working + [base], Idle)
  }

  function EnteredUpTo(sys: System, base: string, k: nat): (s: System)
    ensures |s| == |sys|
    ensures forall v :: 0 <= v < |sys| ==> s[v] == if v < k then Entering(sys[v], base) else sys[v]
  {
    seq(|sys|, v requires 0 <= v < |sys| => if v < k then Entering(sys[v], base) else sys[v])
  }

  /** Then each of them inserts and commits, and nobody looks again. */
  lemma {:induction false} EnterAll(sys: System, cap: nat, base: string, k: nat) returns (actions: seq<Action>)
    requires k <= |sys|
    requires forall v :: 0 <= v < |sys| ==> sys[v].phase == Armed && base !in sys[v].working
    ensures Run(sys, cap, actions) == EnteredUpTo(sys, base, k)
  {
    if k == 0 {
      actions := [];
      assert EnteredUpTo(sys, base, 0) == sys;
    } else {
      var before := EnterAll(sys, cap, base, k - 1);
      var now, next := EnteredUpTo(sys, base, k - 1), EnteredUpTo(sys, base, k);
      EnterOne(now, cap, k - 1, base);
      actions := before + EnterActions(k - 1, base);
      RunAppend(sys, cap, before, EnterActions(k - 1, base));
      assert now[k - 1 := Entering(sys[k - 1], base)] == next;
    }
  }

  lemma {:induction false} EnteredCounts(sys: System, base: string, k: nat)
    requires k <= |sys| && forall v :: 0 <= v < |sys| ==> sys[v].working == sys[v].committed
    ensures Exposed(EnteredUpTo(sys, base, k)) == Exposed(sys) + k
  {
    if k == 0 {
      assert EnteredUpTo(sys, base, 0) == sys;
    } else {
      EnteredCounts(sys, base, k - 1);
      var before, size := Sizes(EnteredUpTo(sys, base, k - 1)), |sys[k - 1].committed| + 1;
      assert Sizes(EnteredUpTo(sys, base, k)) == before[k - 1 := size];
      SumUpdate(before, k - 1, size);
    }
  }

  /** Some schedule reaches the bound: all workers count before any of them commits. */
  lemma BoundIsReached(workers: nat, cap: nat) returns (actions: seq<Action>)
    requires 0 < workers && 0 < cap
    ensures Exposed(Run(Fresh(workers), cap, actions)) == cap + workers - 1
  {
    var seeded, base := Seeded(workers, cap - 1), Name(cap);
    SeededCounts(workers, cap - 1);
    NamesAreFresh(cap, cap - 1);
    var fill := FillAlone(workers, cap, cap - 1);
    var arm := ArmAll(seeded, cap, workers);
    var armed := ArmedUpTo(seeded, workers);
    assert Sizes(armed) == Sizes(seeded);
    var enter := EnterAll(armed, cap, base, workers);
    EnteredCounts(armed, base, workers);
    actions := fill + (arm + enter);
    RunAppend(Fresh(workers), cap, fill, arm + enter);
    RunAppend(seeded, cap, arm, enter);
  }

  /** The limit is what the documentation says it is, for every schedule, exactly when there is one worker. */
  lemma LimitHoldsIffOneWorker(workers: nat, cap: nat)
    requires 0 < workers && 0 < cap
    ensures (forall actions :: Exposed(Run(Fresh(workers), cap, actions)) <= cap) <==> workers == 1
  {
    if workers == 1 {
      forall actions
        ensures Exposed(Run(Fresh(workers), cap, actions)) <= cap
      {
        CapacityBound(workers, cap, actions);
      }
    } else {
      var actions := BoundIsReached(workers, cap);
    }
  }
}

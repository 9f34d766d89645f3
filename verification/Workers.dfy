// The cycle as a schedule of the capacity model: what one cycle does to the
// position table is what its worker does there in a run of steps of its own.
module Workers {
  import R = Runner
  import D = Runs
  import opened Domain
  import opened Lifecycle
  import opened Positions
  import opened Accounts

  /** The base assets of a worker's exposed rows among the first n, in id order. */
  function Bases(rows: seq<Position>, w: Worker, n: nat): seq<string>
    requires n <= |rows|
  {
    if n == 0 then []
    else Bases(rows, w, n - 1) + if Matches(rows[n - 1], w.mode, Some(w.exchange)) then [rows[n - 1].symbol] else []
  }

  predicate OfAnother(p: Position, w: Worker) {
    p.mode == w.mode && p.exchange != w.exchange && IsExposed(p.status)
  }

  /** The exposed rows of the mode's other exchanges among the first n. */
  function OthersUpTo(rows: seq<Position>, w: Worker, n: nat): nat
    requires n <= |rows|
  {
    if n == 0 then 0 else OthersUpTo(rows, w, n - 1) + if OfAnother(rows[n - 1], w) then 1 else 0
  }

  lemma {:induction false} CountSplits(rows: seq<Position>, w: Worker, n: nat)
    requires n <= |rows|
    ensures |ExposedIds(rows, w.mode, None, n)| == |Bases(rows, w, n)| + OthersUpTo(rows, w, n)
  {
    if n > 0 {
      CountSplits(rows, w, n - 1);
    }
  }

  lemma {:induction false} OthersUntouched(before: seq<Position>, after: seq<Position>, w: Worker, n: nat)
    requires Evolves(before, after, w.mode, w.exchange) && n <= |after|
    ensures OthersUpTo(after, w, n) == OthersUpTo(before, w, if n <= |before| then n else |before|)
  {
    if n > 0 {
      OthersUntouched(before, after, w, n - 1);
      if n <= |before| {
        assert RowEvolves(before[n - 1], after[n - 1], w.mode, w.exchange);
      }
    }
  }

  lemma {:induction false} BasesAreHeld(rows: seq<Position>, w: Worker, n: nat, base: string)
    requires n <= |rows| && base in Bases(rows, w, n)
    ensures exists i :: 0 <= i < n && Matches(rows[i], w.mode, Some(w.exchange)) && rows[i].symbol == base
  {
    if base in Bases(rows, w, n - 1) {
      BasesAreHeld(rows, w, n - 1, base);
    }
  }

  lemma {:induction false} BasesOfLonger(rows: seq<Position>, p: Position, w: Worker, n: nat)
    requires n <= |rows|
    ensures Bases(rows + [p], w, n) == Bases(rows, w, n)
  {
    if n > 0 {
      BasesOfLonger(rows, p, w, n - 1);
    }
  }

  ghost predicate OwnActions(actions: seq<R.Action>, k: nat) {
    forall a :: a in actions ==> a.w == k
  }

  lemma RunFirst(sys: R.System, cap: nat, a: R.Action, rest: seq<R.Action>)
    ensures R.Run(sys, cap, [a] + rest) == R.Run(R.Step(sys, cap, a), cap, rest)
  {
    assert ([a] + rest)[1..] == rest;
  }

  lemma CloseOne(sys: R.System, cap: nat, k: nat, kept: seq<string>, base: string, suffix: seq<string>)
    requires k < |sys| && sys[k].phase == R.Running && sys[k].working == kept + [base] + suffix
    ensures R.Step(sys, cap, R.Close(k, |kept|)) == sys[k := sys[k].(working := kept + suffix)]
  {
    assert R.Without(kept + [base] + suffix, |kept|) == kept + suffix;
  }

  /** Rows that evolve without insertion are closes, one by one. */
  lemma {:induction false} EvolvingIsClosing(sys: R.System, cap: nat, k: nat, before: seq<Position>,
                                             after: seq<Position>, w: Worker, n: nat, suffix: seq<string>)
    returns (actions: seq<R.Action>)
    requires k < |sys| && sys[k].phase == R.Running && n <= |before| && n <= |after|
    requires forall i :: 0 <= i < n ==> RowEvolves(before[i], after[i], w.mode, w.exchange)
    requires sys[k].working == Bases(before, w, n) + suffix
    ensures OwnActions(actions, k)
    ensures R.Run(sys, cap, actions) == sys[k := sys[k].(working := Bases(after, w, n) + suffix)]
    decreases n
  {
    if n == 0 {
      actions := [];
      assert sys[k := sys[k].(working := Bases(after, w, n) + suffix)] == sys;
    } else {
      var p, q, kept, left := before[n - 1], after[n - 1], Bases(before, w, n - 1), Bases(after, w, n - 1);
      assert RowEvolves(p, q, w.mode, w.exchange);
      assert kept + [] == kept && left + [] == left;
      if !Matches(p, w.mode, Some(w.exchange)) {
        actions := EvolvingIsClosing(sys, cap, k, before, after, w, n - 1, suffix);
      } else if Matches(q, w.mode, Some(w.exchange)) {
        assert kept + [p.symbol] + suffix == kept + ([p.symbol] + suffix);
        actions := EvolvingIsClosing(sys, cap, k, before, after, w, n - 1, [p.symbol] + suffix);
        assert left + [q.symbol] + suffix == left + ([p.symbol] + suffix);
      } else {
        CloseOne(sys, cap, k, kept, p.symbol, suffix);
        var next := sys[k := sys[k].(working := kept + suffix)];
        var later := EvolvingIsClosing(next, cap, k, before, after, w, n - 1, suffix);
        actions := [R.Close(k, |kept|)] + later;
        RunFirst(sys, cap, R.Close(k, |kept|), later);
      }
    }
  }

  /** The system has this worker at rest with the table's rows, and counts the others as the table does. */
  ghost predicate AtRest(sys: R.System, k: nat, rows: seq<Position>, w: Worker) {
    && k < |sys| && sys[k] == Resting(Bases(rows, w, |rows|))
    && R.Others(sys, k) == OthersUpTo(rows, w, |rows|)
  }

  function Resting(bases: seq<string>): R.Worker {
    R.Worker(bases, bases, R.Idle)
  }

  /** Room found and used: look, check, insert, commit. */
  lemma InsertionIsSteps(sys: R.System, cap: nat, k: nat, mid: seq<Position>, after: seq<Position>, w: Worker)
    returns (actions: seq<R.Action>)
    requires k < |sys| && sys[k].phase == R.Running && sys[k].working == Bases(mid, w, |mid|)
    requires R.Others(sys, k) == OthersUpTo(mid, w, |mid|) && D.OneMore(mid, after, w, cap)
    ensures OwnActions(actions, k)
    ensures R.Run(sys, cap, actions) == sys[k := Resting(Bases(after, w, |after|))]
  {
    var base, bases := after[|mid|].symbol, Bases(mid, w, |mid|);
    CountSplits(mid, w, |mid|);
    if base in bases {
      BasesAreHeld(mid, w, |mid|, base);
    }
    BasesOfLonger(mid, after[|mid|], w, |mid|);
    assert Bases(after, w, |after|) == bases + [base];
    var s1 := R.Step(sys, cap, R.Look(k));
    var s2 := R.Step(s1, cap, R.CheckCapacity(k));
    var s3 := R.Step(s2, cap, R.Insert(k, base));
    var s4 := R.Step(s3, cap, R.Commit(k));
    RunFirst(s3, cap, R.Commit(k), []);
    RunFirst(s2, cap, R.Insert(k, base), [R.Commit(k)] + []);
    RunFirst(s1, cap, R.CheckCapacity(k), [R.Insert(k, base)] + ([R.Commit(k)] + []));
    RunFirst(sys, cap, R.Look(k), [R.CheckCapacity(k)] + ([R.Insert(k, base)] + ([R.Commit(k)] + [])));
    actions := [R.Look(k)] + ([R.CheckCapacity(k)] + ([R.Insert(k, base)] + ([R.Commit(k)] + [])));
    assert s4 == sys[k := Resting(bases + [base])];
  }

  lemma OthersKept(sys: R.System, k: nat, me: R.Worker)
    requires k < |sys|
    ensures R.Others(sys[k := me], k) == R.Others(sys, k)
  {
    var sizes := R.Sizes(sys);
    R.SumUpdate(sizes, k, |me.committed|);
    assert R.Sizes(sys[k := me]) == sizes[k := |me.committed|];
  }

  /** Begin and close: from rest on the old rows to running on the evolved ones. */
  lemma ClosesAreSteps(sys: R.System, cap: nat, k: nat, before: seq<Position>, mid: seq<Position>, w: Worker)
    returns (actions: seq<R.Action>)
    requires AtRest(sys, k, before, w) && Evolves(before, mid, w.mode, w.exchange) && |mid| == |before|
    ensures OwnActions(actions, k)
    ensures R.Run(sys, cap, actions) == sys[k := R.Worker(Bases(before, w, |before|), Bases(mid, w, |mid|), R.Running)]
  {
    var bases := Bases(before, w, |before|);
    var begun := sys[k := R.Worker(bases, bases, R.Running)];
    assert R.Step(sys, cap, R.Begin(k)) == begun;
    assert bases + [] == bases && Bases(mid, w, |mid|) + [] == Bases(mid, w, |mid|);
    var closes := EvolvingIsClosing(begun, cap, k, before, mid, w, |mid|, []);
    actions := [R.Begin(k)] + closes;
    RunFirst(sys, cap, R.Begin(k), closes);
  }

  lemma CommitIsStep(sys: R.System, cap: nat, k: nat)
    requires k < |sys| && sys[k].phase == R.Running
    ensures R.Run(sys, cap, [R.Commit(k)]) == sys[k := Resting(sys[k].working)]
  {
    RunFirst(sys, cap, R.Commit(k), []);
    assert [R.Commit(k)] + [] == [R.Commit(k)];
  }

  /** Commit, after an insertion if there is one. */
  lemma FinishIsSteps(sys: R.System, cap: nat, k: nat, mid: seq<Position>, after: seq<Position>, w: Worker)
    returns (actions: seq<R.Action>)
    requires k < |sys| && sys[k].phase == R.Running && sys[k].working == Bases(mid, w, |mid|)
    requires R.Others(sys, k) == OthersUpTo(mid, w, |mid|) && (after == mid || D.OneMore(mid, after, w, cap))
    ensures OwnActions(actions, k)
    ensures R.Run(sys, cap, actions) == sys[k := Resting(Bases(after, w, |after|))]
    ensures OthersUpTo(after, w, |after|) == OthersUpTo(mid, w, |mid|)
  {
    if after == mid {
      actions := [R.Commit(k)];
      CommitIsStep(sys, cap, k);
    } else {
      actions := InsertionIsSteps(sys, cap, k, mid, after, w);
      OthersUntouched(mid, after, w, |after|);
    }
  }

  /**
   * Any cycle of the desk is a run of its worker's own steps in the capacity
   * model, from rest to rest, on the same rows.
   */
  lemma CycleIsSteps(sys: R.System, cap: nat, k: nat, before: seq<Position>, after: seq<Position>, w: Worker)
    returns (actions: seq<R.Action>)
    requires AtRest(sys, k, before, w) && D.CycleShape(before, after, w, cap)
    ensures OwnActions(actions, k)
    ensures R.Run(sys, cap, actions) == sys[k := Resting(Bases(after, w, |after|))]
    ensures AtRest(R.Run(sys, cap, actions), k, after, w)
  {
    var mid :| Evolves(before, mid, w.mode, w.exchange) && |mid| == |before|
        && (after == mid || D.OneMore(mid, after, w, cap));
    var closes := ClosesAreSteps(sys, cap, k, before, mid, w);
    var closed := R.Run(sys, cap, closes);
    OthersUntouched(before, mid, w, |mid|);
    OthersKept(sys, k, closed[k]);
    var rest := FinishIsSteps(closed, cap, k, mid, after, w);
    actions := closes + rest;
    R.RunAppend(sys, cap, closes, rest);
    OthersKept(sys, k, Resting(Bases(after, w, |after|)));
  }
}

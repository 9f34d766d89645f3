// What a cycle did, row by row and phase by phase (loop/cycle.py): the record that
// the methods of Desk keep, what makes such a record true of the code, and what
// follows from it for the rows.
module CycleLog {
  import opened Domain
  import opened Lifecycle
  import opened Positions
  import opened Gateways
  import opened Executor
  import opened ClientOrderIds
  import opened Accounts
  import opened Recovery
  import opened Sightings
  import opened Exits
  import opened Scan
  import P = EntryPlan

  /** What one cycle is run with, and whether its session commits in the end. */
  datatype Round = Round(
    cfg: Settings, maintenance: bool, entryEnabled: bool, cycleId: string, now: int, spotFirst: bool, committed: bool)

  datatype Context = Context(worker: Worker, digest: Digest, cfg: Settings, now: int)

  /** What a phase does with each row it takes up. */
  datatype Task = Reconcile | Check | Rescue | Evaluate | TakeDown(cycleId: string)

  /** One row taken up: the books and the venue before and after, and how it ended. */
  datatype Visit<S> = Visit(row: nat, before: Snapshot, from: S, after: Snapshot, to: S, end: Result<()>)

  /** One phase: the rows it took up, one after the other, up to the first that raised. */
  datatype Pass<S> = Pass(before: Snapshot, from: S, visits: seq<Visit<S>>, after: Snapshot, to: S, end: Result<()>)

  // ----- which rows a phase takes up -----

  /** Those of the first n ids whose rows have one of these statuses, in the same order. */
  function Picked(rows: seq<Position>, ids: seq<nat>, statuses: set<Status>, n: nat): (picked: seq<nat>)
    requires n <= |ids| && forall j :: 0 <= j < |ids| ==> ids[j] < |rows|
    ensures forall i :: i in picked <==> exists j :: 0 <= j < n && ids[j] == i && rows[ids[j]].status in statuses
    ensures Increasing(ids) ==> Increasing(picked)
  {
    if n == 0 then []
    else
      var before := Picked(rows, ids, statuses, n - 1);
      if rows[ids[n - 1]].status !in statuses then before
      else
        assert Increasing(ids) ==> forall i :: 0 <= i < |before| ==> before[i] in before && before[i] < ids[n - 1];
        before + [ids[n - 1]]
  }

  function Concerns(task: Task): set<Status> {
    match task
    case Reconcile => {NakedSpot, NakedPerp}
    case Check => {Open}
    case Rescue => {NakedSpot, NakedPerp}
    case Evaluate => {Open}
    case TakeDown(_) => {Open, NakedSpot, NakedPerp}
  }

  function OwnExposedIds(rows: seq<Position>, w: Worker): (ids: seq<nat>)
    ensures Increasing(ids) && forall j :: 0 <= j < |ids| ==> ids[j] < |rows|
    ensures forall i: nat :: i in ids <==>
      i < |rows| && OwnedBy(rows[i], w.mode, w.exchange) && IsExposed(rows[i].status)
  {
    var ids := ExposedIds(rows, w.mode, Some(w.exchange), |rows|);
    assert forall j :: 0 <= j < |ids| ==> ids[j] in ids;
    ids
  }

  function RowsOf<S>(visits: seq<Visit<S>>): (ids: seq<nat>)
    ensures |ids| == |visits| && forall k :: 0 <= k < |visits| ==> ids[k] == visits[k].row
  {
    seq(|visits|, k requires 0 <= k < |visits| => visits[k].row)
  }

  // ----- what a visit does -----

  function LeftAlone<S>(v: Visit<S>, s: S, exn: Exn): Visit<S> {
    v.(after := v.before, to := s, end := Raised(exn))
  }

  /** A naked row is closed as stale when its leg is gone, and kept otherwise. */
  ghost predicate Reconciled<S>(machine: Machine<S>, now: int, v: Visit<S>)
    requires v.row < |v.before.rows|
  {
    var p := v.before.rows[v.row];
    var (seen, s) := Consulted(machine, v.from, GoneRequests(p));
    if seen.Raised? then v == LeftAlone(v, s, seen.exn)
    else
      var q := if UnderlyingGone(p, seen.value) then ClosedRow(p, now, "stale_reconciled") else p;
      v.to == s && v.end == Ok(()) && v.after == AfterRestating(v.before, v.row, q, seen.value)
  }

  /** An OPEN row is made to claim exactly the legs the venue shows. */
  ghost predicate Checked<S>(machine: Machine<S>, now: int, v: Visit<S>)
    requires v.row < |v.before.rows| && v.row < |v.after.rows|
  {
    var p, q := v.before.rows[v.row], v.after.rows[v.row];
    var (seen, s) := Consulted(machine, v.from, IntegrityRequests(p));
    if seen.Raised? then v == LeftAlone(v, s, seen.exn)
    else
      && v.to == s && v.end == Ok(()) && v.after == AfterRestating(v.before, v.row, q, seen.value)
      && ClaimsExactly(p, q, now, SpotPresent(p, seen.value), PerpPresent(p, seen.value))
  }

  /** A naked row is hedged when that pays, else or failing that taken back, for what the venue still shows of it. */
  ghost predicate Rescued<S>(machine: Machine<S>, ctx: Context, v: Visit<S>)
    requires v.row < |v.before.rows|
  {
    var p := v.before.rows[v.row];
    var last := if p.status == NakedSpot then FetchBalance(p.symbol) else ListOpenPerps;
    var asked := [FetchFunding(p.perpSymbol), FetchFees(p.spotSymbol, p.perpSymbol), last];
    var (seen, s) := Consulted(machine, v.from, asked);
    if seen.Raised? then v == LeftAlone(v, s, seen.exn)
    else
      assert Fits(asked[0], seen.value[0]) && Fits(asked[1], seen.value[1]) && Fits(asked[2], seen.value[2]);
      var (t, s') := Recover(machine, s, p, Held(p, seen.value[2]),
                             ctx.cfg.entryMinNetApy <= ForwardApy(seen.value[0], seen.value[1], ctx.cfg),
                             HedgeId(p, v.row, ctx.digest), UnwindId(p, v.row, ctx.digest));
      && v.to == s' && v.after == AfterRecovery(v.before, v.row, ctx.now, seen.value[0].funding, t)
      && v.end == if RecoveryRaised(t) then Raised(GatewayRaised) else Ok(())
  }

  /** Both legs of the row are sent to close under the exit ids of the cycle. */
  ghost predicate TakenDown<S>(machine: Machine<S>, s: S, ctx: Context, cycleId: string, before: Snapshot, v: Visit<S>)
    requires v.row < |before.rows|
  {
    var p := before.rows[v.row];
    var (t, s') := Close(machine, s, p, IdFor(ctx.digest, Exit(cycleId, p.spotSymbol, Spot, Sell)),
                         IdFor(ctx.digest, Exit(cycleId, p.perpSymbol, Futures, Buy)));
    && v.to == s' && v.after == AfterClose(before, v.row, ctx.now, t)
    && v.end == if CloseRaised(t) then Raised(GatewayRaised) else Ok(())
  }

  /** The row with its funding terms refreshed, and nothing else changed. */
  function Noted(a: Snapshot, i: nat, p: Position): Snapshot
    requires i < |a.rows|
  {
    a.(rows := a.rows[i := p])
  }

  /** The market is read, and the row is closed exactly when the decision on the reading is to leave. */
  ghost predicate Evaluated<S>(machine: Machine<S>, ctx: Context, v: Visit<S>)
    requires v.row < |v.before.rows|
  {
    var (p, reading, s) := MarketRead(machine, v.from, v.before.rows[v.row]);
    var noted := Noted(v.before, v.row, p);
    if reading.Ok? && reading.value.Some? && Decide(p, reading.value.value, ctx.cfg).Leave? then
      TakenDown(machine, s, ctx, "exit", noted, v)
    else
      && v.to == s && v.after == noted
      && v.end == if reading.Raised? then Raised(reading.exn) else Ok(())
  }

  /** A visit did its task, on its own row alone. */
  ghost predicate Done<S>(machine: Machine<S>, ctx: Context, task: Task, v: Visit<S>) {
    && v.row < |v.before.rows| == |v.after.rows|
    && v.after.rows == v.before.rows[v.row := v.after.rows[v.row]]
    && match task
       case Reconcile => Reconciled(machine, ctx.now, v)
       case Check => Checked(machine, ctx.now, v)
       case Rescue => Rescued(machine, ctx, v)
       case Evaluate => Evaluated(machine, ctx, v)
       case TakeDown(cycleId) => TakenDown(machine, v.from, ctx, cycleId, v.before, v)
  }

  // ----- what a phase does -----

  ghost predicate Next<S>(u: Visit<S>, v: Visit<S>) {
    v.before == u.after && v.from == u.to && u.end == Ok(())
  }

  /** The visits follow one another from the beginning of the phase to its end, and only the last may have raised. */
  ghost predicate Linked<S>(p: Pass<S>) {
    && (if p.visits == [] then p.after == p.before && p.to == p.from && p.end == Ok(())
        else
          var first, last := p.visits[0], p.visits[|p.visits| - 1];
          && first.before == p.before && first.from == p.from
          && last.after == p.after && last.to == p.to && last.end == p.end)
    && (forall j, k {:trigger Next(p.visits[j], p.visits[k])} ::
          0 <= j < |p.visits| && k == j + 1 < |p.visits| ==> Next(p.visits[j], p.visits[k]))
  }

  ghost predicate AllDone<S>(machine: Machine<S>, ctx: Context, task: Task, visits: seq<Visit<S>>) {
    forall k {:trigger Done(machine, ctx, task, visits[k])} ::
      0 <= k < |visits| ==> Done(machine, ctx, task, visits[k])
  }

  /** The worker's own rows with one of the task's statuses, in id order. */
  function Todo(w: Worker, task: Task, rows: seq<Position>): (todo: seq<nat>)
    ensures Increasing(todo)
    ensures forall i: nat :: i in todo <==>
      i < |rows| && OwnedBy(rows[i], w.mode, w.exchange) && rows[i].status in Concerns(task)
  {
    var ids := OwnExposedIds(rows, w);
    var todo := Picked(rows, ids, Concerns(task), |ids|);
    assert forall i: nat :: i in ids <==> exists j :: 0 <= j < |ids| && ids[j] == i;
    todo
  }

  /**
   * The phase took up, in id order, exactly the worker's own rows that had one of
   * the task's statuses when it began, up to the first that raised, and did its
   * task on each.
   */
  ghost predicate Performed<S>(machine: Machine<S>, ctx: Context, task: Task, p: Pass<S>) {
    && Linked(p) && AllDone(machine, ctx, task, p.visits)
    && RowsOf(p.visits) <= Todo(ctx.worker, task, p.before.rows)
    && (p.end.Ok? ==> RowsOf(p.visits) == Todo(ctx.worker, task, p.before.rows))
  }

  /** ids goes through the worker's rows in order and leaves out none that is exposed. */
  ghost predicate Lists(ids: seq<nat>, rows: seq<Position>, w: Worker) {
    && Increasing(ids)
    && (forall j :: 0 <= j < |ids| ==> ids[j] < |rows| && OwnedBy(rows[ids[j]], w.mode, w.exchange))
    && (forall i: nat {:trigger i in ids} ::
          i < |rows| && OwnedBy(rows[i], w.mode, w.exchange) && IsExposed(rows[i].status) ==> i in ids)
  }

  /** The same for the first k of the ids the phase goes through. */
  ghost predicate UnderWay<S>(machine: Machine<S>, ctx: Context, task: Task, p: Pass<S>, ids: seq<nat>, k: nat) {
    && Linked(p) && AllDone(machine, ctx, task, p.visits) && p.end == Ok(())
    && |p.after.rows| == |p.before.rows| && Lists(ids, p.before.rows, ctx.worker)
    && k <= |ids| && RowsOf(p.visits) == Picked(p.before.rows, ids, Concerns(task), k)
    && (forall j :: k <= j < |ids| ==> p.after.rows[ids[j]] == p.before.rows[ids[j]])
  }

  function Grown<S>(p: Pass<S>, v: Visit<S>): Pass<S> {
    p.(visits := p.visits + [v], after := v.after, to := v.to, end := v.end)
  }

  function Begun<S>(a: Snapshot, s: S): Pass<S> {
    Pass(a, s, [], a, s, Ok(()))
  }

  lemma BeginsUnderWay<S>(machine: Machine<S>, ctx: Context, task: Task, a: Snapshot, s: S, ids: seq<nat>)
    requires Lists(ids, a.rows, ctx.worker)
    ensures UnderWay(machine, ctx, task, Begun(a, s), ids, 0)
  {
  }

  lemma LinkGrows<S>(p: Pass<S>, v: Visit<S>)
    requires Linked(p) && p.end == Ok(()) && v.before == p.after && v.from == p.to
    ensures Linked(Grown(p, v))
  {
    var visits := p.visits + [v];
    forall j, k | 0 <= j < |visits| && k == j + 1 < |visits|
      ensures Next(visits[j], visits[k])
    {
      assert k < |p.visits| ==> Next(p.visits[j], p.visits[k]);
    }
  }

  lemma DoneGrows<S>(machine: Machine<S>, ctx: Context, task: Task, visits: seq<Visit<S>>, v: Visit<S>)
    requires AllDone(machine, ctx, task, visits) && Done(machine, ctx, task, v)
    ensures AllDone(machine, ctx, task, visits + [v])
  {
    forall k | 0 <= k < |visits + [v]|
      ensures Done(machine, ctx, task, (visits + [v])[k])
    {
      assert k < |visits| ==> Done(machine, ctx, task, visits[k]);
    }
  }

  lemma {:induction false} PickedPrefix(rows: seq<Position>, ids: seq<nat>, statuses: set<Status>, k: nat, n: nat)
    requires k <= n <= |ids| && forall j :: 0 <= j < |ids| ==> ids[j] < |rows|
    ensures Picked(rows, ids, statuses, k) <= Picked(rows, ids, statuses, n)
  {
    if k < n {
      PickedPrefix(rows, ids, statuses, k, n - 1);
    }
  }

  lemma {:induction false} SameIds(a: seq<nat>, b: seq<nat>)
    requires Increasing(a) && Increasing(b) && forall i: nat :: i in a <==> i in b
    ensures a == b
  {
    assert (a != [] ==> a[0] in a) && (b != [] ==> b[0] in b);
    if a != [] && b != [] {
      var x, y := a[..|a| - 1], b[..|b| - 1];
      var m, n := a[|a| - 1], b[|b| - 1];
      assert m in a && n in b && m == n;
      assert a == x + [m] && b == y + [n];
      forall i: nat
        ensures i in x <==> i in y
      {
        assert i in x ==> i in a && i < m;
        assert i in y ==> i in b && i < n;
      }
      SameIds(x, y);
    }
  }

  lemma PickedIsTodo(rows: seq<Position>, ids: seq<nat>, w: Worker, task: Task)
    requires Lists(ids, rows, w)
    ensures Picked(rows, ids, Concerns(task), |ids|) == Todo(w, task, rows)
  {
    var picked, todo := Picked(rows, ids, Concerns(task), |ids|), Todo(w, task, rows);
    forall i: nat
      ensures i in picked <==> i in todo
    {
      assert i in ids <==> exists j :: 0 <= j < |ids| && ids[j] == i;
    }
    SameIds(picked, todo);
  }

  /** The next row does not have the status: the phase passes it by. */
  lemma PassesBy<S>(machine: Machine<S>, ctx: Context, task: Task, p: Pass<S>, ids: seq<nat>, k: nat)
    requires UnderWay(machine, ctx, task, p, ids, k) && k < |ids| && p.after.rows[ids[k]].status !in Concerns(task)
    ensures UnderWay(machine, ctx, task, p, ids, k + 1)
  {
  }

  lemma RowsGrow<S>(p: Pass<S>, v: Visit<S>, w: Worker, task: Task, ids: seq<nat>, k: nat)
    requires Lists(ids, p.before.rows, w) && k < |ids| && v.row == ids[k]
    requires RowsOf(p.visits) == Picked(p.before.rows, ids, Concerns(task), k)
    requires p.before.rows[v.row].status in Concerns(task)
    ensures RowsOf(p.visits + [v]) == Picked(p.before.rows, ids, Concerns(task), k + 1)
  {
    assert RowsOf(p.visits + [v]) == RowsOf(p.visits) + [v.row];
  }

  lemma PickedIsOfTodo(rows: seq<Position>, ids: seq<nat>, w: Worker, task: Task, k: nat)
    requires Lists(ids, rows, w) && k <= |ids|
    ensures Picked(rows, ids, Concerns(task), k) <= Todo(w, task, rows)
  {
    PickedPrefix(rows, ids, Concerns(task), k, |ids|);
    PickedIsTodo(rows, ids, w, task);
  }

  lemma LaterRowsStay<S>(machine: Machine<S>, ctx: Context, task: Task, rows: seq<Position>, ids: seq<nat>, k: nat,
                         v: Visit<S>)
    requires Increasing(ids) && k < |ids| && v.row == ids[k] && Done(machine, ctx, task, v)
    requires |v.before.rows| == |rows| && forall j :: 0 <= j < |ids| ==> ids[j] < |rows|
    requires forall j :: k <= j < |ids| ==> v.before.rows[ids[j]] == rows[ids[j]]
    ensures |v.after.rows| == |rows| && forall j :: k + 1 <= j < |ids| ==> v.after.rows[ids[j]] == rows[ids[j]]
  {
  }

  lemma OwnIdsAreListed(rows: seq<Position>, w: Worker)
    ensures Lists(OwnExposedIds(rows, w), rows, w)
  {
    var ids := OwnExposedIds(rows, w);
    assert forall j :: 0 <= j < |ids| ==> ids[j] in ids;
  }

  /** A phase through the exposed rows finds each of them exposed still. */
  lemma StillExposed<S>(machine: Machine<S>, ctx: Context, task: Task, p: Pass<S>, k: nat)
    requires k < |OwnExposedIds(p.before.rows, ctx.worker)|
    requires UnderWay(machine, ctx, task, p, OwnExposedIds(p.before.rows, ctx.worker), k)
    ensures var row := p.after.rows[OwnExposedIds(p.before.rows, ctx.worker)[k]];
      IsExposed(row.status) && row.status in {Open, NakedSpot, NakedPerp}
  {
    assert OwnExposedIds(p.before.rows, ctx.worker)[k] in OwnExposedIds(p.before.rows, ctx.worker);
  }

  /** The next row has it: the phase takes it up, and goes on unless that raised. */
  lemma TakesUp<S>(machine: Machine<S>, ctx: Context, task: Task, p: Pass<S>, ids: seq<nat>, k: nat, v: Visit<S>)
    requires UnderWay(machine, ctx, task, p, ids, k) && k < |ids|
    requires v.row == ids[k] && v.before == p.after && v.from == p.to
    requires p.after.rows[v.row].status in Concerns(task) && Done(machine, ctx, task, v)
    ensures v.end == Ok(()) ==> UnderWay(machine, ctx, task, Grown(p, v), ids, k + 1)
    ensures v.end.Raised? ==> Performed(machine, ctx, task, Grown(p, v))
  {
    LinkGrows(p, v);
    DoneGrows(machine, ctx, task, p.visits, v);
    RowsGrow(p, v, ctx.worker, task, ids, k);
    PickedIsOfTodo(p.before.rows, ids, ctx.worker, task, k + 1);
    LaterRowsStay(machine, ctx, task, p.before.rows, ids, k, v);
  }

  lemma AllTakenUp<S>(machine: Machine<S>, ctx: Context, task: Task, p: Pass<S>, ids: seq<nat>)
    requires UnderWay(machine, ctx, task, p, ids, |ids|)
    ensures Performed(machine, ctx, task, p)
  {
    PickedIsTodo(p.before.rows, ids, ctx.worker, task);
  }

  // ----- what follows for the rows -----

  /** A row that visits m to n - 1 are not about is the same after them as before. */
  lemma {:induction false} Unvisited<S>(machine: Machine<S>, ctx: Context, task: Task, p: Pass<S>, i: nat, m: nat,
                                        n: nat)
    requires Linked(p) && AllDone(machine, ctx, task, p.visits) && m < n <= |p.visits|
    requires forall k :: m <= k < n ==> p.visits[k].row != i
    ensures var a, b := p.visits[m].before.rows, p.visits[n - 1].after.rows;
      |a| == |b| && (i < |a| ==> b[i] == a[i])
    decreases n
  {
    assert Done(machine, ctx, task, p.visits[n - 1]);
    if m < n - 1 {
      Unvisited(machine, ctx, task, p, i, m, n - 1);
      assert Next(p.visits[n - 2], p.visits[n - 1]);
    }
  }

  lemma RowsKeepTheirNumber<S>(machine: Machine<S>, ctx: Context, task: Task, p: Pass<S>)
    requires Performed(machine, ctx, task, p)
    ensures |p.after.rows| == |p.before.rows|
    ensures forall k {:trigger p.visits[k]} :: 0 <= k < |p.visits| ==> |p.visits[k].before.rows| == |p.before.rows|
  {
    forall k | 0 <= k < |p.visits|
      ensures |p.visits[k].before.rows| == |p.before.rows|
    {
      SameLength(machine, ctx, task, p, k);
    }
    if p.visits != [] {
      assert Done(machine, ctx, task, p.visits[|p.visits| - 1]);
    }
  }

  lemma {:induction false} SameLength<S>(machine: Machine<S>, ctx: Context, task: Task, p: Pass<S>, k: nat)
    requires Linked(p) && AllDone(machine, ctx, task, p.visits) && k < |p.visits|
    ensures |p.visits[k].before.rows| == |p.before.rows|
  {
    if k > 0 {
      SameLength(machine, ctx, task, p, k - 1);
      assert Done(machine, ctx, task, p.visits[k - 1]) && Next(p.visits[k - 1], p.visits[k]);
    }
  }

  lemma VisitedOnce<S>(machine: Machine<S>, ctx: Context, task: Task, p: Pass<S>, k: nat)
    requires Performed(machine, ctx, task, p) && k < |p.visits|
    ensures forall j :: 0 <= j < |p.visits| && j != k ==> p.visits[j].row != p.visits[k].row
  {
    var ids, todo := RowsOf(p.visits), Todo(ctx.worker, task, p.before.rows);
    assert forall j :: 0 <= j < |p.visits| ==> ids[j] == p.visits[j].row && ids[j] == todo[j];
  }

  /** What a visit found on its row is what the phase found, and what it left is what the phase left. */
  lemma VisitSettles<S>(machine: Machine<S>, ctx: Context, task: Task, p: Pass<S>, k: nat)
    requires Performed(machine, ctx, task, p) && k < |p.visits|
    ensures var i := p.visits[k].row;
      && i < |p.before.rows| == |p.after.rows| == |p.visits[k].before.rows| == |p.visits[k].after.rows|
      && p.visits[k].before.rows[i] == p.before.rows[i] && p.visits[k].after.rows[i] == p.after.rows[i]
  {
    var i := p.visits[k].row;
    RowsKeepTheirNumber(machine, ctx, task, p);
    assert Done(machine, ctx, task, p.visits[k]);
    VisitedOnce(machine, ctx, task, p, k);
    if k > 0 {
      Unvisited(machine, ctx, task, p, i, 0, k);
      assert Next(p.visits[k - 1], p.visits[k]);
    }
    if k + 1 < |p.visits| {
      Unvisited(machine, ctx, task, p, i, k + 1, |p.visits|);
      assert Next(p.visits[k], p.visits[k + 1]);
    }
  }

  lemma OthersUntouched<S>(machine: Machine<S>, ctx: Context, task: Task, p: Pass<S>, i: nat)
    requires Performed(machine, ctx, task, p) && i < |p.before.rows| && i !in Todo(ctx.worker, task, p.before.rows)
    ensures |p.after.rows| == |p.before.rows| && p.after.rows[i] == p.before.rows[i]
  {
    RowsKeepTheirNumber(machine, ctx, task, p);
    forall k | 0 <= k < |p.visits|
      ensures p.visits[k].row != i
    {
      assert RowsOf(p.visits)[k] in Todo(ctx.worker, task, p.before.rows);
    }
    if p.visits != [] {
      Unvisited(machine, ctx, task, p, i, 0, |p.visits|);
    }
  }

  /** A phase that ran to its end visited every row it is concerned with. */
  lemma VisitOf<S>(machine: Machine<S>, ctx: Context, task: Task, p: Pass<S>, i: nat) returns (v: Visit<S>)
    requires Performed(machine, ctx, task, p) && p.end.Ok? && i in Todo(ctx.worker, task, p.before.rows)
    ensures v.row == i && v.end == Ok(()) && Done(machine, ctx, task, v)
    ensures i < |p.before.rows| == |p.after.rows| == |v.before.rows| == |v.after.rows|
    ensures v.before.rows[i] == p.before.rows[i] && v.after.rows[i] == p.after.rows[i]
  {
    var ids := RowsOf(p.visits);
    var k :| 0 <= k < |ids| && ids[k] == i;
    v := p.visits[k];
    VisitSettles(machine, ctx, task, p, k);
    assert Done(machine, ctx, task, v);
    if k + 1 < |p.visits| {
      assert Next(p.visits[k], p.visits[k + 1]);
    }
  }

  /** No task undoes anything that was executed. */
  lemma DoneOnlyAdds<S>(machine: Machine<S>, ctx: Context, task: Task, v: Visit<S>)
    requires Done(machine, ctx, task, v)
    ensures v.before.executed <= v.after.executed
  {
  }

  lemma {:induction false} VisitsOnlyAdd<S>(machine: Machine<S>, ctx: Context, task: Task, p: Pass<S>, n: nat)
    requires Linked(p) && AllDone(machine, ctx, task, p.visits) && n < |p.visits|
    ensures p.before.executed <= p.visits[n].after.executed
  {
    assert Done(machine, ctx, task, p.visits[n]);
    DoneOnlyAdds(machine, ctx, task, p.visits[n]);
    if n > 0 {
      VisitsOnlyAdd(machine, ctx, task, p, n - 1);
      assert Next(p.visits[n - 1], p.visits[n]);
    }
  }

  lemma StageOnlyAdds<S>(machine: Machine<S>, ctx: Context, task: Task, wanted: bool, earlier: Result<()>, p: Pass<S>)
    requires Stage(machine, ctx, task, wanted, earlier, p)
    ensures p.before.executed <= p.after.executed
  {
    if p.visits != [] {
      VisitsOnlyAdd(machine, ctx, task, p, |p.visits| - 1);
    }
  }

  lemma EvaluatedKeepsIdentity<S>(machine: Machine<S>, ctx: Context, v: Visit<S>)
    requires v.row < |v.before.rows| == |v.after.rows| && Evaluated(machine, ctx, v)
    ensures SameIdentity(v.before.rows[v.row], v.after.rows[v.row])
  {
  }

  lemma RescuedKeepsIdentity<S>(machine: Machine<S>, ctx: Context, v: Visit<S>)
    requires v.row < |v.before.rows| == |v.after.rows| && Rescued(machine, ctx, v)
    ensures SameIdentity(v.before.rows[v.row], v.after.rows[v.row])
  {
  }

  /** Every task leaves a row the row of the same worker, symbols and quantity. */
  lemma DoneKeepsIdentity<S>(machine: Machine<S>, ctx: Context, task: Task, v: Visit<S>)
    requires Done(machine, ctx, task, v)
    ensures SameIdentity(v.before.rows[v.row], v.after.rows[v.row])
  {
    match task
    case Rescue => RescuedKeepsIdentity(machine, ctx, v);
    case Evaluate => EvaluatedKeepsIdentity(machine, ctx, v);
    case _ =>
  }

  lemma IdentityStays<S>(machine: Machine<S>, ctx: Context, task: Task, p: Pass<S>)
    requires Performed(machine, ctx, task, p)
    ensures |p.after.rows| == |p.before.rows|
    ensures forall i :: 0 <= i < |p.before.rows| ==> SameIdentity(p.before.rows[i], p.after.rows[i])
  {
    RowsKeepTheirNumber(machine, ctx, task, p);
    forall i: nat | i < |p.before.rows|
      ensures SameIdentity(p.before.rows[i], p.after.rows[i])
    {
      if i in RowsOf(p.visits) {
        var k :| 0 <= k < |p.visits| && RowsOf(p.visits)[k] == i;
        VisitSettles(machine, ctx, task, p, k);
        assert Done(machine, ctx, task, p.visits[k]);
        DoneKeepsIdentity(machine, ctx, task, p.visits[k]);
      } else if p.visits != [] {
        assert forall k :: 0 <= k < |p.visits| ==> RowsOf(p.visits)[k] == p.visits[k].row;
        Unvisited(machine, ctx, task, p, i, 0, |p.visits|);
      }
    }
  }

  /** What Phase B owes an OPEN row p: one reading of the market, and then q by the decision on it. */
  ghost predicate ExitDecided<S(!new)>(machine: Machine<S>, ctx: Context, p: Position, q: Position) {
    exists s: S ::
      var (noted, reading, _) := MarketRead(machine, s, p);
      && reading.Ok?
      && if reading.value.Some? && Decide(noted, reading.value.value, ctx.cfg).Leave?
         then MarkedOrClosed(q) && SameIdentity(p, q) else q == noted
  }

  /** After a Phase B that raised nothing, every own row that was OPEN has been evaluated and dealt with as decided. */
  lemma ExitsAreDecided<S(!new)>(machine: Machine<S>, ctx: Context, p: Pass<S>)
    requires Performed(machine, ctx, Evaluate, p) && p.end.Ok?
    ensures |p.after.rows| == |p.before.rows|
    ensures forall i: nat ::
      i < |p.before.rows| && OwnedBy(p.before.rows[i], ctx.worker.mode, ctx.worker.exchange)
      && p.before.rows[i].status == Open
      ==> ExitDecided(machine, ctx, p.before.rows[i], p.after.rows[i])
  {
    RowsKeepTheirNumber(machine, ctx, Evaluate, p);
    forall i: nat | i < |p.before.rows| && OwnedBy(p.before.rows[i], ctx.worker.mode, ctx.worker.exchange)
                    && p.before.rows[i].status == Open
      ensures ExitDecided(machine, ctx, p.before.rows[i], p.after.rows[i])
    {
      var v := VisitOf(machine, ctx, Evaluate, p, i);
      EvaluationDecides(machine, ctx, v);
    }
  }

  lemma EvaluationDecides<S(!new)>(machine: Machine<S>, ctx: Context, v: Visit<S>)
    requires Done(machine, ctx, Evaluate, v) && v.end == Ok(())
    ensures ExitDecided(machine, ctx, v.before.rows[v.row], v.after.rows[v.row])
  {
    var (p, reading, s) := MarketRead(machine, v.from, v.before.rows[v.row]);
    if reading.Ok? && reading.value.Some? && Decide(p, reading.value.value, ctx.cfg).Leave? {
      CloseMarks(p, ctx.now, Close(machine, s, p, IdFor(ctx.digest, Exit("exit", p.spotSymbol, Spot, Sell)),
                                   IdFor(ctx.digest, Exit("exit", p.perpSymbol, Futures, Buy))).0);
    }
  }

  /** What stale reconciliation owes a naked row p: it is closed, as q, exactly when the venue shows its leg gone. */
  ghost predicate StaleDecided<S(!new)>(machine: Machine<S>, now: int, p: Position, q: Position) {
    exists s: S ::
      var seen := Consulted(machine, s, GoneRequests(p)).0;
      seen.Ok? && q == if UnderlyingGone(p, seen.value) then ClosedRow(p, now, "stale_reconciled") else p
  }

  /** What hedge integrity owes an OPEN row p: q claims exactly the legs the venue shows. */
  ghost predicate LegsClaimed<S(!new)>(machine: Machine<S>, now: int, p: Position, q: Position) {
    exists s: S ::
      var seen := Consulted(machine, s, IntegrityRequests(p)).0;
      seen.Ok? && ClaimsExactly(p, q, now, SpotPresent(p, seen.value), PerpPresent(p, seen.value))
  }

  lemma StaleRowsAreDecided<S(!new)>(machine: Machine<S>, ctx: Context, p: Pass<S>)
    requires Performed(machine, ctx, Reconcile, p) && p.end.Ok?
    ensures |p.after.rows| == |p.before.rows|
    ensures forall i: nat ::
      i < |p.before.rows| && OwnedBy(p.before.rows[i], ctx.worker.mode, ctx.worker.exchange)
      && IsNaked(p.before.rows[i].status)
      ==> StaleDecided(machine, ctx.now, p.before.rows[i], p.after.rows[i])
  {
    RowsKeepTheirNumber(machine, ctx, Reconcile, p);
    forall i: nat | i < |p.before.rows| && OwnedBy(p.before.rows[i], ctx.worker.mode, ctx.worker.exchange)
                    && IsNaked(p.before.rows[i].status)
      ensures StaleDecided(machine, ctx.now, p.before.rows[i], p.after.rows[i])
    {
      var v := VisitOf(machine, ctx, Reconcile, p, i);
      assert Reconciled(machine, ctx.now, v);
    }
  }

  lemma OpenRowsAreChecked<S(!new)>(machine: Machine<S>, ctx: Context, p: Pass<S>)
    requires Performed(machine, ctx, Check, p) && p.end.Ok?
    ensures |p.after.rows| == |p.before.rows|
    ensures forall i: nat ::
      i < |p.before.rows| && OwnedBy(p.before.rows[i], ctx.worker.mode, ctx.worker.exchange)
      && p.before.rows[i].status == Open
      ==> LegsClaimed(machine, ctx.now, p.before.rows[i], p.after.rows[i])
  {
    RowsKeepTheirNumber(machine, ctx, Check, p);
    forall i: nat | i < |p.before.rows| && OwnedBy(p.before.rows[i], ctx.worker.mode, ctx.worker.exchange)
                    && p.before.rows[i].status == Open
      ensures LegsClaimed(machine, ctx.now, p.before.rows[i], p.after.rows[i])
    {
      var v := VisitOf(machine, ctx, Check, p, i);
      assert Checked(machine, ctx.now, v);
    }
  }

  /** After a maintenance close that raised nothing, every own row still exposed carries the reason. */
  lemma TakenDownOrMarked<S>(machine: Machine<S>, ctx: Context, cycleId: string, p: Pass<S>)
    requires Performed(machine, ctx, TakeDown(cycleId), p) && p.end.Ok?
    ensures |p.after.rows| == |p.before.rows|
    ensures forall i: nat ::
      i < |p.before.rows| && OwnedBy(p.before.rows[i], ctx.worker.mode, ctx.worker.exchange)
      ==> MarkedOrClosed(p.after.rows[i])
  {
    RowsKeepTheirNumber(machine, ctx, TakeDown(cycleId), p);
    forall i: nat | i < |p.before.rows| && OwnedBy(p.before.rows[i], ctx.worker.mode, ctx.worker.exchange)
      ensures MarkedOrClosed(p.after.rows[i])
    {
      if IsExposed(p.before.rows[i].status) {
        var v := VisitOf(machine, ctx, TakeDown(cycleId), p, i);
        var row := v.before.rows[i];
        CloseMarks(row, ctx.now,
                   Close(machine, v.from, row, IdFor(ctx.digest, Exit(cycleId, row.spotSymbol, Spot, Sell)),
                         IdFor(ctx.digest, Exit(cycleId, row.perpSymbol, Futures, Buy))).0);
      } else {
        OthersUntouched(machine, ctx, TakeDown(cycleId), p, i);
      }
    }
  }

  /** After a rescue that raised nothing, no own row is naked without a mark. */
  lemma RescuedOrMarked<S>(machine: Machine<S>, ctx: Context, p: Pass<S>)
    requires Performed(machine, ctx, Rescue, p) && p.end.Ok?
    ensures |p.after.rows| == |p.before.rows|
    ensures forall i: nat ::
      i < |p.before.rows| && OwnedBy(p.before.rows[i], ctx.worker.mode, ctx.worker.exchange)
      ==> DealtWith(p.after.rows[i])
  {
    RowsKeepTheirNumber(machine, ctx, Rescue, p);
    forall i: nat | i < |p.before.rows| && OwnedBy(p.before.rows[i], ctx.worker.mode, ctx.worker.exchange)
      ensures DealtWith(p.after.rows[i])
    {
      if IsNaked(p.before.rows[i].status) {
        var v := VisitOf(machine, ctx, Rescue, p, i);
        RescueDealsWith(machine, ctx, v);
      } else {
        OthersUntouched(machine, ctx, Rescue, p, i);
      }
    }
  }

  lemma RescueDealsWith<S>(machine: Machine<S>, ctx: Context, v: Visit<S>)
    requires Done(machine, ctx, Rescue, v) && v.end == Ok(())
    requires IsNaked(v.before.rows[v.row].status)
    ensures DealtWith(v.after.rows[v.row])
  {
    var p := v.before.rows[v.row];
    var last := if p.status == NakedSpot then FetchBalance(p.symbol) else ListOpenPerps;
    var asked := [FetchFunding(p.perpSymbol), FetchFees(p.spotSymbol, p.perpSymbol), last];
    var (seen, s) := Consulted(machine, v.from, asked);
    assert Fits(asked[0], seen.value[0]) && Fits(asked[1], seen.value[1]) && Fits(asked[2], seen.value[2]);
    var held := Held(p, seen.value[2]);
    var pays := ctx.cfg.entryMinNetApy <= ForwardApy(seen.value[0], seen.value[1], ctx.cfg);
    var hedgeId, unwindId := HedgeId(p, v.row, ctx.digest), UnwindId(p, v.row, ctx.digest);
    RecoveryIsAnswered(machine, s, p, held, pays, hedgeId, unwindId);
    RecoveryDealsWith(p, ctx.now, seen.value[0].funding, Recover(machine, s, p, held, pays, hedgeId, unwindId).0);
  }

  /** Stale reconciliation closes naked rows and touches nothing else. */
  predicate KeptOrStale(p: Position, q: Position, now: int) {
    p == q || ((p.status == NakedSpot || p.status == NakedPerp) && q == ClosedRow(p, now, "stale_reconciled"))
  }

  lemma ReconcilingKeeps<S>(machine: Machine<S>, ctx: Context, p: Pass<S>, i: nat)
    requires Performed(machine, ctx, Reconcile, p) && i < |p.before.rows|
    ensures |p.after.rows| == |p.before.rows| && KeptOrStale(p.before.rows[i], p.after.rows[i], ctx.now)
  {
    RowsKeepTheirNumber(machine, ctx, Reconcile, p);
    if i in RowsOf(p.visits) {
      var k :| 0 <= k < |p.visits| && RowsOf(p.visits)[k] == i;
      VisitSettles(machine, ctx, Reconcile, p, k);
      assert Done(machine, ctx, Reconcile, p.visits[k]);
      assert i in Todo(ctx.worker, Reconcile, p.before.rows);
    } else if p.visits != [] {
      assert forall k :: 0 <= k < |p.visits| ==> RowsOf(p.visits)[k] == p.visits[k].row;
      Unvisited(machine, ctx, Reconcile, p, i, 0, |p.visits|);
    }
  }

  // ----- the entry -----

  /** The bases of the worker's own exposed rows. */
  function HeldIn(rows: seq<Position>, w: Worker): (held: set<string>)
    ensures forall b :: b in held <==>
      exists i: nat :: i < |rows| && OwnedBy(rows[i], w.mode, w.exchange) && IsExposed(rows[i].status)
        && rows[i].symbol == b
  {
    set i | i in OwnExposedIds(rows, w) :: rows[i].symbol
  }

  /**
   * Nothing is asked at capacity. Otherwise the rates are, the best candidate whose
   * base is not held is planned for, and the outcome is that of the plan; with no
   * such candidate there is none.
   */
  ghost predicate Chose<S>(machine: Machine<S>, s: S, w: Worker, rows: seq<Position>, cfg: Settings,
                           chosen: Result<Option<(Candidate, real)>>, end: S) {
    if ExposedCount(rows, w.mode) >= cfg.maxOpenPositions then chosen == Ok(None) && end == s
    else
      var (rates, s1) := Consulted(machine, s, [FetchFundingRates]);
      if rates.Raised? then chosen == Raised(rates.exn) && end == s1
      else
        assert Fits([FetchFundingRates][0], rates.value[0]);
        var candidates := Candidates(rates.value[0].rates, cfg.entryMinNetApy);
        if forall c :: c in candidates ==> c.base in HeldIn(rows, w) then chosen == Ok(None) && end == s1
        else
          exists k: nat ::
            && Best(candidates, HeldIn(rows, w), k)
            && var (planned, s2) := P.Planned(machine, s1, candidates[k], cfg);
            && end == s2
            && chosen == match planned
                         case Raised(exn) => Raised(exn)
                         case Ok(None) => Ok(None)
                         case Ok(Some(qty)) => Ok(Some((candidates[k], qty)))
  }

  /** Phase C: what was chosen, where the venue was then, and how the entry ended. */
  datatype EntryLog<S> = EntryLog(
    before: Snapshot, from: S, chosen: Result<Option<(Candidate, real)>>, at: S, after: Snapshot, to: S,
    end: Result<()>)

  /**
   * The chosen candidate is entered for the planned quantity, under the ids of the cycle; without
   * one nothing changes.
   */
  ghost predicate Entered<S>(machine: Machine<S>, w: Worker, digest: Digest, round: Round, log: EntryLog<S>) {
    && Chose(machine, log.from, w, log.before.rows, round.cfg, log.chosen, log.at)
    && match log.chosen
       case Raised(exn) => log.after == log.before && log.to == log.at && log.end == Raised(exn)
       case Ok(None) => log.after == log.before && log.to == log.at && log.end == Ok(())
       case Ok(Some((c, qty))) =>
         var e := P.EntryFor(c, qty, round.cycleId, digest);
         var (t, s) := Enter(machine, log.at, e, round.spotFirst);
         && log.to == s && log.after == AfterEntry(log.before, P.Template(c, w), e, round.spotFirst, t)
         && log.end == if Verdict(t) == None then Raised(GatewayRaised) else Ok(())
  }

  // ----- the cycle -----

  datatype CycleLog<S> = CycleLog(
    stale: Pass<S>, checked: Pass<S>, rescued: Pass<S>, main: Pass<S>, entry: Option<EntryLog<S>>)

  ghost predicate Skipped<S>(p: Pass<S>, end: Result<()>) {
    p.visits == [] && p.after == p.before && p.to == p.from && p.end == end
  }

  /** A phase that is wanted is performed unless an earlier one raised. */
  ghost predicate Stage<S>(machine: Machine<S>, ctx: Context, task: Task, wanted: bool, earlier: Result<()>,
                           p: Pass<S>) {
    if earlier.Ok? && wanted then Performed(machine, ctx, task, p) else Skipped(p, earlier)
  }

  ghost predicate Continues<S>(p: Pass<S>, q: Pass<S>) {
    q.before == p.after && q.from == p.to
  }

  /** Phase A: in live mode only, and hedge integrity only when it is switched on. */
  ghost predicate MadeSafe<S>(machine: Machine<S>, ctx: Context, stale: Pass<S>, checked: Pass<S>, rescued: Pass<S>) {
    var live := ctx.worker.mode == Live;
    && Stage(machine, ctx, Reconcile, live, Ok(()), stale)
    && Continues(stale, checked) && Stage(machine, ctx, Check, live && ctx.cfg.hedgeIntegrityCheck, stale.end, checked)
    && Continues(checked, rescued) && Stage(machine, ctx, Rescue, live, checked.end, rescued)
  }

  function MainTask(round: Round): Task {
    if round.maintenance then TakeDown(round.cycleId) else Evaluate
  }

  function ErrorOf(end: Result<()>): Option<Exn> {
    if end.Ok? then None else Some(end.exn)
  }

  /**
   * A whole cycle: Phase A; then in maintenance the close of everything, and
   * otherwise Phase B and, where entries are enabled, Phase C; the first exception
   * ends it.
   */
  ghost predicate Ran<S>(machine: Machine<S>, w: Worker, digest: Digest, round: Round, log: CycleLog<S>,
                         a: Snapshot, s: S, b: Snapshot, t: S, error: Option<Exn>) {
    var ctx := Context(w, digest, round.cfg, round.now);
    && log.stale.before == a && log.stale.from == s && MadeSafe(machine, ctx, log.stale, log.checked, log.rescued)
    && Continues(log.rescued, log.main)
    && Stage(machine, ctx, MainTask(round), true, log.rescued.end, log.main)
    && if log.main.end.Ok? && !round.maintenance && round.entryEnabled then
         && log.entry.Some? && log.entry.value.before == log.main.after && log.entry.value.from == log.main.to
         && Entered(machine, w, digest, round, log.entry.value)
         && b == log.entry.value.after && t == log.entry.value.to && error == ErrorOf(log.entry.value.end)
       else log.entry == None && b == log.main.after && t == log.main.to && error == ErrorOf(log.main.end)
  }

  lemma StageKeepsIdentity<S>(machine: Machine<S>, ctx: Context, task: Task, wanted: bool, earlier: Result<()>,
                              p: Pass<S>)
    requires Stage(machine, ctx, task, wanted, earlier, p)
    ensures |p.after.rows| == |p.before.rows|
    ensures forall i :: 0 <= i < |p.before.rows| ==> SameIdentity(p.before.rows[i], p.after.rows[i])
    ensures p.end.Ok? ==> earlier.Ok?
  {
    if earlier.Ok? && wanted {
      IdentityStays(machine, ctx, task, p);
    }
  }

  /** A live Phase A that raised nothing leaves no own naked row unmarked. */
  lemma SafetyDealsWith<S>(machine: Machine<S>, ctx: Context, stale: Pass<S>, checked: Pass<S>, rescued: Pass<S>)
    requires MadeSafe(machine, ctx, stale, checked, rescued)
    ensures |rescued.after.rows| == |stale.before.rows|
    ensures rescued.end.Ok? && ctx.worker.mode == Live ==>
      forall i: nat :: i < |stale.before.rows| && OwnedBy(stale.before.rows[i], ctx.worker.mode, ctx.worker.exchange)
        ==> DealtWith(rescued.after.rows[i])
  {
    var live := ctx.worker.mode == Live;
    StageKeepsIdentity(machine, ctx, Reconcile, live, Ok(()), stale);
    StageKeepsIdentity(machine, ctx, Check, live && ctx.cfg.hedgeIntegrityCheck, stale.end, checked);
    StageKeepsIdentity(machine, ctx, Rescue, live, checked.end, rescued);
    if rescued.end.Ok? && live {
      RescuedOrMarked(machine, ctx, rescued);
    }
  }

  lemma CycleOnlyAdds<S>(machine: Machine<S>, w: Worker, digest: Digest, round: Round, log: CycleLog<S>,
                         a: Snapshot, s: S, b: Snapshot, t: S, error: Option<Exn>)
    requires Ran(machine, w, digest, round, log, a, s, b, t, error)
    ensures a.executed <= b.executed
  {
    var ctx, live := Context(w, digest, round.cfg, round.now), w.mode == Live;
    StageOnlyAdds(machine, ctx, Reconcile, live, Ok(()), log.stale);
    StageOnlyAdds(machine, ctx, Check, live && round.cfg.hedgeIntegrityCheck, log.stale.end, log.checked);
    StageOnlyAdds(machine, ctx, Rescue, live, log.checked.end, log.rescued);
    StageOnlyAdds(machine, ctx, MainTask(round), true, log.rescued.end, log.main);
  }

  // ----- the worker's sessions -----

  /** One session: the books found, the cycle, the books it ran to, and those left once committed or rolled back. */
  datatype SessionLog<S> = SessionLog(
    found: Snapshot, from: S, cycle: CycleLog<S>, ran: Snapshot, to: S, left: Snapshot, error: Option<Exn>)

  ghost predicate SessionRan<S>(machine: Machine<S>, w: Worker, digest: Digest, round: Round, log: SessionLog<S>) {
    && Ran(machine, w, digest, round, log.cycle, log.found, log.from, log.ran, log.to, log.error)
    && log.found.executed <= log.ran.executed
    && log.left == if round.committed then log.ran
                   else AfterRollback(log.found, log.ran.executed[|log.found.executed|..])
  }
}
// What any record of cycles keeps true (loop/cycle.py, loop/runner.py): the
// invariant, the limit, distinct bases and final closed rows, over one row, one
// phase, one cycle and any run of sessions among other workers.
module Runs {
  import opened Domain
  import opened Lifecycle
  import opened Positions
  import opened Gateways
  import opened Executor
  import opened ClientOrderIds
  import opened Accounts
  import opened Recovery
  import opened Sightings
  import opened Exits
  import opened Scan
  import opened CycleLog
  import P = EntryPlan

  // ----- shapes -----

  /** One row more, found room for and on a base no exposed row of the worker held. */
  ghost predicate OneMore(before: seq<Position>, after: seq<Position>, w: Worker, cap: int) {
    && |after| == |before| + 1 && after == before + [after[|before|]]
    && OwnedBy(after[|before|], w.mode, w.exchange) && IsExposed(after[|before|].status)
    && ExposedCount(before, w.mode) < cap
    && forall i :: i in ExposedIds(before, w.mode, Some(w.exchange), |before|) ==>
        before[i].symbol != after[|before|].symbol
  }

  /** A cycle first closes and changes own rows, then inserts at most one. */
  ghost predicate CycleShape(before: seq<Position>, after: seq<Position>, w: Worker, cap: int) {
    exists mid :: Evolves(before, mid, w.mode, w.exchange) && |mid| == |before|
      && (after == mid || OneMore(mid, after, w, cap))
  }

  /** The exposed count stays under the limit, or under what it was; bases stay distinct. */
  ghost predicate WithinLimit(before: seq<Position>, after: seq<Position>, w: Worker, cap: int) {
    && (ExposedCount(after, w.mode) <= cap || ExposedCount(after, w.mode) <= ExposedCount(before, w.mode))
    && (BasesDistinct(before, w.mode, w.exchange) ==> BasesDistinct(after, w.mode, w.exchange))
  }

  lemma NoInsertion(before: seq<Position>, after: seq<Position>, w: Worker, cap: int)
    requires Evolves(before, after, w.mode, w.exchange) && |after| == |before|
    ensures WithinLimit(before, after, w, cap) && ExposedCount(after, w.mode) <= ExposedCount(before, w.mode)
  {
    ExposureNeverGrows(before, after, w.mode, w.exchange);
    if BasesDistinct(before, w.mode, w.exchange) {
      EvolvingKeepsBases(before, after, w.mode, w.exchange);
    }
  }

  lemma OneInsertion(before: seq<Position>, after: seq<Position>, w: Worker, cap: int)
    requires after == before || OneMore(before, after, w, cap)
    ensures WithinLimit(before, after, w, cap)
  {
    if after != before {
      InsertionCounts(before, after[|before|], w.mode, w.exchange);
    }
  }

  // ----- one row -----

  /** What leads from one state of a worker's books to a later one: own tables only, and nothing executed is undone. */
  ghost predicate Moves(a: Snapshot, b: Snapshot, w: Worker) {
    Advances(TablesOf(a), TablesOf(b), w) && a.executed <= b.executed
  }

  lemma MovesOn(a: Snapshot, b: Snapshot, c: Snapshot, w: Worker)
    requires Moves(a, b, w) && Moves(b, c, w)
    ensures Moves(a, c, w)
  {
    AdvancesTransitive(TablesOf(a), TablesOf(b), TablesOf(c), w);
  }

  lemma Rests(a: Snapshot, w: Worker)
    ensures Moves(a, a, w)
  {
  }

  lemma ReconcilingRowKeeps<S>(machine: Machine<S>, ctx: Context, v: Visit<S>)
    requires Done(machine, ctx, Reconcile, v) && Kept(v.before, ctx.worker) && ctx.worker.mode == Live
    requires OwnedBy(v.before.rows[v.row], ctx.worker.mode, ctx.worker.exchange) && IsNaked(v.before.rows[v.row].status)
    ensures Kept(v.after, ctx.worker) && Moves(v.before, v.after, ctx.worker)
    ensures v.end.Raised? ==> v.end.exn == GatewayRaised
  {
    var seen := Consulted(machine, v.from, GoneRequests(v.before.rows[v.row])).0;
    if seen.Raised? {
      Rests(v.before, ctx.worker);
    } else {
      assert RowOk(v.before.rows[v.row]);
      RestatingKeeps(v.before, ctx.worker, v.row, v.after.rows[v.row], seen.value);
    }
  }

  lemma CheckingRowKeeps<S>(machine: Machine<S>, ctx: Context, v: Visit<S>)
    requires Done(machine, ctx, Check, v) && Kept(v.before, ctx.worker) && ctx.worker.mode == Live
    requires OwnedBy(v.before.rows[v.row], ctx.worker.mode, ctx.worker.exchange) && v.before.rows[v.row].status == Open
    ensures Kept(v.after, ctx.worker) && Moves(v.before, v.after, ctx.worker)
    ensures v.end.Raised? ==> v.end.exn == GatewayRaised
  {
    var seen := Consulted(machine, v.from, IntegrityRequests(v.before.rows[v.row])).0;
    if seen.Raised? {
      Rests(v.before, ctx.worker);
    } else {
      assert RowOk(v.before.rows[v.row]);
      RestatingKeeps(v.before, ctx.worker, v.row, v.after.rows[v.row], seen.value);
    }
  }

  lemma RescuingRowKeeps<S>(machine: Machine<S>, ctx: Context, v: Visit<S>)
    requires Done(machine, ctx, Rescue, v) && Kept(v.before, ctx.worker) && ctx.worker.mode == Live
    requires OwnedBy(v.before.rows[v.row], ctx.worker.mode, ctx.worker.exchange) && IsNaked(v.before.rows[v.row].status)
    ensures Kept(v.after, ctx.worker) && Moves(v.before, v.after, ctx.worker)
    ensures v.end.Raised? ==> v.end.exn == GatewayRaised
  {
    var p := v.before.rows[v.row];
    var last := if p.status == NakedSpot then FetchBalance(p.symbol) else ListOpenPerps;
    var asked := [FetchFunding(p.perpSymbol), FetchFees(p.spotSymbol, p.perpSymbol), last];
    var (seen, s) := Consulted(machine, v.from, asked);
    if seen.Raised? {
      Rests(v.before, ctx.worker);
    } else {
      assert Fits(asked[0], seen.value[0]) && Fits(asked[1], seen.value[1]) && Fits(asked[2], seen.value[2]);
      var held := Held(p, seen.value[2]);
      var pays := ctx.cfg.entryMinNetApy <= ForwardApy(seen.value[0], seen.value[1], ctx.cfg);
      var hedgeId, unwindId := HedgeId(p, v.row, ctx.digest), UnwindId(p, v.row, ctx.digest);
      RecoveryIsAnswered(machine, s, p, held, pays, hedgeId, unwindId);
      RecoveryKeeps(v.before, ctx.worker, v.row, ctx.now, seen.value[0].funding,
                    Recover(machine, s, p, held, pays, hedgeId, unwindId).0);
    }
  }

  lemma CloseIsAnswered<S>(machine: Machine<S>, s: S, p: Position, spotCoid: string, perpCoid: string)
    ensures AnswersClose(p, Close(machine, s, p, spotCoid, perpCoid).0)
  {
  }

  lemma TakingDownKeeps<S>(machine: Machine<S>, s: S, ctx: Context, cycleId: string, before: Snapshot, v: Visit<S>)
    requires v.row < |before.rows| && TakenDown(machine, s, ctx, cycleId, before, v) && Kept(before, ctx.worker)
    requires OwnedBy(before.rows[v.row], ctx.worker.mode, ctx.worker.exchange) && IsExposed(before.rows[v.row].status)
    ensures Kept(v.after, ctx.worker) && Moves(before, v.after, ctx.worker)
    ensures v.end.Raised? ==> v.end.exn == GatewayRaised
  {
    var p := before.rows[v.row];
    var spotCoid := IdFor(ctx.digest, Exit(cycleId, p.spotSymbol, Spot, Sell));
    var perpCoid := IdFor(ctx.digest, Exit(cycleId, p.perpSymbol, Futures, Buy));
    CloseIsAnswered(machine, s, p, spotCoid, perpCoid);
    CloseKeeps(before, ctx.worker, v.row, ctx.now, Close(machine, s, p, spotCoid, perpCoid).0);
  }

  lemma EvaluatingRowKeeps<S>(machine: Machine<S>, ctx: Context, v: Visit<S>)
    requires Done(machine, ctx, Evaluate, v) && Kept(v.before, ctx.worker)
    requires OwnedBy(v.before.rows[v.row], ctx.worker.mode, ctx.worker.exchange) && v.before.rows[v.row].status == Open
    ensures Kept(v.after, ctx.worker) && Moves(v.before, v.after, ctx.worker)
    ensures v.end.Raised? ==> v.end.exn == GatewayRaised
  {
    var (p, reading, s) := MarketRead(machine, v.from, v.before.rows[v.row]);
    var noted := Noted(v.before, v.row, p);
    NotesKeep(v.before, ctx.worker, v.row, p);
    if reading.Ok? && reading.value.Some? && Decide(p, reading.value.value, ctx.cfg).Leave? {
      TakingDownKeeps(machine, s, ctx, "exit", noted, v);
      MovesOn(v.before, noted, v.after, ctx.worker);
    }
  }

  /** A task done on one own row, whatever the venue answers, keeps the books; Phase A's tasks are a live worker's. */
  lemma DoneKeeps<S>(machine: Machine<S>, ctx: Context, task: Task, v: Visit<S>)
    requires Done(machine, ctx, task, v) && Kept(v.before, ctx.worker)
    requires task == Reconcile || task == Check || task == Rescue ==> ctx.worker.mode == Live
    requires OwnedBy(v.before.rows[v.row], ctx.worker.mode, ctx.worker.exchange)
    requires v.before.rows[v.row].status in Concerns(task)
    ensures Kept(v.after, ctx.worker) && Moves(v.before, v.after, ctx.worker)
    ensures v.end.Raised? ==> v.end.exn == GatewayRaised
  {
    match task
    case Reconcile => ReconcilingRowKeeps(machine, ctx, v);
    case Check => CheckingRowKeeps(machine, ctx, v);
    case Rescue => RescuingRowKeeps(machine, ctx, v);
    case Evaluate => EvaluatingRowKeeps(machine, ctx, v);
    case TakeDown(cycleId) => TakingDownKeeps(machine, v.from, ctx, cycleId, v.before, v);
  }

  // ----- one phase -----

  lemma {:induction false} VisitsKeep<S>(machine: Machine<S>, ctx: Context, task: Task, p: Pass<S>, n: nat)
    requires Performed(machine, ctx, task, p) && Kept(p.before, ctx.worker) && n < |p.visits|
    requires task == Reconcile || task == Check || task == Rescue ==> ctx.worker.mode == Live
    ensures Kept(p.visits[n].after, ctx.worker) && Moves(p.before, p.visits[n].after, ctx.worker)
    ensures p.visits[n].end.Raised? ==> p.visits[n].end.exn == GatewayRaised
  {
    var v := p.visits[n];
    Rests(p.before, ctx.worker);
    if n > 0 {
      VisitsKeep(machine, ctx, task, p, n - 1);
      assert Next(p.visits[n - 1], v);
    }
    VisitSettles(machine, ctx, task, p, n);
    assert Done(machine, ctx, task, v) && RowsOf(p.visits)[n] in Todo(ctx.worker, task, p.before.rows);
    DoneKeeps(machine, ctx, task, v);
    MovesOn(p.before, v.before, v.after, ctx.worker);
  }

  /** A phase, run to its end or cut short, keeps the books and inserts nothing. */
  lemma PassKeeps<S>(machine: Machine<S>, ctx: Context, task: Task, p: Pass<S>)
    requires Performed(machine, ctx, task, p) && Kept(p.before, ctx.worker)
    requires task == Reconcile || task == Check || task == Rescue ==> ctx.worker.mode == Live
    ensures Kept(p.after, ctx.worker) && Moves(p.before, p.after, ctx.worker) && |p.after.rows| == |p.before.rows|
    ensures p.end.Raised? ==> p.end.exn == GatewayRaised
  {
    RowsKeepTheirNumber(machine, ctx, task, p);
    if p.visits == [] {
      Rests(p.before, ctx.worker);
    } else {
      VisitsKeep(machine, ctx, task, p, |p.visits| - 1);
    }
  }

  lemma StageKeeps<S>(machine: Machine<S>, ctx: Context, task: Task, wanted: bool, earlier: Result<()>, p: Pass<S>)
    requires Stage(machine, ctx, task, wanted, earlier, p) && Kept(p.before, ctx.worker)
    requires task == Reconcile || task == Check || task == Rescue ==> (wanted ==> ctx.worker.mode == Live)
    requires earlier.Raised? ==> earlier.exn == GatewayRaised
    ensures Kept(p.after, ctx.worker) && Moves(p.before, p.after, ctx.worker) && |p.after.rows| == |p.before.rows|
    ensures p.end.Raised? ==> p.end.exn == GatewayRaised
  {
    if earlier.Ok? && wanted {
      PassKeeps(machine, ctx, task, p);
    } else {
      Rests(p.before, ctx.worker);
    }
  }

  /** Phase A keeps a worker's books, and in paper mode it does nothing at all. */
  lemma SafetyKeeps<S>(machine: Machine<S>, ctx: Context, stale: Pass<S>, checked: Pass<S>, rescued: Pass<S>)
    requires MadeSafe(machine, ctx, stale, checked, rescued) && Kept(stale.before, ctx.worker)
    ensures Kept(rescued.after, ctx.worker) && Moves(stale.before, rescued.after, ctx.worker)
    ensures |rescued.after.rows| == |stale.before.rows|
    ensures rescued.end.Raised? ==> rescued.end.exn == GatewayRaised
    ensures ctx.worker.mode == Paper ==>
      rescued.after == stale.before && rescued.to == stale.from && rescued.end == Ok(())
  {
    var live := ctx.worker.mode == Live;
    StageKeeps(machine, ctx, Reconcile, live, Ok(()), stale);
    StageKeeps(machine, ctx, Check, live && ctx.cfg.hedgeIntegrityCheck, stale.end, checked);
    StageKeeps(machine, ctx, Rescue, live, checked.end, rescued);
    MovesOn(stale.before, stale.after, checked.after, ctx.worker);
    MovesOn(stale.before, checked.after, rescued.after, ctx.worker);
  }

  // ----- the entry -----

  lemma HeldElsewhere(rows: seq<Position>, w: Worker, base: string)
    requires base !in HeldIn(rows, w)
    ensures forall i :: i in ExposedIds(rows, w.mode, Some(w.exchange), |rows|) ==> rows[i].symbol != base
  {
  }

  /** What was chosen was found room for, is not held, and is planned for a positive quantity. */
  lemma ChoiceFits<S>(machine: Machine<S>, s: S, w: Worker, rows: seq<Position>, cfg: Settings,
                      chosen: Result<Option<(Candidate, real)>>, end: S)
    requires Chose(machine, s, w, rows, cfg, chosen, end)
    ensures chosen.Raised? ==> chosen.exn == GatewayRaised || chosen.exn == DivisionByZero
    ensures chosen.Ok? && chosen.value.Some? ==>
      && ExposedCount(rows, w.mode) < cfg.maxOpenPositions
      && chosen.value.value.0.base !in HeldIn(rows, w) && 0.0 < chosen.value.value.1
  {
  }

  /** Phase C keeps the books and inserts at most one row, found room for and on a base not held. */
  lemma EntryStageKeeps<S>(machine: Machine<S>, w: Worker, digest: Digest, round: Round, log: EntryLog<S>)
    requires Entered(machine, w, digest, round, log) && Kept(log.before, w)
    ensures Kept(log.after, w) && Moves(log.before, log.after, w)
    ensures log.after.rows == log.before.rows || OneMore(log.before.rows, log.after.rows, w, round.cfg.maxOpenPositions)
    ensures log.end.Raised? ==> log.end.exn == GatewayRaised || log.end.exn == DivisionByZero
  {
    ChoiceFits(machine, log.from, w, log.before.rows, round.cfg, log.chosen, log.at);
    if log.chosen.Ok? && log.chosen.value.Some? {
      var (c, qty) := log.chosen.value.value;
      var e := P.EntryFor(c, qty, round.cycleId, digest);
      var t := Enter(machine, log.at, e, round.spotFirst).0;
      EntryIsAnswered(machine, log.at, e, round.spotFirst);
      EntryKeeps(log.before, w, P.Template(c, w), e, round.spotFirst, t);
      HeldElsewhere(log.before.rows, w, c.base);
      if RowFor(P.Template(c, w), Verdict(t)).Some? {
        RowMatchesClaim(w, e, t, P.Template(c, w));
      }
    } else {
      Rests(log.before, w);
    }
  }

  // ----- one cycle -----

  /** Nothing but what the venue raised, or a mid of zero, ended the cycle early. */
  predicate FromTheVenue(error: Option<Exn>) {
    error == None || error == Some(GatewayRaised) || error == Some(DivisionByZero)
  }

  /** Phase A and what follows it, up to the entries: the books are kept and nothing is inserted. */
  lemma PhasesKeep<S>(machine: Machine<S>, w: Worker, digest: Digest, round: Round, log: CycleLog<S>,
                      a: Snapshot, s: S, b: Snapshot, t: S, error: Option<Exn>)
    requires Ran(machine, w, digest, round, log, a, s, b, t, error) && Kept(a, w)
    ensures var mid := log.main.after;
      && Kept(mid, w) && Moves(a, mid, w) && |mid.rows| == |a.rows|
      && WithinLimit(a.rows, mid.rows, w, round.cfg.maxOpenPositions)
      && ExposedCount(mid.rows, w.mode) <= ExposedCount(a.rows, w.mode)
    ensures log.main.end.Raised? ==> log.main.end.exn == GatewayRaised
  {
    var ctx, mid := Context(w, digest, round.cfg, round.now), log.main.after;
    SafetyKeeps(machine, ctx, log.stale, log.checked, log.rescued);
    StageKeeps(machine, ctx, MainTask(round), true, log.rescued.end, log.main);
    MovesOn(a, log.rescued.after, mid, w);
    NoInsertion(a.rows, mid.rows, w, round.cfg.maxOpenPositions);
  }

  /**
   * Any cycle, whatever the venue answers and wherever it raises: the books are
   * kept, closed rows and the rows of others stay as they are, at most one row is
   * inserted, only below the limit and on a base not held, and no exception is an
   * illegal transition or a failed assertion.
   */
  lemma CycleKeeps<S>(machine: Machine<S>, w: Worker, digest: Digest, round: Round, log: CycleLog<S>,
                      a: Snapshot, s: S, b: Snapshot, t: S, error: Option<Exn>)
    requires Ran(machine, w, digest, round, log, a, s, b, t, error) && Kept(a, w)
    ensures Kept(b, w) && Moves(a, b, w)
    ensures FromTheVenue(error)
    ensures |b.rows| <= |a.rows| + 1 && (|b.rows| > |a.rows| ==> round.entryEnabled && !round.maintenance)
    ensures WithinLimit(a.rows, b.rows, w, round.cfg.maxOpenPositions)
    ensures CycleShape(a.rows, b.rows, w, round.cfg.maxOpenPositions)
  {
    var mid := log.main.after;
    PhasesKeep(machine, w, digest, round, log, a, s, b, t, error);
    if log.entry.Some? {
      EntryStageKeeps(machine, w, digest, round, log.entry.value);
      MovesOn(a, mid, b, w);
    }
    OneInsertion(mid.rows, b.rows, w, round.cfg.maxOpenPositions);
  }

  // ----- what other workers commit between two cycles -----

  datatype Commit = Commit(author: Worker, tables: Tables)

  function Last(a: Tables, commits: seq<Commit>): Tables {
    if commits == [] then a else commits[|commits| - 1].tables
  }

  /** Any number of commits, each a step of some worker other than w on what the one before left. */
  ghost predicate CommitsOfOthers(w: Worker, a: Tables, commits: seq<Commit>) {
    commits == []
    || (var n := |commits| - 1;
        && CommitsOfOthers(w, a, commits[..n]) && commits[n].author != w
        && RowsOk(commits[n].tables.rows) && Advances(Last(a, commits[..n]), commits[n].tables, commits[n].author))
  }

  ghost predicate ByOthers(w: Worker, a: Tables, b: Tables) {
    exists commits :: CommitsOfOthers(w, a, commits) && b == Last(a, commits)
  }

  ghost predicate ByOtherModes(w: Worker, a: Tables, b: Tables) {
    exists commits ::
      && CommitsOfOthers(w, a, commits) && b == Last(a, commits)
      && forall c: Commit :: c in commits ==> c.author.mode != w.mode
  }

  /** What the other workers do in the n-th gap, given the tables they find. */
  type Others = (nat, Tables) -> Tables

  ghost predicate OthersCommit(w: Worker, others: Others) {
    forall n: nat, t: Tables :: RowsOk(t.rows) ==> ByOthers(w, t, others(n, t))
  }

  /** No other worker of the mode: a single exchange is active, or the others are idle. */
  ghost predicate AloneInMode(w: Worker, others: Others) {
    forall n: nat, t: Tables :: RowsOk(t.rows) ==> ByOtherModes(w, t, others(n, t))
  }

  /** A worker's own rows as they were, and none added. */
  ghost predicate OwnRowsStay(a: Tables, b: Tables, w: Worker) {
    && |a.rows| <= |b.rows|
    && (forall i :: 0 <= i < |a.rows| && OwnedBy(a.rows[i], w.mode, w.exchange) ==> b.rows[i] == a.rows[i])
    && (forall i :: 0 <= i < |b.rows| && OwnedBy(b.rows[i], w.mode, w.exchange) ==>
          i < |a.rows| && OwnedBy(a.rows[i], w.mode, w.exchange))
  }

  lemma StepLeavesOwnRows(a: Tables, b: Tables, w: Worker, other: Worker)
    requires Advances(a, b, other) && other != w
    ensures OwnRowsStay(a, b, w)
  {
    forall i | 0 <= i < |a.rows|
      ensures OwnedBy(a.rows[i], w.mode, w.exchange) ==> b.rows[i] == a.rows[i]
      ensures OwnedBy(b.rows[i], w.mode, w.exchange) ==> OwnedBy(a.rows[i], w.mode, w.exchange)
    {
      assert RowEvolves(a.rows[i], b.rows[i], other.mode, other.exchange);
    }
  }

  /** After any commits of others: the worker's books are kept and its rows are as they were. */
  lemma {:induction false} CommitsKeep(s: Snapshot, w: Worker, commits: seq<Commit>)
    requires Kept(s, w) && CommitsOfOthers(w, TablesOf(s), commits)
    ensures var t := Last(TablesOf(s), commits);
      Kept(s.(rows := t.rows, trades := t.trades), w) && OwnRowsStay(TablesOf(s), t, w)
  {
    if commits == [] {
      assert s.(rows := s.rows, trades := s.trades) == s;
    } else {
      var n := |commits| - 1;
      CommitsKeep(s, w, commits[..n]);
      var mid := Last(TablesOf(s), commits[..n]);
      OthersDoNotDisturb(s.(rows := mid.rows, trades := mid.trades), w, commits[n].author, commits[n].tables);
      StepLeavesOwnRows(mid, commits[n].tables, w, commits[n].author);
    }
  }

  lemma StepOfOtherMode(a: Tables, b: Tables, mode: Mode, other: Worker)
    requires Advances(a, b, other) && other.mode != mode
    ensures ExposedCount(b.rows, mode) <= ExposedCount(a.rows, mode)
  {
    forall i | 0 <= i < |b.rows| && Matches(b.rows[i], mode, None)
      ensures i < |a.rows| && Matches(a.rows[i], mode, None)
    {
      assert i < |a.rows| ==> RowEvolves(a.rows[i], b.rows[i], other.mode, other.exchange);
    }
    CountOfExtension(a.rows, b.rows, mode, None, |b.rows|);
  }

  lemma {:induction false} OtherModesDoNotCount(w: Worker, a: Tables, commits: seq<Commit>)
    requires CommitsOfOthers(w, a, commits) && forall c: Commit :: c in commits ==> c.author.mode != w.mode
    ensures ExposedCount(Last(a, commits).rows, w.mode) <= ExposedCount(a.rows, w.mode)
  {
    if commits != [] {
      var n := |commits| - 1;
      OtherModesDoNotCount(w, a, commits[..n]);
      StepOfOtherMode(Last(a, commits[..n]), commits[n].tables, w.mode, commits[n].author);
    }
  }

  lemma OwnBasesStay(a: Tables, b: Tables, w: Worker)
    requires OwnRowsStay(a, b, w) && BasesDistinct(a.rows, w.mode, w.exchange)
    ensures BasesDistinct(b.rows, w.mode, w.exchange)
  {
    forall i, j | 0 <= i < j < |b.rows| && Matches(b.rows[i], w.mode, Some(w.exchange))
        && Matches(b.rows[j], w.mode, Some(w.exchange))
      ensures b.rows[i].symbol != b.rows[j].symbol
    {
      assert b.rows[i] == a.rows[i] && b.rows[j] == a.rows[j];
    }
  }

  /** A worker's closed rows, once closed, are final. */
  ghost predicate ClosedStay(before: seq<Position>, after: seq<Position>, w: Worker) {
    && |before| <= |after|
    && forall i :: 0 <= i < |before| && OwnedBy(before[i], w.mode, w.exchange) && before[i].status == Closed ==>
        after[i] == before[i]
  }

  lemma ClosedStayThrough(a: Tables, b: Tables, c: Tables, w: Worker)
    requires OwnRowsStay(a, b, w) && Advances(b, c, w)
    ensures ClosedStay(a.rows, c.rows, w)
  {
    forall i | 0 <= i < |a.rows| && OwnedBy(a.rows[i], w.mode, w.exchange) && a.rows[i].status == Closed
      ensures c.rows[i] == a.rows[i]
    {
      assert RowEvolves(b.rows[i], c.rows[i], w.mode, w.exchange);
    }
  }

  /** What a row that no entry appended is left with at the end of the cycle is what the main phase left it with. */
  lemma EntryLeavesRows<S>(machine: Machine<S>, w: Worker, digest: Digest, round: Round, log: EntryLog<S>)
    requires Entered(machine, w, digest, round, log)
    ensures |log.before.rows| <= |log.after.rows| && log.after.rows[..|log.before.rows|] == log.before.rows
  {
  }

  /**
   * What a cycle without an exception has done. In maintenance every own row is
   * closed or carries the reason. Otherwise every own row that was OPEN after
   * Phase A has been evaluated and dealt with as decided, and where entries are
   * enabled one has been chosen as the rates, the plan and the limit have it. In
   * paper mode Phase A leaves everything as it was; in live mode it leaves no own
   * naked row unmarked.
   */
  lemma CycleDecides<S(!new)>(machine: Machine<S>, w: Worker, digest: Digest, round: Round, log: CycleLog<S>,
                              a: Snapshot, s: S, b: Snapshot, t: S)
    requires Ran(machine, w, digest, round, log, a, s, b, t, None)
    ensures var safe, ctx := log.main.before, Context(w, digest, round.cfg, round.now);
      && |safe.rows| == |a.rows| <= |b.rows|
      && (w.mode == Paper ==> safe == a)
      && (w.mode == Live ==>
            forall i: nat :: i < |a.rows| && OwnedBy(a.rows[i], w.mode, w.exchange) ==> DealtWith(safe.rows[i]))
      && (round.maintenance ==>
            forall i: nat :: i < |safe.rows| && OwnedBy(safe.rows[i], w.mode, w.exchange) ==> MarkedOrClosed(b.rows[i]))
      && (!round.maintenance ==>
            forall i: nat ::
              i < |safe.rows| && OwnedBy(safe.rows[i], w.mode, w.exchange) && safe.rows[i].status == Open ==>
              ExitDecided(machine, ctx, safe.rows[i], b.rows[i]))
      && (!round.maintenance && round.entryEnabled ==>
            log.entry.Some?
            && Chose(machine, log.main.to, w, log.main.after.rows, round.cfg, log.entry.value.chosen,
                log.entry.value.at))
  {
    var ctx := Context(w, digest, round.cfg, round.now);
    SafetyDealsWith(machine, ctx, log.stale, log.checked, log.rescued);
    if round.maintenance {
      TakenDownOrMarked(machine, ctx, round.cycleId, log.main);
    } else {
      ExitsAreDecided(machine, ctx, log.main);
    }
    if log.entry.Some? {
      EntryLeavesRows(machine, w, digest, round, log.entry.value);
      assert forall i :: 0 <= i < |log.main.after.rows| ==> b.rows[i] == b.rows[..|log.main.after.rows|][i];
    }
  }

  // ----- sessions -----

  /** One session: its cycle, or after a rollback nothing of it but an incident for what was executed. */
  lemma SessionKeeps<S>(machine: Machine<S>, w: Worker, digest: Digest, round: Round, log: SessionLog<S>)
    requires SessionRan(machine, w, digest, round, log) && Kept(log.found, w)
    ensures Kept(log.left, w) && Moves(log.found, log.left, w)
    ensures FromTheVenue(log.error)
    ensures WithinLimit(log.found.rows, log.left.rows, w, round.cfg.maxOpenPositions)
  {
    CycleKeeps(machine, w, digest, round, log.cycle, log.found, log.from, log.ran, log.to, log.error);
    if !round.committed {
      RollbackKeeps(log.found, w, log.ran.executed[|log.found.executed|..]);
      Rests(log.found, w);
    }
  }

  /** A session takes up the books as others have left them, and goes on where the one before stopped. */
  ghost predicate Resumes<S>(others: Others, n: nat, before: Snapshot, from: S, log: SessionLog<S>) {
    var theirs := others(n, TablesOf(before));
    log.found == before.(rows := theirs.rows, trades := theirs.trades) && log.from == from
  }

  /** The books, and the state of the venue, after the first n sessions. */
  function LeftAfter<S>(a: Snapshot, sessions: seq<SessionLog<S>>, n: nat): Snapshot
    requires n <= |sessions|
  {
    if n == 0 then a else sessions[n - 1].left
  }

  function VenueAfter<S>(s: S, sessions: seq<SessionLog<S>>, n: nat): S
    requires n <= |sessions|
  {
    if n == 0 then s else sessions[n - 1].to
  }

  /** Every round is one session, each on what the one before and the others left. */
  ghost predicate RanAll<S>(machine: Machine<S>, w: Worker, digest: Digest, others: Others, rounds: seq<Round>,
                            a: Snapshot, s: S, sessions: seq<SessionLog<S>>) {
    && |sessions| == |rounds|
    && (forall n {:trigger SessionRan(machine, w, digest, rounds[n], sessions[n])} :: 0 <= n < |rounds| ==>
          && SessionRan(machine, w, digest, rounds[n], sessions[n])
          && Resumes(others, n, LeftAfter(a, sessions, n), VenueAfter(s, sessions, n), sessions[n]))
  }

  lemma RunGrows<S>(machine: Machine<S>, w: Worker, digest: Digest, others: Others, rounds: seq<Round>,
                    a: Snapshot, s: S, sessions: seq<SessionLog<S>>, round: Round, log: SessionLog<S>)
    requires RanAll(machine, w, digest, others, rounds, a, s, sessions) && SessionRan(machine, w, digest, round, log)
    requires Resumes(others, |rounds|, LeftAfter(a, sessions, |rounds|), VenueAfter(s, sessions, |rounds|), log)
    ensures RanAll(machine, w, digest, others, rounds + [round], a, s, sessions + [log])
  {
    var longer, all := rounds + [round], sessions + [log];
    forall n | 0 <= n < |longer|
      ensures SessionRan(machine, w, digest, longer[n], all[n])
      ensures Resumes(others, n, LeftAfter(a, all, n), VenueAfter(s, all, n), all[n])
    {
      if n < |rounds| {
        assert SessionRan(machine, w, digest, rounds[n], sessions[n]);
        assert longer[n] == rounds[n] && all[n] == sessions[n] && (0 < n ==> all[n - 1] == sessions[n - 1]);
      }
    }
  }

  lemma RunGoesOn<S>(machine: Machine<S>, w: Worker, digest: Digest, others: Others, rounds: seq<Round>, n: nat,
                     a: Snapshot, s: S, sessions: seq<SessionLog<S>>, log: SessionLog<S>)
    requires n < |rounds| && |sessions| == n
    requires RanAll(machine, w, digest, others, rounds[..n], a, s, sessions)
    requires SessionRan(machine, w, digest, rounds[n], log)
    requires Resumes(others, n, LeftAfter(a, sessions, n), VenueAfter(s, sessions, n), log)
    ensures RanAll(machine, w, digest, others, rounds[..n + 1], a, s, sessions + [log])
    ensures LeftAfter(a, sessions + [log], n + 1) == log.left && VenueAfter(s, sessions + [log], n + 1) == log.to
  {
    RunGrows(machine, w, digest, others, rounds[..n], a, s, sessions, rounds[n], log);
    assert rounds[..n + 1] == rounds[..n] + [rounds[n]];
  }

  lemma OthersAct(s: Snapshot, worker: Worker, theirs: Tables, others: Others, n: nat)
    requires Kept(s, worker) && OthersCommit(worker, others) && theirs == others(n, TablesOf(s))
    ensures Kept(s.(rows := theirs.rows, trades := theirs.trades), worker) && OwnRowsStay(TablesOf(s), theirs, worker)
    ensures BasesDistinct(s.rows, worker.mode, worker.exchange)
        ==> BasesDistinct(theirs.rows, worker.mode, worker.exchange)
    ensures AloneInMode(worker, others)
        ==> ExposedCount(theirs.rows, worker.mode) <= ExposedCount(s.rows, worker.mode)
  {
    assert ByOthers(worker, TablesOf(s), theirs);
    var commits :| CommitsOfOthers(worker, TablesOf(s), commits) && theirs == Last(TablesOf(s), commits);
    CommitsKeep(s, worker, commits);
    if BasesDistinct(s.rows, worker.mode, worker.exchange) {
      OwnBasesStay(TablesOf(s), theirs, worker);
    }
    if AloneInMode(worker, others) {
      assert ByOtherModes(worker, TablesOf(s), theirs);
      var foreign :| CommitsOfOthers(worker, TablesOf(s), foreign) && theirs == Last(TablesOf(s), foreign)
                     && forall c: Commit :: c in foreign ==> c.author.mode != worker.mode;
      OtherModesDoNotCount(worker, TablesOf(s), foreign);
    }
  }

  /** What a run keeps from books a to books b; bounded says the limit may be counted on. */
  ghost predicate Holds(a: Snapshot, b: Snapshot, w: Worker, bounded: bool, cap: int) {
    && Kept(b, w) && ClosedStay(a.rows, b.rows, w)
    && (BasesDistinct(a.rows, w.mode, w.exchange) ==> BasesDistinct(b.rows, w.mode, w.exchange))
    && (bounded && ExposedCount(a.rows, w.mode) <= cap ==> ExposedCount(b.rows, w.mode) <= cap)
  }

  lemma HoldsThrough(a: Snapshot, mid: Snapshot, b: Snapshot, w: Worker, bounded: bool, cap: int)
    requires Holds(a, mid, w, bounded, cap) && Holds(mid, b, w, bounded, cap)
    ensures Holds(a, b, w, bounded, cap)
  {
  }

  lemma SessionAmongOthers<S>(machine: Machine<S>, w: Worker, digest: Digest, round: Round, others: Others, n: nat,
                              before: Snapshot, from: S, log: SessionLog<S>, cap: int)
    requires Resumes(others, n, before, from, log) && SessionRan(machine, w, digest, round, log)
    requires Kept(before, w) && OthersCommit(w, others)
    ensures Holds(before, log.left, w, AloneInMode(w, others) && round.cfg.maxOpenPositions <= cap, cap)
    ensures FromTheVenue(log.error)
  {
    var theirs := others(n, TablesOf(before));
    OthersAct(before, w, theirs, others, n);
    SessionKeeps(machine, w, digest, round, log);
    ClosedStayThrough(TablesOf(before), theirs, TablesOf(log.left), w);
  }

  /**
   * Steps from one state of the books to the next, each of which keeps them once they are kept,
   * keep them throughout.
   */
  lemma {:induction false} ChainKeeps(books: seq<Snapshot>, w: Worker, bounded: bool, cap: int, n: nat)
    requires n < |books| && Kept(books[0], w)
    requires forall j, k :: 0 <= j && k == j + 1 < |books| && Kept(books[j], w) ==>
      Holds(books[j], books[k], w, bounded, cap)
    ensures Holds(books[0], books[n], w, bounded, cap)
  {
    if n > 0 {
      ChainKeeps(books, w, bounded, cap, n - 1);
      HoldsThrough(books[0], books[n - 1], books[n], w, bounded, cap);
    }
  }

  /** The books before the first session and after each of them. */
  function Course<S>(a: Snapshot, sessions: seq<SessionLog<S>>): (books: seq<Snapshot>)
    ensures |books| == |sessions| + 1 && forall n :: 0 <= n <= |sessions| ==> books[n] == LeftAfter(a, sessions, n)
  {
    seq(|sessions| + 1, n requires 0 <= n <= |sessions| => LeftAfter(a, sessions, n))
  }

  /** The largest limit the worker was run with may be counted on when nobody else of its mode inserts. */
  ghost predicate Bounded(w: Worker, others: Others, rounds: seq<Round>, cap: int) {
    AloneInMode(w, others) && forall round :: round in rounds ==> round.cfg.maxOpenPositions <= cap
  }

  lemma OneOfTheRun<S>(machine: Machine<S>, w: Worker, digest: Digest, others: Others, rounds: seq<Round>, cap: int,
                       a: Snapshot, s: S, sessions: seq<SessionLog<S>>, n: nat)
    requires RanAll(machine, w, digest, others, rounds, a, s, sessions) && OthersCommit(w, others) && n < |rounds|
    requires Kept(LeftAfter(a, sessions, n), w)
    ensures Holds(LeftAfter(a, sessions, n), sessions[n].left, w, Bounded(w, others, rounds, cap), cap)
    ensures FromTheVenue(sessions[n].error)
  {
    assert SessionRan(machine, w, digest, rounds[n], sessions[n]) && rounds[n] in rounds;
    SessionAmongOthers(machine, w, digest, rounds[n], others, n, LeftAfter(a, sessions, n), VenueAfter(s, sessions, n),
                       sessions[n], cap);
  }

  /**
   * Any run: the books are kept, closed rows are final and bases distinct whatever
   * the others commit; a worker that is alone in its mode keeps the mode within the
   * largest limit it was run with; and nothing but the venue, or a mid of zero, ends
   * a cycle early.
   */
  lemma RunKeeps<S>(machine: Machine<S>, w: Worker, digest: Digest, others: Others, rounds: seq<Round>, cap: int,
                    a: Snapshot, s: S, sessions: seq<SessionLog<S>>)
    requires RanAll(machine, w, digest, others, rounds, a, s, sessions) && Kept(a, w) && OthersCommit(w, others)
    ensures Holds(a, LeftAfter(a, sessions, |sessions|), w, Bounded(w, others, rounds, cap), cap)
    ensures forall n {:trigger sessions[n]} :: 0 <= n < |sessions| ==>
      FromTheVenue(sessions[n].error)
  {
    var books, bounded := Course(a, sessions), Bounded(w, others, rounds, cap);
    forall j, k | 0 <= j && k == j + 1 < |books| && Kept(books[j], w)
      ensures Holds(books[j], books[k], w, bounded, cap)
    {
      OneOfTheRun(machine, w, digest, others, rounds, cap, a, s, sessions, j);
    }
    forall n | 0 <= n < |sessions|
      ensures FromTheVenue(sessions[n].error)
    {
      ChainKeeps(books, w, bounded, cap, n);
      OneOfTheRun(machine, w, digest, others, rounds, cap, a, s, sessions, n);
    }
    ChainKeeps(books, w, bounded, cap, |sessions|);
  }
}

// The cycle (loop/cycle.py): safety, exits and entries over the position table,
// by the worker of one mode on one exchange.
//
// The class holds the tables the worker's session sees. A call that can raise
// returns a Result; whatever it changed before raising stays changed, as the cycle
// catches what its phases raise. A session that fails after its cycle is rolled
// back as a whole, and what the cycle had executed is not. Every phase returns the
// record of what it did (CycleLog); what such records keep is proved in Runs.
module Desk {
  import opened RealArith
  import opened Domain
  import opened Lifecycle
  import opened Positions
  import opened Gateways
  import opened Executor
  import opened ClientOrderIds
  import opened Accounts
  import opened Recovery
  import opened Exits
  import opened Scan
  import P = EntryPlan
  import opened Sightings
  import opened CycleLog
  import opened Runs

  import Sizing
  import Gate

  /** One exposed row more, of this candidate: its base, its symbols and its funding terms. */
  ghost predicate Appended(before: seq<Position>, after: seq<Position>, c: Candidate) {
    && |after| == |before| + 1 && after == before + [after[|before|]]
    && var row := after[|before|];
    && IsExposed(row.status) && row.symbol == c.base && row.spotSymbol == c.spotSymbol && row.perpSymbol == c.perpSymbol
    && row.entryFundingRate == row.lastFundingRate == c.fundingRate && row.windows == c.windows
  }

  lemma EntryAppends(rows: seq<Position>, c: Candidate, w: Worker, result: Option<EntryResult>)
    requires RowFor(P.Template(c, w), result).Some?
    ensures Appended(rows, rows + [RowFor(P.Template(c, w), result).value], c)
  {
  }

  /** A list of the worker's rows stays one while only rows with other ids, or their status, change. */
  lemma ListsStays(ids: seq<nat>, before: seq<Position>, after: seq<Position>, w: Worker)
    requires Lists(ids, before, w) && |after| == |before|
    requires forall i :: 0 <= i < |before| ==>
      SameIdentity(before[i], after[i]) && (IsExposed(after[i].status) ==> IsExposed(before[i].status))
    ensures Lists(ids, after, w)
  {
  }

  /** Nothing is done any more after a phase that raised, or when a phase is not wanted. */
  function Passed<S>(p: Pass<S>): Pass<S> {
    Pass(p.after, p.to, [], p.after, p.to, p.end)
  }

  class Desk<!S(!new)> {
    const worker: Worker
    const gateway: Gateway<S>
    const digest: Digest
    var rows: seq<Position>
    var trades: seq<Trade>
    ghost var incidents: seq<Incident>

    constructor (worker: Worker, gateway: Gateway<S>, digest: Digest)
      requires gateway.executed == []
      ensures this.worker == worker && this.gateway == gateway && this.digest == digest
      ensures rows == [] && trades == [] && incidents == [] && Kept(Snap(), worker)
    {
      this.worker, this.gateway, this.digest := worker, gateway, digest;
      this.rows, this.trades, this.incidents := [], [], [];
      new;
      KeptFromNothing(worker);
    }

    ghost function Snap(): Snapshot
      reads this, gateway
    {
      Snapshot(rows, trades, gateway.executed, incidents)
    }

    ghost function Tab(): Tables
      reads this
    {
      Tables(rows, trades)
    }

    predicate Owns(i: nat)
      reads this
    {
      i < |rows| && OwnedBy(rows[i], worker.mode, worker.exchange)
    }

    function OwnExposed(): (ids: seq<nat>)
      reads this
      ensures ids == OwnExposedIds(rows, worker) && Lists(ids, rows, worker)
    {
      var ids := OwnExposedIds(rows, worker);
      assert forall j :: 0 <= j < |ids| ==> ids[j] in ids;
      ids
    }

    function Ctx(cfg: Settings, now: int): Context {
      Context(worker, digest, cfg, now)
    }

    /** The task is done on one row, from the books and the venue as they were to what they are. */
    twostate predicate Did(task: Task, cfg: Settings, now: int, i: nat, new r: Result<()>)
      reads this, gateway
    {
      Done(gateway.machine, Ctx(cfg, now), task, Visit(i, old(Snap()), old(gateway.state), Snap(), gateway.state, r))
    }

    /** The record of a phase reaches from the books and the venue as they were to what they are. */
    twostate predicate Spans(new p: Pass<S>, new r: Result<()>)
      reads this, gateway
    {
      && p.before == old(Snap()) && p.from == old(gateway.state)
      && p.after == Snap() && p.to == gateway.state && p.end == r
    }

    // ----- helpers -----

    method MarkClosed(i: nat, now: int, reason: string, event: Event) returns (r: Result<()>)
      requires i < |rows|
      modifies `rows
      ensures match Transition(old(rows)[i].status, event)
        case None => r == Raised(IllegalTransition) && rows == old(rows)
        case Some(next) =>
          if next == Closed then r == Ok(()) && rows == old(rows)[i := ClosedRow(old(rows)[i], now, reason)]
          else r == Raised(AssertionFailed) && rows == old(rows)
    {
      var next := Transition(rows[i].status, event);
      if next == None {
        return Raised(IllegalTransition);
      }
      if next.value != Closed {
        return Raised(AssertionFailed);
      }
      rows := rows[i := rows[i].(status := next.value, closedAt := Some(now), lastCloseError := reason)];
      return Ok(());
    }

    method MarkStatus(i: nat, event: Event) returns (r: Result<()>)
      requires i < |rows|
      modifies `rows
      ensures match Transition(old(rows)[i].status, event)
        case None => r == Raised(IllegalTransition) && rows == old(rows)
        case Some(next) => r == Ok(()) && rows == old(rows)[i := old(rows)[i].(status := next)]
    {
      var next := Transition(rows[i].status, event);
      if next == None {
        return Raised(IllegalTransition);
      }
      rows := rows[i := rows[i].(status := next.value)];
      return Ok(());
    }

    // ----- phase A -----

    method IsUnderlyingGone(i: nat) returns (r: Result<bool>)
      requires i < |rows|
      modifies gateway`state
      ensures var (seen, s) := Consulted(gateway.machine, old(gateway.state), GoneRequests(rows[i]));
        && gateway.state == s
        && r == if seen.Raised? then Raised(seen.exn) else Ok(UnderlyingGone(rows[i], seen.value))
    {
      var seen :- gateway.Consult(GoneRequests(rows[i]));
      return Ok(UnderlyingGone(rows[i], seen));
    }

    /** Take the surviving leg back, else mark the row. */
    method Unwind(i: nat, held: real, ghost hedge: Option<Answer>, ghost funding: FundingInfo, now: int)
      returns (r: Result<()>, ghost t: RecoveryTrace)
      requires i < |rows| && IsNaked(rows[i].status) && Declined(hedge)
      modifies `rows, `trades, gateway
      ensures var p := old(rows)[i];
        && (t, gateway.state) == Unwound(gateway.machine, old(gateway.state), p, held, hedge, UnwindId(p, i, digest))
        && rows == old(rows)[i := RowAfterRecovery(p, now, funding, t)]
      ensures trades == old(trades) + RecoveryTrades(i, t)
      ensures gateway.executed == old(gateway.executed) + ExecutedIf(t.unwind)
      ensures r == if RecoveryRaised(t) then Raised(GatewayRaised) else Ok(())
    {
      var p, qty := rows[i], Min(held, rows[i].quantity);
      var answer := gateway.Place(UnwindOrder(p, qty, UnwindId(p, i, digest)));
      t := RecoveryTrace(held, hedge, Some(answer));
      if answer.seen == Threw {
        return Raised(GatewayRaised), t;
      }
      var unwind := Reported(answer);
      if unwind.accepted {
        r := MarkClosed(i, now, "", FlatClosed);
        trades := trades + [TradeOf(i, unwind)];
        return;
      }
      rows := rows[i := p.(lastCloseError := FAILED_PREFIX + unwind.error)];
      return Ok(()), t;
    }

    /** Hedge when it pays, else (or when the hedge is refused) unwind. */
    method HedgeOrUnwind(i: nat, held: real, funding: FundingInfo, profitable: bool, now: int)
      returns (r: Result<()>, ghost t: RecoveryTrace)
      requires i < |rows| && IsNaked(rows[i].status) && 0.0 < Min(held, rows[i].quantity)
      modifies `rows, `trades, gateway
      ensures var p := old(rows)[i];
        (t, gateway.state) == Recover(gateway.machine, old(gateway.state), p, held, profitable,
                                      HedgeId(p, i, digest), UnwindId(p, i, digest))
      ensures rows == old(rows)[i := RowAfterRecovery(old(rows)[i], now, funding, t)]
      ensures trades == old(trades) + RecoveryTrades(i, t)
      ensures gateway.executed == old(gateway.executed) + RecoveryExecuted(t)
      ensures r == if RecoveryRaised(t) then Raised(GatewayRaised) else Ok(())
    {
      ghost var before := gateway.executed;
      var p, qty := rows[i], Min(held, rows[i].quantity);
      ghost var declined: Option<Answer> := None;
      if profitable {
        var answer := gateway.Place(HedgeOrder(p, qty, HedgeId(p, i, digest)));
        t := RecoveryTrace(held, Some(answer), None);
        assert gateway.executed == before + RecoveryExecuted(t);
        if answer.seen == Threw {
          return Raised(GatewayRaised), t;
        }
        var hedge := Reported(answer);
        if hedge.accepted {
          r := MarkStatus(i, HedgeRecovered);
          rows := rows[i := Hedged(p, hedge, funding)];
          trades := trades + [TradeOf(i, hedge)];
          return;
        }
        declined := Some(answer);
      }
      ghost var hedged := gateway.executed;
      r, t := Unwind(i, held, declined, funding, now);
      assert hedged == before + ExecutedIf(declined)
          && RecoveryExecuted(t) == ExecutedIf(declined) + ExecutedIf(t.unwind);
    }

    /** Nothing left closes the row; otherwise hedge or unwind for what is held. */
    method RecoverHeld(i: nat, held: real, funding: FundingInfo, profitable: bool, now: int)
      returns (r: Result<()>, ghost t: RecoveryTrace)
      requires i < |rows| && IsNaked(rows[i].status)
      modifies this, gateway
      ensures var p := old(rows)[i];
        (t, gateway.state) == Recover(gateway.machine, old(gateway.state), p, held, profitable,
                                      HedgeId(p, i, digest), UnwindId(p, i, digest))
      ensures Snap() == AfterRecovery(old(Snap()), i, now, funding, t)
      ensures r == if RecoveryRaised(t) then Raised(GatewayRaised) else Ok(())
    {
      ghost var before, p := Snap(), rows[i];
      if Min(held, rows[i].quantity) <= 0.0 {
        t := RecoveryTrace(held, None, None);
        assert RecoveryExecuted(t) == [] && before.trades + [] == before.trades
            && before.executed + [] == before.executed;
        r := MarkClosed(i, now, NothingLeft(rows[i].status), FlatClosed);
      } else {
        r, t := HedgeOrUnwind(i, held, funding, profitable, now);
      }
      if !RecoveryFaithful(p, t) {
        incidents := incidents + [LostRecovery(p, t)];
      }
    }

    /** Hedge the surviving spot with a short, or sell it back. */
    method RecoverNakedSpot(i: nat, cfg: Settings, now: int) returns (r: Result<()>)
      requires i < |rows| && rows[i].status == NakedSpot
      modifies this, gateway
      ensures Did(Rescue, cfg, now, i, r)
    {
      var p := rows[i];
      var asked := [FetchFunding(p.perpSymbol), FetchFees(p.spotSymbol, p.perpSymbol), FetchBalance(p.symbol)];
      var seen :- gateway.Consult(asked);
      assert Fits(asked[0], seen[0]) && Fits(asked[1], seen[1]) && Fits(asked[2], seen[2]);
      ghost var t;
      r, t := RecoverHeld(i, seen[2].spot.free + seen[2].spot.total, seen[0].funding,
                          cfg.entryMinNetApy <= ForwardApy(seen[0], seen[1], cfg), now);
    }

    /** Hedge the surviving short with spot, or buy it back. */
    method RecoverNakedPerp(i: nat, cfg: Settings, now: int) returns (r: Result<()>)
      requires i < |rows| && rows[i].status == NakedPerp
      modifies this, gateway
      ensures Did(Rescue, cfg, now, i, r)
    {
      var p := rows[i];
      var asked := [FetchFunding(p.perpSymbol), FetchFees(p.spotSymbol, p.perpSymbol), ListOpenPerps];
      var seen :- gateway.Consult(asked);
      assert Fits(asked[0], seen[0]) && Fits(asked[1], seen[1]) && Fits(asked[2], seen[2]);
      ghost var t;
      r, t := RecoverHeld(i, PerpQuantity(seen[2].perps, p.perpSymbol), seen[0].funding,
                          cfg.entryMinNetApy <= ForwardApy(seen[0], seen[1], cfg), now);
    }

    /** Books an incident when a row was restated. */
    ghost method NoteRestating(before: Snapshot, i: nat, seen: seq<Reply>)
      requires i < |before.rows| == |rows| && rows == before.rows[i := rows[i]]
      requires trades == before.trades && gateway.executed == before.executed && incidents == before.incidents
      modifies `incidents
      ensures Snap() == AfterRestating(before, i, rows[i], seen)
    {
      if rows[i].status != before.rows[i].status {
        incidents := incidents + [Restated(before.rows[i], rows[i].status, seen)];
      }
      assert before.trades + [] == before.trades && before.executed + [] == before.executed;
    }

    method RestateTo(i: nat, now: int, spotPresent: bool, perpPresent: bool) returns (r: Result<()>)
      requires i < |rows| && rows[i].status == Open
      modifies `rows
      ensures r == Ok(()) && |rows| == |old(rows)| && rows == old(rows)[i := rows[i]]
      ensures ClaimsExactly(old(rows)[i], rows[i], now, spotPresent, perpPresent)
      ensures rows[i].status == SeenStatus(spotPresent, perpPresent)
    {
      if !spotPresent && !perpPresent {
        r := MarkClosed(i, now, "hedge_integrity:both_legs_missing", FlatClosed);
      } else if !spotPresent {
        r := MarkStatus(i, DiscoverOrphanPerp);
      } else if !perpPresent {
        r := MarkStatus(i, DiscoverOrphanSpot);
      } else {
        r := Ok(());
      }
    }

    /** Afterwards the row claims exactly the legs the venue shows; without a reply it is left alone. */
    method CheckHedgeIntegrity(i: nat, ghost cfg: Settings, now: int) returns (r: Result<()>)
      requires i < |rows| && rows[i].status == Open
      modifies this, gateway`state
      ensures Did(Check, cfg, now, i, r)
    {
      ghost var before := Snap();
      var p := rows[i];
      var seen :- gateway.Consult(IntegrityRequests(p));
      var eps := Epsilon(seen[1].step, seen[2].step);
      var spotPresent := seen[0].spot.free + seen[0].spot.total >= p.quantity - eps;
      var perpPresent := PerpQuantity(seen[3].perps, p.perpSymbol) >= p.quantity - eps;
      r := RestateTo(i, now, spotPresent, perpPresent);
      NoteRestating(before, i, seen);
    }

    /** Stale reconciliation, hedge integrity, hedge or close, up to the first that raises. */
    method RunSafety(cfg: Settings, now: int)
      returns (r: Result<()>, ghost stale: Pass<S>, ghost checked: Pass<S>, ghost rescued: Pass<S>)
      requires worker.mode == Live
      modifies this, gateway
      ensures MadeSafe(gateway.machine, Ctx(cfg, now), stale, checked, rescued)
      ensures stale.before == old(Snap()) && stale.from == old(gateway.state)
      ensures rescued.after == Snap() && rescued.to == gateway.state && rescued.end == r
    {
      var exposed := OwnExposed();
      r, stale := ReconcileStale(exposed, cfg, now);
      checked, rescued := Passed(stale), Passed(stale);
      if r.Raised? {
        return;
      }
      ListsStays(exposed, old(rows), rows, worker);
      if cfg.hedgeIntegrityCheck {
        r, checked := CheckOpenRows(exposed, cfg, now);
        rescued := Passed(checked);
        if r.Raised? {
          return;
        }
      }
      r, rescued := RecoverNakedRows(cfg, now);
    }

    /**
     * Phase A; in paper mode nothing at all. Once it has run without an exception no own naked
     * row is left unmarked.
     */
    method PhaseASafety(cfg: Settings, now: int)
      returns (r: Result<()>, ghost stale: Pass<S>, ghost checked: Pass<S>, ghost rescued: Pass<S>)
      modifies this, gateway
      ensures MadeSafe(gateway.machine, Ctx(cfg, now), stale, checked, rescued)
      ensures stale.before == old(Snap()) && stale.from == old(gateway.state)
      ensures rescued.after == Snap() && rescued.to == gateway.state && rescued.end == r
      ensures worker.mode == Paper ==> r == Ok(()) && Snap() == old(Snap()) && gateway.state == old(gateway.state)
      ensures |rows| == |old(rows)|
      ensures r.Ok? && worker.mode == Live ==> forall i: nat :: old(Owns(i)) ==> DealtWith(rows[i])
    {
      if worker.mode != Live {
        stale := Begun(Snap(), gateway.state);
        return Ok(()), stale, Passed(stale), Passed(stale);
      }
      r, stale, checked, rescued := RunSafety(cfg, now);
      SafetyDealsWith(gateway.machine, Ctx(cfg, now), stale, checked, rescued);
    }

    /** A naked row whose leg the venue no longer shows is closed, and any other kept as it is. */
    method ReconcileRow(i: nat, ghost cfg: Settings, now: int) returns (r: Result<()>)
      requires i < |rows| && IsNaked(rows[i].status)
      modifies this, gateway`state
      ensures Did(Reconcile, cfg, now, i, r)
    {
      ghost var before, seen := Snap(), Consulted(gateway.machine, gateway.state, GoneRequests(rows[i])).0;
      var gone :- IsUnderlyingGone(i);
      if gone {
        r := MarkClosed(i, now, "stale_reconciled", StaleReconciled);
      } else {
        r := Ok(());
      }
      NoteRestating(before, i, seen.value);
    }

    /** Every naked row is asked about; only naked rows are closed, and nothing else is touched. */
    method ReconcileStale(exposed: seq<nat>, ghost cfg: Settings, now: int) returns (r: Result<()>, ghost pass: Pass<S>)
      requires Lists(exposed, rows, worker)
      modifies this, gateway`state
      ensures |rows| == |old(rows)|
      ensures Performed(gateway.machine, Ctx(cfg, now), Reconcile, pass) && Spans(pass, r)
      ensures forall i :: 0 <= i < |rows| ==> KeptOrStale(old(rows)[i], rows[i], now)
      ensures r.Ok? ==>
        forall i: nat :: old(Owns(i)) && IsNaked(old(rows)[i].status) ==>
          StaleDecided(gateway.machine, now, old(rows)[i], rows[i])
    {
      r, pass := ReconcileEach(exposed, cfg, now);
      forall i: nat | i < |old(rows)|
        ensures |rows| == |old(rows)| && KeptOrStale(old(rows)[i], rows[i], now)
      {
        ReconcilingKeeps(gateway.machine, Ctx(cfg, now), pass, i);
      }
      RowsKeepTheirNumber(gateway.machine, Ctx(cfg, now), Reconcile, pass);
      if r.Ok? {
        StaleRowsAreDecided(gateway.machine, Ctx(cfg, now), pass);
      }
    }

    method ReconcileEach(exposed: seq<nat>, ghost cfg: Settings, now: int) returns (r: Result<()>, ghost pass: Pass<S>)
      requires Lists(exposed, rows, worker)
      modifies this, gateway`state
      ensures Performed(gateway.machine, Ctx(cfg, now), Reconcile, pass) && Spans(pass, r)
    {
      pass := Begun(Snap(), gateway.state);
      BeginsUnderWay(gateway.machine, Ctx(cfg, now), Reconcile, Snap(), gateway.state, exposed);
      for k := 0 to |exposed|
        invariant Spans(pass, Ok(())) && UnderWay(gateway.machine, Ctx(cfg, now), Reconcile, pass, exposed, k)
      {
        var i := exposed[k];
        if rows[i].status == NakedSpot || rows[i].status == NakedPerp {
          ghost var before, from := Snap(), gateway.state;
          r := ReconcileRow(i, cfg, now);
          ghost var v := Visit(i, before, from, Snap(), gateway.state, r);
          TakesUp(gateway.machine, Ctx(cfg, now), Reconcile, pass, exposed, k, v);
          pass := Grown(pass, v);
          if r.Raised? {
            return;
          }
        } else {
          PassesBy(gateway.machine, Ctx(cfg, now), Reconcile, pass, exposed, k);
        }
      }
      AllTakenUp(gateway.machine, Ctx(cfg, now), Reconcile, pass, exposed);
      return Ok(()), pass;
    }

    /** Every OPEN row is asked about, and afterwards claims exactly the legs the venue showed. */
    method CheckOpenRows(exposed: seq<nat>, ghost cfg: Settings, now: int) returns (r: Result<()>, ghost pass: Pass<S>)
      requires Lists(exposed, rows, worker)
      modifies this, gateway`state
      ensures |rows| == |old(rows)|
      ensures Performed(gateway.machine, Ctx(cfg, now), Check, pass) && Spans(pass, r)
      ensures r.Ok? ==>
        forall i: nat :: old(Owns(i)) && old(rows)[i].status == Open ==>
          LegsClaimed(gateway.machine, now, old(rows)[i], rows[i])
    {
      r, pass := CheckEach(exposed, cfg, now);
      RowsKeepTheirNumber(gateway.machine, Ctx(cfg, now), Check, pass);
      if r.Ok? {
        OpenRowsAreChecked(gateway.machine, Ctx(cfg, now), pass);
      }
    }

    method CheckEach(exposed: seq<nat>, ghost cfg: Settings, now: int) returns (r: Result<()>, ghost pass: Pass<S>)
      requires Lists(exposed, rows, worker)
      modifies this, gateway`state
      ensures Performed(gateway.machine, Ctx(cfg, now), Check, pass) && Spans(pass, r)
    {
      pass := Begun(Snap(), gateway.state);
      BeginsUnderWay(gateway.machine, Ctx(cfg, now), Check, Snap(), gateway.state, exposed);
      for k := 0 to |exposed|
        invariant Spans(pass, Ok(())) && UnderWay(gateway.machine, Ctx(cfg, now), Check, pass, exposed, k)
      {
        var i := exposed[k];
        if rows[i].status == Open {
          ghost var before, from := Snap(), gateway.state;
          r := CheckHedgeIntegrity(i, cfg, now);
          ghost var v := Visit(i, before, from, Snap(), gateway.state, r);
          TakesUp(gateway.machine, Ctx(cfg, now), Check, pass, exposed, k, v);
          pass := Grown(pass, v);
          if r.Raised? {
            return;
          }
        } else {
          PassesBy(gateway.machine, Ctx(cfg, now), Check, pass, exposed, k);
        }
      }
      AllTakenUp(gateway.machine, Ctx(cfg, now), Check, pass, exposed);
      return Ok(()), pass;
    }

    method RecoverRow(i: nat, cfg: Settings, now: int) returns (r: Result<()>)
      requires i < |rows| && IsNaked(rows[i].status)
      modifies this, gateway
      ensures Did(Rescue, cfg, now, i, r)
    {
      if rows[i].status == NakedSpot {
        r := RecoverNakedSpot(i, cfg, now);
      } else {
        r := RecoverNakedPerp(i, cfg, now);
      }
    }

    method RecoverEach(exposed: seq<nat>, cfg: Settings, now: int) returns (r: Result<()>, ghost pass: Pass<S>)
      requires Lists(exposed, rows, worker)
      modifies this, gateway
      ensures Performed(gateway.machine, Ctx(cfg, now), Rescue, pass) && Spans(pass, r)
    {
      pass := Begun(Snap(), gateway.state);
      BeginsUnderWay(gateway.machine, Ctx(cfg, now), Rescue, Snap(), gateway.state, exposed);
      for k := 0 to |exposed|
        invariant Spans(pass, Ok(())) && UnderWay(gateway.machine, Ctx(cfg, now), Rescue, pass, exposed, k)
      {
        var i := exposed[k];
        if rows[i].status == NakedSpot || rows[i].status == NakedPerp {
          ghost var before, from := Snap(), gateway.state;
          r := RecoverRow(i, cfg, now);
          ghost var v := Visit(i, before, from, Snap(), gateway.state, r);
          TakesUp(gateway.machine, Ctx(cfg, now), Rescue, pass, exposed, k, v);
          pass := Grown(pass, v);
          if r.Raised? {
            return;
          }
        } else {
          PassesBy(gateway.machine, Ctx(cfg, now), Rescue, pass, exposed, k);
        }
      }
      AllTakenUp(gateway.machine, Ctx(cfg, now), Rescue, pass, exposed);
      return Ok(()), pass;
    }

    /** Every naked row is hedged, taken back or marked. */
    method RecoverNakedRows(cfg: Settings, now: int) returns (r: Result<()>, ghost pass: Pass<S>)
      modifies this, gateway
      ensures |rows| == |old(rows)|
      ensures Performed(gateway.machine, Ctx(cfg, now), Rescue, pass) && Spans(pass, r)
      ensures r.Ok? ==> forall i: nat :: old(Owns(i)) ==> DealtWith(rows[i])
    {
      var exposed := OwnExposed();
      r, pass := RecoverEach(exposed, cfg, now);
      RowsKeepTheirNumber(gateway.machine, Ctx(cfg, now), Rescue, pass);
      if r.Ok? {
        RescuedOrMarked(gateway.machine, Ctx(cfg, now), pass);
      }
    }

    // ----- closing -----

    function ExitSpotId(p: Position, cycleId: string): string {
      IdFor(digest, Exit(cycleId, p.spotSymbol, Spot, Sell))
    }

    function ExitPerpId(p: Position, cycleId: string): string {
      IdFor(digest, Exit(cycleId, p.perpSymbol, Futures, Buy))
    }

    /** Sell spot, then buy the perp back; the row closes only when both were reported filled. */
    method CloseLegs(i: nat, cycleId: string, now: int) returns (r: Result<()>, ghost t: CloseTrace)
      requires i < |rows| && IsExposed(rows[i].status)
      modifies `rows, `trades, gateway
      ensures var p := old(rows)[i];
        && (t, gateway.state)
            == Close(gateway.machine, old(gateway.state), p, ExitSpotId(p, cycleId), ExitPerpId(p, cycleId))
        && AnswersClose(p, t)
        && t.spot.fill.order.coid == IdFor(digest, Exit(cycleId, p.spotSymbol, Spot, Sell))
        && (t.perp.Some? ==> t.perp.value.fill.order.coid == IdFor(digest, Exit(cycleId, p.perpSymbol, Futures, Buy)))
      ensures rows == old(rows)[i := RowAfterClose(old(rows)[i], now, t)]
      ensures trades == old(trades) + CloseTrades(i, t) && gateway.executed == old(gateway.executed) + CloseExecuted(t)
      ensures r == if CloseRaised(t) then Raised(GatewayRaised) else Ok(())
    {
      var p := rows[i];
      var spotAnswer := gateway.Place(CloseSpotOrder(p, ExitSpotId(p, cycleId)));
      t := CloseTrace(spotAnswer, None);
      if spotAnswer.seen == Threw {
        return Raised(GatewayRaised), t;
      }
      var perpAnswer := gateway.Place(ClosePerpOrder(p, ExitPerpId(p, cycleId)));
      t := CloseTrace(spotAnswer, Some(perpAnswer));
      if perpAnswer.seen == Threw {
        return Raised(GatewayRaised), t;
      }
      var spot, perp := Reported(spotAnswer), Reported(perpAnswer);
      if spot.accepted && perp.accepted {
        r := MarkClosed(i, now, "", FlatClosed);
        trades := trades + ([TradeOf(i, spot)] + [TradeOf(i, perp)]);
      } else {
        rows := rows[i := p.(lastCloseError := CLOSE_FAILED + ("spot=" + spot.error + ",perp=" + perp.error))];
        r := Ok(());
      }
    }

    /** The close, with its incident. */
    method ClosePosition(i: nat, cycleId: string, now: int) returns (r: Result<()>, ghost t: CloseTrace)
      requires i < |rows| && IsExposed(rows[i].status)
      modifies this, gateway
      ensures var p := old(rows)[i];
        (t, gateway.state) == Close(gateway.machine, old(gateway.state), p,
                                    IdFor(digest, Exit(cycleId, p.spotSymbol, Spot, Sell)),
                                    IdFor(digest, Exit(cycleId, p.perpSymbol, Futures, Buy)))
      ensures Snap() == AfterClose(old(Snap()), i, now, t)
      ensures r == if CloseRaised(t) then Raised(GatewayRaised) else Ok(())
      ensures rows == old(rows)[i := RowAfterClose(old(rows)[i], now, t)]
      ensures gateway.executed == old(gateway.executed) + CloseExecuted(t)
    {
      ghost var before := Snap();
      r, t := CloseLegs(i, cycleId, now);
      if !CloseFaithful(before.rows[i], t) {
        incidents := incidents + [LostClose(before.rows[i], t)];
      }
    }

    method TakeDownRow(i: nat, cycleId: string, ghost cfg: Settings, now: int) returns (r: Result<()>)
      requires i < |rows| && IsExposed(rows[i].status)
      modifies this, gateway
      ensures Did(TakeDown(cycleId), cfg, now, i, r)
    {
      ghost var t;
      r, t := ClosePosition(i, cycleId, now);
    }

    method TakeDownEach(exposed: seq<nat>, cycleId: string, ghost cfg: Settings, now: int)
      returns (r: Result<()>, ghost pass: Pass<S>)
      requires exposed == OwnExposedIds(rows, worker)
      modifies this, gateway
      ensures Performed(gateway.machine, Ctx(cfg, now), TakeDown(cycleId), pass) && Spans(pass, r)
    {
      pass := Begun(Snap(), gateway.state);
      OwnIdsAreListed(rows, worker);
      BeginsUnderWay(gateway.machine, Ctx(cfg, now), TakeDown(cycleId), Snap(), gateway.state, exposed);
      for k := 0 to |exposed|
        invariant Spans(pass, Ok(())) && UnderWay(gateway.machine, Ctx(cfg, now), TakeDown(cycleId), pass, exposed, k)
      {
        var i := exposed[k];
        StillExposed(gateway.machine, Ctx(cfg, now), TakeDown(cycleId), pass, k);
        ghost var before, from := Snap(), gateway.state;
        r := TakeDownRow(i, cycleId, cfg, now);
        ghost var v := Visit(i, before, from, Snap(), gateway.state, r);
        TakesUp(gateway.machine, Ctx(cfg, now), TakeDown(cycleId), pass, exposed, k, v);
        pass := Grown(pass, v);
        if r.Raised? {
          return;
        }
      }
      AllTakenUp(gateway.machine, Ctx(cfg, now), TakeDown(cycleId), pass, exposed);
      return Ok(()), pass;
    }

    /** Close everything exposed; a row still exposed afterwards carries the reason. */
    method CloseAllForMaintenance(cycleId: string, ghost cfg: Settings, now: int)
      returns (r: Result<()>, ghost pass: Pass<S>)
      modifies this, gateway
      ensures |rows| == |old(rows)|
      ensures Performed(gateway.machine, Ctx(cfg, now), TakeDown(cycleId), pass) && Spans(pass, r)
      ensures r.Ok? ==> forall i: nat :: old(Owns(i)) ==> MarkedOrClosed(rows[i])
    {
      var exposed := OwnExposed();
      r, pass := TakeDownEach(exposed, cycleId, cfg, now);
      RowsKeepTheirNumber(gateway.machine, Ctx(cfg, now), TakeDown(cycleId), pass);
      if r.Ok? {
        TakenDownOrMarked(gateway.machine, Ctx(cfg, now), cycleId, pass);
      }
    }

    // ----- phase B -----

    /** Ask for funding and note it on the row, then for the books, then for the fees. */
    method ReadMarket(i: nat) returns (r: Result<Option<Reading>>)
      requires i < |rows|
      modifies `rows, gateway`state
      ensures |rows| == |old(rows)| && rows == old(rows)[i := rows[i]] && OnlyNotes(old(rows)[i], rows[i])
      ensures (rows[i], r, gateway.state) == MarketRead(gateway.machine, old(gateway.state), old(rows)[i])
    {
      var p := rows[i];
      var first :- gateway.Consult([FetchFunding(p.perpSymbol)]);
      rows := rows[i := p.(lastFundingRate := first[0].funding.predictedRate, windows := first[0].funding.windows)];
      var books :- gateway.Consult([SnapshotBook(p.spotSymbol), SnapshotBook(p.perpSymbol)]);
      if !CoTemporal(books[0].book, books[1].book) {
        return Ok(None);
      }
      var fees :- gateway.Consult([FetchFees(p.spotSymbol, p.perpSymbol)]);
      return Ok(Some(Reading(first[0].funding, books[0].book, books[1].book, fees[0].spotFeeBps, fees[0].perpFeeBps)));
    }

    /** Leave, defer or hold by the decision on one co-temporal reading. */
    method EvaluateExit(i: nat, cfg: Settings, now: int) returns (r: Result<()>)
      requires i < |rows| && IsExposed(rows[i].status)
      modifies this, gateway
      ensures Did(Evaluate, cfg, now, i, r)
    {
      ghost var before := Snap();
      var reading;
      reading := ReadMarket(i);
      assert Snap() == Noted(before, i, rows[i]);
      if reading.Raised? {
        return Raised(reading.exn);
      }
      if reading.value == None {
        return Ok(());
      }
      var decision := Decide(rows[i], reading.value.value, cfg);
      if decision.Leave? {
        ghost var t;
        r, t := ClosePosition(i, EXIT_CYCLE, now);
        return;
      }
      return Ok(());
    }

    method EvaluateEach(exposed: seq<nat>, cfg: Settings, now: int) returns (r: Result<()>, ghost pass: Pass<S>)
      requires Lists(exposed, rows, worker)
      modifies this, gateway
      ensures Performed(gateway.machine, Ctx(cfg, now), Evaluate, pass) && Spans(pass, r)
    {
      pass := Begun(Snap(), gateway.state);
      BeginsUnderWay(gateway.machine, Ctx(cfg, now), Evaluate, Snap(), gateway.state, exposed);
      for k := 0 to |exposed|
        invariant Spans(pass, Ok(())) && UnderWay(gateway.machine, Ctx(cfg, now), Evaluate, pass, exposed, k)
      {
        var i := exposed[k];
        if rows[i].status == Open {
          ghost var before, from := Snap(), gateway.state;
          r := EvaluateExit(i, cfg, now);
          ghost var v := Visit(i, before, from, Snap(), gateway.state, r);
          TakesUp(gateway.machine, Ctx(cfg, now), Evaluate, pass, exposed, k, v);
          pass := Grown(pass, v);
          if r.Raised? {
            return;
          }
        } else {
          PassesBy(gateway.machine, Ctx(cfg, now), Evaluate, pass, exposed, k);
        }
      }
      AllTakenUp(gateway.machine, Ctx(cfg, now), Evaluate, pass, exposed);
      return Ok(()), pass;
    }

    /**
     * Every own row that was OPEN when the phase began is evaluated once, in id
     * order, up to the first that raises; no other row is touched. When nothing
     * raised, each of them is closed, or marked as failed to close, if its reading
     * calls for leaving, and is otherwise only refreshed.
     */
    method PhaseBExits(cfg: Settings, now: int) returns (r: Result<()>, ghost pass: Pass<S>)
      modifies this, gateway
      ensures |rows| == |old(rows)|
      ensures Performed(gateway.machine, Ctx(cfg, now), Evaluate, pass) && Spans(pass, r)
      ensures forall i: nat :: i < |old(rows)| && (!old(Owns(i)) || old(rows)[i].status != Open) ==>
        rows[i] == old(rows)[i]
      ensures r.Ok? ==>
        forall i: nat :: old(Owns(i)) && old(rows)[i].status == Open ==>
          ExitDecided(gateway.machine, Ctx(cfg, now), old(rows)[i], rows[i])
    {
      var exposed := OwnExposed();
      r, pass := EvaluateEach(exposed, cfg, now);
      RowsKeepTheirNumber(gateway.machine, Ctx(cfg, now), Evaluate, pass);
      forall i: nat | i < |old(rows)| && (!old(Owns(i)) || old(rows)[i].status != Open)
        ensures rows[i] == old(rows)[i]
      {
        OthersUntouched(gateway.machine, Ctx(cfg, now), Evaluate, pass, i);
      }
      if r.Ok? {
        ExitsAreDecided(gateway.machine, Ctx(cfg, now), pass);
      }
    }

    // ----- phase C -----

    /** The best candidate of tier 1 whose base is not held; nothing is asked at capacity. */
    method PickCandidate(cfg: Settings) returns (r: Result<Option<Candidate>>)
      modifies gateway`state
      ensures ExposedCount(rows, worker.mode) >= cfg.maxOpenPositions
          ==> r == Ok(None) && gateway.state == old(gateway.state)
      ensures ExposedCount(rows, worker.mode) < cfg.maxOpenPositions ==>
        var (rates, s) := Consulted(gateway.machine, old(gateway.state), [FetchFundingRates]);
        && gateway.state == s
        && (rates.Raised? ==> r == Raised(rates.exn))
        && (rates.Ok? ==>
              && r.Ok?
              && var candidates := Candidates(rates.value[0].rates, cfg.entryMinNetApy);
              match r.value
              case None => forall c :: c in candidates ==> c.base in HeldIn(rows, worker)
              case Some(c) => exists k: nat :: Best(candidates, HeldIn(rows, worker), k) && c == candidates[k])
    {
      if ExposedCount(rows, worker.mode) >= cfg.maxOpenPositions {
        return Ok(None);
      }
      var rates :- gateway.Consult([FetchFundingRates]);
      var candidates := Tier1Scan(rates[0].rates, cfg.entryMinNetApy);
      if candidates == [] {
        return Ok(None);
      }
      var best := PickBest(candidates, HeldIn(rows, worker));
      if best == None {
        return Ok(None);
      }
      return Ok(Some(candidates[best.value]));
    }

    method PlanEntry(c: Candidate, cfg: Settings) returns (r: Result<Option<real>>)
      modifies gateway`state
      ensures (r, gateway.state) == P.Planned(gateway.machine, old(gateway.state), c, cfg)
    {
      var books :- gateway.Consult(P.BookRequests(c));
      if !CoTemporal(books[0].book, books[1].book) {
        return Ok(None);
      }
      var wallets :- gateway.Consult(P.WalletRequests(c));
      if books[0].book.mid == 0.0 {
        return Raised(DivisionByZero);
      }
      var steps :- gateway.Consult(P.StepRequests(c));
      var v := P.ViewOf(c, books, wallets, steps);
      var size := Sizing.SizeEntry(P.SizingOf(v, cfg));
      if size.targetQty <= 0.0 {
        return Ok(None);
      }
      var notional := Times(size.targetQty, size.spotForecast);
      if notional < Times(cfg.minPositionPct, P.Equity(v)) {
        return Ok(None);
      }
      var fees :- gateway.Consult(P.FeeRequests(c));
      if Gate.NetApy(P.GateOf(c, size, fees[0], cfg)) < cfg.entryMinNetApy {
        return Ok(None);
      }
      return Ok(Some(size.targetQty));
    }

    /** A full pair opens a row with its two trades; a naked leg opens a row with none. */
    method InsertEntry(template: Position, result: Option<EntryResult>)
      modifies `rows, `trades
      ensures rows == match RowFor(template, result) case None => old(rows) case Some(row) => old(rows) + [row]
      ensures trades == old(trades) + EntryTrades(|old(rows)|, result)
    {
      if result == None {
        return;
      }
      var entry := result.value;
      if entry.outcome == Success {
        trades := trades + ([TradeOf(|rows|, entry.spotFill)] + [TradeOf(|rows|, entry.perpFill)]);
        rows := rows + [template.(status := Open, quantity := entry.spotFill.qty,
                                  spotEntryPrice := entry.spotFill.price, perpEntryPrice := entry.perpFill.price)];
      } else if entry.outcome == OrphanNaked {
        var filled := if entry.spotFill.accepted then entry.spotFill else entry.perpFill;
        var onSpot := filled.order.leg == Spot;
        var status := InitialStatus(if onSpot then OpenOnlySpotFilled else OpenOnlyPerpFilled);
        rows := rows + [template.(status := status.value, quantity := filled.qty,
                                  spotEntryPrice := if onSpot then filled.price else 0.0,
                                  perpEntryPrice := if onSpot then 0.0 else filled.price)];
      }
    }

    /** Send both legs and insert what they left. */
    method PlaceEntry(c: Candidate, qty: real, round: Round) returns (r: Result<()>, ghost t: Trace)
      modifies this, gateway
      ensures var e := P.EntryFor(c, qty, round.cycleId, digest);
        && (t, gateway.state) == Enter(gateway.machine, old(gateway.state), e, round.spotFirst)
        && Snap() == AfterEntry(old(Snap()), P.Template(c, worker), e, round.spotFirst, t)
      ensures r == if Verdict(t) == None then Raised(GatewayRaised) else Ok(())
      ensures rows == old(rows) || Appended(old(rows), rows, c)
    {
      ghost var before := Snap();
      var e := P.EntryFor(c, qty, round.cycleId, digest);
      var template := P.Template(c, worker);
      var result;
      result, t := ParallelEntry(gateway, e, round.spotFirst);
      InsertEntry(template, result);
      if RowFor(template, result).Some? {
        EntryAppends(before.rows, c, worker, result);
      }
      if !Witnessed(t) {
        incidents := incidents + [LostEntry(e, round.spotFirst, t)];
      }
      r := if result == None then Raised(GatewayRaised) else Ok(());
    }

    method ChooseEntry(cfg: Settings) returns (r: Result<Option<(Candidate, real)>>)
      modifies gateway`state
      ensures Chose(gateway.machine, old(gateway.state), worker, rows, cfg, r, gateway.state)
    {
      var picked :- PickCandidate(cfg);
      if picked == None {
        return Ok(None);
      }
      var planned :- PlanEntry(picked.value, cfg);
      return Ok(if planned == None then None else Some((picked.value, planned.value)));
    }

    /** At most one entry: of the chosen candidate, for the planned quantity, below the limit, on a base not held. */
    method PhaseCEntries(round: Round) returns (r: Result<()>, ghost log: EntryLog<S>)
      modifies this, gateway
      ensures Entered(gateway.machine, worker, digest, round, log)
      ensures log.before == old(Snap()) && log.from == old(gateway.state)
      ensures log.after == Snap() && log.to == gateway.state && log.end == r
    {
      ghost var before, from := Snap(), gateway.state;
      var chosen := ChooseEntry(round.cfg);
      ghost var at := gateway.state;
      if chosen.Raised? {
        r := Raised(chosen.exn);
      } else if chosen.value == None {
        r := Ok(());
      } else {
        var (c, qty) := chosen.value.value;
        ghost var t;
        r, t := PlaceEntry(c, qty, round);
      }
      log := EntryLog(before, from, chosen, at, Snap(), gateway.state, r);
    }

    // ----- the cycle -----

    /** Phase A, then the maintenance close or Phase B. */
    method SafetyThenExits(round: Round)
      returns (r: Result<()>, ghost stale: Pass<S>, ghost checked: Pass<S>, ghost rescued: Pass<S>, ghost main: Pass<S>)
      modifies this, gateway
      ensures stale.before == old(Snap()) && stale.from == old(gateway.state)
      ensures MadeSafe(gateway.machine, Ctx(round.cfg, round.now), stale, checked, rescued) && Continues(rescued, main)
      ensures Stage(gateway.machine, Ctx(round.cfg, round.now), MainTask(round), true, rescued.end, main)
      ensures main.after == Snap() && main.to == gateway.state && main.end == r
    {
      r, stale, checked, rescued := PhaseASafety(round.cfg, round.now);
      main := Passed(rescued);
      if r.Raised? {
        return;
      }
      if round.maintenance {
        r, main := CloseAllForMaintenance(round.cycleId, round.cfg, round.now);
      } else {
        r, main := PhaseBExits(round.cfg, round.now);
      }
    }

    /** The phases of one cycle; the log says which row each took up and what it did with it. */
    method RunPhases(round: Round) returns (error: Option<Exn>, ghost log: CycleLog<S>)
      modifies this, gateway
      ensures Ran(gateway.machine, worker, digest, round, log, old(Snap()), old(gateway.state), Snap(), gateway.state,
                  error)
    {
      var r;
      ghost var stale, checked, rescued, main;
      r, stale, checked, rescued, main := SafetyThenExits(round);
      log := CycleLog(stale, checked, rescued, main, None);
      if r.Ok? && !round.maintenance && round.entryEnabled {
        ghost var entry;
        r, entry := PhaseCEntries(round);
        log := log.(entry := Some(entry));
      }
      error := if r.Ok? then None else Some(r.exn);
    }

    /**
     * One cycle. Whatever the venue answers and wherever it raises: the invariant
     * is kept, closed rows and the rows of others stay as they are, at most one
     * row is inserted, only below the limit and on a base not held, and no
     * exception is an illegal transition or a failed assertion. The log says which
     * row each phase took up and what it did with it.
     */
    method RunCycle(round: Round) returns (error: Option<Exn>, ghost log: CycleLog<S>)
      requires Kept(Snap(), worker)
      modifies this, gateway
      ensures Kept(Snap(), worker) && Advances(old(Tab()), Tab(), worker) && old(gateway.executed) <= gateway.executed
      ensures error == None || error == Some(GatewayRaised) || error == Some(DivisionByZero)
      ensures |rows| <= |old(rows)| + 1
      ensures |rows| > |old(rows)| ==> round.entryEnabled && !round.maintenance
      ensures WithinLimit(old(rows), rows, worker, round.cfg.maxOpenPositions)
      ensures CycleShape(old(rows), rows, worker, round.cfg.maxOpenPositions)
      ensures Ran(gateway.machine, worker, digest, round, log, old(Snap()), old(gateway.state), Snap(), gateway.state,
                  error)
    {
      error, log := RunPhases(round);
      CycleKeeps(gateway.machine, worker, digest, round, log, old(Snap()), old(gateway.state), Snap(), gateway.state,
                 error);
    }

    /** A session that does not commit leaves the tables as it found them; what its cycle executed stays executed. */
    method EndSession(committed: bool, rowsFound: seq<Position>, tradesFound: seq<Trade>, ghost found: Snapshot)
      requires rowsFound == found.rows && tradesFound == found.trades && found.executed <= gateway.executed
      modifies this
      ensures Snap() == if committed then old(Snap()) else AfterRollback(found, gateway.executed[|found.executed|..])
    {
      if !committed {
        rows, trades := rowsFound, tradesFound;
        ghost var fills := gateway.executed[|found.executed|..];
        assert gateway.executed == found.executed + fills;
        incidents := AfterRollback(found, fills).incidents;
      }
    }

    /** One cycle in its own session: committed, or rolled back as a whole. */
    method RunSession(round: Round) returns (error: Option<Exn>, ghost log: SessionLog<S>)
      modifies this, gateway
      ensures SessionRan(gateway.machine, worker, digest, round, log) && log.error == error
      ensures log.found == old(Snap()) && log.from == old(gateway.state)
      ensures log.left == Snap() && log.to == gateway.state
    {
      ghost var found, from := Snap(), gateway.state;
      var rowsFound, tradesFound := rows, trades;
      ghost var cycle;
      error, cycle := RunPhases(round);
      ghost var ran := Snap();
      CycleOnlyAdds(gateway.machine, worker, digest, round, cycle, found, from, ran, gateway.state, error);
      EndSession(round.committed, rowsFound, tradesFound, found);
      log := SessionLog(found, from, cycle, ran, gateway.state, Snap(), error);
    }

    /** One session, after what the others committed. */
    method OneIteration(round: Round, others: Others, n: nat) returns (error: Option<Exn>, ghost log: SessionLog<S>)
      modifies this, gateway
      ensures SessionRan(gateway.machine, worker, digest, round, log) && log.error == error
      ensures Resumes(others, n, old(Snap()), old(gateway.state), log) && log.left == Snap() && log.to == gateway.state
    {
      var theirs := others(n, Tables(rows, trades));
      rows, trades := theirs.rows, theirs.trades;
      error, log := RunSession(round);
    }

    method RunRounds(rounds: seq<Round>, others: Others)
      returns (errors: seq<Option<Exn>>, ghost sessions: seq<SessionLog<S>>)
      modifies this, gateway
      ensures RanAll(gateway.machine, worker, digest, others, rounds, old(Snap()), old(gateway.state), sessions)
      ensures Snap() == LeftAfter(old(Snap()), sessions, |sessions|)
      ensures gateway.state == VenueAfter(old(gateway.state), sessions, |sessions|)
      ensures |errors| == |sessions| && forall n :: 0 <= n < |errors| ==> errors[n] == sessions[n].error
    {
      errors, sessions := [], [];
      for n := 0 to |rounds|
        invariant |sessions| == |errors| == n
        invariant RanAll(gateway.machine, worker, digest, others, rounds[..n], old(Snap()), old(gateway.state),
                         sessions)
        invariant Snap() == LeftAfter(old(Snap()), sessions, n)
        invariant gateway.state == VenueAfter(old(gateway.state), sessions, n)
        invariant forall m :: 0 <= m < n ==> errors[m] == sessions[m].error
      {
        var error;
        ghost var session;
        error, session := OneIteration(rounds[n], others, n);
        RunGoesOn(gateway.machine, worker, digest, others, rounds, n, old(Snap()), old(gateway.state), sessions,
                  session);
        errors, sessions := errors + [error], sessions + [session];
      }
      assert rounds[..|rounds|] == rounds;
    }

    /**
     * The worker loop: cycle after cycle, with any number of commits by any other
     * workers in between and any sessions rolled back. Every round is one session,
     * each on what the one before and the others left. The books stay right, closed
     * rows are final and bases distinct whatever the others do; a worker that is
     * alone in its mode keeps the mode within the largest limit it was run with.
     */
    method WorkerLoop(rounds: seq<Round>, others: Others, ghost cap: int)
      returns (errors: seq<Option<Exn>>, ghost sessions: seq<SessionLog<S>>)
      requires Kept(Snap(), worker) && OthersCommit(worker, others)
      modifies this, gateway
      ensures RanAll(gateway.machine, worker, digest, others, rounds, old(Snap()), old(gateway.state), sessions)
      ensures Snap() == LeftAfter(old(Snap()), sessions, |sessions|)
      ensures gateway.state == VenueAfter(old(gateway.state), sessions, |sessions|)
      ensures |errors| == |rounds| && forall n :: 0 <= n < |errors| ==> errors[n] == sessions[n].error
      ensures Kept(Snap(), worker) && ClosedStay(old(rows), rows, worker)
      ensures forall e :: e in errors ==> e == None || e == Some(GatewayRaised) || e == Some(DivisionByZero)
      ensures BasesDistinct(old(rows), worker.mode, worker.exchange)
          ==> BasesDistinct(rows, worker.mode, worker.exchange)
      ensures AloneInMode(worker, others) && ExposedCount(old(rows), worker.mode) <= cap
              && (forall round :: round in rounds ==> round.cfg.maxOpenPositions <= cap)
              ==> ExposedCount(rows, worker.mode) <= cap
    {
      errors, sessions := RunRounds(rounds, others);
      RunKeeps(gateway.machine, worker, digest, others, rounds, cap, old(Snap()), old(gateway.state), sessions);
    }
  }
}

// Moving funds between the buckets of a KuCoin account (gateways/kucoin.py).
//
// Any call to the venue may be carried out or not, and its response may be lost
// either way; the code sees an exception in every case but a confirmed move.
module KucoinWallets {

  datatype Bucket = Main | Trade | Margin | Isolated | Contract

  type Ledger = map<(Bucket, string), real>

  function Free(ledger: Ledger, bucket: Bucket, asset: string): real {
    if (bucket, asset) in ledger then ledger[(bucket, asset)] else 0.0
  }

  /** What becomes of one venue call. */
  datatype Fate = Fate(executed: bool, confirmed: bool)

  /** The venue's behaviour: the fate of the n-th transfer and whether the n-th balance read returns. */
  datatype Venue = Venue(fate: nat -> Fate, readable: nat -> bool)

  /** A venue moves only what is there. */
  predicate Moves(fate: Fate, ledger: Ledger, asset: string, source: Bucket, amount: real) {
    fate.executed && 0.0 < amount <= Free(ledger, source, asset)
  }

  function Shift(ledger: Ledger, asset: string, source: Bucket, target: Bucket, amount: real): Ledger {
    var debited := ledger[(source, asset) := Free(ledger, source, asset) - amount];
    debited[(target, asset) := Free(debited, target, asset) + amount]
  }

  function AfterTransfer(fate: Fate, ledger: Ledger, asset: string, source: Bucket, target: Bucket,
                         amount: real): Ledger {
    if Moves(fate, ledger, asset, source, amount) then Shift(ledger, asset, source, target, amount) else ledger
  }

  const SWEPT: seq<Bucket> := [Main, Margin, Isolated]

  /** A sweep under way: the account, the venue calls made, and the amounts confirmed so far. */
  datatype Sweep = Sweep(ledger: Ledger, calls: nat, swept: map<Bucket, real>)

  /** One source bucket: read it, and move what it holds to trade. */
  function SweepOne(venue: Venue, before: Sweep, asset: string, source: Bucket): Sweep {
    var u, amount := before.calls, Free(before.ledger, source, asset);
    if !venue.readable(u) || amount <= 0.0 then before.(calls := u + 1)
    else
      Sweep(AfterTransfer(venue.fate(u), before.ledger, asset, source, Trade, amount), u + 1,
            if venue.fate(u).executed && venue.fate(u).confirmed then before.swept[source := amount]
            else before.swept)
  }

  /** After the first n source buckets; t is the venue call the sweep starts at. */
  function AfterSweep(venue: Venue, t: nat, ledger: Ledger, asset: string, n: nat): Sweep
    requires n <= |SWEPT|
  {
    if n == 0 then Sweep(ledger, t, map[])
    else SweepOne(venue, AfterSweep(venue, t, ledger, asset, n - 1), asset, SWEPT[n - 1])
  }

  datatype Call =
    | Consolidate(asset: string)
    | SpotToFutures(asset: string, amount: real)
    | FuturesToSpot(asset: string, amount: real)

  function AfterCall(venue: Venue, t: nat, ledger: Ledger, call: Call): (Ledger, nat) {
    match call
    case Consolidate(asset) =>
      var sweep := AfterSweep(venue, t, ledger, asset, |SWEPT|); (sweep.ledger, sweep.calls)
    case SpotToFutures(asset, amount) => (AfterTransfer(venue.fate(t), ledger, asset, Main, Contract, amount), t + 1)
    case FuturesToSpot(asset, amount) =>
      var l := AfterTransfer(venue.fate(t), ledger, asset, Contract, Main, amount);
      if Moves(venue.fate(t), ledger, asset, Contract, amount) && venue.fate(t).confirmed then
        (AfterTransfer(venue.fate(t + 1), l, asset, Main, Trade, amount), t + 2)
      else (l, t + 1)
  }

  function AfterCalls(venue: Venue, t: nat, ledger: Ledger, calls: seq<Call>): (Ledger, nat)
    decreases calls
  {
    if calls == [] then (ledger, t)
    else var (l, u) := AfterCall(venue, t, ledger, calls[0]); AfterCalls(venue, u, l, calls[1..])
  }

  class KucoinAccount {
    const venue: Venue
    var ledger: Ledger
    var calls: nat

    constructor (venue: Venue, ledger: Ledger)
      ensures this.venue == venue && this.ledger == ledger && calls == 0
    {
      this.venue, this.ledger, this.calls := venue, ledger, 0;
    }

    /** One transfer call; false is the exception. */
    method Transfer(asset: string, source: Bucket, target: Bucket, amount: real) returns (ok: bool)
      modifies this
      ensures var fate := venue.fate(old(calls));
        && ledger == AfterTransfer(fate, old(ledger), asset, source, target, amount) && calls == old(calls) + 1
        && ok == (Moves(fate, old(ledger), asset, source, amount) && fate.confirmed)
    {
      var fate := venue.fate(calls);
      calls := calls + 1;
      ok := Moves(fate, ledger, asset, source, amount) && fate.confirmed;
      if fate.executed && 0.0 < amount <= Free(ledger, source, asset) {
        ledger := Shift(ledger, asset, source, target, amount);
      }
    }

    /** Sweep the sibling buckets into trade, each on its own; report what was confirmed. */
    method ConsolidateSpotWallets(asset: string) returns (swept: map<Bucket, real>)
      modifies this
      ensures Sweep(ledger, calls, swept) == AfterSweep(venue, old(calls), old(ledger), asset, |SWEPT|)
    {
      swept := map[];
      for i := 0 to |SWEPT|
        invariant Sweep(ledger, calls, swept) == AfterSweep(venue, old(calls), old(ledger), asset, i)
      {
        var source := SWEPT[i];
        if !venue.readable(calls) {
          calls := calls + 1;
          continue;
        }
        var amount := Free(ledger, source, asset);
        if 0.0 < amount {
          var ok := Transfer(asset, source, Trade, amount);
          if ok {
            swept := swept[source := amount];
          }
        } else {
          calls := calls + 1;
        }
      }
    }

    method TransferSpotToFutures(asset: string, amount: real)
      modifies this
      ensures (ledger, calls) == AfterCall(venue, old(calls), old(ledger), SpotToFutures(asset, amount))
    {
      var ok := Transfer(asset, Main, Contract, amount);
    }

    method TransferFuturesToSpot(asset: string, amount: real)
      modifies this
      ensures (ledger, calls) == AfterCall(venue, old(calls), old(ledger), FuturesToSpot(asset, amount))
    {
      var ok := Transfer(asset, Contract, Main, amount);
      if !ok {
        return;
      }
      ok := Transfer(asset, Main, Trade, amount);
    }
  }

  // ----- conservation -----

  function Total(ledger: Ledger, asset: string): real {
    Free(ledger, Main, asset) + Free(ledger, Trade, asset) + Free(ledger, Margin, asset)
    + Free(ledger, Isolated, asset) + Free(ledger, Contract, asset)
  }

  /** The same total of every asset, and no bucket overdrawn that was not. */
  ghost predicate Conserves(before: Ledger, after: Ledger) {
    && (forall asset :: Total(after, asset) == Total(before, asset))
    && (forall bucket, asset :: 0.0 <= Free(before, bucket, asset) ==> 0.0 <= Free(after, bucket, asset))
  }

  lemma FreeAfterTransfer(fate: Fate, ledger: Ledger, asset: string, source: Bucket, target: Bucket, amount: real,
                          bucket: Bucket, other: string)
    requires source != target
    ensures var moved := if Moves(fate, ledger, asset, source, amount) && other == asset then amount else 0.0;
      Free(AfterTransfer(fate, ledger, asset, source, target, amount), bucket, other)
      == Free(ledger, bucket, other) + (if bucket == target then moved else if bucket == source then -moved else 0.0)
  {
  }

  lemma TransferConserves(fate: Fate, ledger: Ledger, asset: string, source: Bucket, target: Bucket, amount: real)
    requires source != target
    ensures Conserves(ledger, AfterTransfer(fate, ledger, asset, source, target, amount))
  {
    forall bucket, other
      ensures var moved := if Moves(fate, ledger, asset, source, amount) && other == asset then amount else 0.0;
        Free(AfterTransfer(fate, ledger, asset, source, target, amount), bucket, other)
        == Free(ledger, bucket, other) + (if bucket == target then moved else if bucket == source then -moved else 0.0)
    {
      FreeAfterTransfer(fate, ledger, asset, source, target, amount, bucket, other);
    }
  }

  lemma {:induction false} SweepConserves(venue: Venue, t: nat, ledger: Ledger, asset: string, n: nat)
    requires n <= |SWEPT|
    ensures Conserves(ledger, AfterSweep(venue, t, ledger, asset, n).ledger)
  {
    if n > 0 {
      SweepConserves(venue, t, ledger, asset, n - 1);
      var before := AfterSweep(venue, t, ledger, asset, n - 1);
      var amount := Free(before.ledger, SWEPT[n - 1], asset);
      TransferConserves(venue.fate(before.calls), before.ledger, asset, SWEPT[n - 1], Trade, amount);
    }
  }

  function Reported(swept: map<Bucket, real>): real {
    (if Main in swept then swept[Main] else 0.0) + (if Margin in swept then swept[Margin] else 0.0)
    + (if Isolated in swept then swept[Isolated] else 0.0)
  }

  lemma OneMoreReported(swept: map<Bucket, real>, source: Bucket, amount: real)
    requires source !in swept && source in [Main, Margin, Isolated]
    ensures Reported(swept[source := amount]) == Reported(swept) + amount
  {
  }

  lemma OneReportedArrives(venue: Venue, before: Sweep, asset: string, source: Bucket)
    requires source !in before.swept && source in [Main, Margin, Isolated]
    ensures var after := SweepOne(venue, before, asset, source);
      && Reported(after.swept) - Reported(before.swept)
         <= Free(after.ledger, Trade, asset) - Free(before.ledger, Trade, asset)
      && (after.swept == before.swept
          || (0.0 < Free(before.ledger, source, asset)
              && after.swept == before.swept[source := Free(before.ledger, source, asset)]))
  {
    FreeAfterTransfer(venue.fate(before.calls), before.ledger, asset, source, Trade,
                      Free(before.ledger, source, asset), Trade, asset);
    OneMoreReported(before.swept, source, Free(before.ledger, source, asset));
  }

  /** What a consolidate reports as swept has arrived in trade; an unconfirmed move may add to it. */
  lemma {:induction false} ReportedHasArrived(venue: Venue, t: nat, ledger: Ledger, asset: string, n: nat)
    requires n <= |SWEPT|
    ensures var after := AfterSweep(venue, t, ledger, asset, n);
      && Free(ledger, Trade, asset) + Reported(after.swept) <= Free(after.ledger, Trade, asset)
      && (forall b :: b in after.swept ==> b in SWEPT[..n] && 0.0 < after.swept[b])
  {
    if n > 0 {
      ReportedHasArrived(venue, t, ledger, asset, n - 1);
      var source := SWEPT[n - 1];
      assert SWEPT[..n] == SWEPT[..n - 1] + [source] && source !in SWEPT[..n - 1];
      OneReportedArrives(venue, AfterSweep(venue, t, ledger, asset, n - 1), asset, source);
    }
  }

  lemma CallConserves(venue: Venue, t: nat, ledger: Ledger, call: Call)
    ensures Conserves(ledger, AfterCall(venue, t, ledger, call).0)
  {
    match call
    case Consolidate(asset) => SweepConserves(venue, t, ledger, asset, |SWEPT|);
    case SpotToFutures(asset, amount) => TransferConserves(venue.fate(t), ledger, asset, Main, Contract, amount);
    case FuturesToSpot(asset, amount) =>
      TransferConserves(venue.fate(t), ledger, asset, Contract, Main, amount);
      var l := AfterTransfer(venue.fate(t), ledger, asset, Contract, Main, amount);
      TransferConserves(venue.fate(t + 1), l, asset, Main, Trade, amount);
  }

  /** Any sequence of calls, any of them failing anywhere, conserves every asset. */
  lemma {:induction false} CallsConserve(venue: Venue, t: nat, ledger: Ledger, calls: seq<Call>)
    ensures Conserves(ledger, AfterCalls(venue, t, ledger, calls).0)
    decreases calls
  {
    if calls != [] {
      CallConserves(venue, t, ledger, calls[0]);
      var (l, u) := AfterCall(venue, t, ledger, calls[0]);
      CallsConserve(venue, u, l, calls[1..]);
    }
  }

  // ----- stranded funds -----

  /** The main sweep of a consolidate starting at call t: its read returns and its transfer is carried out. */
  predicate MainSweepSucceeds(venue: Venue, t: nat) {
    venue.readable(t) && venue.fate(t).executed
  }

  /** A consolidate empties main into trade exactly when its main sweep succeeds or there was nothing to sweep. */
  lemma ConsolidateEmptiesMainIff(venue: Venue, t: nat, ledger: Ledger, asset: string)
    requires 0.0 <= Free(ledger, Main, asset)
    ensures var after := AfterCall(venue, t, ledger, Consolidate(asset)).0;
      && (Free(after, Main, asset) == 0.0 <==> MainSweepSucceeds(venue, t) || Free(ledger, Main, asset) == 0.0)
      && (MainSweepSucceeds(venue, t) ==>
            Free(ledger, Trade, asset) + Free(ledger, Main, asset) <= Free(after, Trade, asset))
  {
    var first, second := AfterSweep(venue, t, ledger, asset, 1), AfterSweep(venue, t, ledger, asset, 2);
    assert AfterSweep(venue, t, ledger, asset, 0) == Sweep(ledger, t, map[]);
    SiblingSweep(venue.fate(first.calls), first.ledger, asset, Margin);
    SiblingSweep(venue.fate(second.calls), second.ledger, asset, Isolated);
  }

  /**
   * Source bucket k of a consolidate starting at call t: its read returns, it holds something,
   * and its transfer is carried out.
   */
  predicate Swept(venue: Venue, t: nat, ledger: Ledger, asset: string, k: nat)
    requires k < 3
  {
    venue.readable(t + k) && venue.fate(t + k).executed && 0.0 < Free(ledger, [Main, Margin, Isolated][k], asset)
  }

  /** After n sources: source k is empty if it was swept by then and as it was if not. */
  lemma {:induction false} SweepsInTurn(venue: Venue, t: nat, ledger: Ledger, asset: string, n: nat, k: nat)
    requires n <= 3 && k < 3
    ensures var after, source := AfterSweep(venue, t, ledger, asset, n), [Main, Margin, Isolated][k];
      var done := k < n && Swept(venue, t, ledger, asset, k);
      && after.calls == t + n && Free(after.ledger, Contract, asset) == Free(ledger, Contract, asset)
      && Free(after.ledger, source, asset) == (if done then 0.0 else Free(ledger, source, asset))
      && (source in after.swept <==> done && venue.fate(t + k).confirmed)
      && (source in after.swept ==> after.swept[source] == Free(ledger, source, asset))
  {
    if n > 0 {
      SweepsInTurn(venue, t, ledger, asset, n - 1, k);
      SweepsInTurn(venue, t, ledger, asset, n - 1, n - 1);
      var before, current := AfterSweep(venue, t, ledger, asset, n - 1), [Main, Margin, Isolated][n - 1];
      assert SWEPT[n - 1] == current && (k == n - 1 || [Main, Margin, Isolated][k] != current);
      var amount := Free(before.ledger, current, asset);
      FreeAfterTransfer(venue.fate(before.calls), before.ledger, asset, current, Trade, amount,
                        [Main, Margin, Isolated][k], asset);
      FreeAfterTransfer(venue.fate(before.calls), before.ledger, asset, current, Trade, amount, Contract, asset);
    }
  }

  /**
   * A consolidate takes main, margin and isolated in turn, one venue call each.
   * Each ends empty if its read returned and its transfer was carried out, and as
   * it was otherwise; trade gains exactly what left them; and what is reported are
   * the confirmed ones, each with its whole balance.
   */
  lemma ConsolidateSweepsEach(venue: Venue, t: nat, ledger: Ledger, asset: string)
    ensures var sources, sweep := [Main, Margin, Isolated], AfterSweep(venue, t, ledger, asset, |SWEPT|);
      var (after, u) := AfterCall(venue, t, ledger, Consolidate(asset));
      && u == t + 3 && after == sweep.ledger && Free(after, Contract, asset) == Free(ledger, Contract, asset)
      && (forall k: nat :: k < 3 ==>
            Free(after, sources[k], asset)
            == if Swept(venue, t, ledger, asset, k) then 0.0 else Free(ledger, sources[k], asset))
      && Free(after, Trade, asset)
         == Free(ledger, Trade, asset)
            + (if Swept(venue, t, ledger, asset, 0) then Free(ledger, Main, asset) else 0.0)
            + (if Swept(venue, t, ledger, asset, 1) then Free(ledger, Margin, asset) else 0.0)
            + (if Swept(venue, t, ledger, asset, 2) then Free(ledger, Isolated, asset) else 0.0)
      && (forall k: nat :: k < 3 ==>
            (sources[k] in sweep.swept <==> Swept(venue, t, ledger, asset, k) && venue.fate(t + k).confirmed))
      && (forall k: nat :: k < 3 && sources[k] in sweep.swept ==>
            sweep.swept[sources[k]] == Free(ledger, sources[k], asset))
  {
    var after := AfterCall(venue, t, ledger, Consolidate(asset)).0;
    SweepsInTurn(venue, t, ledger, asset, 3, 0);
    SweepsInTurn(venue, t, ledger, asset, 3, 1);
    SweepsInTurn(venue, t, ledger, asset, 3, 2);
    SweepConserves(venue, t, ledger, asset, 3);
    assert Total(after, asset) == Total(ledger, asset);
    assert Free(after, [Main, Margin, Isolated][0], asset) == Free(after, Main, asset)
        && Free(after, [Main, Margin, Isolated][1], asset) == Free(after, Margin, asset)
        && Free(after, [Main, Margin, Isolated][2], asset) == Free(after, Isolated, asset);
  }

  /** Two hops out of contract: what arrives in trade, and what is left in main, by what became of each hop. */
  lemma TwoHops(venue: Venue, t: nat, ledger: Ledger, asset: string, amount: real)
    requires 0.0 <= Free(ledger, Main, asset)
    ensures var left := venue.fate(t).executed && 0.0 < amount <= Free(ledger, Contract, asset);
      var arrived := left && venue.fate(t).confirmed && venue.fate(t + 1).executed;
      var (after, u) := AfterCall(venue, t, ledger, FuturesToSpot(asset, amount));
      && u == (if left && venue.fate(t).confirmed then t + 2 else t + 1)
      && Free(after, Contract, asset) == Free(ledger, Contract, asset) - (if left then amount else 0.0)
      && Free(after, Main, asset) == Free(ledger, Main, asset) + (if left && !arrived then amount else 0.0)
      && Free(after, Trade, asset) == Free(ledger, Trade, asset) + (if arrived then amount else 0.0)
      && Free(after, Margin, asset) == Free(ledger, Margin, asset)
      && Free(after, Isolated, asset) == Free(ledger, Isolated, asset)
  {
  }

  lemma SiblingSweep(fate: Fate, ledger: Ledger, asset: string, source: Bucket)
    requires source == Margin || source == Isolated
    ensures var after := AfterTransfer(fate, ledger, asset, source, Trade, Free(ledger, source, asset));
      Free(after, Main, asset) == Free(ledger, Main, asset) && Free(ledger, Trade, asset) <= Free(after, Trade, asset)
  {
  }

  /**
   * Two hops, the second one lost: the amount rests in main, and the next
   * consolidate whose main sweep succeeds brings it, with whatever else was in
   * main, to trade.
   */
  lemma StrandedFundsReturn(venue: Venue, t: nat, ledger: Ledger, asset: string, amount: real)
    requires Moves(venue.fate(t), ledger, asset, Contract, amount) && 0.0 <= Free(ledger, Main, asset)
    requires venue.fate(t).confirmed ==> !venue.fate(t + 1).executed
    ensures var (stranded, u) := AfterCall(venue, t, ledger, FuturesToSpot(asset, amount));
      var after := AfterCall(venue, u, stranded, Consolidate(asset)).0;
      && Free(stranded, Main, asset) == Free(ledger, Main, asset) + amount
      && Free(stranded, Contract, asset) == Free(ledger, Contract, asset) - amount
      && Free(stranded, Trade, asset) == Free(ledger, Trade, asset)
      && (MainSweepSucceeds(venue, u) ==>
            Free(after, Main, asset) == 0.0
            && Free(ledger, Trade, asset) + Free(ledger, Main, asset) + amount <= Free(after, Trade, asset))
  {
    var (stranded, u) := AfterCall(venue, t, ledger, FuturesToSpot(asset, amount));
    ConsolidateEmptiesMainIff(venue, u, stranded, asset);
  }

  /** A consolidate whose main sweep does not succeed leaves main as it was. */
  lemma FailedSweepLeavesMain(venue: Venue, t: nat, ledger: Ledger, asset: string)
    requires 0.0 <= Free(ledger, Main, asset)
    ensures var after := AfterCall(venue, t, ledger, Consolidate(asset)).0;
      Free(after, Main, asset) == if MainSweepSucceeds(venue, t) then 0.0 else Free(ledger, Main, asset)
  {
    var first, second := AfterSweep(venue, t, ledger, asset, 1), AfterSweep(venue, t, ledger, asset, 2);
    assert AfterSweep(venue, t, ledger, asset, 0) == Sweep(ledger, t, map[]);
    SiblingSweep(venue.fate(first.calls), first.ledger, asset, Margin);
    SiblingSweep(venue.fate(second.calls), second.ledger, asset, Isolated);
  }

  /**
   * The inbound transfer draws on main, which a consolidate empties into trade.
   * Straight after one it moves funds exactly when that consolidate's main sweep
   * failed, the venue carries the transfer out, and main had the amount all along.
   */
  lemma InboundAfterConsolidateIff(venue: Venue, t: nat, ledger: Ledger, asset: string, amount: real)
    requires 0.0 <= Free(ledger, Main, asset)
    ensures var (swept, u) := AfterCall(venue, t, ledger, Consolidate(asset));
      AfterCall(venue, u, swept, SpotToFutures(asset, amount)).0 != swept
      <==> !MainSweepSucceeds(venue, t) && venue.fate(u).executed && 0.0 < amount <= Free(ledger, Main, asset)
  {
    FailedSweepLeavesMain(venue, t, ledger, asset);
    var (swept, u) := AfterCall(venue, t, ledger, Consolidate(asset));
    var after := AfterCall(venue, u, swept, SpotToFutures(asset, amount)).0;
    FreeAfterTransfer(venue.fate(u), swept, asset, Main, Contract, amount, Main, asset);
    if Moves(venue.fate(u), swept, asset, Main, amount) {
      assert Free(after, Main, asset) != Free(swept, Main, asset);
    }
  }
}

# AutoTrader in Dafny

AutoTrader earns funding on perpetual swaps: it buys a coin on the spot market, sells
the same amount of its perpetual future, and collects the funding rate while the two
legs cancel each other's price risk. This project models the code that decides how much
to trade, sends the two legs, keeps the position table and takes positions down again,
and proves what that code guarantees against any venue, not only a well-behaved one.

`dafny verify dfyconfig.toml` checks the whole project.

## What is proved

**Sizing** (`Books`, `Sizing`, `LegacySizing`). On any ascending book the one-pass argmax
returns the largest quantity whose reservation, the quantity times the price of the
deepest level it needs, fits the budget, and rejects exactly when there is none. The
four-pass loop of v1.3 that it replaced, converged or not, never ended more than its own
tolerance of 1e-9 above that quantity. An entry is the largest quantity that fits the spot
reservation, the perp margin and the operator's cap, scaled and floored to the coarser lot step.

**The synthetic gateway** (`PaperGateway`, `LegThreads`, `PaperEntry`, `PaperWallets`). The two entry legs
run as threads cut at every access to shared state: every schedule of their steps ends
where placing one after the other ends. A sized entry on the books it was sized on always
ends SUCCESS, and never reaches the clamp on wallet balances while the sizing margin covers
slippage and fee. What every fill moves is given in plain arithmetic for either side of either leg,
and an entry with the close that follows it returns the base wallet to where it was.

**The two-leg entry** (`Gateways`, `Executor`, `OrderIds`). A venue is an arbitrary machine; an order can
be executed or not, and its caller can see the answer, be told it was refused, give up waiting,
or get an exception, independently: the live clients turn any exception of an order call into a
refusal. What the entry claims equals what the venue holds, on every leg of every symbol, if and
only if every executed leg was answered in time, a rollback whose call raised was executed and a
rollback reported as refused was not. Every order goes out under the id of its own use; on the
synthetic gateway a lone leg is recovered exactly when its rollback id is new and its book covers it.

**The cycle** (`Desk`, `CycleLog`, `Runs`, with `Positions`, `Accounts`, `Recovery`, `Sightings`,
`Exits`, `Scan`, `EntryPlan`). `Desk` follows the phases of a cycle statement by statement, on a
table it updates in place, with any call able to raise. Each of its methods returns a record of
what it did: which rows a phase took up, in which state of the venue, and how each was left.
`CycleLog` says which records are true of the code (every own row with the status a phase is
concerned with, in order, up to the first exception) and `Runs` proves what they keep, over one
row, one phase, one cycle and any run. One invariant, `Accounts.Kept`, holds after every cycle, in paper and in live mode, against any venue: rows are well formed (closed
exactly when `closed_at` is set, a positive entry price on every leg claimed), and the venue has
executed what the worker's rows claim plus what a list of incidents left behind. An incident is
an entry, a close or a recovery that lost track, a row that Phase A restated because of what
the venue showed, or the fills of a cycle whose session was rolled back. Each is shown to be
genuine (made of executed fills or of the venue's replies, with the condition that loses track)
and to matter (it moved some leg). In paper mode each position's trades are moreover exactly those
of its opening and its close; in live mode they are openings, hedges included, and at the end of a
closed row none, one or both exits. No exception is ever an illegal transition. In between two
cycles any number of other workers may commit anything to their own rows.

**The ledgers** (`RealizedPnl`, `Ledgers`). For every closed row of every run, in either mode, the
dashboard's realised profit is the cash of the row's trades plus a stated gap, and exactly when
the gap is nothing is stated too; the dashboard total follows.

**Paper mode** (`PaperCycle`, `PaperWallets`). A planned entry opens a row of the planned quantity
and takes exactly its cost from the wallets, and Phase B exits a pair of symbols at most once, however the books move.

**Capacity under concurrency** (`Runner`, `Workers`). Workers of one mode share a position table
and a limit. The bound that their schedules keep is proved and shown to be reached; a cycle of
`Desk` is a run of one worker's steps.

**The gate** (`Gate`), **client order ids** (`ClientOrderIds`), **KuCoin wallet moves**
(`KucoinWallets`) and the **parity differ** (`Parity`) are modelled and proved on their own.

## Where the code does not keep a promise

Each of these is a lemma that says exactly when the promise holds, and where the failure is not
plain from that, a failing input beside it.

- `docs/SYSTEM.md:1020` calls `max_open_positions` a cap per mode across all venues. With N
  workers it is a cap of limit + N − 1, that bound is reached, and the cap holds on every
  schedule exactly when N is 1 (`Runner.LimitHoldsIffOneWorker`).
- `_vwap_up_to` promises the last level price beyond the depth; it returns the average over
  the whole side. That is the last price exactly when every level that offers anything has it
  (`Sizing.BeyondDepthIsLastPriceIff`, `Sizing.BeyondDepthIsLastBidIff`,
  `Sizing.BeyondDepthIsNotLastPrice`).
- Tier 1 is meant to be a cheap pre-filter. It drops nothing tier 3 would accept exactly under
  the fees and window counts of `Gate.Tier1LosslessIff`; for candidates that do not lose more
  than the position in a window, 10 bps of fees are enough (`Gate.Tier1LosslessAboveRuinIff`).
- Forecast prices are pessimistic, but the gate charges for the absolute basis, and can charge
  less than is filled. `PaperEntry.GateSeesNoMoreBasis` says when it does not,
  `PaperEntry.GateCanUndercharge` gives books on which it does.
- Compounding past ruin: with an even number of windows a year, losing more per window can
  annualise better. The order of annualised rates is exactly characterised (`Gate.ApyOrder`),
  and with it exactly when an entry can flap (`Gate.FlapsIff`, `Exits.EntryFlapsIff`, with the
  input of `Gate.EntryPastRuinPasses`).
- Phase B closes under the constant cycle id `"exit"`, so on the synthetic gateway, which refuses
  repeated ids, it exits a pair of symbols once, ever, whatever the books become
  (`PaperCycle.PhaseBClosesIff`, `PaperCycle.PhaseBExitsOnce`).
- A one-leg close, a close with a fill that was reported as refused, and a maintenance close of a
  naked row leave row and venue apart (`Accounts.CloseFaithfulIff`).
- The dashboard's figure of a closed position is not always the cash of its trades. In paper mode
  it is exactly for rows opened whole; a maintenance close of a naked row books an entry no trade
  paid for (`Ledgers.NakedCloseIsMisbooked`). In live mode a row that ended in both exits has its
  cash as the figure exactly when what its openings moved, hedges included, is what quantity and
  entry prices say; a row born naked, hedged and then closed has not
  (`Ledgers.HedgedCloseIsMisbooked`), and an unwound row has no figure at all
  (`Ledgers.UnwoundIsMisbooked`). `Ledgers.ClosedPnlIff` has the exact gap of each.
- A naked row is hedged or unwound for what the venue shows, but keeps its full quantity, and a
  hedge that was executed but reported as refused is followed by the unwind
  (`Recovery.RecoveryFaithfulIff`). Hedge and close-out ids are fixed per row and status, so on a
  venue that refuses repeated ids a recovery refused both ways stays refused
  (`Recovery.RecoveryTriesOnce`). Presence is judged on free plus total, which is sound exactly
  for a wallet with nothing free (`Sightings.PresenceIsSoundIff`, `Sightings.HalfAWalletPasses`).
- KuCoin's inbound transfer draws on `main`, which a consolidate empties; it moves anything after
  one only if that consolidate's sweep failed (`KucoinWallets.InboundAfterConsolidateIff`).
- `normalize` promises to sort lists of dicts; it keeps every list in order, and a swap goes
  unnoticed exactly when the swapped items agree (`Parity.SwapUnnoticedIff`,
  `Parity.OrderIsNoticed`).

## Conventions of the model

- Prices, quantities and rates are exact reals. Products and quotients go by the names
  `Times` and `Over`.
- A year has a natural number of funding windows.
- The digest of a client order id is a parameter; where uniqueness is claimed it is assumed
  free of collisions on the ids in use.
- A reply to an order carries two things that are independent of each other: what the venue did,
  which is all or nothing at a positive price, and what the caller saw of it. Any other reply to
  an order, and any reply of the wrong kind to a question, is an exception to the caller.
- A row's id is its place in the table. The clock reading of a cycle is an argument, as are
  the cycle id and the order in which the venue serves the two entry legs.
- Where the source raises, a method returns `Raised`; what it changed before stays changed, as
  the cycle catches what its phases raise. Whether the session then commits is part of each round:
  a failure after the cycle (`loop/runner.py:251-252`, or the commit itself) rolls back the tables,
  not what was executed.

## Model

| member | source | states |
|---|---|---|
| Books.Reach | core/sizing.py:68-76 | the level reached by a fill is the one whose cumulative depth first covers the quantity |
| Books.VwapAscends | core/sizing.py:27-44 | on ascending asks the average price grows with the quantity |
| Books.VwapDescends | core/sizing.py:27-44 | on descending bids the average price falls with the quantity |
| Books.VwapSteadyIff | core/sizing.py:27-44 | the average of a larger fill on asks stays the same exactly when that fill stays within one price |
| Books.VwapSteadyDownIff | core/sizing.py:27-44 | the same on bids |
| Sizing.VwapUpTo | core/sizing.py:27-44 | the loop's average is the cost of the fill over what the side can fill |
| Sizing.BeyondDepthIsWholeSide | core/sizing.py:27-44 | beyond the depth the result is the average over the whole side |
| Sizing.BeyondDepthIsLastPriceIff | core/sizing.py:28-44 | on asks, beyond the depth the docstring's last level price is returned exactly when every level that offers anything has that price |
| Sizing.BeyondDepthIsLastBidIff | core/sizing.py:28-44 | the same on bids |
| Sizing.BeyondDepthIsNotLastPrice | core/sizing.py:28-44 | a book on which it is not |
| Sizing.SizeBuySpot | core/sizing.py:53-82 | the argmax loop computes the specification function, skipping unpriced levels |
| Sizing.BuySpotIsOptimal | core/sizing.py:53-82 | accepted sizes are the largest reservable quantity; rejection exactly when the wallet is empty or nothing is reservable |
| Sizing.ReservableShrinks | core/sizing.py:64-76 | any smaller positive quantity can be reserved too |
| Sizing.ReservableIsAffordable | core/sizing.py:64-82 | what can be reserved costs at most the budget when filled |
| Sizing.SizePerp | core/sizing.py:104-123 | the method computes the perp leg's specification, both rejections included |
| Sizing.PerpIsOptimal | core/sizing.py:104-123 | an accepted perp leg is the largest quantity within the depth of the whole side whose value at the mark fits the leveraged wallet, priced by its average; rejected exactly when wallet or mark is not positive or there is none |
| Sizing.FloorToStepFloors | core/sizing.py:47-50 | truncation to a positive step lands on the grid, toward zero, less than one step away |
| Sizing.SizeEntry | core/sizing.py:126-186 | the method computes the sizing specification, rejection branches included |
| Sizing.EntrySizeFits | core/sizing.py:142-186 | a size fits both depths, both wallets' reservations and the operator's cap |
| Sizing.EntrySizeOnGrid | core/sizing.py:166-168 | it is the largest multiple of the coarser step within the scaled target |
| Sizing.EntrySizeIsLargest | core/sizing.py:142-186 | an entry is the largest quantity that fits the spot reservation, the perp margin and the operator's cap, scaled and floored to the coarser lot step; rejected exactly when a wallet or the mark is not positive, nothing fits, or what fits, scaled, is below the step |
| Sizing.CoarseGridServesFineIff | core/sizing.py:167 | flooring to the coarser step serves both legs exactly when the coarser step is on the finer grid |
| LegacySizing.SimulateFill | archive/v1.3-legacy/app/exchange.py:377-406 | the walk is a fill of what it filled: its cost, average and deepest price, stopping within tolerance or at the depth |
| LegacySizing.Clamp | archive/v1.3-legacy/app/bot.py:1934-1940 | the clamp is the largest quantity not above the target that both fills and both wallets allow |
| LegacySizing.Shrink | archive/v1.3-legacy/app/bot.py:1919-1943 | at most four passes, each asking for what the clamp of the one before left and shrinking by more than the tolerance, end at nothing, at what no longer shrinks, or after the fourth; the result less the tolerance fits both budgets at the final limit prices and is at most the tolerance above the closed-form spot quantity on the last pass's asks |
| LegacySizing.ClosedFormDominates | archive/v1.3-legacy/app/bot.py:2060-2063 | any quantity placeable at the limit prices is at most the closed-form spot quantity for the same book and budget |
| Gate.PowerOrder | core/math.py:16-19 | exactly when a larger growth factor has the larger power |
| Gate.ApyOrder | core/math.py:16-19 | a better window is a better year exactly when windows are odd in number or the two do not both lose the position on average |
| Gate.ApyOrderFailsBelowRuin | core/math.py:16-19 | an input on which a worse window annualises better |
| Gate.ApyAtLeastSimple | core/math.py:16-19 | compounding is at least the simple sum of windows: always for an even number or at most one, otherwise down to losing twice the position a window |
| Gate.GateMonotone | core/math.py:58-73 | net bps are up in funding and down in absolute basis, fees and buffer; the annual rate exactly when the order above says so |
| Gate.EntryThenNoExit | core/math.py:76-94 | an entry that passed does not ask to leave while nothing is worse, except past ruin with an even, positive number of windows |
| Gate.FlapsIff | core/math.py:76-94 | some no-worse reading asks a passed entry to leave exactly when windows are even and positive, the entry was past ruin and the exit asks for more than a total loss |
| Gate.EntryPastRuinPasses | core/math.py:58-94 | an input: an entry past ruin that passes a 20% gate and then leaves |
| Gate.BreaksEvenIff | core/math.py:22-73 | a year is no loss exactly when the funding of one window covers both legs' fees twice, any swap twice and the buffered basis, or windows are even in number and each loses twice the position |
| Gate.Tier1LosslessIff | loop/cycle.py:745-757 | tier 1 drops nothing tier 3 would accept, at any threshold, exactly when fees total at least 10 bps and windows are odd in number or the two formulas coincide (or there are no windows) |
| Gate.Tier1LosslessAboveRuinIff | loop/cycle.py:745-757 | among candidates whose windows do not lose more than the position, exactly when fees total at least 10 bps |
| Gate.PnlIsDeltaNeutral | core/math.py:106-125 | moving both marks together changes no profit |
| Gate.PnlIsBasisNarrowing | core/math.py:106-125 | the profit fraction is the narrowing of the basis since entry over the spot entry price |
| PaperGateway.InMemoryGateway.MutateBalance | gateways/paper.py:247-255 | one asset's free and total move by the delta, clamped at zero |
| PaperGateway.InMemoryGateway.ApplyWalletDelta | gateways/paper.py:224-245 | quote moves on either leg, base only on spot |
| PaperGateway.InMemoryGateway.PlaceMarketFok | gateways/paper.py:126-221 | the whole order call equals its specification on ids, books, slippage, fee and wallets |
| PaperGateway.Consume | gateways/paper.py:182-189 | the fill loop spends the cost of the quantity |
| PaperGateway.PlaceAcceptsIff | gateways/paper.py:134-178 | an order fills exactly under a new id, on a book that is there and deep enough on its side; otherwise, or untracked, no wallet moves |
| PaperGateway.FillIsPriced | gateways/paper.py:180-197 | a fill is priced at the average of its own side, raised by the slippage when buying and lowered when selling, and its fee is the rate on its value |
| PaperGateway.PlaceIsExact | gateways/paper.py:224-255 | what any fill moves, on either side of either leg, in plain arithmetic, and that nothing else moves |
| PaperGateway.PlaceAnswersTheOrder | gateways/paper.py:126-221 | an answer is about its own order, whole or nothing, accepted only under a new id, which is then remembered |
| PaperGateway.AcceptedAtMostOnce | gateways/paper.py:134-147 | over any run of orders, with books, slippage, fee and drawdown flag set anew before each, accepted fills carry pairwise different ids, none seen before |
| LegThreads.AnyScheduleIsSequential | loop/executor.py:91-102 | every interleaving of the two legs' steps ends in the fills, wallets and ids of one leg after the other |
| LegThreads.LegsCommute | loop/executor.py:91-102 | either leg first gives the same fills and the same state |
| PaperEntry.SizedEntrySucceeds | gateways/paper.py:162-178 | a sized entry under new ids ends SUCCESS whichever leg goes first, so no orphan arises |
| PaperEntry.DebitFits | gateways/paper.py:190-194 | notional and fee of a reservable buy fit the free balance when the margin covers slippage and fee |
| PaperEntry.SpotLegIsExact | gateways/paper.py:235-255 | the spot leg never reaches the clamp: quote falls by notional and fee, base rises by the quantity, nothing else moves |
| PaperEntry.PerpLegIsExact | gateways/paper.py:235-255 | the perp leg raises futures quote by exactly notional less fee, nothing else moves |
| PaperEntry.EntryIsExact | gateways/paper.py:224-255 | a whole sized entry, whichever leg is served first, fills both legs and moves both wallets by exactly their fill |
| PaperWallets.CloseIsExact | gateways/paper.py:224-255 | a close that fills both legs: spot quote up by the value less the fee, spot base down by the quantity, futures quote down by the value and the fee, nothing below zero, nothing else moved |
| PaperWallets.RoundTripReturnsBase | gateways/paper.py:224-255 | an entry and the whole close after it, on whatever books, return the base wallet to where it was and move spot quote by what was sold less what was bought and both fees |
| PaperWallets.PlannedEntryIsExact | loop/cycle.py:518-668 | in paper mode a planned entry takes exactly its cost from the quote wallet it was sized on and leaves it at or above zero |
| PaperWallets.LoneLegIsRecoveredIff | loop/executor.py:138-165 | on the synthetic gateway a lone leg of a planned entry ends recovered exactly when its rollback id is new and the opposite side of its book covers it, and naked otherwise |
| PaperEntry.ForecastsArePessimistic | core/sizing.py:145-186 | spot forecast is at least, perp forecast at most, the average at the floored quantity |
| PaperEntry.GateSeesNoMoreBasis | loop/cycle.py:580 | without slippage the gate's basis is at most the filled one; in absolute value it is at least the filled one exactly when reducing the quantity to the target (other leg, operator's cap, sub-target factor, lot step) moved neither average, or the forecast and filled ratios of perp to spot do not average above one |
| PaperEntry.NoPremiumIsCharged | loop/cycle.py:580 | filled at no premium, the gate charges at least the filled basis |
| PaperEntry.GateCanUndercharge | loop/cycle.py:580 | books on which the gate sees half the basis that is filled |
| Lifecycle.ClosedIsFinal | core/lifecycle.py:62-66 | no event is legal after a close |
| Lifecycle.ClosedOnlyAtTheEnd | core/lifecycle.py:31-75 | in every legal history of an exposed row only the last event can close it |
| Lifecycle.TransitionMovesLegs | core/lifecycle.py:31-75 | the whole table in terms of the legs a status stands for, and nothing else is legal |
| Gateways.ConsultedInTwo | gateways/base.py:53-59 | asking two lists of questions is asking one, up to the first that raises |
| Gateways.Gateway.Consult | gateways/base.py:53-59 | questions are answered by the machine in order, up to the first that raises |
| Gateways.Gateway.Place | gateways/base.py:62-69 | an order is answered by the machine, all or nothing; what was executed is recorded apart from what the caller sees |
| Gateways.NetAdds | gateways/base.py:62-69 | exposure of fills adds up over any split of them |
| Executor.ParallelEntry | loop/executor.py:73-165 | the method follows the protocol function: both legs, classification, rollback of a lone leg |
| Executor.RollbackUndoes | loop/executor.py:141-149 | an executed rollback takes back exactly the filled leg |
| Executor.EntryClaimIff | loop/executor.py:122-165 | against any venue, claimed and held exposure agree on every leg of every symbol exactly when every executed leg was answered in time, a rollback that raised was executed and a rollback reported as refused was not |
| Executor.OutcomeMeaning | loop/executor.py:122-165 | under that same condition, what each outcome leaves: the pair, nothing, nothing, or exactly the surviving leg |
| OrderIds.EntryOrdersCarryTheirIds | loop/cycle.py:604-612 | both entry orders go out under the ids made from their own symbol, leg and side |
| OrderIds.RollbackCarriesItsId | loop/executor.py:141-149 | the order after a lone leg is its exact reverse under the rollback id of that leg's use, which is neither entry id |
| OrderIds.RecoveryOrdersCarryTheirIds | loop/cycle.py:206-232 | hedge and close-out ids name the row and the leg the order trades |
| ClientOrderIds.CompositeInjective | loop/idempotency.py:40 | the joined composite is injective on parts without the separator |
| ClientOrderIds.CompositeNeedsPipeFreeParts | loop/idempotency.py:40 | with a separator inside a part it is not |
| ClientOrderIds.Namespace | loop/idempotency.py:41-43 | length and first characters tell entry, rollback, exit, hedge and close ids apart |
| ClientOrderIds.IdsAreUnique | loop/idempotency.py:28-43 | one id, one use, within and across the five kinds |
| ClientOrderIds.IdsInWords | loop/idempotency.py:40-43 | every id spelled out |
| ClientOrderIds.DecimalReads | loop/cycle.py:206 | the row number in a hedge or close id reads back as that number |
| ClientOrderIds.ExitSpendsTheSymbol | loop/cycle.py:455-478 | once an exit order of a symbol was sent, the synthetic gateway accepts no later one under the constant cycle id, whatever is ordered in between and however the books change |
| Positions.ExposedIds | state/repository.py:93-101 | the query lists exactly the matching rows, in id order |
| Positions.ExposureNeverGrows | state/repository.py:93-101 | without an insertion no exposed count grows |
| Positions.EvolvingKeepsBases | loop/cycle.py:505-509 | distinct bases stay distinct while rows only evolve |
| Positions.InsertionCounts | loop/cycle.py:492-512 | one insertion adds at most one to the count, and keeps bases distinct when its base was not held |
| Accounts.CloseFaithfulIff | loop/cycle.py:826-862 | a close keeps row and venue together exactly when it closed an OPEN row whole or nothing was executed, fills reported as refused included |
| Accounts.CloseKeeps | loop/cycle.py:814-862 | in either mode a close, whatever the answers, keeps the invariant and touches only its own row and trades |
| Accounts.RecoveryKeeps | loop/cycle.py:176-338 | a recovery, whatever the answers, keeps a live worker's invariant |
| Accounts.RestatingKeeps | loop/cycle.py:131-150 | closing a stale row or restating a one-legged one keeps a live worker's invariant |
| Accounts.EntryKeeps | loop/cycle.py:604-732 | an entry, whatever the answers, keeps the invariant and appends at most one own row and its own trades |
| Accounts.RollbackKeeps | state/db.py:72-81 | after a session is rolled back the invariant stands on the tables found, with one incident for everything executed unless it came to nothing |
| Accounts.NotesKeep | loop/cycle.py:427-429 | refreshing funding terms or an error text keeps the invariant |
| Accounts.RowMatchesClaim | loop/cycle.py:616-732 | the inserted row is well formed, of the planned quantity, OPEN exactly on SUCCESS |
| Accounts.RowClaims | loop/cycle.py:616-732 | the inserted row claims exactly the exposure the outcome claims |
| Accounts.RowRecordsFills | loop/cycle.py:616-732 | the inserted row has the prices of the fills it rests on, zero on a leg it lacks, and the candidate's funding terms |
| Accounts.TradesRepeatFills | loop/cycle.py:636-668 | every trade written repeats one executed fill in every column |
| Accounts.IncidentsMatter | loop/cycle.py:176-379 | in either mode every incident on record moved some leg away from what the rows say |
| Accounts.OthersDoNotDisturb | loop/runner.py:352-394 | whatever another worker does to the shared tables, a worker's invariant stands |
| Runs.CommitsKeep | loop/runner.py:426-458 | after any number of commits by any other workers a worker's invariant stands and its rows are as they were |
| Runs.OtherModesDoNotCount | loop/runner.py:426-458 | commits of the other mode's workers never raise this mode's exposed count |
| Runs.DoneKeeps | loop/cycle.py:107-478 | any task done on one own row, whatever the venue answers, keeps the invariant and undoes nothing executed |
| Runs.PassKeeps | loop/cycle.py:107-415 | any phase, run to its end or cut short, keeps the invariant and inserts nothing |
| Runs.CycleKeeps | loop/cycle.py:57-102 | any cycle keeps the invariant, the limit and distinct bases, inserts at most one row and raises nothing but what the venue or a mid of zero raises |
| Runs.CycleDecides | loop/cycle.py:57-102 | a cycle without an exception has closed or marked every own row in maintenance, and otherwise evaluated every own row that was OPEN after Phase A and made the entry choice where entries are enabled |
| Runs.SessionKeeps | loop/runner.py:210-252 | a session, committed or rolled back, keeps the invariant and the limit |
| Runs.RunKeeps | loop/runner.py:352-394 | so does any run of sessions among any commits of others, with closed rows final |
| Recovery.RecoveryMeaning | loop/cycle.py:186-257 | what each end of a recovery says: exactly the missing leg filled at the recorded price, the surviving leg taken back, or marked; beyond that nothing was executed but what was reported as refused; never left unexplained |
| Recovery.RecoverySends | loop/cycle.py:186-232 | a hedge is sent exactly when something is held and it pays, the unwind exactly when it does not pay or the hedge came back and was not reported filled |
| Recovery.RecoveryFaithfulIff | loop/cycle.py:186-257 | a recovery that changes the status keeps row and venue together exactly when the whole quantity was still there and no hedge reported as refused was executed, any other exactly when nothing was executed |
| Recovery.RecoveryTriesOnce | loop/cycle.py:206-232 | on a venue that refuses repeated ids, an order one recovery sent is never executed for a later one of the row; a row refused both ways stays naked while the venue shows any of it |
| Sightings.GoneIffMissing | loop/cycle.py:164-173 | on the same replies a naked row is stale exactly when the integrity check misses its leg |
| Sightings.PresenceMeaning | loop/cycle.py:341-356 | within half the coarser lot step: spot is there when free and total add up to the quantity, the perp when the position shown is that large, long or short |
| Sightings.GoneMeaning | loop/cycle.py:164-173 | a naked row is stale exactly when its leg falls short by more than half the coarser lot step |
| Sightings.WholePositionStaysOpen | loop/cycle.py:341-379 | a venue that shows the short as minus the quantity and the spot in the wallet leaves an OPEN row as it is |
| Sightings.HeldMeaning | loop/cycle.py:188-190 | what is held is free and total of the wallet, or the size of the position, long or short |
| Sightings.HedgeBreaksEvenIff | loop/cycle.py:195-204 | at zero basis a hedge is no loss exactly when one window's funding covers both legs' fees twice, or ruin compounds |
| Sightings.PresenceIsSoundIff | loop/cycle.py:348-349 | passing the presence test means the wallet covers the quantity, at every quantity, exactly when none of it is free |
| Sightings.HalfAWalletPasses | loop/cycle.py:348-349 | an input: half the quantity, counted as free and as total, passes for the whole leg |
| Exits.StopLossIff | core/math.py:120-125 | the stop loss fires exactly when the spread has widened by the stop fraction of the spot entry price; without a quantity or spot entry price no negative stop fires, which never happens to an OPEN row |
| Exits.DecisionIff | loop/cycle.py:443-478 | the whole decision in marks, entry prices and thresholds: stop loss first, then a rise of the price ratio beyond the dislocation threshold, then a thin rate, deferred exactly above the premium limit |
| Exits.ReadingMeaning | loop/cycle.py:426-448 | with every reply in, the row takes over the funding terms and there is a reading unless the books are over 50 ms apart |
| Exits.EntryDoesNotFlap | loop/cycle.py:462-478 | no voluntary exit or deferral while nothing is worse than at a passed entry, except past ruin with even windows |
| Exits.EntryFlapsIff | loop/cycle.py:462-478 | and exactly in that exception some row and reading do flap |
| Scan.Candidates | loop/cycle.py:748-776 | the candidates are exactly the rates that pass, with the symbols derived from the perp's |
| Scan.Tier1Scan | loop/cycle.py:735-776 | the loop computes the candidates in order |
| Scan.ScanKeepsOrder | loop/cycle.py:735-776 | candidates keep the order of the rates |
| Scan.CandidateMeaning | loop/cycle.py:745-776 | a rate of BASE/QUOTE:SETTLE is a candidate exactly when the gate at 5 bps a leg and no basis reaches the threshold, for BASE, QUOTE and the spot symbol BASE/QUOTE |
| Scan.PlainCandidate | loop/cycle.py:758-760 | a symbol of one part is its own base and spot symbol, quoted in USDT |
| Symbols.SymbolParts | loop/cycle.py:758-770 | perp and spot symbols come apart into base and quote |
| Scan.PickBest | loop/cycle.py:504-516 | the first of the best candidates whose base is not held; none exactly when all are held |
| Scan.BestIsUnique | loop/cycle.py:514-516 | that choice is determined |
| EntryPlan.PlannedIffJustified | loop/cycle.py:518-602 | with all questions answered, a quantity is planned exactly when the view as a whole justifies it |
| EntryPlan.PlanMeaning | loop/cycle.py:518-602 | the plan on the replies themselves: which balance, step and fee goes where, when each stage ends it, and where the venue is then |
| EntryPlan.JustifiedFits | loop/cycle.py:536-602 | a planned order fits both depths, both reservations and the operator's share of equity at the spot mid |
| Desk.Desk.MarkClosed | loop/cycle.py:781-801 | the row closes when the event may close it; otherwise the exception and no change |
| Desk.Desk.MarkStatus | loop/cycle.py:804-811 | the row takes the next status; otherwise the exception and no change |
| Desk.Desk.IsUnderlyingGone | loop/cycle.py:164-173 | true exactly when the venue shows less of the surviving leg than the quantity less half a lot step |
| Desk.Desk.HedgeOrUnwind | loop/cycle.py:203-257 | hedge if it pays, else or if reported as refused unwind: row, trades and fills are exactly those of the answers, under the hedge and close ids |
| Desk.Desk.Unwind | loop/cycle.py:230-257 | the unwind alone: closed with its trade when reported filled, else marked |
| Desk.Desk.RecoverNakedSpot | loop/cycle.py:176-257 | for the balance and forward gate seen, tables, fills and incidents are exactly those of the recovery's answers; nothing changes when a question raises |
| Desk.Desk.RecoverNakedPerp | loop/cycle.py:260-338 | the same for a naked perp row |
| Desk.Desk.CheckHedgeIntegrity | loop/cycle.py:341-379 | afterwards the row claims exactly the legs the venue shows |
| Desk.Desk.ReconcileRow | loop/cycle.py:133-144 | a naked row is closed as stale exactly when its leg is gone |
| Desk.Desk.ReconcileStale | loop/cycle.py:131-144 | every own naked row is asked about in order, up to the first exception, and closed exactly when its leg is gone; nothing else is touched |
| Desk.Desk.CheckOpenRows | loop/cycle.py:146-150 | every own OPEN row is asked about in order, up to the first exception, and claims exactly the legs shown |
| Desk.Desk.RecoverNakedRows | loop/cycle.py:152-161 | every own naked row is recovered in order, up to the first exception; when no call raises none is left unmarked |
| Desk.Desk.PhaseASafety | loop/cycle.py:107-161 | the three passes in order, the second only when switched on, up to the first exception; in live mode, when no call raises, every own exposed row is OPEN or marked as failed to recover; in paper mode nothing happens |
| Desk.Desk.CloseLegs | loop/cycle.py:826-862 | both exit orders and what their reports make of row and trades, under the exit ids; the perp is not tried when the spot call raises |
| Desk.Desk.ClosePosition | loop/cycle.py:814-862 | the tables, the executed fills and the incidents are exactly those of the close's answers, under the exit ids |
| Desk.Desk.CloseAllForMaintenance | loop/cycle.py:382-395 | every own exposed row is sent to close in order, up to the first exception; when no call raises, every own exposed row left carries the reason |
| Desk.Desk.ReadMarket | loop/cycle.py:426-448 | funding is noted on the row, then books and fees are read, and nothing is decided on books apart in time |
| Desk.Desk.EvaluateExit | loop/cycle.py:418-478 | the row is closed exactly when the decision on the reading is to leave, and is otherwise only refreshed, whatever raises |
| Desk.Desk.PhaseBExits | loop/cycle.py:400-415 | every own row OPEN at the start is evaluated once, in id order, up to the first exception; when none is raised each is closed or marked if its reading calls for leaving and otherwise only refreshed; no other row is touched |
| Desk.Desk.PickCandidate | loop/cycle.py:492-516 | at capacity nothing is asked; else the best unheld candidate of the venue's rates |
| Desk.Desk.PlanEntry | loop/cycle.py:518-602 | the stages run in order, stopping where the specification stops |
| Desk.Desk.InsertEntry | loop/cycle.py:616-732 | a full pair opens a row with two trades, a naked leg a row with none, any other outcome nothing |
| Desk.Desk.PlaceEntry | loop/cycle.py:604-732 | tables, fills and incidents are exactly those of the protocol's answers |
| Desk.Desk.PhaseCEntries | loop/cycle.py:483-732 | nothing is asked at capacity; otherwise the best unheld candidate is planned for and, when a quantity is planned, entered for it; else nothing changes |
| Desk.Desk.RunCycle | loop/cycle.py:57-102 | the phases run in order up to the first exception; in either mode the invariant is kept whatever raises, no illegal transition or failed assertion, at most one insertion, within the limit, bases distinct |
| Desk.Desk.RunSession | loop/runner.py:210-252 | one cycle in its session; rolled back, the tables found and one incident for all it executed |
| Desk.Desk.WorkerLoop | loop/runner.py:352-394 | every round is one session on what the one before and the others left; over any run, with any commits of any other workers in between and any sessions rolled back: the invariant, closed rows final, bases distinct; and the limit for a worker alone in its mode |
| Runner.CapacityBound | loop/runner.py:352-394 | on any schedule of N workers, committed exposed rows stay within limit + N − 1, bases distinct per exchange |
| Runner.BoundIsReached | loop/cycle.py:492-496 | some schedule reaches that bound |
| Runner.LimitHoldsIffOneWorker | docs/SYSTEM.md:1020 | the limit holds on every schedule exactly with one worker |
| Workers.CycleIsSteps | loop/runner.py:352-394 | any cycle of the desk on its table is a run of its worker's own steps in the capacity model, from rest to rest, on the same exposed bases |
| PaperCycle.PlannedEntryOpens | loop/cycle.py:518-668 | on the synthetic gateway a planned entry under unused ids opens a row of the planned quantity |
| PaperCycle.PaperReplied | gateways/paper.py:80-125 | what the synthetic gateway replies to the questions of a plan: its books, its quote wallets, injected lot steps or 0.001, injected fees or the configured rate; asking changes nothing |
| PaperCycle.PaperEntriesAreWitnessed | loop/executor.py:122-165 | on the synthetic gateway no entry is lost from sight, whatever its outcome |
| PaperCycle.PhaseBClosesIff | loop/cycle.py:826-849 | on the synthetic gateway a Phase B attempt closes the row exactly when both exit ids are unused and different and both books can fill their leg |
| PaperCycle.PhaseBExitsOnce | loop/cycle.py:455-478 | after one exit attempt on a pair of symbols no later one executes anything, whatever was ordered in between and whatever the books have become |
| PaperCycle.PaperRefusesRepeats | gateways/paper.py:134-147 | the synthetic gateway is a venue that refuses repeated ids |
| RealizedPnl.FindLast | web/routes/dashboard.py:156-163 | the last trade of a venue and side, None exactly when there is none |
| RealizedPnl.RealizedTradePnl | web/routes/dashboard.py:133-169 | the loop sums the figure of the closed positions of the mode |
| RealizedPnl.FlatPnlIsCash | archive/v1.3-legacy/app/finance.py:55-77 | for any trades that leave both venues flat, the v1.3 figure before fees is their signed cash |
| RealizedPnl.MatchedMargin | archive/v1.3-legacy/app/finance.py:55-77 | one leg earns the margin between its average prices on as much as was both sold and bought |
| RealizedPnl.CleanCloseAgrees | web/routes/dashboard.py:155-168 | for a whole close, dashboard figure, cash and v1.3 figure plus fees agree |
| Ledgers.LedgerFollowsRowIff | loop/cycle.py:616-732 | in every paper run a row's signed ledger is what the row claims exactly when it was opened whole |
| Ledgers.ClosedPnlIff | web/routes/dashboard.py:145-169 | in every run the dashboard's figure for a closed row is the cash of its trades plus a stated gap: in paper mode nothing exactly when the row was opened whole, in live mode exactly when the openings moved what quantity and entry prices say, and without both exits exactly when the trades moved no cash; v1.3's before fees is that cash for paper rows opened whole and zero for the others |
| Ledgers.DashboardIsCashAndGaps | web/routes/dashboard.py:133-169 | the dashboard total of either mode is the cash of its closed positions plus what each is out by |
| Ledgers.NakedCloseIsMisbooked | loop/cycle.py:393-395 | every naked paper row that a maintenance close closes whole is misbooked, by exactly that entry |
| Ledgers.HedgedCloseIsMisbooked | loop/cycle.py:206-228 | every live row born naked, hedged whole and then closed whole has its cash less the spot entry once more, or plus the perp entry once more, as its figure |
| Ledgers.UnwoundIsMisbooked | loop/cycle.py:230-252 | every live row born naked and taken back has no figure for the cash its unwind moved |
| KucoinWallets.KucoinAccount.Transfer | gateways/kucoin.py:325-329 | one call moves the amount or nothing, and its answer may be lost either way |
| KucoinWallets.KucoinAccount.ConsolidateSpotWallets | gateways/kucoin.py:298-321 | the sweep loop equals its specification, each source on its own |
| KucoinWallets.KucoinAccount.TransferSpotToFutures | gateways/kucoin.py:323-329 | the inbound move is one transfer from main to contract |
| KucoinWallets.KucoinAccount.TransferFuturesToSpot | gateways/kucoin.py:331-362 | two hops, the second only after a confirmed first |
| KucoinWallets.CallsConserve | gateways/kucoin.py:298-362 | over any sequence of calls failing anywhere, every asset's total is conserved and no bucket is overdrawn |
| KucoinWallets.ReportedHasArrived | gateways/kucoin.py:302-321 | what a consolidate reports as swept is in trade |
| KucoinWallets.ConsolidateEmptiesMainIff | gateways/kucoin.py:303-317 | a consolidate empties main exactly when its main sweep succeeds or there was nothing to sweep |
| KucoinWallets.ConsolidateSweepsEach | gateways/kucoin.py:298-321 | main, margin and isolated are taken in turn, one venue call each: each ends empty exactly if swept, trade gains exactly what left them, and the report is the confirmed ones with their balances |
| KucoinWallets.TwoHops | gateways/kucoin.py:331-362 | what arrives in trade and what stays in main, by what became of each hop |
| KucoinWallets.StrandedFundsReturn | gateways/kucoin.py:358-362 | funds stranded in main by a lost second hop reach trade with the next consolidate whose main sweep succeeds |
| KucoinWallets.InboundAfterConsolidateIff | gateways/kucoin.py:323-329 | straight after a consolidate the inbound transfer moves funds exactly when the main sweep failed, the venue carries the transfer out and main had the amount |
| Parity.NormalizeIdempotent | scripts/diagnostics_parity.py:77-91 | normalising twice is normalising once |
| Parity.TimestampKeysGo | scripts/diagnostics_parity.py:77-91 | exactly the four timestamp keys go |
| Parity.NormalFormsDecide | scripts/diagnostics_parity.py:77-91 | normal forms are equal exactly when the trees agree up to timestamp keys at every depth |
| Parity.ListsAgreeIff | scripts/diagnostics_parity.py:80-90 | two lists normalise alike exactly when they agree position by position |
| Parity.SwapUnnoticedIff | scripts/diagnostics_parity.py:80-90 | swapping two items goes unnoticed exactly when the items agree, so nothing is sorted |
| Parity.OrderIsNoticed | scripts/diagnostics_parity.py:80-90 | an input: two orders of one pair that normalise apart |
| Parity.DiffKeys | scripts/diagnostics_parity.py:94-116 | the accumulating differ lists exactly the differences of the specification, in order |
| Parity.NoDiffsIffEqual | scripts/diagnostics_parity.py:94-116 | no differences exactly when the trees are equal |
| Parity.ParityDecides | scripts/diagnostics_parity.py:77-116 | the differ on normal forms is empty exactly when the trees agree up to timestamps |
| Parity.CountSymmetric | scripts/diagnostics_parity.py:94-116 | swapping the trees keeps the number of differences |
| Parity.DiffsAreGenuine | scripts/diagnostics_parity.py:94-116 | every reported difference is one, at the path it names |
| Parity.DivergencesAreReported | scripts/diagnostics_parity.py:94-116 | wherever two trees first part on a common path, that difference is reported |
| Lexicographic.SortedIncreases | scripts/diagnostics_parity.py:102-106 | keys are visited in strictly increasing order |

## Left out

- Rounding: floats are reals, so results that hinge on the last bit, infinities and NaN are not captured.
- Fractional window counts: an interval that does not divide the year, or is zero, is not part of the model.
- Gateways.Gateway.Place: a venue that executes part of an order or at a non-positive price is treated as having raised with nothing executed, because every fill is assumed whole and priced.
- Logs: actions, rejections, bot events and log lines are not recorded; error texts are shortened where only their presence matters.
- Sessions: the ORM, SQLite locking and migrations are reduced to tables of rows that commit or roll back as a whole after a cycle.
- Trades in the dashboard query are ordered by insertion, which is what their timestamps give unless the clock goes back.
- Venue clients, HTTP, response parsing, web pages, authentication and the test harness are I/O.
- size_sell_spot_flat_cap: nothing calls it, and it is the perp formula without the price.
- make_cycle_id: clock and randomness; a cycle id is an argument.
- Deciding that a worker may start, heartbeats, sleeping and shutting down are left to the runner's threads.
- exit_enabled and max_trades_per_day are never read by a cycle, so the model has neither.
- The rest of v1.3 (dust sweeps, quote swaps, phantom scans, xirr) is plumbing or has no provable convergence.
- Runner.CapacityBound: a worker is reduced to its exposed bases and the steps of its transaction. `Workers.CycleIsSteps` shows every cycle of `Desk` to be such steps; a cycle of `Desk` is not itself cut where other workers' commits become visible to it.
- Desk.Desk.RunCycle: all closes of one cycle share one clock reading.
- Accounts.Accounted: the venue is accounted for by what it executed for this worker. What it loses or gains otherwise (a liquidation, a withdrawal by hand) shows only as a row that Phase A restates.

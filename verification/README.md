# PgSteward in Dafny

PgSteward pools PostgreSQL connections under a budget it derives per database instance. Its central
promise is that the connections it holds on an instance never exceed that budget. No single function
enforces this: a coordinator computes grants, proxies see them late, converge their pools one by one
and report back, and the coordinator counts pessimistically in between. This project models that
protocol and the algorithms around it, and proves what they promise for every input, every run and
every reachable state.

## Layout

| file | models |
|---|---|
| `Numbers`, `Sorting`, `Keyed` | 32-bit arithmetic, sums over sequences and maps, sorting by key |
| `Claims`, `Fair`, `Allocator`, `AllocatorLaws` | the three-phase weighted max-min allocator and its laws |
| `Split` | the levelling split of a tenant's target over proxies |
| `Allocation`, `Grants` | the allocation table; the coordinator's state and its steps as functions |
| `PoolMachine`, `PoolLoops`, `SharedPool` | the pool as a machine of lock-held sections; its retry loops as functions; the pool's code |
| `Protocol`, `ProtocolSafety`, `ProtocolTheorems` | coordinator, proxies and pools as one transition system; its invariant; what it promises over runs |
| `Convergence` | a proxy's pools and its round, shown to be a run of the transition system |
| `Coordinator` | the coordinator's code, proved against the steps of the protocol |
| `Budget` | the derived budget and the sliding-window peak |
| `Listen`, `ListenText`, `ListenCase` | the LISTEN scanner; texts written out and read back by it; its indifference to case |
| `Messages`, `Relay` | messages and their trackers; one assignment of a connection |
| `Framing`, `Startup`, `Utf8` | the wire codecs |

## Main results

* **The cap.** `ProtocolTheorems.NeverAboveLargestBudget` and `NeverAboveGrowingBudget`: in every run
  that interleaves budget moves, reconciles, lagging proxies that skip generations and converge pool
  by pool, reports in flight, checkouts, pool events of every kind and drained withdrawals, the
  connections on an instance are within the coordinator's ledger, and the ledger is within the largest
  budget the instance has had. The invariant behind it is `Protocol.Inv`; its heart is the fence.
  `NeverAboveBudgetSince` and `ShrinkingSettles` say the same from any moment on, and how a budget that
  did shrink is reached again.
* **The code takes the protocol's steps.** `CoordinatorCode.InProcessCoordinator.Reconcile` computes a
  desired state that the table accepts, the protocol's `Reconcile` step allows and no policy's maximum
  forbids; `Convergence.RoundIsRun` shows the same of a proxy's round, and `SharedPool.Inner` of the pool.
* **The allocator.** An answer is characterised as a cut of one total order of tickets, which makes it
  unique; fairness, work conservation, budget and demand monotonicity and stability follow, stated on the
  minimum, maximum, weight, demand and holding of each claim.
* **Nothing asked for is lost.** `CoordinatorCode.ClaimAsksForReports`: in every run a tenant's claim asks
  for exactly what the last reports of its live proxies asked for, and `PoolMachine.NoTicketIsLost`: in
  every run each client that queued is queued still, was offered something, or gave up itself.
* **The relay.** An assignment is a run in which no byte of the client's is lost; when it ends with the
  connection to be released, the server owes no answer, the last ReadyForQuery relayed carried the byte
  for idle, and no extended message waits for its Sync; and nothing reaches the server between a refusal and its Sync.
* **The scanner.** `ListenText.ScannerReadsText` reads back any text written out from words, literals and
  comments, and `ListenCase.CaseDoesNotMatter` lets the case of letters change.
* **Exact conditions.** The concatenation law of the LISTEN scanner holds for a text if and only if
  everything its scan reads is closed; a startup request survives the wire if and only if it is well
  formed; guarantees are reported as met if and only if the budget covers them.

## Conventions

Ids, tenant names and keys are integers, since only their order and equality matter. Settings, demands,
rows and sums that saturate or could wrap are 32-bit types, with saturation written out. Other counts
are unbounded naturals, and where the source keeps them in 32 bits the bound is proved: a ledger entry
and every grant by `CoordinatorInv` and the budget, a row while it is filled by `Fair.PickKeepsFilling`,
a ticket by `Fair.ComparisonsFit`, a part of a split by its share's need. Code that updates state in
place is a class or a method with loops, proved against a function of the old state; the laws are lemmas
about those functions. The binary heap of `fill` is a set from which the least element is popped. What
the environment decides is a parameter: which queued clients are gone (`gone`), which pools somebody
holds a handle on (`handles`), which slots may not be released yet (`retained`).

## Model

| member | source | states |
|---|---|---|
| `Fair.NextIsTotalOrder` | crates/sched/src/fair.rs:57-96 | comparing tickets by cross-multiplied ratio, then by the side of what is held, then by row, is antisymmetric and transitive, and equal only for the same row, side and ratio |
| `Fair.NextOrdersRatios` | crates/sched/src/fair.rs:57-96 | a ticket comes first exactly when it leaves its row with the smaller ratio of slots to weight, as real numbers; at equal ratios the one that moves no slot, and then the earlier row |
| `Fair.PopLeast` | crates/sched/src/fair.rs:114-117 | the pop gives the one ticket that comes before all others queued |
| `Fair.ComparisonsFit` | crates/sched/src/fair.rs:65-84 | any two tickets in the heap of a fill have 32-bit counts, and the products compared fit 64 bits |
| `Fair.Rebase` | crates/sched/src/fair.rs:103-112 | every row starts the phase from what it has, and exactly the rows below their limit are queued |
| `Fair.Pick` | crates/sched/src/fair.rs:114-124 | one turn hands out one slot and keeps both the cut and the match between queue and rows |
| `Fair.Fill` | crates/sched/src/fair.rs:98-125 | the loop ends in a fill: the rows hold a cut of the ticket order, within their limits, that uses up what remains or reaches every limit; what is handed out and what is left add up |
| `Fair.CutsDoNotCross` | crates/sched/src/fair.rs:57-125 | of two cuts of one order, one is below the other everywhere |
| `Fair.FillUnique` | crates/sched/src/fair.rs:98-125 | a phase has exactly one outcome |
| `Fair.FillMonotone` | crates/sched/src/fair.rs:98-125 | a larger budget takes no slot from any row |
| `Fair.FillShape` | crates/sched/src/fair.rs:98-125 | with enough budget a phase reaches every limit, and with none left it changes nothing |
| `Fair.FillRaised` | crates/sched/src/fair.rs:98-125 | raising one row's limit or base never lowers that row's outcome |
| `Fair.FillReheld` | crates/sched/src/fair.rs:65-84 | holding what a fill handed out, the tie-break selects the same tickets again |
| `Fair.FillIsFair` | crates/sched/src/fair.rs:57-125 | a row that gained is, in proportion to the weights, at most one slot ahead of a row still below its limit |
| `Allocator.Allocate` | crates/sched/src/fair.rs:127-166 | for any claims, also with a key twice, the answer is what three fills over the claims in stable key order give, with its total and its unmet guarantees |
| `Allocator.Summarise` | crates/sched/src/fair.rs:150-165 | the map, the total and the unmet sum agree with the rows; only the unmet sum saturates |
| `Allocator.RunShape` | crates/sched/src/fair.rs:145-148 | which phase runs out of budget, and what each phase leaves in every case |
| `Allocator.RunUnique` | crates/sched/src/fair.rs:127-148 | the three phases have one outcome |
| `Allocator.RunBudgetMonotone` | crates/sched/src/fair.rs:98-148 | through all phases and base resets, a larger budget lowers no row |
| `Allocator.RunDemandMonotone` | crates/sched/src/fair.rs:98-148 | through all phases and base resets, more demand of one row never lowers that row |
| `Allocator.RunStable` | crates/sched/src/fair.rs:65-148 | running again from its own outcome settles every row exactly |
| `AllocatorLaws.WorkConserving` | crates/sched/src/fair.rs:127-166 | what is granted is the lesser of the budget and the sum over the claims of the most each can use: the lesser of demand and maximum, or what it holds beyond that and does not release; and no claim gets more than that |
| `AllocatorLaws.FieldsMean` | crates/sched/src/lib.rs:18-34 | guarantee, ceiling and what is kept, written out on minimum, maximum, demand, holding and release |
| `AllocatorLaws.SumsMean` | crates/sched/src/lib.rs:18-34 | their sums over the sorted claims are the sums over the claims as given |
| `AllocatorLaws.GuaranteesMetIff` | crates/sched/src/lib.rs:18-62 | guarantees count as met exactly when the sum of the least of minimum, demand and maximum over the claims is within the budget, and exactly when every claim gets at least the least of its own; what is reported as unmet is how far that sum passes the budget |
| `AllocatorLaws.WeightedFairness` | crates/sched/src/fair.rs:57-148 | of the whole answer, on the fields of any two claims: the share of each phase is at most one slot ahead, in proportion to the weights, of one that could take more, and nobody is above its guaranteed minimum while another is short of its own |
| `AllocatorLaws.DemandBeforeRetention` | crates/sched/src/fair.rs:145-148 | while some claim has less than the lesser of its demand and its maximum, none has more than its own, and the budget is used up |
| `AllocatorLaws.MoreBudget` | crates/sched/src/fair.rs:98-148 | a larger budget never takes a grant away |
| `AllocatorLaws.NextPick` | crates/sched/src/fair.rs:98-148 | one more slot of budget goes to exactly one claim and changes no other, exactly as long as the claims together can use it |
| `AllocatorLaws.MoreDemand` | crates/sched/src/fair.rs:98-148 | raising one tenant's demand, all else fixed, never lowers its own grant |
| `AllocatorLaws.Stable` | crates/sched/src/fair.rs:65-148 | allocating again with the first answer held raises nothing, changes nothing within demand and maximum, and releases what is beyond them by one release step where the claim may release |
| `AllocatorLaws.OrderIrrelevant` | crates/sched/src/fair.rs:128-130 | the order of the claims does not matter |
| `CoordinatorCode.ClaimBounds` | crates/sched/src/lib.rs:18-34 | neither a ceiling nor what is kept passes the policy's maximum or what is asked for or held |
| `Split.FirstMax` | crates/sched/src/split.rs:71-79 | the first of the largest values, none when all are zero |
| `Split.FindFirstMax` | crates/sched/src/split.rs:71-79 | the loop finds it |
| `Split.CutDownInPlace` | crates/sched/src/split.rs:29-37 | the loop takes one slot at a time from the share with most until the total fits |
| `Split.GiveUpToInPlace` | crates/sched/src/split.rs:47-65 | the loop gives one slot at a time to the share furthest short until nothing is left or nobody is short |
| `Split.CutDownLevels` | crates/sched/src/split.rs:29-37 | cutting is exact and level: no share ends more than one above a share that was cut |
| `Split.GiveUpToBounds` | crates/sched/src/split.rs:47-65 | giving lowers nobody, passes neither the wish nor the grant, and stops short only when every wish is met |
| `Split.GiveUpToLevels` | crates/sched/src/split.rs:47-65 | giving is level: nobody ends up more than one slot further short than a share that was given to |
| `Split.SplitIsExact` | crates/sched/src/split.rs:22-45 | exactly the lesser of the grant and the needs is handed out, no share exceeds its need, and none is short while another keeps slots beyond its demand |
| `Split.SplitMeans` | crates/sched/src/split.rs:10-45 | no more than the grant is handed out; nobody gets more than it demands, unless it may not release and held more; and if something is left over, everybody has all it demands and all it may not release |
| `Split.UsedStays` | crates/sched/src/split.rs:22-38 | as long as the grant covers what the shares hold and want, nobody loses any of that |
| `Split.ShortageLevels` | crates/sched/src/split.rs:29-38 | when the grant is short of what the shares hold and want, no share gains, and no share stays more than one above a share that lost |
| `Split.SplitIsIdempotent` | crates/sched/src/split.rs:22-45 | splitting again with its own result as what is held changes nothing, whatever shares may release |
| `Split.Split` | crates/sched/src/split.rs:22-45 | for any shares, every key gets its part of the split in stable key order, the last one's when a key comes twice |
| `Split.PairsDistinct` | crates/sched/src/split.rs:40-44 | with distinct keys every share gets its own part |
| `Split.Collect` | crates/sched/src/split.rs:40-44 | parts are paired with the keys they were computed for |
| `Allocation.Desired.GrantKeepsTotal` | crates/core/src/allocation.rs:92-100 | the running total stays the sum of the grants, its subtraction cannot underflow, and only the named holder changes |
| `Allocation.AppliedHoldsBudgets` | crates/core/src/allocation.rs:180-194 | an entry is accepted exactly when each instance's grants fit its budget, and the table keeps that for every instance |
| `GrantLedger.PublishedIsGranted` | crates/core/src/grant.rs:595-600 | a proxy is shown its own grants in the table and no others |
| `GrantLedger.RefencedAt` | crates/core/src/grant.rs:375-396 | a slot whose grant moved is stamped with the new generation and counts the larger of old count and new grant; any other is untouched |
| `GrantLedger.ReconciledAt` | crates/core/src/grant.rs:363-399 | the same of a whole reconcile, for every proxy and slot |
| `GrantLedger.ReconciledPublishes` | crates/core/src/grant.rs:370-397 | a proxy is sent a new set, under the new generation, exactly when its own grants moved |
| `GrantLedger.ReportedAt` | crates/core/src/grant.rs:510-534 | a report sets the count of a slot to the larger of grant and reported connections exactly if it was measured at or after the last change of the slot |
| `GrantLedger.RefencedForgets` | crates/core/src/grant.rs:375-396 | when grants move, a slot is forgotten exactly when it counts for nothing and is not granted |
| `GrantLedger.ReportedForgets` | crates/core/src/grant.rs:528-530 | so it is when a report is taken in |
| `GrantLedger.ReportedDemand` | crates/core/src/grant.rs:510-534 | after a report its proxy asks, in every slot, for the demand the report names, and for nothing where it names none; every other proxy, the table and the policies are as they were |
| `GrantLedger.WithdrawnForgets` | crates/core/src/grant.rs:342-351 | a withdrawn proxy asks for nothing, holds nothing and is gone; every other is as it was |
| `PoolMachine.StepCounted` | crates/core/src/pool.rs:287-296 | after any step `in_use`, `opening` and `closing` equal the live tokens they stand for |
| `PoolMachine.StepOnePlace` | crates/core/src/pool.rs:430-584 | no connection is ever in two places |
| `PoolMachine.StepIdleWithinGrant` | crates/core/src/pool.rs:430-442 | whatever is over the grant is busy or opening, never idle |
| `PoolMachine.StepInTicketOrder` | crates/core/src/pool.rs:477-499 | clients leave the queue in the order of their tickets, also when some give up; that nobody else leaves with them is `PoolMachine.WithoutOne` |
| `PoolMachine.WithoutOne` | crates/core/src/pool.rs:494-499 | giving up takes exactly the one ticket out of the queue: every other stays, nothing comes in, and the length changes only if it was there |
| `PoolMachine.NoTicketIsLost` | crates/core/src/pool.rs:444-499 | in every run, every ticket ever drawn is still queued, has been offered something, or was given up by its own client |
| `PoolMachine.OccupiedMeans` | crates/core/src/pool.rs:349-353 | in every reachable state, occupied is the idle connections plus every token: leased, on the way back, being discarded, reserved, dropped, refused, retired and not yet closed |
| `PoolMachine.DemandMeans` | crates/core/src/pool.rs:100-112 | in every reachable state, demand is the clients waiting plus everything that is with a client or on its way to one or back |
| `PoolMachine.RetiresOnlyTheExcess` | crates/core/src/pool.rs:430-442 | a convergence takes the connections idle last, exactly down to the grant, none when the pool is within it, and moves nothing that is in use, opening or waiting |
| `PoolMachine.StepNoLostWakeup` | crates/core/src/pool.rs:444-499 | with no convergence in progress, a client waits only when nothing is idle and no slot is free |
| `PoolMachine.StepKeepsInv` | crates/core/src/pool.rs:430-584 | every step of every task, rejected hand-offs included, keeps all of these |
| `PoolMachine.RunsKeepInv` | crates/core/src/pool.rs:430-584 | so they hold in every state of every run |
| `PoolMachine.NoUnderflow` | crates/core/src/pool.rs:444-447 | no decrement of a counter can underflow in a reachable state |
| `PoolMachine.OccupancyRisesOnlyIntoFreeSlots` | crates/core/src/pool.rs:349-357 | only a convergence moves the slots, and occupancy rises by one, only while below them |
| `PoolMachine.RunsStayWithinGrants` | crates/core/src/pool.rs:349-584 | in every run the connections stay within the largest grant the pool was given |
| `PoolLoops.ReleasingLeads` | crates/core/src/pool.rs:558-584 | `release` is a run of the machine's events, whoever has gone |
| `PoolLoops.ReleasingIs` | crates/core/src/pool.rs:558-584 | what it comes to: the connection is with the first client still there, else idle, or retiring exactly when idle, used and opening connections exceed the slots; everyone passed over is gone; nothing else moves |
| `PoolLoops.PassingLeads` | crates/core/src/pool.rs:526-556 | dropping a reservation is a run of the machine's events |
| `PoolLoops.PassingIs` | crates/core/src/pool.rs:526-556 | what it comes to: the slot is with the first client still there, or given up; nothing else moves |
| `PoolLoops.HandingLeads` | crates/core/src/pool.rs:449-475 | `hand_out` is a run of the machine's events, none of which moves the slots |
| `PoolLoops.HandingIs` | crates/core/src/pool.rs:449-475 | what it comes to: nobody waits who could be given something; those taken from the queue are its front, and exactly those still there have a connection or a slot; every other token is kept; connections only move from idle to in use and slots only into opening, within the grant |
| `SharedPool.Inner.constructor` | crates/core/src/pool.rs:144-163 | a new pool is the machine's initial state |
| `SharedPool.Inner.Request` | crates/core/src/pool.rs:477-492 | takes the machine's step; a client gets the connection idle last exactly when one is idle, a slot exactly when none is and one is free, and is queued last otherwise |
| `SharedPool.Inner.GiveUp` | crates/core/src/pool.rs:494-499 | answers whether the client was still queued; exactly its ticket is gone from the queue, every other ticket is there and still in order |
| `SharedPool.Inner.Retire` | crates/core/src/pool.rs:430-442 | the loop takes exactly the excess; what is retired and what stays idle are the connections there were, and nothing idle is over the grant |
| `SharedPool.Inner.Closed` | crates/core/src/pool.rs:444-447 | the closed event and a hand-out, as a run from the old state; nobody's connection or slot is lost |
| `SharedPool.Inner.HandOut` | crates/core/src/pool.rs:449-475 | the loop ends, by waiters plus idle, in the state of `HandingIs`, and the events it went through lead there from the old state |
| `SharedPool.Inner.TakeIdle` | crates/core/src/pool.rs:455-460 | the connection idle last is on its way to a client |
| `SharedPool.Inner.OfferSlot` | crates/core/src/pool.rs:461-473 | a refused slot is taken back, an accepted one stays counted; both as the machine's events |
| `SharedPool.Inner.ReleaseTurn` | crates/core/src/pool.rs:558-583 | one turn is the machine's step and leaves occupancy as it was |
| `SharedPool.Inner.Release` | crates/core/src/pool.rs:558-584 | the loop ends in the state of `ReleasingIs`, by a run from the old state; occupancy is unchanged |
| `SharedPool.Inner.DropReservation` | crates/core/src/pool.rs:526-556 | the loop ends in the state of `PassingIs`, by a run from the old state |
| `SharedPool.Inner.Fulfil` | crates/core/src/pool.rs:515-523 | opening becomes in use, occupancy unchanged |
| `SharedPool.Inner.Discard` | crates/core/src/pool.rs:286-297 | closing and then passing the slot on, by a run from the old state; only the discarded connection leaves the leased ones, and occupancy falls by one unless somebody got the slot |
| `ProtocolSafety.PoolMove` | crates/core/src/pool.rs:430-492 | what a pool does on its own cannot break a slot's invariant |
| `ProtocolSafety.SendKeepsSlot` | crates/core/src/convergence.rs:183-198 | a report measured after the convergence is one the ledger covers |
| `ProtocolSafety.LocalKeepsInv` | crates/core/src/convergence.rs:57-198 | every step of a proxy keeps the protocol's invariant |
| `ProtocolSafety.ReconcileKeepsSlot` | crates/core/src/grant.rs:363-399 | writing, fencing and publishing keeps a slot's invariant, however stale the proxy and its reports in flight |
| `ProtocolSafety.ReconcileKeepsInv` | crates/core/src/grant.rs:363-399 | and the invariant of the whole system |
| `ProtocolSafety.DeliverKeepsSlot` | crates/core/src/grant.rs:510-534 | taking a report in keeps a slot's invariant and never raises its count |
| `ProtocolSafety.DeliverKeepsInv` | crates/core/src/grant.rs:510-534 | and the invariant of the whole system |
| `ProtocolSafety.WithdrawKeepsInv` | crates/core/src/grant.rs:342-351 | forgetting a drained proxy keeps the invariant |
| `ProtocolSafety.StepKeepsInv` | crates/core/src/grant.rs:363-534 | every step of coordinator, proxies and pools keeps the invariant |
| `ProtocolTheorems.Fence` | crates/core/src/grant.rs:160-171 | a proxy that has seen a slot's last change has seen the grant the table holds |
| `ProtocolTheorems.RealWithinLedger` | crates/core/src/grant.rs:562-569 | the connections on an instance never exceed the ledger |
| `ProtocolTheorems.ReconcileAdds` | crates/core/src/grant.rs:439-450 | a reconcile raises a slot's count by exactly what the desired state lets it open beyond the ledger |
| `ProtocolTheorems.ReconcileLedger` | crates/core/src/grant.rs:410-455 | a reconcile leaves the ledger within the larger of what it was and the budget |
| `ProtocolTheorems.LedgerStep` | crates/core/src/grant.rs:363-534 | so does every step |
| `ProtocolTheorems.RunsKeepInv` | crates/core/src/grant.rs:363-534 | the invariant holds in every state of every run |
| `ProtocolTheorems.NeverAboveLargestBudget` | crates/core/src/grant.rs:363-534 | in every run the connections and the ledger stay within the largest budget so far |
| `ProtocolTheorems.NeverAboveBudgetSince` | crates/core/src/grant.rs:363-534 | from any moment at which the ledger is within the budget, connections and ledger stay within the budget in force until it shrinks, whatever happened before |
| `ProtocolTheorems.NeverAboveGrowingBudget` | crates/core/src/grant.rs:363-534 | in every run in which the budget has not shrunk, the connections are within the budget in force |
| `ProtocolTheorems.MarginAnswerIsTrue` | crates/core/src/grant.rs:277-329 | the condition a shrinking `set_margin` waits for implies that the connections are within the budget in force, then and until it shrinks again; saturation hides nothing |
| `ProtocolTheorems.HolderSettles` | crates/core/src/grant.rs:510-534 | in every run, from a report that finds a proxy within its latest grants on an instance on, and until it is sent newer ones, each of its slots there counts for no more than its grant, whatever else is reported or moves |
| `ProtocolTheorems.ShrinkingSettles` | crates/core/src/grant.rs:277-329 | in every run, once every live proxy with something in the ledger of an instance has had such a report taken in at its latest published generation, ledger and connections are within the budget the instance was last reconciled with; every other step may interleave |
| `ProtocolTheorems.TableBudgetStays` | crates/core/src/grant.rs:363-369 | which is the budget in force at that reconcile |
| `ProtocolTheorems.GenerationRises` | crates/core/src/grant.rs:370-397 | no step takes a proxy back to an older generation, and one that sends it no newer one moves none of its grants and raises none of its counts |
| `ProtocolTheorems.WantsWhatWasAsked` | crates/core/src/grant.rs:510-534 | in every run, what the coordinator takes a proxy to want in a slot is what the last report taken in from it asked for there, and nothing before the first or after its withdrawal |
| `Convergence.ResizedIsWithinGrant` | crates/core/src/pool.rs:223-231 | a pool brought to its grant has let go of exactly what it retired and opens exactly what it handed out, into free slots only; it is closing nothing, keeps idle connections only within the grant, and lets nobody wait who could be given something |
| `Convergence.RoundIsRun` | crates/core/src/convergence.rs:183-198 | a proxy's round, hand-outs included, is a run of the protocol's steps that measures its report last |
| `Convergence.PoolRuns` | crates/core/src/convergence.rs:153-158 | what a pool goes through is a run of the whole system |
| `Convergence.RoundKeepsInv` | crates/core/src/convergence.rs:183-198 | so a round, on grants however stale, keeps the protocol's invariant |
| `Convergence.ReportMeans` | crates/core/src/convergence.rs:89-104 | a report names the generation last seen and every pool; the demand of each is its waiting clients plus every token out, and its actual count everything the instance may carry for it, both capped at 32 bits |
| `Convergence.RoundReportSettles` | crates/core/src/convergence.rs:183-198 | a round appends exactly one report, under the generation of the grants it was given, which says a slot is within its grant exactly as its pool is |
| `Convergence.BringAll` | crates/core/src/convergence.rs:153-158 | every pool of the snapshot is brought to its grant; connections closed, begun and remaining add up |
| `Convergence.Retain` | crates/core/src/convergence.rs:159-167 | exactly the pools with a grant, a connection or a handle stay, so dropping pools drops no connection |
| `Convergence.ProxyPools.constructor` | crates/core/src/convergence.rs:33-38 | starts without pools |
| `Convergence.ProxyPools.Checkout` | crates/core/src/convergence.rs:57-71 | an existing pool is left alone; a new one may open nothing before a round |
| `Convergence.ProxyPools.Converge` | crates/core/src/convergence.rs:153-169 | both loops together: connections after plus those closed equal connections before plus those begun, and without grants none is begun |
| `Convergence.ProxyPools.Drain` | crates/core/src/convergence.rs:176-178 | afterwards no pool may open, none is idle, and nothing is being closed |
| `Convergence.ProxyPools.Report` | crates/core/src/convergence.rs:89-104 | the report measures every pool, opening and closing connections included |
| `Convergence.ProxyPools.Occupied` | crates/core/src/convergence.rs:109-114 | the sum over all pools |
| `Convergence.ProxyPools.Round` | crates/core/src/convergence.rs:183-188 | one turn of the loop gives the proxy state of `RoundIsRun` |
| `CoordinatorCode.ProtocolImpliesCoordinator` | crates/core/src/grant.rs:127-171 | what the coordinator's code relies on holds in every state of the protocol |
| `CoordinatorCode.SaturatingSum` | crates/core/src/grant.rs:562-569 | a saturating fold is the true sum capped once, in whatever order |
| `CoordinatorCode.OccupiedOn` | crates/core/src/grant.rs:562-569 | the ledger of an instance, saturated |
| `CoordinatorCode.ClaimOn` | crates/core/src/grant.rs:465-492 | one tenant's claim: saturated sums over its proxies, releasable unless some proxy with excess is retained |
| `CoordinatorCode.ClaimMeans` | crates/core/src/grant.rs:465-492 | a claim carries its policy's minimum, maximum and weight, the capped totals of what all live proxies ask for and are granted, and may release exactly when no live proxy granted more than it wants is retained |
| `CoordinatorCode.ClaimAsksForReports` | crates/core/src/grant.rs:457-534 | in every run, a claim asks for the capped total of what the last report of each live proxy asked for |
| `CoordinatorCode.AskingHasClaim` | crates/core/src/grant.rs:457-494 | every tenant with a policy for which a live proxy asks or holds something has a claim |
| `CoordinatorCode.ClaimsOn` | crates/core/src/grant.rs:457-494 | one claim for each tenant that asks or holds and has a policy, and no key twice |
| `CoordinatorCode.NeedsCover` | crates/core/src/grant.rs:423-437 | the proxies' needs cover both what is asked for and what is granted |
| `CoordinatorCode.SplitLosesNothing` | crates/core/src/grant.rs:417-438 | a target never exceeds the needs of the tenant's proxies, nor its policy's maximum, so the split hands all of it out |
| `CoordinatorCode.SplitTarget` | crates/core/src/grant.rs:421-438 | the parts are those of the split, cover exactly the tenant's holders and add up |
| `CoordinatorCode.PartsServeDemand` | crates/core/src/grant.rs:421-438 | no proxy gets more than it wants or already has, and none is short of what it wants while another gets more than it wants |
| `CoordinatorCode.PartsKeepUsed` | crates/core/src/grant.rs:421-438 | while the target covers what the proxies of a tenant are granted and want, no proxy loses any of that |
| `CoordinatorCode.GrantOne` | crates/core/src/grant.rs:439-450 | a part is granted at once when it is no raise, otherwise up to the headroom, which is charged what the grant adds to the ledger, and never below what the ledger counts anyway; the addition cannot wrap |
| `CoordinatorCode.GrantTenant` | crates/core/src/grant.rs:439-450 | the same over all proxies of a tenant, and nobody else of it is granted anything; a raise is held back only when no headroom is left |
| `CoordinatorCode.PlanTenant` | crates/core/src/grant.rs:420-451 | a tenant's whole target is split and granted to its holders up to the headroom, leaving other tenants alone |
| `CoordinatorCode.PlanTenants` | crates/core/src/grant.rs:418-451 | all tenants in turn out of one headroom: only holders of a part are granted anything, and what they are raised by and what is left add up to it |
| `CoordinatorCode.DesiredFor` | crates/core/src/grant.rs:412-453 | one instance's desired state fits its budget and its ledger's headroom, grants to the plan's holders alone, and follows the split of the allocator's answer |
| `CoordinatorCode.PlanFollowsTargets` | crates/core/src/grant.rs:410-455 | summed over its proxies, a tenant is granted at most its target, all of it while headroom is left, at most its policy's maximum, and nothing without a policy or without asking or holding anything |
| `CoordinatorCode.PlanRespectsPolicy` | crates/core/src/grant.rs:410-455 | so every desired state the coordinator computes keeps every tenant's policy maximum |
| `CoordinatorCode.TargetsMeetReserves` | crates/core/src/grant.rs:410-455 | when the budget covers the reserves of all tenants, every tenant's target is at least the least of its policy's minimum, its maximum and what its live proxies ask for |
| `CoordinatorCode.TargetsAreFair` | crates/core/src/grant.rs:410-455 | between any two tenants the targets are fair in the sense of `AllocatorLaws.WeightedFairness`, by the weights of their policies |
| `CoordinatorCode.DesiredState` | crates/core/src/grant.rs:410-455 | every instance has such a desired state |
| `CoordinatorCode.DesiredIsAccepted` | crates/core/src/allocation.rs:180-194 | the table accepts every desired state the coordinator computes |
| `CoordinatorCode.Refence` | crates/core/src/grant.rs:375-397 | the loop over one proxy's slots and its clean-up fence exactly the slots that moved |
| `CoordinatorCode.Publish` | crates/core/src/grant.rs:374-397 | every proxy is fenced and published to |
| `CoordinatorCode.TakeIn` | crates/core/src/grant.rs:516-530 | the loop and its clean-up take a report in slot by slot, as `GrantLedger.ReportedAt` and `GrantLedger.ReportedDemand` say |
| `CoordinatorCode.NothingMoved` | crates/core/src/grant.rs:370-372 | the early return is the general step with nothing to fence |
| `CoordinatorCode.WriteAndPublish` | crates/core/src/grant.rs:367-399 | writing the table, the early return and the publishing loop make up one reconcile step |
| `CoordinatorCode.ReconcileKeeps` | crates/core/src/grant.rs:363-399 | a reconcile keeps what the code relies on |
| `CoordinatorCode.ReportKeeps` | crates/core/src/grant.rs:510-534 | any report at all, well measured or not, keeps it |
| `CoordinatorCode.WithdrawKeeps` | crates/core/src/grant.rs:342-351 | a withdrawal keeps it |
| `CoordinatorCode.InProcessCoordinator.constructor` | crates/core/src/grant.rs:175-187 | starts with its own proxy registered |
| `CoordinatorCode.InProcessCoordinator.Channel` | crates/core/src/grant.rs:189-199 | registers a proxy once |
| `CoordinatorCode.InProcessCoordinator.SetBudget` | crates/core/src/grant.rs:210-230 | changes one budget and nothing else |
| `CoordinatorCode.InProcessCoordinator.Reconcile` | crates/core/src/grant.rs:363-399 | is a step of the protocol with a plan behind it, is never refused, and keeps every tenant within its policy's maximum |
| `CoordinatorCode.InProcessCoordinator.Write` | crates/core/src/grant.rs:367-399 | a refused entry changes nothing |
| `CoordinatorCode.InProcessCoordinator.ReportFor` | crates/core/src/grant.rs:510-534 | is a step of the protocol, for any proxy; afterwards its proxy asks in every slot for the demand reported, for nothing where none is, and every other proxy is as it was |
| `CoordinatorCode.InProcessCoordinator.WithdrawProxy` | crates/core/src/grant.rs:342-351 | is a withdrawal and a reconcile, after which the proxy is granted nothing |
| `CoordinatorCode.InProcessCoordinator.WithinBudget` | crates/core/src/grant.rs:322-329 | compares the saturated ledger with the budget in force |
| `Budget.DerivedBudgetFits` | crates/core/src/budget.rs:43-55 | budget and deductions fit `max_connections`, exactly when anything is left; a shortfall means no budget |
| `Budget.DeriveMeans` | crates/core/src/budget.rs:20-55 | the total is what is left of `max_connections` after both reserves, the foreign peak and the margin, or nothing, and the shortfall is how far they pass it; only the sum of the reserves saturates |
| `Budget.DeductionsOnlyShrink` | crates/core/src/budget.rs:30-55 | a larger peak or margin never grows the budget |
| `Budget.FrontIsPeak` | crates/core/src/budget.rs:117-139 | the front of the decreasing queue is the largest count in the window of the latest sample, whenever no sample from the first one in that window on is left behind by a later one; a clock that never goes back is enough |
| `Budget.FrontIsPeakIff` | crates/core/src/budget.rs:117-139 | at given instants the front is the window's peak, whatever the counts, if and only if that condition holds of the instants |
| `Budget.FrontMissesPeak` | crates/core/src/budget.rs:117-139 | the counts that make it wrong where the condition fails |
| `Budget.QueueOutdoes` | crates/core/src/budget.rs:117-135 | every sample still in reach is outdone by one the queue holds |
| `Budget.InOrderIsOrderly` | crates/core/src/budget.rs:117-135 | samples in the order of the clock meet the condition |
| `Budget.PeakIsUnique` | crates/core/src/budget.rs:117-139 | that largest count is determined by the samples |
| `Budget.ForeignPeak.Observed` | crates/core/src/budget.rs:120-135 | the two loops and the push keep exactly what the queue of the longer history holds |
| `Budget.ForeignPeak.constructor` | crates/core/src/budget.rs:110-115 | starts with no sample |
| `Budget.ForeignPeak.Observe` | crates/core/src/budget.rs:120-135 | the history grows by one sample, whenever it was taken, and the samples kept are its queue |
| `Budget.ForeignPeak.Peak` | crates/core/src/budget.rs:137-139 | answers the largest count in the window of the latest sample, for any history in clock order and any other that is orderly |
| `Budget.InstanceBudget.constructor` | crates/core/src/budget.rs:163-176 | starts from no sample, derived from a peak of zero |
| `Budget.InstanceBudget.Current` | crates/core/src/budget.rs:206-208 | what is in force is always derived from the largest count in the window |
| `Budget.InstanceBudget.Rederive` | crates/core/src/budget.rs:210-223 | the budget is the one derived from the window's peak, and the answer says which way the total moved |
| `Budget.InstanceBudget.Observe` | crates/core/src/budget.rs:178-181 | keeps that after a sample |
| `Budget.InstanceBudget.UpdateLimits` | crates/core/src/budget.rs:183-186 | keeps that after new limits |
| `Budget.InstanceBudget.SetMargin` | crates/core/src/budget.rs:188-191 | keeps that after a new margin; a larger margin never grows the budget and a smaller one never shrinks it |
| `Budget.InstanceBudget.WithMargin` | crates/core/src/budget.rs:197-203 | what setting the margin would leave |
| `Listen.FindEndOfWord` | crates/protocol/src/listen.rs:56-62 | the loop ends, in bounds, where the word does |
| `Listen.FindEndOfBlock` | crates/protocol/src/listen.rs:71-91 | the loop ends where the nested comment closes, or at the end of the text; the depth never underflows |
| `Listen.FindEndOfQuoted` | crates/protocol/src/listen.rs:108-123 | the loop ends where the literal closes, or at the end of the text |
| `Listen.FindEndOfTag` | crates/protocol/src/listen.rs:129-132 | the loop ends where the tag does |
| `Listen.MatchesWindow` | crates/protocol/src/listen.rs:138-141 | comparing a window with the tag is matching byte by byte |
| `Listen.FindNext` | crates/protocol/src/listen.rs:138-141 | the first occurrence of the tag, or the end of the text |
| `Listen.FindEndOfDollarQuoted` | crates/protocol/src/listen.rs:125-142 | the loops end where the dollar quote closes, or say there is none |
| `Listen.FindListen` | crates/protocol/src/listen.rs:13-50 | the cursor loop always advances and answers what the scan does; what that is of a text is `ListenText.ScannerReadsText` |
| `Listen.LexemeBefore` | crates/protocol/src/listen.rs:13-146 | what is closed in a text is read the same when a semicolon and more follow |
| `Listen.LexemeAfter` | crates/protocol/src/listen.rs:13-146 | what follows a semicolon is read as it would be alone |
| `Listen.LexemeStaysOpen` | crates/protocol/src/listen.rs:13-146 | what is left open swallows a LISTEN put behind it |
| `Listen.ConcatenationLaw` | crates/protocol/src/listen.rs:13-50 | if everything the scan of `a` reads is closed, LISTEN is found in `a;b` exactly when it is found in `a` or in `b` |
| `Listen.LawHoldsIff` | crates/protocol/src/listen.rs:13-50 | the law holds for every `b` if and only if everything the scan of `a` reads is closed |
| `Listen.LexemeEndsOnBoundary` | crates/protocol/src/listen.rs:13-146 | in well-formed text whatever the scan reads ends on a character boundary, although an escape makes it step over two bytes |
| `Listen.ScanNeverPanics` | crates/protocol/src/listen.rs:37-43 | so every word it slices out of the text starts and ends on one |
| `ListenText.ScannerReadsText` | crates/protocol/src/listen.rs:13-146 | for any text written out from white space, words, symbols, nested comments, quoted and dollar-quoted literals and semicolons that do not run into each other: LISTEN is found exactly when some statement starts with that word, every letter in either case, and whatever follows such a statement it stays found |
| `ListenText.ListenIsSeen` | crates/protocol/src/listen.rs:13-50 | the six letters in any case, at the end of the text or before a byte that is no word byte, behind white space, closed comments and closed statements, are found whatever text follows |
| `ListenText.TokenReads` | crates/protocol/src/listen.rs:13-146 | where a token stands, the scan reads it as what it is, exactly to its end, and closed |
| `ListenText.ClassesAgree` | crates/protocol/src/listen.rs:27-146 | what counts as white space, as a byte of a word and as a byte of a tag, on the characters |
| `ListenCase.CaseDoesNotMatter` | crates/protocol/src/listen.rs:13-146 | two texts that differ only in the case of letters outside dollar quotes get the same answer |
| `ListenCase.SameLexeme` | crates/protocol/src/listen.rs:13-146 | and every lexeme of theirs is of the same kind and ends at the same place |
| `Ready.ReadyTracker.constructor` | crates/protocol/src/ready.rs:34-41 | nothing outstanding, idle |
| `Ready.ReadyTracker.OnFrontend` | crates/protocol/src/ready.rs:43-62 | Query, FunctionCall and Sync are one answer more to come; an extended message opens the window and a Sync closes it; Terminate ends the session; the status stays |
| `Ready.ReadyTracker.OnBackendMessage` | crates/protocol/src/ready.rs:64-81 | a ReadyForQuery settles one answer exactly when one is outstanding and its body is one of the bytes I, T and E; the status is idle afterwards exactly when it is I; anything else changes nothing |
| `Ready.EndedIsNotReleased` | crates/protocol/src/ready.rs:43-102 | after Terminate no message from either side makes the connection releasable again |
| `Prepared.PreparedStatements.constructor` | crates/protocol/src/prepared.rs:40-45 | no statement, nothing refused |
| `Prepared.PreparedStatements.DiscardUntilSync` | crates/protocol/src/prepared.rs:50-52 | opens a refused window |
| `Prepared.PreparedStatements.OnFrontend` | crates/protocol/src/prepared.rs:54-94 | the verdict and the new set of statements; a malformed body changes nothing |
| `Relay.JudgeIsRight` | crates/protocol/src/prepared.rs:54-94 | given which statements the server holds, a message is refused as LISTEN only if it carries one, rejected only if it binds a statement not held, and forwarded only if it does neither |
| `Relay.TakeKeepsServer` | crates/core/src/relay.rs:183-212 | forwarding keeps the count of answers owed and the extended window true of what was sent |
| `Relay.TakeKeepsStatements` | crates/core/src/relay.rs:183-212 | the statement set is exactly what was parsed and not closed since, and every bind forwarded named one of it |
| `Relay.TakeKeepsClient` | crates/core/src/relay.rs:183-212 | exactly the messages between a refusal and its Sync are skipped, what was sent to the server is exactly what was judged fit to forward, and what the client is due equals what it was answered plus what is outstanding |
| `Relay.TakeKeepsVerdicts` | crates/core/src/relay.rs:183-212 | every message so far was judged right, given what had been forwarded by then |
| `Relay.TakeMeans` | crates/core/src/relay.rs:183-212 | a message ends the assignment exactly if it is Terminate; it is refused exactly if its tag is unknown, or its body malformed outside a refused window; it has to wait exactly if it is a Query that LISTENs, outside such a window, while the server owes an answer; any other is taken |
| `Relay.TakeKeepsInv` | crates/core/src/relay.rs:183-212 | one turn of the forwarding loop keeps all of these |
| `Relay.StepKeepsInv` | crates/core/src/relay.rs:81-212 | so does every step of relay and server |
| `Relay.RunsKeepInv` | crates/core/src/relay.rs:81-212 | they hold in every state of every run |
| `Relay.ReleaseIsSafe` | crates/protocol/src/ready.rs:64-102 | in every run, the tracker allows release exactly when the server owes no ReadyForQuery, as many were relayed as were called for, the body of the last one relayed is exactly the byte I if there was any, and no extended message was sent since the last Sync |
| `Relay.StatusIsSaid` | crates/protocol/src/message.rs:104-132 | a status is read exactly from the one-byte bodies I, T and E, as idle, in a transaction and failed |
| `Relay.RepliesArriveInOrder` | crates/core/src/relay.rs:133-152 | in every run, what was relayed and what is still to be relayed are, in order, exactly the replies the server sent |
| `Relay.NothingFollowsRelease` | crates/core/src/relay.rs:126-132 | after such a release nothing the server does on its own brings a ReadyForQuery |
| `Relay.NoUnexpectedReady` | crates/protocol/src/ready.rs:64-80 | a server that answers at most once per message that calls for it never trips the tracker |
| `Relay.NothingBetweenRefusalAndSync` | crates/protocol/src/prepared.rs:54-66 | what was sent to the server is what was forwarded before the refusal and what was forwarded after its window so far, with nothing in between |
| `Relay.ClientIsAnswered` | crates/core/src/relay.rs:183-212 | in every run the client is due what it was answered plus what is outstanding, a refused LISTEN query is answered only after everything before it, and every forwarded bind names a statement the server holds |
| `Relay.ForwardRequests` | crates/core/src/relay.rs:165-217 | on bytes: the frames taken, those only read, and the rest are exactly what was waiting; the loop stops only at an incomplete, held, malformed, refused or terminating message, and a batch with a malformed or refused one is only read: nothing of it is taken |
| `Relay.RelayReplies` | crates/core/src/relay.rs:133-152 | relays the replies as they came, in order, up to the first boundary where release is allowed and safe, which is a ReadyForQuery with the body I; leaves what follows unread; and fails only at a ReadyForQuery whose body is not one of the bytes I, T and E |
| `Relay.RelayAllKeepsInv` | crates/core/src/relay.rs:133-152 | relaying any number of replies keeps the invariant |
| `Relay.TakeAllKeepsInv` | crates/core/src/relay.rs:183-212 | any number of turns keep the invariant |
| `Relay.ServeAssignment` | crates/core/src/relay.rs:81-125 | over any sequence of happenings, what it does is a run of the session in which the server does what they say, the client's bytes are the messages taken, in order, and those left pending, and every reply that could be read has been relayed; every way it ends is justified: released, or closed with release allowed, only when the server is safe to give to another client; it never waits past a boundary, and no reply before its last step reached one |
| `Relay.Happen` | crates/core/src/relay.rs:103-122 | one event of its loop, as part of that run; readable replies are relayed |
| `Relay.Forwarding` | crates/core/src/relay.rs:92-101 | forwarding, as part of that run, with the ends it brings; a batch it fails on leaves the session as it was |
| `Relay.Relaying` | crates/core/src/relay.rs:113-121 | relaying, as part of that run; replies it fails on leave the session as it was |
| `Relay.TakeAllOnlyOwes` | crates/protocol/src/ready.rs:43-102 | taking messages never makes a connection releasable that was not |
| `Framing.I32OfPut` | crates/protocol/src/framing.rs:23-28 | a big-endian 32-bit integer reads back, negatives included |
| `Framing.PutOfI32` | crates/protocol/src/framing.rs:73-90 | and any four bytes write back |
| `Framing.FrameBytes` | crates/protocol/src/framing.rs:23-28 | on the wire a frame is its tag, its big-endian length with the four length bytes included, and its body |
| `Framing.DecodeFrameMeans` | crates/protocol/src/framing.rs:30-90 | by the length announced: incomplete while header or body is, an error below four and above the limit, and otherwise tag, body and rest |
| `Framing.StartupFrameBytes` | crates/protocol/src/framing.rs:44-48 | a startup frame is the same without a tag |
| `Framing.DecodeStartupMeans` | crates/protocol/src/framing.rs:50-90 | and is read the same way, with a length of at least eight |
| `Framing.DecodeOfEncode` | crates/protocol/src/framing.rs:23-42 | a frame decodes to itself and leaves what follows unread |
| `Framing.DecodeOfEncodeStartup` | crates/protocol/src/framing.rs:44-67 | the same of a startup frame |
| `Framing.EncodeOfDecode` | crates/core/src/relay.rs:226-231 | putting a decoded frame back restores the exact bytes |
| `Framing.DecodeIsStable` | crates/protocol/src/framing.rs:30-42 | more input never changes what was decoded or refused |
| `Framing.ChunksDoNotMatter` | crates/protocol/src/framing.rs:30-42 | decoding chunk by chunk equals decoding the whole |
| `Framing.StreamRoundTrip` | crates/protocol/src/framing.rs:23-42 | any frames, encoded, cut anywhere and decoded as they arrive come out as they went in, with nothing left |
| `Framing.NothingIsLost` | crates/protocol/src/framing.rs:30-42 | at any point the frames decoded and the bytes kept are exactly the bytes received |
| `Framing.Buffer.Encode` | crates/protocol/src/framing.rs:23-28 | appends the encoding |
| `Framing.Buffer.Decode` | crates/protocol/src/framing.rs:30-42 | consumes a whole frame or nothing |
| `Framing.Buffer.Hold` | crates/core/src/relay.rs:226-231 | puts the frame ahead of what is waiting |
| `Utf8.FirstNul` | crates/protocol/src/startup.rs:218-228 | the first zero byte, none when there is none |
| `Utf8.NulAfterText` | crates/protocol/src/startup.rs:218-233 | text without a zero byte is found whole before its terminator |
| `Utf8.AfterAscii` | crates/protocol/src/listen.rs:38-39 | in well-formed text a character starts after every ASCII byte |
| `Utf8.EncodedIsValid` | crates/protocol/src/startup.rs:218-228 | what is encoded from scalar values, surrogates excluded, is valid text |
| `Utf8.ValidIsEncoded` | crates/protocol/src/startup.rs:218-228 | and all valid text is such an encoding, so overlong forms, surrogates and anything beyond the last code point are refused |
| `Messages.TagsMean` | crates/protocol/src/message.rs:77-92 | the letter of every message a client sends, and that no other byte is one |
| `Messages.QueryMeans` | crates/protocol/src/frontend.rs:71-74 | a Query is read as a text exactly when it starts with that text, valid and without a zero byte, and a zero byte |
| `Messages.ParseMeans` | crates/protocol/src/frontend.rs:76-84 | a Parse is read as name and text exactly when its body is the name, a zero byte, the text, a zero byte and anything |
| `Messages.BindMeans` | crates/protocol/src/frontend.rs:86-94 | a Bind is read as naming a statement exactly when its body is a portal name, a zero byte, that statement, a zero byte and anything |
| `Messages.CloseMeans` | crates/protocol/src/frontend.rs:96-113 | a Close is read as naming a statement exactly when its body is the letter S, the name, a zero byte and anything, and a portal with the letter P |
| `Startup.ReadParameters` | crates/protocol/src/startup.rs:198-216 | the loop over the shrinking slice answers what the recursive reading does, errors included |
| `Startup.DecodeOfEncode` | crates/protocol/src/startup.rs:121-173 | every well-formed request decodes to itself |
| `Startup.RoundTripIff` | crates/protocol/src/startup.rs:121-233 | a request survives the wire if and only if its version is 3.x, its names are not empty, and names and values are text without a zero byte |
| `Startup.WireRoundTripIff` | crates/protocol/src/startup.rs:121-173 | written as a frame and read back with anything behind it, a request comes out as it went in with the rest unread, if and only if it is well formed |
| `Startup.EncodeOfDecode` | crates/protocol/src/startup.rs:121-233 | every accepted packet is the encoding of what it means |
| `Startup.RequestBytes` | crates/protocol/src/startup.rs:7-173 | the bytes of each request: the codes of SSL, GSSENC and cancel requests, the version, and the terminated names and values |
| `Startup.RefusalsMean` | crates/protocol/src/startup.rs:121-196 | on the bytes of any packet not of version three: whether it is malformed, of an unknown code or of an unsupported version, and with which code or version it is refused |
| `Startup.ParameterErrorsMean` | crates/protocol/src/startup.rs:198-228 | parameters that are not terminated, that go on behind their terminator, or whose last name or value is not terminated are malformed, and a terminated name or value that is no UTF-8 is invalid |
| `Startup.ErrorsSurface` | crates/protocol/src/startup.rs:198-216 | behind any well-formed parameters, such an error is the answer |

## Left out

- Sockets, TLS, SCRAM, the metrics and console front ends, configuration files and process start-up: input, output and presentation.
- Clocks. The coordinator's release delay (`idle_since`, `may_release` in grant.rs) is the parameter `retained`; nothing proved depends on it.
- Policy resolution and the admin grammar: policies are a map from slots to minimum, maximum and weight. The check of `set_margin` and `set_tenant` that minimums fit the budget is not modelled, since it only refuses a setting.
- `ClientLimit`, the cancel registry, metrics counters (`opened`, `opened_by_dropped`) and `Welcome`: single-branch facts.
- Cancelling a future in the middle of a `close`: closes run to their end. An abandoned open is a dropped reservation.
- What PostgreSQL itself counts: "connections" means the pools' `occupied`, which still counts connections opening and closing.
- Agreement of the LISTEN scanner with PostgreSQL's lexer: the laws are the scanner's own, and the tokens of `ListenText` are its lexemes. A text that ends inside a literal or comment is covered by `Listen.LawHoldsIff`, not by `ListenText`.
- Refused windows that span two assignments, and the order of a refused Bind's or Parse's error against answers in flight: the statement set lives for one assignment, and only a refused LISTEN query is held back.
- Generations, tickets, the tracker's outstanding count and the pool's counters are unbounded: 64-bit, or far from their bound.
- The laws of the allocator by key (`AllocatorLaws`) are about claims with distinct keys, the only ones the coordinator makes (`CoordinatorCode.ClaimsOn`); what becomes of a key that comes twice is stated by `Allocator.Allocate` alone.
- Fair.PopLeast: the heap is a set with the least element popped; the layout of the heap is not modelled, and cannot show in the result since tickets of one queue never compare equal.
- CoordinatorCode.DesiredState: instances are visited in any order rather than by name, which cannot show in the result because each instance is planned by itself.
- CoordinatorCode.InProcessCoordinator.SetBudget: does not check the minimums, and stands for `add_instance`, `observe_instance` and `set_margin` as far as the total they leave; how a total is derived is `Budget`.
- Convergence.BringAll: the pools are brought to their grants without other tasks in between; every interleaving with them is in the transition system of `Protocol`.
- Convergence.ProxyPools.Converge: the same.
- Convergence.ProxyPools.Drain: the same; a client that releases in between leaves a connection to be closed by the next round.
- Convergence.ProxyPools.Report: all pools are measured at one instant, as in the protocol's step `Send`, where the source locks one after the other; the protocol's invariant is slot by slot, so no pool's measurement bears on another's.
- Convergence.ProxyPools.Occupied: the same, for the sum.
- Convergence.ProxyPools.Round: the same.
- PoolLoops.ReleasingIs: the outcome of a retry loop is stated for turns between which no other task takes the lock; every interleaving of the turns is a run of `PoolMachine`, and its invariants hold there.
- PoolLoops.PassingIs: the same.
- PoolLoops.HandingIs: the same.
- SharedPool.Inner.Release: the same.
- SharedPool.Inner.DropReservation: the same.
- SharedPool.Inner.Discard: the same.
- SharedPool.Inner.HandOut: the same.
- SharedPool.Inner.Closed: the same.
- Convergence.ResizedIsWithinGrant: the same, between a pool's retire, its closes and its hand-outs.
- Relay.ServeAssignment: what the refusals say (the error responses sent to the client) is not modelled, only that and when a ReadyForQuery is sent.
- Budget.ForeignPeak.Peak: promises the window's peak for orderly samples only, which is exactly when it holds for all counts (`Budget.FrontIsPeakIff`); the source's instants are monotonic.

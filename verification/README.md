# Verified model of the trading bot's protocols and bounded algorithms

This project models the stateful core of a Solana paper-trading bot and proves what its design relies on.
Several independent processes (monitor, risk loop, observer, dashboard) share JSON documents through one
lock / reread / compare / replace protocol; every other component is a mutator of such a document, a breaker
or router in front of remote providers, or a bounded data structure that must agree with the unbounded
history it summarizes.

How the modules build on each other:

- `StateStore` proves the file protocol for any number of processes that may time out, fail or die between any
  two steps. It is generic in the document; `IntervalClaims` and `StoredLedger` instantiate it.
- `PaperLedger` is the trading ledger: a class updated in place, each method proved equal to a function on the
  document value. `TradeReplay` is the dashboard's event fold. `LedgerAccounting` carries the invariant of every
  run, `LedgerTheorems` states what follows from it, `PositionHistory` what an open position remembers of its
  sales and which mutator moves which field, `ExitProtocol` interleaves any number of processes that hold
  quotes between a claim and its sale, `ExitDecisions` says why a sale happened, `ExitClaims` what becomes of a
  claim nobody finishes, `ProtocolAccounting` joins protocol and accounting, `TradeTelemetry` is the record written
  at close.
- `RpcCircuit` is the state of one provider (a shared breaker and one per heavy method), `RpcRouter` the failover
  loop and the delays.
- `ObservationStore` is the observation document and its writers, `ArchiveDrain` the archive beside it,
  `ObservationRules` their rules in plain numbers, `DueSelection` the scheduler, `ObserverLoop` the tick that connects
  document and scheduler across lock timeouts, `SampleFates` what becomes of every pair a tick scans.
- `PhaseTelemetry`, `TelemetryFlush` and `TelemetryContexts` are the telemetry of phases and memory;
  `FailureSnapshots`, `SnapshotRules`, `SnapshotRecorder` and `SnapshotLoss` the snapshots of memory failures.
- `BackupRetention`, `ArchiveScan`, `WhaleGate`, `SignatureWindow`, `Allowlist` with `AllowlistEquality`, and
  `NameStatusParser` with `PathRules` are self-contained.

Conventions. Ids, mints, signatures and file names are numbers that are only compared (file names and observation
ids also ordered). Clocks, quotes, lock grants, disk failures and what other processes do are parameters. Amounts
are unbounded integers as in Python, and floor division is on non-negative operands only. Times are reals.
Floating-point values that only take part in comparisons are reals.

Where the code does not do what its text suggests, the model follows the code and a lemma says exactly when:

- The duplicate-signature guard of a buy reads the stored events only, so 2,000 rejected signals later the same
  signature is bought again (`DuplicateRefusedExactlyWhileStored`, `SameSignatureBoughtTwice`).
- A process that dies between claiming an exit and selling leaves the position in `EXIT_PENDING` for ever, exactly when
  no other process can act on that claim (`CrashLeavesClaimStuckExactlyWhen`). Selling half of a live position of one
  unit ends the same way without a crash (`EmptyHalfExitIsACrash`).
- `EXIT_PENDING` does not go with the pending id: late quote failures overwrite it, and nothing else does
  (`StateLeavesClaimExactlyWhen`). A second process then claims, and the first claim is dead from there on
  (`SecondClaimExactlyWhen`, `ClaimIsReplaceableExactlyWhen`, `LostClaimNeverSells`).
- `claim_global_interval` keeps its distance exactly as long as nobody stores a smaller time under its key by a plain
  metric write (`CloserClaimExactlyWhen`, `TwoClaimsAtOnce`). The repository has no such writer of the key in use.
- A half-open breaker is closed by every outcome that is not its probe's own transient failure or the third in a row,
  those of older calls included (`OutcomeOpensExactlyWhen`, `StrayFailureClosesBreaker`); a cooldown of 60 s holds
  exactly while no such outcome arrives (`CooldownHoldsExactlyWhen`).
- With fewer attempts than providers some environment starves a provider (`NoStarvationExactlyWithinBudget`).
- Shadow side effects run after the sample commit. When they time out, the retried batch stores nothing and emits
  nothing (`RetriedBatchChangesNothing`). An old batch entry counts again exactly when its observation was restarted
  (`SettledUntilRestarted`, `RetriedSampleCountsTwice`).
- The archive keeps the first record of an observation, and its mark survives a restart. What a restarted observation
  collects is dropped without being archived (`DroppedSamplesAreArchived`, `RestartedSamplesAreLost`).
- Merging a failed telemetry batch back sets the last metadata back and gives tied peaks the newer context
  (`MergeBackIsExactExactlyWhen`).
- A retention run that dies between removing a directory and its marker stops all later retention
  (`DeathBeforeTheMarkerBlocksRetention`).
- A process row that was dropped from the memory-failure document and comes back starts with empty slots. Its slots are
  behind what was once flushed exactly when a dropped row held something fresher (`SlotCoversEverythingExactlyWhen`,
  `ComebackLosesCriticalSlot`).

## Model

| member | source | states |
|---|---|---|
| StateStore.FileIsFoldOfCommits | src/state_store.py:219-271 | For any number of processes and any interleaving of acquire, time out, reread, mutate, write, fail, replace, release and die, the file is the fold of the committed calls in commit order and the version counts them: no update is lost |
| StateStore.ExpectedVersionWasCurrent | src/state_store.py:219-271 | A commit that named an expected version was made on exactly that document, still current at the replace |
| StateStore.AnswersTellTheTruth | src/state_store.py:274-313 | A call commits at most once, and a caller that got an answer was told it wrote exactly when its commit is in the log |
| StateStore.CallRuns | src/state_store.py:274-296 | A call that expects no version or the current one and whose mutator writes runs from its lock to its unlock whenever the lock is free, and commits what the mutator wrote under the next version |
| StateStore.QuietCallRuns | src/state_store.py:219-313 | A call that does not write leaves the file alone; it is told that there was nothing to do exactly when its mutator left the document, and otherwise that it failed |
| StateStore.StateFile.constructor | src/state_store.py:274-296 | A missing file reads as the caller's default document |
| StateStore.StateFile.Transact | src/state_store.py:274-313 | One call: the file becomes exactly the call's outcome with the next version, or keeps its content when the lock times out, the version differs, the mutator raises, a migration is idle or the write fails; each case has its own answer |
| IntervalClaims.SuccessfulClaimsAreSpaced | src/state_store.py:518-547 | In every run of the store, two successful claims of one key by any processes are at least the later claim's interval apart, unless a plain metric write between them stored a time below the earlier claim |
| IntervalClaims.StoredTimeOnlyFallsByWrite | src/state_store.py:518-547 | After a successful claim the stored time is at or above it unless a plain write stored less in between, however many commits follow |
| IntervalClaims.CloserClaimExactlyWhen | src/state_store.py:518-547 | After a successful claim some later claim can be granted closer than its own interval exactly when the stored time is below the claimed one, which takes a plain write of a smaller time since |
| IntervalClaims.SmallerWriteLetsClaimIn | src/state_store.py:486-515 | Any run with a successful claim and a free lock can be continued by one plain write of a smaller time and one claim so that two claims are too close |
| IntervalClaims.TwoClaimsAtOnce | src/state_store.py:486-547 | From an empty metrics file: a run of the store that ends with two successful claims at the same time |
| StoredLedger.StoredLedgerIsARun | src/state_store.py:274-296 | The ledger file after any run of the store is the run of the committed ledger mutators in commit order, so each mutator may be treated as atomic |
| PaperLedger.LedgerFile.constructor | src/risk_manager.py:152-161 | The empty ledger: 10 SOL of paper cash, no position, no event, next number 1 |
| PaperLedger.LedgerFile.RecordPaperBuy | src/risk_manager.py:396-548 | All seven refusals in order, or the cash is debited, the position created with its round index and one BUY event logged; nothing else changes |
| PaperLedger.LedgerFile.PreviousRound | src/risk_manager.py:462-469 | The highest round among the stored BUY events of the mint |
| PaperLedger.LedgerFile.Append | src/risk_manager.py:164-167 | The event gets the next number and goes to the end of the log |
| PaperLedger.LedgerFile.RecordPaperRejection | src/risk_manager.py:551-578 | One rejection event, then the stored list is cut to its last 2,000 |
| PaperLedger.LedgerFile.RecordRpcSkip | src/risk_manager.py:581-612 | One skip event, then the stored list is cut to its last 2,000 |
| PaperLedger.LedgerFile.ClaimPositionExit | src/risk_manager.py:615-642 | The claim is taken exactly when the position id matches and it is not already exit-pending; it returns the amount held |
| PaperLedger.LedgerFile.ReleaseExitClaim | src/risk_manager.py:645-666 | Only the holder of the pending exit id releases, back to normal or degraded |
| PaperLedger.LedgerFile.RecordPaperSell | src/risk_manager.py:669-803 | A sale commits exactly when position id and pending exit id match; amount clipped to what is held, cost released by floor division, cash credited, position removed when nothing is left. Which sale sets which flag is stated by `PositionHistory.FlagsFollowTheLog`, which field any mutator may move by the lemmas beside it |
| PaperLedger.LedgerFile.CommitSale | src/risk_manager.py:698-771 | The three document changes of a committed sale: cash, position, one SELL event with its profit and its reason |
| PaperLedger.UpdatedBySale | src/risk_manager.py:705-736 | The remaining position: amount, cost, proceeds, claim cleared; the first four take-profit reasons set the first flag, restart the trailing peak and set the floor, the two 100% reasons set the second flag, all others neither (`PositionHistory.FlagsFollowTheLog`, `PositionHistory.PeaksMove`) |
| PaperLedger.LedgerFile.RecordPositionMark | src/risk_manager.py:806-848 | Peaks only rise, the quote gap decides degraded, and an exit-pending position keeps its state |
| PaperLedger.LedgerFile.RecordQuoteFailure | src/risk_manager.py:917-951 | The failure count rises and decides the risk state, whatever claim is pending |
| PaperLedger.LedgerFile.RecordLiveTransactionLifecycle | src/risk_manager.py:851-881 | One lifecycle event per status, positions untouched |
| TradeReplay.PositionTradeGroups | src/dashboard.py:1003-1096 | The displayed groups are those of the fold over the given events, live ones overridden from the positions |
| TradeReplay.FoldEvents | src/dashboard.py:1024-1082 | The loop over the events computes the fold |
| TradeReplay.FoldEvent | src/dashboard.py:1025-1082 | One event: a BUY opens a group, a SELL updates the live group of its position, the others change nothing |
| TradeReplay.AddExit | src/dashboard.py:1055-1078 | One exit: amount and realized cost with their clamps, proceeds, profit, exit count |
| TradeReplay.TruncationKeepsYoungerGroups | src/dashboard.py:1024-1082 | Folding a suffix of the log gives exactly the younger groups of the full fold |
| LedgerAccounting.EmptyBookIsValid | src/risk_manager.py:152-161 | The empty ledger satisfies the accounting invariant |
| LedgerAccounting.SaleKeepsSandwich | src/risk_manager.py:698-706 | Floor division of the cost keeps E·a ≤ r·A ≤ E·a + k·A, with k one higher after a partial sale |
| LedgerAccounting.BuyKeepsValid | src/risk_manager.py:460-531 | A buy with a fresh id keeps the invariant: log, cash, break-even bounds, agreement with the replay |
| LedgerAccounting.SellKeepsValid | src/risk_manager.py:689-771 | A sale keeps the invariant |
| LedgerAccounting.SaleKeepsReplay | src/dashboard.py:1050-1082 | After a sale the group of the position still matches it and no clamp bites |
| LedgerAccounting.SaleKeepsCash | src/risk_manager.py:698-716 | Cash plus remaining costs minus booked profit is unchanged by a sale |
| LedgerAccounting.TouchKeepsValid | src/risk_manager.py:806-848 | Marks, claims and failures may change only fields the accounting does not read |
| LedgerAccounting.StepKeepsValid | src/risk_manager.py:396-951 | Every legal mutator keeps the invariant |
| LedgerAccounting.RunKeepsValid | src/risk_manager.py:396-951 | Every legal run of mutators keeps the invariant |
| LedgerTheorems.CashIsConserved | src/risk_manager.py:460-755 | Cash plus the remaining costs of open positions equals initial cash plus all profit ever booked, cash is never negative, event numbers strictly increase below the next number in spite of truncation |
| LedgerTheorems.ReplayReconstructsLedger | src/dashboard.py:1024-1082 | Replaying the untruncated log rebuilds every open position, no clamp bites, a group is drained exactly when its position left the ledger, and a drained group's profit is proceeds minus cost |
| LedgerTheorems.GroupsStayDistinct | src/dashboard.py:1028-1047 | Two groups never share a position id |
| LedgerTheorems.DashboardShowsLedger | src/dashboard.py:1024-1096 | From the stored events and positions alone the dashboard shows the newest groups of the full replay unchanged |
| LedgerTheorems.RemainingCostNearBreakEven | src/risk_manager.py:114-136 | The remaining cost is at least the ceiling-based break-even value and at most one unit per sale above it |
| LedgerTheorems.BreakEvenFloorProtects | src/risk_manager.py:698-734 | Selling the rest for at least the stored floor closes the trade without loss, and the profit of all legs is proceeds minus entry cost |
| LedgerTheorems.TakeProfitFloorIsExact | src/risk_manager.py:717-734 | Right after the first take-profit the floor is exactly the break-even amount |
| LedgerTheorems.DuplicateRefusedExactlyWhileStored | src/risk_manager.py:452-459 | The duplicate-signature guard refuses exactly while the earlier BUY is among the stored events |
| LedgerTheorems.SameSignatureBoughtTwice | src/risk_manager.py:551-578 | Concrete run: buy, sell out, 2,000 rejections, and the same signature is bought again as round 1 |
| PositionHistory.FlagsFollowTheLog | src/risk_manager.py:717-736 | In every legal run an open position has `takeProfitDone` exactly when the log holds a SELL of its id with reason TakeProfit50, LiveTakeProfit50, RouteBTakeProfit30 or TakeProfit30Sell80, and `secondTakeProfitDone` exactly when one with TakeProfit100 or LiveTakeProfit100; its proceeds are those of its sales, its floor what was missing after the latest first take-profit, and its entry that of its BUY |
| PositionHistory.RunRemembers | src/risk_manager.py:396-951 | The same for all positions through any legal run from any sound ledger |
| PositionHistory.LeavesExactlyWhenSoldOut | src/risk_manager.py:756-774 | A position leaves the ledger by an accepted sale of all that is left and by no other mutator, and no mutator swaps its id |
| PositionHistory.AmountsMoveBySalesOnly | src/risk_manager.py:698-706 | Amount and remaining cost move by accepted sales only, and entry data by nothing |
| PositionHistory.ClaimMovesByThree | src/risk_manager.py:615-716 | The pending exit id is taken by a granted claim, cleared by its holder's release and by an accepted sale, and by nothing else |
| PositionHistory.RiskStateMoves | src/risk_manager.py:615-951 | The risk state after any mutator: claims, sales, releases, marks and late quote failures decide it, in numbers |
| PositionHistory.QuotesMove | src/risk_manager.py:806-951 | A mark resets the failure count and dates the success, a failure counts one, nothing else touches them |
| PositionHistory.PeaksMove | src/risk_manager.py:717-848 | Peaks rise by marks only, the trailing one only after the first take-profit, which restarts it at 0 |
| PositionHistory.BuyExactlyWhen | src/risk_manager.py:396-459 | Which of the seven refusals a buy gets, in the order of the code, and that a refused one changes nothing |
| PositionHistory.BuyOpens | src/risk_manager.py:460-531 | An accepted buy debits its cost, opens exactly one position with these fields, and logs one BUY under the next number |
| PositionHistory.RoundFollowsTheHighest | src/risk_manager.py:462-469 | The round of a buy is one above the highest stored round of its mint |
| PositionHistory.CapacityIsKept | src/risk_manager.py:432-447 | Over any run whose buys of a strategy carry a capacity, no more positions of it are ever open |
| PositionHistory.SignalsAreLoggedOnce | src/risk_manager.py:551-612 | A rejected or skipped signal is logged once while stored, and the list is cut to its last 2,000 |
| PositionHistory.StatusesAreLogged | src/risk_manager.py:851-881 | The statuses of a transaction are logged one by one under consecutive numbers, for the position held only |
| ExitProtocol.SaleIsExact | src/risk_manager.py:1000-1057 | What a claim holder asks for never exceeds what its claim returned, so the `min` does not clip |
| ExitProtocol.StepKeepsInv | src/risk_manager.py:954-1150 | Every step of every process keeps: unique pending ids, claims still match their positions, amounts computed from the claim, past sales exact |
| ExitProtocol.EachClaimSellsAtMostOnce | src/risk_manager.py:1005-1015 | In every interleaving an exit id commits at most one sale, of what its own claim returned: everything for stops and manual closes, half for a live take-profit, 80% for a paper one, rounded down |
| ExitProtocol.PaperDecisionExactlyWhen | src/risk_manager.py:1095-1141 | In whole lamports: before the first take-profit a stop at 85% (route B 90%) of the remaining cost or less and a take-profit from 130%, after it only a stop at half of a peak already seen |
| ExitProtocol.LiveDecisionExactlyWhen | src/risk_manager.py:1181-1196 | The live stop at 85%, first take-profit from 130% and second from 200%, each only while its flag allows |
| ExitProtocol.ClaimLeadsTo | src/risk_manager.py:1000-1030 | A granted claim is quoted with a positive amount, a stop only for the amount it was decided on, or is given back; a refused one changes nothing |
| ExitProtocol.DeadClaimNeverSells | src/risk_manager.py:689-703 | Once an issued exit id is pending nowhere, no later step makes it pending again and no sale with it is ever accepted |
| ExitProtocol.ClaimEndsForGood | src/risk_manager.py:615-696 | A pending claim stays pending on the same position, or its id is dead from then on |
| ExitProtocol.LostClaimNeverSells | src/risk_manager.py:689-699 | In every run, a claim whose position shows another pending exit, was bought again under another id or is gone never sells anything afterwards |
| ExitProtocol.CommitSucceedsExactlyWhenPending | src/risk_manager.py:689-701 | A holder's sale goes through exactly when its exit id is the pending one of its own position and the amount is positive; a refused one leaves the ledger as it was, and only a manual close then releases its claim |
| ExitClaims.StuckForeverExactlyWhen | src/risk_manager.py:615-666 | A claimed position keeps its amount, cost, state and claim in every continuation exactly when no process holds the claim and none is about to report a failed quote of this position |
| ExitClaims.CrashLeavesClaimStuckExactlyWhen | src/risk_manager.py:963-1057 | A process that dies leaves the position stuck in every continuation exactly when no other process can act on that claim |
| ExitClaims.EmptyHalfExitIsACrash | src/risk_manager.py:1202-1232 | Half of a live position of one unit is nothing: the sale is refused, its answer ignored, and the world is the one after a crash of the holder |
| ExitClaims.StateLeavesClaimExactlyWhen | src/risk_manager.py:917-951 | A pending claim loses its EXIT_PENDING by a quote failure that is the third in a row or ten seconds late, and by no other step of any process |
| ExitClaims.SecondClaimExactlyWhen | src/risk_manager.py:621-635 | While a claim is pending another one is granted exactly when the state was overwritten, and it replaces the first |
| ExitClaims.ClaimIsReplaceableExactlyWhen | src/risk_manager.py:615-642 | Some continuation replaces a pending claim by another one exactly when a process other than its holder is about to report a failed quote of this position |
| ExitClaims.ReplaceableClaimIsReachable | src/risk_manager.py:917-951 | Such a claim is reached by a buy, an evaluation waiting for its quote and a manual close |
| ExitClaims.StuckClaimIsReachable | src/risk_manager.py:615-642 | A claimed position from which nobody can ever move is reached by a buy, a manual close and its death before the quote |
| ProtocolAccounting.StepRunsOneOp | src/risk_manager.py:615-803 | Every protocol step runs at most one ledger mutator |
| ProtocolAccounting.InterleavingsKeepAccounting | src/risk_manager.py:615-803 | Cash, break-even bounds, numbering and replay agreement survive every interleaving |
| ProtocolAccounting.ReachableWorldsBalance | src/risk_manager.py:615-803 | From the empty ledger, every reachable world conserves money and agrees with the replay |
| ExitDecisions.EverySaleWasCalledFor | src/risk_manager.py:1000-1196 | In every interleaving each sale is a manual close or was called for by a quote of a position read under its id, at the bound and with the flags its reason stands for; a paper stop sells exactly the amount that was quoted |
| ExitDecisions.RunIsBacked | src/risk_manager.py:954-1150 | Every run of all processes keeps each pending decision, quote and past sale backed by a decision |
| TradeTelemetry.CompletedTelemetry | src/risk_manager.py:45-89 | The backward scan finds the newest 64 legs of the position and says whether its BUY was reached |
| TradeTelemetry.LegsExplainGroup | src/risk_manager.py:57-88 | The totals of a replayed group are the sums over its legs |
| TradeTelemetry.SuffixFindsSameLegs | src/risk_manager.py:45-71 | A BUY found in the stored events is the one the whole log would find, with the same legs |
| TradeTelemetry.CompleteLegsExplainProfit | src/risk_manager.py:45-89 | When a close reports complete legs, they are exactly the sales of this position ever logged and their profits sum to the reported profit |
| RpcCircuit.ProviderFile.constructor | src/solana_rpc.py:385-420 | A fresh provider: all breakers closed, nothing counted |
| RpcCircuit.ProviderFile.ReserveSlot | src/solana_rpc.py:837-890 | Refusal by the shared or the method's breaker, or a paced slot that turns every breaker not closed into a half-open probe with its lease |
| RpcCircuit.ProviderFile.RecordSuccess | src/solana_rpc.py:958-1002 | A success closes the shared breaker and the method's own, and nothing else |
| RpcCircuit.ProviderFile.RecordFailure | src/solana_rpc.py:1005-1110 | A heavy method's rate limit or transient error is charged to that method and force-closes the shared breaker, everything else to the provider; what the charged breaker refuses afterwards is stated by `FailureRefusesExactlyWhen` |
| RpcCircuit.Charge | src/solana_rpc.py:1040-1100 | One failure: the count, the cooldown that keeps the requested delay, and whether the breaker opens (`RetryDelayIsKept`, `FailureRefusesExactlyWhen`) |
| RpcCircuit.ObserveKeepsOk | src/solana_rpc.py:837-1110 | Every event keeps: cooldown within 60 s of the latest failure, lease within 20 s of the latest probe, closed means under three failures |
| RpcCircuit.RefusalsAreRecent | src/solana_rpc.py:706-722 | No permanent lockout: after any run a refusal happens only within 60 s of the latest failure or 20 s of the latest probe of a breaker in the way |
| RpcCircuit.SharedProbeIsExclusive | src/solana_rpc.py:842-861 | While a shared probe is out and no outcome was recorded, every other reservation is refused until its lease ends |
| RpcCircuit.MethodProbeIsExclusive | src/solana_rpc.py:848-861 | While a method's probe is out that method gets no second slot, whatever is asked for and whatever outcomes of other methods, or provider-wide failures of its older calls, are recorded |
| RpcCircuit.ProbeTakesTheLease | src/solana_rpc.py:723-733 | Granting a probe leaves the breaker half-open with the full lease ahead |
| RpcCircuit.RequestsAreSpaced | src/solana_rpc.py:863-888 | Granted request times are at least the pacing interval apart over every run |
| RpcCircuit.RateLimitStaysScoped | src/solana_rpc.py:1020-1110 | A heavy method's rate limit never blocks another method |
| RpcCircuit.ThreeFailuresShutEveryoneOut | src/solana_rpc.py:1056-1095 | Three transient failures in a row charged to the provider, of any methods, refuse everyone for the full cooldown |
| RpcCircuit.StrayFailureClosesBreaker | src/solana_rpc.py:1040-1100 | A run from the fresh provider in which the failure of an old call closes a breaker whose probe is still out and lets the next call through 16 s early |
| RpcCircuit.OutcomeOpensExactlyWhen | src/solana_rpc.py:979-1105 | After any outcome of any call the shared breaker, whatever its state, is open exactly when the outcome is a transient failure charged to it that is its probe's own or the third in a row; otherwise it is closed and the lease dropped |
| RpcCircuit.OutcomeOpensMethodExactlyWhen | src/solana_rpc.py:979-1109 | The same for a heavy method's breaker in any state: only outcomes of that method reach it, and a provider-wide failure of its probe drops its lease and nothing else |
| RpcCircuit.OutcomeKeepsShutExactlyWhen | src/solana_rpc.py:979-1105 | During a cooldown one outcome leaves the breaker refusing exactly when it is a transient failure charged to the provider; any other lets requests out at once |
| RpcCircuit.CooldownHoldsExactlyWhen | src/solana_rpc.py:706-889 | Over any run, a breaker in cooldown refuses every request to its end exactly when every outcome recorded meanwhile is a transient failure charged to the provider |
| RpcCircuit.FailureRefusesExactlyWhen | src/solana_rpc.py:1056-1105 | After a transient failure the breaker it is charged to refuses exactly until the latest of its old cooldown, the retry delay, and 60 s if it was the third in a row or a probe's own; after a final one it refuses nothing |
| RpcCircuit.RetryDelayIsKept | src/solana_rpc.py:1061-1065 | Below any threshold: before the requested delay is over every request the charged breaker is in the way of is refused |
| RpcCircuit.NothingGoesOutBeforeTheDelay | src/solana_rpc.py:706-890 | Over any run in which only requests and further transient provider failures follow, no request of any method goes out before the delay |
| RpcCircuit.MethodWaitsForTheDelay | src/solana_rpc.py:706-890 | No request of a rate-limited heavy method goes out before the delay, whatever else happens short of a success or a final failure of that method |
| RpcCircuit.GrantedExactlyWhen | src/solana_rpc.py:837-890 | A request goes out exactly when neither breaker refuses it, at once when pacing allows and otherwise as soon as it does |
| RpcCircuit.CountersCount | src/solana_rpc.py:958-1060 | Over any run the shared failures in a row, and the outcome counters, are those of the recorded outcomes |
| RpcCircuit.MethodStreakIsCounted | src/solana_rpc.py:1051-1060 | The same for the failures in a row of a heavy method |
| RpcCircuit.OpeningsAreCounted | src/solana_rpc.py:1074-1090 | Open counts rise by one exactly when a breaker opens that was not open, the shared count for a method's breaker too |
| RpcRouter.DelayIsBounded | src/helius_rpc.py:153-221 | Every backoff is within 30 s, and jitter never undercuts a wait the provider asked for (section 10.2.3 of RFC 9110) |
| RpcRouter.PublicEndpointIsLast | src/solana_rpc.py:342-358 | Each usable provider appears once and the public endpoint last, for light and heavy calls |
| RpcRouter.SolanaRpcCall | src/solana_rpc.py:1403-1555 | Budgets are validated, then the visits made are exactly those of the walk and the result is its verdict; `WalkFollowsTheRule` and `VerdictExactlyWhen` say what these are |
| RpcRouter.Failover | src/solana_rpc.py:1438-1555 | The provider loop makes exactly the walk's visits, never more than the shared budget (`WalkFollowsTheRule`) |
| RpcRouter.TryProvider | src/solana_rpc.py:1441-1522 | The local attempts at one provider until it answers, is left, or the budget is spent (`WalkFollowsTheRule`) |
| RpcRouter.BudgetsHold | src/solana_rpc.py:1438-1522 | Attempts never exceed the shared budget nor providers times local attempts |
| RpcRouter.LaterProvidersAreReached | src/solana_rpc.py:1438-1522 | As long as the budget covers this provider and those to come, none of them is starved by local retries |
| RpcRouter.NoStarvationExactlyWithinBudget | src/solana_rpc.py:1438-1522 | A budget of at least one attempt per provider is exactly what rules out starvation: without it some environment starves one |
| RpcRouter.OnlyTheLastAnswers | src/solana_rpc.py:1470-1522 | An answer ends the call, so it can only be the last visit |
| RpcRouter.WalkFollowsTheRule | src/solana_rpc.py:1441-1522 | Visit by visit: a fault is followed by the same provider exactly when it is transient, no rate limit, asks for at most 5 s, local attempts are left and the budget covers more than the later providers; else by the next provider, or by nothing when providers or budget are spent |
| RpcRouter.VerdictExactlyWhen | src/solana_rpc.py:1523-1555 | The answer if there was one; else the rate-limit error exactly when some attempt failed and all failures were rate limits, else the plain one, each with the number of attempts not refused |
| RpcRouter.ProvidersKeepTheOrder | src/solana_rpc.py:88-101 | Usable providers come in the fixed order of light or heavy calls |
| RpcRouter.BackoffExactlyWhen | src/helius_rpc.py:153-201 | Retry-After first, relative or a date, then a reset header, absolute beyond now, then 1, 2, 4, 8, 16, 30 s by attempt, all cut off at 30 s |
| RpcRouter.JitterSpreads | src/helius_rpc.py:204-221 | Jitter adds up to a quarter to a requested wait and spreads an exponential one by a quarter both ways, up to 30 s |
| ObservationStore.ObservationFile.constructor | src/observation_tracker.py:153-160 | A new document holds no observation |
| ObservationStore.ObservationFile.ApplySampleToDocument | src/observation_tracker.py:1319-1410 | A sample is appended exactly when its row exists, is not finished and lacks the horizon; the row completes when all its horizons are sampled |
| ObservationStore.ObservationFile.RecordSampleBatch | src/observation_tracker.py:1439-1483 | More than twenty entries are refused; otherwise the entries are applied in order and, only if one counted, expiry and retention follow |
| ObservationStore.ObservationFile.ApplyEach | src/observation_tracker.py:1452-1458 | The loop over the batch computes the fold and the list of entries that counted |
| ObservationStore.ObservationFile.ExpireObservationBacklog | src/observation_tracker.py:604-616 | The backlog beyond 200 is expired |
| ObservationStore.ObservationFile.ExpireOldest | src/observation_tracker.py:604-616 | As many expirable rows as asked for, from the front |
| ObservationStore.ObservationFile.RecordSampleAttempt | src/observation_tracker.py:1277-1316 | The attempt count of an unsampled horizon rises by one and is returned; 0 for a missing row or a sampled horizon |
| ObservationStore.NewSampleIsDistinct | src/observation_tracker.py:1333-1378 | An accepted sample keeps the horizons of a row distinct |
| ObservationStore.RetriedBatchChangesNothing | src/observation_tracker.py:1439-1483 | Committing the same batch again stores nothing and applies nothing, in spite of expiry and retention in between |
| ObservationStore.ExpiresOldestFirst | src/observation_tracker.py:604-616 | A row is expired exactly when it is expirable and fewer than k expirable rows precede it; nothing else changes |
| ObservationStore.BacklogIsBounded | src/observation_tracker.py:604-616 | After expiry at most 200 expirable rows remain, none lost unnecessarily |
| ObservationStore.CapKeepsNewest | src/observation_tracker.py:459-479 | The cap keeps every active row, and a completed one exactly when fewer than the budget are younger and completed |
| ObservationStore.SelectKeepsRows | src/observation_tracker.py:475-479 | The retained list is exactly the selected rows, ids still unique, samples untouched |
| ObservationStore.DroppedRowsAreArchived | src/observation_tracker.py:482-514 | A row that retention drops is finished, carries the archive mark and has no open paper position |
| ObservationStore.CapHoldsOnceArchived | src/observation_tracker.py:482-514 | Once the archive caught up, the document holds at most 1,000 rows plus active rows beyond that, and no row is dropped below the cap |
| ArchiveDrain.DroppedSamplesAreArchived | src/observation_tracker.py:481-601 | In every run of all writers and the archive drain, a dropped row has a record with exactly its samples unless the observation was restarted after the recorded snapshot was taken |
| ArchiveDrain.RestartEmptiesSamples | src/observation_tracker.py:1018-1021 | A restart leaves the observation without samples, so what it holds later is in no earlier snapshot |
| ArchiveDrain.RestartedSamplesAreLost | src/research_archive.py:103-138 | A run that drops samples no record holds: archived, decided again, sampled, closed, and pushed out by 1,000 others |
| ArchiveDrain.AppliedIsSwept | src/observation_tracker.py:459-513 | Whatever a write drops, it drops in the retention of the document it handed over |
| ObservationStore.StepKeepsRows | src/observation_tracker.py:244-1134 | Every writer of the document, start-up reconciliation, migration and closing without a quote included, keeps ids unique and horizons distinct; all but discoveries and decisions only append samples and drop rows |
| ObservationStore.NoHorizonIsSampledTwice | src/observation_tracker.py:1333-1340 | Over any run of all writers no observation ever holds two samples for one horizon |
| ObservationStore.MigrationIsIdle | src/observation_tracker.py:216-241 | From a migrated document on, the migration every writer runs first changes nothing, so the runs with and without it are the same |
| ObservationStore.LateRetryChangesNothing | src/observation_tracker.py:1439-1483 | A committed batch retried at any later time stores nothing, whatever all writers did in between, unless one of its observations was restarted |
| ObservationStore.SettledUntilRestarted | src/observation_tracker.py:911-1035 | A step of any writer makes a settled batch entry count again exactly when its observation is not in the document, or a decision is made on one without executable quote and fewer than 200 younger rows can be expired |
| ObservationStore.SettledOrRestarted | src/observation_tracker.py:911-1035 | Over any run of writes, a settled entry stays settled or some write restarted its observation in the document it found |
| ObservationStore.RetriedSampleCountsTwice | src/observation_tracker.py:1018-1021 | A run in which the same sample counts twice: two decisions without executable quote around it |
| ObservationRules.SampleCompletesExactlyWhen | src/observation_tracker.py:80-84 | An accepted sample goes last, and the row completes exactly when 1, 5 and 15 minutes, and unless it is a legacy row also 3, 30 and 60, all have one |
| ObservationRules.StoredExactlyWhen | src/observation_tracker.py:1319-1340 | Exactly the unfinished row of this id without a sample for the horizon takes the sample |
| ObservationRules.AttemptIsCounted | src/observation_tracker.py:1277-1316 | The count of an unsampled horizon rises by exactly one, is returned, and nothing else changes |
| ObservationRules.ExpiredExactlyWhen | src/observation_tracker.py:604-616 | A row expires exactly when it is unfinished, not opened on paper and not among the youngest 200 of these |
| ObservationRules.DroppedExactlyWhen | src/observation_tracker.py:459-513 | Retention drops a row exactly when it is finished, not open, archived, and the younger such rows fill what the rows in use leave of 1,000 |
| ObservationRules.MarksMove | src/observation_tracker.py:533-1134 | After any write a row is archived exactly when it was or the archive just marked it, and open exactly as the last status said until finalized or decided anew |
| ObservationRules.ReconciledExactlyWhen | src/observation_tracker.py:263-322 | Start-up reconciliation completes exactly the never analysed rows discovered at least a minute and the grace period ago, besides fully sampled pending ones |
| ObservationRules.FinalizedExactly | src/observation_tracker.py:825-871 | Closing without a quote completes exactly this row, as executable as told and not open |
| DueSelection.DueSampleCandidates | src/observation_tracker.py:1134-1164 | The nested scan and the sort give the specified list |
| DueSelection.CandidatesAreExact | src/observation_tracker.py:1134-1164 | The candidates are exactly the due pairs of pending observations and unsampled horizons, each once, by deadline, horizon and id |
| DueSelection.DueExactlyWhen | src/observation_tracker.py:1134-1164 | A pair is a candidate exactly when its observation is pending, the horizon has no sample, and its 1, 3, 5, 15, 30 or 60 minutes have passed; in order of deadline, horizon, id |
| DueSelection.FairRecoveryCandidates | src/observation_tracker.py:1167-1184 | Queues in order of first appearance, popped round by round up to the limit |
| DueSelection.TakeRounds | src/observation_tracker.py:1176-1183 | The loop over rounds takes exactly the first `limit` picks of the full round robin |
| DueSelection.TakeRound | src/observation_tracker.py:1177-1183 | One pass takes the heads, drops emptied queues and stops at the limit |
| DueSelection.RoundsAreFair | src/observation_tracker.py:1176-1183 | In any prefix of the rounds an observation leads another that still has work by at most one pick |
| DueSelection.BacklogRecoveryIsFair | src/observation_tracker.py:1167-1184 | min(limit, n) picks, none twice, each observation's in order, and never more than one ahead of another with work left |
| DueSelection.DueObservationSamples | src/observation_tracker.py:1187-1210 | The batch of one scan |
| DueSelection.TimelyWindowsGoFirst | src/observation_tracker.py:1187-1210 | min(limit, n) horizons, none twice, and a missed window only after every timely one |
| ObserverLoop.Observer.constructor | src/observation_tracker.py:1674-1675 | Both queues start empty |
| ObserverLoop.Observer.CountAttempt | src/observation_tracker.py:1848-1860 | One locked attempt write on the shared document |
| ObserverLoop.Observer.RetryAttempts | src/observation_tracker.py:1844-1896 | Stalled attempts are retried in order; the first timeout puts the rest back; exhausted ones become final samples; the queues stay within one batch |
| ObserverLoop.Observer.FlushFinalized | src/observation_tracker.py:1897-1916 | The queued samples are written or stay queued; the size error cannot occur |
| ObserverLoop.Observer.SampleDue | src/observation_tracker.py:1702-1838 | One due horizon: missed before or after the quote, quoted, no route, a counted failure, or a stalled one; `SampleFates` says over whole runs which quote gives which |
| ObserverLoop.Observer.ScanAndSample | src/observation_tracker.py:1937-1989 | Entered only with both queues empty; afterwards at most twenty items are queued |
| ObserverLoop.Observer.Tick | src/observation_tracker.py:1840-1989 | One iteration of the loop, keeping both queues together within one batch |
| ObserverLoop.DueFitsBatch | src/observation_tracker.py:1187-1210 | A scan never returns more than one batch |
| ObserverLoop.TickKeepsInv | src/observation_tracker.py:1840-1989 | A tick keeps the document sound, conserves finalized samples and leaves both queues empty when no lock times out |
| ObserverLoop.NothingFinalizedIsLost | src/observation_tracker.py:1840-1989 | Through any run of ticks, lock timeouts and foreign writes: at most twenty items queued, no horizon stored twice, and every sample ever finalized is still queued or was written by an acknowledged batch that left it settled; it is settled still unless a later write restarted its observation in the document it found |
| ObserverLoop.WrittenIsStored | src/observation_tracker.py:1439-1483 | The write that delivered a sample is the batch holding it, after which the sample can change nothing until a restart |
| ObserverLoop.UndisturbedTickDrains | src/observation_tracker.py:1840-1989 | After any run, one tick without lock timeouts empties both queues |
| ObserverLoop.StalledFlushIsRepaired | src/observation_tracker.py:1897-1918 | A flush that times out after its commit has stored the queue and keeps it, and the next one empties the queue without changing the document |
| SampleFates.EveryScanHasItsOutcome | src/observation_tracker.py:1702-1989 | Over any run each scanned pair has exactly one outcome, the one its quote calls for: a final sample, a count below three, or a stalled attempt; what was finalized is exactly the samples of these outcomes and of retries, and each stalled attempt is queued or was counted once |
| SampleFates.PricesAreTimelyQuotes | src/observation_tracker.py:1706-1790 | A settled pair has proceeds and no error exactly when its quote was attempted and answered with them within 60 s of the target; it says HORIZON_MISSED whenever either was late, and otherwise carries the quote's own error |
| SampleFates.IdleTickScansTheDue | src/observation_tracker.py:1937-1957 | With empty queues and the lock granted a tick scans exactly the due pairs of the document as it is then |
| PhaseTelemetry.RingsJoin | src/phase_memory_telemetry.py:837-853 | Joining two bounded event lists gives the list and the saturated eviction count of all their events |
| PhaseTelemetry.RingPushes | src/phase_memory_telemetry.py:648-662 | Appending one event likewise |
| PhaseTelemetry.RetainedIsListedOrEvicted | src/phase_memory_telemetry.py:648-662 | Below saturation retained events are listed or evicted, and the listed ones are the youngest |
| PhaseTelemetry.FoldCounts | src/phase_memory_telemetry.py:538-560 | Record, failure and detail counters are those of the whole list cut off at the limit once, elapsed time is the sum and the last metadata those of the last record |
| PhaseTelemetry.FoldTotals | src/phase_memory_telemetry.py:572-579 | Each metadata total is the cut-off sum over the records that have the key |
| PhaseTelemetry.FoldMaxima | src/phase_memory_telemetry.py:572-579 | Each metadata maximum is reached by some record and exceeded by none; a key without one is in no record |
| PhaseTelemetry.FoldActivity | src/phase_memory_telemetry.py:538-571 | The peak of phases active at once is reached by some record and exceeded by none |
| PhaseTelemetry.FoldFindsPeaks | src/phase_memory_telemetry.py:509-535 | Each peak is the first maximum over all records, with that record's context |
| PhaseTelemetry.MergeIsConcatenation | src/phase_memory_telemetry.py:585-632 | Merging batch aggregates, the older as target, equals aggregating the concatenated records in every field |
| PhaseTelemetry.MergeInAnyOrder | src/phase_memory_telemetry.py:585-632 | In either order counts, totals and maxima are those of the concatenation |
| TelemetryFlush.MergeEachPhase | src/phase_memory_telemetry.py:833-835 | The loop over phases merges each source aggregate into its target |
| TelemetryFlush.TelemetryFile.constructor | src/phase_memory_telemetry.py:446-471 | The empty document |
| TelemetryFlush.TelemetryFile.PersistBatch | src/phase_memory_telemetry.py:863-962 | The document with the batch merged in, or unchanged |
| TelemetryFlush.Recorder.constructor | src/phase_memory_telemetry.py:474-491 | Nothing pending |
| TelemetryFlush.Recorder.AddPendingRecord | src/phase_memory_telemetry.py:635-663 | One record: its phase, the overall aggregate, the counters and the bounded detail list |
| TelemetryFlush.Recorder.RecordSample | src/phase_memory_telemetry.py:685-733 | One memory sample: missing readings are counted as failures, and the event is kept exactly when memory is high or the high-water mark rose by 5 MiB since the last reading |
| TelemetryFlush.Recorder.BeginFlush | src/phase_memory_telemetry.py:965-976 | A dirty pending batch is taken out; otherwise nothing happens |
| TelemetryFlush.Recorder.MergeBatchBack | src/phase_memory_telemetry.py:802-860 | A failed batch is merged into what was recorded since, its events in front, and the failure is counted |
| TelemetryFlush.AddingReflects | src/phase_memory_telemetry.py:635-733 | Adding an entry keeps the batch a true account of the entry list |
| TelemetryFlush.PersistingReflects | src/phase_memory_telemetry.py:863-962 | Persisting makes the document a true account of its entries followed by the batch's |
| TelemetryFlush.MergingBackReflects | src/phase_memory_telemetry.py:802-860 | Merging back makes the pending batch a true account of the older entries, the newer ones and the failure |
| TelemetryFlush.TelemetryIsConserved | src/phase_memory_telemetry.py:802-981 | For any number of processes and any interleaving of records, samples, flushes and failures, the document is a true account of the committed entries and each process's history is committed, in flight or pending, in order |
| TelemetryFlush.KeptExactlyWhen | src/phase_memory_telemetry.py:685-733 | A sample is kept as an event exactly from 230 MiB on or after a rise of the high-water mark by 5 MiB |
| TelemetryFlush.FlushedExactlyWhen | src/phase_memory_telemetry.py:965-976 | A pending batch goes out exactly when a record or a sample is among its entries |
| TelemetryContexts.ContextsAreExactInOrder | src/phase_memory_telemetry.py:579-663 | In every run, pending batch, flushing batch and document have exactly the aggregates of their entries in order, peak contexts and last metadata included, as long as no failed flush is among the entries |
| TelemetryContexts.MergeBackIsExactExactlyWhen | src/phase_memory_telemetry.py:802-860 | Merging a failed batch back gives the aggregate of all records in order exactly when the last metadata agree or a side is empty and no peak is tied with different contexts; otherwise the newer context and the older metadata win |
| BackupRetention.BackupRoot.constructor | scripts/storage_retention.py:671-685 | The root as listed |
| BackupRetention.BackupRoot.ValidateMarkers | scripts/storage_retention.py:647-668 | True exactly when every marker names a validated backup of its own revision and both required revisions have one |
| BackupRetention.BackupRoot.PlanValidatedBackups | scripts/storage_retention.py:671-756 | The loop over the entries, newest first, gives the specified classification |
| BackupRetention.BackupRoot.Examine | scripts/storage_retention.py:690-756 | The classification of one entry, and how many newest backups are still to be kept |
| BackupRetention.BackupRoot.RemoveTree | scripts/storage_retention.py:797 | The directory is gone, everything else stays |
| BackupRetention.BackupRoot.RemoveMatchingMarker | scripts/storage_retention.py:759-768 | The revision's marker is removed exactly when it names this backup |
| BackupRetention.BackupRoot.ExecuteBackupPlan | scripts/storage_retention.py:771-801 | Whatever others do in between, every directory deleted was safe in a plan made from the root as it was then; the count is the number of deletions |
| BackupRetention.BackupRoot.RetainValidatedBackups | scripts/storage_retention.py:804-836 | Errors for a missing revision or keep below one change nothing; otherwise the plan is made and executed |
| BackupRetention.SafeExactlyWhen | scripts/storage_retention.py:733-756 | A backup is deletable exactly when markers are in order, it is validated, at least `keep` newer validated ones exist and it is neither active nor deployed |
| BackupRetention.ClassifiedExactlyWhen | scripts/storage_retention.py:690-756 | The verdict on every entry of a plan from listing, markers, age and revisions alone, with the exact condition under which markers are trusted |
| BackupRetention.BadMarkersProtectEverything | scripts/storage_retention.py:733-739 | With bad markers nothing is deletable |
| BackupRetention.DeletionKeepsThePlan | scripts/storage_retention.py:786-801 | Deleting one safe backup with its marker keeps the markers in order and every other verdict |
| BackupRetention.ExecutionDeletesExactlyTheSafe | scripts/storage_retention.py:771-801 | Left alone, a run deletes exactly the safe set, keeps the markers in order and leaves nothing more to delete |
| BackupRetention.DeathBeforeTheMarkerBlocksRetention | scripts/storage_retention.py:797-798 | A death between directory and marker leaves bad markers exactly when the revision's marker named that directory, and then no later run under any policy changes anything |
| ArchiveScan.OfferKeepsNewest | src/research_archive.py:369-373 | Push or replace turns the newest N of a sorted list into the newest N with the row inserted |
| ArchiveScan.LoadResearchArchive | src/research_archive.py:343-385 | The streaming scan returns the first file error, or the newest N cohort rows of the sorted archive and the counters |
| ArchiveScan.LoadedRowsAreTheNewest | src/research_archive.py:334-375 | The rows are ascending, min(N, n) of the cohort, and everything left out is older than everything kept |
| ArchiveScan.FileOrderDoesNotMatter | src/research_archive.py:353-375 | Any order of the files gives the same rows |
| ArchiveScan.LoadExactlyWhen | src/research_archive.py:320-385 | The first unsound file decides the error; otherwise the counts are exact, and max(1, N) cohort rows at most are kept, each dated no earlier than any left out |
| WhaleGate.AccumulationGate.constructor | src/monitor.py:153-154 | No history, last clean-up at zero |
| WhaleGate.AccumulationGate.PopExpired | src/monitor.py:513-514 | Popping from the front while expired computes the pruned queue |
| WhaleGate.AccumulationGate.CleanUp | src/monitor.py:502-509 | Every queue is pruned and empty ones are forgotten |
| WhaleGate.AccumulationGate.WhaleBuyAmountAllowed | src/monitor.py:486-565 | The new history and the verdict for one signal |
| WhaleGate.PruneIsFilter | src/monitor.py:513-514 | For ascending times pruning from the front is filtering by the window |
| WhaleGate.GateFollowsTheRule | src/monitor.py:486-565 | For a monotonic clock every decision equals the rule applied to the whole unpruned history since the last accumulation approval |
| WhaleGate.ApprovalsAreBacked | src/monitor.py:543-555 | Accumulation approvals consume disjoint trades: approvals times 5 SOL plus what is unconsumed is at most what was paid |
| WhaleGate.BuffersAreRecent | src/monitor.py:500-514 | After every signal no empty queue remains and every buffered trade is at most four minutes old |
| SignatureWindow.Window.constructor | src/monitor.py:247-252 | An empty window of at least one |
| SignatureWindow.Window.Add | src/monitor.py:254-267 | A signature is new exactly when it is not among the last `maximum` accepted ones; queue and set stay in step |
| SignatureWindow.RepeatsPassOnlyAfterTheWindow | src/monitor.py:254-267 | A repeat passes only after at least `maximum` other acceptances |
| SignatureWindow.AcceptedExactlyWhen | src/monitor.py:254-267 | After any arrivals the next signature is accepted exactly when it differs from the last `maximum` accepted ones |
| FailureSnapshots.FresherIsAnOrder | src/failure_memory_diagnostics.py:58-71 | Freshness is a strict weak order over all events |
| FailureSnapshots.FoldFindsLatest | src/failure_memory_diagnostics.py:305-324 | The candidate loop finds for each slot a freshest eligible event, or none when there is none |
| FailureSnapshots.RefreshKeepsRow | src/failure_memory_diagnostics.py:297-327 | Recomputing the slots after sorting and truncation keeps them right for everything ever seen |
| FailureSnapshots.ReductionShrinks | src/failure_memory_diagnostics.py:333-346 | Every reduction of the size loop removes something, so the loop ends |
| FailureSnapshots.FlushKeepsLatest | src/failure_memory_diagnostics.py:278-346 | A flush keeps every retained row a true digest of what was flushed since the row exists, and the written document fits |
| FailureSnapshots.RunKeepsLatest | src/failure_memory_diagnostics.py:278-349 | So does every run of flushes by any processes |
| FailureSnapshots.LatestSlotsAreNeverBehind | src/failure_memory_diagnostics.py:305-324 | From the empty document on, a latest slot is never behind any eligible event flushed since its row exists |
| SnapshotRules.SlotsHoldTheLatest | src/failure_memory_diagnostics.py:305-324 | After any run of flushes a row has a slot exactly when an event of its kind (any RSS, 250 MiB, high-water peak) was flushed since the row exists, and holds one that none of them is later than |
| SnapshotRules.RowsKeepTheLatest | src/failure_memory_diagnostics.py:297-327 | A refreshed row keeps in order its latest 48 timed events, and of more than eight baselines the earliest and the latest seven |
| SnapshotRules.KeptRowsAreTheLatest | src/failure_memory_diagnostics.py:328-331 | A row goes only when eight others stay, each with a later candidate than any of its own, or one as late and a greater id |
| SnapshotRules.RanksHaveTheLatest | src/failure_memory_diagnostics.py:328-329 | The candidate a row is ranked by is one of its own that none of the others is later than |
| SnapshotRules.ReductionExactly | src/failure_memory_diagnostics.py:333-346 | One reduction: every row with several events keeps the later half; when none has, the first row with several baselines loses its second; when none has, the first row goes; when none is left to drop, the flush fails |
| SnapshotLoss.SlotCoversEverythingExactlyWhen | src/failure_memory_diagnostics.py:278-346 | Against everything ever flushed for a process, a retained row's slot is not behind exactly when no flush dropped an earlier row of that process whose slot held a fresher event |
| SnapshotLoss.RunAccounts | src/failure_memory_diagnostics.py:278-346 | In every run each event ever flushed for a process is with its row or covered by a row that was dropped, and dropped rows hold only such events |
| SnapshotLoss.LastEightStay | src/failure_memory_diagnostics.py:328-331 | Processes that flush one event each in rising freshness leave exactly the rows of the last eight |
| SnapshotLoss.ComebackLosesCriticalSlot | src/failure_memory_diagnostics.py:300-331 | A run of ten flushes after which a process has a row without the critical snapshot it once flushed |
| SnapshotRecorder.SnapshotFile.constructor | src/failure_memory_diagnostics.py:349 | The empty document |
| SnapshotRecorder.SnapshotFile.Flush | src/failure_memory_diagnostics.py:278-349 | The whole flush is written, or nothing when it cannot fit |
| SnapshotRecorder.AddEvents | src/failure_memory_diagnostics.py:282-295 | Usable events are appended to the row of their process, created when missing |
| SnapshotRecorder.RefreshRow | src/failure_memory_diagnostics.py:297-329 | The row with recomputed slots and truncated lists, and its freshest candidate |
| SnapshotRecorder.RankRows | src/failure_memory_diagnostics.py:296-331 | Every row with a candidate is refreshed and ranked |
| SnapshotRecorder.FitDocument | src/failure_memory_diagnostics.py:333-346 | The size loop computes the specified reduction or gives up |
| SnapshotRecorder.Recorder.constructor | src/failure_memory_diagnostics.py:74-97 | An empty recorder |
| SnapshotRecorder.Recorder.Record | src/failure_memory_diagnostics.py:252-260 | A full queue drops and counts its oldest event; critical and high-water events are kept apart |
| SnapshotRecorder.Recorder.BeginFlush | src/failure_memory_diagnostics.py:264-276 | The batch holds all pending events and the two special ones, each once |
| SnapshotRecorder.Recorder.TakeBack | src/failure_memory_diagnostics.py:350-362 | As much of the end of a failed batch as fits goes back in front, the rest is counted; special events return unless newer ones exist |
| SnapshotRecorder.LatestSpecialEventsSurvive | src/failure_memory_diagnostics.py:253-362 | However full the queue and however often flushes fail, the latest critical and high-water events are delivered or go out with the next flush |
| SnapshotRecorder.RecordingExactly | src/failure_memory_diagnostics.py:252-260 | A recorded event goes last, and the oldest of 64 makes room and is counted |
| SnapshotRecorder.FlightExactly | src/failure_memory_diagnostics.py:264-276 | A batch is the pending events in order followed by each special event no longer among them |
| SnapshotRecorder.TakingBackExactly | src/failure_memory_diagnostics.py:350-362 | After a failed flush as much of the batch's end as 64 places allow is back in front, the rest counted, and newer special events win |
| SnapshotRecorder.EveryEventIsCounted | src/failure_memory_diagnostics.py:252-362 | In every run each event recorded or sent again is pending, in flight, delivered or counted as dropped |
| Allowlist.ProjectionConforms | src/research/entry_predictor_schema.py:59-85 | Whatever goes in, only paths of the shape come out, sanitized, within the limits |
| Allowlist.ConformingIsFixed | src/research/entry_predictor_schema.py:59-85 | A conforming value is left alone |
| Allowlist.ProjectionIsIdempotent | src/research/entry_predictor_schema.py:59-85 | Projecting twice is projecting once |
| Allowlist.AcceptedExactlyWhenConforming | src/research/entry_predictor_schema.py:59-85 | A value is its own projection, entry order included, exactly when its paths are some of the shape's in the shape's order |
| AllowlistEquality.AcceptedExactlyWhenAllowed | scripts/entry_telemetry_acceptance.py:38-47 | The comparison of a stored value with its projection, dictionaries without regard to order, accepts exactly the values in which every path is one of the shape, sanitized and within the limits |
| Allowlist.ProjectionIsClean | src/research/entry_predictor_schema.py:31-40 | No forbidden word survives as a key at any depth |
| NameStatusParser.ParseNameStatusZ | scripts/deploy_contract.py:89-117 | The loop over the fields returns the specified paths or the first error |
| NameStatusParser.PathsOk | scripts/deploy_contract.py:107-115 | All paths of a record are valid |
| NameStatusParser.SplittingUndoesJoining | scripts/deploy_contract.py:90-93 | Splitting at NUL undoes joining NUL-free fields |
| NameStatusParser.JoiningUndoesSplitting | scripts/deploy_contract.py:90-93 | Joining undoes splitting a terminated payload |
| NameStatusParser.PrintedRecordsParse | scripts/deploy_contract.py:89-117 | Parsing the printing of any well-formed records gives exactly their paths |
| NameStatusParser.AcceptedPayloadIsAPrinting | scripts/deploy_contract.py:89-117 | Every accepted payload is the printing of the records it was read as |
| NameStatusParser.AcceptedExactlyWhenPrinted | scripts/deploy_contract.py:89-117 | The parser accepts exactly the printings, and no payload can be read two ways |
| PathRules.Utf8ExactlyWhenEncoded | scripts/deploy_contract.py:108 | The bytes taken for UTF-8 are exactly the encodings of sequences of Unicode scalar values (section 3 of RFC 3629) |
| PathRules.ParentIsAPart | scripts/deploy_contract.py:109-114 | A path is refused for its parents exactly when one of the components between its slashes is ".." |
| PathRules.PathOkExactlyWhen | scripts/deploy_contract.py:107-115 | A path is accepted exactly when it encodes some text that is not empty, not absolute and has no component ".." |
| PathRules.StatusExactlyWhen | scripts/deploy_contract.py:96-104 | One path for A, B, D, M, T, U and X, two for R or C followed by digits, and no other status |

## Left out

- HTTP, WebSocket, Jupiter, Jito and Helius traffic, signing and simulation: quotes, answers and delays are parameters.
- OS facts: lock exclusivity, lock release on death and atomic replacement are the assumptions of `StateStore`; the lock's polling deadline is a time-out step, and the clean-up of stale temporary files is not modelled.
- StateStore.AnswersTellTheTruth: calls that raise after their commit (an observer callback or a close that fails) are treated as having been told so; callers that catch every exception are modelled as failing before the commit.
- Legacy ledger migration, the defaults that start-up migration gives to old observation rows, and `ensure_break_even_floor`.
- TradeReplay.FoldEvent: does not replay events without a position id, for which the source numbers the BUY within its mint and lets a SELL go to the newest open group of the mint: every writer in the repository names the position.
- TradeReplay.PositionTradeGroups: leaves out the same events.
- Timestamps as text, logging, latency buckets, price ratios, round-trip and peak percentages of positions that no decision reads.
- ExitProtocol.EachClaimSellsAtMostOnce: every sale carries position id and exit id, as all callers in the repository pass both; exit ids and position ids are fresh by construction, as uuid4 texts are assumed to be.
- RpcCircuit.RefusalsAreRecent: assumes a clock that never goes back and retry delays as bounded by `RpcRouter.DelayIsBounded`.
- Return percentages, favourable and adverse excursions, candidate flags, funnel metrics and the shadow ledger written after a batch.
- ArchiveDrain.DroppedSamplesAreArchived: a record that cannot be written is a store step that does not happen; records that a command-line backfill takes from shadow trades are not modelled.
- ObserverLoop.Observer.ScanAndSample: samples the due horizons one after the other where the source runs four at a time, so it fixes the order in which stalled attempts enter their queue.
- ObserverLoop.Observer.Tick: leaves out the heartbeat, stall and recovery metrics, and cancellation.
- PhaseTelemetry.MergeIsConcatenation: elapsed times are exact integers where the source adds rounded floats; process ids and last-seen times are not modelled.
- BackupRetention.BackupRoot.PlanValidatedBackups: checksums, manifests and archive contents of a backup are one verdict per directory, misnamed entries are not listed, and byte counts are left out.
- ArchiveScan.LoadResearchArchive: a binary heap is represented by its elements in ascending order, and observation ids are assumed distinct across files; with equal keys the source would compare dictionaries and raise.
- FailureSnapshots.FlushKeepsLatest: the serialized size is an arbitrary measure of the rows, and the history it speaks of is the one since the row exists; `SnapshotLoss` has the rest.
- SnapshotRecorder.Recorder.Record: which samples are recorded at all (cooldowns, thresholds, baselines) is decided by the caller.
- AllowlistEquality.AcceptedExactlyWhenAllowed: a number and a boolean are never equal, where the source's `1 == True` holds; the item budget shared by one capture is not modelled.
- NameStatusParser.ParseNameStatusZ: paths stay in their UTF-8 bytes, and `Path.parts` is modelled as the components between slashes.
- Scoring, health gates, configuration, reports and statistics: mostly single-branch readings with easy facts.

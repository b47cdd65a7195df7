# AttestMesh operations: a verified model

This project models the parts of the AttestMesh repository that keep durable state while other parties act at the same
time or processes die, and proves what those parts promise. Dollars, times, ratios and scores are reals.
`dafny verify dfyconfig.toml` checks the whole project.

**The budget proxy** admits, meters and records paid requests under one lock and persists a ledger and a state file with
separate writes. `BudgetSpec` says what each locked section computes, `BudgetProxy` is the class with its loops and the two
offline scripts, proved against it. `BudgetSystem` is the proxy as a transition system: any number of request threads,
single file writes, crashes, restarts, reconciliation and resets. On top of it: `BudgetMoney` (ceilings and the running
total, with `BudgetCeilings` stating them by endpoint and configured limit), `BudgetDurability` (nothing sent is forgotten),
`BudgetCircuit` (the latch) and `BudgetRate` (the sliding window); `BudgetScenario` is the small run their concrete instances
are built on.

**The canary** submits documents to a remote queue and resumes after crashes: `RetainSystem` is the protocol,
`RetainController` its loop. `Chunking` and `StratifiedPick` are the two algorithms beside it.

**The indexer** pages a growing chain, backfills new clusters and delivers to subscribers. `IndexerChain` is what a reader
of ranges gets, `IndexerDelivery` what one stream holds, `IndexerIngest` what reaches the history, `IndexerRuntime` the
boot, watcher and discovery ticks. `ReadModel` is the projection that is served.

**The recovery guard**: `RecoveryAudit` is its counting and set arithmetic, `RecoveryGuard` its phases and circuit.

`SseReader` is the router's incremental stream reader, `RankFusion` the evaluator's fusion, `VmReplacement` the journaled
replacement of a machine. `Sorting`, `Sums` and `Options` are shared helpers.

## What turned out not to hold

- A monetary trip with nothing in flight is not always final. A request that was refused because the circuit was open for a
  provider 401 still calls `open_circuit` with that reason, and so overwrites a monetary reason set in between; a reset then
  accepts it. `BudgetCircuit.OpenForeverIffSealed` and, with the reasons written out,
  `BudgetCircuit.OnlyAuthFailuresAndPendingCanBeClosed` give the exact condition; without such a thread the trip is final
  (`BudgetCircuit.MonetaryTripIsFinal`).
- A trip is forgotten by a crash before its state write exactly when the disk holds neither an open circuit nor a request in
  flight (`BudgetCircuit.TripForgottenIff`); `BudgetCircuit.TripForgotten` reaches such a state. Otherwise nothing is granted
  without a repair, whatever crashes (`BudgetCircuit.UnforgettableTripGrantsNothing`).
- `record` drops the reservation from memory before the ledger write, so a failed write in a surviving process can lose the
  request from both files. Of all owed writes that is exactly the ledger write, and the request lost is exactly the one it
  charges (`BudgetDurability.FailedWriteLosesIff`, reached by `BudgetDurability.LostRequest`). It is back on file exactly if the
  process writes the ledger again before it dies (`BudgetDurability.LossRepairedIff`). Crashes alone lose nothing.
- Greedy chunking is optimal for every positive bound and not for zero (`Chunking.ZeroBoundIsNotOptimal`).
- A discovery pass samples the head before its reads, and a watcher tick reads its cluster list before its pages. If the
  watermark passes the sampled head before the cluster is listed, the cluster's logs in between are never ingested:
  `IndexerRuntime.WatcherOvertakesDiscovery` is that run, `IndexerRuntime.LostLog` an instance of it, and
  `IndexerRuntime.Runtime.CompleteIff` says exactly which clusters have all their logs.
- A cluster is visible to the watcher before its backfill is handed over, so a page read in between comes first
  (`IndexerRuntime.PageDuringAdmission`) and a key in it is lost (`ReadModel.BackfillAfterPageLosesKey`).
- A subscription samples the watermark before it is registered, and a running tick does not list clusters admitted since. A
  session misses exactly its member's logs up to where its deliveries start (`IndexerRuntime.Runtime.NothingMissedIff`, with the
  instance `IndexerRuntime.MissedDelivery`).
- Replaying logs is harmless exactly when the last key published for each registered member comes after its first registration
  or is the key it registered with (`ReadModel.ReplayHarmlessIffKeysLand`).
- The recount of a settled outbox compares dictionaries, so it fails when the queued group is empty
  (`RecoveryAudit.RecountIff`), and the cap settlement saves its phase before that check
  (`RecoveryGuard.Recovery.SettleCap`).
- An unreadable journal is taken for a missing one and overwritten. Over any later crashes and retries a live journaled
  replacement is duplicated exactly if some attempt could not read the journal and lived to write it; CreateVm may come in a
  later attempt that reads the overwritten entry (`VmReplacement.LiveReplacementDuplicatedIff`, with the instance
  `VmReplacement.TwoLiveReplacements`).

## Model

| member | source | states |
|---|---|---|
| BudgetMoney.SpendStaysWithinLimits | deploy/hindsight-budget-proxy/budget_proxy.py:419-459 | In every reachable pair of files, after any interleaving of threads, single writes, crashes, restarts and repairs: the running total is the initial spend plus all call costs, and for the dollar ceiling and every (scope, period) spend plus reservations stay within the limit plus overrun, plus what a crash charged twice or still shows twice |
| BudgetMoney.CleanRunsRespectLimits | deploy/hindsight-budget-proxy/budget_proxy.py:423-439 | Without overruns and without a request on file twice, no ceiling is ever crossed |
| BudgetMoney.ConfiguredCeilingsHold | deploy/hindsight-budget-proxy/budget_proxy.py:333-346 | In every reachable pair of files without overruns and without a request on file twice: the embeddings of each month, charged and held, stay within the Qwen limit, the chat requests of each month within the monthly limit, all backfill chat requests together within the backfill limit, everything within the total limit less the margin, and the running total is exact |
| BudgetMoney.CeilingsHoldButForOverruns | deploy/hindsight-budget-proxy/budget_proxy.py:408-532 | The same four ceilings in every reachable pair of files at all, plus what overruns and double charges after a crash have added |
| BudgetCeilings.DecisionIsJudged | deploy/hindsight-budget-proxy/budget_proxy.py:419-460 | A request is granted, refused or postponed by the configured limits themselves: at the price of its own model, the total, the Qwen limit for embeddings, the backfill or monthly limit of the phase for chat |
| BudgetMoney.MoneySafeStep | deploy/hindsight-budget-proxy/budget_proxy.py:462-532 | Every event of the system keeps the accounting of every pair of files a crash could leave |
| BudgetMoney.MoneySafeAlways | deploy/hindsight-budget-proxy/budget_proxy.py:408-532 | The accounting survives every run |
| BudgetMoney.AdmitKeeps | deploy/hindsight-budget-proxy/budget_proxy.py:419-439 | A granted reservation fits below every ceiling it counts against |
| BudgetMoney.ChargeAllKeeps | deploy/hindsight-budget-proxy/reconcile_ambiguous.py:35-57 | Charging any part of the pending requests at their maximum moves spend from reserved to charged and exceeds nothing |
| BudgetDurability.SentRequestsStayOnFile | deploy/hindsight-budget-proxy/budget_proxy.py:699-728 | Over every run with crashes between any two writes, restarts and repairs: a request that was sent and was not answered with a status of 400 or more is in flight or among the calls on disk |
| BudgetDurability.SpendNeverUndercounts | deploy/hindsight-budget-proxy/budget_proxy.py:525-531 | If every recorded or reserved amount covers the real charge, spent plus pending covers all real charges of the requests sent and not answered with an error status; with nothing in flight, spent alone does |
| BudgetDurability.FailedWriteLosesIff | deploy/hindsight-budget-proxy/budget_proxy.py:525-530 | For every upstream outcome, every owed write of it that raises in a process that lives on, and every sent request: the request ends in neither file if and only if the failing write is the ledger write and the request is the one it charges |
| BudgetDurability.FailedLedgerWriteLosesRequest | deploy/hindsight-budget-proxy/budget_proxy.py:525-527 | When the first owed write, the ledger write, fails, exactly the request it charges is lost |
| BudgetDurability.FailedStateWriteLosesNothing | deploy/hindsight-budget-proxy/budget_proxy.py:528-530 | A failing state write loses no sent request |
| BudgetDurability.LossRepairedIff | deploy/hindsight-budget-proxy/budget_proxy.py:525-531 | After a failed ledger write, over every later run with crashes, restarts and repairs: the request it charged is on file at the end if and only if the process wrote the ledger again before it died |
| BudgetDurability.LostRequest | deploy/hindsight-budget-proxy/budget_proxy.py:525-530 | A reachable proxy with a sent request that such a failure loses |
| BudgetDurability.AmbiguousChargedBeforeGrant | deploy/hindsight-budget-proxy/budget_proxy.py:699-728 | Over every run: once a request ended without an answer, or with a success that cannot be read, nothing is admitted before the ledger has a reconciled call for it with the tokens and the cost it had reserved |
| BudgetDurability.AmbiguousCharged | deploy/hindsight-budget-proxy/reconcile_ambiguous.py:35-67 | The same for requests left ambiguous by a crash: whenever one is granted, each of them has a call at its reserved maximum |
| BudgetDurability.DurableStep | deploy/hindsight-budget-proxy/budget_proxy.py:723-728 | Every event keeps sent requests on file and ambiguous ones pending or charged at the maximum, in every pair a crash could leave |
| BudgetCircuit.OpenCircuitGrantsNothing | deploy/hindsight-budget-proxy/budget_proxy.py:420-423 | Once the open circuit is on disk, no run without a repair closes it or grants anything |
| BudgetCircuit.TrippedProxyGrantsNothing | deploy/hindsight-budget-proxy/budget_proxy.py:462-469 | From the moment it trips in memory, a proxy that does not crash grants nothing |
| BudgetCircuit.TripForgottenIff | deploy/hindsight-budget-proxy/budget_proxy.py:462-469 | A trip in memory can be forgotten by a run without a repair if and only if the disk shows neither an open circuit nor a request in flight |
| BudgetCircuit.TripForgotten | deploy/hindsight-budget-proxy/budget_proxy.py:462-469 | A reachable proxy whose trip can be forgotten |
| BudgetCircuit.UnforgettableTripGrantsNothing | deploy/hindsight-budget-proxy/budget_proxy.py:320-328 | In every other case no run without a repair grants anything, crashes and restarts included: a request left on disk makes the next start open the circuit |
| BudgetCircuit.ForgottenRestartsClosed | deploy/hindsight-budget-proxy/budget_proxy.py:277-328 | After a forgotten trip every start that accepts the ledger runs with a closed circuit |
| BudgetCircuit.CrashBeforeWriteForgetsTrip | deploy/hindsight-budget-proxy/budget_proxy.py:681-684 | A trip followed at once by a crash is forgotten under exactly that condition |
| BudgetCircuit.ResetTokenClosesOnce | deploy/hindsight-budget-proxy/reset_provider_auth.py:43-58 | No token ever completes two resets, over any run |
| BudgetCircuit.OpenForeverIffSealed | deploy/hindsight-budget-proxy/reset_provider_auth.py:34-41 | Whatever writes are still owed, a circuit open on disk can never be closed by any run if and only if nothing is in flight, its reason is not an authentication failure, and no refused thread is about to overwrite that reason |
| BudgetCircuit.OnlyAuthFailuresAndPendingCanBeClosed | deploy/hindsight-budget-proxy/reset_provider_auth.py:16-41 | With the reasons written out: a circuit open on disk can be closed by some run if and only if a repair is under way, a request is in flight on disk or in the proxy, one of them gives a provider 401 or 402 as its reason, or a refused thread is about to |
| BudgetCircuit.SealedForever | deploy/hindsight-budget-proxy/reconcile_ambiguous.py:28-30 | A sealed circuit stays sealed on every run, repairs included, and nothing more is granted |
| BudgetCircuit.MonetaryTripIsFinal | deploy/hindsight-budget-proxy/reset_provider_auth.py:16-41 | A circuit open on disk for the total, for any scope, for an ambiguous request, for requests found after a restart or for no reason given, with nothing in flight and no thread refused for 401 or 402, stays open on every run, repairs included, and grants nothing |
| BudgetCircuit.MonetaryTripMayBeOverwritten | deploy/hindsight-budget-proxy/budget_proxy.py:681-684 | A monetary trip with nothing in flight is not final by itself: a request refused because the circuit was open for a 401 overwrites the monetary reason with that 401, which a reset then accepts |
| BudgetScenario.ScenarioArises | deploy/hindsight-budget-proxy/budget_proxy.py:408-460 | Settings and two requests exist for these instances and for the overwritten trip |
| BudgetRate.EveryWindowWithinLimits | deploy/hindsight-budget-proxy/budget_proxy.py:366-406 | With a clock that never runs backwards and reports no larger than the reservation, every sixty-second window of the whole run holds at most the permitted surviving admissions and tokens |
| BudgetRate.RateSafeStep | deploy/hindsight-budget-proxy/budget_proxy.py:440-459 | Every event, including crashes and restarts, keeps every window within both limits |
| BudgetRate.RecentCountCovers | deploy/hindsight-budget-proxy/budget_proxy.py:368-392 | What the delay counts covers every surviving admission of the last minute |
| BudgetRate.RecentTokensCover | deploy/hindsight-budget-proxy/budget_proxy.py:393-399 | What the delay adds up covers their tokens |
| BudgetSystem.LinkedStep | deploy/hindsight-budget-proxy/budget_proxy.py:408-532 | Memory, files and owed writes stay consistent with the grants made, for every event of the system |
| BudgetSystem.StepView | deploy/hindsight-budget-proxy/budget_proxy.py:526-531 | Whatever pair of files a step can leave is at most two changes away from a pair that could be left before |
| BudgetSystem.FilesDominate | deploy/hindsight-budget-proxy/reconcile_ambiguous.py:35-57 | If each amount is matched by an entry on file at least as large, the files hold at least the sum |
| BudgetSystem.MaximumCallsCharge | deploy/hindsight-budget-proxy/reconcile_ambiguous.py:35-55 | Reconciling lists every pending request, each at its reserved maximum |
| BudgetSpec.RecordedCallCoversReport | deploy/hindsight-budget-proxy/budget_proxy.py:484-509 | A recorded call keeps the request, its endpoint and model, counts at least the reported tokens, at least the reserved ones where a count is missing, and costs at least their price at the input and output prices of that model |
| BudgetSpec.NoOverrunWithinReservation | deploy/hindsight-budget-proxy/budget_proxy.py:502-509 | A report within the reservation costs no more than the reservation |
| BudgetProxy.BudgetState.Start | deploy/hindsight-budget-proxy/budget_proxy.py:277-328 | Start accepts exactly ledgers of the same guard and initial spend at or below the effective limit, makes a fresh ledger where there is none, and opens the circuit when requests were left in flight, with the writes it makes |
| BudgetProxy.BudgetState.ScopeSpend | deploy/hindsight-budget-proxy/budget_proxy.py:348-353 | The loop computes the calls charged to a (scope, period) |
| BudgetProxy.BudgetState.PendingCost | deploy/hindsight-budget-proxy/budget_proxy.py:355-364 | The loop computes what is reserved against a budget |
| BudgetProxy.BudgetState.RecentAdmissions | deploy/hindsight-budget-proxy/budget_proxy.py:367-392 | The loops gather exactly the calls and reservations of the last minute: their number, tokens and start times |
| BudgetProxy.BudgetState.RateDelayFor | deploy/hindsight-budget-proxy/budget_proxy.py:393-406 | The delay of the specification, or the refusal of a request above the token limit |
| BudgetProxy.DelayEndsWithTheFirstOut | deploy/hindsight-budget-proxy/budget_proxy.py:400-406 | A request that must wait waits until the earliest admission of the last sixty seconds is sixty seconds old, and at least 0.05 seconds |
| BudgetProxy.BudgetState.TryReserve | deploy/hindsight-budget-proxy/budget_proxy.py:419-459 | One locked section grants, refuses or postpones exactly as specified; only a grant changes memory or disk |
| BudgetProxy.BudgetState.AwaitRoom | deploy/hindsight-budget-proxy/budget_proxy.py:408-460 | The waiting loop: with no other arrivals a request is admitted, or refused for good, within sixty-one seconds |
| BudgetProxy.BudgetState.Reserve | deploy/hindsight-budget-proxy/budget_proxy.py:333-460 | The whole call, judged by the configured limits of its endpoint and phase: what is granted is held under its endpoint, model and tokens at its price, and a refusal changes nothing |
| BudgetProxy.BudgetState.OpenCircuit | deploy/hindsight-budget-proxy/budget_proxy.py:462-469 | Opening the circuit, keeping or dropping the request |
| BudgetProxy.BudgetState.Discard | deploy/hindsight-budget-proxy/budget_proxy.py:471-474 | A discarded request leaves memory and the state file only |
| BudgetProxy.BudgetState.Record | deploy/hindsight-budget-proxy/budget_proxy.py:476-532 | A recorded request moves from in flight to the calls, ledger written first |
| BudgetProxy.BudgetState.Finish | deploy/hindsight-budget-proxy/budget_proxy.py:699-728 | By answer: without one, or with an undecodable success, the request stays in flight, the ledger as it was, and the circuit opens; 401 and 402 drop it and open the circuit with that status; another status of 400 or more drops it and leaves the circuit; a success with usage moves it to exactly one call; and the files each leaves |
| BudgetProxy.QuietWindowAdmits | deploy/hindsight-budget-proxy/budget_proxy.py:400-406 | A minute after the last admission nothing is delayed |
| BudgetProxy.EmptyWindowNeverBlocks | deploy/hindsight-budget-proxy/budget_proxy.py:402-403 | The branch for an empty window is unreachable under positive limits |
| BudgetProxy.ChargeMaximum | deploy/hindsight-budget-proxy/reconcile_ambiguous.py:33-55 | The loop charges every pending request once, in identifier order, at its maximum |
| BudgetProxy.Reconcile | deploy/hindsight-budget-proxy/reconcile_ambiguous.py:21-72 | The script: refusals change nothing; otherwise each pending request becomes one reconciled call at its reserved tokens and cost, ledger before state, and the circuit is closed |
| BudgetProxy.ResetProviderAuth | deploy/hindsight-budget-proxy/reset_provider_auth.py:27-59 | The script succeeds exactly on an open circuit with nothing in flight whose reason is a provider 401 or 402, acknowledged, with a token not used before; otherwise it changes nothing |
| RetainSystem.RetainCallsAreBounded | deploy/hindsight-canary/canary.py:1505-1642 | Over any crashes, restarts and adoptions a document is retained at most once plus its explicit retries on file, hence at most twice, and its recorded state changes at most seven times |
| RetainSystem.WithoutRetryAtMostOneCall | deploy/hindsight-canary/canary.py:1495-1503 | Never started with the retry option, at most once |
| RetainSystem.SucceededIsFinal | deploy/hindsight-canary/canary.py:1527-1531 | Success on file survives every later run |
| RetainSystem.ReachedSuccessIsFinal | deploy/hindsight-canary/canary.py:1527-1531 | The same from every state the system can reach |
| RetainSystem.SucceededOnlyIfCompleted | deploy/hindsight-canary/canary.py:1566-1575 | Over every run, a document is a success on file only if the remote reported its operation completed |
| RetainSystem.FailedOnlyIfGoneOrRaised | deploy/hindsight-canary/canary.py:1566-1642 | A document is a failure on file only if the remote reported an operation of it gone or a retain call raised |
| RetainSystem.CompletedStaysSucceeded | deploy/hindsight-canary/canary.py:1566-1582 | A completed operation of a submitted document, once saved, is a success on file over every later run |
| RetainSystem.InterruptedSubmissionHolds | deploy/hindsight-canary/canary.py:1556-1564 | A submission interrupted before its outcome was saved stops all further calls until the operation is adopted |
| RetainSystem.StepsMoveForward | deploy/hindsight-canary/canary.py:1439-1458 | Every change of a document lowers its rank: retries to come, then phase |
| RetainSystem.SafeStep | deploy/hindsight-canary/canary.py:1505-1642 | Every event keeps calls within the allowance recorded on file and memory ahead of the file |
| RetainSystem.ReachedIsOperated | deploy/hindsight-canary/canary.py:1570-1571 | A submitted document always names the operation its status is asked by |
| RetainController.Controller.Load | deploy/hindsight-canary/canary.py:1489-1503 | Start-up: state outside the corpus stops the run; with the retry option each failed document that was not retried yet is staged for its one retry, and every other document is as on file |
| RetainController.Controller.AdoptEntry | deploy/hindsight-canary/canary.py:1511-1553 | One queue entry: foreign work passes; ours is taken over unless its document has another one listed, is finished, or names an operation that is neither this one nor its parent; then the document is submitted, keeps its operation and retries, and notes a child as a worker |
| RetainController.Controller.AdoptActive | deploy/hindsight-canary/canary.py:1508-1554 | The queue loop: everything listed for a document of ours is submitted afterwards and on file |
| RetainController.Controller.RefreshSubmitted | deploy/hindsight-canary/canary.py:1566-1582 | The status loop by remote answer: completed succeeds with operation and retries unchanged, running is left alone, gone becomes the one retry exactly if the option is on and none was used, else failed; it stops exactly on a credential failure that is not retried |
| RetainController.Controller.SubmitAvailable | deploy/hindsight-canary/canary.py:1610-1642 | A submission is made only if submitted documents plus foreign operations stay within eight after it; each call goes to a document of the corpus that is not in the table or staged for its retry, once and in corpus order; unless it stops, one is left out only when the queue and our unlisted submissions make eight |
| RetainController.Controller.Submit | deploy/hindsight-canary/canary.py:1624-1642 | Claim, save, call, record, save: the answer names the operation, a call that raised leaves the document failed, the retries carry over; every submission notes its load |
| RetainController.Controller.Iterate | deploy/hindsight-canary/canary.py:1505-1643 | One pass of the loop, from the queue listing to the submissions: if any was made, our submitted documents plus the foreign operations are at most eight, and no document is called twice in it |
| RetainController.Controller.Loop | deploy/hindsight-canary/canary.py:1505-1643 | The whole loop against any sequence of consistent listings: the load at every submission it made was at most eight, and no document is called more than its once plus its one retry |
| RetainController.TheRestIsForeign | deploy/hindsight-canary/canary.py:1610-1616 | The identifiers left after taking away those listed for our documents are exactly the foreign operations |
| RetainController.InFlightCovers | deploy/hindsight-canary/canary.py:1610-1616 | The count used covers everything of ours plus all foreign work |
| Chunking.MessageChunks | deploy/hindsight-canary/canary.py:711-731 | The chunks are the messages in order, each unchanged if its text with 80 more fits the bound and otherwise cut to its first bound - 200 characters and marked, numbers kept; each chunk is within the bound, and no other contiguous split within a positive bound has fewer; at bound zero there is one chunk per message |
| Chunking.PackGreedily | deploy/hindsight-canary/canary.py:712-728 | The loop keeps greedy ahead of every split of the prefix read so far |
| Chunking.AheadStep | deploy/hindsight-canary/canary.py:716-720 | Opening a chunk only when the next message does not fit never falls behind any split |
| Chunking.ZeroBoundIsNotOptimal | deploy/hindsight-canary/canary.py:724-726 | At bound zero a single group would fit, so the count is not minimal: an oversized message counts for nothing there |
| Chunking.ChunksKeepOrder | deploy/hindsight-canary/canary.py:711-731 | Chunks concatenate back to the messages, each as it belongs |
| StratifiedPick.Pick | deploy/hindsight-canary/canary.py:133-189 | Exactly the requested number of distinct rows; of every stratum in hash order and nothing left that has a smaller hash; no stratum more than one pick ahead of another that still has rows; the shortfall error is unreachable |
| StratifiedPick.Group | deploy/hindsight-canary/canary.py:155-173 | Grouping and sorting give each stratum its hash-ordered queue |
| StratifiedPick.Round | deploy/hindsight-canary/canary.py:178-186 | One round serves every key once until the count is met |
| StratifiedPick.Choose | deploy/hindsight-canary/canary.py:175-186 | The loop stops with the count or with every row used |
| StratifiedPick.NoRowsLeft | deploy/hindsight-canary/canary.py:185-188 | A round without progress means every row was chosen |
| IndexerChain.ScanRanges | indexer/src/runtime.rs:30-42 | The page iterator, run to its end |
| IndexerChain.PagesCoverOnce | indexer/src/runtime.rs:26-42 | Every block of the range lies in exactly one page, none outside it, no page longer than the chunk |
| IndexerChain.SelectAdjacent | indexer/src/runtime.rs:274-286 | Reading adjacent ranges one after the other is reading their union |
| IndexerDelivery.LiveDeliveryIsExact | indexer/src/runtime.rs:296-332 | A live stream holds exactly the logs of its cluster since it attached that are not messages, and of the messages exactly those whose recipient is its member; every stream holds nothing else, no log twice and none out of chain order |
| IndexerDelivery.CheckpointSeparates | indexer/src/runtime.rs:334-347 | A checkpoint for block b comes after every log of the cluster up to b, of the messages those to the member, and before every log above it, also on streams that ended |
| IndexerDelivery.PageDelivered | indexer/src/runtime.rs:301-347 | Offering one page keeps a stream exact, whether all sends succeed or one fails and ends it |
| IndexerDelivery.SentPage | indexer/src/chain/watcher.rs:49-62 | What a page adds to a stream: only logs of the page of its cluster, of the messages only those sent to its member, and its checkpoint; all of them, the checkpoint last, if the stream is still live |
| IndexerDelivery.SentThen | indexer/src/state/subscribers.rs:61-87 | Offers compose; nothing is delivered after a failed send |
| IndexerRuntime.Runtime.CompleteIff | indexer/src/runtime.rs:206-382 | In every state, whatever ticks ran, failed or overtook each other and whatever admissions are half way: all logs of a known cluster up to the watermark are ingested if and only if none lies after its backfill and at or below the watermark from which pages were read for it |
| IndexerRuntime.WatcherOvertakesDiscovery | indexer/src/runtime.rs:361-382 | The run that loses logs: the watcher passes a sampled head, the pass admits its cluster through it, and after any later ticks of both loops exactly the logs in between are missing from the history |
| IndexerRuntime.LostLog | indexer/src/runtime.rs:361-382 | A chain on which that run loses a log of a known cluster |
| IndexerRuntime.Runtime.RevealCluster | indexer/src/runtime.rs:57-66 | A cluster becomes visible to the watcher, with its backfill read and not handed over |
| IndexerRuntime.Runtime.HandOverBackfill | indexer/src/runtime.rs:223-231 | Its backfill goes into the history behind what watcher pages brought meanwhile |
| IndexerRuntime.PageDuringAdmission | indexer/src/runtime.rs:223-286 | A tick between the two: its page precedes the whole backfill in the history |
| IndexerRuntime.Runtime.SharedWatchTick | indexer/src/runtime.rs:263-293 | A watcher tick before whose pages admissions make any steps and sessions subscribe: sessions it began with that keep up are sent every log of theirs in the blocks it moved over, no session anything that is not its own; when it completes no page has been read for clusters it did not list and nothing sent to their sessions |
| IndexerIngest.BackedHolds | indexer/src/runtime.rs:206-239 | A log up to the watermark is in the history if and only if it is not between the backfill and the pages of its cluster |
| IndexerIngest.BackedIsCompleteIff | indexer/src/runtime.rs:111-135 | The history holds every log of the cluster if and only if no log lies between its backfill and its pages |
| IndexerIngest.PageBacked | indexer/src/runtime.rs:274-286 | A watcher page extends the second read of every known cluster |
| IndexerIngest.BackfillBacks | indexer/src/runtime.rs:223-231 | Handing over a backfill puts the cluster's logs up to its head behind those of the pages read since it became visible |
| IndexerIngest.BackfillIsWhole | indexer/src/runtime.rs:216-221 | A backfill that starts at the deployment or the floor reads the cluster's whole history |
| IndexerIngest.GapIsEmpty | indexer/src/runtime.rs:46-55 | Starting above the floor skips no log |
| IndexerRuntime.Runtime.BootCatchup | indexer/src/runtime.rs:91-145 | Boot, failing at any read, leaves a state from which the loops can go on |
| IndexerRuntime.Runtime.BootAdd | indexer/src/runtime.rs:185-200 | A cluster is made known only after its metadata was read |
| IndexerRuntime.Runtime.WatchTick | indexer/src/runtime.rs:263-293 | A watcher tick, failing at any read: every session that keeps up is sent all logs of its cluster in the blocks the watermark moved over, of the messages those to its member, and no session ever anything else; the reads of every cluster stand; with all reads up it reaches the head |
| IndexerRuntime.Runtime.WatchPage | indexer/src/runtime.rs:276-286 | Read, ingest, publish the watermark, deliver, for the clusters listed when the tick began; their sessions that keep up end with the page's checkpoint |
| IndexerRuntime.Runtime.Dispatch | indexer/src/runtime.rs:296-347 | Every session is offered its logs in order and then its checkpoint; what is added to a stream is of its cluster and, if a message, addressed to its member, and a live stream gets all of that |
| IndexerRuntime.Runtime.SendLive | indexer/src/state/subscribers.rs:61-87 | A send delivers or ends the stream |
| IndexerRuntime.Runtime.Hydrate | indexer/src/runtime.rs:206-239 | An admission without interference, with a sampled head ahead of or behind the watermark: a failed backfill leaves the cluster unknown and everything as it was; a successful one ingests its whole history through that head |
| IndexerRuntime.Runtime.DiscoveryTick | indexer/src/runtime.rs:360-389 | With a sampled head ahead of or behind the watermark: a complete pass knows every deployment up to it; a failed one is retried from the same block; with all reads up it completes; the reads of clusters known before are untouched |
| IndexerRuntime.Runtime.Attach | indexer/src/grpc/service.rs:169-206 | A new subscription starts at the watermark it had sampled and is heard from the one at its registration |
| IndexerRuntime.Runtime.SentIff | indexer/src/runtime.rs:296-332 | After any ticks, a session to which no send fails has been sent a log of its cluster, not a message to someone else, above the watermark it had sampled if and only if the log lies above the block it is heard from; no session has been sent anything else |
| IndexerRuntime.Runtime.NothingMissedIff | indexer/src/grpc/service.rs:169-206 | It has been sent all of them up to the watermark if and only if there is none between the two blocks |
| IndexerRuntime.LateSubscription | indexer/src/grpc/service.rs:169-206 | A session that samples the watermark before a tick and is registered after it is sent none of the tick's logs |
| IndexerRuntime.MissedDelivery | indexer/src/grpc/service.rs:169-206 | A chain on which it misses a log |
| IndexerRuntime.Runtime.UpToDate | indexer/src/runtime.rs:91-145 | While no pass is overtaken and no admission interrupted, every log of a known cluster up to the watermark is ingested, after any successful or failed ticks |
| IndexerRuntime.Serve | indexer/src/main.rs:103-128 | Boot and then any interleaving of ticks, of the single steps of admissions, and of subscriptions of any member with or without checkpoints keeps all of this, also within watcher ticks and with heads and watermarks sampled at any earlier moment; undisturbed passes and subscriptions keep every cluster complete and every session heard from where it attached |
| IndexerRuntime.CaughtUpClusterIsServedExactly | indexer/src/query.rs:433-480 | In any such state a caught-up cluster with no log between its backfill and its pages, nor in a page read during its admission, is served as if its logs had been read exactly once |
| ReadModel.OverlapServesTheSame | indexer/src/query.rs:136-228 | A prefix and then any overlapping suffix serve the same members, keys, order, originator, commitment and scanned block as one reading, if the last keys published in the prefix land |
| ReadModel.ReplayHarmlessIff | indexer/src/query.rs:183-192 | Overlaps of every length are harmless exactly when each member shows the last key published for it |
| ReadModel.ReplayHarmlessIffKeysLand | indexer/src/query.rs:149-192 | The same condition on the log: the last key published for each registered member comes after its first registration or is the key it registered with |
| ReadModel.ProjectionShows | indexer/src/query.rs:149-192 | The projection knows exactly the registered members, each with the last key published after its registration |
| ReadModel.MembersCarryTheirLogs | indexer/src/query.rs:149-192 | After any logs every served member carries the block, index, contract, attestor, exchange key and registration time of the first registration of its id, and the last key published after it or else the one it registered with; every registered id is served once, in chain order |
| ReadModel.CommitmentAndScan | indexer/src/query.rs:136-228 | The commitment is the last one set, and the scanned block the highest ingested or the one before the deployment |
| ReadModel.EarlyKeyShowsOnReplay | indexer/src/query.rs:183-192 | A key published before its member registers is lost on one reading and shown after a second |
| ReadModel.FollowedKeysAreCurrent | indexer/src/query.rs:150-192 | If publications follow registration, every member shows its last published key |
| ReadModel.ProjectionSettles | indexer/src/query.rs:136-228 | Members are distinct and sorted, every registration is present, the commitment and scanned block are the latest |
| ReadModel.TimelineIsSortedRecord | indexer/src/query.rs:227-228 | The timeline is in chain order and holds the deployment and every ingested log, once per ingestion |
| ReadModel.ServedAsIfReadOnce | indexer/src/query.rs:433-480 | The backfill and the pages of a cluster, overlapping or adjoining or apart without a log in between, serve the same as one reading, if no page with a log of it came before the backfill |
| ReadModel.BackfillAfterPageLosesKey | indexer/src/query.rs:183-192 | That condition is needed: a key in a page handed over before the backfill that registers its member is lost |
| ReadModel.ClustersAreIsolated | indexer/src/query.rs:143-147 | Each cluster is projected from its own logs; logs of unknown clusters are dropped |
| ReadModel.Model.AddCluster | indexer/src/query.rs:82-130 | A new cluster starts empty at the block before its deployment and is listed once, the list staying in deployment order; a known one changes nothing |
| ReadModel.Model.UpdateMembers | indexer/src/query.rs:149-192 | The first registration of an id adds the member with the fields and position of the log, a key replaces that of the member if it is known, and nothing else changes anything |
| ReadModel.Model.Ingest | indexer/src/query.rs:136-228 | Ingesting changes the one cluster: its commitment, scanned block, members and timeline, each as the log says; logs of unknown clusters change nothing |
| Sorting.StableSortSorts | indexer/src/query.rs:169-169 | Sorting by (block, log index) gives a sorted permutation |
| Sorting.SortPushed | indexer/src/query.rs:169-169 | Pushing and sorting inserts behind equal keys |
| RecoveryAudit.GateForcesPresence | deploy/hindsight-recovery/recovery.py:224-259 | Counting alone: behind a passing gate and a clean audit every submitted document is already at the remote |
| RecoveryAudit.ResumeArithmetic | deploy/hindsight-recovery/recovery.py:1055-1072 | Refreshing then makes the recount pass, with the remote set equal to the succeeded set |
| RecoveryAudit.GateFailure | deploy/hindsight-recovery/recovery.py:224-259 | The gate passes exactly under its listed conditions |
| RecoveryAudit.RecountIff | deploy/hindsight-recovery/recovery.py:1064-1070 | The dictionary comparison holds exactly when all rows are queued or succeeded, the number is right and neither group is empty |
| RecoveryAudit.SettlementIff | deploy/hindsight-recovery/recovery.py:1174-1181 | Settling at the cap succeeds exactly when no row is submitting, failed or blocked and the cap leaves a row queued |
| RecoveryAudit.InterruptedRefreshResumes | deploy/hindsight-recovery/recovery.py:594-611 | A refresh interrupted after any of its row updates can be repeated: it ends in the same rows, with the same number attempted in between |
| RecoveryAudit.ProjectionCoversTheRest | deploy/hindsight-recovery/recovery.py:211-213 | A projection within the budget covers the rest of the batch at the conservative cost |
| RecoveryGuard.QuickFailures | deploy/hindsight-recovery/recovery.py:360-416 | Every failing check is reported and nothing else; none is exactly if every field of the snapshot is as it must be |
| RecoveryGuard.NoneFailsIff | deploy/hindsight-recovery/recovery.py:360-416 | No check fails if and only if, field by field: the batch is complete without errors and within the caps, the agent circuit closed only while running below the cap, the pocket open and idle, both persistent limits as configured, Hindsight healthy with the expected failures and idle unless running, the provider within its limit, the spending circuit as the phase expects, and the projection within the budget |
| RecoveryGuard.CleanAccountsForTheBatch | deploy/hindsight-recovery/recovery.py:360-416 | In a clean snapshot every row of the approved batch is queued, active or succeeded, and no more are active than permitted |
| RecoveryGuard.CleanCanAffordTheRest | deploy/hindsight-recovery/recovery.py:360-416 | From a clean snapshot the whole batch finishes within the hard budget if no remaining document costs more than the estimate |
| RecoveryGuard.SetsAreClean | deploy/hindsight-recovery/recovery.py:434-479 | The set checks of the audit row by row: distinct documents, each succeeded one at the remote, and each at the remote succeeded, submitting or submitted |
| RecoveryGuard.Recovery.GuardTick | deploy/hindsight-recovery/recovery.py:1276-1323 | If emergency opening works, a tick ends with the circuit open or with phase running, attempted below the cap and every quick check true of its snapshot |
| RecoveryGuard.Recovery.Inspect | deploy/hindsight-recovery/recovery.py:1277-1307 | The checks of a tick: what passes, when the circuit is opened at the cap and what is saved |
| RecoveryGuard.Recovery.HandleFailure | deploy/hindsight-recovery/recovery.py:1312-1319 | The handler opens the circuit unless it is proven open |
| RecoveryGuard.Recovery.SettleCap | deploy/hindsight-recovery/recovery.py:1167-1185 | It goes ahead exactly from a hold at the cap with nothing at work and every submitted row proven; with the exact condition of its check; the phase is saved before that check, so a failed one is not retried; a refresh that raises may have changed submitted rows and no others |
| RecoveryGuard.Recovery.PrepareResume | deploy/hindsight-recovery/recovery.py:962-1080 | When it refuses, fails or succeeds; a refresh that raises may have changed submitted rows and no others; with no other writer one that succeeds never fails its recount, and from then on, even if the final audit fails, every row is queued or succeeded and the remote holds exactly the succeeded documents |
| RecoveryGuard.Recovery.StableWindow | deploy/hindsight-recovery/recovery.py:1087-1102 | Ten clean snapshots at one spend |
| RecoveryGuard.Recovery.CloseAgent | deploy/hindsight-recovery/recovery.py:951-960 | Closing succeeds only from open |
| RecoveryGuard.Recovery.Release | deploy/hindsight-recovery/recovery.py:1082-1137 | The circuit is closed exactly out of a clean open hold; the release succeeds exactly if the first wave does and reopens the circuit otherwise |
| RecoveryGuard.Recovery.WatchFirstWave | deploy/hindsight-recovery/recovery.py:1106-1137 | The release succeeds exactly if some look finds the permitted wave and none before it found too much |
| RecoveryGuard.CrashedReleaseIsReopened | deploy/hindsight-recovery/recovery.py:1103-1105 | A release that dies between closing the circuit and saving the phase is reopened by the next tick, whatever became of the rows and the remote in between |
| SseReader.Reader.ReadAll | deploy/fugu-router/fugu_session_router.py:1234-1262 | For every way of cutting a byte stream into chunks, the collected events are those of the line-by-line parse of the whole stream, unterminated last line included, and the bytes are forwarded unchanged |
| SseReader.Reader.Consume | deploy/fugu-router/fugu_session_router.py:1234-1251 | After each chunk the finished lines of everything received are accounted for |
| SseReader.Reader.ConsumeLine | deploy/fugu-router/fugu_session_router.py:1237-1251 | One pass of the inner loop takes the first finished line off the buffer and accounts for it |
| SseReader.Reader.ReadLine | deploy/fugu-router/fugu_session_router.py:1239-1251 | One line yields an event exactly when it carries one: "data:" among blanks, and a payload other than "[DONE]" that decodes |
| SseReader.LineCarries | deploy/fugu-router/fugu_session_router.py:1239-1251 | A line yields an event if and only if it is, up to blanks, "data:" and a nonempty payload other than "[DONE]" that decodes to it; never two |
| SseReader.LinesAreTheSplit | deploy/fugu-router/fugu_session_router.py:1237-1238 | The reference lines hold no newline and put together again are the stream |
| SseReader.BuildResponse | deploy/fugu-router/fugu_session_router.py:240-256 | Identifier, time and model are each the first event's that has one, the usage the last event's that has one, with all usage events listed |
| SseReader.FirstIsEarliest | deploy/fugu-router/fugu_session_router.py:244-246 | A field set once is the first event's that has it |
| SseReader.LatestIsLast | deploy/fugu-router/fugu_session_router.py:247-249 | The usage is the last event's that has one |
| SseReader.Forward | deploy/fugu-router/fugu_session_router.py:1253-1276 | The recorded response depends on the bytes alone: identifier, time and model of the first event that has each, usage of the last, all usage events in order |
| RankFusion.Fuse | deploy/hindsight-canary/evaluation.py:67-81 | The result is the first `limit` of the ranking of every document some arm hit |
| RankFusion.FuseArm | deploy/hindsight-canary/evaluation.py:69-80 | The inner loop adds one arm, counting each document once |
| RankFusion.FusionIsScored | deploy/hindsight-canary/evaluation.py:77-77 | A document's score is the sum over arms of 1 / (60 + its first rank) |
| RankFusion.FusionListsRanks | deploy/hindsight-canary/evaluation.py:78-78 | It lists its first rank in exactly the arms that hit it |
| RankFusion.FusionCarriesPayload | deploy/hindsight-canary/evaluation.py:76-76 | A document carries the row of the first arm that hit it |
| RankFusion.FusionCarriesContext | deploy/hindsight-canary/evaluation.py:79-80 | And the first context that is not empty, in the order of the arms |
| RankFusion.TopByScore | deploy/hindsight-canary/evaluation.py:81-81 | Results are ordered by score, equal ones by source and document, each with its reciprocal-rank sum, and what was cut ranks below all of them |
| RankFusion.ResultsAreDistinct | deploy/hindsight-canary/evaluation.py:73-75 | No document is listed twice |
| RankFusion.PermutedArmsRankAlike | deploy/hindsight-canary/evaluation.py:67-81 | Permuting the arms changes neither documents nor scores nor order |
| VmReplacement.CreationsAreAccounted | deploy/generic-node-box.py:152-214 | Over any crashes and retries the creations are exactly accounted for: one for a live journaled replacement, and one each for lost journal entries, vanished replacements and overwritten entries of live ones |
| VmReplacement.TargetGoneBeforeCreate | deploy/generic-node-box.py:165-186 | CreateVm never runs beside the old machine |
| VmReplacement.LiveReplacementDuplicatedIff | deploy/generic-node-box.py:152-214 | For a live journaled replacement that does not vanish, over any later attempts: once an undisturbed attempt follows, a second machine has been created beside it if and only if some attempt neither read the journal nor died before writing it |
| VmReplacement.EntryKeptIff | deploy/generic-node-box.py:154-186 | The entry of a live replacement survives an attempt if and only if it is read or the attempt dies before writing |
| VmReplacement.AttemptDuplicatesIff | deploy/generic-node-box.py:156-207 | An attempt itself creates beside it if and only if it overwrites the entry and reaches CreateVm |
| VmReplacement.TwoLiveReplacements | deploy/generic-node-box.py:156-187 | The run in which the overwriting attempt dies and a later one, reading the journal, creates beside the live machine |
| VmReplacement.UndisturbedAttemptFinishes | deploy/generic-node-box.py:152-214 | From wherever earlier attempts stopped, an undisturbed one ends with the old machine gone and a live journaled replacement |
| VmReplacement.RunConsistent | deploy/generic-node-box.py:144-150 | Journal and machines stay consistent over every run |
| VmReplacement.Host.RecreateVm | deploy/generic-node-box.py:152-214 | The procedure, with a death possible between any two external operations: at a live replacement it can read of it stops, from a mark it can read of it only creates and writes the entry, and otherwise it removes, marks, creates and writes in this order, as far as it gets |

## Left out

- HTTP servers and clients, threads' scheduling details, SSH tunnels, SQL, systemd, the machine manager's own calls: they are
  nondeterministic steps, parameters or fates of an attempt.
- Payload checks before a reservation (deploy/hindsight-budget-proxy/budget_proxy.py:208-273): a request arrives with its
  endpoint, model and token counts.
- Request identifiers never repeat; timestamps that do not parse are not modelled; amounts read from a ledger are numbers.
- The two repair scripts run while the proxy is down, as deploy/compose/hindsight-node.yaml:344-416 arranges; the last-run
  notes they leave in the state file, and the refusal of an empty reset token, are not modelled.
- BudgetRate.EveryWindowWithinLimits: needs a clock that never runs backwards and reports no larger than the reservation;
  the code enforces neither.
- BudgetDurability.SentRequestsStayOnFile: the files exist from the first start on, and a crash falls between writes, each of
  which replaces its file at once.
- RetainSystem.RetainCallsAreBounded: the corpus is fixed over the runs; the payload-hash check and the failure-rate and
  completion exits of the loop are left out, so the controller may run longer than the code does.
- Summarising, cards, questions and gates of the canary: linear transformations around model calls.
- StratifiedPick.Pick: content hashes are numbers computed beforehand.
- StratifiedPick.Group: a row comes with its stratum as a number in the order of the keys' hashes; the quantile buckets, the
  choice of the twenty largest projects and the summary annotation that make up the key are not modelled.
- IndexerRuntime.Runtime.WatchTick: the chain is the final one without reorganisations, and block numbers stay below the 64-bit
  limit by a page. Between its read and its delivery a page is one step, so a subscription registered in between, which would
  only see logs twice, is not modelled.
- IndexerRuntime.Runtime.DiscoveryTick: a pass is one step; admissions half way are steps of their own, and a backfill is handed
  over in one step.
- IndexerRuntime.Runtime.Attach: the replayed prefix of a subscription, its cursors and acknowledgements are left out.
- The member cache, health gauges and metrics of the indexer, and its global scanned block.
- ReadModel.Model.Ingest: the registration time is part of the log; the fallback to the block number when the contract
  cannot be read is not modelled. Address texts, mesh addresses and JSON are left out.
- RecoveryGuard.Recovery.Inspect: of the full audit only the set checks are modelled; histories, payload hashes, the provider
  ledger and replica roles are one flag.
- RecoveryGuard.Recovery.SettleCap: a refresh that reports no failure has completed every submitted row; the outbox worker is not
  part of this model.
- RecoveryGuard.Recovery.PrepareResume: nobody else writes the outbox behind the open circuit; of the outbox worker only the
  result of its refresh is modelled. The rest of the full audit is the same flag.
- RecoveryGuard.Recovery.Release: a snapshot that cannot be read during the first wave leaves everything to the guard and is
  not modelled; neither is the stop on a clock.
- The incident tables, the provider-failure recovery, the watchdog and the operator's phase command of the recovery script.
- SseReader.Reader.ReadLine: UTF-8 and JSON decoding and the choice of metadata are an arbitrary decoder. Only one-line
  `data:` fields are read, as in the code, a subset of section 9.2 of the WHATWG HTML Standard.
- RankFusion.Fuse: the limit is not negative, and identifiers are numbers in the order of the texts they stand for.
- VmReplacement.Host.RecreateVm: waiting for the old machine to stop changes nothing and is left out; a machine the manager
  does not find is gone.
- The other node scripts, provisioning workflows, the serialising canary budget proxy and the credential patterns.
- Floating-point rounding.

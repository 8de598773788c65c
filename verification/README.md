# Durable write-ahead protocols of LWS, modelled in Dafny

LWS supervises long-running chat workers in ordinary browser windows. Most of its code is about effects
that cannot be undone or repeated: open a window, send a prompt, close a window. Before each of them a row
is written, and every later step must not replay an effect whose outcome is unknown. This project models
these protocols and proves what they keep over every run, with process deaths and exceptions anywhere.

Each protocol is modelled twice, and the two are tied together.

- As a **step machine**: one action per durable write, external call, or read that is acted on later. A run
  is a sequence of actions, each enabled in the state before it. The safety theorems are statements over
  all runs.
- As **imperative code** in the form of the source: a class with the tables as fields and methods that
  change them row by row. The methods of `ChatStore`, `ChatEngine`, `SpawnExecutor` and `ActionRuntime`
  keep a ghost run of the machine: their `Valid()` says that the writes and calls made so far are a run
  that ends in the tables, so every theorem about runs holds of them. The methods of `DispatcherLease`
  and `ProbeRegistry` are proved equal to the transactions that the machine applies. `BatchPool`,
  `ChildBatch` and `FairScheduler` are proved against relations on their tables and inputs.

External calls are oracles that may answer anything, including an exception. Ghost logs record them with
their arguments and answers; no action and no branch reads a log. The contracts of the operations speak of
these answers and of the rows' own fields: which row each answer must lead to, what must be called next, and
what alone may end a command early. They hold in both directions, so an operation may neither do more than
its evidence allows nor withhold what the evidence demands.

| module | what it models |
|---|---|
| `ChatProtocol`, `ChatSafety`, `ChatTheorems` | the dispatcher's tables and engine as a step machine, its invariant, its theorems |
| `ChatReach`, `ChatLimits`, `ChatRuns` | which states can still be reached from a state; exact conditions over runs; complete runs that show them |
| `ChatStore`, `ChatEngine` | the same store and engine as classes, statement for statement |
| `DispatcherLease` | the single-row lease, its workers, and the helpers that take over from dead workers |
| `ProbeOps`, `ProbeRegistry` | probe operations, their planners and decision function; the registry's transactions |
| `ProbeSafety`, `ProbeTheorems`, `ProbeResults` | the probe protocol composed with windows and observers; invariants; results |
| `ProbeProgress` | when a decision, authority, completion or arming succeeds: if and only if |
| `SpawnProtocol`, `SpawnSafety`, `SpawnExecutor` | child-spawn attempts as a step machine; at-most-once; the operator's commands |
| `BatchPool`, `ChildBatch`, `BatchLimits` | who owns which window, the batch loop that recycles windows within a bound, and when two children share one |
| `ActionProtocol`, `ActionRuntime` | action attempts, recovery budget and overrun clock; the executor and the watchdog cycle |
| `FairScheduler` | one planning cycle and the bounded waiting of repeated cycles |

## What turned out not to hold

The code is modelled as it is. Where a promise fails, the project gives the failing case and the exact
condition.

- **A cancelled chat job can still be sent.** The engine works from a snapshot. A cancelled job comes back in
  some continuation if and only if the engine has it in hand, or still lists it and each older unfinished job
  of its conversation can be cancelled, or finished before the pass is over (`ComesBackIffRevivable`).
  `CancelledJobIsSent` is a complete run for every job that can be enqueued.
- **A page can be closed twice in one idle episode** exactly when the process dies between the close call
  and the write of its row (`ClosesOncePerEpisode`; `CrashRepeatsClose`, from every such state and whatever
  else is queued or open; `PageIsClosedTwice`, from empty tables).
- **A job whose nonce was seen twice can still be acknowledged.** The job row is written before the page row,
  and a death in between leaves the page open. It can be acknowledged in some continuation if and only if the
  page row has not been written (`DuplicateIsFinalIff`; `DuplicateIsAcknowledged` is a run). In general a job
  that may have been sent can be acknowledged if and only if its conversation has an active page
  (`AcknowledgeableIffPaged`).
- **A job whose window open had an unknown outcome can still be sent.** A death before the second row leaves
  OPENING, from which the next worker adopts a window. It can be sent in some continuation if and only if its
  row still says OPENING (`UnknownOpenSendableIff`; `UnknownOpenIsSent` is a run).
- **Reconciling twice with one observation is not always the same as once.** It differs if and only if the
  observation's timestamp lay in the future the first time, no longer does the second time, and the
  observation then says something definite (`ReconcileIsIdempotentIff`, `EarlyObservationIsNotIdempotent`).
- **Arming does not compare an operation's slot id with its snapshot's.** A completion keeps a single slot
  row if and only if the two agree, as they do for every planned operation (`CompletionKeepsOneSlotIff`,
  `PlannedOperationsKeepTheSlot`).
- **Reconciling a spawn at `WINDOW_BOUND` that shows a conversation adopts the worker and then raises**
  (`PublishRefusedIffBound`, `BoundReconcileAdoptsAndRaises`).
- **Recycling a window can leave it with two owners.** After the previous anomaly and a session of the adopted
  worker, a child owns a window both through its worker and through an unresolved attempt, and the batch
  accepts the registry (`BoundReconcileLeavesAnomaly`, `AnomalyIsRecycledShared`; `SharedRegistryIsAccepted`
  is such a registry). Recycling a page stays exclusive if and only if its child has no such attempt
  (`TakeFromWorkerExclusiveIff`), and some page the batch may recycle ends up shared if and only if some
  durable child owns a window twice over (`RecyclingMayShareIff`). `AdvanceBatch` keeps windows exclusive
  whenever there is no such child.
- **A second action of a task can be open at a transport call**, even one that was called before. It is so if
  and only if the calling attempt was closed by someone between the executor's last check and the call, and
  the task's newest attempt is open (`OtherOpenAtCallIff`; `LateCallMeetsOpenAttempt` is a run).

## Assumptions

- The clock of each protocol does not go back; times are integers. Process ids, owner ids, owner tokens and
  attempt ids are not reused.
- One chat engine runs at a time. That is what `DispatcherLease.MutualExclusion` provides.
- The length of a chat pass is a parameter of its snapshot; the engine class passes the source's 200 rows.
- Each probe OPEN authority creates at most one window with its tag; complete observations are honest about
  tagged windows; a direct completion is published only after the transport reported the change.
- One operator process runs child-spawn commands at a time, a rate-limited send had no effect, and worker
  history is never deleted.
- Opening a window yields an identity no row names, reusing one yields the source's identity, and adoption
  registers a worker id that no other task has. A batch is not interfered with while it runs.
- One watchdog process creates overrun continuations. Executors and operators act concurrently with it.

## Model

| member | source | states |
|---|---|---|
| ChatTheorems.SendsAtMostOnce | src/lws/chat_dispatch.py:1346-1401 | over every run, each further send of a job follows only a send proven effect-free and rate-limited |
| ChatTheorems.SendIsFenced | src/lws/chat_dispatch.py:1346-1374 | every send is for the oldest unfinished job of its conversation, behind its durable SUBMITTING row, on an open page without a running idle timer |
| ChatTheorems.HeadOfLine | src/lws/chat_dispatch.py:676-713 | in every reachable state an unfinished job behind another one of its conversation is QUEUED, untried and silent; opens, sends, binds and acknowledgements of a conversation come in row order |
| ChatTheorems.OnePagePerConversation | src/lws/chat_dispatch.py:493-540 | no conversation key ever has two pages that are OPEN or IDLE |
| ChatTheorems.WindowBudget | src/lws/chat_dispatch.py:1271-1335 | owned open windows never exceed the largest configured bound plus those that are open now without having passed the gate |
| ChatTheorems.ClosesAreTimely | src/lws/chat_dispatch.py:1443-1467 | every close call comes at least max(1, grace) after the page's current idle episode began |
| ChatTheorems.ClosesOncePerEpisode | src/lws/chat_dispatch.py:1443-1467 | a page is closed once per idle episode unless the engine died right after a close call |
| ChatRuns.CrashRepeatsClose | src/lws/chat_dispatch.py:1443-1467 | from every state between a close call and its row, a run exists in which the engine dies and the page is closed again in the same episode, with any other jobs and pages and any length of pass |
| ChatRuns.PageIsClosedTwice | src/lws/chat_dispatch.py:1443-1467 | a complete run from empty tables with two close calls in one episode |
| ChatTheorems.CloseIsFenced | src/lws/chat_dispatch.py:1443-1467 | a close is called only on an owned idle page whose conversation has no unfinished job that any step has touched |
| ChatTheorems.FrozenForever | src/lws/chat_dispatch.py:1403-1431 | once a conversation's oldest unfinished job may have been sent and has no page, no run ever opens, sends, binds or acknowledges for it again |
| ChatTheorems.AmbiguityFreezes | src/lws/chat_dispatch.py:1278-1332 | the second write after an ambiguity, the row of an unknown open or the page row of a duplicated nonce, freezes the conversation |
| ChatTheorems.AmbiguousJobNeverAcknowledged | src/lws/chat_dispatch.py:1403-1431 | after that second write the job is never acknowledged and its attempts never change |
| ChatLimits.AcknowledgeableIffPaged | src/lws/chat_dispatch.py:1403-1441 | in every reachable state a job that may have been sent can be acknowledged in some continuation if and only if its conversation has an active page |
| ChatLimits.DuplicateIsFinalIff | src/lws/chat_dispatch.py:1403-1431 | after a nonce was seen twice the job can still be acknowledged in some continuation if and only if the page row has not been written |
| ChatLimits.UnknownOpenSendableIff | src/lws/chat_dispatch.py:1278-1332 | after an open of unknown outcome the job can be sent in some continuation if and only if its row still says OPENING |
| ChatRuns.DuplicateIsAcknowledged | src/lws/chat_dispatch.py:1403-1441 | a run from empty tables to a duplicated nonce from which the job is acknowledged |
| ChatRuns.UnknownOpenIsSent | src/lws/chat_dispatch.py:1278-1332 | a run from empty tables to an open of unknown outcome from which the job is sent |
| ChatTheorems.RevivableIffInHand | src/lws/chat_dispatch.py:1469-1508 | the next step can take a cancelled job out of CANCELLED if and only if the engine has it in hand |
| ChatLimits.ComesBackIffRevivable | src/lws/chat_dispatch.py:1469-1508 | some continuation takes a cancelled job out of CANCELLED if and only if it is in hand, or still listed with no older job of its conversation past cancelling and past finishing in this pass |
| ChatTheorems.CancelIsFinalUnlessHeld | src/lws/chat_dispatch.py:668-674 | a cancelled job that the engine does not hold stays cancelled in every run |
| ChatTheorems.HeldCancelIsSent | src/lws/chat_dispatch.py:1346-1374 | a job cancelled while the engine is about to send it is sent |
| ChatRuns.CancelledJobIsSent | src/lws/chat_dispatch.py:668-674 | every job with an address or a project has a run that lists it, cancels it, and then opens a window for it and sends it |
| ChatSafety.RunKeepsInv | src/lws/chat_dispatch.py:1469-1514 | every run keeps the invariant on tickets, queue heads, sends, pages, budget, names and idle timers |
| ChatSafety.EligibleTickets | src/lws/chat_dispatch.py:676-694 | the snapshot of a pass lists eligible rows in row order with the rows as they are |
| ChatSafety.SnapshotIsExact | src/lws/chat_dispatch.py:676-694 | the snapshot lists the first due rows, in the seven open states and with their time come, in row order up to its limit, and leaves none of them out |
| ChatSafety.RunKeepsDispatch | src/lws/chat_dispatch.py:620-666 | no step of any run changes a job's key, dispatch key, prompt or project |
| ChatStore.EnqueueReplays | src/lws/chat_dispatch.py:344-467 | at any later time repeating a request with its dispatch key returns the row it added and adds nothing, unless that row now shows another conversation |
| ChatStore.OutcomeIsRight | src/lws/chat_dispatch.py:344-467 | a request is refused if and only if it is malformed, contradicts the row with its dispatch key, or cannot be placed; otherwise it repeats a row or becomes exactly one |
| ChatStore.ChatDispatchStore.Enqueue | src/lws/chat_dispatch.py:344-467 | refuses exactly the malformed, contradicting or unplaceable requests and changes nothing; else returns the row it repeats, or adds exactly the row and conversation of the request |
| ChatStore.ChatDispatchStore.Cancel | src/lws/chat_dispatch.py:668-674 | cancels exactly the jobs that cannot have been sent, refuses exactly those that may have been, and leaves finished ones alone |
| ChatStore.ChatDispatchStore.BindConversation | src/lws/chat_dispatch.py:594-618 | binds a URL nobody else owns to the conversation and its jobs without one, or refuses and changes nothing |
| ChatStore.ChatDispatchStore.PageForConversation | src/lws/chat_dispatch.py:493-500 | finds the one open or idle page of a conversation, or that there is none |
| ChatStore.ChatDispatchStore.ListPages | src/lws/chat_dispatch.py:484-491 | lists every page that is not closed, once |
| ChatEngine.ChatDispatchEngine.Page | src/lws/chat_dispatch.py:1254-1269 | keeps the conversation's page if its window shows the job's conversation, or if the job has no URL but a project; closes it if the window is gone, quarantines it on any other address; ends only by a kill |
| ChatEngine.ChatDispatchEngine.EnsurePage | src/lws/chat_dispatch.py:1271-1344 | takes the page there is; else after OPENING only looks for the window, and otherwise takes an existing one or opens one, unless the budget is spent; the answers fix the page row, the job's state and the result |
| ChatEngine.ChatDispatchEngine.Submit | src/lws/chat_dispatch.py:1346-1401 | one reading of the clock, one send with the right arguments, one attempt more, and exactly the state, retry time, submission time and URL that the answer's flags demand; ends early only by a kill or a URL another key owns |
| ChatEngine.ChatDispatchEngine.Reconcile | src/lws/chat_dispatch.py:1403-1441 | one nonce in a page that no longer generates makes the job ACKNOWLEDGED, logs it, and idles the page unless work is pending; more make it RECONCILE_REQUIRED and the page AMBIGUOUS; a job without a URL counts as submitted once its window shows one; anything else leaves the row as it was |
| ChatEngine.ChatDispatchEngine.CloseIdlePages | src/lws/chat_dispatch.py:1443-1467 | one sweep over all pages that are not closed: starts the timer of exactly such owned pages as are open and drained, and closes or quarantines exactly those whose timer has run out by the one clock reading |
| ChatEngine.ChatDispatchEngine.RunOnce | src/lws/chat_dispatch.py:1469-1514 | one pass over the snapshot of 200 due rows taken at its clock reading, then one sweep; it reports progress if and only if some job's turn did; ends early only by a kill, a raised answer or a URL another key owns |
| ChatEngine.ChatDispatchEngine.Advance | src/lws/chat_dispatch.py:1469-1508 | a job is passed over exactly if it is behind an older unfinished one or its cooldown still runs; else it is delivered or looked at, as its state demands, and progress is reported exactly |
| DispatcherLease.LeaseTable.AcquireLease | src/lws/chat_dispatch.py:738-789 | succeeds exactly if there is no row, or it is the caller's, or it has run out and its process is dead; then the row is the caller's with at least five seconds to live |
| DispatcherLease.LeaseTable.HeartbeatLease | src/lws/chat_dispatch.py:791-799 | renews exactly the caller's own row |
| DispatcherLease.LeaseTable.ReleaseLease | src/lws/chat_dispatch.py:801-805 | deletes exactly the caller's own row |
| DispatcherLease.MutualExclusion | src/lws/chat_dispatch.py:1541-1573 | two live workers in their loop are one worker and the row carries its owner and pid, expired or not |
| DispatcherLease.HeartbeatNeverRefused | src/lws/chat_dispatch.py:1564-1573 | a worker in its loop always renews its own lease; the exit for a lost lease is never taken |
| DispatcherLease.LateClearIsHarmless | src/lws/chat_dispatch.py:1593-1613 | a takeover's delete, however late, never removes the lease of a worker in its loop |
| DispatcherLease.LoopExcludesAcquire | src/lws/chat_dispatch.py:755-768 | while a worker is in its loop no other gets in at any time |
| DispatcherLease.AcquireSucceedsIff | src/lws/chat_dispatch.py:738-789 | a starting worker gets in if and only if the row is gone, its own, or expired with a dead process |
| ProbeOps.PlannedOperationsKeepTheSlot | src/lws/page_runtime.py:125-303 | exactly when a plan becomes an operation, and that planned operations keep the slot id, snapshot and tag they were planned with |
| ProbeOps.OperationCarriesPlan | src/lws/page_runtime.py:218-269 | an operation carries exactly the worker, target, tag, browser, times and lifetime it was planned with |
| ProbeOps.PlannedCloseIff | src/lws/page_runtime.py:270-303 | a CLOSE is planned if and only if the worker is parked and owns the tagged slot, which is its snapshot |
| ProbeOps.SameUrlIff | src/lws/probe_ops.py:99-117 | two addresses match if and only if nothing but slashes at the end tells them apart |
| ProbeOps.SameChromeIff | src/lws/probe_ops.py:99-117 | two browsers match if and only if they differ in the case of ASCII letters only |
| ProbeOps.TagsTellTokensApart | src/lws/page_runtime.py:103-110 | tagged targets that compare equal carry the same owner token |
| ProbeRegistry.Registry.ArmOperation | src/lws/registry.py:1927-2015 | arms an operation or raises as the transaction does, changing nothing else |
| ProbeRegistry.Registry.AuthorizeProbeClose | src/lws/registry.py:2043-2064 | grants CLOSE only to ARMED operations that have a close phase |
| ProbeRegistry.Registry.AuthorizeProbeOpen | src/lws/registry.py:2066-2093 | grants OPEN only at OPEN/ARMED and ROTATE/READY_TO_OPEN |
| ProbeRegistry.Registry.CompleteLockedRow | src/lws/registry.py:2115-2197 | publishes or deletes the slot row together with COMPLETED, or raises and changes nothing |
| ProbeRegistry.Registry.CompleteOperation | src/lws/registry.py:2199-2235 | direct completion only after the matching authority; a completed operation is returned unchanged |
| ProbeRegistry.Registry.FailOperation | src/lws/registry.py:2237-2250 | fails only ARMED operations |
| ProbeRegistry.Registry.ReconcileOperation | src/lws/registry.py:2252-2298 | does to the rows exactly what the reconciliation transaction does, whose outcome `ProbeProgress.ReconcileIff` gives for every observation |
| ProbeRegistry.Registry.BindSlot | src/lws/registry.py:2300-2370 | binds the one slot row unless fenced or invalid, keeping the first bind time |
| ProbeRegistry.Registry.ClearSlot | src/lws/registry.py:2393-2408 | deletes a slot row unless fenced |
| ProbeSafety.RunKeepsFence | src/lws/registry.py:1963-1991 | every run of the protocol with windows keeps one unresolved operation and one slot row at most, the latter equal to the former's snapshot |
| ProbeSafety.CallsKeepFence | src/lws/registry.py:1927-2408 | so does every sequence of registry transactions, direct binds and clears included, whatever the evidence behind them |
| ProbeSafety.CompleteLockedKeepsFence | src/lws/registry.py:2115-2197 | in a fenced table a completion whose binding fits never raises, and keeps the fence |
| ProbeSafety.AdoptionFits | src/lws/registry.py:2095-2113 | the binding that a reconciliation adopts always passes the completion's validation |
| ProbeSafety.BindKeepsFence | src/lws/registry.py:2300-2370 | a direct slot binding keeps the fence |
| ProbeSafety.ClearKeepsFence | src/lws/registry.py:2393-2408 | a direct slot removal keeps the fence |
| ProbeTheorems.EffectiveStateNeverMovesBack | src/lws/probe_ops.py:88-96 | no arming, authority, observation, failure or completion moves an operation's effective state back, changes its target, or touches a finished row |
| ProbeTheorems.DecisionIsBacked | src/lws/probe_ops.py:142-318 | a decision that completes or readies an operation has evidence for it: its window was created, or the old one is gone |
| ProbeTheorems.RunKeepsInv | src/lws/registry.py:1927-2298 | every run keeps the invariant on targets, authorities, launches, windows and observations |
| ProbeResults.OneWindow | src/lws/page_runtime.py:415-421 | at most one tagged probe window is live in every reachable state |
| ProbeResults.AuthorityIsGrantedOnce | src/lws/registry.py:2043-2093 | each operation is granted CLOSE at most once and OPEN at most once |
| ProbeResults.UnknownOpenIsNeverReplayed | src/lws/probe_ops.py:231-235 | while the outcome of an OPEN is unknown no run grants anything to any operation, until evidence completes that very one |
| ProbeResults.RotateOpensOnlyAfterAbsence | src/lws/probe_ops.py:298-318 | a rotation is granted OPEN only after a complete observation that showed neither target, and its old window is gone |
| ProbeResults.SlotIsTheSnapshot | src/lws/registry.py:2133-2146 | while an operation is unresolved it is the only one and the slot table is its snapshot |
| ProbeResults.ReconcileNeverRaises | src/lws/registry.py:2252-2298 | reconciling a stored operation never raises, whatever the observation says |
| ProbeResults.CompletionKeepsOneSlotIff | src/lws/registry.py:1984-1991 | completion keeps one slot row if and only if the operation's slot id is its snapshot's |
| ProbeResults.ReconcileIsIdempotentIff | src/lws/registry.py:2252-2298 | applying an observation twice equals applying it once, if and only if it was not early the first time and definite the second |
| ProbeResults.EarlyObservationIsNotIdempotent | src/lws/probe_ops.py:156-162 | a concrete early observation whose second application differs |
| ProbeProgress.ReconcileIff | src/lws/probe_ops.py:142-318 | for every stored operation and observation: it completes, stays armed or becomes ready if and only if there is that evidence, by kind, state reached and the two match lists, and is fenced where it stood on any other |
| ProbeProgress.RotationMayOpenIff | src/lws/probe_ops.py:298-318 | after a reconciliation a rotation is granted OPEN if and only if a timely complete observation showed neither target and it stood at ARMED, CLOSE_SUBMITTED or READY_TO_OPEN |
| ProbeProgress.CompletionPublishes | src/lws/registry.py:2115-2197 | a completing reconciliation publishes exactly the window that was seen, or clears the slot that was closed, and nothing else changes |
| ProbeProgress.DecisionAllowsIff | src/lws/probe_ops.py:142-318 | a decision allows OPEN or CLOSE to the operator if and only if the evidence keeps the operation armed for it or makes it ready |
| ProbeProgress.OutcomeIff | src/lws/probe_ops.py:142-318 | the recorded outcome names what was seen, outcome by outcome |
| ProbeProgress.AuthorityIff | src/lws/registry.py:2043-2093 | CLOSE is granted if and only if an armed operation closes something, OPEN if and only if an OPEN is armed or a rotation ready |
| ProbeProgress.DirectCompletionIff | src/lws/registry.py:2199-2235 | a direct completion of a stored operation succeeds if and only if it has its authority and brings a binding of its own, or none for a CLOSE |
| ProbeProgress.ArmIff | src/lws/registry.py:1927-2015 | arming succeeds if and only if the row is complete, its worker parked where it was planned, nothing is unresolved, id and nonce are new and the slot table is as planned |
| SpawnSafety.FirstSendAtMostOnce | src/lws/child_spawn.py:1325-1478 | over all attempts of a child, every first send but the last was proven effect-free |
| SpawnSafety.SecondFollowsFirst | src/lws/child_spawn.py:1426-1449 | a second-stage send comes after a submitted first send of the same attempt |
| SpawnSafety.SecondSendAtMostOnce | src/lws/child_spawn.py:1426-1449 | over all attempts of a child there is at most one second-stage send |
| SpawnSafety.SecondSendTestAlwaysPasses | src/lws/child_spawn.py:1430-1434 | the test of the second-send flag never stops anyone |
| SpawnSafety.OneOpenPerAttempt | src/lws/child_spawn.py:1237-1268 | each attempt opens or reuses a window at most once |
| SpawnSafety.CooldownHolds | src/lws/child_spawn.py:1336-1345 | no first send of any child starts before the end of a cooldown recorded earlier |
| SpawnSafety.BoundWindowIsForever | src/lws/child_spawn.py:1490-1506 | once bound, an attempt keeps its window in every run |
| SpawnSafety.PublishRefusedIffBound | src/lws/registry.py:655-684 | publishing an adopted conversation is refused if and only if the attempt stands at WINDOW_BOUND |
| SpawnSafety.BoundReconcileAdoptsAndRaises | src/lws/child_spawn.py:1514-1523 | reconciling a WINDOW_BOUND attempt that shows a conversation adopts the worker, raises and leaves the row |
| SpawnSafety.RunKeepsInv | src/lws/child_spawn.py:1237-1533 | every run keeps the invariant on lineages, windows, sends, second sends, opens and cooldowns |
| SpawnExecutor.SpawnRegistry.ArmChildSpawn | src/lws/child_spawn.py:344-406 | appends exactly the row of the dispatch for a child without worker history, unresolved attempt or blocker; otherwise raises, for one of these causes only, and changes nothing |
| SpawnExecutor.SpawnRegistry.SubmitSpawnOpen | src/lws/child_spawn.py:409-419 | writes the open authority of an ARMED attempt only |
| SpawnExecutor.SpawnRegistry.BindWindow | src/lws/child_spawn.py:422-447 | binds exactly a positive identity at the attempt's own tagged project root |
| SpawnExecutor.SpawnRegistry.SubmitSpawnPrompt | src/lws/child_spawn.py:450-464 | writes the send authority of a WINDOW_BOUND attempt with an unchanged prompt only |
| SpawnExecutor.SpawnRegistry.CompleteFromConversation | src/lws/child_spawn.py:467-504 | adopts the worker and publishes COMPLETED, or raises leaving the row |
| SpawnExecutor.SpawnRegistry.ExecuteOpen | src/lws/child_spawn.py:1237-1322 | exactly one open call for an ARMED attempt, and exactly the row its answer demands; raises only if killed, if the call raised, if the attempt was not ARMED or if the window is not its own |
| SpawnExecutor.SpawnRegistry.ConfirmDelivery | src/lws/child_spawn.py:1386-1478 | completes only in a conversation of the project and, where delivery can be observed, only when it was; sends the draft once more if and only if it still waits there; else leaves RECONCILE_REQUIRED |
| SpawnExecutor.SpawnRegistry.SettleSend | src/lws/child_spawn.py:1348-1390 | released to WINDOW_BOUND if and only if the send was clean, rate limit first, with a cooldown of what was asked for between 5 and 900 seconds; an unclear send is RECONCILE_REQUIRED, a submitted one goes on to delivery |
| SpawnExecutor.SpawnRegistry.ExecutePrompt | src/lws/child_spawn.py:1325-1478 | no call if and only if a cooldown runs; else one first send from WINDOW_BOUND, and exactly the row that its answer and the observations after it demand; raises only if killed, if a call raised, or if there is no window or the prompt has changed |
| SpawnExecutor.SpawnRegistry.ReconcileSpawn | src/lws/child_spawn.py:1481-1533 | one look, no open and no send, and exactly the row that what it shows demands; raises only if killed, if the look raised, on a foreign window, for an attempt that submitted nothing, or for the bound attempt of `PublishRefusedIffBound` |
| BatchPool.TakeFromWorkerKeepsPool | src/lws/child_spawn.py:1270-1309 | recycling a worker's window adds nothing to the pool |
| BatchPool.TakeFromWorkerExclusiveIff | src/lws/child_spawn.py:1290-1309 | recycling keeps windows exclusive if and only if the source child has no unresolved attempt on the window |
| BatchLimits.BoundReconcileLeavesAnomaly | src/lws/child_spawn.py:1514-1523 | the state that the unpublished adoption leaves is a registry with a worker bound to the window of its child's WINDOW_BOUND row |
| BatchLimits.AnomalyIsRecycledShared | src/lws/child_spawn.py:1290-1309 | from every such registry with a session the batch accepts, an armed attempt of another child can be given a window that is then shared |
| BatchLimits.RecyclingMayShareIff | src/lws/child_batch.py:188-192 | some page the batch may recycle ends up with two owners if and only if a durable child owns a window through its worker and through an attempt |
| BatchLimits.SharedRegistryIsAccepted | src/lws/child_batch.py:289-329 | a concrete sound, exclusive and unambiguous registry in which recycling shares a window |
| BatchPool.TakeFromSpawnKeeps | src/lws/child_spawn.py:1279-1289 | recycling the window of a completed spawn keeps pool, exclusivity and soundness |
| BatchPool.OpenKeeps | src/lws/child_batch.py:415-420 | a fresh window adds one to the pool and stays exclusive |
| BatchPool.DeliverKeeps | src/lws/child_spawn.py:467-504 | a delivered prompt hands the window to the new worker without growing the pool or sharing it |
| ChildBatch.SortSourcesSorts | src/lws/child_batch.py:188-191 | the reusable windows are ordered finished-first, then by dispatch order, and none is lost |
| ChildBatch.SnapshotIsPool | src/lws/child_batch.py:118-186 | the collected windows are exactly the pool |
| ChildBatch.BatchRegistry.DirectSnapshot | src/lws/child_batch.py:127-153 | collects exactly the directly owned windows, and as reusable only durable or finished owners, all of them |
| ChildBatch.BatchRegistry.LatestCompleted | src/lws/child_batch.py:159-174 | picks for every window its newest unconsumed completed record, by update, creation and id |
| ChildBatch.BatchRegistry.PoolSnapshot | src/lws/child_batch.py:118-192 | returns exactly the pool, and exactly its usable sources in rank order |
| ChildBatch.BatchRegistry.OpenOrReuse | src/lws/child_batch.py:388-441 | takes the page of another child that is finished first and dispatched first among those that may be taken; opens only if there is none and only below the bound; waits only if there is none and the pool is full; the answer fixes the attempt's state |
| ChildBatch.BatchRegistry.ReuseWindow | src/lws/child_spawn.py:1270-1309 | one reuse call; afterwards windows are exclusive if and only if the source was not owned twice over |
| ChildBatch.BatchRegistry.Preflight | src/lws/child_batch.py:289-329 | passes if and only if no child and no probe mutation is unresolved externally |
| ChildBatch.BatchRegistry.AdvanceChild | src/lws/child_batch.py:331-519 | one child's turn, exactly: a child without an attempt is armed unless refused, an armed one gets a page or waits on a full pool, a bound one is sent its prompt unless cooling or changed; it goes on only if the prompt was delivered, and stops if and only if something was refused or did not succeed; pool bound and exclusivity are kept |
| ChildBatch.BatchRegistry.CloseTerminalPages | src/lws/child_batch.py:526-583 | closes every page of a finished child that can be taken, one call each, and stops at the first that is not proven gone; if all were, no finished worker holds a page and the pool has only shrunk |
| ChildBatch.BatchRegistry.AdvanceBatch | src/lws/child_batch.py:247-585 | stopped if and only if something was unresolved at the start, or a refusal, a cooldown, a changed prompt or an unsuccessful call was met; advanced only if every child is dispatched, each newly dispatched one by a delivered send of its own, and no finished worker keeps a page if closing was asked for; waiting only if an armed child finds the pool full and no page to take; pool within the bound at every call and return, windows exclusive unless a durable child owned one twice over, reuse only from durable or finished children, silence after ambiguity |
| ActionProtocol.BudgetIsConserved | src/lws/registry.py:1200-1263 | a task's recovery counter equals the budgeted attempts ever recorded and never exceeds its maximum |
| ActionProtocol.OneCallPerAttempt | src/lws/action_runtime.py:26-50 | the transport is called at most once for each attempt, over all processes |
| ActionProtocol.CallLeavesNoOtherOpen | src/lws/action_runtime.py:39-50 | another attempt of the task is open at a call only if it is newer and the calling one was closed meanwhile |
| ActionProtocol.OtherOpenAtCallIff | src/lws/action_runtime.py:39-50 | another attempt of the task is open at a call, or open and called before, if and only if the calling one is closed and the task's newest attempt is open, or open and called before |
| ActionProtocol.EarlierCallIsOver | src/lws/dispatch_runtime.py:77-127 | of two calls for one task, the later made for an attempt that was still unresolved, the earlier attempt has become terminal |
| ActionProtocol.EarlierEffectsAreResolved | src/lws/dispatch_runtime.py:77-127 | before a call for an attempt that is still unresolved, every earlier call of the task was proven effect-free or its attempt was closed by an acknowledgement or an operator |
| ActionProtocol.RunKeepsClosings | src/lws/action_runtime.py:48-104 | over every run, an attempt that was called is terminal only if the call was proven effect-free or somebody else closed it |
| ActionProtocol.LateCallMeetsOpenAttempt | src/lws/dispatch_runtime.py:77-127 | a run in which a cancelled attempt is called late, while the attempt called before it is unresolved |
| ActionProtocol.DisabledStaysArmedIff | src/lws/action_runtime.py:44-47 | after a disabled transport's refusal the attempt stays ARMED exactly until someone acknowledges, cancels or fails it, and until then it is not called again and no other attempt of its task is recorded |
| ActionProtocol.OverrunSpacing | src/lws/overrun_continuation.py:90-139 | effective overrun continuations of one worker are created at least the threshold apart, over every run |
| ActionProtocol.RunKeepsInv | src/lws/registry.py:1134-1422 | every run keeps the invariant on budgets, open attempts, hands, calls, times and the watchdog |
| ActionRuntime.LatestGenerationStart | src/lws/overrun_continuation.py:63-87 | the earliest sample of the newest unbroken stretch of generation, or none if there is no generation |
| ActionRuntime.GenerationStartIsUnique | src/lws/overrun_continuation.py:63-87 | a history has at most one such start |
| ActionRuntime.EffectiveContinueAt | src/lws/overrun_continuation.py:90-101 | the effect time of a newest effective continuation, or none if there is none |
| ActionRuntime.SameRowsSameContinue | src/lws/overrun_continuation.py:90-101 | the clock's anchor depends on which rows there are, not on their order |
| ActionRuntime.ActionRegistry.RecordRecovery | src/lws/registry.py:1200-1263 | appends exactly the charged row and charges one slot if every fence and the budget allow it, else changes nothing |
| ActionRuntime.ActionRegistry.RecordCurrentWorkerAction | src/lws/registry.py:1134-1198 | appends exactly the uncharged row if every fence allows it, else changes nothing |
| ActionRuntime.ActionRegistry.SubmitArmedAction | src/lws/action_runtime.py:26-104 | no call if the row is no longer ARMED, else exactly one; RECONCILE_REQUIRED exactly if it raised or was not submitted with an effect possible, SUBMITTED exactly if it was submitted, FAILED only if it was proven effect-free; an exception only from a disabled transport or a row closed meanwhile |
| ActionRuntime.ActionRegistry.SettleReply | src/lws/action_runtime.py:48-104 | over the reply's own flags: RECONCILE_REQUIRED exactly if the call raised or was not submitted with an effect possible, SUBMITTED exactly if submitted, FAILED exactly if neither; raises only for a disabled transport or a closed row, and then changes nothing |
| ActionRuntime.ActionRegistry.ExecuteRecovery | src/lws/dispatch_runtime.py:50-135 | at most one record, and at most one call, for that record; blocked only if a durable gate is shut or the record was closed before its call, aborted only if the fences shut meanwhile, the transport is disabled or the row was closed; the answer fixes the state |
| ActionRuntime.ActionRegistry.OverrunClock | src/lws/overrun_continuation.py:104-139 | a running task is due exactly if the time since the latest of start, effective continuation and generation start reaches the threshold |
| ActionRuntime.ActionRegistry.AutoContinueOverrunCycle | src/lws/cli.py:1139-1407 | one turn for each task in order; it goes on past a turn if and only if that was blocked or its continuation failed without effect; one call for each settled turn, and none besides but for a last turn that raised |
| FairScheduler.BackoffIsBounded | src/lws/orchestration.py:111-115 | the backoff starts at the base, grows with the waits and never exceeds the maximum |
| FairScheduler.BackoffDoubles | src/lws/orchestration.py:111-115 | each further wait doubles the backoff up to the maximum; from the sixteenth on it stays |
| FairScheduler.PassedOver | src/lws/orchestration.py:626-640 | a task that is left out has exactly k tasks fewer ahead of it in the next cycle |
| FairScheduler.BoundedWaiting | src/lws/orchestration.py:626-640 | every task that stays actionable is selected within any n/k cycles, rounded up |
| FairScheduler.PrefixIsChosen | src/lws/orchestration.py:634-637 | the first k of the sorted competitors are min(n, k) tasks, and each is served before any left out: by earlier service, then by state, then by id |
| FairScheduler.Canonicalize | src/lws/orchestration.py:595-602 | keeps the first input of every task and finds exactly the duplicated ids |
| FairScheduler.PlanOrchestration | src/lws/orchestration.py:577-674 | every task once in id order; selected only if it asks for work with a known history; a selected task was served no later than any competitor left out, and on equal stamps stands first by state and then by id; a competitor is left out only if every slot is taken; each deferral with its backoff |

## Left out

- Browser scripts, UI automation, Chrome, session and workspace probes: they enter as oracles with their result flags.
- `cli.py` apart from the overrun cycle, `doctor.py`, `watchdog_host.py`, `runtime_state.py`, schema migration: process plumbing.
- `worker_persistence.py`, `replacement.py`, `worker_protocol.py`: they enter as "the child has worker history", which only grows.
- `watcher.py`, `dispatcher.py`, `recovery.py`, `lifecycle.py`, `capabilities.py`, the gates of `evaluate_task` and of the dispatch plans: straight-line conditions; they enter as arbitrary verdicts.
- Chat rows: `opened_at`, `last_used_at`, `last_error`, `updated_at` and the window columns of jobs. The order of a page list is arbitrary, and "most recently used" is moot because a conversation has one active page.
- `should_exit`: arbitrary, so liveness (it looks at the newest 500 jobs only) is not stated. `CLAIMED` is never written.
- Unlocked read-then-write: `cancel` and `fail_probe_mutation_operation`, the writers of action attempts (registry.py:1311-1415) and `update_child_spawn_attempt` (registry.py:641-709) are one atomic step each here. In the source a late acknowledgement can overwrite a cancel that landed between its read and its write.
- `AcknowledgeableIffPaged`, `DuplicateIsFinalIff` and `UnknownOpenSendableIff` speak of passes of any length; a job behind 200 eligible rows that never finish is not reached by a pass of the source.
- Direct binds and clears of a probe slot are in `CallsKeepFence` but not in the runs with windows, which so say nothing of a slot row cleared while its window is live.
- Strings arrive stripped and URLs parsed. Prompt text, hashing and JSON encoding are not modelled; blank means ASCII white space, case folding is ASCII.
- SQL: tables are typed maps and sequences. Partial unique indexes are invariants or explicit refusals. A database error is a death of the process, except the uniqueness conflicts the code can meet.
- Probe rows: `last_error`; `last_outcome` is kept as a classified outcome.
- Spawn rows: timestamps and `last_error`; evidence freshness and the other mutations' fences enter as one flag when arming.
- Batch: history reads are not cut at 50 attempts; a death between binding a recycled window and marking its source is not part of the batch model, which speaks of calls and returns.
- Actions: the read of 200 attempts and 2000 samples is not cut. Every attempt is a continuation of the current worker, the only action the executor supports. `record_action_attempt`, which nothing calls, is left out.
- Overrun: the acknowledgement phase of the cycle enters as acknowledgements made by others.
- Scheduler: task ids are their places in text order; durations are in tenths of a second.

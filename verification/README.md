# nim-ffi: a verified model of its runtime and of its C binding generator

nim-ffi exposes a Nim library to C, C++ and Rust. At run time a fixed pool of contexts is handed
from owner to owner; each context has a worker thread, sharded ingress queues, an event ring, a
listener registry and, for hosts that poll, outbound queues with a wake handle. At build time it
generates C types, codecs and free functions from a small type IR. This project models those
protocols and algorithms in Dafny and proves what they guarantee.

How the parts are modelled:

- Protocols between threads are transition systems with one step per atomic access, locked section
  or system call, and the theorems are about every state of every run. Time-outs, allocation
  failures and the choices of a host are free choices.
- Data structures that the source rewrites in place are classes over linked nodes, arrays and an
  explicit C heap; their methods are proved against functions on sequences, maps and multisets.
- The code generator and its output are functions over the type IR and CBOR data items, and
  imperative methods where the source is imperative.

| file | what it is about |
|---|---|
| `request_traffic.dfy`, `slot_protocol.dfy`, `slot_invariant.dfy`, `slot_safety.dfy` | the claim and recycle of one pool slot, with its requests and callbacks |
| `slot_history.dfy` | what the signal, the library and the tracked futures of a slot tell of the run so far, and what becomes of an answer |
| `slot_witness.dfy` | runs: one whole life of a claim, three in which a call that gave up meets the wrong recycle, and two in which a library or a reply outlives its owner |
| `ffi_steps.dfy`, `ffi_context.dfy` | the FFI thread and the recycle caller as code, each access a step of that protocol, the other agents stepping in between |
| `context_pool.dfy`, `admission.dfy` | tokens and the pool; the bound on outstanding requests |
| `request_queue.dfy`, `outbound.dfy`, `poll_order.dfy`, `poll_history.dfy`, `outbound_runs.dfy` | the reply and stale queues, what a poller is handed in which order, and that the queues in memory follow such a run |
| `wake_handshake.dfy` | disarm, clear, look again, wait |
| `event_memory.dfy`, `event_ring.dfy`, `event_runs.dfy` | the event ring, its slabs and its heap blocks, its runs, and that the ring in memory follows one |
| `listener_registry.dfy` | dispatch off a snapshot, and removal that waits |
| `ingress.dfy`, `ingress_order.dfy` | the sharded ingress and its order |
| `codec.dfy`, `codec_schema.dfy`, `decode_free.dfy` | the emitted codecs, the wire form they keep to, and their memory |
| `c_type_registry.dfy`, `c_scalars.dfy`, `c_ownership.dfy` | the monomorphiser, what its scalar names mean, and its owns flag |
| `build_paths.dfy`, `literal_escape.dfy` | relative paths and string literals |
| `wrappers.dfy` | optional values, fresh addresses |

## Findings

- **A stranger's time-out can quarantine a clean recycle, and a stranger's clear can release an
  abandoned one.** The flag by which a caller says it gave up belongs to the slot, not to the claim
  (ffi/ffi_context.nim:73, 385, 411). A call of claim 1 whose claim is already over can expire and
  store the flag after claim 3 cleared it: claim 3 drains, tears down and resets cleanly, its own
  caller still waits, and its slot is quarantined as `CallerAbandoned`
  (`SlotWitness.StrangerAbandons`). The same happens when the loop is done with claim 3 before its
  caller gets to the clear (`OldFlagAbandons`). The other way round, a late clear by the call of
  claim 1 wipes the flag that claim 3's caller set, and the slot is released although that caller
  was told of a failure (`LateClearReleases`). `SlotSafety.AbandonedIff` gives the exact
  condition: a finished reset is quarantined if and only if some call, of this claim or an earlier
  one, gave up and nobody has cleared the flag since. With the claim's own clear done and no other
  after it that is: if and only if some call gave up in between (`AbandonedSinceOwnClear`).
- **A refused submit calls its host back after `requestRecycle` returned ok.** In callback mode
  `send` tells the callback of a refusal (ffi/ffi_thread.nim:169-179), also when the refusal is that
  the token's owner is gone. The silence after ok is that of accepted requests
  (`SlotSafety.SilentAfterOk`); every later submit under the old token is told of its refusal, from
  every reachable state (`LateSubmitIsTold`), once, by the submit itself, and nothing else follows
  (`RefusalIsFinal`).
- **The wake handshake can lose a wake-up.** `pollContext` disarms the wake and then clears it
  (ffi/ffi_poll.nim:263-264). A producer whose message was already collected can exchange and fire
  between the two; the clear then wipes the signal while the wake stays armed, nothing is queued,
  and no later producer fires. The same happens when a reply replaces the only stale report between
  the poller's look at the reply queue and its look at the stale queue (ffi/ffi_poll.nim:125).
  Both need a claim that lasts and no closer under way, the first also a producer between disarm and
  clear (`ClearSlipNeedsProducer`). `WakeHandshake.PromiseKeptIff` is exact: after
  a step the wake cannot be lost, whatever follows without such a step, if and only if the step was
  not one of these two. `NoWakeLost` is the promise for every run without them, and
  `ClearSlipHappens` and `SupersedeSlipHappens` reach one of each from the start with one producer
  and one poller. Inside `poll` the wait slice of one second bounds the delay
  (`ExpiredSliceSeesAll`); a host that waits on its own wake handle after `RET_TIMEOUT` has no such
  bound.
- **A claim can start with the library pointer of a former owner.** Only a reset frees it
  (ffi/ffi_thread.nim:269-290); after a join of the threads it stays, and the next claim, served by
  new threads, does not put in its own fallback since there is something already
  (ffi/ffi_thread.nim:524-526). `SlotWitness.StaleLibrary` is a run in which a context served a
  request, its threads were joined and its slot claimed again. Exactly (`SlotHistory.StartsBareIff`):
  a claim starts without a library if and only if whatever earlier claims put in place has been freed
  by a reset; a claim that ended by recycle leaves none (`RecycledIsBare`).
- **A reset answers its leftovers into the reply queue it has just dropped.** `resetForNextOwner` drops
  the messages, so that the next owner sees none of them, and only then rejects what is still queued
  (ffi/ffi_thread.nim:357-373); in poll mode those replies stay. `LeftoverReachesNextOwner` is a run
  in which the next owner's first poll is handed the reply to a request of the former one. Exactly
  (`SlotHistory.LeftoverIff`): a released claim leaves a reply if and only if its reset answered that
  request after the drop and no poll took the reply before the release.
- **The wire loses three things and nothing else** (`Codec.RoundTripIff`): a null string comes back
  empty, a present option around an absent one comes back absent, and an enum value comes back as
  the first one of its wire name.
- **Tokens invert exactly while the packed value fits a word** (`ContextPool.TokenInverseIff`).
- **A relative path misleads when its base climbs.** `buildRelativePath` counts a `..` of the base
  as a directory to leave. With `-d:ffiOutputDir=../out` the output directory stays
  `/proj/src/../out` (ffi/internal/ffi_macro.nim:1827-1835), and `/proj/src/lib.nim` becomes
  `../../lib.nim`, which from `/proj/out` is `/lib.nim`
  (`BuildPaths.ClimbingBaseMisleads`). Exactly (`RelativeResolves`): the answer, walked from where the
  base leads, leads where the path leads if and only if the base has no dot component below the
  shared directory, or the rest of the path climbs from there to the root anyway. Dot components of
  the path do no harm (`ClimbingPathIsFine`).
- **`monomorphiseAll` declares all it should, in order, exactly when the table lacks no struct name
  that is reached and no struct reached contains itself**, at any depth, through sequences and
  options included (`CTypeRegistry.DeclaresAllIff`). It ends on the other tables too, with
  something mentioned before its declaration, as for a struct that is a sequence of itself
  (`SelfSequenceOutOfOrder`), or never declared: a name that the table lacks gets a comment only
  (ffi/codegen/c.nim:354; `MissingNameUndeclared`).
- **An enum's wire name survives the C compiler exactly when it holds no quote, backslash or line
  end**: the generator pastes it between quotes as it is (ffi/codegen/c.nim:224, 244;
  `LiteralEscape.RawReadsBackIff`).
- **A cleared listener can still be called while the clear waits.** `clearListeners` starts the ids
  over before it waits (ffi/ffi_events.nim:72-78), so a delivery that began earlier can find the id
  of a cleared listener registered again and call the old one
  (`ListenerRegistry.ClearedStillCalled`). Once the clear has returned this is over
  (`RemovedNeverRuns`). The callback that starts is that of a registered listener if and only if no
  clear came since the delivery took its snapshot (`StartsOnlyRegistered`).

## Model

| member | source | states |
|---|---|---|
| SlotInvariant.StepKeepsInv | ffi/ffi_thread.nim:295-429 | every step of every agent keeps the invariant of the slot, its claims, its requests and its callbacks |
| SlotSafety.RunKeepsInv | ffi/ffi_thread.nim:494-562 | the invariant holds in every state of every run |
| SlotSafety.CallbacksInOwnClaim | ffi/ffi_thread.nim:188-267 | a terminal or stale-warn callback of an accepted request fires only while the slot's generation is the one the request is stamped with; the only other callback is the refusal of a request that was not accepted |
| SlotSafety.SilentAfterOk | ffi/ffi_context.nim:377-425 | once `requestRecycle` returned ok for a claim, no callback of a request accepted under that claim ever runs again |
| SlotSafety.RefusalIsFinal | ffi/ffi_thread.nim:159-180 | a refusal callback is made by the refused submit itself, once; its request is never accepted and gets no other callback |
| SlotSafety.LateSubmitIsTold | ffi/ffi_thread.nim:58-67 | from every reachable state a submit under the token of an ended claim is turned down and its callback told so |
| SlotSafety.OneTerminalThenSilence | ffi/ffi_thread_request.nim:148-190 | a terminal callback runs at most once per request and no stale warning follows it |
| SlotSafety.RequestsConserved | ffi/ffi_thread.nim:31-113 | an accepted request is in exactly one place, freed at most once in a run, answered at most once, and unanswered when freed only if its claim is over |
| SlotSafety.RecycleEndsCleanly | ffi/ffi_thread.nim:357-429 | a claim ends by recycle only after a clean drain and a teardown that was skipped or completed; the reset runs at most once and only then |
| SlotSafety.FailedRecycleQuarantines | ffi/ffi_thread.nim:375-398 | when the caller is answered after a failure the slot is `RecycleFailed` under the same claim, and the stored reason is the only one that fits what happened to the claim |
| SlotSafety.AbandonedIff | ffi/ffi_thread.nim:380-385 | a finished reset is quarantined as abandoned if and only if some call, of this claim or an earlier one, gave up and nobody has cleared the flag since; the claim keeps who |
| SlotSafety.AbandonedSinceOwnClear | ffi/ffi_context.nim:385-411 | between the claim's own clear and its conclusion, with no other clear after it: if and only if some call gave up in between |
| SlotSafety.QuarantineLasts | ffi/ffi_context_pool.nim:59-73 | a quarantined slot keeps its odd generation and its reason until its threads were joined, so nobody claims it |
| SlotSafety.TokenResolvesDuringItsClaim | ffi/ffi_context.nim:331-353 | an issued token resolves exactly while its claim is live, without a gap |
| SlotSafety.ClaimOpensOnce | ffi/ffi_context.nim:331-337 | a successful `tryClaim` opens a claim with an odd generation that no earlier state had |
| SlotSafety.RunIsOnward | ffi/ffi_context.nim:331-346 | generations only grow; nothing is un-accepted, un-answered, un-freed or un-called |
| SlotWitness.OneLife | ffi/ffi_thread.nim:400-429 | a run in which a claim serves a request, is recycled and returns ok, so the theorems speak of something |
| SlotWitness.StrangerAbandons | ffi/ffi_context.nim:403-413 | a run in which an expired call of claim 1 quarantines the clean recycle of claim 3, whose caller still waits |
| SlotWitness.OldFlagAbandons | ffi/ffi_context.nim:380-385 | the same with the flag set before claim 3 was made, and the loop faster than its caller's clear |
| SlotWitness.LateClearReleases | ffi/ffi_context.nim:385 | a run in which claim 3's own caller gave up and its slot is released all the same |
| SlotWitness.StaleLibrary | ffi/ffi_context_pool.nim:234-263 | a run in which the threads of a slot are joined and its next claim starts with the library pointer of the former owner |
| SlotWitness.LeftoverReachesNextOwner | ffi/ffi_thread.nim:357-373 | a run in poll mode in which the first message the next owner of a slot is handed is the reply to a request of the former one |
| SlotHistory.SignalIsHistory | ffi/ffi_context.nim:387-406 | the done signal is up exactly if a recycle fired it and no call, of whichever claim, has consumed it since |
| SlotHistory.LibraryIsHistory | ffi/ffi_thread.nim:269-290 | there is a library exactly if a constructor or a dispatch put one in place and no reset has freed it since |
| SlotHistory.ConstructedIsHistory | ffi/internal/ffi_macro.nim:1244-1255 | `libReady` holds exactly if a constructor stored a library and neither a reset nor a rebuilding of the slot came since, and then there is one |
| SlotHistory.BuiltIsHistory | ffi/ffi_context_pool.nim:75-109 | a slot counts as built from its first thread start until a full destroy |
| SlotHistory.TeardownSkippedIff | ffi/ffi_thread.nim:326-332 | the teardown of a recycle is skipped exactly when there is no hook or nothing was constructed since the last reset or rebuilding |
| SlotHistory.RecycledIsBare | ffi/ffi_thread.nim:357-373 | a claim that ends by recycle leaves no library behind |
| SlotHistory.StartsBareIff | ffi/ffi_thread.nim:524-526 | a claim starts without a library if and only if what earlier claims put in place has been freed by a reset |
| SlotHistory.HandlerTells | ffi/ffi_thread.nim:226-267 | the end of a handler is one terminal call in its own claim, or in poll mode a queued reply and no call; a warning is one call |
| SlotHistory.ReplyWaits | ffi/ffi_outbound.nim:186-195 | in poll mode the answer of a handler stays in the reply queue until the poller takes it or its claim is reset or joined |
| SlotHistory.LeftoverIff | ffi/ffi_thread.nim:357-373 | in poll mode a released claim leaves a reply behind if and only if its reset answered that request after it dropped the messages and no poll took the reply before the release |
| SlotHistory.WhoFrees | ffi/ffi_outbound.nim:175-184 | a request is freed by the poller that is done with its reply, by its answer in callback mode, by the end of its claim, or unanswered because its claim is over, and by nothing else |
| SlotHistory.AcceptedWasLetIn | ffi/ffi_thread.nim:58-67 | a request is taken in only if its submit found the slot active and, later, still in the claim of its token |
| SlotHistory.TracksOwnClaim | ffi/ffi_thread.nim:357-373 | the futures the loop tracks are those of its live claim; none outlives the claim it was dispatched in |
| SlotHistory.CleanedTracksRunning | ffi/ffi_thread.nim:501-507 | cleaning up leaves exactly the futures whose handlers run |
| RequestTraffic.AnswerKeepsInv | ffi/ffi_thread.nim:226-237 | answering a request moves it from the FFI thread to the reply queue or frees it, once, and records one terminal callback in its own claim |
| FFIContexts.FFIContext.RejectQueuedRequests | ffi/ffi_thread.nim:295-317 | whatever was queued when it began has been dropped unanswered, answered, or put back unless the bank is full, as its stamp is older than, equal to or newer than `ownerGen` |
| FFIContexts.FFIContext.MergeQueues | ffi/ffi_request_queue.nim:91-108 | with pushes in between the locked sections, whatever was queued when the merge began is on the chain when it ends, and no longer queued |
| FFIContexts.FFIContext.DrainOngoing | ffi/ffi_thread.nim:344-355 | succeeds exactly when no handler is left at one of its three looks, so at once when none runs on entry |
| FFIContexts.FFIContext.RunTeardown | ffi/ffi_thread.nim:326-342 | skipped exactly when there is nothing to tear down, and otherwise ends as the hook does |
| FFIContexts.FFIContext.ProcessQueue | ffi/ffi_thread.nim:509-529 | whatever was queued when it began is tracked if it is of the live claim and freed unanswered if not; drained means that the queue was empty at some moment of the call, and cut off it has put at least one request behind it for each merge |
| FFIContexts.FFIContext.FinishRecycle | ffi/ffi_thread.nim:375-398 | the slot is released with its claim over, or quarantined with the one reason that fits the claim; a finished reset comes to nothing if and only if some call had given up and nobody had cleared the flag since |
| FFIContexts.FFIContext.RecycleContext | ffi/ffi_thread.nim:400-429 | a released claim was torn down cleanly, reset once and abandoned by nobody, and what was queued answered or dropped; anything else is quarantined with the reason that fits. With no handler running on entry the drain cannot fail, and the outcome is the teardown's unless some call had given up |
| FFIContexts.FFIContext.LoopOnce | ffi/ffi_thread.nim:531-551 | one turn: a thread told to stop leaves the loop and no other does; a recycle that is pending is carried out, so its claim ends or is quarantined, and never for its drain if nothing ran; otherwise the queue is dispatched or, while the slot is not active, cleared |
| FFIContexts.FFIContext.FFIRun | ffi/ffi_thread.nim:531-567 | the thread takes every turn it is given while it runs and leaves at the first turn that finds it stopped, with nothing queued by then left behind; a recycle pending at the start is over after it; in the stop it stands still only while a handler runs |
| FFIContexts.FFIContext.AwaitDone | ffi/ffi_context.nim:395-417 | gives up only after a look at signal, generation and lifecycle that found nothing, so never on a claim that is over, and leaves the call abandoned then |
| FFIContexts.FFIContext.AwaitClaimReleased | ffi/ffi_context.nim:359-375 | fails only after a look that found the claim still current, so never on a claim that is over |
| FFIContexts.FFIContext.RequestRecycle | ffi/ffi_context.nim:377-425 | ok is returned only after the claim is over, whatever the FFI thread and the others do meanwhile, and each error only after the call saw what it says |
| ContextPool.TokenInverseIff | ffi/ffi_context_pool.nim:20-31 | unpacking a token gives back slot and generation if and only if the packed value fits the word |
| ContextPool.TokensDiffer | ffi/ffi_context_pool.nim:20-31 | two claims never share a token |
| ContextPool.TokenResolvesItsClaim | ffi/ffi_context_pool.nim:286-298 | a token resolves to its slot exactly while that claim lasts, to no other slot, and never again once it ended |
| ContextPool.SmallValuesNameNothing | ffi/ffi_context_pool.nim:26-31 | a nil token, or any value below the base, names no slot and is never issued |
| ContextPool.FFIContextPool.TryClaim | ffi/ffi_context.nim:331-337 | claims exactly when the load saw an even generation and the exchange found it unchanged |
| ContextPool.FFIContextPool.CreateFFIContext | ffi/ffi_context_pool.nim:75-109 | with other creators and owners at work: takes a slot under a new generation and its token, gives it back only when threads that had to be started do not start, and passes a slot over, or reports a full pool, only if each was claimed when looked at or taken before the exchange |
| ContextPool.FFIContextPool.ResolveCtx | ffi/ffi_context_pool.nim:286-298 | resolves as the specification does |
| Admission.AdmissionBound | ffi/ffi_outbound.nim:169-184 | admitted, uncollected requests never exceed the bound, and the counter is their number plus the pending back-offs |
| Admission.RefusedIff | ffi/ffi_thread.nim:78-86 | a submit is refused exactly when the admitted requests and the pending back-offs fill the bound |
| RequestQueues.RequestQueue.Push | ffi/ffi_outbound.nim:70-80 | appends, stamped with its ticket |
| RequestQueues.RequestQueue.Pop | ffi/ffi_outbound.nim:88-99 | takes the first, or nothing |
| RequestQueues.RequestQueue.Find | ffi/ffi_outbound.nim:109-113 | the walk finds the entry and the one before it, or that there is none |
| RequestQueues.RequestQueue.Unlink | ffi/ffi_outbound.nim:101-124 | removes the entry wherever it sits, first, middle, last or alone; afterwards it is neither linked nor flagged |
| RequestQueues.RequestQueue.Detach | ffi/ffi_outbound.nim:126-131 | empties the queue and hands out its chain |
| RequestQueues.WithoutAt | ffi/ffi_outbound.nim:101-124 | removal from the sequence cuts out exactly one place |
| Outbound.FFIOutbound.EnqueueReply | ffi/ffi_outbound.nim:186-195 | in place, what `PollOrder.EnqueueReply` says on values: the request's report goes, its reply is last under a new ticket |
| Outbound.FFIOutbound.EnqueueStaleWarn | ffi/ffi_outbound.nim:197-210 | in place, what `PollOrder.EnqueueStaleWarn` says on values; `PollHistory.WarnShows` says what that comes to |
| Outbound.FFIOutbound.TakeMessage | ffi/ffi_poll.nim:181-207 | takes the message `PollOrder.TakeMessage` names and holds the reply it handed out |
| Outbound.FFIOutbound.HasMessage | ffi/ffi_poll.nim:120-125 | answers whether anything is ready, unnumbered events included |
| Outbound.FFIOutbound.ReleaseHeld | ffi/ffi_poll.nim:112-118 | frees the reply the host is done with, once |
| Outbound.FFIOutbound.DropQueuedMessages | ffi/ffi_outbound.nim:240-255 | frees each queued reply once, counts it down, and reads a link only of a live request; flags and queues agree afterwards if and only if no report was queued |
| OutboundRuns.Answer | ffi/ffi_outbound.nim:186-195 | on the queues in memory, one answering step of a `PollOrder` run; so are `Submit`, `Discard`, `Dispatch`, `Warn`, `Emit` their own steps |
| OutboundRuns.Warn | ffi/ffi_outbound.nim:197-210 | likewise the warning step, for a request whose handler runs: afterwards a report with that figure is queued |
| OutboundRuns.Take | ffi/ffi_poll.nim:181-207 | the held reply is freed, and what the queues in memory hand out is the next message of the run |
| OutboundRuns.HandedOutInOrder | ffi/ffi_poll.nim:181-207 | so the queues in memory have handed out strictly increasing tickets, to one owner after another |
| OutboundRuns.DropAfterDrain | ffi/ffi_thread.nim:357-365 | with no handler running the stale queue is empty, so the drop leaves the queues as they should be, and the run goes on with the next owner |
| PollOrder.SetElapsedOverwrites | ffi/ffi_outbound.nim:197-210 | a coalesced report keeps its first ticket and shows the latest figure |
| PollOrder.TakesOldest | ffi/ffi_poll.nim:127-207 | Helper: the message taken is the oldest of the three queues and the only one that leaves |
| PollOrder.TakeSucceedsIffHasMessage | ffi/ffi_poll.nim:120-207 | Helper: `takeMessage` succeeds exactly when `hasMessage` holds |
| PollOrder.StepKeepsInv | ffi/ffi_outbound.nim:186-238 | every producer and poller step, and the drop between two owners, keeps the queues in ticket order, a request in the stale queue at most once and only while it runs |
| PollOrder.DeliveredInOrder | ffi/ffi_poll.nim:181-207 | through all the owners of a slot replies, reports and events are handed out in strictly increasing ticket order |
| PollOrder.NoMessageLost | ffi/ffi_outbound.nim:149-154 | every ticket drawn is delivered, queued, superseded by its reply, dropped at the end of a claim or was never queued, and only one of these |
| PollOrder.NoStaleAfterReply | ffi/ffi_thread.nim:188-237 | no STALE is delivered after its REPLY, and the stale queue is empty once no handler runs |
| PollHistory.WarnShows | ffi/ffi_outbound.nim:197-210 | after a warning exactly one report of the request is queued, with the figure just given, under its first ticket if it was queued before and a new one if not; the reports of the others stay |
| PollHistory.LastFigureTaken | ffi/ffi_outbound.nim:225-238 | a report handed out carries the figure of the last warning about its request before it was taken |
| PollHistory.TicketTravels | ffi/ffi_outbound.nim:149-154 | the reply, report or event that a ticket was drawn for is queued as such, was handed out as such, was dropped at the end of a claim or, a report, was superseded by the answer; a number drawn for nothing is handed out never |
| PollHistory.DeliveredAsProduced | ffi/ffi_poll.nim:139-179 | nothing else is handed out: each message was produced under its ticket, as the reply, report or event it is |
| WakeHandshake.StepKeepsInvIff | ffi/ffi_poll.nim:245-275 | every step of producers, closers and poller keeps the handshake's invariant, except exactly the two that slip on a claim that lasts with no closer under way |
| WakeHandshake.PromiseKeptIff | ffi/ffi_poll.nim:245-275 | after a step the wake cannot be lost in any continuation without a slip if and only if the step was no slip |
| WakeHandshake.NoWakeLost | ffi/ffi_outbound.nim:159-210 | in a run that never slips, whoever waits with a message queued or its claim ended has the signal set or a fire coming |
| WakeHandshake.QuiescentMeansSignalled | ffi/ffi_poll.nim:245-284 | with no producer and no closer between two steps, the signal is set |
| WakeHandshake.ClearSlipLosesWake | ffi/ffi_poll.nim:263-275 | from every such clear the poller sleeps through the next message |
| WakeHandshake.SupersedeSlipLosesWake | ffi/ffi_poll.nim:120-125 | from every such replacement the poller sleeps on the reply |
| WakeHandshake.ClearSlipHappens | ffi/ffi_outbound.nim:159-162 | a concrete run with one producer and one poller reaches such a clear |
| WakeHandshake.SupersedeSlipHappens | ffi/ffi_outbound.nim:186-195 | a concrete run with one producer and one poller reaches such a replacement |
| WakeHandshake.ClearSlipNeedsProducer | ffi/ffi_poll.nim:263-264 | a clear slips only if a producer exchanged between the poller's disarm and it |
| WakeHandshake.MessagesCounted | ffi/ffi_outbound.nim:186-255 | whatever came into a queue was taken, superseded or dropped, or is still queued |
| WakeHandshake.ExpiredSliceSeesAll | ffi/ffi_poll.nim:269-275 | when the wait slice expires the next pass sees every message slept on |
| EventMemory.SlabsDistinct | ffi/ffi_events.nim:186-199 | Helper: the slabs of all ring slots and the held slabs are pairwise distinct |
| EventMemory.FilledSound | ffi/ffi_events.nim:234-290 | an enqueue leaks no block and shares none, slab or heap fallback |
| EventMemory.FilledKeepsOthers | ffi/ffi_events.nim:250-290 | what is held or peeked does not change under an enqueue |
| EventMemory.FilledReads | ffi/ffi_events.nim:234-290 | the stored event reads as the name and payload that were passed |
| EventMemory.AbandonedCopy | ffi/ffi_events.nim:266-273 | an enqueue whose second copy fails changes nothing that can be read |
| EventMemory.ReleasedSound | ffi/ffi_events.nim:201-206 | releasing an event frees its own live blocks and nothing else |
| EventMemory.MovedSound | ffi/ffi_events.nim:337-358 | the slab swap moves ownership by pointer: nothing copied, lost or shared |
| EventMemory.NothingLeft | ffi/ffi_events.nim:208-232 | Helper: with every slab freed and every event released the heap is empty |
| EventRing.CHeap.CopyIntoSlot | ffi/ffi_events.nim:234-248 | bytes go to the slab when they fit and there is one, else to a block of their own; it fails only for want of that block |
| EventRing.EventQueue.TryEnqueueEvent | ffi/ffi_events.nim:250-290 | stored exactly when the ring has a free slot and what does not fit its slabs finds memory; refused, it changes nothing readable; the peeked slot and the held event are untouched |
| EventRing.EventQueue.PeekEvent | ffi/ffi_events.nim:292-298 | the head event reads as the oldest queued one |
| EventRing.EventQueue.CommitDequeue | ffi/ffi_events.nim:300-308 | drops the oldest event and its own blocks |
| EventRing.EventQueue.PopEventInto | ffi/ffi_events.nim:337-358 | the held event reads as the oldest queued one, which leaves the ring; what was held before is released |
| EventRing.EventQueue.ClearEventQueue | ffi/ffi_events.nim:372-381 | drops every queued event, leaves the held one |
| EventRing.EventQueue.Deinit | ffi/ffi_events.nim:208-232 | gives every block back, once |
| EventRuns.FirstInFirstOut | ffi/ffi_events.nim:250-381 | over every run what came out, taken or dropped by a clear, is what went in, in order, the rest is inside, and every block is owned once |
| EventRuns.HeldStays | ffi/ffi_events.nim:310-358 | the bytes a poller holds do not change until it releases or pops again, whatever is enqueued meanwhile |
| EventRuns.PeekedStays | ffi/event_thread.nim:60-69 | what a dispatcher has peeked stays in its slot, with its bytes, until it commits |
| EventRuns.Enqueue | ffi/ffi_events.nim:250-290 | on the ring in memory, stored or refused, one step of such a run |
| EventRuns.PopEventInto | ffi/ffi_events.nim:337-358 | on the ring in memory, a release and a pop of such a run; what is held then is the event that left |
| EventRuns.ClearEventQueue | ffi/ffi_events.nim:372-381 | on the ring in memory, the clear of such a run: every queued event leaves as dropped |
| ListenerRegistry.StepKeepsInv | ffi/ffi_events.nim:47-135 | every step of dispatchers, removers and listeners keeps the registry's invariant: snapshots in registration order, each registration once, and behind a pass every listener that is still registered called |
| ListenerRegistry.RemovedNeverRuns | ffi/ffi_events.nim:100-124 | once a removal returned on a thread outside any dispatch, the registration's callback is not running and never starts again |
| ListenerRegistry.RemovalReturns | ffi/ffi_events.nim:100-124 | Helper: it returns at once when nothing is delivered and waits otherwise, with the registration out of the table |
| ListenerRegistry.NoDispatcherWaits | ffi/ffi_events.nim:47-50 | no thread inside a dispatch waits on one, and every delivery can take its next step |
| ListenerRegistry.DepthIsHistory | ffi/ffi_events.nim:29-30 | Helper: the depth of a thread is what it has entered less what it has left |
| ListenerRegistry.StartsOnlyRegistered | ffi/ffi_events.nim:383-409 | the callback that starts is that of a registration in the table at that moment if and only if no clear came since the delivery took its snapshot |
| ListenerRegistry.EachStartsOnce | ffi/ffi_events.nim:52-65 | in one pass of a delivery each registration of the event that was in the table when it began and still is starts exactly once, in registration order, and none registered later starts |
| ListenerRegistry.VisitStarts | ffi/ffi_events.nim:391-409 | Helper: a visit starts the next listener of the snapshot if it is still registered |
| ListenerRegistry.RegisteredStays | ffi/ffi_events.nim:80-98 | a listener is in the table from its registration until its id is removed or all are |
| ListenerRegistry.CalledOnceEachPass | ffi/ffi_events.nim:383-409 | so a listener registered before an event and not removed is called exactly once in each pass of its delivery |
| ListenerRegistry.ClearedStillCalled | ffi/ffi_events.nim:72-78 | a run in which a cleared listener is called while the clear waits |
| Ingress.IngressQueue.Push | ffi/ffi_request_queue.nim:72-89 | appends below the depth; `QueuedWake` exactly on empty to nonempty |
| Ingress.RequestQueueBank.PushRequest | ffi/ffi_request_queue.nim:72-89 | changes only the caller's queue; full leaves the request with the caller |
| Ingress.RequestQueueBank.MergeQueues | ffi/ffi_request_queue.nim:91-108 | one acyclic nil-terminated chain, the queues one after the other, and empty queues |
| Ingress.ChainJoins | ffi/ffi_request_queue.nim:102-105 | one link joins two chains into one without a cycle |
| IngressOrder.StepKeepsInv | ffi/ffi_request_queue.nim:46-108 | pushes and splices interleaved keep every producer's submits in order, out or in its own queue, and no queue above its depth |
| IngressOrder.ProducerOrder | ffi/ffi_request_queue.nim:46-108 | what one producer pushed comes out of successive merges in push order, none lost or repeated |
| IngressOrder.MergeTakesAll | ffi/ffi_request_queue.nim:91-108 | once every queue has had its turn, whatever any producer had pushed before is out |
| IngressOrder.PushAcceptedIff | ffi/ffi_request_queue.nim:72-89 | a push is refused exactly when the producer's queue holds its depth |
| Codec.RoundTripIff | ffi/codegen/c.nim:118-149 | every declared value encodes and decodes, and comes back unchanged if and only if it survives |
| Codec.RoundTrip | ffi/codegen/c.nim:217-298 | with no option directly inside an option, distinct wire names and no null string, decoding undoes encoding |
| Codec.OptionInOptionLost | ffi/codegen/c.nim:163-185 | Helper: the value of option of option that is lost |
| Codec.EnumTrip | ffi/codegen/c.nim:203-251 | an enum value comes back as the first one of its wire name |
| Codec.DecodeSound | examples/timer/c_bindings/nim_ffi_cbor.h:94-263 | whatever decodes is a value of its type: no truncated integer, no undeclared enum value |
| Codec.SameDecodes | ffi/codegen/c.nim:281-298 | two items that agree on the entries the type names, at every level, decode alike |
| Codec.ReorderedIsSame | ffi/codegen/c.nim:281-298 | permuting a map's entries or adding unknown keys changes nothing |
| CodecSchema.EncodeMatches | ffi/codegen/cddl.nim:26-61 | what the encoder of a type writes matches the CDDL schema emitted for the type: the kind of each item, the width of floats, the wire names, one entry for each field |
| CodecSchema.DecodesIff | examples/timer/c_bindings/nim_ffi_cbor.h:94-263 | an item decodes to a value if and only if it means it: the same kind, in range, complete, the first entry of each field's name, the first enum value of a wire name |
| DecodeFree.Decode | examples/timer/c_bindings/my_timer.h:222-246 | wherever it fails, the storage owns exactly the blocks the decode allocated and kept; on success it holds the decoded value; and where neither memory nor the bytes let it down it succeeds exactly on the items that decode |
| DecodeFree.DecodeStr | examples/timer/c_bindings/nim_ffi_cbor.h:214-239 | frees its buffer when the copy fails, keeps it when only the advance does |
| DecodeFree.DecodeElems | ffi/codegen/c.nim:131-148 | a partly decoded array owns what its elements own |
| DecodeFree.Free | ffi/codegen/c.nim:91-109 | gives back every owned block once and leaves none, so a second free does nothing |
| DecodeFree.NothingOwned | ffi/codegen/c.nim:300-315 | where no free function is emitted there is nothing to free |
| COwnership.FlagIffOwns | ffi/codegen/c.nim:300-315 | the flag by which a free function is emitted says exactly whether a value of the type can own a block |
| DecodeFree.ReplyTrampoline | ffi/codegen/c.nim:726-748 | every block of the decode and the call box are freed whether it succeeded or failed, the box only by the terminal reply; the handler is called once by it, with the error code of a failed call, the decoded value, or -1 when the message does not decode |
| CTypeRegistry.NameTellsType | ffi/codegen/c.nim:45-68 | on clean tables a C name stands for one type, so the memo never answers for another |
| CTypeRegistry.EnsureSound | ffi/codegen/c.nim:317-355 | on clean acyclic tables a call keeps the entries in order, enters its type, as a declaration unless it is a name the table lacks, and answers the defined owns flag |
| CTypeRegistry.MonomorphiseAll | ffi/codegen/c.nim:818-839 | every type has its entry, each name once, after everything its body mentions, a declaration save for the names the table lacks, and the memo holds the defined flags |
| CTypeRegistry.DeclaresAllIff | ffi/codegen/c.nim:317-355 | for every clean table and list of types: each type is declared, and everything after what it mentions, if and only if the table lacks no struct name that is reached and the part of it that is reached is acyclic |
| CTypeRegistry.MissingNameUndeclared | ffi/codegen/c.nim:343-355 | an example of a table without a cycle that lacks a name: the struct mentions a type that is never declared |
| CTypeRegistry.SelfSequenceOutOfOrder | ffi/codegen/c.nim:253-262 | an example of a table where the order is lost |
| CTypeRegistry.CTypeReg.EnsureCType | ffi/codegen/c.nim:317-355 | the in-place registry does what `Ensure` says and ends on every table |
| CTypeRegistry.CTypeReg.EmitStructType | ffi/codegen/c.nim:253-315 | the loop over the fields settles each of them before the struct is declared |
| CTypeRegistry.CTypeReg.MonomorphiseAll | ffi/codegen/c.nim:818-839 | the loop over the types is `EnsureAll` |
| CScalars.ScalarsKeepMeaning | ffi/codegen/types_ir.nim:56-81 | a Nim type name is taken for a scalar if and only if it means a number or truth value there is a C type for, and then the C type and the token mean the same, signs and widths read off the names |
| CScalars.FieldHoldsItsValues | ffi/codegen/c.nim:31-43 | the C type of a scalar holds exactly the numbers that its leaf codec lets through |
| BuildPaths.BuildPath | ffi/codegen/build_paths.nim:11-27 | the components of a join are those of its two parts, whatever separators meet at the seam, where there is one of them or, if the first part ends in none, the build machine's own |
| BuildPaths.BuildSplitPath | ffi/codegen/build_paths.nim:29-44 | computes the components |
| BuildPaths.AbsoluteIff | ffi/codegen/build_paths.nim:46-55 | a path is absolute exactly if nothing, or on Windows a drive, stands before its first separator, which elsewhere is a slash |
| BuildPaths.SplitAreComponents | ffi/codegen/build_paths.nim:29-44 | components are nonempty and hold no separator |
| BuildPaths.BuildRelativePath | ffi/codegen/build_paths.nim:57-80 | the answer splits into the steps up and down, joined by the build machine's own separator, or is `.`, or the path unchanged when one is not absolute |
| BuildPaths.RelativeResolves | ffi/codegen/build_paths.nim:57-80 | walking those steps from where the base leads ends where the path leads if and only if the base has no dot component below the shared directory or the rest of the path climbs to the root anyway |
| BuildPaths.PlainBaseSuffices | ffi/codegen/build_paths.nim:57-80 | so a base without dot components there is enough for every path, and needed for a path without any unless the shared directory is the root |
| BuildPaths.ClimbingBaseMisleads | ffi/internal/ffi_macro.nim:1827-1844 | the input of an output directory `../out`, whose answer names another file |
| BuildPaths.ClimbingPathIsFine | ffi/codegen/build_paths.nim:57-80 | an input whose path climbs, and whose answer is right |
| BuildPaths.RelativePathInverts | ffi/codegen/build_paths.nim:57-80 | the same on the strings themselves |
| LiteralEscape.EscapeLit | ffi/codegen/consts.nim:15-36 | the loop renders character by character |
| LiteralEscape.EscapeReadsBack | ffi/codegen/consts.nim:7-42 | the C and the Rust reader give back the bytes of every rendered string |
| LiteralEscape.CharReadsBack | ffi/codegen/consts.nim:7-36 | whatever follows, a rendered character is read back alone: no escape swallows a digit |
| LiteralEscape.RawReadsBackIff | ffi/codegen/c.nim:221-246 | text pasted unescaped between quotes reads back as itself if and only if nothing in it needed an escape |

## Left out

What the models assume of their surroundings:

- Slot protocol: one `requestRecycle` per claim; two racing destroys of one token are not promised safe.
- Slot protocol: a context is destroyed by its owner with no recycle under way, and a full destroy finds no producer between its checks and its push.
- Slot protocol: submits are stamped with issued tokens; a forged even generation is outside. A refusal callback may come at any time after the refusal; that it comes before the submit returns is not stated.
- Slot protocol: generations are unbounded; only `ContextPool` treats the word they are packed into.
- Slot protocol: a full destroy after the join (the frees, the stores into lifecycle and reason, the generation) is one step, since its owner excludes everybody else; thread creation, joining and a failed start are single steps; the dispatch and the end of a handler are single steps, and time-outs may strike at any moment.
- Slot protocol: `shutdownFFIContextPool`, whose check-then-store on the lifecycle is the policy of a process that exits, and which breaks the invariants on purpose.
- ContextPool.FFIContextPool.CreateFFIContext: whether the threads of a slot start is a free choice; the lifecycle of the slot is in `SlotProtocol`.
- Slot protocol: a poll is not tied to a claim; that a token of a past owner is turned away is in `WakeHandshake`, and a poller that passed its check before a release may meet the next owner.
- FFIContexts.FFIContext.ProcessQueue: takes the largest number of merges as a parameter, since submits can keep coming and nothing bounds them; the order inside a chain is left to `ingress.dfy` and `ingress_order.dfy`.
- FFIContexts.FFIContext.FFIRun: takes the number of turns as a parameter, since the thread runs until it is told to stop; its wait for the handlers at the stop may be looked at before they are done.
- FFIContexts.FFIContext.DrainOngoing: how long a wait lasts, and the cancelling of the handlers before the second one, are not in the model; the others may do anything in a wait, nothing included.
- FFIContexts.FFIContext.RequestRecycle: its deadlines and back-off are any number of polls; submitters are steps of the protocol only.
- Outbound: the three head reads of `takeMessage` are one step in `PollOrder`; production order is not promised when a producer interleaves with them. In `WakeHandshake` they are three steps.
- Outbound: the events of the ring are their tickets here; their bytes are in `event_ring.dfy`. An id is fixed when a request is built, not when it is admitted.
- PollOrder: its runs go from owner to owner through recycles; a full destroy, which takes the event queue away until the slot is rebuilt, is outside.
- WakeHandshake: the wake primitive is one boolean; `queueLive` stays true, so the tear-down of a whole context is outside.
- EventRing.EventQueue.TryEnqueueEvent: the bytes passed in are a value, so a source that aliases the ring is outside; the heap is the part of the process heap this ring uses.
- ListenerRegistry: `removeEventListener` stops at the first event that has the id; ids are unique in the table, so the model takes them out everywhere. Fairness of the wait is not stated.
- IngressOrder: the re-push of a newer owner's request in `rejectQueuedRequests` uses the FFI thread's own queue, so the order of its first producer is not promised across it.
- Admission: `deinitRequestQueue` frees without counting down, so a full destroy is outside.
- Codec: data items, not bytes; floats are real numbers, so precision and NaN are outside; field and enum names hold no NUL, and enum wire names nothing that a C literal would have to escape, though the generator does not check it.
- DecodeFree: a block's contents are written with the pointer to it, which presumes the one owner that decoding gives it; event trampolines, which do not follow the discipline, are outside.
- CTypeRegistry: types come parsed, so `parseFFIType` is outside; of the emitted text only names, mentions and the owns flag are kept.
- BuildPaths: the drive of a Windows path is a component like any other, so paths on two drives are outside; a backslash separates components everywhere, as in the code, though a POSIX file name may hold one; symbolic links are not followed.

What the repository does and the model does not:

- Liveness reports and heartbeats (`checkLiveness`, `HeartbeatMonitor`): clock arithmetic and one latch each.
- `nimffi_encode_to_buf`, TinyCBOR, ciborium and cbor_serialization: byte-level buffers and libraries outside the repository.
- Macro expansion, the C++, Rust and CDDL emitters, CMake output: text and syntax-tree plumbing.
- OS wake handles, thread-signal internals, dispatcher closing, garbage-collector plumbing, logging.
- `ffi_handles`, `ffi_last_error`, return codes and the example libraries: easy members or input and output.

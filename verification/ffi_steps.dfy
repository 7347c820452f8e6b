/** What the code of a context is written with: what the other agents leave alone while one thread
    stands at one place, and what each step of that thread does. */
module FFISteps {
  import opened Wrappers
  import opened RequestTraffic
  import opened SlotProtocol
  import opened SlotInvariant
  import opened SlotSafety

  predicate LoopAction(a: Action) {
    a.Iterate? || a.Chain? || a.Recycle?
  }

  // How many turns of its loop the FFI thread has begun.
  ghost function Turns(steps: seq<Action>): nat {
    if steps == [] then 0
    else Turns(steps[..|steps| - 1]) + if steps[|steps| - 1] == Iterate(CheckRunning) then 1 else 0
  }

  lemma OneMoreTurn(steps: seq<Action>, a: Action)
    ensures Turns(steps + [a]) == Turns(steps) + if a == Iterate(CheckRunning) then 1 else 0
  {
    assert (steps + [a])[..|steps|] == steps;
  }

  // -------------------------------------------------------------------------------------
  // What the others leave alone while the FFI thread stands at one place
  // -------------------------------------------------------------------------------------

  // How many requests the FFI thread has taken off the chain for good.
  function Passed(t: Traffic): int {
    |t.accepted| - |t.ingress| - |t.chain|
  }

  // Nobody else ends a claim, undoes a stop, takes a request to recycle back or lifts a quarantine.
  predicate SlotSpared(s: Slot, s': Slot) {
    && s.generation <= s'.generation
    && (s.generation % 2 == 1 ==> s'.generation == s.generation)
    && (!s.running ==> !s'.running)
    && (s.lifecycle == Active ==> s'.lifecycle == Active || s'.lifecycle == RecyclePending)
    && (s.lifecycle == RecyclePending ==> s'.lifecycle == RecyclePending)
    && (s.lifecycle == RecycleFailed ==> SameQuarantine(s, s'))
  }

  // Nobody else takes a request off the queue.
  ghost predicate QueueSpared(t: Traffic, t': Traffic) {
    && t'.chain == t.chain
    && Passed(t') == Passed(t)
    && t.accepted <= t'.accepted
    && forall r :: r in t.accepted ==> t'.ingress[r] == t.ingress[r]
  }

  // Nobody else dispatches, and only a handler answers.
  ghost predicate AnswersSpared(t: Traffic, t': Traffic) {
    && t'.pending == t.pending
    && t'.inFlight <= t.inFlight
    && t.freed <= t'.freed
    && t.answered <= t'.answered
    && forall r :: r !in t.inFlight ==> t'.answered[r] == t.answered[r]
  }

  // While a slot is recycled its claim stays, and without a handler its library does.
  ghost predicate ClaimSpared(w: World, w': World) {
    && (InRecycle(w.slot.pc) ==> w'.slot.generation == w.slot.generation && w'.slot.claims == w.slot.claims)
    && (w.traffic.inFlight == multiset{} ==> w'.slot.lib == w.slot.lib && w'.slot.libReady == w.slot.libReady)
  }

  ghost predicate Spared(w: World, w': World) {
    && w'.hook == w.hook && w'.mode == w.mode && w'.slot.pc == w.slot.pc
    && SlotSpared(w.slot, w'.slot)
    && ClaimSpared(w, w')
    && AnswersSpared(w.traffic, w'.traffic)
  }

  lemma SparedItself(w: World)
    ensures Spared(w, w) && QueueSpared(w.traffic, w.traffic)
  {
    hide InRecycle, Passed;
  }

  lemma SparedTwice(w: World, w': World, w'': World)
    requires Spared(w, w') && Spared(w', w'')
    ensures Spared(w, w'') && w''.slot.pc == w.slot.pc
  {
    hide InRecycle;
  }

  lemma QueueSparedItself(t: Traffic)
    ensures QueueSpared(t, t)
  {
  }

  lemma StillQueued(t: Traffic, t': Traffic)
    requires QueueSpared(t, t')
    ensures t'.chain == t.chain
    ensures forall r :: r in t.accepted && r in t.ingress ==> r in t'.ingress
  {
  }

  lemma QueueSparedTwice(t: Traffic, t': Traffic, t'': Traffic)
    requires QueueSpared(t, t') && QueueSpared(t', t'')
    ensures QueueSpared(t, t'')
  {
    hide Passed;
  }

  // A slot in the middle of a recycle belongs to a claim.
  lemma RecyclingIsClaimed(s: Slot)
    requires SlotInv(s) && InRecycle(s.pc)
    ensures s.generation in s.claims && s.generation % 2 == 1 && s.phase == Owned && s.lifecycle == Recycling
  {
  }

  lemma CreateSpares(w: World, a: CreateAction)
    requires PhaseInv(w.slot) && LifecycleInv(w.slot) && BankInv(w.slot, w.traffic)
    requires w.slot.pc != Down && CreateEnabled(w.slot, a)
    ensures var s, s' := w.slot, CreateApply(w.slot, a);
            && s'.pc == s.pc && SlotSpared(s, s') && s'.lib == s.lib && s'.libReady == s.libReady
            && (InRecycle(s.pc) ==> s'.generation == s.generation && s'.claims == s.claims)
    ensures CreateTraffic(w.slot, w.traffic, a) == w.traffic
  {
  }

  lemma CallerSpares(s: Slot, a: CallerAction)
    requires CallerEnabled(s, a)
    ensures var s' := CallerApply(s, a);
            && s'.pc == s.pc && SlotSpared(s, s') && s'.lib == s.lib && s'.libReady == s.libReady
            && s'.generation == s.generation && s'.claims == s.claims
  {
  }

  lemma StopSpares(s: Slot, t: Traffic, a: StopAction)
    requires StopEnabled(s, t, a) && s.pc != Down
    ensures var s' := StopApply(s, t, a);
            && s'.pc == s.pc && SlotSpared(s, s') && s'.lib == s.lib && s'.libReady == s.libReady
            && s'.generation == s.generation && s'.claims == s.claims
    ensures StopTraffic(s, t, a) == t
  {
  }

  lemma HandlerSparesSlot(w: World, a: HandlerAction)
    requires HandlerEnabled(w, a)
    ensures var w' := HandlerApply(w, a);
            && w'.hook == w.hook && w'.mode == w.mode && w'.slot.pc == w.slot.pc
            && SlotSpared(w.slot, w'.slot) && ClaimSpared(w, w')
  {
    hide InRecycle;
  }

  lemma AnswerSpares(t: Traffic, r: Request, mode: Mode, current: nat)
    requires r in t.inFlight
    ensures var t' := AnswerInFlight(t, r, mode, current); AnswersSpared(t, t') && QueueSpared(t, t')
  {
    var t' := AnswerInFlight(t, r, mode, current);
    assert t'.chain == t.chain && t'.ingress == t.ingress && t'.accepted == t.accepted && t'.pending == t.pending;
    assert t'.inFlight == t.inFlight - multiset{r} && t.freed <= t'.freed;
    assert t'.answered == t.answered || t'.answered == t.answered + multiset{r};
    hide *;
  }

  lemma HandlerSparesTraffic(w: World, a: HandlerAction)
    requires HandlerEnabled(w, a)
    ensures var t' := HandlerApply(w, a).traffic; AnswersSpared(w.traffic, t') && QueueSpared(w.traffic, t')
  {
    hide AnswerInFlight;
    if a.Complete? { AnswerSpares(w.traffic, a.r, w.mode, w.slot.generation); }
  }

  // What a submit pushes was not accepted before.
  lemma SubmitSpares(s: Slot, t: Traffic, mode: Mode, a: SubmitAction)
    requires Known(t, s.generation) && SubmitEnabled(s, t, a)
    ensures var t' := SubmitApply(s, t, mode, a); AnswersSpared(t, t') && QueueSpared(t, t')
  {
  }

  lemma PollerSpares(t: Traffic, a: PollerAction)
    requires PollerEnabled(t, a)
    ensures AnswersSpared(t, PollerApply(t, a)) && QueueSpared(t, PollerApply(t, a))
  {
  }

  lemma OthersSpare(w: World, a: Action)
    requires Inv(w) && Enabled(w, a) && !LoopAction(a) && w.slot.pc != Down
    ensures Spared(w, Apply(w, a)) && QueueSpared(w.traffic, Apply(w, a).traffic)
  {
    hide CreateEnabled, CallerEnabled, StopEnabled, HandlerEnabled, SubmitEnabled, PollerEnabled, InRecycle;
    hide CreateApply, CallerApply, StopApply, HandlerApply, SubmitApply, PollerApply, CreateTraffic, StopTraffic;
    hide PhaseInv, LifecycleInv, ClaimsInv, StageInv, OwnerGenInv, RecyclersInv, AbandonInv, BankInv, LoopHoldsInv,
          CallInv, RefusalInv, Known, Conserved, AnsweredOnce, UnansweredAreStale, HandlersTracked, Passed;
    match a
    case Create(c) => CreateSpares(w, c);
    case Caller(c) => CallerSpares(w.slot, c);
    case Stop(c) => StopSpares(w.slot, w.traffic, c);
    case Handler(c) => HandlerSparesSlot(w, c); HandlerSparesTraffic(w, c);
    case Submit(c) => SubmitSpares(w.slot, w.traffic, w.mode, c);
    case Poller(c) => PollerSpares(w.traffic, c);
  }

  // A `requestRecycle` call is moved on by its own thread only.
  predicate CallOf(w: World, a: Action, claim: nat) {
    a.Caller? && CallerClaim(w.slot, a.caller) == claim
  }

  // Nobody else writes into the record of the calls.
  lemma CreateLeavesCalls(s: Slot, a: CreateAction)
    requires CreateEnabled(s, a)
    ensures CreateApply(s, a).recyclers == s.recyclers
  {
  }

  lemma StopLeavesCalls(s: Slot, t: Traffic, a: StopAction)
    requires StopEnabled(s, t, a)
    ensures StopApply(s, t, a).recyclers == s.recyclers
  {
  }

  lemma OthersLeaveCall(w: World, a: Action, claim: nat, pc: RecyclerPc)
    requires Enabled(w, a) && !CallOf(w, a, claim) && RecyclerAt(w.slot, claim, pc)
    ensures RecyclerAt(Apply(w, a).slot, claim, pc)
  {
    hide CreateEnabled, StopEnabled, HandlerEnabled, SubmitEnabled, PollerEnabled, IterateEnabled, ChainEnabled,
          RecycleEnabled;
    hide CreateApply, StopApply, IterateSlot, ChainSlot, RecycleSlot;
    hide SubmitApply, PollerApply, CreateTraffic, StopTraffic, ChainTraffic, IterateTraffic, RecycleTraffic;
    match a
    case Create(c) => CreateLeavesCalls(w.slot, c);
    case Stop(c) => StopLeavesCalls(w.slot, w.traffic, c);
    case Iterate(c) => LoopLeavesCalls(w.slot, c, EndOfChain);
    case Chain(c) => LoopLeavesCalls(w.slot, Exit, c);
    case Recycle(c) => RecycleLeavesCalls(w.slot, w.traffic, w.hook, c);
    case _ =>
  }

  // -------------------------------------------------------------------------------------
  // The steps of the FFI thread, seen from its code
  // -------------------------------------------------------------------------------------

  lemma JoinNeedsNoThread(w: World, a: Action)
    requires Enabled(w, a) && w.slot.pc != Down
    ensures a != Stop(JoinAndRelease)
  {
  }

  lemma SpliceStep(w: World, part: multiset<Request>)
    requires HoldsChain(w.slot.pc) && part <= w.traffic.ingress
    ensures Enabled(w, Chain(SpliceShard(part)))
    ensures Apply(w, Chain(SpliceShard(part))) == w.(traffic := Splice(w.traffic, part))
    ensures Passed(Splice(w.traffic, part)) == Passed(w.traffic)
    ensures Spared(w, w.(traffic := Splice(w.traffic, part)))
  {
  }

  // One shard was taken out: what it held by then is on the chain, the other shards are as they were.
  ghost predicate ShardTaken(t: Traffic, t': Traffic, shard: Request -> nat, i: nat) {
    && t.accepted <= t'.accepted && Passed(t') == Passed(t)
    && forall r :: r in t.accepted ==>
         && t'.chain[r] == t.chain[r] + (if shard(r) % 16 == i then t.ingress[r] else 0)
         && t'.ingress[r] == if shard(r) % 16 == i then 0 else t.ingress[r]
  }

  // So were the first `n` shards, one after the other.
  ghost predicate ShardsTaken(t: Traffic, t': Traffic, shard: Request -> nat, n: nat) {
    && t.accepted <= t'.accepted && Passed(t') == Passed(t)
    && forall r :: r in t.accepted ==>
         && t'.chain[r] == t.chain[r] + (if shard(r) % 16 < n then t.ingress[r] else 0)
         && t'.ingress[r] == if shard(r) % 16 < n then 0 else t.ingress[r]
  }

  lemma SpliceTakesShard(t: Traffic, u: Traffic, part: multiset<Request>, shard: Request -> nat, i: nat)
    requires QueueSpared(t, u) && part <= u.ingress && Passed(Splice(u, part)) == Passed(u)
    requires forall r :: part[r] == if shard(r) % 16 == i then u.ingress[r] else 0
    ensures ShardTaken(t, Splice(u, part), shard, i)
  {
    hide Passed;
  }

  lemma OneMoreShard(t: Traffic, u: Traffic, t': Traffic, shard: Request -> nat, n: nat)
    requires ShardsTaken(t, u, shard, n) && ShardTaken(u, t', shard, n)
    ensures ShardsTaken(t, t', shard, n + 1)
  {
    hide Passed;
  }

  // What becomes of a request that is looked at in the loop.
  predicate Dispatched(t: Traffic, r: Request, generation: nat) {
    if r.generation == generation then r in t.pending else r in t.freed
  }

  lemma DispatchStep(w: World, r: Request)
    requires w.slot.pc.Processing? && r in w.traffic.chain
    ensures Enabled(w, Chain(DispatchNext(r)))
    ensures var w' := Apply(w, Chain(DispatchNext(r)));
            && w'.hook == w.hook && w'.mode == w.mode && w'.slot == w.slot.(lib := w'.slot.lib)
            && w'.traffic.chain == w.traffic.chain - multiset{r}
            && w'.traffic.ingress == w.traffic.ingress && w'.traffic.accepted == w.traffic.accepted
            && w.traffic.pending <= w'.traffic.pending && w.traffic.freed <= w'.traffic.freed
            && Dispatched(w'.traffic, r, w.slot.generation)
            && Passed(w'.traffic) == Passed(w.traffic) + 1
  {
  }

  /** What dispatching leaves alone, the others at work in between: nothing accepted before comes
      back to the queue, and what was dispatched or freed stays so. */
  ghost predicate Dispatching(w: World, w': World) {
    && w'.hook == w.hook && w'.mode == w.mode && SlotSpared(w.slot, w'.slot)
    && w.traffic.accepted <= w'.traffic.accepted
    && w.traffic.pending <= w'.traffic.pending
    && w.traffic.freed <= w'.traffic.freed
    && forall r :: r in w.traffic.accepted ==> w'.traffic.ingress[r] <= w.traffic.ingress[r]
  }

  lemma DispatchingItself(w: World)
    ensures Dispatching(w, w)
  {
  }

  lemma DispatchingTwice(w: World, w': World, w'': World)
    requires Dispatching(w, w') && Dispatching(w', w'')
    ensures Dispatching(w, w'') && (w.slot.generation % 2 == 1 ==> w''.slot.generation == w.slot.generation)
  {
  }

  lemma DispatchingSparesSlot(w: World, w': World)
    requires Dispatching(w, w')
    ensures SlotSpared(w.slot, w'.slot)
  {
  }

  lemma DispatchingKeepsStop(w: World, w': World)
    requires Dispatching(w, w') && !w.slot.running
    ensures !w'.slot.running && w.traffic.accepted <= w'.traffic.accepted
  {
  }

  lemma SparedIsDispatching(w: World, w': World)
    requires Spared(w, w') && w.traffic.accepted <= w'.traffic.accepted
    requires forall r :: r in w.traffic.accepted ==> w'.traffic.ingress[r] <= w.traffic.ingress[r]
    ensures Dispatching(w, w') && (w.slot.generation % 2 == 1 ==> w'.slot.generation == w.slot.generation)
  {
    hide ClaimSpared;
  }

  // Whatever was on the queue has been looked at.
  ghost predicate QueueDispatched(t: Traffic, t': Traffic, generation: nat) {
    && (forall r :: r in t.accepted ==> r !in t'.ingress)
    && forall r :: r in t.ingress ==> Dispatched(t', r, generation)
  }

  lemma QueueStaysDispatched(w: World, w': World, w'': World, generation: nat)
    requires QueueDispatched(w.traffic, w'.traffic, generation) && Dispatching(w, w') && Dispatching(w', w'')
    ensures QueueDispatched(w.traffic, w''.traffic, generation)
  {
    assert forall r :: r in w.traffic.accepted ==> w''.traffic.ingress[r] <= w'.traffic.ingress[r];
  }

  // A merge took the queue of `w` to the chain of `m`, and the chain was walked to its end.
  lemma MergedIsDispatched(w: World, m: World, w': World, generation: nat)
    requires w.traffic.accepted <= m.traffic.accepted && Dispatching(m, w')
    requires forall r :: r in w.traffic.ingress ==> r in w.traffic.accepted
    requires forall r :: r in w.traffic.accepted ==> m.traffic.ingress[r] == 0
    requires forall r :: r in w.traffic.accepted ==> m.traffic.chain[r] >= w.traffic.ingress[r]
    requires forall r :: r in m.traffic.chain ==> Dispatched(w'.traffic, r, generation)
    ensures QueueDispatched(w.traffic, w'.traffic, generation)
  {
    hide Dispatched, SlotSpared;
  }

  /** What a clearing of the queue for `ownerGen` does with a request: an older one is dropped
      unanswered, one of that claim is answered, a newer one goes back unless the bank is full. */
  predicate Cleared(t: Traffic, r: Request, ownerGen: nat, full: Request -> bool) {
    if r.generation < ownerGen then r in t.freed && r !in t.answered
    else if r.generation == ownerGen || full(r) then r in t.answered
    else r in t.ingress
  }

  lemma RejectStep(w: World, r: Request, full: Request -> bool)
    requires w.slot.pc.Rejecting? && r in w.traffic.chain && r !in w.traffic.answered
    ensures Enabled(w, Chain(RejectNext(r, full(r))))
    ensures var w' := Apply(w, Chain(RejectNext(r, full(r))));
            && w' == w.(traffic := w'.traffic)
            && w'.traffic.chain == w.traffic.chain - multiset{r} && w'.traffic.inFlight == w.traffic.inFlight
            && w.traffic.freed <= w'.traffic.freed && w'.traffic.accepted == w.traffic.accepted
            && (forall q :: q != r ==> w'.traffic.answered[q] == w.traffic.answered[q])
            && (forall q :: q != r ==> w'.traffic.ingress[q] == w.traffic.ingress[q])
            && Cleared(w'.traffic, r, w.slot.pc.ownerGen, full)
  {
  }

  // What clearing the queue leaves alone, the others at work in between.
  ghost predicate Emptying(w: World, w': World) {
    && w'.hook == w.hook && w'.mode == w.mode && w'.slot.pc == w.slot.pc && SlotSpared(w.slot, w'.slot)
    && (InRecycle(w.slot.pc) ==> w'.slot.generation == w.slot.generation && w'.slot.claims == w.slot.claims)
    && w.traffic.accepted <= w'.traffic.accepted
    && w'.traffic.inFlight <= w.traffic.inFlight
    && w.traffic.freed <= w'.traffic.freed
  }

  lemma PcIsSpared(s: Slot, s': Slot, pc: Pc)
    requires SlotSpared(s, s')
    ensures SlotSpared(s, s'.(pc := pc))
  {
  }

  lemma EmptyingTwice(w: World, w': World, w'': World)
    requires Emptying(w, w') && Emptying(w', w'')
    ensures Emptying(w, w'') && w''.slot.pc == w.slot.pc
  {
    hide InRecycle;
  }

  lemma SparedIsEmptying(w: World, w': World)
    requires Spared(w, w') && w.traffic.accepted <= w'.traffic.accepted
    ensures Emptying(w, w') && w'.slot.pc == w.slot.pc
  {
    hide InRecycle;
  }

  // Nothing happened to `r`, except that it may have been freed.
  predicate SameFate(t: Traffic, t': Traffic, r: Request) {
    t'.answered[r] == t.answered[r] && t'.ingress[r] == t.ingress[r] && t'.freed[r] >= t.freed[r]
  }

  lemma SparedFate(w: World, w': World)
    requires Spared(w, w') && QueueSpared(w.traffic, w'.traffic)
    ensures forall q :: q in w.traffic.accepted && q !in w.traffic.inFlight ==> SameFate(w.traffic, w'.traffic, q)
  {
    hide ClaimSpared, Passed;
  }

  lemma RejectLeavesFate(w: World, w': World, r: Request)
    requires w.traffic.freed <= w'.traffic.freed
    requires forall q :: q != r ==> w'.traffic.answered[q] == w.traffic.answered[q]
    requires forall q :: q != r ==> w'.traffic.ingress[q] == w.traffic.ingress[q]
    ensures forall q :: q != r ==> SameFate(w.traffic, w'.traffic, q)
  {
  }

  lemma StayCleared(t: Traffic, t': Traffic, was: multiset<Request>, r: Request, ownerGen: nat, full: Request -> bool)
    requires forall q :: q in was ==> q in t.accepted && q !in t.inFlight
    requires forall q :: q in was ==> q in t.chain || Cleared(t, q, ownerGen, full)
    requires t'.chain == t.chain - multiset{r} && Cleared(t', r, ownerGen, full)
    requires forall q :: q != r && q in t.accepted && q !in t.inFlight ==> SameFate(t, t', q)
    ensures forall q :: q in was ==> q in t'.chain || Cleared(t', q, ownerGen, full)
  {
    forall q | q in was && q !in t'.chain ensures Cleared(t', q, ownerGen, full) {
      if q != r { assert SameFate(t, t', q) && q !in t.chain; }
    }
  }

  lemma RejectingInReset(pc: Pc)
    requires pc.Rejecting?
    ensures InRecycle(pc) <==> pc.inReset
  {
  }

  lemma ChainEnds(w: World)
    requires HoldsChain(w.slot.pc) && w.traffic.chain == multiset{}
    ensures Enabled(w, Chain(EndOfChain))
    ensures Apply(w, Chain(EndOfChain)) == w.(slot := w.slot.(pc := AfterChain(w.slot.pc)))
  {
  }

  // A request on the queue was accepted, nobody answered it, and no handler runs for it.
  lemma QueuedIsFresh(w: World, r: Request)
    requires Inv(w) && (r in w.traffic.ingress || r in w.traffic.chain)
    ensures r in w.traffic.accepted && r !in w.traffic.answered && r !in w.traffic.inFlight
    ensures w.traffic.ingress[r] + w.traffic.chain[r] == 1 && r.generation <= w.slot.generation
  {
    hide SlotInv, CallInv, RefusalInv, LoopHoldsInv, BankInv;
    OnePlace(w.traffic, w.slot.generation, r);
  }

  // The four stores of `resetForNextOwner` around its rejecting of leftovers.
  predicate ResetAt(a: RecycleAction, pc: Pc) {
    match a
    case FreeLib => pc == FreeingLib
    case DropMessages => pc == DroppingMessages
    case BeginReject => pc == BeginningReject
    case ForgetFutures => pc == ForgettingFutures
    case _ => false
  }

  function AfterReset(a: RecycleAction, generation: nat): Pc {
    match a
    case FreeLib => DroppingMessages
    case DropMessages => BeginningReject
    case BeginReject => Rejecting(generation, true)
    case _ => Finishing(NoFailure)
  }

  // Once the finished ones are dropped, nothing is tracked exactly if all were.
  lemma NothingTracked(t: Traffic)
    ensures DropFinished(t).pending == {} <==> AllFinished(t)
  {
    assert forall r :: r in DropFinished(t).pending <==> r in t.pending && r in t.inFlight;
  }

  lemma ResetIsRecycle(a: RecycleAction, pc: Pc)
    requires ResetAt(a, pc)
    ensures InRecycle(pc)
  {
  }

  lemma ResetLeavesQueue(t: Traffic, mode: Mode, a: RecycleAction)
    ensures QueueSpared(t, RecycleTraffic(t, mode, a))
  {
  }

  // What a reset makes of a request it finds on the queue.
  predicate LeftBehind(t: Traffic, r: Request, generation: nat) {
    if r.generation < generation then r in t.freed else r in t.answered
  }

  lemma ClearedIsLeftBehind(t: Traffic, t': Traffic, r: Request, generation: nat, full: Request -> bool)
    requires Cleared(t, r, generation, full) && r.generation <= generation && TrafficOnward(t, t')
    ensures LeftBehind(t', r, generation)
  {
  }

  lemma StillLeftBehind(t: Traffic, t': Traffic)
    requires TrafficOnward(t, t')
    ensures forall r, g :: LeftBehind(t, r, g) ==> LeftBehind(t', r, g)
  {
  }

  // How a teardown that was run to some end counts.
  function TeardownFailure(skipped: bool, hookEnds: TeardownOutcome): Failure {
    if skipped then NoFailure
    else match hookEnds
         case TimedOut => TeardownTimeout
         case Raised => TeardownRaised
         case _ => NoFailure
  }

  // A finished reset is given up if somebody gave it up; a failure stays what it is.
  function Concluded(failure: Failure, abandoned: bool): Failure {
    if failure == NoFailure && abandoned then CallerAbandoned else failure
  }

  // At step `i` some call had given up and nobody had cleared the flag since.
  ghost predicate Abandoned(ws: seq<World>, acts: seq<Action>, i: nat)
    requires i <= |acts| < |ws|
  {
    exists g: nat :: GaveUpSince(ws, acts, i, g)
  }

  ghost predicate ConcludedAs(ws: seq<World>, acts: seq<Action>, i: nat, failure: Failure, outcome: Failure) {
    && i < |acts| < |ws| && acts[i] == Recycle(Conclude) && ws[i].slot.pc == Finishing(failure)
    && (failure != NoFailure ==> outcome == failure)
    && (failure == NoFailure ==> outcome == NoFailure || outcome == CallerAbandoned)
    && ws[i + 1].slot.pc == if outcome == NoFailure then Firing(NoFailure) else StoringFailure(outcome)
  }

  lemma ConcludedStays(ws: seq<World>, acts: seq<Action>, ws': seq<World>, acts': seq<Action>, i: nat,
                       failure: Failure, outcome: Failure)
    requires ConcludedAs(ws, acts, i, failure, outcome) && ws <= ws' && acts <= acts' && |acts'| < |ws'|
    ensures ConcludedAs(ws', acts', i, failure, outcome)
  {
    assert ws'[i] == ws[i] && ws'[i + 1] == ws[i + 1] && acts'[i] == acts[i];
  }

  lemma ConcludedByFlag(ws: seq<World>, acts: seq<Action>, i: nat, failure: Failure, outcome: Failure)
    requires IsRun(ws, acts) && ConcludedAs(ws, acts, i, failure, outcome)
    ensures outcome == Concluded(failure, Abandoned(ws, acts, i))
  {
    hide IsRun;
    if failure == NoFailure { AbandonedIff(ws, acts, i); }
  }

  lemma FiringIsQuarantined(s: Slot)
    requires SlotInv(s) && s.pc.Firing? && s.pc.failure != NoFailure
    ensures s.lifecycle == RecycleFailed && s.failure == s.pc.failure
  {
  }

  lemma QuarantineIsClaimed(s: Slot)
    requires SlotInv(s) && s.lifecycle == RecycleFailed
    ensures s.generation in s.claims && ReasonOk(s.failure, s.claims[s.generation])
  {
  }

  lemma EndedCleanly(s: Slot)
    requires SlotInv(s)
    ensures forall g :: g in s.claims && s.claims[g].ending == ByRecycle ==>
          TornDown(s.claims[g]) && s.claims[g].resets == 1 && s.claims[g].abandonedBy == {}
  {
  }

  // -------------------------------------------------------------------------------------
  // The loop
  // -------------------------------------------------------------------------------------

  /** What surrounds one turn of the loop: how a teardown hook ends, how many merges the queue may
      ask for, and which requests a full bank would turn down. */
  datatype Surroundings = Surroundings(hookEnds: TeardownOutcome, rounds: nat, full: Request -> bool)

  predicate Possible(around: Surroundings) {
    around.hookEnds != Skipped && around.rounds > 0
  }

  // What a turn of the loop did.
  datatype Turn = Stopped | Recycled(claim: nat, outcome: Failure) | Rejected(ownerGen: nat) | Processed(drained: bool)

  // The four accesses of the loop itself.
  predicate LooksAt(a: IterateAction, pc: Pc) {
    match a
    case CheckRunning => pc == Top
    case TryRecycle => pc == TryingRecycle
    case ReadGeneration => pc == ReadingGeneration
    case ReadLifecycle => pc.ReadingLifecycle?
    case _ => false
  }

  lemma LookStep(w: World, a: IterateAction)
    requires LooksAt(a, w.slot.pc)
    ensures Enabled(w, Iterate(a))
    ensures var w' := Apply(w, Iterate(a));
            && w'.hook == w.hook && w'.slot == IterateSlot(w.slot, a) && QueueSpared(w.traffic, w'.traffic)
            && (AllFinished(w.traffic) ==> AllFinished(w'.traffic))
  {
  }

  lemma SlotSparedTwice(s: Slot, s': Slot, s'': Slot)
    requires SlotSpared(s, s') && SlotSpared(s', s'')
    ensures SlotSpared(s, s'')
  {
  }

  // An access reads the slot as `seen`; only a taken request to recycle changes more than the place.
  lemma SeenIsSpared(s: Slot, seen: Slot, a: IterateAction)
    requires SlotSpared(s, seen) && !(a == TryRecycle && seen.lifecycle == RecyclePending)
    ensures SlotSpared(s, IterateSlot(seen, a))
  {
    hide IterateNext;
  }

  lemma StillFinished(t: Traffic, t': Traffic)
    requires AnswersSpared(t, t') && AllFinished(t)
    ensures AllFinished(t')
  {
  }

  lemma LiveIsClaimed(s: Slot)
    requires SlotInv(s) && s.pc != Down && (s.lifecycle == Active || s.lifecycle == RecyclePending)
    ensures s.generation % 2 == 1
  {
  }

  lemma StopIsClaimed(s: Slot)
    requires SlotInv(s) && InStop(s.pc)
    ensures s.generation % 2 == 1
  {
  }

  // The queue had been left alone between `t` and `u`.
  lemma EarlierQueueDispatched(t: Traffic, u: Traffic, t': Traffic, generation: nat)
    requires QueueSpared(t, u) && QueueDispatched(u, t', generation)
    requires forall r :: r in t.ingress ==> r in t.accepted
    ensures QueueDispatched(t, t', generation)
  {
    hide Passed, Dispatched;
  }

  // How a recycle of `claim` left the slot.
  predicate RecycleEnded(s: Slot, claim: nat, outcome: Failure) {
    if outcome == NoFailure then s.generation > claim && claim in s.claims && s.claims[claim].ending == ByRecycle
    else s.generation == claim && s.lifecycle == RecycleFailed && s.failure == outcome
  }

  // The recycle of `claim` came to its end: the slot moved on, or is kept out of service under it.
  predicate RecycleOver(s: Slot, claim: nat) {
    s.generation > claim || (s.generation == claim && s.lifecycle == RecycleFailed)
  }

  // The last three steps of the thread.
  predicate ExitsAt(t: Traffic, a: IterateAction, pc: Pc) {
    match a
    case EndStopWait => pc == StopWaiting && AllFinished(t)
    case EndStopTeardown => pc == StopTearingDown
    case Exit => pc == Exiting
    case _ => false
  }

  function AfterExit(a: IterateAction): Pc {
    match a
    case EndStopWait => StopTearingDown
    case EndStopTeardown => Exiting
    case _ => Down
  }

  lemma ExitLeavesQueue(w: World, a: IterateAction)
    requires ExitsAt(w.traffic, a, w.slot.pc)
    ensures Enabled(w, Iterate(a))
    ensures var w' := Apply(w, Iterate(a));
            && w'.slot.pc == AfterExit(a) && w'.slot.running == w.slot.running && QueueSpared(w.traffic, w'.traffic)
  {
  }

  lemma QueueSparedKeeps(t: Traffic, t': Traffic, was: multiset<Request>)
    requires QueueSpared(t, t') && was <= t.accepted && forall r :: r in was ==> r !in t.ingress
    ensures was <= t'.accepted && forall r :: r in was ==> r !in t'.ingress
  {
    hide Passed;
  }

  // -------------------------------------------------------------------------------------
  // The caller of a recycle
  // -------------------------------------------------------------------------------------

  // Whether the FFI thread can be signalled, and how long each wait lasts.
  datatype CallSurroundings = CallSurroundings(signalled: bool, polls: nat, rounds: nat)

  // What `requestRecycle` answers.
  datatype CallResult = CallOk | NotActive | NotSignalled | OutOfTime | Quarantined(reason: Failure) | NotReleased

  // From state `start` on, one after the other: no signal, the claim still current, no quarantine.
  ghost predicate SawNothing(ws: seq<World>, claim: nat, start: int) {
    exists i, j, k :: 0 <= start <= i <= j <= k < |ws| && !ws[i].slot.doneSignal && ws[j].slot.generation == claim
                      && ws[k].slot.lifecycle != RecycleFailed
  }

  ghost predicate SawClaim(ws: seq<World>, claim: nat, start: int) {
    exists j :: 0 <= start <= j < |ws| && ws[j].slot.generation == claim
  }

  // What the call of `claim` saw since state `start` before it answered so.
  ghost predicate Justified(ws: seq<World>, acts: seq<Action>, claim: nat, start: int, result: CallResult) {
    match result
    case CallOk => true
    case NotActive => exists j :: 0 <= start <= j < |ws| && ws[j].slot.lifecycle != Active
    case NotSignalled => true
    case OutOfTime => SawNothing(ws, claim, start) && Caller(GiveUp(claim)) in acts
    case Quarantined(reason) =>
      exists j, k :: 0 <= start <= j <= k < |ws| && ws[j].slot.lifecycle == RecycleFailed && ws[k].slot.failure == reason
    case NotReleased => SawClaim(ws, claim, start)
  }

  lemma SawNothingSince(ws: seq<World>, claim: nat, start: nat, later: nat)
    requires SawNothing(ws, claim, later) && start <= later
    ensures SawNothing(ws, claim, start)
  {
  }

  lemma StillSawNothing(ws: seq<World>, ws': seq<World>, claim: nat, start: nat)
    requires SawNothing(ws, claim, start) && ws <= ws'
    ensures SawNothing(ws', claim, start)
  {
    var i, j, k :| start <= i <= j <= k < |ws| && !ws[i].slot.doneSignal && ws[j].slot.generation == claim
                   && ws[k].slot.lifecycle != RecycleFailed;
    assert ws'[i] == ws[i] && ws'[j] == ws[j] && ws'[k] == ws[k];
  }

  lemma JustifiedSince(ws: seq<World>, acts: seq<Action>, claim: nat, start: nat, later: nat, result: CallResult)
    requires Justified(ws, acts, claim, later, result) && start <= later
    ensures Justified(ws, acts, claim, start, result)
  {
    if result == OutOfTime { SawNothingSince(ws, claim, start, later); }
    hide SawNothing;
  }
}

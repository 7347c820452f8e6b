/** The code of a context: the FFI thread with its loop, queue and recycle, and the caller that
    asks for a recycle. Every access to shared state is a step of the slot protocol, with any
    number of steps of the other agents in between. Whatever the code does is a run of the
    protocol, so what `SlotSafety` proves of runs holds of the code; the contracts here say what
    the code gets done on top of that. */
module FFIContexts {
  import opened Wrappers
  import opened RequestTraffic
  import opened SlotProtocol
  import opened SlotInvariant
  import opened SlotSafety
  import opened FFISteps

  class FFIContext {
    var world: World
    ghost var worlds: seq<World>
    ghost var steps: seq<Action>

    // The past of this object is a run of the protocol that ends where it stands.
    ghost predicate Valid()
      reads this
    {
      worlds != [] && IsRun(worlds, steps) && world == worlds[|worlds| - 1]
    }

    // This state is later in the same run than that one.
    twostate predicate Later()
      reads this
    {
      old(worlds) <= worlds && old(steps) <= steps
    }

    // The same, and the FFI thread has begun no turn of its loop in between.
    twostate predicate SameTurn()
      reads this
    {
      Later() && Turns(steps) == Turns(old(steps))
    }

    constructor (mode: Mode, hook: bool)
      ensures Valid() && world.mode == mode && world.hook == hook
    {
      world := World(mode, hook, NEW_SLOT, EMPTY_TRAFFIC);
      worlds, steps := [world], [];
    }

    method Perform(a: Action)
      requires Valid() && Enabled(world, a)
      modifies this
      ensures Valid() && Later() && world == Apply(old(world), a)
      ensures worlds == old(worlds) + [world] && steps == old(steps) + [a]
      ensures Turns(steps) == old(Turns(steps)) + if a == Iterate(CheckRunning) then 1 else 0
    {
      hide Enabled, Apply, Init;
      OneMoreTurn(steps, a);
      world := Apply(world, a);
      worlds, steps := worlds + [world], steps + [a];
    }

    // `createFFIContext` on a slot whose threads are down: claimed, marked, started, returned.
    method Create()
      requires Valid() && world.slot.pc == Down && world.slot.phase == Free && world.slot.generation % 2 == 0
      modifies this
      ensures Valid() && Later() && world.slot.pc == Top && world.slot.phase == Owned && world.slot.lifecycle == Active
      ensures world.slot.running
      ensures world.slot.generation == old(world.slot.generation) + 1 && world.slot.generation in world.slot.issued
    {
      hide IsRun;
      var seen := world.slot.generation;
      Perform(SlotProtocol.Create(LoadGeneration));
      Perform(SlotProtocol.Create(TryClaim(seen)));
      Perform(SlotProtocol.Create(MarkActive));
      Perform(SlotProtocol.Create(StartThreads));
      Perform(SlotProtocol.Create(ReturnContext));
    }

    lemma Knows()
      requires Valid()
      ensures Inv(world)
    {
      RunKeepsInv(worlds, steps, |worlds| - 1);
    }

    // What was answered or freed since state `k` of the run still is.
    lemma Grown(k: nat)
      requires Valid() && k < |worlds|
      ensures Onward(worlds[k], world)
    {
      RunIsOnward(worlds, steps, k, |worlds| - 1);
    }

    // The other agents take any number of steps.
    method Interfere()
      requires Valid() && world.slot.pc != Down
      modifies this
      ensures Valid() && SameTurn()
      ensures Spared(old(world), world) && QueueSpared(old(world.traffic), world.traffic)
    {
      hide Enabled, Apply, IsRun, Inv, Spared, QueueSpared, Turns;
      SparedItself(world);
      var n: nat := *;
      while n > 0
        invariant Valid() && SameTurn() && world.slot.pc == old(world.slot.pc)
        invariant Spared(old(world), world) && QueueSpared(old(world.traffic), world.traffic)
      {
        var a: Action := *;
        if !LoopAction(a) && Enabled(world, a) {
          ghost var before := world;
          Knows();
          OthersSpare(world, a);
          Perform(a);
          SparedTwice(old(world), before, world);
          QueueSparedTwice(old(world.traffic), before.traffic, world.traffic);
        }
        n := n - 1;
      }
    }

    // -------------------------------------------------------------------------------------
    // The queue
    // -------------------------------------------------------------------------------------

    // What one shard holds.
    static method ShardPart(m: multiset<Request>, shard: Request -> nat, i: nat) returns (part: multiset<Request>)
      ensures forall r :: part[r] == if shard(r) % 16 == i then m[r] else 0
    {
      var left := m;
      part := multiset{};
      while |left| > 0
        invariant forall r :: left[r] == m[r] || left[r] == 0
        invariant forall r :: part[r] == if shard(r) % 16 == i && left[r] == 0 then m[r] else 0
        decreases |left|
      {
        var r: Request :| r in left;
        if shard(r) % 16 == i { part := part[r := m[r]]; }
        left := left[r := 0];
      }
    }

    // The others step in, then what the shard holds goes to the chain.
    method TakeShard(shard: Request -> nat, i: nat)
      requires Valid() && HoldsChain(world.slot.pc)
      modifies this
      ensures Valid() && SameTurn() && Spared(old(world), world) && world.slot.pc == old(world.slot.pc)
      ensures ShardTaken(old(world.traffic), world.traffic, shard, i)
    {
      hide IsRun, Inv, Enabled, Apply, Spared, QueueSpared, Passed, Turns, ShardTaken, Splice;
      SparedItself(world);
      SparedTwice(world, world, world);
      Interfere();
      ghost var before := world;
      SparedTwice(old(world), old(world), before);
      var part := ShardPart(world.traffic.ingress, shard, i);
      assert forall r :: part[r] <= world.traffic.ingress[r];
      SpliceStep(world, part);
      SpliceTakesShard(old(world.traffic), world.traffic, part, shard, i);
      Perform(Chain(SpliceShard(part)));
      SparedTwice(old(world), before, world);
    }

    /** One locked section per shard, with the others at work in between: whatever was queued when
        it began is on the chain when it ends. */
    method MergeQueues()
      requires Valid() && HoldsChain(world.slot.pc)
      modifies this
      ensures Valid() && SameTurn() && Spared(old(world), world) && world.slot.pc == old(world.slot.pc)
      ensures old(world.traffic).accepted <= world.traffic.accepted
      ensures forall r :: r in old(world.traffic).accepted ==>
                && world.traffic.ingress[r] == 0
                && world.traffic.chain[r] == old(world.traffic).chain[r] + old(world.traffic).ingress[r]
      ensures Passed(world.traffic) == old(Passed(world.traffic))
    {
      hide IsRun, Inv, Spared, Passed, Turns, ShardTaken, HoldsChain;
      var shard: Request -> nat := *;
      SparedItself(world);
      for i := 0 to 16
        invariant Valid() && SameTurn() && Spared(old(world), world) && world.slot.pc == old(world.slot.pc)
        invariant ShardsTaken(old(world.traffic), world.traffic, shard, i)
      {
        ghost var before := world;
        TakeShard(shard, i);
        SparedTwice(old(world), before, world);
        OneMoreShard(old(world.traffic), before.traffic, world.traffic, shard, i);
      }
    }

    // One request leaves the chain: dispatched, or dropped if its claim is over.
    method DispatchOne() returns (r: Request)
      requires Valid() && world.slot.pc.Processing? && world.slot.generation % 2 == 1
      requires |world.traffic.chain| > 0
      modifies this
      ensures Valid() && SameTurn() && world.slot.pc == old(world.slot.pc) && Dispatching(old(world), world)
      ensures r in old(world.traffic.chain) && world.traffic.chain == old(world.traffic.chain) - multiset{r}
      ensures Dispatched(world.traffic, r, old(world.slot.generation))
      ensures Passed(world.traffic) == old(Passed(world.traffic)) + 1
    {
      hide IsRun, Inv, Enabled, Apply, Passed, Turns, ClaimSpared, AnswersSpared;
      Interfere();
      ghost var before := world;
      SparedIsDispatching(old(world), before);
      r :| r in world.traffic.chain;
      DispatchStep(world, r);
      Perform(Chain(DispatchNext(r)));
      assert Dispatching(before, world);
      DispatchingTwice(old(world), before, world);
    }

    method DispatchChain()
      requires Valid() && world.slot.pc.Processing? && world.slot.generation % 2 == 1
      modifies this
      ensures Valid() && SameTurn() && world.slot.pc == old(world.slot.pc) && Dispatching(old(world), world)
      ensures world.traffic.chain == multiset{}
      ensures forall r :: r in old(world.traffic.chain) ==> Dispatched(world.traffic, r, old(world.slot.generation))
      ensures Passed(world.traffic) == old(Passed(world.traffic)) + |old(world.traffic.chain)|
    {
      hide IsRun, Inv, Passed, Turns;
      ghost var g := world.slot.generation;
      while |world.traffic.chain| > 0
        invariant Valid() && SameTurn() && world.slot.pc == old(world.slot.pc) && Dispatching(old(world), world)
        invariant world.slot.generation == g
        invariant forall r :: r in old(world.traffic.chain) ==>
                    r in world.traffic.chain || Dispatched(world.traffic, r, g)
        invariant Passed(world.traffic) + |world.traffic.chain| ==
                    old(Passed(world.traffic)) + |old(world.traffic.chain)|
        decreases |world.traffic.chain|
      {
        ghost var before := world;
        var r := DispatchOne();
        DispatchingTwice(old(world), before, world);
      }
    }

    // The end of the chain leaves everything but the place of the thread alone.
    method EndChain()
      requires Valid() && HoldsChain(world.slot.pc) && world.traffic.chain == multiset{}
      modifies this
      ensures Valid() && SameTurn()
      ensures world == old(world).(slot := old(world.slot).(pc := AfterChain(old(world.slot.pc))))
      ensures Dispatching(old(world), world)
    {
      hide IsRun, Enabled, Apply, Turns;
      ChainEnds(world);
      Perform(Chain(EndOfChain));
    }

    // One merge and what it brought.
    method MergeAndDispatch() returns (found: bool)
      requires Valid() && world.slot.pc.Processing? && world.slot.generation % 2 == 1
      requires world.traffic.chain == multiset{}
      modifies this
      ensures Valid() && SameTurn() && world.slot.pc == old(world.slot.pc) && Dispatching(old(world), world)
      ensures world.traffic.chain == multiset{}
      ensures QueueDispatched(old(world.traffic), world.traffic, old(world.slot.generation))
      ensures found ==> Passed(world.traffic) > old(Passed(world.traffic))
      ensures !found ==> old(world.traffic.ingress) == multiset{} && Passed(world.traffic) == old(Passed(world.traffic))
    {
      hide IsRun, Inv, Passed, Turns, Dispatching, Spared;
      forall r | r in world.traffic.ingress ensures r in world.traffic.accepted {
        Knows();
        QueuedIsFresh(world, r);
      }
      MergeQueues();
      ghost var merged := world;
      SparedIsDispatching(old(world), merged);
      found := |world.traffic.chain| > 0;
      if found { DispatchChain(); } else { DispatchingItself(merged); }
      DispatchingTwice(old(world), merged, world);
      MergedIsDispatched(old(world), merged, world, old(world.slot.generation));
    }

    /** Dispatches what is queued, until a merge finds nothing: a request of a past owner is
        dropped unanswered. Submits may keep coming; cut off after `rounds` merges, it has put at
        least that many requests behind it. */
    method ProcessQueue(rounds: nat) returns (drained: bool)
      requires Valid() && world.slot.pc.Processing? && world.traffic.chain == multiset{} && rounds > 0
      requires world.slot.generation % 2 == 1
      modifies this
      ensures Valid() && SameTurn() && Dispatching(old(world), world) && world.traffic.chain == multiset{}
      ensures world.slot.pc == if old(world.slot.pc).stopping then StopWaiting else Top
      ensures QueueDispatched(old(world.traffic), world.traffic, world.slot.generation)
      ensures drained ==> exists k :: old(|worlds|) - 1 <= k < |worlds| && worlds[k].traffic.ingress == multiset{}
      ensures !drained ==> Passed(world.traffic) >= old(Passed(world.traffic)) + rounds
    {
      hide IsRun, Inv, Passed, Dispatching, QueueDispatched, Turns;
      ghost var g := world.slot.generation;
      var more := rounds;
      drained := false;
      DispatchingItself(world);
      while more > 0
        invariant Valid() && SameTurn() && world.slot.pc == old(world.slot.pc) && world.traffic.chain == multiset{}
        invariant Dispatching(old(world), world) && world.slot.generation == g
        invariant more == rounds ==> world == old(world)
        invariant more < rounds ==> QueueDispatched(old(world.traffic), world.traffic, g)
        invariant Passed(world.traffic) >= old(Passed(world.traffic)) + rounds - more
      {
        ghost var before, k := world, |worlds| - 1;
        var found := MergeAndDispatch();
        DispatchingTwice(old(world), before, world);
        if more < rounds { QueueStaysDispatched(old(world), before, world, g); }
        if !found {
          assert worlds[k].traffic.ingress == multiset{};
          drained := true;
          break;
        }
        more := more - 1;
      }
      ghost var before := world;
      EndChain();
      DispatchingTwice(old(world), before, world);
    }

    // One request leaves the chain of `rejectQueuedRequests`.
    method RejectOne(full: Request -> bool) returns (r: Request)
      requires Valid() && world.slot.pc.Rejecting? && |world.traffic.chain| > 0
      modifies this
      ensures Valid() && SameTurn() && world.slot.pc == old(world.slot.pc) && Emptying(old(world), world)
      ensures r in old(world.traffic.chain) && world.traffic.chain == old(world.traffic.chain) - multiset{r}
      ensures Cleared(world.traffic, r, world.slot.pc.ownerGen, full)
      ensures forall q :: q != r && q in old(world.traffic.accepted) && q !in old(world.traffic.inFlight) ==>
                SameFate(old(world.traffic), world.traffic, q)
    {
      hide IsRun, Inv, Enabled, Apply, Turns, Spared, InRecycle, Cleared;
      Interfere();
      ghost var before := world;
      SparedIsEmptying(old(world), before);
      SparedFate(old(world), before);
      r :| r in world.traffic.chain;
      Knows();
      QueuedIsFresh(world, r);
      RejectStep(world, r, full);
      Perform(Chain(RejectNext(r, full(r))));
      RejectLeavesFate(before, world, r);
      assert Emptying(before, world);
      EmptyingTwice(old(world), before, world);
    }

    // The chain is walked to its end; `was` had been on it.
    method RejectChain(full: Request -> bool, ghost was: multiset<Request>)
      requires Valid() && world.slot.pc.Rejecting?
      requires forall r :: r in was ==>
                 r in world.traffic.chain && r in world.traffic.accepted && r !in world.traffic.inFlight
      modifies this
      ensures Valid() && SameTurn() && world.slot.pc == old(world.slot.pc) && Emptying(old(world), world)
      ensures world.traffic.chain == multiset{}
      ensures forall r :: r in was ==> Cleared(world.traffic, r, world.slot.pc.ownerGen, full)
    {
      hide IsRun, Inv, Turns, InRecycle, Cleared, SameFate, SlotSpared, Spared;
      SparedItself(world);
      SparedIsEmptying(world, world);
      ghost var g := world.slot.pc.ownerGen;
      while |world.traffic.chain| > 0
        invariant Valid() && SameTurn() && world.slot.pc == old(world.slot.pc) && Emptying(old(world), world)
        invariant forall r :: r in was ==> r in world.traffic.chain || Cleared(world.traffic, r, g, full)
        decreases |world.traffic.chain|
      {
        ghost var before := world;
        var r := RejectOne(full);
        EmptyingTwice(old(world), before, world);
        StayCleared(before.traffic, world.traffic, was, r, g, full);
      }
    }

    /** One merge, walked to its end. Whatever was queued when it began has been dropped unanswered,
        answered or put back, as its stamp compares with `ownerGen` and as `full` says of the bank. */
    method RejectQueuedRequests(full: Request -> bool)
      requires Valid() && world.slot.pc.Rejecting? && world.traffic.chain == multiset{}
      modifies this
      ensures Valid() && SameTurn() && world.traffic.chain == multiset{} && world.hook == old(world.hook)
      ensures world.slot.pc == if old(world.slot.pc).inReset then ForgettingFutures else Top
      ensures SlotSpared(old(world.slot), world.slot)
      ensures old(world.slot.pc).inReset ==>
                world.slot.generation == old(world.slot.generation) && world.slot.claims == old(world.slot.claims)
      ensures forall r :: r in old(world.traffic.ingress) ==>
                Cleared(world.traffic, r, old(world.slot.pc).ownerGen, full)
    {
      hide IsRun, Inv, Turns, Spared, InRecycle, Cleared, Passed, Dispatching, SlotSpared;
      ghost var was := world.traffic.ingress;
      RejectingInReset(world.slot.pc);
      QueuedAreFresh();
      MergeQueues();
      ghost var merged := world;
      SparedIsEmptying(old(world), merged);
      RejectChain(full, was);
      EmptyingTwice(old(world), merged, world);
      PcIsSpared(old(world.slot), world.slot, AfterChain(world.slot.pc));
      EndChain();
    }

    lemma QueuedAreFresh()
      requires Valid()
      ensures forall r :: r in world.traffic.ingress ==>
            r in world.traffic.accepted && r !in world.traffic.inFlight && r !in world.traffic.answered
    {
      forall r | r in world.traffic.ingress
        ensures r in world.traffic.accepted && r !in world.traffic.inFlight && r !in world.traffic.answered
      {
        Knows();
        QueuedIsFresh(world, r);
      }
    }

    // -------------------------------------------------------------------------------------
    // The recycle
    // -------------------------------------------------------------------------------------

    // The others step in while this thread recycles the slot: it stays claimed.
    method Await()
      requires Valid() && InRecycle(world.slot.pc)
      modifies this
      ensures Valid() && SameTurn() && Spared(old(world), world) && QueueSpared(old(world.traffic), world.traffic)
      ensures world.slot.pc == old(world.slot.pc) && world.slot.generation == old(world.slot.generation)
      ensures world.slot.claims == old(world.slot.claims) && world.slot.generation in world.slot.claims
    {
      hide IsRun, Turns, QueueSpared, AnswersSpared, PlaceInv, CallInv, RefusalInv, LoopHoldsInv, BankInv;
      Interfere();
      Knows();
      RecyclingIsClaimed(world.slot);
    }

    /** Whether the handlers are done: looked at at once, after a wait, and after a second one when
        they were told to stop. With none running the drain cannot fail. */
    method DrainOngoing() returns (drained: bool)
      requires Valid() && world.slot.pc == Draining
      modifies this
      ensures Valid() && SameTurn() && world.slot.pc == (if drained then TearingDown else Finishing(DrainTimeout))
      ensures world.slot.generation == old(world.slot.generation)
      ensures QueueSpared(old(world.traffic), world.traffic)
      ensures drained <==> world.traffic.pending == {}
      ensures old(AllFinished(world.traffic)) ==>
                drained && SkipsTeardown(world.slot, world.hook) == old(SkipsTeardown(world.slot, world.hook))
    {
      hide IsRun, Inv, Turns, Spared, AllFinished, QueueSpared, DropFinished;
      QueueSparedItself(world.traffic);
      assert InRecycle(world.slot.pc);
      StillClaimed();
      drained := AllFinished(world.traffic);
      if !drained {
        Await();
        drained := AllFinished(world.traffic);
      }
      ghost var before := world.traffic;
      if !drained {
        Await();
        QueueSparedTwice(old(world.traffic), before, world.traffic);
        drained := AllFinished(world.traffic);
      }
      before := world.traffic;
      Perform(Recycle(EndDrain(drained)));
      NothingTracked(before);
      ResetLeavesQueue(before, world.mode, EndDrain(drained));
      QueueSparedTwice(old(world.traffic), before, world.traffic);
    }

    lemma StillClaimed()
      requires Valid() && InRecycle(world.slot.pc)
      ensures world.slot.generation in world.slot.claims
    {
      Knows();
      RecyclingIsClaimed(world.slot);
    }

    lemma NothingRuns()
      requires Valid() && Quiet(world.slot.pc)
      ensures world.traffic.inFlight == multiset{}
    {
      Knows();
    }

    /** Skipped exactly when there is nothing to tear down; otherwise it ends as the hook does. */
    method RunTeardown(hookEnds: TeardownOutcome) returns (outcome: TeardownOutcome)
      requires Valid() && world.slot.pc == TearingDown && hookEnds != Skipped
      modifies this
      ensures Valid() && SameTurn() && world.slot.pc == AfterTeardown(outcome)
      ensures world.slot.generation == old(world.slot.generation)
      ensures QueueSpared(old(world.traffic), world.traffic)
      ensures outcome == if old(SkipsTeardown(world.slot, world.hook)) then Skipped else hookEnds
    {
      hide IsRun, Inv, Turns, Passed, AnswersSpared;
      NothingRuns();
      Await();
      outcome := if SkipsTeardown(world.slot, world.hook) then Skipped else hookEnds;
      Perform(Recycle(EndTeardown(outcome)));
    }

    // One step of `resetForNextOwner`, after whatever the others did.
    method ResetStep(a: RecycleAction)
      requires Valid() && ResetAt(a, world.slot.pc)
      modifies this
      ensures Valid() && SameTurn() && world.slot.generation == old(world.slot.generation)
      ensures world.slot.pc == AfterReset(a, world.slot.generation)
      ensures QueueSpared(old(world.traffic), world.traffic)
    {
      hide IsRun, Inv, Turns, Passed, Spared, InRecycle, QueueSpared;
      assert InRecycle(world.slot.pc) by { ResetIsRecycle(a, world.slot.pc); }
      Await();
      ghost var before := world.traffic;
      Perform(Recycle(a));
      ResetLeavesQueue(before, world.mode, a);
      QueueSparedTwice(old(world.traffic), before, world.traffic);
    }

    // The stores of `resetForNextOwner` before its leftovers.
    method ResetUpToReject()
      requires Valid() && world.slot.pc == FreeingLib
      modifies this
      ensures Valid() && SameTurn() && world.slot.generation == old(world.slot.generation)
      ensures world.slot.pc == Rejecting(world.slot.generation, true) && world.traffic.chain == multiset{}
      ensures forall r :: r in old(world.traffic.ingress) ==>
                r in world.traffic.ingress && r.generation <= world.slot.generation
    {
      hide IsRun, Inv, Turns, QueueSpared;
      ghost var t0 := world.traffic;
      QueuedIsAccepted();
      ResetStep(FreeLib);
      ghost var t1 := world.traffic;
      ResetStep(DropMessages);
      ghost var t2 := world.traffic;
      NoChainYet();
      ResetStep(BeginReject);
      QueueSparedTwice(t0, t1, t2);
      QueueSparedTwice(t0, t2, world.traffic);
      StillQueued(t0, world.traffic);
      StillQueued(t2, world.traffic);
    }

    lemma QueuedIsAccepted()
      requires Valid()
      ensures forall r :: r in world.traffic.ingress ==>
            r in world.traffic.accepted && r.generation <= world.slot.generation
    {
      forall r | r in world.traffic.ingress
        ensures r in world.traffic.accepted && r.generation <= world.slot.generation
      {
        Knows();
        QueuedIsFresh(world, r);
      }
    }

    /** After a clean teardown: the library goes, then the messages, then the leftovers are
        answered, or dropped if an earlier claim left them, and the futures forgotten. */
    method ResetForNextOwner(full: Request -> bool)
      requires Valid() && world.slot.pc == FreeingLib
      modifies this
      ensures Valid() && SameTurn() && world.slot.pc == Finishing(NoFailure)
      ensures world.slot.generation == old(world.slot.generation)
      ensures forall r :: r in old(world.traffic.ingress) ==> LeftBehind(world.traffic, r, world.slot.generation)
    {
      hide IsRun, Inv, Turns, LeftBehind, Cleared, QueueSpared, SlotSpared;
      ghost var g := world.slot.generation;
      ResetUpToReject();
      RejectQueuedRequests(full);
      ghost var k := |worlds| - 1;
      ResetStep(ForgetFutures);
      Grown(k);
      forall r | r in old(world.traffic.ingress) ensures LeftBehind(world.traffic, r, g) {
        ClearedIsLeftBehind(worlds[k].traffic, world.traffic, r, g, full);
      }
    }

    lemma NoChainYet()
      requires Valid() && !HoldsChain(world.slot.pc)
      ensures world.traffic.chain == multiset{}
    {
      Knows();
    }

    lemma Lengths()
      requires Valid()
      ensures |worlds| == |steps| + 1
    {
    }

    lemma StoredReason()
      requires Valid() && world.slot.pc.Firing?
      ensures world.slot.pc.failure != NoFailure ==>
            world.slot.lifecycle == RecycleFailed && world.slot.failure == world.slot.pc.failure
    {
      Knows();
      if world.slot.pc.failure != NoFailure { FiringIsQuarantined(world.slot); }
    }

    method AwaitQuarantined()
      requires Valid() && world.slot.pc.Firing? && world.slot.lifecycle == RecycleFailed
      modifies this
      ensures Valid() && SameTurn() && world.slot.pc == old(world.slot.pc)
      ensures SameQuarantine(old(world.slot), world.slot) && world.slot.generation in world.slot.claims
    {
      hide IsRun, Turns, ClaimSpared, AnswersSpared, QueueSpared;
      Interfere();
      Knows();
      QuarantineIsClaimed(world.slot);
    }

    // Stores the reason, then the quarantine, then answers the caller.
    method Quarantine()
      requires Valid() && world.slot.pc.StoringFailure? && world.slot.pc.failure != NoFailure
      modifies this
      ensures Valid() && SameTurn() && world.slot.pc == Top
      ensures world.slot.generation == old(world.slot.generation)
      ensures world.slot.lifecycle == RecycleFailed && world.slot.failure == old(world.slot.pc).failure
    {
      hide IsRun, Inv, Turns, Spared, QueueSpared;
      Await();
      Perform(Recycle(StoreFailure));
      Await();
      Perform(Recycle(StoreRecycleFailed));
      StoredReason();
      AwaitQuarantined();
      Perform(Recycle(FireDone));
    }

    // Answers the caller, then gives the slot back.
    method Release()
      requires Valid() && world.slot.pc == Firing(NoFailure)
      modifies this
      ensures Valid() && SameTurn() && world.slot.pc == Top
      ensures world.slot.generation == old(world.slot.generation) + 1
      ensures old(world.slot.generation) in world.slot.claims
      ensures world.slot.claims[old(world.slot.generation)].ending == ByRecycle
    {
      hide IsRun, Inv, Turns, Spared, QueueSpared;
      Await();
      Perform(Recycle(FireDone));
      Await();
      Perform(Recycle(ReleaseClaim));
    }

    // The flag is looked at once; `i` is that step.
    method Conclude(failure: Failure) returns (outcome: Failure, ghost i: nat)
      requires Valid() && world.slot.pc == Finishing(failure)
      modifies this
      ensures Valid() && SameTurn() && world.slot.generation == old(world.slot.generation)
      ensures world.slot.pc == if outcome == NoFailure then Firing(NoFailure) else StoringFailure(outcome)
      ensures old(|steps|) <= i < |steps| && ConcludedAs(worlds, steps, i, failure, outcome)
    {
      hide IsRun, Inv, Turns, Spared, QueueSpared;
      Await();
      outcome := failure;
      if outcome == NoFailure && world.slot.abandoned { outcome := CallerAbandoned; }
      i := |steps|;
      Lengths();
      Perform(Recycle(RecycleAction.Conclude));
    }

    /** Ends a recycle: the slot is released, with the claim over, or quarantined with the
        reason that fits the claim stored; a finished reset comes to nothing if and only if some
        call had given up and nobody cleared the flag since. */
    method FinishRecycle(failure: Failure) returns (outcome: Failure)
      requires Valid() && world.slot.pc == Finishing(failure)
      modifies this
      ensures Valid() && SameTurn() && world.slot.pc == Top
      ensures exists i :: old(|steps|) <= i < |steps| && steps[i] == Recycle(RecycleAction.Conclude)
                       && outcome == Concluded(failure, Abandoned(worlds, steps, i))
      ensures outcome == NoFailure ==>
                && world.slot.generation == old(world.slot.generation) + 1
                && old(world.slot.generation) in world.slot.claims
                && world.slot.claims[old(world.slot.generation)].ending == ByRecycle
      ensures outcome != NoFailure ==>
                && world.slot.generation == old(world.slot.generation)
                && world.slot.lifecycle == RecycleFailed && world.slot.failure == outcome
                && world.slot.generation in world.slot.claims
                && ReasonOk(outcome, world.slot.claims[world.slot.generation])
    {
      hide IsRun, Inv, Turns, ReasonOk, Abandoned, ConcludedAs;
      ghost var i: nat;
      outcome, i := Conclude(failure);
      ghost var ws, acts := worlds, steps;
      if outcome != NoFailure {
        Quarantine();
        Knows();
        QuarantineIsClaimed(world.slot);
      } else {
        Release();
      }
      Lengths();
      ConcludedStays(ws, acts, worlds, steps, i, failure, outcome);
      ConcludedByFlag(worlds, steps, i, failure, outcome);
    }

    // Everything up to the answer: the drain, the teardown, and after a clean one the reset.
    method DrainAndReset(hookEnds: TeardownOutcome, full: Request -> bool) returns (failure: Failure)
      requires Valid() && world.slot.pc == Draining && hookEnds != Skipped
      modifies this
      ensures Valid() && SameTurn() && world.slot.pc == Finishing(failure) && failure != CallerAbandoned
      ensures world.slot.generation == old(world.slot.generation)
      ensures failure == NoFailure ==>
                forall r :: r in old(world.traffic.ingress) ==> LeftBehind(world.traffic, r, world.slot.generation)
      ensures old(AllFinished(world.traffic)) ==>
                failure == TeardownFailure(old(SkipsTeardown(world.slot, world.hook)), hookEnds)
    {
      hide IsRun, Inv, Turns, LeftBehind, SkipsTeardown, AllFinished, Passed;
      QueuedIsAccepted();
      failure := NoFailure;
      var drained := DrainOngoing();
      if !drained { return DrainTimeout; }
      var teardown := RunTeardown(hookEnds);
      match teardown
      case TimedOut => failure := TeardownTimeout;
      case Raised => failure := TeardownRaised;
      case _ => ResetForNextOwner(full);
    }

    /** The whole recycle. In the end the slot is released with a clean history behind it and what
        was queued answered or dropped, or kept out of service for the reason returned. With no
        handler running on entry the outcome is the teardown's, and a slot whose teardown was
        skipped or completed is released unless some call had given up. */
    method RecycleContext(hookEnds: TeardownOutcome, full: Request -> bool) returns (outcome: Failure)
      requires Valid() && world.slot.pc == Draining && hookEnds != Skipped
      modifies this
      ensures Valid() && SameTurn() && world.slot.pc == Top
      ensures outcome == NoFailure ==>
                && world.slot.generation == old(world.slot.generation) + 1
                && old(world.slot.generation) in world.slot.claims
                && var c := world.slot.claims[old(world.slot.generation)];
                   c.ending == ByRecycle && TornDown(c) && c.resets == 1 && c.abandonedBy == {}
      ensures outcome != NoFailure ==>
                && world.slot.generation == old(world.slot.generation)
                && world.slot.lifecycle == RecycleFailed && world.slot.failure == outcome
                && world.slot.generation in world.slot.claims
                && ReasonOk(outcome, world.slot.claims[world.slot.generation])
      ensures outcome == NoFailure || outcome == CallerAbandoned ==>
                forall r :: r in old(world.traffic.ingress) ==>
                  LeftBehind(world.traffic, r, old(world.slot.generation))
      ensures old(AllFinished(world.traffic)) ==>
                exists i :: old(|steps|) <= i < |steps| && steps[i] == Recycle(RecycleAction.Conclude)
                         && outcome == Concluded(TeardownFailure(old(SkipsTeardown(world.slot, world.hook)), hookEnds),
                                                 Abandoned(worlds, steps, i))
    {
      hide IsRun, Inv, Turns, TornDown, ReasonOk, Abandoned, LeftBehind, SkipsTeardown, AllFinished,
            TeardownFailure;
      var failure := DrainAndReset(hookEnds, full);
      ghost var k := |worlds| - 1;
      outcome := FinishRecycle(failure);
      Grown(k);
      StillLeftBehind(worlds[k].traffic, world.traffic);
      Knows();
      EndedCleanly(world.slot);
    }

    // -------------------------------------------------------------------------------------
    // The loop
    // -------------------------------------------------------------------------------------

    // One access of the loop, after whatever the others did; it finds the slot as `seen`.
    method Look(a: IterateAction) returns (seen: Slot)
      requires Valid() && LooksAt(a, world.slot.pc)
      modifies this
      ensures Valid() && Later() && Turns(steps) == old(Turns(steps)) + if a == CheckRunning then 1 else 0
      ensures seen.pc == old(world.slot.pc) && SlotSpared(old(world.slot), seen) && world.slot == IterateSlot(seen, a)
      ensures (a == TryRecycle && seen.lifecycle == RecyclePending) || SlotSpared(old(world.slot), world.slot)
      ensures QueueSpared(old(world.traffic), world.traffic)
      ensures old(AllFinished(world.traffic)) ==> AllFinished(world.traffic)
      ensures (seen.lifecycle == Active || seen.lifecycle == RecyclePending) ==> seen.generation % 2 == 1
    {
      hide IsRun, Inv, Turns, QueueSpared, Enabled, Apply, AllFinished, IterateSlot, SlotSpared, ClaimSpared,
            AnswersSpared;
      Interfere();
      seen := world.slot;
      ClaimedIfLive();
      if old(AllFinished(world.traffic)) { StillFinished(old(world.traffic), world.traffic); }
      ghost var before := world;
      LookStep(world, a);
      Perform(Iterate(a));
      QueueSparedTwice(old(world.traffic), before.traffic, world.traffic);
      if !(a == TryRecycle && seen.lifecycle == RecyclePending) { SeenIsSpared(old(world.slot), seen, a); }
    }

    lemma ClaimedIfLive()
      requires Valid() && world.slot.pc != Down
      ensures world.slot.lifecycle == Active || world.slot.lifecycle == RecyclePending ==> world.slot.generation % 2 == 1
    {
      hide SlotInv, PlaceInv, CallInv, RefusalInv, LoopHoldsInv, BankInv;
      Knows();
      if world.slot.lifecycle == Active || world.slot.lifecycle == RecyclePending { LiveIsClaimed(world.slot); }
    }

    // A turn without a recycle: the generation is read before the lifecycle.
    method QueueTurn(around: Surroundings) returns (did: Turn)
      requires Valid() && world.slot.pc == ReadingGeneration && Possible(around)
      modifies this
      ensures Valid() && SameTurn() && world.slot.pc == Top && world.traffic.chain == multiset{}
      ensures (did.Rejected? || did.Processed?) && SlotSpared(old(world.slot), world.slot)
      ensures did.Rejected? ==>
                && old(world.slot.generation) <= did.ownerGen <= world.slot.generation
                && (old(world.slot.lifecycle) == Active ==> world.slot.lifecycle == RecyclePending)
                && forall r :: r in old(world.traffic.ingress) ==> Cleared(world.traffic, r, did.ownerGen, around.full)
      ensures did.Processed? ==> QueueDispatched(old(world.traffic), world.traffic, world.slot.generation)
    {
      hide IsRun, Inv, Turns, QueueSpared, AllFinished, Cleared, QueueDispatched, Dispatching;
      ghost var start := world;
      QueuedIsAccepted();
      NoChainYet();
      var seen := Look(ReadGeneration);
      ghost var before := world;
      var ownerGen := seen.generation;
      seen := Look(ReadLifecycle);
      QueueSparedTwice(start.traffic, before.traffic, world.traffic);
      StillQueued(start.traffic, world.traffic);
      SlotSparedTwice(start.slot, before.slot, world.slot);
      before := world;
      if seen.lifecycle != Active {
        did := Rejected(ownerGen);
        RejectQueuedRequests(around.full);
      } else {
        var drained := ProcessQueue(around.rounds);
        did := Processed(drained);
        DispatchingSparesSlot(before, world);
        EarlierQueueDispatched(start.traffic, before.traffic, world.traffic, world.slot.generation);
      }
    }

    /** One turn of `while running`. A thread told to stop leaves the loop, and no other does. A
        recycle that was asked for is carried out: its claim ends, or the slot is quarantined.
        Otherwise the queue is dispatched, or cleared while the slot is not active. */
    method LoopOnce(around: Surroundings) returns (again: bool, did: Turn)
      requires Valid() && world.slot.pc == Top && Possible(around)
      modifies this
      ensures Valid() && Later() && Turns(steps) == old(Turns(steps)) + 1
      ensures world.slot.pc == (if again then Top else Processing(true)) && world.traffic.chain == multiset{}
      ensures (again <==> did != Stopped) && (!old(world.slot.running) ==> !again) && (!again ==> !world.slot.running)
      ensures again && old(world.slot.lifecycle) == RecyclePending ==> did.Recycled?
      ensures did.Recycled? || SlotSpared(old(world.slot), world.slot)
      ensures did.Recycled? ==>
                && old(world.slot.lifecycle) != RecycleFailed
                && did.claim >= old(world.slot.generation)
                && (old(world.slot.generation) % 2 == 1 ==> did.claim == old(world.slot.generation))
                && RecycleEnded(world.slot, did.claim, did.outcome)
                && (old(AllFinished(world.traffic)) ==> did.outcome != DrainTimeout)
      ensures did.Recycled? && did.outcome == NoFailure ==>
                forall r :: r in old(world.traffic.ingress) ==> LeftBehind(world.traffic, r, did.claim)
      ensures did.Rejected? ==>
                && old(world.slot.generation) <= did.ownerGen <= world.slot.generation
                && (old(world.slot.lifecycle) == Active ==> world.slot.lifecycle == RecyclePending)
                && forall r :: r in old(world.traffic.ingress) ==> Cleared(world.traffic, r, did.ownerGen, around.full)
      ensures did.Processed? ==> QueueDispatched(old(world.traffic), world.traffic, world.slot.generation)
    {
      hide IsRun, Inv, Turns, QueueSpared, AllFinished, Cleared, LeftBehind, QueueDispatched, TornDown, ReasonOk,
            Abandoned, SkipsTeardown;
      ghost var start := world;
      QueuedIsAccepted();
      NoChainYet();
      var seen := Look(CheckRunning);
      StillQueued(start.traffic, world.traffic);
      if !seen.running { return false, Stopped; }
      ghost var before := world;
      seen := Look(TryRecycle);
      QueueSparedTwice(start.traffic, before.traffic, world.traffic);
      StillQueued(start.traffic, world.traffic);
      if seen.lifecycle == RecyclePending {
        var outcome := RecycleContext(around.hookEnds, around.full);
        NoChainYet();
        return true, Recycled(seen.generation, outcome);
      }
      before := world;
      did := QueueTurn(around);
      again := true;
      if did.Processed? { EarlierQueueDispatched(start.traffic, before.traffic, world.traffic, world.slot.generation); }
    }

    // Handlers finish when they finish; the wait may be looked at before they do.
    method AwaitHandlers()
      requires Valid() && world.slot.pc == StopWaiting && !world.slot.running
      modifies this
      ensures Valid() && SameTurn() && world.slot.pc == StopWaiting && !world.slot.running
      ensures QueueSpared(old(world.traffic), world.traffic)
    {
      hide IsRun, Inv, Turns, QueueSpared, AnswersSpared, ClaimSpared, AllFinished;
      QueueSparedItself(world.traffic);
      var patience: nat := *;
      while patience > 0 && !AllFinished(world.traffic)
        invariant Valid() && SameTurn() && world.slot.pc == StopWaiting && !world.slot.running
        invariant QueueSpared(old(world.traffic), world.traffic)
      {
        ghost var before := world.traffic;
        Interfere();
        QueueSparedTwice(old(world.traffic), before, world.traffic);
        patience := patience - 1;
      }
    }

    // One of the last steps of the thread, and whatever the others do after it.
    method Leave(a: IterateAction)
      requires Valid() && ExitsAt(world.traffic, a, world.slot.pc) && !world.slot.running
      modifies this
      ensures Valid() && SameTurn() && world.slot.pc == AfterExit(a) && !world.slot.running
      ensures QueueSpared(old(world.traffic), world.traffic)
    {
      hide IsRun, Inv, Turns, QueueSpared, AnswersSpared, ClaimSpared, AllFinished, Enabled, Apply;
      ExitLeavesQueue(world, a);
      Perform(Iterate(a));
      if a != Exit {
        ghost var before := world.traffic;
        Interfere();
        QueueSparedTwice(old(world.traffic), before, world.traffic);
      }
    }

    // What follows the loop: drain once more, wait for the handlers, tear the library down.
    method StopThread(rounds: nat)
      requires Valid() && world.slot.pc == Processing(true) && world.traffic.chain == multiset{} && rounds > 0
      requires !world.slot.running
      modifies this
      ensures Valid() && SameTurn() && (world.slot.pc == Down || world.slot.pc == StopWaiting)
      ensures world.slot.pc == StopWaiting ==> !AllFinished(world.traffic)
      ensures !world.slot.running
      ensures forall r :: r in old(world.traffic.accepted) ==> r !in world.traffic.ingress
    {
      hide IsRun, Inv, Turns, QueueSpared, AllFinished, Dispatched, Dispatching;
      ghost var was := world.traffic.accepted;
      ClaimedAtStop();
      ghost var before := world;
      var drained := ProcessQueue(rounds);
      DispatchingKeepsStop(before, world);
      ghost var t0 := world.traffic;
      AwaitHandlers();
      QueueSparedKeeps(t0, world.traffic, was);
      if !AllFinished(world.traffic) { return; }
      t0 := world.traffic;
      Leave(EndStopWait);
      ghost var t1 := world.traffic;
      Leave(EndStopTeardown);
      ghost var t2 := world.traffic;
      Leave(Exit);
      QueueSparedTwice(t0, t1, t2);
      QueueSparedTwice(t0, t2, world.traffic);
      QueueSparedKeeps(t0, world.traffic, was);
    }

    lemma ClaimedAtStop()
      requires Valid() && InStop(world.slot.pc)
      ensures world.slot.generation % 2 == 1
    {
      hide SlotInv, PlaceInv, CallInv, RefusalInv, LoopHoldsInv, BankInv;
      Knows();
      StopIsClaimed(world.slot);
    }

    /** The thread, turn by turn, until it is told to stop or the turns given are over: it takes
        them all while it runs and leaves at the first turn that finds it stopped. What was queued
        by then is not left behind. */
    method FFIRun(around: seq<Surroundings>, rounds: nat)
      requires Valid() && world.slot.pc == Top && rounds > 0 && forall i :: 0 <= i < |around| ==> Possible(around[i])
      modifies this
      ensures Valid() && Later() && Inv(world)
      ensures world.slot.pc == Top || world.slot.pc == Down || world.slot.pc == StopWaiting
      ensures world.slot.pc == Top ==> Turns(steps) == old(Turns(steps)) + |around|
      ensures world.slot.running ==> world.slot.pc == Top
      ensures !old(world.slot.running) && around != [] ==>
                world.slot.pc != Top && Turns(steps) == old(Turns(steps)) + 1
      ensures world.slot.pc != Top ==> forall r :: r in old(world.traffic.accepted) ==> r !in world.traffic.ingress
      ensures world.slot.pc == StopWaiting ==> !AllFinished(world.traffic)
      ensures old(world.slot.lifecycle) == RecyclePending && around != [] && world.slot.pc == Top ==>
                RecycleOver(world.slot, old(world.slot.generation))
    {
      hide IsRun, Inv, Turns, AllFinished, QueueDispatched, Cleared, LeftBehind;
      ghost var k := |worlds| - 1;
      var i, again := 0, true;
      ClaimedIfLive();
      while i < |around| && again
        invariant 0 <= i <= |around| && Valid() && Later() && Turns(steps) == old(Turns(steps)) + i
        invariant world.slot.pc == if again then Top else Processing(true)
        invariant !again ==> world.traffic.chain == multiset{} && !world.slot.running
        invariant i == 0 ==> world == old(world) && again
        invariant i > 0 && !old(world.slot.running) ==> !again && i == 1
        invariant i > 0 && again && old(world.slot.lifecycle) == RecyclePending ==>
                    RecycleOver(world.slot, old(world.slot.generation))
      {
        ghost var did: Turn;
        again, did := LoopOnce(around[i]);
        i := i + 1;
      }
      Grown(k);
      if !again { StopThread(rounds); }
      Knows();
    }

    // -------------------------------------------------------------------------------------
    // The caller of a recycle
    // -------------------------------------------------------------------------------------

    // Everyone but the call of `claim` takes any number of steps, the FFI thread included.
    method InterfereAround(claim: nat)
      requires Valid() && claim in world.slot.recyclers
      modifies this
      ensures Valid() && Later() && RecyclerAt(world.slot, claim, old(world.slot.recyclers[claim]))
    {
      hide Enabled, Apply, IsRun, Turns;
      ghost var pc := world.slot.recyclers[claim];
      var n: nat := *;
      while n > 0
        invariant Valid() && Later() && RecyclerAt(world.slot, claim, pc)
      {
        var a: Action := *;
        if !CallOf(world, a, claim) && Enabled(world, a) {
          OthersLeaveCall(world, a, claim, pc);
          Perform(a);
        }
        n := n - 1;
      }
    }

    // One step of the call.
    method CallStep(a: CallerAction, claim: nat)
      requires Valid() && !a.Enter? && a.claim == claim && CallerEnabled(world.slot, a)
      modifies this
      ensures Valid() && Later() && RecyclerAt(world.slot, claim, CallerNext(old(world.slot), a))
      ensures steps == old(steps) + [Caller(a)] && world.slot.generation == old(world.slot.generation)
    {
      hide IsRun, Turns;
      Perform(Caller(a));
    }

    // A claim that was not the current one at state `i` of the run never is again.
    lemma PastStaysPast(i: nat, j: nat, claim: nat)
      requires Valid() && i <= j < |worlds| && claim in worlds[i].slot.recyclers && worlds[j].slot.generation == claim
      ensures worlds[i].slot.generation == claim
    {
      hide Apply, Enabled, PlaceInv, CallInv, RefusalInv, LoopHoldsInv, BankInv;
      RunKeepsInv(worlds, steps, i);
      RunIsOnward(worlds, steps, i, j);
    }

    // One look at each of the three ways to see the end of a recycle.
    method LookDone(claim: nat) returns (done: bool)
      requires Valid() && RecyclerAt(world.slot, claim, Waiting)
      modifies this
      ensures Valid() && Later() && RecyclerAt(world.slot, claim, if done then SawDone else Waiting)
      ensures !done ==> SawNothing(worlds, claim, old(|worlds|) - 1)
    {
      hide IsRun, Turns;
      InterfereAround(claim);
      ghost var i := |worlds| - 1;
      if world.slot.doneSignal {
        CallStep(SeeFired(claim), claim);
        return true;
      }
      InterfereAround(claim);
      ghost var j := |worlds| - 1;
      if world.slot.generation != claim {
        CallStep(SeeGeneration(claim), claim);
        return true;
      }
      InterfereAround(claim);
      if world.slot.lifecycle == RecycleFailed {
        CallStep(SeeFailed(claim), claim);
        return true;
      }
      assert !worlds[i].slot.doneSignal && worlds[j].slot.generation == claim;
      done := false;
    }

    /** Three ways to see the end: the signal, which another claim may consume, the generation, and
        the quarantine. The call gives up only after a look that found none of them, so never on a
        claim that is over, and leaves itself abandoned then. */
    method AwaitDone(claim: nat, polls: nat) returns (done: bool)
      requires Valid() && RecyclerAt(world.slot, claim, Waiting) && polls > 0
      modifies this
      ensures Valid() && Later() && RecyclerAt(world.slot, claim, if done then SawDone else ReturnedErr)
      ensures old(world.slot.generation) != claim ==> done
      ensures !done ==> SawNothing(worlds, claim, old(|worlds|) - 1)
                        && Caller(GiveUp(claim)) in steps[old(|steps|)..]
    {
      hide IsRun, Turns, SawNothing;
      done := false;
      ghost var start := |worlds| - 1;
      var left := polls;
      while left > 0 && !done
        invariant left <= polls && Valid() && Later()
        invariant RecyclerAt(world.slot, claim, if done then SawDone else Waiting)
        invariant left < polls && !done ==> SawNothing(worlds, claim, start)
      {
        ghost var first := |worlds| - 1;
        done := LookDone(claim);
        if !done { SawNothingSince(worlds, claim, start, first); }
        left := left - 1;
      }
      if !done {
        ghost var ws := worlds;
        CallStep(GiveUp(claim), claim);
        assert steps[|steps| - 1] == Caller(GiveUp(claim));
        StillSawNothing(ws, worlds, claim, start);
        NothingSeenOnClaim(claim, start);
      }
    }

    // A claim that is over is seen.
    lemma NothingSeenOnClaim(claim: nat, start: nat)
      requires Valid() && start < |worlds| && SawNothing(worlds, claim, start)
      requires claim in worlds[start].slot.recyclers
      ensures worlds[start].slot.generation == claim
    {
      hide IsRun;
      var i, j, k :| start <= i <= j <= k < |worlds| && !worlds[i].slot.doneSignal
                     && worlds[j].slot.generation == claim && worlds[k].slot.lifecycle != RecycleFailed;
      PastStaysPast(start, j, claim);
    }

    // Any other generation will do: by then a new owner may hold the slot.
    method AwaitClaimReleased(claim: nat, rounds: nat) returns (released: bool)
      requires Valid() && RecyclerAt(world.slot, claim, AwaitingRelease) && rounds > 0
      modifies this
      ensures Valid() && Later() && RecyclerAt(world.slot, claim, if released then ReturnedOk else ReturnedErr)
      ensures old(world.slot.generation) != claim ==> released
      ensures !released ==> SawClaim(worlds, claim, old(|worlds|) - 1)
    {
      hide IsRun, Turns;
      released := false;
      ghost var start, seen := |worlds| - 1, |worlds| - 1;
      var left := rounds;
      while left > 0 && !released
        invariant left <= rounds && Valid() && Later()
        invariant RecyclerAt(world.slot, claim, if released then ReturnedOk else AwaitingRelease)
        invariant start <= seen < |worlds|
        invariant left < rounds && !released ==> worlds[seen].slot.generation == claim
      {
        InterfereAround(claim);
        seen := |worlds| - 1;
        if world.slot.generation != claim {
          CallStep(SeeReleased(claim), claim);
          released := true;
        }
        left := left - 1;
      }
      if !released {
        PastStaysPast(start, seen, claim);
        CallStep(GiveUpRelease(claim), claim);
        assert worlds[seen].slot.generation == claim;
      }
    }

    /** Ok is returned only after the claim is over, so `SlotSafety.SilentAfterOk` applies to
        everything that happens from then on. Each error says what the call saw. */
    method RequestRecycle(around: CallSurroundings) returns (result: CallResult)
      requires Valid() && world.slot.phase == Owned && world.slot.generation !in world.slot.recyclers
      requires around.polls > 0 && around.rounds > 0
      modifies this
      ensures Valid() && Later()
      ensures RecyclerAt(world.slot, old(world.slot.generation), if result == CallOk then ReturnedOk else ReturnedErr)
      ensures result == CallOk ==> world.slot.generation > old(world.slot.generation)
      ensures result == NotActive || (result == NotSignalled <==> !around.signalled)
      ensures Justified(worlds, steps, old(world.slot.generation), old(|worlds|) - 1, result)
    {
      hide IsRun, Inv, Turns, Justified;
      var claimed := world.slot.generation;
      Perform(Caller(Enter));
      ghost var k := |worlds| - 1;
      result := RunCall(claimed, around);
      JustifiedSince(worlds, steps, claimed, k - 1, k, result);
      if result == CallOk { OkMeansOver(claimed); }
    }

    lemma OkMeansOver(claim: nat)
      requires Valid() && RecyclerAt(world.slot, claim, ReturnedOk)
      ensures world.slot.generation > claim
    {
      Knows();
    }

    method RunCall(claim: nat, around: CallSurroundings) returns (result: CallResult)
      requires Valid() && RecyclerAt(world.slot, claim, Entered) && around.polls > 0 && around.rounds > 0
      modifies this
      ensures Valid() && Later()
      ensures RecyclerAt(world.slot, claim, if result == CallOk then ReturnedOk else ReturnedErr)
      ensures result == NotActive || (result == NotSignalled <==> !around.signalled)
      ensures Justified(worlds, steps, claim, old(|worlds|) - 1, result)
    {
      hide IsRun, Turns;
      ghost var start := |worlds| - 1;
      InterfereAround(claim);
      ghost var looked := |worlds| - 1;
      var won := world.slot.lifecycle == Active;
      CallStep(RequestCas(claim), claim);
      if !won {
        assert worlds[looked].slot.lifecycle != Active;
        return NotActive;
      }
      InterfereAround(claim);
      CallStep(ClearAbandoned(claim), claim);
      InterfereAround(claim);
      CallStep(DrainSignal(claim), claim);
      ghost var k := |worlds| - 1;
      result := AfterRequest(claim, around);
      JustifiedSince(worlds, steps, claim, start, k, result);
    }

    // The FFI thread is signalled and waited for.
    method AfterRequest(claim: nat, around: CallSurroundings) returns (result: CallResult)
      requires Valid() && RecyclerAt(world.slot, claim, Waiting) && around.polls > 0 && around.rounds > 0
      modifies this
      ensures Valid() && Later() && result != NotActive
      ensures RecyclerAt(world.slot, claim, if result == CallOk then ReturnedOk else ReturnedErr)
      ensures result == NotSignalled <==> !around.signalled
      ensures Justified(worlds, steps, claim, old(|worlds|) - 1, result)
    {
      hide IsRun, Turns, SawNothing;
      ghost var start := |worlds| - 1;
      InterfereAround(claim);
      if !around.signalled {
        CallStep(FailToSignal(claim), claim);
        return NotSignalled;
      }
      ghost var k := |worlds| - 1;
      var done := AwaitDone(claim, around.polls);
      if !done {
        SawNothingSince(worlds, claim, start, k);
        return OutOfTime;
      }
      k := |worlds| - 1;
      result := AfterDone(claim, around.rounds);
      JustifiedSince(worlds, steps, claim, start, k, result);
    }

    method AfterDone(claim: nat, rounds: nat) returns (result: CallResult)
      requires Valid() && RecyclerAt(world.slot, claim, SawDone) && rounds > 0
      modifies this
      ensures Valid() && Later() && (result == CallOk || result.Quarantined? || result == NotReleased)
      ensures RecyclerAt(world.slot, claim, if result == CallOk then ReturnedOk else ReturnedErr)
      ensures Justified(worlds, steps, claim, old(|worlds|) - 1, result)
      ensures old(world.slot.generation) != claim ==> result != NotReleased
    {
      hide IsRun, Turns;
      ghost var start := |worlds| - 1;
      InterfereAround(claim);
      ghost var looked := |worlds| - 1;
      var failed := world.slot.lifecycle == RecycleFailed;
      CallStep(CheckLifecycle(claim), claim);
      if failed {
        InterfereAround(claim);
        assert worlds[looked].slot.lifecycle == RecycleFailed;
        assert worlds[|worlds| - 1].slot.failure == world.slot.failure;
        return Quarantined(world.slot.failure);
      }
      ghost var k := |worlds| - 1;
      var released := AwaitClaimReleased(claim, rounds);
      result := if released then CallOk else NotReleased;
      if !released {
        ghost var j :| k <= j < |worlds| && worlds[j].slot.generation == claim;
        PastStaysPast(start, j, claim);
      }
    }
  }
}

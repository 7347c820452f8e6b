/** The invariant of the slot protocol, and that every step keeps it. */
module SlotInvariant {
  import opened Wrappers
  import opened RequestTraffic
  import opened SlotProtocol

  // ---------------------------------------------------------------------------------------
  // One claim
  // ---------------------------------------------------------------------------------------

  predicate Untouched(c: Claim) {
    c.leftInFlight == None && c.teardown == None && c.resets == 0 && !c.resetDone && c.abandonedBy == {}
  }

  predicate DrainedClean(c: Claim) {
    c.leftInFlight == Some(multiset{})
  }

  predicate DrainedBadly(c: Claim) {
    && c.leftInFlight.Some? && c.leftInFlight.value != multiset{}
    && c.teardown == None && c.resets == 0 && !c.resetDone && c.abandonedBy == {}
  }

  predicate TornDown(c: Claim) {
    DrainedClean(c) && (c.teardown == Some(Skipped) || c.teardown == Some(Completed))
  }

  /** The promise of `recycleContext`: the reset (and the freeing of the library in it) runs
      at most once, only after a drain that left nothing running and a teardown that ended
      well, and only a finished reset lets the recycle end the claim. */
  predicate ClaimOk(c: Claim) {
    && c.resets <= 1
    && (c.resets == 1 ==> TornDown(c))
    && (c.resetDone ==> c.resets == 1)
    && (c.abandonedBy != {} ==> c.resetDone)
    && (c.ending == ByRecycle ==> c.resetDone && c.abandonedBy == {})
  }

  /** The outcome of a recycle names what happened to the claim. A finished reset comes to
      nothing exactly when somebody had given up. */
  predicate ReasonOk(failure: Failure, c: Claim) {
    match failure
    case NoFailure => c.resetDone && c.abandonedBy == {}
    case DrainTimeout => DrainedBadly(c)
    case TeardownTimeout => DrainedClean(c) && c.teardown == Some(TimedOut) && c.resets == 0
    case TeardownRaised => DrainedClean(c) && c.teardown == Some(Raised) && c.resets == 0
    case CallerAbandoned => c.resetDone && c.abandonedBy != {}
  }

  // How far the recycle of the live claim has come at each point of the FFI loop.
  predicate StageOk(pc: Pc, c: Claim) {
    match pc
    case Draining => Untouched(c)
    case TearingDown => DrainedClean(c) && c.teardown == None && c.resets == 0 && !c.resetDone
    case FreeingLib => TornDown(c) && c.resets == 0 && !c.resetDone
    case DroppingMessages => c.resets == 1 && !c.resetDone
    case BeginningReject => c.resets == 1 && !c.resetDone
    case Rejecting(_, inReset) => inReset ==> c.resets == 1 && !c.resetDone
    case ForgettingFutures => c.resets == 1 && !c.resetDone
    case Finishing(f) => ReasonOk(f, c)
    case StoringFailure(f) => ReasonOk(f, c)
    case StoringLifecycle(f) => ReasonOk(f, c)
    case Firing(f) => f == NoFailure ==> ReasonOk(f, c)
    case Releasing => ReasonOk(NoFailure, c)
    case _ => true
  }

  // ---------------------------------------------------------------------------------------
  // The slot
  // ---------------------------------------------------------------------------------------

  predicate InRecycle(pc: Pc) {
    match pc
    case Draining => true
    case TearingDown => true
    case FreeingLib => true
    case DroppingMessages => true
    case BeginningReject => true
    case Rejecting(_, inReset) => inReset
    case ForgettingFutures => true
    case Finishing(_) => true
    case StoringFailure(_) => true
    case StoringLifecycle(_) => true
    case Firing(f) => f == NoFailure
    case Releasing => true
    case _ => false
  }

  predicate InStop(pc: Pc) {
    pc == Processing(true) || pc == StopWaiting || pc == StopTearingDown || pc == Exiting
  }

  predicate Parked(phase: Phase) {
    phase == Free || phase == Claiming || phase == Stopping(ParkIdle)
  }

  ghost predicate PhaseInv(s: Slot) {
    && (s.phase == Free <==> s.generation % 2 == 0)
    && (forall seen :: seen in s.loaded ==> seen % 2 == 0)
    && (s.phase == Owned ==> s.pc != Down)
    && (InStop(s.pc) || (s.pc != Down && !s.running) ==> s.phase.Stopping?)
  }

  ghost predicate LifecycleInv(s: Slot) {
    && (Parked(s.phase) && s.pc != Down ==> s.lifecycle == Recycling)
    && (s.phase == Marked ==> s.lifecycle == Active)
    && (s.phase.Stopping? && s.phase.reason != ParkIdle ==> s.lifecycle == Active || s.lifecycle == RecycleFailed)
    && (s.phase == Owned && s.lifecycle == Recycling ==> InRecycle(s.pc))
    && (InRecycle(s.pc) ==> s.phase == Owned && s.lifecycle == Recycling)
    && (s.lifecycle == RecyclePending ==> s.phase == Owned)
    && (s.lifecycle == RecycleFailed ==> s.failure != NoFailure && !Parked(s.phase))
    && (s.pc.StoringFailure? || s.pc.StoringLifecycle? ==> s.pc.failure != NoFailure)
    && (s.pc.StoringLifecycle? ==> s.failure == s.pc.failure)
    && (s.pc.Firing? && s.pc.failure != NoFailure ==> s.lifecycle == RecycleFailed && s.failure == s.pc.failure)
  }

  ghost predicate ClaimsInv(s: Slot) {
    && (forall g :: g in s.claims ==> g % 2 == 1 && g <= s.generation && ClaimOk(s.claims[g]))
    && (forall g :: g in s.claims ==> (s.claims[g].ending == Live <==> g == s.generation))
    && (s.generation % 2 == 1 ==> s.generation in s.claims)
    && (forall g :: g in s.issued ==> g in s.claims)
  }

  ghost predicate StageInv(s: Slot) {
    && (s.generation in s.claims ==> StageOk(s.pc, s.claims[s.generation]))
    && (s.generation in s.claims && (s.lifecycle == Active || s.lifecycle == RecyclePending || Parked(s.phase))
        ==> Untouched(s.claims[s.generation]))
    && (s.generation in s.claims && s.lifecycle == RecycleFailed ==> ReasonOk(s.failure, s.claims[s.generation]))
  }

  // The local copy of the generation may lag by the one claim a creator makes.
  ghost predicate OwnerGenInv(s: Slot) {
    s.pc.ReadingLifecycle? || s.pc.Rejecting? ==>
      && s.pc.ownerGen <= s.generation <= s.pc.ownerGen + 1
      && (s.pc.ownerGen % 2 == 1 ==> s.pc.ownerGen == s.generation)
  }

  ghost predicate RecyclersInv(s: Slot) {
    && (forall g :: g in s.recyclers ==>
          && g in s.claims
          && (s.recyclers[g] == Entered ==> g == s.generation && s.phase == Owned && s.lifecycle == Active)
          && (s.recyclers[g] == ReturnedOk ==> g < s.generation))
    && (s.phase == Owned && s.generation !in s.recyclers ==> s.lifecycle == Active)
  }

  // The flag stands for the calls that gave up since it was cleared.
  ghost predicate AbandonInv(s: Slot) {
    && (s.abandoned <==> s.gaveUp != {})
    && (forall g :: g in s.gaveUp ==> RecyclerAt(s, g, ReturnedErr))
  }

  ghost predicate SlotInv(s: Slot) {
    && PhaseInv(s) && LifecycleInv(s) && ClaimsInv(s) && StageInv(s) && OwnerGenInv(s) && RecyclersInv(s)
    && AbandonInv(s)
  }

  // ---------------------------------------------------------------------------------------
  // The slot and its requests
  // ---------------------------------------------------------------------------------------

  // Points of the loop where no handler can be running.
  predicate Quiet(pc: Pc) {
    match pc
    case Down => true
    case TearingDown => true
    case FreeingLib => true
    case DroppingMessages => true
    case BeginningReject => true
    case Rejecting(_, inReset) => inReset
    case ForgettingFutures => true
    case Finishing(f) => f == NoFailure || f == TeardownTimeout || f == TeardownRaised
    case Firing(f) => f == NoFailure
    case Releasing => true
    case StopTearingDown => true
    case Exiting => true
    case _ => false
  }

  ghost predicate LoopHoldsInv(s: Slot, t: Traffic) {
    && (Quiet(s.pc) ==> t.inFlight == multiset{})
    && (!HoldsChain(s.pc) ==> t.chain == multiset{})
  }

  // Nobody can push into a bank that is not initialised.
  ghost predicate BankInv(s: Slot, t: Traffic) {
    && (forall r :: r in t.sawActive ==> r.generation in s.issued)
    && (!s.initialized ==> s.pc == Down && s.generation !in s.issued && t.checked == {} && t.ingress == multiset{})
  }

  ghost predicate Inv(w: World) {
    && SlotInv(w.slot)
    && PlaceInv(w.traffic, w.slot.generation)
    && CallInv(w.traffic, w.mode)
    && LoopHoldsInv(w.slot, w.traffic)
    && BankInv(w.slot, w.traffic)
    && RefusalInv(w.traffic, w.mode)
  }

  // ---------------------------------------------------------------------------------------
  // The slot alone
  // ---------------------------------------------------------------------------------------

  lemma InitInv(w: World)
    requires Init(w)
    ensures Inv(w)
  {
    hide RefusalInv, PlaceInv, CallInv, SlotInv;
    EmptyRefusals(w.mode);
    EmptyTraffic(0, w.mode);
    NewSlot();
  }

  lemma NewSlot()
    ensures SlotInv(NEW_SLOT)
  {
  }

  lemma CreateKeepsLifecycle(s: Slot, a: CreateAction)
    requires PhaseInv(s) && LifecycleInv(s) && CreateEnabled(s, a)
    ensures var s' := CreateApply(s, a); PhaseInv(s') && LifecycleInv(s')
  {
  }

  lemma CreateKeepsClaims(s: Slot, a: CreateAction)
    requires PhaseInv(s) && ClaimsInv(s) && CreateEnabled(s, a)
    ensures ClaimsInv(CreateApply(s, a))
  {
  }

  lemma CreateKeepsStage(s: Slot, a: CreateAction)
    requires PhaseInv(s) && LifecycleInv(s) && ClaimsInv(s) && StageInv(s) && CreateEnabled(s, a)
    ensures StageInv(CreateApply(s, a))
  {
  }

  lemma CreateKeepsRecyclers(s: Slot, a: CreateAction)
    requires PhaseInv(s) && LifecycleInv(s) && ClaimsInv(s) && OwnerGenInv(s) && RecyclersInv(s) && CreateEnabled(s, a)
    ensures var s' := CreateApply(s, a); OwnerGenInv(s') && RecyclersInv(s')
  {
  }

  lemma CreateKeepsAbandon(s: Slot, a: CreateAction)
    requires AbandonInv(s) && CreateEnabled(s, a)
    ensures AbandonInv(CreateApply(s, a))
  {
  }

  lemma CreateKeepsSlotInv(s: Slot, a: CreateAction)
    requires SlotInv(s) && CreateEnabled(s, a)
    ensures SlotInv(CreateApply(s, a))
  {
    hide PhaseInv, LifecycleInv, ClaimsInv, StageInv, OwnerGenInv, RecyclersInv, AbandonInv, CreateApply, CreateEnabled;
    CreateKeepsAbandon(s, a);
    CreateKeepsLifecycle(s, a);
    CreateKeepsClaims(s, a);
    CreateKeepsStage(s, a);
    CreateKeepsRecyclers(s, a);
  }

  lemma CallerKeepsRecyclers(s: Slot, a: CallerAction)
    requires PhaseInv(s) && ClaimsInv(s) && RecyclersInv(s) && CallerEnabled(s, a)
    ensures RecyclersInv(CallerApply(s, a))
  {
  }

  lemma CallerKeepsLifecycle(s: Slot, a: CallerAction)
    requires PhaseInv(s) && LifecycleInv(s) && RecyclersInv(s) && CallerEnabled(s, a)
    ensures var s' := CallerApply(s, a); PhaseInv(s') && LifecycleInv(s')
  {
  }

  lemma CallerKeepsClaims(s: Slot, a: CallerAction)
    requires ClaimsInv(s) && StageInv(s) && OwnerGenInv(s) && CallerEnabled(s, a)
    ensures var s' := CallerApply(s, a); ClaimsInv(s') && StageInv(s') && OwnerGenInv(s')
  {
  }

  lemma CallerKeepsAbandon(s: Slot, a: CallerAction)
    requires AbandonInv(s) && CallerEnabled(s, a)
    ensures AbandonInv(CallerApply(s, a))
  {
  }

  lemma CallerKeepsSlotInv(s: Slot, a: CallerAction)
    requires SlotInv(s) && CallerEnabled(s, a)
    ensures SlotInv(CallerApply(s, a))
  {
    hide PhaseInv, LifecycleInv, ClaimsInv, StageInv, OwnerGenInv, RecyclersInv, AbandonInv, CallerApply, CallerEnabled;
    CallerKeepsAbandon(s, a);
    CallerKeepsRecyclers(s, a);
    CallerKeepsLifecycle(s, a);
    CallerKeepsClaims(s, a);
  }

  lemma StopKeepsLifecycle(s: Slot, t: Traffic, a: StopAction)
    requires PhaseInv(s) && LifecycleInv(s) && StopEnabled(s, t, a)
    ensures var s' := StopApply(s, t, a); PhaseInv(s') && LifecycleInv(s')
  {
  }

  lemma BeginStopKeepsClaims(s: Slot, t: Traffic, reason: StopReason)
    requires PhaseInv(s) && LifecycleInv(s) && ClaimsInv(s) && StageInv(s) && StopEnabled(s, t, BeginStop(reason))
    ensures var s' := StopApply(s, t, BeginStop(reason)); ClaimsInv(s') && StageInv(s')
  {
    hide ClaimOk, StageOk, ReasonOk, Untouched;
  }

  lemma JoinKeepsClaims(s: Slot, t: Traffic)
    requires PhaseInv(s) && ClaimsInv(s) && StopEnabled(s, t, JoinAndRelease)
    ensures ClaimsInv(StopApply(s, t, JoinAndRelease))
  {
    hide StageOk, ReasonOk, Untouched;
    var s' := EndClaim(s, ByJoin);
    assert s'.claims == StopApply(s, t, JoinAndRelease).claims
          && s'.generation == StopApply(s, t, JoinAndRelease).generation;
    assert s.generation % 2 == 1;
  }

  lemma JoinKeepsStage(s: Slot, t: Traffic)
    requires PhaseInv(s) && ClaimsInv(s) && StageInv(s) && StopEnabled(s, t, JoinAndRelease)
    ensures StageInv(StopApply(s, t, JoinAndRelease))
  {
    hide StageOk, ReasonOk, Untouched, ClaimOk;
    assert s.generation + 1 !in s.claims;
  }

  lemma StopKeepsClaims(s: Slot, t: Traffic, a: StopAction)
    requires PhaseInv(s) && LifecycleInv(s) && ClaimsInv(s) && StageInv(s) && StopEnabled(s, t, a)
    ensures var s' := StopApply(s, t, a); ClaimsInv(s') && StageInv(s')
  {
    hide PhaseInv, LifecycleInv, ClaimsInv, StageInv, StopApply, StopEnabled;
    match a
    case BeginStop(reason) => BeginStopKeepsClaims(s, t, reason);
    case JoinAndRelease => JoinKeepsClaims(s, t); JoinKeepsStage(s, t);
  }

  lemma BeginStopKeepsRecyclers(s: Slot, t: Traffic, reason: StopReason)
    requires RecyclersInv(s) && StopEnabled(s, t, BeginStop(reason))
    ensures RecyclersInv(StopApply(s, t, BeginStop(reason)))
  {
  }

  lemma JoinKeepsRecyclers(s: Slot, t: Traffic)
    requires RecyclersInv(s) && StopEnabled(s, t, JoinAndRelease)
    ensures RecyclersInv(StopApply(s, t, JoinAndRelease))
  {
  }

  lemma StopKeepsRecyclers(s: Slot, t: Traffic, a: StopAction)
    requires RecyclersInv(s) && StopEnabled(s, t, a)
    ensures RecyclersInv(StopApply(s, t, a))
  {
    hide RecyclersInv, StopApply, StopEnabled;
    match a
    case BeginStop(reason) => BeginStopKeepsRecyclers(s, t, reason);
    case JoinAndRelease => JoinKeepsRecyclers(s, t);
  }

  lemma StopKeepsOwnerGen(s: Slot, t: Traffic, a: StopAction)
    requires OwnerGenInv(s) && StopEnabled(s, t, a)
    ensures OwnerGenInv(StopApply(s, t, a))
  {
  }

  lemma StopKeepsAbandon(s: Slot, t: Traffic, a: StopAction)
    requires AbandonInv(s) && StopEnabled(s, t, a)
    ensures AbandonInv(StopApply(s, t, a))
  {
  }

  lemma StopKeepsSlotInv(s: Slot, t: Traffic, a: StopAction)
    requires SlotInv(s) && StopEnabled(s, t, a)
    ensures SlotInv(StopApply(s, t, a))
  {
    hide PhaseInv, LifecycleInv, ClaimsInv, StageInv, OwnerGenInv, RecyclersInv, AbandonInv, StopApply, StopEnabled;
    StopKeepsAbandon(s, t, a);
    StopKeepsLifecycle(s, t, a);
    StopKeepsClaims(s, t, a);
    StopKeepsRecyclers(s, t, a);
    StopKeepsOwnerGen(s, t, a);
  }

  lemma IterateKeepsLifecycle(s: Slot, t: Traffic, a: IterateAction)
    requires PhaseInv(s) && LifecycleInv(s) && IterateEnabled(s, t, a)
    ensures var s' := IterateSlot(s, a); PhaseInv(s') && LifecycleInv(s')
  {
  }

  lemma IterateKeepsClaims(s: Slot, t: Traffic, a: IterateAction)
    requires LifecycleInv(s) && ClaimsInv(s) && StageInv(s) && IterateEnabled(s, t, a)
    ensures var s' := IterateSlot(s, a); ClaimsInv(s') && StageInv(s')
  {
  }

  lemma IterateKeepsRecyclers(s: Slot, t: Traffic, a: IterateAction)
    requires LifecycleInv(s) && RecyclersInv(s) && IterateEnabled(s, t, a)
    ensures RecyclersInv(IterateSlot(s, a))
  {
  }

  lemma IterateKeepsSlotInv(s: Slot, t: Traffic, a: IterateAction)
    requires SlotInv(s) && IterateEnabled(s, t, a)
    ensures SlotInv(IterateSlot(s, a))
  {
    hide PhaseInv, LifecycleInv, ClaimsInv;
    IterateKeepsLifecycle(s, t, a);
    IterateKeepsClaims(s, t, a);
    IterateKeepsRecyclers(s, t, a);
  }

  lemma ChainKeepsSlotInv(s: Slot, t: Traffic, a: ChainAction)
    requires SlotInv(s) && ChainEnabled(s, t, a)
    ensures SlotInv(ChainSlot(s, a))
  {
  }

  lemma NothingInFlight(t: Traffic, current: nat)
    requires PlaceInv(t, current) && AllFinished(t)
    ensures t.inFlight == multiset{}
  {
    assert forall r :: r !in t.inFlight;
  }

  // Steps of `recycleContext` that say what became of the claim.
  predicate WritesHistory(a: RecycleAction) {
    a.EndDrain? || a.EndTeardown? || a.FreeLib? || a.ForgetFutures?
  }

  lemma RecycleWritesHistory(s: Slot, t: Traffic, hook: bool, a: RecycleAction)
    requires ClaimsInv(s) && StageInv(s) && LifecycleInv(s) && RecycleEnabled(s, t, hook, a) && WritesHistory(a)
    requires a == EndDrain(true) ==> t.inFlight == multiset{}
    ensures var s' := RecycleSlot(s, t, hook, a); ClaimsInv(s') && StageInv(s')
  {
  }

  // Whether a finished reset comes to nothing is read off the flag, once.
  lemma ConcludeKeepsHistory(s: Slot, t: Traffic, hook: bool)
    requires ClaimsInv(s) && StageInv(s) && LifecycleInv(s) && AbandonInv(s) && RecycleEnabled(s, t, hook, Conclude)
    ensures var s' := RecycleSlot(s, t, hook, Conclude); ClaimsInv(s') && StageInv(s')
  {
  }

  predicate MovesOn(a: RecycleAction) {
    !WritesHistory(a) && !a.Conclude? && !a.ReleaseClaim?
  }

  lemma RecycleMovesOn(s: Slot, t: Traffic, hook: bool, a: RecycleAction)
    requires StageInv(s) && LifecycleInv(s) && RecycleEnabled(s, t, hook, a) && MovesOn(a)
    ensures StageInv(RecycleSlot(s, t, hook, a))
  {
    var s' := RecycleSlot(s, t, hook, a);
    assert s'.claims == s.claims;
  }

  lemma RecycleMovesOnClaims(s: Slot, t: Traffic, hook: bool, a: RecycleAction)
    requires ClaimsInv(s) && RecycleEnabled(s, t, hook, a) && MovesOn(a)
    ensures ClaimsInv(RecycleSlot(s, t, hook, a))
  {
    var s' := RecycleSlot(s, t, hook, a);
    assert s'.claims == s.claims;
  }

  lemma RecycleKeepsLifecycle(s: Slot, t: Traffic, hook: bool, a: RecycleAction)
    requires PhaseInv(s) && LifecycleInv(s) && RecycleEnabled(s, t, hook, a) && !a.ReleaseClaim?
    ensures var s' := RecycleSlot(s, t, hook, a); PhaseInv(s') && LifecycleInv(s')
  {
  }

  lemma RecycleKeepsOwnerGen(s: Slot, t: Traffic, hook: bool, a: RecycleAction)
    requires ClaimsInv(s) && OwnerGenInv(s) && RecycleEnabled(s, t, hook, a) && !a.ReleaseClaim?
    ensures OwnerGenInv(RecycleSlot(s, t, hook, a))
  {
    assert s.generation % 2 == 1;
    hide ClaimsInv;
  }

  lemma RecycleKeepsRecyclers(s: Slot, t: Traffic, hook: bool, a: RecycleAction)
    requires LifecycleInv(s) && RecyclersInv(s) && RecycleEnabled(s, t, hook, a) && !a.ReleaseClaim?
    ensures RecyclersInv(RecycleSlot(s, t, hook, a))
  {
    var s' := RecycleSlot(s, t, hook, a);
    assert s'.generation == s.generation && s'.phase == s.phase && s'.recyclers == s.recyclers
          && s'.claims.Keys == s.claims.Keys;
  }

  lemma RecycleReleasesClaim(s: Slot, t: Traffic, hook: bool)
    requires ClaimsInv(s) && StageInv(s) && RecycleEnabled(s, t, hook, ReleaseClaim)
    ensures var s' := RecycleSlot(s, t, hook, ReleaseClaim); ClaimsInv(s') && StageInv(s')
  {
  }

  lemma RecycleReleases(s: Slot, t: Traffic, hook: bool)
    requires SlotInv(s) && RecycleEnabled(s, t, hook, ReleaseClaim)
    ensures SlotInv(RecycleSlot(s, t, hook, ReleaseClaim))
  {
    assert s.generation % 2 == 1 && RecycleHistory(s, s.claims[s.generation], t, ReleaseClaim).ending == ByRecycle;
    RecycleReleasesClaim(s, t, hook);
    hide ClaimsInv, StageInv;
  }

  lemma RecycleKeepsSlotInv(w: World, a: RecycleAction)
    requires Inv(w) && RecycleEnabled(w.slot, w.traffic, w.hook, a)
    ensures SlotInv(RecycleSlot(w.slot, w.traffic, w.hook, a))
  {
    hide PhaseInv, LifecycleInv, ClaimsInv, StageInv, OwnerGenInv, RecyclersInv, PlaceInv, CallInv, RefusalInv;
    var s, t := w.slot, w.traffic;
    if a.ReleaseClaim? {
      RecycleReleases(s, t, w.hook);
    } else {
      RecycleKeepsLifecycle(s, t, w.hook, a);
      RecycleKeepsOwnerGen(s, t, w.hook, a);
      RecycleKeepsRecyclers(s, t, w.hook, a);
      if a == EndDrain(true) { NothingInFlight(t, s.generation); }
      if WritesHistory(a) {
        RecycleWritesHistory(s, t, w.hook, a);
      } else if a.Conclude? {
        ConcludeKeepsHistory(s, t, w.hook);
      } else {
        RecycleMovesOn(s, t, w.hook, a);
        RecycleMovesOnClaims(s, t, w.hook, a);
      }
    }
  }

  lemma HandlerKeepsSlotInv(w: World, a: HandlerAction)
    requires SlotInv(w.slot) && HandlerEnabled(w, a)
    ensures SlotInv(HandlerApply(w, a).slot)
  {
  }

  // ---------------------------------------------------------------------------------------
  // The requests, agent by agent
  // ---------------------------------------------------------------------------------------

  ghost predicate RequestsInv(w: World) {
    && PlaceInv(w.traffic, w.slot.generation)
    && CallInv(w.traffic, w.mode)
    && LoopHoldsInv(w.slot, w.traffic)
    && BankInv(w.slot, w.traffic)
  }

  // A free slot runs no handler: every stamp is odd.
  lemma FreeSlotIsQuiet(t: Traffic, current: nat)
    requires PlaceInv(t, current) && current % 2 == 0
    ensures t.inFlight == multiset{}
  {
    forall r | r in t.inFlight ensures false {
      OnePlace(t, current, r);
    }
    assert forall r :: r !in t.inFlight;
  }

  lemma CreateKeepsRequests(w: World, a: CreateAction)
    requires Inv(w) && CreateEnabled(w.slot, a)
    ensures RequestsInv(Apply(w, Create(a)))
  {
    hide PlaceInv, CallInv, RecyclersInv, StageInv;
    var w' := Apply(w, Create(a));
    assert w'.traffic == w.traffic;
    if w'.slot.generation != w.slot.generation {
      if w.slot.generation % 2 == 0 { FreeSlotIsQuiet(w.traffic, w.slot.generation); }
      NextGenerationKeepsInv(w.traffic, w.slot.generation, w'.slot.generation);
    }
  }

  lemma CallerKeepsRequests(s: Slot, t: Traffic, a: CallerAction)
    requires LoopHoldsInv(s, t) && BankInv(s, t) && CallerEnabled(s, a)
    ensures var s' := CallerApply(s, a);
            s'.generation == s.generation && LoopHoldsInv(s', t) && BankInv(s', t)
  {
  }

  lemma StopKeepsRequests(w: World, a: StopAction)
    requires Inv(w) && StopEnabled(w.slot, w.traffic, a)
    ensures RequestsInv(Apply(w, Stop(a)))
  {
    hide PlaceInv, CallInv, RecyclersInv, StageInv;
    var w' := Apply(w, Stop(a));
    if a == JoinAndRelease {
      var t := DropReplies(w.traffic);
      CollectedKeepsInv(w.traffic, t, w.slot.generation);
      if w.slot.phase.reason == FullDestroy {
        DeinitKeepsInv(t, w.slot.generation, w'.slot.generation);
      } else {
        NextGenerationKeepsInv(t, w.slot.generation, w'.slot.generation);
      }
      CallsUntouched(w.traffic, w'.traffic, w.mode);
    }
  }

  lemma TellKeepsCalls(t: Traffic, mode: Mode, r: Request, current: nat)
    requires CallInv(t, mode)
    ensures CallInv(TellRefused(t, r, current), mode)
  {
  }

  lemma SubmitKeepsCalls(s: Slot, t: Traffic, mode: Mode, a: SubmitAction)
    requires CallInv(t, mode) && SubmitEnabled(s, t, a)
    ensures CallInv(SubmitApply(s, t, mode, a), mode)
  {
    hide CallInv;
    if a.Tell? {
      TellKeepsCalls(t, mode, a.r, s.generation);
    } else {
      CallsUntouched(t, SubmitApply(s, t, mode, a), mode);
    }
  }

  lemma SubmitKeepsPlaces(s: Slot, t: Traffic, mode: Mode, a: SubmitAction)
    requires PlaceInv(t, s.generation) && SubmitEnabled(s, t, a)
    requires a.Begin? ==> a.generation <= s.generation && a.generation % 2 == 1
    ensures PlaceInv(SubmitApply(s, t, mode, a), s.generation)
  {
    hide PlaceInv;
    var g := s.generation;
    match a
    case Begin(stamp, busy) => SubmitKeepsInv(t, g, stamp, !busy && s.lifecycle == Active, mode);
    case Check(r) => CheckKeepsInv(t, g, r, mode);
    case PushNow(r) => PushKeepsInv(t, g, r);
    case _ => MovedInside(t, SubmitApply(s, t, mode, a), g);
  }

  lemma SubmitKeepsHolds(s: Slot, t: Traffic, mode: Mode, a: SubmitAction)
    requires LoopHoldsInv(s, t) && BankInv(s, t) && SubmitEnabled(s, t, a)
    ensures LoopHoldsInv(s, SubmitApply(s, t, mode, a)) && BankInv(s, SubmitApply(s, t, mode, a))
  {
  }

  lemma SubmitKeepsRequests(w: World, a: SubmitAction)
    requires Inv(w) && SubmitEnabled(w.slot, w.traffic, a)
    ensures RequestsInv(Apply(w, Submit(a)))
  {
    hide PlaceInv, CallInv, RefusalInv, PhaseInv, LifecycleInv, StageInv, RecyclersInv, OwnerGenInv, LoopHoldsInv,
          BankInv, SubmitApply;
    SubmitKeepsCalls(w.slot, w.traffic, w.mode, a);
    SubmitKeepsPlaces(w.slot, w.traffic, w.mode, a);
    SubmitKeepsHolds(w.slot, w.traffic, w.mode, a);
  }

  lemma HandlerKeepsRequests(w: World, a: HandlerAction)
    requires Inv(w) && HandlerEnabled(w, a)
    ensures RequestsInv(Apply(w, Handler(a)))
  {
    hide SlotInv, PlaceInv, CallInv;
    var t, g := w.traffic, w.slot.generation;
    match a
    case Complete(r) =>
      OnePlace(t, g, r);
      AnswerKeepsInv(t, t.(inFlight := t.inFlight - multiset{r}), w.mode, g, r);
    case Warn(r) => WarnStaleKeepsInv(t, g, r);
    case StoreLib(r) =>
  }

  lemma PollerKeepsRequests(w: World, a: PollerAction)
    requires Inv(w) && PollerEnabled(w.traffic, a)
    ensures RequestsInv(Apply(w, Poller(a)))
  {
    hide SlotInv, PlaceInv, CallInv;
    var t, g := w.traffic, w.slot.generation;
    match a
    case Take(r) => TakeReplyKeepsInv(t, w.mode, g, r);
    case Release => CollectedKeepsInv(t, ReleaseHeld(t), g); CallsUntouched(t, ReleaseHeld(t), w.mode);
  }

  /** `rejectQueuedRequests` answers only requests of the claim that is live at that moment:
      a newer request than the local `ownerGen` belongs to the claim a creator made since. */
  lemma RejectKeepsPlaces(s: Slot, t: Traffic, mode: Mode, a: ChainAction)
    requires OwnerGenInv(s) && PlaceInv(t, s.generation) && CallInv(t, mode) && ChainEnabled(s, t, a) && a.RejectNext?
    ensures var t' := ChainTraffic(s, t, mode, a); PlaceInv(t', s.generation) && CallInv(t', mode)
  {
    hide PlaceInv, CallInv;
    var g, r := s.generation, a.r;
    OnePlace(t, g, r);
    if r.generation > s.pc.ownerGen && !a.bankFull {
      RequeueKeepsInv(t, mode, g, r);
    } else if r.generation < s.pc.ownerGen {
      DropKeepsInv(t, mode, g, r);
    } else {
      AnswerKeepsInv(t, t.(chain := t.chain - multiset{r}), mode, g, r);
    }
  }

  lemma ChainKeepsPlaces(s: Slot, t: Traffic, mode: Mode, a: ChainAction)
    requires OwnerGenInv(s) && PlaceInv(t, s.generation) && CallInv(t, mode) && ChainEnabled(s, t, a)
    ensures var t' := ChainTraffic(s, t, mode, a); PlaceInv(t', s.generation) && CallInv(t', mode)
  {
    hide PlaceInv, CallInv, OwnerGenInv;
    var g := s.generation;
    match a
    case SpliceShard(part) => SpliceKeepsInv(t, mode, g, part);
    case RejectNext(_, _) => RejectKeepsPlaces(s, t, mode, a);
    case DispatchNext(r) =>
      OnePlace(t, g, r);
      if r.generation == g { DispatchKeepsInv(t, mode, g, r); } else { DropKeepsInv(t, mode, g, r); }
    case EndOfChain =>
  }

  lemma ChainKeepsHolds(s: Slot, t: Traffic, mode: Mode, a: ChainAction)
    requires LoopHoldsInv(s, t) && ChainEnabled(s, t, a)
    ensures LoopHoldsInv(ChainSlot(s, a), ChainTraffic(s, t, mode, a))
  {
  }

  lemma ChainKeepsRequests(w: World, a: ChainAction)
    requires Inv(w) && ChainEnabled(w.slot, w.traffic, a)
    ensures RequestsInv(Apply(w, Chain(a)))
  {
    hide PlaceInv, CallInv, PhaseInv, LifecycleInv, ClaimsInv, StageInv, OwnerGenInv, RecyclersInv, LoopHoldsInv;
    ChainKeepsPlaces(w.slot, w.traffic, w.mode, a);
    ChainKeepsHolds(w.slot, w.traffic, w.mode, a);
  }

  lemma IterateKeepsPlaces(s: Slot, t: Traffic, mode: Mode, a: IterateAction)
    requires PlaceInv(t, s.generation) && CallInv(t, mode) && IterateEnabled(s, t, a)
    requires s.pc == Exiting ==> t.inFlight == multiset{}
    ensures var t' := IterateTraffic(s, t, a); PlaceInv(t', s.generation) && CallInv(t', mode)
  {
    hide PlaceInv, CallInv;
    CallsUntouched(t, IterateTraffic(s, t, a), mode);
    ForgetKeepsInv(t, IterateTraffic(s, t, a), s.generation);
  }

  lemma IterateKeepsRequests(w: World, a: IterateAction)
    requires Inv(w) && IterateEnabled(w.slot, w.traffic, a)
    ensures RequestsInv(Apply(w, Iterate(a)))
  {
    hide SlotInv, PlaceInv, CallInv;
    IterateKeepsPlaces(w.slot, w.traffic, w.mode, a);
    if a == EndStopWait { NothingInFlight(w.traffic, w.slot.generation); }
  }

  lemma RecycleKeepsPlaces(t: Traffic, mode: Mode, g: nat, a: RecycleAction)
    requires PlaceInv(t, g) && CallInv(t, mode)
    requires a.ForgetFutures? || a.ReleaseClaim? ==> t.inFlight == multiset{}
    ensures var t' := RecycleTraffic(t, mode, a); PlaceInv(t', if a.ReleaseClaim? then g + 1 else g) && CallInv(t', mode)
  {
    hide PlaceInv, CallInv;
    var t' := RecycleTraffic(t, mode, a);
    CallsUntouched(t, t', mode);
    match a
    case DropMessages => if mode == PollMode { CollectedKeepsInv(t, t', g); }
    case ReleaseClaim => NextGenerationKeepsInv(t, g, g + 1);
    case _ => ForgetKeepsInv(t, t', g);
  }

  lemma RecycleKeepsHolds(s: Slot, t: Traffic, mode: Mode, hook: bool, a: RecycleAction)
    requires LoopHoldsInv(s, t) && RecycleEnabled(s, t, hook, a)
    requires a == EndDrain(true) ==> t.inFlight == multiset{}
    requires s.pc.StoringLifecycle? ==> s.pc.failure != NoFailure
    ensures LoopHoldsInv(RecycleSlot(s, t, hook, a), RecycleTraffic(t, mode, a))
  {
  }

  lemma RecycleKeepsBank(s: Slot, t: Traffic, mode: Mode, hook: bool, a: RecycleAction)
    requires BankInv(s, t) && RecycleEnabled(s, t, hook, a)
    ensures BankInv(RecycleSlot(s, t, hook, a), RecycleTraffic(t, mode, a))
  {
  }

  lemma RecycleMovesGeneration(s: Slot, t: Traffic, hook: bool, a: RecycleAction)
    requires RecycleEnabled(s, t, hook, a)
    ensures RecycleSlot(s, t, hook, a).generation == if a.ReleaseClaim? then s.generation + 1 else s.generation
    ensures a.ReleaseClaim? || a.ForgetFutures? ==> Quiet(s.pc)
  {
  }

  lemma RecycleKeepsRequests(w: World, a: RecycleAction)
    requires Inv(w) && RecycleEnabled(w.slot, w.traffic, w.hook, a)
    ensures RequestsInv(Apply(w, Recycle(a)))
  {
    hide PlaceInv, CallInv, PhaseInv, ClaimsInv, StageInv, OwnerGenInv, RecyclersInv, BankInv, RecycleTraffic,
          RecycleSlot, Quiet;
    if a == EndDrain(true) { NothingInFlight(w.traffic, w.slot.generation); }
    RecycleMovesGeneration(w.slot, w.traffic, w.hook, a);
    RecycleKeepsPlaces(w.traffic, w.mode, w.slot.generation, a);
    RecycleKeepsHolds(w.slot, w.traffic, w.mode, w.hook, a);
    RecycleKeepsBank(w.slot, w.traffic, w.mode, w.hook, a);
  }

  lemma SubmitKeepsRefusals(s: Slot, t: Traffic, mode: Mode, a: SubmitAction)
    requires Known(t, s.generation) && RefusalInv(t, mode) && SubmitEnabled(s, t, a)
    ensures RefusalInv(SubmitApply(s, t, mode, a), mode)
  {
    hide RefusalInv;
    var t' := SubmitApply(s, t, mode, a);
    match a
    case Begin(g, busy) =>
      var r := Request(t.nextId, g);
      if !busy && s.lifecycle == Active { SubmitsGoOn(t, t', mode); }
      else { TurnDownKeepsRefusals(t, t.(nextId := t.nextId + 1), r, mode); }
    case Check(r) =>
      if r.generation == s.generation { SubmitsGoOn(t, t', mode); }
      else { TurnDownKeepsRefusals(t, t.(sawActive := t.sawActive - {r}), r, mode); }
    case Refuse(r) => TurnDownKeepsRefusals(t, t.(checked := t.checked - {r}), r, mode);
    case PushNow(r) => SubmitsGoOn(t, t', mode);
    case Tell(r) => TellKeepsRefusals(t, r, mode, s.generation);
  }

  lemma ChainKeepsSubmits(s: Slot, t: Traffic, mode: Mode, a: ChainAction)
    requires ChainEnabled(s, t, a)
    ensures SameSubmits(t, ChainTraffic(s, t, mode, a))
  {
    hide Answer;
    if a.RejectNext? { AnswerKeepsSubmits(t, t.(chain := t.chain - multiset{a.r}), a.r, mode, s.generation); }
  }

  lemma HandlerKeepsSubmits(w: World, a: HandlerAction)
    requires HandlerEnabled(w, a)
    ensures SameSubmits(w.traffic, HandlerApply(w, a).traffic)
  {
    hide Answer;
    var t, g := w.traffic, w.slot.generation;
    match a
    case Complete(r) => AnswerKeepsSubmits(t, t.(inFlight := t.inFlight - multiset{r}), r, w.mode, g);
    case Warn(r) =>
      assert forall c: Call :: c.kind == Refusal ==> c != Call(r, StaleWarn, g);
    case StoreLib(_) =>
  }

  lemma PollerKeepsSubmits(t: Traffic, a: PollerAction)
    requires PollerEnabled(t, a)
    ensures SameSubmits(t, PollerApply(t, a))
  {
  }

  lemma LoopKeepsSubmits(s: Slot, t: Traffic, mode: Mode, i: IterateAction, a: RecycleAction)
    ensures SameSubmits(t, IterateTraffic(s, t, i)) && SameSubmits(t, RecycleTraffic(t, mode, a))
  {
  }

  lemma OwnersKeepSubmits(s: Slot, t: Traffic, a: CreateAction, stop: StopAction)
    ensures SameSubmits(t, CreateTraffic(s, t, a)) && SameSubmits(t, StopTraffic(s, t, stop))
  {
  }

  // Nobody but a submitter refuses or tells of it.
  lemma OthersKeepSubmits(w: World, a: Action)
    requires Enabled(w, a) && !a.Submit?
    ensures SameSubmits(w.traffic, Apply(w, a).traffic)
  {
    hide CreateApply, StopApply, RecycleSlot, CallerApply, IterateSlot, ChainSlot, HandlerApply;
    hide CreateEnabled, StopEnabled, RecycleEnabled, CallerEnabled, IterateEnabled, ChainEnabled, HandlerEnabled,
          PollerEnabled;
    hide ChainTraffic, CreateTraffic, IterateTraffic, RecycleTraffic, StopTraffic, PollerApply;
    match a
    case Create(c) => OwnersKeepSubmits(w.slot, w.traffic, c, JoinAndRelease);
    case Stop(c) => OwnersKeepSubmits(w.slot, w.traffic, LoadGeneration, c);
    case Iterate(c) => LoopKeepsSubmits(w.slot, w.traffic, w.mode, c, Conclude);
    case Chain(c) => ChainKeepsSubmits(w.slot, w.traffic, w.mode, c);
    case Recycle(c) => LoopKeepsSubmits(w.slot, w.traffic, w.mode, Exit, c);
    case Handler(c) => HandlerKeepsSubmits(w, c);
    case Poller(c) => PollerKeepsSubmits(w.traffic, c);
    case Caller(_) =>
  }

  lemma ModeStays(w: World, a: Action)
    requires Enabled(w, a)
    ensures Apply(w, a).mode == w.mode && Apply(w, a).hook == w.hook
  {
    hide CreateEnabled, StopEnabled, RecycleEnabled, CallerEnabled, IterateEnabled, ChainEnabled, SubmitEnabled,
          PollerEnabled;
  }

  lemma StepKeepsRefusals(w: World, a: Action)
    requires PlaceInv(w.traffic, w.slot.generation) && RefusalInv(w.traffic, w.mode) && Enabled(w, a)
    ensures RefusalInv(Apply(w, a).traffic, Apply(w, a).mode)
  {
    hide RefusalInv, Enabled, Apply, SameSubmits;
    ModeStays(w, a);
    if a.Submit? {
      SubmitStep(w, a.submit);
      SubmitKeepsRefusals(w.slot, w.traffic, w.mode, a.submit);
    } else {
      OthersKeepSubmits(w, a);
      RefusalsUntouched(w.traffic, Apply(w, a).traffic, w.mode);
    }
  }

  lemma SubmitStep(w: World, a: SubmitAction)
    requires Enabled(w, Submit(a))
    ensures SubmitEnabled(w.slot, w.traffic, a)
    ensures Apply(w, Submit(a)) == w.(traffic := SubmitApply(w.slot, w.traffic, w.mode, a))
  {
  }

  lemma StepKeepsInv(w: World, a: Action)
    requires Inv(w) && Enabled(w, a)
    ensures Inv(Apply(w, a))
  {
    hide SlotInv, PlaceInv, CallInv, RefusalInv, LoopHoldsInv, BankInv;
    hide CreateApply, StopApply, RecycleSlot, CallerApply, IterateSlot, ChainSlot, HandlerApply;
    hide CreateEnabled, StopEnabled, RecycleEnabled, CallerEnabled, IterateEnabled, ChainEnabled, HandlerEnabled,
          PollerEnabled;
    hide ChainTraffic, CreateTraffic, IterateTraffic, RecycleTraffic, StopTraffic, PollerApply, SubmitApply;
    StepKeepsRefusals(w, a);
    match a
    case Create(c) => CreateKeepsSlotInv(w.slot, c); CreateKeepsRequests(w, c);
    case Caller(c) => CallerKeepsSlotInv(w.slot, c); CallerKeepsRequests(w.slot, w.traffic, c);
    case Stop(c) => StopKeepsSlotInv(w.slot, w.traffic, c); StopKeepsRequests(w, c);
    case Iterate(c) => IterateKeepsSlotInv(w.slot, w.traffic, c); IterateKeepsRequests(w, c);
    case Chain(c) => ChainKeepsSlotInv(w.slot, w.traffic, c); ChainKeepsRequests(w, c);
    case Recycle(c) => RecycleKeepsSlotInv(w, c); RecycleKeepsRequests(w, c);
    case Submit(c) => SubmitKeepsRequests(w, c);
    case Handler(c) => HandlerKeepsSlotInv(w, c); HandlerKeepsRequests(w, c);
    case Poller(c) => PollerKeepsRequests(w, c);
  }
}

/** One pool slot as a transition system: one step per atomic access or locked section.

    Agents: any number of submitters, any number of creators racing for the slot, one recycle
    call per claim (calls of earlier claims may still be waiting), the FFI loop with its
    handlers, the poller, and whoever stops and joins the threads. Time-outs and allocation
    failures are free choices. */
module SlotProtocol {
  import opened Wrappers
  import opened RequestTraffic

  datatype Lifecycle = Active | RecyclePending | Recycling | RecycleFailed
  datatype Failure = NoFailure | DrainTimeout | TeardownTimeout | TeardownRaised | CallerAbandoned
  datatype TeardownOutcome = Skipped | Completed | TimedOut | Raised
  datatype Lib = NoLib | FallbackLib | OwnedLib

  // Where the FFI thread is. `ownerGen` is its local copy of the generation.
  datatype Pc =
    | Down                                  // no thread
    | Top                                   // `while running`
    | TryingRecycle
    | ReadingGeneration
    | ReadingLifecycle(ownerGen: nat)
    | Rejecting(ownerGen: nat, inReset: bool)
    | Processing(stopping: bool)
    | Draining
    | TearingDown
    | FreeingLib
    | DroppingMessages
    | BeginningReject
    | ForgettingFutures
    | Finishing(failure: Failure)
    | StoringFailure(failure: Failure)
    | StoringLifecycle(failure: Failure)
    | Firing(failure: Failure)
    | Releasing
    | StopWaiting
    | StopTearingDown
    | Exiting

  datatype Ending = Live | ByRecycle | ByJoin | ByFailedCreate

  // What happened to one claim. `leftInFlight` is what still ran when the drain ended,
  // `abandonedBy` who had given up when its finished reset was looked at.
  datatype Claim = Claim(
    leftInFlight: Option<multiset<Request>>,
    teardown: Option<TeardownOutcome>,
    resets: nat,
    resetDone: bool,
    abandonedBy: set<nat>,
    ending: Ending)

  const NEW_CLAIM := Claim(None, None, 0, false, {}, Live)

  datatype StopReason = ParkIdle | FullDestroy | RetireStatic
  datatype Phase = Free | Claiming | Marked | Owned | Stopping(reason: StopReason)
  datatype RecyclerPc = Entered | Requested | Clearing | Waiting | SawDone | AwaitingRelease | ReturnedOk | ReturnedErr

  datatype Slot = Slot(
    generation: nat,
    lifecycle: Lifecycle,
    failure: Failure,
    abandoned: bool,
    gaveUp: set<nat>,                 // claims whose call gave up since `abandoned` was last cleared
    doneSignal: bool,
    running: bool,
    initialized: bool,
    phase: Phase,
    pc: Pc,
    loaded: set<nat>,                 // generations `tryClaim` calls have loaded
    recyclers: map<nat, RecyclerPc>,  // the `requestRecycle` call of each claim
    issued: set<nat>,                 // claims whose token was handed out
    claims: map<nat, Claim>,
    lib: Lib,
    libReady: bool)

  // `hook` says whether the library has a teardown body.
  datatype World = World(mode: Mode, hook: bool, slot: Slot, traffic: Traffic)

  const NEW_SLOT :=
    Slot(0, Active, NoFailure, false, {}, false, false, false, Free, Down, {}, map[], {}, map[], NoLib, false)

  ghost predicate Init(w: World) {
    w.slot == NEW_SLOT && w.traffic == EMPTY_TRAFFIC
  }

  function WithClaim(s: Slot, c: Claim): Slot {
    s.(claims := s.claims[s.generation := c])
  }

  // `atomicInc` on an odd generation: the claim is over.
  function EndClaim(s: Slot, ending: Ending): Slot
    requires s.generation in s.claims
  {
    WithClaim(s, s.claims[s.generation].(ending := ending)).(generation := s.generation + 1, phase := Free)
  }

  // ---------------------------------------------------------------------------------------
  // Creators: tryClaim, markAsActive / initContextResources, startContextThreads
  // ---------------------------------------------------------------------------------------

  datatype CreateAction = LoadGeneration | TryClaim(seen: nat) | MarkActive | StartThreads | ReturnContext | FailCreate

  predicate CreateEnabled(s: Slot, a: CreateAction) {
    match a
    case LoadGeneration => s.generation % 2 == 0
    case TryClaim(seen) => seen in s.loaded
    case MarkActive => s.phase == Claiming
    case StartThreads => s.phase == Marked && s.pc == Down
    case ReturnContext => s.phase == Marked && s.pc != Down
    case FailCreate => s.phase == Marked && s.pc == Down && s.generation in s.claims
  }

  function CreateApply(s: Slot, a: CreateAction): Slot
    requires CreateEnabled(s, a)
  {
    match a
    case LoadGeneration => s.(loaded := s.loaded + {s.generation})
    case TryClaim(seen) =>
      if s.generation != seen then s
      else s.(generation := seen + 1, phase := Claiming, claims := s.claims[seen + 1 := NEW_CLAIM])
    case MarkActive =>
      if s.initialized then s.(lifecycle := Active, phase := Marked)
      else s.(lifecycle := Active, failure := NoFailure, abandoned := false, gaveUp := {}, libReady := false,
              phase := Marked)
    case StartThreads => s.(running := true, pc := Top, initialized := true)
    case ReturnContext => s.(phase := Owned, issued := s.issued + {s.generation})
    case FailCreate => EndClaim(s, ByFailedCreate)
  }

  // `initRequestQueue` resets the heads of a rebuilt bank; it frees nothing.
  function CreateTraffic(s: Slot, t: Traffic, a: CreateAction): Traffic {
    if a == MarkActive && !s.initialized then t.(ingress := multiset{}) else t
  }

  // ---------------------------------------------------------------------------------------
  // requestRecycle, one call per claim
  // ---------------------------------------------------------------------------------------

  datatype CallerAction =
    | Enter
    | RequestCas(claim: nat)
    | ClearAbandoned(claim: nat)
    | DrainSignal(claim: nat)
    | FailToSignal(claim: nat)
    | SeeFired(claim: nat)
    | SeeGeneration(claim: nat)
    | SeeFailed(claim: nat)
    | GiveUp(claim: nat)
    | CheckLifecycle(claim: nat)
    | SeeReleased(claim: nat)
    | GiveUpRelease(claim: nat)

  predicate RecyclerAt(s: Slot, claim: nat, pc: RecyclerPc) {
    claim in s.recyclers && s.recyclers[claim] == pc
  }

  predicate CallerEnabled(s: Slot, a: CallerAction) {
    match a
    case Enter => s.phase == Owned && s.generation !in s.recyclers
    case RequestCas(g) => RecyclerAt(s, g, Entered)
    case ClearAbandoned(g) => RecyclerAt(s, g, Requested)
    case DrainSignal(g) => RecyclerAt(s, g, Clearing)
    case FailToSignal(g) => RecyclerAt(s, g, Waiting)
    case SeeFired(g) => RecyclerAt(s, g, Waiting) && s.doneSignal
    case SeeGeneration(g) => RecyclerAt(s, g, Waiting) && s.generation != g
    case SeeFailed(g) => RecyclerAt(s, g, Waiting) && s.lifecycle == RecycleFailed
    case GiveUp(g) => RecyclerAt(s, g, Waiting)
    case CheckLifecycle(g) => RecyclerAt(s, g, SawDone)
    case SeeReleased(g) => RecyclerAt(s, g, AwaitingRelease) && s.generation != g
    case GiveUpRelease(g) => RecyclerAt(s, g, AwaitingRelease)
  }

  function CallerClaim(s: Slot, a: CallerAction): nat {
    if a.Enter? then s.generation else a.claim
  }

  // Where the step leaves the call.
  function CallerNext(s: Slot, a: CallerAction): RecyclerPc {
    match a
    case Enter => Entered
    case RequestCas(_) => if s.lifecycle == Active then Requested else ReturnedErr
    case ClearAbandoned(_) => Clearing
    case DrainSignal(_) => Waiting
    case FailToSignal(_) => ReturnedErr
    case SeeFired(_) => SawDone
    case SeeGeneration(_) => SawDone
    case SeeFailed(_) => SawDone
    case GiveUp(_) => ReturnedErr
    case CheckLifecycle(_) => if s.lifecycle == RecycleFailed then ReturnedErr else AwaitingRelease
    case SeeReleased(_) => ReturnedOk
    case GiveUpRelease(_) => ReturnedErr
  }

  // What the step writes into the slot.
  function CallerWrites(s: Slot, a: CallerAction): Slot {
    match a
    case RequestCas(_) => if s.lifecycle == Active then s.(lifecycle := RecyclePending) else s
    case ClearAbandoned(_) => s.(abandoned := false, gaveUp := {})
    case DrainSignal(_) => s.(doneSignal := false)
    case SeeFired(_) => s.(doneSignal := false)
    case GiveUp(g) => s.(abandoned := true, gaveUp := s.gaveUp + {g})
    case _ => s
  }

  function CallerApply(s: Slot, a: CallerAction): Slot
    requires CallerEnabled(s, a)
  {
    CallerWrites(s, a).(recyclers := s.recyclers[CallerClaim(s, a) := CallerNext(s, a)])
  }

  // ---------------------------------------------------------------------------------------
  // stopAndJoinThreads and what follows it
  // ---------------------------------------------------------------------------------------

  datatype StopAction = BeginStop(reason: StopReason) | JoinAndRelease

  /** What the callers of a stop guarantee: an idle slot is parked under a fresh claim; a
      context is destroyed by its owner, with no recycle of that claim under way and, for a
      full destroy, with no producer between its checks and its push. */
  predicate StopEnabled(s: Slot, t: Traffic, a: StopAction) {
    match a
    case BeginStop(ParkIdle) => s.phase == Claiming && s.pc != Down
    case BeginStop(_) =>
      && s.phase == Owned
      && if s.generation in s.recyclers
         then s.recyclers[s.generation] == ReturnedErr && s.lifecycle == RecycleFailed
         else s.lifecycle == Active
    case JoinAndRelease =>
      s.phase.Stopping? && s.pc == Down && s.generation in s.claims && (s.phase.reason == FullDestroy ==> t.checked == {})
  }

  function StopApply(s: Slot, t: Traffic, a: StopAction): Slot
    requires StopEnabled(s, t, a)
  {
    match a
    case BeginStop(reason) => s.(running := false, phase := Stopping(reason))
    case JoinAndRelease =>
      match s.phase.reason
      case ParkIdle => EndClaim(s, ByJoin)
      case FullDestroy => EndClaim(s, ByJoin).(lifecycle := Active, failure := NoFailure, initialized := false)
      case RetireStatic => EndClaim(s, ByJoin).(lifecycle := Active, failure := NoFailure)
  }

  // The join drops what the poller never collected; a full destroy also frees the bank.
  function StopTraffic(s: Slot, t: Traffic, a: StopAction): Traffic {
    if a != JoinAndRelease then t
    else if s.phase == Stopping(FullDestroy) then Deinit(DropReplies(t))
    else DropReplies(t)
  }

  // ---------------------------------------------------------------------------------------
  // The FFI loop: its iterations, the request chain it holds, and `recycleContext`
  // ---------------------------------------------------------------------------------------

  datatype IterateAction =
    | CheckRunning
    | TryRecycle
    | ReadGeneration
    | ReadLifecycle
    | EndStopWait
    | EndStopTeardown
    | Exit

  predicate IterateEnabled(s: Slot, t: Traffic, a: IterateAction) {
    match a
    case CheckRunning => s.pc == Top
    case TryRecycle => s.pc == TryingRecycle
    case ReadGeneration => s.pc == ReadingGeneration
    case ReadLifecycle => s.pc.ReadingLifecycle?
    case EndStopWait => s.pc == StopWaiting && AllFinished(t)
    case EndStopTeardown => s.pc == StopTearingDown
    case Exit => s.pc == Exiting
  }

  function IterateNext(s: Slot, a: IterateAction): Pc {
    match a
    case CheckRunning => if s.running then TryingRecycle else Processing(true)
    case TryRecycle => if s.lifecycle == RecyclePending then Draining else ReadingGeneration
    case ReadGeneration => ReadingLifecycle(s.generation)
    case ReadLifecycle =>
      if s.lifecycle != Active && s.pc.ReadingLifecycle? then Rejecting(s.pc.ownerGen, false) else Processing(false)
    case EndStopWait => StopTearingDown
    case EndStopTeardown => Exiting
    case Exit => Down
  }

  function IterateSlot(s: Slot, a: IterateAction): Slot {
    var lifecycle := if a == TryRecycle && s.lifecycle == RecyclePending then Recycling else s.lifecycle;
    s.(pc := IterateNext(s, a), lifecycle := lifecycle)
  }

  function IterateTraffic(s: Slot, t: Traffic, a: IterateAction): Traffic {
    match a
    case ReadLifecycle => if s.lifecycle == Active then DropFinished(t) else t
    case Exit => ForgetPending(t)
    case _ => t
  }

  // `bankFull` is what the re-push of a newer request would report.
  datatype ChainAction =
    | SpliceShard(part: multiset<Request>)
    | RejectNext(r: Request, bankFull: bool)
    | DispatchNext(r: Request)
    | EndOfChain

  predicate HoldsChain(pc: Pc) {
    pc.Rejecting? || pc.Processing?
  }

  predicate ChainEnabled(s: Slot, t: Traffic, a: ChainAction) {
    match a
    case SpliceShard(part) => HoldsChain(s.pc) && part <= t.ingress
    case RejectNext(r, _) => s.pc.Rejecting? && r in t.chain
    case DispatchNext(r) => s.pc.Processing? && r in t.chain
    case EndOfChain => HoldsChain(s.pc) && t.chain == multiset{}
  }

  function AfterChain(pc: Pc): Pc {
    match pc
    case Rejecting(_, inReset) => if inReset then ForgettingFutures else Top
    case Processing(stopping) => if stopping then StopWaiting else Top
    case _ => pc
  }

  function ChainSlot(s: Slot, a: ChainAction): Slot {
    match a
    case DispatchNext(r) => if r.generation == s.generation && s.lib == NoLib then s.(lib := FallbackLib) else s
    case EndOfChain => s.(pc := AfterChain(s.pc))
    case _ => s
  }

  function ChainTraffic(s: Slot, t: Traffic, mode: Mode, a: ChainAction): Traffic
    requires ChainEnabled(s, t, a)
  {
    match a
    case SpliceShard(part) => Splice(t, part)
    case RejectNext(r, bankFull) =>
      if r.generation > s.pc.ownerGen && !bankFull then Requeue(t, r)
      else if r.generation < s.pc.ownerGen then Drop(t, r)
      else AnswerChained(t, r, mode, s.generation)
    case DispatchNext(r) => if r.generation != s.generation then Drop(t, r) else Dispatch(t, r)
    case EndOfChain => t
  }

  datatype RecycleAction =
    | EndDrain(drained: bool)
    | EndTeardown(outcome: TeardownOutcome)
    | FreeLib
    | DropMessages
    | BeginReject
    | ForgetFutures
    | Conclude
    | StoreFailure
    | StoreRecycleFailed
    | FireDone
    | ReleaseClaim

  predicate SkipsTeardown(s: Slot, hook: bool) {
    !hook || s.lib == NoLib || !s.libReady
  }

  predicate RecycleEnabled(s: Slot, t: Traffic, hook: bool, a: RecycleAction) {
    s.generation in s.claims &&
    match a
    case EndDrain(drained) => s.pc == Draining && (drained <==> AllFinished(t))
    case EndTeardown(outcome) => s.pc == TearingDown && (outcome == Skipped <==> SkipsTeardown(s, hook))
    case FreeLib => s.pc == FreeingLib
    case DropMessages => s.pc == DroppingMessages
    case BeginReject => s.pc == BeginningReject
    case ForgetFutures => s.pc == ForgettingFutures
    case Conclude => s.pc.Finishing?
    case StoreFailure => s.pc.StoringFailure?
    case StoreRecycleFailed => s.pc.StoringLifecycle?
    case FireDone => s.pc.Firing?
    case ReleaseClaim => s.pc == Releasing
  }

  function AfterTeardown(outcome: TeardownOutcome): Pc {
    match outcome
    case TimedOut => Finishing(TeardownTimeout)
    case Raised => Finishing(TeardownRaised)
    case _ => FreeingLib
  }

  // What the step adds to the history of the claim.
  function RecycleHistory(s: Slot, c: Claim, t: Traffic, a: RecycleAction): Claim {
    match a
    case EndDrain(_) => c.(leftInFlight := Some(t.inFlight))
    case EndTeardown(outcome) => c.(teardown := Some(outcome))
    case FreeLib => c.(resets := c.resets + 1)
    case ForgetFutures => c.(resetDone := true)
    case Conclude => if s.pc == Finishing(NoFailure) then c.(abandonedBy := s.gaveUp) else c
    case ReleaseClaim => c.(ending := ByRecycle)
    case _ => c
  }

  function RecycleNext(s: Slot, a: RecycleAction): Pc {
    match a
    case EndDrain(drained) => if drained then TearingDown else Finishing(DrainTimeout)
    case EndTeardown(outcome) => AfterTeardown(outcome)
    case FreeLib => DroppingMessages
    case DropMessages => BeginningReject
    case BeginReject => Rejecting(s.generation, true)
    case ForgetFutures => Finishing(NoFailure)
    case Conclude =>
      if !s.pc.Finishing? then s.pc
      else if s.pc.failure != NoFailure then StoringFailure(s.pc.failure)
      else if s.abandoned then StoringFailure(CallerAbandoned)
      else Firing(NoFailure)
    case StoreFailure => if s.pc.StoringFailure? then StoringLifecycle(s.pc.failure) else s.pc
    case StoreRecycleFailed => if s.pc.StoringLifecycle? then Firing(s.pc.failure) else s.pc
    case FireDone => if s.pc == Firing(NoFailure) then Releasing else Top
    case ReleaseClaim => Top
  }

  // What the step writes into the fields of the context.
  function RecycleWrites(s: Slot, a: RecycleAction): Slot {
    match a
    case FreeLib => s.(lib := NoLib, libReady := false)
    case StoreFailure => if s.pc.StoringFailure? then s.(failure := s.pc.failure) else s
    case StoreRecycleFailed => s.(lifecycle := RecycleFailed)
    case FireDone => s.(doneSignal := true)
    case ReleaseClaim => s.(generation := s.generation + 1, phase := Free)
    case _ => s
  }

  function RecycleSlot(s: Slot, t: Traffic, hook: bool, a: RecycleAction): Slot
    requires RecycleEnabled(s, t, hook, a)
  {
    RecycleWrites(s, a).(claims := s.claims[s.generation := RecycleHistory(s, s.claims[s.generation], t, a)],
          pc := RecycleNext(s, a))
  }

  function RecycleTraffic(t: Traffic, mode: Mode, a: RecycleAction): Traffic {
    match a
    case EndDrain(_) => DropFinished(t)
    case DropMessages => if mode == PollMode then DropReplies(t) else t
    case ForgetFutures => ForgetPending(t)
    case _ => t
  }

  // ---------------------------------------------------------------------------------------
  // Submitters, handlers, the poller
  // ---------------------------------------------------------------------------------------

  // `busy` stands for what is checked before the lifecycle: memory, a stuck event queue, a call
  // from a handler.
  datatype SubmitAction =
    | Begin(generation: nat, busy: bool)
    | Check(r: Request)
    | Refuse(r: Request)
    | PushNow(r: Request)
    | Tell(r: Request)

  predicate SubmitEnabled(s: Slot, t: Traffic, a: SubmitAction) {
    match a
    case Begin(g, _) => g in s.issued
    case Check(r) => r in t.sawActive
    case Refuse(r) => r in t.checked
    case PushNow(r) => r in t.checked
    case Tell(r) => r in t.refused
  }

  function SubmitApply(s: Slot, t: Traffic, mode: Mode, a: SubmitAction): Traffic
    requires SubmitEnabled(s, t, a)
  {
    match a
    case Begin(g, busy) => BeginSubmit(t, g, !busy && s.lifecycle == Active, mode)
    case Check(r) => CheckGeneration(t, r, s.generation, mode)
    case Refuse(r) => RefuseSubmit(t, r, mode)
    case PushNow(r) => Push(t, r)
    case Tell(r) => TellRefused(t, r, s.generation)
  }

  // `StoreLib` is a constructor's handler putting the library into the context.
  datatype HandlerAction = Complete(r: Request) | Warn(r: Request) | StoreLib(r: Request)

  predicate HandlerEnabled(w: World, a: HandlerAction) {
    match a
    case Complete(r) => r in w.traffic.inFlight
    case Warn(r) => r in w.traffic.inFlight && w.mode == CallbackMode
    case StoreLib(r) => r in w.traffic.inFlight
  }

  function HandlerApply(w: World, a: HandlerAction): World
    requires HandlerEnabled(w, a)
  {
    match a
    case Complete(r) => w.(traffic := AnswerInFlight(w.traffic, r, w.mode, w.slot.generation))
    case Warn(r) => w.(traffic := WarnStale(w.traffic, r, w.slot.generation))
    case StoreLib(r) => w.(slot := w.slot.(lib := OwnedLib, libReady := true))
  }

  datatype PollerAction = Take(r: Request) | Release

  predicate PollerEnabled(t: Traffic, a: PollerAction) {
    match a
    case Take(r) => r in t.replies && t.held == multiset{}
    case Release => true
  }

  function PollerApply(t: Traffic, a: PollerAction): Traffic
    requires PollerEnabled(t, a)
  {
    match a
    case Take(r) => TakeReply(t, r)
    case Release => ReleaseHeld(t)
  }

  // ---------------------------------------------------------------------------------------
  // The whole system
  // ---------------------------------------------------------------------------------------

  datatype Action =
    | Create(create: CreateAction)
    | Caller(caller: CallerAction)
    | Stop(stop: StopAction)
    | Iterate(iterate: IterateAction)
    | Chain(chain: ChainAction)
    | Recycle(recycle: RecycleAction)
    | Submit(submit: SubmitAction)
    | Handler(handler: HandlerAction)
    | Poller(poller: PollerAction)

  predicate Enabled(w: World, a: Action) {
    match a
    case Create(c) => CreateEnabled(w.slot, c)
    case Caller(c) => CallerEnabled(w.slot, c)
    case Stop(c) => StopEnabled(w.slot, w.traffic, c)
    case Iterate(c) => IterateEnabled(w.slot, w.traffic, c)
    case Chain(c) => ChainEnabled(w.slot, w.traffic, c)
    case Recycle(c) => RecycleEnabled(w.slot, w.traffic, w.hook, c)
    case Submit(c) => SubmitEnabled(w.slot, w.traffic, c)
    case Handler(c) => HandlerEnabled(w, c)
    case Poller(c) => PollerEnabled(w.traffic, c)
  }

  function Apply(w: World, a: Action): World
    requires Enabled(w, a)
  {
    match a
    case Create(c) => w.(slot := CreateApply(w.slot, c), traffic := CreateTraffic(w.slot, w.traffic, c))
    case Caller(c) => w.(slot := CallerApply(w.slot, c))
    case Stop(c) => w.(slot := StopApply(w.slot, w.traffic, c), traffic := StopTraffic(w.slot, w.traffic, c))
    case Iterate(c) => w.(slot := IterateSlot(w.slot, c), traffic := IterateTraffic(w.slot, w.traffic, c))
    case Chain(c) => w.(slot := ChainSlot(w.slot, c), traffic := ChainTraffic(w.slot, w.traffic, w.mode, c))
    case Recycle(c) => w.(slot := RecycleSlot(w.slot, w.traffic, w.hook, c),
          traffic := RecycleTraffic(w.traffic, w.mode, c))
    case Submit(c) => w.(traffic := SubmitApply(w.slot, w.traffic, w.mode, c))
    case Handler(c) => HandlerApply(w, c)
    case Poller(c) => w.(traffic := PollerApply(w.traffic, c))
  }
}

/** Runs, step by step: one whole life of a claim, so what the theorems of `SlotSafety` speak of
    does happen; three in which a call that gave up meets the wrong recycle; and two in which a
    library or a reply outlives its owner. */
module SlotWitness {
  import opened Wrappers
  import opened RequestTraffic
  import opened SlotProtocol
  import opened SlotSafety

  // A run and the state it ends in.
  ghost predicate EndsIn(ws: seq<World>, acts: seq<Action>, w: World) {
    IsRun(ws, acts) && ws[|acts|] == w
  }

  lemma Step(ws: seq<World>, acts: seq<Action>, w: World, a: Action)
    returns (ws': seq<World>, acts': seq<Action>, w': World)
    requires EndsIn(ws, acts, w) && Enabled(w, a)
    ensures EndsIn(ws', acts', w') && w' == Apply(w, a) && acts' == acts + [a]
  {
    hide Enabled, Apply, Init;
    ws', acts', w' := ws + [Apply(w, a)], acts + [a], Apply(w, a);
  }

  const R := Request(0, 1)
  const CALLED := Call(R, Terminal, 1)

  // The slot after its first creation; one request running; that request answered and a recycle
  // asked for.
  const CREATED := World(CallbackMode, false,
    NEW_SLOT.(generation := 1, running := true, initialized := true, phase := Owned, pc := Top,
              loaded := {0}, issued := {1}, claims := map[1 := NEW_CLAIM]),
    EMPTY_TRAFFIC)

  const SERVING := CREATED.(
    slot := CREATED.slot.(lib := FallbackLib),
    traffic := EMPTY_TRAFFIC.(nextId := 1, accepted := multiset{R}, inFlight := multiset{R}, pending := {R}))

  const ASKED := SERVING.(
    slot := SERVING.slot.(lifecycle := RecyclePending, recyclers := map[1 := Waiting]),
    traffic := SERVING.traffic.(inFlight := multiset{}, freed := multiset{R}, answered := multiset{R},
          calls := multiset{CALLED}))

  const TORN_DOWN := NEW_CLAIM.(leftInFlight := Some(multiset{}), teardown := Some(Skipped))

  const RESET_CLAIM := TORN_DOWN.(resets := 1, resetDone := true)

  lemma Stands(w: World)
    requires Init(w)
    ensures EndsIn([w], [], w)
  {
  }

  lemma Creates() returns (ws: seq<World>, acts: seq<Action>)
    ensures EndsIn(ws, acts, CREATED)
  {
    var w := World(CallbackMode, false, NEW_SLOT, EMPTY_TRAFFIC);
    ws, acts := [w], [];
    Stands(w);
    hide IsRun;
    ws, acts, w := Step(ws, acts, w, Create(LoadGeneration));
    ws, acts, w := Step(ws, acts, w, Create(TryClaim(0)));
    ws, acts, w := Step(ws, acts, w, Create(MarkActive));
    ws, acts, w := Step(ws, acts, w, Create(StartThreads));
    ws, acts, w := Step(ws, acts, w, Create(ReturnContext));
  }

  lemma Submits() returns (ws: seq<World>, acts: seq<Action>, w: World)
    ensures EndsIn(ws, acts, w)
    ensures w == CREATED.(traffic := EMPTY_TRAFFIC.(nextId := 1, accepted := multiset{R}, ingress := multiset{R}))
  {
    hide IsRun;
    w := CREATED;
    ws, acts := Creates();
    ws, acts, w := Step(ws, acts, w, Submit(Begin(1, false)));
    assert w == CREATED.(traffic := EMPTY_TRAFFIC.(nextId := 1, sawActive := {R}));
    ws, acts, w := Step(ws, acts, w, Submit(Check(R)));
    assert w == CREATED.(traffic := EMPTY_TRAFFIC.(nextId := 1, checked := {R}));
    ws, acts, w := Step(ws, acts, w, Submit(PushNow(R)));
  }

  lemma Serves() returns (ws: seq<World>, acts: seq<Action>)
    ensures EndsIn(ws, acts, SERVING)
  {
    hide IsRun;
    var w: World;
    ws, acts, w := Submits();
    ws, acts, w := Step(ws, acts, w, Iterate(CheckRunning));
    ws, acts, w := Step(ws, acts, w, Iterate(TryRecycle));
    ws, acts, w := Step(ws, acts, w, Iterate(ReadGeneration));
    ws, acts, w := Step(ws, acts, w, Iterate(ReadLifecycle));
    assert w.slot == CREATED.slot.(pc := Processing(false));
    assert w.traffic == EMPTY_TRAFFIC.(nextId := 1, accepted := multiset{R}, ingress := multiset{R});
    ws, acts, w := Step(ws, acts, w, Chain(SpliceShard(multiset{R})));
    assert w.traffic == EMPTY_TRAFFIC.(nextId := 1, accepted := multiset{R}, chain := multiset{R});
    ws, acts, w := Step(ws, acts, w, Chain(DispatchNext(R)));
    assert w.traffic == SERVING.traffic;
    ws, acts, w := Step(ws, acts, w, Chain(EndOfChain));
    assert w.slot == SERVING.slot;
  }

  lemma Asks() returns (ws: seq<World>, acts: seq<Action>)
    ensures EndsIn(ws, acts, ASKED)
  {
    hide IsRun;
    var w := SERVING;
    ws, acts := Serves();
    ws, acts, w := Step(ws, acts, w, Handler(Complete(R)));
    assert w == SERVING.(traffic := ASKED.traffic);
    ws, acts, w := Step(ws, acts, w, Caller(Enter));
    ws, acts, w := Step(ws, acts, w, Caller(RequestCas(1)));
    assert w.slot == SERVING.slot.(lifecycle := RecyclePending, recyclers := map[1 := Requested]);
    ws, acts, w := Step(ws, acts, w, Caller(ClearAbandoned(1)));
    ws, acts, w := Step(ws, acts, w, Caller(DrainSignal(1)));
    assert w.slot == ASKED.slot;
  }

  // The pending recycle of a quiet slot, up to the end of its teardown.
  lemma RunsTeardown(ws: seq<World>, acts: seq<Action>, w: World)
    returns (ws': seq<World>, acts': seq<Action>, w': World)
    requires EndsIn(ws, acts, w) && w.traffic.inFlight == multiset{} && !w.hook
    requires w.slot.pc == Top && w.slot.running && w.slot.lifecycle == RecyclePending
    requires w.slot.generation in w.slot.claims && w.slot.claims[w.slot.generation] == NEW_CLAIM
    ensures EndsIn(ws', acts', w') && acts <= acts'
    ensures w' == w.(traffic := w.traffic.(pending := {}),
                     slot := w.slot.(lifecycle := Recycling, pc := FreeingLib,
                                     claims := w.slot.claims[w.slot.generation := TORN_DOWN]))
  {
    hide IsRun;
    ws', acts', w' := Step(ws, acts, w, Iterate(CheckRunning));
    ws', acts', w' := Step(ws', acts', w', Iterate(TryRecycle));
    assert w' == w.(slot := w.slot.(lifecycle := Recycling, pc := Draining));
    ws', acts', w' := Step(ws', acts', w', Recycle(EndDrain(true)));
    assert w'.traffic == w.traffic.(pending := {});
    ws', acts', w' := Step(ws', acts', w', Recycle(EndTeardown(Skipped)));
    assert w'.slot.claims == w.slot.claims[w.slot.generation := TORN_DOWN];
  }

  // And on through its reset.
  lemma RunsRecycle(ws: seq<World>, acts: seq<Action>, w: World)
    returns (ws': seq<World>, acts': seq<Action>, w': World)
    requires EndsIn(ws, acts, w) && w.traffic.inFlight == w.traffic.chain == multiset{} && !w.hook
    requires w.slot.pc == Top && w.slot.running && w.slot.lifecycle == RecyclePending && w.mode == CallbackMode
    requires w.slot.generation in w.slot.claims && w.slot.claims[w.slot.generation] == NEW_CLAIM
    ensures EndsIn(ws', acts', w') && acts <= acts'
    ensures w' == w.(traffic := w.traffic.(pending := {}),
                     slot := w.slot.(lifecycle := Recycling, pc := Finishing(NoFailure), lib := NoLib, libReady := false,
                                     claims := w.slot.claims[w.slot.generation := RESET_CLAIM]))
  {
    var g := w.slot.generation;
    ws', acts', w' := RunsTeardown(ws, acts, w);
    hide IsRun;
    ws', acts', w' := Step(ws', acts', w', Recycle(FreeLib));
    ws', acts', w' := Step(ws', acts', w', Recycle(DropMessages));
    ws', acts', w' := Step(ws', acts', w', Recycle(BeginReject));
    assert w'.slot.claims == w.slot.claims[g := TORN_DOWN.(resets := 1)] && w'.slot.pc == Rejecting(g, true);
    ws', acts', w' := Step(ws', acts', w', Chain(EndOfChain));
    ws', acts', w' := Step(ws', acts', w', Recycle(ForgetFutures));
    assert w'.slot.claims == w.slot.claims[g := RESET_CLAIM];
  }

  /** A claim is opened, a request of it is answered by its callback, the recycle is asked for
      and returns ok: the premises of the safety theorems are met. */
  lemma OneLife() returns (ws: seq<World>, acts: seq<Action>, w: World)
    ensures EndsIn(ws, acts, w) && RecyclerAt(w.slot, 1, ReturnedOk) && w.slot.generation == 2
    ensures w.traffic.calls == multiset{CALLED} && 1 in w.slot.claims && w.slot.claims[1].ending == ByRecycle
  {
    hide IsRun;
    w := ASKED;
    ws, acts := Asks();
    ws, acts, w := RunsRecycle(ws, acts, w);
    assert w.slot.claims == map[1 := RESET_CLAIM];
    ws, acts, w := Step(ws, acts, w, Recycle(Conclude));
    ws, acts, w := Step(ws, acts, w, Recycle(FireDone));
    assert w.slot.doneSignal && w.slot.pc == Releasing && RecyclerAt(w.slot, 1, Waiting);
    ws, acts, w := Step(ws, acts, w, Caller(SeeFired(1)));
    ws, acts, w := Step(ws, acts, w, Caller(CheckLifecycle(1)));
    assert RecyclerAt(w.slot, 1, AwaitingRelease) && w.slot.pc == Releasing;
    ws, acts, w := Step(ws, acts, w, Recycle(ReleaseClaim));
    ws, acts, w := Step(ws, acts, w, Caller(SeeReleased(1)));
  }

  // ---------------------------------------------------------------------------------------
  // Calls that give up
  // ---------------------------------------------------------------------------------------

  // A slot without traffic whose loop is at the top, owned by claim `g`.
  function Idle(s: Slot): World {
    World(CallbackMode, false, s, EMPTY_TRAFFIC)
  }

  // It answers the caller and gives the slot back, and a creator takes it.
  lemma Releases(ws: seq<World>, acts: seq<Action>, s: Slot)
    returns (ws': seq<World>, acts': seq<Action>, w': World)
    requires EndsIn(ws, acts, Idle(s)) && s.pc == Firing(NoFailure) && s.initialized && s.generation % 2 == 1
    requires s.generation in s.claims
    ensures EndsIn(ws', acts', w') && acts <= acts'
    ensures w' == Idle(s.(generation := s.generation + 1, doneSignal := true, phase := Free, pc := Top,
                          claims := s.claims[s.generation := s.claims[s.generation].(ending := ByRecycle)]))
  {
    hide IsRun;
    ws', acts', w' := Step(ws, acts, Idle(s), Recycle(FireDone));
    ws', acts', w' := Step(ws', acts', w', Recycle(ReleaseClaim));
    assert s.claims[s.generation := s.claims[s.generation]] == s.claims;
  }

  lemma Recreates(ws: seq<World>, acts: seq<Action>, s: Slot)
    returns (ws': seq<World>, acts': seq<Action>, w': World)
    requires EndsIn(ws, acts, Idle(s)) && s.pc == Top && s.initialized && s.generation % 2 == 0
    ensures EndsIn(ws', acts', w')
    ensures w' == Idle(s.(generation := s.generation + 1, lifecycle := Active, phase := Owned,
                          loaded := s.loaded + {s.generation}, issued := s.issued + {s.generation + 1},
                          claims := s.claims[s.generation + 1 := NEW_CLAIM]))
  {
    hide IsRun;
    ws', acts', w' := Step(ws, acts, Idle(s), Create(LoadGeneration));
    ws', acts', w' := Step(ws', acts', w', Create(TryClaim(s.generation)));
    ws', acts', w' := Step(ws', acts', w', Create(MarkActive));
    ws', acts', w' := Step(ws', acts', w', Create(ReturnContext));
  }

  // The owner asks for its recycle; the call waits.
  lemma CallsRecycle(ws: seq<World>, acts: seq<Action>, s: Slot)
    returns (ws': seq<World>, acts': seq<Action>, w': World)
    requires EndsIn(ws, acts, Idle(s)) && s.phase == Owned && s.lifecycle == Active && s.generation !in s.recyclers
    ensures EndsIn(ws', acts', w')
    ensures w' == Idle(s.(lifecycle := RecyclePending, abandoned := false, gaveUp := {}, doneSignal := false,
                          recyclers := s.recyclers[s.generation := Waiting]))
  {
    hide IsRun;
    var g := s.generation;
    ws', acts', w' := Step(ws, acts, Idle(s), Caller(Enter));
    ws', acts', w' := Step(ws', acts', w', Caller(RequestCas(g)));
    assert w'.slot == s.(lifecycle := RecyclePending, recyclers := s.recyclers[g := Requested]);
    ws', acts', w' := Step(ws', acts', w', Caller(ClearAbandoned(g)));
    ws', acts', w' := Step(ws', acts', w', Caller(DrainSignal(g)));
    assert w'.slot.recyclers == s.recyclers[g := Waiting];
  }

  // The slot of the second owner, claim 3, with the call of claim 1 still where `first` says.
  function SecondOwner(first: RecyclerPc, done: bool, flag: bool): Slot {
    NEW_SLOT.(generation := 3, running := true, initialized := true, phase := Owned, pc := Top, doneSignal := done,
              loaded := {0, 2}, issued := {1, 3}, recyclers := map[1 := first], abandoned := flag,
              gaveUp := if flag then {1} else {},
              claims := map[1 := RESET_CLAIM.(ending := ByRecycle), 3 := NEW_CLAIM])
  }

  // Claim 1 is recycled while its call has not got past `Requested`.
  lemma SecondOwnerBeforeClear() returns (ws: seq<World>, acts: seq<Action>)
    ensures EndsIn(ws, acts, Idle(SecondOwner(Requested, true, false)))
  {
    hide IsRun;
    var w := CREATED;
    ws, acts := Creates();
    ws, acts, w := Step(ws, acts, w, Caller(Enter));
    ws, acts, w := Step(ws, acts, w, Caller(RequestCas(1)));
    assert w == Idle(CREATED.slot.(lifecycle := RecyclePending, recyclers := map[1 := Requested]));
    ws, acts, w := RunsRecycle(ws, acts, w);
    ws, acts, w := Step(ws, acts, w, Recycle(Conclude));
    assert w.slot.claims == map[1 := RESET_CLAIM] && w.slot.pc == Firing(NoFailure);
    ws, acts, w := Releases(ws, acts, w.slot);
    ws, acts, w := Recreates(ws, acts, w.slot);
    assert w.slot.claims == map[1 := RESET_CLAIM.(ending := ByRecycle), 3 := NEW_CLAIM];
    assert w.slot == SecondOwner(Requested, true, false);
  }

  // Claim 1 is recycled while its call waits; whether that gives up before the release.
  lemma SecondOwnerWhileWaiting(givesUp: bool) returns (ws: seq<World>, acts: seq<Action>)
    ensures EndsIn(ws, acts, Idle(SecondOwner(if givesUp then ReturnedErr else Waiting, true, givesUp)))
  {
    hide IsRun;
    var w := CREATED;
    ws, acts := Creates();
    ws, acts, w := CallsRecycle(ws, acts, w.slot);
    assert w == Idle(CREATED.slot.(lifecycle := RecyclePending, recyclers := map[1 := Waiting]));
    ws, acts, w := RunsRecycle(ws, acts, w);
    ws, acts, w := Step(ws, acts, w, Recycle(Conclude));
    assert w.slot.claims == map[1 := RESET_CLAIM] && w.slot.pc == Firing(NoFailure);
    if givesUp {
      ws, acts, w := Step(ws, acts, w, Caller(GiveUp(1)));
      assert w.slot.recyclers == map[1 := ReturnedErr] && w.slot.gaveUp == {1};
    }
    ws, acts, w := Releases(ws, acts, w.slot);
    ws, acts, w := Recreates(ws, acts, w.slot);
    assert w.slot.claims == map[1 := RESET_CLAIM.(ending := ByRecycle), 3 := NEW_CLAIM];
    assert w.slot == SecondOwner(if givesUp then ReturnedErr else Waiting, true, givesUp);
  }

  // The loop finds the flag set after a finished reset and quarantines the slot.
  lemma Quarantines(ws: seq<World>, acts: seq<Action>, s: Slot)
    returns (ws': seq<World>, acts': seq<Action>, w': World)
    requires EndsIn(ws, acts, Idle(s)) && s.pc == Finishing(NoFailure) && s.abandoned && s.generation in s.claims
    ensures EndsIn(ws', acts', w')
    ensures w'.slot.lifecycle == RecycleFailed && w'.slot.failure == CallerAbandoned && w'.slot.recyclers == s.recyclers
    ensures w'.slot.generation == s.generation && w'.slot.generation in w'.slot.claims
    ensures w'.slot.claims[s.generation].abandonedBy == s.gaveUp
  {
    hide IsRun;
    ws', acts', w' := Step(ws, acts, Idle(s), Recycle(Conclude));
    ws', acts', w' := Step(ws', acts', w', Recycle(StoreFailure));
    ws', acts', w' := Step(ws', acts', w', Recycle(StoreRecycleFailed));
  }

  /** The call of claim 1 gives up after claim 3 cleared the flag: claim 3 was reset cleanly and
      its own caller still waits, yet its slot is quarantined as abandoned. */
  lemma StrangerAbandons() returns (ws: seq<World>, acts: seq<Action>, w: World)
    ensures EndsIn(ws, acts, w) && w.slot.generation == 3 && RecyclerAt(w.slot, 3, Waiting)
    ensures w.slot.lifecycle == RecycleFailed && w.slot.failure == CallerAbandoned
    ensures 3 in w.slot.claims && w.slot.claims[3].abandonedBy == {1}
  {
    hide IsRun;
    ws, acts := SecondOwnerWhileWaiting(false);
    ws, acts, w := CallsRecycle(ws, acts, SecondOwner(Waiting, true, false));
    ws, acts, w := Step(ws, acts, w, Caller(GiveUp(1)));
    assert w.slot.gaveUp == {1};
    ws, acts, w := RunsRecycle(ws, acts, w);
    ws, acts, w := Quarantines(ws, acts, w.slot);
  }

  /** The call of claim 1 gives up once its own recycle had succeeded, and the loop is done with
      claim 3 before the call of claim 3 gets to clear the flag: quarantined all the same. */
  lemma OldFlagAbandons() returns (ws: seq<World>, acts: seq<Action>, w: World)
    ensures EndsIn(ws, acts, w) && w.slot.generation == 3 && RecyclerAt(w.slot, 3, Requested)
    ensures w.slot.lifecycle == RecycleFailed && w.slot.failure == CallerAbandoned
    ensures 3 in w.slot.claims && w.slot.claims[3].abandonedBy == {1}
  {
    hide IsRun;
    ws, acts := SecondOwnerWhileWaiting(true);
    ws, acts, w := Step(ws, acts, Idle(SecondOwner(ReturnedErr, true, true)), Caller(Enter));
    ws, acts, w := Step(ws, acts, w, Caller(RequestCas(3)));
    assert w == Idle(w.slot) && w.slot.gaveUp == {1};
    ws, acts, w := RunsRecycle(ws, acts, w);
    ws, acts, w := Quarantines(ws, acts, w.slot);
  }

  /** The other way round: claim 3's own caller gives up before the reset is over, the call of
      claim 1 clears the flag late, and the slot is released although its caller saw a failure. */
  lemma LateClearReleases() returns (ws: seq<World>, acts: seq<Action>, w: World, k: nat, l: nat)
    ensures EndsIn(ws, acts, w) && w.slot.generation == 4 && RecyclerAt(w.slot, 3, ReturnedErr)
    ensures 3 in w.slot.claims && w.slot.claims[3].ending == ByRecycle
    ensures k < l < |acts| && acts[k] == Caller(GiveUp(3)) && acts[l] == Recycle(Conclude)
  {
    hide IsRun;
    ws, acts := SecondOwnerBeforeClear();
    ws, acts, w := CallsRecycle(ws, acts, SecondOwner(Requested, true, false));
    k := |acts|;
    ws, acts, w := Step(ws, acts, w, Caller(GiveUp(3)));
    ws, acts, w := Step(ws, acts, w, Caller(ClearAbandoned(1)));
    assert w.slot.recyclers == map[1 := Clearing, 3 := ReturnedErr];
    assert acts[k] == Caller(GiveUp(3));
    ws, acts, w := RunsRecycle(ws, acts, w);
    l := |acts|;
    ws, acts, w := Step(ws, acts, w, Recycle(Conclude));
    assert acts[l] == Recycle(Conclude);
    ws, acts, w := Releases(ws, acts, w.slot);
  }

  const ANSWERED := SERVING.traffic.(inFlight := multiset{}, freed := multiset{R}, answered := multiset{R},
                                     calls := multiset{CALLED})

  // A context that served a request is told to stop, and its thread leaves.
  lemma Leaves() returns (ws: seq<World>, acts: seq<Action>)
    ensures EndsIn(ws, acts, World(CallbackMode, false,
                     SERVING.slot.(running := false, phase := Stopping(RetireStatic), pc := Down),
                     ANSWERED.(pending := {})))
  {
    hide IsRun;
    var w := SERVING;
    ws, acts := Serves();
    ws, acts, w := Step(ws, acts, w, Handler(Complete(R)));
    assert w == SERVING.(traffic := ANSWERED);
    ws, acts, w := Step(ws, acts, w, Stop(BeginStop(RetireStatic)));
    ws, acts, w := Step(ws, acts, w, Iterate(CheckRunning));
    assert w.slot == SERVING.slot.(running := false, phase := Stopping(RetireStatic), pc := Processing(true));
    ws, acts, w := Step(ws, acts, w, Chain(EndOfChain));
    ws, acts, w := Step(ws, acts, w, Iterate(EndStopWait));
    ws, acts, w := Step(ws, acts, w, Iterate(EndStopTeardown));
    ws, acts, w := Step(ws, acts, w, Iterate(Exit));
    assert w.traffic == ANSWERED.(pending := {});
  }

  /** The threads of a slot are joined, the next claim is served by new ones, and it finds the
      library pointer of the former owner in place: its own fallback is not put in. */
  lemma StaleLibrary() returns (ws: seq<World>, acts: seq<Action>, w: World)
    ensures EndsIn(ws, acts, w) && w.slot.generation == 3 && w.slot.phase == Owned && w.slot.pc == Top
    ensures w.slot.lib == FallbackLib && w.slot.claims[3 := NEW_CLAIM] == w.slot.claims
    ensures 1 in w.slot.claims && w.slot.claims[1].ending == ByJoin
    ensures w.traffic.inFlight == w.traffic.ingress == w.traffic.chain == multiset{}
  {
    hide IsRun;
    ws, acts := Leaves();
    w := World(CallbackMode, false, SERVING.slot.(running := false, phase := Stopping(RetireStatic), pc := Down),
               ANSWERED.(pending := {}));
    ws, acts, w := Step(ws, acts, w, Stop(JoinAndRelease));
    assert w.slot.generation == 2 && w.slot.lib == FallbackLib && w.slot.claims == map[1 := NEW_CLAIM.(ending := ByJoin)];
    ws, acts, w := Step(ws, acts, w, Create(LoadGeneration));
    ws, acts, w := Step(ws, acts, w, Create(TryClaim(2)));
    ws, acts, w := Step(ws, acts, w, Create(MarkActive));
    ws, acts, w := Step(ws, acts, w, Create(StartThreads));
    ws, acts, w := Step(ws, acts, w, Create(ReturnContext));
  }

  // The first claim of a slot whose host polls.
  const POLLED := CREATED.(mode := PollMode)

  lemma CreatesPolled() returns (ws: seq<World>, acts: seq<Action>)
    ensures EndsIn(ws, acts, POLLED)
  {
    var w := World(PollMode, false, NEW_SLOT, EMPTY_TRAFFIC);
    ws, acts := [w], [];
    Stands(w);
    hide IsRun;
    ws, acts, w := Step(ws, acts, w, Create(LoadGeneration));
    ws, acts, w := Step(ws, acts, w, Create(TryClaim(0)));
    ws, acts, w := Step(ws, acts, w, Create(MarkActive));
    ws, acts, w := Step(ws, acts, w, Create(StartThreads));
    ws, acts, w := Step(ws, acts, w, Create(ReturnContext));
  }

  const QUEUED := EMPTY_TRAFFIC.(nextId := 1, accepted := multiset{R}, ingress := multiset{R})

  // A request is queued and the recycle of its claim asked for before the loop gets to it.
  lemma QueuesAndAsks() returns (ws: seq<World>, acts: seq<Action>)
    ensures EndsIn(ws, acts, World(PollMode, false,
                     POLLED.slot.(lifecycle := RecyclePending, recyclers := map[1 := Requested]), QUEUED))
  {
    hide IsRun;
    var w := POLLED;
    ws, acts := CreatesPolled();
    ws, acts, w := Step(ws, acts, w, Submit(Begin(1, false)));
    assert w.traffic == EMPTY_TRAFFIC.(nextId := 1, sawActive := {R});
    ws, acts, w := Step(ws, acts, w, Submit(Check(R)));
    assert w.traffic == EMPTY_TRAFFIC.(nextId := 1, checked := {R});
    ws, acts, w := Step(ws, acts, w, Submit(PushNow(R)));
    assert w.traffic == QUEUED;
    ws, acts, w := Step(ws, acts, w, Caller(Enter));
    ws, acts, w := Step(ws, acts, w, Caller(RequestCas(1)));
    assert w.slot == POLLED.slot.(lifecycle := RecyclePending, recyclers := map[1 := Requested]);
  }

  const LEFT := QUEUED.(ingress := multiset{}, answered := multiset{R}, replies := multiset{R})

  // The recycle answers it when the messages are dropped already.
  lemma AnswersLate() returns (ws: seq<World>, acts: seq<Action>, w: World)
    ensures EndsIn(ws, acts, w) && w.mode == PollMode && w.traffic == LEFT && acts != []
    ensures w.slot.generation == 2 && w.slot.phase == Free && w.slot.pc == Top && w.slot.initialized
    ensures acts[|acts| - 1] == Recycle(ReleaseClaim)
  {
    hide IsRun;
    ws, acts := QueuesAndAsks();
    w := World(PollMode, false, POLLED.slot.(lifecycle := RecyclePending, recyclers := map[1 := Requested]), QUEUED);
    ws, acts, w := RunsTeardown(ws, acts, w);
    ws, acts, w := Step(ws, acts, w, Recycle(FreeLib));
    ws, acts, w := Step(ws, acts, w, Recycle(DropMessages));
    ws, acts, w := Step(ws, acts, w, Recycle(BeginReject));
    assert w.traffic == QUEUED && w.slot.pc == Rejecting(1, true) && w.slot.gaveUp == {} && !w.slot.abandoned;
    ws, acts, w := Step(ws, acts, w, Chain(SpliceShard(multiset{R})));
    assert w.traffic == QUEUED.(ingress := multiset{}, chain := multiset{R});
    ws, acts, w := Step(ws, acts, w, Chain(RejectNext(R, false)));
    assert w.traffic == LEFT;
    ws, acts, w := Step(ws, acts, w, Chain(EndOfChain));
    ws, acts, w := Step(ws, acts, w, Recycle(ForgetFutures));
    ws, acts, w := Step(ws, acts, w, Recycle(Conclude));
    ws, acts, w := Step(ws, acts, w, Recycle(FireDone));
    ws, acts, w := Step(ws, acts, w, Recycle(ReleaseClaim));
    assert w.traffic == LEFT;
  }

  /** The slot is claimed again, and the first message its new owner polls is the reply to a request
      of the former one. */
  lemma LeftoverReachesNextOwner() returns (ws: seq<World>, acts: seq<Action>, w: World)
    ensures EndsIn(ws, acts, w) && w.mode == PollMode && w.slot.generation == 3 && w.slot.phase == Owned
    ensures w.traffic.held == multiset{R} && R.generation == 1
  {
    hide IsRun;
    ws, acts, w := AnswersLate();
    ws, acts, w := Step(ws, acts, w, Create(LoadGeneration));
    ws, acts, w := Step(ws, acts, w, Create(TryClaim(2)));
    ws, acts, w := Step(ws, acts, w, Create(MarkActive));
    ws, acts, w := Step(ws, acts, w, Create(ReturnContext));
    assert w.traffic == LEFT;
    ws, acts, w := Step(ws, acts, w, Poller(Take(R)));
  }
}

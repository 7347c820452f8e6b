/** What the fields of a slot tell of the run so far, and what becomes of an answer. */
module SlotHistory {
  import opened Wrappers
  import opened RequestTraffic
  import opened SlotProtocol
  import opened SlotInvariant
  import opened SlotSafety

  // ---------------------------------------------------------------------------------------
  // Flags and their histories
  // ---------------------------------------------------------------------------------------

  // Before step `i` some step set it, and none after that one has cleared it.
  ghost predicate SetAndKept(ws: seq<World>, acts: seq<Action>, i: nat,
                             sets: (World, Action) -> bool, clears: (World, Action) -> bool)
    requires i <= |acts| < |ws|
  {
    exists k :: 0 <= k < i && sets(ws[k], acts[k]) && forall l :: k < l < i ==> !clears(ws[l], acts[l])
  }

  lemma {:induction false} FlagIsHistory(ws: seq<World>, acts: seq<Action>, i: nat, flag: World -> bool,
                                         sets: (World, Action) -> bool, clears: (World, Action) -> bool)
    requires i <= |acts| < |ws| && !flag(ws[0])
    requires forall k :: 0 <= k < |acts| ==>
               (flag(ws[k + 1]) <==> sets(ws[k], acts[k]) || (flag(ws[k]) && !clears(ws[k], acts[k])))
    ensures flag(ws[i]) <==> SetAndKept(ws, acts, i, sets, clears)
  {
    if i > 0 {
      FlagIsHistory(ws, acts, i - 1, flag, sets, clears);
      if flag(ws[i]) && !sets(ws[i - 1], acts[i - 1]) {
        var k :| 0 <= k < i - 1 && sets(ws[k], acts[k]) && forall l :: k < l < i - 1 ==> !clears(ws[l], acts[l]);
        assert forall l :: k < l < i ==> !clears(ws[l], acts[l]);
      }
    }
  }

  // The done signal of a slot is fired by its loop and consumed by any call.
  predicate Fires(w: World, a: Action) {
    a == Recycle(FireDone)
  }

  predicate Consumes(w: World, a: Action) {
    a.Caller? && (a.caller.DrainSignal? || a.caller.SeeFired?)
  }

  // A library is put in place by a constructor or, for want of one, by the first dispatch.
  predicate PutsLibrary(w: World, a: Action) {
    (a.Handler? && a.handler.StoreLib?) || (a.Chain? && a.chain.DispatchNext? && a.chain.r.generation == w.slot.generation)
  }

  predicate FreesLibrary(w: World, a: Action) {
    a == Recycle(FreeLib)
  }

  predicate Constructs(w: World, a: Action) {
    a.Handler? && a.handler.StoreLib?
  }

  predicate Unconstructs(w: World, a: Action) {
    a == Recycle(FreeLib) || (a == Create(MarkActive) && !w.slot.initialized)
  }

  predicate Builds(w: World, a: Action) {
    a == Create(StartThreads)
  }

  predicate Unbuilds(w: World, a: Action) {
    a == Stop(JoinAndRelease) && w.slot.phase == Stopping(FullDestroy)
  }

  // What a step of each agent does to these fields.
  lemma CreateMarks(s: Slot, a: CreateAction)
    requires CreateEnabled(s, a)
    ensures var s' := CreateApply(s, a);
            && s'.doneSignal == s.doneSignal && s'.lib == s.lib
            && s'.libReady == (s.libReady && (a == MarkActive ==> s.initialized))
            && s'.initialized == (s.initialized || a == StartThreads)
  {
  }

  lemma CallerMarks(s: Slot, a: CallerAction)
    requires CallerEnabled(s, a)
    ensures var s' := CallerApply(s, a);
            && s'.doneSignal == (s.doneSignal && !a.DrainSignal? && !a.SeeFired?)
            && s'.lib == s.lib && s'.libReady == s.libReady && s'.initialized == s.initialized
  {
  }

  lemma StopMarks(s: Slot, t: Traffic, a: StopAction)
    requires StopEnabled(s, t, a)
    ensures var s' := StopApply(s, t, a);
            && s'.doneSignal == s.doneSignal && s'.lib == s.lib && s'.libReady == s.libReady
            && s'.initialized == (s.initialized && !(a == JoinAndRelease && s.phase == Stopping(FullDestroy)))
  {
  }

  predicate SameMarks(s: Slot, s': Slot) {
    s'.doneSignal == s.doneSignal && s'.lib == s.lib && s'.libReady == s.libReady && s'.initialized == s.initialized
  }

  lemma LoopMarks(s: Slot, a: IterateAction, c: ChainAction)
    ensures SameMarks(s, IterateSlot(s, a))
    ensures var s' := ChainSlot(s, c);
            && s'.doneSignal == s.doneSignal && s'.libReady == s.libReady && s'.initialized == s.initialized
            && (s'.lib == NoLib <==> s.lib == NoLib && !(c.DispatchNext? && c.r.generation == s.generation))
  {
    hide IterateNext, AfterChain;
  }

  lemma RecycleWriteMarks(s: Slot, a: RecycleAction)
    ensures var s' := RecycleWrites(s, a);
            && s'.doneSignal == (s.doneSignal || a == FireDone) && s'.initialized == s.initialized
            && s'.lib == (if a == FreeLib then NoLib else s.lib) && s'.libReady == (s.libReady && a != FreeLib)
  {
  }

  lemma RecycleMarks(s: Slot, t: Traffic, hook: bool, a: RecycleAction)
    requires RecycleEnabled(s, t, hook, a)
    ensures var s' := RecycleSlot(s, t, hook, a);
            && s'.doneSignal == (s.doneSignal || a == FireDone) && s'.initialized == s.initialized
            && s'.lib == (if a == FreeLib then NoLib else s.lib) && s'.libReady == (s.libReady && a != FreeLib)
  {
    RecycleWriteMarks(s, a);
    hide RecycleEnabled, RecycleNext, RecycleHistory, RecycleWrites;
  }

  lemma StepMarks(w: World, a: Action)
    requires Enabled(w, a)
    ensures var s, s' := w.slot, Apply(w, a).slot;
            && (s'.doneSignal <==> Fires(w, a) || (s.doneSignal && !Consumes(w, a)))
            && (s'.lib != NoLib <==> PutsLibrary(w, a) || (s.lib != NoLib && !FreesLibrary(w, a)))
            && (s'.libReady <==> Constructs(w, a) || (s.libReady && !Unconstructs(w, a)))
            && (s'.initialized <==> Builds(w, a) || (s.initialized && !Unbuilds(w, a)))
  {
    hide CreateApply, StopApply, RecycleSlot, CallerApply, IterateSlot, ChainSlot;
    hide CreateEnabled, StopEnabled, RecycleEnabled, CallerEnabled, IterateEnabled, ChainEnabled, SubmitEnabled,
          PollerEnabled;
    hide ChainTraffic, CreateTraffic, IterateTraffic, RecycleTraffic, StopTraffic, SubmitApply, PollerApply, AnswerInFlight,
          WarnStale;
    match a
    case Create(c) => CreateMarks(w.slot, c);
    case Caller(c) => CallerMarks(w.slot, c);
    case Stop(c) => StopMarks(w.slot, w.traffic, c);
    case Iterate(c) => LoopMarks(w.slot, c, EndOfChain);
    case Chain(c) => LoopMarks(w.slot, Exit, c);
    case Recycle(c) => RecycleMarks(w.slot, w.traffic, w.hook, c);
    case _ =>
  }

  lemma RunMarks(ws: seq<World>, acts: seq<Action>)
    requires IsRun(ws, acts)
    ensures var s0 := ws[0].slot; !s0.doneSignal && s0.lib == NoLib && !s0.libReady && !s0.initialized
    ensures forall k :: 0 <= k < |acts| ==>
              var w, a, s, s' := ws[k], acts[k], ws[k].slot, ws[k + 1].slot;
              && (s'.doneSignal <==> Fires(w, a) || (s.doneSignal && !Consumes(w, a)))
              && (s'.lib != NoLib <==> PutsLibrary(w, a) || (s.lib != NoLib && !FreesLibrary(w, a)))
              && (s'.libReady <==> Constructs(w, a) || (s.libReady && !Unconstructs(w, a)))
              && (s'.initialized <==> Builds(w, a) || (s.initialized && !Unbuilds(w, a)))
  {
    hide Enabled, Apply, Fires, Consumes, PutsLibrary, FreesLibrary, Constructs, Unconstructs, Builds, Unbuilds;
    forall k | 0 <= k < |acts|
      ensures var w, a, s, s' := ws[k], acts[k], ws[k].slot, ws[k + 1].slot;
              && (s'.doneSignal <==> Fires(w, a) || (s.doneSignal && !Consumes(w, a)))
              && (s'.lib != NoLib <==> PutsLibrary(w, a) || (s.lib != NoLib && !FreesLibrary(w, a)))
              && (s'.libReady <==> Constructs(w, a) || (s.libReady && !Unconstructs(w, a)))
              && (s'.initialized <==> Builds(w, a) || (s.initialized && !Unbuilds(w, a)))
    {
      StepMarks(ws[k], acts[k]);
    }
  }

  /** The done signal is up exactly if a recycle fired it and no call, of whichever claim, has
      consumed it since. */
  lemma SignalIsHistory(ws: seq<World>, acts: seq<Action>, i: nat)
    requires IsRun(ws, acts) && i < |ws|
    ensures ws[i].slot.doneSignal <==> SetAndKept(ws, acts, i, Fires, Consumes)
  {
    RunMarks(ws, acts);
    hide IsRun;
    FlagIsHistory(ws, acts, i, (w: World) => w.slot.doneSignal, Fires, Consumes);
  }

  /** There is a library exactly if one was put in place and no reset has freed it since. */
  lemma LibraryIsHistory(ws: seq<World>, acts: seq<Action>, i: nat)
    requires IsRun(ws, acts) && i < |ws|
    ensures ws[i].slot.lib != NoLib <==> SetAndKept(ws, acts, i, PutsLibrary, FreesLibrary)
  {
    RunMarks(ws, acts);
    hide IsRun;
    FlagIsHistory(ws, acts, i, (w: World) => w.slot.lib != NoLib, PutsLibrary, FreesLibrary);
  }

  /** It counts as constructed exactly if a constructor stored it and neither a reset nor the
      rebuilding of the slot came since. */
  lemma ConstructedIsHistory(ws: seq<World>, acts: seq<Action>, i: nat)
    requires IsRun(ws, acts) && i < |ws|
    ensures ws[i].slot.libReady <==> SetAndKept(ws, acts, i, Constructs, Unconstructs)
    ensures ws[i].slot.libReady ==> ws[i].slot.lib != NoLib
  {
    RunMarks(ws, acts);
    LibraryIsHistory(ws, acts, i);
    hide IsRun;
    FlagIsHistory(ws, acts, i, (w: World) => w.slot.libReady, Constructs, Unconstructs);
    if ws[i].slot.libReady {
      var k :| 0 <= k < i && Constructs(ws[k], acts[k]) && forall l :: k < l < i ==> !Unconstructs(ws[l], acts[l]);
      assert PutsLibrary(ws[k], acts[k]) && forall l :: k < l < i ==> !FreesLibrary(ws[l], acts[l]);
    }
  }

  /** A slot is built from its first thread start until a full destroy. */
  lemma BuiltIsHistory(ws: seq<World>, acts: seq<Action>, i: nat)
    requires IsRun(ws, acts) && i < |ws|
    ensures ws[i].slot.initialized <==> SetAndKept(ws, acts, i, Builds, Unbuilds)
  {
    RunMarks(ws, acts);
    hide IsRun;
    FlagIsHistory(ws, acts, i, (w: World) => w.slot.initialized, Builds, Unbuilds);
  }

  /** The teardown of a recycle is skipped exactly when the library has no hook or none was
      constructed since the last reset or rebuilding. */
  lemma TeardownSkippedIff(ws: seq<World>, acts: seq<Action>, i: nat, outcome: TeardownOutcome)
    requires IsRun(ws, acts) && i < |acts| && acts[i] == Recycle(EndTeardown(outcome))
    ensures outcome == Skipped <==> !ws[i].hook || !SetAndKept(ws, acts, i, Constructs, Unconstructs)
  {
    ConstructedIsHistory(ws, acts, i);
    assert Enabled(ws[i], acts[i]);
    hide IsRun, SetAndKept;
  }

  // ---------------------------------------------------------------------------------------
  // The library from claim to claim
  // ---------------------------------------------------------------------------------------

  // Points of the loop between the freeing of the library and the release of the claim.
  predicate AfterFree(pc: Pc) {
    match pc
    case DroppingMessages => true
    case BeginningReject => true
    case Rejecting(_, inReset) => inReset
    case ForgettingFutures => true
    case Finishing(f) => f == NoFailure
    case Firing(f) => f == NoFailure
    case Releasing => true
    case _ => false
  }

  predicate BareAfterFree(s: Slot) {
    AfterFree(s.pc) ==> s.lib == NoLib
  }

  lemma OwnersPlace(s: Slot, t: Traffic, a: CreateAction, stop: StopAction)
    ensures CreateEnabled(s, a) ==> CreateApply(s, a).pc == if a == StartThreads then Top else s.pc
    ensures StopEnabled(s, t, stop) ==> StopApply(s, t, stop).pc == s.pc
  {
  }

  lemma LoopPlace(s: Slot, a: IterateAction, c: ChainAction)
    ensures !AfterFree(IterateSlot(s, a).pc)
    ensures AfterFree(ChainSlot(s, c).pc) ==> AfterFree(s.pc)
  {
  }

  lemma RecyclePlace(s: Slot, t: Traffic, hook: bool, a: RecycleAction)
    requires LifecycleInv(s) && RecycleEnabled(s, t, hook, a) && AfterFree(RecycleNext(s, a))
    ensures AfterFree(s.pc) || a == FreeLib
  {
  }

  // Nobody gets to such a point but the loop, from the freeing on.
  lemma EntersAfterFree(w: World, a: Action)
    requires Inv(w) && Enabled(w, a) && AfterFree(Apply(w, a).slot.pc)
    ensures AfterFree(w.slot.pc) || FreesLibrary(w, a)
  {
    hide PlaceInv, CallInv, RefusalInv, LoopHoldsInv, BankInv, PhaseInv, LifecycleInv, ClaimsInv, StageInv, OwnerGenInv,
          RecyclersInv, AbandonInv, AfterFree;
    hide CreateApply, StopApply, IterateSlot, ChainSlot, RecycleNext;
    hide CreateEnabled, StopEnabled, RecycleEnabled, CallerEnabled, IterateEnabled, ChainEnabled;
    hide SubmitApply, PollerApply, CreateTraffic, StopTraffic, ChainTraffic, IterateTraffic, RecycleTraffic,
          RecycleHistory, AnswerInFlight, WarnStale, RecycleWrites, CallerWrites, CallerNext;
    match a
    case Create(c) => OwnersPlace(w.slot, w.traffic, c, JoinAndRelease); StartsAtTop();
    case Stop(c) => OwnersPlace(w.slot, w.traffic, LoadGeneration, c);
    case Caller(c) => CallerPlace(w.slot, c);
    case Iterate(c) => LoopPlace(w.slot, c, EndOfChain);
    case Chain(c) => LoopPlace(w.slot, Exit, c);
    case Recycle(c) => RecyclePlace(w.slot, w.traffic, w.hook, c);
    case _ =>
  }

  lemma StartsAtTop()
    ensures !AfterFree(Top)
  {
  }

  lemma CallerPlace(s: Slot, a: CallerAction)
    requires CallerEnabled(s, a)
    ensures CallerApply(s, a).pc == s.pc
  {
  }

  lemma QuietAfterFree(w: World, a: Action)
    requires Inv(w) && Enabled(w, a) && AfterFree(w.slot.pc)
    ensures !PutsLibrary(w, a)
  {
    hide SlotInv, CallInv, RefusalInv, BankInv, PlaceInv;
    assert Quiet(w.slot.pc) && w.traffic.inFlight == multiset{};
  }

  lemma {:induction false} RunBareAfterFree(ws: seq<World>, acts: seq<Action>, i: nat)
    requires IsRun(ws, acts) && i < |ws|
    ensures BareAfterFree(ws[i].slot)
  {
    hide Inv, Enabled, Apply, AfterFree;
    if i > 0 {
      RunBareAfterFree(ws, acts, i - 1);
      RunKeepsInv(ws, acts, i - 1);
      var w, a := ws[i - 1], acts[i - 1];
      assert Enabled(w, a) && ws[i] == Apply(w, a);
      hide IsRun;
      StepMarks(w, a);
      if AfterFree(ws[i].slot.pc) {
        EntersAfterFree(w, a);
        if AfterFree(w.slot.pc) { QuietAfterFree(w, a); }
      }
    }
  }

  /** A claim that ends by recycle leaves no library behind. */
  lemma RecycledIsBare(ws: seq<World>, acts: seq<Action>, i: nat)
    requires IsRun(ws, acts) && i < |acts| && acts[i] == Recycle(ReleaseClaim)
    ensures ws[i + 1].slot.lib == NoLib && !ws[i + 1].slot.libReady
  {
    RunBareAfterFree(ws, acts, i);
    assert Enabled(ws[i], acts[i]) && ws[i + 1] == Apply(ws[i], acts[i]);
    ConstructedIsHistory(ws, acts, i + 1);
    RunMarks(ws, acts);
    hide IsRun, Apply, SetAndKept;
  }

  /** A claim starts without a library if and only if what was put in place by earlier claims has
      been freed by a reset; a join of the threads frees none. */
  lemma StartsBareIff(ws: seq<World>, acts: seq<Action>, i: nat, seen: nat)
    requires IsRun(ws, acts) && i < |acts| && acts[i] == Create(TryClaim(seen))
    requires ws[i + 1].slot.generation != ws[i].slot.generation
    ensures ws[i + 1].slot.lib == NoLib <==> !SetAndKept(ws, acts, i, PutsLibrary, FreesLibrary)
  {
    LibraryIsHistory(ws, acts, i);
    RunMarks(ws, acts);
    hide IsRun, SetAndKept;
  }

  // ---------------------------------------------------------------------------------------
  // What becomes of an answer
  // ---------------------------------------------------------------------------------------

  /** The end of a handler: in callback mode one terminal call in its own claim, and the request is
      freed; in poll mode no call, and the reply waits for the poller. A warning is one call. */
  lemma HandlerTells(w: World, a: HandlerAction)
    requires Inv(w) && HandlerEnabled(w, a)
    ensures var t, t' := w.traffic, HandlerApply(w, a).traffic;
            match a
            case Complete(r) =>
              && t'.inFlight == t.inFlight - multiset{r} && t'.answered == t.answered + multiset{r}
              && (if w.mode == CallbackMode
                  then t'.calls == t.calls + multiset{Call(r, Terminal, r.generation)} && t'.freed == t.freed + multiset{r}
                  else t'.calls == t.calls && t'.freed == t.freed && t'.replies == t.replies + multiset{r})
            case Warn(r) => t' == t.(calls := t.calls + multiset{Call(r, StaleWarn, r.generation)})
            case StoreLib(_) => t' == t
  {
    hide SlotInv, CallInv, RefusalInv, LoopHoldsInv, BankInv;
    OnePlace(w.traffic, w.slot.generation, a.r);
    hide PlaceInv;
  }

  // The ways a request is freed.
  predicate FreeingStep(w: World, a: Action, r: Request) {
    match a
    case Poller(p) => p == Release && r in w.traffic.held
    case Recycle(c) => c == DropMessages && w.mode == PollMode && r in w.traffic.replies
    case Stop(c) =>
      c == JoinAndRelease && (r in w.traffic.replies || (r in w.traffic.ingress && w.slot.phase == Stopping(FullDestroy)))
    case Chain(c) =>
      && (c == DispatchNext(r) ==> r.generation != w.slot.generation)
      && (c == DispatchNext(r) || (c.RejectNext? && c.r == r))
      && (c.RejectNext? && r.generation >= w.slot.generation ==> w.mode == CallbackMode)
    case Handler(h) => h == Complete(r) && w.mode == CallbackMode
    case _ => false
  }

  lemma RejectFrees(s: Slot, t: Traffic, mode: Mode, c: ChainAction, r: Request)
    requires ChainEnabled(s, t, c) && OwnerGenInv(s)
    requires ChainTraffic(s, t, mode, c).freed[r] > t.freed[r]
    ensures c == DispatchNext(r) || (c.RejectNext? && c.r == r)
    ensures c == DispatchNext(r) ==> r.generation != s.generation
    ensures c.RejectNext? && r.generation >= s.generation ==> mode == CallbackMode
  {
  }

  lemma HandlerFrees(w: World, a: HandlerAction, r: Request)
    requires HandlerEnabled(w, a) && HandlerApply(w, a).traffic.freed[r] > w.traffic.freed[r]
    ensures a == Complete(r) && w.mode == CallbackMode
  {
  }

  lemma OwnersFree(s: Slot, t: Traffic, c: CreateAction, stop: StopAction, r: Request)
    ensures CreateTraffic(s, t, c).freed == t.freed
    ensures StopTraffic(s, t, stop).freed[r] > t.freed[r] ==>
          stop == JoinAndRelease && (r in t.replies || (r in t.ingress && s.phase == Stopping(FullDestroy)))
  {
  }

  lemma LoopFrees(s: Slot, t: Traffic, mode: Mode, i: IterateAction, c: RecycleAction, r: Request)
    ensures IterateTraffic(s, t, i).freed == t.freed
    ensures RecycleTraffic(t, mode, c).freed[r] > t.freed[r] ==> c == DropMessages && mode == PollMode && r in t.replies
  {
  }

  lemma SubmitFrees(s: Slot, t: Traffic, mode: Mode, a: SubmitAction)
    requires SubmitEnabled(s, t, a)
    ensures SubmitApply(s, t, mode, a).freed == t.freed
  {
  }

  /** Nothing else frees a request: a reply goes when the poller is done with it, or uncollected
      with the end of its claim; a queued request goes unanswered when its claim is over. */
  lemma WhoFrees(w: World, a: Action, r: Request)
    requires Inv(w) && Enabled(w, a) && Apply(w, a).traffic.freed[r] > w.traffic.freed[r]
    ensures FreeingStep(w, a, r)
  {
    hide PhaseInv, LifecycleInv, ClaimsInv, StageInv, RecyclersInv, AbandonInv, OwnerGenInv, PlaceInv, CallInv,
          RefusalInv, LoopHoldsInv, BankInv;
    hide CreateApply, StopApply, RecycleSlot, CallerApply, IterateSlot, ChainSlot, HandlerApply;
    hide CreateEnabled, StopEnabled, RecycleEnabled, CallerEnabled, IterateEnabled, ChainEnabled, HandlerEnabled,
          SubmitEnabled;
    hide ChainTraffic, CreateTraffic, IterateTraffic, RecycleTraffic, StopTraffic, SubmitApply;
    match a
    case Create(c) => OwnersFree(w.slot, w.traffic, c, JoinAndRelease, r);
    case Stop(c) => OwnersFree(w.slot, w.traffic, LoadGeneration, c, r);
    case Chain(c) => RejectFrees(w.slot, w.traffic, w.mode, c, r);
    case Handler(c) => HandlerFrees(w, c, r);
    case Iterate(c) => LoopFrees(w.slot, w.traffic, w.mode, c, Conclude, r);
    case Recycle(c) => LoopFrees(w.slot, w.traffic, w.mode, Exit, c, r);
    case Submit(c) => SubmitFrees(w.slot, w.traffic, w.mode, c);
    case _ =>
  }

  // ---------------------------------------------------------------------------------------
  // Replies that wait
  // ---------------------------------------------------------------------------------------

  // An answer takes no reply off the queue and forgets no future.
  lemma AnswerLeaves(t: Traffic, u: Traffic, r: Request, mode: Mode, current: nat)
    requires u == t.(chain := u.chain, inFlight := u.inFlight)
    ensures Answer(u, r, mode, current).pending == t.pending && t.replies <= Answer(u, r, mode, current).replies
  {
  }

  // What takes a reply off the queue.
  predicate TakesOff(w: World, a: Action, r: Request) {
    a == Poller(Take(r)) || a == Recycle(DropMessages) || a == Stop(JoinAndRelease)
  }

  lemma StepKeepsReply(w: World, a: Action, r: Request)
    requires Enabled(w, a) && r in w.traffic.replies && !TakesOff(w, a, r)
    ensures r in Apply(w, a).traffic.replies
  {
    hide CreateApply, StopApply, RecycleSlot, CallerApply, IterateSlot, ChainSlot;
    hide CreateEnabled, StopEnabled, RecycleEnabled, CallerEnabled, IterateEnabled, Answer;
    var t := w.traffic;
    match a
    case Chain(c) =>
      if c.RejectNext? { AnswerLeaves(t, t.(chain := t.chain - multiset{c.r}), c.r, w.mode, w.slot.generation); }
    case Handler(h) =>
      if h.Complete? { AnswerLeaves(t, t.(inFlight := t.inFlight - multiset{h.r}), h.r, w.mode, w.slot.generation); }
    case _ =>
  }

  /** In poll mode the answer of a handler waits in the reply queue until the poller takes it, or its
      claim is reset or joined. */
  lemma {:induction false} ReplyWaits(ws: seq<World>, acts: seq<Action>, i: nat, j: nat, r: Request)
    requires IsRun(ws, acts) && i < j < |ws| && acts[i] == Handler(Complete(r)) && ws[i].mode == PollMode
    requires forall k :: i < k < j ==> !TakesOff(ws[k], acts[k], r)
    ensures r in ws[j].traffic.replies
    decreases j
  {
    hide Inv, TakesOff;
    if j == i + 1 {
      RunKeepsInv(ws, acts, i);
      assert Enabled(ws[i], acts[i]) && ws[j] == Apply(ws[i], acts[i]);
      HandlerTells(ws[i], Complete(r));
    } else {
      ReplyWaits(ws, acts, i, j - 1, r);
      assert Enabled(ws[j - 1], acts[j - 1]) && ws[j] == Apply(ws[j - 1], acts[j - 1]);
      hide Enabled, Apply;
      StepKeepsReply(ws[j - 1], acts[j - 1], r);
    }
  }

  // ---------------------------------------------------------------------------------------
  // Replies that outlive their claim
  // ---------------------------------------------------------------------------------------

  // Points of the loop between the dropping of the messages and the release of the claim.
  predicate AfterDrop(pc: Pc) {
    AfterFree(pc) && pc != DroppingMessages
  }

  // The reset itself answers `r`, which it found on the queue.
  predicate AnswersLeftover(w: World, a: Action, r: Request) {
    && w.slot.pc.Rejecting? && w.slot.pc.inReset && w.mode == PollMode && r.generation >= w.slot.pc.ownerGen
    && (a == Chain(RejectNext(r, true)) || (a == Chain(RejectNext(r, false)) && r.generation == w.slot.pc.ownerGen))
  }

  // It was answered so before step `i`, and nobody took the reply off the queue since.
  ghost predicate LeftOver(ws: seq<World>, acts: seq<Action>, i: nat, r: Request)
    requires i <= |acts| < |ws|
  {
    exists k :: 0 <= k < i && AnswersLeftover(ws[k], acts[k], r) && forall l :: k < l < i ==> !TakesOff(ws[l], acts[l], r)
  }

  lemma EntersAfterDrop(w: World, a: Action)
    requires Inv(w) && Enabled(w, a) && AfterDrop(Apply(w, a).slot.pc) && !AfterDrop(w.slot.pc)
    ensures a == Recycle(DropMessages)
  {
    EntersAfterFree(w, a);
    if AfterFree(w.slot.pc) {
      LeavesDropping(w, a);
    } else {
      FreeingLeadsToDropping(w);
    }
  }

  lemma LeavesDropping(w: World, a: Action)
    requires Enabled(w, a) && w.slot.pc == DroppingMessages && Apply(w, a).slot.pc != DroppingMessages
    ensures a == Recycle(DropMessages)
  {
    hide CreateApply, StopApply, CallerApply, IterateSlot, ChainSlot, RecycleHistory, RecycleWrites;
    hide SubmitApply, PollerApply, CreateTraffic, StopTraffic, ChainTraffic, IterateTraffic, RecycleTraffic, AnswerInFlight,
          WarnStale;
    match a
    case Create(c) => OwnersPlace(w.slot, w.traffic, c, JoinAndRelease);
    case Stop(c) => OwnersPlace(w.slot, w.traffic, LoadGeneration, c);
    case Caller(c) => CallerPlace(w.slot, c);
    case _ =>
  }

  lemma FreeingLeadsToDropping(w: World)
    requires Enabled(w, Recycle(FreeLib))
    ensures Apply(w, Recycle(FreeLib)).slot.pc == DroppingMessages
  {
    hide RecycleHistory, RecycleWrites;
  }

  // Where no handler runs, the reset's own answers are the only ones.
  lemma ResetAnswers(w: World, a: Action, r: Request)
    requires Inv(w) && Enabled(w, a) && AfterDrop(w.slot.pc) && w.mode == PollMode
    requires r in Apply(w, a).traffic.replies && r !in w.traffic.replies
    ensures AnswersLeftover(w, a, r)
  {
    assert Quiet(w.slot.pc) && w.traffic.inFlight == multiset{};
    hide SlotInv, PlaceInv, CallInv, RefusalInv, BankInv, LoopHoldsInv, Quiet, Answer;
    hide CreateApply, StopApply, RecycleSlot, CallerApply, IterateSlot, ChainSlot, ChainTraffic;
    hide CreateEnabled, StopEnabled, RecycleEnabled, CallerEnabled, IterateEnabled, ChainEnabled, SubmitEnabled;
    hide CreateTraffic, StopTraffic, IterateTraffic, RecycleTraffic, SubmitApply, PollerApply;
    var s, t := w.slot, w.traffic;
    match a
    case Create(c) => QuietReplies(s, t, w.mode, c, JoinAndRelease, Exit, Conclude);
    case Stop(c) => QuietReplies(s, t, w.mode, LoadGeneration, c, Exit, Conclude);
    case Iterate(c) => QuietReplies(s, t, w.mode, LoadGeneration, JoinAndRelease, c, Conclude);
    case Recycle(c) => QuietReplies(s, t, w.mode, LoadGeneration, JoinAndRelease, Exit, c);
    case Chain(c) => ChainAddsReply(s, t, c, r);
    case Submit(c) => SubmitReplies(s, t, w.mode, c);
    case Poller(c) => PollerReplies(t, c);
    case _ =>
  }

  lemma QuietReplies(s: Slot, t: Traffic, mode: Mode, c: CreateAction, stop: StopAction, i: IterateAction, a: RecycleAction)
    ensures CreateTraffic(s, t, c).replies == t.replies && StopTraffic(s, t, stop).replies <= t.replies
    ensures IterateTraffic(s, t, i).replies == t.replies && RecycleTraffic(t, mode, a).replies <= t.replies
  {
  }

  lemma SubmitReplies(s: Slot, t: Traffic, mode: Mode, a: SubmitAction)
    requires SubmitEnabled(s, t, a)
    ensures SubmitApply(s, t, mode, a).replies == t.replies
  {
  }

  lemma PollerReplies(t: Traffic, a: PollerAction)
    requires PollerEnabled(t, a)
    ensures PollerApply(t, a).replies <= t.replies
  {
  }

  lemma ChainAddsReply(s: Slot, t: Traffic, a: ChainAction, r: Request)
    requires ChainEnabled(s, t, a) && r in ChainTraffic(s, t, PollMode, a).replies && r !in t.replies
    ensures HoldsChain(s.pc) && a.RejectNext? && a.r == r && s.pc.Rejecting?
    ensures r.generation >= s.pc.ownerGen && (a.bankFull || r.generation == s.pc.ownerGen)
  {
  }

  lemma LeftoverQueued(w: World, a: Action, r: Request)
    requires Enabled(w, a) && AnswersLeftover(w, a, r)
    ensures r in Apply(w, a).traffic.replies
  {
  }

  lemma {:induction false} RepliesAfterDrop(ws: seq<World>, acts: seq<Action>, i: nat, r: Request)
    requires IsRun(ws, acts) && i < |ws| && ws[i].mode == PollMode && AfterDrop(ws[i].slot.pc)
    ensures r in ws[i].traffic.replies ==> LeftOver(ws, acts, i, r)
  {
    hide Inv, Enabled, Apply, AfterDrop, AnswersLeftover, TakesOff;
    if i == 0 {
      assert !AfterDrop(Down) by { NotAfterDrop(); }
    } else {
      var w, a := ws[i - 1], acts[i - 1];
      assert Enabled(w, a) && ws[i] == Apply(w, a);
      RunKeepsInv(ws, acts, i - 1);
      ModeStays(w, a);
      if r in ws[i].traffic.replies {
        if !AfterDrop(w.slot.pc) {
          EntersAfterDrop(w, a);
          DropEmpties(w);
        } else if r !in w.traffic.replies {
          ResetAnswers(w, a, r);
          assert LeftOver(ws, acts, i, r);
        } else {
          RepliesAfterDrop(ws, acts, i - 1, r);
          if TakesOff(w, a, r) { TakenOffFor(ws, acts, i - 1, r); }
          var k :| 0 <= k < i - 1 && AnswersLeftover(ws[k], acts[k], r)
                   && forall l :: k < l < i - 1 ==> !TakesOff(ws[l], acts[l], r);
          assert LeftOver(ws, acts, i, r);
        }
      }
    }
  }

  lemma NotAfterDrop()
    ensures !AfterDrop(Down)
  {
  }

  lemma DropEmpties(w: World)
    requires Enabled(w, Recycle(DropMessages)) && w.mode == PollMode
    ensures Apply(w, Recycle(DropMessages)).traffic.replies == multiset{}
  {
  }

  // A reply taken off is not there any more: requests are in one place, once.
  lemma TakenOffFor(ws: seq<World>, acts: seq<Action>, i: nat, r: Request)
    requires IsRun(ws, acts) && i < |acts| && TakesOff(ws[i], acts[i], r) && ws[i].mode == PollMode
    ensures r !in ws[i + 1].traffic.replies
  {
    hide Enabled, Apply, TakesOff;
    RunKeepsInv(ws, acts, i);
    assert Enabled(ws[i], acts[i]) && ws[i + 1] == Apply(ws[i], acts[i]);
    hide IsRun;
    TakenOff(ws[i], acts[i], r);
  }

  lemma TakenOff(w: World, a: Action, r: Request)
    requires Inv(w) && Enabled(w, a) && TakesOff(w, a, r) && w.mode == PollMode
    ensures r !in Apply(w, a).traffic.replies
  {
    hide SlotInv, CallInv, RefusalInv, BankInv, LoopHoldsInv;
    OnePlace(w.traffic, w.slot.generation, r);
    hide PlaceInv;
    hide StopApply, RecycleSlot, StopEnabled, RecycleEnabled;
  }

  /** In poll mode a released claim leaves a reply for whoever polls the slot next if and only if its
      reset answered that request after the messages were dropped and no poll took the reply before
      the release. */
  lemma LeftoverIff(ws: seq<World>, acts: seq<Action>, i: nat, r: Request)
    requires IsRun(ws, acts) && i < |acts| && acts[i] == Recycle(ReleaseClaim) && ws[i].mode == PollMode
    ensures r in ws[i + 1].traffic.replies <==> LeftOver(ws, acts, i, r)
  {
    assert Enabled(ws[i], acts[i]) && ws[i + 1] == Apply(ws[i], acts[i]);
    assert ws[i].slot.pc == Releasing && ws[i + 1].traffic.replies == ws[i].traffic.replies;
    RepliesAfterDrop(ws, acts, i, r);
    hide Enabled, Apply;
    if LeftOver(ws, acts, i, r) {
      var k :| 0 <= k < i && AnswersLeftover(ws[k], acts[k], r) && forall l :: k < l < i ==> !TakesOff(ws[l], acts[l], r);
      AnsweredWaits(ws, acts, k, i, r);
    }
  }

  lemma {:induction false} AnsweredWaits(ws: seq<World>, acts: seq<Action>, k: nat, j: nat, r: Request)
    requires IsRun(ws, acts) && k < j < |ws| && AnswersLeftover(ws[k], acts[k], r)
    requires forall l :: k < l < j ==> !TakesOff(ws[l], acts[l], r)
    ensures r in ws[j].traffic.replies
    decreases j
  {
    hide Enabled, Apply, TakesOff, AnswersLeftover;
    if j == k + 1 {
      assert Enabled(ws[k], acts[k]) && ws[j] == Apply(ws[k], acts[k]);
      LeftoverQueued(ws[k], acts[k], r);
    } else {
      AnsweredWaits(ws, acts, k, j - 1, r);
      assert Enabled(ws[j - 1], acts[j - 1]) && ws[j] == Apply(ws[j - 1], acts[j - 1]);
      StepKeepsReply(ws[j - 1], acts[j - 1], r);
    }
  }

  // ---------------------------------------------------------------------------------------
  // Who is let in
  // ---------------------------------------------------------------------------------------

  // `r` was let through by its submit's look at the lifecycle.
  ghost predicate SawActiveAt(ws: seq<World>, acts: seq<Action>, i: nat, r: Request)
    requires i <= |acts| < |ws|
  {
    exists k :: 0 <= k < i && acts[k] == Submit(Begin(r.generation, false)) && ws[k].traffic.nextId == r.id
                && ws[k].slot.lifecycle == Active
  }

  // And by its look at the generation after that.
  ghost predicate CheckedAt(ws: seq<World>, acts: seq<Action>, i: nat, r: Request)
    requires i <= |acts| < |ws|
  {
    exists m :: 0 <= m < i && acts[m] == Submit(Check(r)) && ws[m].slot.generation == r.generation
                && SawActiveAt(ws, acts, m, r)
  }

  lemma SubmitLetsIn(s: Slot, t: Traffic, mode: Mode, a: SubmitAction, r: Request)
    requires SubmitEnabled(s, t, a)
    ensures var t' := SubmitApply(s, t, mode, a);
            && (r in t'.sawActive && r !in t.sawActive ==>
                  a == Begin(r.generation, false) && t.nextId == r.id && s.lifecycle == Active)
            && (r in t'.checked && r !in t.checked ==> a == Check(r) && r in t.sawActive && r.generation == s.generation)
            && (r in t'.accepted && r !in t.accepted ==> r in t.checked)
  {
  }

  lemma StepLetsIn(w: World, a: Action, r: Request)
    requires Enabled(w, a)
    ensures var t, t' := w.traffic, Apply(w, a).traffic;
            && (r in t'.sawActive && r !in t.sawActive ==>
                  a == Submit(Begin(r.generation, false)) && t.nextId == r.id && w.slot.lifecycle == Active)
            && (r in t'.checked && r !in t.checked ==>
                  a == Submit(Check(r)) && r in t.sawActive && r.generation == w.slot.generation)
            && (r in t'.accepted && r !in t.accepted ==> r in t.checked)
  {
    hide SubmitApply, SubmitEnabled, Apply, Enabled;
    if a.Submit? {
      SubmitStep(w, a.submit);
      SubmitLetsIn(w.slot, w.traffic, w.mode, a.submit, r);
    } else {
      OthersKeepSubmits(w, a);
    }
  }

  lemma {:induction false} LetInIsHistory(ws: seq<World>, acts: seq<Action>, i: nat, r: Request)
    requires IsRun(ws, acts) && i < |ws|
    ensures r in ws[i].traffic.sawActive ==> SawActiveAt(ws, acts, i, r)
    ensures r in ws[i].traffic.checked || r in ws[i].traffic.accepted ==> CheckedAt(ws, acts, i, r)
  {
    hide Enabled, Apply;
    if i > 0 {
      LetInIsHistory(ws, acts, i - 1, r);
      StepLetsIn(ws[i - 1], acts[i - 1], r);
      assert SawActiveAt(ws, acts, i - 1, r) ==> SawActiveAt(ws, acts, i, r);
      assert CheckedAt(ws, acts, i - 1, r) ==> CheckedAt(ws, acts, i, r) by {
        if CheckedAt(ws, acts, i - 1, r) {
          var m :| 0 <= m < i - 1 && acts[m] == Submit(Check(r)) && ws[m].slot.generation == r.generation
                   && SawActiveAt(ws, acts, m, r);
          assert CheckedAt(ws, acts, i, r);
        }
      }
    }
  }

  /** A request is taken in only if its submit, not turned down for a reason of its own, found the
      slot active and, later, still in the claim of its token. */
  lemma AcceptedWasLetIn(ws: seq<World>, acts: seq<Action>, i: nat, r: Request)
    requires IsRun(ws, acts) && i < |ws| && r in ws[i].traffic.accepted
    ensures exists k, m :: 0 <= k < m < i && acts[k] == Submit(Begin(r.generation, false))
              && ws[k].slot.lifecycle == Active && acts[m] == Submit(Check(r)) && ws[m].slot.generation == r.generation
  {
    LetInIsHistory(ws, acts, i, r);
    hide IsRun;
    var m :| 0 <= m < i && acts[m] == Submit(Check(r)) && ws[m].slot.generation == r.generation
             && SawActiveAt(ws, acts, m, r);
    var k :| 0 <= k < m && acts[k] == Submit(Begin(r.generation, false)) && ws[k].traffic.nextId == r.id
             && ws[k].slot.lifecycle == Active;
  }

  // ---------------------------------------------------------------------------------------
  // Tracked futures
  // ---------------------------------------------------------------------------------------

  // Points of the loop where no future is tracked.
  predicate Forgotten(pc: Pc) {
    match pc
    case Down => true
    case Finishing(f) => f == NoFailure
    case Firing(f) => f == NoFailure
    case Releasing => true
    case _ => false
  }

  // What is tracked was dispatched in the live claim.
  ghost predicate TracksOwn(s: Slot, t: Traffic) {
    && (forall r :: r in t.pending ==> r.generation == s.generation && r.generation % 2 == 1)
    && (Forgotten(s.pc) ==> t.pending == {})
  }

  lemma OwnersTrack(w: World, c: CreateAction, stop: StopAction)
    requires SlotInv(w.slot) && TracksOwn(w.slot, w.traffic)
    ensures CreateEnabled(w.slot, c) ==> TracksOwn(CreateApply(w.slot, c), CreateTraffic(w.slot, w.traffic, c))
    ensures StopEnabled(w.slot, w.traffic, stop) ==>
          TracksOwn(StopApply(w.slot, w.traffic, stop), StopTraffic(w.slot, w.traffic, stop))
  {
    hide LifecycleInv, ClaimsInv, StageInv, OwnerGenInv, RecyclersInv, AbandonInv;
  }

  lemma LoopTracks(s: Slot, t: Traffic, a: IterateAction)
    requires TracksOwn(s, t) && IterateEnabled(s, t, a)
    ensures TracksOwn(IterateSlot(s, a), IterateTraffic(s, t, a))
  {
  }

  lemma ChainPending(s: Slot, t: Traffic, mode: Mode, a: ChainAction)
    requires ChainEnabled(s, t, a)
    ensures ChainSlot(s, a).generation == s.generation && !Forgotten(ChainSlot(s, a).pc)
    ensures ChainTraffic(s, t, mode, a).pending ==
              if a.DispatchNext? && a.r.generation == s.generation then t.pending + {a.r} else t.pending
  {
    if a.RejectNext? { AnswerLeaves(t, t.(chain := t.chain - multiset{a.r}), a.r, mode, s.generation); }
    hide Answer;
  }

  lemma ChainTracks(s: Slot, t: Traffic, mode: Mode, a: ChainAction, current: nat)
    requires TracksOwn(s, t) && ChainEnabled(s, t, a) && PlaceInv(t, current)
    ensures TracksOwn(ChainSlot(s, a), ChainTraffic(s, t, mode, a))
  {
    if a.DispatchNext? { OnePlace(t, current, a.r); }
    ChainPending(s, t, mode, a);
    hide PlaceInv, ChainTraffic, ChainSlot, Forgotten;
  }

  lemma RecycleTracks(s: Slot, t: Traffic, mode: Mode, hook: bool, a: RecycleAction)
    requires LifecycleInv(s) && TracksOwn(s, t) && RecycleEnabled(s, t, hook, a)
    ensures TracksOwn(RecycleSlot(s, t, hook, a), RecycleTraffic(t, mode, a))
  {
    hide RecycleHistory;
  }

  lemma CallerTracks(s: Slot, t: Traffic, a: CallerAction)
    requires TracksOwn(s, t) && CallerEnabled(s, a)
    ensures TracksOwn(CallerApply(s, a), t)
  {
  }

  lemma OthersTrack(w: World, a: Action)
    requires Enabled(w, a) && (a.Submit? || a.Handler? || a.Poller?)
    ensures Apply(w, a).traffic.pending == w.traffic.pending
    ensures Apply(w, a).slot.pc == w.slot.pc && Apply(w, a).slot.generation == w.slot.generation
  {
  }

  lemma StepTracks(w: World, a: Action)
    requires Inv(w) && TracksOwn(w.slot, w.traffic) && Enabled(w, a)
    ensures TracksOwn(Apply(w, a).slot, Apply(w, a).traffic)
  {
    if a.Submit? || a.Handler? || a.Poller? {
      hide *;
      OthersTrack(w, a);
      TracksSame(w, Apply(w, a));
    } else {
      hide PlaceInv, CallInv, RefusalInv, LoopHoldsInv, BankInv, PhaseInv, LifecycleInv, ClaimsInv, StageInv, OwnerGenInv,
            RecyclersInv, AbandonInv, TracksOwn;
      hide CreateApply, StopApply, RecycleSlot, CallerApply, IterateSlot, ChainSlot;
      hide CreateEnabled, StopEnabled, RecycleEnabled, CallerEnabled, IterateEnabled, ChainEnabled;
      hide ChainTraffic, CreateTraffic, IterateTraffic, RecycleTraffic, StopTraffic;
      match a
      case Create(c) => OwnersTrack(w, c, JoinAndRelease);
      case Stop(c) => OwnersTrack(w, LoadGeneration, c);
      case Caller(c) => CallerTracks(w.slot, w.traffic, c);
      case Iterate(c) => LoopTracks(w.slot, w.traffic, c);
      case Chain(c) => ChainTracks(w.slot, w.traffic, w.mode, c, w.slot.generation);
      case Recycle(c) => RecycleTracks(w.slot, w.traffic, w.mode, w.hook, c);
    }
  }

  lemma TracksSame(w: World, w': World)
    requires TracksOwn(w.slot, w.traffic) && w'.traffic.pending == w.traffic.pending
    requires w'.slot.pc == w.slot.pc && w'.slot.generation == w.slot.generation
    ensures TracksOwn(w'.slot, w'.traffic)
  {
  }

  /** The futures a loop tracks are those of its live claim: none outlives the claim it was
      dispatched in, so no later drain waits for it. */
  lemma {:induction false} TracksOwnClaim(ws: seq<World>, acts: seq<Action>, i: nat)
    requires IsRun(ws, acts) && i < |ws|
    ensures TracksOwn(ws[i].slot, ws[i].traffic)
  {
    hide Inv, Enabled, Apply;
    if i > 0 {
      TracksOwnClaim(ws, acts, i - 1);
      RunKeepsInv(ws, acts, i - 1);
      assert Enabled(ws[i - 1], acts[i - 1]) && ws[i] == Apply(ws[i - 1], acts[i - 1]);
      hide IsRun, TracksOwn;
      StepTracks(ws[i - 1], acts[i - 1]);
    }
  }

  /** Cleaning up leaves exactly the futures whose handlers run, at each turn of an active slot and at
      the end of a drain. */
  lemma CleanedTracksRunning(w: World, a: Action)
    requires Inv(w) && Enabled(w, a)
    requires (a == Iterate(ReadLifecycle) && w.slot.lifecycle == Active) || (a.Recycle? && a.recycle.EndDrain?)
    ensures forall r :: r in Apply(w, a).traffic.pending <==> r in Apply(w, a).traffic.inFlight
  {
    hide SlotInv, CallInv, RefusalInv, LoopHoldsInv, BankInv, RecycleSlot, IterateSlot;
  }
}

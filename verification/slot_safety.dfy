/** What the slot protocol guarantees over whole runs, whatever the interleaving. */
module SlotSafety {
  import opened Wrappers
  import opened RequestTraffic
  import opened SlotProtocol
  import opened SlotInvariant

  ghost predicate IsRun(ws: seq<World>, acts: seq<Action>) {
    && |ws| == |acts| + 1
    && Init(ws[0])
    && forall i :: 0 <= i < |acts| ==> Enabled(ws[i], acts[i]) && ws[i + 1] == Apply(ws[i], acts[i])
  }

  lemma {:induction false} RunKeepsInv(ws: seq<World>, acts: seq<Action>, i: nat)
    requires IsRun(ws, acts) && i < |ws|
    ensures Inv(ws[i])
  {
    hide Inv;
    if i == 0 {
      InitInv(ws[0]);
    } else {
      RunKeepsInv(ws, acts, i - 1);
      StepKeepsInv(ws[i - 1], acts[i - 1]);
    }
  }

  // ---------------------------------------------------------------------------------------
  // What one step can change
  // ---------------------------------------------------------------------------------------

  // Nothing is un-freed, un-answered or un-called.
  ghost predicate TrafficOnward(t: Traffic, t': Traffic) {
    && t.accepted <= t'.accepted
    && t.answered <= t'.answered
    && t.freed <= t'.freed
    && t.calls <= t'.calls
  }

  // A callback invocation is stamped with the generation it happens under.
  ghost predicate CallsNow(t: Traffic, t': Traffic, current: nat) {
    forall c :: t'.calls[c] != t.calls[c] ==>
      c.at == current && (c.kind == StaleWarn ==> c.request in t.inFlight && c.request !in t.answered)
  }

  ghost predicate Onward(w: World, w': World) {
    w.slot.generation <= w'.slot.generation && TrafficOnward(w.traffic, w'.traffic)
  }

  // `u` is `t` with a request taken out of the chain or the in-flight set.
  lemma AnswerEffect(t: Traffic, u: Traffic, r: Request, mode: Mode, current: nat)
    requires u == t.(chain := u.chain, inFlight := u.inFlight)
    ensures TrafficOnward(t, Answer(u, r, mode, current)) && CallsNow(t, Answer(u, r, mode, current), current)
  {
  }

  lemma ChainEffect(s: Slot, t: Traffic, mode: Mode, a: ChainAction)
    requires ChainEnabled(s, t, a)
    ensures TrafficOnward(t, ChainTraffic(s, t, mode, a)) && CallsNow(t, ChainTraffic(s, t, mode, a), s.generation)
  {
    hide Answer;
    if a.RejectNext? { AnswerEffect(t, t.(chain := t.chain - multiset{a.r}), a.r, mode, s.generation); }
  }

  lemma HandlerEffect(w: World, a: HandlerAction)
    requires HandlerEnabled(w, a)
    ensures TrafficOnward(w.traffic, HandlerApply(w, a).traffic)
    ensures CallsNow(w.traffic, HandlerApply(w, a).traffic, w.slot.generation)
  {
    hide Answer;
    var t := w.traffic;
    if a.Complete? { AnswerEffect(t, t.(inFlight := t.inFlight - multiset{a.r}), a.r, w.mode, w.slot.generation); }
  }

  // A submitter only ever tells of a refusal.
  lemma SubmitEffect(s: Slot, t: Traffic, mode: Mode, a: SubmitAction)
    requires SubmitEnabled(s, t, a)
    ensures TrafficOnward(t, SubmitApply(s, t, mode, a)) && CallsNow(t, SubmitApply(s, t, mode, a), s.generation)
    ensures forall c :: SubmitApply(s, t, mode, a).calls[c] != t.calls[c] ==>
          a == Tell(c.request) && c.kind == Refusal && SubmitApply(s, t, mode, a).calls[c] == t.calls[c] + 1
  {
  }

  // Every other agent leaves the callbacks alone.
  lemma QuietEffect(w: World, a: Action)
    requires Enabled(w, a) && !a.Chain? && !a.Handler? && !a.Submit?
    ensures TrafficOnward(w.traffic, Apply(w, a).traffic) && Apply(w, a).traffic.calls == w.traffic.calls
  {
  }

  lemma CreateGrows(s: Slot, a: CreateAction)
    requires CreateEnabled(s, a)
    ensures s.generation <= CreateApply(s, a).generation
  {
  }

  lemma StopGrows(s: Slot, t: Traffic, a: StopAction)
    requires StopEnabled(s, t, a)
    ensures s.generation <= StopApply(s, t, a).generation
  {
  }

  lemma RecycleGrows(s: Slot, t: Traffic, hook: bool, a: RecycleAction)
    requires RecycleEnabled(s, t, hook, a)
    ensures s.generation <= RecycleSlot(s, t, hook, a).generation
  {
  }

  // A step of a recycle call or of a loop iteration leaves the claim alone.
  lemma CallerStays(s: Slot, a: CallerAction)
    requires CallerEnabled(s, a)
    ensures CallerApply(s, a).generation == s.generation && CallerApply(s, a).failure == s.failure
    ensures s.lifecycle == RecycleFailed ==> CallerApply(s, a).lifecycle == RecycleFailed
  {
  }

  lemma IterateStays(s: Slot, a: IterateAction)
    ensures IterateSlot(s, a).generation == s.generation && IterateSlot(s, a).failure == s.failure
    ensures s.lifecycle == RecycleFailed ==> IterateSlot(s, a).lifecycle == RecycleFailed
  {
  }

  lemma ChainStays(s: Slot, a: ChainAction)
    ensures var s' := ChainSlot(s, a);
            s'.generation == s.generation && s'.failure == s.failure && s'.lifecycle == s.lifecycle
  {
  }

  lemma GenerationGrows(w: World, a: Action)
    requires Enabled(w, a)
    ensures w.slot.generation <= Apply(w, a).slot.generation
  {
    hide CreateApply, StopApply, RecycleSlot, CallerApply, IterateSlot, ChainSlot;
    hide CreateEnabled, StopEnabled, RecycleEnabled, CallerEnabled, IterateEnabled, ChainEnabled;
    hide ChainTraffic, CreateTraffic, IterateTraffic, RecycleTraffic, StopTraffic, SubmitApply, PollerApply;
    match a
    case Create(c) => CreateGrows(w.slot, c);
    case Caller(c) => CallerStays(w.slot, c);
    case Stop(c) => StopGrows(w.slot, w.traffic, c);
    case Iterate(c) => IterateStays(w.slot, c);
    case Chain(c) => ChainStays(w.slot, c);
    case Recycle(c) => RecycleGrows(w.slot, w.traffic, w.hook, c);
    case _ =>
  }

  lemma StepEffect(w: World, a: Action)
    requires Enabled(w, a)
    ensures Onward(w, Apply(w, a)) && CallsNow(w.traffic, Apply(w, a).traffic, w.slot.generation)
  {
    GenerationGrows(w, a);
    match a
    case Chain(c) => ChainEffect(w.slot, w.traffic, w.mode, c);
    case Handler(c) => HandlerEffect(w, c);
    case Submit(c) => SubmitEffect(w.slot, w.traffic, w.mode, c);
    case _ => QuietEffect(w, a);
  }

  lemma {:induction false} RunIsOnward(ws: seq<World>, acts: seq<Action>, i: nat, j: nat)
    requires IsRun(ws, acts) && i <= j < |ws|
    ensures Onward(ws[i], ws[j])
    decreases j - i
  {
    hide Apply, Enabled;
    if i < j {
      RunIsOnward(ws, acts, i, j - 1);
      StepEffect(ws[j - 1], acts[j - 1]);
    }
  }

  // ---------------------------------------------------------------------------------------
  // Callbacks
  // ---------------------------------------------------------------------------------------

  /** Any callback of an accepted request, terminal or stale warning, fires only while the slot's
      generation is the one the request is stamped with. The only other callback is the refusal of
      a request that was not accepted. */
  lemma CallbacksInOwnClaim(ws: seq<World>, acts: seq<Action>, i: nat, c: Call)
    requires IsRun(ws, acts) && i < |acts|
    requires ws[i + 1].traffic.calls[c] != ws[i].traffic.calls[c]
    ensures c.request in ws[i + 1].traffic.accepted <==> c.kind != Refusal
    ensures c.kind != Refusal ==> c.request.generation == ws[i].slot.generation
  {
    hide Apply, Enabled, SlotInv, PlaceInv;
    RunKeepsInv(ws, acts, i + 1);
    StepEffect(ws[i], acts[i]);
    assert c in ws[i + 1].traffic.calls;
  }

  // A step makes a refusal callback exactly when it is a submitter's telling of that refusal.
  lemma OnlySubmitsRefuse(w: World, a: Action, c: Call)
    requires Enabled(w, a) && c.kind == Refusal && Apply(w, a).traffic.calls[c] != w.traffic.calls[c]
    ensures a == Submit(Tell(c.request)) && c.request in w.traffic.refused
  {
    hide Answer;
    if a.Submit? {
      SubmitEffect(w.slot, w.traffic, w.mode, a.submit);
    } else {
      OthersKeepSubmits(w, a);
    }
  }

  /** A refusal callback is made by the submit that was refused and by nobody else; it is the only
      callback its request ever gets, it comes once, and the request is never accepted. */
  lemma RefusalIsFinal(ws: seq<World>, acts: seq<Action>, i: nat, j: nat, c: Call)
    requires IsRun(ws, acts) && i < |acts| && i < j < |ws| && c.kind == Refusal
    requires ws[i + 1].traffic.calls[c] != ws[i].traffic.calls[c]
    ensures acts[i] == Submit(Tell(c.request)) && c.request in ws[i].traffic.refused && ws[i].mode == CallbackMode
    ensures ws[j].traffic.calls[c] == 1 && c.request !in ws[j].traffic.accepted
    ensures forall d :: d in ws[j].traffic.calls && d.request == c.request ==> d == c
  {
    hide Apply, Enabled, SlotInv, PlaceInv, BankInv, LoopHoldsInv;
    OnlySubmitsRefuse(ws[i], acts[i], c);
    RunKeepsInv(ws, acts, i);
    RunIsOnward(ws, acts, i + 1, j);
    StepEffect(ws[i], acts[i]);
    assert c in ws[i + 1].traffic.calls && c in ws[j].traffic.calls;
    RunKeepsInv(ws, acts, j);
  }

  // A run may go on by any step that is enabled.
  lemma OneMoreStep(ws: seq<World>, acts: seq<Action>, a: Action)
    requires IsRun(ws, acts) && Enabled(ws[|acts|], a)
    ensures IsRun(ws + [Apply(ws[|acts|], a)], acts + [a])
  {
    hide Enabled, Apply, Init;
  }

  /** A host that still submits under the token of an ended claim is turned down, and in callback
      mode its callback is told so: this one callback does run after `requestRecycle` returned ok,
      inside the submit that asked for it. */
  lemma LateSubmitIsTold(ws: seq<World>, acts: seq<Action>, claim: nat)
    returns (ws': seq<World>, acts': seq<Action>, r: Request)
    requires IsRun(ws, acts) && ws[|acts|].mode == CallbackMode
    requires claim in ws[|acts|].slot.issued && ws[|acts|].slot.generation != claim
    ensures IsRun(ws', acts') && ws <= ws' && acts <= acts' && r.generation == claim
    ensures ws'[|acts'|].traffic.calls ==
              ws[|acts|].traffic.calls + multiset{Call(r, Refusal, ws[|acts|].slot.generation)}
    ensures ws'[|acts'|].traffic.accepted == ws[|acts|].traffic.accepted
  {
    var w := ws[|acts|];
    r := Request(w.traffic.nextId, claim);
    ws', acts' := ws, acts;
    hide IsRun, Init;
    OneMoreStep(ws', acts', Submit(Begin(claim, false)));
    ws', acts' := ws' + [Apply(w, Submit(Begin(claim, false)))], acts' + [Submit(Begin(claim, false))];
    var w1 := ws'[|acts'|];
    if w.slot.lifecycle == Active {
      OneMoreStep(ws', acts', Submit(Check(r)));
      ws', acts' := ws' + [Apply(w1, Submit(Check(r)))], acts' + [Submit(Check(r))];
    }
    var w2 := ws'[|acts'|];
    OneMoreStep(ws', acts', Submit(Tell(r)));
    ws', acts' := ws' + [Apply(w2, Submit(Tell(r)))], acts' + [Submit(Tell(r))];
  }

  /** Once `requestRecycle` returned ok for a claim, no callback of a request accepted under that
      claim ever runs again. */
  lemma {:induction false} SilentAfterOk(ws: seq<World>, acts: seq<Action>, i: nat, j: nat, claim: nat, c: Call)
    requires IsRun(ws, acts) && i <= j < |ws|
    requires RecyclerAt(ws[i].slot, claim, ReturnedOk) && c.request.generation == claim && c.kind != Refusal
    ensures ws[j].traffic.calls[c] == ws[i].traffic.calls[c]
    decreases j - i
  {
    hide Apply, Enabled, PhaseInv, LifecycleInv, ClaimsInv, StageInv, OwnerGenInv, PlaceInv, CallInv, BankInv,
          LoopHoldsInv, RefusalInv;
    if i < j {
      SilentAfterOk(ws, acts, i, j - 1, claim, c);
      RunKeepsInv(ws, acts, i);
      RunIsOnward(ws, acts, i, j - 1);
      if ws[j].traffic.calls[c] != ws[j - 1].traffic.calls[c] {
        CallbacksInOwnClaim(ws, acts, j - 1, c);
        assert false;
      }
    }
  }

  /** A terminal callback runs at most once per request, and no stale warning follows it. */
  lemma OneTerminalThenSilence(ws: seq<World>, acts: seq<Action>, i: nat, r: Request)
    requires IsRun(ws, acts) && i < |acts| && ws[i].mode == CallbackMode
    ensures ws[i].traffic.calls[Call(r, Terminal, r.generation)] <= 1
    ensures ws[i].traffic.calls[Call(r, Terminal, r.generation)] == 1 ==>
              forall c: Call :: c.request == r && c.kind == StaleWarn ==>
                    ws[i + 1].traffic.calls[c] == ws[i].traffic.calls[c]
  {
    hide Apply, Enabled, SlotInv, BankInv, LoopHoldsInv;
    RunKeepsInv(ws, acts, i);
    OnePlace(ws[i].traffic, ws[i].slot.generation, r);
    StepEffect(ws[i], acts[i]);
  }

  // ---------------------------------------------------------------------------------------
  // Requests
  // ---------------------------------------------------------------------------------------

  /** Request conservation: an accepted request is in exactly one of the ingress shards, the
      spliced chain, the in-flight set, the reply queue, the held reply and the freed ones, so
      it is freed at most once in a whole run; it is answered at most once, and if it was freed
      without an answer its claim is over. */
  lemma RequestsConserved(ws: seq<World>, acts: seq<Action>, i: nat, r: Request)
    requires IsRun(ws, acts) && i < |ws|
    ensures Copies(ws[i].traffic, r) == ws[i].traffic.accepted[r] <= 1
    ensures ws[i].traffic.answered[r] <= 1
    ensures r in ws[i].traffic.freed && r !in ws[i].traffic.answered ==> r.generation < ws[i].slot.generation
    ensures r in ws[i].traffic.inFlight ==> r.generation == ws[i].slot.generation && r in ws[i].traffic.pending
    ensures forall j :: i <= j < |ws| ==> ws[i].traffic.freed[r] <= ws[j].traffic.freed[r] <= 1
  {
    hide Apply, Enabled, SlotInv, CallInv, BankInv, LoopHoldsInv, IsRun;
    RunKeepsInv(ws, acts, i);
    OnePlace(ws[i].traffic, ws[i].slot.generation, r);
    forall j | i <= j < |ws|
      ensures ws[i].traffic.freed[r] <= ws[j].traffic.freed[r] <= 1
    {
      RunKeepsInv(ws, acts, j);
      RunIsOnward(ws, acts, i, j);
      OnePlace(ws[j].traffic, ws[j].slot.generation, r);
    }
  }

  // ---------------------------------------------------------------------------------------
  // The end of a claim
  // ---------------------------------------------------------------------------------------

  /** A claim ends by recycle only after a drain that left no handler running and a teardown
      that was skipped or ran to the end; the reset, which frees the library, ran exactly once
      then, and never without those two. */
  lemma RecycleEndsCleanly(ws: seq<World>, acts: seq<Action>, i: nat, claim: nat)
    requires IsRun(ws, acts) && i < |ws| && claim in ws[i].slot.claims
    ensures var c := ws[i].slot.claims[claim];
            && c.resets <= 1
            && (c.resets == 1 ==>
                c.leftInFlight == Some(multiset{}) && (c.teardown == Some(Skipped) || c.teardown == Some(Completed)))
            && (c.ending == ByRecycle ==> c.resets == 1 && c.resetDone)
  {
    RunKeepsInv(ws, acts, i);
  }

  // No two outcomes fit the same claim.
  lemma OneReason(c: Claim, f: Failure, g: Failure)
    requires ClaimOk(c) && ReasonOk(f, c)
    ensures ReasonOk(g, c) <==> g == f
  {
  }

  /** Every other outcome is a quarantine: when the loop answers the caller after a failure, the
      slot is `RecycleFailed`, still claimed, and the stored reason is the one that fits what
      happened to the claim. */
  lemma FailedRecycleQuarantines(ws: seq<World>, acts: seq<Action>, i: nat)
    requires IsRun(ws, acts) && i < |ws| && ws[i].slot.pc.Firing?
    ensures var s := ws[i].slot;
            s.generation in s.claims &&
            (forall f :: ReasonOk(f, s.claims[s.generation]) <==> f == s.pc.failure) &&
            if s.pc.failure == NoFailure
            then ws[i].traffic.inFlight == multiset{}
            else s.lifecycle == RecycleFailed && s.failure == s.pc.failure
  {
    RunKeepsInv(ws, acts, i);
    var s := ws[i].slot;
    forall f ensures ReasonOk(f, s.claims[s.generation]) <==> f == s.pc.failure {
      OneReason(s.claims[s.generation], s.pc.failure, f);
    }
  }

  // The two stores of false into `recycleAbandoned`.
  predicate ClearsFlag(w: World, a: Action) {
    (a.Caller? && a.caller.ClearAbandoned?) || (a == Create(MarkActive) && !w.slot.initialized)
  }

  // Before step `i` the call of claim `g` gave up, and nobody has cleared the flag since.
  ghost predicate GaveUpSince(ws: seq<World>, acts: seq<Action>, i: nat, g: nat)
    requires i <= |acts| < |ws|
  {
    exists k :: 0 <= k < i && acts[k] == Caller(GiveUp(g)) && forall l :: k < l < i ==> !ClearsFlag(ws[l], acts[l])
  }

  lemma CreateFlag(s: Slot, a: CreateAction)
    requires CreateEnabled(s, a)
    ensures CreateApply(s, a).gaveUp == if a == MarkActive && !s.initialized then {} else s.gaveUp
  {
  }

  lemma CallerFlag(s: Slot, a: CallerAction, g: nat)
    requires CallerEnabled(s, a)
    ensures g in CallerApply(s, a).gaveUp <==> a == GiveUp(g) || (g in s.gaveUp && !a.ClearAbandoned?)
  {
  }

  lemma StopFlag(s: Slot, t: Traffic, a: StopAction)
    requires StopEnabled(s, t, a)
    ensures StopApply(s, t, a).gaveUp == s.gaveUp
  {
  }

  // The record of the calls is theirs alone: the loop leaves it as it is.
  predicate SameCalls(s: Slot, s': Slot) {
    s'.recyclers == s.recyclers && s'.gaveUp == s.gaveUp
  }

  lemma RecycleWritesNoCalls(s: Slot, a: RecycleAction)
    ensures SameCalls(s, RecycleWrites(s, a))
  {
  }

  lemma RecycleLeavesCalls(s: Slot, t: Traffic, hook: bool, a: RecycleAction)
    requires RecycleEnabled(s, t, hook, a)
    ensures SameCalls(s, RecycleSlot(s, t, hook, a))
  {
    RecycleWritesNoCalls(s, a);
    hide RecycleEnabled, RecycleNext, RecycleHistory, RecycleWrites;
  }

  lemma LoopLeavesCalls(s: Slot, a: IterateAction, c: ChainAction)
    ensures SameCalls(s, IterateSlot(s, a)) && SameCalls(s, ChainSlot(s, c))
  {
    hide IterateNext, AfterChain;
  }

  lemma FlagStep(w: World, a: Action, g: nat)
    requires Enabled(w, a)
    ensures g in Apply(w, a).slot.gaveUp <==> a == Caller(GiveUp(g)) || (g in w.slot.gaveUp && !ClearsFlag(w, a))
  {
    hide CreateApply, StopApply, RecycleSlot, CallerApply, IterateSlot, ChainSlot;
    hide CreateEnabled, StopEnabled, RecycleEnabled, CallerEnabled, IterateEnabled, ChainEnabled;
    hide ChainTraffic, CreateTraffic, IterateTraffic, RecycleTraffic, StopTraffic, SubmitApply, PollerApply;
    match a
    case Create(c) => CreateFlag(w.slot, c);
    case Caller(c) => CallerFlag(w.slot, c, g);
    case Stop(c) => StopFlag(w.slot, w.traffic, c);
    case Iterate(c) => LoopLeavesCalls(w.slot, c, EndOfChain);
    case Chain(c) => LoopLeavesCalls(w.slot, Exit, c);
    case Recycle(c) => RecycleLeavesCalls(w.slot, w.traffic, w.hook, c);
    case _ =>
  }

  lemma {:induction false} GaveUpIsHistory(ws: seq<World>, acts: seq<Action>, i: nat, g: nat)
    requires IsRun(ws, acts) && i < |ws|
    ensures g in ws[i].slot.gaveUp <==> GaveUpSince(ws, acts, i, g)
  {
    if i > 0 {
      hide Apply, Enabled, ClearsFlag;
      GaveUpIsHistory(ws, acts, i - 1, g);
      FlagStep(ws[i - 1], acts[i - 1], g);
      if g in ws[i].slot.gaveUp && acts[i - 1] != Caller(GiveUp(g)) {
        var k :| 0 <= k < i - 1 && acts[k] == Caller(GiveUp(g))
              && forall l :: k < l < i - 1 ==> !ClearsFlag(ws[l], acts[l]);
        assert forall l :: k < l < i ==> !ClearsFlag(ws[l], acts[l]);
      }
    }
  }

  lemma ConcludeStep(w: World)
    requires Inv(w) && Enabled(w, Recycle(Conclude)) && w.slot.pc == Finishing(NoFailure)
    ensures var s := Apply(w, Recycle(Conclude)).slot;
            && s.generation == w.slot.generation && s.generation in s.claims
            && s.claims[s.generation].abandonedBy == w.slot.gaveUp
            && s.pc == if w.slot.gaveUp != {} then StoringFailure(CallerAbandoned) else Firing(NoFailure)
    ensures forall g :: g in w.slot.gaveUp ==> g <= w.slot.generation
  {
    assert RecyclersInv(w.slot) && ClaimsInv(w.slot) && AbandonInv(w.slot);
  }

  /** A finished reset is turned into a quarantine for `CallerAbandoned` if and only if some call,
      the claim's own or that of an earlier claim, gave up and nobody has cleared the flag since.
      The claim keeps who they were. */
  lemma AbandonedIff(ws: seq<World>, acts: seq<Action>, i: nat)
    requires IsRun(ws, acts) && i < |acts| && acts[i] == Recycle(Conclude) && ws[i].slot.pc == Finishing(NoFailure)
    ensures ws[i + 1].slot.pc == StoringFailure(CallerAbandoned) <==> exists g: nat :: GaveUpSince(ws, acts, i, g)
    ensures ws[i + 1].slot.pc == Firing(NoFailure) <==> forall g: nat :: !GaveUpSince(ws, acts, i, g)
    ensures var s := ws[i + 1].slot;
            s.generation in s.claims && forall g: nat :: g in s.claims[s.generation].abandonedBy <==>
              GaveUpSince(ws, acts, i, g)
    ensures forall g: nat :: GaveUpSince(ws, acts, i, g) ==> g <= ws[i].slot.generation
  {
    hide Apply, Enabled, Inv;
    RunKeepsInv(ws, acts, i);
    ConcludeStep(ws[i]);
    forall g: nat ensures g in ws[i].slot.gaveUp <==> GaveUpSince(ws, acts, i, g) {
      GaveUpIsHistory(ws, acts, i, g);
    }
  }

  /** With its own clear done and no other after it, a claim is abandoned if and only if some call
      gave up between that clear and the end of the reset. */
  lemma AbandonedSinceOwnClear(ws: seq<World>, acts: seq<Action>, c: nat, i: nat)
    requires IsRun(ws, acts) && c < i < |acts| && acts[c] == Caller(ClearAbandoned(ws[i].slot.generation))
    requires forall l :: c < l < i ==> !ClearsFlag(ws[l], acts[l])
    requires acts[i] == Recycle(Conclude) && ws[i].slot.pc == Finishing(NoFailure)
    ensures ws[i + 1].slot.pc == StoringFailure(CallerAbandoned) <==>
              exists k, g :: c < k < i && acts[k] == Caller(GiveUp(g))
  {
    hide Apply, Enabled, Inv;
    AbandonedIff(ws, acts, i);
    if k, g :| c < k < i && acts[k] == Caller(GiveUp(g)) {
      assert GaveUpSince(ws, acts, i, g);
    }
    if g :| GaveUpSince(ws, acts, i, g) {
      var k :| 0 <= k < i && acts[k] == Caller(GiveUp(g)) && forall l :: k < l < i ==> !ClearsFlag(ws[l], acts[l]);
      assert ClearsFlag(ws[c], acts[c]);
    }
  }

  // `s'` is as quarantined as `s`.
  predicate SameQuarantine(s: Slot, s': Slot) {
    s'.lifecycle == s.lifecycle == RecycleFailed && s'.failure == s.failure && s'.generation == s.generation
  }

  lemma CreateRespectsQuarantine(s: Slot, a: CreateAction)
    requires PhaseInv(s) && LifecycleInv(s) && CreateEnabled(s, a) && s.lifecycle == RecycleFailed
    ensures SameQuarantine(s, CreateApply(s, a))
  {
  }

  lemma StopRespectsQuarantine(s: Slot, t: Traffic, a: StopAction)
    requires StopEnabled(s, t, a) && s.lifecycle == RecycleFailed && a != JoinAndRelease
    ensures SameQuarantine(s, StopApply(s, t, a))
  {
  }

  lemma RecycleRespectsQuarantine(s: Slot, t: Traffic, hook: bool, a: RecycleAction)
    requires LifecycleInv(s) && RecycleEnabled(s, t, hook, a) && s.lifecycle == RecycleFailed
    ensures SameQuarantine(s, RecycleSlot(s, t, hook, a))
  {
    hide RecycleHistory, RecycleNext;
  }

  lemma QuarantineStep(w: World, a: Action)
    requires Inv(w) && Enabled(w, a) && w.slot.lifecycle == RecycleFailed && a != Stop(JoinAndRelease)
    ensures SameQuarantine(w.slot, Apply(w, a).slot)
  {
    hide PhaseInv, LifecycleInv, ClaimsInv, StageInv, OwnerGenInv, RecyclersInv, PlaceInv, CallInv;
    hide CreateApply, StopApply, RecycleSlot, CallerApply, IterateSlot, ChainSlot;
    hide CreateEnabled, StopEnabled, RecycleEnabled, CallerEnabled, IterateEnabled, ChainEnabled;
    hide ChainTraffic, CreateTraffic, IterateTraffic, RecycleTraffic, StopTraffic, SubmitApply, PollerApply;
    match a
    case Create(c) => CreateRespectsQuarantine(w.slot, c);
    case Caller(c) => CallerStays(w.slot, c);
    case Stop(c) => StopRespectsQuarantine(w.slot, w.traffic, c);
    case Iterate(c) => IterateStays(w.slot, c);
    case Chain(c) => ChainStays(w.slot, c);
    case Recycle(c) => RecycleRespectsQuarantine(w.slot, w.traffic, w.hook, c);
    case _ =>
  }

  /** A quarantined slot stays quarantined, with its reason and its odd generation, until a
      destroy that joined its threads: no `tryClaim` succeeds before that. */
  lemma {:induction false} QuarantineLasts(ws: seq<World>, acts: seq<Action>, i: nat, j: nat)
    requires IsRun(ws, acts) && i <= j < |ws| && ws[i].slot.lifecycle == RecycleFailed
    requires forall k :: i <= k < j ==> acts[k] != Stop(JoinAndRelease)
    ensures ws[j].slot.lifecycle == RecycleFailed && ws[j].slot.failure == ws[i].slot.failure != NoFailure
    ensures ws[j].slot.generation == ws[i].slot.generation && ws[j].slot.generation % 2 == 1
    decreases j - i
  {
    hide Apply, Enabled, ClaimsInv, StageInv, OwnerGenInv, RecyclersInv, PlaceInv, CallInv, LoopHoldsInv, BankInv;
    RunKeepsInv(ws, acts, i);
    if i < j {
      QuarantineLasts(ws, acts, i, j - 1);
      RunKeepsInv(ws, acts, j - 1);
      QuarantineStep(ws[j - 1], acts[j - 1]);
    }
  }

  // ---------------------------------------------------------------------------------------
  // Tokens: a token names the claim it was issued under
  // ---------------------------------------------------------------------------------------

  predicate Resolves(s: Slot, claim: nat) {
    s.generation == claim
  }

  /** An issued token resolves exactly while its claim is live: not before the claim, not after
      it, and without a gap in between. */
  lemma TokenResolvesDuringItsClaim(ws: seq<World>, acts: seq<Action>, i: nat, j: nat, claim: nat)
    requires IsRun(ws, acts) && i <= j < |ws| && claim in ws[j].slot.issued
    ensures claim % 2 == 1 && claim in ws[j].slot.claims
    ensures Resolves(ws[j].slot, claim) <==> ws[j].slot.claims[claim].ending == Live
    ensures ws[i].slot.generation < claim ==> claim !in ws[i].slot.claims
    ensures Resolves(ws[i].slot, claim) ==> forall k :: i <= k <= j && Resolves(ws[j].slot, claim) ==>
          Resolves(ws[k].slot, claim)
    ensures ws[i].slot.generation > claim ==> !Resolves(ws[j].slot, claim)
  {
    hide Apply, Enabled, PlaceInv, CallInv, IsRun;
    RunKeepsInv(ws, acts, i);
    RunKeepsInv(ws, acts, j);
    RunIsOnward(ws, acts, i, j);
    forall k | i <= k <= j ensures ws[i].slot.generation <= ws[k].slot.generation <= ws[j].slot.generation {
      RunIsOnward(ws, acts, i, k);
      RunIsOnward(ws, acts, k, j);
    }
  }

  lemma TryClaimOpens(w: World, seen: nat)
    requires PhaseInv(w.slot) && Enabled(w, Create(TryClaim(seen)))
    requires Apply(w, Create(TryClaim(seen))).slot.generation != w.slot.generation
    ensures w.slot.phase == Free && seen == w.slot.generation && seen % 2 == 0
    ensures var s := Apply(w, Create(TryClaim(seen))).slot; s.generation == seen + 1 && seen + 1 in s.claims
  {
  }

  /** Each claim has its own generation and one holder: the `tryClaim` that opens a claim is
      the only one that ever does. */
  lemma ClaimOpensOnce(ws: seq<World>, acts: seq<Action>, i: nat, seen: nat)
    requires IsRun(ws, acts) && i < |acts| && acts[i] == Create(TryClaim(seen))
    requires ws[i + 1].slot.generation != ws[i].slot.generation
    ensures ws[i].slot.phase == Free && seen == ws[i].slot.generation && ws[i + 1].slot.generation == seen + 1
    ensures (seen + 1) % 2 == 1 && seen + 1 in ws[i + 1].slot.claims
    ensures forall k :: 0 <= k <= i ==> seen + 1 !in ws[k].slot.claims
  {
    hide Apply, Enabled, PlaceInv, CallInv, RefusalInv, LoopHoldsInv, BankInv, LifecycleInv, StageInv, OwnerGenInv,
          RecyclersInv, AbandonInv, TrafficOnward;
    RunKeepsInv(ws, acts, i);
    TryClaimOpens(ws[i], seen);
    forall k | 0 <= k <= i ensures seen + 1 !in ws[k].slot.claims {
      RunKeepsInv(ws, acts, k);
      RunIsOnward(ws, acts, k, i);
    }
  }
}

/** Where the requests of one context are, and who was told what about them.

    Every move of a request between the submitters, the ingress shards, the FFI thread and
    the host is one function on `Traffic`. The containers are multisets, so a request that
    were copied, lost or freed twice would show as a multiplicity other than one. */
module RequestTraffic {
  datatype Mode = CallbackMode | PollMode

  // `generation` is the stamp: the claim of the token it was submitted with.
  datatype Request = Request(id: nat, generation: nat)

  // `Refusal` tells the host, inside its own submit, that the request was never taken.
  datatype CallKind = Terminal | StaleWarn | Refusal

  // One invocation of a request's callback; `at` is the generation of the slot at that moment.
  datatype Call = Call(request: Request, kind: CallKind, at: nat)

  datatype Traffic = Traffic(
    nextId: nat,
    sawActive: set<Request>,        // submits between the lifecycle check and the generation check
    checked: set<Request>,          // submits between the generation check and the push
    refused: set<Request>,          // submits that were turned down and have yet to tell the callback
    accepted: multiset<Request>,    // pushed: `submit` answers ok
    ingress: multiset<Request>,     // in a shard of the request queue bank
    chain: multiset<Request>,       // spliced out, not yet looked at
    inFlight: multiset<Request>,    // a handler runs for it
    replies: multiset<Request>,     // answered, waiting for the poller
    held: multiset<Request>,        // the reply handed out last
    freed: multiset<Request>,
    answered: multiset<Request>,    // terminal answer given, to a callback or to the reply queue
    pending: set<Request>,          // requests whose future sits in the `pending` seq
    calls: multiset<Call>)          // every callback invocation so far

  const EMPTY_TRAFFIC := Traffic(0, {}, {}, {}, multiset{}, multiset{}, multiset{}, multiset{}, multiset{},
                                 multiset{}, multiset{}, multiset{}, {}, multiset{})

  function Copies(t: Traffic, r: Request): nat {
    t.ingress[r] + t.chain[r] + t.inFlight[r] + t.replies[r] + t.held[r] + t.freed[r]
  }

  // ---------------------------------------------------------------------------------------
  // Moves
  // ---------------------------------------------------------------------------------------

  // The end of a refused submit: in callback mode `send` has yet to call the host back.
  function TurnDown(t: Traffic, r: Request, mode: Mode): Traffic {
    if mode == CallbackMode then t.(refused := t.refused + {r}) else t
  }

  // `open` is what the checks before the generation check say.
  function BeginSubmit(t: Traffic, generation: nat, open: bool, mode: Mode): Traffic {
    var r, t' := Request(t.nextId, generation), t.(nextId := t.nextId + 1);
    if open then t'.(sawActive := t.sawActive + {r}) else TurnDown(t', r, mode)
  }

  function CheckGeneration(t: Traffic, r: Request, current: nat, mode: Mode): Traffic
    requires r in t.sawActive
  {
    if r.generation == current
    then t.(sawActive := t.sawActive - {r}, checked := t.checked + {r})
    else TurnDown(t.(sawActive := t.sawActive - {r}), r, mode)
  }

  // The bank refused the push (or the payload was too large): nothing was queued.
  function RefuseSubmit(t: Traffic, r: Request, mode: Mode): Traffic
    requires r in t.checked
  {
    TurnDown(t.(checked := t.checked - {r}), r, mode)
  }

  // `send` hands the refusal to the callback, on the thread of the submitter.
  function TellRefused(t: Traffic, r: Request, current: nat): Traffic {
    t.(refused := t.refused - {r}, calls := t.calls + multiset{Call(r, Refusal, current)})
  }

  function Push(t: Traffic, r: Request): Traffic
    requires r in t.checked
  {
    t.(checked := t.checked - {r}, accepted := t.accepted + multiset{r}, ingress := t.ingress + multiset{r})
  }

  function Splice(t: Traffic, part: multiset<Request>): Traffic
    requires part <= t.ingress
  {
    t.(ingress := t.ingress - part, chain := t.chain + part)
  }

  function Dispatch(t: Traffic, r: Request): Traffic
    requires r in t.chain
  {
    t.(chain := t.chain - multiset{r}, inFlight := t.inFlight + multiset{r}, pending := t.pending + {r})
  }

  function Drop(t: Traffic, r: Request): Traffic
    requires r in t.chain
  {
    t.(chain := t.chain - multiset{r}, freed := t.freed + multiset{r})
  }

  function Requeue(t: Traffic, r: Request): Traffic
    requires r in t.chain
  {
    t.(chain := t.chain - multiset{r}, ingress := t.ingress + multiset{r})
  }

  // `answerRequest` on a request already taken out of its container.
  function Answer(t: Traffic, r: Request, mode: Mode, current: nat): Traffic {
    match mode
    case PollMode => t.(answered := t.answered + multiset{r}, replies := t.replies + multiset{r})
    case CallbackMode =>
      if r in t.answered  // `responded` was set: the callback stays silent
      then t.(freed := t.freed + multiset{r})
      else t.(answered := t.answered + multiset{r}, freed := t.freed + multiset{r},
              calls := t.calls + multiset{Call(r, Terminal, current)})
  }

  function AnswerChained(t: Traffic, r: Request, mode: Mode, current: nat): Traffic
    requires r in t.chain
  {
    Answer(t.(chain := t.chain - multiset{r}), r, mode, current)
  }

  function AnswerInFlight(t: Traffic, r: Request, mode: Mode, current: nat): Traffic
    requires r in t.inFlight
  {
    Answer(t.(inFlight := t.inFlight - multiset{r}), r, mode, current)
  }

  function WarnStale(t: Traffic, r: Request, current: nat): Traffic
    requires r in t.inFlight
  {
    if r in t.answered then t else t.(calls := t.calls + multiset{Call(r, StaleWarn, current)})
  }

  predicate AllFinished(t: Traffic) {
    forall r :: r in t.pending ==> r !in t.inFlight
  }

  // `cleanFinishedRequests`
  function DropFinished(t: Traffic): Traffic {
    t.(pending := set r | r in t.pending && r in t.inFlight)
  }

  function ForgetPending(t: Traffic): Traffic {
    t.(pending := {})
  }

  function TakeReply(t: Traffic, r: Request): Traffic
    requires r in t.replies
  {
    t.(replies := t.replies - multiset{r}, held := t.held + multiset{r})
  }

  function ReleaseHeld(t: Traffic): Traffic {
    t.(held := multiset{}, freed := t.freed + t.held)
  }

  function DropReplies(t: Traffic): Traffic {
    t.(replies := multiset{}, freed := t.freed + t.replies)
  }

  function Deinit(t: Traffic): Traffic {
    t.(ingress := multiset{}, freed := t.freed + t.ingress)
  }

  // ---------------------------------------------------------------------------------------
  // Invariant
  // ---------------------------------------------------------------------------------------

  // Tokens are issued for claims only, so a stamp is odd and not from the future.
  predicate Stamp(r: Request, current: nat) {
    r.generation % 2 == 1 && r.generation <= current
  }

  ghost predicate Known(t: Traffic, current: nat) {
    && (forall r :: r in t.sawActive ==> r.id < t.nextId && r !in t.checked && r !in t.accepted && Stamp(r, current))
    && (forall r :: r in t.checked ==> r.id < t.nextId && r !in t.accepted && Stamp(r, current))
    && (forall r :: r in t.accepted ==> r.id < t.nextId && Stamp(r, current))
  }

  // Every accepted request is in exactly one place.
  ghost predicate Conserved(t: Traffic) {
    forall r :: Copies(t, r) == t.accepted[r] <= 1
  }

  // Answered at most once: whatever waits for the host is answered, and nothing else is unless freed.
  ghost predicate AnsweredOnce(t: Traffic) {
    forall r :: t.replies[r] + t.held[r] <= t.answered[r] <= t.replies[r] + t.held[r] + t.freed[r]
  }

  // Only a request of an ended claim is freed without an answer.
  ghost predicate UnansweredAreStale(t: Traffic, current: nat) {
    forall r :: r in t.freed && r !in t.answered ==> r.generation < current
  }

  ghost predicate HandlersTracked(t: Traffic, current: nat) {
    forall r :: r in t.inFlight ==> r in t.pending && r.generation == current
  }

  ghost predicate CallsInClaim(t: Traffic) {
    forall c :: c in t.calls && c.kind != Refusal ==> c.at == c.request.generation && c.request in t.accepted
  }

  // In callback mode the terminal callback is the answer; in poll mode no callback ever runs.
  ghost predicate CalledOnce(t: Traffic, mode: Mode) {
    forall r: Request :: t.calls[Call(r, Terminal, r.generation)] == if mode == CallbackMode then t.answered[r] else 0
  }

  // The submit of `r` is past its checks, and nothing was taken in.
  predicate NeverTaken(t: Traffic, r: Request) {
    r.id < t.nextId && r !in t.sawActive && r !in t.checked && r !in t.accepted
  }

  // A refusal is told at most once, of a request that was not taken and never will be.
  ghost predicate RefusalInv(t: Traffic, mode: Mode) {
    && (forall r :: r in t.refused ==> mode == CallbackMode && NeverTaken(t, r))
    && (forall c :: c in t.calls && c.kind == Refusal ==>
          t.calls[c] == 1 && NeverTaken(t, c.request) && c.request !in t.refused)
    && (forall c, d :: c in t.calls && d in t.calls && c.kind == d.kind == Refusal && c.request == d.request ==> c == d)
  }

  ghost predicate PlaceInv(t: Traffic, current: nat) {
    && Known(t, current)
    && Conserved(t)
    && AnsweredOnce(t)
    && UnansweredAreStale(t, current)
    && HandlersTracked(t, current)
  }

  ghost predicate CallInv(t: Traffic, mode: Mode) {
    && CallsInClaim(t)
    && CalledOnce(t, mode)
  }

  // ---------------------------------------------------------------------------------------
  // Every move keeps the invariant
  // ---------------------------------------------------------------------------------------

  // What the parts of the invariant say together about one request.
  lemma OnePlace(t: Traffic, current: nat, r: Request)
    requires PlaceInv(t, current)
    ensures Copies(t, r) == t.accepted[r] <= 1 && t.answered[r] <= 1
    ensures r in t.ingress || r in t.chain || r in t.inFlight ==> r !in t.answered && r in t.accepted
    ensures r in t.accepted ==> Stamp(r, current)
    ensures r in t.inFlight ==> r in t.pending && r.generation == current
  {
    assert Copies(t, r) == t.accepted[r];
  }

  // A move that answers nobody leaves what is said about callbacks alone.
  lemma CallsUntouched(t: Traffic, t': Traffic, mode: Mode)
    requires CallInv(t, mode) && t'.calls == t.calls && t'.answered == t.answered
    requires forall r :: r in t.accepted ==> r in t'.accepted
    ensures CallInv(t', mode)
  {
  }

  // A move within the containers: nothing is accepted, answered or freed.
  lemma MovedInside(t: Traffic, t': Traffic, current: nat)
    requires PlaceInv(t, current)
    requires t'.nextId == t.nextId && t'.sawActive <= t.sawActive && t'.checked <= t.checked
    requires t'.accepted == t.accepted
    requires t'.freed == t.freed && t'.answered == t.answered && t'.pending >= t.pending
    requires forall r :: t'.replies[r] + t'.held[r] == t.replies[r] + t.held[r]
    requires forall r :: t'.ingress[r] + t'.chain[r] + t'.inFlight[r] == t.ingress[r] + t.chain[r] + t.inFlight[r]
    requires forall r :: r in t'.inFlight ==> r in t.inFlight || (r in t'.pending && r.generation == current)
    ensures PlaceInv(t', current)
  {
    forall r ensures Copies(t', r) == t'.accepted[r] <= 1 {
      assert Copies(t, r) == t.accepted[r] <= 1;
    }
  }

  // `t'` differs from `t` in nothing that a submitter does.
  ghost predicate SameSubmits(t: Traffic, t': Traffic) {
    && t'.refused == t.refused && t'.nextId == t.nextId
    && t'.sawActive == t.sawActive && t'.checked == t.checked && t'.accepted == t.accepted
    && forall c: Call :: c.kind == Refusal ==> t'.calls[c] == t.calls[c]
  }

  // A move that refuses nobody and tells nobody leaves the refusals alone.
  lemma RefusalsUntouched(t: Traffic, t': Traffic, mode: Mode)
    requires RefusalInv(t, mode) && SameSubmits(t, t')
    ensures RefusalInv(t', mode)
  {
    assert forall c: Call :: c.kind == Refusal ==> (c in t'.calls <==> c in t.calls);
  }

  lemma AnswerKeepsSubmits(t: Traffic, u: Traffic, r: Request, mode: Mode, current: nat)
    requires u == t.(chain := u.chain, inFlight := u.inFlight)
    ensures SameSubmits(t, Answer(u, r, mode, current))
  {
    var t' := Answer(u, r, mode, current);
    assert t'.calls == u.calls || t'.calls == u.calls + multiset{Call(r, Terminal, current)};
    forall c: Call | c.kind == Refusal ensures t'.calls[c] == u.calls[c] {
      assert c != Call(r, Terminal, current);
    }
  }

  lemma EmptyTraffic(current: nat, mode: Mode)
    ensures PlaceInv(EMPTY_TRAFFIC, current) && CallInv(EMPTY_TRAFFIC, mode)
  {
    assert forall r :: Copies(EMPTY_TRAFFIC, r) == 0;
  }

  lemma EmptyRefusals(mode: Mode)
    ensures RefusalInv(EMPTY_TRAFFIC, mode)
  {
  }

  // A submit that gets further: who was turned down stays so.
  lemma SubmitsGoOn(t: Traffic, t': Traffic, mode: Mode)
    requires RefusalInv(t, mode) && t'.refused == t.refused && t'.calls == t.calls
    requires forall q :: NeverTaken(t, q) ==> NeverTaken(t', q)
    ensures RefusalInv(t', mode)
  {
  }

  lemma TurnDownKeepsRefusals(t: Traffic, u: Traffic, r: Request, mode: Mode)
    requires RefusalInv(t, mode) && u.refused == t.refused && u.calls == t.calls
    requires !NeverTaken(t, r) && NeverTaken(u, r)
    requires forall q :: NeverTaken(t, q) ==> NeverTaken(u, q)
    ensures RefusalInv(TurnDown(u, r, mode), mode)
  {
    assert forall q :: NeverTaken(TurnDown(u, r, mode), q) == NeverTaken(u, q);
    hide NeverTaken;
  }

  lemma TellKeepsRefusals(t: Traffic, r: Request, mode: Mode, current: nat)
    requires RefusalInv(t, mode) && r in t.refused
    ensures RefusalInv(TellRefused(t, r, current), mode)
  {
    var t' := TellRefused(t, r, current);
    assert forall q :: NeverTaken(t', q) == NeverTaken(t, q);
    hide NeverTaken;
    assert forall c :: c in t'.calls ==> c in t.calls || c == Call(r, Refusal, current);
  }

  lemma SubmitKeepsInv(t: Traffic, current: nat, generation: nat, open: bool, mode: Mode)
    requires PlaceInv(t, current) && generation <= current && generation % 2 == 1
    ensures PlaceInv(BeginSubmit(t, generation, open, mode), current)
  {
    var t' := BeginSubmit(t, generation, open, mode);
    assert forall r :: Copies(t', r) == Copies(t, r);
  }

  lemma CheckKeepsInv(t: Traffic, current: nat, r: Request, mode: Mode)
    requires PlaceInv(t, current) && r in t.sawActive
    ensures PlaceInv(CheckGeneration(t, r, current, mode), current)
  {
    var t' := CheckGeneration(t, r, current, mode);
    assert forall q :: Copies(t', q) == Copies(t, q);
    assert Known(t', current) by {
      assert forall q :: q in t'.checked ==> q in t.checked || q == r;
    }
  }

  lemma PushKeepsInv(t: Traffic, current: nat, r: Request)
    requires PlaceInv(t, current) && r in t.checked
    ensures PlaceInv(Push(t, r), current)
  {
    var t' := Push(t, r);
    forall q ensures Copies(t', q) == t'.accepted[q] <= 1 {
      assert Copies(t, q) == t.accepted[q] <= 1;
    }
  }

  // `u` is `t` with the request `r` taken out of the chain or out of the in-flight set.
  ghost predicate TakenOut(t: Traffic, u: Traffic, r: Request) {
    && u == t.(chain := u.chain, inFlight := u.inFlight)
    && (r in t.chain || r in t.inFlight)
    && (forall q :: u.inFlight[q] <= t.inFlight[q])
    && (forall q :: u.chain[q] + u.inFlight[q] + (if q == r then 1 else 0) == t.chain[q] + t.inFlight[q])
  }

  // A request leaves the FFI thread for good: freed, with an answer unless its claim is over.
  lemma FreedKeepsInv(t: Traffic, t': Traffic, current: nat, r: Request)
    requires PlaceInv(t, current)
    requires TakenOut(t, t'.(answered := t.answered, freed := t.freed, calls := t.calls), r)
    requires t'.freed == t.freed + multiset{r}
    requires t'.answered == t.answered + multiset{r} || (t'.answered == t.answered && r.generation < current)
    ensures PlaceInv(t', current)
  {
    OnePlace(t, current, r);
    forall q ensures Copies(t', q) == t'.accepted[q] <= 1 {
      assert Copies(t, q) == t.accepted[q] <= 1;
    }
  }

  lemma PolledAnswerKeepsInv(t: Traffic, u: Traffic, current: nat, r: Request)
    requires PlaceInv(t, current) && CallInv(t, PollMode) && TakenOut(t, u, r)
    ensures PlaceInv(Answer(u, r, PollMode, current), current) && CallInv(Answer(u, r, PollMode, current), PollMode)
  {
    var t' := Answer(u, r, PollMode, current);
    OnePlace(t, current, r);
    forall q ensures Copies(t', q) == t'.accepted[q] <= 1 {
      assert Copies(t, q) == t.accepted[q] <= 1;
    }
  }

  lemma CallRecorded(t: Traffic, t': Traffic, current: nat, r: Request)
    requires CallInv(t, CallbackMode)
    requires r.generation == current && r in t.accepted
    requires t'.accepted == t.accepted && t'.answered == t.answered + multiset{r}
    requires t'.calls == t.calls + multiset{Call(r, Terminal, current)}
    ensures CallInv(t', CallbackMode)
  {
  }

  lemma AnswerKeepsInv(t: Traffic, u: Traffic, mode: Mode, current: nat, r: Request)
    requires PlaceInv(t, current) && CallInv(t, mode) && TakenOut(t, u, r) && r.generation == current
    ensures PlaceInv(Answer(u, r, mode, current), current) && CallInv(Answer(u, r, mode, current), mode)
  {
    match mode
    case PollMode => PolledAnswerKeepsInv(t, u, current, r);
    case CallbackMode =>
      var t' := Answer(u, r, CallbackMode, current);
      OnePlace(t, current, r);
      FreedKeepsInv(t, t', current, r);
      CallRecorded(t, t', current, r);
  }

  lemma WarnStaleKeepsInv(t: Traffic, current: nat, r: Request)
    requires PlaceInv(t, current) && CallInv(t, CallbackMode) && r in t.inFlight
    ensures PlaceInv(WarnStale(t, r, current), current) && CallInv(WarnStale(t, r, current), CallbackMode)
  {
    var t' := WarnStale(t, r, current);
    OnePlace(t, current, r);
    MovedInside(t, t', current);
  }

  // The host is done with some of what it was handed (or will never be handed).
  lemma CollectedKeepsInv(t: Traffic, t': Traffic, current: nat)
    requires PlaceInv(t, current) && (t' == ReleaseHeld(t) || t' == DropReplies(t))
    ensures PlaceInv(t', current)
  {
    forall r ensures Copies(t', r) == t'.accepted[r] <= 1 {
      assert Copies(t, r) == t.accepted[r] <= 1;
    }
  }

  lemma SpliceKeepsInv(t: Traffic, mode: Mode, current: nat, part: multiset<Request>)
    requires PlaceInv(t, current) && CallInv(t, mode) && part <= t.ingress
    ensures PlaceInv(Splice(t, part), current) && CallInv(Splice(t, part), mode)
  {
    assert forall r :: part[r] <= t.ingress[r];
    MovedInside(t, Splice(t, part), current);
    CallsUntouched(t, Splice(t, part), mode);
  }

  lemma RequeueKeepsInv(t: Traffic, mode: Mode, current: nat, r: Request)
    requires PlaceInv(t, current) && CallInv(t, mode) && r in t.chain
    ensures PlaceInv(Requeue(t, r), current) && CallInv(Requeue(t, r), mode)
  {
    MovedInside(t, Requeue(t, r), current);
    CallsUntouched(t, Requeue(t, r), mode);
  }

  lemma DispatchKeepsInv(t: Traffic, mode: Mode, current: nat, r: Request)
    requires PlaceInv(t, current) && CallInv(t, mode) && r in t.chain && r.generation == current
    ensures PlaceInv(Dispatch(t, r), current) && CallInv(Dispatch(t, r), mode)
  {
    MovedInside(t, Dispatch(t, r), current);
    CallsUntouched(t, Dispatch(t, r), mode);
  }

  lemma DropKeepsInv(t: Traffic, mode: Mode, current: nat, r: Request)
    requires PlaceInv(t, current) && CallInv(t, mode) && r in t.chain && r.generation < current
    ensures PlaceInv(Drop(t, r), current) && CallInv(Drop(t, r), mode)
  {
    FreedKeepsInv(t, Drop(t, r), current, r);
    CallsUntouched(t, Drop(t, r), mode);
  }

  lemma TakeReplyKeepsInv(t: Traffic, mode: Mode, current: nat, r: Request)
    requires PlaceInv(t, current) && CallInv(t, mode) && r in t.replies
    ensures PlaceInv(TakeReply(t, r), current) && CallInv(TakeReply(t, r), mode)
  {
    MovedInside(t, TakeReply(t, r), current);
    CallsUntouched(t, TakeReply(t, r), mode);
  }

  // Futures are forgotten only once their handlers are done.
  lemma ForgetKeepsInv(t: Traffic, t': Traffic, current: nat)
    requires PlaceInv(t, current) && t' == t.(pending := t'.pending)
    requires forall r :: r in t.pending && r in t.inFlight ==> r in t'.pending
    ensures PlaceInv(t', current)
  {
    assert forall r :: Copies(t', r) == Copies(t, r);
  }

  // The generation moves on only between handlers.
  lemma NextGenerationKeepsInv(t: Traffic, current: nat, next: nat)
    requires PlaceInv(t, current) && t.inFlight == multiset{} && current < next
    ensures PlaceInv(t, next)
  {
  }

  // A full destroy frees what is still queued and ends the claim in one go.
  lemma DeinitKeepsInv(t: Traffic, current: nat, next: nat)
    requires PlaceInv(t, current) && t.inFlight == multiset{} && current < next
    ensures PlaceInv(Deinit(t), next)
  {
    var t' := Deinit(t);
    forall r ensures Copies(t', r) == t'.accepted[r] <= 1 {
      assert Copies(t, r) == t.accepted[r] <= 1;
    }
  }
}

/** `FFIOutbound` over its whole life: every call of its methods is a step of `PollOrder`, so what is
    proved there of runs holds of the queues as they are rewritten in place. */
module OutboundRuns {
  import opened Wrappers
  import opened RequestQueues
  import opened Outbound
  import P = PollOrder
  import H = PollHistory

  // A run of `PollOrder` so far, through all the owners of the outbound.
  datatype Run = Run(boxes: seq<P.Outbox>, steps: seq<P.Action>)

  ghost predicate IsRun(run: Run) {
    run.boxes != [] && P.IsRun(run.boxes, run.steps)
  }

  ghost function Now(run: Run): P.Outbox
    requires run.boxes != []
  {
    run.boxes[|run.boxes| - 1]
  }

  // `longer` goes on from `run` by these steps.
  ghost predicate Extends(run: Run, longer: Run, steps: seq<P.Action>) {
    run.boxes <= longer.boxes && longer.steps == run.steps + steps
  }

  ghost function Then(run: Run, a: P.Action): (longer: Run)
    requires IsRun(run) && P.Enabled(Now(run), a)
    ensures IsRun(longer) && Now(longer) == P.Apply(Now(run), a) && Extends(run, longer, [a])
  {
    hide P.Apply, P.Enabled;
    Run(run.boxes + [P.Apply(Now(run), a)], run.steps + [a])
  }

  predicate Open(o: P.Outbox, id: nat) {
    id in o.waiting || id in o.running
  }

  // A request is answered once it is in the reply queue or held, and not before.
  ghost predicate AnsweredOnly(o: P.Outbox, requests: set<FFIThreadRequest>, replies: seq<FFIThreadRequest>,
                               held: FFIThreadRequest?)
  {
    forall r :: r in requests ==> (Open(o, r.id) <==> r !in replies && r != held)
  }

  // The run ends in what the queues hold.
  ghost predicate Follows(outb: FFIOutbound, run: Run)
    reads outb, outb.replyQueue, outb.staleQueue, outb.ReplyLinks(), outb.StaleLinks(), outb.requests
  {
    && outb.Valid() && IsRun(run) && Now(run).box == outb.Abs() && Now(run).nextId == outb.reqIdSeq
    && AnsweredOnly(Now(run), outb.requests, outb.replyQueue.contents, outb.heldReply)
  }

  // The first owner finds it empty.
  method Opened(maxOutstanding: nat) returns (outb: FFIOutbound, ghost run: Run)
    ensures Follows(outb, run) && fresh(outb)
  {
    outb := new FFIOutbound(maxOutstanding);
    run := Run([P.START], []);
  }

  lemma Outsider(outb: FFIOutbound, request: FFIThreadRequest)
    requires outb.Valid() && request !in outb.requests
    ensures request !in outb.replyQueue.contents && request != outb.heldReply
  {
  }

  // Live requests have ids of their own, handed out before.
  lemma IdsOf(outb: FFIOutbound, request: FFIThreadRequest)
    requires outb.Valid()
    ensures outb.replyQueue != outb.staleQueue
    ensures forall r :: r in outb.requests ==> r.id < outb.reqIdSeq
    ensures request in outb.requests ==> forall r :: r in outb.requests && r != request ==> r.id != request.id
  {
  }

  method Submit(outb: FFIOutbound, request: FFIThreadRequest, ghost run: Run) returns (ok: bool, ghost run': Run)
    requires Follows(outb, run) && Separate(outb.requests + {request}) && request !in outb.requests
    requires request !in outb.freed && !request.reply.queued && !request.stale.queued && request.id == outb.reqIdSeq
    modifies outb
    ensures Follows(outb, run') && Extends(run, run', if ok then [P.Submit] else [])
    ensures ok ==> request in outb.requests && request.id in Now(run').waiting
    ensures ok <==> |old(outb.requests)| < outb.maxOutstanding
  {
    hide Separate, P.IsRun;
    Outsider(outb, request);
    IdsOf(outb, request);
    hide FFIOutbound.Valid;
    ok := outb.Admit(request);
    run' := if ok then Then(run, P.Submit) else run;
  }

  // A handler is started for the request.
  lemma Dispatch(outb: FFIOutbound, request: FFIThreadRequest, run: Run) returns (run': Run)
    requires Follows(outb, run) && request.id in Now(run).waiting
    ensures Follows(outb, run') && Extends(run, run', [P.Start(request.id)]) && request.id in Now(run').running
  {
    hide P.IsRun, FFIOutbound.Valid;
    run' := Then(run, P.Start(request.id));
  }

  lemma OpenIsAnswerable(o: P.Outbox, requests: set<FFIThreadRequest>, replies: seq<FFIThreadRequest>,
                         held: FFIThreadRequest?, request: FFIThreadRequest, elapsedMs: int)
    requires AnsweredOnly(o, requests, replies, held) && request in requests && Open(o, request.id)
    ensures request !in replies && request != held
    ensures AnsweredOnly(P.Apply(o, P.Warn(request.id, elapsedMs)), requests, replies, held)
  {
  }

  predicate Shows(report: P.Report, id: nat, elapsedMs: int) {
    report.id == id && report.elapsedMs == elapsedMs
  }

  lemma WarnShown(run: Run, id: nat, elapsedMs: int) returns (k: nat)
    requires IsRun(run)
    ensures var stales := P.EnqueueStaleWarn(Now(run).box, id, elapsedMs).stales;
            k < |stales| && Shows(stales[k], id, elapsedMs)
  {
    hide P.EnqueueStaleWarn;
    InRun(run);
    k := H.WarnShows(Now(run), id, elapsedMs);
  }

  method Warn(outb: FFIOutbound, request: FFIThreadRequest, elapsedMs: int, ghost run: Run) returns (ghost run': Run)
    requires Follows(outb, run) && request in outb.requests && request.id in Now(run).running
    modifies outb, outb.staleQueue, outb.StaleLinks(), request
    ensures Follows(outb, run') && Extends(run, run', [P.Warn(request.id, elapsedMs)])
    ensures exists k :: 0 <= k < |outb.Abs().stales| && Shows(outb.Abs().stales[k], request.id, elapsedMs)
  {
    ghost var k := WarnShown(run, request.id, elapsedMs);
    IdsOf(outb, request);
    OpenIsAnswerable(Now(run), outb.requests, outb.replyQueue.contents, outb.heldReply, request, elapsedMs);
    hide FFIOutbound.Valid, P.IsRun, P.EnqueueStaleWarn, AnsweredOnly;
    run' := Then(run, P.Warn(request.id, elapsedMs));
    outb.EnqueueStaleWarn(request, elapsedMs);
  }

  lemma AnswerCloses(o: P.Outbox, requests: set<FFIThreadRequest>, replies: seq<FFIThreadRequest>,
                     held: FFIThreadRequest?, request: FFIThreadRequest)
    requires AnsweredOnly(o, requests, replies, held) && request in requests && Open(o, request.id)
    requires forall r :: r in requests && r != request ==> r.id != request.id
    ensures request !in replies && request != held
    ensures AnsweredOnly(P.Apply(o, P.Answer(request.id)), requests, replies + [request], held)
  {
  }

  // `enqueueReply`, for a request that was dispatched or for one that is rejected.
  method Answer(outb: FFIOutbound, request: FFIThreadRequest, ghost run: Run) returns (ghost run': Run)
    requires Follows(outb, run) && request in outb.requests && Open(Now(run), request.id)
    modifies outb, outb.replyQueue, outb.staleQueue, outb.ReplyLinks(), outb.StaleLinks()
    ensures Follows(outb, run') && Extends(run, run', [P.Answer(request.id)]) && !Open(Now(run'), request.id)
  {
    IdsOf(outb, request);
    AnswerCloses(Now(run), outb.requests, outb.replyQueue.contents, outb.heldReply, request);
    hide FFIOutbound.Valid, P.IsRun, P.EnqueueReply, AnsweredOnly;
    run' := Then(run, P.Answer(request.id));
    outb.EnqueueReply(request);
  }

  // An event is enqueued, or refused by a full ring.
  method Emit(outb: FFIOutbound, full: bool, ghost run: Run) returns (ghost run': Run)
    requires Follows(outb, run)
    modifies outb`msgSeq, outb`events
    ensures Follows(outb, run') && Extends(run, run', [P.Emit(full)])
  {
    hide FFIOutbound.Valid, P.IsRun;
    run' := Then(run, P.Emit(full));
    var ticket := outb.PushEvent(full);
  }

  // A closing or liveness message takes a ticket of its own.
  method SpendTicket(outb: FFIOutbound, ghost run: Run) returns (ticket: nat, ghost run': Run)
    requires Follows(outb, run)
    modifies outb`msgSeq, outb`events
    ensures Follows(outb, run') && Extends(run, run', [P.SpendTicket]) && ticket == old(outb.msgSeq)
  {
    hide FFIOutbound.Valid, P.IsRun;
    run' := Then(run, P.SpendTicket);
    ticket := outb.PushEvent(true);
  }

  method Release(outb: FFIOutbound, ghost run: Run)
    requires Follows(outb, run)
    modifies outb`requests, outb`outstanding, outb`freed, outb`heldReply
    ensures Follows(outb, run) && outb.heldReply == null
    ensures outb.ReplyLinks() <= old(outb.ReplyLinks()) && outb.StaleLinks() <= old(outb.StaleLinks())
  {
    hide FFIOutbound.Valid, P.IsRun;
    outb.ReleaseHeld();
  }

  /** The poller is done with what it held and is handed the next message of the run. */
  method Take(outb: FFIOutbound, ghost run: Run) returns (m: Option<P.Message>, ghost run': Run)
    requires Follows(outb, run)
    modifies outb, outb.replyQueue, outb.staleQueue, outb.ReplyLinks(), outb.StaleLinks()
    ensures Follows(outb, run') && Extends(run, run', [P.Take])
    ensures Now(run').delivered == Now(run).delivered + if m.Some? then [m.value] else []
  {
    hide FFIOutbound.Valid, P.IsRun, P.TakeMessage;
    Release(outb, run);
    run' := Then(run, P.Take);
    m := outb.TakeMessage();
  }

  lemma InRun(run: Run)
    requires IsRun(run)
    ensures P.Inv(Now(run)) && P.Accounted(Now(run))
    ensures Now(run).running == {} ==> Now(run).box.stales == []
  {
    hide P.Inv, P.Accounted;
    P.RunKeepsInv(run.boxes, run.steps, |run.boxes| - 1);
    P.NoStaleAfterReply(run.boxes, run.steps, |run.boxes| - 1);
  }

  lemma NoReports(outb: FFIOutbound)
    requires outb.Valid() && outb.Abs().stales == []
    ensures outb.staleQueue.contents == []
  {
  }

  /** The host has been handed its messages in ticket order, and none of them twice. */
  lemma HandedOutInOrder(outb: FFIOutbound, run: Run, i: nat, j: nat)
    requires Follows(outb, run) && i < j < |Now(run).delivered|
    ensures Now(run).delivered[i].seqNum < Now(run).delivered[j].seqNum < outb.msgSeq
  {
    hide FFIOutbound.Valid, P.IsRun;
    InRun(run);
  }

  // A request that will not be answered is freed: the bank was full, or its owner is gone.
  method Discard(outb: FFIOutbound, request: FFIThreadRequest, ghost run: Run) returns (ghost run': Run)
    requires Follows(outb, run) && request in outb.requests && request.id in Now(run).waiting
    modifies outb`requests, outb`outstanding, outb`freed
    ensures Follows(outb, run') && Extends(run, run', [P.Discard(request.id)]) && request !in outb.requests
  {
    InRun(run);
    NotReported(outb, run, request);
    IdsOf(outb, request);
    hide FFIOutbound.Valid, P.IsRun;
    run' := Then(run, P.Discard(request.id));
    outb.DeleteRequest(request);
    StillValid(outb);
  }

  lemma NotReported(outb: FFIOutbound, run: Run, request: FFIThreadRequest)
    requires Follows(outb, run) && P.Inv(Now(run)) && request in outb.requests && request.id in Now(run).waiting
    ensures outb.Orderly() && outb.FlagsTrue()
    ensures request !in outb.staleQueue.contents && request !in outb.replyQueue.contents && request != outb.heldReply
  {
    assert forall i :: 0 <= i < |outb.stales| ==>
          outb.stales[i].id == outb.staleQueue.contents[i].id && outb.stales[i].id in Now(run).running;
  }

  lemma StillValid(outb: FFIOutbound)
    requires outb.Orderly() && outb.FlagsTrue()
    ensures outb.Valid()
  {
  }

  /** The end of a claim. After its drain nothing is in the stale queue, so dropping what the host
      never collected frees every queued reply and leaves the queues as they should be for the next
      owner, whose messages are the same run further on. */
  method DropAfterDrain(outb: FFIOutbound, ghost run: Run) returns (ghost run': Run)
    requires Follows(outb, run) && Now(run).running == {}
    modifies outb, outb.replyQueue, outb.staleQueue
    ensures Follows(outb, run') && Extends(run, run', [P.Drop])
    ensures outb.Abs() == old(outb.Abs()).(replies := [], events := [])
    ensures outb.freed == old(outb.freed) + old(outb.replyQueue.contents)
  {
    InRun(run);
    NoReports(outb);
    hide FFIOutbound.Valid, P.IsRun;
    run' := Then(run, P.Drop);
    outb.DropQueuedMessages();
  }
}

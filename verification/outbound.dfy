/** `FFIOutbound`: the two request queues, the ticket counter and what the poller does with
    them. Each method does in place what `PollOrder` says on values. */
module Outbound {
  import opened Wrappers
  import opened RequestQueues
  import P = PollOrder

  // A queue of requests and the list of reports it stands for, entry by entry.
  ghost predicate Aligned(rs: seq<FFIThreadRequest>, reports: seq<P.Report>)
    reads rs, set r | r in rs :: r.stale
  {
    && |rs| == |reports|
    && forall i :: 0 <= i < |rs| ==> reports[i] == P.Report(rs[i].id, rs[i].stale.seqNum, rs[i].staleElapsedMs)
  }

  // A chain of answered requests, to its end.
  ghost predicate Chained(rs: seq<FFIThreadRequest>)
    reads set r | r in rs :: r.reply
  {
    && (forall i :: 0 <= i < |rs| - 1 ==> rs[i].reply.next == rs[i + 1])
    && (rs != [] ==> rs[|rs| - 1].reply.next == null)
  }

  // Cutting a request out of the queue cuts out its report, at the same place.
  lemma AlignedWithout(rs: seq<FFIThreadRequest>, reports: seq<P.Report>, r: FFIThreadRequest)
    requires Aligned(rs, reports)
    requires forall q :: q in rs && q != r ==> q.id != r.id
    ensures Aligned(Without(rs, r), P.DropReport(reports, r.id))
  {
    if rs != [] && rs[0] != r {
      AlignedWithout(rs[1..], reports[1..], r);
    }
  }

  lemma ElapsedEverywhere(s: seq<P.Report>, id: nat, ms: int)
    requires forall i, j :: 0 <= i < j < |s| ==> s[i].id != s[j].id
    ensures var s' := P.SetElapsed(s, id, ms);
            |s'| == |s| && forall i :: 0 <= i < |s| ==> s'[i] == if s[i].id == id then s[i].(elapsedMs := ms) else s[i]
  {
    P.SetElapsedShape(s, id, ms);
    forall i | 0 <= i < |s|
      ensures P.SetElapsed(s, id, ms)[i] == if s[i].id == id then s[i].(elapsedMs := ms) else s[i]
    {
      P.SetElapsedOverwrites(s, id, ms, i);
    }
  }

  lemma WithoutKeepsOthers<T>(s: seq<T>, x: T)
    ensures forall y :: y in s && y != x ==> y in Without(s, x)
    ensures forall y :: y in Without(s, x) ==> y in s
  {
  }

  lemma OwnLinks(rs: set<FFIThreadRequest>, r: FFIThreadRequest)
    requires Separate(rs) && r in rs
    ensures forall q :: q in rs && q != r ==> q.id != r.id && q.reply != r.reply && q.stale != r.stale
  {
  }

  // The links of a queue belong to the requests in it, and to no other.
  lemma LinksNameRequests(rs: set<FFIThreadRequest>, queue: RequestQueue)
    requires Separate(rs) && forall r :: r in queue.contents ==> r in rs
    ensures forall q :: q in rs && q !in queue.contents ==> Link(q, queue.kind) !in queue.Links()
  {
    forall q | q in rs && q !in queue.contents
      ensures Link(q, queue.kind) !in queue.Links()
    {
      OwnLinks(rs, q);
    }
  }

  class FFIOutbound {
    const replyQueue: RequestQueue
    const staleQueue: RequestQueue
    const maxOutstanding: nat
    var msgSeq: nat
    var events: seq<nat>                        // tickets of the events in the ring
    var queueLive: bool
    var reqIdSeq: nat
    var outstanding: int
    var heldReply: FFIThreadRequest?            // what the host polled last
    ghost var requests: set<FFIThreadRequest>   // submitted and not freed
    ghost var freed: seq<FFIThreadRequest>
    ghost var replies: seq<P.Ticket>
    ghost var stales: seq<P.Report>

    ghost function ReplyLinks(): set<QueueLink>
      reads this`requests
    {
      set r | r in requests :: r.reply
    }

    ghost function StaleLinks(): set<QueueLink>
      reads this`requests
    {
      set r | r in requests :: r.stale
    }

    ghost predicate RepliesValid()
      reads this`requests, this`replies, replyQueue, ReplyLinks()
    {
      && replyQueue.kind == ReplyLink
      && (forall r :: r in replyQueue.contents ==> r in requests)
      && replyQueue.Links() <= ReplyLinks() && replyQueue.Valid()
      && |replies| == |replyQueue.contents|
      && (forall i :: 0 <= i < |replies| ==>
            replies[i] == P.Ticket(replyQueue.contents[i].id, replyQueue.contents[i].reply.seqNum))
    }

    ghost predicate StalesValid()
      reads this`requests, this`stales, staleQueue, StaleLinks(), requests
    {
      && staleQueue.kind == StaleLink
      && (forall r :: r in staleQueue.contents ==> r in requests)
      && staleQueue.Links() <= StaleLinks() && staleQueue.Valid()
      && Aligned(staleQueue.contents, stales)
    }

    // Whoever is flagged is in the queue.
    ghost predicate FlagsTrue()
      reads this`requests, staleQueue, StaleLinks()
    {
      forall r :: r in requests && r.stale.queued ==> r in staleQueue.contents
    }

    ghost predicate Valid()
      reads this`requests, this`replies, this`stales, this`heldReply, this`outstanding, this`reqIdSeq, this`freed,
            replyQueue, staleQueue, ReplyLinks(), StaleLinks(), requests
    {
      Orderly() && FlagsTrue()
    }

    // All of it but the flags.
    ghost predicate Orderly()
      reads this`requests, this`replies, this`stales, this`heldReply, this`outstanding, this`reqIdSeq, this`freed,
            replyQueue, staleQueue, ReplyLinks(), StaleLinks(), requests
    {
      && Separate(requests) && replyQueue != staleQueue
      && RepliesValid() && StalesValid()
      && AnsweredAreQuiet() && Counted()
    }

    // Every request counted in is still alive, under an id that was handed out.
    ghost predicate Counted()
      reads this`requests, this`outstanding, this`reqIdSeq, this`freed
    {
      && outstanding == |requests|
      && (forall r :: r in requests ==> r.id < reqIdSeq && r !in freed)
    }

    // An answered request is in no stale list, and what the host holds is in no list at all.
    ghost predicate AnsweredAreQuiet()
      reads this`requests, this`heldReply, replyQueue, staleQueue
    {
      && (forall r :: r in replyQueue.contents ==> r !in staleQueue.contents)
      && (heldReply != null ==>
          heldReply in requests && heldReply !in replyQueue.contents && heldReply !in staleQueue.contents)
    }

    ghost function Abs(): P.Box
      reads this
    {
      P.Box(msgSeq, replies, stales, events, queueLive)
    }

    constructor (maxOutstanding: nat)
      ensures Valid() && this.maxOutstanding == maxOutstanding && Abs() == P.START.box && requests == {} && freed == []
      ensures heldReply == null && reqIdSeq == P.START.nextId && replyQueue.contents == []
      ensures fresh(replyQueue) && fresh(staleQueue)
    {
      this.maxOutstanding := maxOutstanding;
      replyQueue := new RequestQueue(ReplyLink);
      staleQueue := new RequestQueue(StaleLink);
      msgSeq, reqIdSeq, events, queueLive := 1, 1, [], true;
      outstanding, heldReply := 0, null;
      requests, freed, replies, stales := {}, [], [], [];
    }

    lemma ReportsDistinct()
      requires Separate(requests) && StalesValid()
      ensures forall i, j :: 0 <= i < j < |stales| ==> stales[i].id != stales[j].id
    {
    }

    lemma LinksApart()
      requires Separate(requests)
      ensures ReplyLinks() !! StaleLinks()
    {
    }

    method NextSeq() returns (ticket: nat)
      modifies this`msgSeq
      ensures ticket == old(msgSeq) && msgSeq == ticket + 1
    {
      ticket := msgSeq;
      msgSeq := msgSeq + 1;
    }

    method UnlinkStale(request: FFIThreadRequest)
      requires Separate(requests) && StalesValid() && FlagsTrue() && request in requests
      modifies this`stales, staleQueue, StaleLinks()
      ensures staleQueue.contents == Without(old(staleQueue.contents), request) && request !in staleQueue.contents
      ensures FlagsTrue() && StalesValid() && stales == P.DropReport(old(stales), request.id)
    {
      hide Separate;
      OwnLinks(requests, request);
      LinksNameRequests(requests, staleQueue);
      ghost var before, reports := staleQueue.contents, stales;
      stales := P.DropReport(reports, request.id);
      hide Without, P.DropReport, RequestQueue.Valid;
      staleQueue.Unlink(request);
      assert Aligned(before, reports);
      AlignedWithout(before, reports, request);
      hide Aligned;
      WithoutKeepsOthers(before, request);
    }

    method PushReply(request: FFIThreadRequest, ticket: nat)
      requires Separate(requests) && RepliesValid() && request in requests && request !in replyQueue.contents
      modifies this`replies, replyQueue, ReplyLinks()
      ensures RepliesValid() && replies == old(replies) + [P.Ticket(request.id, ticket)]
      ensures replyQueue.contents == old(replyQueue.contents) + [request]
    {
      replyQueue.Push(request, ticket);
      replies := replies + [P.Ticket(request.id, ticket)];
    }

    /** The report of the same request is taken back; the reply goes last. */
    method EnqueueReply(request: FFIThreadRequest)
      requires Valid() && request in requests && request !in replyQueue.contents && request != heldReply
      modifies this`msgSeq, this`replies, this`stales, replyQueue, staleQueue, ReplyLinks(), StaleLinks()
      ensures Valid() && Abs() == P.EnqueueReply(old(Abs()), request.id)
      ensures replyQueue.contents == old(replyQueue.contents) + [request]
    {
      hide Separate, RepliesValid, StalesValid, FlagsTrue, Counted;
      LinksApart();
      WithoutKeepsOthers(staleQueue.contents, request);
      hide Without;
      UnlinkStale(request);
      var ticket := NextSeq();
      PushReply(request, ticket);
    }

    // The figure is overwritten in place; it shows in the queued report, if there is one.
    method SetFigure(request: FFIThreadRequest, elapsedMs: int)
      requires Separate(requests) && StalesValid() && FlagsTrue() && request in requests
      modifies request`staleElapsedMs, this`stales
      ensures FlagsTrue() && StalesValid()
      ensures stales == P.SetElapsed(old(stales), request.id, elapsedMs)
      ensures request.staleElapsedMs == elapsedMs && (P.Reported(old(stales), request.id) <==> request.stale.queued)
      ensures !request.stale.queued ==> stales == old(stales)
    {
      OwnLinks(requests, request);
      ReportsDistinct();
      ElapsedEverywhere(stales, request.id, elapsedMs);
      assert request in staleQueue.contents ==> P.Reported(stales, request.id);
      hide Separate, P.SetElapsed;
      stales := P.SetElapsed(stales, request.id, elapsedMs);
      request.staleElapsedMs := elapsedMs;
    }

    method PushStale(request: FFIThreadRequest, ticket: nat)
      requires Separate(requests) && StalesValid() && FlagsTrue() && request in requests && !request.stale.queued
      modifies this`stales, staleQueue, StaleLinks()
      ensures FlagsTrue() && StalesValid()
      ensures stales == old(stales) + [P.Report(request.id, ticket, request.staleElapsedMs)]
      ensures staleQueue.contents == old(staleQueue.contents) + [request]
    {
      stales := stales + [P.Report(request.id, ticket, request.staleElapsedMs)];
      OwnLinks(requests, request);
      LinksNameRequests(requests, staleQueue);
      hide Separate;
      staleQueue.Push(request, ticket);
    }

    /** One report per slow request: the figure in it is overwritten. */
    method EnqueueStaleWarn(request: FFIThreadRequest, elapsedMs: int)
      requires Valid() && request in requests && request !in replyQueue.contents && request != heldReply
      modifies this`msgSeq, this`stales, staleQueue, StaleLinks(), request`staleElapsedMs
      ensures Valid() && Abs() == P.EnqueueStaleWarn(old(Abs()), request.id, elapsedMs)
    {
      hide Separate, StalesValid, RepliesValid, FlagsTrue, Counted, P.SetElapsed, P.Reported;
      LinksApart();
      SetFigure(request, elapsedMs);
      if request.stale.queued { return; }
      var ticket := NextSeq();
      PushStale(request, ticket);
    }

    method PopReply() returns (request: FFIThreadRequest?)
      requires Separate(requests) && RepliesValid()
      modifies this`replies, replyQueue, ReplyLinks()
      ensures RepliesValid() && (request == null <==> old(replies) == [])
      ensures old(replies) == [] ==> request == null && replies == [] && replyQueue.contents == old(replyQueue.contents)
      ensures old(replies) != [] ==>
                && request in requests && old(replyQueue.contents) != [] && request == old(replyQueue.contents)[0]
                && P.Ticket(request.id, request.reply.seqNum) == old(replies)[0]
                && replies == old(replies)[1..] && replyQueue.contents == old(replyQueue.contents)[1..]
                && request !in replyQueue.contents
    {
      replies := if replies == [] then [] else replies[1..];
      hide Separate;
      request := replyQueue.Pop();
    }

    // A report leaves the queue as three numbers; its request still has a handler.
    method PopStaleWarn() returns (m: Option<P.Message>)
      requires Separate(requests) && StalesValid() && FlagsTrue()
      modifies this`stales, staleQueue, StaleLinks()
      ensures StalesValid() && FlagsTrue()
      ensures forall r :: r in staleQueue.contents ==> r in old(staleQueue.contents)
      ensures old(stales) == [] ==> m == None && stales == []
      ensures old(stales) != [] ==>
                var s := old(stales)[0];
                m == Some(P.Stale(s.id, s.seqNum, s.elapsedMs)) && stales == old(stales)[1..]
    {
      LinksNameRequests(requests, staleQueue);
      ghost var before := staleQueue.contents;
      stales := if stales == [] then [] else stales[1..];
      hide Separate;
      var request := staleQueue.Pop();
      if request == null { return None; }
      assert forall r :: r in before && r != before[0] ==> r in before[1..];
      m := Some(P.Stale(request.id, request.stale.seqNum, request.staleElapsedMs));
    }

    /** The request is held, not freed, since the message handed out points into it. */
    method TakeReply() returns (m: Option<P.Message>)
      requires Valid() && heldReply == null
      modifies this`replies, this`heldReply, replyQueue, ReplyLinks()
      ensures Valid() && (Abs(), m) == P.TakeReply(old(Abs()))
      ensures m.Some? <==> heldReply != null
      ensures if heldReply == null then replyQueue.contents == old(replyQueue.contents)
              else old(replyQueue.contents) == [heldReply] + replyQueue.contents
    {
      hide Separate, StalesValid, RepliesValid, FlagsTrue, Counted;
      LinksApart();
      var reply := PopReply();
      if reply == null { return None; }
      heldReply := reply;
      m := Some(P.Reply(reply.id, reply.reply.seqNum));
    }

    method TakeStaleWarn() returns (m: Option<P.Message>)
      requires Valid()
      modifies this`stales, staleQueue, StaleLinks()
      ensures Valid() && (Abs(), m) == P.TakeStaleWarn(old(Abs()))
    {
      hide Separate, StalesValid, RepliesValid, FlagsTrue, Counted;
      LinksApart();
      m := PopStaleWarn();
    }

    method TakeEvent() returns (m: Option<P.Message>)
      modifies this`events
      ensures (Abs(), m) == P.TakeEvent(old(Abs()))
    {
      if !queueLive || events == [] { return None; }
      m := Some(P.Event(events[0]));
      events := events[1..];
    }

    method ReplyHeadSeq() returns (seqNum: nat)
      requires Valid()
      ensures seqNum == P.ReplySeq(Abs())
    {
      seqNum := replyQueue.HeadSeq();
    }

    method StaleHeadSeq() returns (seqNum: nat)
      requires Valid()
      ensures seqNum == P.StaleSeq(Abs())
    {
      seqNum := staleQueue.HeadSeq();
    }

    method HasMessage() returns (some: bool)
      requires Valid()
      ensures some == P.HasMessage(Abs())
    {
      if queueLive && events != [] { return true; }
      var replySeq := ReplyHeadSeq();
      var staleSeq := StaleHeadSeq();
      some := replySeq != 0 || staleSeq != 0;
    }

    /** The oldest of the three queues, as `PollOrder.TakeMessage` picks it. */
    method TakeMessage() returns (m: Option<P.Message>)
      requires Valid() && heldReply == null
      modifies this`replies, this`stales, this`events, this`heldReply, replyQueue, staleQueue, ReplyLinks(), StaleLinks()
      ensures Valid() && (Abs(), m) == P.TakeMessage(old(Abs()))
      ensures heldReply != null <==> m.Some? && m.value.Reply?
      ensures if heldReply == null then replyQueue.contents == old(replyQueue.contents)
              else old(replyQueue.contents) == [heldReply] + replyQueue.contents
    {
      assert replyQueue != staleQueue;
      hide Valid;
      var eventSeq := if queueLive && events != [] then events[0] else 0;
      var replySeq := ReplyHeadSeq();
      var staleSeq := StaleHeadSeq();
      var oldest := P.Earliest(P.Earliest(eventSeq, replySeq), staleSeq);
      if oldest == 0 {
        m := TakeEvent();
      } else if oldest == replySeq {
        m := TakeReply();
      } else if oldest == staleSeq {
        m := TakeStaleWarn();
      } else {
        m := TakeEvent();
      }
    }

    ghost method Adopt(request: FFIThreadRequest)
      requires Separate(requests + {request}) && RepliesValid() && StalesValid() && FlagsTrue() && AnsweredAreQuiet()
      requires !request.stale.queued
      modifies this`requests
      ensures requests == old(requests) + {request}
      ensures RepliesValid() && StalesValid() && FlagsTrue() && AnsweredAreQuiet()
    {
      hide Separate, RequestQueue.Valid;
      requests := requests + {request};
    }

    method TryClaimRequest() returns (ok: bool)
      modifies this`outstanding
      ensures ok <==> old(outstanding) < maxOutstanding
      ensures outstanding == old(outstanding) + if ok then 1 else 0
    {
      outstanding := outstanding + 1;
      if outstanding - 1 >= maxOutstanding {
        outstanding := outstanding - 1;
        return false;
      }
      ok := true;
    }

    // What the event hooks do: the event is numbered, and queued unless the ring is full.
    method PushEvent(full: bool) returns (ticket: nat)
      requires Valid()
      modifies this`msgSeq, this`events
      ensures Valid() && ticket == old(msgSeq) && msgSeq == ticket + 1
      ensures events == if full then old(events) else old(events) + [ticket]
    {
      ticket := NextSeq();
      if !full {
        events := events + [ticket];
      }
    }

    method NextRequestId() returns (id: nat)
      modifies this`reqIdSeq
      ensures id == old(reqIdSeq) && reqIdSeq == id + 1
    {
      id := reqIdSeq;
      reqIdSeq := reqIdSeq + 1;
    }

    // The part of `submit` that counts a request in and numbers it.
    method Admit(request: FFIThreadRequest) returns (ok: bool)
      requires Valid() && Separate(requests + {request}) && request !in requests && request !in freed
      requires !request.reply.queued && !request.stale.queued && request.id == reqIdSeq
      modifies this`requests, this`outstanding, this`reqIdSeq
      ensures Valid() && Abs() == old(Abs())
      ensures ok <==> |old(requests)| < maxOutstanding
      ensures requests == if ok then old(requests) + {request} else old(requests)
      ensures reqIdSeq == old(reqIdSeq) + if ok then 1 else 0
    {
      hide Separate, RepliesValid, StalesValid, FlagsTrue, AnsweredAreQuiet;
      LinksApart();
      ok := TryClaimRequest();
      if !ok { return; }
      var id := NextRequestId();
      Adopt(request);
    }

    method DeleteRequest(request: FFIThreadRequest)
      requires Orderly() && request in requests && request != heldReply
      requires request !in replyQueue.contents && request !in staleQueue.contents
      modifies this`requests, this`outstanding, this`freed
      ensures Orderly() && Abs() == old(Abs()) && (old(FlagsTrue()) ==> FlagsTrue())
      ensures requests == old(requests) - {request} && freed == old(freed) + [request]
      ensures outstanding == old(outstanding) - 1
    {
      hide RequestQueue.Valid;
      requests := requests - {request};
      freed := freed + [request];
      outstanding := outstanding - 1;
    }

    method ReleaseHeld()
      requires Valid()
      modifies this`requests, this`outstanding, this`freed, this`heldReply
      ensures Valid() && Abs() == old(Abs()) && heldReply == null
      ensures old(heldReply) == null ==> freed == old(freed) && requests == old(requests)
      ensures old(heldReply) != null ==>
          freed == old(freed) + [old(heldReply)] && requests == old(requests) - {old(heldReply)}
    {
      var held := heldReply;
      if held != null {
        heldReply := null;
        DeleteRequest(held);
      }
    }

    method ClearEvents()
      modifies this`events
      ensures events == []
    {
      events := [];
    }

    method DetachReplies() returns (chain: FFIThreadRequest?)
      requires RepliesValid()
      modifies this`replies, replyQueue
      ensures RepliesValid() && replies == [] && replyQueue.contents == []
      ensures old(replyQueue.contents) == [] ==> chain == null
      ensures old(replyQueue.contents) != [] ==> chain == old(replyQueue.contents)[0]
    {
      replies := [];
      chain := replyQueue.Detach();
    }

    // The flags of dropped reports are left as they are.
    method DetachStales()
      requires StalesValid() && FlagsTrue()
      modifies this`stales, staleQueue
      ensures StalesValid() && stales == [] && staleQueue.contents == []
      ensures old(staleQueue.contents) == [] ==> FlagsTrue()
      ensures forall r :: r in old(staleQueue.contents) ==> r.stale.queued && r in requests
    {
      assert forall r :: r in staleQueue.contents ==> r.stale.queued && r in requests;
      stales := [];
      var reports := staleQueue.Detach();
    }

    // Both queues are emptied at once; the chain of replies is left to walk.
    method DetachQueues() returns (chain: FFIThreadRequest?)
      requires Valid()
      modifies this`replies, this`stales, this`events, replyQueue, staleQueue
      ensures Orderly() && Abs() == old(Abs()).(replies := [], stales := [], events := [])
      ensures old(staleQueue.contents) == [] ==> FlagsTrue()
      ensures forall r :: r in old(staleQueue.contents) ==> r.stale.queued && r in requests
      ensures replyQueue.contents == [] && staleQueue.contents == []
      ensures old(replyQueue.contents) == [] ==> chain == null
      ensures old(replyQueue.contents) != [] ==> chain == old(replyQueue.contents)[0]
    {
      hide Separate, RepliesValid, StalesValid, FlagsTrue, Counted;
      LinksApart();
      ClearEvents();
      chain := DetachReplies();
      DetachStales();
    }

    // Distinct live requests, none of them held, linked to a chain.
    ghost predicate Freeable(all: seq<FFIThreadRequest>)
      reads this`requests, this`heldReply, set r | r in all :: r.reply
    {
      && (forall i :: 0 <= i < |all| ==> all[i] in requests && all[i] != heldReply)
      && (forall i, j :: 0 <= i < j < |all| ==> all[i] != all[j])
      && Chained(all)
    }

    // Walks a detached chain. A link is read only while its request is alive.
    method FreeChain(head: FFIThreadRequest?, ghost all: seq<FFIThreadRequest>)
      requires Orderly() && replyQueue.contents == [] && staleQueue.contents == []
      requires (all == [] ==> head == null) && (all != [] ==> head == all[0])
      requires Freeable(all)
      modifies this`requests, this`outstanding, this`freed
      ensures Orderly() && Abs() == old(Abs()) && (old(FlagsTrue()) ==> FlagsTrue())
      ensures freed == old(freed) + all && requests == old(requests) - set r | r in all
    {
      hide Orderly, FlagsTrue;
      var chain := head;
      ghost var k := 0;
      while chain != null
        invariant 0 <= k <= |all|
        invariant (k == |all| ==> chain == null) && (k < |all| ==> chain == all[k])
        invariant Orderly() && Abs() == old(Abs()) && (old(FlagsTrue()) ==> FlagsTrue())
        invariant forall i :: k <= i < |all| ==> all[i] in requests
        invariant Chained(all)
        invariant freed == old(freed) + all[..k]
        invariant requests == old(requests) - set r | r in all[..k]
        decreases |all| - k
      {
        assert chain in requests && all[..k + 1] == all[..k] + [chain];
        var nextReply := chain.reply.next;
        DeleteRequest(chain);
        chain := nextReply;
        k := k + 1;
      }
      assert all[..k] == all;
    }

    lemma RepliesAlive()
      requires Valid()
      ensures var all := replyQueue.contents;
              Freeable(all) && forall r :: r in staleQueue.contents ==> r !in all
    {
    }

    method EmptyQueues()
      requires Valid()
      modifies this`replies, this`stales, this`events, this`requests, this`outstanding, this`freed,
            replyQueue, staleQueue
      ensures Orderly() && Abs() == old(Abs()).(replies := [], stales := [], events := [])
      ensures old(staleQueue.contents) == [] ==> FlagsTrue()
      ensures staleQueue.contents == [] && replyQueue.contents == []
      ensures forall r :: r in old(staleQueue.contents) ==> r.stale.queued && r in requests
      ensures freed == old(freed) + old(replyQueue.contents)
      ensures requests == old(requests) - set r | r in old(replyQueue.contents)
    {
      RepliesAlive();
      ghost var all, reported := replyQueue.contents, staleQueue.contents;
      hide Valid, Orderly, Freeable, FlagsTrue;
      var chain := DetachQueues();
      FreeChain(chain, all);
      assert forall r :: r in reported ==> r !in all;
    }

    /** What the host never collected goes: each queued request is freed, once. A report that is
        dropped leaves its flag behind, so the queues stand as they should if and only if there
        was none. */
    method DropQueuedMessages()
      requires Valid()
      modifies this`replies, this`stales, this`events, this`requests, this`outstanding, this`freed,
            replyQueue, staleQueue
      ensures Orderly() && Abs() == old(Abs()).(replies := [], stales := [], events := [])
      ensures replyQueue.contents == []
      ensures Valid() <==> old(staleQueue.contents) == []
      ensures freed == old(freed) + old(replyQueue.contents)
      ensures heldReply == old(heldReply)
      ensures requests == old(requests) - set r | r in old(replyQueue.contents)
    {
      hide Orderly, FlagsTrue;
      ghost var reported := staleQueue.contents;
      EmptyQueues();
      FlagsLeft(reported);
    }

    lemma FlagsLeft(reported: seq<FFIThreadRequest>)
      requires staleQueue.contents == [] && forall r :: r in reported ==> r.stale.queued && r in requests
      ensures FlagsTrue() ==> reported == []
    {
      assert reported != [] ==> reported[0] in reported;
    }
  }
}

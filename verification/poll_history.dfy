/** What a ticket stands for. A run says which ticket was drawn for which reply, report or event;
    whatever the host is handed under a ticket is that message, and the figure of a report is the
    last one it was given before it left. */
module PollHistory {
  import opened Wrappers
  import opened PollOrder

  // What a ticket was drawn for.
  datatype Purpose = ForReply(id: nat) | ForStale(id: nat) | ForEvent | ForNothing

  // A warning draws one only if no report of its request is queued.
  function Draws(o: Outbox, a: Action): seq<Purpose> {
    match a
    case Answer(id) => [ForReply(id)]
    case Warn(id, _) => if Reported(o.box.stales, id) then [] else [ForStale(id)]
    case Emit(full) => [if full then ForNothing else ForEvent]
    case SpendTicket => [ForNothing]
    case _ => []
  }

  // The tickets drawn before state `k`: the first one is ticket 1.
  ghost function Tickets(os: seq<Outbox>, acts: seq<Action>, k: nat): seq<Purpose>
    requires k <= |acts| < |os|
  {
    if k == 0 then [] else Tickets(os, acts, k - 1) + Draws(os[k - 1], acts[k - 1])
  }

  // The figure of the last warning about `id` before state `k`.
  ghost function LastWarn(acts: seq<Action>, k: nat, id: nat): Option<int>
    requires k <= |acts|
  {
    if k == 0 then None
    else if acts[k - 1].Warn? && acts[k - 1].id == id then Some(acts[k - 1].ms)
    else LastWarn(acts, k - 1, id)
  }

  predicate DrawnFor(tickets: seq<Purpose>, n: nat, purpose: Purpose) {
    1 <= n <= |tickets| && tickets[n - 1] == purpose
  }

  function PurposeOf(m: Message): Purpose {
    match m
    case Reply(id, _) => ForReply(id)
    case Stale(id, _, _) => ForStale(id)
    case Event(_) => ForEvent
  }

  // ---------------------------------------------------------------------------------------
  // Every ticket is where its purpose puts it
  // ---------------------------------------------------------------------------------------

  ghost predicate QueuesTrue(o: Outbox, tickets: seq<Purpose>) {
    var b := o.box;
    && b.nextSeq == |tickets| + 1
    && (forall i :: 0 <= i < |b.replies| ==> DrawnFor(tickets, b.replies[i].seqNum, ForReply(b.replies[i].id)))
    && (forall i :: 0 <= i < |b.stales| ==> DrawnFor(tickets, b.stales[i].seqNum, ForStale(b.stales[i].id)))
    && (forall i :: 0 <= i < |b.events| ==> DrawnFor(tickets, b.events[i], ForEvent))
  }

  ghost predicate PastTrue(o: Outbox, tickets: seq<Purpose>) {
    && (forall i :: 0 <= i < |o.delivered| ==> DrawnFor(tickets, o.delivered[i].seqNum, PurposeOf(o.delivered[i])))
    && (forall n :: n in o.superseded ==>
          1 <= n <= |tickets| && tickets[n - 1].ForStale? && Settled(o, tickets[n - 1].id))
    && (forall n :: n in o.lost ==> DrawnFor(tickets, n, ForNothing))
    && (forall n :: n in o.dropped ==> 1 <= n <= |tickets| && tickets[n - 1] != ForNothing)
  }

  // Queued reports carry the last figure.
  ghost predicate FiguresTrue(o: Outbox, figure: nat -> Option<int>) {
    forall i :: 0 <= i < |o.box.stales| ==> figure(o.box.stales[i].id) == Some(o.box.stales[i].elapsedMs)
  }

  lemma DrawnStays(tickets: seq<Purpose>, more: seq<Purpose>)
    ensures forall n, p :: DrawnFor(tickets, n, p) ==> DrawnFor(tickets + more, n, p)
  {
  }

  lemma WarnDraws(o: Outbox, id: nat, ms: int, tickets: seq<Purpose>)
    requires QueuesTrue(o, tickets)
    ensures QueuesTrue(Apply(o, Warn(id, ms)), tickets + Draws(o, Warn(id, ms)))
  {
    SetElapsedShape(o.box.stales, id, ms);
    hide SetElapsed, Reported;
  }

  lemma AnswerDraws(o: Outbox, id: nat, tickets: seq<Purpose>)
    requires QueuesTrue(o, tickets)
    ensures QueuesTrue(Apply(o, Answer(id)), tickets + [ForReply(id)])
  {
    var k := ReportPlace(o.box.stales, id);
    hide DropReport;
    var b' := EnqueueReply(o.box, id);
    assert forall i :: 0 <= i < |b'.stales| ==> b'.stales[i] == o.box.stales[if i < k then i else i + 1];
  }

  lemma TakeDraws(o: Outbox, tickets: seq<Purpose>)
    requires Ordered(o) && Distinct(o.box) && QueuesTrue(o, tickets)
    ensures QueuesTrue(Apply(o, Take), tickets)
  {
    hide TakeMessage;
    if TakeMessage(o.box).1.Some? { TakesOldest(o); } else { TakesNothing(o.box); }
  }

  lemma StepDraws(o: Outbox, a: Action, tickets: seq<Purpose>)
    requires Inv(o) && Enabled(o, a) && QueuesTrue(o, tickets)
    ensures QueuesTrue(Apply(o, a), tickets + Draws(o, a))
  {
    match a
    case Warn(id, ms) => hide Inv, Apply, QueuesTrue; WarnDraws(o, id, ms, tickets);
    case Answer(id) => hide Inv, Apply, QueuesTrue; AnswerDraws(o, id, tickets);
    case Take => hide Apply, QueuesTrue; TakeDraws(o, tickets); assert tickets + [] == tickets;
    case _ =>
  }

  lemma TakePast(o: Outbox, tickets: seq<Purpose>)
    requires Ordered(o) && Distinct(o.box) && QueuesTrue(o, tickets) && PastTrue(o, tickets)
    ensures PastTrue(Apply(o, Take), tickets)
  {
    hide TakeMessage;
    if TakeMessage(o.box).1.Some? { TakesOldest(o); } else { TakesNothing(o.box); }
  }

  lemma AnswerPast(o: Outbox, id: nat, tickets: seq<Purpose>)
    requires Owed(o) && Enabled(o, Answer(id)) && QueuesTrue(o, tickets) && PastTrue(o, tickets)
    ensures PastTrue(Apply(o, Answer(id)), tickets + [ForReply(id)])
  {
    hide EnqueueReply;
  }

  lemma DropPast(o: Outbox, tickets: seq<Purpose>)
    requires QueuesTrue(o, tickets) && PastTrue(o, tickets)
    ensures PastTrue(Apply(o, Drop), tickets)
  {
    forall n | n in Queued(o.box) ensures 1 <= n <= |tickets| && tickets[n - 1] != ForNothing {
      QueuedTickets(o.box, n);
    }
    hide Queued;
  }

  lemma StepPast(o: Outbox, a: Action, tickets: seq<Purpose>)
    requires Inv(o) && Enabled(o, a) && QueuesTrue(o, tickets) && PastTrue(o, tickets)
    ensures PastTrue(Apply(o, a), tickets + Draws(o, a))
  {
    match a
    case Answer(id) => hide Apply, QueuesTrue, PastTrue; AnswerPast(o, id, tickets);
    case Take => hide Apply, QueuesTrue, PastTrue; TakePast(o, tickets); assert tickets + [] == tickets;
    case Drop => hide Apply, QueuesTrue, PastTrue; DropPast(o, tickets); assert tickets + [] == tickets;
    case _ => hide EnqueueStaleWarn, Reported;
  }

  // ---------------------------------------------------------------------------------------
  // The figures
  // ---------------------------------------------------------------------------------------

  function Told(figure: nat -> Option<int>, a: Action): nat -> Option<int> {
    (id: nat) => if a.Warn? && a.id == id then Some(a.ms) else figure(id)
  }

  lemma {:induction false} SetElapsedFigures(s: seq<Report>, id: nat, ms: int)
    requires forall i, j :: 0 <= i < j < |s| ==> s[i].id != s[j].id
    ensures |SetElapsed(s, id, ms)| == |s|
    ensures forall k :: 0 <= k < |s| ==>
          SetElapsed(s, id, ms)[k] == if s[k].id == id then s[k].(elapsedMs := ms) else s[k]
  {
    SetElapsedShape(s, id, ms);
    forall k | 0 <= k < |s|
      ensures SetElapsed(s, id, ms)[k] == if s[k].id == id then s[k].(elapsedMs := ms) else s[k]
    {
      SetElapsedOverwrites(s, id, ms, k);
    }
  }

  /** A warning shows: afterwards one report of the request is queued, with the figure just given
      and, if it was queued before, under its first ticket; the reports of the others stay. */
  lemma WarnShows(o: Outbox, id: nat, ms: int) returns (k: nat)
    requires Owed(o)
    ensures var s, s' := o.box.stales, Apply(o, Warn(id, ms)).box.stales;
            && k < |s'| && s'[k].id == id && s'[k].elapsedMs == ms
            && (forall j :: 0 <= j < |s'| && j != k ==> j < |s| && s'[j] == s[j] && s'[j].id != id)
            && (if k < |s| then |s'| == |s| && s[k].id == id && s'[k].seqNum == s[k].seqNum
                else k == |s| && s'[k].seqNum == o.box.nextSeq)
  {
    k := ReportPlace(o.box.stales, id);
    if k < |o.box.stales| {
      SetElapsedFigures(o.box.stales, id, ms);
      assert Reported(o.box.stales, id);
    }
  }

  lemma StepFigures(o: Outbox, a: Action, figure: nat -> Option<int>)
    requires Inv(o) && Enabled(o, a) && FiguresTrue(o, figure)
    ensures FiguresTrue(Apply(o, a), Told(figure, a))
  {
    match a
    case Warn(id, ms) => hide Apply; var k := WarnShows(o, id, ms);
    case Answer(id) =>
      var k := ReportPlace(o.box.stales, id);
      hide DropReport;
      var b' := EnqueueReply(o.box, id);
      assert forall i :: 0 <= i < |b'.stales| ==> b'.stales[i] == o.box.stales[if i < k then i else i + 1];
    case Take =>
      hide TakeMessage;
      if TakeMessage(o.box).1.Some? { TakesOldest(o); } else { TakesNothing(o.box); }
    case _ =>
  }

  // ---------------------------------------------------------------------------------------
  // Whole runs
  // ---------------------------------------------------------------------------------------

  ghost function Figures(acts: seq<Action>, k: nat): nat -> Option<int>
    requires k <= |acts|
  {
    (id: nat) => LastWarn(acts, k, id)
  }

  ghost predicate HistoryTrue(o: Outbox, tickets: seq<Purpose>, figure: nat -> Option<int>) {
    QueuesTrue(o, tickets) && PastTrue(o, tickets) && FiguresTrue(o, figure)
  }

  lemma {:induction false} RunIsTrue(os: seq<Outbox>, acts: seq<Action>, k: nat)
    requires IsRun(os, acts) && k < |os|
    ensures HistoryTrue(os[k], Tickets(os, acts, k), Figures(acts, k))
  {
    if k > 0 {
      RunIsTrue(os, acts, k - 1);
      RunKeepsInv(os, acts, k - 1);
      var o, a, t, f := os[k - 1], acts[k - 1], Tickets(os, acts, k - 1), Figures(acts, k - 1);
      hide Inv, Accounted, Apply, QueuesTrue, PastTrue, FiguresTrue, Draws, Enabled, Told;
      StepDraws(o, a, t);
      StepPast(o, a, t);
      StepFigures(o, a, f);
      FiguresGoOn(os[k], acts, k);
    }
  }

  lemma FiguresGoOn(o: Outbox, acts: seq<Action>, k: nat)
    requires 0 < k <= |acts| && FiguresTrue(o, Told(Figures(acts, k - 1), acts[k - 1]))
    ensures FiguresTrue(o, Figures(acts, k))
  {
  }

  /** Whatever was drawn a ticket for is under that ticket, and as what it was drawn for: the reply
      to request `id` is queued as such, was handed out as such, or dropped at the end of a claim;
      a report may also be superseded by the answer to its request; a number drawn for nothing is
      handed out never. */
  lemma TicketTravels(os: seq<Outbox>, acts: seq<Action>, k: nat, n: nat)
    requires IsRun(os, acts) && k < |os| && 1 <= n < os[k].box.nextSeq
    ensures n <= |Tickets(os, acts, k)|
    ensures var o := os[k];
            match Tickets(os, acts, k)[n - 1]
            case ForReply(id) => Ticket(id, n) in o.box.replies || Reply(id, n) in o.delivered || n in o.dropped
            case ForStale(id) =>
              || (exists e :: Report(id, n, e) in o.box.stales)
              || (exists e :: Stale(id, n, e) in o.delivered)
              || (n in o.superseded && Settled(o, id))
              || n in o.dropped
            case ForEvent => n in o.box.events || Event(n) in o.delivered || n in o.dropped
            case ForNothing => n in o.lost
  {
    hide IsRun, Inv, Accounted;
    RunIsTrue(os, acts, k);
    NoMessageLost(os, acts, k, n);
    var o := os[k];
    if Delivered(o.delivered, n) {
      var i :| 0 <= i < |o.delivered| && o.delivered[i].seqNum == n;
      assert o.delivered[i] in o.delivered;
    } else if QueuedReply(o.box.replies, n) {
      var i :| 0 <= i < |o.box.replies| && o.box.replies[i].seqNum == n;
      assert o.box.replies[i] in o.box.replies;
    } else if QueuedReport(o.box.stales, n) {
      var i :| 0 <= i < |o.box.stales| && o.box.stales[i].seqNum == n;
      assert o.box.stales[i] in o.box.stales;
    }
  }

  /** Nothing else is handed out: a message was produced under its ticket, as what it is. */
  lemma DeliveredAsProduced(os: seq<Outbox>, acts: seq<Action>, k: nat, i: nat)
    requires IsRun(os, acts) && k < |os| && i < |os[k].delivered|
    ensures DrawnFor(Tickets(os, acts, k), os[k].delivered[i].seqNum, PurposeOf(os[k].delivered[i]))
  {
    hide IsRun;
    RunIsTrue(os, acts, k);
  }

  /** The figure the host reads is the last one its request was warned with before the report was
      taken. */
  lemma LastFigureTaken(os: seq<Outbox>, acts: seq<Action>, k: nat, m: Message)
    requires IsRun(os, acts) && k < |acts| && acts[k] == Take && m.Stale?
    requires os[k + 1].delivered == os[k].delivered + [m]
    ensures LastWarn(acts, k, m.id) == Some(m.elapsedMs)
  {
    RunIsTrue(os, acts, k);
    RunKeepsInv(os, acts, k);
    hide TakeMessage, Accounted, PastTrue, QueuesTrue;
    var o := os[k];
    if TakeMessage(o.box).1.Some? {
      TakesOldest(o);
      assert os[k + 1].delivered[|o.delivered|] == m;
    } else {
      TakesNothing(o.box);
    }
  }
}

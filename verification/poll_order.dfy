/** What the poller is handed, and in which order. `Box` is the part of `FFIOutbound` that
    holds messages; `Outbox` adds the requests behind them and what became of every ticket. A run
    goes through all the owners of a slot: tickets and ids are never started over. */
module PollOrder {
  import opened Wrappers

  datatype Ticket = Ticket(id: nat, seqNum: nat)
  datatype Report = Report(id: nat, seqNum: nat, elapsedMs: int)
  datatype Message = Reply(id: nat, seqNum: nat) | Stale(id: nat, seqNum: nat, elapsedMs: int) | Event(seqNum: nat)

  // `events` holds the tickets of the queued events, oldest first.
  datatype Box = Box(nextSeq: nat, replies: seq<Ticket>, stales: seq<Report>, events: seq<nat>, queueLive: bool)

  // ---------------------------------------------------------------------------------------
  // Operations of the FFI thread
  // ---------------------------------------------------------------------------------------

  function DropReport(s: seq<Report>, id: nat): seq<Report> {
    if s == [] then [] else if s[0].id == id then s[1..] else [s[0]] + DropReport(s[1..], id)
  }

  function SetElapsed(s: seq<Report>, id: nat, ms: int): seq<Report> {
    if s == [] then []
    else if s[0].id == id then [s[0].(elapsedMs := ms)] + s[1..]
    else [s[0]] + SetElapsed(s[1..], id, ms)
  }

  predicate Reported(s: seq<Report>, id: nat) {
    exists i :: 0 <= i < |s| && s[i].id == id
  }

  function EnqueueReply(b: Box, id: nat): Box {
    b.(stales := DropReport(b.stales, id), replies := b.replies + [Ticket(id, b.nextSeq)], nextSeq := b.nextSeq + 1)
  }

  function EnqueueStaleWarn(b: Box, id: nat, ms: int): Box {
    if Reported(b.stales, id) then b.(stales := SetElapsed(b.stales, id, ms))
    else b.(stales := b.stales + [Report(id, b.nextSeq, ms)], nextSeq := b.nextSeq + 1)
  }

  // ---------------------------------------------------------------------------------------
  // Operations of the poller
  // ---------------------------------------------------------------------------------------

  function EventSeq(b: Box): nat {
    if b.queueLive && b.events != [] then b.events[0] else 0
  }

  function ReplySeq(b: Box): nat {
    if b.replies == [] then 0 else b.replies[0].seqNum
  }

  function StaleSeq(b: Box): nat {
    if b.stales == [] then 0 else b.stales[0].seqNum
  }

  // The smaller ticket; 0 stands for none.
  function Earliest(firstSeq: nat, secondSeq: nat): nat {
    if firstSeq == 0 then secondSeq
    else if secondSeq == 0 then firstSeq
    else if firstSeq < secondSeq then firstSeq
    else secondSeq
  }

  function TakeReply(b: Box): (Box, Option<Message>) {
    if b.replies == [] then (b, None)
    else (b.(replies := b.replies[1..]), Some(Reply(b.replies[0].id, b.replies[0].seqNum)))
  }

  function TakeStaleWarn(b: Box): (Box, Option<Message>) {
    if b.stales == [] then (b, None)
    else (b.(stales := b.stales[1..]), Some(Stale(b.stales[0].id, b.stales[0].seqNum, b.stales[0].elapsedMs)))
  }

  function TakeEvent(b: Box): (Box, Option<Message>) {
    if !b.queueLive || b.events == [] then (b, None)
    else (b.(events := b.events[1..]), Some(Event(b.events[0])))
  }

  function TakeMessage(b: Box): (Box, Option<Message>) {
    var oldest := Earliest(Earliest(EventSeq(b), ReplySeq(b)), StaleSeq(b));
    if oldest == 0 then TakeEvent(b)
    else if oldest == ReplySeq(b) then TakeReply(b)
    else if oldest == StaleSeq(b) then TakeStaleWarn(b)
    else TakeEvent(b)
  }

  predicate HasMessage(b: Box) {
    (b.queueLive && b.events != []) || ReplySeq(b) != 0 || StaleSeq(b) != 0
  }

  // Replies and reports are numbered from 1; an event may have gone unnumbered.
  predicate Numbered(b: Box) {
    && (forall i :: 0 <= i < |b.replies| ==> b.replies[i].seqNum > 0)
    && (forall i :: 0 <= i < |b.stales| ==> b.stales[i].seqNum > 0)
  }

  /** `takeMessage` succeeds exactly when `hasMessage` holds, unnumbered events included. */
  lemma TakeSucceedsIffHasMessage(b: Box)
    requires Numbered(b)
    ensures TakeMessage(b).1.Some? <==> HasMessage(b)
  {
  }

  // ---------------------------------------------------------------------------------------
  // The slot, one claim after another
  // ---------------------------------------------------------------------------------------

  datatype Outbox = Outbox(
    box: Box,
    nextId: nat,
    waiting: set<nat>,        // submitted, not dispatched
    running: set<nat>,        // a handler runs
    delivered: seq<Message>,  // handed out, in order
    superseded: set<nat>,     // tickets of reports their reply replaced
    lost: set<nat>,           // tickets of refused events and of closing messages
    dropped: set<nat>)        // tickets of what a past owner never collected

  datatype Action =
    | Submit
    | Start(id: nat)
    | Warn(id: nat, ms: int)
    | Answer(id: nat)
    | Emit(full: bool)
    | SpendTicket
    | Take
    | Discard(id: nat)
    | Drop

  const START := Outbox(Box(1, [], [], [], true), 1, {}, {}, [], {}, {}, {})

  predicate Enabled(o: Outbox, a: Action) {
    match a
    case Start(id) => id in o.waiting
    case Warn(id, _) => id in o.running
    case Answer(id) => id in o.running || id in o.waiting
    case Discard(id) => id in o.waiting
    case Drop => o.running == {}
    case _ => true
  }

  function ReportTickets(s: seq<Report>, id: nat): set<nat> {
    set i | 0 <= i < |s| && s[i].id == id :: s[i].seqNum
  }

  // The tickets of everything queued.
  function Queued(b: Box): set<nat> {
    (set t | t in b.replies :: t.seqNum) + (set r | r in b.stales :: r.seqNum) + (set n | n in b.events)
  }

  // `Discard` frees a request unanswered; `Drop` ends a claim once its handlers are done.
  function Apply(o: Outbox, a: Action): Outbox {
    var b := o.box;
    match a
    case Submit => o.(waiting := o.waiting + {o.nextId}, nextId := o.nextId + 1)
    case Start(id) => o.(waiting := o.waiting - {id}, running := o.running + {id})
    case Warn(id, ms) => o.(box := EnqueueStaleWarn(b, id, ms))
    case Answer(id) =>
      o.(box := EnqueueReply(b, id), waiting := o.waiting - {id}, running := o.running - {id},
         superseded := o.superseded + ReportTickets(b.stales, id))
    case Emit(full) =>
      if full then o.(box := b.(nextSeq := b.nextSeq + 1), lost := o.lost + {b.nextSeq})
      else o.(box := b.(events := b.events + [b.nextSeq], nextSeq := b.nextSeq + 1))
    case SpendTicket => o.(box := b.(nextSeq := b.nextSeq + 1), lost := o.lost + {b.nextSeq})
    case Discard(id) => o.(waiting := o.waiting - {id})
    case Drop => o.(box := b.(replies := [], stales := [], events := []), dropped := o.dropped + Queued(b))
    case Take =>
      var (b', m) := TakeMessage(b);
      match m
      case None => o.(box := b')
      case Some(message) => o.(box := b', delivered := o.delivered + [message])
  }

  ghost predicate IsRun(os: seq<Outbox>, acts: seq<Action>) {
    && |os| == |acts| + 1
    && os[0] == START
    && forall i :: 0 <= i < |acts| ==> Enabled(os[i], acts[i]) && os[i + 1] == Apply(os[i], acts[i])
  }

  // ---------------------------------------------------------------------------------------
  // Invariant
  // ---------------------------------------------------------------------------------------

  function Last(delivered: seq<Message>): nat {
    if delivered == [] then 0 else delivered[|delivered| - 1].seqNum
  }

  // Every queue is in ticket order, between what was delivered and what comes next.
  ghost predicate Ordered(o: Outbox) {
    var b, low := o.box, Last(o.delivered);
    && low < b.nextSeq && b.queueLive
    && (forall i :: 0 <= i < |b.replies| ==> low < b.replies[i].seqNum < b.nextSeq)
    && (forall i :: 0 <= i < |b.stales| ==> low < b.stales[i].seqNum < b.nextSeq)
    && (forall i :: 0 <= i < |b.events| ==> low < b.events[i] < b.nextSeq)
    && (forall i, j :: 0 <= i < j < |b.replies| ==> b.replies[i].seqNum < b.replies[j].seqNum)
    && (forall i, j :: 0 <= i < j < |b.stales| ==> b.stales[i].seqNum < b.stales[j].seqNum)
    && (forall i, j :: 0 <= i < j < |b.events| ==> b.events[i] < b.events[j])
    && (forall i, j :: 0 <= i < j < |o.delivered| ==> o.delivered[i].seqNum < o.delivered[j].seqNum)
  }

  ghost predicate Distinct(b: Box) {
    && (forall i, j :: 0 <= i < |b.replies| && 0 <= j < |b.stales| ==> b.replies[i].seqNum != b.stales[j].seqNum)
    && (forall i, j :: 0 <= i < |b.replies| && 0 <= j < |b.events| ==> b.replies[i].seqNum != b.events[j])
    && (forall i, j :: 0 <= i < |b.stales| && 0 <= j < |b.events| ==> b.stales[i].seqNum != b.events[j])
  }

  // A report belongs to a running request, at most one each; an answer ends the request.
  ghost predicate Owed(o: Outbox) {
    var b := o.box;
    && (forall id :: id in o.waiting || id in o.running ==> id < o.nextId)
    && o.waiting !! o.running
    && (forall i :: 0 <= i < |b.stales| ==> b.stales[i].id in o.running)
    && (forall i, j :: 0 <= i < j < |b.stales| ==> b.stales[i].id != b.stales[j].id)
    && (forall i :: 0 <= i < |b.replies| ==> Settled(o, b.replies[i].id))
    && (forall i :: 0 <= i < |o.delivered| && o.delivered[i].Reply? ==> Settled(o, o.delivered[i].id))
    && (forall i :: 0 <= i < |o.delivered| && o.delivered[i].Stale? ==> o.delivered[i].id < o.nextId)
  }

  predicate Settled(o: Outbox, id: nat) {
    id < o.nextId && id !in o.running && id !in o.waiting
  }

  ghost predicate NoLateReport(o: Outbox) {
    forall i, j :: 0 <= i < j < |o.delivered| && o.delivered[i].Reply? && o.delivered[j].Stale? ==>
      o.delivered[i].id != o.delivered[j].id
  }

  // ---------------------------------------------------------------------------------------
  // Facts about the lists
  // ---------------------------------------------------------------------------------------

  lemma {:induction false} DropReportAt(s: seq<Report>, id: nat, k: nat)
    requires k < |s| && s[k].id == id
    requires forall i :: 0 <= i < k ==> s[i].id != id
    ensures DropReport(s, id) == s[..k] + s[k + 1..]
  {
    if k > 0 {
      DropReportAt(s[1..], id, k - 1);
    }
  }

  lemma {:induction false} DropReportAbsent(s: seq<Report>, id: nat)
    requires !Reported(s, id)
    ensures DropReport(s, id) == s
  {
    if s != [] {
      assert forall i :: 0 <= i < |s| - 1 ==> s[1..][i] == s[i + 1];
      assert s[0].id != id;
      DropReportAbsent(s[1..], id);
    }
  }

  lemma {:induction false} SetElapsedShape(s: seq<Report>, id: nat, ms: int)
    ensures var s' := SetElapsed(s, id, ms);
            |s'| == |s| && forall i :: 0 <= i < |s| ==> s'[i].id == s[i].id && s'[i].seqNum == s[i].seqNum
  {
    if s != [] {
      SetElapsedShape(s[1..], id, ms);
    }
  }

  /** What the host reads of a coalesced report is the latest figure, under the first ticket. */
  lemma {:induction false} SetElapsedOverwrites(s: seq<Report>, id: nat, ms: int, k: nat)
    requires k < |s| && (forall i, j :: 0 <= i < j < |s| ==> s[i].id != s[j].id)
    ensures |SetElapsed(s, id, ms)| == |s|
    ensures SetElapsed(s, id, ms)[k] == if s[k].id == id then s[k].(elapsedMs := ms) else s[k]
  {
    SetElapsedShape(s, id, ms);
    if k > 0 && s[0].id != id {
      SetElapsedOverwrites(s[1..], id, ms, k - 1);
    }
  }

  // Where the report of `id` sits, or |s|; what dropping it leaves.
  lemma ReportPlace(s: seq<Report>, id: nat) returns (k: nat)
    ensures k <= |s| && (forall i :: 0 <= i < k ==> s[i].id != id)
    ensures k < |s| ==> s[k].id == id && DropReport(s, id) == s[..k] + s[k + 1..]
    ensures k == |s| ==> !Reported(s, id) && DropReport(s, id) == s
  {
    k := 0;
    while k < |s| && s[k].id != id
      invariant k <= |s| && (forall i :: 0 <= i < k ==> s[i].id != id)
    {
      k := k + 1;
    }
    if k < |s| { DropReportAt(s, id, k); } else { DropReportAbsent(s, id); }
  }

  // ---------------------------------------------------------------------------------------
  // Every step keeps the order and the debts
  // ---------------------------------------------------------------------------------------

  ghost predicate Inv(o: Outbox) {
    Ordered(o) && Distinct(o.box) && Owed(o) && NoLateReport(o)
  }

  lemma WarnKeepsOrder(o: Outbox, id: nat, ms: int)
    requires Ordered(o) && Distinct(o.box)
    ensures Ordered(Apply(o, Warn(id, ms))) && Distinct(Apply(o, Warn(id, ms)).box)
  {
    SetElapsedShape(o.box.stales, id, ms);
    hide SetElapsed;
  }

  lemma WarnKeepsDebts(o: Outbox, id: nat, ms: int)
    requires Owed(o) && NoLateReport(o) && id in o.running
    ensures Owed(Apply(o, Warn(id, ms))) && NoLateReport(Apply(o, Warn(id, ms)))
  {
    SetElapsedShape(o.box.stales, id, ms);
    hide SetElapsed;
  }

  lemma EmitKeepsInv(o: Outbox, a: Action)
    requires Inv(o) && (a.Emit? || a.SpendTicket?)
    ensures Inv(Apply(o, a))
  {
    hide Owed, NoLateReport;
    assert Owed(Apply(o, a)) && NoLateReport(Apply(o, a)) by { SpendingKeepsDebts(o, a); }
  }

  lemma SpendingKeepsDebts(o: Outbox, a: Action)
    requires Owed(o) && NoLateReport(o) && (a.Emit? || a.SpendTicket?)
    ensures Owed(Apply(o, a)) && NoLateReport(Apply(o, a))
  {
  }

  lemma AdmitKeepsInv(o: Outbox, a: Action)
    requires Inv(o) && (a.Submit? || a.Start? || a.Discard?) && Enabled(o, a)
    ensures Inv(Apply(o, a))
  {
    hide Ordered, Distinct;
    assert Ordered(Apply(o, a)) by { AdmitKeepsOrder(o, a); }
  }

  lemma AdmitKeepsOrder(o: Outbox, a: Action)
    requires Ordered(o) && (a.Submit? || a.Start? || a.Discard?)
    ensures Ordered(Apply(o, a))
  {
  }

  lemma AnswerKeepsOrder(o: Outbox, id: nat)
    requires Ordered(o) && Distinct(o.box)
    ensures Ordered(Apply(o, Answer(id))) && Distinct(Apply(o, Answer(id)).box)
  {
    var k := ReportPlace(o.box.stales, id);
    hide DropReport;
    var b' := EnqueueReply(o.box, id);
    assert forall i :: 0 <= i < |b'.stales| ==> b'.stales[i] == o.box.stales[if i < k then i else i + 1];
    assert forall i :: 0 <= i < |b'.replies| ==>
          b'.replies[i] == if i < |o.box.replies| then o.box.replies[i] else Ticket(id, o.box.nextSeq);
  }

  lemma AnswerKeepsDebts(o: Outbox, id: nat)
    requires Owed(o) && NoLateReport(o) && Enabled(o, Answer(id))
    ensures Owed(Apply(o, Answer(id))) && NoLateReport(Apply(o, Answer(id)))
  {
    var k := ReportPlace(o.box.stales, id);
    hide DropReport;
    var b' := EnqueueReply(o.box, id);
    assert forall i :: 0 <= i < |b'.stales| ==>
          b'.stales[i] == o.box.stales[if i < k then i else i + 1] && b'.stales[i].id != id;
    assert forall i :: 0 <= i < |b'.replies| ==>
          b'.replies[i] == if i < |o.box.replies| then o.box.replies[i] else Ticket(id, o.box.nextSeq);
  }

  /** The message taken is the oldest of all three queues, and the only one that leaves. */
  lemma TakesOldest(o: Outbox)
    requires Ordered(o) && Distinct(o.box) && TakeMessage(o.box).1.Some?
    ensures var b := o.box; var (b', Some(m)) := TakeMessage(b);
            && Last(o.delivered) < m.seqNum < b.nextSeq
            && b' == b.(replies := b'.replies, stales := b'.stales, events := b'.events)
            && (if m.Reply?
                  then b.replies != [] && b.replies[0] == Ticket(m.id, m.seqNum) && b'.replies == b.replies[1..]
                  else b'.replies == b.replies)
            && (if m.Stale?
                  then b.stales != [] && b.stales[0] == Report(m.id, m.seqNum, m.elapsedMs) && b'.stales == b.stales[1..]
                  else b'.stales == b.stales)
            && (if m.Event?
                  then b.events != [] && b.events[0] == m.seqNum && b'.events == b.events[1..]
                  else b'.events == b.events)
            && (forall i :: 0 <= i < |b'.replies| ==> m.seqNum < b'.replies[i].seqNum)
            && (forall i :: 0 <= i < |b'.stales| ==> m.seqNum < b'.stales[i].seqNum)
            && (forall i :: 0 <= i < |b'.events| ==> m.seqNum < b'.events[i])
  {
  }

  lemma TakesNothing(b: Box)
    requires TakeMessage(b).1.None?
    ensures TakeMessage(b).0 == b
  {
  }

  lemma TakeKeepsOrder(o: Outbox)
    requires Ordered(o) && Distinct(o.box)
    ensures Ordered(Apply(o, Take)) && Distinct(Apply(o, Take).box)
  {
    hide TakeMessage;
    if TakeMessage(o.box).1.Some? { TakesOldest(o); } else { TakesNothing(o.box); }
  }

  lemma TakeKeepsDebts(o: Outbox)
    requires Inv(o)
    ensures Owed(Apply(o, Take)) && NoLateReport(Apply(o, Take))
  {
    hide TakeMessage, Distinct;
    if TakeMessage(o.box).1.Some? { TakesOldest(o); } else { TakesNothing(o.box); }
  }

  lemma DropKeepsInv(o: Outbox)
    requires Inv(o)
    ensures Inv(Apply(o, Drop))
  {
  }

  lemma StepKeepsInv(o: Outbox, a: Action)
    requires Inv(o) && Enabled(o, a)
    ensures Inv(Apply(o, a))
  {
    hide Ordered, Distinct, Owed, NoLateReport, Apply;
    match a
    case Warn(id, ms) => WarnKeepsOrder(o, id, ms); WarnKeepsDebts(o, id, ms);
    case Answer(id) => AnswerKeepsOrder(o, id); AnswerKeepsDebts(o, id);
    case Take => TakeKeepsOrder(o); TakeKeepsDebts(o);
    case Emit(_) => EmitKeepsInv(o, a);
    case SpendTicket => EmitKeepsInv(o, a);
    case Submit => AdmitKeepsInv(o, a);
    case Start(_) => AdmitKeepsInv(o, a);
    case Discard(_) => AdmitKeepsInv(o, a);
    case Drop => DropKeepsInv(o);
  }

  // ---------------------------------------------------------------------------------------
  // Every ticket is somewhere, once
  // ---------------------------------------------------------------------------------------

  predicate Delivered(ms: seq<Message>, n: nat) {
    exists i :: 0 <= i < |ms| && ms[i].seqNum == n
  }

  predicate QueuedReply(s: seq<Ticket>, n: nat) {
    exists i :: 0 <= i < |s| && s[i].seqNum == n
  }

  predicate QueuedReport(s: seq<Report>, n: nat) {
    exists i :: 0 <= i < |s| && s[i].seqNum == n
  }

  function One(b: bool): nat {
    if b then 1 else 0
  }

  function Places(o: Outbox, n: nat): nat {
    One(Delivered(o.delivered, n)) + One(QueuedReply(o.box.replies, n)) + One(QueuedReport(o.box.stales, n))
    + One(n in o.box.events) + One(n in o.superseded) + One(n in o.lost) + One(n in o.dropped)
  }

  ghost predicate Accounted(o: Outbox) {
    forall n: nat :: Places(o, n) == One(1 <= n < o.box.nextSeq)
  }

  lemma QueuedReplyStep(s: seq<Ticket>, t: Ticket, n: nat)
    ensures QueuedReply(s + [t], n) <==> QueuedReply(s, n) || t.seqNum == n
  {
    if QueuedReply(s, n) {
      var i :| 0 <= i < |s| && s[i].seqNum == n;
      assert (s + [t])[i].seqNum == n;
    }
    assert (s + [t])[|s|] == t;
  }

  lemma QueuedReportStep(s: seq<Report>, t: Report, n: nat)
    ensures QueuedReport(s + [t], n) <==> QueuedReport(s, n) || t.seqNum == n
  {
    if QueuedReport(s, n) {
      var i :| 0 <= i < |s| && s[i].seqNum == n;
      assert (s + [t])[i].seqNum == n;
    }
    assert (s + [t])[|s|] == t;
  }

  lemma DeliveredStep(s: seq<Message>, m: Message, n: nat)
    ensures Delivered(s + [m], n) <==> Delivered(s, n) || m.seqNum == n
  {
    if Delivered(s, n) {
      var i :| 0 <= i < |s| && s[i].seqNum == n;
      assert (s + [m])[i].seqNum == n;
    }
    assert (s + [m])[|s|] == m;
  }

  // Cutting entry `k` out of a list of reports with distinct tickets takes that ticket only.
  lemma QueuedReportCut(s: seq<Report>, k: nat, n: nat)
    requires k < |s| && (forall i, j :: 0 <= i < j < |s| ==> s[i].seqNum < s[j].seqNum)
    ensures QueuedReport(s[..k] + s[k + 1..], n) <==> QueuedReport(s, n) && n != s[k].seqNum
  {
    var c := s[..k] + s[k + 1..];
    assert forall i :: 0 <= i < |c| ==> c[i] == s[if i < k then i else i + 1];
    if QueuedReport(s, n) && n != s[k].seqNum {
      var i :| 0 <= i < |s| && s[i].seqNum == n;
      assert c[if i < k then i else i - 1].seqNum == n;
    }
  }

  lemma QueuedReplyCut(s: seq<Ticket>, n: nat)
    requires s != [] && (forall i, j :: 0 <= i < j < |s| ==> s[i].seqNum < s[j].seqNum)
    ensures QueuedReply(s[1..], n) <==> QueuedReply(s, n) && n != s[0].seqNum
  {
    if QueuedReply(s, n) && n != s[0].seqNum {
      var i :| 0 <= i < |s| && s[i].seqNum == n;
      assert s[1..][i - 1].seqNum == n;
    }
    if QueuedReply(s[1..], n) {
      var i :| 0 <= i < |s| - 1 && s[1..][i].seqNum == n;
      assert s[i + 1].seqNum == n;
    }
  }

  lemma ReportTicketsOf(o: Outbox, id: nat, k: nat)
    requires Owed(o) && k <= |o.box.stales| && (k < |o.box.stales| ==> o.box.stales[k].id == id)
    requires k == |o.box.stales| ==> !Reported(o.box.stales, id)
    ensures ReportTickets(o.box.stales, id) == if k < |o.box.stales| then {o.box.stales[k].seqNum} else {}
  {
  }

  lemma AnswerAccounts(o: Outbox, id: nat, n: nat)
    requires Inv(o) && Enabled(o, Answer(id)) && Places(o, n) == One(1 <= n < o.box.nextSeq)
    ensures Places(Apply(o, Answer(id)), n) == One(1 <= n < o.box.nextSeq + 1)
  {
    var s := o.box.stales;
    var k := ReportPlace(s, id);
    ReportTicketsOf(o, id, k);
    QueuedReplyStep(o.box.replies, Ticket(id, o.box.nextSeq), n);
    if k < |s| {
      QueuedReportCut(s, k, n);
      assert QueuedReport(s, s[k].seqNum);
    }
  }

  lemma WarnAccounts(o: Outbox, id: nat, ms: int, n: nat)
    requires o.box.nextSeq > 0 && Places(o, n) == One(1 <= n < o.box.nextSeq)
    ensures var o' := Apply(o, Warn(id, ms)); Places(o', n) == One(1 <= n < o'.box.nextSeq)
  {
    var s := o.box.stales;
    if Reported(s, id) {
      SetElapsedShape(s, id, ms);
      var s' := SetElapsed(s, id, ms);
      assert QueuedReport(s', n) <==> QueuedReport(s, n) by {
        if QueuedReport(s, n) {
          var i :| 0 <= i < |s| && s[i].seqNum == n;
          assert s'[i].seqNum == n;
        }
      }
    } else {
      QueuedReportStep(s, Report(id, o.box.nextSeq, ms), n);
    }
  }

  lemma TakeAccounts(o: Outbox, n: nat)
    requires Inv(o) && Places(o, n) == One(1 <= n < o.box.nextSeq)
    ensures Places(Apply(o, Take), n) == One(1 <= n < o.box.nextSeq)
  {
    var b := o.box;
    if TakeMessage(b).1.Some? {
      TakesOldest(o);
      var (b', m) := TakeMessage(b);
      hide TakeMessage;
      DeliveredStep(o.delivered, m.value, n);
      match m.value {
        case Reply(_, t) => QueuedReplyCut(b.replies, n); assert QueuedReply(b.replies, t);
        case Stale(_, t, _) => QueuedReportCut(b.stales, 0, n); assert QueuedReport(b.stales, t);
        case Event(t) => assert b.events == [t] + b'.events;
      }
    } else {
      TakesNothing(b);
    }
  }

  lemma QueuedTickets(b: Box, n: nat)
    ensures n in Queued(b) <==> QueuedReply(b.replies, n) || QueuedReport(b.stales, n) || n in b.events
  {
  }

  // What is dropped moves from its queue to the dropped tickets.
  lemma DropAccounts(o: Outbox, n: nat)
    requires Places(o, n) == One(1 <= n < o.box.nextSeq)
    ensures Places(Apply(o, Drop), n) == One(1 <= n < o.box.nextSeq)
  {
    QueuedTickets(o.box, n);
    hide Queued, Delivered;
    var b' := Apply(o, Drop).box;
    assert !QueuedReply(b'.replies, n) && !QueuedReport(b'.stales, n) && n !in b'.events;
    hide QueuedReply, QueuedReport;
  }

  lemma StepAccounts(o: Outbox, a: Action)
    requires Inv(o) && Accounted(o) && Enabled(o, a)
    ensures Accounted(Apply(o, a))
  {
    var o' := Apply(o, a);
    assert o.box.nextSeq > 0;
    forall n: nat ensures Places(o', n) == One(1 <= n < o'.box.nextSeq) {
      assert Places(o, n) == One(1 <= n < o.box.nextSeq);
      hide Inv;
      match a
      case Warn(id, ms) => WarnAccounts(o, id, ms, n);
      case Answer(id) => AnswerAccounts(o, id, n);
      case Take => TakeAccounts(o, n);
      case Drop => DropAccounts(o, n);
      case _ =>
    }
  }

  // ---------------------------------------------------------------------------------------
  // Whole runs
  // ---------------------------------------------------------------------------------------

  lemma {:induction false} RunKeepsInv(os: seq<Outbox>, acts: seq<Action>, k: nat)
    requires IsRun(os, acts) && k < |os|
    ensures Inv(os[k]) && Accounted(os[k])
  {
    if k > 0 {
      RunKeepsInv(os, acts, k - 1);
      hide Inv, Accounted, Apply;
      StepKeepsInv(os[k - 1], acts[k - 1]);
      StepAccounts(os[k - 1], acts[k - 1]);
    }
  }

  /** Replies, stale reports and events are handed out in strictly increasing ticket order,
      whatever the producer does in between. */
  lemma DeliveredInOrder(os: seq<Outbox>, acts: seq<Action>, k: nat, i: nat, j: nat)
    requires IsRun(os, acts) && k < |os| && i < j < |os[k].delivered|
    ensures os[k].delivered[i].seqNum < os[k].delivered[j].seqNum
  {
    RunKeepsInv(os, acts, k);
  }

  /** No message is lost or handed out twice: every ticket drawn so far is delivered, still
      queued, superseded by the reply to the same request, dropped at the end of a claim, or was
      never queued. */
  lemma NoMessageLost(os: seq<Outbox>, acts: seq<Action>, k: nat, n: nat)
    requires IsRun(os, acts) && k < |os|
    ensures Places(os[k], n) == One(1 <= n < os[k].box.nextSeq)
  {
    RunKeepsInv(os, acts, k);
  }

  /** No STALE is delivered after the REPLY to the same request, and a queued report is the
      only one of a request that still runs; so the stale list is empty after a drain. */
  lemma NoStaleAfterReply(os: seq<Outbox>, acts: seq<Action>, k: nat)
    requires IsRun(os, acts) && k < |os|
    ensures forall i, j :: 0 <= i < j < |os[k].delivered| && os[k].delivered[i].Reply? && os[k].delivered[j].Stale? ==>
              os[k].delivered[i].id != os[k].delivered[j].id
    ensures forall i :: 0 <= i < |os[k].box.stales| ==> os[k].box.stales[i].id in os[k].running
    ensures forall i, j :: 0 <= i < j < |os[k].box.stales| ==> os[k].box.stales[i].id != os[k].box.stales[j].id
    ensures os[k].running == {} ==> os[k].box.stales == []
  {
    RunKeepsInv(os, acts, k);
    if os[k].box.stales != [] { assert os[k].box.stales[0].id in os[k].running; }
  }
}

/** How a blocked poller hears of a message: producers that arm and fire the wake, closers that
    fire it outright, and the poller that disarms, clears, looks again and waits. One step per
    atomic access, lock or system call; any number of producers and closers. */
module WakeHandshake {
  // Where the poll of claim `g` stands. After `TimedOut` the host waits on its wake handle.
  datatype Pc =
    | Idle
    | Entering(g: nat)
    | Starting(g: nat)
    | ReadingEvents(g: nat)
    | ReadingReplies(g: nat, e: bool)
    | ReadingStales(g: nat, e: bool, r: bool)
    | Taking(g: nat, e: bool, r: bool, s: bool)
    | TestingClosed(g: nat)
    | Disarming(g: nat)
    | Clearing(g: nat)
    | RecheckingEvents(g: nat)
    | RecheckingReplies(g: nat)
    | RecheckingStales(g: nat)
    | RecheckingClosed(g: nat)
    | RecheckingGeneration(g: nat)
    | Deciding(g: nat)
    | Waiting(g: nat)
    | TimedOut(g: nat)

  datatype Wake = Wake(
    pc: Pc,
    armed: bool,            // wakeArmed
    signal: bool,           // the wake itself
    events: nat,            // messages queued, by source
    replies: nat,
    stales: nat,
    owesExchange: nat,      // producers between their enqueue and `wakeArmed.exchange`
    owesFire: nat,          // producers that found the wake disarmed and have not fired yet
    closersOwe: nat,        // closers between their store and their fire
    closedGeneration: nat,
    generation: nat,
    issued: set<nat>)       // claims whose token the host was given

  datatype ProducerAction = PushEvent | RefuseEvent | PushReply | Supersede | PushStale | Exchange | Fire
  datatype OwnerAction = Claim | Issue | Close | FireClose | Release | DropMessages
  datatype Source = Events | Replies | Stales
  datatype PollerAction = BeginPoll(g: nat) | Enter | Start(report: bool) | Read | Take(from: Source) | Test
                        | Disarm | Clear | Recheck | Decide(expired: bool) | Awake | Expire
  datatype Action = Producer(p: ProducerAction) | Owner(o: OwnerAction) | Poller(q: PollerAction)

  const START := Wake(Idle, false, false, 0, 0, 0, 0, 0, 0, 0, 0, {})

  // ---------------------------------------------------------------------------------------
  // Producers: enqueueReply, enqueueStaleWarn, the event ring, notifyOutbound
  // ---------------------------------------------------------------------------------------

  predicate ProducerEnabled(w: Wake, a: ProducerAction) {
    match a
    case Supersede => w.stales > 0
    case Exchange => w.owesExchange > 0
    case Fire => w.owesFire > 0
    case _ => true
  }

  // `Supersede` is the `enqueueReply` of a request whose stale report is queued.
  function ProducerApply(w: Wake, a: ProducerAction): Wake
    requires ProducerEnabled(w, a)
  {
    match a
    case PushEvent => w.(events := w.events + 1, owesExchange := w.owesExchange + 1)
    case RefuseEvent => w.(owesExchange := w.owesExchange + 1)
    case PushReply => w.(replies := w.replies + 1, owesExchange := w.owesExchange + 1)
    case Supersede => w.(stales := w.stales - 1, replies := w.replies + 1, owesExchange := w.owesExchange + 1)
    case PushStale => w.(stales := w.stales + 1, owesExchange := w.owesExchange + 1)
    case Exchange =>
      w.(armed := true, owesExchange := w.owesExchange - 1, owesFire := w.owesFire + if w.armed then 0 else 1)
    case Fire => w.(signal := true, owesFire := w.owesFire - 1)
  }

  // ---------------------------------------------------------------------------------------
  // The slot: claims, closeOutbound, releaseClaim, dropQueuedMessages
  // ---------------------------------------------------------------------------------------

  predicate InPoll(pc: Pc) {
    !pc.Idle? && !pc.TimedOut?
  }

  // A claim the host holds a token of is closed before it is released; messages are dropped
  // under the lock a poll holds.
  predicate OwnerEnabled(w: Wake, a: OwnerAction) {
    match a
    case Claim => w.generation % 2 == 0
    case Issue => w.generation % 2 == 1
    case Close => true
    case FireClose => w.closersOwe > 0
    case Release => w.generation % 2 == 1 && (w.generation in w.issued ==> w.closedGeneration == w.generation)
    case DropMessages => !InPoll(w.pc)
  }

  function OwnerApply(w: Wake, a: OwnerAction): Wake
    requires OwnerEnabled(w, a)
  {
    match a
    case Claim => w.(generation := w.generation + 1)
    case Issue => w.(issued := w.issued + {w.generation})
    case Close => w.(closedGeneration := w.generation, closersOwe := w.closersOwe + 1)
    case FireClose => w.(signal := true, closersOwe := w.closersOwe - 1)
    case Release => w.(generation := w.generation + 1)
    case DropMessages => w.(events := 0, replies := 0, stales := 0)
  }

  // ---------------------------------------------------------------------------------------
  // The poller: pollContext
  // ---------------------------------------------------------------------------------------

  predicate Rechecking(pc: Pc) {
    || pc.RecheckingEvents? || pc.RecheckingReplies? || pc.RecheckingStales?
    || pc.RecheckingClosed? || pc.RecheckingGeneration?
  }

  // What `Take(from)` may take: of the queues seen nonempty, the one with the oldest ticket,
  // which is a free choice here; an event when none was.
  predicate Takable(pc: Pc, from: Source)
    requires pc.Taking?
  {
    match from
    case Events => pc.e || (!pc.r && !pc.s)
    case Replies => pc.r
    case Stales => pc.s
  }

  predicate PollerEnabled(w: Wake, a: PollerAction) {
    match a
    case BeginPoll(g) => (w.pc == Idle || w.pc.TimedOut?) && g in w.issued
    case Enter => w.pc.Entering?
    case Start(_) => w.pc.Starting?
    case Read => w.pc.ReadingEvents? || w.pc.ReadingReplies? || w.pc.ReadingStales?
    case Take(from) => w.pc.Taking? && Takable(w.pc, from)
    case Test => w.pc.TestingClosed?
    case Disarm => w.pc.Disarming?
    case Clear => w.pc.Clearing?
    case Recheck => Rechecking(w.pc)
    case Decide(_) => w.pc.Deciding?
    case Awake => w.pc.Waiting? && w.signal
    case Expire => w.pc.Waiting?
  }

  function Queued(w: Wake, from: Source): nat {
    match from
    case Events => w.events
    case Replies => w.replies
    case Stales => w.stales
  }

  // The queue the poller looks at, and where it goes when that is empty.
  function RecheckNext(w: Wake): Pc
    requires Rechecking(w.pc)
  {
    match w.pc
    case RecheckingEvents(g) => if w.events > 0 then Starting(g) else RecheckingReplies(g)
    case RecheckingReplies(g) => if w.replies > 0 then Starting(g) else RecheckingStales(g)
    case RecheckingStales(g) => if w.stales > 0 then Starting(g) else RecheckingClosed(g)
    case RecheckingClosed(g) => if w.closedGeneration == g then Starting(g) else RecheckingGeneration(g)
    case RecheckingGeneration(g) => if w.generation != g then Starting(g) else Deciding(g)
  }

  function PollerNext(w: Wake, a: PollerAction): Pc
    requires PollerEnabled(w, a)
  {
    match a
    case BeginPoll(g) => Entering(g)
    case Enter => if w.generation != w.pc.g then Idle else Starting(w.pc.g)
    case Start(report) => if w.generation != w.pc.g || report then Idle else ReadingEvents(w.pc.g)
    case Read =>
      (match w.pc
       case ReadingEvents(g) => ReadingReplies(g, w.events > 0)
       case ReadingReplies(g, e) => ReadingStales(g, e, w.replies > 0)
       case ReadingStales(g, e, r) => Taking(g, e, r, w.stales > 0))
    case Take(from) => if Queued(w, from) > 0 then Idle else TestingClosed(w.pc.g)
    case Test => if w.closedGeneration == w.pc.g then Idle else Disarming(w.pc.g)
    case Disarm => Clearing(w.pc.g)
    case Clear => RecheckingEvents(w.pc.g)
    case Recheck => RecheckNext(w)
    case Decide(expired) => if expired then TimedOut(w.pc.g) else Waiting(w.pc.g)
    case Awake => Starting(w.pc.g)
    case Expire => Starting(w.pc.g)
  }

  function PollerApply(w: Wake, a: PollerAction): Wake
    requires PollerEnabled(w, a)
  {
    var next := w.(pc := PollerNext(w, a));
    match a
    case Take(Events) => if w.events > 0 then next.(events := w.events - 1) else next
    case Take(Replies) => if w.replies > 0 then next.(replies := w.replies - 1) else next
    case Take(Stales) => if w.stales > 0 then next.(stales := w.stales - 1) else next
    case Disarm => next.(armed := false)
    case Clear => next.(signal := false)
    case _ => next
  }

  predicate Enabled(w: Wake, a: Action) {
    match a
    case Producer(p) => ProducerEnabled(w, p)
    case Owner(o) => OwnerEnabled(w, o)
    case Poller(q) => PollerEnabled(w, q)
  }

  function Apply(w: Wake, a: Action): Wake
    requires Enabled(w, a)
  {
    match a
    case Producer(p) => ProducerApply(w, p)
    case Owner(o) => OwnerApply(w, o)
    case Poller(q) => PollerApply(w, q)
  }

  ghost predicate IsRun(ws: seq<Wake>, acts: seq<Action>) {
    && |ws| == |acts| + 1
    && ws[0] == START
    && forall i :: 0 <= i < |acts| ==> Enabled(ws[i], acts[i]) && ws[i + 1] == Apply(ws[i], acts[i])
  }

  // ---------------------------------------------------------------------------------------
  // The promise and the invariant behind it
  // ---------------------------------------------------------------------------------------

  predicate Ended(w: Wake, g: nat) {
    w.closedGeneration == g || w.generation != g
  }

  // Someone is bound to set the signal: a producer past its exchange, one whose exchange will
  // find the wake disarmed, or a closer.
  predicate WakeComing(w: Wake) {
    w.signal || w.owesFire > 0 || w.closersOwe > 0 || (w.owesExchange > 0 && !w.armed)
  }

  predicate Resting(pc: Pc) {
    pc.Waiting? || pc.TimedOut?
  }

  /** Whoever waits for the wake, inside `poll` or on the host's handle, has nothing to be told
      or will be woken. */
  predicate NoLostWake(w: Wake) {
    Resting(w.pc) && (w.events + w.replies + w.stales > 0 || Ended(w, w.pc.g)) ==> WakeComing(w)
  }

  predicate Cleared(pc: Pc) {
    Rechecking(pc) || pc.Deciding? || Resting(pc)
  }

  predicate EventsPending(pc: Pc) {
    pc.RecheckingEvents?
  }

  predicate RepliesPending(pc: Pc) {
    pc.RecheckingEvents? || pc.RecheckingReplies?
  }

  predicate StalesPending(pc: Pc) {
    pc.RecheckingEvents? || pc.RecheckingReplies? || pc.RecheckingStales?
  }

  // Once the signal was cleared on a claim that lasts, an armed wake was fired again, is about to
  // be, or its message sits where the poller has yet to look.
  predicate ArmedMeansSeen(w: Wake) {
    Cleared(w.pc) && w.armed ==>
      || w.signal || w.owesFire > 0 || w.closersOwe > 0 || Ended(w, w.pc.g)
      || (EventsPending(w.pc) && w.events > 0)
      || (RepliesPending(w.pc) && w.replies > 0)
      || (StalesPending(w.pc) && w.stales > 0)
  }

  // A message the poller looked for in vain came later, so its producer exchanged or will.
  predicate LateMeansExchange(w: Wake) {
    Cleared(w.pc)
    && ((!EventsPending(w.pc) && w.events > 0)
        || (!RepliesPending(w.pc) && w.replies > 0)
        || (!StalesPending(w.pc) && w.stales > 0)) ==>
      w.armed || w.owesExchange > 0
  }

  predicate CloseMeansFire(w: Wake) {
    && ((w.pc.RecheckingGeneration? || w.pc.Deciding? || Resting(w.pc)) && w.closedGeneration == w.pc.g ==>
          w.signal || w.closersOwe > 0)
    && ((w.pc.Deciding? || Resting(w.pc)) && w.generation != w.pc.g ==> w.signal || w.closersOwe > 0)
  }

  // Polls run under tokens that were handed out, for claims that were opened.
  ghost predicate TokensOnly(w: Wake) {
    && (forall g :: g in w.issued ==> g % 2 == 1 && g <= w.generation)
    && (!w.pc.Idle? ==> w.pc.g in w.issued)
  }

  ghost predicate Inv(w: Wake) {
    ArmedMeansSeen(w) && LateMeansExchange(w) && CloseMeansFire(w) && TokensOnly(w)
  }

  lemma InvMeansNoLostWake(w: Wake)
    requires Inv(w)
    ensures NoLostWake(w)
  {
  }

  /** The two steps the handshake does not survive, on a claim that lasts and with no closer under
      way. Both leave the wake armed, with its fire cleared and nothing left for the poller to find,
      so the producers to come fire nothing:
      the clear itself, when the disarmed wake was armed again by a producer whose message is
      gone; and the reply that replaces the only stale report between the poller's looks at the
      two queues. */
  predicate Slips(w: Wake, a: Action) {
    && w.armed && w.owesFire == 0 && w.closersOwe == 0 && !w.pc.Idle? && !Ended(w, w.pc.g)
    && if a == Poller(Clear) then w.events + w.replies + w.stales == 0
       else a == Producer(Supersede) && w.pc.RecheckingStales? && w.stales == 1 && !w.signal
  }

  lemma ProducerKeepsInv(w: Wake, a: ProducerAction)
    requires Inv(w) && ProducerEnabled(w, a)
    ensures Inv(ProducerApply(w, a)) <==> !Slips(w, Producer(a))
  {
  }

  lemma OwnerKeepsInv(w: Wake, a: OwnerAction)
    requires Inv(w) && OwnerEnabled(w, a)
    ensures Inv(OwnerApply(w, a))
  {
  }

  lemma PollerKeepsInv(w: Wake, a: PollerAction)
    requires Inv(w) && PollerEnabled(w, a)
    ensures Inv(PollerApply(w, a)) <==> !Slips(w, Poller(a))
  {
  }

  /** Every step keeps the invariant, except exactly the two that slip. */
  lemma StepKeepsInvIff(w: Wake, a: Action)
    requires Inv(w) && Enabled(w, a)
    ensures Inv(Apply(w, a)) <==> !Slips(w, a)
  {
    hide Inv, ProducerApply, OwnerApply, PollerApply;
    match a
    case Producer(p) => ProducerKeepsInv(w, p);
    case Owner(o) => OwnerKeepsInv(w, o);
    case Poller(q) => PollerKeepsInv(w, q);
  }

  // ---------------------------------------------------------------------------------------
  // Whole runs
  // ---------------------------------------------------------------------------------------

  ghost predicate NeverSlips(ws: seq<Wake>, acts: seq<Action>)
    requires IsRun(ws, acts)
  {
    forall i :: 0 <= i < |acts| ==> !Slips(ws[i], acts[i])
  }

  lemma {:induction false} RunKeepsInv(ws: seq<Wake>, acts: seq<Action>, k: nat)
    requires IsRun(ws, acts) && NeverSlips(ws, acts) && k < |ws|
    ensures Inv(ws[k])
  {
    if k > 0 {
      RunKeepsInv(ws, acts, k - 1);
      hide Inv, Apply, Slips;
      assert !Slips(ws[k - 1], acts[k - 1]);
      StepKeepsInvIff(ws[k - 1], acts[k - 1]);
    }
  }

  /** No wake-up is lost in a run that never slips, for any number of producers and closers
      racing the disarm, the clear, the second look and the wait. */
  lemma NoWakeLost(ws: seq<Wake>, acts: seq<Action>, k: nat)
    requires IsRun(ws, acts) && NeverSlips(ws, acts) && k < |ws|
    ensures NoLostWake(ws[k])
  {
    RunKeepsInv(ws, acts, k);
    InvMeansNoLostWake(ws[k]);
  }

  /** With no producer and no closer between two of its steps, a message or the end of the
      claim means the signal is set. */
  lemma QuiescentMeansSignalled(ws: seq<Wake>, acts: seq<Action>, k: nat)
    requires IsRun(ws, acts) && NeverSlips(ws, acts) && k < |ws|
    requires ws[k].owesExchange == 0 && ws[k].owesFire == 0 && ws[k].closersOwe == 0 && Resting(ws[k].pc)
    ensures ws[k].events + ws[k].replies + ws[k].stales > 0 || Ended(ws[k], ws[k].pc.g) ==> ws[k].signal
  {
    NoWakeLost(ws, acts, k);
  }

  // ---------------------------------------------------------------------------------------
  // The steps that slip
  // ---------------------------------------------------------------------------------------

  ghost predicate AllEnabled(w: Wake, acts: seq<Action>)
    decreases |acts|
  {
    acts == [] || (Enabled(w, acts[0]) && AllEnabled(Apply(w, acts[0]), acts[1..]))
  }

  // Where a list of steps leads.
  ghost function After(w: Wake, acts: seq<Action>): Wake
    requires AllEnabled(w, acts)
    decreases |acts|
  {
    if acts == [] then w else After(Apply(w, acts[0]), acts[1..])
  }

  lemma Next(w: Wake, a: Action, rest: seq<Action>)
    requires Enabled(w, a) && AllEnabled(Apply(w, a), rest)
    ensures AllEnabled(w, [a] + rest) && After(w, [a] + rest) == After(Apply(w, a), rest)
  {
    assert ([a] + rest)[1..] == rest;
  }

  // A poller that finds nothing new on a live claim goes to sleep, in three more looks.
  const LAST_LOOKS := [Poller(Recheck), Poller(Recheck), Poller(Recheck)]

  lemma FallsAsleep(w: Wake, expired: bool, rest: seq<Action>)
    requires w.pc.RecheckingStales? && w.stales == 0 && !Ended(w, w.pc.g)
    requires AllEnabled(w.(pc := if expired then TimedOut(w.pc.g) else Waiting(w.pc.g)), rest)
    ensures var acts := LAST_LOOKS + ([Poller(Decide(expired))] + rest);
            && AllEnabled(w, acts)
            && After(w, acts) == After(w.(pc := if expired then TimedOut(w.pc.g) else Waiting(w.pc.g)), rest)
  {
    var g := w.pc.g;
    var acts := [Poller(Decide(expired))] + rest;
    Next(w.(pc := Deciding(g)), Poller(Decide(expired)), rest);
    Next(w.(pc := RecheckingGeneration(g)), Poller(Recheck), acts);
    Next(w.(pc := RecheckingClosed(g)), Poller(Recheck), [Poller(Recheck)] + acts);
    Next(w, Poller(Recheck), [Poller(Recheck)] + ([Poller(Recheck)] + acts));
    assert LAST_LOOKS + acts == [Poller(Recheck)] + ([Poller(Recheck)] + ([Poller(Recheck)] + acts));
  }

  /** The reply is there, the poller sleeps, and the exchange still to come fires nothing. */
  lemma SupersedeSlipLosesWake(w: Wake, expired: bool)
    requires Enabled(w, Producer(Supersede)) && Slips(w, Producer(Supersede))
    ensures var acts := [Producer(Supersede)] + (LAST_LOOKS + ([Poller(Decide(expired))] + [Producer(Exchange)]));
            AllEnabled(w, acts) && After(w, acts).replies > 0 && Resting(After(w, acts).pc) && !NoLostWake(After(w, acts))
  {
    var w1 := Apply(w, Producer(Supersede));
    var asleep := w1.(pc := if expired then TimedOut(w.pc.g) else Waiting(w.pc.g));
    Next(asleep, Producer(Exchange), []);
    assert [Producer(Exchange)] + [] == [Producer(Exchange)];
    FallsAsleep(w1, expired, [Producer(Exchange)]);
    Next(w, Producer(Supersede), LAST_LOOKS + ([Poller(Decide(expired))] + [Producer(Exchange)]));
  }

  /** The poller sleeps, and the next message to come does not wake it. */
  lemma ClearSlipLosesWake(w: Wake, expired: bool)
    requires Enabled(w, Poller(Clear)) && Slips(w, Poller(Clear))
    ensures var late := [Producer(PushReply), Producer(Exchange)];
            var asleep := LAST_LOOKS + ([Poller(Decide(expired))] + late);
            var acts := [Poller(Clear)] + ([Poller(Recheck)] + ([Poller(Recheck)] + asleep));
            AllEnabled(w, acts) && After(w, acts).replies > 0 && Resting(After(w, acts).pc) && !NoLostWake(After(w, acts))
  {
    var g, late := w.pc.g, [Producer(PushReply), Producer(Exchange)];
    var w1 := Apply(w, Poller(Clear));
    var w3 := w1.(pc := RecheckingStales(g));
    var asleep := w1.(pc := if expired then TimedOut(g) else Waiting(g));
    var pushed := Apply(asleep, Producer(PushReply));
    Next(pushed, Producer(Exchange), []);
    Next(asleep, Producer(PushReply), [Producer(Exchange)] + []);
    assert [Producer(PushReply)] + ([Producer(Exchange)] + []) == late;
    FallsAsleep(w3, expired, late);
    var tail := LAST_LOOKS + ([Poller(Decide(expired))] + late);
    Next(w1.(pc := RecheckingReplies(g)), Poller(Recheck), tail);
    Next(w1, Poller(Recheck), [Poller(Recheck)] + tail);
    Next(w, Poller(Clear), [Poller(Recheck)] + ([Poller(Recheck)] + tail));
  }

  // A list of steps that can be taken, none of them a slip.
  ghost predicate NoSlipIn(w: Wake, acts: seq<Action>)
    decreases |acts|
  {
    acts == [] || (Enabled(w, acts[0]) && !Slips(w, acts[0]) && NoSlipIn(Apply(w, acts[0]), acts[1..]))
  }

  lemma {:induction false} NoSlipNoLoss(w: Wake, acts: seq<Action>)
    requires Inv(w) && NoSlipIn(w, acts)
    ensures AllEnabled(w, acts) && NoLostWake(After(w, acts))
    decreases |acts|
  {
    InvMeansNoLostWake(w);
    if acts != [] {
      StepKeepsInvIff(w, acts[0]);
      NoSlipNoLoss(Apply(w, acts[0]), acts[1..]);
    }
  }

  // Only a clear and a replacement can slip.
  lemma {:induction false} OthersNeverSlip(w: Wake, acts: seq<Action>)
    requires AllEnabled(w, acts)
    requires forall i :: 0 <= i < |acts| ==> acts[i] != Poller(Clear) && acts[i] != Producer(Supersede)
    ensures NoSlipIn(w, acts)
    decreases |acts|
  {
    if acts != [] { OthersNeverSlip(Apply(w, acts[0]), acts[1..]); }
  }

  // After a slip the wake can be lost without another one.
  lemma SlipLoses(w: Wake, a: Action) returns (rest: seq<Action>)
    requires Enabled(w, a) && Slips(w, a)
    ensures NoSlipIn(Apply(w, a), rest) && AllEnabled(Apply(w, a), rest) && !NoLostWake(After(Apply(w, a), rest))
  {
    if a == Poller(Clear) {
      var late := [Producer(PushReply), Producer(Exchange)];
      rest := [Poller(Recheck)] + ([Poller(Recheck)] + (LAST_LOOKS + ([Poller(Decide(false))] + late)));
      ClearSlipLosesWake(w, false);
    } else {
      rest := LAST_LOOKS + ([Poller(Decide(false))] + [Producer(Exchange)]);
      SupersedeSlipLosesWake(w, false);
    }
    assert ([a] + rest)[0] == a && ([a] + rest)[1..] == rest;
    assert forall i :: 0 <= i < |rest| ==> rest[i] != Poller(Clear) && rest[i] != Producer(Supersede);
    hide Enabled, Apply, Slips, NoLostWake;
    OthersNeverSlip(Apply(w, a), rest);
  }

  /** The promise itself, exactly: after a step the wake cannot be lost, whatever follows without a
      slip, if and only if the step was no slip. */
  lemma PromiseKeptIff(w: Wake, a: Action)
    requires Inv(w) && Enabled(w, a)
    ensures (forall rest :: NoSlipIn(Apply(w, a), rest) ==>
               AllEnabled(Apply(w, a), rest) && NoLostWake(After(Apply(w, a), rest)))
            <==> !Slips(w, a)
  {
    StepKeepsInvIff(w, a);
    hide Inv, Enabled, Apply, Slips, NoLostWake, NoSlipIn, AllEnabled, After;
    if Slips(w, a) {
      var rest := SlipLoses(w, a);
    } else {
      forall rest | NoSlipIn(Apply(w, a), rest)
        ensures AllEnabled(Apply(w, a), rest) && NoLostWake(After(Apply(w, a), rest))
      {
        NoSlipNoLoss(Apply(w, a), rest);
      }
    }
  }

  lemma {:induction false} OneMore(w: Wake, acts: seq<Action>, a: Action)
    requires AllEnabled(w, acts) && Enabled(After(w, acts), a)
    ensures AllEnabled(w, acts + [a]) && After(w, acts + [a]) == Apply(After(w, acts), a)
    decreases |acts|
  {
    if acts == [] {
      assert [a][1..] == [];
    } else {
      OneMore(Apply(w, acts[0]), acts[1..], a);
      assert (acts + [a])[1..] == acts[1..] + [a];
    }
  }

  // One more step of a run that starts in `START`.
  lemma Step(acts: seq<Action>, w: Wake, a: Action) returns (acts': seq<Action>, w': Wake)
    requires AllEnabled(START, acts) && After(START, acts) == w && Enabled(w, a)
    ensures AllEnabled(START, acts') && After(START, acts') == w' == Apply(w, a)
  {
    OneMore(START, acts, a);
    acts', w' := acts + [a], Apply(w, a);
  }

  lemma NoSteps()
    ensures AllEnabled(START, []) && After(START, []) == START
  {
  }

  // A poll of claim 1 up to the choice of a message.
  lemma PollUpToTake(acts: seq<Action>, w: Wake) returns (acts': seq<Action>, w': Wake)
    requires AllEnabled(START, acts) && After(START, acts) == w
    requires w.pc == Idle && w.issued == {1} && w.generation == 1 && w.closedGeneration == 0
    ensures AllEnabled(START, acts') && After(START, acts') == w'
    ensures w' == w.(pc := Taking(1, w.events > 0, w.replies > 0, w.stales > 0))
  {
    hide After, AllEnabled;
    acts', w' := Step(acts, w, Poller(BeginPoll(1)));
    acts', w' := Step(acts', w', Poller(Enter));
    assert w' == w.(pc := Starting(1));
    acts', w' := Step(acts', w', Poller(Start(false)));
    acts', w' := Step(acts', w', Poller(Read));
    assert w' == w.(pc := ReadingReplies(1, w.events > 0));
    acts', w' := Step(acts', w', Poller(Read));
    acts', w' := Step(acts', w', Poller(Read));
  }

  /** One producer and one poller are enough: the reply is collected between its push and its
      exchange, and the next poll disarms, is fired, and clears. */
  lemma ClearSlipHappens() returns (acts: seq<Action>, w: Wake)
    ensures AllEnabled(START, acts) && w == After(START, acts)
    ensures Enabled(w, Poller(Clear)) && Slips(w, Poller(Clear))
  {
    NoSteps();
    hide After, AllEnabled;
    acts, w := Step([], START, Owner(Claim));
    acts, w := Step(acts, w, Owner(Issue));
    acts, w := Step(acts, w, Producer(PushReply));
    assert w == Wake(Idle, false, false, 0, 1, 0, 1, 0, 0, 0, 1, {1});
    acts, w := PollUpToTake(acts, w);
    acts, w := Step(acts, w, Poller(Take(Replies)));
    assert w == Wake(Idle, false, false, 0, 0, 0, 1, 0, 0, 0, 1, {1});
    acts, w := PollUpToTake(acts, w);
    acts, w := Step(acts, w, Poller(Take(Events)));
    acts, w := Step(acts, w, Poller(Test));
    acts, w := Step(acts, w, Poller(Disarm));
    assert w == Wake(Clearing(1), false, false, 0, 0, 0, 1, 0, 0, 0, 1, {1});
    acts, w := Step(acts, w, Producer(Exchange));
    acts, w := Step(acts, w, Producer(Fire));
  }

  /** The other slip needs no more: a report is raised while the poller is between its disarm and
      its clear, and the reply to that request replaces it once the poller has looked at the
      replies. */
  lemma SupersedeSlipHappens() returns (acts: seq<Action>, w: Wake)
    ensures AllEnabled(START, acts) && w == After(START, acts)
    ensures Enabled(w, Producer(Supersede)) && Slips(w, Producer(Supersede))
  {
    NoSteps();
    hide After, AllEnabled;
    acts, w := Step([], START, Owner(Claim));
    acts, w := Step(acts, w, Owner(Issue));
    acts, w := PollUpToTake(acts, w);
    acts, w := Step(acts, w, Poller(Take(Events)));
    acts, w := Step(acts, w, Poller(Test));
    acts, w := Step(acts, w, Poller(Disarm));
    assert w == Wake(Clearing(1), false, false, 0, 0, 0, 0, 0, 0, 0, 1, {1});
    acts, w := Step(acts, w, Producer(PushStale));
    acts, w := Step(acts, w, Producer(Exchange));
    acts, w := Step(acts, w, Producer(Fire));
    acts, w := Step(acts, w, Poller(Clear));
    assert w == Wake(RecheckingEvents(1), true, false, 0, 0, 1, 0, 0, 0, 0, 1, {1});
    acts, w := Step(acts, w, Poller(Recheck));
    acts, w := Step(acts, w, Poller(Recheck));
  }

  /** What bounds the damage inside `poll`: when the wait slice expires, the next pass over the
      queues sees every message that was slept on. */
  lemma ExpiredSliceSeesAll(w: Wake)
    requires w.pc.Waiting? && !Ended(w, w.pc.g)
    ensures var looks := [Poller(Read)] + ([Poller(Read)] + ([Poller(Read)] + []));
            var acts := [Poller(Expire)] + ([Poller(Start(false))] + looks);
            AllEnabled(w, acts) && After(w, acts).pc == Taking(w.pc.g, w.events > 0, w.replies > 0, w.stales > 0)
  {
    var g, e, r := w.pc.g, w.events > 0, w.replies > 0;
    Next(w.(pc := ReadingStales(g, e, r)), Poller(Read), []);
    Next(w.(pc := ReadingReplies(g, e)), Poller(Read), [Poller(Read)] + []);
    Next(w.(pc := ReadingEvents(g)), Poller(Read), [Poller(Read)] + ([Poller(Read)] + []));
    Next(w.(pc := Starting(g)), Poller(Start(false)), [Poller(Read)] + ([Poller(Read)] + ([Poller(Read)] + [])));
    Next(w, Poller(Expire), [Poller(Start(false))] + ([Poller(Read)] + ([Poller(Read)] + ([Poller(Read)] + []))));
  }

  // ---------------------------------------------------------------------------------------
  // What a slip takes, and where the messages are
  // ---------------------------------------------------------------------------------------

  // The poller disarmed at step `d` and has taken no step since.
  ghost predicate DisarmedAt(acts: seq<Action>, d: nat, k: nat)
    requires k <= |acts|
  {
    d < k && acts[d] == Poller(Disarm) && forall l :: d < l < k ==> !acts[l].Poller?
  }

  ghost predicate ExchangedBetween(acts: seq<Action>, d: nat, k: nat)
    requires k <= |acts|
  {
    exists m :: d < m < k && acts[m] == Producer(Exchange)
  }

  lemma {:induction false} ArmedSinceDisarm(ws: seq<Wake>, acts: seq<Action>, k: nat) returns (d: nat)
    requires IsRun(ws, acts) && k < |ws| && ws[k].pc.Clearing?
    ensures DisarmedAt(acts, d, k) && (ws[k].armed <==> ExchangedBetween(acts, d, k))
  {
    var a := acts[k - 1];
    assert Enabled(ws[k - 1], a) && ws[k] == Apply(ws[k - 1], a);
    if a.Poller? {
      d := k - 1;
    } else {
      d := ArmedSinceDisarm(ws, acts, k - 1);
      if a == Producer(Exchange) { assert ExchangedBetween(acts, d, k); }
    }
  }

  /** A clear slips only if a producer exchanged between the poller's disarm and it: with nobody in
      between, disarming and clearing are safe. */
  lemma ClearSlipNeedsProducer(ws: seq<Wake>, acts: seq<Action>, k: nat) returns (d: nat, m: nat)
    requires IsRun(ws, acts) && k < |acts| && acts[k] == Poller(Clear) && Slips(ws[k], acts[k])
    ensures d < m < k && acts[d] == Poller(Disarm) && acts[m] == Producer(Exchange)
    ensures forall l :: d < l < k ==> !acts[l].Poller?
  {
    assert Enabled(ws[k], acts[k]);
    d := ArmedSinceDisarm(ws, acts, k);
    m :| d < m < k && acts[m] == Producer(Exchange);
  }

  // How many messages of a source came in, and how many went out: taken, superseded or dropped.
  function Comes(a: Action, from: Source): nat {
    match from
    case Events => if a == Producer(PushEvent) then 1 else 0
    case Replies => if a == Producer(PushReply) || a == Producer(Supersede) then 1 else 0
    case Stales => if a == Producer(PushStale) then 1 else 0
  }

  function Goes(w: Wake, a: Action, from: Source): nat {
    if a == Owner(DropMessages) then Queued(w, from)
    else if a == Poller(Take(from)) && Queued(w, from) > 0 then 1
    else if a == Producer(Supersede) && from == Stales then 1
    else 0
  }

  ghost function Came(acts: seq<Action>, k: nat, from: Source): nat
    requires k <= |acts|
  {
    if k == 0 then 0 else Came(acts, k - 1, from) + Comes(acts[k - 1], from)
  }

  ghost function Went(ws: seq<Wake>, acts: seq<Action>, k: nat, from: Source): nat
    requires k <= |acts| < |ws|
  {
    if k == 0 then 0 else Went(ws, acts, k - 1, from) + Goes(ws[k - 1], acts[k - 1], from)
  }

  lemma StepCounts(w: Wake, a: Action, from: Source)
    requires Enabled(w, a)
    ensures Queued(Apply(w, a), from) + Goes(w, a, from) == Queued(w, from) + Comes(a, from)
  {
  }

  /** Whatever came in was taken, superseded or dropped, or is still queued. */
  lemma {:induction false} MessagesCounted(ws: seq<Wake>, acts: seq<Action>, k: nat, from: Source)
    requires IsRun(ws, acts) && k < |ws|
    ensures Queued(ws[k], from) + Went(ws, acts, k, from) == Came(acts, k, from)
  {
    if k > 0 {
      MessagesCounted(ws, acts, k - 1, from);
      StepCounts(ws[k - 1], acts[k - 1], from);
      hide Apply, Enabled, Queued, Goes, Comes;
    }
  }
}

/** The event ring over whole runs: a producer that enqueues, a consumer that peeks and commits or
    that pops into the held event. Each step is what one locked section of `EventRing` does to
    the blocks and the queue. */
module EventRuns {
  import opened Wrappers
  import opened EventMemory
  import opened EventRing

  // How an event left the ring.
  datatype Exit = Taken(event: Event) | Dropped(event: Event)

  // `enqueued` records every event that went in, `left` every one that came out.
  datatype Ring = Ring(b: Blocks, head: nat, contents: seq<Event>, enqueued: seq<Event>, left: seq<Exit>)

  datatype Action =
    | Enqueue(x: Entry)
    | Refuse(mem: Memory)           // full, or out of memory: a slab nobody reads may have changed
    | Commit
    | ReleaseHeld
    | Pop
    | Clear

  function Capacity(r: Ring): int {
    |r.b.events| - 1
  }

  function Tail(r: Ring): nat {
    SlotOf(r.head, |r.contents|, if Capacity(r) < 0 then 0 else Capacity(r))
  }

  ghost predicate Enabled(r: Ring, a: Action) {
    && r.head < Capacity(r) && |r.b.names| == |r.b.slabs| == |r.b.events|
    && match a
       case Enqueue(x) => |r.contents| < Capacity(r) && Tail(r) < Capacity(r) && Fits(r.b, Tail(r), x)
       case Refuse(mem) =>
         Sound(r.b.(mem := mem)) && forall j :: 0 <= j < |r.b.events| ==>
               Read(mem, r.b.events[j]) == Read(r.b.mem, r.b.events[j])
       case Commit => r.contents != []
       case ReleaseHeld => true
       case Pop => r.contents != [] && r.b.events[Capacity(r)] == NO_EVENT
       case Clear => true
  }

  function Drops(es: seq<Event>): seq<Exit> {
    seq(|es|, i requires 0 <= i < |es| => Dropped(es[i]))
  }

  function Events(left: seq<Exit>): seq<Event> {
    seq(|left|, i requires 0 <= i < |left| => left[i].event)
  }

  ghost function Apply(r: Ring, a: Action): Ring
    requires Enabled(r, a)
  {
    match a
    case Enqueue(x) =>
      r.(b := Entered(r.b, Tail(r), x), contents := r.contents + [Said(x)], enqueued := r.enqueued + [Said(x)])
    case Refuse(mem) => r.(b := r.b.(mem := mem))
    case Commit =>
      r.(b := Released(r.b, r.head), head := NextSlot(r.head, Capacity(r)), contents := r.contents[1..],
            left := r.left + [Taken(r.contents[0])])
    case ReleaseHeld => r.(b := Released(r.b, Capacity(r)))
    case Pop =>
      r.(b := Moved(r.b, r.head, Capacity(r)), head := NextSlot(r.head, Capacity(r)), contents := r.contents[1..],
            left := r.left + [Taken(r.contents[0])])
    case Clear =>
      r.(b := Drained(r.b, r.head, |r.contents|), head := 0, contents := [], left := r.left + Drops(r.contents))
  }

  ghost predicate Inv(r: Ring) {
    && |r.b.events| > 1 && Sound(r.b) && Queued(r.b, r.head, r.contents)
    && r.enqueued == Events(r.left) + r.contents
  }

  ghost predicate IsRun(rs: seq<Ring>, acts: seq<Action>) {
    && |rs| == |acts| + 1 && Inv(rs[0]) && rs[0].enqueued == []
    && forall i :: 0 <= i < |acts| ==> Enabled(rs[i], acts[i]) && rs[i + 1] == Apply(rs[i], acts[i])
  }

  lemma EnqueueKeepsInv(r: Ring, a: Action)
    requires Inv(r) && Enabled(r, a) && a.Enqueue?
    ensures Inv(Apply(r, a))
  {
    hide Sound, Queued, Fits, Read;
    EnteredQueued(r.b, r.head, r.contents, a.x);
  }

  lemma EventsGrow(left: seq<Exit>, e: Exit)
    ensures Events(left + [e]) == Events(left) + [e.event]
  {
  }

  lemma ConsumeKeepsInv(r: Ring, a: Action)
    requires Inv(r) && Enabled(r, a) && !a.Enqueue?
    ensures Inv(Apply(r, a))
  {
    hide Sound, Queued, Fits, Read;
    match a
    case Clear =>
      DrainedQueued(r.b, r.head, r.contents);
      assert Events(r.left + Drops(r.contents)) == Events(r.left) + r.contents;
    case Refuse(mem) => SameReadsQueued(r.b, mem, r.head, r.contents);
    case Commit =>
      ReleasedSound(r.b, r.head);
      CommittedQueued(r.b, r.head, r.contents);
      EventsGrow(r.left, Taken(r.contents[0]));
    case ReleaseHeld => ReleasedSound(r.b, Capacity(r)); HeldReleasedQueued(r.b, r.head, r.contents);
    case Pop =>
      MovedSound(r.b, r.head, Capacity(r));
      MovedQueued(r.b, r.head, r.contents);
      EventsGrow(r.left, Taken(r.contents[0]));
  }

  lemma {:induction false} RunKeepsInv(rs: seq<Ring>, acts: seq<Action>, k: nat)
    requires IsRun(rs, acts) && k < |rs|
    ensures Inv(rs[k])
  {
    if k > 0 {
      RunKeepsInv(rs, acts, k - 1);
      hide Inv, Apply;
      if acts[k - 1].Enqueue? { EnqueueKeepsInv(rs[k - 1], acts[k - 1]); }
            else { ConsumeKeepsInv(rs[k - 1], acts[k - 1]); }
    }
  }

  /** A bounded FIFO: what came out, taken or dropped by a clear, is what went in, in order, and what
      is still inside is the rest; every block is owned once, whatever was refused, committed, held,
      swapped or cleared. */
  lemma FirstInFirstOut(rs: seq<Ring>, acts: seq<Action>, k: nat)
    requires IsRun(rs, acts) && k < |rs|
    ensures rs[k].enqueued == Events(rs[k].left) + rs[k].contents && |rs[k].contents| <= Capacity(rs[k])
    ensures Sound(rs[k].b)
  {
    RunKeepsInv(rs, acts, k);
  }

  lemma HasPlaces(r: Ring)
    requires Inv(r)
    ensures r.head < Capacity(r) && |r.b.events| > 1
  {
  }

  ghost function Held(r: Ring): Event
    requires |r.b.events| > 0
  {
    Read(r.b.mem, r.b.events[|r.b.events| - 1])
  }

  lemma StepKeepsHeld(r: Ring, a: Action)
    requires Inv(r) && Enabled(r, a) && !a.ReleaseHeld? && !a.Pop?
    ensures |Apply(r, a).b.events| == |r.b.events| && Held(Apply(r, a)) == Held(r)
  {
    var cap := Capacity(r);
    hide Sound, Fits, Read, Queued;
    match a
    case Enqueue(x) => EnteredKeepsOthers(r.b, Tail(r), x, cap);
    case Clear => DrainedQueued(r.b, r.head, r.contents);
    case Commit => ReleasedKeepsOthers(r.b, r.head, cap);
    case Refuse(_) =>
  }

  /** The bytes a poller holds do not change until it releases or pops again, whatever is
      enqueued, refused, committed or cleared meanwhile. */
  lemma {:induction false} HeldStays(rs: seq<Ring>, acts: seq<Action>, i: nat, j: nat)
    requires IsRun(rs, acts) && i <= j < |rs|
    requires forall k :: i <= k < j ==> !acts[k].ReleaseHeld? && !acts[k].Pop?
    ensures |rs[j].b.events| == |rs[i].b.events| > 0 && Held(rs[j]) == Held(rs[i])
    decreases j - i
  {
    hide Inv, Apply, Enabled, Held;
    RunKeepsInv(rs, acts, i);
    HasPlaces(rs[i]);
    if i < j {
      HeldStays(rs, acts, i, j - 1);
      RunKeepsInv(rs, acts, j - 1);
      StepKeepsHeld(rs[j - 1], acts[j - 1]);
    }
  }

  // The slot a dispatcher has peeked, and what it reads there.
  lemma StepKeepsPeeked(r: Ring, a: Action)
    requires Inv(r) && Enabled(r, a) && r.contents != [] && !a.Commit? && !a.Pop? && !a.Clear?
    ensures var r' := Apply(r, a);
            && r'.head == r.head < |r'.b.events| && r'.b.events[r'.head] == r.b.events[r.head]
            && r'.contents != [] && r'.contents[0] == r.contents[0]
            && Read(r'.b.mem, r'.b.events[r'.head]) == Read(r.b.mem, r.b.events[r.head])
  {
    var cap := Capacity(r);
    EndsOfQueue(r.b, r.head, r.contents);
    hide Sound, Fits, Read;
    match a
    case Enqueue(x) => EnteredKeepsOthers(r.b, Tail(r), x, r.head);
    case ReleaseHeld => ReleasedKeepsOthers(r.b, cap, r.head);
    case Refuse(_) =>
  }

  /** What a dispatcher has peeked stays in its slot, with its bytes, until it is committed. (Only a
      build that polls clears the ring, and that one has no dispatcher.) */
  lemma {:induction false} PeekedStays(rs: seq<Ring>, acts: seq<Action>, i: nat, j: nat)
    requires IsRun(rs, acts) && i <= j < |rs| && rs[i].contents != []
    requires forall k :: i <= k < j ==> !acts[k].Commit? && !acts[k].Pop? && !acts[k].Clear?
    ensures rs[j].head == rs[i].head < |rs[i].b.events| && rs[j].head < |rs[j].b.events| && rs[j].contents != []
    ensures rs[j].b.events[rs[j].head] == rs[i].b.events[rs[i].head]
    ensures Read(rs[j].b.mem, rs[j].b.events[rs[j].head]) == Read(rs[i].b.mem, rs[i].b.events[rs[i].head])
    decreases j - i
  {
    hide Inv, Apply, Enabled, Read;
    RunKeepsInv(rs, acts, i);
    HasPlaces(rs[i]);
    if i < j {
      PeekedStays(rs, acts, i, j - 1);
      RunKeepsInv(rs, acts, j - 1);
      StepKeepsPeeked(rs[j - 1], acts[j - 1]);
    }
  }

  // ---------------------------------------------------------------------------------------
  // The queue in memory follows a run
  // ---------------------------------------------------------------------------------------

  datatype History = History(rings: seq<Ring>, acts: seq<Action>)

  ghost predicate IsHistory(h: History) {
    h.rings != [] && IsRun(h.rings, h.acts)
  }

  ghost function Now(h: History): Ring
    requires h.rings != []
  {
    h.rings[|h.rings| - 1]
  }

  // `longer` goes on from `h` by so many steps.
  ghost predicate Extends(h: History, longer: History, n: nat) {
    h.rings <= longer.rings && h.acts <= longer.acts && |longer.acts| == |h.acts| + n
  }

  ghost function Then(h: History, a: Action): (longer: History)
    requires IsHistory(h) && Enabled(Now(h), a)
    ensures IsHistory(longer) && Now(longer) == Apply(Now(h), a) && h.rings <= longer.rings
    ensures longer.acts == h.acts + [a]
  {
    hide Enabled, Apply, Inv;
    History(h.rings + [Apply(Now(h), a)], h.acts + [a])
  }

  // The history ends in what the queue holds.
  ghost predicate Follows(q: EventQueue, h: History)
    reads q, q.heap, q.buf, q.slab, q.nameSlab
  {
    && q.Valid() && IsHistory(h)
    && Now(h).b == q.State() && Now(h).head == q.head && Now(h).contents == q.contents
  }

  lemma Steady(q: EventQueue)
    requires q.Valid()
    ensures var b := q.State();
            && |b.names| == |b.slabs| == |b.events| && |b.events| - 1 == q.capacity && q.head < q.capacity
            && b.events[q.capacity] == q.held && q.tail == SlotOf(q.head, |q.contents|, q.capacity)
            && q.count == |q.contents| <= q.capacity
            && (q.count < q.capacity ==> q.tail < q.capacity)
  {
  }

  method Opened(capacity: nat, maxPayload: nat, maxName: nat, noSlab: set<nat>, noName: set<nat>)
    returns (q: EventQueue, ghost h: History)
    requires capacity > 0
    ensures Follows(q, h) && Now(h).enqueued == [] && fresh(q)
  {
    q := new EventQueue(capacity, maxPayload, maxName, noSlab, noName);
    h := History([Ring(q.State(), q.head, [], [], [])], []);
  }

  lemma StoredStep(h: History, x: Entry) returns (h': History)
    requires IsHistory(h) && |Now(h).b.names| == |Now(h).b.slabs| == |Now(h).b.events|
    requires var r := Now(h);
             && r.head < Capacity(r) && |r.contents| < Capacity(r) && Tail(r) < Capacity(r) && Fits(r.b, Tail(r), x)
    ensures IsHistory(h') && Extends(h, h', 1) && h'.acts[|h.acts|] == Action.Enqueue(x)
    ensures var r, r' := Now(h), Now(h');
            && r'.b == Entered(r.b, Tail(r), x) && r'.head == r.head && r'.contents == r.contents + [Said(x)]
            && r'.enqueued == r.enqueued + [Said(x)]
  {
    hide IsRun, Fits, Said, Entered;
    h' := Then(h, Action.Enqueue(x));
  }

  lemma RefusedStep(h: History, mem: Memory) returns (h': History)
    requires IsHistory(h) && |Now(h).b.names| == |Now(h).b.slabs| == |Now(h).b.events| && Now(h).head < Capacity(Now(h))
    requires var b := Now(h).b;
             Sound(b.(mem := mem)) && forall j :: 0 <= j < |b.events| ==> Read(mem, b.events[j]) == Read(b.mem, b.events[j])
    ensures IsHistory(h') && Extends(h, h', 1) && h'.acts[|h.acts|] == Refuse(mem)
    ensures Now(h') == Now(h).(b := Now(h).b.(mem := mem))
  {
    hide IsRun, Sound, Read;
    h' := Then(h, Refuse(mem));
  }

  // Refused or stored, an enqueue is one step.
  method Enqueue(q: EventQueue, name: Option<seq<byte>>, nameId: nat, seqNum: nat, src: seq<byte>, dataLen: int,
                 short: Shortage, ghost h: History)
    returns (ok: bool, ghost h': History)
    requires Follows(q, h) && dataLen <= |src| && 0 !in Chars(name)
    modifies q, q.heap, q.buf
    ensures ok <==> |old(q.contents)| < q.capacity
                    && q.Stores(old(q.nameSlab[q.tail]), old(q.slab[q.tail]), NameBytes(name),
                                if dataLen <= 0 then [] else src[..dataLen], short)
    ensures Follows(q, h') && Extends(h, h', 1) && (h'.acts[|h.acts|].Enqueue? <==> ok)
    ensures q.held == old(q.held) && q.Held() == old(q.Held())
    ensures Now(h').enqueued == Now(h).enqueued + if !ok then [] else
              [Event(Chars(name), nameId, seqNum, if dataLen <= 0 then [] else src[..dataLen])]
  {
    Steady(q);
    hide EventQueue.Valid, EventQueue.Stores, IsRun, Fits, Said, Sound, Queued, Read, Entered, Enabled, Apply;
    ghost var x;
    ok, x := q.TryEnqueueEvent(name, nameId, seqNum, src, dataLen, short);
    if ok {
      assert q.contents[|q.contents| - 1] == Said(x);
      h' := StoredStep(h, x);
    } else {
      SoundState(q);
      h' := RefusedStep(h, q.heap.mem);
    }
  }

  lemma SoundState(q: EventQueue)
    requires q.Valid()
    ensures Sound(q.State())
  {
  }

  method CommitDequeue(q: EventQueue, ghost h: History) returns (ghost h': History)
    requires Follows(q, h)
    modifies q`owner, q`head, q`count, q`contents, q.heap, q.buf
    ensures Follows(q, h') && Extends(h, h', if old(q.contents) == [] then 0 else 1)
    ensures Now(h').left == Now(h).left + if old(q.contents) == [] then [] else [Taken(old(q.contents)[0])]
    ensures q.held == old(q.held) && q.Held() == old(q.Held())
  {
    Steady(q);
    hide EventQueue.Valid, IsRun;
    h' := if q.contents == [] then h else Then(h, Commit);
    q.CommitDequeue();
  }

  /** What the poller holds after a pop is the event that left: two steps of a run. */
  method PopEventInto(q: EventQueue, ghost h: History) returns (ok: bool, ghost h': History)
    requires Follows(q, h)
    modifies q`owner, q`held, q`heldSlab, q`heldNameSlab, q`head, q`count, q`contents, q.heap, q.buf, q.slab, q.nameSlab
    ensures Follows(q, h') && Extends(h, h', if ok then 2 else 1) && (ok <==> old(q.contents) != [])
    ensures Now(h').left == Now(h).left + if ok then [Taken(q.Held())] else []
    ensures !ok ==> q.held == NO_EVENT
  {
    Steady(q);
    hide EventQueue.Valid, IsRun;
    h' := Then(h, ReleaseHeld);
    if q.contents != [] { h' := Then(h', Pop); }
    ok := q.PopEventInto();
  }

  // The ring is emptied for the next owner; the held event is not in it.
  method ClearEventQueue(q: EventQueue, ghost h: History) returns (ghost h': History)
    requires Follows(q, h)
    modifies q`owner, q`head, q`tail, q`count, q`contents, q.heap, q.buf
    ensures Follows(q, h') && Extends(h, h', 1) && q.held == old(q.held) && q.Held() == old(q.Held())
    ensures Now(h').left == Now(h).left + Drops(old(q.contents))
  {
    Steady(q);
    hide EventQueue.Valid, IsRun;
    h' := Then(h, Clear);
    q.ClearEventQueue();
  }
}

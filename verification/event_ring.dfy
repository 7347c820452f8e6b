/** The ring of queued events. The bytes of an event sit in the slabs of its ring slot or, when
    oversized, in a block of its own; a poller takes an event by swapping slabs with the slot. */
module EventRing {
  import opened Wrappers
  import opened EventMemory

  // ---------------------------------------------------------------------------------------
  // The ring as a queue
  // ---------------------------------------------------------------------------------------

  // The ring slot of the `k`-th queued event.
  function SlotOf(head: nat, k: nat, cap: nat): nat {
    if head + k < cap then head + k else head + k - cap
  }

  // Slots `0..cap` are the ring; the last place of `b` is the held event.
  ghost predicate Queued(b: Blocks, head: nat, contents: seq<Event>) {
    var cap := |b.events| - 1;
    && head < cap && |contents| <= cap
    && (forall k :: 0 <= k < |contents| ==> Read(b.mem, b.events[SlotOf(head, k, cap)]) == contents[k])
    && (forall k :: |contents| <= k < cap ==> b.events[SlotOf(head, k, cap)] == NO_EVENT)
  }

  lemma EndsOfQueue(b: Blocks, head: nat, contents: seq<Event>)
    requires Queued(b, head, contents)
    ensures contents != [] ==> Read(b.mem, b.events[head]) == contents[0]
    ensures |contents| < |b.events| - 1 ==>
              var i := SlotOf(head, |contents|, |b.events| - 1); i < |b.events| - 1 && b.events[i] == NO_EVENT
    ensures contents != [] && |contents| < |b.events| - 1 ==> SlotOf(head, |contents|, |b.events| - 1) != head
  {
    assert contents != [] ==> Read(b.mem, b.events[SlotOf(head, 0, |b.events| - 1)]) == contents[0];
  }

  lemma SameReadsQueued(b: Blocks, mem: Memory, head: nat, contents: seq<Event>)
    requires Queued(b, head, contents)
    requires forall j :: 0 <= j < |b.events| ==> Read(mem, b.events[j]) == Read(b.mem, b.events[j])
    ensures Queued(b.(mem := mem), head, contents)
  {
    var cap := |b.events| - 1;
    forall k | 0 <= k < |contents|
      ensures Read(mem, b.events[SlotOf(head, k, cap)]) == contents[k]
    {
      assert Read(b.mem, b.events[SlotOf(head, k, cap)]) == contents[k];
    }
  }

  lemma EmptyQueued(b: Blocks)
    requires |b.events| > 1 && forall i :: 0 <= i < |b.events| - 1 ==> b.events[i] == NO_EVENT
    ensures Queued(b, 0, [])
  {
  }

  lemma RewoundQueued(b: Blocks, head: nat)
    requires Queued(b, head, [])
    ensures Queued(b, 0, [])
  {
    var cap := |b.events| - 1;
    forall i | 0 <= i < cap
      ensures b.events[i] == NO_EVENT
    {
      var k := if i >= head then i - head else i + cap - head;
      assert SlotOf(head, k, cap) == i && b.events[SlotOf(head, k, cap)] == NO_EVENT;
    }
  }

  function NextSlot(i: nat, cap: nat): nat
    requires i < cap
  {
    (i + 1) % cap
  }

  lemma NextSlotWraps(i: nat, cap: nat)
    requires i < cap
    ensures NextSlot(i, cap) == if i + 1 == cap then 0 else i + 1
  {
  }

  lemma NextSlotOf(head: nat, k: nat, cap: nat)
    requires head < cap && k < cap
    ensures SlotOf(NextSlot(head, cap), k, cap) == SlotOf(head, k + 1, cap)
    ensures NextSlot(SlotOf(head, k, cap), cap) == SlotOf(head, k + 1, cap)
  {
    hide NextSlot;
    NextSlotWraps(head, cap);
    NextSlotWraps(SlotOf(head, k, cap), cap);
  }

  lemma FilledQueued(b: Blocks, head: nat, contents: seq<Event>, e: QueuedEvent, nb: seq<byte>, db: seq<byte>,
                     mem1: Memory, mem2: Memory, name: Copy, data: Copy)
    requires Sound(b) && Queued(b, head, contents) && |contents| < |b.events| - 1
    requires var i := SlotOf(head, |contents|, |b.events| - 1); Filled(b, i, e, nb, db, mem1, mem2, name, data)
    requires nb == [] || (nb[|nb| - 1] == 0 && 0 !in nb[..|nb| - 1])
    requires |db| == if e.dataLen <= 0 then 0 else e.dataLen
    ensures var i := SlotOf(head, |contents|, |b.events| - 1);
            Queued(Stored(b, i, e, mem2, name, data), head,
                   contents + [Event(if nb == [] then [] else nb[..|nb| - 1], e.nameId, e.seqNum, db)])
  {
    var cap := |b.events| - 1;
    var i := SlotOf(head, |contents|, cap);
    FilledReads(b, i, e, nb, db, mem1, mem2, name, data);
    forall k | 0 <= k < |contents|
      ensures Read(mem2, b.events[SlotOf(head, k, cap)]) == contents[k]
    {
      FilledKeepsOthers(b, i, e, nb, db, mem1, mem2, name, data, SlotOf(head, k, cap));
    }
    hide Read, Filled, Sound;
  }

  lemma CommittedQueued(b: Blocks, head: nat, contents: seq<Event>)
    requires Sound(b) && Queued(b, head, contents) && contents != []
    ensures Queued(Released(b, head), NextSlot(head, |b.events| - 1), contents[1..])
  {
    var cap := |b.events| - 1;
    forall k | 0 <= k < cap
      ensures SlotOf(NextSlot(head, cap), k, cap) == SlotOf(head, k + 1, cap)
    {
      NextSlotOf(head, k, cap);
    }
    forall k | 1 <= k < |contents|
      ensures Read(Released(b, head).mem, b.events[SlotOf(head, k, cap)]) == contents[k]
    {
      ReleasedKeepsOthers(b, head, SlotOf(head, k, cap));
    }
    hide Read, Sound, NextSlot;
  }

  lemma HeldReleasedQueued(b: Blocks, head: nat, contents: seq<Event>)
    requires Sound(b) && Queued(b, head, contents)
    ensures Queued(Released(b, |b.events| - 1), head, contents)
  {
    var cap := |b.events| - 1;
    forall k | 0 <= k < |contents|
      ensures Read(Released(b, cap).mem, b.events[SlotOf(head, k, cap)]) == contents[k]
    {
      ReleasedKeepsOthers(b, cap, SlotOf(head, k, cap));
    }
    hide Read, Sound;
  }

  lemma MovedQueued(b: Blocks, head: nat, contents: seq<Event>)
    requires Sound(b) && Queued(b, head, contents) && contents != [] && b.events[|b.events| - 1] == NO_EVENT
    ensures var cap := |b.events| - 1; var b' := Moved(b, head, cap);
            Queued(b', NextSlot(head, cap), contents[1..]) && Read(b'.mem, b'.events[cap]) == contents[0]
  {
    var cap := |b.events| - 1;
    forall k | 0 <= k < cap
      ensures SlotOf(NextSlot(head, cap), k, cap) == SlotOf(head, k + 1, cap)
    {
      NextSlotOf(head, k, cap);
    }
    assert Read(b.mem, b.events[SlotOf(head, 0, cap)]) == contents[0];
    hide Read, Sound, NextSlot;
  }

  // The blocks after the `n` oldest events were released, slot after slot.
  function Drained(b: Blocks, head: nat, n: nat): (d: Blocks)
    requires head < |b.events| - 1
    ensures |d.events| == |b.events|
    decreases n
  {
    if n == 0 then b else Drained(Released(b, head), NextSlot(head, |b.events| - 1), n - 1)
  }

  lemma {:induction false} DrainedQueued(b: Blocks, head: nat, contents: seq<Event>)
    requires Sound(b) && Queued(b, head, contents)
    ensures var d, cap := Drained(b, head, |contents|), |b.events| - 1;
            && Sound(d) && Queued(d, 0, [])
            && d.events[cap] == b.events[cap] && Read(d.mem, d.events[cap]) == Read(b.mem, b.events[cap])
    decreases |contents|
  {
    if contents == [] {
      RewoundQueued(b, head);
    } else {
      var cap := |b.events| - 1;
      CommittedQueued(b, head, contents);
      ReleasedSound(b, head);
      ReleasedKeepsOthers(b, head, cap);
      DrainedQueued(Released(b, head), NextSlot(head, cap), contents[1..]);
    }
  }

  // What an enqueue wrote, and where its two copies went.
  datatype Entry = Entry(e: QueuedEvent, name: seq<byte>, payload: seq<byte>, mem1: Memory, mem2: Memory,
                         nameCopy: Copy, dataCopy: Copy)

  // The entry fits the empty slot `i`: its name ends in its only NUL, its payload has its length.
  ghost predicate Fits(b: Blocks, i: nat, x: Entry)
    requires i < |b.events| && |b.names| == |b.slabs| == |b.events|
  {
    && Filled(b, i, x.e, x.name, x.payload, x.mem1, x.mem2, x.nameCopy, x.dataCopy)
    && (x.name == [] || (x.name[|x.name| - 1] == 0 && 0 !in x.name[..|x.name| - 1]))
    && |x.payload| == if x.e.dataLen <= 0 then 0 else x.e.dataLen
  }

  function Entered(b: Blocks, i: nat, x: Entry): Blocks
    requires i < |b.events|
  {
    Stored(b, i, x.e, x.mem2, x.nameCopy, x.dataCopy)
  }

  // What the enqueued bytes say.
  function Said(x: Entry): Event {
    Event(if x.name == [] then [] else x.name[..|x.name| - 1], x.e.nameId, x.e.seqNum, x.payload)
  }

  lemma EnteredQueued(b: Blocks, head: nat, contents: seq<Event>, x: Entry)
    requires Sound(b) && Queued(b, head, contents) && |contents| < |b.events| - 1
    requires Fits(b, SlotOf(head, |contents|, |b.events| - 1), x)
    ensures var b' := Entered(b, SlotOf(head, |contents|, |b.events| - 1), x);
            Sound(b') && Queued(b', head, contents + [Said(x)])
  {
    EndsOfQueue(b, head, contents);
    hide Sound, Queued, Filled;
    var i := SlotOf(head, |contents|, |b.events| - 1);
    FilledSound(b, i, x.e, x.name, x.payload, x.mem1, x.mem2, x.nameCopy, x.dataCopy);
    FilledQueued(b, head, contents, x.e, x.name, x.payload, x.mem1, x.mem2, x.nameCopy, x.dataCopy);
  }

  lemma EnteredKeepsOthers(b: Blocks, i: nat, x: Entry, j: nat)
    requires Sound(b) && i < |b.events| && Fits(b, i, x) && j < |b.events| && j != i
    ensures Read(x.mem2, b.events[j]) == Read(b.mem, b.events[j])
  {
    FilledKeepsOthers(b, i, x.e, x.name, x.payload, x.mem1, x.mem2, x.nameCopy, x.dataCopy, j);
  }

  // ---------------------------------------------------------------------------------------
  // malloc, free and memcpy
  // ---------------------------------------------------------------------------------------

  // Bytes that do not fit the slab, or have none.
  predicate NeedsBlock(slot: Addr, cap: nat, bytes: seq<byte>) {
    bytes != [] && (|bytes| > cap || slot == NIL)
  }

  class CHeap {
    var mem: Memory

    constructor ()
      ensures mem == map[]
    {
      mem := map[];
    }

    // Any address that is not in use, a freed one included, or nil when memory is `short`.
    method Malloc(n: nat, short: bool) returns (p: Addr)
      modifies this
      ensures p == NIL <==> short
      ensures p == NIL ==> mem == old(mem)
      ensures p != NIL ==> p > EMPTY && p !in old(mem) && p in mem && |mem[p]| == n && mem == old(mem)[p := mem[p]]
    {
      if short { return NIL; }
      ghost var some := FreshAddr(mem.Keys, EMPTY);
      assert some > EMPTY && some !in mem;
      p :| p > EMPTY && p !in mem;
      ghost var zeros := seq(n, i => 0 as byte);
      assert |zeros| == n;
      var bytes: seq<byte> :| |bytes| == n;
      mem := mem[p := bytes];
    }

    method Free(p: Addr)
      requires p in mem
      modifies this
      ensures mem == old(mem) - {p}
    {
      mem := mem - {p};
    }

    method CopyMem(p: Addr, bytes: seq<byte>)
      requires p in mem && |bytes| <= |mem[p]|
      modifies this
      ensures mem == old(mem)[p := bytes + old(mem)[p][|bytes|..]]
    {
      mem := mem[p := bytes + mem[p][|bytes|..]];
    }

    method AllocSlot(n: nat, short: bool) returns (p: Addr)
      modifies this
      ensures NewBlock(old(mem), p, n, mem) && (p == NIL <==> n == 0 || short)
    {
      if n == 0 { return NIL; }
      p := Malloc(n, short);
    }

    /** Copies into the slab when the bytes fit, else into a block of their own; it fails only for
        want of that block. */
    method CopyIntoSlot(slot: Addr, cap: nat, bytes: seq<byte>, short: bool) returns (c: Copy, ok: bool)
      requires slot != NIL ==> slot in mem && |mem[slot]| == cap
      modifies this
      ensures ok <==> !(short && NeedsBlock(slot, cap, bytes))
      ensures ok ==> (c.heap <==> NeedsBlock(slot, cap, bytes))
      ensures ok ==> Copied(old(mem), slot, cap, bytes, mem, c)
      ensures !ok ==> mem == old(mem)
    {
      if bytes == [] { return Copy(NIL, false), true; }
      if |bytes| <= cap && slot != NIL {
        CopyMem(slot, bytes);
        return Copy(slot, false), true;
      }
      var block := Malloc(|bytes|, short);
      if block == NIL { return Copy(NIL, false), false; }
      CopyMem(block, bytes);
      assert mem[block] == bytes;
      c, ok := Copy(block, true), true;
    }
  }

  // ---------------------------------------------------------------------------------------
  // The ring and the event its poller holds
  // ---------------------------------------------------------------------------------------

  // The NUL travels with the name; a nil name takes no bytes.
  function NameBytes(name: Option<seq<byte>>): seq<byte> {
    if name.None? then [] else name.value + [0]
  }

  function Chars(name: Option<seq<byte>>): seq<byte> {
    if name.None? then [] else name.value
  }

  // What memory is short for: the copy of a name, the copy of a payload.
  datatype Shortage = Shortage(ofName: bool, ofData: bool)

  class EventQueue {
    const capacity: nat
    const maxPayload: nat
    const maxName: nat
    const heap: CHeap                    // the part of the C heap this queue uses
    const buf: array<QueuedEvent>
    const slab: array<Addr>
    const nameSlab: array<Addr>
    var head: nat
    var tail: nat
    var count: nat
    var held: QueuedEvent                // the event taken last
    var heldSlab: Addr
    var heldNameSlab: Addr
    ghost var owner: map<Addr, Cell>
    ghost var contents: seq<Event>

    ghost function State(): Blocks
      reads this, heap, buf, slab, nameSlab
    {
      Blocks(slab[..] + [heldSlab], nameSlab[..] + [heldNameSlab], buf[..] + [held], maxPayload, maxName, heap.mem, owner)
    }

    ghost predicate Shape()
      reads this
    {
      && buf.Length == slab.Length == nameSlab.Length == capacity
      && slab != nameSlab
      && head < capacity && count == |contents| <= capacity
      && tail == SlotOf(head, count, capacity)
    }

    ghost predicate Valid()
      reads this, heap, buf, slab, nameSlab
    {
      Shape() && Sound(State()) && Queued(State(), head, contents)
    }

    // `noSlab` and `noName` are the places, the held event's last, whose slab memory was short for.
    constructor (capacity: nat, maxPayload: nat, maxName: nat, noSlab: set<nat>, noName: set<nat>)
      requires capacity > 0
      ensures Valid() && contents == [] && held == NO_EVENT
      ensures this.capacity == capacity && this.maxPayload == maxPayload && this.maxName == maxName
      ensures slab.Length == nameSlab.Length == capacity
      ensures forall i :: 0 <= i < capacity ==> (slab[i] == NIL <==> maxPayload == 0 || i in noSlab)
      ensures forall i :: 0 <= i < capacity ==> (nameSlab[i] == NIL <==> maxName == 0 || i in noName)
      ensures heldSlab == NIL <==> maxPayload == 0 || capacity in noSlab
      ensures heldNameSlab == NIL <==> maxName == 0 || capacity in noName
      ensures fresh(heap) && fresh(buf) && fresh(slab) && fresh(nameSlab)
    {
      this.capacity, this.maxPayload, this.maxName := capacity, maxPayload, maxName;
      heap := new CHeap();
      buf := new QueuedEvent[capacity](_ => NO_EVENT);
      slab := new Addr[capacity](_ => NIL);
      nameSlab := new Addr[capacity](_ => NIL);
      head, tail, count := 0, 0, 0;
      held, heldSlab, heldNameSlab := NO_EVENT, NIL, NIL;
      owner, contents := map[], [];
      new;
      AllocSlots(noSlab, noName);
    }

    method GiveSlab(i: nat, short: bool)
      requires Shape() && i < capacity && Sound(State()) && slab[i] == NIL && buf[i] == NO_EVENT
      modifies this`owner, heap, slab
      ensures Sound(State()) && (slab[i] == NIL <==> maxPayload == 0 || short)
      ensures forall j :: 0 <= j < capacity && j != i ==> slab[j] == old(slab[j])
    {
      hide Sound;
      ghost var b := State();
      var p := heap.AllocSlot(maxPayload, short);
      SlabGivenSound(b, i, p, heap.mem);
      slab[i] := p;
      owner := SlabGiven(b, i, p, heap.mem).owner;
      assert State() == SlabGiven(b, i, p, heap.mem);
    }

    method GiveNameSlab(i: nat, short: bool)
      requires Shape() && i < capacity && Sound(State()) && nameSlab[i] == NIL && buf[i] == NO_EVENT
      modifies this`owner, heap, nameSlab
      ensures Sound(State()) && (nameSlab[i] == NIL <==> maxName == 0 || short)
      ensures forall j :: 0 <= j < capacity && j != i ==> nameSlab[j] == old(nameSlab[j])
    {
      hide Sound;
      ghost var b := State();
      var p := heap.AllocSlot(maxName, short);
      NameSlabGivenSound(b, i, p, heap.mem);
      nameSlab[i] := p;
      owner := NameSlabGiven(b, i, p, heap.mem).owner;
      assert State() == NameSlabGiven(b, i, p, heap.mem);
    }

    // `initHeldEvent`
    method GiveHeldSlabs(short: bool, shortName: bool)
      requires Shape() && Sound(State()) && heldSlab == NIL && heldNameSlab == NIL && held == NO_EVENT
      modifies this`owner, this`heldSlab, this`heldNameSlab, heap
      ensures Sound(State())
      ensures (heldSlab == NIL <==> maxPayload == 0 || short) && (heldNameSlab == NIL <==> maxName == 0 || shortName)
    {
      hide Sound;
      ghost var b := State();
      heldSlab := heap.AllocSlot(maxPayload, short);
      SlabGivenSound(b, capacity, heldSlab, heap.mem);
      owner := SlabGiven(b, capacity, heldSlab, heap.mem).owner;
      assert State() == SlabGiven(b, capacity, heldSlab, heap.mem);
      b := State();
      heldNameSlab := heap.AllocSlot(maxName, shortName);
      NameSlabGivenSound(b, capacity, heldNameSlab, heap.mem);
      owner := NameSlabGiven(b, capacity, heldNameSlab, heap.mem).owner;
      assert State() == NameSlabGiven(b, capacity, heldNameSlab, heap.mem);
    }

    // Every ring slot and the held event get their slabs, as far as memory allows.
    method AllocSlots(noSlab: set<nat>, noName: set<nat>)
      requires Shape() && head == 0 && heap.mem == map[] && owner == map[] && contents == [] && heldSlab == NIL
      requires heldNameSlab == NIL && held == NO_EVENT
      requires forall i :: 0 <= i < capacity ==> buf[i] == NO_EVENT && slab[i] == NIL && nameSlab[i] == NIL
      modifies this`owner, this`heldSlab, this`heldNameSlab, heap, slab, nameSlab
      ensures Valid()
      ensures forall i :: 0 <= i < capacity ==> (slab[i] == NIL <==> maxPayload == 0 || i in noSlab)
      ensures forall i :: 0 <= i < capacity ==> (nameSlab[i] == NIL <==> maxName == 0 || i in noName)
      ensures heldSlab == NIL <==> maxPayload == 0 || capacity in noSlab
      ensures heldNameSlab == NIL <==> maxName == 0 || capacity in noName
    {
      hide Sound, Queued;
      EmptySound(State());
      var i := 0;
      while i < capacity
        invariant 0 <= i <= capacity && heldSlab == NIL && heldNameSlab == NIL
        invariant Sound(State())
        invariant forall j :: i <= j < capacity ==> slab[j] == NIL && nameSlab[j] == NIL
        invariant forall j :: 0 <= j < i ==> (slab[j] == NIL <==> maxPayload == 0 || j in noSlab)
        invariant forall j :: 0 <= j < i ==> (nameSlab[j] == NIL <==> maxName == 0 || j in noName)
      {
        GiveSlab(i, i in noSlab);
        GiveNameSlab(i, i in noName);
        i := i + 1;
      }
      GiveHeldSlabs(capacity in noSlab, capacity in noName);
      EmptyQueued(State());
    }

    // What the host reads of the event it was handed.
    ghost function Held(): Event
      reads this, heap
    {
      Read(heap.mem, held)
    }

    // Neither copy wants for a block of its own.
    predicate Stores(nameSlot: Addr, dataSlot: Addr, nb: seq<byte>, db: seq<byte>, short: Shortage) {
      && !(short.ofName && NeedsBlock(nameSlot, maxName, nb))
      && !(short.ofData && NeedsBlock(dataSlot, maxPayload, db))
    }

    // The two copies of an enqueue. When the second fails the first is taken back.
    method CopyEvent(slot: nat, nb: seq<byte>, db: seq<byte>, short: Shortage)
      returns (name: Copy, data: Copy, ok: bool, ghost mem1: Memory)
      requires Shape() && slot < capacity && Sound(State()) && buf[slot] == NO_EVENT
      modifies heap
      ensures ok <==> Stores(nameSlab[slot], slab[slot], nb, db, short)
      ensures ok ==>
                && Copied(old(heap.mem), nameSlab[slot], maxName, nb, mem1, name)
                && Copied(mem1, slab[slot], maxPayload, db, heap.mem, data)
      ensures !ok ==> Sound(State()) && heap.mem.Keys == old(heap.mem.Keys)
      ensures !ok ==>
                var es := State().events;
                forall j :: 0 <= j < |es| ==> Read(heap.mem, es[j]) == Read(old(heap.mem), es[j])
    {
      hide Sound, Read;
      ghost var b := State();
      assert b.slabs[slot] == slab[slot] && b.names[slot] == nameSlab[slot] && b.events[slot] == NO_EVENT;
      SlabSizes(b, slot);
      name, ok := heap.CopyIntoSlot(nameSlab[slot], maxName, nb, short.ofName);
      data, mem1 := Copy(NIL, false), heap.mem;
      if !ok { return; }
      AbandonedCopy(b, slot, nb, mem1, name);
      if !name.heap { SlabSizes(b.(mem := mem1), slot); }
      data, ok := heap.CopyIntoSlot(slab[slot], maxPayload, db, short.ofData);
      if !ok && name.heap {
        heap.Free(name.buf);
      }
    }

    // The slot is filled and the tail moves on.
    method StoreEvent(e: QueuedEvent, ghost b: Blocks, ghost x: Entry)
      requires Shape() && count < capacity && b == State().(mem := b.mem) && Sound(b) && Queued(b, head, contents)
      requires Fits(b, tail, x) && x.e == e && x.mem2 == heap.mem
      modifies this`owner, this`tail, this`count, this`contents, buf
      ensures Valid() && contents == old(contents) + [Said(x)] && State() == Entered(b, old(tail), x)
      ensures forall j :: 0 <= j < capacity && j != old(tail) ==> buf[j] == old(buf[j])
    {
      hide Sound, Queued, Read, Filled;
      EnteredQueued(b, head, contents, x);
      NextSlotOf(head, count, capacity);
      ghost var b' := Entered(b, tail, x);
      buf[tail] := e;
      owner := b'.owner;
      contents := contents + [Said(x)];
      tail := NextSlot(tail, capacity);
      count := count + 1;
      assert State() == b';
    }

    /** Stored exactly when the ring has a free slot and what does not fit its slabs finds memory;
        refused, nothing readable changes. */
    method TryEnqueueEvent(name: Option<seq<byte>>, nameId: nat, seqNum: nat, src: seq<byte>, dataLen: int,
                           short: Shortage)
      returns (ok: bool, ghost x: Entry)
      requires Valid() && dataLen <= |src| && 0 !in Chars(name)
      modifies this, heap, buf
      ensures Valid() && head == old(head) && held == old(held) && Held() == old(Held())
      ensures ok <==> old(count) < capacity && Stores(old(nameSlab[tail]), old(slab[tail]), NameBytes(name),
                                                      if dataLen <= 0 then [] else src[..dataLen], short)
      ensures ok ==>
                var payload := if dataLen <= 0 then [] else src[..dataLen];
                contents == old(contents) + [Event(Chars(name), nameId, seqNum, payload)]
      ensures ok ==>
                && old(count) < capacity && Fits(old(State()), old(tail), x)
                && State() == Entered(old(State()), old(tail), x) && contents == old(contents) + [Said(x)]
      ensures !ok ==> contents == old(contents) && heap.mem.Keys == old(heap.mem.Keys)
      ensures !ok ==>
                var b, b' := old(State()), State();
                && b' == b.(mem := b'.mem)
                && forall j :: 0 <= j < |b.events| ==> Read(b'.mem, b.events[j]) == Read(b.mem, b.events[j])
      ensures old(count) > 0 ==>
          buf[head] == old(buf[head]) && Read(heap.mem, buf[head]) == old(Read(heap.mem, buf[head]))
    {
      x := Entry(NO_EVENT, [], [], map[], map[], Copy(NIL, false), Copy(NIL, false));
      if count >= capacity { return false, x; }
      ghost var b := State();
      var slot, nb := tail, NameBytes(name);
      var db := if dataLen <= 0 then [] else src[..dataLen];
      EndsOfQueue(b, head, contents);
      assert b.events[capacity] == held && (count > 0 ==> b.events[head] == buf[head]);
      hide Sound, Read, Queued;
      var nameRes, dataRes, copied, mem1 := CopyEvent(slot, nb, db, short);
      if !copied {
        assert State() == b.(mem := heap.mem);
        SameReadsQueued(b, heap.mem, head, contents);
        return false, x;
      }
      hide Copied;
      var nameCStr := if nameRes.buf == NIL then EMPTY else nameRes.buf;
      var e := QueuedEvent(nameCStr, nameRes.heap, nameId, seqNum, dataRes.buf, dataLen, dataRes.heap);
      x := Entry(e, nb, db, mem1, heap.mem, nameRes, dataRes);
      EnteredKeepsOthers(b, slot, x, capacity);
      if count > 0 {
        EnteredKeepsOthers(b, slot, x, head);
      }
      StoreEvent(e, b, x);
      ok := true;
    }

    // `releaseEvent` of the event at place `i` of the state, ghost bookkeeping included.
    method ReleaseEvent(e: QueuedEvent, ghost b: Blocks, ghost i: nat)
      requires Sound(b) && heap.mem == b.mem && i < |b.events| && b.events[i] == e
      modifies heap
      ensures heap.mem == Released(b, i).mem
    {
      hide Sound;
      ReleasedSound(b, i);
      if e.nameHeapOwned && e.name != NIL {
        heap.Free(e.name);
      }
      if e.dataHeapOwned && e.data != NIL {
        heap.Free(e.data);
      }
    }

    // The slot stays pinned: the event is the dispatcher's to read until it commits.
    method PeekEvent() returns (e: Option<QueuedEvent>)
      requires Valid()
      ensures e.None? <==> contents == []
      ensures e.Some? ==> e.value == buf[head] && Read(heap.mem, e.value) == contents[0]
    {
      hide Sound, Queued, Read;
      EndsOfQueue(State(), head, contents);
      if count == 0 { return None; }
      assert State().events[head] == buf[head];
      e := Some(buf[head]);
    }

    // Retires the head slot.
    method CommitDequeue()
      requires Valid()
      modifies this`owner, this`head, this`count, this`contents, heap, buf
      ensures Valid() && held == old(held) && Held() == old(Held())
      ensures contents == if old(contents) == [] then [] else old(contents)[1..]
      ensures State() == if old(contents) == [] then old(State()) else Released(old(State()), old(head))
      ensures head == if old(contents) == [] then old(head) else NextSlot(old(head), capacity)
    {
      hide Sound, Queued, Read;
      if count == 0 { return; }
      ghost var b := State();
      assert b.events[head] == buf[head] && b.events[capacity] == held;
      CommittedQueued(b, head, contents);
      ReleasedSound(b, head);
      ReleasedKeepsOthers(b, head, capacity);
      NextSlotOf(head, count - 1, capacity);
      ReleaseEvent(buf[head], b, head);
      owner := Released(b, head).owner;
      buf[head] := NO_EVENT;
      contents := contents[1..];
      head := NextSlot(head, capacity);
      count := count - 1;
      assert State() == Released(b, old(head));
    }

    // The held event is given up; its place keeps a pair of slabs for the next one.
    method ReleaseHeldEvent()
      requires Valid()
      modifies this`owner, this`held, heap
      ensures Valid() && held == NO_EVENT && State() == Released(old(State()), capacity)
    {
      hide Sound, Queued, Read;
      ghost var b := State();
      assert b.events[capacity] == held;
      HeldReleasedQueued(b, head, contents);
      ReleasedSound(b, capacity);
      ReleaseEvent(held, b, capacity);
      owner := Released(b, capacity).owner;
      held := NO_EVENT;
      assert State() == Released(b, capacity);
    }

    // The payload leaves with its slab, against the spare one.
    method SwapData(slot: nat, ghost b: Blocks) returns (data: Addr)
      requires Shape() && slot < capacity && b == State()
      modifies this`heldSlab, slab
      ensures slab[..] + [heldSlab] == Moved(b, slot, capacity).slabs && data == buf[slot].data
    {
      data := buf[slot].data;
      assert b.events[slot] == buf[slot] && b.slabs[slot] == slab[slot];
      if InSlab(data, slab[slot]) {
        slab[slot], heldSlab := heldSlab, slab[slot];
        data := heldSlab;
      }
    }

    method SwapName(slot: nat, ghost b: Blocks) returns (name: Addr)
      requires Shape() && slot < capacity && b == State().(slabs := b.slabs) && |b.slabs| == capacity + 1
      modifies this`heldNameSlab, nameSlab
      ensures nameSlab[..] + [heldNameSlab] == Moved(b, slot, capacity).names && name == buf[slot].name
    {
      name := buf[slot].name;
      assert b.events[slot] == buf[slot] && b.names[slot] == nameSlab[slot];
      if InSlab(name, nameSlab[slot]) {
        nameSlab[slot], heldNameSlab := heldNameSlab, nameSlab[slot];
        name := heldNameSlab;
      }
    }

    /** The oldest event changes hands with the slabs its bytes sit in; nothing is copied. */
    method PopEventInto() returns (ok: bool)
      requires Valid()
      modifies this`owner, this`held, this`heldSlab, this`heldNameSlab, this`head, this`count, this`contents,
            heap, buf, slab, nameSlab
      ensures Valid() && (ok <==> old(contents) != [])
      ensures ok ==> Held() == old(contents)[0] && contents == old(contents)[1..]
      ensures !ok ==> held == NO_EVENT && contents == [] && head == old(head)
      ensures var b := Released(old(State()), capacity);
              if ok then State() == Moved(b, old(head), capacity) && head == NextSlot(old(head), capacity) else State() == b
    {
      hide Sound, Queued, Read;
      ReleaseHeldEvent();
      if count == 0 { return false; }
      ghost var b := State();
      var slot, e := head, buf[head];
      assert b.events[slot] == e && b.events[capacity] == held;
      MovedSound(b, slot, capacity);
      MovedQueued(b, slot, contents);
      NextSlotOf(slot, count - 1, capacity);
      var data := SwapData(slot, b);
      var name := SwapName(slot, b);
      held := e.(data := data, name := name);
      buf[slot] := NO_EVENT;
      owner := Moved(b, slot, capacity).owner;
      contents := contents[1..];
      head := NextSlot(head, capacity);
      count := count - 1;
      assert buf[..] + [held] == Moved(b, slot, capacity).events;
      ok := true;
    }

    method HasEvents() returns (some: bool)
      requires Valid()
      ensures some <==> contents != []
    {
      some := count > 0;
    }

    method HeadSeq() returns (seqNum: nat)
      requires Valid()
      ensures seqNum == if contents == [] then 0 else contents[0].seqNum
    {
      EndsOfQueue(State(), head, contents);
      if count == 0 { return 0; }
      assert State().events[head] == buf[head];
      seqNum := buf[head].seqNum;
    }

    // Empties the ring, freeing on the way what the events own.
    method ClearEventQueue()
      requires Valid()
      modifies this`owner, this`head, this`tail, this`count, this`contents, heap, buf
      ensures Valid() && contents == [] && held == old(held) && Held() == old(Held())
      ensures head == 0 && tail == 0 && State() == Drained(old(State()), old(head), old(count))
    {
      hide Sound, Queued, Read;
      while count > 0
        invariant Valid() && held == old(held) && Held() == old(Held())
        invariant Drained(State(), head, count) == Drained(old(State()), old(head), old(count))
        decreases count
      {
        CommitDequeue();
      }
      RewoundQueued(State(), head);
      head := 0;
      tail := 0;
    }

    method ReleasePlace(i: nat)
      requires Shape() && i < capacity && Sound(State())
      modifies this`owner, heap, buf
      ensures Sound(State()) && buf[i] == NO_EVENT
      ensures forall j :: 0 <= j < capacity && j != i ==> buf[j] == old(buf[j])
    {
      hide Sound;
      ghost var b := State();
      assert b.events[i] == buf[i];
      ReleasedSound(b, i);
      ReleaseEvent(buf[i], b, i);
      buf[i] := NO_EVENT;
      owner := Released(b, i).owner;
      assert State() == Released(b, i);
    }

    method FreeSlab(i: nat)
      requires Shape() && i < capacity && Sound(State()) && buf[i] == NO_EVENT
      modifies this`owner, heap, slab
      ensures Sound(State()) && slab[i] == NIL
      ensures forall j :: 0 <= j < capacity && j != i ==> slab[j] == old(slab[j])
    {
      hide Sound;
      ghost var b := State();
      assert b.events[i] == buf[i] && b.slabs[i] == slab[i];
      SlabFreedSound(b, i);
      owner := SlabFreed(b, i).owner;
      if slab[i] != NIL {
        heap.Free(slab[i]);
        slab[i] := NIL;
      }
      assert State() == SlabFreed(b, i);
    }

    method FreeNameSlab(i: nat)
      requires Shape() && i < capacity && Sound(State()) && buf[i] == NO_EVENT
      modifies this`owner, heap, nameSlab
      ensures Sound(State()) && nameSlab[i] == NIL
      ensures forall j :: 0 <= j < capacity && j != i ==> nameSlab[j] == old(nameSlab[j])
    {
      hide Sound;
      ghost var b := State();
      assert b.events[i] == buf[i] && b.names[i] == nameSlab[i];
      NameSlabFreedSound(b, i);
      owner := NameSlabFreed(b, i).owner;
      if nameSlab[i] != NIL {
        heap.Free(nameSlab[i]);
        nameSlab[i] := NIL;
      }
      assert State() == NameSlabFreed(b, i);
    }

    method FreeHeldSlab()
      requires Shape() && Sound(State()) && held == NO_EVENT
      modifies this`owner, this`heldSlab, heap
      ensures Shape() && Sound(State()) && heldSlab == NIL
    {
      hide Sound;
      ghost var b := State();
      assert b.events[capacity] == held && b.slabs[capacity] == heldSlab;
      SlabFreedSound(b, capacity);
      owner := SlabFreed(b, capacity).owner;
      if heldSlab != NIL {
        heap.Free(heldSlab);
        heldSlab := NIL;
      }
      assert State() == SlabFreed(b, capacity);
    }

    method FreeHeldNameSlab()
      requires Shape() && Sound(State()) && held == NO_EVENT
      modifies this`owner, this`heldNameSlab, heap
      ensures Shape() && Sound(State()) && heldNameSlab == NIL
    {
      hide Sound;
      ghost var b := State();
      assert b.events[capacity] == held && b.names[capacity] == heldNameSlab;
      NameSlabFreedSound(b, capacity);
      owner := NameSlabFreed(b, capacity).owner;
      if heldNameSlab != NIL {
        heap.Free(heldNameSlab);
        heldNameSlab := NIL;
      }
      assert State() == NameSlabFreed(b, capacity);
    }

    method DeinitHeldEvent()
      requires Valid()
      modifies this`owner, this`held, this`heldSlab, this`heldNameSlab, heap
      ensures Shape() && Sound(State()) && held == NO_EVENT && heldSlab == NIL && heldNameSlab == NIL
    {
      hide Sound, Queued;
      ReleaseHeldEvent();
      FreeHeldSlab();
      FreeHeldNameSlab();
    }

    /** `deinitHeldEvent` and `deinitEventQueue`: whatever was queued, copied or held, every
        block is given back, once. */
    method Deinit()
      requires Valid()
      modifies this, heap, buf, slab, nameSlab
      ensures heap.mem == map[]
    {
      hide Sound, Queued;
      DeinitHeldEvent();
      var i := 0;
      while i < capacity
        invariant 0 <= i <= capacity && Shape() && Sound(State())
        invariant held == NO_EVENT && heldSlab == NIL && heldNameSlab == NIL
        invariant forall j :: 0 <= j < i ==> buf[j] == NO_EVENT && slab[j] == NIL && nameSlab[j] == NIL
      {
        ReleasePlace(i);
        FreeSlab(i);
        FreeNameSlab(i);
        i := i + 1;
      }
      NothingLeft(State());
      head, tail, count, contents := 0, 0, 0, [];
    }
  }
}

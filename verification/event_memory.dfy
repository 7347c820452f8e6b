/** The C heap behind the event ring, and who owns each block of it: the slabs of the ring
    slots, the spare slabs of the held event, and the one-off blocks of oversized events. */
module EventMemory {
  import opened Wrappers

  newtype byte = x: int | 0 <= x < 256


  // Addresses. `EMPTY` is the static empty string; the allocator hands out neither.
  type Addr = nat
  const NIL: Addr := 0
  const EMPTY: Addr := 1

  datatype QueuedEvent = QueuedEvent(
    name: Addr, nameHeapOwned: bool, nameId: nat, seqNum: nat, data: Addr, dataLen: int, dataHeapOwned: bool)

  const NO_EVENT := QueuedEvent(NIL, false, 0, 0, NIL, 0, false)

  // What an event says to whoever reads it.
  datatype Event = Event(name: seq<byte>, nameId: nat, seqNum: nat, payload: seq<byte>)

  // ---------------------------------------------------------------------------------------
  // Bytes
  // ---------------------------------------------------------------------------------------

  type Memory = map<Addr, seq<byte>>

  // A C string ends at its first NUL.
  function CStr(bytes: seq<byte>): seq<byte> {
    if bytes == [] || bytes[0] == 0 then [] else [bytes[0]] + CStr(bytes[1..])
  }

  lemma {:induction false} CStrStored(name: seq<byte>, rest: seq<byte>)
    requires 0 !in name
    ensures CStr(name + [0] + rest) == name
  {
    if name == [] {
      assert (name + [0] + rest)[0] == 0;
    } else {
      assert (name + [0] + rest)[0] == name[0] && (name + [0] + rest)[1..] == name[1..] + [0] + rest;
      CStrStored(name[1..], rest);
    }
  }

  function Payload(mem: Memory, e: QueuedEvent): seq<byte> {
    if e.data in mem && 0 <= e.dataLen <= |mem[e.data]| then mem[e.data][..e.dataLen] else []
  }

  function Name(mem: Memory, e: QueuedEvent): seq<byte> {
    if e.name in mem then CStr(mem[e.name]) else []
  }

  function Read(mem: Memory, e: QueuedEvent): Event {
    Event(Name(mem, e), e.nameId, e.seqNum, Payload(mem, e))
  }

  // ---------------------------------------------------------------------------------------
  // Ownership
  // ---------------------------------------------------------------------------------------

  // What holds a block: the last index stands for the held event and its spare slabs.
  datatype Cell = Slab(i: nat) | NameSlab(i: nat) | Data(i: nat) | NameCopy(i: nat)

  datatype Blocks = Blocks(
    slabs: seq<Addr>, names: seq<Addr>, events: seq<QueuedEvent>,
    maxPayload: nat, maxName: nat,
    mem: Memory, owner: map<Addr, Cell>)

  predicate Owns(b: Blocks, p: Addr, c: Cell) {
    p in b.owner && b.owner[p] == c
  }

  ghost predicate SlabsOwned(b: Blocks) {
    && |b.names| == |b.slabs| && |b.events| == |b.slabs|
    && (forall i :: 0 <= i < |b.slabs| && b.slabs[i] != NIL ==>
          Owns(b, b.slabs[i], Slab(i)) && b.slabs[i] in b.mem && |b.mem[b.slabs[i]]| == b.maxPayload)
    && (forall i :: 0 <= i < |b.slabs| && b.names[i] != NIL ==>
          Owns(b, b.names[i], NameSlab(i)) && b.names[i] in b.mem && |b.mem[b.names[i]]| == b.maxName)
  }

  // The bytes of event `i` sit in its slot's slabs or in blocks of its own.
  predicate EventOwned(b: Blocks, i: nat)
    requires i < |b.events| && |b.names| == |b.slabs| == |b.events|
  {
    var e := b.events[i];
    && (if e.dataHeapOwned then Owns(b, e.data, Data(i)) else e.data == NIL || e.data == b.slabs[i])
    && (if e.nameHeapOwned then Owns(b, e.name, NameCopy(i))
        else e.name == NIL || e.name == EMPTY || e.name == b.names[i])
  }

  // The one pointer to block `p`.
  predicate Pointed(b: Blocks, p: Addr, c: Cell)
    requires |b.names| == |b.slabs| == |b.events|
  {
    && c.i < |b.slabs|
    && match c
       case Slab(i) => b.slabs[i] == p
       case NameSlab(i) => b.names[i] == p
       case Data(i) => b.events[i].dataHeapOwned && b.events[i].data == p
       case NameCopy(i) => b.events[i].nameHeapOwned && b.events[i].name == p
  }

  /** Every live block has exactly one owner, which points at it: no block is shared, leaked
      or freed while something still points at it. */
  ghost predicate Sound(b: Blocks) {
    && SlabsOwned(b)
    && (forall i :: 0 <= i < |b.events| ==> EventOwned(b, i))
    && b.mem.Keys == b.owner.Keys
    && (forall p :: p in b.owner ==> p > EMPTY && Pointed(b, p, b.owner[p]))
  }

  /** No two of the slabs of the ring and the held slabs are the same block. */
  lemma SlabsDistinct(b: Blocks)
    requires Sound(b)
    ensures forall i, j :: 0 <= i < j < |b.slabs| && b.slabs[i] != NIL ==> b.slabs[i] != b.slabs[j]
    ensures forall i, j :: 0 <= i < j < |b.names| && b.names[i] != NIL ==> b.names[i] != b.names[j]
    ensures forall i, j :: 0 <= i < |b.slabs| && 0 <= j < |b.names| && b.slabs[i] != NIL ==> b.slabs[i] != b.names[j]
  {
    forall i, j | 0 <= i < j < |b.slabs| && b.slabs[i] != NIL
      ensures b.slabs[i] != b.slabs[j]
    {
      assert Owns(b, b.slabs[i], Slab(i));
    }
    forall i, j | 0 <= i < |b.slabs| && 0 <= j < |b.names| && b.slabs[i] != NIL
      ensures b.slabs[i] != b.names[j]
    {
      assert Owns(b, b.slabs[i], Slab(i));
    }
  }

  lemma EmptySound(b: Blocks)
    requires |b.names| == |b.slabs| == |b.events| && b.mem == map[] && b.owner == map[]
    requires forall i :: 0 <= i < |b.slabs| ==> b.slabs[i] == NIL && b.names[i] == NIL && b.events[i] == NO_EVENT
    ensures Sound(b)
  {
  }

  lemma SlabSizes(b: Blocks, i: nat)
    requires Sound(b) && i < |b.slabs|
    ensures b.slabs[i] != NIL ==> b.slabs[i] in b.mem && |b.mem[b.slabs[i]]| == b.maxPayload
    ensures b.names[i] != NIL ==> b.names[i] in b.mem && |b.mem[b.names[i]]| == b.maxName
  {
  }

  // Slot `i` is given its slabs when the queue is set up.
  function SlabGiven(b: Blocks, i: nat, p: Addr, mem: Memory): Blocks
    requires i < |b.slabs|
  {
    if p == NIL then b else b.(slabs := b.slabs[i := p], mem := mem, owner := b.owner[p := Slab(i)])
  }

  function NameSlabGiven(b: Blocks, i: nat, p: Addr, mem: Memory): Blocks
    requires i < |b.names|
  {
    if p == NIL then b else b.(names := b.names[i := p], mem := mem, owner := b.owner[p := NameSlab(i)])
  }

  predicate NewBlock(mem: Memory, p: Addr, n: nat, mem': Memory) {
    if p == NIL then mem' == mem
    else p > EMPTY && p !in mem && p in mem' && |mem'[p]| == n && mem' == mem[p := mem'[p]]
  }

  lemma SlabGivenSound(b: Blocks, i: nat, p: Addr, mem: Memory)
    requires Sound(b) && i < |b.slabs| && b.slabs[i] == NIL && b.events[i] == NO_EVENT
    requires NewBlock(b.mem, p, b.maxPayload, mem)
    ensures Sound(SlabGiven(b, i, p, mem))
  {
    var b' := SlabGiven(b, i, p, mem);
    forall j | 0 <= j < |b'.events| ensures EventOwned(b', j) { assert EventOwned(b, j); }
    forall q | q in b'.owner
      ensures q > EMPTY && Pointed(b', q, b'.owner[q])
    {
      assert q in b.owner ==> Pointed(b, q, b.owner[q]);
    }
  }

  lemma NameSlabGivenSound(b: Blocks, i: nat, p: Addr, mem: Memory)
    requires Sound(b) && i < |b.names| && b.names[i] == NIL && b.events[i] == NO_EVENT
    requires NewBlock(b.mem, p, b.maxName, mem)
    ensures Sound(NameSlabGiven(b, i, p, mem))
  {
    var b' := NameSlabGiven(b, i, p, mem);
    forall j | 0 <= j < |b'.events| ensures EventOwned(b', j) { assert EventOwned(b, j); }
    forall q | q in b'.owner
      ensures q > EMPTY && Pointed(b', q, b'.owner[q])
    {
      assert q in b.owner ==> Pointed(b, q, b.owner[q]);
    }
  }

  // ---------------------------------------------------------------------------------------
  // Copying into a slot
  // ---------------------------------------------------------------------------------------

  // Where `copyIntoSlot` put the bytes.
  datatype Copy = Copy(buf: Addr, heap: bool)

  // What `copyIntoSlot` may do with `bytes`; `slot` is the slab, nil when it could not be had.
  predicate Copied(mem: Memory, slot: Addr, cap: nat, bytes: seq<byte>, mem': Memory, c: Copy) {
    if bytes == [] then c == Copy(NIL, false) && mem' == mem
    else if |bytes| <= cap && slot != NIL then
      c == Copy(slot, false) && slot in mem && |bytes| <= |mem[slot]| && mem' == mem[slot := bytes + mem[slot][|bytes|..]]
    else c.heap && c.buf > EMPTY && c.buf !in mem && mem' == mem[c.buf := bytes]
  }

  // The block map after the bytes of slot `i` were written: new blocks belong to its event.
  function Claimed(owner: map<Addr, Cell>, c: Copy, cell: Cell): map<Addr, Cell> {
    if c.heap then owner[c.buf := cell] else owner
  }

  function Stored(b: Blocks, i: nat, e: QueuedEvent, mem: Memory, name: Copy, data: Copy): Blocks
    requires i < |b.events|
  {
    b.(events := b.events[i := e], mem := mem,
       owner := Claimed(Claimed(b.owner, name, NameCopy(i)), data, Data(i)))
  }

  // The two copies of an enqueue into the empty slot `i`.
  predicate Filled(b: Blocks, i: nat, e: QueuedEvent, nameBytes: seq<byte>, dataBytes: seq<byte>, mem1: Memory,
          mem2: Memory, name: Copy, data: Copy)
    requires i < |b.events| && |b.names| == |b.slabs| == |b.events|
  {
    && b.events[i] == NO_EVENT
    && Copied(b.mem, b.names[i], b.maxName, nameBytes, mem1, name)
    && Copied(mem1, b.slabs[i], b.maxPayload, dataBytes, mem2, data)
    && e.name == (if name.buf == NIL then EMPTY else name.buf) && e.nameHeapOwned == name.heap
    && e.data == data.buf && e.dataHeapOwned == data.heap
  }

  lemma FilledSlabs(b: Blocks, i: nat, e: QueuedEvent, nb: seq<byte>, db: seq<byte>, mem1: Memory, mem2: Memory,
          name: Copy, data: Copy)
    requires Sound(b) && i < |b.events| && Filled(b, i, e, nb, db, mem1, mem2, name, data)
    ensures SlabsOwned(Stored(b, i, e, mem2, name, data))
  {
    var b' := Stored(b, i, e, mem2, name, data);
    forall j | 0 <= j < |b.slabs| && b.slabs[j] != NIL
      ensures Owns(b', b.slabs[j], Slab(j)) && b.slabs[j] in mem2 && |mem2[b.slabs[j]]| == b.maxPayload
    {
      assert Owns(b, b.slabs[j], Slab(j));
    }
    forall j | 0 <= j < |b.slabs| && b.names[j] != NIL
      ensures Owns(b', b.names[j], NameSlab(j)) && b.names[j] in mem2 && |mem2[b.names[j]]| == b.maxName
    {
      assert Owns(b, b.names[j], NameSlab(j));
    }
  }

  lemma FilledEvents(b: Blocks, i: nat, e: QueuedEvent, nb: seq<byte>, db: seq<byte>, mem1: Memory, mem2: Memory,
          name: Copy, data: Copy)
    requires Sound(b) && i < |b.events| && Filled(b, i, e, nb, db, mem1, mem2, name, data)
    ensures var b' := Stored(b, i, e, mem2, name, data); forall j :: 0 <= j < |b'.events| ==> EventOwned(b', j)
  {
    var b' := Stored(b, i, e, mem2, name, data);
    forall j | 0 <= j < |b'.events|
      ensures EventOwned(b', j)
    {
      assert EventOwned(b, j);
    }
  }

  lemma FilledOwners(b: Blocks, i: nat, e: QueuedEvent, nb: seq<byte>, db: seq<byte>, mem1: Memory, mem2: Memory,
          name: Copy, data: Copy)
    requires Sound(b) && i < |b.events| && Filled(b, i, e, nb, db, mem1, mem2, name, data)
    ensures var b' := Stored(b, i, e, mem2, name, data);
            b'.mem.Keys == b'.owner.Keys && forall p :: p in b'.owner ==> p > EMPTY && Pointed(b', p, b'.owner[p])
  {
    var b' := Stored(b, i, e, mem2, name, data);
    forall p | p in b'.owner
      ensures p > EMPTY && Pointed(b', p, b'.owner[p])
    {
      assert p in b.owner ==> Pointed(b, p, b.owner[p]);
    }
  }

  /** An enqueue leaks nothing and shares nothing. */
  lemma FilledSound(b: Blocks, i: nat, e: QueuedEvent, nb: seq<byte>, db: seq<byte>, mem1: Memory, mem2: Memory,
          name: Copy, data: Copy)
    requires Sound(b) && i < |b.events| && Filled(b, i, e, nb, db, mem1, mem2, name, data)
    ensures Sound(Stored(b, i, e, mem2, name, data))
  {
    FilledSlabs(b, i, e, nb, db, mem1, mem2, name, data);
    FilledEvents(b, i, e, nb, db, mem1, mem2, name, data);
    FilledOwners(b, i, e, nb, db, mem1, mem2, name, data);
    hide EventOwned, Pointed, Filled;
  }

  /** What a poller holds or a dispatcher has peeked does not change under an enqueue. */
  lemma FilledKeepsOthers(b: Blocks, i: nat, e: QueuedEvent, nb: seq<byte>, db: seq<byte>, mem1: Memory, mem2: Memory,
          name: Copy, data: Copy, j: nat)
    requires Sound(b) && i < |b.events| && Filled(b, i, e, nb, db, mem1, mem2, name, data)
    requires j < |b.events| && j != i
    ensures Read(mem2, b.events[j]) == Read(b.mem, b.events[j])
  {
    assert EventOwned(b, j);
  }

  lemma FilledReads(b: Blocks, i: nat, e: QueuedEvent, nb: seq<byte>, db: seq<byte>, mem1: Memory, mem2: Memory,
          name: Copy, data: Copy)
    requires Sound(b) && i < |b.events| && Filled(b, i, e, nb, db, mem1, mem2, name, data)
    requires nb == [] || (nb[|nb| - 1] == 0 && 0 !in nb[..|nb| - 1])
    requires |db| == if e.dataLen <= 0 then 0 else e.dataLen
    ensures Read(mem2, e) == Event(if nb == [] then [] else nb[..|nb| - 1], e.nameId, e.seqNum, db)
  {
    if nb != [] {
      var name' := nb[..|nb| - 1];
      assert nb == name' + [0];
      var rest := if name.heap then [] else b.mem[name.buf][|nb|..];
      assert mem2[name.buf] == name' + [0] + rest;
      CStrStored(name', rest);
    }
    if db != [] {
      assert mem2[data.buf][..|db|] == db;
    }
  }

  // A name that was copied into the slot before the payload could not be.
  lemma AbandonedCopy(b: Blocks, i: nat, nb: seq<byte>, mem1: Memory, name: Copy)
    requires Sound(b) && i < |b.events| && b.events[i] == NO_EVENT
    requires Copied(b.mem, b.names[i], b.maxName, nb, mem1, name)
    ensures name.heap ==> mem1 - {name.buf} == b.mem
    ensures !name.heap ==> Sound(b.(mem := mem1)) && forall j :: 0 <= j < |b.events| ==>
          Read(mem1, b.events[j]) == Read(b.mem, b.events[j])
  {
    if !name.heap {
      var b' := b.(mem := mem1);
      forall j | 0 <= j < |b.events|
        ensures EventOwned(b', j) && Read(mem1, b.events[j]) == Read(b.mem, b.events[j])
      {
        assert EventOwned(b, j);
      }
      forall p | p in b'.owner
        ensures p > EMPTY && Pointed(b', p, b'.owner[p])
      {
        assert Pointed(b, p, b.owner[p]);
      }
    }
  }

  // ---------------------------------------------------------------------------------------
  // Releasing an event
  // ---------------------------------------------------------------------------------------

  function Freed(e: QueuedEvent): set<Addr> {
    (if e.nameHeapOwned && e.name != NIL then {e.name} else {})
    + (if e.dataHeapOwned && e.data != NIL then {e.data} else {})
  }

  function Released(b: Blocks, i: nat): Blocks
    requires i < |b.events|
  {
    var gone := Freed(b.events[i]);
    b.(events := b.events[i := NO_EVENT], mem := b.mem - gone, owner := b.owner - gone)
  }

  /** Releasing an event frees its own blocks, which are live, and nothing else. */
  lemma ReleasedSound(b: Blocks, i: nat)
    requires Sound(b) && i < |b.events|
    ensures Sound(Released(b, i))
    ensures Freed(b.events[i]) <= b.mem.Keys
    ensures b.events[i].nameHeapOwned && b.events[i].dataHeapOwned ==> b.events[i].name != b.events[i].data
  {
    var b' := Released(b, i);
    assert EventOwned(b, i);
    forall j | 0 <= j < |b'.events|
      ensures EventOwned(b', j)
    {
      assert EventOwned(b, j);
    }
    forall p | p in b'.owner
      ensures p > EMPTY && Pointed(b', p, b'.owner[p])
    {
      assert Pointed(b, p, b.owner[p]);
    }
  }

  lemma ReleasedKeepsOthers(b: Blocks, i: nat, j: nat)
    requires Sound(b) && i < |b.events| && j < |b.events| && i != j
    ensures Read(Released(b, i).mem, b.events[j]) == Read(b.mem, b.events[j])
  {
    assert EventOwned(b, i) && EventOwned(b, j);
  }

  // ---------------------------------------------------------------------------------------
  // Moving an event from a ring slot to the held place
  // ---------------------------------------------------------------------------------------

  function SwapAt(s: seq<Addr>, i: nat, j: nat): seq<Addr>
    requires i < |s| && j < |s|
  {
    s[i := s[j]][j := s[i]]
  }

  predicate InSlab(data: Addr, slab: Addr) {
    data == slab && data != NIL
  }

  // The new holder of what cell `c` held.
  function Renamed(b: Blocks, i: nat, n: nat, c: Cell): Cell
    requires i < |b.events| && |b.names| == |b.slabs| == |b.events|
  {
    var j := if c.i == i then n else if c.i == n then i else c.i;
    match c
    case Slab(_) => if InSlab(b.events[i].data, b.slabs[i]) then Slab(j) else c
    case NameSlab(_) => if InSlab(b.events[i].name, b.names[i]) then NameSlab(j) else c
    case Data(_) => Data(j)
    case NameCopy(_) => NameCopy(j)
  }

  function Moved(b: Blocks, i: nat, n: nat): Blocks
    requires i < |b.events| && n < |b.events| && |b.names| == |b.slabs| == |b.events|
  {
    var e := b.events[i];
    b.(slabs := if InSlab(e.data, b.slabs[i]) then SwapAt(b.slabs, i, n) else b.slabs,
       names := if InSlab(e.name, b.names[i]) then SwapAt(b.names, i, n) else b.names,
       events := b.events[i := NO_EVENT][n := e],
       owner := map p | p in b.owner :: Renamed(b, i, n, b.owner[p]))
  }

  lemma MovedSlabs(b: Blocks, i: nat, n: nat)
    requires Sound(b) && i < n < |b.events| && b.events[n] == NO_EVENT
    ensures SlabsOwned(Moved(b, i, n))
  {
    assert EventOwned(b, i);
  }

  lemma MovedEvents(b: Blocks, i: nat, n: nat)
    requires Sound(b) && i < n < |b.events| && b.events[n] == NO_EVENT
    ensures var b' := Moved(b, i, n); forall j :: 0 <= j < |b'.events| ==> EventOwned(b', j)
  {
    var b' := Moved(b, i, n);
    assert EventOwned(b, i);
    forall j | 0 <= j < |b'.events|
      ensures EventOwned(b', j)
    {
      assert EventOwned(b, j);
    }
  }

  lemma MovedOwners(b: Blocks, i: nat, n: nat)
    requires Sound(b) && i < n < |b.events| && b.events[n] == NO_EVENT
    ensures var b' := Moved(b, i, n);
            b'.mem.Keys == b'.owner.Keys && forall p :: p in b'.owner ==> p > EMPTY && Pointed(b', p, b'.owner[p])
  {
    var b' := Moved(b, i, n);
    assert EventOwned(b, i);
    forall p | p in b'.owner
      ensures p in b.owner && p > EMPTY && Pointed(b', p, b'.owner[p])
    {
      assert p in b.owner ==> Pointed(b, p, b.owner[p]);
    }
  }

  /** Ownership moves by pointer: the slab swap shares nothing, loses nothing, copies nothing. */
  lemma MovedSound(b: Blocks, i: nat, n: nat)
    requires Sound(b) && i < n < |b.events| && b.events[n] == NO_EVENT
    ensures Sound(Moved(b, i, n)) && Moved(b, i, n).mem == b.mem
  {
    MovedSlabs(b, i, n);
    MovedEvents(b, i, n);
    MovedOwners(b, i, n);
    hide EventOwned, Pointed, Renamed, SlabsOwned;
  }

  // ---------------------------------------------------------------------------------------
  // Tearing the queue down
  // ---------------------------------------------------------------------------------------

  function SlabFreed(b: Blocks, i: nat): Blocks
    requires i < |b.slabs|
  {
    var gone := if b.slabs[i] == NIL then {} else {b.slabs[i]};
    b.(slabs := b.slabs[i := NIL], mem := b.mem - gone, owner := b.owner - gone)
  }

  function NameSlabFreed(b: Blocks, i: nat): Blocks
    requires i < |b.names|
  {
    var gone := if b.names[i] == NIL then {} else {b.names[i]};
    b.(names := b.names[i := NIL], mem := b.mem - gone, owner := b.owner - gone)
  }

  lemma SlabFreedSound(b: Blocks, i: nat)
    requires Sound(b) && i < |b.slabs| && b.events[i] == NO_EVENT
    ensures Sound(SlabFreed(b, i))
    ensures b.slabs[i] != NIL ==> b.slabs[i] in b.mem
  {
    var b' := SlabFreed(b, i);
    forall j | 0 <= j < |b'.events| ensures EventOwned(b', j) { assert EventOwned(b, j); }
    forall p | p in b'.owner ensures p > EMPTY && Pointed(b', p, b'.owner[p]) { assert Pointed(b, p, b.owner[p]); }
  }

  lemma NameSlabFreedSound(b: Blocks, i: nat)
    requires Sound(b) && i < |b.names| && b.events[i] == NO_EVENT
    ensures Sound(NameSlabFreed(b, i))
    ensures b.names[i] != NIL ==> b.names[i] in b.mem
  {
    var b' := NameSlabFreed(b, i);
    forall j | 0 <= j < |b'.events| ensures EventOwned(b', j) { assert EventOwned(b, j); }
    forall p | p in b'.owner ensures p > EMPTY && Pointed(b', p, b'.owner[p]) { assert Pointed(b, p, b.owner[p]); }
  }

  /** With every slab freed and every event released, nothing is left in the heap. */
  lemma NothingLeft(b: Blocks)
    requires Sound(b)
    requires forall i :: 0 <= i < |b.slabs| ==> b.slabs[i] == NIL && b.names[i] == NIL && b.events[i] == NO_EVENT
    ensures b.mem == map[]
  {
    assert forall p :: p in b.owner ==> p > EMPTY && Pointed(b, p, b.owner[p]);
    assert b.mem.Keys == {};
  }
}

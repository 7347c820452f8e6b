/** The emitted decoders and free functions at work on memory: what a decoder allocates before
    it fails, and what the free function of the same type gives back. */
module DecodeFree {
  import opened Wrappers
  import opened Codec

  type Addr = nat
  const NIL: Addr := 0

  /** A C object. A block belongs to the one object that points at it, so its contents are
      written with the pointer: the characters of a string, the elements of a sequence. */
  datatype Obj =
    | Scalar(v: Val)
    | StrObj(p: Addr, text: string)
    | BytesObj(p: Addr, data: seq<byte>)
    | SeqObj(p: Addr, elems: seq<Obj>)
    | OptObj(hasValue: bool, value: Obj)
    | StructObj(members: Objs)

  datatype Objs = NoObjs | MemberObj(value: Obj, rest: Objs)

  // ---------------------------------------------------------------------------------------
  // Zeroed storage, what an object owns, and what it says
  // ---------------------------------------------------------------------------------------

  function Zero(ty: Ty): Obj
    decreases ty, 0
  {
    match ty
    case Bool => Scalar(VBool(false))
    case Int(_, _) => Scalar(VInt(0))
    case Ptr => Scalar(VInt(0))
    case Real(_) => Scalar(VReal(0.0))
    case Enum(_) => Scalar(VEnum(0))
    case Str => StrObj(NIL, "")
    case Bytes => BytesObj(NIL, [])
    case Seq(_) => SeqObj(NIL, [])
    case Opt(elem) => OptObj(false, Zero(elem))
    case Struct(fields) => StructObj(ZeroFields(fields))
  }

  function ZeroFields(fields: Fields): Objs
    decreases fields, 0
  {
    match fields
    case NoFields => NoObjs
    case Field(_, ty, rest) => MemberObj(Zero(ty), ZeroFields(rest))
  }

  predicate Shaped(ty: Ty, o: Obj)
    decreases ty, 0
  {
    match ty
    case Str => o.StrObj?
    case Bytes => o.BytesObj?
    case Seq(elem) => o.SeqObj? && (o.p == NIL ==> o.elems == []) && forall i :: 0 <= i < |o.elems| ==>
          Shaped(elem, o.elems[i])
    case Opt(elem) => o.OptObj? && Shaped(elem, o.value) && (!o.hasValue ==> Owned(o.value) == multiset{})
    case Struct(fields) => o.StructObj? && ShapedFields(fields, o.members)
    case _ => o.Scalar?
  }

  predicate ShapedFields(fields: Fields, members: Objs)
    decreases fields, 0
  {
    match (fields, members)
    case (NoFields, NoObjs) => true
    case (Field(_, ty, rest), MemberObj(o, others)) => Shaped(ty, o) && ShapedFields(rest, others)
    case _ => false
  }

  function One(p: Addr): multiset<Addr> {
    if p == NIL then multiset{} else multiset{p}
  }

  // The blocks reachable from an object, counted with multiplicity.
  function Owned(o: Obj): multiset<Addr>
    decreases o, 0
  {
    match o
    case Scalar(_) => multiset{}
    case StrObj(p, _) => One(p)
    case BytesObj(p, _) => One(p)
    case SeqObj(p, elems) => One(p) + OwnedAll(elems)
    case OptObj(_, value) => Owned(value)
    case StructObj(members) => OwnedMembers(members)
  }

  function OwnedAll(elems: seq<Obj>): multiset<Addr>
    decreases elems, 0
  {
    if elems == [] then multiset{} else Owned(elems[0]) + OwnedAll(elems[1..])
  }

  function OwnedMembers(members: Objs): multiset<Addr>
    decreases members, 0
  {
    match members
    case NoObjs => multiset{}
    case MemberObj(o, rest) => Owned(o) + OwnedMembers(rest)
  }

  // What the host reads of the object.
  function Value(o: Obj): Val
    decreases o, 0
  {
    match o
    case Scalar(v) => v
    case StrObj(p, text) => VStr(if p == NIL then Null else Chars(text))
    case BytesObj(_, data) => VBytes(data)
    case SeqObj(_, elems) => VSeq(ValueAll(elems))
    case OptObj(has, value) => VOpt(if has then Some(Value(value)) else None)
    case StructObj(members) => VStruct(ValueMembers(members))
  }

  function ValueAll(elems: seq<Obj>): seq<Val>
    decreases elems, 0
  {
    if elems == [] then [] else [Value(elems[0])] + ValueAll(elems[1..])
  }

  function ValueMembers(members: Objs): Vals
    decreases members, 0
  {
    match members
    case NoObjs => NoVals
    case MemberObj(o, rest) => Member(Value(o), ValueMembers(rest))
  }

  lemma {:induction false} ZeroOwnsNothing(ty: Ty)
    ensures Shaped(ty, Zero(ty)) && Owned(Zero(ty)) == multiset{}
    decreases ty, 0
  {
    match ty
    case Opt(elem) => ZeroOwnsNothing(elem);
    case Struct(fields) => ZeroFieldsOwnNothing(fields);
    case _ =>
  }

  lemma {:induction false} ZeroFieldsOwnNothing(fields: Fields)
    ensures ShapedFields(fields, ZeroFields(fields)) && OwnedMembers(ZeroFields(fields)) == multiset{}
    decreases fields, 0
  {
    match fields
    case Field(_, ty, rest) => ZeroOwnsNothing(ty); ZeroFieldsOwnNothing(rest);
    case NoFields =>
  }

  lemma {:induction false} OwnedConcat(a: seq<Obj>, b: seq<Obj>)
    ensures OwnedAll(a + b) == OwnedAll(a) + OwnedAll(b)
  {
    if a == [] {
      assert a + b == b;
    } else {
      OwnedConcat(a[1..], b);
      assert (a + b)[1..] == a[1..] + b;
    }
  }

  lemma {:induction false} ValueConcat(a: seq<Obj>, b: seq<Obj>)
    ensures ValueAll(a + b) == ValueAll(a) + ValueAll(b)
  {
    if a == [] {
      assert a + b == b;
    } else {
      ValueConcat(a[1..], b);
      assert (a + b)[1..] == a[1..] + b;
    }
  }

  lemma {:induction false} OwnedZeros(elems: seq<Obj>)
    requires forall i :: 0 <= i < |elems| ==> Owned(elems[i]) == multiset{}
    ensures OwnedAll(elems) == multiset{}
  {
    if elems != [] { OwnedZeros(elems[1..]); }
  }

  // One element of a sequence is replaced.
  lemma OwnedUpdate(elems: seq<Obj>, i: nat, o: Obj)
    requires i < |elems| && Owned(elems[i]) == multiset{}
    ensures OwnedAll(elems[i := o]) == OwnedAll(elems) + Owned(o)
  {
    assert elems == elems[..i] + ([elems[i]] + elems[i + 1..]);
    assert elems[i := o] == elems[..i] + ([o] + elems[i + 1..]);
    OwnedConcat(elems[..i], [elems[i]] + elems[i + 1..]);
    OwnedConcat(elems[..i], [o] + elems[i + 1..]);
    assert ([elems[i]] + elems[i + 1..])[1..] == ([o] + elems[i + 1..])[1..] == elems[i + 1..];
  }

  // ---------------------------------------------------------------------------------------
  // Memory
  // ---------------------------------------------------------------------------------------

  class Memory {
    var live: set<Addr>

    ghost function Blocks(): multiset<Addr>
      reads this
    {
      multiset(live)
    }

    // A block that is not in use, or nil when memory is short.
    method Malloc(fault: bool) returns (p: Addr)
      modifies this
      ensures Blocks() == old(Blocks()) + One(p) && (p == NIL <==> fault)
    {
      if fault { return NIL; }
      ghost var some := FreshAddr(live, NIL);
      assert some != NIL && some !in live;
      p :| p != NIL && p !in live;
      live := live + {p};
    }

    method Free(p: Addr)
      requires One(p) <= Blocks()
      modifies this
      ensures Blocks() == old(Blocks()) - One(p)
    {
      if p != NIL {
        assert p in Blocks();
        live := live - {p};
      }
    }
  }

  // ---------------------------------------------------------------------------------------
  // Decoding into zeroed storage
  // ---------------------------------------------------------------------------------------

  predicate IsScalar(ty: Ty) {
    ty.Bool? || ty.Int? || ty.Ptr? || ty.Real? || ty.Enum?
  }

  lemma {:induction false} AllDecoded(elem: Ty, items: seq<Item>, elems: seq<Obj>)
    requires |items| == |elems| && forall i :: 0 <= i < |items| ==> Codec.Decode(elem, items[i]) == Ok(Value(elems[i]))
    ensures DecodeAll(elem, items) == Ok(ValueAll(elems))
  {
    if items != [] { AllDecoded(elem, items[1..], elems[1..]); }
  }

  /** A call into the allocator or the parser fails only in a `faulty` world: memory is short, or
      the bytes of the input stop being the item. */
  method MayFail(faulty: bool) returns (fails: bool)
    ensures fails ==> faulty
  {
    fails := *;
    fails := fails && faulty;
  }

  // The value may have been stored when the cursor fails to move on.
  method DecodeScalar(ty: Ty, item: Item, faulty: bool) returns (ok: bool, o: Obj)
    requires IsScalar(ty)
    ensures o.Scalar? && (ok ==> Codec.Decode(ty, item) == Ok(o.v))
    ensures !faulty ==> (ok <==> Codec.Decode(ty, item).Ok?)
  {
    o := Zero(ty);
    match Codec.Decode(ty, item)
    case Err(_) => ok := false;
    case Ok(v) =>
      var stuck := MayFail(faulty);
      ok := !stuck;
      var stored: bool := *;
      if ok || stored { o := Scalar(v); }
  }

  method DecodeStr(mem: Memory, item: Item, faulty: bool) returns (ok: bool, o: Obj)
    modifies mem
    ensures o.StrObj? && mem.Blocks() == old(mem.Blocks()) + Owned(o)
    ensures ok ==> Codec.Decode(Str, item) == Ok(Value(o))
    ensures !faulty ==> (ok <==> Codec.Decode(Str, item).Ok?)
  {
    o := Zero(Str);
    if !item.IText? { return false, o; }
    var lengthUnknown := MayFail(faulty);
    if lengthUnknown { return false, o; }
    var short := MayFail(faulty);
    var buf := mem.Malloc(short);
    if buf == NIL { return false, o; }
    var uncopied := MayFail(faulty);
    if uncopied {
      mem.Free(buf);
      return false, o;
    }
    o := StrObj(buf, UpToNul(item.text));
    var stuck := MayFail(faulty);
    ok := !stuck;
  }

  method DecodeBytes(mem: Memory, item: Item, faulty: bool) returns (ok: bool, o: Obj)
    modifies mem
    ensures o.BytesObj? && mem.Blocks() == old(mem.Blocks()) + Owned(o)
    ensures ok ==> Codec.Decode(Bytes, item) == Ok(Value(o))
    ensures !faulty ==> (ok <==> Codec.Decode(Bytes, item).Ok?)
  {
    o := Zero(Bytes);
    if !item.IBytes? { return false, o; }
    var lengthUnknown := MayFail(faulty);
    if lengthUnknown { return false, o; }
    var short := MayFail(faulty);
    var data := mem.Malloc(short);
    o := BytesObj(data, item.data);
    if data == NIL { return false, Zero(Bytes); }
    var uncopied := MayFail(faulty);
    if uncopied {
      mem.Free(data);
      return false, Zero(Bytes);
    }
    var stuck := MayFail(faulty);
    ok := !stuck;
  }

  /** Whatever the input and wherever it fails, the storage owns exactly the blocks the decode
      has allocated and not freed; and what a successful decode stored is the decoded value. Where
      neither memory nor the bytes let it down, it succeeds on every item that decodes. */
  method Decode(mem: Memory, ty: Ty, item: Item, faulty: bool) returns (ok: bool, o: Obj)
    modifies mem
    ensures Shaped(ty, o) && mem.Blocks() == old(mem.Blocks()) + Owned(o)
    ensures ok ==> Codec.Decode(ty, item) == Ok(Value(o))
    ensures !faulty ==> (ok <==> Codec.Decode(ty, item).Ok?)
    decreases ty, 0
  {
    match ty
    case Str => ok, o := DecodeStr(mem, item, faulty);
    case Bytes => ok, o := DecodeBytes(mem, item, faulty);
    case Seq(elem) => ok, o := DecodeSeq(mem, elem, item, faulty);
    case Opt(elem) => ok, o := DecodeOpt(mem, elem, item, faulty);
    case Struct(fields) =>
      ZeroFieldsOwnNothing(fields);
      if !item.IMap? { return false, StructObj(ZeroFields(fields)); }
      var members;
      ok, members := DecodeFields(mem, fields, item.entries, faulty);
      o := StructObj(members);
      var stuck := MayFail(faulty);
      ok := ok && !stuck;
    case _ => ok, o := DecodeScalar(ty, item, faulty);
  }

  method DecodeSeq(mem: Memory, elem: Ty, item: Item, faulty: bool) returns (ok: bool, o: Obj)
    modifies mem
    ensures Shaped(Seq(elem), o) && mem.Blocks() == old(mem.Blocks()) + Owned(o)
    ensures ok ==> Codec.Decode(Seq(elem), item) == Ok(Value(o))
    ensures !faulty ==> (ok <==> Codec.Decode(Seq(elem), item).Ok?)
    decreases elem, 2
  {
    o := Zero(Seq(elem));
    if !item.IArray? { return false, o; }
    var lengthUnknown := MayFail(faulty);
    if lengthUnknown { return false, o; }
    var items := item.items;
    var short := MayFail(faulty);
    var data := mem.Malloc(short);
    if data == NIL { return false, o; }
    var outside := MayFail(faulty);
    var elems;
    ok, elems := DecodeElems(mem, elem, items, !outside, faulty);
    o := SeqObj(data, elems);
    if !ok { return; }
    AllDecoded(elem, items, elems);
    var stuck := MayFail(faulty);
    ok := !stuck;
  }

  lemma {:induction false} OneUndecoded(elem: Ty, items: seq<Item>, j: nat)
    requires j < |items| && Codec.Decode(elem, items[j]).Err?
    ensures DecodeAll(elem, items).Err?
  {
    if j > 0 { OneUndecoded(elem, items[1..], j - 1); }
  }

  // The array is zeroed; each element is decoded in place until one fails.
  method DecodeElems(mem: Memory, elem: Ty, items: seq<Item>, entered: bool, faulty: bool)
    returns (ok: bool, elems: seq<Obj>)
    modifies mem
    ensures |elems| == |items| && forall j :: 0 <= j < |elems| ==> Shaped(elem, elems[j])
    ensures mem.Blocks() == old(mem.Blocks()) + OwnedAll(elems)
    ensures ok ==> forall j :: 0 <= j < |items| ==> Codec.Decode(elem, items[j]) == Ok(Value(elems[j]))
    ensures !ok && entered && !faulty ==> DecodeAll(elem, items).Err?
    decreases elem, 1
  {
    hide OwnedAll, Owned, Shaped, Zero, Value, Codec.Decode, Codec.DecodeAll;
    elems := seq(|items|, _ => Zero(elem));
    ZeroOwnsNothing(elem);
    OwnedZeros(elems);
    ok := entered;
    var i := 0;
    while i < |items| && ok
      invariant 0 <= i <= |items| == |elems|
      invariant forall j :: 0 <= j < |elems| ==> Shaped(elem, elems[j])
      invariant ok ==> forall j :: i <= j < |elems| ==> elems[j] == Zero(elem)
      invariant ok ==> forall j :: 0 <= j < i ==> Codec.Decode(elem, items[j]) == Ok(Value(elems[j]))
      invariant mem.Blocks() == old(mem.Blocks()) + OwnedAll(elems)
      invariant !ok && entered && !faulty ==> DecodeAll(elem, items).Err?
      decreases |items| - i, ok
    {
      var e;
      ok, e := Decode(mem, elem, items[i], faulty);
      if !ok && !faulty { OneUndecoded(elem, items, i); }
      OwnedUpdate(elems, i, e);
      elems := elems[i := e];
      if ok { i := i + 1; }
    }
  }

  method DecodeOpt(mem: Memory, elem: Ty, item: Item, faulty: bool) returns (ok: bool, o: Obj)
    modifies mem
    ensures Shaped(Opt(elem), o) && mem.Blocks() == old(mem.Blocks()) + Owned(o)
    ensures ok ==> Codec.Decode(Opt(elem), item) == Ok(Value(o))
    ensures !faulty ==> (ok <==> Codec.Decode(Opt(elem), item).Ok?)
    decreases elem, 1
  {
    if item.INull? {
      ZeroOwnsNothing(elem);
      o := OptObj(false, Zero(elem));
      var stuck := MayFail(faulty);
      ok := !stuck;
      return;
    }
    var value;
    ok, value := Decode(mem, elem, item, faulty);
    o := OptObj(true, value);
  }

  // One member after the other; those after a failure stay zeroed.
  method DecodeFields(mem: Memory, fields: Fields, entries: seq<(Item, Item)>, faulty: bool)
    returns (ok: bool, members: Objs)
    modifies mem
    ensures ShapedFields(fields, members) && mem.Blocks() == old(mem.Blocks()) + OwnedMembers(members)
    ensures ok ==> Codec.DecodeFields(fields, entries) == Ok(ValueMembers(members))
    ensures !faulty ==> (ok <==> Codec.DecodeFields(fields, entries).Ok?)
    decreases fields, 0
  {
    match fields
    case NoFields => return true, NoObjs;
    case Field(name, ty, rest) =>
      ZeroOwnsNothing(ty);
      ZeroFieldsOwnNothing(rest);
      var unlooked := MayFail(faulty);
      var found := Find(entries, name);
      if unlooked || found == None { return false, MemberObj(Zero(ty), ZeroFields(rest)); }
      var o;
      ok, o := Decode(mem, ty, found.value, faulty);
      if !ok { return false, MemberObj(o, ZeroFields(rest)); }
      var others;
      ok, others := DecodeFields(mem, rest, entries, faulty);
      members := MemberObj(o, others);
  }

  // ---------------------------------------------------------------------------------------
  // Freeing
  // ---------------------------------------------------------------------------------------

  // The types a free function is emitted for: those that contain a string, bytes or a sequence.
  predicate Owns(ty: Ty)
    decreases ty, 0
  {
    match ty
    case Str => true
    case Bytes => true
    case Seq(_) => true
    case Opt(elem) => Owns(elem)
    case Struct(fields) => AnyOwns(fields)
    case _ => false
  }

  predicate AnyOwns(fields: Fields)
    decreases fields, 0
  {
    fields.Field? && (Owns(fields.ty) || AnyOwns(fields.rest))
  }

  // Where no free function is emitted there is nothing to free.
  lemma {:induction false} NothingOwned(ty: Ty, o: Obj)
    requires Shaped(ty, o) && !Owns(ty)
    ensures Owned(o) == multiset{}
    decreases ty, 0
  {
    match ty
    case Opt(elem) => NothingOwned(elem, o.value);
    case Struct(fields) => NoMemberOwned(fields, o.members);
    case _ =>
  }

  lemma {:induction false} NoMemberOwned(fields: Fields, members: Objs)
    requires ShapedFields(fields, members) && !AnyOwns(fields)
    ensures OwnedMembers(members) == multiset{}
    decreases fields, 0
  {
    match (fields, members)
    case (Field(_, ty, rest), MemberObj(o, others)) => NothingOwned(ty, o); NoMemberOwned(rest, others);
    case _ =>
  }

  /** And where one is emitted there can be something: some object of the type owns a block. */
  lemma {:induction false} SomethingOwned(ty: Ty) returns (o: Obj)
    requires Owns(ty)
    ensures Shaped(ty, o) && Owned(o) != multiset{}
    decreases ty, 0
  {
    match ty
    case Str => o := StrObj(1, "");
    case Bytes => o := BytesObj(1, []);
    case Seq(_) => o := SeqObj(1, []);
    case Opt(elem) =>
      var value := SomethingOwned(elem);
      o := OptObj(true, value);
    case Struct(fields) =>
      var members := SomeMemberOwned(fields);
      o := StructObj(members);
  }

  lemma {:induction false} SomeMemberOwned(fields: Fields) returns (members: Objs)
    requires AnyOwns(fields)
    ensures ShapedFields(fields, members) && OwnedMembers(members) != multiset{}
    decreases fields, 0
  {
    ZeroFieldsOwnNothing(fields.rest);
    ZeroOwnsNothing(fields.ty);
    if Owns(fields.ty) {
      var o := SomethingOwned(fields.ty);
      members := MemberObj(o, ZeroFields(fields.rest));
    } else {
      var rest := SomeMemberOwned(fields.rest);
      members := MemberObj(Zero(fields.ty), rest);
    }
  }

  /** Gives back every block the object owns, once, and leaves it owning none: a second free
      of the same object does nothing. */
  method Free(mem: Memory, ty: Ty, o: Obj) returns (o': Obj)
    requires Shaped(ty, o) && Owned(o) <= mem.Blocks()
    modifies mem
    ensures Shaped(ty, o') && Owned(o') == multiset{}
    ensures mem.Blocks() == old(mem.Blocks()) - Owned(o)
    decreases ty, 0
  {
    hide OwnedAll, OwnedMembers, ShapedFields, AnyOwns, Zero, Value;
    OwnedNone();
    if !Owns(ty) {
      NothingOwned(ty, o);
      return o;
    }
    match ty
    case Str =>
      mem.Free(o.p);
      o' := StrObj(NIL, "");
    case Bytes =>
      mem.Free(o.p);
      o' := BytesObj(NIL, []);
    case Seq(elem) => o' := FreeSeq(mem, elem, o);
    case Opt(elem) =>
      if !o.hasValue { return o; }
      var value := Free(mem, elem, o.value);
      o' := OptObj(false, value);
    case Struct(fields) =>
      var members := FreeFields(mem, fields, o.members);
      o' := StructObj(members);
  }

  method FreeSeq(mem: Memory, elem: Ty, o: Obj) returns (o': Obj)
    requires Shaped(Seq(elem), o) && Owned(o) <= mem.Blocks()
    modifies mem
    ensures Shaped(Seq(elem), o') && Owned(o') == multiset{}
    ensures mem.Blocks() == old(mem.Blocks()) - Owned(o)
    decreases elem, 2
  {
    if o.p == NIL { return o; }
    FreeElems(mem, elem, o.elems, o.p);
    o' := SeqObj(NIL, []);
  }

  method FreeElems(mem: Memory, elem: Ty, elems: seq<Obj>, data: Addr)
    requires (forall i :: 0 <= i < |elems| ==> Shaped(elem, elems[i])) && One(data) + OwnedAll(elems) <= mem.Blocks()
    modifies mem
    ensures mem.Blocks() == old(mem.Blocks()) - (One(data) + OwnedAll(elems))
    decreases elem, 1
  {
    hide Shaped, Owned, OwnedAll;
    OwnedNone();
    var i := 0;
    while i < |elems|
      invariant 0 <= i <= |elems|
      invariant One(data) + OwnedAll(elems[i..]) <= mem.Blocks()
      invariant mem.Blocks() - (One(data) + OwnedAll(elems[i..])) == old(mem.Blocks()) - (One(data) + OwnedAll(elems))
    {
      OwnedFirst(elems[i..]);
      assert elems[i..][1..] == elems[i + 1..];
      var freed := Free(mem, elem, elems[i]);
      i := i + 1;
    }
    assert elems[i..] == [];
    mem.Free(data);
  }

  lemma OwnedNone()
    ensures OwnedAll([]) == multiset{}
  {
  }

  lemma OwnedFirst(elems: seq<Obj>)
    requires elems != []
    ensures OwnedAll(elems) == Owned(elems[0]) + OwnedAll(elems[1..])
  {
  }

  method FreeFields(mem: Memory, fields: Fields, members: Objs) returns (members': Objs)
    requires ShapedFields(fields, members) && OwnedMembers(members) <= mem.Blocks()
    modifies mem
    ensures ShapedFields(fields, members') && OwnedMembers(members') == multiset{}
    ensures mem.Blocks() == old(mem.Blocks()) - OwnedMembers(members)
    decreases fields, 0
  {
    match (fields, members)
    case (Field(_, ty, rest), MemberObj(o, others)) =>
      var o' := Free(mem, ty, o);
      var others' := FreeFields(mem, rest, others);
      members' := MemberObj(o', others');
    case _ => members' := members;
  }

  // ---------------------------------------------------------------------------------------
  // The reply trampoline
  // ---------------------------------------------------------------------------------------

  const RET_OK := 0
  const RET_STALE_WARN := 3

  // What the handler of a call is shown, if it is called at all: an error code, or the reply.
  datatype Shown = Nothing | Failure(code: int) | Reply(value: Val)

  /** The trampoline discipline: a progress ping leaves the call box for the terminal reply, which
      frees it, and every block the decode made is freed, whether the decode succeeded or failed at
      any point. The handler is called once by the terminal reply: with the error code of a failed
      call, with the decoded value, or with -1 when the message does not decode. */
  method ReplyTrampoline(mem: Memory, ty: Ty, box: Addr, hasHandler: bool, ret: int, message: Option<Item>,
                         faulty: bool)
    returns (shown: Shown)
    requires box != NIL && box in mem.live
    modifies mem
    ensures mem.Blocks() == if ret == RET_STALE_WARN then old(mem.Blocks()) else old(mem.Blocks()) - One(box)
    ensures shown == Nothing <==> ret == RET_STALE_WARN || !hasHandler
    ensures shown != Nothing && ret != RET_OK ==> shown == Failure(ret)
    ensures shown.Reply? ==> ret == RET_OK && Says(ty, message, shown.value)
    ensures shown != Nothing && ret == RET_OK && !shown.Reply? ==> shown == Failure(-1)
    ensures !faulty && shown != Nothing && ret == RET_OK ==>
              (shown.Reply? <==> message.Some? && Codec.Decode(ty, message.value).Ok?)
  {
    hide Owned, Shaped, Zero, Value, Codec.Decode;
    if ret == RET_STALE_WARN { return Nothing; }
    if !hasHandler {
      mem.Free(box);
      return Nothing;
    }
    if ret != RET_OK {
      var short := MayFail(faulty);
      var em := mem.Malloc(short);
      shown := Failure(ret);
      mem.Free(em);
      mem.Free(box);
      return;
    }
    shown := DecodeReply(mem, ty, message, faulty);
    mem.Free(box);
  }

  predicate Says(ty: Ty, message: Option<Item>, v: Val) {
    message.Some? && Codec.Decode(ty, message.value) == Ok(v)
  }

  // Decode into zeroed storage, show the result, free what the decode left behind. No message is
  // one that the parser cannot begin.
  method DecodeReply(mem: Memory, ty: Ty, message: Option<Item>, faulty: bool) returns (shown: Shown)
    modifies mem
    ensures mem.Blocks() == old(mem.Blocks())
    ensures if shown.Reply? then Says(ty, message, shown.value) else shown == Failure(-1)
    ensures !faulty ==> (shown.Reply? <==> message.Some? && Codec.Decode(ty, message.value).Ok?)
  {
    hide Owned, Shaped, Zero, Value, Codec.Decode;
    ZeroOwnsNothing(ty);
    var decoded, out := false, Zero(ty);
    if message.Some? {
      decoded, out := Decode(mem, ty, message.value, faulty);
    }
    if decoded {
      shown := Reply(Value(out));
    } else {
      var short := MayFail(faulty);
      var err := mem.Malloc(short);
      shown := Failure(-1);
      mem.Free(err);
    }
    out := Free(mem, ty, out);
  }
}

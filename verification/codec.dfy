/** The codecs that the C binding emits, as functions over the type IR and CBOR data items
    (sections 3.1 and 3.3 of RFC 8949). */
module Codec {
  import opened Wrappers

  datatype Error = ImproperValue | DataTooLarge
  datatype Result<+T> = Ok(value: T) | Err(error: Error)

  type byte = x: int | 0 <= x < 256

  // ---------------------------------------------------------------------------------------
  // Types, values and data items
  // ---------------------------------------------------------------------------------------

  datatype Ty =
    | Bool
    | Int(signed: bool, bits: Width)
    | Real(double: bool)
    | Str
    | Bytes
    | Ptr                                  // crosses as a fixed 64-bit word
    | Seq(elem: Ty)
    | Opt(elem: Ty)
    | Enum(values: seq<EnumValue>)
    | Struct(fields: Fields)

  datatype Width = W8 | W16 | W32 | W64
  datatype EnumValue = EnumValue(ord: int, wire: string)
  datatype Fields = NoFields | Field(name: string, ty: Ty, rest: Fields)

  // A `const char*`: the characters before the terminator, or no string at all.
  datatype CString = Null | Chars(text: string)

  datatype Val =
    | VBool(b: bool)
    | VInt(n: int)
    | VReal(r: real)
    | VStr(s: CString)
    | VBytes(data: seq<byte>)
    | VSeq(items: seq<Val>)
    | VOpt(value: Option<Val>)
    | VEnum(ord: int)
    | VStruct(members: Vals)

  datatype Vals = NoVals | Member(value: Val, rest: Vals)

  datatype Item =
    | IBool(b: bool)
    | INull
    | IInt(n: int)
    | IFloat(r: real)
    | IDouble(r: real)
    | IText(text: string)
    | IBytes(data: seq<byte>)
    | IArray(items: seq<Item>)
    | IMap(entries: seq<(Item, Item)>)
    | IOther

  // ---------------------------------------------------------------------------------------
  // Leaves
  // ---------------------------------------------------------------------------------------

  const NUL: char := '\0'

  // What C reads of a buffer: the characters before the first NUL.
  function UpToNul(s: string): (t: string)
    ensures NUL !in t && t <= s && (t == s || s[|t|] == NUL)
    ensures NUL !in s ==> t == s
  {
    if s == [] || s[0] == NUL then [] else [s[0]] + UpToNul(s[1..])
  }

  function Low(signed: bool, bits: Width): int {
    if !signed then 0
    else match bits
      case W8 => -0x80
      case W16 => -0x8000
      case W32 => -0x8000_0000
      case W64 => -0x8000_0000_0000_0000
  }

  function High(signed: bool, bits: Width): int {
    match bits
    case W8 => if signed then 0x7f else 0xff
    case W16 => if signed then 0x7fff else 0xffff
    case W32 => if signed then 0x7fff_ffff else 0xffff_ffff
    case W64 => if signed then 0x7fff_ffff_ffff_ffff else 0xffff_ffff_ffff_ffff
  }

  predicate InRange(signed: bool, bits: Width, n: int) {
    Low(signed, bits) <= n <= High(signed, bits)
  }

  // The 64-bit leaf reads the item; the narrower ones check what it read.
  function DecodeInt(signed: bool, bits: Width, item: Item): Result<Val> {
    if !item.IInt? || (!signed && item.n < 0) then Err(ImproperValue)
    else if !InRange(signed, W64, item.n) then Err(DataTooLarge)
    else if !InRange(signed, bits, item.n) then Err(DataTooLarge)
    else Ok(VInt(item.n))
  }

  function DecodeReal(item: Item): Result<Val> {
    match item
    case IDouble(r) => Ok(VReal(r))
    case IFloat(r) => Ok(VReal(r))
    case _ => Err(ImproperValue)
  }

  function Longest(values: seq<EnumValue>): nat {
    if values == [] then 0
    else if |values[0].wire| > Longest(values[1..]) then |values[0].wire| else Longest(values[1..])
  }

  function EncodeEnum(values: seq<EnumValue>, ord: int): Result<Item> {
    if values == [] then Err(ImproperValue)
    else if values[0].ord == ord then Ok(IText(UpToNul(values[0].wire)))
    else EncodeEnum(values[1..], ord)
  }

  // The chain of `strcmp`s against the wire names, in declaration order.
  function MatchWire(values: seq<EnumValue>, text: string): Result<Val> {
    if values == [] then Err(ImproperValue)
    else if UpToNul(values[0].wire) == text then Ok(VEnum(values[0].ord))
    else MatchWire(values[1..], text)
  }

  function DecodeEnum(values: seq<EnumValue>, item: Item): Result<Val> {
    if !item.IText? || |item.text| > Longest(values) then Err(ImproperValue)
    else MatchWire(values, UpToNul(item.text))
  }

  // ---------------------------------------------------------------------------------------
  // The codecs
  // ---------------------------------------------------------------------------------------

  function Encode(ty: Ty, v: Val): Result<Item>
    decreases ty, 0
  {
    match (ty, v)
    case (Bool, VBool(b)) => Ok(IBool(b))
    case (Int(_, _), VInt(n)) => Ok(IInt(n))
    case (Ptr, VInt(n)) => Ok(IInt(n))
    case (Real(double), VReal(r)) => Ok(if double then IDouble(r) else IFloat(r))
    case (Str, VStr(s)) => Ok(IText(if s == Null then "" else s.text))
    case (Bytes, VBytes(data)) => Ok(IBytes(data))
    case (Enum(values), VEnum(ord)) => EncodeEnum(values, ord)
    case (Seq(elem), VSeq(items)) =>
      (match EncodeAll(elem, items)
       case Ok(encoded) => Ok(IArray(encoded))
       case Err(e) => Err(e))
    case (Opt(elem), VOpt(value)) => if value == None then Ok(INull) else Encode(elem, value.value)
    case (Struct(fields), VStruct(members)) =>
      (match EncodeFields(fields, members)
       case Ok(entries) => Ok(IMap(entries))
       case Err(e) => Err(e))
    case _ => Err(ImproperValue)
  }

  function EncodeAll(elem: Ty, items: seq<Val>): Result<seq<Item>>
    decreases elem, 1 + |items|
  {
    if items == [] then Ok([])
    else match (Encode(elem, items[0]), EncodeAll(elem, items[1..]))
      case (Ok(first), Ok(rest)) => Ok([first] + rest)
      case (Err(e), _) => Err(e)
      case (_, Err(e)) => Err(e)
  }

  function EncodeFields(fields: Fields, members: Vals): Result<seq<(Item, Item)>>
    decreases fields, 0
  {
    match (fields, members)
    case (NoFields, NoVals) => Ok([])
    case (Field(name, ty, rest), Member(value, others)) =>
      (match (Encode(ty, value), EncodeFields(rest, others))
       case (Ok(first), Ok(tail)) => Ok([(IText(name), first)] + tail)
       case (Err(e), _) => Err(e)
       case (_, Err(e)) => Err(e))
    case _ => Err(ImproperValue)
  }

  // `cbor_value_map_find_value`: the value of the first entry with that key.
  function Find(entries: seq<(Item, Item)>, name: string): Option<Item> {
    if entries == [] then None
    else if entries[0].0 == IText(name) then Some(entries[0].1)
    else Find(entries[1..], name)
  }

  function Decode(ty: Ty, item: Item): Result<Val>
    decreases ty, 0
  {
    match ty
    case Bool => if item.IBool? then Ok(VBool(item.b)) else Err(ImproperValue)
    case Int(signed, bits) => DecodeInt(signed, bits, item)
    case Ptr => DecodeInt(false, W64, item)
    case Real(_) => DecodeReal(item)
    case Str => if item.IText? then Ok(VStr(Chars(UpToNul(item.text)))) else Err(ImproperValue)
    case Bytes => if item.IBytes? then Ok(VBytes(item.data)) else Err(ImproperValue)
    case Enum(values) => DecodeEnum(values, item)
    case Seq(elem) =>
      if !item.IArray? then Err(ImproperValue)
      else (match DecodeAll(elem, item.items)
            case Ok(items) => Ok(VSeq(items))
            case Err(e) => Err(e))
    case Opt(elem) =>
      if item.INull? then Ok(VOpt(None))
      else (match Decode(elem, item)
            case Ok(v) => Ok(VOpt(Some(v)))
            case Err(e) => Err(e))
    case Struct(fields) =>
      if !item.IMap? then Err(ImproperValue)
      else (match DecodeFields(fields, item.entries)
            case Ok(members) => Ok(VStruct(members))
            case Err(e) => Err(e))
  }

  function DecodeAll(elem: Ty, items: seq<Item>): Result<seq<Val>>
    decreases elem, 1 + |items|
  {
    if items == [] then Ok([])
    else match Decode(elem, items[0])
      case Err(e) => Err(e)
      case Ok(first) =>
        match DecodeAll(elem, items[1..])
        case Err(e) => Err(e)
        case Ok(rest) => Ok([first] + rest)
  }

  function DecodeFields(fields: Fields, entries: seq<(Item, Item)>): Result<Vals>
    decreases fields, 0
  {
    match fields
    case NoFields => Ok(NoVals)
    case Field(name, ty, rest) =>
      match Find(entries, name)
      case None => Err(ImproperValue)
      case Some(item) =>
        match Decode(ty, item)
        case Err(e) => Err(e)
        case Ok(v) =>
          match DecodeFields(rest, entries)
          case Err(e) => Err(e)
          case Ok(vs) => Ok(Member(v, vs))
  }

  // ---------------------------------------------------------------------------------------
  // What a C value of a type can be, and which values survive the trip
  // ---------------------------------------------------------------------------------------

  predicate HasName(fields: Fields, name: string) {
    fields.Field? && (fields.name == name || HasName(fields.rest, name))
  }

  // C declares a struct member and an enum constant once, and an enum has at least one.
  predicate Declared(ty: Ty)
    decreases ty, 0
  {
    match ty
    case Seq(elem) => Declared(elem)
    case Opt(elem) => Declared(elem)
    case Enum(values) => forall i, j :: 0 <= i < j < |values| ==> values[i].ord != values[j].ord
    case Struct(fields) => DeclaredFields(fields)
    case _ => true
  }

  predicate DeclaredFields(fields: Fields)
    decreases fields, 0
  {
    fields.Field? ==> Declared(fields.ty) && !HasName(fields.rest, fields.name) && DeclaredFields(fields.rest)
  }

  predicate Typed(ty: Ty, v: Val)
    decreases ty, 0
  {
    match (ty, v)
    case (Bool, VBool(_)) => true
    case (Int(signed, bits), VInt(n)) => InRange(signed, bits, n)
    case (Ptr, VInt(n)) => InRange(false, W64, n)
    case (Real(_), VReal(_)) => true
    case (Str, VStr(s)) => s.Chars? ==> NUL !in s.text
    case (Bytes, VBytes(_)) => true
    case (Enum(values), VEnum(ord)) => exists i :: 0 <= i < |values| && values[i].ord == ord
    case (Seq(elem), VSeq(items)) => TypedAll(elem, items)
    case (Opt(elem), VOpt(value)) => value.Some? ==> Typed(elem, value.value)
    case (Struct(fields), VStruct(members)) => TypedFields(fields, members)
    case _ => false
  }

  predicate TypedAll(elem: Ty, items: seq<Val>)
    decreases elem, 1 + |items|
  {
    items != [] ==> Typed(elem, items[0]) && TypedAll(elem, items[1..])
  }

  predicate TypedFields(fields: Fields, members: Vals)
    decreases fields, 0
  {
    match (fields, members)
    case (NoFields, NoVals) => true
    case (Field(_, ty, rest), Member(value, others)) => Typed(ty, value) && TypedFields(rest, others)
    case _ => false
  }

  // The wire name of the value is not the wire name of a value declared before it.
  predicate OwnWire(values: seq<EnumValue>, ord: int) {
    values != []
    && (values[0].ord == ord || (UpToNul(values[0].wire) != WireOf(values[1..], ord) && OwnWire(values[1..], ord)))
  }

  function WireOf(values: seq<EnumValue>, ord: int): string {
    if values == [] then "" else if values[0].ord == ord then UpToNul(values[0].wire) else WireOf(values[1..], ord)
  }

  /** The exact loss of the wire form: a null string comes back empty, a present option whose
      payload is an absent option comes back absent, and an enum value comes back as the first
      one of its wire name. */
  predicate Survives(ty: Ty, v: Val)
    decreases ty, 0
  {
    match (ty, v)
    case (Str, VStr(s)) => s != Null
    case (Enum(values), VEnum(ord)) => OwnWire(values, ord)
    case (Seq(elem), VSeq(items)) => SurviveAll(elem, items)
    case (Opt(elem), VOpt(value)) => value.Some? ==>
          !(elem.Opt? && value.value == VOpt(None)) && Survives(elem, value.value)
    case (Struct(fields), VStruct(members)) => SurviveFields(fields, members)
    case _ => true
  }

  predicate SurviveAll(elem: Ty, items: seq<Val>)
    decreases elem, 1 + |items|
  {
    items != [] ==> Survives(elem, items[0]) && SurviveAll(elem, items[1..])
  }

  predicate SurviveFields(fields: Fields, members: Vals)
    decreases fields, 0
  {
    match (fields, members)
    case (Field(_, ty, rest), Member(value, others)) => Survives(ty, value) && SurviveFields(rest, others)
    case _ => true
  }

  // ---------------------------------------------------------------------------------------
  // Round trip
  // ---------------------------------------------------------------------------------------

  lemma {:induction false} LongestBounds(values: seq<EnumValue>, i: nat)
    requires i < |values|
    ensures |values[i].wire| <= Longest(values)
  {
    if i > 0 { LongestBounds(values[1..], i - 1); }
  }

  // Encoding a known value gives its wire name; matching it gives the first of that name.
  lemma {:induction false} EnumTrip(values: seq<EnumValue>, ord: int)
    requires exists i :: 0 <= i < |values| && values[i].ord == ord
    requires forall i, j :: 0 <= i < j < |values| ==> values[i].ord != values[j].ord
    ensures EncodeEnum(values, ord) == Ok(IText(WireOf(values, ord))) && |WireOf(values, ord)| <= Longest(values)
    ensures NUL !in WireOf(values, ord)
    ensures MatchWire(values, WireOf(values, ord)).Ok?
    ensures MatchWire(values, WireOf(values, ord)) == Ok(VEnum(ord)) <==> OwnWire(values, ord)
  {
    if values[0].ord != ord {
      var i :| 0 <= i < |values| && values[i].ord == ord;
      assert values[1..][i - 1].ord == ord;
      EnumTrip(values[1..], ord);
    } else {
      LongestBounds(values, 0);
    }
  }

  lemma {:induction false} FindSkips(before: seq<(Item, Item)>, after: seq<(Item, Item)>, name: string)
    requires forall i :: 0 <= i < |before| ==> before[i].0 != IText(name)
    ensures Find(before + after, name) == Find(after, name)
  {
    if before == [] {
      assert before + after == after;
    } else {
      FindSkips(before[1..], after, name);
      assert (before + after)[1..] == before[1..] + after;
    }
  }

  // Only an absent option is written as null.
  lemma {:induction false} NullMeansAbsent(ty: Ty, v: Val)
    requires Encode(ty, v) == Ok(INull)
    ensures ty.Opt? && v.VOpt? && (v.value.Some? ==> Encode(ty.elem, v.value.value) == Ok(INull))
    ensures !(v.value.Some? && Survives(ty, v))
    decreases ty
  {
    match (ty, v)
    case (Opt(elem), VOpt(value)) => if value.Some? { NullMeansAbsent(elem, value.value); }
    case (Enum(values), VEnum(ord)) => EnumText(values, ord);
    case _ =>
  }

  lemma {:induction false} EnumText(values: seq<EnumValue>, ord: int)
    ensures EncodeEnum(values, ord).Ok? ==> EncodeEnum(values, ord).value.IText?
  {
    if values != [] { EnumText(values[1..], ord); }
  }

  /** Every value of a declared type encodes and decodes again, and comes back unchanged if
      and only if it holds none of the three things the wire cannot tell apart. */
  lemma {:induction false} RoundTripIff(ty: Ty, v: Val)
    requires Declared(ty) && Typed(ty, v)
    ensures Encode(ty, v).Ok? && Decode(ty, Encode(ty, v).value).Ok?
    ensures Decode(ty, Encode(ty, v).value) == Ok(v) <==> Survives(ty, v)
    decreases ty, 0
  {
    match (ty, v)
    case (Enum(values), VEnum(ord)) => EnumTrip(values, ord);
    case (Seq(elem), VSeq(items)) => RoundTripAll(elem, items);
    case (Struct(fields), VStruct(members)) =>
      RoundTripFields(fields, members, []);
      assert [] + EncodeFields(fields, members).value == EncodeFields(fields, members).value;
    case (Opt(elem), VOpt(value)) =>
      if value.Some? {
        RoundTripIff(elem, value.value);
        if Encode(elem, value.value) == Ok(INull) { NullMeansAbsent(elem, value.value); }
      }
    case _ =>
  }

  lemma {:induction false} RoundTripAll(elem: Ty, items: seq<Val>)
    requires Declared(elem) && TypedAll(elem, items)
    ensures EncodeAll(elem, items).Ok? && DecodeAll(elem, EncodeAll(elem, items).value).Ok?
    ensures DecodeAll(elem, EncodeAll(elem, items).value) == Ok(items) <==> SurviveAll(elem, items)
    decreases elem, 1 + |items|
  {
    if items != [] {
      RoundTripIff(elem, items[0]);
      RoundTripAll(elem, items[1..]);
      var encoded := EncodeAll(elem, items).value;
      assert encoded[1..] == EncodeAll(elem, items[1..]).value;
      var first, rest := Decode(elem, encoded[0]).value, DecodeAll(elem, encoded[1..]).value;
      assert ([first] + rest)[0] == first && ([first] + rest)[1..] == rest;
      assert items == [items[0]] + items[1..];
    }
  }

  lemma {:induction false} RoundTripFields(fields: Fields, members: Vals, before: seq<(Item, Item)>)
    requires DeclaredFields(fields) && TypedFields(fields, members)
    requires forall i :: 0 <= i < |before| ==> before[i].0.IText? && !HasName(fields, before[i].0.text)
    ensures EncodeFields(fields, members).Ok?
    ensures DecodeFields(fields, before + EncodeFields(fields, members).value).Ok?
    ensures var entries := before + EncodeFields(fields, members).value;
            DecodeFields(fields, entries) == Ok(members) <==> SurviveFields(fields, members)
    decreases fields, 0
  {
    match (fields, members)
    case (Field(name, ty, rest), Member(value, others)) =>
      RoundTripIff(ty, value);
      var entry := (IText(name), Encode(ty, value).value);
      RoundTripFields(rest, others, before + [entry]);
      var entries := EncodeFields(fields, members).value;
      assert entries[1..] == EncodeFields(rest, others).value && entries[0] == entry;
      assert before + entries == before + [entry] + entries[1..];
      FindSkips(before, entries, name);
    case _ =>
  }

  /** At the level of types: with no option directly inside an option and distinct wire names,
      only null strings are lost. */
  predicate Plain(ty: Ty)
    decreases ty, 0
  {
    match ty
    case Seq(elem) => Plain(elem)
    case Opt(elem) => !elem.Opt? && Plain(elem)
    case Enum(values) => forall i, j :: 0 <= i < j < |values| ==> UpToNul(values[i].wire) != UpToNul(values[j].wire)
    case Struct(fields) => PlainFields(fields)
    case _ => true
  }

  predicate PlainFields(fields: Fields)
    decreases fields, 0
  {
    fields.Field? ==> Plain(fields.ty) && PlainFields(fields.rest)
  }

  predicate NoNull(v: Val)
    decreases v, 0
  {
    match v
    case VStr(s) => s != Null
    case VSeq(items) => forall i :: 0 <= i < |items| ==> NoNull(items[i])
    case VOpt(value) => value.Some? ==> NoNull(value.value)
    case VStruct(members) => NoNullMembers(members)
    case _ => true
  }

  predicate NoNullMembers(members: Vals)
    decreases members, 0
  {
    members.Member? ==> NoNull(members.value) && NoNullMembers(members.rest)
  }

  lemma {:induction false} OwnWires(values: seq<EnumValue>, ord: int)
    requires forall i, j :: 0 <= i < j < |values| ==> UpToNul(values[i].wire) != UpToNul(values[j].wire)
    requires exists i :: 0 <= i < |values| && values[i].ord == ord
    ensures OwnWire(values, ord)
    ensures exists i :: 0 <= i < |values| && WireOf(values, ord) == UpToNul(values[i].wire)
  {
    if values[0].ord != ord {
      var i :| 0 <= i < |values| && values[i].ord == ord;
      assert values[1..][i - 1].ord == ord;
      OwnWires(values[1..], ord);
      var j :| 0 <= j < |values| - 1 && WireOf(values[1..], ord) == UpToNul(values[1..][j].wire);
      assert values[1..][j] == values[j + 1];
    }
  }

  lemma {:induction false} PlainSurvives(ty: Ty, v: Val)
    requires Plain(ty) && Typed(ty, v) && NoNull(v)
    ensures Survives(ty, v)
    decreases ty, 0
  {
    match (ty, v)
    case (Enum(values), VEnum(ord)) => OwnWires(values, ord);
    case (Seq(elem), VSeq(items)) => PlainSurvivesAll(elem, items);
    case (Opt(elem), VOpt(value)) => if value.Some? { PlainSurvives(elem, value.value); }
    case (Struct(fields), VStruct(members)) => PlainSurvivesFields(fields, members);
    case _ =>
  }

  lemma {:induction false} PlainSurvivesAll(elem: Ty, items: seq<Val>)
    requires Plain(elem) && TypedAll(elem, items) && forall i :: 0 <= i < |items| ==> NoNull(items[i])
    ensures SurviveAll(elem, items)
    decreases elem, 1 + |items|
  {
    if items != [] {
      PlainSurvives(elem, items[0]);
      PlainSurvivesAll(elem, items[1..]);
    }
  }

  lemma {:induction false} PlainSurvivesFields(fields: Fields, members: Vals)
    requires PlainFields(fields) && TypedFields(fields, members) && NoNullMembers(members)
    ensures SurviveFields(fields, members)
    decreases fields, 0
  {
    match (fields, members)
    case (Field(_, ty, rest), Member(value, others)) => PlainSurvives(ty, value); PlainSurvivesFields(rest, others);
    case _ =>
  }

  /** The round trip the binding is for. */
  lemma RoundTrip(ty: Ty, v: Val)
    requires Declared(ty) && Plain(ty) && Typed(ty, v) && NoNull(v)
    ensures Encode(ty, v).Ok? && Decode(ty, Encode(ty, v).value) == Ok(v)
  {
    PlainSurvives(ty, v);
    RoundTripIff(ty, v);
  }

  /** The type it fails for: a present option around an absent one comes back absent. */
  lemma OptionInOptionLost(elem: Ty)
    ensures var v := VOpt(Some(VOpt(None)));
            && Typed(Opt(Opt(elem)), v)
            && Encode(Opt(Opt(elem)), v) == Ok(INull)
            && Decode(Opt(Opt(elem)), INull) == Ok(VOpt(None)) && v != VOpt(None)
  {
    assert Encode(Opt(elem), VOpt(None)) == Ok(INull);
  }

  // ---------------------------------------------------------------------------------------
  // Soundness: whatever decodes is a value of the type
  // ---------------------------------------------------------------------------------------

  lemma {:induction false} MatchedOrd(values: seq<EnumValue>, text: string)
    requires MatchWire(values, text).Ok?
    ensures var v := MatchWire(values, text).value; v.VEnum? && exists i :: 0 <= i < |values| && values[i].ord == v.ord
  {
    if UpToNul(values[0].wire) != text {
      MatchedOrd(values[1..], text);
      var i :| 0 <= i < |values| - 1 && values[1..][i].ord == MatchWire(values[1..], text).value.ord;
      assert values[i + 1].ord == MatchWire(values, text).value.ord;
    }
  }

  /** A decoder never hands out a value outside its type: no truncated integer, no string with
      characters past its terminator, no undeclared enum value, no null string. */
  lemma {:induction false} DecodeSound(ty: Ty, item: Item)
    requires Decode(ty, item).Ok?
    ensures Typed(ty, Decode(ty, item).value) && NoNull(Decode(ty, item).value)
    decreases ty, 0
  {
    match ty
    case Enum(values) => MatchedOrd(values, UpToNul(item.text));
    case Seq(elem) => DecodeAllSound(elem, item.items);
    case Opt(elem) => if !item.INull? { DecodeSound(elem, item); }
    case Struct(fields) => DecodeFieldsSound(fields, item.entries);
    case _ =>
  }

  lemma {:induction false} DecodeAllSound(elem: Ty, items: seq<Item>)
    requires DecodeAll(elem, items).Ok?
    ensures var vs := DecodeAll(elem, items).value;
            |vs| == |items| && TypedAll(elem, vs) && forall i :: 0 <= i < |vs| ==> NoNull(vs[i])
    decreases elem, 1 + |items|
  {
    if items != [] {
      DecodeSound(elem, items[0]);
      DecodeAllSound(elem, items[1..]);
      var first, rest := Decode(elem, items[0]).value, DecodeAll(elem, items[1..]).value;
      assert ([first] + rest)[1..] == rest;
    }
  }

  lemma {:induction false} DecodeFieldsSound(fields: Fields, entries: seq<(Item, Item)>)
    requires DecodeFields(fields, entries).Ok?
    ensures TypedFields(fields, DecodeFields(fields, entries).value)
    ensures NoNullMembers(DecodeFields(fields, entries).value)
    decreases fields, 0
  {
    if fields.Field? {
      DecodeSound(fields.ty, Find(entries, fields.name).value);
      DecodeFieldsSound(fields.rest, entries);
    }
  }

  // ---------------------------------------------------------------------------------------
  // Maps in any order, with keys nobody asks for
  // ---------------------------------------------------------------------------------------

  /** `b` says what `a` says to a decoder of `ty`: at every map, the entries the type names are
      the same; their order and the other entries are free. */
  ghost predicate SameFor(ty: Ty, a: Item, b: Item)
    decreases ty, 0
  {
    match ty
    case Seq(elem) =>
      if a.IArray? && b.IArray?
      then |a.items| == |b.items| && forall i :: 0 <= i < |a.items| ==> SameFor(elem, a.items[i], b.items[i])
      else a == b
    case Opt(elem) => (a.INull? <==> b.INull?) && SameFor(elem, a, b)
    case Struct(fields) => if a.IMap? && b.IMap? then SameFields(fields, a.entries, b.entries) else a == b
    case _ => a == b
  }

  ghost predicate SameFields(fields: Fields, a: seq<(Item, Item)>, b: seq<(Item, Item)>)
    decreases fields, 0
  {
    fields.Field? ==>
      && SameFields(fields.rest, a, b)
      && match (Find(a, fields.name), Find(b, fields.name))
         case (Some(x), Some(y)) => SameFor(fields.ty, x, y)
         case (None, None) => true
         case _ => false
  }

  lemma {:induction false} SameDecodes(ty: Ty, a: Item, b: Item)
    requires SameFor(ty, a, b)
    ensures Decode(ty, a) == Decode(ty, b)
    decreases ty, 0
  {
    match ty
    case Seq(elem) => if a.IArray? && b.IArray? { SameDecodesAll(elem, a.items, b.items); }
    case Opt(elem) => SameDecodes(elem, a, b);
    case Struct(fields) => if a.IMap? && b.IMap? { SameDecodesFields(fields, a.entries, b.entries); }
    case _ =>
  }

  lemma {:induction false} SameDecodesAll(elem: Ty, a: seq<Item>, b: seq<Item>)
    requires |a| == |b| && forall i :: 0 <= i < |a| ==> SameFor(elem, a[i], b[i])
    ensures DecodeAll(elem, a) == DecodeAll(elem, b)
    decreases elem, 1 + |a|
  {
    if a != [] {
      SameDecodes(elem, a[0], b[0]);
      SameDecodesAll(elem, a[1..], b[1..]);
    }
  }

  lemma {:induction false} SameDecodesFields(fields: Fields, a: seq<(Item, Item)>, b: seq<(Item, Item)>)
    requires SameFields(fields, a, b)
    ensures DecodeFields(fields, a) == DecodeFields(fields, b)
    decreases fields, 0
  {
    if fields.Field? {
      SameDecodesFields(fields.rest, a, b);
      match (Find(a, fields.name), Find(b, fields.name))
      case (Some(x), Some(y)) => SameDecodes(fields.ty, x, y);
      case _ =>
    }
  }

  lemma {:induction false} FindIn(entries: seq<(Item, Item)>, name: string, i: nat)
    requires i < |entries| && entries[i].0 == IText(name)
    requires forall j, k :: 0 <= j < k < |entries| && entries[j].0 == entries[k].0 ==> entries[j].0 != IText(name)
    ensures Find(entries, name) == Some(entries[i].1)
  {
    if i > 0 {
      assert entries[0].0 != entries[i].0;
      FindIn(entries[1..], name, i - 1);
    }
  }

  lemma {:induction false} FindAbsent(entries: seq<(Item, Item)>, name: string)
    ensures Find(entries, name) == None <==> forall i :: 0 <= i < |entries| ==> entries[i].0 != IText(name)
  {
    if entries != [] { FindAbsent(entries[1..], name); }
  }

  predicate OneEntry(entries: seq<(Item, Item)>, name: string) {
    forall j, k :: 0 <= j < k < |entries| && entries[j].0 == entries[k].0 ==> entries[j].0 != IText(name)
  }

  // The entries a type names are the same, each of them once; the rest is free.
  ghost predicate Reordered(fields: Fields, a: seq<(Item, Item)>, b: seq<(Item, Item)>) {
    fields.Field? ==>
      && OneEntry(a, fields.name) && OneEntry(b, fields.name)
      && (forall item: Item :: (IText(fields.name), item) in a <==> (IText(fields.name), item) in b)
      && Reordered(fields.rest, a, b)
  }

  lemma ReorderedFind(a: seq<(Item, Item)>, b: seq<(Item, Item)>, name: string)
    requires OneEntry(a, name) && OneEntry(b, name)
    requires forall item: Item :: (IText(name), item) in a <==> (IText(name), item) in b
    ensures Find(a, name) == Find(b, name)
  {
    FindAbsent(a, name);
    FindAbsent(b, name);
    if i :| 0 <= i < |a| && a[i].0 == IText(name) {
      assert a[i] == (IText(name), a[i].1) && a[i] in b;
      var j :| 0 <= j < |b| && b[j] == a[i];
      FindIn(a, name, i);
      FindIn(b, name, j);
    } else {
      forall j | 0 <= j < |b|
        ensures b[j].0 != IText(name)
      {
        var e := b[j];
        assert e in b && e == (e.0, e.1);
        assert forall i :: 0 <= i < |a| ==> a[i].0 != IText(name);
      }
    }
  }

  lemma {:induction false} SameAsItself(ty: Ty, a: Item)
    ensures SameFor(ty, a, a)
    decreases ty, 0
  {
    match ty
    case Seq(elem) =>
      if a.IArray? {
        forall i | 0 <= i < |a.items|
          ensures SameFor(elem, a.items[i], a.items[i])
        {
          SameAsItself(elem, a.items[i]);
        }
      }
    case Opt(elem) => SameAsItself(elem, a);
    case Struct(fields) => if a.IMap? { SameFieldsAsThemselves(fields, a.entries); }
    case _ =>
  }

  lemma {:induction false} SameFieldsAsThemselves(fields: Fields, a: seq<(Item, Item)>)
    ensures SameFields(fields, a, a)
    decreases fields, 0
  {
    if fields.Field? {
      SameFieldsAsThemselves(fields.rest, a);
      if Find(a, fields.name).Some? { SameAsItself(fields.ty, Find(a, fields.name).value); }
    }
  }

  /** The order of a map's entries and the entries nobody asks for change nothing. */
  lemma {:induction false} ReorderedIsSame(fields: Fields, a: seq<(Item, Item)>, b: seq<(Item, Item)>)
    requires Reordered(fields, a, b)
    ensures SameFields(fields, a, b) && Decode(Struct(fields), IMap(a)) == Decode(Struct(fields), IMap(b))
  {
    if fields.Field? {
      ReorderedIsSame(fields.rest, a, b);
      ReorderedFind(a, b, fields.name);
      if Find(a, fields.name).Some? { SameAsItself(fields.ty, Find(a, fields.name).value); }
    }
    SameDecodesFields(fields, a, b);
  }
}

/** The codecs against two descriptions of the wire form that do not mention them: the CDDL schema
    that is emitted beside them (RFC 8610), and a relation that says what an item means as a value
    of a type. */
module CodecSchema {
  import opened Wrappers
  import opened Codec

  // ---------------------------------------------------------------------------------------
  // The schema
  // ---------------------------------------------------------------------------------------

  predicate Names(values: seq<EnumValue>, text: string) {
    exists i :: 0 <= i < |values| && UpToNul(values[i].wire) == text
  }

  /** The rule of a type: `bool`, `int` or `uint`, `float32` or `float64`, `tstr`, `bytes`, `[* T]`,
      `T / nil`, a choice of texts, or a map with a key for each field and no other. */
  predicate Matches(ty: Ty, item: Item)
    decreases ty, 0
  {
    match ty
    case Bool => item.IBool?
    case Int(signed, _) => item.IInt? && (signed || item.n >= 0)
    case Ptr => item.IInt? && item.n >= 0
    case Real(double) => if double then item.IDouble? else item.IFloat?
    case Str => item.IText?
    case Bytes => item.IBytes?
    case Enum(values) => item.IText? && Names(values, item.text)
    case Seq(elem) => item.IArray? && forall i :: 0 <= i < |item.items| ==> Matches(elem, item.items[i])
    case Opt(elem) => item.INull? || Matches(elem, item)
    case Struct(fields) => item.IMap? && MatchesFields(fields, item.entries)
  }

  predicate MatchesFields(fields: Fields, entries: seq<(Item, Item)>)
    decreases fields, 0
  {
    match fields
    case NoFields => entries == []
    case Field(name, ty, rest) =>
      && entries != [] && entries[0].0 == IText(name)
      && Matches(ty, entries[0].1) && MatchesFields(rest, entries[1..])
  }

  lemma {:induction false} EnumMatches(values: seq<EnumValue>, ord: int)
    requires EncodeEnum(values, ord).Ok?
    ensures Matches(Enum(values), EncodeEnum(values, ord).value)
  {
    if values[0].ord != ord {
      EnumMatches(values[1..], ord);
      var text := EncodeEnum(values, ord).value.text;
      var i :| 0 <= i < |values| - 1 && UpToNul(values[1..][i].wire) == text;
      assert UpToNul(values[i + 1].wire) == text;
    } else {
      assert UpToNul(values[0].wire) == EncodeEnum(values, ord).value.text;
    }
  }

  /** What the encoder of a type writes matches the schema of the type. */
  lemma {:induction false} EncodeMatches(ty: Ty, v: Val)
    requires Typed(ty, v) && Encode(ty, v).Ok?
    ensures Matches(ty, Encode(ty, v).value)
    decreases ty, 0
  {
    match (ty, v)
    case (Enum(values), VEnum(ord)) => EnumMatches(values, ord);
    case (Seq(elem), VSeq(items)) => AllMatch(elem, items);
    case (Opt(elem), VOpt(value)) => if value.Some? { EncodeMatches(elem, value.value); }
    case (Struct(fields), VStruct(members)) => FieldsMatch(fields, members);
    case _ =>
  }

  lemma {:induction false} AllMatch(elem: Ty, items: seq<Val>)
    requires TypedAll(elem, items) && EncodeAll(elem, items).Ok?
    ensures var encoded := EncodeAll(elem, items).value;
            |encoded| == |items| && forall i :: 0 <= i < |items| ==> Matches(elem, encoded[i])
    decreases elem, 1 + |items|
  {
    if items != [] {
      EncodeMatches(elem, items[0]);
      AllMatch(elem, items[1..]);
    }
  }

  lemma {:induction false} FieldsMatch(fields: Fields, members: Vals)
    requires TypedFields(fields, members) && EncodeFields(fields, members).Ok?
    ensures MatchesFields(fields, EncodeFields(fields, members).value)
    decreases fields, 0
  {
    match (fields, members)
    case (Field(name, ty, rest), Member(value, others)) =>
      EncodeMatches(ty, value);
      FieldsMatch(rest, others);
      var entries := EncodeFields(fields, members).value;
      assert entries[1..] == EncodeFields(rest, others).value;
    case _ =>
  }

  // ---------------------------------------------------------------------------------------
  // What an item means
  // ---------------------------------------------------------------------------------------

  // `v` is the first value of that wire name; a text longer than every wire name is none of them.
  predicate MeansEnum(values: seq<EnumValue>, text: string, v: Val) {
    && v.VEnum?
    && (exists i :: 0 <= i < |values| && |text| <= |values[i].wire|)
    && exists i :: 0 <= i < |values| && values[i].ord == v.ord && UpToNul(values[i].wire) == UpToNul(text)
                   && forall j :: 0 <= j < i ==> UpToNul(values[j].wire) != UpToNul(text)
  }

  /** The item says `v` to a reader of the type: the same truth value, number, text up to its
      terminator or bytes; element by element; null for an absent option and for nothing else; and
      for each field the first entry of its name, whatever other entries there are. */
  predicate Means(ty: Ty, item: Item, v: Val)
    decreases ty, 0
  {
    match ty
    case Bool => item.IBool? && v == VBool(item.b)
    case Int(signed, bits) => item.IInt? && InRange(signed, bits, item.n) && v == VInt(item.n)
    case Ptr => item.IInt? && InRange(false, W64, item.n) && v == VInt(item.n)
    case Real(_) => (item.IFloat? || item.IDouble?) && v == VReal(item.r)
    case Str => item.IText? && v == VStr(Chars(UpToNul(item.text)))
    case Bytes => item.IBytes? && v == VBytes(item.data)
    case Enum(values) => item.IText? && MeansEnum(values, item.text, v)
    case Seq(elem) =>
      && item.IArray? && v.VSeq? && |v.items| == |item.items|
      && forall i :: 0 <= i < |item.items| ==> Means(elem, item.items[i], v.items[i])
    case Opt(elem) =>
      v.VOpt? && if v.value.None? then item.INull? else !item.INull? && Means(elem, item, v.value.value)
    case Struct(fields) => item.IMap? && v.VStruct? && MeansFields(fields, item.entries, v.members)
  }

  predicate FirstEntry(entries: seq<(Item, Item)>, name: string, k: nat) {
    k < |entries| && entries[k].0 == IText(name) && forall j :: 0 <= j < k ==> entries[j].0 != IText(name)
  }

  predicate MeansFields(fields: Fields, entries: seq<(Item, Item)>, members: Vals)
    decreases fields, 0
  {
    match fields
    case NoFields => members == NoVals
    case Field(name, ty, rest) =>
      && members.Member? && MeansFields(rest, entries, members.rest)
      && exists k :: 0 <= k < |entries| && FirstEntry(entries, name, k) && Means(ty, entries[k].1, members.value)
  }

  lemma {:induction false} FindFirst(entries: seq<(Item, Item)>, name: string) returns (k: nat)
    ensures k <= |entries| && forall j :: 0 <= j < k ==> entries[j].0 != IText(name)
    ensures k < |entries| ==> FirstEntry(entries, name, k) && Find(entries, name) == Some(entries[k].1)
    ensures k == |entries| ==> Find(entries, name) == None
  {
    if entries == [] || entries[0].0 == IText(name) {
      k := 0;
    } else {
      k := FindFirst(entries[1..], name);
      forall j | 0 <= j < k + 1 ensures entries[j].0 != IText(name) {
        if j > 0 { assert entries[j] == entries[1..][j - 1]; }
      }
      k := k + 1;
    }
  }

  lemma {:induction false} MatchFirst(values: seq<EnumValue>, text: string) returns (k: nat)
    ensures k <= |values| && forall j :: 0 <= j < k ==> UpToNul(values[j].wire) != text
    ensures k < |values| ==> UpToNul(values[k].wire) == text && MatchWire(values, text) == Ok(VEnum(values[k].ord))
    ensures k == |values| ==> MatchWire(values, text).Err?
  {
    if values == [] || UpToNul(values[0].wire) == text {
      k := 0;
    } else {
      k := MatchFirst(values[1..], text);
      forall j | 0 <= j < k + 1 ensures UpToNul(values[j].wire) != text {
        if j > 0 { assert values[j] == values[1..][j - 1]; }
      }
      k := k + 1;
    }
  }

  lemma {:induction false} LongestIsOne(values: seq<EnumValue>) returns (i: nat)
    requires values != []
    ensures i < |values| && |values[i].wire| == Longest(values)
  {
    if |values| == 1 {
      i := 0;
    } else {
      i := LongestIsOne(values[1..]);
      i := if |values[0].wire| > Longest(values[1..]) then 0 else i + 1;
    }
  }

  lemma EnumMeans(values: seq<EnumValue>, item: Item, v: Val)
    ensures DecodeEnum(values, item) == Ok(v) <==> item.IText? && MeansEnum(values, item.text, v)
  {
    if item.IText? {
      var k := MatchFirst(values, UpToNul(item.text));
      if values != [] {
        var i := LongestIsOne(values);
        if |item.text| <= Longest(values) {
          assert |item.text| <= |values[i].wire|;
        } else {
          forall j | 0 <= j < |values| ensures |values[j].wire| < |item.text| {
            LongestBounds(values, j);
          }
        }
      }
    }
  }

  /** Decoding is that relation: an item decodes to a value if and only if it means it, so nothing
      of another kind, out of range or incomplete decodes at all. */
  lemma {:induction false} DecodesIff(ty: Ty, item: Item, v: Val)
    ensures Decode(ty, item) == Ok(v) <==> Means(ty, item, v)
    decreases ty, 0
  {
    match ty
    case Enum(values) => EnumMeans(values, item, v);
    case Seq(elem) => if item.IArray? && v.VSeq? { AllDecodeIff(elem, item.items, v.items); }
    case Opt(elem) => if v.VOpt? && v.value.Some? { DecodesIff(elem, item, v.value.value); }
    case Struct(fields) => if item.IMap? && v.VStruct? { FieldsDecodeIff(fields, item.entries, v.members); }
    case _ =>
  }

  lemma {:induction false} AllDecodeIff(elem: Ty, items: seq<Item>, vs: seq<Val>)
    ensures DecodeAll(elem, items) == Ok(vs) <==>
            |vs| == |items| && forall i :: 0 <= i < |items| ==> Means(elem, items[i], vs[i])
    decreases elem, 1 + |items|
  {
    if items != [] && vs != [] {
      DecodesIff(elem, items[0], vs[0]);
      AllDecodeIff(elem, items[1..], vs[1..]);
      if DecodeAll(elem, items) == Ok(vs) {
        assert vs[1..] == DecodeAll(elem, items[1..]).value;
        assert forall i :: 1 <= i < |items| ==> items[i] == items[1..][i - 1] && vs[i] == vs[1..][i - 1];
      }
      if |vs| == |items| && forall i :: 0 <= i < |items| ==> Means(elem, items[i], vs[i]) {
        assert [vs[0]] + vs[1..] == vs;
      }
    }
  }

  lemma {:induction false} FieldsDecodeIff(fields: Fields, entries: seq<(Item, Item)>, members: Vals)
    ensures Codec.DecodeFields(fields, entries) == Ok(members) <==> MeansFields(fields, entries, members)
    decreases fields, 0
  {
    match fields
    case NoFields =>
    case Field(name, ty, rest) =>
      var k := FindFirst(entries, name);
      if members.Member? {
        FieldsDecodeIff(rest, entries, members.rest);
        if k < |entries| { DecodesIff(ty, entries[k].1, members.value); }
        assert forall j :: 0 <= j < |entries| && FirstEntry(entries, name, j) ==> j == k;
      }
  }
}

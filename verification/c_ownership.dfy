/** The owns flag of the monomorphiser against the memory of the decoders: a free function is
    emitted for a type exactly when its values can own heap blocks. */
module COwnership {
  import opened Wrappers
  import T = CTypeRegistry
  import S = CScalars
  import Codec
  import DecodeFree

  // The type that the codecs are emitted for; the names of struct members play no part here.
  ghost function Wire(c: T.Ctx, rank: map<string, nat>, t: T.FFIType): Codec.Ty
    requires T.Acyclic(c, rank)
    decreases T.RankOf(rank, t), T.Depth(t), 0
  {
    match t
    case Scalar(k) => S.Wire(k)
    case Str => Codec.Str
    case Bytes => Codec.Bytes
    case Ptr => Codec.Ptr
    case Seq(elem) => Codec.Seq(Wire(c, rank, elem))
    case Opt(elem) => Codec.Opt(Wire(c, rank, elem))
    case Struct(name) =>
      if name in c.table && c.table[name].StructMeta? then Codec.Struct(WireFields(c, rank, name, 0))
      else Codec.Enum([])
  }

  ghost function WireFields(c: T.Ctx, rank: map<string, nat>, name: string, i: nat): Codec.Fields
    requires T.Acyclic(c, rank) && name in c.table && c.table[name].StructMeta? && i <= |c.table[name].fields|
    decreases rank[name], T.MaxDepth(c.table[name].fields) + 1, |c.table[name].fields| - i
  {
    var fields := c.table[name].fields;
    if i == |fields| then Codec.NoFields
    else
      DeepestBounds(fields, i);
      Codec.Field("", Wire(c, rank, fields[i]), WireFields(c, rank, name, i + 1))
  }

  lemma {:induction false} DeepestBounds(ts: seq<T.FFIType>, i: nat)
    requires i < |ts|
    ensures T.Depth(ts[i]) <= T.MaxDepth(ts)
  {
    if i > 0 { DeepestBounds(ts[1..], i - 1); }
  }

  /** The definition the monomorphiser is proved against is ownership as the decoders have it. */
  lemma {:induction false} OwnsIsOwning(c: T.Ctx, rank: map<string, nat>, t: T.FFIType)
    requires T.Acyclic(c, rank)
    ensures T.OwnsMemory(c, rank, t) <==> DecodeFree.Owns(Wire(c, rank, t))
    decreases T.RankOf(rank, t), T.Depth(t), 0
  {
    match t
    case Opt(elem) => OwnsIsOwning(c, rank, elem);
    case Struct(name) =>
      if name in c.table && c.table[name].StructMeta? { FieldsOwn(c, rank, name, 0); }
    case _ =>
  }

  lemma {:induction false} FieldsOwn(c: T.Ctx, rank: map<string, nat>, name: string, i: nat)
    requires T.Acyclic(c, rank) && name in c.table && c.table[name].StructMeta? && i <= |c.table[name].fields|
    ensures DecodeFree.AnyOwns(WireFields(c, rank, name, i)) <==>
            exists j :: i <= j < |c.table[name].fields| && T.OwnsMemory(c, rank, c.table[name].fields[j])
    decreases rank[name], T.MaxDepth(c.table[name].fields) + 1, |c.table[name].fields| - i
  {
    var fields := c.table[name].fields;
    if i < |fields| {
      DeepestBounds(fields, i);
      OwnsIsOwning(c, rank, fields[i]);
      FieldsOwn(c, rank, name, i + 1);
    }
  }

  /** So the flag says exactly whether a value of the type can own a block of the heap. */
  lemma FlagIffOwns(c: T.Ctx, rank: map<string, nat>, t: T.FFIType)
    requires T.Acyclic(c, rank)
    ensures var ty := Wire(c, rank, t);
            T.OwnsMemory(c, rank, t) <==> exists o :: DecodeFree.Shaped(ty, o) && DecodeFree.Owned(o) != multiset{}
  {
    var ty := Wire(c, rank, t);
    OwnsIsOwning(c, rank, t);
    if DecodeFree.Owns(ty) {
      var o := DecodeFree.SomethingOwned(ty);
    } else {
      forall o | DecodeFree.Shaped(ty, o) ensures DecodeFree.Owned(o) == multiset{} {
        DecodeFree.NothingOwned(ty, o);
      }
    }
  }
}

/** The memoised monomorphiser of the C binding generator: one C declaration for each distinct
    sequence, option, struct and enum type, and whether values of it own heap memory. */
module CTypeRegistry {
  datatype Scalar = SBool | I8 | I16 | I32 | I64 | U8 | U16 | U32 | U64 | F32 | F64

  datatype FFIType =
    | Scalar(kind: Scalar)
    | Str
    | Bytes
    | Seq(elem: FFIType)
    | Opt(elem: FFIType)
    | Ptr
    | Struct(name: string)

  // What the type table says of a name. Field types are the parsed ones.
  datatype Meta = EnumMeta | StructMeta(fields: seq<FFIType>)

  datatype Ctx = Ctx(libType: string, table: map<string, Meta>)

  // A typedef and the C types in its body; `known` is false for the comment left for a name
  // that the table lacks.
  datatype Decl = Decl(name: string, mentions: seq<string>, known: bool)

  datatype Reg = Reg(emitted: set<string>, owns: map<string, bool>, decls: seq<Decl>)

  const EMPTY := Reg({}, map[], [])

  // ---------------------------------------------------------------------------------------
  // Names
  // ---------------------------------------------------------------------------------------

  function ScalarC(k: Scalar): string {
    match k
    case SBool => "bool"
    case I8 => "int8_t"
    case I16 => "int16_t"
    case I32 => "int32_t"
    case I64 => "int64_t"
    case U8 => "uint8_t"
    case U16 => "uint16_t"
    case U32 => "uint32_t"
    case U64 => "uint64_t"
    case F32 => "float"
    case F64 => "double"
  }

  const CStrType := "const char*"
  const CBytesType := "NimFfiBytes"

  // The token of a leaf C type; "" for any other.
  function LeafToken(cType: string): string {
    if cType == "bool" then "Bool"
    else if cType == "int8_t" then "I8"
    else if cType == "int16_t" then "I16"
    else if cType == "int32_t" then "I32"
    else if cType == "int64_t" then "I64"
    else if cType == "uint8_t" then "U8"
    else if cType == "uint16_t" then "U16"
    else if cType == "uint32_t" then "U32"
    else if cType == "uint64_t" then "U64"
    else if cType == "float" then "F32"
    else if cType == "double" then "F64"
    else if cType == CStrType then "Str"
    else if cType == CBytesType then "Bytes"
    else ""
  }

  function CToken(cType: string): string {
    if LeafToken(cType) != "" then LeafToken(cType) else cType
  }

  function CName(c: Ctx, t: FFIType): string {
    match t
    case Scalar(k) => ScalarC(k)
    case Ptr => "uint64_t"
    case Str => CStrType
    case Bytes => CBytesType
    case Seq(elem) => c.libType + "Seq_" + CToken(CName(c, elem))
    case Opt(elem) => c.libType + "Opt_" + CToken(CName(c, elem))
    case Struct(name) => name
  }

  function CNames(c: Ctx, ts: seq<FFIType>): (s: seq<string>)
    ensures |s| == |ts| && forall i :: 0 <= i < |ts| ==> s[i] == CName(c, ts[i])
  {
    if ts == [] then [] else [CName(c, ts[0])] + CNames(c, ts[1..])
  }

  // ---------------------------------------------------------------------------------------
  // ensureCType on values
  // ---------------------------------------------------------------------------------------

  function Depth(t: FFIType): nat {
    match t
    case Seq(elem) => 1 + Depth(elem)
    case Opt(elem) => 1 + Depth(elem)
    case _ => 0
  }

  function MaxDepth(ts: seq<FFIType>): nat {
    if ts == [] then 0 else if Depth(ts[0]) > MaxDepth(ts[1..]) then Depth(ts[0]) else MaxDepth(ts[1..])
  }

  function OwnsFlag(r: Reg, name: string): bool {
    name in r.owns && r.owns[name]
  }

  // What is still to emit shrinks, or stays.
  function ToEmit(c: Ctx, r: Reg): nat {
    |c.table.Keys - r.emitted|
  }

  lemma EmittingShrinks(c: Ctx, r: Reg, r': Reg)
    requires r.emitted <= r'.emitted
    ensures ToEmit(c, r') <= ToEmit(c, r)
    ensures (exists n :: n in c.table && n in r'.emitted && n !in r.emitted) ==> ToEmit(c, r') < ToEmit(c, r)
  {
    var a, b := c.table.Keys - r'.emitted, c.table.Keys - r.emitted;
    assert a <= b;
    SubsetSize(a, b);
  }

  lemma SubsetSize<T>(a: set<T>, b: set<T>)
    requires a <= b
    ensures |a| <= |b| && (a != b ==> |a| < |b|)
  {
    assert b == a + (b - a);
    if a != b {
      var x :| x in b && x !in a;
      assert x in b - a;
    }
  }

  function EmitSeq(r: Reg, name: string, elemC: string): Reg {
    r.(emitted := r.emitted + {name}, decls := r.decls + [Decl(name, [elemC], true)], owns := r.owns[name := true])
  }

  function EmitOpt(r: Reg, name: string, elemC: string, elemOwns: bool): Reg {
    r.(emitted := r.emitted + {name}, decls := r.decls + [Decl(name, [elemC], true)], owns := r.owns[name := elemOwns])
  }

  /** The registry after the call, and whether values of the type own heap memory. It ends on
      every table, one with cycles included: each struct is entered once. */
  function Ensure(c: Ctx, r: Reg, t: FFIType): (res: (Reg, bool))
    ensures r.emitted <= res.0.emitted
    decreases ToEmit(c, r), Depth(t), 0
  {
    match t
    case Scalar(_) => (r, false)
    case Ptr => (r, false)
    case Str => (r, true)
    case Bytes => (r, true)
    case Seq(elem) =>
      var (r1, _) := Ensure(c, r, elem);
      var name := CName(c, t);
      if name in r1.emitted then (r1, true) else (EmitSeq(r1, name, CName(c, elem)), true)
    case Opt(elem) =>
      var (r1, elemOwns) := Ensure(c, r, elem);
      var name := CName(c, t);
      if name in r1.emitted then (r1, OwnsFlag(r1, name))
      else (EmitOpt(r1, name, CName(c, elem), elemOwns), elemOwns)
    case Struct(name) =>
      if name in r.emitted then (r, OwnsFlag(r, name))
      else
        var r1 := r.(emitted := r.emitted + {name});
        if name !in c.table then (r1.(decls := r1.decls + [Decl(name, [], false)]), OwnsFlag(r1, name))
        else match c.table[name]
          case EnumMeta => (r1.(decls := r1.decls + [Decl(name, [], true)], owns := r1.owns[name := false]), false)
          case StructMeta(fields) =>
            EmittingShrinks(c, r, r1);
            var (r2, owns) := EnsureAll(c, r1, fields);
            (r2.(decls := r2.decls + [Decl(name, CNames(c, fields), true)], owns := r2.owns[name := owns]), owns)
  }

  // One type after the other; whether any of them owns memory.
  function EnsureAll(c: Ctx, r: Reg, ts: seq<FFIType>): (res: (Reg, bool))
    ensures r.emitted <= res.0.emitted
    decreases ToEmit(c, r), MaxDepth(ts) + 1, |ts|
  {
    if ts == [] then (r, false)
    else
      var (r1, first) := Ensure(c, r, ts[0]);
      EmittingShrinks(c, r, r1);
      var (r2, rest) := EnsureAll(c, r1, ts[1..]);
      (r2, first || rest)
  }

  // ---------------------------------------------------------------------------------------
  // Names that do not clash
  // ---------------------------------------------------------------------------------------

  predicate IsLeaf(cType: string) {
    LeafToken(cType) != ""
  }

  predicate IsToken(s: string) {
    s in ["Bool", "I8", "I16", "I32", "I64", "U8", "U16", "U32", "U64", "F32", "F64", "Str", "Bytes"]
  }

  predicate Generated(c: Ctx, name: string) {
    c.libType + "Seq_" <= name || c.libType + "Opt_" <= name
  }

  // A name the user may give a type: not a leaf's, not a leaf's token, not a generated one.
  predicate UserName(c: Ctx, name: string) {
    !IsLeaf(name) && !IsToken(name) && !Generated(c, name)
  }

  predicate Clean(c: Ctx, t: FFIType) {
    match t
    case Seq(elem) => Clean(c, elem)
    case Opt(elem) => Clean(c, elem)
    case Struct(name) => UserName(c, name)
    case _ => true
  }

  // Pointers cross as 64-bit words, so they share that leaf.
  function Lowered(t: FFIType): FFIType {
    match t
    case Ptr => Scalar(U64)
    case Seq(elem) => Seq(Lowered(elem))
    case Opt(elem) => Opt(Lowered(elem))
    case _ => t
  }

  predicate Composite(t: FFIType) {
    t.Seq? || t.Opt? || t.Struct?
  }

  lemma LeafTokenFacts(cType: string)
    requires IsLeaf(cType)
    ensures IsToken(LeafToken(cType)) && '_' !in LeafToken(cType)
    ensures 'S' !in cType && 'O' !in cType
  {
  }

  lemma LeafTokensDiffer(a: string, b: string)
    requires IsLeaf(a) && IsLeaf(b) && LeafToken(a) == LeafToken(b)
    ensures a == b
  {
  }

  lemma ScalarNames(a: Scalar, b: Scalar)
    ensures IsLeaf(ScalarC(a)) && ScalarC(a) != CStrType && ScalarC(a) != CBytesType
    ensures ScalarC(a) == ScalarC(b) ==> a == b
  {
  }

  lemma TokensHaveNoUnderscore(s: string)
    requires IsToken(s)
    ensures '_' !in s
  {
  }

  lemma GeneratedNames(c: Ctx, t: FFIType)
    requires t.Seq? || t.Opt?
    ensures Generated(c, CName(c, t)) && !IsLeaf(CName(c, t)) && !IsToken(CName(c, t))
    ensures CName(c, t)[|c.libType|] == if t.Seq? then 'S' else 'O'
  {
    var name, n := CName(c, t), |c.libType|;
    assert name[n] == (if t.Seq? then 'S' else 'O') && name[n + 3] == '_';
    hide LeafToken;
    if IsLeaf(name) { LeafTokenFacts(name); }
    if IsToken(name) { TokensHaveNoUnderscore(name); }
  }

  // Leaf types and no others have leaf names; composite names are no tokens either.
  lemma NameKinds(c: Ctx, t: FFIType)
    requires Clean(c, t)
    ensures IsLeaf(CName(c, t)) <==> !Composite(t)
    ensures Composite(t) ==> !IsToken(CName(c, t))
  {
    hide LeafToken, IsToken;
    match t
    case Seq(_) => GeneratedNames(c, t);
    case Opt(_) => GeneratedNames(c, t);
    case Scalar(k) => ScalarNames(k, k);
    case Ptr => ScalarNames(U64, U64);
    case Str => assert IsLeaf(CStrType) by { StringLeaves(); }
    case Bytes => assert IsLeaf(CBytesType) by { StringLeaves(); }
    case Struct(_) =>
  }

  lemma StringLeaves()
    ensures IsLeaf(CStrType) && IsLeaf(CBytesType) && CStrType != CBytesType
  {
  }

  lemma TokenTellsName(c: Ctx, t: FFIType, u: FFIType)
    requires Clean(c, t) && Clean(c, u) && CToken(CName(c, t)) == CToken(CName(c, u))
    ensures CName(c, t) == CName(c, u)
  {
    NameKinds(c, t);
    NameKinds(c, u);
    hide LeafToken, IsToken, CName, Clean;
    var x, y := CName(c, t), CName(c, u);
    if IsLeaf(x) { LeafTokenFacts(x); }
    if IsLeaf(y) { LeafTokenFacts(y); }
    if IsLeaf(x) && IsLeaf(y) { LeafTokensDiffer(x, y); }
  }

  lemma SameTail(prefix: string, a: string, b: string)
    requires prefix + a == prefix + b
    ensures a == b
  {
    assert (prefix + a)[|prefix|..] == a && (prefix + b)[|prefix|..] == b;
  }

  /** The C name tells the type, on tables whose names do not clash with generated ones: so a
      name met again is the same declaration, and the memo never answers for another type. */
  lemma {:induction false} NameTellsType(c: Ctx, t: FFIType, u: FFIType)
    requires Clean(c, t) && Clean(c, u) && CName(c, t) == CName(c, u)
    ensures Lowered(t) == Lowered(u)
    decreases t
  {
    NameKinds(c, t);
    NameKinds(c, u);
    hide LeafToken, IsToken;
    match (t, u)
    case (Seq(a), Seq(b)) =>
      SameTail(c.libType + "Seq_", CToken(CName(c, a)), CToken(CName(c, b)));
      TokenTellsName(c, a, b);
      NameTellsType(c, a, b);
    case (Opt(a), Opt(b)) =>
      SameTail(c.libType + "Opt_", CToken(CName(c, a)), CToken(CName(c, b)));
      TokenTellsName(c, a, b);
      NameTellsType(c, a, b);
    case (Seq(_), Opt(_)) => GeneratedNames(c, t); GeneratedNames(c, u);
    case (Opt(_), Seq(_)) => GeneratedNames(c, t); GeneratedNames(c, u);
    case (Seq(_), Struct(_)) => GeneratedNames(c, t);
    case (Opt(_), Struct(_)) => GeneratedNames(c, t);
    case (Struct(_), Seq(_)) => GeneratedNames(c, u);
    case (Struct(_), Opt(_)) => GeneratedNames(c, u);
    case (Struct(_), Struct(_)) =>
    case _ => LeafNamesDiffer(t, u);
  }

  lemma LeafNamesDiffer(t: FFIType, u: FFIType)
    requires !Composite(t) && !Composite(u) && CName(Ctx("", map[]), t) == CName(Ctx("", map[]), u)
    ensures Lowered(t) == Lowered(u)
  {
    StringLeaves();
    var k := if t.Scalar? then t.kind else U64;
    var l := if u.Scalar? then u.kind else U64;
    ScalarNames(k, l);
    ScalarNames(l, k);
    hide ScalarC, LeafToken;
  }

  // ---------------------------------------------------------------------------------------
  // Acyclic tables and the owns flag they define
  // ---------------------------------------------------------------------------------------

  // Above the rank of every table name in the type.
  function RankOf(rank: map<string, nat>, t: FFIType): nat {
    match t
    case Seq(elem) => RankOf(rank, elem)
    case Opt(elem) => RankOf(rank, elem)
    case Struct(name) => if name in rank then rank[name] + 1 else 0
    case _ => 0
  }

  // No struct contains itself: its fields only name types of lower rank.
  ghost predicate Acyclic(c: Ctx, rank: map<string, nat>) {
    && rank.Keys == c.table.Keys
    && forall n :: n in c.table && c.table[n].StructMeta? ==>
         forall i :: 0 <= i < |c.table[n].fields| ==> RankOf(rank, c.table[n].fields[i]) <= rank[n]
  }

  ghost predicate CleanTable(c: Ctx) {
    forall n :: n in c.table ==>
      UserName(c, n) && (c.table[n].StructMeta? ==> forall i :: 0 <= i < |c.table[n].fields| ==>
            Clean(c, c.table[n].fields[i]))
  }

  /** Owning heap memory, by definition: a string, bytes or a sequence is reached through
      options and struct members. */
  ghost predicate OwnsMemory(c: Ctx, rank: map<string, nat>, t: FFIType)
    requires Acyclic(c, rank)
    decreases RankOf(rank, t), Depth(t)
  {
    match t
    case Str => true
    case Bytes => true
    case Seq(_) => true
    case Opt(elem) => OwnsMemory(c, rank, elem)
    case Struct(name) =>
      name in c.table && c.table[name].StructMeta?
      && exists i :: 0 <= i < |c.table[name].fields| && OwnsMemory(c, rank, c.table[name].fields[i])
    case _ => false
  }

  lemma {:induction false} LoweringKeepsOwns(c: Ctx, rank: map<string, nat>, t: FFIType, u: FFIType)
    requires Acyclic(c, rank) && Lowered(t) == Lowered(u)
    ensures OwnsMemory(c, rank, t) <==> OwnsMemory(c, rank, u)
    decreases t
  {
    match (t, u)
    case (Opt(a), Opt(b)) => LoweringKeepsOwns(c, rank, a, b);
    case _ =>
  }

  // ---------------------------------------------------------------------------------------
  // The registry is sound
  // ---------------------------------------------------------------------------------------

  // The name has its entry: a declaration, or the comment for a name that the table lacks.
  predicate Listed(decls: seq<Decl>, name: string) {
    exists i :: 0 <= i < |decls| && decls[i].name == name
  }

  predicate Declared(decls: seq<Decl>, name: string) {
    exists i :: 0 <= i < |decls| && decls[i].name == name && decls[i].known
  }

  // Comments are left for the struct names that the table lacks, and for nothing else.
  ghost predicate CommentsRight(c: Ctx, decls: seq<Decl>) {
    forall i :: 0 <= i < |decls| ==> (decls[i].known <==> decls[i].name in c.table || Generated(c, decls[i].name))
  }

  // A type that has, or can be given, a declaration of its own.
  predicate InTable(c: Ctx, t: FFIType) {
    t.Struct? ==> t.name in c.table
  }

  lemma DeclaredIffInTable(c: Ctx, decls: seq<Decl>, t: FFIType)
    requires CommentsRight(c, decls) && Clean(c, t) && Composite(t) && Listed(decls, CName(c, t))
    ensures Declared(decls, CName(c, t)) <==> InTable(c, t)
  {
    if t.Seq? || t.Opt? { GeneratedNames(c, t); }
    hide LeafToken, IsToken;
  }

  // Nothing is mentioned before it is declared.
  ghost predicate MentionsLast(decls: seq<Decl>) {
    forall i, m :: 0 <= i < |decls| && m in decls[i].mentions ==> IsLeaf(m) || Declared(decls[..i], m)
  }

  // Nothing is mentioned before its entry.
  ghost predicate ListedFirst(decls: seq<Decl>) {
    forall i, m :: 0 <= i < |decls| && m in decls[i].mentions ==> IsLeaf(m) || Listed(decls[..i], m)
  }

  // Each name once, and after everything its body mentions.
  ghost predicate InOrder(decls: seq<Decl>) {
    && (forall i, j :: 0 <= i < j < |decls| ==> decls[i].name != decls[j].name)
    && ListedFirst(decls)
  }

  // `open` are the structs whose fields are being looked at.
  ghost predicate Tracked(c: Ctx, r: Reg, open: set<string>) {
    && (forall n :: n in r.emitted <==> n in open || Listed(r.decls, n))
    && (forall n :: n in open ==> !Listed(r.decls, n) && n in c.table && UserName(c, n))
    && r.owns.Keys <= r.emitted - open
    && CommentsRight(c, r.decls)
  }

  ghost predicate FlagsRight(c: Ctx, rank: map<string, nat>, r: Reg)
    requires Acyclic(c, rank)
  {
    forall t :: Clean(c, t) && Composite(t) && Listed(r.decls, CName(c, t)) ==>
      (OwnsFlag(r, CName(c, t)) <==> OwnsMemory(c, rank, t))
  }

  ghost predicate Sound(c: Ctx, rank: map<string, nat>, r: Reg, open: set<string>)
    requires Acyclic(c, rank)
  {
    InOrder(r.decls) && Tracked(c, r, open) && FlagsRight(c, rank, r)
  }

  lemma ListedPush(decls: seq<Decl>, d: Decl, name: string)
    ensures Listed(decls + [d], name) <==> Listed(decls, name) || d.name == name
  {
    if Listed(decls, name) {
      var i :| 0 <= i < |decls| && decls[i].name == name;
      assert (decls + [d])[i].name == name;
    }
    assert (decls + [d])[|decls|] == d;
  }

  lemma InOrderPush(decls: seq<Decl>, d: Decl)
    requires InOrder(decls) && !Listed(decls, d.name)
    requires forall m :: m in d.mentions ==> IsLeaf(m) || Listed(decls, m)
    ensures InOrder(decls + [d])
  {
    var ds := decls + [d];
    forall i, m | 0 <= i < |ds| && m in ds[i].mentions
      ensures IsLeaf(m) || Listed(ds[..i], m)
    {
      assert ds[..i] == if i < |decls| then decls[..i] else decls;
    }
  }

  // The declaration of `t` goes last; a struct that was open is closed by it.
  lemma DeclareSound(c: Ctx, rank: map<string, nat>, r: Reg, open: set<string>, t: FFIType, d: Decl, r': Reg)
    requires Acyclic(c, rank) && Sound(c, rank, r, open)
    requires Clean(c, t) && Composite(t) && d.name == CName(c, t) && !Listed(r.decls, d.name)
    requires d.known <==> InTable(c, t)
    requires forall m :: m in d.mentions ==> IsLeaf(m) || Listed(r.decls, m)
    requires r'.decls == r.decls + [d] && r'.emitted == r.emitted + {d.name}
    requires r'.owns.Keys <= r.owns.Keys + {d.name} && (forall n :: n != d.name ==> OwnsFlag(r', n) == OwnsFlag(r, n))
    requires OwnsFlag(r', d.name) <==> OwnsMemory(c, rank, t)
    ensures Sound(c, rank, r', open - {d.name})
  {
    InOrderPush(r.decls, d);
    forall n
      ensures Listed(r'.decls, n) <==> Listed(r.decls, n) || d.name == n
    {
      ListedPush(r.decls, d, n);
    }
    hide InOrder, Listed;
    forall u | Clean(c, u) && Composite(u) && Listed(r'.decls, CName(c, u))
      ensures OwnsFlag(r', CName(c, u)) <==> OwnsMemory(c, rank, u)
    {
      if CName(c, u) == d.name {
        NameTellsType(c, t, u);
        LoweringKeepsOwns(c, rank, t, u);
      }
    }
  }

  lemma OpenSound(c: Ctx, rank: map<string, nat>, r: Reg, open: set<string>, name: string)
    requires Acyclic(c, rank) && CleanTable(c) && Sound(c, rank, r, open) && name in c.table && name !in r.emitted
    ensures Sound(c, rank, r.(emitted := r.emitted + {name}), open + {name})
  {
  }

  // What a call promises of its type: it is a leaf or has its entry.
  predicate Settled(c: Ctx, r: Reg, t: FFIType) {
    IsLeaf(CName(c, t)) || Listed(r.decls, CName(c, t))
  }

  lemma {:induction false} StillListed(decls: seq<Decl>, decls': seq<Decl>, name: string)
    requires decls <= decls' && Listed(decls, name)
    ensures Listed(decls', name)
  {
    var i :| 0 <= i < |decls| && decls[i].name == name;
    assert decls'[i].name == name;
  }

  // A composite type other than an open struct that was emitted is declared.
  lemma EmittedListed(c: Ctx, rank: map<string, nat>, r: Reg, open: set<string>, t: FFIType)
    requires Acyclic(c, rank) && Sound(c, rank, r, open) && Clean(c, t) && Composite(t)
    requires forall o :: o in open ==> RankOf(rank, t) <= rank[o]
    ensures CName(c, t) !in open && (CName(c, t) in r.emitted <==> Listed(r.decls, CName(c, t)))
    ensures CName(c, t) !in r.emitted ==> !OwnsFlag(r, CName(c, t))
  {
    if t.Seq? || t.Opt? { GeneratedNames(c, t); }
    hide Listed, InOrder, FlagsRight;
  }

  /** On an acyclic table whose names do not clash, a call leaves every entry in place and in order,
      enters its type after all the type mentions, as a declaration unless it is a name that the
      table lacks, and answers with the flag that the definition gives. */
  lemma {:induction false} EnsureSound(c: Ctx, rank: map<string, nat>, r: Reg, t: FFIType, open: set<string>)
    requires Acyclic(c, rank) && CleanTable(c) && Clean(c, t) && Sound(c, rank, r, open)
    requires forall o :: o in open ==> RankOf(rank, t) <= rank[o]
    ensures var res := Ensure(c, r, t);
            && Sound(c, rank, res.0, open) && r.decls <= res.0.decls
            && Settled(c, res.0, t) && (res.1 <==> OwnsMemory(c, rank, t))
            && (Composite(t) ==> (Declared(res.0.decls, CName(c, t)) <==> InTable(c, t)))
    decreases ToEmit(c, r), Depth(t), 2
  {
    hide InOrder, Tracked, FlagsRight, LeafToken, Acyclic, CleanTable, Listed, Declared;
    NameKinds(c, t);
    match t {
      case Seq(elem) => EnsureContainer(c, rank, r, t, elem, open);
      case Opt(elem) => EnsureContainer(c, rank, r, t, elem, open);
      case Struct(name) => EnsureStruct(c, rank, r, name, open);
      case _ =>
    }
    if Composite(t) { DeclaredIfTracked(c, Ensure(c, r, t).0, open, t); }
  }

  lemma DeclaredIfTracked(c: Ctx, r: Reg, open: set<string>, t: FFIType)
    requires Tracked(c, r, open) && Clean(c, t) && Composite(t) && Settled(c, r, t)
    ensures Declared(r.decls, CName(c, t)) <==> InTable(c, t)
  {
    NameKinds(c, t);
    hide LeafToken, Listed, Declared;
    DeclaredIffInTable(c, r.decls, t);
  }

  lemma {:induction false} EnsureContainer(c: Ctx, rank: map<string, nat>, r: Reg, t: FFIType, elem: FFIType,
          open: set<string>)
    requires Acyclic(c, rank) && CleanTable(c) && Clean(c, t) && Sound(c, rank, r, open)
    requires (t == Seq(elem) || t == Opt(elem))
    requires forall o :: o in open ==> RankOf(rank, t) <= rank[o]
    ensures var res := Ensure(c, r, t);
            && Sound(c, rank, res.0, open) && r.decls <= res.0.decls
            && Settled(c, res.0, t) && (res.1 <==> OwnsMemory(c, rank, t))
    decreases ToEmit(c, r), Depth(t), 1
  {
    hide InOrder, Tracked, LeafToken, Acyclic, CleanTable, Listed;
    EnsureSound(c, rank, r, elem, open);
    var (r1, elemOwns) := Ensure(c, r, elem);
    var name := CName(c, t);
    EmittedListed(c, rank, r1, open, t);
    if name !in r1.emitted {
      var r2 := Ensure(c, r, t).0;
      var d := Decl(name, [CName(c, elem)], true);
      DeclareSound(c, rank, r1, open, t, d, r2);
      ListedPush(r1.decls, d, name);
      assert open - {name} == open;
    } else {
      assert FlagsRight(c, rank, r1);
    }
  }

  lemma {:induction false} EnsureStruct(c: Ctx, rank: map<string, nat>, r: Reg, name: string, open: set<string>)
    requires Acyclic(c, rank) && CleanTable(c) && UserName(c, name) && Sound(c, rank, r, open)
    requires forall o :: o in open ==> RankOf(rank, Struct(name)) <= rank[o]
    ensures var res := Ensure(c, r, Struct(name));
            && Sound(c, rank, res.0, open) && r.decls <= res.0.decls
            && Settled(c, res.0, Struct(name)) && (res.1 <==> OwnsMemory(c, rank, Struct(name)))
    decreases ToEmit(c, r), 0, 1
  {
    hide InOrder, Tracked, FlagsRight, LeafToken, Acyclic, CleanTable, Listed;
    var t := Struct(name);
    EmittedListed(c, rank, r, open, t);
    assert open - {name} == open;
    if name in r.emitted {
      assert OwnsFlag(r, name) <==> OwnsMemory(c, rank, t) by { FlagOf(c, rank, r, open, t); }
      return;
    }
    if name in c.table && c.table[name].StructMeta? {
      EnsureMembers(c, rank, r, name, open);
      return;
    }
    var r' := Ensure(c, r, t).0;
    var d := Decl(name, [], name in c.table);
    DeclareSound(c, rank, r, open, t, d, r');
    ListedPush(r.decls, d, name);
  }

  lemma FlagOf(c: Ctx, rank: map<string, nat>, r: Reg, open: set<string>, t: FFIType)
    requires Acyclic(c, rank) && Sound(c, rank, r, open) && Clean(c, t) && Composite(t)
    requires Listed(r.decls, CName(c, t))
    ensures OwnsFlag(r, CName(c, t)) <==> OwnsMemory(c, rank, t)
  {
  }

  lemma OpenInTable(c: Ctx, rank: map<string, nat>, r: Reg, open: set<string>)
    requires Acyclic(c, rank) && Tracked(c, r, open)
    ensures open <= rank.Keys
  {
  }

  lemma OpenUndeclared(c: Ctx, r: Reg, open: set<string>)
    requires Tracked(c, r, open)
    ensures forall n :: n in open ==> !Listed(r.decls, n) && !OwnsFlag(r, n)
  {
  }

  // The step of `ensureCType` for a struct it meets for the first time.
  lemma StructStep(c: Ctx, r: Reg, name: string)
    requires name in c.table && c.table[name].StructMeta? && name !in r.emitted
    ensures var fields := c.table[name].fields;
            var (r2, owns) := EnsureAll(c, r.(emitted := r.emitted + {name}), fields);
            Ensure(c, r, Struct(name)) ==
              (Reg(r2.emitted, r2.owns[name := owns], r2.decls + [Decl(name, CNames(c, fields), true)]), owns)
    ensures name in EnsureAll(c, r.(emitted := r.emitted + {name}), c.table[name].fields).0.emitted
  {
  }

  lemma FieldsBelow(c: Ctx, rank: map<string, nat>, name: string, open: set<string>)
    requires Acyclic(c, rank) && CleanTable(c) && name in c.table && c.table[name].StructMeta? && open <= rank.Keys
    requires forall o :: o in open ==> RankOf(rank, Struct(name)) <= rank[o]
    ensures forall i :: 0 <= i < |c.table[name].fields| ==> Clean(c, c.table[name].fields[i])
    ensures forall i, o :: 0 <= i < |c.table[name].fields| && o in open + {name} ==>
          RankOf(rank, c.table[name].fields[i]) <= rank[o]
  {
  }

  lemma MentionsSettled(c: Ctx, r: Reg, ts: seq<FFIType>)
    requires forall i :: 0 <= i < |ts| ==> Settled(c, r, ts[i])
    ensures forall m :: m in CNames(c, ts) ==> IsLeaf(m) || Listed(r.decls, m)
  {
  }

  lemma OwnsOfStruct(c: Ctx, rank: map<string, nat>, name: string)
    requires Acyclic(c, rank) && name in c.table && c.table[name].StructMeta?
    ensures OwnsMemory(c, rank, Struct(name)) <==>
              exists i :: 0 <= i < |c.table[name].fields| && OwnsMemory(c, rank, c.table[name].fields[i])
  {
  }

  // The struct's own declaration, once its fields are settled.
  function Closed(c: Ctx, r: Reg, name: string, fields: seq<FFIType>, owns: bool): Reg {
    Reg(r.emitted, r.owns[name := owns], r.decls + [Decl(name, CNames(c, fields), true)])
  }

  lemma CloseStruct(c: Ctx, rank: map<string, nat>, r: Reg, open: set<string>, name: string, owns: bool)
    requires Acyclic(c, rank) && UserName(c, name) && name in c.table && c.table[name].StructMeta?
    requires Sound(c, rank, r, open + {name}) && name !in open && name in r.emitted
    requires forall i :: 0 <= i < |c.table[name].fields| ==> Settled(c, r, c.table[name].fields[i])
    requires owns <==> exists i :: 0 <= i < |c.table[name].fields| && OwnsMemory(c, rank, c.table[name].fields[i])
    ensures Sound(c, rank, Closed(c, r, name, c.table[name].fields, owns), open)
    ensures Settled(c, Closed(c, r, name, c.table[name].fields, owns), Struct(name))
  {
    var fields := c.table[name].fields;
    var r', d := Closed(c, r, name, fields, owns), Decl(name, CNames(c, fields), true);
    MentionsSettled(c, r, fields);
    OwnsOfStruct(c, rank, name);
    OpenUndeclared(c, r, open + {name});
    hide InOrder, FlagsRight, Tracked, LeafToken, Acyclic, Listed, OwnsMemory, CNames;
    assert r'.emitted == r.emitted + {name} && open + {name} - {name} == open;
    DeclareSound(c, rank, r, open + {name}, Struct(name), d, r');
    ListedPush(r.decls, d, name);
  }

  lemma {:induction false} EnsureMembers(c: Ctx, rank: map<string, nat>, r: Reg, name: string, open: set<string>)
    requires Acyclic(c, rank) && CleanTable(c) && UserName(c, name) && Sound(c, rank, r, open)
    requires forall o :: o in open ==> RankOf(rank, Struct(name)) <= rank[o]
    requires name in c.table && c.table[name].StructMeta? && name !in r.emitted && name !in open
    ensures var res := Ensure(c, r, Struct(name));
            && Sound(c, rank, res.0, open) && r.decls <= res.0.decls
            && Settled(c, res.0, Struct(name)) && (res.1 <==> OwnsMemory(c, rank, Struct(name)))
    decreases ToEmit(c, r), 0, 0
  {
    OpenInTable(c, rank, r, open);
    StructStep(c, r, name);
    hide InOrder, FlagsRight, Tracked, LeafToken, Acyclic, CleanTable, Listed, RankOf, Ensure, EnsureAll,
          OwnsMemory, CNames, Settled;
    var r1 := r.(emitted := r.emitted + {name});
    EmittingShrinks(c, r, r1);
    OpenSound(c, rank, r, open, name);
    FieldsBelow(c, rank, name, open);
    EnsureAllSound(c, rank, r1, c.table[name].fields, open + {name});
    var (r2, owns) := EnsureAll(c, r1, c.table[name].fields);
    CloseStruct(c, rank, r2, open, name, owns);
    OwnsOfStruct(c, rank, name);
  }

  lemma {:induction false} EnsureAllSound(c: Ctx, rank: map<string, nat>, r: Reg, ts: seq<FFIType>, open: set<string>)
    requires Acyclic(c, rank) && CleanTable(c) && Sound(c, rank, r, open)
    requires forall i :: 0 <= i < |ts| ==> Clean(c, ts[i])
    requires forall i, o :: 0 <= i < |ts| && o in open ==> RankOf(rank, ts[i]) <= rank[o]
    ensures var res := EnsureAll(c, r, ts);
            && Sound(c, rank, res.0, open) && r.decls <= res.0.decls
            && (forall i :: 0 <= i < |ts| ==> Settled(c, res.0, ts[i]))
            && (res.1 <==> exists i :: 0 <= i < |ts| && OwnsMemory(c, rank, ts[i]))
    decreases ToEmit(c, r), MaxDepth(ts) + 1, |ts|
  {
    hide InOrder, Tracked, FlagsRight, LeafToken, Acyclic, CleanTable, Listed, RankOf, OwnsMemory, Ensure;
    if ts != [] {
      EnsureSound(c, rank, r, ts[0], open);
      var r1 := Ensure(c, r, ts[0]).0;
      EmittingShrinks(c, r, r1);
      EnsureAllSound(c, rank, r1, ts[1..], open);
      var r2 := EnsureAll(c, r1, ts[1..]).0;
      forall i | 0 <= i < |ts|
        ensures Settled(c, r2, ts[i])
      {
        if i == 0 {
          if !IsLeaf(CName(c, ts[0])) { StillListed(r1.decls, r2.decls, CName(c, ts[0])); }
        } else {
          assert ts[i] == ts[1..][i - 1];
        }
      }
      assert forall i :: 1 <= i < |ts| ==> ts[i] == ts[1..][i - 1];
    }
  }

  /** `monomorphiseAll`: from an empty registry, every type asked for has its entry, each name
      once, after everything its body mentions, and the memo holds the defined owns flag. An entry
      is a declaration, save for the struct names that the table lacks. */
  lemma MonomorphiseAll(c: Ctx, rank: map<string, nat>, ts: seq<FFIType>)
    requires Acyclic(c, rank) && CleanTable(c) && forall i :: 0 <= i < |ts| ==> Clean(c, ts[i])
    ensures var r := EnsureAll(c, EMPTY, ts).0;
            && (forall i :: 0 <= i < |ts| ==> Settled(c, r, ts[i]))
            && (forall i, j :: 0 <= i < j < |r.decls| ==> r.decls[i].name != r.decls[j].name)
            && ListedFirst(r.decls) && CommentsRight(c, r.decls)
            && (forall t :: Clean(c, t) && Composite(t) && Listed(r.decls, CName(c, t)) ==>
                  (OwnsFlag(r, CName(c, t)) <==> OwnsMemory(c, rank, t)))
  {
    NothingYet(c, rank);
    hide LeafToken, Acyclic, CleanTable, ListedFirst, CommentsRight, OwnsMemory, EnsureAll;
    EnsureAllSound(c, rank, EMPTY, ts, {});
  }

  lemma NothingYet(c: Ctx, rank: map<string, nat>)
    requires Acyclic(c, rank)
    ensures Sound(c, rank, EMPTY, {})
  {
  }

  // ---------------------------------------------------------------------------------------
  // When the order holds
  // ---------------------------------------------------------------------------------------

  // The struct names in the type are among `keep`.
  predicate Within(c: Ctx, keep: set<string>, t: FFIType) {
    match t
    case Seq(elem) => Within(c, keep, elem)
    case Opt(elem) => Within(c, keep, elem)
    case Struct(name) => name in keep
    case _ => true
  }

  // `keep` holds every name reached from the types, through any number of fields; the table lacks
  // none of them.
  ghost predicate Covers(c: Ctx, keep: set<string>, ts: seq<FFIType>) {
    && keep <= c.table.Keys
    && (forall i :: 0 <= i < |ts| ==> Within(c, keep, ts[i]))
    && (forall n :: n in keep && c.table[n].StructMeta? ==>
          forall i :: 0 <= i < |c.table[n].fields| ==> Within(c, keep, c.table[n].fields[i]))
  }

  // The part of the table under these names.
  function Part(c: Ctx, keep: set<string>): Ctx {
    c.(table := map n | n in c.table && n in keep :: c.table[n])
  }

  lemma {:induction false} PartNames(c: Ctx, keep: set<string>, t: FFIType)
    ensures CName(Part(c, keep), t) == CName(c, t) && (Clean(Part(c, keep), t) <==> Clean(c, t))
    decreases t
  {
    match t
    case Seq(elem) => PartNames(c, keep, elem);
    case Opt(elem) => PartNames(c, keep, elem);
    case _ =>
  }

  lemma {:induction false} PartAllNames(c: Ctx, keep: set<string>, ts: seq<FFIType>)
    ensures CNames(Part(c, keep), ts) == CNames(c, ts)
  {
    if ts != [] {
      PartNames(c, keep, ts[0]);
      PartAllNames(c, keep, ts[1..]);
    }
  }

  // What is not reached makes no difference to a call.
  lemma {:induction false} PartSuffices(c: Ctx, keep: set<string>, r: Reg, t: FFIType)
    requires Covers(c, keep, []) && Within(c, keep, t)
    ensures Ensure(Part(c, keep), r, t) == Ensure(c, r, t)
    decreases ToEmit(c, r), Depth(t), 0
  {
    PartNames(c, keep, t);
    match t
    case Seq(elem) => PartNames(c, keep, elem); PartSuffices(c, keep, r, elem);
    case Opt(elem) => PartNames(c, keep, elem); PartSuffices(c, keep, r, elem);
    case Struct(name) =>
      if name !in r.emitted && c.table[name].StructMeta? {
        var fields, r1 := c.table[name].fields, r.(emitted := r.emitted + {name});
        EmittingShrinks(c, r, r1);
        PartSufficesAll(c, keep, r1, fields);
        PartAllNames(c, keep, fields);
      }
    case _ =>
  }

  lemma {:induction false} PartSufficesAll(c: Ctx, keep: set<string>, r: Reg, ts: seq<FFIType>)
    requires Covers(c, keep, []) && forall i :: 0 <= i < |ts| ==> Within(c, keep, ts[i])
    ensures EnsureAll(Part(c, keep), r, ts) == EnsureAll(c, r, ts)
    decreases ToEmit(c, r), MaxDepth(ts) + 1, |ts|
  {
    if ts != [] {
      PartSuffices(c, keep, r, ts[0]);
      EmittingShrinks(c, r, Ensure(c, r, ts[0]).0);
      PartSufficesAll(c, keep, Ensure(c, r, ts[0]).0, ts[1..]);
    }
  }

  predicate AllKnown(decls: seq<Decl>) {
    forall i :: 0 <= i < |decls| ==> decls[i].known
  }

  // Where the table lacks nothing, no comment is left.
  lemma {:induction false} NoComments(c: Ctx, keep: set<string>, r: Reg, t: FFIType)
    requires Covers(c, keep, []) && Within(c, keep, t) && AllKnown(r.decls)
    ensures AllKnown(Ensure(c, r, t).0.decls)
    decreases ToEmit(c, r), Depth(t), 0
  {
    match t
    case Seq(elem) => NoComments(c, keep, r, elem);
    case Opt(elem) => NoComments(c, keep, r, elem);
    case Struct(name) =>
      if name !in r.emitted && c.table[name].StructMeta? {
        var r1 := r.(emitted := r.emitted + {name});
        EmittingShrinks(c, r, r1);
        NoCommentsAll(c, keep, r1, c.table[name].fields);
      }
    case _ =>
  }

  lemma {:induction false} NoCommentsAll(c: Ctx, keep: set<string>, r: Reg, ts: seq<FFIType>)
    requires Covers(c, keep, []) && (forall i :: 0 <= i < |ts| ==> Within(c, keep, ts[i])) && AllKnown(r.decls)
    ensures AllKnown(EnsureAll(c, r, ts).0.decls)
    decreases ToEmit(c, r), MaxDepth(ts) + 1, |ts|
  {
    if ts != [] {
      NoComments(c, keep, r, ts[0]);
      EmittingShrinks(c, r, Ensure(c, r, ts[0]).0);
      NoCommentsAll(c, keep, Ensure(c, r, ts[0]).0, ts[1..]);
    }
  }

  lemma KnownMeansDeclared(decls: seq<Decl>, name: string)
    requires AllKnown(decls)
    ensures Listed(decls, name) <==> Declared(decls, name)
  {
  }

  // What the declaration of a type mentions.
  function Body(c: Ctx, t: FFIType): seq<string> {
    match t
    case Seq(elem) => [CName(c, elem)]
    case Opt(elem) => [CName(c, elem)]
    case Struct(name) =>
      if name in c.table && c.table[name].StructMeta? then CNames(c, c.table[name].fields) else []
    case _ => []
  }

  ghost predicate BodiesRight(c: Ctx, decls: seq<Decl>) {
    forall i, t :: 0 <= i < |decls| && Clean(c, t) && Composite(t) && decls[i].name == CName(c, t) ==>
      decls[i].mentions == Body(c, t)
  }

  // On every table, cyclic ones included: what was emitted is open or has its entry, by its body.
  ghost predicate Entered(c: Ctx, r: Reg, open: set<string>) {
    && BodiesRight(c, r.decls) && CommentsRight(c, r.decls)
    && forall n :: n in r.emitted <==> n in open || Listed(r.decls, n)
  }

  // The same name has the same body.
  lemma BodyByName(c: Ctx, t: FFIType, u: FFIType)
    requires Clean(c, t) && Clean(c, u) && Composite(t) && Composite(u) && CName(c, t) == CName(c, u)
    ensures Body(c, t) == Body(c, u)
  {
    hide LeafToken;
    match (t, u)
    case (Seq(a), Seq(b)) =>
      SameTail(c.libType + "Seq_", CToken(CName(c, a)), CToken(CName(c, b)));
      TokenTellsName(c, a, b);
    case (Opt(a), Opt(b)) =>
      SameTail(c.libType + "Opt_", CToken(CName(c, a)), CToken(CName(c, b)));
      TokenTellsName(c, a, b);
    case (Struct(_), Struct(_)) =>
    case _ => NameTellsType(c, t, u);
  }

  lemma PushEntered(c: Ctx, r: Reg, open: set<string>, t: FFIType, known: bool, r': Reg)
    requires Entered(c, r, open) && Clean(c, t) && Composite(t) && (known <==> InTable(c, t))
    requires r'.decls == r.decls + [Decl(CName(c, t), Body(c, t), known)]
    requires r'.emitted == r.emitted + {CName(c, t)}
    ensures Entered(c, r', open - {CName(c, t)})
  {
    var d := r'.decls[|r.decls|];
    if t.Seq? || t.Opt? { GeneratedNames(c, t); }
    forall i, u | 0 <= i < |r'.decls| && Clean(c, u) && Composite(u) && r'.decls[i].name == CName(c, u)
      ensures r'.decls[i].mentions == Body(c, u)
    {
      if i == |r.decls| { BodyByName(c, t, u); } else { assert r'.decls[i] == r.decls[i]; }
    }
    forall n ensures Listed(r'.decls, n) <==> Listed(r.decls, n) || d.name == n {
      ListedPush(r.decls, d, n);
    }
    hide Listed, BodiesRight, Body, LeafToken;
  }

  lemma {:induction false} EnsureEnters(c: Ctx, r: Reg, t: FFIType, open: set<string>)
    requires CleanTable(c) && Clean(c, t) && Entered(c, r, open)
    ensures var r' := Ensure(c, r, t).0;
            Entered(c, r', open) && (IsLeaf(CName(c, t)) || CName(c, t) in r'.emitted)
    decreases ToEmit(c, r), Depth(t), 2
  {
    hide Entered, CleanTable, LeafToken;
    NameKinds(c, t);
    match t
    case Seq(elem) => ContainerEnters(c, r, t, elem, open);
    case Opt(elem) => ContainerEnters(c, r, t, elem, open);
    case Struct(name) => if name !in r.emitted { StructEnters(c, r, name, open); }
    case _ =>
  }

  lemma {:induction false} ContainerEnters(c: Ctx, r: Reg, t: FFIType, elem: FFIType, open: set<string>)
    requires CleanTable(c) && Clean(c, t) && Entered(c, r, open) && (t == Seq(elem) || t == Opt(elem))
    ensures var r' := Ensure(c, r, t).0; Entered(c, r', open) && CName(c, t) in r'.emitted
    decreases ToEmit(c, r), Depth(t), 1
  {
    hide CleanTable, LeafToken;
    EnsureEnters(c, r, elem, open);
    var r1, r' := Ensure(c, r, elem).0, Ensure(c, r, t).0;
    var name := CName(c, t);
    if name !in r1.emitted {
      assert r'.decls == r1.decls + [Decl(name, Body(c, t), true)];
      PushEntered(c, r1, open, t, true, r');
      assert open - {name} == open;
    }
  }

  lemma {:induction false} StructEnters(c: Ctx, r: Reg, name: string, open: set<string>)
    requires CleanTable(c) && UserName(c, name) && Entered(c, r, open) && name !in r.emitted
    ensures var r' := Ensure(c, r, Struct(name)).0; Entered(c, r', open) && name in r'.emitted
    decreases ToEmit(c, r), 0, 1
  {
    var t, r' := Struct(name), Ensure(c, r, Struct(name)).0;
    assert open + {name} - {name} == open - {name} == open;
    if name in c.table && c.table[name].StructMeta? {
      StructStep(c, r, name);
      var r1, fields := r.(emitted := r.emitted + {name}), c.table[name].fields;
      assert forall i :: 0 <= i < |fields| ==> Clean(c, fields[i]);
      EmittingShrinks(c, r, r1);
      hide CleanTable, LeafToken, Ensure, EnsureAll;
      EnsureAllEnters(c, r1, fields, open + {name});
      var r2 := EnsureAll(c, r1, fields).0;
      assert r'.decls == r2.decls + [Decl(name, Body(c, t), true)];
      PushEntered(c, r2, open + {name}, t, true, r');
    } else {
      assert r'.decls == r.decls + [Decl(name, Body(c, t), name in c.table)];
      PushEntered(c, r, open, t, name in c.table, r');
    }
  }

  lemma {:induction false} EnsureAllEnters(c: Ctx, r: Reg, ts: seq<FFIType>, open: set<string>)
    requires CleanTable(c) && Entered(c, r, open) && forall i :: 0 <= i < |ts| ==> Clean(c, ts[i])
    ensures var r' := EnsureAll(c, r, ts).0;
            Entered(c, r', open) && forall i :: 0 <= i < |ts| ==> IsLeaf(CName(c, ts[i])) || CName(c, ts[i]) in r'.emitted
    decreases ToEmit(c, r), MaxDepth(ts) + 1, |ts|
  {
    hide Entered, CleanTable, LeafToken, IsLeaf;
    if ts != [] {
      EnsureEnters(c, r, ts[0], open);
      var r1 := Ensure(c, r, ts[0]).0;
      EmittingShrinks(c, r, r1);
      EnsureAllEnters(c, r1, ts[1..], open);
      assert forall i :: 1 <= i < |ts| ==> ts[i] == ts[1..][i - 1];
    }
  }

  // Where a name is declared first.
  function FirstAt(decls: seq<Decl>, name: string): (i: nat)
    requires Listed(decls, name)
    ensures i < |decls| && decls[i].name == name && forall j :: 0 <= j < i ==> decls[j].name != name
  {
    if decls[0].name == name then 0
    else
      assert Listed(decls[1..], name) by {
        var i :| 0 <= i < |decls| && decls[i].name == name;
        assert decls[1..][i - 1].name == name;
      }
      1 + FirstAt(decls[1..], name)
  }

  // The table names that were declared, ranked by their place.
  ghost predicate RankedByPlace(c: Ctx, decls: seq<Decl>, rank: map<string, nat>) {
    && (forall n :: n in rank <==> n in c.table && Listed(decls, n))
    && (forall n :: n in rank ==> rank[n] == FirstAt(decls, n))
  }

  // Where the order holds, a type that is declared before place `i` has its rank below `i`, and
  // lacks no name.
  lemma {:induction false} RankBelow(c: Ctx, decls: seq<Decl>, rank: map<string, nat>, t: FFIType, i: nat)
    requires BodiesRight(c, decls) && CommentsRight(c, decls) && MentionsLast(decls)
    requires RankedByPlace(c, decls, rank) && Clean(c, t)
    requires i <= |decls| && (IsLeaf(CName(c, t)) || Declared(decls[..i], CName(c, t)))
    ensures RankOf(rank, t) <= i && Within(c, rank.Keys, t)
    decreases t
  {
    NameKinds(c, t);
    hide LeafToken;
    if Composite(t) {
      var j :| 0 <= j < i && decls[..i][j].name == CName(c, t) && decls[..i][j].known;
      assert decls[j].name == CName(c, t) && decls[j].mentions == Body(c, t);
      match t
      case Seq(elem) => assert CName(c, elem) in decls[j].mentions; RankBelow(c, decls, rank, elem, j);
      case Opt(elem) => assert CName(c, elem) in decls[j].mentions; RankBelow(c, decls, rank, elem, j);
      case Struct(name) => assert Listed(decls, name);
    }
  }

  lemma FieldBelow(c: Ctx, decls: seq<Decl>, rank: map<string, nat>, n: string, i: nat)
    requires BodiesRight(c, decls) && CommentsRight(c, decls) && MentionsLast(decls)
    requires RankedByPlace(c, decls, rank) && CleanTable(c)
    requires n in rank && n in c.table && c.table[n].StructMeta? && i < |c.table[n].fields|
    ensures RankOf(rank, c.table[n].fields[i]) <= rank[n] && Within(c, rank.Keys, c.table[n].fields[i])
  {
    var t, k := c.table[n].fields[i], rank[n];
    assert decls[k].name == n && k < |decls|;
    StructBody(c, decls, n, k);
    hide BodiesRight, CommentsRight, RankedByPlace, CleanTable, LeafToken;
    assert CName(c, t) == decls[k].mentions[i];
    RankBelow(c, decls, rank, t, k);
  }

  lemma StructBody(c: Ctx, decls: seq<Decl>, n: string, k: nat)
    requires BodiesRight(c, decls) && CleanTable(c) && n in c.table && c.table[n].StructMeta?
    requires k < |decls| && decls[k].name == n
    ensures decls[k].mentions == CNames(c, c.table[n].fields)
    ensures forall i :: 0 <= i < |c.table[n].fields| ==> Clean(c, c.table[n].fields[i])
  {
    assert Clean(c, Struct(n)) && CName(c, Struct(n)) == n;
    hide LeafToken;
  }

  // What a C compiler asks of the header: what is mentioned was declared, and so was what the
  // caller asked for.
  ghost predicate AllDeclared(c: Ctx, decls: seq<Decl>, ts: seq<FFIType>) {
    MentionsLast(decls) && forall i :: 0 <= i < |ts| ==> IsLeaf(CName(c, ts[i])) || Declared(decls, CName(c, ts[i]))
  }

  lemma OrderMeansAcyclic(c: Ctx, ts: seq<FFIType>) returns (rank: map<string, nat>)
    requires CleanTable(c) && forall i :: 0 <= i < |ts| ==> Clean(c, ts[i])
    requires AllDeclared(c, EnsureAll(c, EMPTY, ts).0.decls, ts)
    ensures Covers(c, rank.Keys, ts) && Acyclic(Part(c, rank.Keys), rank)
  {
    EnsureAllEnters(c, EMPTY, ts, {});
    var decls := EnsureAll(c, EMPTY, ts).0.decls;
    rank := map n | n in c.table && Listed(decls, n) :: FirstAt(decls, n);
    assert RankedByPlace(c, decls, rank);
    assert decls[..|decls|] == decls;
    hide MentionsLast, BodiesRight, CommentsRight, LeafToken, CleanTable, EnsureAll;
    forall i | 0 <= i < |ts| ensures Within(c, rank.Keys, ts[i]) {
      RankBelow(c, decls, rank, ts[i], |decls|);
    }
    hide RankedByPlace;
    forall n, i | n in rank && c.table[n].StructMeta? && 0 <= i < |c.table[n].fields|
      ensures RankOf(rank, c.table[n].fields[i]) <= rank[n] && Within(c, rank.Keys, c.table[n].fields[i])
    {
      FieldBelow(c, decls, rank, n, i);
    }
  }

  lemma AcyclicMeansOrder(c: Ctx, keep: set<string>, rank: map<string, nat>, ts: seq<FFIType>)
    requires CleanTable(c) && forall i :: 0 <= i < |ts| ==> Clean(c, ts[i])
    requires Covers(c, keep, ts) && Acyclic(Part(c, keep), rank)
    ensures AllDeclared(c, EnsureAll(c, EMPTY, ts).0.decls, ts)
  {
    var part := Part(c, keep);
    forall t: FFIType ensures Clean(part, t) <==> Clean(c, t) {
      PartNames(c, keep, t);
    }
    PartSufficesAll(c, keep, EMPTY, ts);
    MonomorphiseAll(part, rank, ts);
    NoCommentsAll(c, keep, EMPTY, ts);
    var decls := EnsureAll(c, EMPTY, ts).0.decls;
    forall i | 0 <= i < |ts| ensures IsLeaf(CName(c, ts[i])) || Declared(decls, CName(c, ts[i])) {
      PartNames(c, keep, ts[i]);
      KnownMeansDeclared(decls, CName(c, ts[i]));
    }
    hide LeafToken;
    forall i, m | 0 <= i < |decls| && m in decls[i].mentions ensures IsLeaf(m) || Declared(decls[..i], m) {
      KnownMeansDeclared(decls[..i], m);
    }
  }

  /** `monomorphiseAll` declares every type asked for, and everything after what it mentions, if and
      only if the table lacks none of the struct names that are reached from those types and no such
      struct contains itself, at any depth and through sequences and options too. */
  lemma DeclaresAllIff(c: Ctx, ts: seq<FFIType>)
    requires CleanTable(c) && forall i :: 0 <= i < |ts| ==> Clean(c, ts[i])
    ensures AllDeclared(c, EnsureAll(c, EMPTY, ts).0.decls, ts) <==>
              exists keep, rank :: Covers(c, keep, ts) && Acyclic(Part(c, keep), rank)
  {
    hide AllDeclared, Covers, Acyclic, CleanTable;
    if AllDeclared(c, EnsureAll(c, EMPTY, ts).0.decls, ts) {
      var rank := OrderMeansAcyclic(c, ts);
    }
    if keep, rank :| Covers(c, keep, ts) && Acyclic(Part(c, keep), rank) {
      AcyclicMeansOrder(c, keep, rank, ts);
    }
  }

  lemma OtherName()
    ensures "Missing" != "A"
  {
    assert |"Missing"| != |"A"|;
  }

  /** An example of a name that the table lacks: no cycle, and the struct mentions a type of which
      the header has only a comment. */
  lemma MissingNameUndeclared()
    ensures var c := Ctx("Lib", map["A" := StructMeta([Struct("Missing")])]);
            var decls := Ensure(c, EMPTY, Struct("A")).0.decls;
            decls == [Decl("Missing", [], false), Decl("A", ["Missing"], true)] && !Declared(decls, "Missing")
  {
    var c := Ctx("Lib", map["A" := StructMeta([Struct("Missing")])]);
    var fields := [Struct("Missing")];
    var r1, r2 := Reg({"A"}, map[], []), Reg({"A", "Missing"}, map[], [Decl("Missing", [], false)]);
    StructStep(c, EMPTY, "A");
    assert EMPTY.(emitted := EMPTY.emitted + {"A"}) == r1 && r1.emitted + {"Missing"} == r2.emitted;
    assert CName(c, fields[0]) == "Missing" && CNames(c, fields) == ["Missing"];
    assert "Missing" !in c.table && "Missing" !in r1.emitted && !OwnsFlag(r1, "Missing") by { OtherName(); }
    assert r1.decls + [Decl("Missing", [], false)] == r2.decls;
    assert Ensure(c, r1, Struct("Missing")) == (r2, false);
    assert fields[1..] == [] && EnsureAll(c, r2, []) == (r2, false);
    assert EnsureAll(c, r1, fields) == (r2, false);
  }

  /** An example of a cycle: a struct that is a sequence of itself. The call ends, and the sequence
      is declared before the struct. */
  lemma SelfSequenceOutOfOrder()
    ensures var c := Ctx("Lib", map["Node" := StructMeta([Seq(Struct("Node"))])]);
            var decls := Ensure(c, EMPTY, Struct("Node")).0.decls;
            decls == [Decl("LibSeq_Node", ["Node"], true), Decl("Node", ["LibSeq_Node"], true)]
  {
    var c := Ctx("Lib", map["Node" := StructMeta([Seq(Struct("Node"))])]);
    var fields := [Seq(Struct("Node"))];
    var r1 := Reg({"Node"}, map[], []);
    StructStep(c, EMPTY, "Node");
    assert EMPTY.(emitted := EMPTY.emitted + {"Node"}) == r1;
    assert CName(c, fields[0]) == "LibSeq_Node" && CNames(c, fields) == ["LibSeq_Node"];
    assert Ensure(c, r1, Struct("Node")) == (r1, false);
    var r2 := EmitSeq(r1, "LibSeq_Node", "Node");
    assert Ensure(c, r1, fields[0]) == (r2, true);
    assert fields[1..] == [] && EnsureAll(c, r2, []) == (r2, false);
    assert EnsureAll(c, r1, fields) == (r2, true);
  }

  // ---------------------------------------------------------------------------------------
  // The registry the generator keeps
  // ---------------------------------------------------------------------------------------

  lemma DepthBound(ts: seq<FFIType>, i: nat)
    requires i < |ts|
    ensures Depth(ts[i]) <= MaxDepth(ts)
  {
    if i > 0 { DepthBound(ts[1..], i - 1); }
  }

  class CTypeReg {
    const ctx: Ctx
    var emitted: set<string>
    var owns: map<string, bool>
    var decls: seq<Decl>

    function State(): Reg
      reads this
    {
      Reg(emitted, owns, decls)
    }

    constructor (ctx: Ctx)
      ensures this.ctx == ctx && State() == EMPTY
    {
      this.ctx := ctx;
      emitted, owns, decls := {}, map[], [];
    }

    /** Lowers a type to its C name, declaring it on first sight. */
    method EnsureCType(t: FFIType) returns (cType: string, owned: bool)
      modifies this
      ensures cType == CName(ctx, t) && (State(), owned) == Ensure(ctx, old(State()), t)
      decreases ToEmit(ctx, State()), Depth(t), 0
    {
      match t
      case Scalar(k) => return ScalarC(k), false;
      case Ptr => return "uint64_t", false;
      case Str => return CStrType, true;
      case Bytes => return CBytesType, true;
      case Seq(elem) =>
        var elemC, elemOwns := EnsureCType(elem);
        var name := ctx.libType + "Seq_" + CToken(elemC);
        if name !in emitted {
          emitted := emitted + {name};
          decls := decls + [Decl(name, [elemC], true)];
          owns := owns[name := true];
        }
        return name, true;
      case Opt(elem) =>
        var elemC, elemOwns := EnsureCType(elem);
        var name := ctx.libType + "Opt_" + CToken(elemC);
        if name !in emitted {
          emitted := emitted + {name};
          decls := decls + [Decl(name, [elemC], true)];
          owns := owns[name := elemOwns];
        }
        return name, name in owns && owns[name];
      case Struct(name) =>
        if name !in emitted {
          EmittingShrinks(ctx, State(), State().(emitted := emitted + {name}));
          emitted := emitted + {name};
          if name !in ctx.table {
            decls := decls + [Decl(name, [], false)];
          } else if ctx.table[name].EnumMeta? {
            decls := decls + [Decl(name, [], true)];
            owns := owns[name := false];
          } else {
            EmitStructType(name, ctx.table[name].fields);
          }
        }
        return name, name in owns && owns[name];
    }

    method EmitStructType(name: string, fields: seq<FFIType>)
      modifies this
      ensures var (r, anyOwns) := EnsureAll(ctx, old(State()), fields);
              State() == Closed(ctx, r, name, fields, anyOwns)
      decreases ToEmit(ctx, State()), MaxDepth(fields) + 1, 0
    {
      var mentions: seq<string>, anyOwns := [], false;
      var i := 0;
      while i < |fields|
        invariant 0 <= i <= |fields| && |mentions| == i
        invariant forall j :: 0 <= j < i ==> mentions[j] == CName(ctx, fields[j])
        invariant old(State()).emitted <= State().emitted
        invariant EnsureAll(ctx, old(State()), fields).0 == EnsureAll(ctx, State(), fields[i..]).0
        invariant EnsureAll(ctx, old(State()), fields).1 == (anyOwns || EnsureAll(ctx, State(), fields[i..]).1)
      {
        assert fields[i..][0] == fields[i] && fields[i..][1..] == fields[i + 1..];
        DepthBound(fields, i);
        EmittingShrinks(ctx, old(State()), State());
        var cType, owned := EnsureCType(fields[i]);
        mentions := mentions + [cType];
        anyOwns := anyOwns || owned;
        i := i + 1;
      }
      assert mentions == CNames(ctx, fields);
      decls := decls + [Decl(name, mentions, true)];
      owns := owns[name := anyOwns];
    }

    /** Every type asked for goes through `EnsureCType`, in turn. */
    method MonomorphiseAll(types: seq<FFIType>)
      modifies this
      ensures State() == EnsureAll(ctx, old(State()), types).0
    {
      var i := 0;
      while i < |types|
        invariant 0 <= i <= |types|
        invariant EnsureAll(ctx, old(State()), types).0 == EnsureAll(ctx, State(), types[i..]).0
      {
        assert types[i..][0] == types[i] && types[i..][1..] == types[i + 1..];
        var cType, owned := EnsureCType(types[i]);
        i := i + 1;
      }
    }
  }
}

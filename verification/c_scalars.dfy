/** The scalar types from the Nim source to the C header and the codec. What a name means is read
    off the name itself: `int16`, `int16_t` and the token `I16` say sixteen bits and a sign. */
module CScalars {
  import opened Wrappers
  import opened CTypeRegistry
  import Codec

  // What a scalar type holds.
  datatype Numeric = Truth | Whole(signed: bool, bits: nat) | Fraction(bits: nat)

  // ---------------------------------------------------------------------------------------
  // Reading names
  // ---------------------------------------------------------------------------------------

  predicate IsDigit(c: char) {
    '0' <= c <= '9'
  }

  function Value(s: string): nat
    requires forall i :: 0 <= i < |s| ==> IsDigit(s[i])
  {
    if s == [] then 0
    else
      assert IsDigit(s[|s| - 1]);
      10 * Value(s[..|s| - 1]) + (s[|s| - 1] as int - '0' as int)
  }

  // A number in decimal, without leading zeros.
  function Numeral(s: string): Option<nat> {
    if s != [] && s[0] != '0' && forall i :: 0 <= i < |s| ==> IsDigit(s[i]) then Some(Value(s)) else None
  }

  predicate StartsWith(s: string, prefix: string) {
    |prefix| <= |s| && s[..|prefix|] == prefix
  }

  // `prefix` and a width.
  function Sized(s: string, prefix: string): Option<nat> {
    if StartsWith(s, prefix) then Numeral(s[|prefix|..]) else None
  }

  // The exact-width integers of section 7.20.1.1 of ISO C11, and the usual floats.
  function CMeaning(name: string): Option<Numeric> {
    if name == "bool" then Some(Truth)
    else if name == "float" then Some(Fraction(32))
    else if name == "double" then Some(Fraction(64))
    else if |name| < 2 || name[|name| - 2..] != "_t" then None
    else
      var stem := name[..|name| - 2];
      match (Sized(stem, "int"), Sized(stem, "uint"))
      case (Some(bits), _) => Some(Whole(true, bits))
      case (_, Some(bits)) => Some(Whole(false, bits))
      case _ => None
  }

  // Nim's names; without a width a number has 64 bits.
  function NimMeaning(name: string): Option<Numeric> {
    if name == "bool" then Some(Truth)
    else if name == "byte" then Some(Whole(false, 8))
    else if name == "int" then Some(Whole(true, 64))
    else if name == "uint" then Some(Whole(false, 64))
    else if name == "float" then Some(Fraction(64))
    else
      match (Sized(name, "int"), Sized(name, "uint"), Sized(name, "float"))
      case (Some(bits), _, _) => Some(Whole(true, bits))
      case (_, Some(bits), _) => Some(Whole(false, bits))
      case (_, _, Some(bits)) => Some(Fraction(bits))
      case _ => None
  }

  // The tokens that container names and leaf codecs are built from.
  function TokenMeaning(token: string): Option<Numeric> {
    if token == "Bool" then Some(Truth)
    else
      match (Sized(token, "I"), Sized(token, "U"), Sized(token, "F"))
      case (Some(bits), _, _) => Some(Whole(true, bits))
      case (_, Some(bits), _) => Some(Whole(false, bits))
      case (_, _, Some(bits)) => Some(Fraction(bits))
      case _ => None
  }

  lemma Widths()
    ensures Numeral("8") == Some(8) && Numeral("16") == Some(16) && Numeral("32") == Some(32)
    ensures Numeral("64") == Some(64)
  {
    assert Value("") == 0;
    assert "16"[..1] == "1" && "32"[..1] == "3" && "64"[..1] == "6";
    assert "8"[..0] == "" && "1"[..0] == "" && "3"[..0] == "" && "6"[..0] == "";
  }

  // ---------------------------------------------------------------------------------------
  // The table of the source
  // ---------------------------------------------------------------------------------------

  // `scalarKind`
  function ScalarKind(name: string): Option<Scalar> {
    if name == "bool" then Some(SBool)
    else if name == "int8" then Some(I8)
    else if name == "int16" then Some(I16)
    else if name == "int32" then Some(I32)
    else if name == "int" || name == "int64" then Some(I64)
    else if name == "uint8" || name == "byte" then Some(U8)
    else if name == "uint16" then Some(U16)
    else if name == "uint32" then Some(U32)
    else if name == "uint" || name == "uint64" then Some(U64)
    else if name == "float32" then Some(F32)
    else if name == "float" || name == "float64" then Some(F64)
    else None
  }

  // What the generator has a C type for.
  predicate Offered(m: Numeric) {
    match m
    case Truth => true
    case Whole(_, bits) => bits == 8 || bits == 16 || bits == 32 || bits == 64
    case Fraction(bits) => bits == 32 || bits == 64
  }

  // A prefix and a width are read as such, whatever the width.
  lemma PrefixAndWidth(prefix: string, width: string)
    ensures StartsWith(prefix + width, prefix) && Sized(prefix + width, prefix) == Numeral(width)
  {
    assert (prefix + width)[..|prefix|] == prefix && (prefix + width)[|prefix|..] == width;
  }

  lemma CWhole(stem: string)
    requires stem != [] && (stem[0] == 'i' || stem[0] == 'u')
    ensures CMeaning(stem + "_t") ==
              match (Sized(stem, "int"), Sized(stem, "uint"))
              case (Some(bits), _) => Some(Whole(true, bits))
              case (_, Some(bits)) => Some(Whole(false, bits))
              case _ => None
  {
    var name := stem + "_t";
    assert name[|name| - 2..] == "_t" && name[..|name| - 2] == stem;
    assert name[0] == stem[0];
    hide Sized;
  }

  lemma Signed(width: string)
    requires Numeral(width).Some?
    ensures var m := Some(Whole(true, Numeral(width).value));
            CMeaning("int" + width + "_t") == NimMeaning("int" + width) == TokenMeaning("I" + width) == m
  {
    hide Numeral;
    PrefixAndWidth("int", width);
    PrefixAndWidth("I", width);
    CWhole("int" + width);
    assert ("int" + width)[0] == 'i' && ("I" + width)[0] == 'I';
    assert |width| > 0 by { NumeralIsLong(width); }
  }

  lemma Unsigned(width: string)
    requires Numeral(width).Some?
    ensures var m := Some(Whole(false, Numeral(width).value));
            CMeaning("uint" + width + "_t") == NimMeaning("uint" + width) == TokenMeaning("U" + width) == m
  {
    hide Numeral;
    PrefixAndWidth("uint", width);
    PrefixAndWidth("U", width);
    CWhole("uint" + width);
    assert ("uint" + width)[0] == 'u' && ("U" + width)[0] == 'U';
    assert |width| > 0 by { NumeralIsLong(width); }
  }

  lemma Floating(width: string)
    requires Numeral(width).Some?
    ensures var m := Some(Fraction(Numeral(width).value));
            NimMeaning("float" + width) == TokenMeaning("F" + width) == m
  {
    hide Numeral;
    PrefixAndWidth("float", width);
    PrefixAndWidth("F", width);
    assert ("float" + width)[0] == 'f' && ("F" + width)[0] == 'F';
    assert |width| > 0 by { NumeralIsLong(width); }
  }

  lemma NumeralIsLong(width: string)
    requires Numeral(width).Some?
    ensures width != []
  {
  }

  predicate IsSigned(k: Scalar) {
    k.I8? || k.I16? || k.I32? || k.I64?
  }

  predicate IsUnsigned(k: Scalar) {
    k.U8? || k.U16? || k.U32? || k.U64?
  }

  function Width(k: Scalar): string {
    match k
    case I8 => "8"
    case I16 => "16"
    case I32 => "32"
    case I64 => "64"
    case U8 => "8"
    case U16 => "16"
    case U32 => "32"
    case U64 => "64"
    case F32 => "32"
    case F64 => "64"
    case SBool => ""
  }

  // How the names of a scalar are put together.
  lemma SignedNames(k: Scalar)
    requires IsSigned(k)
    ensures ScalarC(k) == "int" + Width(k) + "_t" && LeafToken(ScalarC(k)) == "I" + Width(k)
  {
    assert "int" + "8" == "int8" && "int" + "16" == "int16" && "int" + "32" == "int32" && "int" + "64" == "int64";
  }

  lemma UnsignedNames(k: Scalar)
    requires IsUnsigned(k)
    ensures ScalarC(k) == "uint" + Width(k) + "_t" && LeafToken(ScalarC(k)) == "U" + Width(k)
  {
    assert "uint" + "8" == "uint8" && "uint" + "16" == "uint16" && "uint" + "32" == "uint32"
          && "uint" + "64" == "uint64";
  }

  // What a scalar holds, by the width in its names.
  function Meaning(k: Scalar): Option<Numeric> {
    if k.SBool? then Some(Truth)
    else match Numeral(Width(k))
         case None => None
         case Some(bits) => Some(if IsSigned(k) then Whole(true, bits) else if IsUnsigned(k) then Whole(false, bits)
                                 else Fraction(bits))
  }

  // A C name and its token mean the same.
  lemma CNameMeans(k: Scalar)
    ensures CMeaning(ScalarC(k)) == TokenMeaning(LeafToken(ScalarC(k))) == Meaning(k)
    ensures Meaning(k).Some? && Offered(Meaning(k).value)
  {
    Widths();
    hide Numeral;
    if IsSigned(k) {
      SignedNames(k);
      hide CMeaning, TokenMeaning, ScalarC, LeafToken;
      Signed(Width(k));
    } else if IsUnsigned(k) {
      UnsignedNames(k);
      hide CMeaning, TokenMeaning, ScalarC, LeafToken;
      Unsigned(Width(k));
    } else if !k.SBool? {
      assert LeafToken(ScalarC(k)) == "F" + Width(k);
      hide TokenMeaning, LeafToken;
      Floating(Width(k));
    }
  }

  lemma {:induction false} LongIsLarge(s: string)
    requires s != [] && s[0] != '0' && forall i :: 0 <= i < |s| ==> IsDigit(s[i])
    ensures Value(s) >= 1 && (|s| >= 2 ==> Value(s) >= 10) && (|s| >= 3 ==> Value(s) >= 100)
  {
    assert IsDigit(s[|s| - 1]) && IsDigit(s[0]);
    if |s| > 1 {
      LongIsLarge(s[..|s| - 1]);
    } else {
      assert s[..0] == "";
    }
  }

  // A width of at most two digits is written in one way.
  lemma OneNumeral(s: string, t: string)
    requires Numeral(s).Some? && Numeral(s) == Numeral(t) && |t| <= 2
    ensures s == t
  {
    LongIsLarge(s);
    LongIsLarge(t);
    assert |s| <= 2 by { if |t| <= 2 { SmallValue(t); } }
    TwoDigits(s);
    TwoDigits(t);
  }

  lemma SmallValue(t: string)
    requires 1 <= |t| <= 2 && forall i :: 0 <= i < |t| ==> IsDigit(t[i])
    ensures Value(t) < 100 && (|t| == 1 ==> Value(t) < 10)
  {
    TwoDigits(t);
    assert IsDigit(t[0]) && IsDigit(t[|t| - 1]);
  }

  lemma TwoDigits(t: string)
    requires 1 <= |t| <= 2 && forall i :: 0 <= i < |t| ==> IsDigit(t[i])
    ensures Value(t) == if |t| == 1 then t[0] as int - '0' as int
                        else 10 * (t[0] as int - '0' as int) + (t[1] as int - '0' as int)
    ensures |t| == 1 ==> Value(t) < 10
  {
    assert IsDigit(t[0]) && IsDigit(t[|t| - 1]);
    assert t[..1][..0] == "" && t[..0] == "";
    assert Value("") == 0;
  }

  lemma NimMeans(name: string)
    requires ScalarKind(name).Some?
    ensures NimMeaning(name) == Meaning(ScalarKind(name).value)
  {
    Widths();
    hide Numeral;
    var k := ScalarKind(name).value;
    if IsSigned(k) && name != "int" {
      assert name == "int" + Width(k);
      Signed(Width(k));
    } else if IsUnsigned(k) && name != "uint" && name != "byte" {
      assert name == "uint" + Width(k);
      Unsigned(Width(k));
    } else if !k.SBool? && !IsSigned(k) && !IsUnsigned(k) && name != "float" {
      assert name == "float" + Width(k);
      Floating(Width(k));
    }
  }

  // A sized name is the prefix and the one numeral of its width.
  lemma SizedName(name: string, prefix: string, width: string)
    requires Sized(name, prefix).Some? && Sized(name, prefix) == Numeral(width) && |width| <= 2
    ensures name == prefix + width
  {
    OneNumeral(name[|prefix|..], width);
  }

  lemma NoOtherName(name: string)
    requires NimMeaning(name).Some? && Offered(NimMeaning(name).value)
    ensures ScalarKind(name).Some?
  {
    Widths();
    hide Numeral;
    var m := NimMeaning(name).value;
    if ScalarKind(name) == None {
      var prefix := if m.Fraction? then "float" else if m.signed then "int" else "uint";
      var width := if m.bits == 8 then "8" else if m.bits == 16 then "16" else if m.bits == 32 then "32" else "64";
      assert Sized(name, prefix) == Some(m.bits);
      SizedName(name, prefix, width);
      assert false;
    }
  }

  /** The scalars of the source: a Nim type name is taken for a scalar if and only if it means a
      number or a truth value that the generator has a C type for, and then the C type and the
      token it is given mean the same. */
  lemma ScalarsKeepMeaning(name: string)
    ensures ScalarKind(name).Some? <==> NimMeaning(name).Some? && Offered(NimMeaning(name).value)
    ensures ScalarKind(name).Some? ==>
              var k := ScalarKind(name).value;
              NimMeaning(name) == CMeaning(ScalarC(k)) == TokenMeaning(LeafToken(ScalarC(k)))
  {
    if ScalarKind(name).Some? {
      CNameMeans(ScalarKind(name).value);
      NimMeans(name);
    } else if NimMeaning(name).Some? && Offered(NimMeaning(name).value) {
      NoOtherName(name);
    }
  }

  // ---------------------------------------------------------------------------------------
  // The values
  // ---------------------------------------------------------------------------------------

  function Pow2(n: nat): int {
    if n == 0 then 1 else 2 * Pow2(n - 1)
  }

  // Which numbers a C integer of that meaning holds, in two's complement.
  predicate Holds(m: Numeric, n: int) {
    match m
    case Whole(signed, bits) =>
      if signed then bits > 0 && -Pow2(bits - 1) <= n < Pow2(bits - 1) else 0 <= n < Pow2(bits)
    case _ => false
  }

  // The leaf codec that a scalar goes through.
  function Wire(k: Scalar): Codec.Ty {
    match k
    case SBool => Codec.Bool
    case I8 => Codec.Int(true, Codec.W8)
    case I16 => Codec.Int(true, Codec.W16)
    case I32 => Codec.Int(true, Codec.W32)
    case I64 => Codec.Int(true, Codec.W64)
    case U8 => Codec.Int(false, Codec.W8)
    case U16 => Codec.Int(false, Codec.W16)
    case U32 => Codec.Int(false, Codec.W32)
    case U64 => Codec.Int(false, Codec.W64)
    case F32 => Codec.Real(false)
    case F64 => Codec.Real(true)
  }

  lemma Powers()
    ensures Pow2(7) == 0x80 && Pow2(8) == 0x100 && Pow2(15) == 0x8000 && Pow2(16) == 0x1_0000
    ensures Pow2(31) == 0x8000_0000 && Pow2(32) == 0x1_0000_0000
    ensures Pow2(63) == 0x8000_0000_0000_0000 && Pow2(64) == 0x1_0000_0000_0000_0000
  {
    PowerSum(8, 8);
    PowerSum(16, 16);
    PowerSum(32, 32);
  }

  lemma {:induction false} PowerSum(m: nat, n: nat)
    ensures Pow2(m + n) == Pow2(m) * Pow2(n)
  {
    if n > 0 { PowerSum(m, n - 1); }
  }

  /** The C type of a scalar holds exactly the numbers that its leaf codec lets through, so a field
      is declared neither narrower nor wider than what is decoded into it. */
  lemma FieldHoldsItsValues(k: Scalar, n: int)
    ensures CMeaning(ScalarC(k)).Some?
    ensures var m := CMeaning(ScalarC(k)).value;
            && (Holds(m, n) <==> Codec.Typed(Wire(k), Codec.VInt(n)))
            && (m == Truth <==> Wire(k) == Codec.Bool)
            && (m == Fraction(32) <==> Wire(k) == Codec.Real(false))
            && (m == Fraction(64) <==> Wire(k) == Codec.Real(true))
  {
    CNameMeans(k);
    Widths();
    Powers();
    hide CMeaning, ScalarC, Numeral, Pow2;
  }
}

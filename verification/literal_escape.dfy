/** Literal rendering of constants, and the C and Rust readers of what it renders. */
module LiteralEscape {
  import opened Wrappers

  datatype Language = C | Rust

  // Strings are byte strings: Nim characters are 0 to 255.
  predicate IsBytes(s: string) {
    forall i :: 0 <= i < |s| ==> s[i] as int < 256
  }

  const DEL: char := 127 as char

  // ---------------------------------------------------------------------------------------
  // escapeLit
  // ---------------------------------------------------------------------------------------

  function OctDigit(n: int): char
    requires 0 <= n < 8
  {
    (48 + n) as char
  }

  function HexDigit(n: int): char
    requires 0 <= n < 16
  {
    if n < 10 then (48 + n) as char else (55 + n) as char
  }

  // Three octal digits, or `x` and two hexadecimal ones.
  function ByteEscape(lang: Language, ch: char): string
    requires ch as int < 256
  {
    var n := ch as int;
    match lang
    case C => ['\\', OctDigit(n / 64), OctDigit(n / 8 % 8), OctDigit(n % 8)]
    case Rust => ['\\', 'x', HexDigit(n / 16), HexDigit(n % 16)]
  }

  function EscapeChar(lang: Language, ch: char): string
    requires ch as int < 256
  {
    if ch == '"' then "\\\""
    else if ch == '\\' then "\\\\"
    else if ch == '\n' then "\\n"
    else if ch == '\r' then "\\r"
    else if ch == '\t' then "\\t"
    else if ch < ' ' || ch == DEL then ByteEscape(lang, ch)
    else [ch]
  }

  function Escape(lang: Language, s: string): string
    requires IsBytes(s)
  {
    if s == "" then "" else EscapeChar(lang, s[0]) + Escape(lang, s[1..])
  }

  lemma {:induction false} EscapePush(lang: Language, s: string, ch: char)
    requires IsBytes(s) && ch as int < 256
    ensures Escape(lang, s + [ch]) == Escape(lang, s) + EscapeChar(lang, ch)
  {
    if s == "" {
      assert s + [ch] == [ch] && [ch][1..] == "";
    } else {
      EscapePush(lang, s[1..], ch);
      assert (s + [ch])[1..] == s[1..] + [ch];
    }
  }

  method EscapeLit(lang: Language, s: string) returns (escaped: string)
    requires IsBytes(s)
    ensures escaped == Escape(lang, s)
  {
    escaped := "";
    for i := 0 to |s|
      invariant escaped == Escape(lang, s[..i])
    {
      var ch := s[i];
      EscapePush(lang, s[..i], ch);
      assert s[..i] + [ch] == s[..i + 1];
      if ch == '"' {
        escaped := escaped + "\\\"";
      } else if ch == '\\' {
        escaped := escaped + "\\\\";
      } else if ch == '\n' {
        escaped := escaped + "\\n";
      } else if ch == '\r' {
        escaped := escaped + "\\r";
      } else if ch == '\t' {
        escaped := escaped + "\\t";
      } else if ch < ' ' || ch == DEL {
        escaped := escaped + ByteEscape(lang, ch);
      } else {
        escaped := escaped + [ch];
      }
    }
    assert s[..|s|] == s;
  }

  // ---------------------------------------------------------------------------------------
  // Readers
  // ---------------------------------------------------------------------------------------

  predicate IsOct(c: char) {
    '0' <= c <= '7'
  }

  function OctValue(c: char): int
    requires IsOct(c)
  {
    c as int - 48
  }

  // An octal escape takes as many octal digits as follow, at most three.
  function OctRun(s: string): (n: nat)
    ensures n <= 3 && n <= |s| && forall i :: 0 <= i < n ==> IsOct(s[i])
  {
    if |s| == 0 || !IsOct(s[0]) then 0
    else if |s| == 1 || !IsOct(s[1]) then 1
    else if |s| == 2 || !IsOct(s[2]) then 2
    else 3
  }

  function OctNumber(s: string, n: nat): int
    requires n <= |s| && forall i :: 0 <= i < n ==> IsOct(s[i])
  {
    if n == 0 then 0 else OctNumber(s, n - 1) * 8 + OctValue(s[n - 1])
  }

  predicate IsHex(c: char) {
    '0' <= c <= '9' || 'A' <= c <= 'F' || 'a' <= c <= 'f'
  }

  function HexValue(c: char): int
    requires IsHex(c)
  {
    if c <= '9' then c as int - 48 else if c <= 'F' then c as int - 55 else c as int - 87
  }

  function Simple(c: char): Option<char> {
    if c == '"' then Some('"')
    else if c == '\\' then Some('\\')
    else if c == 'n' then Some('\n')
    else if c == 'r' then Some('\r')
    else if c == 't' then Some('\t')
    else None
  }

  // One escape sequence after its backslash: the byte it stands for, and its length.
  function ReadEscape(lang: Language, s: string): (r: Option<(char, nat)>)
    ensures r.Some? ==> 0 < r.value.1 <= |s|
  {
    if s == "" then None
    else if Simple(s[0]).Some? then Some((Simple(s[0]).value, 1))
    else match lang
      case C =>
        var n := OctRun(s);
        if n == 0 || OctNumber(s, n) < 0 || OctNumber(s, n) > 255 then None else Some((OctNumber(s, n) as char, n))
      case Rust =>
        if s[0] != 'x' || |s| < 3 || !IsHex(s[1]) || !IsHex(s[2]) then None
        else
          var v := HexValue(s[1]) * 16 + HexValue(s[2]);
          if v > 127 then None else Some((v as char, 3))
  }

  // What cannot stand in a literal as it is. Rust refuses a bare carriage return too.
  predicate EndsLit(lang: Language, ch: char) {
    ch == '"' || ch == '\n' || (lang == Rust && ch == '\r')
  }

  /** The body of a string literal read by the rules of the language: section 6.4.4.4 of
      ISO/IEC 9899:1999 for C (trigraphs aside), byte escapes up to 7F for Rust. A bare quote or
      line end is no literal. */
  function ReadLit(lang: Language, s: string): Option<string>
    decreases |s|
  {
    if s == "" then Some("")
    else if EndsLit(lang, s[0]) then None
    else if s[0] != '\\' then
      (match ReadLit(lang, s[1..])
       case None => None
       case Some(rest) => Some([s[0]] + rest))
    else match ReadEscape(lang, s[1..])
      case None => None
      case Some((ch, n)) =>
        match ReadLit(lang, s[1 + n..])
        case None => None
        case Some(rest) => Some([ch] + rest)
  }

  // ---------------------------------------------------------------------------------------
  // Round trip
  // ---------------------------------------------------------------------------------------

  lemma OctalReadsBack(ch: char, rest: string)
    requires ch as int < 256 && (ch < ' ' || ch == DEL)
    ensures ReadEscape(C, ByteEscape(C, ch)[1..] + rest) == Some((ch, 3))
  {
    var n := ch as int;
    var s := ByteEscape(C, ch)[1..] + rest;
    assert s[0] == OctDigit(n / 64) && s[1] == OctDigit(n / 8 % 8) && s[2] == OctDigit(n % 8);
    assert OctNumber(s, 1) == OctNumber(s, 0) * 8 + n / 64;
    assert OctNumber(s, 2) == OctNumber(s, 1) * 8 + n / 8 % 8;
    assert OctNumber(s, 3) == OctNumber(s, 2) * 8 + n % 8;
  }

  lemma HexReadsBack(ch: char, rest: string)
    requires ch as int < 256 && (ch < ' ' || ch == DEL)
    ensures ReadEscape(Rust, ByteEscape(Rust, ch)[1..] + rest) == Some((ch, 3))
  {
    var n := ch as int;
    var s := ByteEscape(Rust, ch)[1..] + rest;
    assert s[0] == 'x' && s[1] == HexDigit(n / 16) && s[2] == HexDigit(n % 16);
  }

  // Whatever follows a rendered character, the reader takes that character and stops there.
  lemma CharReadsBack(lang: Language, ch: char, rest: string)
    requires ch as int < 256
    ensures ReadLit(lang, EscapeChar(lang, ch) + rest) ==
              match ReadLit(lang, rest)
              case None => None
              case Some(tail) => Some([ch] + tail)
  {
    var e := EscapeChar(lang, ch);
    var s := e + rest;
    if e == [ch] {
      assert s[1..] == rest;
    } else if ch != '\n' && ch != '\r' && ch != '\t' && (ch < ' ' || ch == DEL) {
      if lang == C { OctalReadsBack(ch, rest); } else { HexReadsBack(ch, rest); }
      assert s[1..] == ByteEscape(lang, ch)[1..] + rest && s[4..] == rest;
    } else {
      assert |e| == 2 && s[0] == '\\' && s[1] == e[1] && s[2..] == rest;
      assert s[1..][0] == e[1];
    }
  }

  /** Reading a rendered constant gives back its bytes, all of them, whatever they are: no
      escape swallows a digit that follows it. */
  lemma {:induction false} EscapeReadsBack(lang: Language, s: string)
    requires IsBytes(s)
    ensures ReadLit(lang, Escape(lang, s)) == Some(s)
  {
    if s != "" {
      EscapeReadsBack(lang, s[1..]);
      CharReadsBack(lang, s[0], Escape(lang, s[1..]));
      assert Escape(lang, s) == EscapeChar(lang, s[0]) + Escape(lang, s[1..]);
      assert [s[0]] + s[1..] == s;
    }
  }

  // ---------------------------------------------------------------------------------------
  // Text pasted into a literal as it is
  // ---------------------------------------------------------------------------------------

  predicate NeedsEscape(lang: Language, ch: char) {
    ch == '\\' || EndsLit(lang, ch)
  }

  // An escape is longer than what it stands for.
  lemma {:induction false} EscapesShrink(lang: Language, s: string)
    requires ReadLit(lang, s).Some?
    ensures |ReadLit(lang, s).value| <= |s|
    ensures |ReadLit(lang, s).value| == |s| ==> forall i :: 0 <= i < |s| ==> !NeedsEscape(lang, s[i])
    decreases |s|
  {
    if s != "" {
      if s[0] != '\\' {
        EscapesShrink(lang, s[1..]);
        assert forall i :: 1 <= i < |s| ==> s[i] == s[1..][i - 1];
      } else {
        EscapesShrink(lang, s[1 + ReadEscape(lang, s[1..]).value.1..]);
      }
    }
  }

  /** The wire names of an enum are pasted between quotes without `escapeLit`. The compiler reads
      back the same name if and only if nothing in it needed an escape. */
  lemma {:induction false} RawReadsBackIff(lang: Language, s: string)
    ensures ReadLit(lang, s) == Some(s) <==> forall i :: 0 <= i < |s| ==> !NeedsEscape(lang, s[i])
  {
    if ReadLit(lang, s) == Some(s) { EscapesShrink(lang, s); }
    if s != "" {
      RawReadsBackIff(lang, s[1..]);
      assert [s[0]] + s[1..] == s;
    }
  }
}

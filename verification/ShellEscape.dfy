/** Quoting of strings for Bash (helpers/shell_escape.go), against a reader of
    shell words that follows the Bash Reference Manual. */
module ShellEscape {

  import opened Base

  const TAB: byte := 9
  const LF: byte := 10
  const CR: byte := 13
  const US: byte := 31
  const AMPERSAND: byte := 38
  const SINGLE_QUOTE: byte := 39
  const PLUS: byte := 43
  const NINE: byte := 57
  const QUESTION: byte := 63
  /** The program calls this LOWERCASE_Z, but 90 is the upper-case letter. */
  const UPPERCASE_Z: byte := 90
  const OPEN_BRACKET: byte := 91
  const BACKSLASH: byte := 92
  const CLOSE_BRACKET: byte := 93
  const UNDERSCORE: byte := 95
  const BACKTICK: byte := 96
  const TILDE: byte := 126
  const DOLLAR: byte := 36

  // ----- The program -----

  function HexDigit(n: byte): byte
    requires n < 16
  {
    if n < 10 then 48 + n else 87 + n
  }

  function Hex(c: byte): seq<byte> {
    [BACKSLASH, 120, HexDigit(c / 16), HexDigit(c % 16)]
  }

  /** The bytes written for one input byte, and whether writing them turned the
      escape flag on. */
  function EscapeByte(c: byte): (seq<byte>, bool) {
    if c == TAB then ([BACKSLASH, 116], true)
    else if c == LF then ([BACKSLASH, 110], true)
    else if c == CR then ([BACKSLASH, 114], true)
    else if c <= US then (Hex(c), true)
    else if c <= AMPERSAND then ([c], true)
    else if c == SINGLE_QUOTE then ([BACKSLASH, c], true)
    else if c <= PLUS then ([c], true)
    else if c <= NINE then ([c], false)
    else if c <= QUESTION then ([c], true)
    else if c <= UPPERCASE_Z then ([c], false)
    else if c == OPEN_BRACKET then ([c], true)
    else if c == BACKSLASH then ([BACKSLASH, c], true)
    else if c <= CLOSE_BRACKET then ([c], true)
    else if c == UNDERSCORE then ([c], false)
    else if c <= BACKTICK then ([c], true)
    else if c <= TILDE then ([c], true)
    else (Hex(c), true)
  }

  function Body(s: seq<byte>): seq<byte> {
    if s == [] then [] else EscapeByte(s[0]).0 + Body(s[1..])
  }

  predicate Flagged(s: seq<byte>) {
    exists i :: 0 <= i < |s| && EscapeByte(s[i]).1
  }

  function Escape(s: seq<byte>): seq<byte> {
    if s == [] then [SINGLE_QUOTE, SINGLE_QUOTE]
    else if Flagged(s) then [DOLLAR, SINGLE_QUOTE] + Body(s) + [SINGLE_QUOTE]
    else Body(s)
  }

  lemma {:induction false} BodyAppend(s: seq<byte>, c: byte)
    ensures Body(s + [c]) == Body(s) + EscapeByte(c).0
  {
    if s == [] {
      assert s + [c] == [c];
      assert Body([c]) == EscapeByte(c).0 + Body([]);
    } else {
      assert (s + [c])[1..] == s[1..] + [c];
      BodyAppend(s[1..], c);
    }
  }

  /** The loop of the program: one output buffer, one escape flag. */
  method ShellEscape(str: seq<byte>) returns (outStr: seq<byte>)
    ensures outStr == Escape(str)
  {
    if str == [] {
      return [SINGLE_QUOTE, SINGLE_QUOTE];
    }
    var out: seq<byte> := [];
    var escape := false;
    var i := 0;
    while i < |str|
      invariant 0 <= i <= |str|
      invariant out == Body(str[..i])
      invariant escape <==> Flagged(str[..i])
    {
      var (text, flag) := EscapeByte(str[i]);
      BodyAppend(str[..i], str[i]);
      assert str[..i + 1] == str[..i] + [str[i]];
      assert Flagged(str[..i + 1]) <==> (Flagged(str[..i]) || flag) by {
        if flag {
          assert EscapeByte(str[..i + 1][i]).1;
        }
        if Flagged(str[..i]) {
          var k :| 0 <= k < i && EscapeByte(str[..i][k]).1;
          assert EscapeByte(str[..i + 1][k]).1;
        }
      }
      out := out + text;
      escape := escape || flag;
      i := i + 1;
    }
    assert str[..i] == str;
    outStr := if escape then [DOLLAR, SINGLE_QUOTE] + out + [SINGLE_QUOTE] else out;
  }

  // ----- The reader: Bash words -----

  function HexValue(c: byte): Option<byte> {
    if 48 <= c <= 57 then Some(c - 48)
    else if 97 <= c <= 102 then Some(c - 87)
    else if 65 <= c <= 70 then Some(c - 55)
    else None
  }

  predicate IsOctal(c: byte) {
    48 <= c <= 55
  }

  /** The single-character escapes of section 3.1.2.4. */
  function SimpleEscape(c: byte): Option<byte> {
    if c == 97 then Some(7)             // \a
    else if c == 98 then Some(8)        // \b
    else if c == 101 || c == 69 then Some(27) // \e \E
    else if c == 102 then Some(12)      // \f
    else if c == 110 then Some(10)      // \n
    else if c == 114 then Some(13)      // \r
    else if c == 116 then Some(9)       // \t
    else if c == 118 then Some(11)      // \v
    else if c == 92 || c == 39 || c == 34 || c == 63 then Some(c) // \\ \' \" \?
    else None
  }

  /** One unit of ANSI-C quoted text: the byte it stands for and the number of
      bytes it takes.  None for the Unicode forms and a dangling backslash. */
  function Unit(w: seq<byte>): (r: Option<(seq<byte>, nat)>)
    requires w != []
    ensures r.Some? ==> 0 < r.value.1 <= |w|
  {
    if w[0] != BACKSLASH then
      Some(([w[0]], 1))
    else if |w| == 1 then
      None
    else
      var c := w[1];
      if SimpleEscape(c).Some? then
        Some(([SimpleEscape(c).value], 2))
      else if IsOctal(c) then
        OctalUnit(w)
      else if c == 120 then
        HexUnit(w)
      else if c == 99 then
        if |w| == 2 then None else Some(([w[2] % 32], 3))
      else if c == 117 || c == 85 then
        None
      else
        Some(([BACKSLASH, c], 2))
  }

  /** One to three octal digits, taken modulo 256. */
  function OctalUnit(w: seq<byte>): (r: Option<(seq<byte>, nat)>)
    requires |w| >= 2 && IsOctal(w[1])
    ensures r.Some? && 2 <= r.value.1 <= |w|
  {
    var a := (w[1] - 48) as int;
    if |w| == 2 || !IsOctal(w[2]) then
      Some(([a as byte], 2))
    else
      var b := 8 * a + (w[2] - 48) as int;
      if |w| == 3 || !IsOctal(w[3]) then
        Some(([b as byte], 3))
      else
        Some((([((8 * b + (w[3] - 48) as int) % 256) as byte]), 4))
  }

  /** One or two hexadecimal digits; without any the two bytes stand for themselves. */
  function HexUnit(w: seq<byte>): (r: Option<(seq<byte>, nat)>)
    requires |w| >= 2
    ensures r.Some? && 2 <= r.value.1 <= |w|
  {
    if |w| == 2 || HexValue(w[2]).None? then
      Some(([BACKSLASH, w[1]], 2))
    else
      var a := HexValue(w[2]).value;
      if |w| == 3 || HexValue(w[3]).None? then
        Some(([a], 3))
      else
        Some(([16 * a + HexValue(w[3]).value], 4))
  }

  /** The text up to the closing quote, which must end the word. */
  function AnsiC(w: seq<byte>): Option<seq<byte>>
    decreases |w|
  {
    if w == [] then
      None
    else if w[0] == SINGLE_QUOTE then
      if |w| == 1 then Some([]) else None
    else
      match Unit(w)
      case None => None
      case Some((text, n)) =>
        match AnsiC(w[n..])
        case None => None
        case Some(rest) => Some(text + rest)
  }

  /** Bytes that mean themselves outside quotes wherever they stand in a word:
      digits, letters and , - . / @ _. */
  predicate PlainByte(c: byte) {
    44 <= c <= 57 || 64 <= c <= 90 || 97 <= c <= 122 || c == UNDERSCORE
  }

  /** Bash keeps words as C strings: a NUL ends them. */
  function CString(s: seq<byte>): seq<byte> {
    if s == [] || s[0] == 0 then [] else [s[0]] + CString(s[1..])
  }

  /** The string a word written as a bare, '...' or $'...' word denotes. */
  function ReadWord(w: seq<byte>): Option<seq<byte>> {
    if |w| >= 2 && w[0] == DOLLAR && w[1] == SINGLE_QUOTE then
      match AnsiC(w[2..])
      case None => None
      case Some(text) => Some(CString(text))
    else if |w| >= 2 && w[0] == SINGLE_QUOTE && w[|w| - 1] == SINGLE_QUOTE
            && SINGLE_QUOTE !in w[1..|w| - 1] then
      Some(CString(w[1..|w| - 1]))
    else if w != [] && forall i :: 0 <= i < |w| ==> PlainByte(w[i]) then
      Some(w)
    else
      None
  }

  // ----- Theorems -----

  lemma HexRoundTrip(c: byte)
    ensures HexValue(HexDigit(c / 16)) == Some(c / 16)
    ensures HexValue(HexDigit(c % 16)) == Some(c % 16)
    ensures 16 * (c / 16) + c % 16 == c
  {
  }

  /** Whatever follows, the bytes written for c are read as c and nothing more. */
  lemma UnitOfEscape(c: byte, rest: seq<byte>)
    ensures var e := EscapeByte(c).0;
            |e| > 0 && e[0] != SINGLE_QUOTE && Unit(e + rest) == Some(([c], |e|))
  {
    var e := EscapeByte(c).0;
    var w := e + rest;
    assert w[0] == e[0];
    if |e| == 4 {
      assert w[1] == e[1] && w[2] == e[2] && w[3] == e[3];
      HexRoundTrip(c);
    } else if |e| == 2 {
      assert w[1] == e[1];
    }
  }

  lemma {:induction false} AnsiCOfBody(s: seq<byte>)
    ensures AnsiC(Body(s) + [SINGLE_QUOTE]) == Some(s)
  {
    if s == [] {
      assert Body(s) + [SINGLE_QUOTE] == [SINGLE_QUOTE];
    } else {
      var e := EscapeByte(s[0]).0;
      var rest := Body(s[1..]) + [SINGLE_QUOTE];
      assert Body(s) + [SINGLE_QUOTE] == e + rest;
      UnitOfEscape(s[0], rest);
      AnsiCOfBody(s[1..]);
      assert (e + rest)[|e|..] == rest;
      assert [s[0]] + s[1..] == s;
    }
  }

  lemma {:induction false} BodyOfUnflagged(s: seq<byte>)
    requires !Flagged(s)
    ensures Body(s) == s
    ensures forall i :: 0 <= i < |s| ==> PlainByte(s[i])
  {
    if s != [] {
      assert !EscapeByte(s[0]).1;
      forall i | 0 <= i < |s[1..]|
        ensures !EscapeByte(s[1..][i]).1
      {
        assert s[1..][i] == s[i + 1];
      }
      BodyOfUnflagged(s[1..]);
      forall i | 0 <= i < |s|
        ensures PlainByte(s[i])
      {
        if i > 0 {
          assert s[i] == s[1..][i - 1];
        }
      }
      assert s == [s[0]] + s[1..];
    }
  }

  lemma {:induction false} CStringWithoutNul(s: seq<byte>)
    ensures 0 !in s ==> CString(s) == s
    ensures 0 in s ==> |CString(s)| < |s|
    ensures CString(s) <= s
  {
    if s != [] {
      CStringWithoutNul(s[1..]);
      assert s == [s[0]] + s[1..];
    }
  }

  lemma QuotedReadsBack(s: seq<byte>)
    requires s != [] && Flagged(s)
    ensures ReadWord(Escape(s)) == Some(CString(s))
  {
    var w := Escape(s);
    assert w[2..] == Body(s) + [SINGLE_QUOTE];
    AnsiCOfBody(s);
  }

  lemma BareReadsBack(s: seq<byte>)
    requires s != [] && !Flagged(s)
    ensures ReadWord(Escape(s)) == Some(CString(s))
  {
    BodyOfUnflagged(s);
    assert PlainByte(s[0]);
    assert 0 !in s;
    CStringWithoutNul(s);
  }

  /** Bash reads the escaped word as the original string up to its first NUL. */
  lemma EscapeReadsBack(s: seq<byte>)
    ensures ReadWord(Escape(s)) == Some(CString(s))
  {
    if s != [] {
      if Flagged(s) {
        QuotedReadsBack(s);
      } else {
        BareReadsBack(s);
      }
    }
  }

  /** The round trip holds for exactly the NUL-free strings. */
  lemma RoundTripIffNulFree(s: seq<byte>)
    ensures ReadWord(Escape(s)) == Some(s) <==> 0 !in s
  {
    EscapeReadsBack(s);
    CStringWithoutNul(s);
  }

  /** Distinct NUL-free strings get distinct words. */
  lemma EscapeInjective(s: seq<byte>, t: seq<byte>)
    requires 0 !in s && 0 !in t && Escape(s) == Escape(t)
    ensures s == t
  {
    RoundTripIffNulFree(s);
    RoundTripIffNulFree(t);
  }

  /** Bytes that never turn the escape flag on. */
  predicate LiteralByte(c: byte) {
    44 <= c <= 57 || 64 <= c <= UPPERCASE_Z || c == UNDERSCORE
  }

  lemma FlagOfByte(c: byte)
    ensures !EscapeByte(c).1 <==> LiteralByte(c)
    ensures PlainByte(c) <==> LiteralByte(c) || 97 <= c <= 122
  {
  }

  /** What is written for a byte: printable bytes stand for themselves, but for quote and
      backslash, which get a backslash; tab and line ends have their letters; all others
      their two hexadecimal digits. */
  lemma FormOfByte(c: byte)
    ensures var e := EscapeByte(c).0;
            if c == SINGLE_QUOTE || c == BACKSLASH then e == [BACKSLASH, c]
            else if 32 <= c <= 126 then e == [c]
            else if c == TAB then e == [BACKSLASH, 116]
            else if c == LF then e == [BACKSLASH, 110]
            else if c == CR then e == [BACKSLASH, 114]
            else |e| == 4 && e[..2] == [BACKSLASH, 120] &&
                 HexValue(e[2]) == Some(c / 16) && HexValue(e[3]) == Some(c % 16)
  {
    HexRoundTrip(c);
  }

  lemma {:induction false} BodyNotShorter(s: seq<byte>)
    ensures |Body(s)| >= |s|
  {
    if s != [] {
      BodyNotShorter(s[1..]);
    }
  }

  /** Exactly the non-empty strings of literal bytes are left as they are. */
  lemma LeftAsIsIff(s: seq<byte>)
    ensures Escape(s) == s <==> s != [] && forall i :: 0 <= i < |s| ==> LiteralByte(s[i])
  {
    forall i | 0 <= i < |s|
      ensures !EscapeByte(s[i]).1 <==> LiteralByte(s[i])
    {
      FlagOfByte(s[i]);
    }
    if Flagged(s) {
      BodyNotShorter(s);
    } else {
      BodyOfUnflagged(s);
    }
  }

  /** Of the strings that mean themselves to Bash without quotes, exactly those without
      a lower-case letter are left as they are. */
  lemma PlainLeftAsIsIff(s: seq<byte>)
    requires s != [] && forall i :: 0 <= i < |s| ==> PlainByte(s[i])
    ensures ReadWord(s) == Some(s)
    ensures Escape(s) == s <==> forall i :: 0 <= i < |s| ==> !(97 <= s[i] <= 122)
  {
    forall i | 0 <= i < |s|
      ensures LiteralByte(s[i]) <==> !(97 <= s[i] <= 122)
    {
      FlagOfByte(s[i]);
    }
    LeftAsIsIff(s);
    assert PlainByte(s[0]);
  }

  /** The letter a needs no quotes and gets them. */
  lemma LowerCaseIsQuoted()
    ensures PlainByte(97) && ReadWord([97]) == Some([97])
    ensures Escape([97]) == [DOLLAR, SINGLE_QUOTE, 97, SINGLE_QUOTE]
  {
    assert EscapeByte([97][0]).1;
    assert Body([97]) == [97] + Body([]);
  }

  predicate Printable(s: seq<byte>) {
    forall i :: 0 <= i < |s| ==> 32 <= s[i] <= 126
  }

  lemma {:induction false} BodyPrintable(s: seq<byte>)
    ensures Printable(Body(s))
  {
    if s != [] {
      assert Printable(EscapeByte(s[0]).0);
      BodyPrintable(s[1..]);
    }
  }

  /** The word is one line of printable ASCII, whatever the input bytes. */
  lemma EscapePrintable(s: seq<byte>)
    ensures Printable(Escape(s))
  {
    BodyPrintable(s);
  }
}

/**
 Rewriting JSON text to ASCII (asciiJSON and appendUnicodeEscape in internal/inspectreport/report.go):
 whatever a JSON string said before, it says after (section 7 of RFC 8259).
 */
module AsciiJson {
  import opened Common

  const BACKSLASH: Byte := 92
  const QUOTE: Byte := 34
  const LETTER_U: Byte := 117
  const DELETE: Byte := 127
  const REPLACEMENT := 0xFFFD

  // ---- Reading UTF-8 ----

  // The range the second byte must lie in, and the length, for each first byte above ASCII.
  function Lead(b: Byte): Option<(nat, int, int)> {
    if 0xC2 <= b <= 0xDF then Some((2, 0x80, 0xBF))
    else if b == 0xE0 then Some((3, 0xA0, 0xBF))
    else if b == 0xED then Some((3, 0x80, 0x9F))
    else if 0xE1 <= b <= 0xEF then Some((3, 0x80, 0xBF))
    else if b == 0xF0 then Some((4, 0x90, 0xBF))
    else if 0xF1 <= b <= 0xF3 then Some((4, 0x80, 0xBF))
    else if b == 0xF4 then Some((4, 0x80, 0x8F))
    else None
  }

  predicate Continues(b: Byte) { 0x80 <= b <= 0xBF }

  // The code point at the front of s and the bytes it takes; a malformed byte reads as U+FFFD.
  function DecodeRune(s: seq<Byte>): (r: (int, nat))
    requires s != [] && s[0] >= 0x80
    ensures 1 <= r.1 <= |s| && (0x80 <= r.0 < 0xD800 || 0xE000 <= r.0 <= 0x10FFFF)
  {
    var lead := Lead(s[0]);
    if lead.None? || |s| < lead.value.0 || !(lead.value.1 <= s[1] <= lead.value.2) then (REPLACEMENT, 1)
    else if lead.value.0 == 2 then (64 * (s[0] as int - 0xC0) + s[1] as int - 0x80, 2)
    else if !Continues(s[2]) then (REPLACEMENT, 1)
    else if lead.value.0 == 3 then (4096 * (s[0] as int - 0xE0) + 64 * (s[1] as int - 0x80) + s[2] as int - 0x80, 3)
    else if !Continues(s[3]) then (REPLACEMENT, 1)
    else (262144 * (s[0] as int - 0xF0) + 4096 * (s[1] as int - 0x80) + 64 * (s[2] as int - 0x80) + s[3] as int - 0x80,
        4)
  }

  // The bytes of a code point above ASCII.
  function Encode(v: int): seq<Byte>
    requires 0x80 <= v < 0xD800 || 0xE000 <= v <= 0x10FFFF
  {
    if v < 0x800 then [0xC0 + v / 64, 0x80 + v % 64]
    else if v < 0x10000 then [0xE0 + v / 4096, 0x80 + v / 64 % 64, 0x80 + v % 64]
    else [0xF0 + v / 262144, 0x80 + v / 4096 % 64, 0x80 + v / 64 % 64, 0x80 + v % 64]
  }

  lemma TwoBytesReadBack(v: int, s: seq<Byte>)
    requires 0x80 <= v < 0x800 && |s| >= 2 && s[0] == 0xC0 + v / 64 && s[1] == 0x80 + v % 64
    ensures s[0] >= 0x80 && DecodeRune(s) == (v, 2)
  {
  }

  lemma ThreeBytesReadBack(v: int, s: seq<Byte>)
    requires 0x800 <= v < 0xD800 || 0xE000 <= v < 0x10000
    requires |s| >= 3 && s[0] == 0xE0 + v / 4096 && s[1] == 0x80 + v / 64 % 64 && s[2] == 0x80 + v % 64
    ensures s[0] >= 0x80 && DecodeRune(s) == (v, 3)
  {
    Sextets(v);
  }

  lemma FourBytesReadBack(v: int, s: seq<Byte>)
    requires 0x10000 <= v <= 0x10FFFF
    requires |s| >= 4 && s[0] == 0xF0 + v / 262144 && s[1] == 0x80 + v / 4096 % 64 && s[2] == 0x80 + v / 64 % 64
              && s[3] == 0x80 + v % 64
    ensures s[0] >= 0x80 && DecodeRune(s) == (v, 4)
  {
    Sextets(v);
  }

  /** Every code point above ASCII is read back from its own encoding, whatever follows it. */
  lemma DecodeUndoesEncode(v: int, rest: seq<Byte>)
    requires 0x80 <= v < 0xD800 || 0xE000 <= v <= 0x10FFFF
    ensures var s := Encode(v) + rest; s[0] >= 0x80 && DecodeRune(s) == (v, |Encode(v)|)
  {
    hide DecodeRune;
    var s := Encode(v) + rest;
    assert forall i | 0 <= i < |Encode(v)| :: s[i] == Encode(v)[i];
    if v < 0x800 { TwoBytesReadBack(v, s); } else if v < 0x10000 { ThreeBytesReadBack(v, s); }
        else { FourBytesReadBack(v, s); }
  }

  // A number from its six-bit digits.
  lemma Sextets(v: nat)
    ensures v == 64 * (v / 64) + v % 64 && v == 4096 * (v / 4096) + 64 * (v / 64 % 64) + v % 64
    ensures v == 262144 * (v / 262144) + 4096 * (v / 4096 % 64) + 64 * (v / 64 % 64) + v % 64
  {
    var a := v / 64;
    var b := a / 64;
    assert v / 4096 == b && v / 262144 == b / 64;
    assert a == 64 * b + a % 64 && b == 64 * (b / 64) + b % 64;
  }

  // ---- Writing ----

  function HexDigit(n: int): Byte
    requires 0 <= n < 16
  { if n < 10 then 48 + n else 87 + n }

  function Escape(v: int): seq<Byte>
    requires 0 <= v <= 0xFFFF
  { [BACKSLASH, LETTER_U, HexDigit(v / 4096), HexDigit(v / 256 % 16), HexDigit(v / 16 % 16), HexDigit(v % 16)] }

  // A code point above ASCII as one escape or a surrogate pair.
  function Escapes(v: int): seq<Byte>
    requires 0 <= v <= 0x10FFFF
  {
    if v <= 0xFFFF then Escape(v)
    else Escape(0xD800 + (v - 0x10000) / 1024) + Escape(0xDC00 + (v - 0x10000) % 1024)
  }

  // What one step writes and how much it reads.
  function Rewrite(s: seq<Byte>): (r: (seq<Byte>, nat))
    requires s != []
    ensures 1 <= r.1 <= |s|
  {
    if s[0] < DELETE then ([s[0]], 1)
    else if s[0] == DELETE then (Escape(DELETE), 1)
    else var (v, size) := DecodeRune(s); (Escapes(v), size)
  }

  function Ascii(s: seq<Byte>): seq<Byte> {
    if s == [] then [] else var (out, size) := Rewrite(s); out + Ascii(s[size..])
  }

  /** asciiJSON's loop. */
  method Asciify(encoded: seq<Byte>) returns (output: seq<Byte>)
    ensures output == Ascii(encoded)
  {
    hide DecodeRune, Escape, Ascii;
    output := [];
    var rest: seq<Byte> := encoded;
    while rest != []
      invariant output + Ascii(rest) == Ascii(encoded)
      decreases |rest|
    {
      ghost var before, was := output, rest;
      AsciiUnfolds(was);
      if rest[0] < DELETE {
        output, rest := output + [rest[0]], rest[1..];
      } else if rest[0] == DELETE {
        output, rest := output + Escape(DELETE), rest[1..];
      } else {
        var (value, size) := DecodeRune(rest);
        rest := rest[size..];
        if value <= 0xFFFF {
          output := output + Escape(value);
        } else {
          var offset := value - 0x10000;
          output := output + Escape(0xD800 + offset / 1024);
          output := output + Escape(0xDC00 + offset % 1024);
          assert output == before + Escapes(value);
        }
      }
      assert before + (Rewrite(was).0 + Ascii(rest)) == output + Ascii(rest);
    }
    AsciiOfNothing();
  }

  lemma AsciiUnfolds(s: seq<Byte>)
    requires s != []
    ensures Ascii(s) == Rewrite(s).0 + Ascii(s[Rewrite(s).1..])
  {
  }

  lemma AsciiOfNothing()
    ensures Ascii([]) == []
  {
  }

  predicate Plain(s: seq<Byte>) { forall i | 0 <= i < |s| :: s[i] < DELETE }

  /** Nothing written reaches 0x7f. */
  lemma {:induction false} OutputIsAscii(s: seq<Byte>)
    ensures Plain(Ascii(s))
  {
    if s != [] {
      OutputIsAscii(s[Rewrite(s).1..]);
      RewriteIsAscii(s);
    }
  }

  lemma RewriteIsAscii(s: seq<Byte>)
    requires s != []
    ensures Plain(Rewrite(s).0)
  {
    hide DecodeRune;
  }

  // ---- What a JSON string body means ----

  function HexValue(b: Byte): Option<int> {
    if 48 <= b <= 57 then Some(b - 48)
    else if 97 <= b <= 102 then Some(b - 87)
    else if 65 <= b <= 70 then Some(b - 55)
    else None
  }

  // The unit a \u escape at the front of s names.
  function Unit(s: seq<Byte>): Option<int> {
    if |s| < 6 || s[0] != BACKSLASH || s[1] != LETTER_U
       || HexValue(s[2]).None? || HexValue(s[3]).None? || HexValue(s[4]).None? || HexValue(s[5]).None? then None
    else Some(4096 * HexValue(s[2]).value + 256 * HexValue(s[3]).value + 16 * HexValue(s[4]).value
        + HexValue(s[5]).value)
  }

  // The character a two-byte escape names.
  function Simple(b: Byte): Option<int> {
    if b in {34, 47, 92} then Some(b as int)
    else if b == 98 then Some(8) else if b == 102 then Some(12) else if b == 110 then Some(10)
    else if b == 114 then Some(13) else if b == 116 then Some(9) else None
  }

  predicate High(u: int) { 0xD800 <= u < 0xDC00 }
  predicate Low(u: int) { 0xDC00 <= u < 0xE000 }

  predicate LowFollows(s: seq<Byte>) { Unit(s).Some? && Low(Unit(s).value) }

  // The code point at the front of a string body, and its length: surrogate escapes pair up, a lone one
  // stands for itself. None where no string body can go on.
  function Character(s: seq<Byte>): (r: Option<(int, nat)>)
    requires s != []
    ensures r.Some? ==> 1 <= r.value.1 <= |s|
  {
    if s[0] >= 0x80 then Some(DecodeRune(s))
    else if s[0] < 0x20 || s[0] == QUOTE then None
    else if s[0] != BACKSLASH then Some((s[0] as int, 1))
    else if |s| < 2 then None
    else if s[1] != LETTER_U then (if Simple(s[1]).Some? then Some((Simple(s[1]).value, 2)) else None)
    else if Unit(s).None? then None
    else if High(Unit(s).value) && LowFollows(s[6..]) then
      Some((0x10000 + (Unit(s).value - 0xD800) * 1024 + Unit(s[6..]).value - 0xDC00, 12))
    else Some((Unit(s).value, 6))
  }

  /** The code points of a JSON string body, or None when it is not one. */
  function Meaning(s: seq<Byte>): Option<seq<int>> {
    if s == [] then Some([]) else
    var c := Character(s);
    if c.None? then None else
    var rest := Meaning(s[c.value.1..]);
    if rest.None? then None else Some([c.value.0] + rest.value)
  }

  // ---- The meaning is kept ----

  lemma EscapeReadsBack(v: int, rest: seq<Byte>)
    requires 0 <= v <= 0xFFFF
    ensures Unit(Escape(v) + rest) == Some(v) && (Escape(v) + rest)[6..] == rest && |Escape(v)| == 6
    ensures (Escape(v) + rest)[0] == BACKSLASH && (Escape(v) + rest)[1] == LETTER_U
  {
    hide HexDigit, HexValue;
    DigitReadsBack(v / 4096);
    DigitReadsBack(v / 256 % 16);
    DigitReadsBack(v / 16 % 16);
    DigitReadsBack(v % 16);
    Nibbles(v);
  }

  lemma DigitReadsBack(n: int)
    requires 0 <= n < 16
    ensures HexValue(HexDigit(n)) == Some(n)
  {
  }

  lemma Nibbles(v: int)
    requires 0 <= v <= 0xFFFF
    ensures v == 4096 * (v / 4096) + 256 * (v / 256 % 16) + 16 * (v / 16 % 16) + v % 16
  {
    assert v / 16 / 16 == v / 256;
    assert v / 256 / 16 == v / 4096;
  }

  lemma EscapesReadBack(v: int, rest: seq<Byte>)
    requires 0x7F <= v < 0xD800 || 0xE000 <= v <= 0x10FFFF
    ensures Character(Escapes(v) + rest) == Some((v, |Escapes(v)|)) && (Escapes(v) + rest)[|Escapes(v)|..] == rest
  {
    hide Unit, Escape, Simple;
    if v <= 0xFFFF {
      EscapeReadsBack(v, rest);
    } else {
      var hi, lo := 0xD800 + (v - 0x10000) / 1024, 0xDC00 + (v - 0x10000) % 1024;
      EscapeReadsBack(hi, Escape(lo) + rest);
      EscapeReadsBack(lo, rest);
      assert (Escape(hi) + Escape(lo)) + rest == Escape(hi) + (Escape(lo) + rest);
    }
  }

  lemma FirstUnit(v: int, rest: seq<Byte>)
    requires 0x7F <= v < 0xD800 || 0xE000 <= v <= 0x10FFFF
    ensures var s := Escapes(v) + rest;
            |s| >= 6 && s[0] == BACKSLASH && Unit(s).Some? && !Low(Unit(s).value)
  {
    hide Unit, Escape;
    if v <= 0xFFFF {
      EscapeReadsBack(v, rest);
    } else {
      var hi, lo := 0xD800 + (v - 0x10000) / 1024, 0xDC00 + (v - 0x10000) % 1024;
      EscapeReadsBack(hi, Escape(lo) + rest);
      assert (Escape(hi) + Escape(lo)) + rest == Escape(hi) + (Escape(lo) + rest);
    }
  }

  lemma CopyStep(s: seq<Byte>)
    requires s != [] && s[0] < DELETE
    ensures Ascii(s) == [s[0]] + Ascii(s[1..])
  {
  }

  lemma EscapeStep(s: seq<Byte>) returns (v: int, size: nat)
    requires s != [] && s[0] >= DELETE
    ensures Character(s) == Some((v, size)) && 1 <= size <= |s|
    ensures 0x7F <= v < 0xD800 || 0xE000 <= v <= 0x10FFFF
    ensures Ascii(s) == Escapes(v) + Ascii(s[size..])
  {
    hide DecodeRune, Escape, Unit;
    if s[0] == DELETE {
      v, size := DELETE as int, 1;
    } else {
      var rune := DecodeRune(s);
      v, size := rune.0, rune.1;
    }
    AsciiUnfolds(s);
  }

  // ASCII is copied as it stands.
  lemma {:induction false} AsciiIsCopied(s: seq<Byte>, n: nat)
    requires n <= |s| && Plain(s[..n])
    ensures Ascii(s) == s[..n] + Ascii(s[n..])
  {
    hide Ascii;
    if n > 0 {
      assert s[..n][0] == s[0];
      assert s[1..][..n - 1] == s[..n][1..];
      AsciiIsCopied(s[1..], n - 1);
      assert s[1..][n - 1..] == s[n..];
      assert s[..n] == [s[0]] + s[1..][..n - 1];
      CopyStep(s);
    } else {
      assert s[0..] == s;
    }
  }

  // The first byte that is not copied becomes an escape, and never a low surrogate's.
  lemma AsciiStarts(s: seq<Byte>)
    requires s != [] && s[0] >= DELETE
    ensures Ascii(s) != [] && Ascii(s)[0] == BACKSLASH && !LowFollows(Ascii(s))
  {
    hide Unit, Escapes, Ascii, Low;
    var v, size := EscapeStep(s);
    FirstUnit(v, Ascii(s[size..]));
  }

  // A backslash in the middle of it is no hex digit.
  lemma BrokenUnit(s: seq<Byte>, n: nat)
    requires 0 < n < 6 && n < |s| && s[n] >= DELETE
    ensures Unit(s).None?
  {
  }

  lemma BrokenOutput(s: seq<Byte>, n: nat)
    requires 0 < n < 6 && n < |s| && s[n] == BACKSLASH
    ensures Unit(s).None?
  {
  }

  /** Whether a low surrogate escape follows is the same before and after. */
  lemma LowFollowsIsKept(s: seq<Byte>)
    ensures LowFollows(Ascii(s)) <==> LowFollows(s)
  {
    hide Unit, Ascii, Low;
    var n := AsciiPrefix(s, 6);
    AsciiIsCopied(s, n);
    if n < 6 && n < |s| {
      AsciiStarts(s[n..]);
      if n > 0 {
        BrokenUnit(s, n);
        BrokenOutput(Ascii(s), n);
      } else {
        assert s[0..] == s;
        FrontIsNoUnit(s);
      }
    } else {
      SameFront(s, Ascii(s), n);
    }
  }

  lemma FrontIsNoUnit(s: seq<Byte>)
    requires s != [] && s[0] >= DELETE
    ensures Unit(s).None?
  {
  }

  lemma SameFront(s: seq<Byte>, out: seq<Byte>, n: nat)
    requires n <= |s| && (n == 6 || n == |s|) && out == s[..n] + Ascii(s[n..])
    ensures Unit(out) == Unit(s)
  {
    if n == |s| && n != 6 {
      AsciiOfNothing();
      assert s[n..] == [] && out == s;
    } else {
      assert forall i | 0 <= i < 6 :: out[i] == s[i];
    }
  }

  // The length of the ASCII run at the front, up to a bound.
  function AsciiPrefix(s: seq<Byte>, limit: nat): (n: nat)
    ensures n <= |s| && n <= limit
    ensures forall i | 0 <= i < n :: s[i] < DELETE
    ensures n < limit && n < |s| ==> s[n] >= DELETE
  {
    if limit == 0 || s == [] || s[0] >= DELETE then 0 else 1 + AsciiPrefix(s[1..], limit - 1)
  }

  lemma CharacterIsKept(s: seq<Byte>)
    requires s != [] && Character(s).Some?
    ensures Ascii(s) != [] && Character(Ascii(s)).Some? && Character(Ascii(s)).value.0 == Character(s).value.0
    ensures Ascii(s)[Character(Ascii(s)).value.1..] == Ascii(s[Character(s).value.1..])
  {
    hide Ascii, Escapes, DecodeRune, Unit, Simple, Low, High;
    if s[0] >= DELETE {
      var v, size := EscapeStep(s);
      EscapesReadBack(v, Ascii(s[size..]));
    } else {
      var size := Character(s).value.1;
      CopiedCharacter(s);
      AsciiIsCopied(s, size);
      assert Ascii(s)[size..] == Ascii(s[size..]);
      if size >= 6 {
        SameUnit(s, Ascii(s));
        if size == 12 { SameUnit(s[6..], Ascii(s)[6..]); } else { LowFollowsIsKept(s[6..]); }
      }
    }
  }

  lemma SameUnit(a: seq<Byte>, b: seq<Byte>)
    requires |a| >= 6 && |b| >= 6 && forall i | 0 <= i < 6 :: a[i] == b[i]
    ensures Unit(a) == Unit(b)
  {
  }

  lemma CopiedCharacter(s: seq<Byte>)
    requires s != [] && Character(s).Some? && s[0] < DELETE
    ensures Plain(s[..Character(s).value.1])
  {
    var size := Character(s).value.1;
    if size >= 6 {
      UnitIsAscii(s);
      if size == 12 {
        UnitIsAscii(s[6..]);
        assert s[..12] == s[..6] + s[6..][..6];
      }
    }
  }

  lemma UnitIsAscii(s: seq<Byte>)
    requires Unit(s).Some?
    ensures |s| >= 6 && Plain(s[..6])
  {
    assert s[..6] == [s[0], s[1], s[2], s[3], s[4], s[5]];
  }

  /** For every JSON string body, with malformed UTF-8 read as U+FFFD, the rewritten text is a string
      body with the same code points. */
  lemma {:induction false} MeaningIsKept(s: seq<Byte>)
    requires Meaning(s).Some?
    ensures Meaning(Ascii(s)) == Meaning(s)
  {
    hide Character, Rewrite;
    if s != [] {
      MeaningIsKept(s[Character(s).value.1..]);
      CharacterIsKept(s);
    } else {
      assert Ascii(s) == [];
    }
  }
}

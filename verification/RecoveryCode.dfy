/**
 The printed recovery code (encodeRecoveryCode and decodeRecoveryCode in
 internal/instanceaccess/recovery.go): 32 bytes as 52 lower-case base32 letters in groups of four,
 read back only from exactly that printing.
 */
module RecoveryCode {
  import opened Common

  type Symbol = n: int | 0 <= n < 32

  // ---- Positional digits, most significant first ----

  function Number256(b: seq<Byte>): nat {
    if b == [] then 0 else 256 * Number256(b[..|b| - 1]) + b[|b| - 1] as int
  }

  function Bytes(v: nat, n: nat): (b: seq<Byte>)
    ensures |b| == n
  {
    if n == 0 then [] else Bytes(v / 256, n - 1) + [v % 256]
  }

  function Number32(s: seq<Symbol>): nat {
    if s == [] then 0 else 32 * Number32(s[..|s| - 1]) + s[|s| - 1] as int
  }

  function Symbols(v: nat, n: nat): (s: seq<Symbol>)
    ensures |s| == n
  {
    if n == 0 then [] else Symbols(v / 32, n - 1) + [v % 32]
  }

  lemma {:induction false} BytesReadBack(b: seq<Byte>)
    ensures Bytes(Number256(b), |b|) == b
  {
    if b != [] {
      BytesReadBack(b[..|b| - 1]);
      assert Number256(b) / 256 == Number256(b[..|b| - 1]) && Number256(b) % 256 == b[|b| - 1] as int;
    }
  }

  function Power32(n: nat): nat { if n == 0 then 1 else 32 * Power32(n - 1) }
  function Power256(n: nat): nat { if n == 0 then 1 else 256 * Power256(n - 1) }

  lemma {:induction false} SymbolsReadBack(v: nat, n: nat)
    requires v < Power32(n)
    ensures Number32(Symbols(v, n)) == v
  {
    if n > 0 {
      SymbolsReadBack(v / 32, n - 1);
      assert Symbols(v, n)[..n - 1] == Symbols(v / 32, n - 1);
    }
  }

  lemma {:induction false} NumberIsBounded(b: seq<Byte>)
    ensures Number256(b) < Power256(|b|)
  {
    if b != [] {
      NumberIsBounded(b[..|b| - 1]);
    }
  }

  // ---- Base32, without padding ----

  // Symbols for a trailing group of one to four bytes, and the zero bits that fill its last symbol.
  function TailSymbols(n: nat): nat
    requires n < 5
  { if n == 0 then 0 else if n == 1 then 2 else if n == 2 then 4 else if n == 3 then 5 else 7 }

  function Fill(n: nat): nat
    requires n < 5
  { if n == 0 then 1 else if n == 1 then 4 else if n == 2 then 16 else if n == 3 then 2 else 8 }

  function Encode(b: seq<Byte>): seq<Symbol> {
    if |b| >= 5 then Symbols(Number256(b[..5]), 8) + Encode(b[5..])
    else Symbols(Number256(b) * Fill(|b|), TailSymbols(|b|))
  }

  function TailBytes(n: nat): Option<nat>
    requires n < 8
  {
    if n == 0 then Some(0) else if n == 2 then Some(1) else if n == 4 then Some(2)
    else if n == 5 then Some(3) else if n == 7 then Some(4) else None
  }

  // Decoding ignores what the fill bits hold.
  function Decode(s: seq<Symbol>): Option<seq<Byte>> {
    if |s| >= 8 then
      var rest := Decode(s[8..]);
      if rest.None? then None else Some(Bytes(Number32(s[..8]), 5) + rest.value)
    else
      var n := TailBytes(|s|);
      if n.None? then None else Some(Bytes(Number32(s) / Fill(n.value), n.value))
  }

  lemma Powers()
    ensures Power256(1) == 256 && Power256(2) == 65536 && Power256(3) == 16777216 && Power256(4) == 4294967296
              && Power256(5) == 1099511627776
    ensures Power32(2) == 1024 && Power32(4) == 1048576 && Power32(5) == 33554432 && Power32(7) == 34359738368
              && Power32(8) == 1099511627776
  {
    assert Power32(3) == 32768 && Power32(6) == 1073741824;
  }

  lemma FillComesOff(v: nat, n: nat)
    requires n < 5 && v < Power256(n)
    ensures v * Fill(n) < Power32(TailSymbols(n)) && v * Fill(n) / Fill(n) == v
  {
    Powers();
  }

  lemma TailReadsBack(b: seq<Byte>)
    requires |b| < 5
    ensures Decode(Encode(b)) == Some(b)
  {
    hide Number256, Number32, Symbols, Bytes, Fill;
    NumberIsBounded(b);
    FillComesOff(Number256(b), |b|);
    SymbolsReadBack(Number256(b) * Fill(|b|), TailSymbols(|b|));
    BytesReadBack(b);
  }

  lemma {:induction false} DecodeUndoesEncode(b: seq<Byte>)
    ensures Decode(Encode(b)) == Some(b)
  {
    if |b| < 5 {
      TailReadsBack(b);
    } else {
      Powers();
      NumberIsBounded(b[..5]);
      var group := Symbols(Number256(b[..5]), 8);
      SymbolsReadBack(Number256(b[..5]), 8);
      BytesReadBack(b[..5]);
      DecodeUndoesEncode(b[5..]);
      assert Encode(b)[..8] == group && Encode(b)[8..] == Encode(b[5..]);
      assert b == b[..5] + b[5..];
    }
  }

  // ---- Letters and groups ----

  function Letter(n: Symbol): char {
    if n < 26 then ('a' as int + n) as char else ('2' as int + n - 26) as char
  }

  // Reading is done on upper-case letters, so a lower-case letter is read as its capital.
  function Value(c: char): Option<Symbol> {
    if 'a' <= c <= 'z' then Some((c as int - 'a' as int) as Symbol)
    else if 'A' <= c <= 'Z' then Some((c as int - 'A' as int) as Symbol)
    else if '2' <= c <= '7' then Some((c as int - '2' as int + 26) as Symbol)
    else None
  }

  function Spell(s: seq<Symbol>): (t: string)
    ensures |t| == |s| && forall i | 0 <= i < |s| :: t[i] == Letter(s[i])
  {
    seq(|s|, i requires 0 <= i < |s| => Letter(s[i]))
  }

  function ReadLetters(t: string): Option<seq<Symbol>> {
    if t == [] then Some([]) else
    var rest := ReadLetters(t[1..]);
    if Value(t[0]).None? || rest.None? then None else Some([Value(t[0]).value] + rest.value)
  }

  // Groups of four joined by dashes.
  function Dashed(t: string): string {
    if |t| <= 4 then t else t[..4] + "-" + Dashed(t[4..])
  }

  function Undashed(t: string): string {
    if t == [] then [] else (if t[0] == '-' then [] else [t[0]]) + Undashed(t[1..])
  }

  function Print(raw: seq<Byte>): string { Dashed(Spell(Encode(raw))) }

  function Parse(code: string): Option<seq<Byte>> {
    if |code| != 64 then None else
    var symbols := ReadLetters(Undashed(code));
    if symbols.None? then None else
    var raw := Decode(symbols.value);
    if raw.None? || |raw.value| != 32 || Print(raw.value) != code then None else raw
  }

  /** encodeRecoveryCode's loop: peel off groups of four, then join them. */
  method PrintLoop(raw: seq<Byte>) returns (code: string)
    ensures code == Print(raw)
  {
    hide Dashed, Encode, Spell;
    var encoded := Spell(Encode(raw));
    code := [];
    var first := true;
    while encoded != []
      invariant first ==> code == []
      invariant Print(raw) == code + if first then Dashed(encoded) else Separated(encoded)
      decreases |encoded|
    {
      var n := if |encoded| < 4 then |encoded| else 4;
      OneGroup(encoded, n);
      Peel(first, code, encoded, n);
      code := code + (if first then [] else "-") + encoded[..n];
      encoded := encoded[n..];
      first := false;
    }
    NothingIsLeft();
  }

  // What follows a group: nothing, or a dash and the rest.
  function Separated(t: string): string { if t == [] then [] else "-" + Dashed(t) }

  lemma OneGroup(t: string, n: nat)
    requires t != [] && n == (if |t| < 4 then |t| else 4)
    ensures Dashed(t) == t[..n] + Separated(t[n..])
  {
    if |t| <= 4 { assert t[..n] == t; }
        else { assert t[..4] + "-" + Dashed(t[4..]) == t[..4] + ("-" + Dashed(t[4..])); }
  }

  lemma Peel(first: bool, code: string, t: string, n: nat)
    requires n <= |t| && t != [] && Dashed(t) == t[..n] + Separated(t[n..])
    ensures code + (if first then Dashed(t) else Separated(t)) ==
            code + (if first then [] else "-") + t[..n] + Separated(t[n..])
  {
    hide Dashed, Separated;
    assert Separated(t) == "-" + Dashed(t) by { DashFirst(t); }
    var dash := if first then [] else "-";
    assert (if first then Dashed(t) else Separated(t)) == dash + Dashed(t);
    Regroup(code, dash, t[..n], Separated(t[n..]));
  }

  lemma DashFirst(t: string)
    requires t != []
    ensures Separated(t) == "-" + Dashed(t)
  {
  }

  lemma Regroup(a: string, b: string, c: string, d: string)
    ensures a + (b + (c + d)) == a + b + c + d
  {
  }

  lemma NothingIsLeft()
    ensures Dashed([]) == []
  {
  }

  lemma {:induction false} LettersReadBack(s: seq<Symbol>)
    ensures ReadLetters(Spell(s)) == Some(s)
  {
    if s != [] {
      LettersReadBack(s[1..]);
      assert Spell(s)[1..] == Spell(s[1..]);
      assert Value(Letter(s[0])) == Some(s[0]);
      assert [s[0]] + s[1..] == s;
    } else {
      assert Spell(s) == [];
    }
  }

  predicate Plain(t: string) { forall i | 0 <= i < |t| :: t[i] != '-' }

  lemma {:induction false} UndashedConcat(a: string, b: string)
    ensures Undashed(a + b) == Undashed(a) + Undashed(b)
  {
    hide Undashed;
    if a == [] {
      assert a + b == b && Undashed(a) == [] by { NothingToUndash(); }
    } else {
      UndashedConcat(a[1..], b);
      UndashedUnfolds(a);
      UndashedUnfolds(a + b);
      assert (a + b)[1..] == a[1..] + b;
      var front: string := if a[0] == '-' then [] else [a[0]];
      assert front + (Undashed(a[1..]) + Undashed(b)) == (front + Undashed(a[1..])) + Undashed(b);
    }
  }

  lemma NothingToUndash()
    ensures Undashed([]) == []
  {
  }

  lemma UndashedUnfolds(t: string)
    requires t != []
    ensures Undashed(t) == (if t[0] == '-' then [] else [t[0]]) + Undashed(t[1..])
  {
  }

  lemma {:induction false} PlainIsUndashed(t: string)
    requires Plain(t)
    ensures Undashed(t) == t
  {
    if t != [] {
      PlainIsUndashed(t[1..]);
    }
  }

  lemma {:induction false} DashesComeOff(t: string)
    requires Plain(t)
    ensures Undashed(Dashed(t)) == t
    ensures |Dashed(t)| == |t| + (if |t| == 0 then 0 else (|t| - 1) / 4)
  {
    if |t| <= 4 {
      PlainIsUndashed(t);
    } else {
      PlainIsUndashed(t[..4]);
      DashesComeOff(t[4..]);
      UndashedConcat(t[..4] + "-", Dashed(t[4..]));
      UndashedConcat(t[..4], "-");
      assert Undashed("-") == [];
      assert t == t[..4] + t[4..];
    }
  }

  lemma {:induction false} EncodedLength(b: seq<Byte>)
    ensures |Encode(b)| == 8 * (|b| / 5) + TailSymbols(|b| % 5)
  {
    if |b| >= 5 {
      EncodedLength(b[5..]);
    }
  }

  /** Every 32-byte code is read back from its printing, which is always 64 characters long. */
  lemma ParseUndoesPrint(raw: seq<Byte>)
    requires |raw| == 32
    ensures |Print(raw)| == 64 && Parse(Print(raw)) == Some(raw)
  {
    hide Encode, Decode, Dashed, Undashed, ReadLetters;
    var letters := Spell(Encode(raw));
    EncodedLength(raw);
    DashesComeOff(letters);
    LettersReadBack(Encode(raw));
    DecodeUndoesEncode(raw);
  }

  /** Only a printing is accepted: no upper case, no other grouping, no non-zero fill bits. */
  lemma ParseAcceptsOnlyPrintings(code: string)
    ensures Parse(code).Some? <==> exists raw: seq<Byte> | |raw| == 32 :: code == Print(raw)
  {
    hide Print, ReadLetters, Undashed, Decode;
    if exists raw: seq<Byte> | |raw| == 32 :: code == Print(raw) {
      var raw: seq<Byte> :| |raw| == 32 && code == Print(raw);
      ParseUndoesPrint(raw);
    }
  }
}

/** What the escaper writes, byte for byte: the form of every kind of rune, what it keeps, and the texts of
    the teardown errors made of it. */
module EscapeForms {
  import opened Prelude
  import opened Utf8
  import opened Tokens
  import opened Escape

  const DIGITS := "0123456789abcdef"

  /** A lower-case hexadecimal digit. */
  function Digit(v: nat): (b: byte)
    requires v < 16
  {
    if v < 10 then 0x30 + v else 0x57 + v
  }

  /** The i-th digit of n from the right. */
  function Nibble(n: nat, i: nat): (v: nat)
    ensures v < 16
  {
    if i == 0 then n % 16 else Nibble(n / 16, i - 1)
  }

  /** n in `width` lower-case hexadecimal digits. */
  function Lower(n: nat, width: nat): (s: seq<byte>) {
    seq(width, i requires 0 <= i < width => Digit(Nibble(n, width - 1 - i)))
  }

  lemma DigitIs(v: nat)
    requires v < 16
    ensures Digit(v) == DIGITS[v] as int == HexDigit(v)
  {
    assert v == 0 || v == 1 || v == 2 || v == 3 || v == 4 || v == 5 || v == 6 || v == 7
        || v == 8 || v == 9 || v == 10 || v == 11 || v == 12 || v == 13 || v == 14 || v == 15;
  }

  lemma LowerSplit(n: nat, width: nat)
    requires width > 0
    ensures Lower(n, width) == Lower(n / 16, width - 1) + [Digit(n % 16)]
  {
    var s, t := Lower(n, width), Lower(n / 16, width - 1) + [Digit(n % 16)];
    forall i | 0 <= i < width
      ensures s[i] == t[i]
    {
      if i < width - 1 {
        assert Nibble(n, width - 1 - i) == Nibble(n / 16, width - 1 - i - 1);
      }
    }
  }

  lemma {:induction false} HexIsLower(n: nat, width: nat)
    ensures Hex(n, width) == Lower(n, width)
  {
    if width > 0 {
      HexIsLower(n / 16, width - 1);
      DigitIs(n % 16);
      LowerSplit(n, width);
    }
  }

  /** The kinds of runes that are not kept: C1 controls, line and paragraph separators, format characters. */
  predicate Hidden(r: int) {
    0x80 <= r <= 0x9F || r == 0x2028 || r == 0x2029 || BidiControl(r) || ZeroWidth(r) || Tag(r)
  }

  /** How a rune is written: `\\`, `\xNN`, `\uNNNN`, `\UNNNNNNNN`, or as itself. */
  function Written(r: int): (s: seq<byte>)
    requires Scalar(r)
  {
    if r == '\\' as int then ['\\' as int, '\\' as int]
    else if r < 0x20 || r == 0x7F then ['\\' as int, 'x' as int] + Lower(r, 2)
    else if Hidden(r) && r <= 0xFFFF then ['\\' as int, 'u' as int] + Lower(r, 4)
    else if Hidden(r) then ['\\' as int, 'U' as int] + Lower(r, 8)
    else Encode(r)
  }

  lemma HiddenIs(r: int)
    ensures Hidden(r) <==> 0x80 <= r <= 0x9F || r == 0x2028 || r == 0x2029 || IsFormat(r)
  {
    FormatIs(r);
  }

  lemma FormIs(s: seq<byte>, r: int, n: nat)
    requires s != [] && Scalar(r) && Decode(s) == Rune(r, n) && s[..n] == Encode(r)
    ensures Token(s) == (Written(r), n)
  {
    HiddenIs(r);
    if r < 0x20 || r == 0x7F {
      HexIsLower(r, 2);
    } else if Hidden(r) && r <= 0xFFFF {
      HexIsLower(r, 4);
    } else if Hidden(r) {
      HexIsLower(r, 8);
    }
  }

  lemma TokenWritten(r: int, rest: seq<byte>)
    requires Scalar(r)
    ensures Token(Encode(r) + rest) == (Written(r), |Encode(r)|)
  {
    EncodeDecodes(r, rest);
    FormIs(Encode(r) + rest, r, |Encode(r)|);
    assert (Encode(r) + rest)[..|Encode(r)|] == Encode(r);
  }

  /** The escaped text is the form of the first token, followed by the rest escaped. */
  lemma EscapeFirst(s: seq<byte>)
    requires s != [] && 1 <= Token(s).1 <= |s|
    ensures EscapeAll(s) == Token(s).0 + EscapeAll(s[Token(s).1..])
  {
    assert Pieces(Token, s)[1..] == Pieces(Token, s[Token(s).1..]);
  }

  /** A rune is written in its form, and the text behind it is escaped in the same way. */
  lemma RuneWritten(r: int, rest: seq<byte>)
    requires Scalar(r)
    ensures EscapeAll(Encode(r) + rest) == Written(r) + EscapeAll(rest)
  {
    TokenWritten(r, rest);
    EscapeFirst(Encode(r) + rest);
    assert (Encode(r) + rest)[|Encode(r)|..] == rest;
  }

  /** A byte of invalid UTF-8 is written as `\xNN`. */
  lemma InvalidWritten(s: seq<byte>)
    requires s != [] && Decode(s).Invalid?
    ensures EscapeAll(s) == ['\\' as int, 'x' as int] + Lower(s[0], 2) + EscapeAll(s[1..])
  {
    HexIsLower(s[0], 2);
    EscapeFirst(s);
  }

  /** Text that needs no escape: printable, and no backslash. */
  predicate Ordinary(r: int) { Printable(r) && r != '\\' as int }

  lemma OrdinaryKept(r: int)
    requires Scalar(r) && Ordinary(r)
    ensures Written(r) == Encode(r)
  {
  }

  /** Ordinary text is kept as it is. */
  lemma {:induction false} KeepsOrdinary(s: seq<byte>)
    requires AllRunes(s, Ordinary)
    ensures EscapeAll(s) == s
    decreases |s|
  {
    if s != [] {
      var r, n := Decode(s).r, Decode(s).size;
      DecodeReadsEncoding(s);
      assert s == Encode(r) + s[n..];
      KeepsOrdinary(s[n..]);
      OrdinaryKept(r);
      RuneWritten(r, s[n..]);
    } else {
      assert EscapeAll([]) == [];
    }
  }

  /** Every escape is longer than what it stands for. */
  lemma WrittenLonger(r: int)
    requires Scalar(r)
    ensures |Written(r)| >= |Encode(r)| && (|Written(r)| == |Encode(r)| ==> Ordinary(r))
  {
  }

  lemma RuneNotShorter(s: seq<byte>)
    requires s != [] && Decode(s).Rune?
    ensures var rest := s[Decode(s).size..];
      && |EscapeAll(s)| - |EscapeAll(rest)| >= |s| - |rest|
      && (|EscapeAll(s)| - |EscapeAll(rest)| == |s| - |rest| ==> Ordinary(Decode(s).r))
  {
    var r, n := Decode(s).r, Decode(s).size;
    DecodeReadsEncoding(s);
    assert s == Encode(r) + s[n..];
    RuneWritten(r, s[n..]);
    WrittenLonger(r);
  }

  lemma {:induction false} NeverShorter(s: seq<byte>)
    ensures |EscapeAll(s)| >= |s| && (|EscapeAll(s)| == |s| ==> AllRunes(s, Ordinary))
    decreases |s|
  {
    if s != [] {
      if Decode(s).Invalid? {
        InvalidWritten(s);
        NeverShorter(s[1..]);
      } else {
        var n := Decode(s).size;
        NeverShorter(s[n..]);
        RuneNotShorter(s);
      }
    }
  }

  /** The texts that are left as they are: exactly the ordinary ones. */
  lemma KeptExactly(s: seq<byte>)
    ensures EscapeAll(s) == s <==> AllRunes(s, Ordinary)
  {
    NeverShorter(s);
    if AllRunes(s, Ordinary) {
      KeepsOrdinary(s);
    }
  }

  /** A text whose escaped form fits is written whole. */
  lemma FitsWhole(s: seq<byte>, limit: nat)
    requires |EscapeAll(s)| <= limit
    ensures BoundedOut(s, limit) == EscapeAll(s)
  {
    var ps := Pieces(Token, s);
    FitIsLongest(ps, limit);
    assert ps[..|ps|] == ps;
  }

  /** escapeBounded on ordinary text within the limit writes it unchanged. */
  lemma OrdinaryFits(s: seq<byte>, limit: nat)
    requires AllRunes(s, Ordinary) && |s| <= limit
    ensures BoundedOut(s, limit) == s && |EscapeAll(s)| <= limit
  {
    KeepsOrdinary(s);
    FitsWhole(s, limit);
  }

  /** escapeBounded.  The output is short, well-formed and printable; it is the beginning of the escaped text in
      whole tokens, as long as fits, and is read back as a prefix of the text, all of it unless `truncated`; and
      ordinary text that fits is written unchanged. */
  method EscapeBounded(s: seq<byte>, limit: nat) returns (out: seq<byte>, truncated: bool)
    ensures |out| <= limit && AllRunes(out, Printable)
    ensures Unescape(out).Some? && Unescape(out).value <= s
    ensures truncated <==> Unescape(out) != Some(s)
    ensures truncated <==> |EscapeAll(s)| > limit
    ensures out <= EscapeAll(s) && (!truncated ==> out == EscapeAll(s))
    ensures AllRunes(s, Ordinary) && |s| <= limit ==> out == s && !truncated
    ensures out == BoundedOut(s, limit)
  {
    BoundedText(s, limit);
    if |EscapeAll(s)| <= limit {
      FitsWhole(s, limit);
    }
    if AllRunes(s, Ordinary) {
      KeepsOrdinary(s);
    }
    out, truncated := WriteTokens(Token, s, limit);
  }

  // ----- the error texts -----

  /** The bytes of an ASCII text. */
  function Bytes(text: string): (s: seq<byte>)
    requires forall i :: 0 <= i < |text| ==> text[i] as int < 0x80
  {
    seq(|text|, i requires 0 <= i < |text| => text[i] as int)
  }

  function DecimalValue(s: seq<byte>): (n: int) {
    if s == [] then 0 else 10 * DecimalValue(s[..|s|-1]) + (s[|s|-1] - '0' as int)
  }

  /** The decimal digits of n, without leading zeros. */
  lemma {:induction false} DecimalIs(n: nat)
    ensures DecimalValue(Decimal(n)) == n
    ensures forall i :: 0 <= i < |Decimal(n)| ==> '0' as int <= Decimal(n)[i] <= '9' as int
    ensures n > 0 ==> Decimal(n)[0] != '0' as int
    ensures n == 0 ==> Decimal(n) == ['0' as int]
  {
    if n >= 10 {
      DecimalIs(n / 10);
      assert Decimal(n)[..|Decimal(n)| - 1] == Decimal(n / 10);
    } else {
      assert Decimal(n)[..0] == [];
    }
  }

  lemma AsciiIs(text: string)
    requires forall i :: 0 <= i < |text| ==> 0x20 <= text[i] as int < 0x7F
    ensures Ascii(text) == Bytes(text)
  {
  }

  lemma NoteIs(n: nat)
    ensures Note(n) == Bytes("... (truncated, ") + Decimal(n) + Bytes(" bytes)")
  {
    AsciiIs("... (truncated, ");
    AsciiIs(" bytes)");
  }

  /** The text of a step error: the whole escaped text when that has at most 512 bytes, and otherwise the longest
      beginning of it in whole tokens, with a note of how long the error is. */
  lemma ErrorTextIs(raw: seq<byte>)
    ensures |EscapeAll(raw)| <= 512 ==> ErrorText(raw) == EscapeAll(raw)
    ensures |EscapeAll(raw)| > 512 ==>
      && ErrorText(raw)
         == BoundedOut(raw, 512) + (Bytes("... (truncated, ") + Decimal(|raw|) + Bytes(" bytes)"))
      && BoundedOut(raw, 512) <= EscapeAll(raw) && Unescape(BoundedOut(raw, 512)) == Some(KeptRaw(raw, 512))
      && KeptRaw(raw, 512) < raw
  {
    BoundedText(raw, 512);
    NoteIs(|raw|);
    if |EscapeAll(raw)| <= 512 {
      FitsWhole(raw, 512);
    }
  }

  /** An ordinary error text of at most 512 bytes is shown as it is. */
  lemma OrdinaryErrorText(raw: seq<byte>)
    requires AllRunes(raw, Ordinary) && |raw| <= 512
    ensures ErrorText(raw) == raw
  {
    KeepsOrdinary(raw);
    ErrorTextIs(raw);
  }

  /** Both step errors: the first, "; ", the second; either alone as it is; neither, nothing. */
  lemma JoinedIs(u: seq<byte>, d: seq<byte>)
    ensures JoinedText(Some(u), Some(d)) == Some(ErrorText(u) + Bytes("; ") + ErrorText(d))
    ensures JoinedText(Some(u), None) == Some(ErrorText(u)) && JoinedText(None, Some(d)) == Some(ErrorText(d))
    ensures JoinedText(None, None) == None
  {
    AsciiIs("; ");
  }
}

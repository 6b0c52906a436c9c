/** The bounded escaper of broker text. */
module Escape {
  import opened Prelude
  import opened Utf8
  import opened Tokens

  const BACKSLASH: byte := 0x5C
  const MAX_STEP_ERR_LEN: nat := 512

  /** Bidirectional controls, zero-width characters and tags. */
  predicate IsFormat(r: int) {
    || r == 0x061C || r == 0x200E || r == 0x200F
    || 0x200B <= r <= 0x200D || 0x202A <= r <= 0x202E
    || r == 0x2060 || 0x2066 <= r <= 0x2069
    || r == 0xFEFF || 0xE0000 <= r <= 0xE007F
  }

  function HexDigit(n: nat): (b: byte)
    requires n < 16
  {
    if n < 10 then 0x30 + n else 0x61 + (n - 10)
  }

  /** n in lower-case hexadecimal with exactly `width` digits. */
  function Hex(n: nat, width: nat): (s: seq<byte>)
    ensures |s| == width
  {
    if width == 0 then [] else Hex(n / 16, width - 1) + [HexDigit(n % 16)]
  }

  /** The escaped form of the first token of s, and how many bytes of s it stands for. */
  function Token(s: seq<byte>): (t: (seq<byte>, nat)) {
    if s == [] then ([], 0) else
    match Decode(s)
    case Invalid => ([BACKSLASH, 0x78] + Hex(s[0], 2), 1)
    case Rune(r, size) =>
      if r == 0x5C then ([BACKSLASH, BACKSLASH], size)
      else if r < 0x20 || r == 0x7F then ([BACKSLASH, 0x78] + Hex(r, 2), size)
      else if 0x80 <= r <= 0x9F || r == 0x2028 || r == 0x2029 then ([BACKSLASH, 0x75] + Hex(r, 4), size)
      else if IsFormat(r) then
        if r > 0xFFFF then ([BACKSLASH, 0x55] + Hex(r, 8), size) else ([BACKSLASH, 0x75] + Hex(r, 4), size)
      else (s[..size], size)
  }

  /** The whole of s, escaped. */
  function EscapeAll(s: seq<byte>): (out: seq<byte>) { Esc(Pieces(Token, s)) }

  /** The kept bytes of s, and their escaped form. */
  function KeptRaw(s: seq<byte>, limit: nat): (raw: seq<byte>) { Raw(Pieces(Token, s)[..Fit(Pieces(Token, s), limit)]) }

  function BoundedOut(s: seq<byte>, limit: nat): (out: seq<byte>) {
    Esc(Pieces(Token, s)[..Fit(Pieces(Token, s), limit)])
  }

  // ----- the inverse -----

  function HexValue(b: byte): (v: Option<nat>) {
    if 0x30 <= b <= 0x39 then Some(b - 0x30) else if 0x61 <= b <= 0x66 then Some(b - 0x61 + 10) else None
  }

  function ParseHex(s: seq<byte>): (v: Option<nat>) {
    if s == [] then Some(0)
    else match (ParseHex(s[..|s|-1]), HexValue(s[|s|-1]))
      case (Some(hi), Some(lo)) => Some(16 * hi + lo)
      case _ => None
  }

  function Prepend(a: seq<byte>, o: Option<seq<byte>>): (r: Option<seq<byte>>) {
    match o case Some(b) => Some(a + b) case None => None
  }

  /** The bytes a rune escape of `width` digits stands for. */
  function ParseRune(s: seq<byte>, width: nat): (r: Option<seq<byte>>) {
    if |s| < 2 + width then None
    else match ParseHex(s[2..2 + width])
      case Some(v) => if Scalar(v) then Some(Encode(v)) else None
      case None => None
  }

  function ParseByte(s: seq<byte>): (r: Option<seq<byte>>) {
    if |s| < 4 then None
    else match ParseHex(s[2..4])
      case Some(v) => if v < 256 then Some([v]) else None
      case None => None
  }

  /** Reads escaped text back.  None means it is no output of the escaper. */
  function Unescape(s: seq<byte>): (r: Option<seq<byte>>)
    decreases |s|
  {
    if s == [] then Some([])
    else if s[0] != BACKSLASH then Prepend([s[0]], Unescape(s[1..]))
    else if |s| < 2 then None
    else if s[1] == BACKSLASH then Prepend([BACKSLASH], Unescape(s[2..]))
    else if s[1] == 0x78 then
      match ParseByte(s) case Some(b) => Prepend(b, Unescape(s[4..])) case None => None
    else if s[1] == 0x75 then
      match ParseRune(s, 4) case Some(b) => Prepend(b, Unescape(s[6..])) case None => None
    else if s[1] == 0x55 then
      match ParseRune(s, 8) case Some(b) => Prepend(b, Unescape(s[10..])) case None => None
    else None
  }

  function Pow16(w: nat): (n: nat) { if w == 0 then 1 else 16 * Pow16(w - 1) }

  lemma {:induction false} HexParses(n: nat, width: nat)
    requires n < Pow16(width)
    ensures ParseHex(Hex(n, width)) == Some(n)
  {
    if width > 0 {
      HexParses(n / 16, width - 1);
      assert Hex(n, width)[..width - 1] == Hex(n / 16, width - 1);
    }
  }

  lemma Pow16Values()
    ensures Pow16(2) == 256 && Pow16(4) == 65536 && Pow16(8) == 4294967296
  {
    assert Pow16(4) == 256 * Pow16(2);
    assert Pow16(6) == 256 * Pow16(4);
  }

  /** Bytes other than the backslash stand for themselves. */
  lemma {:induction false} PlainUnescapes(a: seq<byte>, rest: seq<byte>)
    requires forall i :: 0 <= i < |a| ==> a[i] != BACKSLASH
    ensures Unescape(a + rest) == Prepend(a, Unescape(rest))
    decreases |a|
  {
    if a == [] {
      assert a + rest == rest;
      assert Unescape(rest).Some? ==> [] + Unescape(rest).value == Unescape(rest).value;
    } else {
      PlainUnescapes(a[1..], rest);
      var all := a + rest;
      assert all[0] == a[0] && all[1..] == a[1..] + rest;
      if Unescape(rest).Some? {
        Assoc([a[0]], a[1..], Unescape(rest).value);
        assert [a[0]] + a[1..] == a;
      }
    }
  }

  lemma ByteUnescapes(b: byte, rest: seq<byte>)
    ensures Unescape([BACKSLASH, 0x78] + Hex(b, 2) + rest) == Prepend([b], Unescape(rest))
  {
    var s := [BACKSLASH, 0x78] + Hex(b, 2) + rest;
    Pow16Values();
    HexParses(b, 2);
    assert s[2..4] == Hex(b, 2) && s[4..] == rest;
  }

  lemma RuneUnescapes(r: nat, letter: byte, width: nat, rest: seq<byte>)
    requires Scalar(r) && r < Pow16(width) && ((letter == 0x75 && width == 4) || (letter == 0x55 && width == 8))
    ensures Unescape([BACKSLASH, letter] + Hex(r, width) + rest) == Prepend(Encode(r), Unescape(rest))
  {
    var s := [BACKSLASH, letter] + Hex(r, width) + rest;
    HexParses(r, width);
    assert s[2..2 + width] == Hex(r, width) && s[2 + width..] == rest;
  }

  /** Unescaping undoes one token, whatever follows it. */
  lemma TokenUnescapes(s: seq<byte>, rest: seq<byte>)
    requires s != []
    ensures 1 <= Token(s).1 <= |s|
    ensures Unescape(Token(s).0 + rest) == Prepend(s[..Token(s).1], Unescape(rest))
  {
    Pow16Values();
    match Decode(s)
    case Invalid => ByteUnescapes(s[0], rest); assert s[..1] == [s[0]];
    case Rune(r, size) =>
      DecodeReadsEncoding(s);
      if r == 0x5C {
        assert ([BACKSLASH, BACKSLASH] + rest)[2..] == rest;
      } else if r < 0x20 || r == 0x7F {
        ByteUnescapes(r, rest);
      } else if 0x80 <= r <= 0x9F || r == 0x2028 || r == 0x2029 || (IsFormat(r) && r <= 0xFFFF) {
        RuneUnescapes(r, 0x75, 4, rest);
      } else if IsFormat(r) {
        RuneUnescapes(r, 0x55, 8, rest);
      } else {
        PlainUnescapes(s[..size], rest);
      }
  }

  /** A token that is read back as its own bytes, whatever follows, and is printable. */
  ghost predicate Good(p: Piece) {
    && p.raw != [] && AllRunes(p.esc, Printable)
    && forall rest :: Unescape(p.esc + rest) == Prepend(p.raw, Unescape(rest))
  }

  lemma TokenGood(s: seq<byte>)
    requires s != []
    ensures Good(Piece(s[..Width(Token, s)], Token(s).0))
  {
    TokenPrintable(s);
    forall rest
      ensures Unescape(Token(s).0 + rest) == Prepend(s[..Token(s).1], Unescape(rest))
    {
      TokenUnescapes(s, rest);
    }
  }

  lemma {:induction false} AllGood(f: Tokenizer, s: seq<byte>)
    requires forall t :: t != [] ==> Good(Piece(t[..Width(f, t)], f(t).0))
    ensures forall i :: 0 <= i < |Pieces(f, s)| ==> Good(Pieces(f, s)[i])
    decreases |s|
  {
    if s != [] {
      AllGood(f, s[Width(f, s)..]);
    }
  }

  /** The tokens of s are good and together stand for s. */
  lemma {:induction false} PiecesGood(s: seq<byte>)
    ensures Raw(Pieces(Token, s)) == s
    ensures forall i :: 0 <= i < |Pieces(Token, s)| ==> Good(Pieces(Token, s)[i])
  {
    PiecesCover(Token, s);
    forall t: seq<byte> | t != []
      ensures Good(Piece(t[..Width(Token, t)], Token(t).0))
    {
      TokenGood(t);
    }
    AllGood(Token, s);
  }

  lemma {:induction false} GoodText(ps: seq<Piece>)
    requires forall i :: 0 <= i < |ps| ==> Good(ps[i])
    ensures Unescape(Esc(ps)) == Some(Raw(ps)) && AllRunes(Esc(ps), Printable)
  {
    if ps != [] {
      GoodText(ps[1..]);
      AllRunesConcat(ps[0].esc, Esc(ps[1..]), Printable);
    }
  }

  /** Round trip: unescaping the escaped text gives back the text. */
  lemma RoundTrip(s: seq<byte>)
    ensures Unescape(EscapeAll(s)) == Some(s)
  {
    PiecesGood(s);
    GoodText(Pieces(Token, s));
  }

  /** So different texts have different escaped forms, invalid UTF-8, literal backslashes, a genuine
      U+FFFD and tag characters included. */
  lemma Injective(s: seq<byte>, t: seq<byte>)
    requires EscapeAll(s) == EscapeAll(t)
    ensures s == t
  {
    RoundTrip(s);
    RoundTrip(t);
  }

  // ----- the bound -----

  /** A larger limit only extends the text and the bytes it stands for. */
  lemma MonotoneInLimit(s: seq<byte>, low: nat, high: nat)
    requires low <= high
    ensures BoundedOut(s, low) <= BoundedOut(s, high) && KeptRaw(s, low) <= KeptRaw(s, high)
  {
    var ps := Pieces(Token, s);
    FitMonotone(ps, low, high);
    var j, k := Fit(ps, low), Fit(ps, high);
    assert ps[..k] == ps[..j] + ps[j..k];
    Concat(ps[..j], ps[j..k]);
  }

  /** Characters that set or isolate the direction of text. */
  predicate BidiControl(r: int) {
    r in {0x061C, 0x200E, 0x200F, 0x202A, 0x202B, 0x202C, 0x202D, 0x202E, 0x2066, 0x2067, 0x2068, 0x2069}
  }

  /** Zero-width space, non-joiner, joiner, word joiner and no-break space. */
  predicate ZeroWidth(r: int) { r in {0x200B, 0x200C, 0x200D, 0x2060, 0xFEFF} }

  predicate Tag(r: int) { r / 0x80 == 0xE0000 / 0x80 }

  /** No control, C1 control, line or paragraph separator, bidirectional control, zero-width character
      or tag. */
  predicate Printable(r: int) {
    && r >= 0x20 && !(0x7F <= r <= 0x9F) && r != 0x2028 && r != 0x2029
    && !BidiControl(r) && !ZeroWidth(r) && !Tag(r)
  }

  lemma FormatIs(r: int)
    ensures IsFormat(r) <==> BidiControl(r) || ZeroWidth(r) || Tag(r)
  {
    assert 0xE0000 <= r <= 0xE007F <==> r / 0x80 == 0x1C00;
    assert 0x202A <= r <= 0x202E ==> r in {0x202A, 0x202B, 0x202C, 0x202D, 0x202E};
    assert 0x2066 <= r <= 0x2069 ==> r in {0x2066, 0x2067, 0x2068, 0x2069};
    assert 0x200B <= r <= 0x200D ==> r in {0x200B, 0x200C, 0x200D};
  }

  predicate PlainAscii(s: seq<byte>) { forall i :: 0 <= i < |s| ==> 0x20 <= s[i] < 0x7F }

  lemma {:induction false} AsciiPrintable(s: seq<byte>)
    requires PlainAscii(s)
    ensures AllRunes(s, Printable)
    decreases |s|
  {
    if s != [] {
      AsciiPrintable(s[1..]);
    }
  }

  lemma {:induction false} HexAscii(n: nat, width: nat)
    ensures PlainAscii(Hex(n, width))
  {
    if width > 0 {
      HexAscii(n / 16, width - 1);
    }
  }

  /** A backslash, a letter or backslash, and hexadecimal digits. */
  lemma EscapedAscii(s: seq<byte>)
    requires s != [] && (Token(s).0 != s[..Token(s).1] || Decode(s).Invalid?)
    ensures PlainAscii(Token(s).0)
  {
    HexAscii(s[0], 2);
    if Decode(s).Rune? {
      HexAscii(Decode(s).r, 2);
      HexAscii(Decode(s).r, 4);
      HexAscii(Decode(s).r, 8);
    }
  }

  lemma TokenPrintable(s: seq<byte>)
    requires s != []
    ensures AllRunes(Token(s).0, Printable)
  {
    var tok, size := Token(s).0, Token(s).1;
    if tok != s[..size] || Decode(s).Invalid? {
      EscapedAscii(s);
      AsciiPrintable(tok);
    } else {
      FormatIs(Decode(s).r);
      DecodeLocal(s, size);
      assert tok[size..] == [];
    }
  }

  /** For every text and limit: the output is within the limit, well-formed and printable; it is read
      back as a prefix of the text, and as all of it exactly when nothing was left out, that is, when
      the whole escaped text fits; otherwise the next token is the first that does not fit. */
  lemma {:induction false} BoundedText(s: seq<byte>, limit: nat)
    ensures |BoundedOut(s, limit)| <= limit && AllRunes(BoundedOut(s, limit), Printable)
    ensures KeptRaw(s, limit) <= s && Unescape(BoundedOut(s, limit)) == Some(KeptRaw(s, limit))
    ensures BoundedOut(s, limit) <= EscapeAll(s)
    ensures KeptRaw(s, limit) == s <==> Fit(Pieces(Token, s), limit) == |Pieces(Token, s)|
    ensures KeptRaw(s, limit) == s <==> |EscapeAll(s)| <= limit
    ensures var k := Fit(Pieces(Token, s), limit);
      k < |Pieces(Token, s)| ==> |BoundedOut(s, limit)| + |Pieces(Token, s)[k].esc| > limit
  {
    var ps := Pieces(Token, s);
    var k := Fit(ps, limit);
    PiecesGood(s);
    GoodText(ps[..k]);
    FitIsLongest(ps, limit);
    Front(ps, k);
  }

  // ----- the error text -----

  function Ascii(text: string): (s: seq<byte>) {
    seq(|text|, i requires 0 <= i < |text| => if 0x20 <= text[i] as int < 0x7F then text[i] as int else 0x3F)
  }

  function Decimal(n: nat): (s: seq<byte>)
    ensures PlainAscii(s) && s != []
  {
    if n < 10 then [0x30 + n] else Decimal(n / 10) + [0x30 + n % 10]
  }

  function Pow10(d: nat): (n: nat) { if d == 0 then 1 else 10 * Pow10(d - 1) }

  lemma {:induction false} DecimalLength(n: nat, d: nat)
    requires d >= 1 && n < Pow10(d)
    ensures |Decimal(n)| <= d
  {
    if n >= 10 {
      assert d >= 2;
      DecimalLength(n / 10, d - 1);
    }
  }

  /** boundedError.Error: the escaped text, with a note of the full length when it was cut. */
  function ErrorText(raw: seq<byte>): (s: seq<byte>) {
    var s := BoundedOut(raw, MAX_STEP_ERR_LEN);
    if |EscapeAll(raw)| <= MAX_STEP_ERR_LEN then s
    else s + Note(|raw|)
  }

  /** joinSteps on the texts of the step errors that happened. */
  function JoinedText(uerr: Option<seq<byte>>, derr: Option<seq<byte>>): (s: Option<seq<byte>>) {
    match (uerr, derr)
    case (Some(u), Some(d)) => Some(ErrorText(u) + Ascii("; ") + ErrorText(d))
    case (Some(u), None) => Some(ErrorText(u))
    case (None, Some(d)) => Some(ErrorText(d))
    case (None, None) => None
  }

  function Note(n: nat): (s: seq<byte>) { Ascii("... (truncated, ") + Decimal(n) + Ascii(" bytes)") }

  lemma NoteText(n: nat, d: nat)
    requires d >= 1 && n < Pow10(d)
    ensures |Note(n)| <= 23 + d && AllRunes(Note(n), Printable)
  {
    DecimalLength(n, d);
    AsciiPrintable(Note(n));
  }

  lemma {:induction false} TextBound(raw: seq<byte>, d: nat)
    requires d >= 1 && |raw| < Pow10(d)
    ensures |ErrorText(raw)| <= MAX_STEP_ERR_LEN + 23 + d
    ensures AllRunes(ErrorText(raw), Printable)
  {
    BoundedText(raw, MAX_STEP_ERR_LEN);
    NoteText(|raw|, d);
    AllRunesConcat(BoundedOut(raw, MAX_STEP_ERR_LEN), Note(|raw|), Printable);
  }

  /** The logged text of a teardown is one line of printable runes, at most 2 * (512 + 23 + d) + 2 bytes
      when the broker texts have lengths of at most d decimal digits. */
  lemma JoinedBound(uerr: Option<seq<byte>>, derr: Option<seq<byte>>, d: nat)
    requires d >= 1 && (uerr.Some? ==> |uerr.value| < Pow10(d)) && (derr.Some? ==> |derr.value| < Pow10(d))
    ensures JoinedText(uerr, derr).Some? <==> uerr.Some? || derr.Some?
    ensures JoinedText(uerr, derr).Some? ==>
      && |JoinedText(uerr, derr).value| <= 2 * (MAX_STEP_ERR_LEN + 23 + d) + 2
      && AllRunes(JoinedText(uerr, derr).value, Printable)
  {
    if uerr.Some? { TextBound(uerr.value, d); }
    if derr.Some? { TextBound(derr.value, d); }
    if uerr.Some? && derr.Some? {
      AsciiPrintable(Ascii("; "));
      AllRunesConcat(ErrorText(uerr.value), Ascii("; "), Printable);
      AllRunesConcat(ErrorText(uerr.value) + Ascii("; "), ErrorText(derr.value), Printable);
    }
  }
}

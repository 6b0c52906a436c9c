/** UTF-8 as Go's unicode/utf8 decodes it: the well-formed sequences of section 4 of RFC 3629, and one
    invalid byte at a time otherwise. */
module Utf8 {

  type byte = b: int | 0 <= b < 256

  /** A decoded rune and its width, or Go's (RuneError, 1). */
  datatype Decoded = Rune(r: int, size: nat) | Invalid

  predicate Tail(b: int) { 0x80 <= b <= 0xBF }

  /** A Unicode scalar value. */
  predicate Scalar(r: int) { 0 <= r < 0xD800 || 0xE000 <= r <= 0x10FFFF }

  /** a followed by the six bits of a tail byte. */
  function Shift(a: int, tail: int): (r: int) { a * 64 + (tail - 0x80) }

  function Decode(s: seq<byte>): (d: Decoded)
    requires s != []
    ensures d.Rune? ==> Scalar(d.r) && 1 <= d.size <= |s|
  {
    var b0: int := s[0];
    if b0 < 0x80 then Rune(b0, 1)
    else if 0xC2 <= b0 <= 0xDF then
      if |s| >= 2 && Tail(s[1]) then Rune(Shift(b0 - 0xC0, s[1]), 2) else Invalid
    else if 0xE0 <= b0 <= 0xEF then
      if |s| >= 3 && Tail(s[1]) && Tail(s[2]) && (b0 == 0xE0 ==> s[1] >= 0xA0) && (b0 == 0xED ==> s[1] <= 0x9F)
      then Rune(Shift(Shift(b0 - 0xE0, s[1]), s[2]), 3) else Invalid
    else if 0xF0 <= b0 <= 0xF4 then
      if |s| >= 4 && Tail(s[1]) && Tail(s[2]) && Tail(s[3])
        && (b0 == 0xF0 ==> s[1] >= 0x90) && (b0 == 0xF4 ==> s[1] <= 0x8F)
      then Rune(Shift(Shift(Shift(b0 - 0xF0, s[1]), s[2]), s[3]), 4) else Invalid
    else Invalid
  }

  /** Section 3 of RFC 3629: the encoding of a scalar value. */
  function Encode(r: int): (s: seq<byte>)
    requires Scalar(r)
  {
    if r < 0x80 then [r]
    else if r < 0x800 then [0xC0 + r / 64, 0x80 + r % 64]
    else if r < 0x10000 then [0xE0 + r / 64 / 64, 0x80 + r / 64 % 64, 0x80 + r % 64]
    else [0xF0 + r / 64 / 64 / 64, 0x80 + r / 64 / 64 % 64, 0x80 + r / 64 % 64, 0x80 + r % 64]
  }

  lemma Unshift(a: int, tail: int)
    requires Tail(tail)
    ensures Shift(a, tail) / 64 == a && 0x80 + Shift(a, tail) % 64 == tail
  {
  }

  lemma Reshift(r: int)
    ensures Shift(r / 64, 0x80 + r % 64) == r
  {
  }

  lemma Reads2(b0: byte, b1: byte)
    requires Decode([b0, b1]).Rune? && Decode([b0, b1]).size == 2
    ensures Encode(Decode([b0, b1]).r) == [b0, b1]
  {
    Unshift(b0 - 0xC0, b1);
  }

  lemma Reads3(b0: byte, b1: byte, b2: byte)
    requires Decode([b0, b1, b2]).Rune? && Decode([b0, b1, b2]).size == 3
    ensures Encode(Decode([b0, b1, b2]).r) == [b0, b1, b2]
  {
    Unshift(b0 - 0xE0, b1);
    Unshift(Shift(b0 - 0xE0, b1), b2);
  }

  lemma Reads4(b0: byte, b1: byte, b2: byte, b3: byte)
    requires Decode([b0, b1, b2, b3]).Rune? && Decode([b0, b1, b2, b3]).size == 4
    ensures Encode(Decode([b0, b1, b2, b3]).r) == [b0, b1, b2, b3]
  {
    Unshift(b0 - 0xF0, b1);
    Unshift(Shift(b0 - 0xF0, b1), b2);
    Unshift(Shift(Shift(b0 - 0xF0, b1), b2), b3);
  }

  /** Decoding reads exactly the encoding of the rune it returns. */
  lemma DecodeReadsEncoding(s: seq<byte>)
    requires s != [] && Decode(s).Rune?
    ensures Encode(Decode(s).r) == s[..Decode(s).size]
    ensures Decode(s).r >= 0x80 ==> forall i :: 0 <= i < Decode(s).size ==> s[i] >= 0x80
  {
    var n := Decode(s).size;
    DecodeLocal(s, n);
    if n == 2 {
      assert s[..n] == [s[0], s[1]];
      Reads2(s[0], s[1]);
    } else if n == 3 {
      assert s[..n] == [s[0], s[1], s[2]];
      Reads3(s[0], s[1], s[2]);
    } else if n == 4 {
      assert s[..n] == [s[0], s[1], s[2], s[3]];
      Reads4(s[0], s[1], s[2], s[3]);
    }
  }

  /** Encoding is read back as the same rune, whatever follows. */
  lemma EncodeDecodes(r: int, rest: seq<byte>)
    requires Scalar(r)
    ensures Decode(Encode(r) + rest) == Rune(r, |Encode(r)|)
  {
    Reshift(r);
    Reshift(r / 64);
    Reshift(r / 64 / 64);
  }

  /** A rune is recognised from its own bytes: what follows does not matter, and cutting the input
      behind an invalid byte does not make it valid. */
  lemma DecodeLocal(s: seq<byte>, k: nat)
    requires 1 <= k <= |s|
    ensures Decode(s).Rune? && Decode(s).size <= k ==> Decode(s[..k]) == Decode(s)
    ensures Decode(s).Invalid? ==> Decode(s[..k]).Invalid?
  {
  }

  /** Well-formed UTF-8 none of whose runes fails `ok`. */
  predicate AllRunes(s: seq<byte>, ok: int -> bool)
    decreases |s|
  {
    s == [] ||
    (Decode(s).Rune? && 1 <= Decode(s).size <= |s| && ok(Decode(s).r) && AllRunes(s[Decode(s).size..], ok))
  }

  lemma {:induction false} AllRunesConcat(a: seq<byte>, b: seq<byte>, ok: int -> bool)
    requires AllRunes(a, ok) && AllRunes(b, ok)
    ensures AllRunes(a + b, ok)
    decreases |a|
  {
    if a == [] {
      assert a + b == b;
    } else {
      var n := Decode(a).size;
      DecodeExtends(a, b);
      assert (a + b)[n..] == a[n..] + b;
      AllRunesConcat(a[n..], b, ok);
    }
  }

  lemma DecodeExtends(a: seq<byte>, b: seq<byte>)
    requires a != [] && Decode(a).Rune?
    ensures Decode(a + b) == Decode(a)
  {
  }
}

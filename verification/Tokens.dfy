/** Writing a text token by token under a byte limit, for any way of cutting a text into tokens. */
module Tokens {
  import opened Utf8

  /** From a text, what is written for its first token and how many bytes that token stands for. */
  type Tokenizer = seq<byte> -> (seq<byte>, nat)

  /** A token: the bytes it stands for and the text written for them. */
  datatype Piece = Piece(raw: seq<byte>, esc: seq<byte>)

  /** Width of the first token; a tokenizer that claims none or too much is cut to one byte. */
  function Width(f: Tokenizer, s: seq<byte>): (n: nat)
    requires s != []
    ensures 1 <= n <= |s|
  {
    if 1 <= f(s).1 <= |s| then f(s).1 else 1
  }

  function Pieces(f: Tokenizer, s: seq<byte>): (ps: seq<Piece>)
    decreases |s|
  {
    if s == [] then [] else [Piece(s[..Width(f, s)], f(s).0)] + Pieces(f, s[Width(f, s)..])
  }

  function Raw(ps: seq<Piece>): (s: seq<byte>) { if ps == [] then [] else ps[0].raw + Raw(ps[1..]) }

  function Esc(ps: seq<Piece>): (s: seq<byte>) { if ps == [] then [] else ps[0].esc + Esc(ps[1..]) }

  /** How many tokens are kept: as long as they fit. */
  function Fit(ps: seq<Piece>, limit: nat): (k: nat)
    ensures k <= |ps|
  {
    if ps == [] || |ps[0].esc| > limit then 0 else 1 + Fit(ps[1..], limit - |ps[0].esc|)
  }

  lemma Assoc(a: seq<byte>, b: seq<byte>, c: seq<byte>)
    ensures (a + b) + c == a + (b + c)
  {
  }

  lemma {:induction false} Concat(a: seq<Piece>, b: seq<Piece>)
    ensures Esc(a + b) == Esc(a) + Esc(b)
    ensures Raw(a + b) == Raw(a) + Raw(b)
  {
    if a == [] {
      assert a + b == b;
      assert [] + Esc(b) == Esc(b) && [] + Raw(b) == Raw(b);
    } else {
      var p, ab := a[0], a + b;
      assert ab[0] == p && ab[1..] == a[1..] + b;
      Concat(a[1..], b);
      Assoc(p.esc, Esc(a[1..]), Esc(b));
      Assoc(p.raw, Raw(a[1..]), Raw(b));
    }
  }

  /** The first k tokens give a prefix of the text and of what is written, a proper one if any is left. */
  lemma Front(ps: seq<Piece>, k: nat)
    requires k <= |ps| && forall i :: 0 <= i < |ps| ==> ps[i].raw != []
    ensures Esc(ps[..k]) <= Esc(ps) && Raw(ps[..k]) <= Raw(ps)
    ensures Raw(ps[..k]) == Raw(ps) <==> k == |ps|
  {
    assert ps == ps[..k] + ps[k..];
    Concat(ps[..k], ps[k..]);
    if k < |ps| {
      assert ps[k..][0] == ps[k];
    }
  }

  /** The tokens stand for the text they were cut from. */
  lemma {:induction false} PiecesCover(f: Tokenizer, s: seq<byte>)
    ensures Raw(Pieces(f, s)) == s
    decreases |s|
  {
    if s != [] {
      var n := Width(f, s);
      PiecesCover(f, s[n..]);
      assert Pieces(f, s)[1..] == Pieces(f, s[n..]);
      assert s == s[..n] + s[n..];
    }
  }

  /** The kept tokens fit, the next one does not, and all are kept exactly when all fit. */
  lemma {:induction false} FitIsLongest(ps: seq<Piece>, limit: nat)
    ensures |Esc(ps[..Fit(ps, limit)])| <= limit
    ensures Fit(ps, limit) < |ps| ==> |Esc(ps[..Fit(ps, limit)])| + |ps[Fit(ps, limit)].esc| > limit
    ensures Fit(ps, limit) == |ps| <==> |Esc(ps)| <= limit
  {
    var k := Fit(ps, limit);
    if ps != [] && |ps[0].esc| <= limit {
      FitIsLongest(ps[1..], limit - |ps[0].esc|);
      assert ps[..k][1..] == ps[1..][..k - 1];
    }
  }

  lemma {:induction false} FitMonotone(ps: seq<Piece>, low: nat, high: nat)
    requires low <= high
    ensures Fit(ps, low) <= Fit(ps, high)
  {
    if ps != [] && |ps[0].esc| <= low {
      FitMonotone(ps[1..], low - |ps[0].esc|, high - |ps[0].esc|);
    }
  }

  lemma PiecesAt(f: Tokenizer, s: seq<byte>, i: nat)
    requires i < |s|
    ensures Pieces(f, s[i..])
         == [Piece(s[i..][..Width(f, s[i..])], f(s[i..]).0)] + Pieces(f, s[i + Width(f, s[i..])..])
  {
    assert s[i..][Width(f, s[i..])..] == s[i + Width(f, s[i..])..];
  }

  /** One round of the loop below, in terms of the tokens done and those to come. */
  lemma Advance(done: seq<Piece>, rest: seq<Piece>, limit: nat)
    requires rest != [] && |Esc(done)| + |rest[0].esc| <= limit
    ensures Esc(done + [rest[0]]) == Esc(done) + rest[0].esc
    ensures (done + [rest[0]]) + rest[1..] == done + rest
    ensures Fit(rest, limit - |Esc(done)|) == 1 + Fit(rest[1..], limit - |Esc(done)| - |rest[0].esc|)
  {
    Concat(done, [rest[0]]);
    assert Esc([rest[0]]) == rest[0].esc + [];
  }

  /** The first i bytes are done, as the tokens `done`, and `out` is what was written for them. */
  ghost predicate Progress(f: Tokenizer, s: seq<byte>, limit: nat, i: nat, out: seq<byte>, done: seq<Piece>) {
    && i <= |s| && |out| <= limit && out == Esc(done)
    && Pieces(f, s) == done + Pieces(f, s[i..])
    && |done| + Fit(Pieces(f, s[i..]), limit - |out|) == Fit(Pieces(f, s), limit)
  }

  lemma ProgressStep(f: Tokenizer, s: seq<byte>, limit: nat, i: nat, out: seq<byte>, done: seq<Piece>)
    returns (done': seq<Piece>)
    requires i < |s| && Progress(f, s, limit, i, out, done) && |out| + |f(s[i..]).0| <= limit
    ensures Progress(f, s, limit, i + Width(f, s[i..]), out + f(s[i..]).0, done')
  {
    PiecesAt(f, s, i);
    var rest := Pieces(f, s[i..]);
    Advance(done, rest, limit);
    done' := done + [rest[0]];
    assert rest[1..] == Pieces(f, s[i + Width(f, s[i..])..]);
  }

  lemma ProgressStops(f: Tokenizer, s: seq<byte>, limit: nat, i: nat, out: seq<byte>, done: seq<Piece>)
    requires Progress(f, s, limit, i, out, done) && (i < |s| ==> |out| + |f(s[i..]).0| > limit)
    ensures out == Esc(Pieces(f, s)[..Fit(Pieces(f, s), limit)])
    ensures i < |s| <==> Fit(Pieces(f, s), limit) < |Pieces(f, s)|
  {
    if i < |s| {
      PiecesAt(f, s, i);
    }
    assert Pieces(f, s)[..|done|] == done;
  }

  /** The loop of escapeBounded: write whole tokens until one does not fit. */
  method WriteTokens(f: Tokenizer, s: seq<byte>, limit: nat) returns (out: seq<byte>, truncated: bool)
    ensures out == Esc(Pieces(f, s)[..Fit(Pieces(f, s), limit)])
    ensures truncated <==> Fit(Pieces(f, s), limit) < |Pieces(f, s)|
  {
    out := [];
    ghost var done := [];
    var i := 0;
    assert s[0..] == s;
    while i < |s|
      invariant 0 <= i <= |s| && Progress(f, s, limit, i, out, done)
    {
      var tok, size := f(s[i..]).0, Width(f, s[i..]);
      if |out| + |tok| > limit {
        break;
      }
      done := ProgressStep(f, s, limit, i, out, done);
      out := out + tok;
      i := i + size;
    }
    ProgressStops(f, s, limit, i, out, done);
    truncated := i < |s|;
  }
}

/**
 UTF-8 as section 3 of RFC 3629 defines it. A `char` is a Unicode scalar value, so
 a `string` is the text a Rust string holds and `Encode` its bytes. `DecodeLossy`
 replaces every maximal ill-formed piece by U+FFFD, as the standard library does.
 */
module Utf8 {
  type Byte = b: int | 0 <= b < 256

  const REPLACEMENT: char := '\U{FFFD}'

  function Width(c: char): (w: nat)
    ensures 1 <= w <= 4
  {
    if c as int < 0x80 then 1 else if c as int < 0x800 then 2 else if c as int < 0x1_0000 then 3 else 4
  }

  function Tail(x: int): Byte { 0x80 + x % 64 }

  function EncodeChar(c: char): (bytes: seq<Byte>)
    ensures |bytes| == Width(c)
  {
    var x := c as int;
    match Width(c)
    case 1 => [x]
    case 2 => [0xC0 + x / 64, Tail(x)]
    case 3 => [0xE0 + x / 64 / 64, Tail(x / 64), Tail(x)]
    case _ => [0xF0 + x / 64 / 64 / 64, Tail(x / 64 / 64), Tail(x / 64), Tail(x)]
  }

  function Encode(s: string): seq<Byte> {
    if s == [] then [] else EncodeChar(s[0]) + Encode(s[1..])
  }

  /** The length of a Rust string: the bytes of its encoding. */
  function Len(s: string): nat { |Encode(s)| }

  // --- lossy decoding ---

  predicate IsTail(b: Byte) { 0x80 <= b < 0xC0 }

  /** The lead bytes of well-formed sequences; 0 marks a byte that starts none. */
  function LeadWidth(lead: Byte): nat {
    if lead < 0x80 then 1
    else if 0xC2 <= lead <= 0xDF then 2
    else if 0xE0 <= lead <= 0xEF then 3
    else if 0xF0 <= lead <= 0xF4 then 4
    else 0
  }

  /** Second bytes are narrowed so that overlong forms, surrogates and values past U+10FFFF are excluded. */
  predicate SecondFits(lead: Byte, second: Byte) {
    (if lead == 0xE0 then 0xA0 else if lead == 0xF0 then 0x90 else 0x80)
    <= second <=
    (if lead == 0xED then 0x9F else if lead == 0xF4 then 0x8F else 0xBF)
  }

  /** How many bytes of the sequence starting here fit: the maximal well-formed prefix. */
  function Fitting(b: seq<Byte>): (n: nat)
    requires b != []
    ensures 1 <= n <= |b|
  {
    var w := LeadWidth(b[0]);
    if w < 2 || |b| < 2 || !SecondFits(b[0], b[1]) then 1
    else if w < 3 || |b| < 3 || !IsTail(b[2]) then 2
    else if w < 4 || |b| < 4 || !IsTail(b[3]) then 3
    else 4
  }

  function Scalar(x: int): char
    requires 0 <= x < 0xD800 || 0xE000 <= x < 0x11_0000
  {
    x as char
  }

  function Join(high: int, tail: int): int { high * 64 + (tail - 0x80) }

  /** The next character and the bytes it takes up. */
  function DecodeStep(b: seq<Byte>): (r: (char, nat))
    requires b != []
    ensures 1 <= r.1 <= |b|
  {
    var n := Fitting(b);
    if n != LeadWidth(b[0]) then (REPLACEMENT, n)
    else if n == 1 then (Scalar(b[0]), 1)
    else if n == 2 then (Scalar(Join(b[0] as int - 0xC0, b[1])), 2)
    else if n == 3 then (Scalar(Join(Join(b[0] as int - 0xE0, b[1]), b[2])), 3)
    else (Scalar(Join(Join(Join(b[0] as int - 0xF0, b[1]), b[2]), b[3])), 4)
  }

  function DecodeLossy(b: seq<Byte>): string
    decreases |b|
  {
    if b == [] then [] else
      var (c, n) := DecodeStep(b);
      [c] + DecodeLossy(b[n..])
  }

  // --- the codec is lossless on text ---

  lemma StepUndoesChar(c: char, rest: seq<Byte>)
    ensures DecodeStep(EncodeChar(c) + rest) == (c, Width(c))
  {
    var b := EncodeChar(c) + rest;
    assert forall i :: 0 <= i < Width(c) ==> b[i] == EncodeChar(c)[i];
  }

  /** Decoding the encoding of any text gives the text back. */
  lemma {:induction false} DecodeUndoesEncode(s: string)
    ensures DecodeLossy(Encode(s)) == s
  {
    if s != [] {
      StepUndoesChar(s[0], Encode(s[1..]));
      assert Encode(s)[Width(s[0])..] == Encode(s[1..]);
      DecodeUndoesEncode(s[1..]);
    }
  }

  lemma {:induction false} EncodeAppend(s: string, t: string)
    ensures Encode(s + t) == Encode(s) + Encode(t)
  {
    if s == [] {
      assert s + t == t;
    } else {
      assert (s + t)[0] == s[0] && (s + t)[1..] == s[1..] + t;
      EncodeAppend(s[1..], t);
    }
  }

  // --- what is replaced ---

  lemma FullShape(c: char)
    ensures var e := EncodeChar(c);
            && LeadWidth(e[0]) == Width(c)
            && (Width(c) >= 2 ==> SecondFits(e[0], e[1]))
            && (Width(c) >= 3 ==> IsTail(e[2]))
            && (Width(c) == 4 ==> IsTail(e[3]))
  {
  }

  lemma JoinSplits(high: int, tail: int)
    requires high >= 0 && 0x80 <= tail < 0xC0
    ensures Join(high, tail) / 64 == high && Tail(Join(high, tail)) == tail && Join(high, tail) >= 0
  {
  }

  lemma TwoEncode(a: Byte, b: Byte)
    requires LeadWidth(a) == 2 && SecondFits(a, b)
    ensures EncodeChar(Scalar(Join(a as int - 0xC0, b))) == [a, b]
  {
    JoinSplits(a as int - 0xC0, b);
  }

  lemma ThreeEncode(a: Byte, b: Byte, c: Byte)
    requires LeadWidth(a) == 3 && SecondFits(a, b) && IsTail(c)
    ensures EncodeChar(Scalar(Join(Join(a as int - 0xE0, b), c))) == [a, b, c]
  {
    JoinSplits(a as int - 0xE0, b);
    JoinSplits(Join(a as int - 0xE0, b), c);
  }

  lemma FourEncode(a: Byte, b: Byte, c: Byte, d: Byte)
    requires LeadWidth(a) == 4 && SecondFits(a, b) && IsTail(c) && IsTail(d)
    ensures EncodeChar(Scalar(Join(Join(Join(a as int - 0xF0, b), c), d))) == [a, b, c, d]
  {
    JoinSplits(a as int - 0xF0, b);
    JoinSplits(Join(a as int - 0xF0, b), c);
    JoinSplits(Join(Join(a as int - 0xF0, b), c), d);
  }

  /** A sequence that fits is the encoding of the character read from it. */
  lemma FittingIsEncoded(b: seq<Byte>)
    requires b != [] && Fitting(b) == LeadWidth(b[0])
    ensures EncodeChar(DecodeStep(b).0) == b[..DecodeStep(b).1]
  {
    var n := Fitting(b);
    if n == 2 { TwoEncode(b[0], b[1]); }
    else if n == 3 { ThreeEncode(b[0], b[1], b[2]); }
    else if n == 4 { FourEncode(b[0], b[1], b[2], b[3]); }
  }

  /** The next character is read exactly when its encoding comes next. */
  lemma ReadsExactly(b: seq<Byte>, c: char)
    requires b != []
    ensures EncodeChar(c) <= b <==> Fitting(b) == LeadWidth(b[0]) && DecodeStep(b) == (c, Width(c))
  {
    if EncodeChar(c) <= b {
      StepUndoesChar(c, b[Width(c)..]);
      assert EncodeChar(c) + b[Width(c)..] == b;
      FullShape(c);
    } else if Fitting(b) == LeadWidth(b[0]) {
      FittingIsEncoded(b);
    }
  }

  lemma ThreeStarts(a: Byte, b: Byte) returns (c: char)
    requires LeadWidth(a) == 3 && SecondFits(a, b)
    ensures [a, b] <= EncodeChar(c)
  {
    c := Scalar(Join(Join(a as int - 0xE0, b), 0x80));
    ThreeEncode(a, b, 0x80);
  }

  lemma FourStarts(a: Byte, b: Byte, t: Byte) returns (c: char)
    requires LeadWidth(a) == 4 && SecondFits(a, b) && IsTail(t)
    ensures [a, b] <= EncodeChar(c) && [a, b, t] <= EncodeChar(c)
  {
    c := Scalar(Join(Join(Join(a as int - 0xF0, b), t), 0x80));
    FourEncode(a, b, t, 0x80);
  }

  /** The bytes that fit start some character's encoding. */
  lemma FittingStarts(b: seq<Byte>) returns (c: char)
    requires b != [] && 1 < Fitting(b) < LeadWidth(b[0])
    ensures b[..Fitting(b)] <= EncodeChar(c)
  {
    if LeadWidth(b[0]) == 3 {
      c := ThreeStarts(b[0], b[1]);
      assert b[..2] == [b[0], b[1]];
    } else if Fitting(b) == 2 {
      c := FourStarts(b[0], b[1], 0x80);
      assert b[..2] == [b[0], b[1]];
    } else {
      c := FourStarts(b[0], b[1], b[2]);
      assert b[..3] == [b[0], b[1], b[2]];
    }
  }

  lemma NothingLonger(b: seq<Byte>, d: char)
    requires b != [] && Fitting(b) != LeadWidth(b[0]) && Fitting(b) < |b|
    ensures !(b[..Fitting(b) + 1] <= EncodeChar(d))
  {
    var start := b[..Fitting(b) + 1];
    FullShape(d);
    assert forall i :: 0 <= i < |start| ==> start[i] == b[i];
  }

  /**
   Where no character comes next, one replacement character stands for the longest
   stretch that starts some character's encoding, or for a single byte.
   */
  lemma ReplacesMaximally(b: seq<Byte>)
    requires b != [] && forall c :: !(EncodeChar(c) <= b)
    ensures var (c, n) := DecodeStep(b);
            && c == REPLACEMENT
            && (n > 1 ==> exists d :: b[..n] <= EncodeChar(d))
            && (n < |b| ==> forall d :: !(b[..n + 1] <= EncodeChar(d)))
  {
    var n := Fitting(b);
    if n == LeadWidth(b[0]) {
      FittingIsEncoded(b);
    } else {
      if n > 1 { var d := FittingStarts(b); }
      if n < |b| {
        forall d ensures !(b[..n + 1] <= EncodeChar(d)) { NothingLonger(b, d); }
      }
    }
  }

  // --- character boundaries ---

  /** `str::is_char_boundary` for an index inside the text. */
  predicate IsBoundary(b: seq<Byte>, i: nat)
    requires i <= |b|
  {
    i == 0 || i == |b| || !IsTail(b[i])
  }

  lemma CharShape(c: char)
    ensures !IsTail(EncodeChar(c)[0])
    ensures forall i :: 0 < i < Width(c) ==> IsTail(EncodeChar(c)[i])
  {
  }

  lemma FirstBoundary(s: string, i: nat)
    requires 0 < i <= |Encode(s)| && IsBoundary(Encode(s), i)
    ensures Width(s[0]) <= i && Encode(s)[Width(s[0])..] == Encode(s[1..])
    ensures IsBoundary(Encode(s[1..]), i - Width(s[0]))
  {
    var w := Width(s[0]);
    CharShape(s[0]);
    assert forall j :: 0 <= j < w ==> Encode(s)[j] == EncodeChar(s[0])[j];
    assert Encode(s)[w..] == Encode(s[1..]);
  }

  lemma SplitBehindFirst(s: string, k: nat)
    requires k < |s|
    ensures Encode(s[..k + 1]) == EncodeChar(s[0]) + Encode(s[1..][..k])
    ensures s[k + 1..] == s[1..][k..]
  {
    assert s[..k + 1][0] == s[0] && s[..k + 1][1..] == s[1..][..k];
  }

  lemma CutBehind(a: seq<Byte>, b: seq<Byte>, i: nat)
    requires |a| <= i <= |a| + |b|
    ensures (a + b)[..i] == a + b[..i - |a|] && (a + b)[i..] == b[i - |a|..]
  {
  }

  /** Every boundary lies between two characters. */
  lemma {:induction false} BoundaryIsBetween(s: string, i: nat) returns (k: nat)
    requires i <= |Encode(s)| && IsBoundary(Encode(s), i)
    ensures k <= |s| && Encode(s)[..i] == Encode(s[..k]) && Encode(s)[i..] == Encode(s[k..])
    decreases |s|
  {
    if i == 0 {
      k := 0;
      assert s[..0] == [] && s[0..] == s;
    } else {
      var w := Width(s[0]);
      FirstBoundary(s, i);
      k := BoundaryIsBetween(s[1..], i - w);
      SplitBehindFirst(s, k);
      k := k + 1;
      CutBehind(EncodeChar(s[0]), Encode(s[1..]), i);
    }
  }

  /** Between two characters there is a boundary. */
  lemma {:induction false} BetweenIsBoundary(s: string, k: nat)
    requires k <= |s|
    ensures |Encode(s[..k])| <= |Encode(s)| && IsBoundary(Encode(s), |Encode(s[..k])|)
  {
    assert s == s[..k] + s[k..];
    EncodeAppend(s[..k], s[k..]);
    if k < |s| {
      CharShape(s[k]);
      assert Encode(s)[|Encode(s[..k])|] == Encode(s[k..])[0] == EncodeChar(s[k])[0];
    }
  }

  /** From one boundary the next one is at most four bytes away. */
  lemma NextBoundary(s: string, i: nat) returns (j: nat)
    requires i < |Encode(s)| && IsBoundary(Encode(s), i)
    ensures i < j <= i + 4 && j <= |Encode(s)| && IsBoundary(Encode(s), j)
  {
    var k := BoundaryIsBetween(s, i);
    assert s[k..] != [];
    j := i + Width(s[k]);
    assert s[..k + 1] == s[..k] + [s[k]];
    EncodeAppend(s[..k], [s[k]]);
    assert [s[k]][1..] == [];
    assert Encode([s[k]]) == EncodeChar(s[k]);
    BetweenIsBoundary(s, k + 1);
  }
}

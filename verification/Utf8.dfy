/** Cutting a failure reason to size without cutting a character in two. */
module Utf8 {

  type Byte = b: int | 0 <= b < 256

  predicate Tail(b: Byte) { 0x80 <= b <= 0xBF }

  /** May `b` follow the first byte `a` of a character? (section 4 of RFC 3629) */
  predicate Second(a: Byte, b: Byte) {
    if a == 0xE0 then 0xA0 <= b <= 0xBF
    else if a == 0xED then 0x80 <= b <= 0x9F
    else if a == 0xF0 then 0x90 <= b <= 0xBF
    else if a == 0xF4 then 0x80 <= b <= 0x8F
    else Tail(b)
  }

  /** The length of the character that starts with byte `a`, 0 if none does. */
  function Length(a: Byte): nat {
    if a <= 0x7F then 1
    else if 0xC2 <= a <= 0xDF then 2
    else if 0xE0 <= a <= 0xEF then 3
    else if 0xF0 <= a <= 0xF4 then 4
    else 0
  }

  /** The length of the character at the start of `s`, 0 if it is not well formed or not complete. */
  function CharLength(s: seq<Byte>): (n: nat)
    ensures n <= |s| && n <= 4
  {
    if s == [] then 0
    else
      var n := Length(s[0]);
      if n <= |s| && (n > 1 ==> Second(s[0], s[1])) && (n > 2 ==> Tail(s[2])) && (n > 3 ==> Tail(s[3])) then n else 0
  }

  /** `utf8.ValidString`. */
  predicate Valid(s: seq<Byte>)
    decreases |s|
  {
    s == [] || (CharLength(s) > 0 && Valid(s[CharLength(s)..]))
  }

  /** An over-long string becomes the longest valid prefix of its first `max` bytes; when the string was valid,
      no more than three bytes go besides. */
  method Truncate(s: seq<Byte>, max: nat) returns (r: seq<Byte>)
    ensures |s| <= max ==> r == s
    ensures |s| > max ==> Valid(r) && r <= s[..max] && forall k :: |r| < k <= max ==> !Valid(s[..k])
    ensures |s| > max && Valid(s) ==> |r| + 3 >= max
  {
    if |s| <= max {
      return s;
    }
    r := s[..max];
    while |r| > 0 && !Valid(r)
      invariant |r| <= max && r == s[..|r|]
      invariant forall k :: |r| < k <= max ==> !Valid(s[..k])
    {
      r := r[..|r| - 1];
    }
    if Valid(s) {
      var k := Boundary(s, max);
    }
  }

  /** A valid string has a boundary between characters within three bytes before any position. */
  lemma {:induction false} Boundary(s: seq<Byte>, max: nat) returns (k: nat)
    requires Valid(s) && max <= |s|
    ensures k <= max <= k + 3 && Valid(s[..k])
    decreases |s|
  {
    var n := CharLength(s);
    if max < n || s == [] {
      k := 0;
    } else {
      var j := Boundary(s[n..], max - n);
      k := n + j;
      Prefixed(s, n, s[n..][..j]);
      assert s[..k] == s[..n] + s[n..][..j];
    }
  }

  /** A character in front of a valid string makes a valid string. */
  lemma Prefixed(s: seq<Byte>, n: nat, t: seq<Byte>)
    requires n == CharLength(s) > 0 && Valid(t)
    ensures Valid(s[..n] + t)
  {
  }

  // ---------- Valid strings are the encodings of sequences of characters ----------

  predicate Scalar(c: int) { 0 <= c <= 0xD7FF || 0xE000 <= c <= 0x10FFFF }

  function Encode(c: int): seq<Byte>
    requires Scalar(c)
  {
    if c < 0x80 then [c]
    else if c < 0x800 then [0xC0 + c / 64, 0x80 + c % 64]
    else if c < 0x10000 then [0xE0 + c / 64 / 64, 0x80 + c / 64 % 64, 0x80 + c % 64]
    else [0xF0 + c / 64 / 64 / 64, 0x80 + c / 64 / 64 % 64, 0x80 + c / 64 % 64, 0x80 + c % 64]
  }

  /** The number whose last six bits are those of the tail byte `b`, in front of them `a`. */
  function Join(a: int, b: int): int { a * 64 + (b - 0x80) }

  function Decode(s: seq<Byte>): int
    requires CharLength(s) > 0
  {
    match CharLength(s)
    case 1 => s[0]
    case 2 => Join(s[0] - 0xC0, s[1])
    case 3 => Join(Join(s[0] - 0xE0, s[1]), s[2])
    case _ => Join(Join(Join(s[0] - 0xF0, s[1]), s[2]), s[3])
  }

  function EncodeAll(cs: seq<int>): seq<Byte>
    requires forall i :: 0 <= i < |cs| ==> Scalar(cs[i])
  {
    if cs == [] then [] else Encode(cs[0]) + EncodeAll(cs[1..])
  }

  lemma DecodeEncode(c: int, t: seq<Byte>)
    requires Scalar(c)
    ensures CharLength(Encode(c) + t) == |Encode(c)| && Decode(Encode(c) + t) == c
  {
  }

  lemma Split(a: int, b: Byte)
    requires Tail(b)
    ensures Join(a, b) / 64 == a && 0x80 + Join(a, b) % 64 == b
  {
  }

  lemma Two(a: Byte, b: Byte)
    requires Length(a) == 2 && Second(a, b)
    ensures var v := Join(a - 0xC0, b); Scalar(v) && Encode(v) == [a, b]
  {
    Split(a - 0xC0, b);
  }

  lemma Three(a: Byte, b: Byte, c: Byte)
    requires Length(a) == 3 && Second(a, b) && Tail(c)
    ensures var v := Join(Join(a - 0xE0, b), c); Scalar(v) && Encode(v) == [a, b, c]
  {
    var t := Join(a - 0xE0, b);
    Split(a - 0xE0, b);
    Split(t, c);
    assert 0x800 <= Join(t, c) <= 0xFFFF;
  }

  lemma Four(a: Byte, b: Byte, c: Byte, d: Byte)
    requires Length(a) == 4 && Second(a, b) && Tail(c) && Tail(d)
    ensures var v := Join(Join(Join(a - 0xF0, b), c), d); Scalar(v) && Encode(v) == [a, b, c, d]
  {
    var t := Join(a - 0xF0, b);
    var u := Join(t, c);
    Split(a - 0xF0, b);
    Split(t, c);
    Split(u, d);
    assert 0x10000 <= Join(u, d) <= 0x10FFFF;
  }

  lemma EncodeDecode(s: seq<Byte>)
    requires CharLength(s) > 0
    ensures Scalar(Decode(s)) && Encode(Decode(s)) == s[..CharLength(s)]
  {
    match CharLength(s)
    case 1 =>
    case 2 => Two(s[0], s[1]);
    case 3 => Three(s[0], s[1], s[2]);
    case _ => Four(s[0], s[1], s[2], s[3]);
  }

  lemma {:induction false} EncodingsAreValid(cs: seq<int>)
    requires forall i :: 0 <= i < |cs| ==> Scalar(cs[i])
    ensures Valid(EncodeAll(cs))
  {
    if cs != [] {
      EncodingsAreValid(cs[1..]);
      DecodeEncode(cs[0], EncodeAll(cs[1..]));
      var e := Encode(cs[0]);
      assert (e + EncodeAll(cs[1..]))[|e|..] == EncodeAll(cs[1..]);
    }
  }

  lemma {:induction false} ValidIsEncoding(s: seq<Byte>) returns (cs: seq<int>)
    requires Valid(s)
    ensures (forall i :: 0 <= i < |cs| ==> Scalar(cs[i])) && EncodeAll(cs) == s
    decreases |s|
  {
    if s == [] {
      cs := [];
    } else {
      var n := CharLength(s);
      var rest := ValidIsEncoding(s[n..]);
      EncodeDecode(s);
      cs := [Decode(s)] + rest;
      assert cs[1..] == rest && s == s[..n] + s[n..];
    }
  }

  /** A byte string is valid exactly if it encodes some sequence of characters. */
  lemma ValidIffEncoding(s: seq<Byte>)
    ensures Valid(s) <==> exists cs: seq<int> :: (forall i :: 0 <= i < |cs| ==> Scalar(cs[i])) && EncodeAll(cs) == s
  {
    if Valid(s) {
      var cs := ValidIsEncoding(s);
    }
    forall cs: seq<int> | (forall i :: 0 <= i < |cs| ==> Scalar(cs[i])) && EncodeAll(cs) == s ensures Valid(s) {
      EncodingsAreValid(cs);
    }
  }
}

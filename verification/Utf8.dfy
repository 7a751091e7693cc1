/** Python's strict UTF-8 codec, on strings of code points. */
module Utf8 {
  import opened Wrappers

  type Byte = x: int | 0 <= x < 256
  type Point = x: int | 0 <= x < 0x11_0000

  predicate Surrogate(p: Point) { 0xD800 <= p < 0xE000 }

  // str.encode raises on a surrogate.
  predicate Encodable(s: seq<Point>) {
    forall i :: 0 <= i < |s| ==> !Surrogate(s[i])
  }

  function EncodePoint(p: Point): (b: seq<Byte>)
    ensures 1 <= |b| <= 4
  {
    if p < 0x80 then [p]
    else if p < 0x800 then [0xC0 + p / 64, 0x80 + p % 64]
    else if p < 0x1_0000 then [0xE0 + p / 4096, 0x80 + p / 64 % 64, 0x80 + p % 64]
    else [0xF0 + p / 262144, 0x80 + p / 4096 % 64, 0x80 + p / 64 % 64, 0x80 + p % 64]
  }

  function Encode(s: seq<Point>): seq<Byte> {
    if s == [] then [] else EncodePoint(s[0]) + Encode(s[1..])
  }

  predicate Continues(b: Byte) { 0x80 <= b < 0xC0 }

  // Six more bits.
  function Push(high: int, b: Byte): int { high * 64 + (b - 0x80) }

  // The first code point of b and the number of bytes it takes. Overlong forms, surrogates
  // and values past 0x10FFFF are refused.
  function DecodePoint(b: seq<Byte>): (r: Option<(Point, nat)>)
    requires b != []
    ensures r.Some? ==> 1 <= r.value.1 <= |b| && !Surrogate(r.value.0)
  {
    if b[0] < 0x80 then Some((b[0], 1))
    else if 0xC2 <= b[0] < 0xE0 && |b| >= 2 && Continues(b[1]) then
      Some((Push(b[0] - 0xC0, b[1]), 2))
    else if 0xE0 <= b[0] < 0xF0 && |b| >= 3 && Continues(b[1]) && Continues(b[2]) then
      var p := Push(Push(b[0] - 0xE0, b[1]), b[2]);
      if p < 0x800 || Surrogate(p) then None else Some((p, 3))
    else if 0xF0 <= b[0] < 0xF5 && |b| >= 4 && Continues(b[1]) && Continues(b[2]) && Continues(b[3]) then
      var p := Push(Push(Push(b[0] - 0xF0, b[1]), b[2]), b[3]);
      if p < 0x1_0000 || p >= 0x11_0000 then None else Some((p, 4))
    else None
  }

  function Decode(b: seq<Byte>): Option<seq<Point>> {
    if b == [] then Some([])
    else
      match DecodePoint(b)
      case None => None
      case Some((p, n)) =>
        match Decode(b[n..])
        case None => None
        case Some(rest) => Some([p] + rest)
  }

  lemma {:induction false} Digits(p: Point)
    ensures p == p / 64 * 64 + p % 64
    ensures p / 64 == p / 4096 * 64 + p / 64 % 64
    ensures p / 4096 == p / 262144 * 64 + p / 4096 % 64
  {
    assert p / 4096 == p / 64 / 64 && p / 262144 == p / 4096 / 64;
  }

  lemma {:induction false} Pushed(high: nat, b: Byte)
    requires Continues(b)
    ensures Push(high, b) / 64 == high && Push(high, b) % 64 == b - 0x80
  {
  }

  lemma {:induction false} DecodeEncodedPoint(p: Point, rest: seq<Byte>)
    requires !Surrogate(p)
    ensures DecodePoint(EncodePoint(p) + rest) == Some((p, |EncodePoint(p)|))
  {
    Digits(p);
    var b := EncodePoint(p) + rest;
    assert forall i :: 0 <= i < |EncodePoint(p)| ==> b[i] == EncodePoint(p)[i];
  }

  lemma {:induction false} EncodeDecodedPoint(b: seq<Byte>)
    requires b != [] && DecodePoint(b).Some?
    ensures var (p, n) := DecodePoint(b).value; EncodePoint(p) == b[..n]
  {
    var (p, n) := DecodePoint(b).value;
    Digits(p);
    if n == 2 {
      Pushed(b[0] - 0xC0, b[1]);
    } else if n == 3 {
      Pushed(b[0] - 0xE0, b[1]);
      Pushed(Push(b[0] - 0xE0, b[1]), b[2]);
    } else if n == 4 {
      Pushed(b[0] - 0xF0, b[1]);
      Pushed(Push(b[0] - 0xF0, b[1]), b[2]);
      Pushed(Push(Push(b[0] - 0xF0, b[1]), b[2]), b[3]);
    }
  }

  lemma {:induction false} DecodeCons(p: Point, tail: seq<Byte>)
    requires !Surrogate(p) && Decode(tail).Some?
    ensures Decode(EncodePoint(p) + tail) == Some([p] + Decode(tail).value)
  {
    var head := EncodePoint(p);
    DecodeEncodedPoint(p, tail);
    assert (head + tail)[|head|..] == tail;
  }

  lemma {:induction false} RoundTrip(s: seq<Point>)
    requires Encodable(s)
    ensures Decode(Encode(s)) == Some(s)
  {
    if s != [] {
      RoundTrip(s[1..]);
      DecodeCons(s[0], Encode(s[1..]));
      assert [s[0]] + s[1..] == s;
    }
  }

  lemma {:induction false} EncodeCons(p: Point, rest: seq<Point>)
    ensures Encode([p] + rest) == EncodePoint(p) + Encode(rest)
    ensures !Surrogate(p) && Encodable(rest) ==> Encodable([p] + rest)
  {
    assert ([p] + rest)[1..] == rest;
  }

  // Only one byte string decodes to a given text.
  lemma {:induction false} Canonical(b: seq<Byte>)
    requires Decode(b).Some?
    ensures Encodable(Decode(b).value) && Encode(Decode(b).value) == b
    decreases |b|
  {
    if b != [] {
      var (p, n) := DecodePoint(b).value;
      EncodeDecodedPoint(b);
      Canonical(b[n..]);
      EncodeCons(p, Decode(b[n..]).value);
      SplitAt(b, n);
    }
  }

  lemma {:induction false} SplitAt(b: seq<Byte>, n: nat)
    requires n <= |b|
    ensures b[..n] + b[n..] == b
  {
  }

  // The number with four given digits, the most significant first.
  function Spelled(base: int, a: int, b: int, c: int, d: int): int {
    a * base * base * base + b * base * base + c * base + d
  }

  // The form of a code point's bytes, by their number: the leading byte says the number, the
  // rest carry six bits each, the most significant first.
  lemma {:induction false} EncodedForm(p: Point)
    ensures var b := EncodePoint(p);
      && (|b| == 1 <==> p < 0x80) && (|b| == 2 <==> 0x80 <= p < 0x800) && (|b| == 3 <==> 0x800 <= p < 0x1_0000)
      && (forall i :: 0 < i < |b| ==> 0x80 <= b[i] < 0xC0)
      && (|b| == 1 ==> p == b[0])
      && (|b| == 2 ==> 0xC0 <= b[0] < 0xE0 && p == Spelled(64, 0, 0, b[0] - 0xC0, b[1] - 0x80))
      && (|b| == 3 ==> 0xE0 <= b[0] < 0xF0 && p == Spelled(64, 0, b[0] - 0xE0, b[1] - 0x80, b[2] - 0x80))
      && (|b| == 4 ==>
            0xF0 <= b[0] < 0xF8 && p == Spelled(64, b[0] - 0xF0, b[1] - 0x80, b[2] - 0x80, b[3] - 0x80))
  {
    Digits(p);
  }
}

// Bytes, and UTF-8 as RFC 3629 defines it: the strict decoder behind Rust `from_utf8` and `read_line`.
module Utf8 {
  import opened JobQueue

  type byte = x: int | 0 <= x < 256

  function Flatten(parts: seq<seq<byte>>): seq<byte> {
    if parts == [] then [] else parts[0] + Flatten(parts[1..])
  }

  lemma {:induction false} FlattenConcat(a: seq<seq<byte>>, b: seq<seq<byte>>)
    ensures Flatten(a + b) == Flatten(a) + Flatten(b)
  {
    if a == [] {
      assert a + b == b;
    } else {
      assert (a + b)[1..] == a[1..] + b;
      FlattenConcat(a[1..], b);
    }
  }

  function EncodeChar(c: char): (bytes: seq<byte>)
    ensures 1 <= |bytes| <= 4
  {
    var n := c as int;
    if n < 0x80 then [n]
    else if n < 0x800 then [0xC0 + n / 64, 0x80 + n % 64]
    else if n < 0x1_0000 then [0xE0 + n / 4096, 0x80 + n / 64 % 64, 0x80 + n % 64]
    else [0xF0 + n / 262144, 0x80 + n / 4096 % 64, 0x80 + n / 64 % 64, 0x80 + n % 64]
  }

  function Encode(s: string): seq<byte> {
    if s == [] then [] else EncodeChar(s[0]) + Encode(s[1..])
  }

  predicate Continuation(b: byte) {
    0x80 <= b < 0xC0
  }

  predicate Scalar(n: int) {
    0 <= n < 0xD800 || 0xE000 <= n < 0x11_0000
  }

  datatype First = First(c: char, width: nat)

  function Above(b: byte, base: nat): nat
    requires base <= b
  {
    b - base
  }

  /** The first scalar value; overlong forms, surrogates and values above U+10FFFF are refused. */
  function DecodeFirst(b: seq<byte>): (r: Option<First>)
    ensures r.Some? ==> 0 < r.value.width <= |b|
  {
    if b == [] then None
    else if b[0] < 0x80 then Some(First(b[0] as char, 1))
    else if 0xC0 <= b[0] < 0xE0 then
      if |b| < 2 || !Continuation(b[1]) then None
      else
        var n := Above(b[0], 0xC0) * 64 + Above(b[1], 0x80);
        if n < 0x80 then None else Some(First(n as char, 2))
    else if 0xE0 <= b[0] < 0xF0 then
      if |b| < 3 || !Continuation(b[1]) || !Continuation(b[2]) then None
      else
        var n := Above(b[0], 0xE0) * 4096 + Above(b[1], 0x80) * 64 + Above(b[2], 0x80);
        if n < 0x800 || !Scalar(n) then None else Some(First(n as char, 3))
    else if 0xF0 <= b[0] < 0xF8 then
      if |b| < 4 || !Continuation(b[1]) || !Continuation(b[2]) || !Continuation(b[3]) then None
      else
        var n := Above(b[0], 0xF0) * 262144 + Above(b[1], 0x80) * 4096 + Above(b[2], 0x80) * 64 + Above(b[3], 0x80);
        if n < 0x1_0000 || !Scalar(n) then None else Some(First(n as char, 4))
    else None
  }

  function Decode(b: seq<byte>): Option<string>
    decreases |b|
  {
    if b == [] then Some([])
    else
      var first := DecodeFirst(b);
      if first.None? then None
      else
        var rest := Decode(b[first.value.width..]);
        if rest.None? then None else Some([first.value.c] + rest.value)
  }

  /** The base-64 digits of a number and the number they make. */
  lemma Digits(n: nat)
    ensures n == n / 64 * 64 + n % 64 && n / 64 == n / 4096 * 64 + n / 64 % 64
    ensures n / 4096 == n / 262144 * 64 + n / 4096 % 64
  {
  }

  lemma DigitsOf(n: nat, a: nat, b: nat, c: nat, d: nat)
    requires n == a * 262144 + b * 4096 + c * 64 + d && b < 64 && c < 64 && d < 64
    ensures n % 64 == d && n / 64 % 64 == c && n / 4096 % 64 == b && n / 262144 == a
    ensures n / 64 == a * 4096 + b * 64 + c && n / 4096 == a * 64 + b
  {
    assert n / 64 == a * 4096 + b * 64 + c;
    assert n / 4096 == a * 64 + b;
  }

  lemma DecodeFirstEncoded(c: char, rest: seq<byte>)
    ensures DecodeFirst(EncodeChar(c) + rest) == Some(First(c, |EncodeChar(c)|))
  {
    var n, b := c as int, EncodeChar(c) + rest;
    Digits(n);
    if n < 0x80 {
      assert b[0] == n;
    } else if n < 0x800 {
      assert b[0] == 0xC0 + n / 64 && b[1] == 0x80 + n % 64;
    } else if n < 0x1_0000 {
      assert b[0] == 0xE0 + n / 4096 && b[1] == 0x80 + n / 64 % 64 && b[2] == 0x80 + n % 64;
    } else {
      assert b[0] == 0xF0 + n / 262144 && b[1] == 0x80 + n / 4096 % 64 && b[2] == 0x80 + n / 64 % 64
        && b[3] == 0x80 + n % 64;
    }
  }

  lemma EncodeDecodedFirst(b: seq<byte>)
    requires DecodeFirst(b).Some?
    ensures b[..DecodeFirst(b).value.width] == EncodeChar(DecodeFirst(b).value.c)
  {
    var n, width := DecodeFirst(b).value.c as int, DecodeFirst(b).value.width;
    if width == 2 {
      DigitsOf(n, 0, 0, b[0] - 0xC0, b[1] - 0x80);
    } else if width == 3 {
      DigitsOf(n, 0, b[0] - 0xE0, b[1] - 0x80, b[2] - 0x80);
    } else if width == 4 {
      DigitsOf(n, b[0] - 0xF0, b[1] - 0x80, b[2] - 0x80, b[3] - 0x80);
    }
  }

  lemma {:induction false} DecodeEncode(s: string)
    ensures Decode(Encode(s)) == Some(s)
    decreases |s|
  {
    hide DecodeFirst, EncodeChar;
    if s != [] {
      DecodeFirstEncoded(s[0], Encode(s[1..]));
      assert Encode(s)[|EncodeChar(s[0])|..] == Encode(s[1..]);
      DecodeEncode(s[1..]);
      assert Encode(s) != [] && s == [s[0]] + s[1..];
    }
  }

  /** Every byte string that decodes is the encoding of what it decodes to. */
  lemma {:induction false} EncodeDecode(b: seq<byte>)
    requires Decode(b).Some?
    ensures Encode(Decode(b).value) == b
    decreases |b|
  {
    hide DecodeFirst, EncodeChar;
    if b != [] {
      EncodeDecodedFirst(b);
      var width := DecodeFirst(b).value.width;
      EncodeDecode(b[width..]);
      assert b == b[..width] + b[width..];
      var s := Decode(b).value;
      assert s[1..] == Decode(b[width..]).value;
    }
  }
}

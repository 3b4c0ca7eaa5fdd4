/** UTF-8, as `str.encode("utf-8")` and the strict `bytes.decode("utf-8")`; Dafny's `char` is a Unicode scalar value. */
module Utf8 {
  import opened Prelude

  function EncodeChar(c: char): (b: Bytes)
    ensures 1 <= |b| <= 4
  {
    var n := c as int;
    if n < 0x80 then [n]
    else if n < 0x800 then [0xC0 + n / 64, 0x80 + n % 64]
    else if n < 0x10000 then [0xE0 + n / 4096, 0x80 + n / 64 % 64, 0x80 + n % 64]
    else [0xF0 + n / 262144, 0x80 + n / 4096 % 64, 0x80 + n / 64 % 64, 0x80 + n % 64]
  }

  function Encode(s: string): Bytes {
    if s == [] then [] else EncodeChar(s[0]) + Encode(s[1..])
  }

  predicate Continuation(b: byte) { 0x80 <= b < 0xC0 }

  predicate Scalar(n: int) { 0 <= n < 0xD800 || 0xE000 <= n < 0x110000 }

  function Tail(b: byte): int { b as int - 0x80 }

  /** One character off the front: overlong forms, surrogates and values past U+10FFFF are refused. */
  function DecodeChar(b: Bytes): (r: Option<(char, Bytes)>)
    ensures r.Some? ==> |r.value.1| < |b|
  {
    if b == [] then None
    else if b[0] < 0x80 then Some((b[0] as char, b[1..]))
    else if 0xC0 <= b[0] < 0xE0 && |b| >= 2 && Continuation(b[1]) then
      var n: int := (b[0] as int - 0xC0) * 64 + Tail(b[1]);
      if n < 0x80 then None else Some((n as char, b[2..]))
    else if 0xE0 <= b[0] < 0xF0 && |b| >= 3 && Continuation(b[1]) && Continuation(b[2]) then
      var n: int := (b[0] as int - 0xE0) * 4096 + Tail(b[1]) * 64 + Tail(b[2]);
      if n < 0x800 || !Scalar(n) then None else Some((n as char, b[3..]))
    else if 0xF0 <= b[0] < 0xF8 && |b| >= 4 && Continuation(b[1]) && Continuation(b[2]) && Continuation(b[3]) then
      var n: int := (b[0] as int - 0xF0) * 262144 + Tail(b[1]) * 4096 + Tail(b[2]) * 64 + Tail(b[3]);
      if n < 0x10000 || !Scalar(n) then None else Some((n as char, b[4..]))
    else None
  }

  function Decode(b: Bytes): Option<string>
    decreases |b|
  {
    if b == [] then Some("")
    else match DecodeChar(b)
      case None => None
      case Some((c, rest)) =>
        match Decode(rest)
        case None => None
        case Some(s) => Some([c] + s)
  }

  lemma DecodeCharInvertsEncodeChar(c: char, rest: Bytes)
    ensures DecodeChar(EncodeChar(c) + rest) == Some((c, rest))
  {
    var n, e := c as int, EncodeChar(c);
    var b := e + rest;
    assert b[|e|..] == rest;
    assert forall i :: 0 <= i < |e| ==> b[i] == e[i];
    assert Scalar(n);
    if n < 0x800 {
    } else if n < 0x10000 {
      Digits64(n);
      assert |e| == 3 && b[0] as int - 0xE0 == n / 4096 && Tail(b[1]) == n / 64 % 64 && Tail(b[2]) == n % 64;
    } else {
      Digits64(n);
      assert |e| == 4 && b[0] as int - 0xF0 == n / 262144;
      assert Tail(b[1]) == n / 4096 % 64 && Tail(b[2]) == n / 64 % 64 && Tail(b[3]) == n % 64;
    }
  }

  lemma Digits64(n: nat)
    ensures n == n / 4096 * 4096 + n / 64 % 64 * 64 + n % 64
    ensures n == n / 262144 * 262144 + n / 4096 % 64 * 4096 + n / 64 % 64 * 64 + n % 64
  {
    assert n / 64 / 64 == n / 4096 && n / 4096 / 64 == n / 262144;
  }

  lemma FromDigits64(x: nat, y: nat, z: nat, w: nat)
    requires y < 64 && z < 64 && w < 64
    ensures var n := x * 64 + w; n / 64 == x && n % 64 == w
    ensures var n := x * 4096 + z * 64 + w; n / 4096 == x && n / 64 % 64 == z && n % 64 == w
    ensures var n := x * 262144 + y * 4096 + z * 64 + w;
      n / 262144 == x && n / 4096 % 64 == y && n / 64 % 64 == z && n % 64 == w
  {
    var m := x * 4096 + z * 64 + w;
    assert m / 64 == x * 64 + z;
    var n := x * 262144 + y * 4096 + z * 64 + w;
    assert n / 64 == x * 4096 + y * 64 + z;
    assert n / 4096 == x * 64 + y;
  }

  lemma EncodeCharInvertsDecodeChar(b: Bytes)
    requires DecodeChar(b).Some?
    ensures EncodeChar(DecodeChar(b).value.0) + DecodeChar(b).value.1 == b
  {
    if b[0] < 0x80 {
    } else if b[0] < 0xE0 {
      EncodeCharOfTwo(b);
    } else if b[0] < 0xF0 {
      EncodeCharOfThree(b);
    } else {
      EncodeCharOfFour(b);
    }
  }

  lemma EncodeCharOfTwo(b: Bytes)
    requires DecodeChar(b).Some? && 0xC0 <= b[0] < 0xE0
    ensures EncodeChar(DecodeChar(b).value.0) + DecodeChar(b).value.1 == b
  {
    FromDigits64(b[0] as int - 0xC0, 0, 0, Tail(b[1]));
    assert EncodeChar(DecodeChar(b).value.0) == [b[0], b[1]];
  }

  lemma EncodeCharOfThree(b: Bytes)
    requires DecodeChar(b).Some? && 0xE0 <= b[0] < 0xF0
    ensures EncodeChar(DecodeChar(b).value.0) + DecodeChar(b).value.1 == b
  {
    FromDigits64(b[0] as int - 0xE0, 0, Tail(b[1]), Tail(b[2]));
    assert EncodeChar(DecodeChar(b).value.0) == [b[0], b[1], b[2]];
  }

  lemma EncodeCharOfFour(b: Bytes)
    requires DecodeChar(b).Some? && 0xF0 <= b[0]
    ensures EncodeChar(DecodeChar(b).value.0) + DecodeChar(b).value.1 == b
  {
    FromDigits64(b[0] as int - 0xF0, Tail(b[1]), Tail(b[2]), Tail(b[3]));
    assert EncodeChar(DecodeChar(b).value.0) == [b[0], b[1], b[2], b[3]];
  }

  /** Encoding can be undone ... */
  lemma {:induction false} DecodeInvertsEncode(s: string)
    ensures Decode(Encode(s)) == Some(s)
  {
    if s != [] {
      DecodeCharInvertsEncodeChar(s[0], Encode(s[1..]));
      DecodeInvertsEncode(s[1..]);
      assert s == [s[0]] + s[1..];
    }
  }

  /** ... and no other bytes decode to the same text. */
  lemma {:induction false} EncodeInvertsDecode(b: Bytes)
    requires Decode(b).Some?
    ensures Encode(Decode(b).value) == b
    decreases |b|
  {
    if b != [] {
      EncodeCharInvertsDecodeChar(b);
      var (c, rest) := DecodeChar(b).value;
      EncodeInvertsDecode(rest);
      var s := Decode(rest).value;
      assert ([c] + s)[1..] == s;
    }
  }

  lemma {:induction false} EncodeConcat(s: string, t: string)
    ensures Encode(s + t) == Encode(s) + Encode(t)
  {
    if s == "" {
      assert s + t == t;
    } else {
      assert (s + t)[1..] == s[1..] + t;
      EncodeConcat(s[1..], t);
    }
  }

  lemma EncodeInjective(s: string, t: string)
    requires Encode(s) == Encode(t)
    ensures s == t
  {
    DecodeInvertsEncode(s);
    DecodeInvertsEncode(t);
  }

  /** A NUL byte comes only from a NUL character. */
  lemma {:induction false} EncodeNulFree(s: string)
    requires '\0' !in s
    ensures 0 !in Encode(s)
  {
    if s != [] {
      assert s[0] in s && forall c :: c in s[1..] ==> c in s;
      EncodeNulFree(s[1..]);
      var e := EncodeChar(s[0]);
      assert 0 !in e;
    }
  }

  /** On ASCII text the bytes are the code points. */
  lemma {:induction false} EncodeAscii(s: string)
    requires forall c :: c in s ==> c as int < 0x80
    ensures |Encode(s)| == |s|
    ensures forall i :: 0 <= i < |s| ==> Encode(s)[i] == s[i] as int
  {
    if s != [] {
      assert s[0] in s && forall c :: c in s[1..] ==> c in s;
      EncodeAscii(s[1..]);
    }
  }
}

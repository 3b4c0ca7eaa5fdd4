/** Standard padded base64 (section 4 of RFC 4648) and Python's strict decoder for it. */
module Base64 {
  import opened Prelude

  /** `A` to `Z`, `a` to `z`, `0` to `9`, `+`, `/` (table 1 of RFC 4648). */
  function Symbol(v: nat): (c: char)
    requires v < 64
    ensures Value(c) == Some(v) && c != '='
  {
    if v < 26 then (v + 65) as char
    else if v < 52 then (v + 71) as char
    else if v < 62 then (v - 4) as char
    else if v == 62 then '+' else '/'
  }

  function Value(c: char): (r: Option<nat>)
    ensures r.Some? ==> r.value < 64
  {
    var n := c as int;
    if 'A' <= c <= 'Z' then Some(n - 65)
    else if 'a' <= c <= 'z' then Some(n - 71)
    else if '0' <= c <= '9' then Some(n + 4)
    else if c == '+' then Some(62)
    else if c == '/' then Some(63)
    else None
  }

  function EncodeGroup(x: byte, y: byte, z: byte): (g: string)
    ensures |g| == 4 && g[3] != '='
  {
    [Symbol(x / 4), Symbol(x % 4 * 16 + y / 16), Symbol(y % 16 * 4 + z / 64), Symbol(z % 64)]
  }

  /** The padded last group, for one or two bytes. */
  function EncodeTail(raw: Bytes): (g: string)
    requires 1 <= |raw| <= 2
    ensures |g| == 4 && g[3] == '='
  {
    if |raw| == 1 then [Symbol(raw[0] / 4), Symbol(raw[0] % 4 * 16), '=', '=']
    else [Symbol(raw[0] / 4), Symbol(raw[0] % 4 * 16 + raw[1] / 16), Symbol(raw[1] % 16 * 4), '=']
  }

  /** `b64encode`. */
  function Encode(raw: Bytes): string {
    if |raw| == 0 then ""
    else if |raw| < 3 then EncodeTail(raw)
    else EncodeGroup(raw[0], raw[1], raw[2]) + Encode(raw[3..])
  }

  /** The three bytes of four symbol values. */
  function Joined(a: nat, b: nat, c: nat, d: nat): (raw: Bytes)
    requires a < 64 && b < 64 && c < 64 && d < 64
    ensures |raw| == 3
  {
    [a * 4 + b / 16, b % 16 * 16 + c / 4, c % 4 * 64 + d]
  }

  function DecodeGroup(g: string): (r: Option<Bytes>)
    requires |g| == 4
    ensures r.Some? ==> |r.value| == 3
  {
    if Value(g[0]).None? || Value(g[1]).None? || Value(g[2]).None? || Value(g[3]).None? then None
    else Some(Joined(Value(g[0]).value, Value(g[1]).value, Value(g[2]).value, Value(g[3]).value))
  }

  function DecodeTail(g: string): (r: Option<Bytes>)
    requires |g| == 4 && g[3] == '='
    ensures r.Some? ==> 1 <= |r.value| <= 2
  {
    if Value(g[0]).None? || Value(g[1]).None? then None
    else
      var a, b := Value(g[0]).value, Value(g[1]).value;
      if g[2] == '=' then Some([a * 4 + b / 16])
      else if Value(g[2]).None? then None
      else Some([a * 4 + b / 16, b % 16 * 16 + Value(g[2]).value / 4])
  }

  predicate Padding(s: string) { forall i :: 0 <= i < |s| ==> s[i] == '=' }

  /** `b64decode(s, validate=True)` of CPython 3.11: bits left over in a padded group are ignored, and so is any padding
      after a whole group. */
  function Decode(s: string): Result<Bytes> {
    if |s| == 0 then Ok([])
    else if |s| < 4 then Raised(ValueError)
    else if |s| == 4 && s[3] == '=' then
      (match DecodeTail(s) case None => Raised(ValueError) case Some(raw) => Ok(raw))
    else
      match DecodeGroup(s[..4])
      case None => Raised(ValueError)
      case Some(raw) =>
        if Padding(s[4..]) then Ok(raw)
        else match Decode(s[4..])
          case Raised(e) => Raised(e)
          case Ok(rest) => Ok(raw + rest)
  }

  /** The decoder's first blind spot: the unused low bits of the symbol in front of the padding. */
  predicate TailHasNoStrayBits(g: string)
    requires |g| == 4 && g[3] == '='
  {
    if g[2] == '=' then Value(g[1]).Some? && Value(g[1]).value % 16 == 0
    else Value(g[2]).Some? && Value(g[2]).value % 4 == 0
  }

  predicate NoStrayBits(s: string) {
    var n := |s|;
    n < 4 || s[n - 1] != '=' || TailHasNoStrayBits(s[n - 4..])
  }

  /** The second is excess padding: of the texts that are accepted, those of another length than whole groups, and those
      that end in a group of nothing else, have it. */
  predicate Exact(s: string) { |s| % 4 == 0 && NoStrayBits(s) }

  lemma Split4(q: nat, r: nat)
    requires r < 4
    ensures (q * 4 + r) / 4 == q && (q * 4 + r) % 4 == r
  {
  }

  lemma Split16(q: nat, r: nat)
    requires r < 16
    ensures (q * 16 + r) / 16 == q && (q * 16 + r) % 16 == r
  {
  }

  lemma Split64(q: nat, r: nat)
    requires r < 64
    ensures (q * 64 + r) / 64 == q && (q * 64 + r) % 64 == r
  {
  }

  lemma DecodeEncodedGroup(x: byte, y: byte, z: byte)
    ensures DecodeGroup(EncodeGroup(x, y, z)) == Some([x, y, z])
  {
    Split16(x % 4, y / 16);
    Split4(y % 16, z / 64);
    JoinedIs(x / 4, x % 4 * 16 + y / 16, y % 16 * 4 + z / 64, z % 64, [x, y, z]);
  }

  lemma JoinedIs(a: nat, b: nat, c: nat, d: nat, raw: Bytes)
    requires a < 64 && b < 64 && c < 64 && d < 64
    requires |raw| == 3 && a * 4 + b / 16 == raw[0] && b % 16 * 16 + c / 4 == raw[1] && c % 4 * 64 + d == raw[2]
    ensures Joined(a, b, c, d) == raw
  {
  }

  lemma DecodeEncodedTail(raw: Bytes)
    requires 1 <= |raw| <= 2
    ensures DecodeTail(EncodeTail(raw)) == Some(raw)
  {
    var x := raw[0];
    assert x / 4 * 4 + (x % 4 * 16) / 16 == x;
    if |raw| == 2 {
      var y := raw[1];
      assert x / 4 * 4 + (x % 4 * 16 + y / 16) / 16 == x;
      assert (x % 4 * 16 + y / 16) % 16 * 16 + (y % 16 * 4) / 4 == y;
      assert raw == [x, y];
    } else {
      assert raw == [x];
    }
  }

  lemma EncodeStep(raw: Bytes)
    requires |raw| > 2
    ensures |Encode(raw)| >= 4 && Encode(raw)[..4] == EncodeGroup(raw[0], raw[1], raw[2])
    ensures Encode(raw)[4..] == Encode(raw[3..])
    ensures Padding(Encode(raw[3..])) <==> raw[3..] == []
  {
    if raw[3..] != [] { assert Encode(raw[3..])[0] == Symbol(raw[3] / 4); }
  }

  lemma DecodeStep(s: string)
    requires |s| >= 4 && DecodeGroup(s[..4]).Some?
    ensures var raw := DecodeGroup(s[..4]).value;
      Decode(s) == if Padding(s[4..]) then Ok(raw)
                   else match Decode(s[4..]) case Raised(e) => Raised(e) case Ok(rest) => Ok(raw + rest)
  {
    assert s[..4][3] == s[3];
  }

  /** Strict decoding inverts encoding. */
  lemma {:induction false} DecodeInvertsEncode(raw: Bytes)
    ensures Decode(Encode(raw)) == Ok(raw)
  {
    if 1 <= |raw| <= 2 {
      DecodeEncodedTail(raw);
    } else if |raw| > 2 {
      DecodeEncodedGroup(raw[0], raw[1], raw[2]);
      EncodeStep(raw);
      DecodeStep(Encode(raw));
      assert raw == [raw[0], raw[1], raw[2]] + raw[3..];
      if raw[3..] != [] { DecodeInvertsEncode(raw[3..]); } else { assert raw == [raw[0], raw[1], raw[2]]; }
    }
  }

  lemma SymbolOfValue(c: char)
    requires Value(c).Some?
    ensures Symbol(Value(c).value) == c
  {
  }

  lemma JoinFour(a: nat, b: nat, c: nat, d: nat)
    requires a < 64 && b < 64 && c < 64 && d < 64
    ensures (a * 4 + b / 16) / 4 == a && (a * 4 + b / 16) % 4 * 16 + (b % 16 * 16 + c / 4) / 16 == b
    ensures (b % 16 * 16 + c / 4) % 16 * 4 + (c % 4 * 64 + d) / 64 == c && (c % 4 * 64 + d) % 64 == d
    ensures (a * 4 + b / 16) % 4 * 16 == b - b % 16
    ensures (b % 16 * 16 + c / 4) % 16 * 4 == c - c % 4
  {
  }

  lemma EncodeJoined(a: nat, b: nat, c: nat, d: nat)
    requires a < 64 && b < 64 && c < 64 && d < 64
    ensures var raw := Joined(a, b, c, d);
      EncodeGroup(raw[0], raw[1], raw[2]) == [Symbol(a), Symbol(b), Symbol(c), Symbol(d)]
  {
    var raw := Joined(a, b, c, d);
    Split4(a, b / 16);
    Split16(b % 16, c / 4);
    Split64(c % 4, d);
    GroupIs(raw[0], raw[1], raw[2], a, b, c, d);
  }

  lemma GroupIs(x: byte, y: byte, z: byte, a: nat, b: nat, c: nat, d: nat)
    requires a < 64 && b < 64 && c < 64 && d < 64
    requires x / 4 == a && x % 4 * 16 + y / 16 == b && y % 16 * 4 + z / 64 == c && z % 64 == d
    ensures EncodeGroup(x, y, z) == [Symbol(a), Symbol(b), Symbol(c), Symbol(d)]
  {
  }

  lemma EncodeDecodedGroup(g: string)
    requires |g| == 4 && DecodeGroup(g).Some?
    ensures var raw := DecodeGroup(g).value; EncodeGroup(raw[0], raw[1], raw[2]) == g
  {
    EncodeJoined(Value(g[0]).value, Value(g[1]).value, Value(g[2]).value, Value(g[3]).value);
    SymbolOfValue(g[0]);
    SymbolOfValue(g[1]);
    SymbolOfValue(g[2]);
    SymbolOfValue(g[3]);
  }

  /** A padded group encodes back to itself exactly when it has no stray bits. */
  lemma EncodeDecodedTail(g: string)
    requires |g| == 4 && g[3] == '=' && DecodeTail(g).Some?
    ensures EncodeTail(DecodeTail(g).value) == g <==> TailHasNoStrayBits(g)
  {
    var a, b := Value(g[0]).value, Value(g[1]).value;
    var e := EncodeTail(DecodeTail(g).value);
    SymbolOfValue(g[0]);
    SymbolOfValue(g[1]);
    if g[2] == '=' {
      JoinFour(a, b, 0, 0);
      assert Value(e[1]) == Some(b - b % 16);
    } else {
      var c := Value(g[2]).value;
      SymbolOfValue(g[2]);
      JoinFour(a, b, c, 0);
      assert Value(e[2]) == Some(c - c % 4);
    }
  }

  /** Encoding gives an accepted text back exactly when that text has neither stray bits nor excess padding. */
  lemma {:induction false} EncodeInvertsDecode(s: string)
    requires Decode(s).Ok?
    ensures Encode(Decode(s).value) == s <==> Exact(s)
  {
    if |s| == 0 {
    } else if |s| == 4 && s[3] == '=' {
      EncodeDecodedTail(s);
      assert s[0..] == s;
    } else {
      EncodeDecodedGroup(s[..4]);
      assert s == s[..4] + s[4..];
      DecodeStep(s);
      if Padding(s[4..]) {
        EncodePadded(s);
      } else {
        var raw, rest := DecodeGroup(s[..4]).value, Decode(s[4..]).value;
        EncodeInvertsDecode(s[4..]);
        assert (raw + rest)[3..] == rest;
        assert Encode(raw + rest) == s[..4] + Encode(rest);
        DecodedLength(s[4..]);
        ExactOfTail(s);
      }
    }
  }

  lemma EncodePadded(s: string)
    requires |s| >= 4 && DecodeGroup(s[..4]).Some? && Padding(s[4..]) && Decode(s) == Ok(DecodeGroup(s[..4]).value)
    requires var raw := DecodeGroup(s[..4]).value; EncodeGroup(raw[0], raw[1], raw[2]) == s[..4]
    ensures Encode(Decode(s).value) == s <==> Exact(s)
  {
    var raw := DecodeGroup(s[..4]).value;
    assert raw[3..] == [] && Encode(raw) == s[..4] + "" == s[..4];
    if |s| >= 8 {
      var last := s[|s| - 4..];
      assert last[1] == s[4..][|s| - 7] == '=' && last[2] == s[4..][|s| - 6] == '=';
    }
  }

  lemma DecodedLength(s: string)
    requires Decode(s).Ok? && s != ""
    ensures |s| >= 4
  {
  }

  lemma ExactOfTail(s: string)
    requires |s| >= 8
    ensures Exact(s) <==> Exact(s[4..])
  {
    assert s[|s| - 4..] == s[4..][|s| - 8..];
  }

  /** So the payload text of an envelope is malleable: stray bits give two texts for one byte, and excess padding gives
      as many as one likes for three. */
  lemma TwoTextsForOneByte()
    ensures Decode("QQ==") == Ok([65]) && Decode("QR==") == Ok([65])
    ensures Exact("QQ==") && !Exact("QR==")
    ensures Decode("QUJD") == Ok([65, 66, 67]) && Decode("QUJD=") == Ok([65, 66, 67])
    ensures Exact("QUJD") && !Exact("QUJD=")
  {
    assert Value('Q') == Some(16) && Value('R') == Some(17);
    assert "QQ=="[0..] == "QQ==" && "QR=="[0..] == "QR==";
    assert Value('U') == Some(20) && Value('J') == Some(9) && Value('D') == Some(3);
    assert "QUJD"[..4] == "QUJD" && "QUJD"[4..] == "" && "QUJD="[..4] == "QUJD" && "QUJD="[4..] == "=";
  }

  /** What is not base64 is a `ValueError`. */
  lemma {:induction false} DecodeErrors(s: string)
    ensures Decode(s).Raised? ==> Decode(s) == Raised(ValueError)
    decreases |s|
  {
    if |s| > 4 { DecodeErrors(s[4..]); }
  }
}

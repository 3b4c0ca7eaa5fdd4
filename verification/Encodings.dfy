/** The encoding that `json.loads` guesses for bytes, and what the text then is. Lone surrogates are refused. */
module Encodings {
  import opened Prelude
  import Utf8

  predicate StartsWith(b: Bytes, mark: Bytes) { |mark| <= |b| && b[..|mark|] == mark }

  /** The 16-bit unit made of two bytes. */
  function Unit(x: byte, y: byte, big: bool): (n: nat)
    ensures n < 0x10000
  {
    if big then x * 256 + y else y * 256 + x
  }

  /** `utf-16-be` or `utf-16-le`. */
  function Utf16(b: Bytes, big: bool): Option<string>
    decreases |b|
  {
    if b == [] then Some("")
    else if |b| == 1 then None
    else
      var u := Unit(b[0], b[1], big);
      if 0xD800 <= u < 0xDC00 then
        if |b| < 4 then None
        else
          var v := Unit(b[2], b[3], big);
          if !(0xDC00 <= v < 0xE000) then None
          else match Utf16(b[4..], big)
            case None => None
            case Some(s) => Some([(0x10000 + (u - 0xD800) * 1024 + (v - 0xDC00)) as char] + s)
      else if 0xDC00 <= u < 0xE000 then None
      else match Utf16(b[2..], big)
        case None => None
        case Some(s) => Some([u as char] + s)
  }

  /** `utf-32-be` or `utf-32-le`. */
  function Utf32(b: Bytes, big: bool): Option<string>
    decreases |b|
  {
    if b == [] then Some("")
    else if |b| < 4 then None
    else
      var n := if big then Unit(b[0], b[1], true) * 65536 + Unit(b[2], b[3], true)
               else Unit(b[2], b[3], false) * 65536 + Unit(b[0], b[1], false);
      if !Utf8.Scalar(n) then None
      else match Utf32(b[4..], big)
        case None => None
        case Some(s) => Some([n as char] + s)
  }

  /** A wide encoding names its byte order and how long its byte order mark is. */
  datatype Encoding = Plain | Signed | Wide16(big: bool, mark: nat) | Wide32(big: bool, mark: nat)

  /** A byte order mark decides; without one, the places of the zero bytes among the first four do. */
  function Detect(b: Bytes): (e: Encoding)
    ensures match e case Plain => true case Signed => 3 <= |b| case Wide16(_, m) => m <= |b| case Wide32(_, m) => m <= |b|
  {
    if StartsWith(b, [0, 0, 0xFE, 0xFF]) then Wide32(true, 4)
    else if StartsWith(b, [0xFF, 0xFE, 0, 0]) then Wide32(false, 4)
    else if StartsWith(b, [0xFE, 0xFF]) then Wide16(true, 2)
    else if StartsWith(b, [0xFF, 0xFE]) then Wide16(false, 2)
    else if StartsWith(b, [0xEF, 0xBB, 0xBF]) then Signed
    else if |b| >= 4 && b[0] == 0 then (if b[1] != 0 then Wide16(true, 0) else Wide32(true, 0))
    else if |b| >= 4 && b[1] == 0 then (if b[2] != 0 || b[3] != 0 then Wide16(false, 0) else Wide32(false, 0))
    else if |b| == 2 && b[0] == 0 then Wide16(true, 0)
    else if |b| == 2 && b[1] == 0 then Wide16(false, 0)
    else Plain
  }

  function Decode(b: Bytes): Option<string> {
    match Detect(b)
    case Plain => Utf8.Decode(b)
    case Signed => Utf8.Decode(b[3..])
    case Wide16(big, mark) => Utf16(b[mark..], big)
    case Wide32(big, mark) => Utf32(b[mark..], big)
  }

  /** Bytes that begin with an ASCII character and hold no zero byte are taken for UTF-8. */
  lemma AsciiStartIsUtf8(b: Bytes)
    requires (b != [] ==> b[0] < 0x80) && 0 !in b
    ensures Detect(b) == Plain
  {
    if b != [] { assert b[0] in b; }
    if |b| >= 2 { assert b[1] in b; }
    assert forall mark: Bytes :: mark != [] && StartsWith(b, mark) ==> b[0] == mark[0];
  }
}

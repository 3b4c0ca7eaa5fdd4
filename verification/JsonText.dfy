/**
 JSON text: `json.dumps(..., separators=(",", ":"), ensure_ascii=False)` and `json.loads`
 (RFC 8259, sections 2 to 7). A character is a Unicode scalar value, so lone surrogates
 are outside the value type and the reader refuses them.
 */
module JsonText {
  import opened Prelude
  import opened Json
  import opened Numbers
  import Encodings

  // ---- printing ------------------------------------------------------------

  const HEX := "0123456789abcdef"

  function Digit(d: nat): (c: char)
    requires d < 16
    ensures d < 10 ==> IsDigit(c) && c as int - '0' as int == d
    ensures HexValue(c) == Some(d)
  {
    HEX[d]
  }

  function EscapeChar(c: char): string {
    if c == '"' then "\\\""
    else if c == '\\' then "\\\\"
    else if c == '\n' then "\\n"
    else if c == '\r' then "\\r"
    else if c == '\t' then "\\t"
    else if c as int == 8 then "\\b"
    else if c as int == 12 then "\\f"
    else if c as int < 32 then "\\u00" + [Digit(c as int / 16), Digit(c as int % 16)]
    else [c]
  }

  function PrintChars(s: string): string {
    if s == "" then "" else EscapeChar(s[0]) + PrintChars(s[1..])
  }

  function PrintString(s: string): string { "\"" + PrintChars(s) + "\"" }

  function Digits(n: nat): (s: string)
    ensures s != "" && IsDigit(s[0])
    ensures s[0] == '0' ==> n == 0
  {
    if n < 10 then [Digit(n)] else Digits(n / 10) + [Digit(n % 10)]
  }

  function PrintInt(n: int): string { if n < 0 then "-" + Digits(-n) else Digits(n) }

  function Print(j: Json): string
    decreases j, 1
  {
    match j
    case Null => "null"
    case Bool(b) => if b then "true" else "false"
    case Int(n) => PrintInt(n)
    case Num(t) => t
    case Str(s) => PrintString(s)
    case Arr(items) => "[" + PrintItems(items) + "]"
    case Obj(ms) => "{" + PrintMembers(ms) + "}"
  }

  function PrintItems(items: seq<Json>): string
    decreases items, 0
  {
    if items == [] then ""
    else if |items| == 1 then Print(items[0])
    else Print(items[0]) + "," + PrintItems(items[1..])
  }

  function PrintMember(m: Member): string
    decreases m, 2
  {
    PrintString(m.key) + ":" + Print(m.value)
  }

  function PrintMembers(ms: seq<Member>): string
    decreases ms, 0
  {
    if ms == [] then ""
    else if |ms| == 1 then PrintMember(ms[0])
    else PrintMember(ms[0]) + "," + PrintMembers(ms[1..])
  }

  // ---- what is printed -------------------------------------------------------

  /** Only the quote, the backslash and the control characters are escaped, the latter by their short form where they have
      one; everything else stands for itself, also outside ASCII. */
  lemma EscapeCharIs(c: char)
    ensures ' ' <= c && c != '"' && c != '\\' ==> EscapeChar(c) == [c]
    ensures EscapeChar('"') == "\\\"" && EscapeChar('\\') == "\\\\"
    ensures EscapeChar('\n') == "\\n" && EscapeChar('\r') == "\\r" && EscapeChar('\t') == "\\t"
    ensures EscapeChar('\U{8}') == "\\b" && EscapeChar('\U{C}') == "\\f"
    ensures c < ' ' && c !in "\n\r\t\U{8}\U{C}" ==>
      EscapeChar(c) == "\\u00" + [if c < '\U{10}' then '0' else '1', "0123456789abcdef"[c as int % 16]]
  {
  }

  /** A minus sign exactly for a negative number, digits after it, and no zero in front of others. */
  lemma PrintIntIs(n: int)
    ensures n >= 0 ==> IsDigit(PrintInt(n)[0]) && (PrintInt(n)[0] == '0' ==> PrintInt(n) == "0")
    ensures n > 0 ==> PrintInt(-n) == "-" + PrintInt(n)
  {
  }

  predicate NoWs(s: string) { forall i :: 0 <= i < |s| ==> !IsWs(s[i]) }

  /** No text in it, and no key, has a space. */
  predicate Spaceless(j: Json) {
    match j
    case Num(t) => NoWs(t)
    case Str(s) => ' ' !in s
    case Arr(items) => forall x :: x in items ==> Spaceless(x)
    case Obj(ms) => forall m :: m in ms ==> ' ' !in m.key && Spaceless(m.value)
    case _ => true
  }

  lemma {:induction false} PrintCharsNoWs(s: string)
    requires ' ' !in s
    ensures NoWs(PrintChars(s))
  {
    if s != "" {
      assert s[0] in s && forall c :: c in s[1..] ==> c in s;
      PrintCharsNoWs(s[1..]);
      EscapeNoWs(s[0]);
    }
  }

  lemma EscapeNoWs(c: char)
    requires c != ' '
    ensures NoWs(EscapeChar(c))
  {
    assert forall d: nat :: d < 16 ==> !IsWs(Digit(d)) by { assert NoWs(HEX); }
  }

  lemma {:induction false} DigitsNoWs(n: nat)
    ensures NoWs(Digits(n))
  {
    if n >= 10 { DigitsNoWs(n / 10); }
  }

  /** The printer puts no white space anywhere outside texts. */
  lemma {:induction false} PrintIsCompact(j: Json)
    requires Spaceless(j)
    ensures NoWs(Print(j))
    decreases j, 1
  {
    match j
    case Int(n) => DigitsNoWs(if n < 0 then -n else n);
    case Str(s) => PrintCharsNoWs(s);
    case Arr(items) => ItemsAreCompact(items);
    case Obj(ms) => MembersAreCompact(ms);
    case _ =>
  }

  lemma {:induction false} ItemsAreCompact(items: seq<Json>)
    requires forall x :: x in items ==> Spaceless(x)
    ensures NoWs(PrintItems(items))
    decreases items, 0
  {
    if items != [] {
      PrintIsCompact(items[0]);
      ItemsAreCompact(items[1..]);
    }
  }

  lemma {:induction false} MembersAreCompact(ms: seq<Member>)
    requires forall m :: m in ms ==> ' ' !in m.key && Spaceless(m.value)
    ensures NoWs(PrintMembers(ms))
    decreases ms, 0
  {
    if ms != [] {
      MemberIsCompact(ms[0]);
      MembersAreCompact(ms[1..]);
    }
  }

  lemma {:induction false} MemberIsCompact(m: Member)
    requires ' ' !in m.key && Spaceless(m.value)
    ensures NoWs(PrintMember(m))
    decreases m, 2
  {
    PrintCharsNoWs(m.key);
    PrintIsCompact(m.value);
  }

  // ---- reading -------------------------------------------------------------

  predicate IsWs(c: char) { c == ' ' || c == '\t' || c == '\n' || c == '\r' }

  function SkipWs(s: string): (r: string)
    ensures |r| <= |s|
  {
    if s != "" && IsWs(s[0]) then SkipWs(s[1..]) else s
  }

  function HexValue(c: char): (r: Option<int>)
    ensures r.Some? ==> 0 <= r.value < 16
  {
    if IsDigit(c) then Some(c as int - '0' as int)
    else if 'a' <= c <= 'f' then Some(c as int - 'a' as int + 10)
    else if 'A' <= c <= 'F' then Some(c as int - 'A' as int + 10)
    else None
  }

  /** Four hexadecimal digits. */
  function ParseHex4(s: string): (p: Parsed<int>)
    ensures p.Got? ==> 0 <= p.value < 0x10000 && |p.rest| < |s|
  {
    if |s| >= 4 && HexValue(s[0]).Some? && HexValue(s[1]).Some? && HexValue(s[2]).Some? && HexValue(s[3]).Some? then
      Got(HexValue(s[0]).value * 4096 + HexValue(s[1]).value * 256 + HexValue(s[2]).value * 16 + HexValue(s[3]).value,
          s[4..])
    else Fail
  }

  /** The character of an escape sequence whose backslash is already read. */
  function ParseEscape(s: string): (p: Parsed<char>)
    ensures p.Got? ==> |p.rest| < |s|
  {
    if s == "" then Fail
    else if s[0] == '"' || s[0] == '\\' || s[0] == '/' then Got(s[0], s[1..])
    else if s[0] == 'b' then Got(8 as char, s[1..])
    else if s[0] == 'f' then Got(12 as char, s[1..])
    else if s[0] == 'n' then Got('\n', s[1..])
    else if s[0] == 'r' then Got('\r', s[1..])
    else if s[0] == 't' then Got('\t', s[1..])
    else if s[0] == 'u' then
      match ParseHex4(s[1..])
      case Fail => Fail
      case Got(hi, r) =>
        if 0xD800 <= hi < 0xDC00 && |r| >= 2 && r[0] == '\\' && r[1] == 'u' then
          match ParseHex4(r[2..])
          case Fail => Fail
          case Got(lo, r2) =>
            if 0xDC00 <= lo < 0xE000
            then Got((0x10000 + (hi - 0xD800) * 1024 + (lo - 0xDC00)) as char, r2)
            else Fail
        else if 0xD800 <= hi < 0xE000 then Fail
        else Got(hi as char, r)
    else Fail
  }

  /** The rest of a string whose opening quote is already read. */
  function ParseChars(s: string): (p: Parsed<string>)
    ensures p.Got? ==> |p.rest| < |s|
    decreases |s|
  {
    if s == "" then Fail
    else if s[0] == '"' then Got("", s[1..])
    else if s[0] == '\\' then
      match ParseEscape(s[1..])
      case Fail => Fail
      case Got(c, r) =>
        match ParseChars(r)
        case Fail => Fail
        case Got(t, r2) => Got([c] + t, r2)
    else if s[0] as int < 32 then Fail
    else
      match ParseChars(s[1..])
      case Fail => Fail
      case Got(t, r) => Got([s[0]] + t, r)
  }

  /** An integer, or a float with its literal. */
  function ParseNumber(s: string): (p: Parsed<Json>)
    ensures p.Got? ==> |p.rest| < |s|
  {
    match ParseInt(s)
    case Fail => Fail
    case Got(n, r) =>
      var k := TailLength(r);
      if k == 0 then Got(Int(n), r) else Got(Num(s[..|s| - |r| + k]), r[k..])
  }

  predicate Starts(s: string, word: string) { |word| <= |s| && s[..|word|] == word }

  /** `dict(pairs)`: a repeated key keeps its first place and takes its last value. */
  function Put(ms: seq<Member>, m: Member): seq<Member> {
    if ms == [] then [m]
    else if ms[0].key == m.key then [m] + ms[1..]
    else [ms[0]] + Put(ms[1..], m)
  }

  function FromPairs(ms: seq<Member>): seq<Member> {
    if ms == [] then [] else Put(FromPairs(ms[..|ms| - 1]), ms[|ms| - 1])
  }

  /** The last value written for a key. */
  function LastOf(ms: seq<Member>, key: string): Option<Json> {
    if ms == [] then None
    else if ms[|ms| - 1].key == key then Some(ms[|ms| - 1].value)
    else LastOf(ms[..|ms| - 1], key)
  }

  lemma {:induction false} PutMaps(ms: seq<Member>, m: Member, key: string)
    ensures Lookup(Put(ms, m), key) == if key == m.key then Some(m.value) else Lookup(ms, key)
  {
    if ms != [] && ms[0].key != m.key { PutMaps(ms[1..], m, key); }
  }

  /** Of a key that an object repeats, the last value is the one that is read. */
  lemma {:induction false} LastValueIsRead(ms: seq<Member>, key: string)
    ensures Lookup(FromPairs(ms), key) == LastOf(ms, key)
  {
    if ms != [] {
      LastValueIsRead(ms[..|ms| - 1], key);
      PutMaps(FromPairs(ms[..|ms| - 1]), ms[|ms| - 1], key);
    }
  }

  /** A character beyond the basic plane may be written as a pair of escapes, high half first. */
  lemma SurrogatePairGolden(text: string, rest: string)
    requires text == "ud83d\\ude00" + rest
    ensures ParseEscape(text) == Got('\U{1F600}', rest)
  {
    var t := text[1..];
    HighHalf(t, rest);
    LowHalf(t[4..][2..], rest);
    EscapePair(text, 0xD83D, t[4..], 0xDE00, rest);
  }

  lemma HighHalf(t: string, rest: string)
    requires t == ("ud83d\\ude00" + rest)[1..]
    ensures |t| >= 6 && ParseHex4(t) == Got(0xD83D, t[4..]) && t[4] == '\\' && t[5] == 'u'
  {
  }

  lemma LowHalf(u: string, rest: string)
    requires u == ("ud83d\\ude00" + rest)[1..][4..][2..]
    ensures ParseHex4(u) == Got(0xDE00, rest)
  {
    assert u[4..] == rest;
  }

  lemma EscapePair(s: string, hi: int, r: string, lo: int, rest: string)
    requires s != "" && s[0] == 'u' && ParseHex4(s[1..]) == Got(hi, r) && |r| >= 2 && r[0] == '\\' && r[1] == 'u'
    requires ParseHex4(r[2..]) == Got(lo, rest) && 0xD800 <= hi < 0xDC00 <= lo < 0xE000
    ensures ParseEscape(s) == Got((0x10000 + (hi - 0xD800) * 1024 + (lo - 0xDC00)) as char, rest)
  {
  }

  /** The constants, and the floats that are not finite. */
  function ParseWord(s: string): (p: Parsed<Json>)
    ensures p.Got? ==> |p.rest| < |s|
  {
    if Starts(s, "null") then Got(Null, s[4..])
    else if Starts(s, "true") then Got(Bool(true), s[4..])
    else if Starts(s, "false") then Got(Bool(false), s[5..])
    else if Starts(s, "NaN") then Got(Num("NaN"), s[3..])
    else if Starts(s, "Infinity") then Got(Num("Infinity"), s[8..])
    else if Starts(s, "-Infinity") then Got(Num("-Infinity"), s[9..])
    else Fail
  }

  function ParseValue(s: string): (p: Parsed<Json>)
    ensures p.Got? ==> |p.rest| < |s|
    decreases |s|, 1
  {
    if s == "" then Fail
    else if s[0] == '"' then
      match ParseChars(s[1..])
      case Fail => Fail
      case Got(t, r) => Got(Str(t), r)
    else if s[0] == '{' then
      var t := SkipWs(s[1..]);
      if t != "" && t[0] == '}' then Got(Obj([]), t[1..])
      else
        match ParseMembers(t)
        case Fail => Fail
        case Got(ms, r) => Got(Obj(FromPairs(ms)), r)
    else if s[0] == '[' then
      var t := SkipWs(s[1..]);
      if t != "" && t[0] == ']' then Got(Arr([]), t[1..])
      else
        match ParseItems(t)
        case Fail => Fail
        case Got(xs, r) => Got(Arr(xs), r)
    else match ParseWord(s)
      case Got(v, r) => Got(v, r)
      case Fail => ParseNumber(s)
  }

  function ParseItems(s: string): (p: Parsed<seq<Json>>)
    ensures p.Got? ==> |p.rest| < |s|
    decreases |s|, 2
  {
    match ParseValue(s)
    case Fail => Fail
    case Got(v, r) =>
      var t := SkipWs(r);
      if t == "" then Fail
      else if t[0] == ']' then Got([v], t[1..])
      else if t[0] != ',' then Fail
      else
        match ParseItems(SkipWs(t[1..]))
        case Fail => Fail
        case Got(vs, r2) => Got([v] + vs, r2)
  }

  function ParseMember(s: string): (p: Parsed<Member>)
    ensures p.Got? ==> |p.rest| < |s|
    decreases |s|, 2
  {
    if s == "" || s[0] != '"' then Fail
    else
      match ParseChars(s[1..])
      case Fail => Fail
      case Got(key, r) =>
        var t := SkipWs(r);
        if t == "" || t[0] != ':' then Fail
        else
          match ParseValue(SkipWs(t[1..]))
          case Fail => Fail
          case Got(v, r2) => Got(Member(key, v), r2)
  }

  function ParseMembers(s: string): (p: Parsed<seq<Member>>)
    ensures p.Got? ==> |p.rest| < |s|
    decreases |s|, 3
  {
    match ParseMember(s)
    case Fail => Fail
    case Got(m, r) =>
      var t := SkipWs(r);
      if t == "" then Fail
      else if t[0] == '}' then Got([m], t[1..])
      else if t[0] != ',' then Fail
      else
        match ParseMembers(SkipWs(t[1..]))
        case Fail => Fail
        case Got(ms, r2) => Got([m] + ms, r2)
  }

  /** `json.loads` on text. */
  function Loads(s: string): Result<Json> {
    match ParseValue(SkipWs(s))
    case Fail => Raised(ValueError)
    case Got(v, r) => if SkipWs(r) == "" then Ok(v) else Raised(ValueError)
  }

  /** `json.loads` on bytes. */
  function LoadsBytes(b: Bytes): Result<Json> {
    match Encodings.Decode(b)
    case None => Raised(ValueError)
    case Some(s) => Loads(s)
  }

  // ---- what is read ----------------------------------------------------------

  predicate AllWs(s: string) { forall c :: c in s ==> c in " \t\n\r" }

  /** `json.loads` reads one value with nothing but white space around it; of anything else it raises `ValueError`. */
  lemma LoadsExactly(w: string, s: string, v: Json)
    requires AllWs(w) && (s == "" || s[0] !in " \t\n\r")
    ensures Loads(w + s) == Ok(v) <==> ParseValue(s).Got? && ParseValue(s).value == v && AllWs(ParseValue(s).rest)
    ensures Loads(w + s).Raised? ==> Loads(w + s) == Raised(ValueError)
  {
    SkipWsOf(w, s);
    if ParseValue(s).Got? { SkipWsAll(ParseValue(s).rest); }
  }

  lemma {:induction false} SkipWsOf(w: string, s: string)
    requires AllWs(w) && (s == "" || s[0] !in " \t\n\r")
    ensures SkipWs(w + s) == s
  {
    if w == "" {
      assert w + s == s;
    } else {
      assert w[0] in w && forall c :: c in w[1..] ==> c in w;
      assert (w + s)[1..] == w[1..] + s;
      SkipWsOf(w[1..], s);
    }
  }

  lemma {:induction false} SkipWsAll(s: string)
    ensures SkipWs(s) == "" <==> AllWs(s)
  {
    if s != "" {
      assert s[0] in s && (forall c :: c in s[1..] ==> c in s) && forall c :: c in s ==> c == s[0] || c in s[1..];
      SkipWsAll(s[1..]);
    }
  }

  /** White space around the colon of a member does not count. */
  lemma SpacesAroundColon(chars: string, key: string, w1: string, w2: string, text: string)
    requires ParseChars(chars) == Got(key, w1 + (":" + (w2 + text))) && AllWs(w1) && AllWs(w2)
    requires text == "" || text[0] !in " \t\n\r"
    ensures ParseMember("\"" + chars) ==
      match ParseValue(text) case Fail => Fail case Got(v, rest) => Got(Member(key, v), rest)
  {
    var after := ":" + (w2 + text);
    assert ("\"" + chars)[1..] == chars && after[1..] == w2 + text;
    SkipWsOf(w1, after);
    SkipWsOf(w2, text);
  }

  /** No object that is read repeats a key. */
  lemma ObjectsRepeatNothing(s: string)
    requires ParseValue(s).Got? && ParseValue(s).value.Obj?
    ensures DistinctKeys(ParseValue(s).value.members)
  {
    if s[0] == '{' {
      var t := SkipWs(s[1..]);
      if t == "" || t[0] != '}' { FromPairsDistinct(ParseMembers(t).value); }
    }
  }

  lemma {:induction false} FromPairsDistinct(ms: seq<Member>)
    ensures DistinctKeys(FromPairs(ms))
  {
    if ms != [] {
      FromPairsDistinct(ms[..|ms| - 1]);
      PutDistinct(FromPairs(ms[..|ms| - 1]), ms[|ms| - 1]);
    }
  }

  lemma {:induction false} PutDistinct(ms: seq<Member>, m: Member)
    requires DistinctKeys(ms)
    ensures DistinctKeys(Put(ms, m))
    ensures forall x :: x in Put(ms, m) ==> x.key == m.key || exists y :: y in ms && y.key == x.key
  {
    if ms != [] && ms[0].key != m.key {
      PutDistinct(ms[1..], m);
      assert forall y :: y in ms[1..] ==> y in ms;
      forall x | x in Put(ms[1..], m) ensures x.key != ms[0].key {
        if y :| y in ms[1..] && y.key == x.key {
          var k :| 0 <= k < |ms[1..]| && ms[1..][k] == y;
          assert ms[k + 1] == y;
        }
      }
    }
  }
}

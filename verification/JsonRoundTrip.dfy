/** Reading back what was printed. */
module JsonRoundTrip {
  import opened Prelude
  import opened Json
  import opened JsonText
  import opened Numbers
  import Encodings
  import Utf8

  lemma Shift(a: string, b: string, c: string)
    ensures a + b + c == a + (b + c)
  {
  }

  lemma ParseEscapeOfPrinted(c: char, rest: string)
    ensures var e := EscapeChar(c) + rest;
      if EscapeChar(c) == [c] then c != '"' && c != '\\' && c as int >= 32 && e[0] == c && e[1..] == rest
      else e[0] == '\\' && ParseEscape(e[1..]) == Got(c, rest)
  {
    var e := EscapeChar(c) + rest;
    if c as int < 32 && |EscapeChar(c)| == 6 {
      var t := e[1..];
      assert t == ['u', '0', '0', Digit(c as int / 16), Digit(c as int % 16)] + rest;
      assert t[1..][0] == '0' && t[1..][1] == '0' && t[1..][2] == Digit(c as int / 16) && t[1..][3] == Digit(c as int % 16);
      assert t[1..][4..] == rest;
      assert ParseHex4(t[1..]) == Got(c as int, rest);
    } else if EscapeChar(c) == [c] {
    } else {
      assert e[1..] == [EscapeChar(c)[1]] + rest;
      assert e[1..][1..] == rest;
    }
  }

  lemma {:induction false} ParseCharsOfPrinted(s: string, rest: string)
    ensures ParseChars(PrintChars(s) + "\"" + rest) == Got(s, rest)
  {
    if s == "" {
      assert PrintChars(s) + "\"" + rest == "\"" + rest;
    } else {
      var tail := PrintChars(s[1..]) + "\"" + rest;
      var all := PrintChars(s) + "\"" + rest;
      assert all == EscapeChar(s[0]) + tail;
      ParseCharsOfPrinted(s[1..], rest);
      ParseEscapeOfPrinted(s[0], tail);
      assert s == [s[0]] + s[1..];
    }
  }

  lemma ReadOneDigit(acc: nat, d: nat, rest: string)
    requires d < 10
    ensures ReadDigits(acc, [Digit(d)] + rest) == ReadDigits(acc * 10 + d, rest)
  {
    assert ([Digit(d)] + rest)[1..] == rest;
  }

  lemma {:induction false} ReadDigitsOfPrinted(n: nat, rest: string)
    ensures ReadDigits(0, Digits(n) + rest) == ReadDigits(n, rest)
  {
    if n < 10 {
      ReadOneDigit(0, n, rest);
    } else {
      Shift(Digits(n / 10), [Digit(n % 10)], rest);
      ReadDigitsOfPrinted(n / 10, [Digit(n % 10)] + rest);
      ReadOneDigit(n / 10, n % 10, rest);
    }
  }

  lemma ParseNatOfPrinted(n: nat, rest: string)
    requires EndsNumber(rest)
    ensures ParseNat(Digits(n) + rest) == Got(n, rest)
  {
    if Digits(n)[0] == '0' {
      assert Digits(n) == "0" && ("0" + rest)[1..] == rest;
    } else {
      ReadDigitsOfPrinted(n, rest);
      assert ReadDigits(n, rest) == (n, rest);
      ParseNatFromDigits(Digits(n) + rest, n, rest);
    }
  }

  lemma ParseNatFromDigits(s: string, n: nat, rest: string)
    requires s != "" && IsDigit(s[0]) && s[0] != '0' && ReadDigits(0, s) == (n, rest)
    ensures ParseNat(s) == Got(n, rest)
  {
    FirstDigit(s);
  }

  lemma FirstDigit(s: string)
    requires s != "" && IsDigit(s[0])
    ensures ReadDigits(0, s) == ReadDigits(s[0] as int - '0' as int, s[1..])
  {
  }

  lemma PrintStarts(j: Json)
    requires Wf(j)
    ensures Print(j) != ""
    ensures var c := Print(j)[0]; !IsWs(c) && c != ']' && c != '}' && c != ',' && c as int < 0x80
  {
    if j.Num? && Literal(j.text) { LiteralChars(j.text); }
  }

  lemma SkipWsOfPrinted(j: Json, rest: string)
    requires Wf(j)
    ensures SkipWs(Print(j) + rest) == Print(j) + rest
  {
    PrintStarts(j);
  }

  lemma {:induction false} PutNew(ms: seq<Member>, m: Member)
    requires forall x :: x in ms ==> x.key != m.key
    ensures Put(ms, m) == ms + [m]
  {
    if ms != [] {
      assert ms == [ms[0]] + ms[1..];
      PutNew(ms[1..], m);
    }
  }

  lemma {:induction false} FromDistinctPairs(ms: seq<Member>)
    requires DistinctKeys(ms)
    ensures FromPairs(ms) == ms
  {
    if ms != [] {
      var init := ms[..|ms| - 1];
      FromDistinctPairs(init);
      PutNew(init, ms[|ms| - 1]);
      assert ms == init + [ms[|ms| - 1]];
    }
  }

  lemma ParseStringOfPrinted(s: string, rest: string)
    ensures ParseValue(PrintString(s) + rest) == Got(Str(s), rest)
  {
    var all := PrintString(s) + rest;
    assert all[1..] == PrintChars(s) + "\"" + rest;
    ParseCharsOfPrinted(s, rest);
  }

  lemma NotStart(s: string, w: string, i: nat)
    requires i < |w| && (i >= |s| || s[i] != w[i])
    ensures !Starts(s, w)
  {
    assert |w| <= |s| ==> s[..|w|][i] == s[i];
  }

  lemma NoWord(s: string)
    requires s != "" && (s[0] == '-' || s[0] == 'N' || s[0] == 'I' || IsDigit(s[0]))
    ensures !Starts(s, "null") && !Starts(s, "true") && !Starts(s, "false")
    ensures s[0] != 'N' ==> !Starts(s, "NaN")
    ensures s[0] != 'I' ==> !Starts(s, "Infinity")
  {
    NotStart(s, "null", 0);
    NotStart(s, "true", 0);
    NotStart(s, "false", 0);
    if s[0] != 'N' { NotStart(s, "NaN", 0); }
    if s[0] != 'I' { NotStart(s, "Infinity", 0); }
  }

  lemma NumberIsNoWord(s: string)
    requires s != "" && ParseInt(s).Got?
    ensures ParseWord(s).Fail? && (s[0] == '-' || IsDigit(s[0]))
  {
    NoWord(s);
    NotStart(s, "-Infinity", if s[0] == '-' then 1 else 0);
  }

  lemma ParseValueOfNumber(s: string)
    requires s != "" && ParseInt(s).Got?
    ensures ParseValue(s) == ParseNumber(s)
  {
    NumberIsNoWord(s);
  }

  lemma ParseNegative(t: string, n: nat, rest: string)
    requires ParseNat(t) == Got(n, rest)
    ensures ParseInt("-" + t) == Got(-(n as int), rest)
  {
    assert ("-" + t)[1..] == t;
  }

  lemma ParseIntOfPrinted(n: int, rest: string)
    requires EndsNumber(rest)
    ensures ParseInt(PrintInt(n) + rest) == Got(n, rest)
    ensures PrintInt(n)[0] == '-' || IsDigit(PrintInt(n)[0])
  {
    if n < 0 {
      ParseNatOfPrinted(-n, rest);
      ParseNegative(Digits(-n) + rest, -n, rest);
      Shift("-", Digits(-n), rest);
    } else {
      ParseNatOfPrinted(n, rest);
      assert (Digits(n) + rest)[0] == Digits(n)[0];
    }
  }

  lemma ParseIntegerOfPrinted(n: int, rest: string)
    requires EndsNumber(rest)
    ensures ParseValue(PrintInt(n) + rest) == Got(Int(n), rest)
  {
    ParseIntOfPrinted(n, rest);
    ParseValueOfNumber(PrintInt(n) + rest);
    NoTail(rest);
  }

  lemma ParseLiteralOfPrinted(t: string, rest: string)
    requires Literal(t) && EndsNumber(rest)
    ensures ParseValue(t + rest) == Got(Num(t), rest)
  {
    ParseIntBefore(t, rest);
    ParseValueOfNumber(t + rest);
    var tail := ParseInt(t).rest;
    TailBefore(tail, rest);
    assert (t + rest)[..|t|] == t && (tail + rest)[|tail|..] == rest;
  }

  lemma ParseNonFinite(t: string, all: string, rest: string)
    requires t in NON_FINITE && all == t + rest
    ensures ParseValue(all) == Got(Num(t), rest)
  {
    assert all[..|t|] == t && all[|t|..] == rest && all[0] == t[0];
    assert Starts(all, t);
    NoWord(all);
  }

  lemma ParseFloatOfPrinted(t: string, rest: string)
    requires FloatText(t) && EndsNumber(rest)
    ensures ParseValue(t + rest) == Got(Num(t), rest)
  {
    if Literal(t) { ParseLiteralOfPrinted(t, rest); } else { ParseNonFinite(t, t + rest, rest); }
  }

  lemma ParseWordOfPrinted(j: Json, rest: string)
    requires j.Null? || j.Bool?
    ensures ParseValue(Print(j) + rest) == Got(j, rest)
  {
    var all := Print(j) + rest;
    assert all[..|Print(j)|] == Print(j) && all[|Print(j)|..] == rest;
    assert j == Bool(false) ==> all[0] == 'f';
    assert forall w: string :: w != "" && Starts(all, w) ==> all[0] == w[0];
  }

  lemma ParseArrStep(t: string, xs: seq<Json>, rest: string)
    requires SkipWs(t) == t && t != "" && t[0] != ']' && ParseItems(t) == Got(xs, rest)
    ensures ParseValue("[" + t) == Got(Arr(xs), rest)
  {
    assert ("[" + t)[1..] == t;
  }

  lemma ParseObjStep(t: string, ms: seq<Member>, rest: string)
    requires SkipWs(t) == t && t != "" && t[0] != '}' && ParseMembers(t) == Got(ms, rest)
    requires DistinctKeys(ms)
    ensures ParseValue("{" + t) == Got(Obj(ms), rest)
  {
    assert ("{" + t)[1..] == t;
    FromDistinctPairs(ms);
  }

  lemma ParseEmpty(rest: string)
    ensures ParseValue("[]" + rest) == Got(Arr([]), rest)
    ensures ParseValue("{}" + rest) == Got(Obj([]), rest)
  {
    assert ("[]" + rest)[1..] == "]" + rest && ("]" + rest)[1..] == rest;
    assert ("{}" + rest)[1..] == "}" + rest && ("}" + rest)[1..] == rest;
  }

  lemma Bracketed(open: string, t: string, close: string, rest: string)
    ensures open + t + close + rest == open + (t + close + rest)
    ensures t + close + rest == t + (close + rest)
  {
  }

  /** The reader undoes the printer, whatever text follows. */
  lemma {:induction false} ParseOfPrinted(j: Json, rest: string)
    requires Wf(j) && EndsNumber(rest)
    ensures ParseValue(Print(j) + rest) == Got(j, rest)
    decreases j, 1
  {
    match j
    case Null => ParseWordOfPrinted(j, rest);
    case Bool(_) => ParseWordOfPrinted(j, rest);
    case Int(n) => ParseIntegerOfPrinted(n, rest);
    case Num(t) => ParseFloatOfPrinted(t, rest);
    case Str(s) => ParseStringOfPrinted(s, rest);
    case Arr(items) => ParseArrOfPrinted(items, rest);
    case Obj(ms) => ParseObjOfPrinted(ms, rest);
  }

  lemma {:induction false} ParseArrOfPrinted(items: seq<Json>, rest: string)
    requires forall x :: x in items ==> Wf(x)
    ensures ParseValue(Print(Arr(items)) + rest) == Got(Arr(items), rest)
    decreases items, 1
  {
    Bracketed("[", PrintItems(items), "]", rest);
    if items == [] {
      ParseEmpty(rest);
    } else {
      ItemsStart(items, "]" + rest);
      ParseItemsOfPrinted(items, rest);
      ParseArrStep(PrintItems(items) + "]" + rest, items, rest);
    }
  }

  lemma {:induction false} ParseObjOfPrinted(ms: seq<Member>, rest: string)
    requires DistinctKeys(ms) && forall m :: m in ms ==> Wf(m.value)
    ensures ParseValue(Print(Obj(ms)) + rest) == Got(Obj(ms), rest)
    decreases ms, 1
  {
    Bracketed("{", PrintMembers(ms), "}", rest);
    if ms == [] { ParseEmpty(rest); } else { ParseMembersInBraces(ms, rest); }
  }

  lemma {:induction false} ParseMembersInBraces(ms: seq<Member>, rest: string)
    requires ms != [] && DistinctKeys(ms) && forall m :: m in ms ==> Wf(m.value)
    ensures ParseValue("{" + (PrintMembers(ms) + "}" + rest)) == Got(Obj(ms), rest)
    decreases ms, 0, 1
  {
    Bracketed("{", PrintMembers(ms), "}", rest);
    MembersStart(ms, "}" + rest);
    ParseMembersOfPrinted(ms, rest);
    ParseObjStep(PrintMembers(ms) + "}" + rest, ms, rest);
  }

  lemma ItemsStart(items: seq<Json>, rest: string)
    requires items != [] && Wf(items[0])
    ensures var t := PrintItems(items) + rest; SkipWs(t) == t && t != "" && t[0] != ']'
  {
    PrintStarts(items[0]);
  }

  lemma MembersStart(ms: seq<Member>, rest: string)
    requires ms != []
    ensures var t := PrintMembers(ms) + rest; SkipWs(t) == t && t != "" && t[0] == '"'
  {
    assert PrintMember(ms[0])[0] == '"';
  }

  lemma ParseItemsMore(s: string, v: Json, tail: string)
    requires ParseValue(s) == Got(v, "," + tail) && SkipWs(tail) == tail && ParseItems(tail).Got?
    ensures ParseItems(s) == Got([v] + ParseItems(tail).value, ParseItems(tail).rest)
  {
    assert ("," + tail)[1..] == tail;
  }

  lemma ParseItemsLast(s: string, v: Json, rest: string)
    requires ParseValue(s) == Got(v, "]" + rest)
    ensures ParseItems(s) == Got([v], rest)
  {
    assert ("]" + rest)[1..] == rest;
  }

  lemma Separated(head: string, tail: string, close: string, rest: string)
    ensures head + "," + tail + close + rest == head + ("," + (tail + close + rest))
    ensures tail + close + rest == tail + (close + rest)
  {
    Shift(head + ",", tail, close);
    Shift(head + ",", tail + close, rest);
    Shift(head, ",", tail + close + rest);
    Shift(tail, close, rest);
  }

  lemma ItemsText(items: seq<Json>, rest: string, tail: string)
    requires |items| > 1 && Wf(items[1]) && tail == PrintItems(items[1..]) + "]" + rest
    ensures PrintItems(items) + "]" + rest == Print(items[0]) + ("," + tail)
    ensures SkipWs(tail) == tail
  {
    Separated(Print(items[0]), PrintItems(items[1..]), "]", rest);
    ItemsStart(items[1..], "]" + rest);
  }

  lemma {:induction false} ParseItemsOfPrinted(items: seq<Json>, rest: string)
    requires items != [] && forall x :: x in items ==> Wf(x)
    ensures ParseItems(PrintItems(items) + "]" + rest) == Got(items, rest)
    decreases items, 0
  {
    if |items| == 1 {
      ParseOfPrinted(items[0], "]" + rest);
      Shift(Print(items[0]), "]", rest);
      ParseItemsLast(PrintItems(items) + "]" + rest, items[0], rest);
      assert items == [items[0]];
    } else {
      var tail := PrintItems(items[1..]) + "]" + rest;
      ItemsText(items, rest, tail);
      ParseOfPrinted(items[0], "," + tail);
      ParseItemsOfPrinted(items[1..], rest);
      ParseItemsMore(Print(items[0]) + ("," + tail), items[0], tail);
      assert items == [items[0]] + items[1..];
    }
  }

  lemma ParseMemberStep(s: string, key: string, tail: string)
    requires s != "" && s[0] == '"' && ParseChars(s[1..]) == Got(key, ":" + tail) && SkipWs(tail) == tail
    requires ParseValue(tail).Got?
    ensures ParseMember(s) == Got(Member(key, ParseValue(tail).value), ParseValue(tail).rest)
  {
    assert (":" + tail)[1..] == tail;
  }

  lemma MemberText(m: Member, rest: string, tail: string)
    requires tail == Print(m.value) + rest
    ensures PrintMember(m) + rest == "\"" + (PrintChars(m.key) + "\"" + (":" + tail))
  {
    Regroup("\"", PrintChars(m.key), ":", Print(m.value), rest);
  }

  lemma Regroup(q: string, k: string, colon: string, v: string, rest: string)
    ensures (q + k + q) + colon + v + rest == q + (k + q + (colon + (v + rest)))
  {
    Shift((q + k + q) + colon, v, rest);
    Shift(q + k + q, colon, v + rest);
    Shift(q + k, q, colon + (v + rest));
    Shift(q, k, q + (colon + (v + rest)));
    Shift(k, q, colon + (v + rest));
  }

  lemma {:induction false} ParseMemberOfPrinted(m: Member, rest: string)
    requires Wf(m.value) && EndsNumber(rest)
    ensures ParseMember(PrintMember(m) + rest) == Got(m, rest)
    decreases m, 2
  {
    var tail := Print(m.value) + rest;
    var body := PrintChars(m.key) + "\"" + (":" + tail);
    MemberText(m, rest, tail);
    assert ("\"" + body)[1..] == body;
    ParseCharsOfPrinted(m.key, ":" + tail);
    SkipWsOfPrinted(m.value, rest);
    ParseOfPrinted(m.value, rest);
    ParseMemberStep("\"" + body, m.key, tail);
  }

  lemma ParseMembersMore(s: string, m: Member, tail: string)
    requires ParseMember(s) == Got(m, "," + tail) && SkipWs(tail) == tail && ParseMembers(tail).Got?
    ensures ParseMembers(s) == Got([m] + ParseMembers(tail).value, ParseMembers(tail).rest)
  {
    assert ("," + tail)[1..] == tail;
  }

  lemma ParseMembersLast(s: string, m: Member, rest: string)
    requires ParseMember(s) == Got(m, "}" + rest)
    ensures ParseMembers(s) == Got([m], rest)
  {
    assert ("}" + rest)[1..] == rest;
  }

  lemma MembersText(ms: seq<Member>, rest: string, tail: string)
    requires |ms| > 1 && tail == PrintMembers(ms[1..]) + "}" + rest
    ensures PrintMembers(ms) + "}" + rest == PrintMember(ms[0]) + ("," + tail)
    ensures SkipWs(tail) == tail
  {
    Separated(PrintMember(ms[0]), PrintMembers(ms[1..]), "}", rest);
    MembersStart(ms[1..], "}" + rest);
  }

  lemma OneMember(ms: seq<Member>, rest: string)
    requires |ms| == 1 && ParseMember(PrintMember(ms[0]) + ("}" + rest)) == Got(ms[0], "}" + rest)
    ensures ParseMembers(PrintMembers(ms) + "}" + rest) == Got(ms, rest)
  {
    Shift(PrintMember(ms[0]), "}", rest);
    ParseMembersLast(PrintMembers(ms) + "}" + rest, ms[0], rest);
    assert ms == [ms[0]];
  }

  lemma MoreMembers(ms: seq<Member>, whole: string, rest: string, tail: string)
    requires |ms| > 1 && ParseMember(whole) == Got(ms[0], "," + tail) && SkipWs(tail) == tail
    requires ParseMembers(tail) == Got(ms[1..], rest)
    ensures ParseMembers(whole) == Got(ms, rest)
  {
    ParseMembersMore(whole, ms[0], tail);
    assert ms == [ms[0]] + ms[1..];
  }

  lemma {:induction false} ParseMembersOfPrinted(ms: seq<Member>, rest: string)
    requires ms != [] && forall m :: m in ms ==> Wf(m.value)
    ensures ParseMembers(PrintMembers(ms) + "}" + rest) == Got(ms, rest)
    decreases ms, 0, 0
  {
    if |ms| == 1 {
      ParseMemberOfPrinted(ms[0], "}" + rest);
      OneMember(ms, rest);
    } else {
      var tail := PrintMembers(ms[1..]) + "}" + rest;
      MembersText(ms, rest, tail);
      ParseMemberOfPrinted(ms[0], "," + tail);
      ParseMembersOfPrinted(ms[1..], rest);
      MoreMembers(ms, PrintMember(ms[0]) + ("," + tail), rest, tail);
    }
  }

  lemma LoadsOfPrinted(j: Json)
    requires Wf(j)
    ensures Loads(Print(j)) == Ok(j)
  {
    assert Print(j) + "" == Print(j);
    SkipWsOfPrinted(j, "");
    ParseOfPrinted(j, "");
  }

  // ---- printed text is taken for UTF-8 -----------------------------------------

  lemma {:induction false} CharsNulFree(s: string)
    ensures '\0' !in PrintChars(s)
  {
    if s != "" { CharsNulFree(s[1..]); }
  }

  lemma {:induction false} DigitsNulFree(n: nat)
    ensures '\0' !in Digits(n)
  {
    if n >= 10 { DigitsNulFree(n / 10); }
  }

  lemma IntNulFree(n: int)
    ensures '\0' !in PrintInt(n)
  {
    DigitsNulFree(if n < 0 then -n else n);
  }

  lemma StringNulFree(s: string)
    ensures '\0' !in PrintString(s)
  {
    CharsNulFree(s);
  }

  lemma FloatNulFree(t: string)
    requires FloatText(t)
    ensures '\0' !in t
  {
    if Literal(t) { LiteralChars(t); }
  }

  lemma {:induction false} PrintNulFree(j: Json)
    requires Wf(j)
    ensures '\0' !in Print(j)
    decreases j, 1
  {
    match j
    case Int(n) => IntNulFree(n);
    case Num(t) => FloatNulFree(t);
    case Str(s) => StringNulFree(s);
    case Arr(items) => ItemsNulFree(items);
    case Obj(ms) => MembersNulFree(ms);
    case _ =>
  }

  lemma {:induction false} ItemsNulFree(items: seq<Json>)
    requires forall x :: x in items ==> Wf(x)
    ensures '\0' !in PrintItems(items)
    decreases items, 0
  {
    if items != [] {
      PrintNulFree(items[0]);
      ItemsNulFree(items[1..]);
    }
  }

  lemma {:induction false} MembersNulFree(ms: seq<Member>)
    requires forall m :: m in ms ==> Wf(m.value)
    ensures '\0' !in PrintMembers(ms)
    decreases ms, 0
  {
    if ms != [] {
      CharsNulFree(ms[0].key);
      PrintNulFree(ms[0].value);
      assert '\0' !in PrintMember(ms[0]);
      MembersNulFree(ms[1..]);
    }
  }

  lemma PrintedIsPlain(j: Json)
    requires Wf(j)
    ensures Encodings.Decode(Utf8.Encode(Print(j))) == Some(Print(j))
  {
    PrintStarts(j);
    PrintNulFree(j);
    Utf8.EncodeNulFree(Print(j));
    Encodings.AsciiStartIsUtf8(Utf8.Encode(Print(j)));
    Utf8.DecodeInvertsEncode(Print(j));
  }

  lemma LoadsBytesOfPrinted(j: Json)
    requires Wf(j)
    ensures LoadsBytes(Utf8.Encode(Print(j))) == Ok(j)
  {
    PrintedIsPlain(j);
    LoadsOfPrinted(j);
  }
}

/** Reading goes on where it would with more text behind, so no proper beginning of a JSON text reads as an object. */
module JsonPrefix {
  import opened Prelude
  import opened Json
  import opened JsonText
  import opened Numbers
  import JsonRoundTrip

  /** The same reading, with `q` left over as well. */
  function Longer<T>(p: Parsed<T>, q: string): Parsed<T> {
    match p case Fail => Fail case Got(v, r) => Got(v, r + q)
  }

  // ---- white space ---------------------------------------------------------------

  lemma {:induction false} SkipWsBefore(s: string, q: string)
    requires SkipWs(s) != ""
    ensures SkipWs(s + q) == SkipWs(s) + q
  {
    assert (s + q)[0] == s[0] && (s + q)[1..] == s[1..] + q;
    if IsWs(s[0]) { SkipWsBefore(s[1..], q); }
  }

  lemma {:induction false} NotOnlyWs(s: string)
    requires s != "" && !IsWs(s[|s| - 1])
    ensures SkipWs(s) != ""
  {
    if IsWs(s[0]) { NotOnlyWs(s[1..]); }
  }

  /** What a list or an object goes on with ends a number. */
  predicate Delimited(r: string) { SkipWs(r) != "" && (SkipWs(r)[0] == ',' || SkipWs(r)[0] == ']' || SkipWs(r)[0] == '}') }

  lemma DelimiterEnds(r: string)
    requires Delimited(r)
    ensures r != "" && EndsNumber(r)
  {
  }

  lemma AfterDelimiter(r: string, q: string)
    requires Delimited(r)
    ensures SkipWs(r + q) == SkipWs(r) + q && SkipWs(r + q)[0] == SkipWs(r)[0]
    ensures SkipWs(r + q)[1..] == SkipWs(r)[1..] + q
  {
    SkipWsBefore(r, q);
  }

  // ---- scalars -------------------------------------------------------------------

  lemma Hex4Before(s: string, q: string)
    requires ParseHex4(s).Got?
    ensures ParseHex4(s + q) == Longer(ParseHex4(s), q)
  {
    assert (s + q)[4..] == s[4..] + q;
  }

  lemma EscapeBefore(s: string, q: string)
    requires ParseEscape(s).Got?
    ensures ParseEscape(s + q) == Longer(ParseEscape(s), q)
  {
    assert (s + q)[0] == s[0] && (s + q)[1..] == s[1..] + q;
    if s[0] == 'u' {
      Hex4Before(s[1..], q);
      var r := ParseHex4(s[1..]).rest;
      if |r| >= 2 {
        assert (r + q)[2..] == r[2..] + q;
        if ParseHex4(r[2..]).Got? { Hex4Before(r[2..], q); }
      }
    }
  }

  lemma {:induction false} CharsBefore(s: string, q: string)
    requires ParseChars(s).Got?
    ensures ParseChars(s + q) == Longer(ParseChars(s), q)
    decreases |s|
  {
    assert (s + q)[0] == s[0] && (s + q)[1..] == s[1..] + q;
    if s[0] == '"' {
    } else if s[0] == '\\' {
      EscapeBefore(s[1..], q);
      CharsBefore(ParseEscape(s[1..]).rest, q);
    } else {
      CharsBefore(s[1..], q);
    }
  }

  lemma {:induction false} RunInside(s: string, q: string)
    requires Run(s) < |s|
    ensures Run(s + q) == Run(s)
  {
    assert (s + q)[0] == s[0] && (s + q)[1..] == s[1..] + q;
    if IsDigit(s[0]) { RunInside(s[1..], q); }
  }

  lemma ExponentInside(s: string, q: string)
    requires ExponentLength(s) < |s| && EndsNumber(s[ExponentLength(s)..])
    ensures ExponentLength(s + q) == ExponentLength(s)
  {
    assert (s + q)[0] == s[0];
    if s[0] == 'e' || s[0] == 'E' {
      var digits := if |s| > 1 && (s[1] == '+' || s[1] == '-') then 2 else 1;
      assert ExponentLength(s) > 0;
      assert (s + q)[digits..] == s[digits..] + q;
      assert Run(s[digits..]) < |s[digits..]|;
      RunInside(s[digits..], q);
    }
  }

  lemma FractionInside(s: string, q: string)
    requires s != "" && (s[0] == '.' ==> 0 < FractionLength(s) < |s|)
    ensures FractionLength(s + q) == FractionLength(s)
  {
    assert (s + q)[0] == s[0] && (s + q)[1..] == s[1..] + q;
    if s[0] == '.' { RunInside(s[1..], q); }
  }

  lemma TailInside(s: string, q: string)
    requires TailLength(s) < |s| && EndsNumber(s[TailLength(s)..])
    ensures TailLength(s + q) == TailLength(s)
  {
    var f := FractionLength(s);
    assert s[f..][ExponentLength(s[f..])..] == s[TailLength(s)..];
    assert s[0] == '.' && f == 0 ==> TailLength(s) == 0;
    FractionInside(s, q);
    assert (s + q)[f..] == s[f..] + q;
    ExponentInside(s[f..], q);
  }

  lemma NumberOf(s: string, n: int, r: string, k: nat, taken: nat)
    requires ParseInt(s) == Got(n, r) && TailLength(r) == k && taken == |s| - |r| + k
    ensures ParseNumber(s) == if k == 0 then Got(Int(n), r) else Got(Num(s[..taken]), r[k..])
  {
  }

  lemma TakeAndDrop(s: string, q: string, n: nat)
    requires n <= |s|
    ensures (s + q)[..n] == s[..n] && (s + q)[n..] == s[n..] + q
  {
  }

  lemma NumberBefore(s: string, q: string)
    requires ParseNumber(s).Got? && ParseNumber(s).rest != "" && EndsNumber(ParseNumber(s).rest)
    ensures ParseNumber(s + q) == Longer(ParseNumber(s), q)
  {
    var n, r := ParseInt(s).value, ParseInt(s).rest;
    var k := TailLength(r);
    var taken := |s| - |r| + k;
    NumberOf(s, n, r, k, taken);
    assert ParseNumber(s).rest == r[k..];
    ParseIntBefore(s, q);
    TailInside(r, q);
    NumberOf(s + q, n, r + q, k, taken);
    TakeAndDrop(r, q, k);
    TakeAndDrop(s, q, taken);
  }

  // ---- values --------------------------------------------------------------------

  /** The reading does not hang on what comes next: a number needs something behind it. */
  predicate Settled(v: Json, r: string) { v.Int? || v.Num? ==> r != "" && EndsNumber(r) }

  lemma FirstLetters(s: string)
    requires s != ""
    ensures (s[0] != 'n' ==> !Starts(s, "null")) && (s[0] != 't' ==> !Starts(s, "true"))
    ensures (s[0] != 'f' ==> !Starts(s, "false")) && (s[0] != 'N' ==> !Starts(s, "NaN"))
    ensures (s[0] != 'I' ==> !Starts(s, "Infinity")) && (s[0] != '-' ==> !Starts(s, "-Infinity"))
  {
    if s[0] != 'n' { JsonRoundTrip.NotStart(s, "null", 0); }
    if s[0] != 't' { JsonRoundTrip.NotStart(s, "true", 0); }
    if s[0] != 'f' { JsonRoundTrip.NotStart(s, "false", 0); }
    if s[0] != 'N' { JsonRoundTrip.NotStart(s, "NaN", 0); }
    if s[0] != 'I' { JsonRoundTrip.NotStart(s, "Infinity", 0); }
    if s[0] != '-' { JsonRoundTrip.NotStart(s, "-Infinity", 0); }
  }

  lemma StartsBefore(s: string, q: string, w: string)
    requires Starts(s, w)
    ensures Starts(s + q, w) && (s + q)[|w|..] == s[|w|..] + q
  {
    TakeAndDrop(s, q, |w|);
  }

  lemma WordBefore(s: string, q: string)
    requires ParseWord(s).Got?
    ensures ParseWord(s + q) == Longer(ParseWord(s), q)
  {
    var w := s[..|s| - |ParseWord(s).rest|];
    StartsBefore(s, q, w);
    assert (s + q)[0] == s[0];
    FirstLetters(s);
    FirstLetters(s + q);
  }

  lemma ScalarBefore(s: string, q: string)
    requires s != "" && s[0] != '"' && s[0] != '[' && s[0] != '{'
    requires ParseValue(s).Got? && Settled(ParseValue(s).value, ParseValue(s).rest)
    ensures ParseValue(s + q) == Longer(ParseValue(s), q)
  {
    assert (s + q)[0] == s[0];
    if ParseWord(s).Got? {
      WordBefore(s, q);
    } else {
      NumberBefore(s, q);
      ParseIntBefore(s, q);
      JsonRoundTrip.ParseValueOfNumber(s + q);
    }
  }

  lemma StringBefore(s: string, q: string)
    requires s != "" && s[0] == '"' && ParseValue(s).Got?
    ensures ParseValue(s + q) == Longer(ParseValue(s), q)
  {
    assert (s + q)[0] == s[0] && (s + q)[1..] == s[1..] + q;
    CharsBefore(s[1..], q);
  }

  /** The reader, given more text, reads the same value and leaves that text over. */
  lemma {:induction false} ValueBefore(s: string, q: string)
    requires ParseValue(s).Got? && Settled(ParseValue(s).value, ParseValue(s).rest)
    ensures ParseValue(s + q) == Longer(ParseValue(s), q)
    decreases |s|, 1
  {
    assert (s + q)[0] == s[0] && (s + q)[1..] == s[1..] + q;
    if s[0] == '"' {
      StringBefore(s, q);
    } else if s[0] == '{' || s[0] == '[' {
      var t := SkipWs(s[1..]);
      SkipWsBefore(s[1..], q);
      assert (t + q)[0] == t[0] && (t + q)[1..] == t[1..] + q;
      if s[0] == '{' && t[0] != '}' { MembersBefore(t, q); }
      if s[0] == '[' && t[0] != ']' { ItemsBefore(t, q); }
    } else {
      ScalarBefore(s, q);
    }
  }

  lemma {:induction false} ItemsBefore(s: string, q: string)
    requires ParseItems(s).Got?
    ensures ParseItems(s + q) == Longer(ParseItems(s), q)
    decreases |s|, 2
  {
    var r := ParseValue(s).rest;
    DelimiterEnds(r);
    ValueBefore(s, q);
    AfterDelimiter(r, q);
    var t := SkipWs(r);
    if t[0] == ',' {
      SkipWsBefore(t[1..], q);
      ItemsBefore(SkipWs(t[1..]), q);
    }
  }

  lemma {:induction false} MemberBefore(s: string, q: string)
    requires ParseMember(s).Got? && Settled(ParseMember(s).value.value, ParseMember(s).rest)
    ensures ParseMember(s + q) == Longer(ParseMember(s), q)
    decreases |s|, 2
  {
    assert (s + q)[0] == s[0] && (s + q)[1..] == s[1..] + q;
    CharsBefore(s[1..], q);
    var r := ParseChars(s[1..]).rest;
    SkipWsBefore(r, q);
    var t := SkipWs(r);
    assert (t + q)[0] == t[0] && (t + q)[1..] == t[1..] + q;
    SkipWsBefore(t[1..], q);
    ValueBefore(SkipWs(t[1..]), q);
  }

  lemma {:induction false} MembersBefore(s: string, q: string)
    requires ParseMembers(s).Got?
    ensures ParseMembers(s + q) == Longer(ParseMembers(s), q)
    decreases |s|, 3
  {
    var r := ParseMember(s).rest;
    DelimiterEnds(r);
    MemberBefore(s, q);
    AfterDelimiter(r, q);
    var t := SkipWs(r);
    if t[0] == ',' {
      SkipWsBefore(t[1..], q);
      MembersBefore(SkipWs(t[1..]), q);
    }
  }

  lemma LongerLoads(p: string, q: string)
    requires Loads(p).Ok? && Loads(p).value.Obj? && q != "" && !IsWs(q[|q| - 1])
    ensures Loads(p + q).Raised?
  {
    SkipWsBefore(p, q);
    ValueBefore(SkipWs(p), q);
    NotOnlyWs(ParseValue(SkipWs(p)).rest + q);
  }

  /** No proper beginning of a JSON text that ends in no white space is read as an object. */
  lemma PrefixIsNoObject(text: string, k: nat)
    requires Loads(text).Ok? && text != "" && !IsWs(text[|text| - 1]) && k < |text|
    ensures !(Loads(text[..k]).Ok? && Loads(text[..k]).value.Obj?)
  {
    assert text == text[..k] + text[k..];
    if Loads(text[..k]).Ok? && Loads(text[..k]).value.Obj? { LongerLoads(text[..k], text[k..]); }
  }
}

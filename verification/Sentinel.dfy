/** The nonce-stamped sentinel that carries a detonation's observation through a shared standard output. */
module Sentinel {
  import opened Prelude
  import opened Json
  import opened Verdict
  import opened Attestation
  import Hashing
  import JsonPrefix
  import JsonText

  const PREFIX := "__MIG_OBSERVATION__"
  const SUFFIX := "__MIG_END__"

  function Marker(token: string): string { PREFIX + token + ":" }

  /** What the harness writes. */
  function Emitted(token: string, text: string): string { "\n" + Marker(token) + text + SUFFIX + "\n" }

  predicate OccursAt(s: string, sub: string, i: int) {
    0 <= i <= |s| - |sub| && forall k :: 0 <= k < |sub| ==> s[i + k] == sub[k]
  }

  ghost predicate Occurs(s: string, sub: string) { exists i :: OccursAt(s, sub, i) }

  /** `s.find(sub, from)`: the first occurrence, none standing for -1. */
  function Find(s: string, sub: string, from: nat): (r: Option<nat>)
    requires from <= |s|
    ensures r.Some? ==> from <= r.value && OccursAt(s, sub, r.value)
    ensures forall i :: from <= i && OccursAt(s, sub, i) ==> r.Some? && r.value <= i
    decreases |s| - from
  {
    if OccursAt(s, sub, from) then Some(from) else if from == |s| then None else Find(s, sub, from + 1)
  }

  /** What stands between this run's first marker and the end marker after it; a slice that ends before it begins is
      empty. */
  function Payload(stdout: string, token: string): Option<string> {
    var marker := Marker(token);
    match Find(stdout, marker, 0)
    case None => None
    case Some(start) =>
      match Find(stdout, SUFFIX, start)
      case None => None
      case Some(end) => Some(if end < start + |marker| then "" else stdout[start + |marker|..end])
  }

  function ObjectOf(parsed: Result<Json>): Option<Json> {
    match parsed case Ok(Obj(ms)) => Some(Obj(ms)) case _ => None
  }

  /** `_extract_observation`. */
  function Extract(stdout: string, token: string): Option<Json> {
    match Payload(stdout, token)
    case None => None
    case Some(text) => ObjectOf(JsonText.Loads(text))
  }

  // ---- what is extracted, on any output -----------------------------------------

  /** `i` is the first place from `from` on where `sub` occurs. */
  ghost predicate FirstAt(s: string, sub: string, from: int, i: int) {
    from <= i && OccursAt(s, sub, i) && forall k :: from <= k < i ==> !OccursAt(s, sub, k)
  }

  lemma FindIs(s: string, sub: string, from: nat, i: nat)
    requires from <= |s|
    ensures Find(s, sub, from) == Some(i) <==> FirstAt(s, sub, from, i)
  {
  }

  /** Whatever stands on the output: an observation is extracted exactly when this run's marker occurs, an end marker
      occurs at or after it, and what stands between the first of each is a JSON object. */
  lemma ExtractIs(stdout: string, token: string, o: Json)
    ensures Extract(stdout, token) == Some(o) <==> Stamped(stdout, token, o)
  {
    if Extract(stdout, token) == Some(o) { ExtractSound(stdout, token, o); }
    if Stamped(stdout, token, o) { ExtractComplete(stdout, token, o); }
  }

  ghost predicate Stamped(stdout: string, token: string, o: Json) {
    o.Obj? && exists start: nat, end: nat ::
      && FirstAt(stdout, Marker(token), 0, start) && FirstAt(stdout, SUFFIX, start, end)
      && start + |Marker(token)| <= end && JsonText.Loads(stdout[start + |Marker(token)|..end]) == Ok(o)
  }

  lemma NothingIsNoObject(text: string)
    requires text == ""
    ensures JsonText.Loads(text).Raised?
  {
  }

  lemma ExtractSound(stdout: string, token: string, o: Json)
    requires Extract(stdout, token) == Some(o)
    ensures Stamped(stdout, token, o)
  {
    var text := ExtractedText(stdout, token, o);
    var start, end := PayloadPlaces(stdout, token, text);
    if end < start + |Marker(token)| { NothingIsNoObject(text); }
    assert Stamped(stdout, token, o);
  }

  lemma ExtractedText(stdout: string, token: string, o: Json) returns (text: string)
    requires Extract(stdout, token) == Some(o)
    ensures Payload(stdout, token) == Some(text) && JsonText.Loads(text) == Ok(o) && o.Obj?
  {
    text := Payload(stdout, token).value;
  }

  lemma PayloadPlaces(stdout: string, token: string, text: string) returns (start: nat, end: nat)
    requires Payload(stdout, token) == Some(text)
    ensures FirstAt(stdout, Marker(token), 0, start) && FirstAt(stdout, SUFFIX, start, end) && end <= |stdout|
    ensures text == if end < start + |Marker(token)| then "" else stdout[start + |Marker(token)|..end]
  {
    start := Find(stdout, Marker(token), 0).value;
    end := Find(stdout, SUFFIX, start).value;
    FindIs(stdout, Marker(token), 0, start);
    FindIs(stdout, SUFFIX, start, end);
  }

  lemma ExtractComplete(stdout: string, token: string, o: Json)
    requires Stamped(stdout, token, o)
    ensures Extract(stdout, token) == Some(o)
  {
    var start: nat, end: nat :|
      && FirstAt(stdout, Marker(token), 0, start) && FirstAt(stdout, SUFFIX, start, end)
      && start + |Marker(token)| <= end && JsonText.Loads(stdout[start + |Marker(token)|..end]) == Ok(o);
    FindIs(stdout, Marker(token), 0, start);
    FindIs(stdout, SUFFIX, start, end);
    PayloadBetween(stdout, token, start, end);
  }

  /** A nonce is the hexadecimal text of random bytes, so the nonces of all runs are alike. */
  lemma NoncesAreHex(random: Bytes)
    ensures LowerHex(Hashing.Hex(random)) && |Hashing.Hex(random)| == 2 * |random|
  {
  }

  // ---- where the sentinel is found ---------------------------------------------

  predicate LowerHex(token: string) { forall i :: 0 <= i < |token| ==> '0' <= token[i] <= '9' || 'a' <= token[i] <= 'f' }

  /** A text that does not hold `c` cannot occur across a `c`. */
  lemma NoOccurrenceAcross(s: string, sub: string, i: int, at: nat)
    requires OccursAt(s, sub, i) && at < |s| && s[at] !in sub
    ensures at < i || i + |sub| <= at
  {
    if i <= at < i + |sub| { CharOfOccurrence(s, sub, i, at); }
  }

  lemma CharOfOccurrence(s: string, sub: string, i: int, at: nat)
    requires OccursAt(s, sub, i) && i <= at < i + |sub|
    ensures s[at] in sub
  {
    assert s[i + (at - i)] == sub[at - i];
  }

  /** The part of `s` from `lo` to `hi` is `t`. */
  predicate Holds(s: string, lo: nat, t: string) {
    lo + |t| <= |s| && forall k :: 0 <= k < |t| ==> s[lo + k] == t[k]
  }

  lemma OccursWithin(s: string, sub: string, i: int, lo: nat, t: string)
    requires OccursAt(s, sub, i) && Holds(s, lo, t) && lo <= i && i + |sub| <= lo + |t|
    ensures OccursAt(t, sub, i - lo)
  {
    forall k | 0 <= k < |sub| ensures t[i - lo + k] == sub[k] {
      assert s[lo + (i - lo + k)] == t[i - lo + k];
    }
  }

  lemma MarkerHasNoNewline(token: string)
    requires LowerHex(token)
    ensures '\n' !in Marker(token)
  {
    assert '\n' !in PREFIX;
  }

  lemma SuffixChars()
    ensures ':' !in SUFFIX && '}' !in SUFFIX && SUFFIX[2] == 'M' && SUFFIX[6] == 'E' && |SUFFIX| == 11
    ensures |PREFIX| == 19 && PREFIX[6] == 'O' && forall i :: 0 <= i < 19 && PREFIX[i] == 'M' ==> i == 2
  {
  }

  /** The first occurrence of the marker is the harness's own: nothing printed before it holds the marker, and the
      newline the harness begins with keeps it from beginning there. */
  lemma FirstMarker(s: string, before: string, marker: string)
    requires Holds(s, 0, before) && |before| < |s| && s[|before|] == '\n' && '\n' !in marker
    requires OccursAt(s, marker, |before| + 1) && !Occurs(before, marker)
    ensures Find(s, marker, 0) == Some(|before| + 1)
  {
    var found := Find(s, marker, 0).value;
    NoOccurrenceAcross(s, marker, found, |before|);
    if found <= |before| { OccursWithin(s, marker, found, 0, before); }
  }

  /** No end marker begins inside the marker or the text: the first one is the harness's own. */
  lemma FirstSuffix(s: string, start: nat, token: string, text: string)
    requires LowerHex(token) && Holds(s, start, Marker(token)) && Holds(s, start + |Marker(token)|, text)
    requires OccursAt(s, SUFFIX, start + |Marker(token)| + |text|)
    requires !Occurs(text, SUFFIX) && text != "" && text[|text| - 1] == '}'
    ensures Find(s, SUFFIX, start) == Some(start + |Marker(token)| + |text|)
  {
    var m := |Marker(token)|;
    var found := Find(s, SUFFIX, start).value;
    SuffixChars();
    assert Marker(token)[m - 1] == ':';
    assert s[start + m + (|text| - 1)] == '}' && s[start + (m - 1)] == ':';
    NoOccurrenceAcross(s, SUFFIX, found, start + m + (|text| - 1));
    NoOccurrenceAcross(s, SUFFIX, found, start + (m - 1));
    if found < start + m {
      NoSuffixInMarker(s, start, token, found);
    } else if found < start + m + |text| {
      OccursWithin(s, SUFFIX, found, start + m, text);
    }
  }

  lemma NoSuffixInMarker(s: string, start: nat, token: string, i: int)
    requires LowerHex(token) && Holds(s, start, Marker(token)) && start <= i && i + |SUFFIX| < start + |Marker(token)|
    ensures !OccursAt(s, SUFFIX, i)
  {
    SuffixChars();
    var at := i - start;
    var marker := Marker(token);
    assert s[start + (at + 2)] == marker[at + 2] && s[start + (at + 6)] == marker[at + 6];
    if at + 2 < 19 {
      assert marker[at + 2] == PREFIX[at + 2];
      assert at == 0 ==> marker[6] == PREFIX[6];
    } else {
      assert marker[at + 2] == token[at - 17];
    }
    assert s[i + 2] != 'M' || s[i + 6] != 'E';
  }

  lemma EmittedLayout(before: string, token: string, text: string, after: string)
    ensures Layout(before + Emitted(token, text) + after, before, token, text)
  {
    var marker := Marker(token);
    var s := before + Emitted(token, text) + after;
    var rest := SUFFIX + "\n" + after;
    assert s == before + ("\n" + (marker + (text + rest)));
  }

  /** Whatever the detonated artifact printed before, forged sentinels with other nonces included, and whatever follows:
      if this run's marker is not in it, what is extracted is the harness's own text. */
  lemma PayloadRoundTrip(before: string, token: string, text: string, after: string)
    requires LowerHex(token) && !Occurs(before, Marker(token))
    requires !Occurs(text, SUFFIX) && text != "" && text[|text| - 1] == '}'
    ensures Payload(before + Emitted(token, text) + after, token) == Some(text)
  {
    EmittedLayout(before, token, text, after);
    PayloadFound(before + Emitted(token, text) + after, before, token, text);
  }

  ghost predicate Layout(s: string, before: string, token: string, text: string) {
    var a, m := |before| + 1, |Marker(token)|;
    && Holds(s, 0, before) && |before| < |s| && s[|before|] == '\n' && Holds(s, a, Marker(token))
    && Holds(s, a + m, text) && Holds(s, a + m + |text|, SUFFIX) && s[a + m..a + m + |text|] == text
  }

  lemma PayloadFound(s: string, before: string, token: string, text: string)
    requires Layout(s, before, token, text) && LowerHex(token) && !Occurs(before, Marker(token))
    requires !Occurs(text, SUFFIX) && text != "" && text[|text| - 1] == '}'
    ensures Payload(s, token) == Some(text)
  {
    MarkerHasNoNewline(token);
    FirstMarker(s, before, Marker(token));
    FirstSuffix(s, |before| + 1, token, text);
    PayloadBetween(s, token, |before| + 1, |before| + 1 + |Marker(token)| + |text|);
  }

  lemma PayloadBetween(s: string, token: string, start: nat, end: nat)
    requires Find(s, Marker(token), 0) == Some(start) && Find(s, SUFFIX, start) == Some(end)
    requires start + |Marker(token)| <= end
    ensures Payload(s, token) == Some(s[start + |Marker(token)|..end])
  {
  }

  /** So the host reads exactly the observation the harness wrote. */
  lemma SentinelRoundTrip(before: string, token: string, text: string, after: string, observation: Json)
    requires LowerHex(token) && !Occurs(before, Marker(token))
    requires JsonText.Loads(text) == Ok(observation) && observation.Obj?
    requires !Occurs(text, SUFFIX) && text != "" && text[|text| - 1] == '}'
    ensures Extract(before + Emitted(token, text) + after, token) == Some(observation)
  {
    PayloadRoundTrip(before, token, text, after);
    ExtractOfPayload(before + Emitted(token, text) + after, token, text, observation);
  }

  lemma ExtractOfPayload(stdout: string, token: string, text: string, observation: Json)
    requires Payload(stdout, token) == Some(text) && JsonText.Loads(text) == Ok(observation) && observation.Obj?
    ensures Extract(stdout, token) == Some(observation)
  {
  }

  // ---- an end marker inside the observation -----------------------------------

  /** Text that holds the end marker is cut short at its first one. */
  lemma CutShort(s: string, before: string, token: string, text: string) returns (k: nat)
    requires Layout(s, before, token, text) && LowerHex(token) && !Occurs(before, Marker(token)) && Occurs(text, SUFFIX)
    ensures k < |text| && Payload(s, token) == Some(text[..k])
  {
    var a := |before| + 1;
    MarkerHasNoNewline(token);
    FirstMarker(s, before, Marker(token));
    k := EndInText(s, a, token, text);
    PayloadCut(s, token, a, text, k);
  }

  lemma PayloadCut(s: string, token: string, start: nat, text: string, k: nat)
    requires Find(s, Marker(token), 0) == Some(start) && Find(s, SUFFIX, start) == Some(start + |Marker(token)| + k)
    requires Holds(s, start + |Marker(token)|, text) && k <= |text|
    ensures Payload(s, token) == Some(text[..k])
  {
    var lo := start + |Marker(token)|;
    PayloadBetween(s, token, start, lo + k);
    SliceOf(s, lo, text, k);
  }

  lemma EndInText(s: string, start: nat, token: string, text: string) returns (k: nat)
    requires LowerHex(token) && Holds(s, start, Marker(token)) && Holds(s, start + |Marker(token)|, text)
    requires Occurs(text, SUFFIX)
    ensures k < |text| && Find(s, SUFFIX, start) == Some(start + |Marker(token)| + k)
  {
    var lo := start + |Marker(token)|;
    var i :| OccursAt(text, SUFFIX, i);
    OccursFrom(s, lo, text, SUFFIX, i);
    var end := Find(s, SUFFIX, start).value;
    NotBeforeText(s, start, token, end);
    k := end - lo;
  }

  lemma SliceOf(s: string, lo: nat, t: string, k: nat)
    requires Holds(s, lo, t) && k <= |t|
    ensures s[lo..lo + k] == t[..k]
  {
  }

  lemma OccursFrom(s: string, lo: nat, t: string, sub: string, i: int)
    requires Holds(s, lo, t) && OccursAt(t, sub, i)
    ensures OccursAt(s, sub, lo + i)
  {
    forall k | 0 <= k < |sub| ensures s[lo + i + k] == sub[k] {
      assert s[lo + (i + k)] == t[i + k];
    }
  }

  lemma NotBeforeText(s: string, start: nat, token: string, i: int)
    requires LowerHex(token) && Holds(s, start, Marker(token)) && OccursAt(s, SUFFIX, i) && start <= i
    ensures start + |Marker(token)| <= i
  {
    var m := |Marker(token)|;
    SuffixChars();
    assert Marker(token)[m - 1] == ':' && s[start + (m - 1)] == ':';
    NoOccurrenceAcross(s, SUFFIX, i, start + (m - 1));
    if i < start + m { NoSuffixInMarker(s, start, token, i); }
  }

  /** What the harness writes holds names the artifact chose. If one of them brings the end marker with it, the text is
      cut short and nothing is read; otherwise the host reads exactly what was written. */
  lemma SentinelDecides(before: string, token: string, text: string, after: string, observation: Json)
    requires LowerHex(token) && !Occurs(before, Marker(token))
    requires JsonText.Loads(text) == Ok(observation) && observation.Obj? && text != "" && text[|text| - 1] == '}'
    ensures Extract(before + Emitted(token, text) + after, token) ==
      if Occurs(text, SUFFIX) then None else Some(observation)
  {
    if Occurs(text, SUFFIX) {
      EmittedLayout(before, token, text, after);
      var k := CutShort(before + Emitted(token, text) + after, before, token, text);
      JsonPrefix.PrefixIsNoObject(text, k);
    } else {
      SentinelRoundTrip(before, token, text, after, observation);
    }
  }

  // ---- forged sentinels ----------------------------------------------------------

  /** Where a forged marker begins, this run's marker does not. */
  lemma OtherNonceIsNotMarker(s: string, token: string, forged: string, at: nat)
    requires |token| == |forged| && token != forged && Holds(s, at, Marker(forged))
    ensures !OccursAt(s, Marker(token), at)
  {
    var k :| 0 <= k < |token| && token[k] != forged[k];
    assert Marker(token)[19 + k] == token[k] && Marker(forged)[19 + k] == forged[k];
  }

  /** The colon of a marker is its last character and its only one. */
  lemma MarkerColon(token: string)
    requires LowerHex(token)
    ensures var marker := Marker(token); var m := |marker|;
      && m == |token| + 20 && marker[0] == '_' && marker[m - 1] == ':' && forall k :: 0 <= k < m - 1 ==> marker[k] != ':'
  {
    var marker := Marker(token);
    forall k | 0 <= k < |token| + 19 ensures marker[k] != ':' {
      if k < 19 { assert marker[k] == PREFIX[k]; } else { assert marker[k] == token[k - 19]; }
    }
  }

  lemma EmittedParts(token: string, text: string)
    ensures var s, m := Emitted(token, text), |Marker(token)|;
      && s == "\n" + (Marker(token) + (text + (SUFFIX + "\n"))) && |s| == m + |text| + 13
      && s[0] == '\n' && Holds(s, 1, Marker(token)) && Holds(s, 1 + m, text)
      && forall k :: 1 + m + |text| <= k < |s| ==> s[k] != ':'
  {
    var s, m := Emitted(token, text), |Marker(token)|;
    SuffixChars();
    forall k | 1 + m + |text| <= k < |s| ensures s[k] != ':' {
      if k < |s| - 1 { assert s[k] == SUFFIX[k - (1 + m + |text|)]; }
    }
  }

  /** Nor does it begin inside one: it would run across the colon that ends the forged one. */
  lemma NotInsideMarker(s: string, marker: string, forged: string, lo: nat, i: nat)
    requires |marker| == |forged| && Holds(s, lo, forged) && lo < i < lo + |forged| && forged[|forged| - 1] == ':'
    requires forall k :: 0 <= k < |marker| - 1 ==> marker[k] != ':'
    ensures !OccursAt(s, marker, i)
  {
    var last := |forged| - 1;
    assert s[lo + last] == ':' && marker[lo + last - i] != ':';
  }

  /** Nor after one: the next colon at its distance would have to stand in the text, with another prefix before it. */
  lemma NotAfterMarker(s: string, token: string, text: string, lo: nat, i: nat)
    requires LowerHex(token) && Holds(s, lo, text) && lo <= i && !Occurs(text, PREFIX)
    requires forall k :: lo + |text| <= k < |s| ==> s[k] != ':'
    ensures !OccursAt(s, Marker(token), i)
  {
    MarkerColon(token);
    if OccursAt(s, Marker(token), i) { PrefixInText(s, Marker(token), i, lo, token, text); }
  }

  /** A forged sentinel, however it looks, holds this run's marker nowhere unless it carries this run's nonce or its
      text begins another sentinel. */
  lemma ForgedHasNoMarker(token: string, forged: string, text: string)
    requires LowerHex(token) && LowerHex(forged) && |token| == |forged| && token != forged && !Occurs(text, PREFIX)
    ensures !Occurs(Emitted(forged, text), Marker(token))
  {
    var s, m := Emitted(forged, text), |Marker(token)|;
    EmittedParts(forged, text);
    MarkerColon(token);
    MarkerColon(forged);
    forall i ensures !OccursAt(s, Marker(token), i) {
      if i == 1 { OtherNonceIsNotMarker(s, token, forged, 1); }
      else if 1 < i <= m { NotInsideMarker(s, Marker(token), Marker(forged), 1, i); }
      else if m < i { NotAfterMarker(s, token, text, 1 + m, i); }
    }
  }

  lemma PrefixInText(s: string, marker: string, i: nat, lo: nat, token: string, text: string)
    requires OccursAt(s, marker, i) && marker == Marker(token) && Holds(s, lo, text)
    requires lo <= i && (forall k :: lo + |text| <= k < |s| ==> s[k] != ':')
    requires |marker| == |token| + 20 && marker[|token| + 19] == ':'
    ensures Occurs(text, PREFIX)
  {
    assert s[i + (|token| + 19)] == ':';
    forall k | 0 <= k < |PREFIX| ensures s[i + k] == PREFIX[k] {
      assert marker[k] == PREFIX[k];
    }
    OccursWithin(s, PREFIX, i, lo, text);
  }

  /** A sentinel printed by the artifact: its nonce and what stands in it. */
  datatype Forgery = Forgery(nonce: string, text: string)

  function Printed(forgeries: seq<Forgery>): string {
    if forgeries == [] then ""
    else
      var last := forgeries[|forgeries| - 1];
      Printed(forgeries[..|forgeries| - 1]) + Emitted(last.nonce, last.text)
  }

  ghost predicate OtherNonce(token: string, f: Forgery) {
    LowerHex(f.nonce) && |f.nonce| == |token| && f.nonce != token && !Occurs(f.text, PREFIX)
  }

  lemma {:induction false} PrintedHasNoMarker(token: string, forgeries: seq<Forgery>)
    requires LowerHex(token) && forall f :: f in forgeries ==> OtherNonce(token, f)
    ensures !Occurs(Printed(forgeries), Marker(token))
  {
    if forgeries != [] {
      var front, last := forgeries[..|forgeries| - 1], forgeries[|forgeries| - 1];
      PrintedHasNoMarker(token, front);
      assert OtherNonce(token, last);
      ForgedHasNoMarker(token, last.nonce, last.text);
      NoneAcrossNewline(Printed(front), Emitted(last.nonce, last.text), Marker(token)) by { MarkerHasNoNewline(token); }
    }
  }

  lemma NoneAcrossNewline(a: string, b: string, sub: string)
    requires !Occurs(a, sub) && !Occurs(b, sub) && b != "" && b[0] == '\n' && '\n' !in sub
    ensures !Occurs(a + b, sub)
  {
    if i :| OccursAt(a + b, sub, i) {
      NoOccurrenceAcross(a + b, sub, i, |a|);
      if i + |sub| <= |a| { OccursWithin(a + b, sub, i, 0, a); } else { OccursWithin(a + b, sub, i, |a|, b); }
    }
  }

  /** However many sentinels with other nonces the artifact prints first, the host reads the harness's own. */
  lemma ForgeriesAreIgnored(forgeries: seq<Forgery>, token: string, text: string, after: string, observation: Json)
    requires LowerHex(token) && forall f :: f in forgeries ==> OtherNonce(token, f)
    requires JsonText.Loads(text) == Ok(observation) && observation.Obj?
    requires !Occurs(text, SUFFIX) && text != "" && text[|text| - 1] == '}'
    ensures Extract(Printed(forgeries) + Emitted(token, text) + after, token) == Some(observation)
  {
    PrintedHasNoMarker(token, forgeries);
    SentinelRoundTrip(Printed(forgeries), token, text, after, observation);
  }

  // ---- from the observation to a gate result ----------------------------------

  datatype Code =
    | NoObservation | MalformedObservation | ArtifactUnreadable | NetworkEgress | EgressNotConfined | DnsLookup

  datatype SandboxFinding = SandboxFinding(severity: Severity, code: Code)

  datatype SandboxObservation = SandboxObservation(rigor: RigorLevel, status: GateStatus, findings: seq<SandboxFinding>)

  function Untrusted(code: Code): SandboxObservation {
    SandboxObservation(NoRigor, Error, [SandboxFinding(Medium, code)])
  }

  /** `isinstance(a, dict) and a.get("blocked") is False`. */
  predicate GotOut(attempt: Json) { Get(attempt, "blocked") == Some(Bool(false)) }

  /** `_observation_from_stdout`, past the extraction: which findings there are and why, how severe each is, and what
      rigor and status they come to. */
  method ObservationFrom(parsed: Option<Json>, expectedFiles: nat) returns (r: SandboxObservation)
    ensures forall c :: Tells(r, c) <==> Cause(c, parsed, expectedFiles)
    ensures forall f :: f in r.findings ==> f.severity == SeverityOf(f.code)
    ensures forall i, j :: 0 <= i < j < |r.findings| ==> r.findings[i].code != r.findings[j].code
    ensures r.rigor == if parsed.Some? && Trusted(parsed.value, expectedFiles) then Behavioral else NoRigor
    ensures r.status == if r.rigor.NoRigor? then Error else if Tells(r, NetworkEgress) then Fail else Pass
  {
    if parsed.None? {
      return Untrusted(NoObservation);
    }
    var attempts := GetOr(parsed.value, "network_attempts", Arr([]));
    var dns := GetOr(parsed.value, "dns_queries", Arr([]));
    if !attempts.Arr? || !dns.Arr? {
      return Untrusted(MalformedObservation);
    }
    var loaded, errs := GetOr(parsed.value, "loaded", Arr([])), GetOr(parsed.value, "errors", Arr([]));
    if expectedFiles > 0 && !(Truthy(loaded) || Truthy(errs) || attempts.items != [] || dns.items != []) {
      return Untrusted(ArtifactUnreadable);
    }
    var findings: seq<SandboxFinding> := [];
    if attempts.items != [] {
      findings := findings + [SandboxFinding(High, NetworkEgress)];
      if exists a :: a in attempts.items && GotOut(a) {
        findings := findings + [SandboxFinding(Critical, EgressNotConfined)];
      }
      assert findings[0].severity.High? && findings[0].code.NetworkEgress?;
    } else if dns.items != [] {
      findings := findings + [SandboxFinding(Low, DnsLookup)];
      assert findings[0].code.DnsLookup?;
    }
    assert (exists a :: a in attempts.items && GotOut(a)) ==> findings[1].code.EgressNotConfined?;
    var failed := exists f :: f in findings && (f.severity.High? || f.severity.Critical?);
    assert failed <==> attempts.items != [];
    return SandboxObservation(Behavioral, if failed then Fail else Pass, findings);
  }

  /** The observation has a finding with this code. */
  predicate Tells(r: SandboxObservation, code: Code) { exists f :: f in r.findings && f.code == code }

  predicate ListsAreLists(observation: Json) {
    GetOr(observation, "network_attempts", Arr([])).Arr? && GetOr(observation, "dns_queries", Arr([])).Arr?
  }

  /** Why a finding is made: three ways for an observation to deserve no trust, then what a trusted one shows. */
  predicate Cause(code: Code, parsed: Option<Json>, expectedFiles: nat) {
    match parsed
    case None => code.NoObservation?
    case Some(o) =>
      if !ListsAreLists(o) then code.MalformedObservation?
      else
        var attempts, dns := GetOr(o, "network_attempts", Arr([])).items, GetOr(o, "dns_queries", Arr([])).items;
        match code
        case NoObservation | MalformedObservation => false
        case ArtifactUnreadable => !Trusted(o, expectedFiles)
        case NetworkEgress => attempts != []
        case EgressNotConfined =>
          exists a :: a in attempts && a.Obj? && Lookup(a.members, "blocked") == Some(Bool(false))
        case DnsLookup => Trusted(o, expectedFiles) && attempts == [] && dns != []
  }

  function SeverityOf(code: Code): Severity {
    match code
    case NetworkEgress => High
    case EgressNotConfined => Critical
    case DnsLookup => Low
    case _ => Medium
  }

  /** An observation is acted on only when its lists are lists and, for an artifact with files, when it shows that
      anything at all was loaded or happened. */
  predicate Trusted(observation: Json, expectedFiles: nat) {
    var attempts := GetOr(observation, "network_attempts", Arr([]));
    var dns := GetOr(observation, "dns_queries", Arr([]));
    && attempts.Arr? && dns.Arr?
    && (expectedFiles > 0 ==>
          Truthy(GetOr(observation, "loaded", Arr([]))) || Truthy(GetOr(observation, "errors", Arr([])))
          || attempts.items != [] || dns.items != [])
  }
}

/** Between an attestation and the in-toto Statement v1 that carries it. */
module Statement {
  import opened Prelude
  import opened Json
  import opened Attestation
  import opened AttestationRoundTrip
  import opened Hashing
  import opened Canonical

  const STATEMENT_TYPE := "https://in-toto.io/Statement/v1"
  const PREDICATE_TYPE := "https://mig.dev/attestation/vetting/v1"

  /** `subject_name`; `text` is Python's `str()`, needed only for a reference whose parts are not text. */
  function SubjectName(ref: ArtifactRef, text: Json -> string): string {
    var name := text(ref.scheme) + "://" + text(ref.locator);
    if Truthy(ref.revision) then name + "@" + text(ref.revision) else name
  }

  /** `dict.pop(key, None)`. */
  function Pop(ms: seq<Member>, key: string): seq<Member> {
    if ms == [] then []
    else if ms[0].key == key then ms[1..]
    else [ms[0]] + Pop(ms[1..], key)
  }

  function SubjectJson(name: string, hex: string): Json {
    Obj([Member("name", Str(name)), Member("digest", Obj([Member("sha256", Str(hex))]))])
  }

  /** A vetting statement about one subject, whatever is written for it. */
  function About(subject: Json, body: Json): Json {
    Obj([Member("_type", Str(STATEMENT_TYPE)), Member("subject", Arr([subject])),
         Member("predicateType", Str(PREDICATE_TYPE)), Member("predicate", body)])
  }

  function StatementJson(name: string, hex: string, body: Json): Json { About(SubjectJson(name, hex), body) }

  /** `statement_from_attestation`. */
  function FromAttestation(a: Attestation, text: Json -> string): Result<Json> {
    var projected :- Canonicalize(Graph(a));
    if !projected.Obj? then Raised(AttributeError)
    else if !a.digest.Str? then Raised(AttributeError)
    else
      var hex :- BareSha256Hex(a.digest.s);
      Ok(StatementJson(SubjectName(a.ref, text), hex, Obj(Pop(projected.members, "signature"))))
  }

  /** `subject_digest`. */
  function SubjectDigest(statement: Json): Result<string> {
    if !statement.Obj? then Raised(AttributeError)
    else match Get(statement, "subject")
      case Some(Arr(subjects)) =>
        if subjects == [] then Raised(ValueError)
        else if !subjects[0].Obj? then Raised(AttributeError)
        else
          var digest := GetOr(subjects[0], "digest", Obj([]));
          if !digest.Obj? then Raised(AttributeError)
          else (match Get(digest, "sha256")
            case Some(Str(sha)) => if sha == "" then Raised(ValueError) else Ok(sha)
            case _ => Raised(ValueError))
      case _ => Raised(ValueError)
  }

  /** `subject` is a list whose first item is not a dict, or is one whose `digest` is not. */
  predicate BadSubject(statement: Json) {
    match Get(statement, "subject")
    case Some(Arr(subjects)) =>
      subjects != [] && (!subjects[0].Obj? || (match Get(subjects[0], "digest") case Some(d) => !d.Obj? case None => false))
    case _ => false
  }

  /** `attestation_from_statement`, on a dict. */
  function ToAttestation(statement: Json): Result<Attestation> {
    if Get(statement, "predicateType") != Some(Str(PREDICATE_TYPE)) then Raised(ValueError)
    else match Get(statement, "predicate")
      case Some(Obj(ms)) => FromDict(Obj(ms))
      case _ => Raised(ValueError)
  }

  // ---- what a statement says -------------------------------------------------

  /** The members of a vetting statement, and of its one subject. */
  lemma StatementTells(name: string, hex: string, body: Json)
    ensures var s := StatementJson(name, hex, body);
      && Get(s, "_type") == Some(Str("https://in-toto.io/Statement/v1"))
      && Get(s, "predicateType") == Some(Str("https://mig.dev/attestation/vetting/v1"))
      && Get(s, "predicate") == Some(body) && Get(s, "subject") == Some(Arr([SubjectJson(name, hex)]))
    ensures var j := SubjectJson(name, hex);
      && Get(j, "name") == Some(Str(name)) && Get(j, "digest").Some?
      && Get(Get(j, "digest").value, "sha256") == Some(Str(hex))
  {
    var ms := StatementJson(name, hex, body).members;
    assert ms[0].key == "_type" && ms[1].key == "subject" && ms[2].key == "predicateType" && ms[3].key == "predicate";
    LookupAt(ms, 0);
    LookupAt(ms, 1);
    LookupAt(ms, 2);
    LookupAt(ms, 3);
    var ns := SubjectJson(name, hex).members;
    assert ns[0].key == "name" && ns[1].key == "digest";
    LookupAt(ns, 0);
    LookupAt(ns, 1);
  }

  /** A subject is named by scheme and locator, and by its revision when it has one. */
  lemma SubjectNameIs(ref: ArtifactRef, text: Json -> string)
    ensures SubjectName(ref, text) ==
      text(ref.scheme) + "://" + text(ref.locator) + (if Truthy(ref.revision) then "@" + text(ref.revision) else "")
  {
    if !Truthy(ref.revision) {
      var name := text(ref.scheme) + "://" + text(ref.locator);
      assert name + "" == name;
    }
  }

  /** The subject digest is the non-empty text at `digest.sha256` of the first subject; without one there is a
      `ValueError`, or an `AttributeError` where a dict is missing on the way. */
  lemma SubjectDigestExactly(statement: Json, hex: string)
    ensures SubjectDigest(statement) == Ok(hex) <==>
      && hex != "" && Get(statement, "subject").Some? && Get(statement, "subject").value.Arr?
      && var subjects := Get(statement, "subject").value.items;
         subjects != [] && Get(subjects[0], "digest").Some?
         && Get(Get(subjects[0], "digest").value, "sha256") == Some(Str(hex))
    ensures SubjectDigest(statement).Raised? ==>
      SubjectDigest(statement).error == if !statement.Obj? || BadSubject(statement) then AttributeError else ValueError
  {
  }

  /** Only a statement of MIG's own predicate type yields an attestation, the one its predicate spells. */
  lemma ToAttestationExactly(statement: Json)
    ensures var kind, body := Get(statement, "predicateType"), Get(statement, "predicate");
      if kind == Some(Str("https://mig.dev/attestation/vetting/v1")) && body.Some? && body.value.Obj?
      then ToAttestation(statement) == FromDict(body.value)
      else ToAttestation(statement) == Raised(ValueError)
  {
  }

  /** An attestation that can be projected has a statement exactly when its digest is a non-empty SHA-256 one. */
  lemma StatesExactly(a: Attestation, text: Json -> string)
    requires Canonicalize(Graph(a)).Ok?
    ensures FromAttestation(a, text).Ok? <==>
      a.digest.Str? && exists h :: h != "" && Normalize(a.digest.s) == "sha256:" + h
    ensures FromAttestation(a, text).Raised? ==>
      FromAttestation(a, text).error == if a.digest.Str? then ValueError else AttributeError
  {
    assert Canonicalize(Graph(a)).value.Obj?;
    if a.digest.Str? {
      var r := BareSha256Hex(a.digest.s);
      if r.Ok? { BareSha256HexIs(a.digest.s, r.value); } else { BareSha256HexIs(a.digest.s, ""); }
      if h :| h != "" && Normalize(a.digest.s) == "sha256:" + h { BareSha256HexIs(a.digest.s, h); }
    }
  }

  // ---- there and back ------------------------------------------------------

  lemma {:induction false} PopAt(ms: seq<Member>, i: nat)
    requires i < |ms| && forall k :: 0 <= k < i ==> ms[k].key != ms[i].key
    ensures Pop(ms, ms[i].key) == ms[..i] + ms[i + 1..]
  {
    if i > 0 {
      PopAt(ms[1..], i - 1);
      assert ms[..i] == [ms[0]] + ms[1..][..i - 1];
    }
  }

  lemma PredicateHasNoSignature(a: Attestation)
    ensures Pop(AttestationMembers(a), "signature") == PredicateMembers(a)
  {
    var ref, gates := RefJson(a.ref), Arr(GateJsons(a.gateSummary));
    PopFrom(MembersWith(a, ref, gates), Member("signature", a.signature), 11) by {
      PredicateKeys(a, ref, gates);
    }
  }

  lemma PopFrom(ms: seq<Member>, m: Member, i: nat)
    requires i <= |ms| && forall x :: x in ms ==> x.key != m.key
    ensures Pop(ms[..i] + [m] + ms[i..], m.key) == ms
  {
    var all := ms[..i] + [m] + ms[i..];
    forall k | 0 <= k < i ensures all[k].key != m.key {
      assert all[k] == ms[k] && ms[k] in ms;
    }
    assert all[i] == m;
    PopAt(all, i);
    assert all[..i] == ms[..i] && all[i + 1..] == ms[i..];
  }

  lemma FromAttestationShape(a: Attestation, text: Json -> string, d: string)
    requires a.digest.Str? && Computed(d) && DigestsMatch(a.digest.s, d)
    ensures FromAttestation(a, text) ==
      if Encodable(Graph(a)) then Ok(StatementJson(SubjectName(a.ref, text), d[7..], Obj(PredicateMembers(a))))
      else Raised(ValueError)
  {
    AttestationProjects(a);
    PredicateHasNoSignature(a);
    NormalizeComputed(d);
    BareOfMatching(a.digest.s, d);
  }

  lemma BareOfMatching(v: string, d: string)
    requires Computed(d) && DigestsMatch(v, d)
    ensures BareSha256Hex(v) == Ok(d[7..])
  {
    NormalizeComputed(d);
  }

  lemma AboutWf(subject: Json, body: Json)
    requires Wf(subject) && Wf(body)
    ensures Wf(About(subject, body))
  {
    var ms := About(subject, body).members;
    assert ms[0].key == "_type" && ms[1].key == "subject" && ms[2].key == "predicateType" && ms[3].key == "predicate";
    forall m | m in ms ensures Wf(m.value) {
      assert m == ms[0] || m == ms[1] || m == ms[2] || m == ms[3];
    }
  }

  lemma StatementWf(name: string, hex: string, body: Json)
    requires Wf(body)
    ensures Wf(SubjectJson(name, hex)) && Wf(StatementJson(name, hex, body))
  {
    var ms := SubjectJson(name, hex).members;
    assert Wf(ms[1].value);
    assert ms[0].key == "name" && ms[1].key == "digest";
    AboutWf(SubjectJson(name, hex), body);
  }

  lemma SortedAbout(subject: Json, body: Json)
    requires Wf(subject) && Wf(body)
    ensures var d := Norm(About(subject, body));
      && d.Obj? && Get(d, "predicateType") == Some(Str(PREDICATE_TYPE)) && Get(d, "predicate") == Some(Norm(body))
      && Get(d, "subject") == Some(Arr([Norm(subject)]))
  {
    var ms := About(subject, body).members;
    AboutWf(subject, body);
    SortedHolds(ms);
    var d := Norm(Obj(ms));
    assert Get(d, ms[1].key) == Some(Norm(ms[1].value));
    assert Get(d, ms[2].key) == Some(Norm(ms[2].value));
    assert Get(d, ms[3].key) == Some(Norm(ms[3].value));
    assert Norm(Arr([subject])) == Arr([Norm(subject)]) by {
      assert [subject][1..] == [];
    }
  }

  lemma SubjectOfSorted(name: string, hex: string)
    requires hex != ""
    ensures var s := Norm(SubjectJson(name, hex)); s.Obj? && Get(s, "digest") == Some(Obj([Member("sha256", Str(hex))]))
  {
    var digest := Obj([Member("sha256", Str(hex))]);
    var ms := [Member("name", Str(name)), Member("digest", digest)];
    assert ms[0].key == "name" && ms[1].key == "digest";
    assert Wf(digest);
    SortedHolds(ms);
    assert Get(Norm(Obj(ms)), ms[1].key) == Some(Norm(digest));
    NormSingle(digest.members[0]);
  }

  lemma SubjectDigestOf(statement: Json, subject: Json, hex: string)
    requires Get(statement, "subject") == Some(Arr([subject])) && hex != ""
    requires Get(subject, "digest") == Some(Obj([Member("sha256", Str(hex))]))
    ensures SubjectDigest(statement) == Ok(hex)
  {
    assert Lookup([Member("sha256", Str(hex))], "sha256") == Some(Str(hex));
  }

  lemma SubjectDigestSorted(name: string, hex: string, body: Json)
    requires Wf(body) && hex != ""
    ensures SubjectDigest(Norm(StatementJson(name, hex, body))) == Ok(hex)
  {
    StatementWf(name, hex, body);
    SortedAbout(SubjectJson(name, hex), body);
    SubjectOfSorted(name, hex);
    SubjectDigestOf(Norm(StatementJson(name, hex, body)), Norm(SubjectJson(name, hex)), hex);
  }

  lemma DecodedAbout(a: Attestation, subject: Json)
    requires WfAttestation(a) && Wf(subject)
    ensures ToAttestation(Norm(About(subject, Obj(PredicateMembers(a))))) == Ok(NormAttestation(a.(signature := Null)))
  {
    PredicateDecodes(a);
    SortedAbout(subject, Obj(PredicateMembers(a)));
  }

  /** Projecting, re-ordering keys and decoding gives the attestation back with its signature cleared. */
  lemma ToAttestationOfProjected(a: Attestation, name: string, hex: string)
    requires WfAttestation(a)
    ensures ToAttestation(Norm(StatementJson(name, hex, Obj(PredicateMembers(a))))) ==
      Ok(NormAttestation(a.(signature := Null)))
  {
    StatementWf(name, hex, Null);
    DecodedAbout(a, SubjectJson(name, hex));
  }
}

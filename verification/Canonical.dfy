/** The one byte encoding of everything that gets signed. */
module Canonical {
  import opened Prelude
  import opened Json
  import opened JsonText
  import JsonRoundTrip
  import opened Order
  import Numbers
  import Utf8

  /** A Python object graph, as far as `canonicalize` tells objects apart. */
  datatype Py =
    | PyNull
    | PyBool(b: bool)
    | PyInt(n: int)
    | PyStr(s: string)
    | PyBinary                       // bytes, bytearray, memoryview
    | PyFloat(text: string)          // as the JSON text Python prints for it
    | PyEnum(member: Py)             // its `.value`
    | PySeq(items: seq<Py>)          // list, tuple
    | PyMap(entries: seq<Entry>)
    | PyData(fields: seq<Field>)     // a dataclass instance

  datatype Entry = Entry(key: Py, value: Py)
  datatype Field = Field(name: string, value: Py)

  /** `canonicalize`. */
  function Canonicalize(p: Py): Result<Json>
    decreases p, 1
  {
    match p
    case PyData(fields) =>
      (match CanonicalizeFields(fields) case Raised(e) => Raised(e) case Ok(ms) => Ok(Obj(ms)))
    case PyEnum(v) => Canonicalize(v)
    case PyMap(entries) =>
      (match CanonicalizeEntries(entries) case Raised(e) => Raised(e) case Ok(ms) => Ok(Obj(ms)))
    case PyStr(s) => Ok(Str(s))
    case PyBinary => Raised(ValueError)
    case PySeq(items) =>
      (match CanonicalizeItems(items) case Raised(e) => Raised(e) case Ok(xs) => Ok(Arr(xs)))
    case PyFloat(t) => if Numbers.IsFinite(t) then Ok(Num(t)) else Raised(ValueError)
    case PyNull => Ok(Null)
    case PyBool(b) => Ok(Bool(b))
    case PyInt(n) => Ok(Int(n))
  }

  function CanonicalizeItems(items: seq<Py>): Result<seq<Json>>
    decreases items, 0
  {
    if items == [] then Ok([])
    else match Canonicalize(items[0])
      case Raised(e) => Raised(e)
      case Ok(x) =>
        match CanonicalizeItems(items[1..])
        case Raised(e) => Raised(e)
        case Ok(xs) => Ok([x] + xs)
  }

  function CanonicalizeFields(fields: seq<Field>): Result<seq<Member>>
    decreases fields, 0
  {
    if fields == [] then Ok([])
    else match Canonicalize(fields[0].value)
      case Raised(e) => Raised(e)
      case Ok(x) =>
        match CanonicalizeFields(fields[1..])
        case Raised(e) => Raised(e)
        case Ok(xs) => Ok([Member(fields[0].name, x)] + xs)
  }

  function CanonicalizeEntries(entries: seq<Entry>): Result<seq<Member>>
    decreases entries, 0
  {
    if entries == [] then Ok([])
    else match CanonicalizeEntry(entries[0])
      case Raised(e) => Raised(e)
      case Ok(m) =>
        match CanonicalizeEntries(entries[1..])
        case Raised(e) => Raised(e)
        case Ok(ms) => Ok([m] + ms)
  }

  function CanonicalizeEntry(entry: Entry): Result<Member>
    decreases entry, 2
  {
    if !entry.key.PyStr? then Raised(ValueError)
    else match Canonicalize(entry.value)
      case Raised(e) => Raised(e)
      case Ok(x) => Ok(Member(entry.key.s, x))
  }

  /** The loop that fills `out`: the first entry with a bad key or a bad value ends it. */
  method FillMapping(entries: seq<Entry>) returns (r: Result<Json>)
    ensures r == Canonicalize(PyMap(entries))
  {
    var out: seq<Member> := [];
    assert entries[0..] == entries;
    PrependNothing(CanonicalizeEntries(entries));
    for i := 0 to |entries|
      invariant CanonicalizeEntries(entries) == Prepend(out, CanonicalizeEntries(entries[i..]))
    {
      assert entries[i..][1..] == entries[i + 1..];
      if !entries[i].key.PyStr? {
        return Raised(ValueError);
      }
      var value := Canonicalize(entries[i].value);
      if value.Raised? {
        return Raised(value.error);
      }
      PrependOne(out, Member(entries[i].key.s, value.value), CanonicalizeEntries(entries[i + 1..]));
      out := out + [Member(entries[i].key.s, value.value)];
    }
    assert entries[|entries|..] == [] && out + [] == out;
    return Ok(Obj(out));
  }

  function Prepend(out: seq<Member>, r: Result<seq<Member>>): Result<seq<Member>> {
    match r case Raised(e) => Raised(e) case Ok(ms) => Ok(out + ms)
  }

  lemma PrependNothing(r: Result<seq<Member>>)
    ensures Prepend([], r) == r
  {
    if r.Ok? { assert [] + r.value == r.value; }
  }

  lemma PrependOne(out: seq<Member>, m: Member, r: Result<seq<Member>>)
    ensures Prepend(out, Prepend([m], r)) == Prepend(out + [m], r)
  {
    if r.Ok? { assert out + ([m] + r.value) == out + [m] + r.value; }
  }

  /** What makes a graph encodable: text keys only, nothing binary, nothing non-finite, at any depth. */
  predicate Encodable(p: Py) {
    match p
    case PyData(fields) => forall f :: f in fields ==> Encodable(f.value)
    case PyEnum(v) => Encodable(v)
    case PyMap(entries) => forall e :: e in entries ==> e.key.PyStr? && Encodable(e.value)
    case PySeq(items) => forall x :: x in items ==> Encodable(x)
    case PyFloat(t) => Numbers.IsFinite(t)
    case _ => !p.PyBinary?
  }

  /** What Python guarantees of any graph: no dict and no dataclass repeats a name, and floats print as floats. */
  ghost predicate Unique(p: Py) {
    match p
    case PyFloat(t) => Numbers.FloatText(t)
    case PyData(fields) =>
      && (forall i, j :: 0 <= i < j < |fields| ==> fields[i].name != fields[j].name)
      && forall f :: f in fields ==> Unique(f.value)
    case PyEnum(v) => Unique(v)
    case PyMap(entries) =>
      && (forall i, j :: 0 <= i < j < |entries| ==> entries[i].key != entries[j].key)
      && forall e :: e in entries ==> Unique(e.value)
    case PySeq(items) => forall x :: x in items ==> Unique(x)
    case _ => true
  }

  /** The bytes of a projected value. */
  function Encoding(j: Json): Bytes { Utf8.Encode(Print(Norm(j))) }

  /** `canonical_bytes`. */
  function CanonicalBytes(p: Py): Result<Bytes> {
    match Canonicalize(p) case Raised(e) => Raised(e) case Ok(j) => Ok(Encoding(j))
  }

  // ---- which graphs are encodable ------------------------------------------

  lemma {:induction false} CanonicalizeItemsOk(items: seq<Py>)
    requires forall x :: x in items ==> Canonicalize(x).Ok?
    ensures CanonicalizeItems(items).Ok? && |CanonicalizeItems(items).value| == |items|
    ensures forall i :: 0 <= i < |items| ==> CanonicalizeItems(items).value[i] == Canonicalize(items[i]).value
  {
    if items != [] {
      assert items[0] in items && forall x :: x in items[1..] ==> x in items;
      CanonicalizeItemsOk(items[1..]);
    }
  }

  lemma {:induction false} CanonicalizeFieldsOk(fields: seq<Field>)
    requires forall f :: f in fields ==> Canonicalize(f.value).Ok?
    ensures CanonicalizeFields(fields).Ok? && |CanonicalizeFields(fields).value| == |fields|
    ensures forall i :: 0 <= i < |fields| ==>
      CanonicalizeFields(fields).value[i] == Member(fields[i].name, Canonicalize(fields[i].value).value)
  {
    if fields != [] {
      assert fields[0] in fields && forall f :: f in fields[1..] ==> f in fields;
      CanonicalizeFieldsOk(fields[1..]);
    }
  }

  lemma {:induction false} CanonicalizeEntriesOk(entries: seq<Entry>)
    requires forall e :: e in entries ==> e.key.PyStr? && Canonicalize(e.value).Ok?
    ensures CanonicalizeEntries(entries).Ok? && |CanonicalizeEntries(entries).value| == |entries|
    ensures forall i :: 0 <= i < |entries| ==>
      CanonicalizeEntries(entries).value[i] == Member(entries[i].key.s, Canonicalize(entries[i].value).value)
  {
    if entries != [] {
      assert entries[0] in entries && forall e :: e in entries[1..] ==> e in entries;
      CanonicalizeEntriesOk(entries[1..]);
    }
  }

  lemma {:induction false} ItemsRaise(items: seq<Py>, x: Py)
    requires x in items && Canonicalize(x).Raised?
    ensures CanonicalizeItems(items).Raised?
  {
    if items[0] != x { ItemsRaise(items[1..], x); }
  }

  lemma {:induction false} FieldsRaise(fields: seq<Field>, f: Field)
    requires f in fields && Canonicalize(f.value).Raised?
    ensures CanonicalizeFields(fields).Raised?
  {
    if fields[0] != f { FieldsRaise(fields[1..], f); }
  }

  lemma {:induction false} EntriesRaise(entries: seq<Entry>, e: Entry)
    requires e in entries && (!e.key.PyStr? || Canonicalize(e.value).Raised?)
    ensures CanonicalizeEntries(entries).Raised?
  {
    if entries[0] != e { EntriesRaise(entries[1..], e); }
  }

  /** Non-text keys, binary data and non-finite numbers are refused, and nothing else is. */
  lemma {:induction false} CanonicalizeAcceptsExactlyEncodable(p: Py)
    ensures Canonicalize(p).Ok? <==> Encodable(p)
  {
    match p
    case PyData(fields) =>
      forall f | f in fields ensures Canonicalize(f.value).Ok? <==> Encodable(f.value) {
        CanonicalizeAcceptsExactlyEncodable(f.value);
      }
      if f :| f in fields && !Encodable(f.value) { FieldsRaise(fields, f); } else { CanonicalizeFieldsOk(fields); }
    case PyEnum(v) => CanonicalizeAcceptsExactlyEncodable(v);
    case PyMap(entries) =>
      forall e | e in entries ensures Canonicalize(e.value).Ok? <==> Encodable(e.value) {
        CanonicalizeAcceptsExactlyEncodable(e.value);
      }
      if e :| e in entries && !(e.key.PyStr? && Encodable(e.value)) { EntriesRaise(entries, e); }
      else { CanonicalizeEntriesOk(entries); }
    case PySeq(items) =>
      forall x | x in items ensures Canonicalize(x).Ok? <==> Encodable(x) {
        CanonicalizeAcceptsExactlyEncodable(x);
      }
      if x :| x in items && !Encodable(x) { ItemsRaise(items, x); } else { CanonicalizeItemsOk(items); }
    case _ =>
  }

  /** A projection never repeats a key, so `Same` is the right equality for it. */
  lemma {:induction false} CanonicalizeWf(p: Py)
    requires Unique(p) && Encodable(p)
    ensures Canonicalize(p).Ok? && Wf(Canonicalize(p).value)
  {
    CanonicalizeAcceptsExactlyEncodable(p);
    match p
    case PyData(fields) =>
      forall f | f in fields ensures Canonicalize(f.value).Ok? && Wf(Canonicalize(f.value).value) {
        CanonicalizeWf(f.value);
      }
      CanonicalizeFieldsOk(fields);
    case PyEnum(v) => CanonicalizeWf(v);
    case PyMap(entries) =>
      forall e | e in entries ensures Canonicalize(e.value).Ok? && Wf(Canonicalize(e.value).value) {
        CanonicalizeWf(e.value);
      }
      CanonicalizeEntriesOk(entries);
    case PySeq(items) =>
      forall x | x in items ensures Canonicalize(x).Ok? && Wf(Canonicalize(x).value) {
        CanonicalizeWf(x);
      }
      CanonicalizeItemsOk(items);
    case _ =>
  }

  // ---- a JSON value is its own projection ----------------------------------

  function FromJson(j: Json): Py
    decreases j, 1
  {
    match j
    case Null => PyNull
    case Bool(b) => PyBool(b)
    case Int(n) => PyInt(n)
    case Num(t) => PyFloat(t)
    case Str(s) => PyStr(s)
    case Arr(items) => PySeq(FromItems(items))
    case Obj(ms) => PyMap(FromMembers(ms))
  }

  function FromItems(items: seq<Json>): (r: seq<Py>)
    ensures |r| == |items|
    decreases items, 0
  {
    if items == [] then [] else [FromJson(items[0])] + FromItems(items[1..])
  }

  function FromMembers(ms: seq<Member>): (r: seq<Entry>)
    ensures |r| == |ms|
    decreases ms, 0
  {
    if ms == [] then [] else [Entry(PyStr(ms[0].key), FromJson(ms[0].value))] + FromMembers(ms[1..])
  }

  lemma {:induction false} CanonicalizeFromJson(j: Json)
    requires Finite(j)
    ensures Canonicalize(FromJson(j)) == Ok(j)
    decreases j, 1
  {
    match j
    case Arr(items) => CanonicalizeFromItems(items);
    case Obj(ms) => CanonicalizeFromMembers(ms);
    case _ =>
  }

  lemma {:induction false} CanonicalizeFromItems(items: seq<Json>)
    requires forall x :: x in items ==> Finite(x)
    ensures CanonicalizeItems(FromItems(items)) == Ok(items)
    decreases items, 0
  {
    if items != [] {
      CanonicalizeFromJson(items[0]);
      CanonicalizeFromItems(items[1..]);
      assert items == [items[0]] + items[1..];
      assert FromItems(items)[1..] == FromItems(items[1..]);
    }
  }

  lemma {:induction false} CanonicalizeFromMembers(ms: seq<Member>)
    requires forall m :: m in ms ==> Finite(m.value)
    ensures CanonicalizeEntries(FromMembers(ms)) == Ok(ms)
    decreases ms, 0
  {
    if ms != [] {
      CanonicalizeFromJson(ms[0].value);
      CanonicalizeFromMembers(ms[1..]);
      assert ms == [ms[0]] + ms[1..];
      assert FromMembers(ms)[1..] == FromMembers(ms[1..]);
    }
  }

  lemma {:induction false} EncodableFromJson(j: Json)
    ensures Encodable(FromJson(j)) <==> Finite(j)
    decreases j
  {
    match j
    case Arr(items) =>
      forall i | 0 <= i < |items|
        ensures items[i] in items && FromItems(items)[i] in FromItems(items)
        ensures Encodable(FromItems(items)[i]) <==> Finite(items[i])
      {
        FromItemsAt(items, i);
        EncodableFromJson(items[i]);
      }
    case Obj(ms) =>
      forall i | 0 <= i < |ms|
        ensures ms[i] in ms && FromMembers(ms)[i] in FromMembers(ms) && FromMembers(ms)[i].key.PyStr?
        ensures Encodable(FromMembers(ms)[i].value) <==> Finite(ms[i].value)
      {
        FromMembersAt(ms, i);
        EncodableFromJson(ms[i].value);
      }
    case _ =>
  }

  lemma {:induction false} FromItemsAt(items: seq<Json>, i: nat)
    requires i < |items|
    ensures FromItems(items)[i] == FromJson(items[i])
  {
    if i > 0 { FromItemsAt(items[1..], i - 1); }
  }

  lemma {:induction false} FromMembersAt(ms: seq<Member>, i: nat)
    requires i < |ms|
    ensures FromMembers(ms)[i] == Entry(PyStr(ms[i].key), FromJson(ms[i].value))
  {
    if i > 0 { FromMembersAt(ms[1..], i - 1); }
  }

  /** The only exception is a `ValueError`. */
  lemma {:induction false} CanonicalizeErrors(p: Py)
    ensures Canonicalize(p).Raised? ==> Canonicalize(p) == Raised(ValueError)
    decreases p, 1
  {
    match p
    case PyData(fields) => FieldErrors(fields);
    case PyEnum(v) => CanonicalizeErrors(v);
    case PyMap(entries) => EntryErrors(entries);
    case PySeq(items) => ItemErrors(items);
    case _ =>
  }

  lemma {:induction false} ItemErrors(items: seq<Py>)
    ensures CanonicalizeItems(items).Raised? ==> CanonicalizeItems(items).error == ValueError
    decreases items, 0
  {
    if items != [] {
      CanonicalizeErrors(items[0]);
      ItemErrors(items[1..]);
    }
  }

  lemma {:induction false} FieldErrors(fields: seq<Field>)
    ensures CanonicalizeFields(fields).Raised? ==> CanonicalizeFields(fields).error == ValueError
    decreases fields, 0
  {
    if fields != [] {
      FieldError(fields[0]);
      FieldErrors(fields[1..]);
    }
  }

  lemma {:induction false} FieldError(field: Field)
    ensures Canonicalize(field.value).Raised? ==> Canonicalize(field.value).error == ValueError
    decreases field, 2
  {
    CanonicalizeErrors(field.value);
  }

  lemma {:induction false} EntryErrors(entries: seq<Entry>)
    ensures CanonicalizeEntries(entries).Raised? ==> CanonicalizeEntries(entries).error == ValueError
    decreases entries, 0
  {
    if entries != [] {
      EntryError(entries[0]);
      EntryErrors(entries[1..]);
    }
  }

  lemma {:induction false} EntryError(entry: Entry)
    ensures CanonicalizeEntry(entry).Raised? ==> CanonicalizeEntry(entry).error == ValueError
    decreases entry, 2
  {
    CanonicalizeErrors(entry.value);
  }

  /** A JSON value is projected to itself, unless a NaN or an infinity is in it. */
  lemma ProjectJson(j: Json)
    ensures Encodable(FromJson(j)) <==> Finite(j)
    ensures Canonicalize(FromJson(j)) == if Finite(j) then Ok(j) else Raised(ValueError)
  {
    EncodableFromJson(j);
    CanonicalizeAcceptsExactlyEncodable(FromJson(j));
    CanonicalizeErrors(FromJson(j));
    if Finite(j) { CanonicalizeFromJson(j); }
  }

  // ---- the encoding --------------------------------------------------------

  /** Reading canonical bytes gives the value back, its keys now in order. */
  lemma LoadsOfCanonical(j: Json)
    requires Wf(j)
    ensures LoadsBytes(Encoding(j)) == Ok(Norm(j))
  {
    NormWf(j);
    JsonRoundTrip.LoadsBytesOfPrinted(Norm(j));
  }

  /** At every depth, the keys of an object stand in strictly ascending order of code points. */
  ghost predicate Ascending(j: Json) {
    match j
    case Arr(items) => forall x :: x in items ==> Ascending(x)
    case Obj(ms) =>
      && (forall i, k :: 0 <= i < k < |ms| ==> Before(ms[i].key, ms[k].key))
      && forall m :: m in ms ==> Ascending(m.value)
    case _ => true
  }

  lemma {:induction false} NormAscends(j: Json)
    requires Wf(j)
    ensures Ascending(Norm(j))
  {
    match j
    case Arr(items) =>
      forall x | x in NormItems(items) ensures Ascending(x) {
        var i :| 0 <= i < |items| && NormItems(items)[i] == x;
        NormItemsAt(items, i);
        assert items[i] in items;
        NormAscends(items[i]);
      }
    case Obj(ms) =>
      NormObj(ms);
      KeysAscend(Norm(j).members);
      forall m | m in Norm(j).members ensures Ascending(m.value) {
        assert m in multiset(NormMembers(ms));
        var i :| 0 <= i < |ms| && NormMembers(ms)[i] == m;
        NormMembersAt(ms, i);
        assert ms[i] in ms;
        NormAscends(ms[i].value);
      }
    case _ =>
  }

  lemma KeysAscend(ns: seq<Member>)
    requires DistinctKeys(ns) && Sorted(LeMember, ns)
    ensures forall i, k :: 0 <= i < k < |ns| ==> Before(ns[i].key, ns[k].key)
  {
    forall i, k | 0 <= i < k < |ns| ensures Before(ns[i].key, ns[k].key) {
      assert LeMember(ns[i], ns[k]);
      LeIsBefore(ns[i].key, ns[k].key);
    }
  }

  /** What canonical bytes are: the UTF-8 of the compact text of the same value, its keys ascending at every depth, and
      without any white space but what stands in texts. */
  lemma EncodingIs(j: Json)
    requires Wf(j)
    ensures exists sorted ::
      && Encoding(j) == Utf8.Encode(Print(sorted)) && Ascending(sorted) && Same(j, sorted)
      && (Spaceless(sorted) ==> NoWs(Print(sorted)))
  {
    var sorted := Norm(j);
    NormWf(j);
    NormAscends(j);
    NormIdempotent(j);
    NormDecidesSame(j, sorted);
    if Spaceless(sorted) { PrintIsCompact(sorted); }
  }

  /** The text that the repository's own tests fix: `{"b": 1, "a": 2}` is signed as `{"a":2,"b":1}`. */
  lemma CanonicalGolden(a: string, b: string, text: string)
    requires a == "a" && b == "b" && text == "{\"a\":2,\"b\":1}"
    ensures CanonicalBytes(PyMap([Entry(PyStr(b), PyInt(1)), Entry(PyStr(a), PyInt(2))])) == Ok(Utf8.Encode(text))
  {
    var x, y := Entry(PyStr(b), PyInt(1)), Entry(PyStr(a), PyInt(2));
    var m, n := Member(b, Int(1)), Member(a, Int(2));
    ProjectTwo(x, y, m, n);
    SortTwo(m, n);
    PrintTwo(a, b, n, m);
  }

  lemma {:induction false} ProjectTwo(x: Entry, y: Entry, m: Member, n: Member)
    requires CanonicalizeEntry(x) == Ok(m) && CanonicalizeEntry(y) == Ok(n)
    ensures Canonicalize(PyMap([x, y])) == Ok(Obj([m, n]))
  {
    assert [x, y][1..] == [y] && [y][1..] == [];
    assert CanonicalizeEntries([y]) == Ok([n] + []);
    assert [n] + [] == [n] && [m] + [n] == [m, n];
  }

  lemma SortTwo(m: Member, n: Member)
    requires !LeMember(m, n) && m.value.Int? && n.value.Int?
    ensures Norm(Obj([m, n])) == Obj([n, m])
  {
    assert [m, n][1..] == [n] && [n][1..] == [];
    assert NormMembers([n]) == [n];
    assert NormMembers([m, n]) == [m, n];
    assert Sort(LeMember, [n]) == [n];
    assert Insert(LeMember, m, [n]) == [n] + Insert(LeMember, m, [n][1..]);
  }

  lemma PrintTwo(a: string, b: string, n: Member, m: Member)
    requires a == "a" && b == "b" && n == Member(a, Int(2)) && m == Member(b, Int(1))
    ensures Print(Obj([n, m])) == "{\"a\":2,\"b\":1}"
  {
    assert [n, m][1..] == [m];
    assert PrintMembers([m]) == PrintMember(m);
    assert PrintChars(a) == "a" by { assert a[1..] == ""; }
    assert PrintChars(b) == "b" by { assert b[1..] == ""; }
    assert PrintMember(n) == "\"a\":2" && PrintMember(m) == "\"b\":1";
  }

  /** Canonical bytes agree exactly on equal values: no collisions, and no dependence on insertion order. */
  lemma CanonicalBytesDecideSame(a: Json, b: Json)
    requires Wf(a) && Wf(b)
    ensures Encoding(a) == Encoding(b) <==> Same(a, b)
  {
    LoadsOfCanonical(a);
    LoadsOfCanonical(b);
    NormDecidesSame(a, b);
  }

  /** The same, for object graphs: two graphs sign the same bytes only when they project to the same value. */
  lemma CanonicalBytesOfGraphs(p: Py, q: Py)
    requires Unique(p) && Unique(q) && Encodable(p) && Encodable(q)
    ensures Canonicalize(p).Ok? && Canonicalize(q).Ok?
    ensures CanonicalBytes(p).Ok? && CanonicalBytes(q).Ok?
    ensures CanonicalBytes(p).value == CanonicalBytes(q).value
       <==> Same(Canonicalize(p).value, Canonicalize(q).value)
  {
    CanonicalizeWf(p);
    CanonicalizeWf(q);
    CanonicalBytesDecideSame(Canonicalize(p).value, Canonicalize(q).value);
  }
}

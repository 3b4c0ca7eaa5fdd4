/** JSON values. An object is a Python dict: members in insertion order, one per key. */
module Json {
  import opened Prelude
  import opened Order
  import Numbers

  datatype Json =
    | Null
    | Bool(b: bool)
    | Int(n: int)
    | Num(text: string)              // a float, as the literal it is written with
    | Str(s: string)
    | Arr(items: seq<Json>)
    | Obj(members: seq<Member>)

  datatype Member = Member(key: string, value: Json)

  predicate LeMember(x: Member, y: Member) { Le(x.key, y.key) }

  ghost predicate DistinctKeys(ms: seq<Member>) {
    forall i, j :: 0 <= i < j < |ms| ==> ms[i].key != ms[j].key
  }

  /** A value Python can hold: no dict repeats a key, and a float is written as one. */
  ghost predicate Wf(j: Json) {
    match j
    case Num(t) => Numbers.FloatText(t)
    case Arr(items) => forall x :: x in items ==> Wf(x)
    case Obj(ms) => DistinctKeys(ms) && forall m :: m in ms ==> Wf(m.value)
    case _ => true
  }

  /** No float in it is a NaN or an infinity. */
  predicate Finite(j: Json) {
    match j
    case Num(t) => Numbers.IsFinite(t)
    case Arr(items) => forall x :: x in items ==> Finite(x)
    case Obj(ms) => forall m :: m in ms ==> Finite(m.value)
    case _ => true
  }

  /** `dict.get`. */
  function Lookup(ms: seq<Member>, key: string): Option<Json> {
    if ms == [] then None
    else if ms[0].key == key then Some(ms[0].value)
    else Lookup(ms[1..], key)
  }

  function Get(j: Json, key: string): Option<Json> {
    if j.Obj? then Lookup(j.members, key) else None
  }

  /** Equality of JSON values: dicts compare as mappings, whatever their insertion order. */
  ghost predicate Same(a: Json, b: Json) {
    match a
    case Arr(xs) => b.Arr? && |xs| == |b.items| && forall i :: 0 <= i < |xs| ==> Same(xs[i], b.items[i])
    case Obj(ms) =>
      && b.Obj? && |ms| == |b.members|
      && forall m :: m in ms ==> Lookup(b.members, m.key).Some? && Same(m.value, Lookup(b.members, m.key).value)
    case _ => a == b
  }

  /** Every dict re-inserted in key order, at every depth. */
  function Norm(j: Json): Json
    decreases j, 1
  {
    match j
    case Arr(items) => Arr(NormItems(items))
    case Obj(ms) => Obj(Sort(LeMember, NormMembers(ms)))
    case _ => j
  }

  function NormItems(items: seq<Json>): (r: seq<Json>)
    ensures |r| == |items|
    decreases items, 0
  {
    if items == [] then [] else [Norm(items[0])] + NormItems(items[1..])
  }

  function NormMembers(ms: seq<Member>): (r: seq<Member>)
    ensures |r| == |ms|
    decreases ms, 0
  {
    if ms == [] then [] else [Member(ms[0].key, Norm(ms[0].value))] + NormMembers(ms[1..])
  }

  // ---- lookups and sorting -------------------------------------------------

  lemma LeMemberTotalPreorder()
    ensures TotalPreorder(LeMember)
  {
    LeTotalPreorder();
  }

  lemma DistinctKeysDistinguish(ms: seq<Member>)
    requires DistinctKeys(ms)
    ensures Distinguishes(LeMember, ms)
  {
    forall i, j | 0 <= i < |ms| && 0 <= j < |ms| && LeMember(ms[i], ms[j]) && LeMember(ms[j], ms[i])
      ensures ms[i] == ms[j]
    {
      LeAntisymmetric(ms[i].key, ms[j].key);
    }
  }

  lemma {:induction false} LookupIsMembership(ms: seq<Member>, key: string, v: Json)
    requires DistinctKeys(ms)
    ensures Lookup(ms, key) == Some(v) <==> Member(key, v) in ms
  {
    if ms != [] {
      LookupIsMembership(ms[1..], key, v);
      assert ms == [ms[0]] + ms[1..];
    }
  }

  lemma {:induction false} LookupAt(ms: seq<Member>, i: nat)
    requires i < |ms| && forall k :: 0 <= k < i ==> ms[k].key != ms[i].key
    ensures Lookup(ms, ms[i].key) == Some(ms[i].value)
  {
    if i > 0 { LookupAt(ms[1..], i - 1); }
  }

  lemma {:induction false} LookupFails(ms: seq<Member>, key: string)
    ensures Lookup(ms, key).None? <==> forall m :: m in ms ==> m.key != key
  {
    if ms != [] {
      LookupFails(ms[1..], key);
      assert ms == [ms[0]] + ms[1..];
    }
  }

  lemma {:induction false} DistinctKeysOfPermutation(a: seq<Member>, b: seq<Member>)
    requires DistinctKeys(a) && multiset(a) == multiset(b)
    ensures DistinctKeys(b)
  {
    forall i, j | 0 <= i < j < |b| ensures b[i].key != b[j].key {
      assert b[i] in multiset(a) && b[j] in multiset(a);
      var p :| 0 <= p < |a| && a[p] == b[i];
      var q :| 0 <= q < |a| && a[q] == b[j];
      TwoPlaces(b, i, j);
      MultiplicityOne(a, p);
    }
  }

  lemma TwoPlaces(b: seq<Member>, i: nat, j: nat)
    requires i < j < |b|
    ensures b[i] == b[j] ==> multiset(b)[b[i]] >= 2
  {
    assert b == b[..j] + [b[j]] + b[j + 1..];
    assert b[i] in b[..j];
    assert multiset(b) == multiset(b[..j]) + multiset{b[j]} + multiset(b[j + 1..]);
  }

  lemma MultiplicityOne(a: seq<Member>, p: nat)
    requires DistinctKeys(a) && p < |a|
    ensures multiset(a)[a[p]] == 1
  {
    assert a == a[..p] + [a[p]] + a[p + 1..];
    assert a[p] !in a[..p] && a[p] !in a[p + 1..];
  }

  lemma LookupIgnoresOrder(a: seq<Member>, b: seq<Member>, key: string)
    requires DistinctKeys(a) && multiset(a) == multiset(b)
    ensures Lookup(a, key) == Lookup(b, key)
  {
    DistinctKeysOfPermutation(a, b);
    match Lookup(a, key)
    case Some(v) =>
      LookupIsMembership(a, key, v);
      LookupIsMembership(b, key, v);
      assert Member(key, v) in multiset(b);
    case None =>
      LookupFails(a, key);
      LookupFails(b, key);
      forall m | m in b ensures m.key != key {
        assert m in multiset(a);
      }
  }

  lemma {:induction false} NormItemsAt(items: seq<Json>, i: nat)
    requires i < |items|
    ensures NormItems(items)[i] == Norm(items[i])
  {
    if i > 0 { NormItemsAt(items[1..], i - 1); }
  }

  lemma {:induction false} NormMembersAt(ms: seq<Member>, i: nat)
    requires i < |ms|
    ensures NormMembers(ms)[i] == Member(ms[i].key, Norm(ms[i].value))
  {
    if i > 0 { NormMembersAt(ms[1..], i - 1); }
  }

  lemma NormMembersKeys(ms: seq<Member>)
    requires DistinctKeys(ms)
    ensures DistinctKeys(NormMembers(ms))
  {
    forall i, j | 0 <= i < j < |ms| ensures NormMembers(ms)[i].key != NormMembers(ms)[j].key {
      NormMembersAt(ms, i);
      NormMembersAt(ms, j);
    }
  }

  /** Facts about the sorted members of a dict, in one place. */
  lemma NormObj(ms: seq<Member>)
    requires DistinctKeys(ms)
    ensures var ns := Norm(Obj(ms)).members;
      && DistinctKeys(ns) && |ns| == |ms|
      && multiset(ns) == multiset(NormMembers(ms)) && Sorted(LeMember, ns)
  {
    LeMemberTotalPreorder();
    NormMembersKeys(ms);
    SortPermutesAndOrders(LeMember, NormMembers(ms));
    DistinctKeysOfPermutation(NormMembers(ms), Norm(Obj(ms)).members);
  }

  function MapNorm(v: Option<Json>): Option<Json> {
    match v
    case None => None
    case Some(x) => Some(Norm(x))
  }

  lemma {:induction false} LookupNormMembers(ms: seq<Member>, key: string)
    ensures Lookup(NormMembers(ms), key) == MapNorm(Lookup(ms, key))
  {
    if ms != [] {
      LookupNormMembers(ms[1..], key);
      assert NormMembers(ms)[1..] == NormMembers(ms[1..]);
    }
  }

  /** Sorting a dict's keys, at every depth, does not change what a key maps to. */
  lemma GetNorm(j: Json, key: string)
    requires Wf(j)
    ensures Get(Norm(j), key) == MapNorm(Get(j, key))
  {
    if j.Obj? {
      NormObj(j.members);
      LookupIgnoresOrder(Norm(j).members, NormMembers(j.members), key);
      LookupNormMembers(j.members, key);
    }
  }

  lemma LookupWf(ms: seq<Member>, key: string)
    requires Wf(Obj(ms)) && Lookup(ms, key).Some?
    ensures Wf(Lookup(ms, key).value)
    ensures Member(key, Lookup(ms, key).value) in ms
  {
    LookupIsMembership(ms, key, Lookup(ms, key).value);
  }

  lemma NormSingle(m: Member)
    ensures Norm(Obj([m])) == Obj([Member(m.key, Norm(m.value))])
  {
    var n := Member(m.key, Norm(m.value));
    assert NormMembers([m]) == [n] by { assert [m][1..] == []; }
    assert Sort(LeMember, [n]) == [n] by { assert [n][1..] == []; }
  }

  lemma {:induction false} NormWf(j: Json)
    requires Wf(j)
    ensures Wf(Norm(j))
  {
    match j
    case Arr(items) =>
      forall x | x in NormItems(items) ensures Wf(x) {
        var i :| 0 <= i < |items| && NormItems(items)[i] == x;
        NormItemsAt(items, i);
        assert items[i] in items;
        NormWf(items[i]);
      }
    case Obj(ms) =>
      NormObj(ms);
      forall m | m in Norm(j).members ensures Wf(m.value) {
        assert m in multiset(NormMembers(ms));
        var i :| 0 <= i < |ms| && NormMembers(ms)[i] == m;
        NormMembersAt(ms, i);
        assert ms[i] in ms;
        NormWf(ms[i].value);
      }
    case _ =>
  }

  /** Sorting keys twice is sorting them once. */
  lemma {:induction false} NormIdempotent(j: Json)
    requires Wf(j)
    ensures Norm(Norm(j)) == Norm(j)
  {
    match j
    case Arr(items) =>
      forall i | 0 <= i < |items| ensures NormItems(NormItems(items))[i] == NormItems(items)[i] {
        NormItemsAt(items, i);
        NormItemsAt(NormItems(items), i);
        assert items[i] in items;
        NormIdempotent(items[i]);
      }
    case Obj(ms) =>
      var ns := Norm(j).members;
      NormObj(ms);
      forall i | 0 <= i < |ns| ensures NormMembers(ns)[i] == ns[i] {
        assert ns[i] in multiset(NormMembers(ms));
        var k :| 0 <= k < |ms| && NormMembers(ms)[k] == ns[i];
        NormMembersAt(ms, k);
        NormMembersAt(ns, i);
        assert ms[k] in ms;
        NormIdempotent(ms[k].value);
      }
      assert NormMembers(ns) == ns;
      SortSorted(ns);
    case _ =>
  }

  lemma SortSorted(ns: seq<Member>)
    requires DistinctKeys(ns) && Sorted(LeMember, ns)
    ensures Sort(LeMember, ns) == ns
  {
    LeMemberTotalPreorder();
    SortPermutesAndOrders(LeMember, ns);
    DistinctKeysDistinguish(ns);
    SortedUnique(LeMember, ns, Sort(LeMember, ns));
  }

  lemma {:induction false} FiniteNorm(j: Json)
    requires Wf(j)
    ensures Finite(Norm(j)) <==> Finite(j)
  {
    match j
    case Arr(items) =>
      forall i | 0 <= i < |items| ensures items[i] in items && Finite(NormItems(items)[i]) == Finite(items[i]) {
        NormItemsAt(items, i);
        FiniteNorm(items[i]);
      }
    case Obj(ms) =>
      forall i | 0 <= i < |ms| ensures Finite(NormMembers(ms)[i].value) == Finite(ms[i].value) {
        NormMembersAt(ms, i);
        assert ms[i] in ms;
        FiniteNorm(ms[i].value);
      }
      NormObj(ms);
      FinitePermuted(ms, NormMembers(ms), Norm(j).members);
    case _ =>
  }

  lemma FinitePermuted(ms: seq<Member>, ns: seq<Member>, sorted: seq<Member>)
    requires |ms| == |ns| && multiset(ns) == multiset(sorted)
    requires forall i :: 0 <= i < |ms| ==> Finite(ns[i].value) == Finite(ms[i].value)
    ensures Finite(Obj(ms)) <==> Finite(Obj(sorted))
  {
    forall m | m in sorted ensures m in ns {
      assert m in multiset(ns);
    }
    forall i | 0 <= i < |ms| ensures ms[i] in ms && ns[i] in sorted {
      assert ns[i] in multiset(sorted);
    }
  }

  // ---- Norm decides equality -----------------------------------------------

  lemma {:induction false} SameImpliesNorm(a: Json, b: Json)
    requires Wf(a) && Wf(b) && Same(a, b)
    ensures Norm(a) == Norm(b)
  {
    match a
    case Arr(xs) =>
      forall i | 0 <= i < |xs| ensures NormItems(xs)[i] == NormItems(b.items)[i] {
        assert xs[i] in xs && b.items[i] in b.items;
        SameImpliesNorm(xs[i], b.items[i]);
        NormItemsAt(xs, i);
        NormItemsAt(b.items, i);
      }
    case Obj(ms) =>
      var ns := b.members;
      NormMembersKeys(ms);
      forall m | m in NormMembers(ms) ensures m in NormMembers(ns) {
        var i :| 0 <= i < |ms| && NormMembers(ms)[i] == m;
        NormMembersAt(ms, i);
        assert ms[i] in ms;
        var v := Lookup(ns, ms[i].key).value;
        LookupWf(ns, ms[i].key);
        SameImpliesNorm(ms[i].value, v);
        var k :| 0 <= k < |ns| && ns[k] == Member(ms[i].key, v);
        NormMembersAt(ns, k);
      }
      SubsetOfSameLength(NormMembers(ms), NormMembers(ns));
      LeMemberTotalPreorder();
      DistinctKeysDistinguish(NormMembers(ms));
      SortIgnoresOrder(LeMember, NormMembers(ms), NormMembers(ns));
    case _ =>
  }

  lemma {:induction false} NormImpliesSame(a: Json, b: Json)
    requires Wf(a) && Wf(b) && Norm(a) == Norm(b)
    ensures Same(a, b)
  {
    match a
    case Arr(xs) =>
      assert |xs| == |b.items|;
      forall i | 0 <= i < |xs| ensures Same(xs[i], b.items[i]) {
        assert xs[i] in xs && b.items[i] in b.items;
        NormItemsAt(xs, i);
        NormItemsAt(b.items, i);
        NormImpliesSame(xs[i], b.items[i]);
      }
    case Obj(ms) =>
      NormObj(ms);
      NormObj(b.members);
      forall m | m in ms ensures Lookup(b.members, m.key).Some? && Same(m.value, Lookup(b.members, m.key).value) {
        LookupIsMembership(ms, m.key, m.value);
        GetNorm(a, m.key);
        GetNorm(b, m.key);
        LookupWf(b.members, m.key);
        NormImpliesSame(m.value, Lookup(b.members, m.key).value);
      }
    case _ =>
  }

  /** Key-sorting at every depth identifies exactly the values that are equal as JSON values. */
  lemma NormDecidesSame(a: Json, b: Json)
    requires Wf(a) && Wf(b)
    ensures Norm(a) == Norm(b) <==> Same(a, b)
  {
    if Same(a, b) { SameImpliesNorm(a, b); }
    if Norm(a) == Norm(b) { NormImpliesSame(a, b); }
  }
}

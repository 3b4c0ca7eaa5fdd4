/** Python's string order (by code point) and its stable sort. */
module Order {

  /** `a <= b` on Python strings. */
  predicate Le(a: string, b: string) {
    |a| == 0 || (|b| > 0 && (a[0] < b[0] || (a[0] == b[0] && Le(a[1..], b[1..]))))
  }

  /** `a` and `b` agree before place `i` and differ there. */
  predicate DifferFirstAt(a: string, b: string, i: nat) { i < |a| && i < |b| && a[..i] == b[..i] && a[i] != b[i] }

  /** The order is ascending by code point: the first difference decides, and a text comes before those it begins. */
  lemma {:induction false} LeIsByCodePoint(a: string, b: string)
    ensures Le(a, b) <==> a <= b || exists i: nat :: DifferFirstAt(a, b, i) && a[i] < b[i]
  {
    if |a| > 0 && |b| > 0 && a[0] == b[0] {
      LeIsByCodePoint(a[1..], b[1..]);
      FirstDifferenceShifts(a, b);
    } else if |a| > 0 && |b| > 0 {
      assert DifferFirstAt(a, b, 0);
    }
  }

  lemma FirstDifferenceShifts(a: string, b: string)
    requires |a| > 0 && |b| > 0 && a[0] == b[0]
    ensures a <= b <==> a[1..] <= b[1..]
    ensures (exists i: nat :: DifferFirstAt(a, b, i) && a[i] < b[i]) <==>
      exists i: nat :: DifferFirstAt(a[1..], b[1..], i) && a[1..][i] < b[1..][i]
  {
    assert a == [a[0]] + a[1..] && b == [b[0]] + b[1..];
    if i: nat :| DifferFirstAt(a, b, i) && a[i] < b[i] {
      assert a[..i][1..] == a[1..][..i - 1] && b[..i][1..] == b[1..][..i - 1];
      assert DifferFirstAt(a[1..], b[1..], i - 1);
    }
    if i: nat :| DifferFirstAt(a[1..], b[1..], i) && a[1..][i] < b[1..][i] {
      assert a[..i + 1] == [a[0]] + a[1..][..i] && b[..i + 1] == [b[0]] + b[1..][..i];
      assert DifferFirstAt(a, b, i + 1);
    }
  }

  /** `a` stands before `b`: by code point at the first difference, or because `b` goes on after it. */
  ghost predicate Before(a: string, b: string) { a < b || exists i: nat :: DifferFirstAt(a, b, i) && a[i] < b[i] }

  lemma LeIsBefore(a: string, b: string)
    ensures Le(a, b) <==> a == b || Before(a, b)
  {
    LeIsByCodePoint(a, b);
  }

  ghost predicate TotalPreorder<T(!new)>(le: (T, T) -> bool) {
    && (forall x, y :: le(x, y) || le(y, x))
    && (forall x, y, z :: le(x, y) && le(y, z) ==> le(x, z))
  }

  /** `x` goes in front of the first element that is not below it: equal elements keep their order. */
  function Insert<T>(le: (T, T) -> bool, x: T, ys: seq<T>): seq<T> {
    if ys == [] then [x]
    else if le(x, ys[0]) then [x] + ys
    else [ys[0]] + Insert(le, x, ys[1..])
  }

  /** `sorted(xs, key=...)`. */
  function Sort<T>(le: (T, T) -> bool, xs: seq<T>): seq<T> {
    if xs == [] then [] else Insert(le, xs[0], Sort(le, xs[1..]))
  }

  ghost predicate Sorted<T>(le: (T, T) -> bool, xs: seq<T>) {
    forall i, j :: 0 <= i < j < |xs| ==> le(xs[i], xs[j])
  }

  /** No two different elements of `xs` are equal to the order. */
  ghost predicate Distinguishes<T>(le: (T, T) -> bool, xs: seq<T>) {
    forall i, j :: 0 <= i < |xs| && 0 <= j < |xs| && le(xs[i], xs[j]) && le(xs[j], xs[i]) ==> xs[i] == xs[j]
  }

  lemma {:induction false} LeTotal(a: string, b: string)
    ensures Le(a, b) || Le(b, a)
  {
    if |a| > 0 && |b| > 0 { LeTotal(a[1..], b[1..]); }
  }

  lemma {:induction false} LeAntisymmetric(a: string, b: string)
    requires Le(a, b) && Le(b, a)
    ensures a == b
  {
    if |a| > 0 && |b| > 0 {
      LeAntisymmetric(a[1..], b[1..]);
      assert a == [a[0]] + a[1..] && b == [b[0]] + b[1..];
    }
  }

  lemma {:induction false} LeTransitive(a: string, b: string, c: string)
    requires Le(a, b) && Le(b, c)
    ensures Le(a, c)
  {
    if |a| > 0 && a[0] == b[0] && b[0] == c[0] { LeTransitive(a[1..], b[1..], c[1..]); }
  }

  lemma LeTotalPreorder()
    ensures TotalPreorder(Le)
  {
    forall x, y ensures Le(x, y) || Le(y, x) { LeTotal(x, y); }
    forall x, y, z | Le(x, y) && Le(y, z) ensures Le(x, z) { LeTransitive(x, y, z); }
  }

  lemma {:induction false} InsertKeeps<T>(le: (T, T) -> bool, x: T, ys: seq<T>)
    ensures multiset(Insert(le, x, ys)) == multiset{x} + multiset(ys)
    ensures |Insert(le, x, ys)| == |ys| + 1
  {
    if ys != [] {
      assert ys == [ys[0]] + ys[1..];
      if !le(x, ys[0]) { InsertKeeps(le, x, ys[1..]); }
    }
  }

  lemma {:induction false} InsertSorted<T(!new)>(le: (T, T) -> bool, x: T, ys: seq<T>)
    requires TotalPreorder(le) && Sorted(le, ys)
    ensures Sorted(le, Insert(le, x, ys))
  {
    if ys != [] && !le(x, ys[0]) {
      var rest := Insert(le, x, ys[1..]);
      InsertSorted(le, x, ys[1..]);
      InsertKeeps(le, x, ys[1..]);
      forall k | 0 <= k < |rest| ensures le(ys[0], rest[k]) {
        assert rest[k] in multiset(rest);
        if rest[k] != x {
          assert rest[k] in multiset(ys[1..]);
          assert rest[k] in ys[1..];
        }
      }
    }
  }

  /** Sorting permutes and orders. */
  lemma {:induction false} SortPermutesAndOrders<T(!new)>(le: (T, T) -> bool, xs: seq<T>)
    requires TotalPreorder(le)
    ensures multiset(Sort(le, xs)) == multiset(xs)
    ensures |Sort(le, xs)| == |xs|
    ensures Sorted(le, Sort(le, xs))
  {
    if xs != [] {
      SortPermutesAndOrders(le, xs[1..]);
      InsertKeeps(le, xs[0], Sort(le, xs[1..]));
      InsertSorted(le, xs[0], Sort(le, xs[1..]));
      assert xs == [xs[0]] + xs[1..];
    }
  }

  lemma SortedHeadsAgree<T>(le: (T, T) -> bool, a: seq<T>, b: seq<T>)
    requires Sorted(le, a) && Sorted(le, b) && multiset(a) == multiset(b) && a != [] && b != []
    requires Distinguishes(le, a)
    ensures a[0] == b[0]
  {
    assert b[0] in multiset(a) && a[0] in multiset(b);
    var i :| 0 <= i < |a| && a[i] == b[0];
    var j :| 0 <= j < |b| && b[j] == a[0];
    if i != 0 && j != 0 { assert le(a[0], a[i]) && le(b[0], b[j]); }
  }

  lemma TailMultiset<T>(a: seq<T>)
    requires a != []
    ensures multiset(a[1..]) == multiset(a) - multiset{a[0]}
  {
    assert a == [a[0]] + a[1..];
  }

  /** An ordered list is determined by its elements. */
  lemma {:induction false} SortedUnique<T>(le: (T, T) -> bool, a: seq<T>, b: seq<T>)
    requires Sorted(le, a) && Sorted(le, b) && multiset(a) == multiset(b)
    requires Distinguishes(le, a)
    ensures a == b
  {
    assert |a| == |multiset(a)| == |multiset(b)| == |b|;
    if a != [] {
      SortedHeadsAgree(le, a, b);
      TailMultiset(a);
      TailMultiset(b);
      SortedUnique(le, a[1..], b[1..]);
      assert a == [a[0]] + a[1..] && b == [b[0]] + b[1..];
    }
  }

  ghost predicate NoRepeats<T(!new)>(xs: seq<T>) {
    forall i, j :: 0 <= i < j < |xs| ==> xs[i] != xs[j]
  }

  lemma Extract<T>(b: seq<T>, k: nat)
    requires k < |b|
    ensures multiset(b[..k] + b[k + 1..]) == multiset(b) - multiset{b[k]}
  {
    assert b == b[..k] + [b[k]] + b[k + 1..];
  }

  /** A list without repeats whose elements all lie in an equally long list is a permutation of it. */
  lemma {:induction false} SubsetOfSameLength<T(!new)>(a: seq<T>, b: seq<T>)
    requires NoRepeats(a) && |a| == |b|
    requires forall x :: x in a ==> x in b
    ensures multiset(a) == multiset(b)
  {
    if a != [] {
      assert a[0] in b;
      var k :| 0 <= k < |b| && b[k] == a[0];
      var rest := b[..k] + b[k + 1..];
      assert b == b[..k] + [b[k]] + b[k + 1..];
      assert a == [a[0]] + a[1..];
      forall x | x in a[1..] ensures x in rest {
        assert x in a && x in b && x != a[0];
      }
      SubsetOfSameLength(a[1..], rest);
      assert multiset(b) == multiset(rest) + multiset{a[0]};
    }
  }

  lemma DistinguishesIsAboutElements<T>(le: (T, T) -> bool, a: seq<T>, b: seq<T>)
    requires multiset(a) == multiset(b) && Distinguishes(le, a)
    ensures Distinguishes(le, b)
  {
    forall i, j | 0 <= i < |b| && 0 <= j < |b| && le(b[i], b[j]) && le(b[j], b[i]) ensures b[i] == b[j] {
      assert b[i] in multiset(a) && b[j] in multiset(a);
    }
  }

  /** Python's `sorted` does not depend on the order of its input when its key tells the elements apart. */
  lemma SortIgnoresOrder<T(!new)>(le: (T, T) -> bool, xs: seq<T>, ys: seq<T>)
    requires TotalPreorder(le) && multiset(xs) == multiset(ys) && Distinguishes(le, xs)
    ensures Sort(le, xs) == Sort(le, ys)
  {
    SortPermutesAndOrders(le, xs);
    SortPermutesAndOrders(le, ys);
    DistinguishesIsAboutElements(le, xs, Sort(le, xs));
    SortedUnique(le, Sort(le, xs), Sort(le, ys));
  }
}

/** Generic folds, filters and sorting over sequences, used by every table computation. */
module Seqs {

  /** The sum of `f` over the elements of `s`. */
  function SumBy<T>(s: seq<T>, f: T -> int): int
  {
    if s == [] then 0 else f(s[0]) + SumBy(s[1..], f)
  }

  /** The elements of `s` that satisfy `p`, in order. */
  function Filter<T(==)>(s: seq<T>, p: T -> bool): (r: seq<T>)
    ensures |r| <= |s|
    ensures forall i :: 0 <= i < |r| ==> r[i] in s && p(r[i])
    ensures forall i :: 0 <= i < |s| && p(s[i]) ==> s[i] in r
  {
    if s == [] then []
    else if p(s[0]) then [s[0]] + Filter(s[1..], p)
    else Filter(s[1..], p)
  }

  /** The set of keys that occur in `s`. */
  function KeySet<T(==)>(s: seq<T>, key: T -> int): set<int>
  {
    set x | x in s :: key(x)
  }

  predicate SortedBy<T>(s: seq<T>, key: T -> int)
  {
    forall i, j :: 0 <= i < j < |s| ==> key(s[i]) <= key(s[j])
  }

  lemma {:induction false} SumByAppend<T>(a: seq<T>, b: seq<T>, f: T -> int)
    ensures SumBy(a + b, f) == SumBy(a, f) + SumBy(b, f)
  {
    if a == [] {
      assert a + b == b;
    } else {
      assert (a + b)[1..] == a[1..] + b;
      SumByAppend(a[1..], b, f);
    }
  }

  lemma SumBySnoc<T>(a: seq<T>, x: T, f: T -> int)
    ensures SumBy(a + [x], f) == SumBy(a, f) + f(x)
  {
    SumByAppend(a, [x], f);
  }

  /** Taking one term out of a sum. */
  lemma SumByRemoveAt<T>(b: seq<T>, j: int, f: T -> int)
    requires 0 <= j < |b|
    ensures SumBy(b, f) == f(b[j]) + SumBy(b[..j] + b[j + 1..], f)
  {
    assert b == b[..j] + ([b[j]] + b[j + 1..]);
    SumByAppend(b[..j], [b[j]] + b[j + 1..], f);
    SumByAppend(b[..j], b[j + 1..], f);
  }

  /** Taking the same element out of two permutations of each other leaves
      two permutations of each other. */
  lemma PermutationRemoveHead<T>(a: seq<T>, b: seq<T>, j: int)
    requires multiset(a) == multiset(b) && a != []
    requires 0 <= j < |b| && b[j] == a[0]
    ensures multiset(a[1..]) == multiset(b[..j] + b[j + 1..])
  {
    assert a == [a[0]] + a[1..];
    assert b == b[..j] + [b[j]] + b[j + 1..];
    assert multiset(a[1..]) == multiset(a) - multiset{a[0]};
    assert multiset(b[..j] + b[j + 1..]) == multiset(b) - multiset{b[j]};
  }

  /** A sum does not depend on the order of its terms. */
  lemma {:induction false} SumByPermutation<T>(a: seq<T>, b: seq<T>, f: T -> int)
    requires multiset(a) == multiset(b)
    ensures SumBy(a, f) == SumBy(b, f)
    decreases |a|
  {
    if a == [] {
      assert |b| == |multiset(b)| == 0;
    } else {
      assert a[0] in multiset(b);
      var j :| 0 <= j < |b| && b[j] == a[0];
      PermutationRemoveHead(a, b, j);
      SumByPermutation(a[1..], b[..j] + b[j + 1..], f);
      SumByRemoveAt(b, j, f);
    }
  }

  /** Terms that are all zero sum to zero. */
  lemma {:induction false} SumByZero<T>(s: seq<T>, f: T -> int)
    requires forall x :: x in s ==> f(x) == 0
    ensures SumBy(s, f) == 0
  {
    if s != [] {
      SumByZero(s[1..], f);
    }
  }

  lemma KeySetPermutation<T>(a: seq<T>, b: seq<T>, key: T -> int)
    requires multiset(a) == multiset(b)
    ensures KeySet(a, key) == KeySet(b, key)
  {
    forall x ensures x in a <==> x in b {
      assert x in a <==> x in multiset(a);
      assert x in b <==> x in multiset(b);
    }
  }

  lemma KeySetCons<T>(x: T, s: seq<T>, key: T -> int)
    ensures KeySet([x] + s, key) == {key(x)} + KeySet(s, key)
  {
    forall y ensures y in [x] + s <==> y == x || y in s {
    }
  }

  /** Inserts `x` before the first element whose key is not smaller than its own. */
  function InsertBy<T(==)>(x: T, s: seq<T>, key: T -> int): (r: seq<T>)
    ensures multiset(r) == multiset(s) + multiset{x}
  {
    if s == [] || key(x) <= key(s[0]) then
      [x] + s
    else
      assert s == [s[0]] + s[1..];
      [s[0]] + InsertBy(x, s[1..], key)
  }

  /** Inserting into a key-ordered sequence keeps it in key order. */
  lemma {:induction false} InsertBySorted<T>(x: T, s: seq<T>, key: T -> int)
    requires SortedBy(s, key)
    ensures SortedBy(InsertBy(x, s, key), key)
    ensures |InsertBy(x, s, key)| == |s| + 1
    ensures InsertBy(x, s, key)[0] == x || InsertBy(x, s, key)[0] == s[0]
  {
    if s != [] && key(x) > key(s[0]) {
      InsertBySorted(x, s[1..], key);
      assert |s| > 1 ==> key(s[0]) <= key(s[1]);
    }
  }

  /** A stable insertion sort on `key`. */
  function SortBy<T(==)>(s: seq<T>, key: T -> int): (r: seq<T>)
    ensures SortedBy(r, key)
    ensures multiset(r) == multiset(s)
  {
    if s == [] then []
    else
      assert s == [s[0]] + s[1..];
      InsertBySorted(s[0], SortBy(s[1..], key), key);
      InsertBy(s[0], SortBy(s[1..], key), key)
  }

  /** Sorting a sequence that is already in key order leaves it unchanged. */
  lemma {:induction false} SortByOfSorted<T>(s: seq<T>, key: T -> int)
    requires SortedBy(s, key)
    ensures SortBy(s, key) == s
  {
    if s != [] {
      SortByOfSorted(s[1..], key);
    }
  }
}

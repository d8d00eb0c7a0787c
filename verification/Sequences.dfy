/**
 The array operations the services rely on (`find`, `findIndex`, `filter`, `map`, `sort`),
 with the facts about them that do not depend on the order of the array.
 */
module Sequences {
  import opened Wrappers

  /** `Array.prototype.findIndex`: the least index that satisfies `p`, or -1. */
  function FindIndex<T>(s: seq<T>, p: T -> bool): (i: int)
    ensures -1 <= i < |s|
    ensures i >= 0 ==> p(s[i]) && forall j :: 0 <= j < i ==> !p(s[j])
    ensures i < 0 ==> forall x :: x in s ==> !p(x)
  {
    if s == [] then -1
    else if p(s[0]) then 0
    else
      var i := FindIndex(s[1..], p);
      if i < 0 then -1 else i + 1
  }

  /** `Array.prototype.find` */
  function Find<T>(s: seq<T>, p: T -> bool): (r: Option<T>)
    ensures r.Some? ==> r.value in s && p(r.value)
    ensures r.None? <==> forall x :: x in s ==> !p(x)
  {
    var i := FindIndex(s, p);
    if i < 0 then None else Some(s[i])
  }

  /** `Array.prototype.filter` */
  function Filter<T>(s: seq<T>, p: T -> bool): seq<T> {
    if s == [] then [] else (if p(s[0]) then [s[0]] else []) + Filter(s[1..], p)
  }

  /** `Array.prototype.map` */
  function Map<T, U>(s: seq<T>, f: T -> U): (r: seq<U>)
    ensures |r| == |s|
    ensures forall i :: 0 <= i < |s| ==> r[i] == f(s[i])
  {
    seq(|s|, i requires 0 <= i < |s| => f(s[i]))
  }

  /** `Array.prototype.flat`, one level */
  function Flatten<T>(s: seq<seq<T>>): seq<T> {
    if s == [] then [] else Flatten(s[..|s| - 1]) + s[|s| - 1]
  }

  ghost predicate Distinct<T>(s: seq<T>) {
    forall i, j :: 0 <= i < j < |s| ==> s[i] != s[j]
  }

  ghost predicate IsPermutation<T>(a: seq<T>, b: seq<T>) {
    multiset(a) == multiset(b)
  }

  lemma {:induction false} FilterAppend<T>(s: seq<T>, t: seq<T>, p: T -> bool)
    ensures Filter(s + t, p) == Filter(s, p) + Filter(t, p)
  {
    if s == [] {
      assert s + t == t;
    } else {
      var first := if p(s[0]) then [s[0]] else [];
      calc {
        Filter(s + t, p);
      ==  { assert (s + t)[0] == s[0] && (s + t)[1..] == s[1..] + t; }
        first + Filter(s[1..] + t, p);
      ==  { FilterAppend(s[1..], t, p); }
        first + (Filter(s[1..], p) + Filter(t, p));
      ==
        Filter(s, p) + Filter(t, p);
      }
    }
  }

  /** Filtering keeps an element's multiplicity or drops it entirely. */
  lemma {:induction false} FilterMultiset<T>(s: seq<T>, p: T -> bool, x: T)
    ensures multiset(Filter(s, p))[x] == if p(x) then multiset(s)[x] else 0
  {
    if s != [] {
      FilterMultiset(s[1..], p, x);
      assert s == [s[0]] + s[1..];
    }
  }

  lemma FilterPermutation<T>(a: seq<T>, b: seq<T>, p: T -> bool)
    requires IsPermutation(a, b)
    ensures IsPermutation(Filter(a, p), Filter(b, p))
  {
    FilterIncluded(a, b, p);
    FilterIncluded(b, a, p);
  }

  lemma FilterIncluded<T>(a: seq<T>, b: seq<T>, p: T -> bool)
    requires IsPermutation(a, b)
    ensures multiset(Filter(a, p)) <= multiset(Filter(b, p))
  {
    var missing := multiset(Filter(a, p)) - multiset(Filter(b, p));
    if missing != multiset{} {
      var x :| x in missing;
      FilterMultiset(a, p, x);
      FilterMultiset(b, p, x);
    }
    assert missing == multiset{};
  }

  lemma PermutationLength<T>(a: seq<T>, b: seq<T>)
    requires IsPermutation(a, b)
    ensures |a| == |b|
  {
    assert |multiset(a)| == |multiset(b)|;
  }

  lemma {:induction false} FilterAll<T>(s: seq<T>, p: T -> bool)
    requires forall x :: x in s ==> p(x)
    ensures Filter(s, p) == s
  {
    if s != [] {
      FilterAll(s[1..], p);
    }
  }

  lemma {:induction false} FilterNone<T>(s: seq<T>, p: T -> bool)
    ensures Filter(s, p) == [] <==> forall x :: x in s ==> !p(x)
  {
    if s != [] {
      FilterNone(s[1..], p);
      assert forall x :: x in s <==> x == s[0] || x in s[1..];
    }
  }

  lemma PushOneSide<T>(a: seq<T>, b: seq<T>, x: T)
    ensures multiset(a + [x]) + multiset(b) == multiset(a) + multiset(b) + multiset{x}
    ensures multiset(a) + multiset(b + [x]) == multiset(a) + multiset(b) + multiset{x}
  {
  }

  lemma AppendPermutations<T>(a: seq<T>, b: seq<T>, c: seq<T>, d: seq<T>)
    requires IsPermutation(a, b) && IsPermutation(c, d)
    ensures IsPermutation(a + c, b + d)
  {
  }

  lemma TakeOneMore<T>(s: seq<T>, n: nat)
    requires 0 < n <= |s|
    ensures multiset(s[..n]) == multiset(s[..n - 1]) + multiset{s[n - 1]}
  {
    assert s[..n] == s[..n - 1] + [s[n - 1]];
  }

  lemma RemoveAt<T>(s: seq<T>, i: nat)
    requires i < |s|
    ensures multiset(s) == multiset(s[..i] + s[i + 1..]) + multiset{s[i]}
  {
    assert s == s[..i] + [s[i]] + s[i + 1..];
  }

  lemma {:induction false} DistinctCounts<T>(s: seq<T>, x: T)
    requires Distinct(s)
    ensures multiset(s)[x] <= 1
  {
    if s != [] {
      DistinctCounts(s[1..], x);
      assert s == [s[0]] + s[1..];
      if x == s[0] {
        assert x !in s[1..];
      }
    }
  }

  lemma {:induction false} CountsDistinct<T(!new)>(s: seq<T>)
    requires forall x :: multiset(s)[x] <= 1
    ensures Distinct(s)
  {
    if s != [] {
      assert s == [s[0]] + s[1..];
      forall x ensures multiset(s[1..])[x] <= 1 {
        assert multiset(s)[x] <= 1;
      }
      CountsDistinct(s[1..]);
      assert multiset(s)[s[0]] <= 1;
      assert s[0] !in s[1..];
    }
  }

  /**
   The pigeonhole principle behind the one-directional inclusion check: distinct elements
   that all occur in a sequence of the same length leave no room for anything else.
   */
  lemma Pigeonhole<T>(xs: seq<T>, ys: seq<T>)
    requires Distinct(xs) && |xs| == |ys|
    requires forall x :: x in xs ==> x in ys
    ensures IsPermutation(xs, ys)
  {
    forall x ensures multiset(xs)[x] <= multiset(ys)[x] {
      DistinctCounts(xs, x);
      if x in xs {
        assert x in multiset(ys);
      }
    }
    var rest := multiset(ys) - multiset(xs);
    assert multiset(ys) == multiset(xs) + rest;
    assert |rest| == 0;
    assert multiset(ys) == multiset(xs);
  }

  // ----- stable sorting by a natural number -----

  function Insert<T>(x: T, s: seq<T>, key: T -> nat): seq<T> {
    if s == [] || key(x) < key(s[0]) then [x] + s else [s[0]] + Insert(x, s[1..], key)
  }

  /**
   `Array.prototype.sort` with the comparator `key(a) - key(b)`; the sort is stable by
   section 23.1.3.30 of ECMA-262 (2023).
   */
  function StableSort<T>(s: seq<T>, key: T -> nat): seq<T> {
    if s == [] then [] else Insert(s[|s| - 1], StableSort(s[..|s| - 1], key), key)
  }

  ghost predicate SortedBy<T>(s: seq<T>, key: T -> nat) {
    forall i, j :: 0 <= i < j < |s| ==> key(s[i]) <= key(s[j])
  }

  /** The elements of `s` with key `k`, in the order they stand in `s`. */
  function Class<T>(s: seq<T>, key: T -> nat, k: nat): seq<T> {
    Filter(s, x => key(x) == k)
  }

  ghost predicate SameClasses<T>(a: seq<T>, b: seq<T>, key: T -> nat) {
    forall k: nat :: Class(a, key, k) == Class(b, key, k)
  }

  lemma ClassCons<T>(s: seq<T>, key: T -> nat, k: nat)
    requires s != []
    ensures Class(s, key, k) == (if key(s[0]) == k then [s[0]] else []) + Class(s[1..], key, k)
  {
  }

  lemma ClassAppend<T>(s: seq<T>, t: seq<T>, key: T -> nat, k: nat)
    ensures Class(s + t, key, k) == Class(s, key, k) + Class(t, key, k)
  {
    FilterAppend(s, t, x => key(x) == k);
  }

  lemma ClassSingle<T>(x: T, key: T -> nat, k: nat)
    ensures Class([x], key, k) == if key(x) == k then [x] else []
  {
    ClassCons([x], key, k);
  }

  lemma ClassEmpty<T>(s: seq<T>, key: T -> nat, k: nat)
    ensures Class(s, key, k) == [] <==> forall x :: x in s ==> key(x) != k
  {
    FilterNone(s, x => key(x) == k);
  }

  /** `out` orders `s` by `key` and never swaps two elements with equal keys. */
  ghost predicate IsStableSortOf<T>(out: seq<T>, s: seq<T>, key: T -> nat) {
    SortedBy(out, key) && SameClasses(out, s, key)
  }

  lemma {:induction false} InsertStable<T>(x: T, s: seq<T>, key: T -> nat)
    requires SortedBy(s, key)
    ensures SortedBy(Insert(x, s, key), key)
    ensures IsPermutation(Insert(x, s, key), s + [x])
    ensures SameClasses(Insert(x, s, key), s + [x], key)
  {
    if s == [] {
      assert s + [x] == [x] + s;
    } else if key(x) < key(s[0]) {
      InsertBeforeHead(x, s, key);
    } else {
      InsertStable(x, s[1..], key);
      InsertAfterHead(x, s, Insert(x, s[1..], key), key);
    }
  }

  lemma InsertBeforeHead<T>(x: T, s: seq<T>, key: T -> nat)
    requires s != [] && SortedBy(s, key) && key(x) < key(s[0])
    ensures SortedBy([x] + s, key) && IsPermutation([x] + s, s + [x]) && SameClasses([x] + s, s + [x], key)
  {
    forall k: nat ensures Class([x] + s, key, k) == Class(s + [x], key, k) {
      ClassAppend([x], s, key, k);
      ClassAppend(s, [x], key, k);
      ClassSingle(x, key, k);
      ClassEmpty(s, key, k);
    }
  }

  lemma InsertAfterHead<T>(x: T, s: seq<T>, rest: seq<T>, key: T -> nat)
    requires s != [] && SortedBy(s, key) && key(s[0]) <= key(x)
    requires SortedBy(rest, key) && IsPermutation(rest, s[1..] + [x]) && SameClasses(rest, s[1..] + [x], key)
    ensures SortedBy([s[0]] + rest, key)
    ensures IsPermutation([s[0]] + rest, s + [x]) && SameClasses([s[0]] + rest, s + [x], key)
  {
    var tail := s[1..] + [x];
    StableCons(s[0], rest, tail, key);
    assert s + [x] == [s[0]] + tail;
  }

  lemma StableCons<T>(x: T, rest: seq<T>, tail: seq<T>, key: T -> nat)
    requires SortedBy(rest, key) && IsPermutation(rest, tail) && SameClasses(rest, tail, key)
    requires forall y :: y in tail ==> key(x) <= key(y)
    ensures SortedBy([x] + rest, key) && IsPermutation([x] + rest, [x] + tail) && SameClasses([x] + rest, [x] + tail, key)
  {
    PermutationMembers(rest, tail);
    SortedCons(x, rest, key);
    AppendPermutations([x], [x], rest, tail);
    SameClassesCons(x, rest, tail, key);
  }

  lemma PermutationMembers<T>(a: seq<T>, b: seq<T>)
    requires IsPermutation(a, b)
    ensures forall y :: y in a ==> y in b
  {
    forall y | y in a ensures y in b {
      assert y in multiset(a);
    }
  }

  lemma SortedCons<T>(x: T, s: seq<T>, key: T -> nat)
    requires SortedBy(s, key) && forall y :: y in s ==> key(x) <= key(y)
    ensures SortedBy([x] + s, key)
  {
  }

  lemma SameClassesCons<T>(x: T, a: seq<T>, b: seq<T>, key: T -> nat)
    requires SameClasses(a, b, key)
    ensures SameClasses([x] + a, [x] + b, key)
  {
    forall k: nat ensures Class([x] + a, key, k) == Class([x] + b, key, k) {
      assert Class(a, key, k) == Class(b, key, k);
      ClassCons([x] + a, key, k);
      ClassCons([x] + b, key, k);
      assert ([x] + a)[1..] == a && ([x] + b)[1..] == b;
    }
  }

  lemma {:induction false} StableSortCorrect<T>(s: seq<T>, key: T -> nat)
    ensures IsStableSortOf(StableSort(s, key), s, key)
    ensures IsPermutation(StableSort(s, key), s)
  {
    if s != [] {
      var front, x := s[..|s| - 1], s[|s| - 1];
      StableSortCorrect(front, key);
      InsertStable(x, StableSort(front, key), key);
      assert s == front + [x];
      forall k: nat ensures Class(StableSort(s, key), key, k) == Class(s, key, k) {
        ClassAppend(StableSort(front, key), [x], key, k);
        ClassAppend(front, [x], key, k);
      }
    }
  }

  /** Sorted sequences with the same classes are equal: a stable sort has one possible result. */
  lemma {:induction false} StableSortUnique<T>(a: seq<T>, b: seq<T>, key: T -> nat)
    requires SortedBy(a, key) && SortedBy(b, key) && SameClasses(a, b, key)
    ensures a == b
  {
    if a == [] {
      ClassesEmpty(a, b, key);
    } else if b == [] {
      ClassesEmpty(b, a, key);
    } else {
      HeadKeyBelow(a, b, key);
      HeadKeyBelow(b, a, key);
      forall k: nat ensures Class(a[1..], key, k) == Class(b[1..], key, k) {
        ClassTail(a, b, key, k);
      }
      ClassTail(a, b, key, key(a[0]));
      StableSortUnique(a[1..], b[1..], key);
      assert a == [a[0]] + a[1..] && b == [b[0]] + b[1..];
    }
  }

  /** `r` is what every stable sort of `s` gives. */
  ghost predicate OnlyStableSort<T(!new)>(r: seq<T>, s: seq<T>, key: T -> nat) {
    forall other :: IsStableSortOf(other, s, key) <==> other == r
  }

  lemma StableSortDetermined<T(!new)>(s: seq<T>, key: T -> nat)
    ensures OnlyStableSort(StableSort(s, key), s, key)
  {
    var r := StableSort(s, key);
    StableSortCorrect(s, key);
    forall other | IsStableSortOf(other, s, key) ensures other == r {
      forall k: nat ensures Class(other, key, k) == Class(r, key, k) {
        assert Class(other, key, k) == Class(s, key, k) && Class(r, key, k) == Class(s, key, k);
      }
      StableSortUnique(other, r, key);
    }
  }

  lemma ClassesEmpty<T>(a: seq<T>, b: seq<T>, key: T -> nat)
    requires a == [] && SameClasses(a, b, key)
    ensures b == []
  {
    if b != [] {
      assert Class(a, key, key(b[0])) == Class(b, key, key(b[0]));
      ClassEmpty(b, key, key(b[0]));
    }
  }

  lemma ClassTail<T>(a: seq<T>, b: seq<T>, key: T -> nat, k: nat)
    requires a != [] && b != [] && key(a[0]) == key(b[0]) && SameClasses(a, b, key)
    ensures Class(a[1..], key, k) == Class(b[1..], key, k)
    ensures k == key(a[0]) ==> a[0] == b[0]
  {
    var ca, cb := Class(a[1..], key, k), Class(b[1..], key, k);
    ClassCons(a, key, k);
    ClassCons(b, key, k);
    assert Class(a, key, k) == Class(b, key, k);
    assert [] + ca == ca && [] + cb == cb;
    if k == key(a[0]) {
      assert ([a[0]] + ca)[0] == ([b[0]] + cb)[0];
      assert ([a[0]] + ca)[1..] == ca && ([b[0]] + cb)[1..] == cb;
    }
  }

  lemma HeadKeyBelow<T>(a: seq<T>, b: seq<T>, key: T -> nat)
    requires a != [] && b != [] && SortedBy(b, key) && SameClasses(a, b, key)
    ensures key(b[0]) <= key(a[0])
  {
    assert Class(a, key, key(a[0])) == Class(b, key, key(a[0]));
    ClassEmpty(a, key, key(a[0]));
    ClassEmpty(b, key, key(a[0]));
  }
}

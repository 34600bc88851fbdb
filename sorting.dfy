/**
 * `Array.prototype.sort` with a comparator of the form `(a, b) => key(a) - key(b)`,
 * run in place on the array. ECMAScript (since 2019) requires the sort to be stable:
 * elements with equal keys keep their relative order. The insertion sort here is, and
 * a sorted, stable result is unique, so the sort's output is fully determined.
 */
module Sorting {

  /** Keys never decrease from left to right. */
  ghost predicate SortedBy<T>(s: seq<T>, key: T -> int) {
    forall i, j :: 0 <= i < j < |s| ==> key(s[i]) <= key(s[j])
  }

  /** Every element has the same key: the comparator answers 0 for every pair. */
  ghost predicate AllKeysEqual<T>(s: seq<T>, key: T -> int) {
    forall i, j :: 0 <= i < |s| && 0 <= j < |s| ==> key(s[i]) == key(s[j])
  }

  /** The elements whose key is k, in their order: the part of the order a stable sort keeps. */
  ghost function WithKey<T>(s: seq<T>, key: T -> int, k: int): (r: seq<T>)
    ensures forall i :: 0 <= i < |r| ==> r[i] in s && key(r[i]) == k
    ensures forall i :: 0 <= i < |s| && key(s[i]) == k ==> s[i] in r
  {
    if s == [] then [] else (if key(s[0]) == k then [s[0]] else []) + WithKey(s[1..], key, k)
  }

  lemma {:induction false} WithKeyAppend<T>(a: seq<T>, b: seq<T>, key: T -> int, k: int)
    ensures WithKey(a + b, key, k) == WithKey(a, key, k) + WithKey(b, key, k)
  {
    if a == [] {
      assert a + b == b;
    } else {
      assert (a + b)[1..] == a[1..] + b;
      WithKeyAppend(a[1..], b, key, k);
    }
  }

  /** Two elements with different keys: at most one of them has key k. */
  lemma WithKeyPair<T>(x: T, y: T, key: T -> int, k: int)
    requires key(x) != key(y)
    ensures WithKey([x, y], key, k) == WithKey([y, x], key, k)
  {
    assert [x, y][1..] == [y] && [y, x][1..] == [x];
    assert [x][1..] == [] && [y][1..] == [];
  }

  /** Exchanging two neighbours with different keys keeps the elements of key k in order. */
  lemma SwapKeepsKey<T>(s: seq<T>, j: nat, key: T -> int, k: int)
    requires 0 < j < |s| && key(s[j - 1]) != key(s[j])
    ensures WithKey(s[j - 1 := s[j]][j := s[j - 1]], key, k) == WithKey(s, key, k)
  {
    var front, back := s[..j - 1], s[j + 1..];
    var x, y := s[j - 1], s[j];
    assert s == (front + [x, y]) + back;
    assert s[j - 1 := y][j := x] == (front + [y, x]) + back;
    WithKeyAppend(front + [x, y], back, key, k);
    WithKeyAppend(front, [x, y], key, k);
    WithKeyAppend(front + [y, x], back, key, k);
    WithKeyAppend(front, [y, x], key, k);
    WithKeyPair(x, y, key, k);
  }

  lemma SwapKeepsOrderOfEqualKeys<T>(s: seq<T>, j: nat, key: T -> int)
    requires 0 < j < |s| && key(s[j - 1]) != key(s[j])
    ensures forall k :: WithKey(s[j - 1 := s[j]][j := s[j - 1]], key, k) == WithKey(s, key, k)
  {
    forall k ensures WithKey(s[j - 1 := s[j]][j := s[j - 1]], key, k) == WithKey(s, key, k) {
      SwapKeepsKey(s, j, key, k);
    }
  }

  /** A non-empty sequence has an element of its first element's key. */
  lemma WithKeyOfHead<T>(s: seq<T>, key: T -> int)
    requires s != []
    ensures WithKey(s, key, key(s[0])) != [] && WithKey(s, key, key(s[0]))[0] == s[0]
  {
  }

  /** In two sorted sequences with the same elements of each key, the first keys agree. */
  lemma SortedHeadsAgree<T>(s: seq<T>, t: seq<T>, key: T -> int)
    requires s != [] && t != []
    requires SortedBy(s, key) && SortedBy(t, key)
    requires WithKey(s, key, key(t[0])) == WithKey(t, key, key(t[0]))
    requires WithKey(s, key, key(s[0])) == WithKey(t, key, key(s[0]))
    ensures key(s[0]) == key(t[0])
  {
    WithKeyOfHead(s, key);
    WithKeyOfHead(t, key);
    var ws, wt := WithKey(s, key, key(t[0])), WithKey(t, key, key(s[0]));
    assert ws[0] in s && key(ws[0]) == key(t[0]);
    assert wt[0] in t && key(wt[0]) == key(s[0]);
    var i :| 0 <= i < |s| && s[i] == ws[0];
    var j :| 0 <= j < |t| && t[j] == wt[0];
    assert i == 0 || key(s[0]) <= key(s[i]);
    assert j == 0 || key(t[0]) <= key(t[j]);
  }

  /** Two sorted sequences with the same elements of each key start with the same element. */
  lemma SortedHeadsEqual<T>(s: seq<T>, t: seq<T>, key: T -> int)
    requires s != [] && t != []
    requires SortedBy(s, key) && SortedBy(t, key)
    requires forall k :: WithKey(s, key, k) == WithKey(t, key, k)
    ensures s[0] == t[0]
  {
    SortedHeadsAgree(s, t, key);
    WithKeyOfHead(s, key);
    WithKeyOfHead(t, key);
  }

  /** Dropping the same first element keeps the elements of key k equal. */
  lemma TailsWithKey<T>(s: seq<T>, t: seq<T>, key: T -> int, k: int)
    requires s != [] && t != [] && s[0] == t[0]
    requires WithKey(s, key, k) == WithKey(t, key, k)
    ensures WithKey(s[1..], key, k) == WithKey(t[1..], key, k)
  {
    var head := if key(s[0]) == k then [s[0]] else [];
    assert WithKey(s, key, k) == head + WithKey(s[1..], key, k);
    assert WithKey(t, key, k) == head + WithKey(t[1..], key, k);
    assert WithKey(s[1..], key, k) == WithKey(s, key, k)[|head|..];
  }

  /** A sequence with an element of some key cannot match, key by key, an empty one. */
  lemma NonemptyWithKeys<T>(s: seq<T>, t: seq<T>, key: T -> int)
    requires s != []
    requires forall k :: WithKey(s, key, k) == WithKey(t, key, k)
    ensures t != []
  {
    WithKeyOfHead(s, key);
    assert WithKey(t, key, key(s[0])) != [];
  }

  /** Two sorted, key-by-key equal sequences share their head, and their tails are again sorted and key-by-key equal. */
  lemma StableTails<T>(s: seq<T>, t: seq<T>, key: T -> int)
    requires s != [] && t != []
    requires SortedBy(s, key) && SortedBy(t, key)
    requires forall k :: WithKey(s, key, k) == WithKey(t, key, k)
    ensures s[0] == t[0]
    ensures SortedBy(s[1..], key) && SortedBy(t[1..], key)
    ensures forall k :: WithKey(s[1..], key, k) == WithKey(t[1..], key, k)
  {
    SortedHeadsEqual(s, t, key);
    forall k ensures WithKey(s[1..], key, k) == WithKey(t[1..], key, k) {
      TailsWithKey(s, t, key, k);
    }
    SortedTail(s, key);
    SortedTail(t, key);
  }

  /**
   * Stability fixes the result: two sequences sorted by the key whose elements of each
   * key come in the same order are equal.
   */
  lemma {:induction false} SortedStableUnique<T>(s: seq<T>, t: seq<T>, key: T -> int)
    requires SortedBy(s, key) && SortedBy(t, key)
    requires forall k :: WithKey(s, key, k) == WithKey(t, key, k)
    ensures s == t
  {
    if s != [] && t != [] {
      StableTails(s, t, key);
      SortedStableUnique(s[1..], t[1..], key);
      assert s == [s[0]] + s[1..] && t == [t[0]] + t[1..];
    } else if s != [] {
      NonemptyWithKeys(s, t, key);
    } else if t != [] {
      NonemptyWithKeys(t, s, key);
    }
  }

  lemma SortedTail<T>(s: seq<T>, key: T -> int)
    requires s != [] && SortedBy(s, key)
    ensures SortedBy(s[1..], key)
  {
  }

  /** Sorts `a` in place by ascending key, moving an element only past strictly larger keys. */
  method SortByKey<T>(a: array<T>, key: T -> int)
    modifies a
    ensures SortedBy(a[..], key)
    ensures multiset(a[..]) == multiset(old(a[..]))
    ensures AllKeysEqual(old(a[..]), key) ==> a[..] == old(a[..])
    ensures forall k :: WithKey(a[..], key, k) == WithKey(old(a[..]), key, k)
  {
    if a.Length == 0 {
      return;
    }
    ghost var original := a[..];
    var i := 1;
    while i < a.Length
      invariant 1 <= i <= a.Length
      invariant SortedBy(a[..i], key)
      invariant multiset(a[..]) == multiset(original)
      invariant AllKeysEqual(original, key) ==> a[..] == original
      invariant forall k :: WithKey(a[..], key, k) == WithKey(original, key, k)
    {
      InsertLast(a, i, key);
      i := i + 1;
    }
    assert a[..i] == a[..];
  }

  /** Moves a[i] left past the strictly larger keys of the sorted prefix a[..i]. */
  method InsertLast<T>(a: array<T>, i: nat, key: T -> int)
    requires i < a.Length
    requires SortedBy(a[..i], key)
    modifies a
    ensures SortedBy(a[..i + 1], key)
    ensures multiset(a[..]) == multiset(old(a[..]))
    ensures AllKeysEqual(old(a[..]), key) ==> a[..] == old(a[..])
    ensures forall k :: WithKey(a[..], key, k) == WithKey(old(a[..]), key, k)
  {
    InsertingStart(a[..], i, key);
    EqualKeysStay(a[..], i, key);
    if i == 0 || key(a[i - 1]) <= key(a[i]) {
      InsertingDone(a[..], i, i, key);
      return;
    }
    ghost var before := a[..];
    var j := i;
    while j > 0 && key(a[j - 1]) > key(a[j])
      invariant 0 <= j <= i
      invariant Inserting(a[..], i, j, key)
      invariant multiset(a[..]) == multiset(before)
      invariant forall k :: WithKey(a[..], key, k) == WithKey(before, key, k)
    {
      InsertingStep(a[..], i, j, key);
      SwapKeepsOrderOfEqualKeys(a[..], j, key);
      Swap(a, j - 1, j);
      j := j - 1;
    }
    InsertingDone(a[..], i, j, key);
  }

  /**
   * The state of the insertion: a[..i+1] is sorted apart from the element at j,
   * which is smaller than every element after it.
   */
  ghost predicate Inserting<T>(s: seq<T>, i: nat, j: nat, key: T -> int) {
    j <= i < |s| &&
    (forall p, q :: 0 <= p < q <= i && p != j && q != j ==> key(s[p]) <= key(s[q])) &&
    (forall q :: j < q <= i ==> key(s[j]) < key(s[q]))
  }

  lemma InsertingStart<T>(s: seq<T>, i: nat, key: T -> int)
    requires i < |s| && SortedBy(s[..i], key)
    ensures Inserting(s, i, i, key)
  {
    forall p, q | 0 <= p < q <= i && p != i && q != i
      ensures key(s[p]) <= key(s[q])
    {
      assert s[..i][p] == s[p] && s[..i][q] == s[q];
    }
  }

  /** With all keys equal, the last element is never moved. */
  lemma EqualKeysStay<T>(s: seq<T>, i: nat, key: T -> int)
    requires i < |s|
    ensures AllKeysEqual(s, key) ==> i == 0 || key(s[i - 1]) <= key(s[i])
  {
  }

  lemma InsertingStep<T>(s: seq<T>, i: nat, j: nat, key: T -> int)
    requires Inserting(s, i, j, key) && 0 < j && key(s[j - 1]) > key(s[j])
    ensures Inserting(s[j - 1 := s[j]][j := s[j - 1]], i, j - 1, key)
  {
  }

  lemma InsertingDone<T>(s: seq<T>, i: nat, j: nat, key: T -> int)
    requires Inserting(s, i, j, key) && (j == 0 || key(s[j - 1]) <= key(s[j]))
    ensures SortedBy(s[..i + 1], key)
  {
  }

  /** Exchanges two elements; the contents stay the same multiset. */
  method Swap<T>(a: array<T>, i: nat, j: nat)
    requires i < j < a.Length
    modifies a
    ensures a[..] == old(a[..])[i := old(a[j])][j := old(a[i])]
    ensures multiset(a[..]) == multiset(old(a[..]))
  {
    a[i], a[j] := a[j], a[i];
  }
}

/**
 * The stable sort that `Array.prototype.sort` performs (stable since
 * ECMAScript 2019), for a comparator that compares sort keys: an insertion
 * sort whose result is ordered, a permutation of its input, and keeps the
 * input order among elements with equal keys.
 */
module StableSort {
  import opened Order

  /** Every element sorts before or together with every later one. */
  ghost predicate SortedBy<T>(s: seq<T>, key: T -> SortKey) {
    forall i, j :: 0 <= i < j < |s| ==> KeyLe(key(s[i]), key(s[j]))
  }

  /** The subsequence of `s` whose elements have key `k`. */
  function WithKey<T>(s: seq<T>, key: T -> SortKey, k: SortKey): (r: seq<T>)
    ensures forall x | x in r :: x in s && key(x) == k
    ensures forall x | x in s && key(x) == k :: x in r
  {
    if s == [] then [] else (if key(s[0]) == k then [s[0]] else []) + WithKey(s[1..], key, k)
  }

  /** Puts `x` just before the first element of `s` that it sorts before or together with. */
  function Insert<T>(x: T, s: seq<T>, key: T -> SortKey): (r: seq<T>)
    ensures multiset(r) == multiset(s) + multiset{x}
  {
    if s == [] then [x]
    else if KeyLe(key(x), key(s[0])) then [x] + s
    else
      assert s == [s[0]] + s[1..];
      [s[0]] + Insert(x, s[1..], key)
  }

  lemma {:induction false} InsertSorted<T>(x: T, s: seq<T>, key: T -> SortKey)
    requires SortedBy(s, key)
    ensures SortedBy(Insert(x, s, key), key)
  {
    if s == [] {
    } else if KeyLe(key(x), key(s[0])) {
      forall j | 0 <= j < |s|
        ensures KeyLe(key(x), key(s[j]))
      {
        if j > 0 {
          KeyLeTransitive(key(x), key(s[0]), key(s[j]));
        }
      }
    } else {
      KeyLeTotal(key(x), key(s[0]));
      InsertSorted(x, s[1..], key);
      var t := Insert(x, s[1..], key);
      forall j | 0 <= j < |t|
        ensures KeyLe(key(s[0]), key(t[j]))
      {
        assert t[j] in multiset(t);
        if t[j] != x {
          assert t[j] in s[1..];
        }
      }
    }
  }

  lemma {:induction false} InsertWithKey<T>(x: T, s: seq<T>, key: T -> SortKey, k: SortKey)
    ensures WithKey(Insert(x, s, key), key, k) == (if key(x) == k then [x] else []) + WithKey(s, key, k)
  {
    if s == [] {
    } else if KeyLe(key(x), key(s[0])) {
      assert ([x] + s)[1..] == s;
    } else {
      KeyLeReflexive(key(x));
      InsertWithKey(x, s[1..], key, k);
      assert ([s[0]] + Insert(x, s[1..], key))[1..] == Insert(x, s[1..], key);
    }
  }

  /** The sorted copy: ordered by key, a permutation of `s`, and stable. */
  function SortByKey<T>(s: seq<T>, key: T -> SortKey): (r: seq<T>)
    ensures multiset(r) == multiset(s)
    ensures SortedBy(r, key)
    ensures forall k :: WithKey(r, key, k) == WithKey(s, key, k)
  {
    if s == [] then []
    else
      var t := SortByKey(s[1..], key);
      SortStep(s, t, key);
      Insert(s[0], t, key)
  }

  /** Inserting the head of `s` into a sorted copy of its tail sorts `s`. */
  lemma SortStep<T>(s: seq<T>, t: seq<T>, key: T -> SortKey)
    requires s != []
    requires multiset(t) == multiset(s[1..])
    requires SortedBy(t, key)
    requires forall k :: WithKey(t, key, k) == WithKey(s[1..], key, k)
    ensures multiset(Insert(s[0], t, key)) == multiset(s)
    ensures SortedBy(Insert(s[0], t, key), key)
    ensures forall k :: WithKey(Insert(s[0], t, key), key, k) == WithKey(s, key, k)
  {
    assert s == [s[0]] + s[1..];
    InsertSorted(s[0], t, key);
    forall k
      ensures WithKey(Insert(s[0], t, key), key, k) == WithKey(s, key, k)
    {
      InsertWithKey(s[0], t, key, k);
    }
  }

  /** Sorting keeps exactly the elements of the input. */
  lemma SortedMembers<T>(s: seq<T>, key: T -> SortKey, x: T)
    ensures x in SortByKey(s, key) <==> x in s
  {
    var r := SortByKey(s, key);
    assert x in r <==> x in multiset(r);
  }

  /** A subsequence of a sorted sequence is sorted. */
  lemma SortedSubsequence<T>(s: seq<T>, t: seq<T>, key: T -> SortKey, pick: seq<nat>)
    requires SortedBy(s, key)
    requires |pick| == |t|
    requires forall i :: 0 <= i < |pick| ==> pick[i] < |s| && t[i] == s[pick[i]]
    requires forall i, j :: 0 <= i < j < |pick| ==> pick[i] < pick[j]
    ensures SortedBy(t, key)
  {
  }

  /** No two positions of `s` agree on `f`. */
  ghost predicate InjectiveOn<T, K>(s: seq<T>, f: T -> K) {
    forall i, j :: 0 <= i < j < |s| ==> f(s[i]) != f(s[j])
  }

  lemma {:induction false} InjectiveCount<T, K>(s: seq<T>, f: T -> K, x: T)
    requires InjectiveOn(s, f)
    ensures multiset(s)[x] <= 1
  {
    if s != [] {
      assert s == [s[0]] + s[1..];
      InjectiveCount(s[1..], f, x);
      if s[0] == x {
        assert x !in s[1..];
      }
    }
  }

  /** A permutation of a sequence that is injective on `f` is injective on `f`. */
  lemma PermutationKeepsInjective<T, K>(a: seq<T>, b: seq<T>, f: T -> K)
    requires multiset(a) == multiset(b)
    requires InjectiveOn(a, f)
    ensures InjectiveOn(b, f)
  {
    forall i, j | 0 <= i < j < |b|
      ensures f(b[i]) != f(b[j])
    {
      if f(b[i]) == f(b[j]) {
        assert b[i] in multiset(a) && b[j] in multiset(a);
        var p :| 0 <= p < |a| && a[p] == b[i];
        var q :| 0 <= q < |a| && a[q] == b[j];
        assert p == q;
        assert b == b[..j] + [b[j]] + b[j + 1..];
        assert b[i] in b[..j];
        assert multiset(b)[b[i]] >= 2;
        InjectiveCount(a, f, b[i]);
        assert false;
      }
    }
  }
}

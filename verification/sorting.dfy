// Sequences and the two sorting functions of Go's slices package.
//
// slices.SortStableFunc is specified by IsStableSort, slices.SortFunc only by IsSort:
// Go promises no order among elements that tie, so nothing below relies on one.
module Sorting {
  import opened Ordering

  function Map<T, U>(f: T -> U, s: seq<T>): (r: seq<U>)
    ensures |r| == |s|
    ensures forall i :: 0 <= i < |s| ==> r[i] == f(s[i])
  {
    if s == [] then [] else [f(s[0])] + Map(f, s[1..])
  }

  // The two sequences hold the same elements, each equally often.
  ghost predicate Permutation<T>(s: seq<T>, t: seq<T>) {
    multiset(s) == multiset(t)
  }

  ghost predicate Sorted<T>(cmp: (T, T) -> int, s: seq<T>) {
    forall i, j :: 0 <= i < j < |s| ==> cmp(s[i], s[j]) <= 0
  }

  // No two elements share a key.
  ghost predicate DistinctKeys<T>(key: T -> string, s: seq<T>) {
    forall i, j :: 0 <= i < j < |s| ==> key(s[i]) != key(s[j])
  }

  // The elements of s that tie with x, in their order in s.
  function TiesWith<T>(cmp: (T, T) -> int, s: seq<T>, x: T): seq<T> {
    if s == [] then []
    else (if cmp(s[0], x) == 0 then [s[0]] else []) + TiesWith(cmp, s[1..], x)
  }

  ghost predicate SameTies<T(!new)>(cmp: (T, T) -> int, s: seq<T>, t: seq<T>) {
    forall x :: TiesWith(cmp, s, x) == TiesWith(cmp, t, x)
  }

  ghost predicate IsSort<T>(cmp: (T, T) -> int, s: seq<T>, t: seq<T>) {
    Sorted(cmp, t) && Permutation(s, t)
  }

  ghost predicate IsStableSort<T(!new)>(cmp: (T, T) -> int, s: seq<T>, t: seq<T>) {
    Sorted(cmp, t) && SameTies(cmp, s, t)
  }

  // ----- the sorting functions -----

  function Insert<T>(cmp: (T, T) -> int, x: T, s: seq<T>): (r: seq<T>)
    ensures multiset(r) == multiset(s) + multiset{x}
  {
    if s == [] then [x]
    else if cmp(x, s[0]) <= 0 then [x] + s
    else
      assert s == [s[0]] + s[1..];
      [s[0]] + Insert(cmp, x, s[1..])
  }

  function StableSort<T>(cmp: (T, T) -> int, s: seq<T>): (r: seq<T>)
    ensures Permutation(s, r)
  {
    if s == [] then []
    else
      assert s == [s[0]] + s[1..];
      Insert(cmp, s[0], StableSort(cmp, s[1..]))
  }

  // slices.SortStableFunc
  method SortStableFunc<T(!new)>(cmp: (T, T) -> int, s: seq<T>) returns (t: seq<T>)
    requires TotalPreorder(cmp)
    ensures IsStableSort(cmp, s, t) && Permutation(s, t)
  {
    StableSortIsStable(cmp, s);
    t := StableSort(cmp, s);
  }

  // slices.SortFunc: a caller learns nothing about the order of ties.
  method SortFunc<T(!new)>(cmp: (T, T) -> int, s: seq<T>) returns (t: seq<T>)
    requires TotalPreorder(cmp)
    ensures IsSort(cmp, s, t)
  {
    StableSortIsStable(cmp, s);
    t := StableSort(cmp, s);
  }

  // The same two functions for the comparison function of a string key.
  method SortStableByKey<T(!new)>(key: T -> string, s: seq<T>) returns (t: seq<T>)
    ensures IsStableSort(ByKey(key), s, t)
  {
    ByKeyIsPreorder(key);
    t := SortStableFunc(ByKey(key), s);
  }

  method SortByKey<T(!new)>(key: T -> string, s: seq<T>) returns (t: seq<T>)
    ensures IsSort(ByKey(key), s, t)
  {
    ByKeyIsPreorder(key);
    t := SortFunc(ByKey(key), s);
  }

  lemma SortedCons<T(!new)>(cmp: (T, T) -> int, x: T, s: seq<T>)
    requires Sorted(cmp, s) && forall y :: y in s ==> cmp(x, y) <= 0
    ensures Sorted(cmp, [x] + s)
  {
  }

  // The first element of a sorted sequence comes before all of them.
  lemma HeadIsLeast<T(!new)>(cmp: (T, T) -> int, s: seq<T>, y: T)
    requires TotalPreorder(cmp) && Sorted(cmp, s) && y in s
    ensures cmp(s[0], y) <= 0
  {
  }

  lemma {:induction false} InsertKeepsSorted<T(!new)>(cmp: (T, T) -> int, x: T, s: seq<T>)
    requires TotalPreorder(cmp) && Sorted(cmp, s)
    ensures Sorted(cmp, Insert(cmp, x, s))
  {
    if s != [] {
      if cmp(x, s[0]) <= 0 {
        forall y | y in s ensures cmp(x, y) <= 0 {
          HeadIsLeast(cmp, s, y);
        }
        SortedCons(cmp, x, s);
      } else {
        var q := Insert(cmp, x, s[1..]);
        InsertKeepsSorted(cmp, x, s[1..]);
        forall y | y in q ensures cmp(s[0], y) <= 0 {
          assert y in multiset(q);
          if y != x {
            HeadIsLeast(cmp, s, y);
          }
        }
        SortedCons(cmp, s[0], q);
      }
    }
  }

  lemma {:induction false} InsertTies<T(!new)>(cmp: (T, T) -> int, x: T, s: seq<T>, y: T)
    requires TotalPreorder(cmp)
    ensures TiesWith(cmp, Insert(cmp, x, s), y) == TiesWith(cmp, [x] + s, y)
  {
    if s != [] {
      assert ([x] + s)[1..] == s;
      if cmp(x, s[0]) > 0 {
        InsertTies(cmp, x, s[1..], y);
        assert ([x] + s[1..])[1..] == s[1..];
        assert Insert(cmp, x, s)[1..] == Insert(cmp, x, s[1..]);
        assert cmp(x, y) != 0 || cmp(s[0], y) != 0;
      }
    }
  }

  lemma {:induction false} StableSortIsStable<T(!new)>(cmp: (T, T) -> int, s: seq<T>)
    requires TotalPreorder(cmp)
    ensures IsStableSort(cmp, s, StableSort(cmp, s))
  {
    if s != [] {
      var r := StableSort(cmp, s[1..]);
      StableSortIsStable(cmp, s[1..]);
      InsertKeepsSorted(cmp, s[0], r);
      forall y ensures TiesWith(cmp, s, y) == TiesWith(cmp, StableSort(cmp, s), y) {
        InsertTies(cmp, s[0], r, y);
        assert ([s[0]] + r)[1..] == r;
      }
    }
  }

  // ----- when sorting has only one possible outcome -----

  lemma {:induction false} TiesMember<T(!new)>(cmp: (T, T) -> int, s: seq<T>, x: T)
    requires TotalPreorder(cmp)
    ensures TiesWith(cmp, s, x) != [] <==> exists i :: 0 <= i < |s| && cmp(s[i], x) == 0
    ensures forall y :: y in TiesWith(cmp, s, x) ==> y in s
  {
    if s != [] {
      TiesMember(cmp, s[1..], x);
      assert forall i :: 0 < i < |s| ==> s[i] == s[1..][i - 1];
    }
  }

  lemma {:induction false} TiesOfTail<T>(cmp: (T, T) -> int, s: seq<T>, x: T)
    requires s != []
    ensures TiesWith(cmp, s[1..], x) == TiesWith(cmp, s, x)[if cmp(s[0], x) == 0 then 1 else 0..]
  {
  }

  lemma SameTiesEmpty<T(!new)>(cmp: (T, T) -> int, s: seq<T>, t: seq<T>)
    requires TotalPreorder(cmp) && SameTies(cmp, s, t)
    ensures s == [] <==> t == []
  {
    if s != [] {
      assert TiesWith(cmp, s, s[0])[0] == s[0];
      assert TiesWith(cmp, t, s[0]) != [];
    }
    if t != [] {
      assert TiesWith(cmp, t, t[0])[0] == t[0];
      assert TiesWith(cmp, s, t[0]) != [];
    }
  }

  // Sorted sequences whose ties agree are equal: a stable sort has one outcome.
  lemma {:induction false} SortedSameTiesEqual<T(!new)>(cmp: (T, T) -> int, s: seq<T>, t: seq<T>)
    requires TotalPreorder(cmp) && Sorted(cmp, s) && Sorted(cmp, t) && SameTies(cmp, s, t)
    ensures s == t
  {
    SameTiesEmpty(cmp, s, t);
    if s != [] {
      TiesMember(cmp, t, s[0]);
      assert TiesWith(cmp, s, s[0])[0] == s[0];
      assert t != [];
      TiesMember(cmp, s, t[0]);
      assert TiesWith(cmp, t, t[0])[0] == t[0];
      assert cmp(s[0], t[0]) == 0;
      assert TiesWith(cmp, t, s[0])[0] == t[0];
      assert s[0] == t[0];
      forall x ensures TiesWith(cmp, s[1..], x) == TiesWith(cmp, t[1..], x) {
        TiesOfTail(cmp, s, x);
        TiesOfTail(cmp, t, x);
        assert TiesWith(cmp, s, x) == TiesWith(cmp, t, x);
      }
      SortedSameTiesEqual(cmp, s[1..], t[1..]);
    }
  }

  // The stable sorts of two sequences are equal exactly when, for every value, the
  // subsequences of elements that tie with it are identical.
  lemma StableSortsEqualIffSameTies<T(!new)>(cmp: (T, T) -> int, s: seq<T>, t: seq<T>,
                                      s': seq<T>, t': seq<T>)
    requires TotalPreorder(cmp) && IsStableSort(cmp, s, s') && IsStableSort(cmp, t, t')
    ensures s' == t' <==> SameTies(cmp, s, t)
  {
    if SameTies(cmp, s, t) {
      forall x ensures TiesWith(cmp, s', x) == TiesWith(cmp, t', x) {
        assert TiesWith(cmp, s, x) == TiesWith(cmp, t, x);
      }
      SortedSameTiesEqual(cmp, s', t');
    }
    if s' == t' {
      forall x ensures TiesWith(cmp, s, x) == TiesWith(cmp, t, x) {
        assert TiesWith(cmp, s', x) == TiesWith(cmp, t', x);
      }
    }
  }

  lemma {:induction false} TiesCount<T(!new)>(cmp: (T, T) -> int, s: seq<T>, x: T)
    requires TotalPreorder(cmp)
    ensures multiset(TiesWith(cmp, s, x))[x] == multiset(s)[x]
  {
    if s != [] {
      TiesCount(cmp, s[1..], x);
      assert s == [s[0]] + s[1..];
      assert cmp(x, x) == 0;
    }
  }

  lemma SameTiesPermutation<T(!new)>(cmp: (T, T) -> int, s: seq<T>, t: seq<T>)
    requires TotalPreorder(cmp) && SameTies(cmp, s, t)
    ensures Permutation(s, t)
  {
    forall x ensures multiset(s)[x] == multiset(t)[x] {
      TiesCount(cmp, s, x);
      TiesCount(cmp, t, x);
    }
  }

  ghost predicate NoTies<T>(cmp: (T, T) -> int, s: seq<T>) {
    forall i, j :: 0 <= i < j < |s| ==> cmp(s[i], s[j]) != 0
  }

  // A sort has one outcome when only equal elements tie.
  ghost predicate TiesEqual<T>(cmp: (T, T) -> int, s: seq<T>) {
    forall i, j :: 0 <= i < j < |s| && cmp(s[i], s[j]) == 0 ==> s[i] == s[j]
  }

  lemma MultisetTail<T>(s: seq<T>)
    requires s != []
    ensures multiset(s[1..]) == multiset(s) - multiset{s[0]}
  {
    assert s == [s[0]] + s[1..];
  }

  lemma SortedPermutationsHead<T(!new)>(cmp: (T, T) -> int, s: seq<T>, t: seq<T>)
    requires TotalPreorder(cmp) && Sorted(cmp, s) && Sorted(cmp, t)
    requires Permutation(s, t) && TiesEqual(cmp, s) && s != [] && t != []
    ensures s[0] == t[0]
  {
    assert s[0] in multiset(t) && t[0] in multiset(s);
    HeadIsLeast(cmp, s, t[0]);
    HeadIsLeast(cmp, t, s[0]);
    var i :| 0 <= i < |s| && s[i] == t[0];
    assert cmp(s[0], s[i]) == 0;
  }

  lemma ConsEqual<T>(s: seq<T>, t: seq<T>)
    requires s != [] && t != [] && s[0] == t[0] && s[1..] == t[1..]
    ensures s == t
  {
  }

  lemma PermutationLength<T>(s: seq<T>, t: seq<T>)
    requires Permutation(s, t)
    ensures |s| == |t|
  {
    assert |multiset(s)| == |multiset(t)|;
  }

  lemma {:induction false} SortedPermutationsEqual<T(!new)>(cmp: (T, T) -> int, s: seq<T>, t: seq<T>)
    requires TotalPreorder(cmp) && Sorted(cmp, s) && Sorted(cmp, t)
    requires Permutation(s, t) && TiesEqual(cmp, s)
    ensures s == t
  {
    PermutationLength(s, t);
    if s != [] {
      SortedPermutationsHead(cmp, s, t);
      TailFacts(cmp, s);
      TailFacts(cmp, t);
      assert Permutation(s[1..], t[1..]) by {
        MultisetTail(s);
        MultisetTail(t);
      }
      SortedPermutationsEqual(cmp, s[1..], t[1..]);
      ConsEqual(s, t);
    }
  }

  lemma TailFacts<T>(cmp: (T, T) -> int, s: seq<T>)
    requires s != []
    ensures Sorted(cmp, s) ==> Sorted(cmp, s[1..])
    ensures NoTies(cmp, s) ==> NoTies(cmp, s[1..])
    ensures TiesEqual(cmp, s) ==> TiesEqual(cmp, s[1..])
  {
  }

  // ----- keys -----

  // Elements of one key are equal; the elements may repeat.
  ghost predicate KeyDetermines<T(!new)>(key: T -> string, m: multiset<T>) {
    forall x, y :: x in m && y in m && key(x) == key(y) ==> x == y
  }

  lemma DistinctKeysDetermine<T(!new)>(key: T -> string, s: seq<T>)
    requires DistinctKeys(key, s)
    ensures KeyDetermines(key, multiset(s))
  {
  }

  lemma ByKeyTiesEqual<T(!new)>(key: T -> string, s: seq<T>)
    ensures TiesEqual(ByKey(key), s) <==> KeyDetermines(key, multiset(s))
  {
    forall i, j | 0 <= i < j < |s|
      ensures ByKey(key)(s[i], s[j]) == 0 <==> key(s[i]) == key(s[j])
      ensures s[i] in multiset(s) && s[j] in multiset(s)
    {
      CompareStringsZero(key(s[i]), key(s[j]));
    }
    if TiesEqual(ByKey(key), s) {
      forall x, y | x in multiset(s) && y in multiset(s) && key(x) == key(y) ensures x == y {
        var i :| 0 <= i < |s| && s[i] == x;
        var j :| 0 <= j < |s| && s[j] == y;
        if i < j {
          assert ByKey(key)(s[i], s[j]) == 0;
        } else if j < i {
          assert ByKey(key)(s[j], s[i]) == 0;
        }
      }
    }
  }

  // A run of one key in front of elements of other keys.
  lemma DistinctAppend<T>(key: T -> string, first: seq<T>, rest: seq<T>, k: string)
    requires (forall x :: x in first ==> key(x) == k) && forall x :: x in rest ==> key(x) != k
    ensures DistinctKeys(key, first + rest) <==> |first| <= 1 && DistinctKeys(key, rest)
  {
    var all := first + rest;
    assert forall i :: 0 <= i < |first| ==> all[i] == first[i] && key(all[i]) == k;
    assert forall i :: 0 <= i < |rest| ==> all[|first| + i] == rest[i] && key(rest[i]) != k;
    if |first| > 1 {
      assert key(all[0]) == key(all[1]);
    }
    if DistinctKeys(key, all) {
      forall i, j | 0 <= i < j < |rest| ensures key(rest[i]) != key(rest[j]) {
        assert key(all[|first| + i]) != key(all[|first| + j]);
      }
    }
  }

  function Without<T>(s: seq<T>, k: nat): (r: seq<T>)
    requires k < |s|
    ensures |r| == |s| - 1
    ensures forall i :: 0 <= i < |r| ==> r[i] == if i < k then s[i] else s[i + 1]
  {
    s[..k] + s[k + 1..]
  }

  lemma MultisetWithout<T>(s: seq<T>, k: nat)
    requires k < |s|
    ensures multiset(Without(s, k)) == multiset(s) - multiset{s[k]}
  {
    assert s == s[..k] + [s[k]] + s[k + 1..];
  }

  lemma PermutationWithout<T>(s: seq<T>, k: nat, t: seq<T>, l: nat)
    requires k < |s| && l < |t| && s[k] == t[l]
    ensures Permutation(Without(s, k), Without(t, l)) <==> Permutation(s, t)
  {
    MultisetWithout(s, k);
    MultisetWithout(t, l);
    assert s[k] in multiset(s) && t[l] in multiset(t);
    assert multiset(s) == multiset(Without(s, k)) + multiset{s[k]};
    assert multiset(t) == multiset(Without(t, l)) + multiset{t[l]};
  }

  lemma {:induction false} MapWithout<T, U>(f: T -> U, s: seq<T>, k: nat)
    requires k < |s|
    ensures Map(f, Without(s, k)) == Without(Map(f, s), k)
  {
    var l, r := Map(f, Without(s, k)), Without(Map(f, s), k);
    assert |l| == |r| == |s| - 1;
    forall i | 0 <= i < |l| ensures l[i] == r[i] {
      assert l[i] == f(Without(s, k)[i]);
    }
  }

  lemma {:induction false} MapPermutation<T, U>(f: T -> U, s: seq<T>, t: seq<T>)
    requires Permutation(s, t)
    ensures Permutation(Map(f, s), Map(f, t))
  {
    PermutationLength(s, t);
    if s != [] {
      assert s[0] in multiset(t);
      var k :| 0 <= k < |t| && t[k] == s[0];
      PermutationWithout(s, 0, t, k);
      MapPermutation(f, Without(s, 0), Without(t, k));
      MapWithout(f, s, 0);
      MapWithout(f, t, k);
      PermutationWithout(Map(f, s), 0, Map(f, t), k);
    }
  }

  lemma Preimage<T, S>(f: T -> S, s: seq<T>, t: seq<T>, x: T) returns (y: T)
    requires Permutation(Map(f, s), Map(f, t)) && x in t
    ensures y in s && f(y) == f(x)
  {
    var i :| 0 <= i < |t| && t[i] == x;
    assert Map(f, t)[i] in multiset(Map(f, s));
    var j :| 0 <= j < |s| && Map(f, s)[j] == f(x);
    y := s[j];
  }

  lemma {:induction false} DistinctByCount<T>(s: seq<T>)
    ensures (forall i, j :: 0 <= i < j < |s| ==> s[i] != s[j]) <==> (forall x :: x in multiset(s) ==> multiset(s)[x] == 1)
  {
    if s != [] {
      DistinctByCount(s[1..]);
      assert s == [s[0]] + s[1..];
      assert multiset(s) == multiset{s[0]} + multiset(s[1..]);
      assert forall i :: 0 < i < |s| ==> s[i] == s[1..][i - 1];
      if forall i, j :: 0 <= i < j < |s| ==> s[i] != s[j] {
        assert s[0] !in multiset(s[1..]);
        assert forall i, j :: 0 <= i < j < |s[1..]| ==> s[1..][i] != s[1..][j];
      }
      if forall x :: x in multiset(s) ==> multiset(s)[x] == 1 {
        assert multiset(s)[s[0]] == 1;
        assert s[0] !in multiset(s[1..]);
        forall x | x in multiset(s[1..]) ensures multiset(s[1..])[x] == 1 {
          assert multiset(s)[x] == 1;
        }
        forall i, j | 0 <= i < j < |s| ensures s[i] != s[j] {
          if i == 0 {
            assert s[j] in multiset(s[1..]);
          } else {
            assert s[1..][i - 1] != s[1..][j - 1];
          }
        }
      }
    }
  }

  lemma DistinctKeysPermutation<T>(key: T -> string, s: seq<T>, t: seq<T>)
    requires Permutation(s, t) && DistinctKeys(key, s)
    ensures DistinctKeys(key, t)
  {
    MapPermutation(key, s, t);
    DistinctByCount(Map(key, s));
    DistinctByCount(Map(key, t));
    assert forall i, j :: 0 <= i < j < |s| ==> Map(key, s)[i] != Map(key, s)[j];
    assert forall i, j :: 0 <= i < j < |t| ==> Map(key, t)[i] != Map(key, t)[j];
  }

  lemma SortedByKeyEqual<T(!new)>(key: T -> string, s: seq<T>, t: seq<T>)
    requires Sorted(ByKey(key), s) && Sorted(ByKey(key), t) && Permutation(s, t) && KeyDetermines(key, multiset(s))
    ensures s == t
  {
    ByKeyIsPreorder(key);
    ByKeyTiesEqual(key, s);
    SortedPermutationsEqual(ByKey(key), s, t);
  }

  function Swapped<T>(s: seq<T>, p: nat, q: nat): (r: seq<T>)
    requires p < |s| && q < |s|
    ensures multiset(r) == multiset(s)
  {
    s[p := s[q]][q := s[p]]
  }

  lemma SwapKeepsSorted<T(!new)>(key: T -> string, s: seq<T>, p: nat, q: nat)
    requires p < |s| && q < |s| && key(s[p]) == key(s[q]) && Sorted(ByKey(key), s)
    ensures Sorted(ByKey(key), Swapped(s, p, q))
  {
  }

  // Different elements of one key: the sort has at least two outcomes.
  lemma SortVaries<T(!new)>(key: T -> string, s: seq<T>, x: T, y: T) returns (t: seq<T>, t': seq<T>)
    requires x in s && y in s && x != y && key(x) == key(y)
    ensures IsSort(ByKey(key), s, t) && IsSort(ByKey(key), s, t') && t != t'
  {
    t := StableSort(ByKey(key), s);
    assert Sorted(ByKey(key), t) by {
      ByKeyIsPreorder(key);
      StableSortIsStable(ByKey(key), s);
    }
    assert x in multiset(t) && y in multiset(t);
    var p :| 0 <= p < |t| && t[p] == x;
    var q :| 0 <= q < |t| && t[q] == y;
    SwapKeepsSorted(key, t, p, q);
    t' := Swapped(t, p, q);
    assert t'[p] == y;
  }

  // An unstable sort by a key has one outcome exactly when the key determines the element.
  lemma SortDetermined<T(!new)>(key: T -> string, s: seq<T>)
    ensures (forall t, t' :: IsSort(ByKey(key), s, t) && IsSort(ByKey(key), s, t') ==> t == t')
            <==> KeyDetermines(key, multiset(s))
  {
    if KeyDetermines(key, multiset(s)) {
      forall t, t' | IsSort(ByKey(key), s, t) && IsSort(ByKey(key), s, t') ensures t == t' {
        SortedByKeyEqual(key, t, t');
      }
    } else {
      var x, y :| x in multiset(s) && y in multiset(s) && key(x) == key(y) && x != y;
      var t, t' := SortVaries(key, s, x, y);
    }
  }

  // The elements with key k, in order; and all of them, key by key.
  function OfKey<T>(key: T -> string, s: seq<T>, k: string): seq<T> {
    if s == [] then []
    else (if key(s[0]) == k then [s[0]] else []) + OfKey(key, s[1..], k)
  }

  // What a sequence is once only the order within each key matters.
  function Groups<T>(key: T -> string, s: seq<T>): map<string, seq<T>> {
    map k | k in Map(key, s) :: OfKey(key, s, k)
  }

  lemma {:induction false} TiesAreOfKey<T(!new)>(key: T -> string, s: seq<T>, x: T)
    ensures TiesWith(ByKey(key), s, x) == OfKey(key, s, key(x))
  {
    if s != [] {
      CompareStringsZero(key(s[0]), key(x));
      TiesAreOfKey(key, s[1..], x);
    }
  }

  lemma {:induction false} OfKeyMember<T>(key: T -> string, s: seq<T>, k: string)
    ensures OfKey(key, s, k) != [] <==> k in Map(key, s)
    ensures forall y :: y in OfKey(key, s, k) ==> y in s && key(y) == k
  {
    if s != [] {
      OfKeyMember(key, s[1..], k);
      assert Map(key, s) == [key(s[0])] + Map(key, s[1..]);
    }
  }

  // Equal groups, equal ties and equal stable sorts are the same thing.
  lemma GroupsAreTies<T(!new)>(key: T -> string, s: seq<T>, t: seq<T>)
    ensures Groups(key, s) == Groups(key, t) <==> SameTies(ByKey(key), s, t)
  {
    if Groups(key, s) == Groups(key, t) {
      forall x ensures TiesWith(ByKey(key), s, x) == TiesWith(ByKey(key), t, x) {
        TiesAreOfKey(key, s, x);
        TiesAreOfKey(key, t, x);
        OfKeyMember(key, s, key(x));
        OfKeyMember(key, t, key(x));
        if key(x) in Groups(key, s) {
          assert Groups(key, s)[key(x)] == Groups(key, t)[key(x)];
        }
      }
    }
    if SameTies(ByKey(key), s, t) {
      forall k | k in Map(key, s) || k in Map(key, t)
        ensures OfKey(key, s, k) == OfKey(key, t, k)
      {
        var x :| (x in s || x in t) && key(x) == k;
        TiesAreOfKey(key, s, x);
        TiesAreOfKey(key, t, x);
        assert TiesWith(ByKey(key), s, x) == TiesWith(ByKey(key), t, x);
      }
      forall k ensures k in Map(key, s) <==> k in Map(key, t) {
        OfKeyMember(key, s, k);
        OfKeyMember(key, t, k);
      }
    }
  }

  // With distinct keys the order within a key carries nothing.
  lemma GroupsOfDistinct<T(!new)>(key: T -> string, s: seq<T>, t: seq<T>)
    requires DistinctKeys(key, s)
    ensures Groups(key, s) == Groups(key, t) <==> Permutation(s, t)
  {
    ByKeyIsPreorder(key);
    GroupsAreTies(key, s, t);
    if Permutation(s, t) {
      StableSortIsStable(ByKey(key), s);
      StableSortIsStable(ByKey(key), t);
      DistinctKeysDetermine(key, s);
      SortedByKeyEqual(key, StableSort(ByKey(key), s), StableSort(ByKey(key), t));
      StableSortsEqualIffSameTies(ByKey(key), s, t, StableSort(ByKey(key), s), StableSort(ByKey(key), t));
    } else if SameTies(ByKey(key), s, t) {
      SameTiesPermutation(ByKey(key), s, t);
    }
  }

  // ----- filtering -----

  function Filter<T>(p: T -> bool, s: seq<T>): seq<T> {
    if s == [] then [] else (if p(s[0]) then [s[0]] else []) + Filter(p, s[1..])
  }

  lemma {:induction false} FilterCount<T>(p: T -> bool, s: seq<T>, x: T)
    ensures multiset(Filter(p, s))[x] == if p(x) then multiset(s)[x] else 0
  {
    if s != [] {
      FilterCount(p, s[1..], x);
      assert s == [s[0]] + s[1..];
    }
  }

  lemma EqualCounts<T>(m: multiset<T>, n: multiset<T>)
    requires forall x :: m[x] == n[x]
    ensures m == n
  {
  }

  lemma {:induction false} FilterPermutation<T>(p: T -> bool, s: seq<T>, t: seq<T>)
    requires Permutation(s, t)
    ensures Permutation(Filter(p, s), Filter(p, t))
  {
    forall x ensures multiset(Filter(p, s))[x] == multiset(Filter(p, t))[x] {
      FilterCount(p, s, x);
      FilterCount(p, t, x);
    }
    EqualCounts(multiset(Filter(p, s)), multiset(Filter(p, t)));
  }

  lemma {:induction false} FilterMember<T>(p: T -> bool, s: seq<T>, x: T)
    ensures x in Filter(p, s) <==> x in s && p(x)
  {
    FilterCount(p, s, x);
    assert x in Filter(p, s) <==> x in multiset(Filter(p, s));
    assert x in s <==> x in multiset(s);
  }

  lemma {:induction false} FilterAppend<T>(p: T -> bool, s: seq<T>, x: T)
    ensures Filter(p, s + [x]) == Filter(p, s) + if p(x) then [x] else []
  {
    if s != [] {
      FilterAppend(p, s[1..], x);
      assert (s + [x])[1..] == s[1..] + [x];
    }
  }

  lemma {:induction false} FilterDistinct<T>(p: T -> bool, key: T -> string, s: seq<T>)
    requires DistinctKeys(key, s)
    ensures DistinctKeys(key, Filter(p, s)) && forall x :: x in Filter(p, s) ==> x in s && p(x)
  {
    if s != [] {
      assert forall i :: 0 <= i < |s[1..]| ==> s[1..][i] == s[i + 1];
      FilterDistinct(p, key, s[1..]);
      var rest := Filter(p, s[1..]);
      forall i | 0 <= i < |rest| ensures key(rest[i]) != key(s[0]) {
        assert rest[i] in s[1..];
      }
    }
  }

  // ----- concatenating the images -----

  function FlatMap<T, U>(f: T -> seq<U>, s: seq<T>): seq<U> {
    if s == [] then [] else f(s[0]) + FlatMap(f, s[1..])
  }

  lemma {:induction false} FlatMapAppend<T, U>(f: T -> seq<U>, s: seq<T>, x: T)
    ensures FlatMap(f, s + [x]) == FlatMap(f, s) + f(x)
  {
    if s == [] {
      assert s + [x] == [x];
    } else {
      FlatMapAppend(f, s[1..], x);
      assert (s + [x])[1..] == s[1..] + [x];
      assert f(s[0]) + (FlatMap(f, s[1..]) + f(x)) == (f(s[0]) + FlatMap(f, s[1..])) + f(x);
    }
  }

  lemma WithoutParts<T>(s: seq<T>, k: nat)
    requires k < |s|
    ensures k == 0 ==> Without(s, k) == s[1..]
    ensures k > 0 ==> Without(s, k) != [] && Without(s, k)[0] == s[0] && Without(s, k)[1..] == Without(s[1..], k - 1)
  {
  }

  lemma {:induction false} FlatMapHead<T, U>(f: T -> seq<U>, s: seq<T>)
    requires s != []
    ensures multiset(FlatMap(f, s)) == multiset(f(s[0])) + multiset(FlatMap(f, s[1..]))
  {
  }

  lemma {:induction false} FlatMapWithout<T, U>(f: T -> seq<U>, s: seq<T>, k: nat)
    requires k < |s|
    ensures multiset(FlatMap(f, s)) == multiset(FlatMap(f, Without(s, k))) + multiset(f(s[k]))
  {
    if k == 0 {
      FlatMapHead(f, s);
      WithoutParts(s, 0);
    } else {
      FlatMapWithout(f, s[1..], k - 1);
      FlatMapHead(f, s);
      WithoutParts(s, k);
      FlatMapHead(f, Without(s, k));
    }
  }

  lemma {:induction false} FlatMapPermutation<T, U>(f: T -> seq<U>, s: seq<T>, t: seq<T>)
    requires Permutation(s, t)
    ensures Permutation(FlatMap(f, s), FlatMap(f, t))
    decreases |s|
  {
    PermutationLength(s, t);
    if s != [] {
      assert s[0] in multiset(t);
      var k :| 0 <= k < |t| && t[k] == s[0];
      PermutationWithout(s, 0, t, k);
      FlatMapPermutation(f, Without(s, 0), Without(t, k));
      FlatMapWithout(f, s, 0);
      FlatMapWithout(f, t, k);
    }
  }
}

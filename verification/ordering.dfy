// The orders that the reconciler sorts by: Go's strings.Compare and the
// comparison functions built from it.
module Ordering {

  // strings.Compare: byte-wise lexicographic order, shorter prefix first.
  function CompareStrings(a: string, b: string): (c: int)
    ensures -1 <= c <= 1
  {
    if a == [] then (if b == [] then 0 else -1)
    else if b == [] then 1
    else if a[0] < b[0] then -1
    else if b[0] < a[0] then 1
    else CompareStrings(a[1..], b[1..])
  }

  lemma {:induction false} CompareStringsZero(a: string, b: string)
    ensures CompareStrings(a, b) == 0 <==> a == b
  {
    if a != [] && b != [] && a[0] == b[0] {
      CompareStringsZero(a[1..], b[1..]);
      assert a == [a[0]] + a[1..] && b == [b[0]] + b[1..];
    }
  }

  lemma {:induction false} CompareStringsAntisymmetric(a: string, b: string)
    ensures CompareStrings(a, b) == -CompareStrings(b, a)
  {
    if a != [] && b != [] && a[0] == b[0] {
      CompareStringsAntisymmetric(a[1..], b[1..]);
    }
  }

  lemma {:induction false} CompareStringsTransitive(a: string, b: string, c: string)
    requires CompareStrings(a, b) <= 0 && CompareStrings(b, c) <= 0
    ensures CompareStrings(a, c) <= 0
  {
    if a != [] && b != [] && c != [] && a[0] == b[0] == c[0] {
      CompareStringsTransitive(a[1..], b[1..], c[1..]);
    }
  }

  // Lexicographic order, written out: up to some position the strings agree, and there the first one ends or
  // has the smaller byte.
  ghost predicate LexicallyBefore(a: string, b: string) {
    exists i: nat :: AgreeUpTo(a, b, i) && i < |b| && (i == |a| || a[i] < b[i])
  }

  ghost predicate AgreeUpTo(a: string, b: string, i: nat) {
    i <= |a| && i <= |b| && a[..i] == b[..i]
  }

  lemma {:induction false} CompareStringsLexical(a: string, b: string)
    ensures CompareStrings(a, b) < 0 <==> LexicallyBefore(a, b)
  {
    assert AgreeUpTo(a, b, 0);
    assert forall i: nat :: AgreeUpTo(a, b, i) && i > 0 ==> a[0] == a[..i][0] == b[..i][0] == b[0];
    if a != [] && b != [] && a[0] == b[0] {
      CompareStringsLexical(a[1..], b[1..]);
      if LexicallyBefore(a[1..], b[1..]) {
        var i: nat :| AgreeUpTo(a[1..], b[1..], i) && i < |b[1..]| && (i == |a[1..]| || a[1..][i] < b[1..][i]);
        assert a[..i + 1] == [a[0]] + a[1..][..i] && b[..i + 1] == [b[0]] + b[1..][..i];
        assert AgreeUpTo(a, b, i + 1);
      }
      if LexicallyBefore(a, b) {
        var i: nat :| AgreeUpTo(a, b, i) && i < |b| && (i == |a| || a[i] < b[i]);
        assert a[1..][..i - 1] == a[..i][1..] && b[1..][..i - 1] == b[..i][1..];
        assert AgreeUpTo(a[1..], b[1..], i - 1);
      }
    }
  }

  // What a comparison function must satisfy for Go's sorting functions: it orders
  // any two values consistently and "not after" is transitive. Distinct values may tie.
  ghost predicate TotalPreorder<T(!new)>(cmp: (T, T) -> int) {
    && (forall a, b :: cmp(a, b) <= 0 <==> cmp(b, a) >= 0)
    && (forall a, b, c :: cmp(a, b) <= 0 && cmp(b, c) <= 0 ==> cmp(a, c) <= 0)
  }

  // The comparison function of a string key, as every sort of a configuration uses it.
  function ByKey<T>(key: T -> string): (T, T) -> int {
    (a, b) => CompareStrings(key(a), key(b))
  }

  lemma ByKeyIsPreorder<T(!new)>(key: T -> string)
    ensures TotalPreorder(ByKey(key))
  {
    var cmp := ByKey(key);
    forall a, b
      ensures cmp(a, b) <= 0 <==> cmp(b, a) >= 0
    {
      CompareStringsAntisymmetric(key(a), key(b));
    }
    forall a, b, c | cmp(a, b) <= 0 && cmp(b, c) <= 0
      ensures cmp(a, c) <= 0
    {
      CompareStringsTransitive(key(a), key(b), key(c));
    }
  }
}

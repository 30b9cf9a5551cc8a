/** Facts about sequences and maps, stated once for every element type. */
module Sequences {
  lemma {:induction false} ConcatAssoc<T>(a: seq<T>, b: seq<T>, c: seq<T>)
    ensures a + (b + c) == (a + b) + c
  {
    assert |a + (b + c)| == |(a + b) + c|;
    forall i | 0 <= i < |a + (b + c)|
      ensures (a + (b + c))[i] == ((a + b) + c)[i]
    {
    }
  }

  lemma {:induction false} TailOfConcat<T>(a: seq<T>, b: seq<T>)
    requires a != []
    ensures (a + b)[0] == a[0] && (a + b)[1..] == a[1..] + b
  {
    assert |(a + b)[1..]| == |a[1..] + b|;
    forall i | 0 <= i < |a[1..] + b|
      ensures (a + b)[1..][i] == (a[1..] + b)[i]
    {
    }
  }

  /** An element of either part is an element of the concatenation. */
  lemma {:induction false} InConcat<T>(a: seq<T>, b: seq<T>, x: T)
    ensures x in a ==> x in a + b
    ensures x in b ==> x in a + b
  {
    if x in a {
      var k :| 0 <= k < |a| && a[k] == x;
      assert (a + b)[k] == x;
    }
    if x in b {
      var k :| 0 <= k < |b| && b[k] == x;
      assert (a + b)[|a| + k] == x;
    }
  }

  /** What is in neither part is not in the concatenation. */
  lemma {:induction false} NotInConcat<T>(a: seq<T>, b: seq<T>, x: T)
    requires x !in a && x !in b
    ensures x !in a + b
  {
    forall k | 0 <= k < |a + b| ensures (a + b)[k] != x {
      if k < |a| {
        assert (a + b)[k] == a[k];
      } else {
        assert (a + b)[k] == b[k - |a|];
      }
    }
  }

  /** Maps with the same keys and the same value at each key are equal. */
  lemma {:induction false} SameMaps<K, V>(x: map<K, V>, y: map<K, V>)
    requires x.Keys == y.Keys && forall k :: k in x ==> x[k] == y[k]
    ensures x == y
  {
  }

  /** A sequence with no element twice. */
  predicate Distinct<T(==)>(s: seq<T>)
  {
    forall i, j :: 0 <= i < j < |s| ==> s[i] != s[j]
  }

  /** Putting a new element in front keeps a sequence free of repeats. */
  lemma {:induction false} PrependDistinct<T>(x: T, s: seq<T>)
    requires x !in s && Distinct(s)
    ensures Distinct([x] + s)
    ensures forall y :: y in [x] + s <==> y == x || y in s
  {
    forall i, j | 0 <= i < j < |[x] + s| ensures ([x] + s)[i] != ([x] + s)[j] {
      assert ([x] + s)[j] == s[j - 1];
      if i > 0 {
        assert ([x] + s)[i] == s[i - 1];
      }
    }
  }

  /** Removing a present key leaves one key fewer. */
  lemma {:induction false} RemoveKey<K, V>(m: map<K, V>, k: K)
    requires k in m
    ensures (m - {k}).Keys == m.Keys - {k}
    ensures |(m - {k}).Keys| == |m.Keys| - 1
  {
  }
}

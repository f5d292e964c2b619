/**
 Counting over sequences and maps: the scan that Python's `list.count` performs,
 the "count every distinct element" dictionary built from it, and sums of counts.
 */
module Counting {

  /** Number of times `x` occurs in `s` (Python's `s.count(x)`). */
  function Occurrences<T(==)>(s: seq<T>, x: T): (n: nat)
    ensures n <= |s|
    ensures n > 0 <==> x in s
  {
    if s == [] then 0
    else
      assert s == s[..|s| - 1] + [s[|s| - 1]];
      Occurrences(s[..|s| - 1], x) + (if s[|s| - 1] == x then 1 else 0)
  }

  /** The scan agrees with the multiplicity of `x` in the multiset of `s`. */
  lemma {:induction false} OccurrencesIsMultiplicity<T>(s: seq<T>, x: T)
    ensures Occurrences(s, x) == multiset(s)[x]
  {
    if s != [] {
      OccurrencesIsMultiplicity(s[..|s| - 1], x);
      assert s == s[..|s| - 1] + [s[|s| - 1]];
    }
  }

  /** Counting is additive over concatenation. */
  lemma OccurrencesAppend<T>(a: seq<T>, b: seq<T>, x: T)
    ensures Occurrences(a + b, x) == Occurrences(a, x) + Occurrences(b, x)
  {
    OccurrencesIsMultiplicity(a + b, x);
    OccurrencesIsMultiplicity(a, x);
    OccurrencesIsMultiplicity(b, x);
  }

  /** In a permutation of `s`, the last element of `s` stands somewhere; the
      rest of the permutation is a permutation of the rest of `s`. */
  lemma SplitAtLast<T>(s: seq<T>, other: seq<T>) returns (left: seq<T>, right: seq<T>)
    requires s != [] && multiset(s) == multiset(other)
    ensures other == left + [s[|s| - 1]] + right
    ensures multiset(s[..|s| - 1]) == multiset(left + right)
  {
    var n := |s| - 1;
    var x := s[n];
    MultisetOfLast(s);
    assert x in multiset(other);
    var j :| 0 <= j < |other| && other[j] == x;
    left, right := other[..j], other[j + 1..];
    MultisetAround(other, j);
    MultisetCancel(multiset(s[..n]), multiset(left), multiset(right), x);
  }

  /** The multiset of a non-empty sequence is that of all but its last element, plus the last. */
  lemma MultisetOfLast<T>(s: seq<T>)
    requires s != []
    ensures multiset(s) == multiset(s[..|s| - 1]) + multiset{s[|s| - 1]}
  {
    assert s == s[..|s| - 1] + [s[|s| - 1]];
  }

  /** Splitting a sequence around index `j`. */
  lemma MultisetAround<T>(s: seq<T>, j: int)
    requires 0 <= j < |s|
    ensures s == s[..j] + [s[j]] + s[j + 1..]
    ensures multiset(s) == multiset(s[..j]) + multiset{s[j]} + multiset(s[j + 1..])
    ensures multiset(s[..j] + s[j + 1..]) == multiset(s[..j]) + multiset(s[j + 1..])
  {
    assert s == s[..j] + [s[j]] + s[j + 1..];
  }

  /** Cancelling one element on both sides of a multiset equation. */
  lemma MultisetCancel<T>(a: multiset<T>, b: multiset<T>, c: multiset<T>, x: T)
    requires a + multiset{x} == b + multiset{x} + c
    ensures a == b + c
  {
    assert a == (a + multiset{x}) - multiset{x};
    assert b + c == (b + multiset{x} + c) - multiset{x};
  }

  /** Each distinct element of `s` mapped to its number of occurrences
      (`{x: s.count(x) for x in set(s)}`). */
  function Tally<T(==)>(s: seq<T>): (m: map<T, nat>)
    ensures m.Keys == set x | x in s
    ensures forall x :: x in m ==> m[x] >= 1
  {
    map x | x in s :: Occurrences(s, x)
  }

  /** Sum of a sequence of counts. */
  function Sum(s: seq<nat>): nat
  {
    if s == [] then 0 else Sum(s[..|s| - 1]) + s[|s| - 1]
  }

  /** A sequence of zeros sums to zero. */
  lemma {:induction false} SumOfZeros(s: seq<nat>)
    requires forall i :: 0 <= i < |s| ==> s[i] == 0
    ensures Sum(s) == 0
  {
    if s != [] {
      SumOfZeros(s[..|s| - 1]);
    }
  }

  /** Incrementing one entry raises the sum by exactly one. */
  lemma {:induction false} SumIncrement(s: seq<nat>, i: nat)
    requires i < |s|
    ensures Sum(s[i := s[i] + 1]) == Sum(s) + 1
  {
    var t := s[i := s[i] + 1];
    var n := |s| - 1;
    assert t[..n] == if i < n then s[..n][i := s[i] + 1] else s[..n];
    if i < n {
      SumIncrement(s[..n], i);
    }
  }

  /** If `after` is `before` with entry `t` raised by one (or unchanged when
      `t` is no index), the sum rises accordingly. */
  lemma SumStep(before: seq<nat>, after: seq<nat>, t: int)
    requires |after| == |before|
    requires forall i :: 0 <= i < |before| ==> after[i] == before[i] + (if i == t then 1 else 0)
    ensures Sum(after) == Sum(before) + (if 0 <= t < |before| then 1 else 0)
  {
    if 0 <= t < |before| {
      assert after == before[t := before[t] + 1];
      SumIncrement(before, t);
    } else {
      assert after == before;
    }
  }

  /** Sum of the values of a finite map, in no particular key order. */
  ghost function SumValues<K>(m: map<K, nat>): nat
    decreases m.Keys
  {
    if m.Keys == {} then 0
    else
      var k :| k in m.Keys;
      m[k] + SumValues(m - {k})
  }

  /** The sum does not depend on which key is taken out first. */
  lemma {:induction false} SumValuesRemove<K>(m: map<K, nat>, k: K)
    requires k in m
    ensures SumValues(m) == m[k] + SumValues(m - {k})
    decreases m.Keys
  {
    var j :| j in m.Keys && SumValues(m) == m[j] + SumValues(m - {j});
    if j != k {
      var mj, mk := m - {j}, m - {k};
      assert k in mj && mj[k] == m[k];
      assert j in mk && mk[j] == m[j];
      SumValuesRemove(mj, k);
      SumValuesRemove(mk, j);
      assert mj - {k} == mk - {j};
    }
  }

  /** Updating or inserting one key changes the sum by the difference. */
  lemma SumValuesUpdate<K>(m: map<K, nat>, k: K, v: nat)
    ensures k in m ==> SumValues(m[k := v]) + m[k] == SumValues(m) + v
    ensures k !in m ==> SumValues(m[k := v]) == SumValues(m) + v
  {
    SumValuesRemove(m[k := v], k);
    assert m[k := v] - {k} == m - {k};
    if k in m {
      SumValuesRemove(m, k);
    } else {
      assert m - {k} == m;
    }
  }

  /** The counts of a tally add up to the length of the sequence counted. */
  lemma {:induction false} TallySum<T>(s: seq<T>)
    ensures SumValues(Tally(s)) == |s|
  {
    if s == [] {
      assert Tally(s) == map[];
    } else {
      var p, a := s[..|s| - 1], s[|s| - 1];
      assert s == p + [a];
      TallySum(p);
      var before := Tally(p);
      var after := before[a := Occurrences(p, a) + 1];
      assert Tally(s) == after;
      SumValuesUpdate(before, a, Occurrences(p, a) + 1);
    }
  }

  /** Computes the sum of a map's values by visiting its keys one at a time
      (Python's `sum(m.values())`). */
  method SumOfValues<K>(m: map<K, nat>) returns (total: nat)
    ensures total == SumValues(m)
  {
    total := 0;
    var rest := m;
    while rest != map[]
      invariant total + SumValues(rest) == SumValues(m)
      decreases rest.Keys
    {
      var k :| k in rest;
      SumValuesRemove(rest, k);
      total := total + rest[k];
      rest := rest - {k};
    }
  }
}

/**
 * The counting dictionaries of the dashboard: a Python dict filled by `d[k] = d.get(k, 0) + 1`
 * keeps its keys in first-insertion order, so it is modelled as that key order plus a map.
 */
module Histogram {

  predicate NoDup<K(==)>(s: seq<K>) {
    forall i, j :: 0 <= i < j < |s| ==> s[i] != s[j]
  }

  /** The keys of `s` in order of first occurrence. */
  function Distinct<K(==)>(s: seq<K>): seq<K>
    decreases |s|
  {
    if s == [] then []
    else
      var d := Distinct(s[..|s| - 1]);
      if s[|s| - 1] in d then d else d + [s[|s| - 1]]
  }

  /** How often `k` occurs in `s`. */
  function Count<K(==)>(s: seq<K>, k: K): nat
    decreases |s|
  {
    if s == [] then 0 else Count(s[..|s| - 1], k) + (if s[|s| - 1] == k then 1 else 0)
  }

  /** The dictionary after counting every key of `s` in order. */
  function CountMap<K(==)>(s: seq<K>): map<K, nat>
    decreases |s|
  {
    if s == [] then map[]
    else
      var m := CountMap(s[..|s| - 1]);
      var k := s[|s| - 1];
      m[k := (if k in m then m[k] else 0) + 1]
  }

  /** `sum(m[k] for k in labels)`. */
  function SumCounts<K(==)>(labels: seq<K>, m: map<K, nat>): nat
    requires forall k :: k in labels ==> k in m
    decreases |labels|
  {
    if labels == [] then 0 else SumCounts(labels[..|labels| - 1], m) + m[labels[|labels| - 1]]
  }

  /**
   * The key order lists every key of the input exactly once, the dictionary holds exactly
   * those keys, and each key is mapped to its number of occurrences.
   */
  lemma {:induction false} CountMapMeaning<K>(s: seq<K>)
    ensures NoDup(Distinct(s))
    ensures forall k :: k in Distinct(s) <==> k in s
    ensures forall k :: k in CountMap(s) <==> k in s
    ensures forall k :: k in CountMap(s) ==> CountMap(s)[k] == Count(s, k)
    ensures forall k :: k !in s ==> Count(s, k) == 0
    decreases |s|
  {
    if s != [] {
      var init := s[..|s| - 1];
      CountMapMeaning(init);
      assert s == init + [s[|s| - 1]];
      forall k
        ensures k in s <==> k in init || k == s[|s| - 1]
      {
      }
    }
  }

  /** The position of the first occurrence of `k` in `s`. */
  function FirstIndex<K(==)>(s: seq<K>, k: K): (r: nat)
    requires k in s
    ensures r < |s| && s[r] == k
    ensures forall p :: 0 <= p < r ==> s[p] != k
  {
    if s[0] == k then 0 else 1 + FirstIndex(s[1..], k)
  }

  /** Appending a key leaves the first occurrence of every key already present where it was. */
  lemma FirstIndexAppend<K>(init: seq<K>, x: K, k: K)
    requires k in init
    ensures FirstIndex(init + [x], k) == FirstIndex(init, k)
  {
    var a, b := FirstIndex(init + [x], k), FirstIndex(init, k);
    assert (init + [x])[b] == k;
    assert forall p :: 0 <= p < b ==> (init + [x])[p] == init[p];
  }

  /** A new key appended at the end first occurs there. */
  lemma FirstIndexOfNew<K>(init: seq<K>, x: K)
    requires x !in init
    ensures FirstIndex(init + [x], x) == |init|
  {
    assert (init + [x])[|init|] == x;
    assert forall p :: 0 <= p < |init| ==> (init + [x])[p] == init[p];
  }

  /** Every listed key occurs in the input. */
  lemma DistinctMember<K>(s: seq<K>, i: nat)
    requires i < |Distinct(s)|
    ensures Distinct(s)[i] in s
  {
    CountMapMeaning(s);
    assert Distinct(s)[i] in Distinct(s);
  }

  /**
   * The key order is the order of first occurrence, as Python keeps a dict's keys: a key
   * listed before another first occurs in `s` before it.
   */
  lemma {:induction false} DistinctInFirstOccurrenceOrder<K>(s: seq<K>, i: nat, j: nat)
    requires i < j < |Distinct(s)|
    ensures Distinct(s)[i] in s && Distinct(s)[j] in s
    ensures FirstIndex(s, Distinct(s)[i]) < FirstIndex(s, Distinct(s)[j])
    decreases |s|
  {
    CountMapMeaning(s);
    var init, x := s[..|s| - 1], s[|s| - 1];
    assert s == init + [x];
    var d := Distinct(init);
    CountMapMeaning(init);
    if x in d {
      DistinctInFirstOccurrenceOrder(init, i, j);
      FirstIndexAppend(init, x, d[i]);
      FirstIndexAppend(init, x, d[j]);
    } else {
      assert Distinct(s) == d + [x];
      if j < |d| {
        DistinctInFirstOccurrenceOrder(init, i, j);
        FirstIndexAppend(init, x, d[i]);
        FirstIndexAppend(init, x, d[j]);
      } else {
        DistinctMember(init, i);
        FirstIndexAppend(init, x, d[i]);
        FirstIndexOfNew(init, x);
      }
    }
  }

  /** Bumping one listed key by one raises the sum by one. */
  lemma {:induction false} SumCountsBump<K>(labels: seq<K>, m: map<K, nat>, k: K)
    requires forall x :: x in labels ==> x in m
    requires NoDup(labels) && k in labels
    ensures SumCounts(labels, m[k := m[k] + 1]) == SumCounts(labels, m) + 1
    decreases |labels|
  {
    var init := labels[..|labels| - 1];
    var last := labels[|labels| - 1];
    if last == k {
      assert k !in init;
      SumCountsIgnores(init, m, k, m[k] + 1);
    } else {
      assert k in init;
      SumCountsBump(init, m, k);
    }
  }

  /** Changing the count of a key that is not listed leaves the sum alone. */
  lemma {:induction false} SumCountsIgnores<K>(labels: seq<K>, m: map<K, nat>, k: K, v: nat)
    requires forall x :: x in labels ==> x in m
    requires k !in labels
    ensures SumCounts(labels, m[k := v]) == SumCounts(labels, m)
    decreases |labels|
  {
    if labels != [] {
      SumCountsIgnores(labels[..|labels| - 1], m, k, v);
    }
  }

  /** The counts of the distinct keys add up to the length of the input. */
  lemma {:induction false} CountsSumToLength<K>(s: seq<K>)
    ensures forall k :: k in Distinct(s) ==> k in CountMap(s)
    ensures SumCounts(Distinct(s), CountMap(s)) == |s|
    decreases |s|
  {
    CountMapMeaning(s);
    if s != [] {
      var init := s[..|s| - 1];
      var k := s[|s| - 1];
      var d, m := Distinct(init), CountMap(init);
      CountsSumToLength(init);
      CountMapMeaning(init);
      if k in d {
        SumCountsBump(d, m, k);
      } else {
        assert k !in m;
        SumCountsIgnores(d, m, k, 1);
        assert SumCounts(d + [k], m[k := 1]) == SumCounts(d, m[k := 1]) + 1 by {
          assert (d + [k])[..|d + [k]| - 1] == d;
        }
      }
    }
  }

  /** Summing over the keys in another order gives the same total. */
  lemma {:induction false} SumCountsPermutation<K>(a: seq<K>, b: seq<K>, m: map<K, nat>)
    requires forall k :: k in a ==> k in m
    requires multiset(a) == multiset(b)
    ensures forall k :: k in b ==> k in m
    ensures SumCounts(a, m) == SumCounts(b, m)
    decreases |a|
  {
    PermutationKeys(a, b, m);
    if a != [] {
      var init, last := a[..|a| - 1], a[|a| - 1];
      var j := MatchLast(a, b);
      var b' := b[..j] + b[j + 1..];
      PermutationKeys(a, init, m) by {
        assert a == init + [last];
      }
      SumCountsPermutation(init, b', m);
      SumCountsRemove(b, j, m);
    }
  }

  /** Every key of a permutation, or of a prefix, of `a` is a key of `a`. */
  lemma PermutationKeys<K>(a: seq<K>, b: seq<K>, m: map<K, nat>)
    requires forall k :: k in a ==> k in m
    requires multiset(b) <= multiset(a)
    ensures forall k :: k in b ==> k in m
  {
    forall k | k in b
      ensures k in m
    {
      assert k in multiset(b);
    }
  }

  /** The last element of `a` sits somewhere in its permutation `b`; without it the rest are permutations. */
  lemma MatchLast<K>(a: seq<K>, b: seq<K>) returns (j: nat)
    requires a != [] && multiset(a) == multiset(b)
    ensures j < |b| && b[j] == a[|a| - 1]
    ensures multiset(b[..j] + b[j + 1..]) == multiset(a[..|a| - 1])
  {
    var init, last := a[..|a| - 1], a[|a| - 1];
    assert a == init + [last];
    assert multiset(a) == multiset(init) + multiset{last};
    assert last in multiset(b);
    j :| 0 <= j < |b| && b[j] == last;
    MultisetRemove(b, j);
  }

  lemma MultisetRemove<K>(b: seq<K>, j: nat)
    requires j < |b|
    ensures multiset(b[..j] + b[j + 1..]) == multiset(b) - multiset{b[j]}
  {
    assert b == b[..j] + [b[j]] + b[j + 1..];
  }

  /** Removing the key at position `j` lowers the sum by its count. */
  lemma {:induction false} SumCountsRemove<K>(b: seq<K>, j: nat, m: map<K, nat>)
    requires j < |b|
    requires forall k :: k in b ==> k in m
    ensures forall k :: k in b[..j] + b[j + 1..] ==> k in m
    ensures SumCounts(b, m) == SumCounts(b[..j] + b[j + 1..], m) + m[b[j]]
    decreases |b|
  {
    var r := b[..j] + b[j + 1..];
    forall k | k in r
      ensures k in m
    {
      assert k in b[..j] || k in b[j + 1..];
    }
    if j < |b| - 1 {
      var init := b[..|b| - 1];
      SumCountsRemove(init, j, m);
      assert init[..j] == b[..j];
      assert r == (init[..j] + init[j + 1..]) + [b[|b| - 1]];
      assert r[..|r| - 1] == init[..j] + init[j + 1..];
    } else {
      assert r == b[..|b| - 1];
    }
  }

  /** The counting loop: returns the key order and the dictionary. */
  method CountByKey<K(==)>(keys: seq<K>) returns (labels: seq<K>, counts: map<K, nat>)
    ensures labels == Distinct(keys)
    ensures counts == CountMap(keys)
  {
    labels, counts := [], map[];
    for i := 0 to |keys|
      invariant labels == Distinct(keys[..i])
      invariant counts == CountMap(keys[..i])
      invariant forall k :: k in labels <==> k in counts
    {
      assert keys[..i + 1][..i] == keys[..i];
      var k := keys[i];
      if k in counts {
        counts := counts[k := counts[k] + 1];
      } else {
        counts := counts[k := 1];
        labels := labels + [k];
      }
    }
    assert keys[..|keys|] == keys;
  }

  /** `[m[k] for k in labels]`, and `list(d.values())` when `labels` is the key order of `d`. */
  function Values<K>(labels: seq<K>, m: map<K, nat>): (r: seq<nat>)
    requires forall k :: k in labels ==> k in m
    ensures |r| == |labels| && forall i :: 0 <= i < |labels| ==> r[i] == m[labels[i]]
  {
    seq(|labels|, i requires 0 <= i < |labels| => m[labels[i]])
  }

  function Sum(s: seq<nat>): nat
    decreases |s|
  {
    if s == [] then 0 else Sum(s[..|s| - 1]) + s[|s| - 1]
  }

  lemma {:induction false} SumOfValues<K>(labels: seq<K>, m: map<K, nat>)
    requires forall k :: k in labels ==> k in m
    ensures Sum(Values(labels, m)) == SumCounts(labels, m)
    decreases |labels|
  {
    if labels != [] {
      var init := labels[..|labels| - 1];
      SumOfValues(init, m);
      assert Values(labels, m)[..|labels| - 1] == Values(init, m);
    }
  }

  /** A sequence without duplicates holds every element once. */
  lemma {:induction false} NoDupOnce<K>(a: seq<K>, x: K)
    requires NoDup(a)
    ensures multiset(a)[x] <= 1
    decreases |a|
  {
    if a != [] {
      var init, last := a[..|a| - 1], a[|a| - 1];
      assert a == init + [last];
      assert NoDup(init);
      NoDupOnce(init, x);
      if x == last {
        assert x !in init;
      }
    }
  }

  /** Reordering a sequence without duplicates leaves it without duplicates. */
  lemma NoDupPermutation<K>(a: seq<K>, b: seq<K>)
    requires NoDup(a) && multiset(a) == multiset(b)
    ensures NoDup(b)
  {
    forall i, j | 0 <= i < j < |b|
      ensures b[i] != b[j]
    {
      NoDupOnce(a, b[i]);
      assert b == b[..j] + b[j..];
      assert b[i] in multiset(b[..j]);
      assert b[j] in multiset(b[j..]);
      assert multiset(b)[b[i]] == multiset(b[..j])[b[i]] + multiset(b[j..])[b[i]];
    }
  }

  /** A key that occurs is counted at least once. */
  lemma {:induction false} CountPositive<K>(s: seq<K>, k: K)
    requires k in s
    ensures Count(s, k) >= 1
    decreases |s|
  {
    var init := s[..|s| - 1];
    if s[|s| - 1] != k {
      assert s == init + [s[|s| - 1]];
      CountPositive(init, k);
    }
  }
}

/**
 * The three priority buckets shared by `generate_recommendations` and the fix-plan endpoints:
 * priority 1 or 2 (and anything lower) is immediate, 3 is short term, the rest long term.
 */
module Priority {
  import opened StableSort

  datatype Bucket = Immediate | ShortTerm | LongTerm

  function BucketOf(p: int): (b: Bucket)
    ensures b == Immediate <==> p <= 2
    ensures b == ShortTerm <==> p == 3
    ensures b == LongTerm <==> p >= 4
  {
    if p <= 2 then Immediate else if p == 3 then ShortTerm else LongTerm
  }

  /** The elements of `s` whose priority falls in bucket `b`, in their order in `s`. */
  function InBucket<T>(s: seq<T>, prio: T -> int, b: Bucket): (r: seq<T>)
    ensures |r| <= |s|
    ensures forall x :: x in r ==> x in s && BucketOf(prio(x)) == b
    decreases |s|
  {
    if s == [] then []
    else (if BucketOf(prio(s[0])) == b then [s[0]] else []) + InBucket(s[1..], prio, b)
  }

  /** Every element lands in exactly one bucket: the three buckets together are a permutation of the input. */
  lemma {:induction false} BucketsPartition<T>(s: seq<T>, prio: T -> int)
    ensures |InBucket(s, prio, Immediate)| + |InBucket(s, prio, ShortTerm)| + |InBucket(s, prio, LongTerm)| == |s|
    ensures multiset(InBucket(s, prio, Immediate)) + multiset(InBucket(s, prio, ShortTerm))
            + multiset(InBucket(s, prio, LongTerm)) == multiset(s)
    decreases |s|
  {
    if s != [] {
      BucketsPartition(s[1..], prio);
      assert s == [s[0]] + s[1..];
    }
  }

  /** Taking one bucket of a sequence sorted by some key leaves it sorted by that key. */
  lemma {:induction false} InBucketSorted<T>(s: seq<T>, prio: T -> int, b: Bucket, key: T -> Key)
    requires SortedBy(s, key)
    ensures SortedBy(InBucket(s, prio, b), key)
    decreases |s|
  {
    if s != [] {
      var rest := InBucket(s[1..], prio, b);
      assert SortedBy(s[1..], key);
      InBucketSorted(s[1..], prio, b, key);
      if BucketOf(prio(s[0])) == b {
        var r := [s[0]] + rest;
        forall i, j | 0 <= i < j < |r|
          ensures KeyLe(key(r[i]), key(r[j]))
        {
          assert r[j] == rest[j - 1];
          if i == 0 {
            assert rest[j - 1] in rest;
            assert rest[j - 1] in s[1..];
            var k :| 0 <= k < |s[1..]| && s[1..][k] == rest[j - 1];
            assert s[k + 1] == rest[j - 1];
          } else {
            assert r[i] == rest[i - 1];
          }
        }
      }
    }
  }

  /** Appending one element extends its own bucket by that element and leaves the others alone. */
  lemma {:induction false} InBucketAppend<T>(s: seq<T>, x: T, prio: T -> int, b: Bucket)
    ensures InBucket(s + [x], prio, b) == InBucket(s, prio, b) + (if BucketOf(prio(x)) == b then [x] else [])
    decreases |s|
  {
    if s == [] {
      assert [x][1..] == [];
    } else {
      assert (s + [x])[0] == s[0];
      assert (s + [x])[1..] == s[1..] + [x];
      InBucketAppend(s[1..], x, prio, b);
    }
  }
}

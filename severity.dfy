/**
 * Flaw severities as the backend scores them: the weights 10/7/5/2 (0 for anything
 * else), the four-way tally that ignores unknown values, the mean weight used as the
 * brutality score, and the rank used to order fix suggestions.
 */
module Severity {

  const Critical := "critical"
  const High := "high"
  const Medium := "medium"
  const Low := "low"

  predicate IsKnown(s: string) {
    s == Critical || s == High || s == Medium || s == Low
  }

  /** `severity_weights.get(s, 0)`. */
  function Weight(s: string): (w: nat)
    ensures w <= 10
    ensures IsKnown(s) <==> w > 0
  {
    if s == Critical then 10 else if s == High then 7 else if s == Medium then 5 else if s == Low then 2 else 0
  }

  /** `priority_order.get(s, 5)`: critical 1, high 2, medium 3, low 4, anything else 5. */
  function Rank(s: string): (r: int)
    ensures 1 <= r <= 5
    ensures r == 5 <==> !IsKnown(s)
  {
    if s == Critical then 1 else if s == High then 2 else if s == Medium then 3 else if s == Low then 4 else 5
  }

  /** The `{"critical": .., "high": .., "medium": .., "low": ..}` count record. */
  datatype Counts = Counts(critical: nat, high: nat, medium: nat, low: nat) {
    function Total(): nat { critical + high + medium + low }
    function WeightedSum(): nat { 10 * critical + 7 * high + 5 * medium + 2 * low }
    function Add(s: string): Counts {
      if s == Critical then this.(critical := critical + 1)
      else if s == High then this.(high := high + 1)
      else if s == Medium then this.(medium := medium + 1)
      else if s == Low then this.(low := low + 1)
      else this
    }
  }

  const NoCounts := Counts(0, 0, 0, 0)

  /** The count record after counting every severity of `sevs` in order. */
  function Tally(sevs: seq<string>): Counts
    decreases |sevs|
  {
    if sevs == [] then NoCounts else Tally(sevs[..|sevs| - 1]).Add(sevs[|sevs| - 1])
  }

  /** How many entries of `sevs` equal `s`. */
  function Occurrences(sevs: seq<string>, s: string): nat
    decreases |sevs|
  {
    if sevs == [] then 0 else Occurrences(sevs[..|sevs| - 1], s) + (if sevs[|sevs| - 1] == s then 1 else 0)
  }

  /** Number of entries of `sevs` that are one of the four known severities. */
  function KnownCount(sevs: seq<string>): (n: nat)
    ensures n <= |sevs|
    decreases |sevs|
  {
    if sevs == [] then 0 else KnownCount(sevs[..|sevs| - 1]) + (if IsKnown(sevs[|sevs| - 1]) then 1 else 0)
  }

  /** `sum(severity_weights.get(s, 0) for s in sevs)`. */
  function WeightSum(sevs: seq<string>): (w: nat)
    ensures w <= 10 * |sevs|
    decreases |sevs|
  {
    if sevs == [] then 0 else WeightSum(sevs[..|sevs| - 1]) + Weight(sevs[|sevs| - 1])
  }

  /** The tally counts each of the four known severities exactly. */
  lemma {:induction false} TallyCountsOccurrences(sevs: seq<string>)
    ensures Tally(sevs) == Counts(Occurrences(sevs, Critical), Occurrences(sevs, High),
                                  Occurrences(sevs, Medium), Occurrences(sevs, Low))
    decreases |sevs|
  {
    if sevs != [] {
      TallyCountsOccurrences(sevs[..|sevs| - 1]);
    }
  }

  /** The tally's total is the number of known entries, so never more than the input. */
  lemma {:induction false} TallyTotal(sevs: seq<string>)
    ensures Tally(sevs).Total() == KnownCount(sevs) <= |sevs|
    decreases |sevs|
  {
    if sevs != [] {
      var init, last := sevs[..|sevs| - 1], sevs[|sevs| - 1];
      TallyTotal(init);
      AddOne(Tally(init), last);
    }
  }

  /** The tally's weighted sum equals the plain sum of weights: unknown values weigh nothing. */
  lemma {:induction false} TallyWeightedSum(sevs: seq<string>)
    ensures Tally(sevs).WeightedSum() == WeightSum(sevs)
    decreases |sevs|
  {
    if sevs != [] {
      var init, last := sevs[..|sevs| - 1], sevs[|sevs| - 1];
      TallyWeightedSum(init);
      AddOne(Tally(init), last);
    }
  }

  /** Counting one more severity adds one to the total when it is known, and adds its weight. */
  lemma AddOne(c: Counts, s: string)
    ensures c.Add(s).Total() == c.Total() + (if IsKnown(s) then 1 else 0)
    ensures c.Add(s).WeightedSum() == c.WeightedSum() + Weight(s)
  {
  }

  /** The tally loop of `generate_report` and of the dashboard: one increment per known severity. */
  method TallySeverities(sevs: seq<string>) returns (counts: Counts)
    ensures counts == Tally(sevs)
  {
    counts := NoCounts;
    for i := 0 to |sevs|
      invariant counts == Tally(sevs[..i])
    {
      assert sevs[..i + 1][..i] == sevs[..i];
      var s := sevs[i];
      if s == Critical {
        counts := counts.(critical := counts.critical + 1);
      } else if s == High {
        counts := counts.(high := counts.high + 1);
      } else if s == Medium {
        counts := counts.(medium := counts.medium + 1);
      } else if s == Low {
        counts := counts.(low := counts.low + 1);
      }
    }
    assert sevs[..|sevs|] == sevs;
  }

  /** The mean severity weight, or 0 when there is nothing to average. */
  function MeanWeight(sevs: seq<string>): (m: real)
    ensures 0.0 <= m <= 10.0
    ensures sevs == [] ==> m == 0.0
  {
    if |sevs| == 0 then 0.0 else WeightSum(sevs) as real / |sevs| as real
  }

  /** The mean weight is 10 exactly when every severity is critical, and 0 exactly when none is known. */
  lemma {:induction false} MeanWeightExtremes(sevs: seq<string>)
    requires sevs != []
    ensures WeightSum(sevs) == 0 <==> KnownCount(sevs) == 0
    ensures WeightSum(sevs) == 10 * |sevs| <==> Occurrences(sevs, Critical) == |sevs|
    decreases |sevs|
  {
    var init := sevs[..|sevs| - 1];
    if init != [] {
      MeanWeightExtremes(init);
    }
    assert Occurrences(init, Critical) <= |init| by { OccurrencesBounded(init, Critical); }
  }

  lemma {:induction false} OccurrencesBounded(sevs: seq<string>, s: string)
    ensures Occurrences(sevs, s) <= |sevs|
    decreases |sevs|
  {
    if sevs != [] {
      OccurrencesBounded(sevs[..|sevs| - 1], s);
    }
  }
}

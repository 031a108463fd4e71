/**
 * The dashboard's animated score (client/src/pages/Dashboard.jsx): on mount the target
 * score of 73 is set and an interval counts the displayed score up to it one step at a time.
 */
module DashboardPage {

  const TargetScore := 73

  /** One interval tick's update of the displayed score. */
  function NextScore(prev: int): int {
    if prev < TargetScore then prev + 1 else prev
  }

  /** A tick that finds the target reached clears the interval. */
  predicate TickStops(prev: int) {
    !(prev < TargetScore)
  }

  /** The displayed score after `n` ticks from 0. */
  function ScoreAfter(n: nat): int {
    if n == 0 then 0 else NextScore(ScoreAfter(n - 1))
  }

  /** The count climbs by one a tick, never passes 73, and reaches it after 73 ticks. */
  lemma {:induction false} ScoreAfterTicks(n: nat)
    ensures ScoreAfter(n) == if n < TargetScore then n else TargetScore
  {
    if n > 0 {
      ScoreAfterTicks(n - 1);
    }
  }

  /** The displayed score never decreases and never exceeds the target. */
  lemma ScoreMonotoneBounded(n: nat)
    ensures 0 <= ScoreAfter(n) <= ScoreAfter(n + 1) <= TargetScore
  {
    ScoreAfterTicks(n);
    ScoreAfterTicks(n + 1);
  }

  class DashboardState {
    var brutalityScore: int
    var animatedScore: int
    var intervalActive: bool

    constructor ()
      ensures brutalityScore == 0 && animatedScore == 0 && !intervalActive
    {
      brutalityScore, animatedScore, intervalActive := 0, 0, false;
    }

    /** The mount effect: set the target score and start counting. */
    method Mount()
      modifies this
      ensures brutalityScore == TargetScore && intervalActive && animatedScore == old(animatedScore)
    {
      brutalityScore := TargetScore;
      intervalActive := true;
    }

    /** One firing of the interval: count up, or keep the value and clear the interval at the target. */
    method Tick()
      requires intervalActive
      modifies this
      ensures animatedScore == NextScore(old(animatedScore)) && brutalityScore == old(brutalityScore)
      ensures intervalActive == !TickStops(old(animatedScore))
    {
      if animatedScore < TargetScore {
        animatedScore := animatedScore + 1;
      } else {
        intervalActive := false;
      }
    }

    /** The interval fires 74 times from 0: 73 counting ticks and one that clears it. */
    method RunInterval() returns (ticks: nat)
      requires intervalActive && animatedScore == 0
      modifies this
      ensures ticks == TargetScore + 1 && animatedScore == TargetScore && !intervalActive
      ensures brutalityScore == old(brutalityScore)
    {
      ticks := 0;
      while intervalActive
        invariant brutalityScore == old(brutalityScore)
        invariant ticks <= TargetScore + 1
        invariant intervalActive ==> ticks <= TargetScore && animatedScore == ScoreAfter(ticks)
        invariant !intervalActive ==> ticks == TargetScore + 1 && animatedScore == TargetScore
        decreases TargetScore + 1 - ticks
      {
        ScoreAfterTicks(ticks);
        Tick();
        ticks := ticks + 1;
      }
    }
  }
}

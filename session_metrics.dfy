/** The per-session metrics accumulator: one score triple per frame, running
    maxima, a count of distracted frames, and a summary of averages and rates. */
module Metrics {

  /** Python's two-argument `max` on numbers. */
  function Max(a: real, b: real): real {
    if b > a then b else a
  }

  /** The sum of the first `n` values of `s`. */
  function SumPrefix(s: seq<real>, n: nat): real
    requires n <= |s|
  {
    if n == 0 then 0.0 else SumPrefix(s, n - 1) + s[n - 1]
  }

  function Sum(s: seq<real>): real {
    SumPrefix(s, |s|)
  }

  /** The mean of `s`, or 0 when `s` is empty. */
  function Mean(s: seq<real>): real {
    if |s| > 0 then Sum(s) / |s| as real else 0.0
  }

  /** The maximum of 0 and the first `n` values of `s`, folded from the left as `update` does. */
  function MaxPrefix(s: seq<real>, n: nat): real
    requires n <= |s|
  {
    if n == 0 then 0.0 else Max(MaxPrefix(s, n - 1), s[n - 1])
  }

  /** The maximum of 0 and every value of `s`. */
  function RunningMax(s: seq<real>): real {
    MaxPrefix(s, |s|)
  }

  /** How many of the first `n` values of `s` lie strictly above `threshold`. */
  function CountAbovePrefix(s: seq<real>, n: nat, threshold: real): nat
    requires n <= |s|
  {
    if n == 0 then 0 else CountAbovePrefix(s, n - 1, threshold) + (if s[n - 1] > threshold then 1 else 0)
  }

  function CountAbove(s: seq<real>, threshold: real): nat {
    CountAbovePrefix(s, |s|, threshold)
  }

  /** Appending a value does not change what the prefix functions say about the old values. */
  lemma {:induction false} PrefixExtend(s: seq<real>, x: real, n: nat, threshold: real)
    requires n <= |s|
    ensures SumPrefix(s + [x], n) == SumPrefix(s, n)
    ensures MaxPrefix(s + [x], n) == MaxPrefix(s, n)
    ensures CountAbovePrefix(s + [x], n, threshold) == CountAbovePrefix(s, n, threshold)
  {
    if n > 0 {
      PrefixExtend(s, x, n - 1, threshold);
    }
  }

  /** What one appended value does to the sum, the running maximum and the count. */
  lemma Append(s: seq<real>, x: real, threshold: real)
    ensures Sum(s + [x]) == Sum(s) + x
    ensures RunningMax(s + [x]) == Max(RunningMax(s), x)
    ensures CountAbove(s + [x], threshold) == CountAbove(s, threshold) + (if x > threshold then 1 else 0)
  {
    PrefixExtend(s, x, |s|, threshold);
  }

  /** The running maximum bounds 0 and every value, and is 0 or one of the values. */
  lemma {:induction false} MaxPrefixIsMax(s: seq<real>, n: nat)
    requires n <= |s|
    ensures MaxPrefix(s, n) >= 0.0
    ensures forall i :: 0 <= i < n ==> s[i] <= MaxPrefix(s, n)
    ensures MaxPrefix(s, n) == 0.0 || exists i :: 0 <= i < n && s[i] == MaxPrefix(s, n)
  {
    if n > 0 {
      MaxPrefixIsMax(s, n - 1);
    }
  }

  lemma RunningMaxIsMax(s: seq<real>)
    ensures RunningMax(s) >= 0.0
    ensures forall i :: 0 <= i < |s| ==> s[i] <= RunningMax(s)
    ensures RunningMax(s) == 0.0 || exists i :: 0 <= i < |s| && s[i] == RunningMax(s)
  {
    MaxPrefixIsMax(s, |s|);
  }

  /** No more values lie above a threshold than there are values. */
  lemma {:induction false} CountAbovePrefixAtMost(s: seq<real>, n: nat, threshold: real)
    requires n <= |s|
    ensures CountAbovePrefix(s, n, threshold) <= n
  {
    if n > 0 {
      CountAbovePrefixAtMost(s, n - 1, threshold);
    }
  }

  /** A sum of `n` values that are all at most `hi` is at most `n * hi`. */
  lemma {:induction false} SumPrefixAtMost(s: seq<real>, n: nat, hi: real)
    requires n <= |s|
    requires forall i :: 0 <= i < n ==> s[i] <= hi
    ensures SumPrefix(s, n) <= n as real * hi
  {
    if n > 0 {
      SumPrefixAtMost(s, n - 1, hi);
    }
  }

  /** A sum of `n` values that are all at least `lo` is at least `n * lo`. */
  lemma {:induction false} SumPrefixAtLeast(s: seq<real>, n: nat, lo: real)
    requires n <= |s|
    requires forall i :: 0 <= i < n ==> lo <= s[i]
    ensures n as real * lo <= SumPrefix(s, n)
  {
    if n > 0 {
      SumPrefixAtLeast(s, n - 1, lo);
    }
  }

  /** The mean of values that all lie in [lo, hi] lies in [lo, hi]. */
  lemma MeanBounds(s: seq<real>, lo: real, hi: real)
    requires |s| > 0
    requires forall i :: 0 <= i < |s| ==> lo <= s[i] <= hi
    ensures lo <= Mean(s) <= hi
  {
    SumPrefixAtMost(s, |s|, hi);
    SumPrefixAtLeast(s, |s|, lo);
    assert Mean(s) * |s| as real == Sum(s);
  }

  /** The mean never exceeds the running maximum. */
  lemma MeanAtMostMax(s: seq<real>)
    ensures Mean(s) <= RunningMax(s)
  {
    RunningMaxIsMax(s);
    if |s| > 0 {
      SumPrefixAtMost(s, |s|, RunningMax(s));
      assert Mean(s) * |s| as real == Sum(s);
    }
  }

  /** `part / whole * 100`, or 0 when `whole` is 0. */
  function Percentage(part: nat, whole: nat): (r: real)
    ensures part <= whole ==> 0.0 <= r <= 100.0
    ensures whole > 0 ==> r * whole as real == part as real * 100.0
    ensures whole == 0 ==> r == 0.0
  {
    if whole > 0 then (part as real / whole as real) * 100.0 else 0.0
  }

  /** What `summary` returns. */
  datatype MetricsSummary = MetricsSummary(
    averageAttentionScore: real,
    averageFatigue: real,
    averageDistraction: real,
    distractionRate: real,
    maxFatigue: real,
    maxDistraction: real)

  class SessionMetrics {
    var attentionScores: seq<real>
    var fatigueScores: seq<real>
    var distractionScores: seq<real>
    const distractionThreshold: real

    var framesTotal: nat
    var framesDistracted: nat
    var maxFatigue: real
    var maxDistraction: real

    /** Every frame appended one value to each list; the maxima and the count of
        distracted frames are those of the lists. */
    ghost predicate Valid()
      reads this
    {
      && |attentionScores| == framesTotal
      && |fatigueScores| == framesTotal
      && |distractionScores| == framesTotal
      && maxFatigue == RunningMax(fatigueScores)
      && maxDistraction == RunningMax(distractionScores)
      && framesDistracted == CountAbove(distractionScores, distractionThreshold)
    }

    constructor ()
      ensures Valid()
      ensures attentionScores == [] && fatigueScores == [] && distractionScores == []
      ensures distractionThreshold == 60.0
      ensures framesTotal == 0 && framesDistracted == 0
      ensures maxFatigue == 0.0 && maxDistraction == 0.0
    {
      attentionScores := [];
      fatigueScores := [];
      distractionScores := [];
      distractionThreshold := 60.0;
      framesTotal := 0;
      framesDistracted := 0;
      maxFatigue := 0.0;
      maxDistraction := 0.0;
    }

    /** Records the scores of one frame. */
    method Update(fatigue: real, distraction: real, attention: real)
      requires Valid()
      modifies this
      ensures Valid()
      ensures attentionScores == old(attentionScores) + [attention]
      ensures fatigueScores == old(fatigueScores) + [fatigue]
      ensures distractionScores == old(distractionScores) + [distraction]
      ensures maxFatigue == Max(old(maxFatigue), fatigue)
      ensures maxDistraction == Max(old(maxDistraction), distraction)
      ensures framesTotal == old(framesTotal) + 1
      ensures framesDistracted == old(framesDistracted) + (if distraction > distractionThreshold then 1 else 0)
      ensures framesDistracted <= framesTotal
    {
      Append(fatigueScores, fatigue, distractionThreshold);
      Append(distractionScores, distraction, distractionThreshold);
      CountAbovePrefixAtMost(distractionScores + [distraction], framesTotal + 1, distractionThreshold);

      attentionScores := attentionScores + [attention];
      fatigueScores := fatigueScores + [fatigue];
      distractionScores := distractionScores + [distraction];

      maxFatigue := Max(maxFatigue, fatigue);
      maxDistraction := Max(maxDistraction, distraction);

      framesTotal := framesTotal + 1;
      if distraction > distractionThreshold {
        framesDistracted := framesDistracted + 1;
      }
    }

    /** The averages of the three lists, the percentage of distracted frames and the maxima. */
    function Summary(): (r: MetricsSummary)
      requires Valid()
      reads this
      ensures r.averageAttentionScore == Mean(attentionScores)
      ensures r.averageFatigue == Mean(fatigueScores)
      ensures r.averageDistraction == Mean(distractionScores)
      // each average is at most the corresponding maximum
      ensures r.averageFatigue <= r.maxFatigue && r.averageDistraction <= r.maxDistraction
      // the rate is a percentage of the frames
      ensures 0.0 <= r.distractionRate <= 100.0
      ensures framesTotal > 0 ==> r.distractionRate * framesTotal as real == framesDistracted as real * 100.0
      ensures framesTotal == 0 ==> r.distractionRate == 0.0
      ensures r.maxFatigue == maxFatigue && r.maxDistraction == maxDistraction
    {
      MeanAtMostMax(fatigueScores);
      MeanAtMostMax(distractionScores);
      CountAbovePrefixAtMost(distractionScores, framesTotal, distractionThreshold);
      var avgAttention := Mean(attentionScores);
      var avgFatigue := Mean(fatigueScores);
      var avgDistraction := Mean(distractionScores);
      var distractionRate := Percentage(framesDistracted, framesTotal);
      MetricsSummary(avgAttention, avgFatigue, avgDistraction, distractionRate, maxFatigue, maxDistraction)
    }
  }
}

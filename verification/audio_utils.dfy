/**
 * Signal metrics of `lib/audioUtils.ts`: the strength of a time-domain
 * buffer is the mean absolute deviation of its byte samples from the
 * midpoint 128, and `getSignalLevel` sorts a strength into three levels.
 *
 * The source computes with IEEE doubles; here the mean is an exact `real`.
 * The sum of at most `n` deviations is an integer no larger than `128 * n`,
 * so the doubles the source compares against 10 and 20 land on the same side
 * of each threshold as the exact quotient for any buffer the analyser fills.
 */
module AudioUtils {
  import opened Common

  /** The zero line of an unsigned 8-bit time-domain sample. */
  const Midpoint: int := 128

  /** Strengths above this are "high". */
  const HighThreshold: real := 20.0

  /** Strengths above this (and not above `HighThreshold`) are "medium". */
  const MediumThreshold: real := 10.0

  /** `Math.abs(x - 128)` for one sample. */
  function Deviation(x: Byte): (d: nat)
    ensures d <= 128
    ensures d == 0 <==> x as int == Midpoint
  {
    if x as int >= Midpoint then x as int - Midpoint else Midpoint - x as int
  }

  /** The deviations summed from the first sample to the last, as the loop does. */
  function DeviationSum(xs: seq<Byte>): nat {
    if |xs| == 0 then 0 else DeviationSum(xs[..|xs| - 1]) + Deviation(xs[|xs| - 1])
  }

  /** Every term is at most 128, so the sum is at most `128 * |xs|`. */
  lemma {:induction false} DeviationSumBound(xs: seq<Byte>)
    ensures DeviationSum(xs) <= 128 * |xs|
  {
    if |xs| > 0 {
      DeviationSumBound(xs[..|xs| - 1]);
    }
  }

  /** The sum vanishes exactly when every sample sits on the midpoint. */
  lemma {:induction false} DeviationSumZeroIffSilent(xs: seq<Byte>)
    ensures DeviationSum(xs) == 0 <==> forall i :: 0 <= i < |xs| ==> xs[i] as int == Midpoint
  {
    if |xs| > 0 {
      var init := xs[..|xs| - 1];
      DeviationSumZeroIffSilent(init);
      if DeviationSum(xs) == 0 {
        forall i | 0 <= i < |xs|
          ensures xs[i] as int == Midpoint
        {
          if i < |xs| - 1 {
            assert xs[i] == init[i];
          }
        }
      }
    }
  }

  /**
   * `calculateSignalStrength`: `sum / dataArray.length`. An empty array gives
   * `0 / 0`, which is NaN in JavaScript; the model returns `None` for it.
   */
  function CalculateSignalStrength(xs: seq<Byte>): (r: Option<real>)
    ensures r.None? <==> |xs| == 0
    ensures r.Some? ==> r.value * |xs| as real == DeviationSum(xs) as real
    ensures r.Some? ==> 0.0 <= r.value <= 128.0
  {
    if |xs| == 0 then None
    else
      DeviationSumBound(xs);
      QuotientBound(DeviationSum(xs) as real, |xs| as real);
      Some(DeviationSum(xs) as real / |xs| as real)
  }

  /** A sum of `n` terms, each in [0, 128], has its mean in [0, 128]. */
  lemma QuotientBound(sum: real, n: real)
    requires n > 0.0 && 0.0 <= sum <= 128.0 * n
    ensures 0.0 <= sum / n <= 128.0
  {
    var q := sum / n;
    assert q * n == sum;
  }

  /** The loop of `calculateSignalStrength`, sample by sample. */
  method SignalStrengthLoop(xs: seq<Byte>) returns (r: Option<real>)
    ensures r == CalculateSignalStrength(xs)
  {
    var sum := 0;
    var i := 0;
    while i < |xs|
      invariant 0 <= i <= |xs|
      invariant sum == DeviationSum(xs[..i])
    {
      assert xs[..i + 1][..i] == xs[..i];
      sum := sum + Deviation(xs[i]);
      i := i + 1;
    }
    assert xs[..i] == xs;
    if |xs| == 0 {
      r := None;
    } else {
      r := Some(sum as real / |xs| as real);
    }
  }

  /** A buffer that is all midpoint samples has strength zero, and only such a buffer. */
  lemma SilentBufferHasZeroStrength(xs: seq<Byte>)
    requires |xs| > 0
    ensures CalculateSignalStrength(xs) == Some(0.0)
        <==> forall i :: 0 <= i < |xs| ==> xs[i] as int == Midpoint
  {
    DeviationSumZeroIffSilent(xs);
  }

  /** `getSignalLevel`. */
  function GetSignalLevel(strength: real): (level: string)
    ensures level == "high" <==> strength > HighThreshold
    ensures level == "medium" <==> MediumThreshold < strength <= HighThreshold
    ensures level == "low" <==> strength <= MediumThreshold
  {
    if strength > HighThreshold then "high"
    else if strength > MediumThreshold then "medium"
    else "low"
  }

  /** The order low < medium < high on level names. */
  function LevelRank(level: string): nat {
    if level == "high" then 2 else if level == "medium" then 1 else 0
  }

  /** A stronger signal never gets a lower level. */
  lemma GetSignalLevelMonotone(s1: real, s2: real)
    requires s1 <= s2
    ensures LevelRank(GetSignalLevel(s1)) <= LevelRank(GetSignalLevel(s2))
  {
  }
}

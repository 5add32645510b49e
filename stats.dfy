/** The one-dimensional reductions that numpy supplies to the inflammation
    model (np.sum, np.mean, np.max, np.min over a sequence of readings).
    Readings are mathematical reals, so there is no NaN and no rounding. */
module Stats {

  /** Sum of the readings, left to right. */
  function Sum(s: seq<real>): (total: real)
  {
    if |s| == 0 then 0.0 else s[0] + Sum(s[1..])
  }

  /** The largest reading: no reading exceeds it (and, by MaxIsReading, it
      is one of the readings). */
  function Max(s: seq<real>): (r: real)
    requires |s| > 0
    ensures forall i :: 0 <= i < |s| ==> s[i] <= r
  {
    if |s| == 1 then s[0]
    else
      var m := Max(s[1..]);
      if s[0] >= m then s[0] else m
  }

  /** The smallest reading: no reading is below it (and, by MinIsReading,
      it is one of the readings). */
  function Min(s: seq<real>): (r: real)
    requires |s| > 0
    ensures forall i :: 0 <= i < |s| ==> r <= s[i]
  {
    if |s| == 1 then s[0]
    else
      var m := Min(s[1..]);
      if s[0] <= m then s[0] else m
  }

  /** The maximum is attained: some reading equals it. */
  lemma {:induction false} MaxIsReading(s: seq<real>)
    requires |s| > 0
    ensures Max(s) in s
  {
    if |s| > 1 {
      MaxIsReading(s[1..]);
    }
  }

  /** The minimum is attained: some reading equals it. */
  lemma {:induction false} MinIsReading(s: seq<real>)
    requires |s| > 0
    ensures Min(s) in s
  {
    if |s| > 1 {
      MinIsReading(s[1..]);
    }
  }

  /** The arithmetic mean: the sum shared out over the readings, which puts it
      between the smallest and the largest reading. */
  function Mean(s: seq<real>): (r: real)
    requires |s| > 0
    ensures r * |s| as real == Sum(s)
    ensures Min(s) <= r <= Max(s)
  {
    MeanBounds(s);
    Sum(s) / |s| as real
  }

  /** A bound above every reading bounds the sum by |s| times itself. */
  lemma {:induction false} SumAtMost(s: seq<real>, b: real)
    requires forall i :: 0 <= i < |s| ==> s[i] <= b
    ensures Sum(s) <= |s| as real * b
  {
    if |s| > 0 {
      SumAtMost(s[1..], b);
      assert (|s| - 1) as real * b + b == |s| as real * b;
    }
  }

  /** A bound below every reading bounds the sum by |s| times itself. */
  lemma {:induction false} SumAtLeast(s: seq<real>, b: real)
    requires forall i :: 0 <= i < |s| ==> b <= s[i]
    ensures |s| as real * b <= Sum(s)
  {
    if |s| > 0 {
      SumAtLeast(s[1..], b);
      assert (|s| - 1) as real * b + b == |s| as real * b;
    }
  }

  /** |s| * Min(s) <= Sum(s) <= |s| * Max(s), hence the mean lies between
      the extrema. */
  lemma MeanBounds(s: seq<real>)
    requires |s| > 0
    ensures Min(s) <= Sum(s) / |s| as real <= Max(s)
  {
    assert Sum(s) / |s| as real <= Max(s) by {
      SumAtMost(s, Max(s));
      QuotientAtMost(Sum(s), |s|, Max(s));
    }
    assert Min(s) <= Sum(s) / |s| as real by {
      SumAtLeast(s, Min(s));
      QuotientAtLeast(Sum(s), |s|, Min(s));
    }
  }

  /** Division by a positive count preserves a bound from above; kept apart
      so that the division is reasoned about without the sequence facts. */
  lemma QuotientAtMost(x: real, n: nat, hi: real)
    requires n > 0 && x <= n as real * hi
    ensures x / n as real <= hi
  {
  }

  /** Division by a positive count preserves a bound from below. */
  lemma QuotientAtLeast(x: real, n: nat, lo: real)
    requires n > 0 && n as real * lo <= x
    ensures lo <= x / n as real
  {
  }

  /** Readings that are all zero sum to zero. */
  lemma {:induction false} SumOfZeros(s: seq<real>)
    requires forall i :: 0 <= i < |s| ==> s[i] == 0.0
    ensures Sum(s) == 0.0
  {
    if |s| > 0 {
      SumOfZeros(s[1..]);
    }
  }

  /** Max is fixed by its two defining properties: any reading that no
      reading exceeds is the maximum. */
  lemma MaxCharacterised(s: seq<real>, m: real)
    requires m in s && forall i :: 0 <= i < |s| ==> s[i] <= m
    ensures Max(s) == m
  {
    MaxIsReading(s);
  }
}

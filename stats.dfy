/**
 * The Distance-From-Unimodality scan of src/tasks/stats.py, on histogram
 * input. From the first position of the maximum, the scan finds the largest
 * rise to the right of the peak and the largest rise towards the peak from
 * its left; with every bin non-increasing away from the peak the score is 0.
 */
module Stats {
  import opened Wrappers

  /** The builtin `max`: the first element, replaced by each later one that is strictly larger. */
  function MaxOf(h: seq<real>): (m: real)
    requires h != []
    ensures m in h
    ensures forall i | 0 <= i < |h| :: h[i] <= m
  {
    if |h| == 1 then h[0]
    else
      var m := MaxOf(h[..|h| - 1]);
      assert h[..|h| - 1] <= h;
      if h[|h| - 1] > m then h[|h| - 1] else m
  }

  /** `np.where(hist == value)[0][0]`: the first index holding `value`. */
  function FirstIndex(h: seq<real>, value: real): (p: nat)
    requires value in h
    ensures p < |h| && h[p] == value
    ensures forall j | 0 <= j < p :: h[j] != value
  {
    if h[0] == value then 0
    else
      assert value in h[1..];
      1 + FirstIndex(h[1..], value)
  }

  /** `pos_max`. */
  function PeakOf(h: seq<real>): (p: nat)
    requires h != []
    ensures p < |h| && h[p] == MaxOf(h)
    ensures forall j | 0 <= j < p :: h[j] < h[p]
  {
    FirstIndex(h, MaxOf(h))
  }

  /** One comparison of either loop: `diff` replaces `maxDiff` when strictly larger. */
  function StepMax(maxDiff: real, diff: real): real {
    if diff > maxDiff then diff else maxDiff
  }

  /** The difference the right search compares at index `i`. */
  function Rise(h: seq<real>, i: nat): real
    requires i + 1 < |h|
  {
    h[i + 1] - h[i]
  }

  /** The difference the left search compares at index `i`. */
  function Fall(h: seq<real>, i: nat): real
    requires 0 < i < |h|
  {
    h[i - 1] - h[i]
  }

  /** `max_diff` after the right search has handled indices `p` to `k - 1`. */
  function RightDip(h: seq<real>, p: nat, k: nat): real
    requires p <= k < |h|
  {
    if k == p then 0.0 else StepMax(RightDip(h, p, k - 1), Rise(h, k - 1))
  }

  /** `max_diff` after the left search has handled indices `i` down to 1, starting from `acc`. */
  function Descend(h: seq<real>, acc: real, i: nat): real
    requires i < |h|
    decreases i
  {
    if i == 0 then acc else Descend(h, StepMax(acc, Fall(h, i)), i - 1)
  }

  /** The unnormalised score of a non-empty histogram. */
  function Dfu(h: seq<real>): real
    requires h != []
  {
    var p := PeakOf(h);
    Descend(h, RightDip(h, p, |h| - 1), p)
  }

  /** Non-decreasing up to the first peak and non-increasing after it. */
  predicate Unimodal(h: seq<real>)
    requires h != []
  {
    var p := PeakOf(h);
    && (forall i | 0 < i <= p :: h[i - 1] <= h[i])
    && (forall i | p <= i < |h| - 1 :: h[i + 1] <= h[i])
  }

  /** The right search is at least 0 and every rise it saw, and is 0 or one of them. */
  lemma {:induction false} RightDipBounds(h: seq<real>, p: nat, k: nat)
    requires p <= k < |h|
    ensures RightDip(h, p, k) >= 0.0
    ensures forall i | p <= i < k :: RightDip(h, p, k) >= Rise(h, i)
    ensures RightDip(h, p, k) == 0.0 || exists i | p <= i < k :: RightDip(h, p, k) == Rise(h, i)
  {
    if k > p {
      RightDipBounds(h, p, k - 1);
      var r := RightDip(h, p, k - 1);
      if Rise(h, k - 1) <= r && r != 0.0 {
        var i :| p <= i < k - 1 && r == Rise(h, i);
        assert RightDip(h, p, k) == Rise(h, i);
      }
    }
  }

  /** The left search keeps at least `acc` and every rise it saw, and ends at `acc` or one of them. */
  lemma {:induction false} DescendBounds(h: seq<real>, acc: real, i: nat)
    requires i < |h|
    decreases i
    ensures Descend(h, acc, i) >= acc
    ensures forall j | 0 < j <= i :: Descend(h, acc, i) >= Fall(h, j)
    ensures Descend(h, acc, i) == acc || exists j | 0 < j <= i :: Descend(h, acc, i) == Fall(h, j)
  {
    if i > 0 {
      var next := StepMax(acc, Fall(h, i));
      DescendBounds(h, next, i - 1);
      var r := Descend(h, next, i - 1);
      assert Descend(h, acc, i) == r;
      if r != acc && r == next {
        assert r == Fall(h, i);
      } else if r != acc {
        var j :| 0 < j <= i - 1 && r == Fall(h, j);
        assert 0 < j <= i;
      }
    }
  }

  /**
   * The score is at least 0, at least every rise right of the peak and every
   * rise towards the peak from its left, and equal to 0 or to one of them: its
   * exact maximum.
   */
  lemma DfuIsMaxRise(h: seq<real>)
    requires h != []
    ensures var p := PeakOf(h);
      var d := Dfu(h);
      && d >= 0.0
      && (forall i | p <= i < |h| - 1 :: d >= Rise(h, i))
      && (forall i | 0 < i <= p :: d >= Fall(h, i))
      && (d == 0.0
          || (exists i | p <= i < |h| - 1 :: d == Rise(h, i))
          || (exists i | 0 < i <= p :: d == Fall(h, i)))
  {
    var p := PeakOf(h);
    RightDipBounds(h, p, |h| - 1);
    DescendBounds(h, RightDip(h, p, |h| - 1), p);
  }

  /** The score is 0 exactly when the histogram is unimodal around its first peak. */
  lemma DfuZeroIffUnimodal(h: seq<real>)
    requires h != []
    ensures Dfu(h) == 0.0 <==> Unimodal(h)
  {
    DfuIsMaxRise(h);
    var p := PeakOf(h);
    var d := Dfu(h);
    if d == 0.0 {
      forall i | 0 < i <= p
        ensures h[i - 1] <= h[i]
      {
        assert Fall(h, i) <= d;
      }
      forall i | p <= i < |h| - 1
        ensures h[i + 1] <= h[i]
      {
        assert Rise(h, i) <= d;
      }
    }
    if Unimodal(h) {
      assert forall i | p <= i < |h| - 1 :: Rise(h, i) <= 0.0;
      assert forall i | 0 < i <= p :: Fall(h, i) <= 0.0;
    }
  }

  /** Bins within [0, m] make every rise at most m, so the right search stays at most m. */
  lemma {:induction false} RightDipAtMost(h: seq<real>, p: nat, k: nat, m: real)
    requires p <= k < |h| && m >= 0.0
    requires forall i | 0 <= i < |h| :: 0.0 <= h[i] <= m
    ensures RightDip(h, p, k) <= m
  {
    if k > p {
      RightDipAtMost(h, p, k - 1, m);
    }
  }

  /** Likewise for the left search, started from at most m. */
  lemma {:induction false} DescendAtMost(h: seq<real>, acc: real, i: nat, m: real)
    requires i < |h| && acc <= m
    requires forall j | 0 <= j < |h| :: 0.0 <= h[j] <= m
    decreases i
    ensures Descend(h, acc, i) <= m
  {
    if i > 0 {
      DescendAtMost(h, StepMax(acc, Fall(h, i)), i - 1, m);
    }
  }

  /** With non-negative bins and a positive maximum, the normalised score lies in [0, 1]. */
  lemma NormalisedInUnit(h: seq<real>)
    requires h != [] && MaxOf(h) > 0.0
    requires forall i | 0 <= i < |h| :: h[i] >= 0.0
    ensures 0.0 <= Dfu(h) / MaxOf(h) <= 1.0
  {
    var m := MaxOf(h);
    var p := PeakOf(h);
    RightDipBounds(h, p, |h| - 1);
    RightDipAtMost(h, p, |h| - 1, m);
    DescendBounds(h, RightDip(h, p, |h| - 1), p);
    DescendAtMost(h, RightDip(h, p, |h| - 1), p, m);
    RatioInUnit(Dfu(h), m);
  }

  /** Division by a positive maximum maps [0, m] into [0, 1]; kept apart so the real division is argued in a small context. */
  lemma RatioInUnit(d: real, m: real)
    requires 0.0 <= d <= m && m > 0.0
    ensures 0.0 <= d / m <= 1.0
  {
  }

  /**
   * Why `ndfu` yields no number: `max` of an empty histogram fails, and
   * normalising by a zero maximum gives no finite score.
   */
  datatype NdfuError = EmptyHistogram | ZeroMaximum

  /** `ndfu(hist, histogram_input=True, normalised)`: the two scans, then the optional division. */
  method Ndfu(hist: seq<real>, normalised: bool) returns (r: Result<real, NdfuError>)
    ensures hist == [] ==> r == Failure(EmptyHistogram)
    ensures hist != [] && normalised && MaxOf(hist) == 0.0 ==> r == Failure(ZeroMaximum)
    ensures r.Success? <==> hist != [] && (normalised ==> MaxOf(hist) != 0.0)
    ensures r.Success? && normalised ==> r.value == Dfu(hist) / MaxOf(hist)
    ensures r.Success? && !normalised ==> r.value == Dfu(hist)
  {
    if hist == [] {
      return Failure(EmptyHistogram);
    }
    var maxValue := MaxOf(hist);
    var posMax := FirstIndex(hist, maxValue);
    var maxDiff := 0.0;
    var i := posMax;
    while i < |hist| - 1
      invariant posMax <= i <= |hist| - 1
      invariant maxDiff == RightDip(hist, posMax, i)
    {
      var diff := hist[i + 1] - hist[i];
      if diff > maxDiff {
        maxDiff := diff;
      }
      i := i + 1;
    }
    ghost var right := maxDiff;
    i := posMax;
    while i > 0
      invariant 0 <= i <= posMax
      invariant Descend(hist, maxDiff, i) == Descend(hist, right, posMax)
    {
      var diff := hist[i - 1] - hist[i];
      if diff > maxDiff {
        maxDiff := diff;
      }
      i := i - 1;
    }
    if normalised {
      if maxValue == 0.0 {
        return Failure(ZeroMaximum);
      }
      return Success(maxDiff / maxValue);
    }
    return Success(maxDiff);
  }
}

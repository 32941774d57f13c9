/**
 * The pandas column operations the indicators are built from, over `real` values with
 * `None` standing for NaN: sums and means, minimum and maximum, and `rolling(w)` windows
 * (a window is undefined until it holds `w` values, and a mean over a window holding NaN
 * is NaN).
 */
module Series {
  import opened Wrappers

  function Sum(xs: seq<real>): real
  {
    if xs == [] then 0.0 else Sum(xs[..|xs| - 1]) + xs[|xs| - 1]
  }

  /** `Series.mean()` of a column without NaN. */
  function Mean(xs: seq<real>): real
    requires xs != []
  {
    Sum(xs) / |xs| as real
  }

  function Min(xs: seq<real>): (m: real)
    requires xs != []
    ensures m in xs
    ensures forall i :: 0 <= i < |xs| ==> m <= xs[i]
  {
    if |xs| == 1 then xs[0]
    else
      var rest := Min(xs[..|xs| - 1]);
      assert forall i :: 0 <= i < |xs| - 1 ==> xs[..|xs| - 1][i] == xs[i];
      if xs[|xs| - 1] < rest then xs[|xs| - 1] else rest
  }

  function Max(xs: seq<real>): (m: real)
    requires xs != []
    ensures m in xs
    ensures forall i :: 0 <= i < |xs| ==> xs[i] <= m
  {
    if |xs| == 1 then xs[0]
    else
      var rest := Max(xs[..|xs| - 1]);
      assert forall i :: 0 <= i < |xs| - 1 ==> xs[..|xs| - 1][i] == xs[i];
      if xs[|xs| - 1] > rest then xs[|xs| - 1] else rest
  }

  /** A column without NaN, lifted into the optional form. */
  function Defined(xs: seq<real>): (r: seq<Option<real>>)
    ensures |r| == |xs|
    ensures forall i :: 0 <= i < |xs| ==> r[i] == Some(xs[i])
  {
    seq(|xs|, i requires 0 <= i < |xs| => Some(xs[i]))
  }

  /** The values of a window when none of them is NaN. */
  function AllDefined(xs: seq<Option<real>>): (r: Option<seq<real>>)
    ensures r.Some? <==> forall i :: 0 <= i < |xs| ==> xs[i].Some?
    ensures r.Some? ==> |r.value| == |xs| && forall i :: 0 <= i < |xs| ==> r.value[i] == xs[i].value
  {
    if xs == [] then Some([])
    else
      match AllDefined(xs[..|xs| - 1])
      case None =>
        assert forall i :: 0 <= i < |xs| - 1 ==> xs[..|xs| - 1][i] == xs[i];
        None
      case Some(front) =>
        if xs[|xs| - 1].None? then None else Some(front + [xs[|xs| - 1].value])
  }

  /** `rolling(w).mean()`: defined from index w-1 on, and only where the whole window is defined. */
  function RollingMean(xs: seq<Option<real>>, w: nat): (r: seq<Option<real>>)
    requires w >= 1
    ensures |r| == |xs|
  {
    seq(|xs|, i requires 0 <= i < |xs| =>
      if i < w - 1 then None
      else match AllDefined(xs[i - w + 1 .. i + 1])
           case None => None
           case Some(window) => Some(Mean(window)))
  }

  /** `rolling(w).min()` over a column without NaN. */
  function RollingMin(xs: seq<real>, w: nat): (r: seq<Option<real>>)
    requires w >= 1
    ensures |r| == |xs|
  {
    seq(|xs|, i requires 0 <= i < |xs| => if i < w - 1 then None else Some(Min(xs[i - w + 1 .. i + 1])))
  }

  /** `rolling(w).max()` over a column without NaN. */
  function RollingMax(xs: seq<real>, w: nat): (r: seq<Option<real>>)
    requires w >= 1
    ensures |r| == |xs|
  {
    seq(|xs|, i requires 0 <= i < |xs| => if i < w - 1 then None else Some(Max(xs[i - w + 1 .. i + 1])))
  }

  /** A filled window of `rolling(w).min()` and `rolling(w).max()`. */
  lemma RollingExtremesAt(xs: seq<real>, w: nat, i: nat)
    requires w >= 1 && w - 1 <= i < |xs|
    ensures RollingMin(xs, w)[i] == Some(Min(xs[i - w + 1 .. i + 1]))
    ensures RollingMax(xs, w)[i] == Some(Max(xs[i - w + 1 .. i + 1]))
  {
  }

  /** A sum of values that all lie in [lo, hi] lies in [n*lo, n*hi]. */
  lemma {:induction false} SumBounds(xs: seq<real>, lo: real, hi: real)
    requires forall i :: 0 <= i < |xs| ==> lo <= xs[i] <= hi
    ensures |xs| as real * lo <= Sum(xs) <= |xs| as real * hi
  {
    if xs != [] {
      var front, last := xs[..|xs| - 1], xs[|xs| - 1];
      assert forall i :: 0 <= i < |front| ==> front[i] == xs[i];
      SumBounds(front, lo, hi);
      var n := |front| as real;
      assert |xs| as real == n + 1.0;
      assert Sum(xs) == Sum(front) + last;
      StepBounds(n, Sum(front), last, lo, hi);
    }
  }

  /** One more value within [lo, hi] moves the bounds up by one step each. */
  lemma StepBounds(n: real, s: real, x: real, lo: real, hi: real)
    requires n * lo <= s <= n * hi && lo <= x <= hi
    ensures (n + 1.0) * lo <= s + x <= (n + 1.0) * hi
  {
    AddOne(n, lo);
    AddOne(n, hi);
  }

  lemma AddOne(n: real, x: real)
    ensures (n + 1.0) * x == n * x + x
  {
  }

  /** Dividing a bound on n*a by a positive n. */
  lemma DivideBound(s: real, n: real, lo: real, hi: real)
    requires n > 0.0 && n * lo <= s <= n * hi
    ensures lo <= s / n <= hi
  {
  }

  /** A mean lies between the smallest and the largest value it averages. */
  lemma MeanBetween(xs: seq<real>)
    requires xs != []
    ensures Min(xs) <= Mean(xs) <= Max(xs)
  {
    var lo, hi, n := Min(xs), Max(xs), |xs| as real;
    SumBounds(xs, lo, hi);
    DivideBound(Sum(xs), n, lo, hi);
    assert Mean(xs) == Sum(xs) / n;
  }

  /**
   * A rolling mean over a column without NaN is undefined exactly before index w-1 and
   * elsewhere lies between the smallest and largest of the last w values.
   */
  lemma RollingMeanOfDefined(xs: seq<real>, w: nat, i: nat)
    requires w >= 1 && i < |xs|
    ensures RollingMean(Defined(xs), w)[i].None? <==> i < w - 1
    ensures i >= w - 1 ==>
      RollingMean(Defined(xs), w)[i] == Some(Mean(xs[i - w + 1 .. i + 1])) &&
      Min(xs[i - w + 1 .. i + 1]) <= RollingMean(Defined(xs), w)[i].value <= Max(xs[i - w + 1 .. i + 1])
  {
    if i >= w - 1 {
      DefinedWindow(xs, i - w + 1, i + 1);
      WindowMean(Defined(xs), w, i, xs[i - w + 1 .. i + 1]);
      MeanBetween(xs[i - w + 1 .. i + 1]);
    }
  }

  /** Where the window at i is fully defined, the rolling mean is its mean. */
  lemma WindowMean(xs: seq<Option<real>>, w: nat, i: nat, window: seq<real>)
    requires w >= 1 && w - 1 <= i < |xs|
    requires AllDefined(xs[i - w + 1 .. i + 1]) == Some(window)
    ensures window != [] && RollingMean(xs, w)[i] == Some(Mean(window))
  {
  }

  /** A window of a column without NaN has all its values. */
  lemma DefinedWindow(xs: seq<real>, lo: nat, hi: nat)
    requires lo <= hi <= |xs|
    ensures AllDefined(Defined(xs)[lo..hi]) == Some(xs[lo..hi])
  {
    var lifted, window := Defined(xs)[lo..hi], xs[lo..hi];
    assert forall j :: 0 <= j < |lifted| ==> lifted[j] == Some(window[j]);
    assert AllDefined(lifted).value == window;
  }

  /** A rolling mean at i is NaN whenever some value of its window is NaN. */
  lemma RollingMeanNaN(xs: seq<Option<real>>, w: nat, i: nat, j: nat)
    requires w >= 1 && i < |xs| && i - w + 1 <= j <= i && xs[j].None?
    ensures RollingMean(xs, w)[i].None?
  {
    if i >= w - 1 {
      assert xs[i - w + 1 .. i + 1][j - (i - w + 1)] == xs[j];
    }
  }
}

/**
 * The indicator battery and the signal rules: EMA, Heikin-Ashi, true range and ATR, the
 * Alligator lines, the stochastic oscillator, the two-bar engulfing patterns, the
 * multi-timeframe confirmation and the composite buy/sell rule. A candle frame is a
 * sequence of bars, prices are reals and pandas NaN is `None`.
 */
module Strategy {
  import opened Wrappers
  import opened Series

  /** The columns of a candle frame the indicators read. */
  datatype Bar = Bar(open: real, high: real, low: real, close: real)

  function Opens(df: seq<Bar>): (r: seq<real>)
    ensures |r| == |df| && forall i :: 0 <= i < |df| ==> r[i] == df[i].open
  {
    seq(|df|, i requires 0 <= i < |df| => df[i].open)
  }

  function Highs(df: seq<Bar>): (r: seq<real>)
    ensures |r| == |df| && forall i :: 0 <= i < |df| ==> r[i] == df[i].high
  {
    seq(|df|, i requires 0 <= i < |df| => df[i].high)
  }

  function Lows(df: seq<Bar>): (r: seq<real>)
    ensures |r| == |df| && forall i :: 0 <= i < |df| ==> r[i] == df[i].low
  {
    seq(|df|, i requires 0 <= i < |df| => df[i].low)
  }

  function Closes(df: seq<Bar>): (r: seq<real>)
    ensures |r| == |df| && forall i :: 0 <= i < |df| ==> r[i] == df[i].close
  {
    seq(|df|, i requires 0 <= i < |df| => df[i].close)
  }

  function Abs(x: real): real
  {
    if x < 0.0 then -x else x
  }

  function Max3(a: real, b: real, c: real): real
  {
    if a >= b && a >= c then a else if b >= c then b else c
  }

  function Min3(a: real, b: real, c: real): real
  {
    if a <= b && a <= c then a else if b <= c then b else c
  }

  // ---------------------------------------------------------------- EMA

  /** The smoothing factor `2 / (period + 1)`; period -1 divides by zero. */
  function Smoothing(period: int): real
    requires period != -1
  {
    2.0 / (period + 1) as real
  }

  /** One step of the average: `price * k + previous * (1 - k)`. */
  function EmaStep(price: real, previous: real, k: real): real
  {
    price * k + previous * (1.0 - k)
  }

  /**
   * The exponential moving average with factor k, seeded with the first price. This is
   * both `calculate_ema` and pandas' `ewm(span=s, adjust=False).mean()` with k = 2/(s+1).
   */
  function EmaOf(prices: seq<real>, k: real): (r: seq<real>)
    ensures |r| == |prices|
  {
    if prices == [] then []
    else if |prices| == 1 then [prices[0]]
    else
      var e := EmaOf(prices[..|prices| - 1], k);
      e + [EmaStep(prices[|prices| - 1], e[|e| - 1], k)]
  }

  /**
   * `calculate_ema(prices, period)`: the loop that appends one average per price. Period -1
   * makes `2 / (period + 1)` raise ZeroDivisionError before the loop, even for no prices (None).
   */
  method CalculateEma(prices: seq<real>, period: int) returns (r: Option<seq<real>>)
    ensures r.None? <==> period == -1
    ensures r.Some? ==> r.value == EmaOf(prices, Smoothing(period)) && |r.value| == |prices|
    ensures r.Some? && period >= 1 ==>
      forall i :: 0 <= i < |prices| ==> Min(prices[..i + 1]) <= r.value[i] <= Max(prices[..i + 1])
  {
    if period == -1 {
      return None;
    }
    var k := Smoothing(period);
    var emas := [];
    var i := 0;
    while i < |prices|
      invariant 0 <= i <= |prices|
      invariant emas == EmaOf(prices[..i], k)
    {
      ghost var next := prices[..i + 1];
      assert next[..i] == prices[..i];
      if i == 0 {
        emas := emas + [prices[i]];
      } else {
        EmaSnoc(next, k);
        var ema := EmaStep(prices[i], emas[|emas| - 1], k);
        emas := emas + [ema];
      }
      i := i + 1;
    }
    assert prices[..i] == prices;
    if period >= 1 {
      SmoothingInUnit(period);
      EmaBoundedAll(prices, k);
    }
    r := Some(emas);
  }


  /** One more price appends one more average. */
  lemma EmaSnoc(prices: seq<real>, k: real)
    requires |prices| > 1
    ensures var e := EmaOf(prices[..|prices| - 1], k);
      EmaOf(prices, k) == e + [EmaStep(prices[|prices| - 1], e[|e| - 1], k)]
  {
  }

  lemma SmoothingInUnit(period: int)
    requires period >= 1
    ensures 0.0 < Smoothing(period) <= 1.0
  {
  }

  /** The average of a prefix is the prefix of the average. */
  lemma {:induction false} EmaPrefix(prices: seq<real>, k: real, j: nat)
    requires j <= |prices|
    ensures EmaOf(prices[..j], k) == EmaOf(prices, k)[..j]
    decreases |prices|
  {
    if j < |prices| {
      var front := prices[..|prices| - 1];
      assert front[..j] == prices[..j];
      EmaPrefix(front, k, j);
      if |prices| > 1 {
        EmaSnoc(prices, k);
      }
    } else {
      assert prices[..j] == prices;
    }
  }

  /** Element 0 is the first price; every later element is price*k + previous*(1-k). */
  lemma EmaRecurrence(prices: seq<real>, k: real, i: nat)
    requires i < |prices|
    ensures i == 0 ==> EmaOf(prices, k)[0] == prices[0]
    ensures i > 0 ==> EmaOf(prices, k)[i] == EmaStep(prices[i], EmaOf(prices, k)[i - 1], k)
  {
    EmaPrefix(prices, k, i + 1);
    var p := prices[..i + 1];
    assert p[..i] == prices[..i];
    if i > 0 {
      EmaPrefix(prices, k, i);
      EmaSnoc(p, k);
    } else {
      assert p == [prices[0]];
    }
  }

  lemma ProductNonNegative(a: real, b: real)
    requires a >= 0.0 && b >= 0.0
    ensures a * b >= 0.0
  {
  }

  /** A weighted mean of two values in [lo, hi] stays in [lo, hi]. */
  lemma ConvexStep(p: real, e: real, k: real, lo: real, hi: real)
    requires 0.0 <= k <= 1.0 && lo <= p <= hi && lo <= e <= hi
    ensures lo <= EmaStep(p, e, k) <= hi
  {
    var j := 1.0 - k;
    ProductNonNegative(p - lo, k);
    ProductNonNegative(e - lo, j);
    ProductNonNegative(hi - p, k);
    ProductNonNegative(hi - e, j);
    assert p * k + e * j - lo == (p - lo) * k + (e - lo) * j;
    assert hi - (p * k + e * j) == (hi - p) * k + (hi - e) * j;
  }

  /** With 0 <= k <= 1 every average lies between the smallest and largest price seen so far. */
  lemma {:induction false} EmaBounded(prices: seq<real>, k: real, i: nat)
    requires 0.0 <= k <= 1.0 && i < |prices|
    ensures Min(prices[..i + 1]) <= EmaOf(prices, k)[i] <= Max(prices[..i + 1])
  {
    EmaRecurrence(prices, k, i);
    var seen := prices[..i + 1];
    if i == 0 {
      assert seen == [prices[0]];
    } else {
      EmaBounded(prices, k, i - 1);
      PrefixExtremes(prices, i);
      assert seen[i] == prices[i];
      ConvexStep(prices[i], EmaOf(prices, k)[i - 1], k, Min(seen), Max(seen));
    }
  }

  /** Extending a prefix can only lower its minimum and raise its maximum. */
  lemma PrefixExtremes(xs: seq<real>, i: nat)
    requires 0 < i < |xs|
    ensures Min(xs[..i + 1]) <= Min(xs[..i]) && Max(xs[..i]) <= Max(xs[..i + 1])
  {
    var seen, before := xs[..i + 1], xs[..i];
    assert forall j :: 0 <= j < i ==> before[j] == seen[j];
    assert Min(before) in before && Max(before) in before;
  }

  lemma EmaBoundedAll(prices: seq<real>, k: real)
    requires 0.0 <= k <= 1.0
    ensures forall i :: 0 <= i < |prices| ==> Min(prices[..i + 1]) <= EmaOf(prices, k)[i] <= Max(prices[..i + 1])
  {
    forall i | 0 <= i < |prices|
      ensures Min(prices[..i + 1]) <= EmaOf(prices, k)[i] <= Max(prices[..i + 1])
    {
      EmaBounded(prices, k, i);
    }
  }

  // ---------------------------------------------------------------- Heikin-Ashi

  /**
   * Row i of `heikin_ashi(df)`: close is the mean of the raw OHLC, open averages the RAW
   * open and close of the previous bar (row 0 keeps its raw open), high and low widen the
   * raw ones to cover the new open and close.
   */
  function HaBar(df: seq<Bar>, i: nat): Bar
    requires i < |df|
  {
    var close := (df[i].open + df[i].high + df[i].low + df[i].close) / 4.0;
    var open := if i == 0 then df[0].open else (df[i - 1].open + df[i - 1].close) / 2.0;
    Bar(open, Max3(open, close, df[i].high), Min3(open, close, df[i].low), close)
  }

  /** `heikin_ashi(df)`: raises on an empty frame (`iloc[0]`). */
  function HeikinAshi(df: seq<Bar>): (ha: seq<Bar>)
    requires |df| >= 1
    ensures |ha| == |df|
    ensures forall i :: 0 <= i < |df| ==> ha[i] == HaBar(df, i)
  {
    seq(|df|, i requires 0 <= i < |df| => HaBar(df, i))
  }

  /** The column formulas of the transform, and its bars are always well-formed candles. */
  lemma HeikinAshiShape(df: seq<Bar>, i: nat)
    requires i < |df|
    ensures HeikinAshi(df)[i].close == (df[i].open + df[i].high + df[i].low + df[i].close) / 4.0
    ensures i == 0 ==> HeikinAshi(df)[i].open == df[0].open
    ensures i > 0 ==> HeikinAshi(df)[i].open == (df[i - 1].open + df[i - 1].close) / 2.0
    ensures HeikinAshi(df)[i].high >= HeikinAshi(df)[i].open && HeikinAshi(df)[i].high >= HeikinAshi(df)[i].close
    ensures HeikinAshi(df)[i].high >= df[i].high
    ensures HeikinAshi(df)[i].low <= HeikinAshi(df)[i].open && HeikinAshi(df)[i].low <= HeikinAshi(df)[i].close
    ensures HeikinAshi(df)[i].low <= df[i].low
  {
  }

  /** Every bar has its low at or below its open and close and its high at or above them. */
  ghost predicate WellFormed(df: seq<Bar>)
  {
    forall i :: 0 <= i < |df| ==>
      df[i].low <= df[i].open <= df[i].high && df[i].low <= df[i].close <= df[i].high
  }

  lemma HeikinAshiWellFormed(df: seq<Bar>)
    requires |df| >= 1
    ensures WellFormed(HeikinAshi(df))
  {
    forall i | 0 <= i < |df|
      ensures HeikinAshi(df)[i].low <= HeikinAshi(df)[i].open <= HeikinAshi(df)[i].high
      ensures HeikinAshi(df)[i].low <= HeikinAshi(df)[i].close <= HeikinAshi(df)[i].high
    {
      HeikinAshiShape(df, i);
    }
  }

  /**
   * The open of bar 1 comes from the raw bar 0, not from the Heikin-Ashi bar 0: on this
   * frame the chained definition (mean of the previous HA open and close) gives 1.5, the
   * transform gives 2.
   */
  lemma HeikinAshiOpenIsNotChained()
    ensures var df := [Bar(1.0, 4.0, 0.0, 3.0), Bar(2.0, 2.0, 2.0, 2.0)];
            var ha := HeikinAshi(df);
            ha[1].open == 2.0 && (ha[0].open + ha[0].close) / 2.0 == 1.5
  {
    var df := [Bar(1.0, 4.0, 0.0, 3.0), Bar(2.0, 2.0, 2.0, 2.0)];
    assert HeikinAshi(df)[0] == HaBar(df, 0);
    assert HeikinAshi(df)[1] == HaBar(df, 1);
  }

  // ---------------------------------------------------------------- ATR

  /**
   * The true range column. pandas' row-wise max skips NaN, so the first row (which has no
   * previous close) is just high - low.
   */
  function TrueRange(df: seq<Bar>): (tr: seq<real>)
    ensures |tr| == |df|
  {
    seq(|df|, i requires 0 <= i < |df| =>
      if i == 0 then df[0].high - df[0].low
      else Max3(df[i].high - df[i].low, Abs(df[i].high - df[i - 1].close), Abs(df[i].low - df[i - 1].close)))
  }

  /** `calculate_atr(df, period)`: the simple rolling mean of the true range. */
  function Atr(df: seq<Bar>, period: nat): (atr: seq<Option<real>>)
    requires period >= 1
    ensures |atr| == |df|
  {
    RollingMean(Defined(TrueRange(df)), period)
  }

  /** After the first bar the true range is the largest of its three candidates, so never negative. */
  lemma TrueRangeAt(df: seq<Bar>, i: nat)
    requires i < |df|
    ensures i == 0 ==> TrueRange(df)[0] == df[0].high - df[0].low
    ensures i > 0 ==>
      var tr := TrueRange(df)[i];
      && tr >= df[i].high - df[i].low
      && tr >= Abs(df[i].high - df[i - 1].close)
      && tr >= Abs(df[i].low - df[i - 1].close)
      && (tr == df[i].high - df[i].low || tr == Abs(df[i].high - df[i - 1].close) || tr == Abs(df[i].low - df[i - 1].close))
      && tr >= 0.0
  {
  }

  /**
   * The ATR is undefined before index period-1, and is never negative once its window no
   * longer reaches back to the first bar.
   */
  lemma AtrAt(df: seq<Bar>, period: nat, i: nat)
    requires period >= 1 && i < |df|
    ensures Atr(df, period)[i].None? <==> i < period - 1
    ensures i >= period ==> Atr(df, period)[i].value >= 0.0
  {
    var tr := TrueRange(df);
    RollingMeanOfDefined(tr, period, i);
    if i >= period {
      var window := tr[i - period + 1 .. i + 1];
      forall j | 0 <= j < |window| ensures window[j] >= 0.0 {
        TrueRangeNonNegative(df, i - period + 1 + j);
      }
      assert Min(window) in window;
    }
  }

  lemma TrueRangeNonNegative(df: seq<Bar>, i: nat)
    requires 1 <= i < |df|
    ensures TrueRange(df)[i] >= 0.0
  {
    TrueRangeAt(df, i);
  }

  // ---------------------------------------------------------------- Alligator

  /** The median price `(high + low) / 2`. */
  function Medians(df: seq<Bar>): (r: seq<real>)
    ensures |r| == |df|
  {
    seq(|df|, i requires 0 <= i < |df| => (df[i].high + df[i].low) / 2.0)
  }

  /** The Alligator's three lines. */
  datatype Alligator = Alligator(jaw: seq<Option<real>>, teeth: seq<Option<real>>, lips: seq<Option<real>>)

  /** `calculate_alligator(df, jaw, teeth, lips)`: simple rolling means of the median price. */
  function CalculateAlligator(df: seq<Bar>, jaw: nat, teeth: nat, lips: nat): (a: Alligator)
    requires jaw >= 1 && teeth >= 1 && lips >= 1
    ensures |a.jaw| == |df| && |a.teeth| == |df| && |a.lips| == |df|
  {
    var median := Defined(Medians(df));
    Alligator(RollingMean(median, jaw), RollingMean(median, teeth), RollingMean(median, lips))
  }

  /**
   * A rolling mean of w values of a NaN-free column at i: undefined exactly before the window
   * fills, and then the mean of the last w values, which lies between their minimum and maximum.
   */
  predicate WindowMeanAt(line: seq<Option<real>>, xs: seq<real>, w: nat, i: nat)
    requires w >= 1 && i < |line| && |line| == |xs|
  {
    && (line[i].None? <==> i < w - 1)
    && (i >= w - 1 ==>
          var window := xs[i - w + 1 .. i + 1];
          line[i] == Some(Mean(window)) && Min(window) <= line[i].value <= Max(window))
  }

  /** Each of the three lines is the rolling mean of the median price over its own window. */
  lemma AlligatorLine(df: seq<Bar>, jaw: nat, teeth: nat, lips: nat, i: nat)
    requires jaw >= 1 && teeth >= 1 && lips >= 1 && i < |df|
    ensures var a := CalculateAlligator(df, jaw, teeth, lips);
      && WindowMeanAt(a.jaw, Medians(df), jaw, i)
      && WindowMeanAt(a.teeth, Medians(df), teeth, i)
      && WindowMeanAt(a.lips, Medians(df), lips, i)
  {
    RollingMeanOfDefined(Medians(df), jaw, i);
    RollingMeanOfDefined(Medians(df), teeth, i);
    RollingMeanOfDefined(Medians(df), lips, i);
  }

  // ---------------------------------------------------------------- Stochastic

  /** %K: `100 * (close - lowest low) / (highest high - lowest low)`, NaN when the range is 0. */
  function PercentK(df: seq<Bar>, kPeriod: nat): (k: seq<Option<real>>)
    requires kPeriod >= 1
    ensures |k| == |df|
  {
    var lowMin := RollingMin(Lows(df), kPeriod);
    var highMax := RollingMax(Highs(df), kPeriod);
    seq(|df|, i requires 0 <= i < |df| =>
      if lowMin[i].None? || highMax[i].None? then None
      else if highMax[i].value - lowMin[i].value == 0.0 then None
      else Some(Percent(df[i].close, lowMin[i].value, highMax[i].value)))
  }

  /** Where `close` sits in [lo, hi], in percent. */
  function Percent(close: real, lo: real, hi: real): real
    requires hi - lo != 0.0
  {
    100.0 * (close - lo) / (hi - lo)
  }

  datatype Oscillator = Oscillator(k: seq<Option<real>>, d: seq<Option<real>>)

  /** `stochastic_oscillator(df, k_period, d_period)`: %K and its rolling mean %D; no epsilon guard. */
  function StochasticOscillator(df: seq<Bar>, kPeriod: nat, dPeriod: nat): (s: Oscillator)
    requires kPeriod >= 1 && dPeriod >= 1
    ensures |s.k| == |df| && |s.d| == |df|
  {
    var k := PercentK(df, kPeriod);
    Oscillator(k, RollingMean(k, dPeriod))
  }

  lemma PercentOf(close: real, lo: real, hi: real)
    requires lo <= close <= hi && hi - lo > 0.0
    ensures 0.0 <= Percent(close, lo, hi) <= 100.0
  {
    var a, b := close - lo, hi - lo;
    assert 100.0 * a <= 100.0 * b;
    DivideBound(100.0 * a, b, 0.0, 100.0);
  }

  /** %K at a filled window, in terms of the window's lowest low and highest high. */
  lemma PercentKValue(df: seq<Bar>, kPeriod: nat, i: nat)
    requires kPeriod >= 1 && kPeriod - 1 <= i < |df|
    ensures var lo := Min(Lows(df)[i - kPeriod + 1 .. i + 1]);
      var hi := Max(Highs(df)[i - kPeriod + 1 .. i + 1]);
      PercentK(df, kPeriod)[i] == if hi - lo == 0.0 then None else Some(Percent(df[i].close, lo, hi))
  {
    RollingExtremesAt(Lows(df), kPeriod, i);
    RollingExtremesAt(Highs(df), kPeriod, i);
  }

  /** The window's lowest low and highest high enclose the close of its last bar. */
  lemma WindowEnclosesClose(df: seq<Bar>, kPeriod: nat, i: nat)
    requires kPeriod >= 1 && kPeriod - 1 <= i < |df|
    requires df[i].low <= df[i].close <= df[i].high
    ensures Min(Lows(df)[i - kPeriod + 1 .. i + 1]) <= df[i].close <= Max(Highs(df)[i - kPeriod + 1 .. i + 1])
  {
    var lows := Lows(df)[i - kPeriod + 1 .. i + 1];
    var highs := Highs(df)[i - kPeriod + 1 .. i + 1];
    assert lows[kPeriod - 1] == df[i].low;
    assert highs[kPeriod - 1] == df[i].high;
  }

  /**
   * On a well-formed frame (a Heikin-Ashi frame is one) %K at i is undefined exactly when
   * the window has not filled or the high-low range of the window is zero, and otherwise lies
   * in [0, 100]; a zero range always comes with a zero numerator (0/0, never +-inf).
   */
  lemma PercentKAt(df: seq<Bar>, kPeriod: nat, i: nat)
    requires kPeriod >= 1 && i < |df| && WellFormed(df)
    ensures i < kPeriod - 1 ==> PercentK(df, kPeriod)[i].None?
    ensures i >= kPeriod - 1 ==>
      var lo := Min(Lows(df)[i - kPeriod + 1 .. i + 1]);
      var hi := Max(Highs(df)[i - kPeriod + 1 .. i + 1]);
      && lo <= df[i].close <= hi
      && (hi - lo == 0.0 <==> PercentK(df, kPeriod)[i].None?)
      && (hi - lo == 0.0 ==> df[i].close - lo == 0.0)
      && (hi - lo > 0.0 ==> 0.0 <= PercentK(df, kPeriod)[i].value <= 100.0)
  {
    if i >= kPeriod - 1 {
      var lo := Min(Lows(df)[i - kPeriod + 1 .. i + 1]);
      var hi := Max(Highs(df)[i - kPeriod + 1 .. i + 1]);
      assert df[i].low <= df[i].close <= df[i].high;
      WindowEnclosesClose(df, kPeriod, i);
      PercentKValue(df, kPeriod, i);
      if hi - lo > 0.0 {
        PercentOf(df[i].close, lo, hi);
      }
    }
  }

  /** On a well-formed frame every defined %K value lies in [0, 100]. */
  lemma PercentKInRange(df: seq<Bar>, kPeriod: nat, i: nat)
    requires kPeriod >= 1 && i < |df| && WellFormed(df)
    requires PercentK(df, kPeriod)[i].Some?
    ensures 0.0 <= PercentK(df, kPeriod)[i].value <= 100.0
  {
    PercentKAt(df, kPeriod, i);
  }

  /** %D at i is undefined whenever any of the last d %K values is, in particular when a range collapsed. */
  lemma PercentDAt(df: seq<Bar>, kPeriod: nat, dPeriod: nat, i: nat, j: nat)
    requires kPeriod >= 1 && dPeriod >= 1 && i < |df|
    requires i - dPeriod + 1 <= j <= i && PercentK(df, kPeriod)[j].None?
    ensures StochasticOscillator(df, kPeriod, dPeriod).d[i].None?
  {
    RollingMeanNaN(PercentK(df, kPeriod), dPeriod, i, j);
  }

  /** Over Heikin-Ashi bars %K, wherever defined, lies in [0, 100]; %D is the 3-bar rolling mean of %K and, wherever defined, lies in [0, 100] too. */
  lemma StochasticOfHeikinAshiInRange(raw: seq<Bar>, i: nat)
    requires |raw| >= 1 && i < |raw|
    ensures var s := StochasticOscillator(HeikinAshi(raw), 14, 3);
      && (s.k[i].Some? ==> 0.0 <= s.k[i].value <= 100.0)
      && (s.d[i].Some? ==> 0.0 <= s.d[i].value <= 100.0)
      && s.d == RollingMean(s.k, 3)
  {
    var ha := HeikinAshi(raw);
    HeikinAshiWellFormed(raw);
    var k := PercentK(ha, 14);
    if k[i].Some? {
      PercentKInRange(ha, 14, i);
    }
    var d := RollingMean(k, 3);
    if d[i].Some? {
      PercentDInRange(ha, i);
    }
  }

  lemma PercentDInRange(ha: seq<Bar>, i: nat)
    requires i < |ha| && WellFormed(ha)
    requires RollingMean(PercentK(ha, 14), 3)[i].Some?
    ensures 0.0 <= RollingMean(PercentK(ha, 14), 3)[i].value <= 100.0
  {
    var k := PercentK(ha, 14);
    var window := AllDefined(k[i - 2 .. i + 1]).value;
    forall j | 0 <= j < 3 ensures 0.0 <= window[j] <= 100.0 {
      assert k[i - 2 .. i + 1][j] == k[i - 2 + j];
      PercentKInRange(ha, 14, i - 2 + j);
    }
    MeanBetween(window);
    assert Min(window) in window && Max(window) in window;
  }

  // ---------------------------------------------------------------- patterns

  /** A red bar followed by a green bar whose body covers it. */
  predicate BullishEngulfing(df: seq<Bar>)
  {
    && |df| >= 2
    && var prev, last := df[|df| - 2], df[|df| - 1];
       last.close > last.open && prev.close < prev.open && last.close > prev.open && last.open < prev.close
  }

  /** A green bar followed by a red bar whose body covers it. */
  predicate BearishEngulfing(df: seq<Bar>)
  {
    && |df| >= 2
    && var prev, last := df[|df| - 2], df[|df| - 1];
       last.close < last.open && prev.close > prev.open && last.open > prev.close && last.close < prev.open
  }

  /** Neither pattern fires on fewer than two bars, and the two never fire together. */
  lemma EngulfingExclusive(df: seq<Bar>)
    ensures |df| < 2 ==> !BullishEngulfing(df) && !BearishEngulfing(df)
    ensures !(BullishEngulfing(df) && BearishEngulfing(df))
  {
  }

  // ---------------------------------------------------------------- multi-timeframe confirmation

  const MinBars: nat := 50

  datatype Bias = Bullish | Bearish

  /** What `get_bias` returns: the bias (if any) and the EMA slope it was derived from. */
  datatype BiasReading = BiasReading(bias: Option<Bias>, slope: real)

  /** `column.mean()` over a whole frame, which get_bias only reads once the frame has 50 bars. */
  function ColumnMean(xs: seq<real>): real
    requires |xs| >= MinBars
  {
    Mean(xs)
  }

  /**
   * `get_bias(df)`: on at least 50 bars, the slope of the span-100 EMA of the Heikin-Ashi
   * close over the last five bars, and whether the mean close is above or below the mean open.
   */
  function GetBias(df: Option<seq<Bar>>): (r: BiasReading)
    ensures (df.None? || |df.value| < MinBars) ==> r == BiasReading(None, 0.0)
    ensures r.bias == Some(Bullish) ==> r.slope > 0.0
    ensures r.bias == Some(Bearish) ==> r.slope < 0.0
  {
    if df.None? || |df.value| < MinBars then BiasReading(None, 0.0)
    else
      var ha := HeikinAshi(df.value);
      var n := |ha|;
      var ema := EmaOf(Closes(ha), Smoothing(100));
      var slope := ema[n - 1] - ema[n - 5];
      var bullish := ColumnMean(Closes(ha)) > ColumnMean(Opens(ha));
      var bearish := ColumnMean(Closes(ha)) < ColumnMean(Opens(ha));
      BiasReading(
        if slope > 0.0 && bullish then Some(Bullish)
        else if slope < 0.0 && bearish then Some(Bearish)
        else None,
        slope)
  }

  /**
   * `multi_timeframe_confirmation(lower_signal, mid_df, high_df)`: a lower-timeframe "buy"
   * survives only with a bullish middle frame and a higher frame that is not bearish, a
   * "sell" symmetrically; anything else is dropped.
   */
  function MultiTimeframeConfirmation(lower: Option<string>, mid: Option<seq<Bar>>, high: Option<seq<Bar>>): (r: Option<string>)
    ensures lower.None? ==> r.None?
    ensures r.None? || r == lower
    ensures r == Some("buy") <==>
      lower == Some("buy") && GetBias(mid).bias == Some(Bullish) && GetBias(high).bias != Some(Bearish)
    ensures r == Some("sell") <==>
      lower == Some("sell") && GetBias(mid).bias == Some(Bearish) && GetBias(high).bias != Some(Bullish)
    ensures r.Some? ==> r == Some("buy") || r == Some("sell")
  {
    if lower.None? then None
    else
      var midBias := GetBias(mid).bias;
      var highBias := GetBias(high).bias;
      if lower == Some("buy") && midBias == Some(Bullish) && highBias != Some(Bearish) then Some("buy")
      else if lower == Some("sell") && midBias == Some(Bearish) && highBias != Some(Bullish) then Some("sell")
      else None
  }

  /** Confirmation fails closed: a missing or short middle frame never confirms anything. */
  lemma ConfirmationFailsClosed(lower: Option<string>, mid: Option<seq<Bar>>, high: Option<seq<Bar>>)
    requires mid.None? || |mid.value| < MinBars
    ensures MultiTimeframeConfirmation(lower, mid, high).None?
  {
  }

  // ---------------------------------------------------------------- analyze_candles

  /** Comparisons with NaN are false. */
  predicate Above(x: real, y: Option<real>) { y.Some? && x > y.value }
  predicate Below(x: real, y: Option<real>) { y.Some? && x < y.value }

  /** How many bars close above (up) or below (down) their open. */
  function UpCount(bars: seq<Bar>): nat
  {
    if bars == [] then 0 else UpCount(bars[..|bars| - 1]) + (if bars[|bars| - 1].close > bars[|bars| - 1].open then 1 else 0)
  }

  function DownCount(bars: seq<Bar>): nat
  {
    if bars == [] then 0 else DownCount(bars[..|bars| - 1]) + (if bars[|bars| - 1].close < bars[|bars| - 1].open then 1 else 0)
  }

  /** Every value `analyze_candles` computes before it decides, at the last bar. */
  datatype Reading = Reading(
    haClose: real,
    jaw: Option<real>, teeth: Option<real>, lips: Option<real>,
    k: Option<real>, d: Option<real>,
    bullishBias: bool, bearishBias: bool,
    bullishPattern: bool, bearishPattern: bool,
    atr: Option<real>, minAtr: bool,
    emaSlope: real,
    momentumBull: bool, momentumBear: bool,
    body: real, upperWick: real, lowerWick: real)

  function Read(df: seq<Bar>): Reading
    requires |df| >= MinBars
  {
    var n := |df|;
    var ha := HeikinAshi(df);
    var atr := Atr(df, 14);
    var lines := CalculateAlligator(ha, 13, 8, 5);
    var osc := StochasticOscillator(ha, 14, 3);
    var ema := EmaOf(Closes(ha), Smoothing(150));
    var recent := ha[n - 30..];
    var last := ha[n - 1];
    Reading(
      last.close,
      lines.jaw[n - 1], lines.teeth[n - 1], lines.lips[n - 1],
      osc.k[n - 1], osc.d[n - 1],
      Mean(Closes(recent)) > Mean(Opens(recent)), Mean(Closes(recent)) < Mean(Opens(recent)),
      BullishEngulfing(recent), BearishEngulfing(recent),
      atr[n - 1], atr[n - 1].Some? && atr[n - 1].value > Mean(Closes(df)) * 0.001,
      ema[n - 1] - ema[n - 5],
      UpCount(ha[n - 3..]) >= 2, DownCount(ha[n - 3..]) >= 2,
      Abs(last.close - last.open),
      last.high - (if last.close >= last.open then last.close else last.open),
      (if last.close <= last.open then last.close else last.open) - last.low)
  }

  predicate IsBuy(r: Reading)
  {
    && Above(r.haClose, r.jaw) && Above(r.haClose, r.teeth) && Above(r.haClose, r.lips)
    && r.k.Some? && r.d.Some? && r.k.value > r.d.value
    && r.k.value < 30.0
    && r.bullishBias && r.bullishPattern
    && r.atr.Some? && r.atr.value > 0.0
    && r.emaSlope > 0.0 && r.minAtr
    && r.momentumBull
    && r.upperWick < r.body * 0.5
  }

  predicate IsSell(r: Reading)
  {
    && Below(r.haClose, r.jaw) && Below(r.haClose, r.teeth) && Below(r.haClose, r.lips)
    && r.k.Some? && r.d.Some? && r.k.value < r.d.value
    && r.k.value > 80.0
    && r.bearishBias && r.bearishPattern
    && r.atr.Some? && r.atr.value > 0.0
    && r.emaSlope < 0.0 && r.minAtr
    && r.momentumBear
    && r.lowerWick < r.body * 0.5
  }

  /** The single-timeframe signal before confirmation. */
  function RawSignal(df: seq<Bar>): Option<string>
    requires |df| >= MinBars
  {
    var r := Read(df);
    if IsBuy(r) then Some("buy") else if IsSell(r) then Some("sell") else None
  }

  /** `analyze_candles(df, mid_df, high_df)`. */
  function AnalyzeCandles(df: seq<Bar>, mid: Option<seq<Bar>>, high: Option<seq<Bar>>): (r: Option<string>)
    ensures |df| < MinBars ==> r.None?
    ensures r.Some? ==> |df| >= MinBars && r == RawSignal(df)
  {
    if |df| < MinBars then None
    else MultiTimeframeConfirmation(RawSignal(df), mid, high)
  }

  /** The buy and the sell rule never hold together: %K cannot be both below 30 and above 80. */
  lemma BuySellExclusive(df: seq<Bar>)
    requires |df| >= MinBars
    ensures !(IsBuy(Read(df)) && IsSell(Read(df)))
  {
  }

  /** A "buy" needs a bullish engulfing pair on the last two Heikin-Ashi bars and %K under 30, a "sell" the mirror. */
  lemma AnalyzeNeedsPattern(df: seq<Bar>, mid: Option<seq<Bar>>, high: Option<seq<Bar>>)
    ensures AnalyzeCandles(df, mid, high) == Some("buy") ==>
      |df| >= MinBars && IsBuy(Read(df)) && BullishEngulfing(HeikinAshi(df)) && Read(df).k.value < 30.0
    ensures AnalyzeCandles(df, mid, high) == Some("sell") ==>
      |df| >= MinBars && IsSell(Read(df)) && BearishEngulfing(HeikinAshi(df)) && Read(df).k.value > 80.0
  {
    if |df| >= MinBars {
      SuffixEngulfing(HeikinAshi(df), 30);
    }
  }

  /** The patterns look only at the last two bars, so any suffix of two or more bars shows the same. */
  lemma SuffixEngulfing(bars: seq<Bar>, m: nat)
    requires 2 <= m <= |bars|
    ensures BullishEngulfing(bars[|bars| - m..]) == BullishEngulfing(bars)
    ensures BearishEngulfing(bars[|bars| - m..]) == BearishEngulfing(bars)
  {
    var recent := bars[|bars| - m..];
    assert recent[|recent| - 1] == bars[|bars| - 1] && recent[|recent| - 2] == bars[|bars| - 2];
  }

  /** Called without the auxiliary frames (as the sweep calls it) the rule can never return a signal. */
  lemma AnalyzeWithoutMidNeverSignals(df: seq<Bar>, high: Option<seq<Bar>>)
    ensures AnalyzeCandles(df, None, high).None?
  {
  }
}

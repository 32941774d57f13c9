/**
 * The candle-boundary arithmetic of signal_scheduler.py: `get_next_candle_time` truncates the
 * clock to the minute and moves it to the next multiple of the timeframe, and the scheduler
 * skips a symbol whose frame is missing or shorter than 50 rows.
 */
module SignalScheduler {
  import opened Wrappers
  import Strategy

  /** A naive UTC datetime: a day number, then the clock fields. */
  datatype DateTime = DateTime(day: int, hour: int, minute: int, second: int, micro: int)

  /** The ranges a datetime object always keeps. */
  predicate ValidTime(t: DateTime)
  {
    0 <= t.hour < 24 && 0 <= t.minute < 60 && 0 <= t.second < 60 && 0 <= t.micro < 1000000
  }

  /** Minutes since day 0, 00:00. */
  function AbsMinute(t: DateTime): int
  {
    (t.day * 24 + t.hour) * 60 + t.minute
  }

  /** Microseconds since day 0, 00:00: the order of datetimes. */
  function Micros(t: DateTime): int
  {
    (AbsMinute(t) * 60 + t.second) * 1000000 + t.micro
  }

  /** Python's `a // b`, which rounds toward negative infinity. */
  function FloorDiv(a: int, b: int): (q: int)
    requires b != 0
    ensures b > 0 ==> q * b <= a < q * b + b
    ensures b < 0 ==> q * b >= a > q * b + b
  {
    if b > 0 then a / b else (-a) / (-b)
  }

  /** `(now.minute // timeframe + 1) * timeframe`: the next multiple of the timeframe in minutes. */
  function NextBoundary(minute: int, timeframe: int): int
    requires timeframe != 0
  {
    (FloorDiv(minute, timeframe) + 1) * timeframe
  }

  /**
   * `get_next_candle_time(timeframe)` for the clock reading `now` (which the source takes from
   * `datetime.utcnow()`); None when `timeframe` is 0 and the division raises.
   */
  function NextCandleTime(now: DateTime, timeframe: int): (r: Option<DateTime>)
    ensures r.None? <==> timeframe == 0
    ensures r.Some? ==> r.value.second == 0 && r.value.micro == 0 && r.value.day == now.day
    ensures r.Some? ==> 0 <= r.value.minute < 60 && 0 <= r.value.hour < 24
  {
    if timeframe == 0 then None
    else
      var minutes := NextBoundary(now.minute, timeframe);
      Some(DateTime(now.day, (now.hour + minutes / 60) % 24, minutes % 60, 0, 0))
  }

  /** For a positive timeframe the boundary is 1 to `timeframe` minutes after the current minute. */
  lemma BoundaryAhead(minute: int, timeframe: int)
    requires timeframe > 0
    ensures minute < NextBoundary(minute, timeframe) <= minute + timeframe
  {
    var q := FloorDiv(minute, timeframe);
    assert (q + 1) * timeframe == q * timeframe + timeframe;
  }

  lemma MultipleModulo(k: int, timeframe: int, q: int)
    requires timeframe > 0 && q > 0 && q * timeframe == 60
    ensures (k * timeframe) % 60 == timeframe * (k - q * ((k * timeframe) / 60))
  {
    var m := k * timeframe;
    assert m == (m / 60) * 60 + m % 60;
    assert (m / 60) * 60 == (m / 60) * (q * timeframe) == timeframe * (q * (m / 60));
    assert m % 60 == k * timeframe - timeframe * (q * (m / 60));
  }

  /** For a timeframe dividing 60 the result's minute is a multiple of the timeframe. */
  lemma NextCandleOnGrid(now: DateTime, timeframe: int)
    requires timeframe > 0 && 60 % timeframe == 0
    ensures NextCandleTime(now, timeframe).value.minute % timeframe == 0
  {
    var k := FloorDiv(now.minute, timeframe) + 1;
    var q := 60 / timeframe;
    assert q * timeframe == 60;
    MultipleModulo(k, timeframe, q);
    var c := k - q * ((k * timeframe) / 60);
    var r := (k * timeframe) % 60;
    assert r == timeframe * c;
    assert r % timeframe == 0 by {
      assert r == c * timeframe;
      DividesMultiple(c, timeframe);
    }
  }

  lemma DividesMultiple(c: int, timeframe: int)
    requires timeframe > 0
    ensures (c * timeframe) % timeframe == 0
  {
    DivModOf(c * timeframe, timeframe, c, 0);
  }

  lemma NonNegativeProduct(a: int, b: int)
    requires a >= 0 && b >= 0
    ensures a * b >= 0
  {
  }

  /**
   * Without a wrap past the hour the result is in the same hour, 1 to `timeframe` minutes
   * after `now` truncated to the minute.
   */
  lemma NextCandleSameHour(now: DateTime, timeframe: int)
    requires ValidTime(now) && timeframe > 0
    requires NextBoundary(now.minute, timeframe) < 60
    ensures var r := NextCandleTime(now, timeframe).value;
      && r.hour == now.hour
      && 1 <= r.minute - now.minute <= timeframe
      && AbsMinute(r) - AbsMinute(now) == r.minute - now.minute
  {
    BoundaryAhead(now.minute, timeframe);
  }

  /**
   * At 23:59:30 on day 0 with a one-minute timeframe the result is 00:00 on day 0: the hour
   * wraps to 0 but the date stays, so the "next" candle is nearly a day in the past.
   */
  lemma WrapGoesBackInTime()
    ensures var now := DateTime(0, 23, 59, 30, 0);
      && NextCandleTime(now, 1) == Some(DateTime(0, 0, 0, 0, 0))
      && Micros(NextCandleTime(now, 1).value) < Micros(now)
  {
  }

  /**
   * For a timeframe dividing 60 (the repository's 1, 3 and 5), a boundary past hour 23 wraps to
   * hour 0 of the same day, so the result precedes `now`.
   */
  lemma WrapAtMidnightPrecedesNow(now: DateTime, timeframe: int)
    requires ValidTime(now) && timeframe > 0 && 60 % timeframe == 0
    requires now.hour == 23 && NextBoundary(now.minute, timeframe) >= 60
    ensures Micros(NextCandleTime(now, timeframe).value) < Micros(now)
  {
    BoundaryAhead(now.minute, timeframe);
    var minutes := NextBoundary(now.minute, timeframe);
    assert minutes / 60 == 1;
    assert (now.hour + minutes / 60) % 24 == 0;
  }

  /** The datetime `total` minutes after day 0, 00:00. */
  function FromMinutes(total: int): (t: DateTime)
    ensures ValidTime(t) && t.second == 0 && t.micro == 0
    ensures AbsMinute(t) == total
  {
    DateTime(total / 1440, (total % 1440) / 60, total % 60, 0, 0)
  }

  /** The next candle time with the carry into the date that the source leaves out. */
  function NextCandleTimeCarried(now: DateTime, timeframe: int): (r: Option<DateTime>)
    ensures r.None? <==> timeframe == 0
  {
    if timeframe == 0 then None
    else Some(FromMinutes(AbsMinute(now) - now.minute + NextBoundary(now.minute, timeframe)))
  }

  /**
   * The carried result is always strictly after `now` and at most `timeframe` minutes after
   * `now` truncated to the minute, on the minute boundary.
   */
  lemma CarriedIsAhead(now: DateTime, timeframe: int)
    requires ValidTime(now) && timeframe > 0
    ensures var r := NextCandleTimeCarried(now, timeframe).value;
      && Micros(now) < Micros(r)
      && AbsMinute(now) < AbsMinute(r) <= AbsMinute(now) + timeframe
      && ValidTime(r) && r.second == 0 && r.micro == 0
  {
    BoundaryAhead(now.minute, timeframe);
    var r := NextCandleTimeCarried(now, timeframe).value;
    assert AbsMinute(r) >= AbsMinute(now) + 1;
    assert Micros(r) == AbsMinute(r) * 60000000;
    assert Micros(now) < (AbsMinute(now) + 1) * 60000000;
  }

  /** Where the boundary stays on the same day, the carried result and the source's agree. */
  lemma CarriedAgreesWithinDay(now: DateTime, timeframe: int)
    requires ValidTime(now) && timeframe > 0
    requires now.hour + NextBoundary(now.minute, timeframe) / 60 < 24
    ensures NextCandleTimeCarried(now, timeframe) == NextCandleTime(now, timeframe)
  {
    BoundaryAhead(now.minute, timeframe);
    SameDayCarry(now.day, now.hour, NextBoundary(now.minute, timeframe));
  }

  /** Carrying `minutes` past the start of the hour, when that stays within the day. */
  lemma SameDayCarry(day: int, hour: int, minutes: int)
    requires 0 <= hour < 24 && 0 <= minutes && hour + minutes / 60 < 24
    ensures FromMinutes((day * 24 + hour) * 60 + minutes) == DateTime(day, (hour + minutes / 60) % 24, minutes % 60, 0, 0)
  {
    var q, m := minutes / 60, minutes % 60;
    var total := (day * 24 + hour) * 60 + minutes;
    var h := hour + q;
    var within := h * 60 + m;
    assert minutes == q * 60 + m;
    assert total == day * 1440 + within;
    DivModOf(total, 1440, day, within);
    DivModOf(within, 60, h, m);
    DivModOf(total, 60, day * 24 + h, m);
  }

  /** Division and remainder are determined by any decomposition with a remainder in range. */
  lemma DivModOf(x: int, d: int, q: int, rem: int)
    requires d > 0 && 0 <= rem < d && x == q * d + rem
    ensures x / d == q && x % d == rem
  {
    var k := q - x / d;
    assert x == d * (x / d) + x % d;
    assert d * k == x % d - rem;
    if k >= 1 {
      assert d * k == d + d * (k - 1);
      NonNegativeProduct(d, k - 1);
    } else if k <= -1 {
      assert d * k == -d - d * (-k - 1);
      NonNegativeProduct(d, -k - 1);
    }
  }

  // ---------------------------------------------------------------- the skip filter of schedule_signal

  /** `df is None or len(df) < 50`: the frame (given by its row count) is skipped. */
  predicate SkipsFrame(rows: Option<nat>)
  {
    rows.None? || rows.value < 50
  }

  /** The frames the strategy is called for, by position, in order. */
  function AnalysedPositions(frames: seq<Option<nat>>): (r: seq<nat>)
    ensures forall k :: k in r ==> k < |frames| && !SkipsFrame(frames[k])
    ensures forall k :: 0 <= k < |frames| && !SkipsFrame(frames[k]) ==> k in r
    ensures forall a, b :: 0 <= a < b < |r| ==> r[a] < r[b]
  {
    if frames == [] then []
    else
      var last := |frames| - 1;
      var before := AnalysedPositions(frames[..last]);
      assert forall a :: 0 <= a < |before| ==> before[a] < last by {
        forall a | 0 <= a < |before|
          ensures before[a] < last
        {
          assert before[a] in before;
        }
      }
      before + if SkipsFrame(frames[last]) then [] else [last]
  }

  /** The scheduler's threshold is analyze_candles' own: a frame passes exactly when it is long enough to be analysed. */
  lemma ThresholdMatchesStrategy(df: seq<Strategy.Bar>)
    ensures !SkipsFrame(Some(|df|)) <==> |df| >= Strategy.MinBars
    ensures SkipsFrame(Some(|df|)) ==> Strategy.AnalyzeCandles(df, None, None).None?
  {
  }
}

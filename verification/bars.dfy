/** Daily and weekly OHLCV bars and the per-bar volatility fields computed by
    `compute_atr`: the true range and its exponentially weighted average. */
module Bars {

  import opened Ratios

  /** One row of a price series. `week` abstracts the calendar: it is the key
      of the week the bar falls in, and weekly bars carry their own key. The
      open price is fetched by the screener but never read, so it is omitted. */
  datatype Bar = Bar(week: int, high: real, low: real, close: real, volume: nat)

  /** The usual shape of a price bar: the close lies inside the day's range. */
  predicate Sane(b: Bar)
  {
    b.low <= b.close <= b.high
  }

  predicate AllSane(bars: seq<Bar>)
  {
    forall i :: 0 <= i < |bars| ==> Sane(bars[i])
  }

  function Last(bars: seq<Bar>): Bar
    requires |bars| > 0
  {
    bars[|bars| - 1]
  }

  function Closes(bars: seq<Bar>): (cs: seq<real>)
    ensures |cs| == |bars|
    ensures forall i :: 0 <= i < |bars| ==> cs[i] == bars[i].close
  {
    seq(|bars|, i requires 0 <= i < |bars| => bars[i].close)
  }

  /** True range of bar `i`: the widest of its own range and its gaps to the
      previous close. The first bar has no previous close; the row-wise max
      skips the missing values, leaving only high minus low. */
  function TrueRange(bars: seq<Bar>, i: nat): (tr: real)
    requires i < |bars|
    ensures tr >= bars[i].high - bars[i].low
    ensures i > 0 ==> tr >= Abs(bars[i].high - bars[i - 1].close)
    ensures i > 0 ==> tr >= Abs(bars[i].low - bars[i - 1].close)
    ensures tr == bars[i].high - bars[i].low
            || (i > 0 && tr == Abs(bars[i].high - bars[i - 1].close))
            || (i > 0 && tr == Abs(bars[i].low - bars[i - 1].close))
    ensures i == 0 ==> tr == bars[i].high - bars[i].low
    ensures bars[i].low <= bars[i].high ==> tr >= 0.0
  {
    var range := bars[i].high - bars[i].low;
    if i == 0 then range
    else
      var prev := bars[i - 1].close;
      Max(range, Max(Abs(bars[i].high - prev), Abs(bars[i].low - prev)))
  }

  function TrueRanges(bars: seq<Bar>): (trs: seq<real>)
    ensures |trs| == |bars|
    ensures forall i :: 0 <= i < |bars| ==> trs[i] == TrueRange(bars, i)
  {
    seq(|bars|, i requires 0 <= i < |bars| => TrueRange(bars, i))
  }

  /** Value at position `i` of a non-adjusted exponentially weighted mean
      with smoothing factor `alpha`: the first value is taken as is, every
      later one blends the new value with the previous mean. */
  function EwmAt(xs: seq<real>, alpha: real, i: nat): real
    requires i < |xs|
    decreases i
  {
    if i == 0 then xs[0]
    else alpha * xs[i] + (1.0 - alpha) * EwmAt(xs, alpha, i - 1)
  }

  function Ewm(xs: seq<real>, alpha: real): (ys: seq<real>)
    ensures |ys| == |xs|
    ensures |xs| > 0 ==> ys[0] == xs[0]
    ensures forall i :: 0 < i < |xs| ==> ys[i] == alpha * xs[i] + (1.0 - alpha) * ys[i - 1]
  {
    seq(|xs|, i requires 0 <= i < |xs| => EwmAt(xs, alpha, i))
  }

  /** A blend of two values with a weight in [0, 1] lies between them. */
  lemma BlendWithin(alpha: real, x: real, y: real, lo: real, hi: real)
    requires 0.0 <= alpha <= 1.0
    requires lo <= x <= hi && lo <= y <= hi
    ensures lo <= alpha * x + (1.0 - alpha) * y <= hi
  {
    assert alpha * (x - lo) >= 0.0;
    assert (1.0 - alpha) * (y - lo) >= 0.0;
    assert alpha * (hi - x) >= 0.0;
    assert (1.0 - alpha) * (hi - y) >= 0.0;
  }

  /** The weighted mean never leaves the range of the values seen so far. */
  lemma {:induction false} EwmWithinRange(xs: seq<real>, alpha: real, i: nat, lo: real, hi: real)
    requires 0.0 <= alpha <= 1.0
    requires i < |xs|
    requires forall j :: 0 <= j <= i ==> lo <= xs[j] <= hi
    ensures lo <= EwmAt(xs, alpha, i) <= hi
    decreases i
  {
    if i > 0 {
      EwmWithinRange(xs, alpha, i - 1, lo, hi);
      BlendWithin(alpha, xs[i], EwmAt(xs, alpha, i - 1), lo, hi);
    }
  }

  /** With smoothing factor 1 every value replaces the previous mean
      outright: the average is the input itself. */
  lemma EwmUnitAlpha(xs: seq<real>)
    ensures Ewm(xs, 1.0) == xs
  {
  }

  /** The `ATR` column: the true range averaged with smoothing factor 1. */
  function Atr(bars: seq<Bar>): (atr: seq<real>)
    ensures |atr| == |bars|
  {
    Ewm(TrueRanges(bars), 1.0)
  }

  /** The average adds no smoothing across bars: each bar's ATR is exactly
      its own true range. */
  lemma AtrIsTrueRange(bars: seq<Bar>)
    ensures forall i :: 0 <= i < |bars| ==> Atr(bars)[i] == TrueRange(bars, i)
  {
    EwmUnitAlpha(TrueRanges(bars));
  }

  /** On bars whose low does not exceed their high the ATR is never negative. */
  lemma AtrNonNegative(bars: seq<Bar>)
    requires forall i :: 0 <= i < |bars| ==> bars[i].low <= bars[i].high
    ensures forall i :: 0 <= i < |bars| ==> Atr(bars)[i] >= 0.0
  {
    AtrIsTrueRange(bars);
  }

}

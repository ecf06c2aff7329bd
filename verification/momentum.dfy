/** Short-term momentum: the 10-bar simple moving average and the 9-span
    exponential moving average of the close, and whether the last bar
    confirms the trend. */
module Momentum {

  import opened Wrappers
  import opened Bars
  import opened Trend

  const SmaWindow: nat := 10
  const EmaSpan: nat := 9

  function Sum(xs: seq<real>): real
  {
    if |xs| == 0 then 0.0 else Sum(xs[..|xs| - 1]) + xs[|xs| - 1]
  }

  /** A sum of values in [lo, hi] lies between count times lo and count
      times hi. */
  lemma {:induction false} SumBounds(xs: seq<real>, lo: real, hi: real)
    requires forall i :: 0 <= i < |xs| ==> lo <= xs[i] <= hi
    ensures |xs| as real * lo <= Sum(xs) <= |xs| as real * hi
  {
    if |xs| > 0 {
      SumBounds(xs[..|xs| - 1], lo, hi);
    }
  }

  /** `rolling(window).mean()` at the last bar: the mean of the last
      `window` values, undefined (NaN in pandas) until the window fills. */
  function Sma(xs: seq<real>, window: nat): (m: Option<real>)
    requires window > 0
    ensures m.Some? <==> |xs| >= window
    ensures m.Some? ==> m.value * window as real == Sum(xs[|xs| - window..])
  {
    if |xs| < window then None else Some(Sum(xs[|xs| - window..]) / window as real)
  }

  /** The moving average lies within the range of the values it averages. */
  lemma SmaWithinWindow(xs: seq<real>, window: nat, lo: real, hi: real)
    requires window > 0 && |xs| >= window
    requires forall i :: |xs| - window <= i < |xs| ==> lo <= xs[i] <= hi
    ensures lo <= Sma(xs, window).value <= hi
  {
    var win := xs[|xs| - window..];
    assert forall i :: 0 <= i < |win| ==> win[i] == xs[|xs| - window + i];
    SumBounds(win, lo, hi);
    MeanBounds(Sum(win), window as real, lo, hi);
  }

  lemma MeanBounds(total: real, n: real, lo: real, hi: real)
    requires n > 0.0
    requires n * lo <= total <= n * hi
    ensures lo <= total / n <= hi
  {
    assert total / n - lo == (total - n * lo) / n;
    assert hi - total / n == (n * hi - total) / n;
  }

  /** Smoothing factor of an exponential average given by its span. */
  function SpanAlpha(span: nat): (alpha: real)
    ensures 0.0 < alpha
    ensures span >= 1 ==> alpha <= 1.0
  {
    2.0 / (span as real + 1.0)
  }

  /** `ewm(span=9, adjust=False).mean()` at the last bar. */
  function Ema(xs: seq<real>, span: nat): real
    requires |xs| > 0
  {
    EwmAt(xs, SpanAlpha(span), |xs| - 1)
  }

  /** The 9-span average weighs each new close by one fifth. */
  lemma NineSpanAlpha()
    ensures SpanAlpha(EmaSpan) == 0.2
  {
  }

  /** The exponential average never leaves the range of the closes. */
  lemma EmaWithinRange(xs: seq<real>, span: nat, lo: real, hi: real)
    requires |xs| > 0 && span >= 1
    requires forall i :: 0 <= i < |xs| ==> lo <= xs[i] <= hi
    ensures lo <= Ema(xs, span) <= hi
  {
    EwmWithinRange(xs, SpanAlpha(span), |xs| - 1, lo, hi);
  }

  /** The last bar confirms the trend: for an up trend both the close and the
      EMA are above the SMA, for a down trend both below. An undefined SMA
      compares false, so it never confirms. */
  predicate Confirmed(d: Direction, close: real, sma: Option<real>, ema: real)
  {
    match sma
    case None => false
    case Some(s) => (d == Up && close > s && ema > s) || (d == Down && close < s && ema < s)
  }

  /** A bar confirms at most one direction, and none before the SMA window
      has filled. */
  lemma ConfirmedOneDirection(close: real, sma: Option<real>, ema: real)
    ensures !(Confirmed(Up, close, sma, ema) && Confirmed(Down, close, sma, ema))
    ensures sma.None? ==> !Confirmed(Up, close, sma, ema) && !Confirmed(Down, close, sma, ema)
  {
  }

  /** The two directions are mirror images: negating every price turns an
      up-trend confirmation into a down-trend one and back. */
  lemma ConfirmedMirror(close: real, sma: real, ema: real)
    ensures Confirmed(Up, close, Some(sma), ema) <==> Confirmed(Down, -close, Some(-sma), -ema)
    ensures Confirmed(Down, close, Some(sma), ema) <==> Confirmed(Up, -close, Some(-sma), -ema)
  {
  }

  /** Confirmation of the last bar of a series, as the scan computes it. */
  function ConfirmsTrend(bars: seq<Bar>, d: Direction): (ok: bool)
    requires |bars| > 0
    ensures ok <==>
              && |bars| >= SmaWindow
              && var s := Sma(Closes(bars), SmaWindow).value;
                 var e := Ema(Closes(bars), EmaSpan);
                 || (d == Up && Last(bars).close > s && e > s)
                 || (d == Down && Last(bars).close < s && e < s)
  {
    var cs := Closes(bars);
    Confirmed(d, Last(bars).close, Sma(cs, SmaWindow), Ema(cs, EmaSpan))
  }

}

/** Long-term trend and the move from the recent extreme. */
module Trend {

  import opened Ratios
  import opened Bars
  import opened Weekly

  datatype Direction = Up | Down

  /** Bars back to the trend anchor (about two years of trading days). */
  const LongLag: nat := 500
  /** Bars in the recent window (about six months of trading days). */
  const RecentBars: nat := 126
  /** The move, in percent, the trend stage asks for. */
  const PullbackPct: real := 15.0

  /** The close the trend is measured against: 500 bars back counting the
      last bar as the first, or the first close of a shorter series. */
  function AnchorClose(bars: seq<Bar>): (c: real)
    requires |bars| > 0
    ensures |bars| >= LongLag ==> c == bars[|bars| - LongLag].close
    ensures |bars| < LongLag ==> c == bars[0].close
  {
    if |bars| >= LongLag then bars[|bars| - LongLag].close else bars[0].close
  }

  function TrendOf(bars: seq<Bar>): (d: Direction)
    requires |bars| > 0
    ensures d == Up <==> Last(bars).close > AnchorClose(bars)
  {
    if Last(bars).close > AnchorClose(bars) then Up else Down
  }

  /** With a positive anchor, the trend is up exactly when the return over
      the trend window is positive. */
  lemma {:induction false} TrendByReturn(bars: seq<Bar>)
    requires |bars| > 0 && AnchorClose(bars) > 0.0
    ensures TrendOf(bars) == Up <==> Above(PctChange(Last(bars).close, AnchorClose(bars)), 0.0)
    ensures TrendOf(bars) == Down <==> AtMost(PctChange(Last(bars).close, AnchorClose(bars)), 0.0)
  {
    PctVersusScaled(Last(bars).close, AnchorClose(bars), 0.0);
  }

  /** A series whose last close equals its anchor close counts as a down
      trend. */
  lemma FlatIsDown(bars: seq<Bar>)
    requires |bars| > 0
    requires Last(bars).close == AnchorClose(bars)
    ensures TrendOf(bars) == Down
  {
  }

  /** `tail(126)`: the last 126 bars, or all of a shorter series. */
  function Recent(bars: seq<Bar>): (w: seq<Bar>)
    ensures |w| == if |bars| < RecentBars then |bars| else RecentBars
    ensures forall k :: 0 <= k < |w| ==> w[k] == bars[|bars| - |w| + k]
  {
    if |bars| < RecentBars then bars else bars[|bars| - RecentBars..]
  }

  /** The extreme the move is measured from: the recent highest high in an
      up trend, the recent lowest low in a down trend. */
  function Extreme(bars: seq<Bar>, d: Direction): (e: real)
    requires |bars| > 0
    ensures var start := |bars| - |Recent(bars)|;
            && (d == Up ==> (forall k :: start <= k < |bars| ==> bars[k].high <= e)
                            && exists k :: start <= k < |bars| && bars[k].high == e)
            && (d == Down ==> (forall k :: start <= k < |bars| ==> e <= bars[k].low)
                              && exists k :: start <= k < |bars| && bars[k].low == e)
  {
    var w := Recent(bars);
    var e := if d == Up then MaxHigh(w) else MinLow(w);
    ExtremeInWindow(bars, d, e);
    e
  }

  /** Moves the extreme's bounds and witness from the window back to the
      series. */
  lemma ExtremeInWindow(bars: seq<Bar>, d: Direction, e: real)
    requires |bars| > 0
    requires e == if d == Up then MaxHigh(Recent(bars)) else MinLow(Recent(bars))
    ensures var start := |bars| - |Recent(bars)|;
            && (d == Up ==> (forall k :: start <= k < |bars| ==> bars[k].high <= e)
                            && exists k :: start <= k < |bars| && bars[k].high == e)
            && (d == Down ==> (forall k :: start <= k < |bars| ==> e <= bars[k].low)
                              && exists k :: start <= k < |bars| && bars[k].low == e)
  {
    var w := Recent(bars);
    var start := |bars| - |w|;
    forall k | start <= k < |bars|
      ensures bars[k] == w[k - start]
    {
    }
    if d == Up {
      var j :| 0 <= j < |w| && w[j].high == e;
      assert bars[start + j].high == e;
    } else {
      var j :| 0 <= j < |w| && w[j].low == e;
      assert bars[start + j].low == e;
    }
  }

  /** Percentage from the extreme to the last close. */
  function MovePct(bars: seq<Bar>, d: Direction): Pct
    requires |bars| > 0
  {
    PctChange(Last(bars).close, Extreme(bars, d))
  }

  /** Positive prices whose closes lie inside their ranges. */
  predicate PositiveSane(bars: seq<Bar>)
  {
    AllSane(bars) && forall i :: 0 <= i < |bars| ==> bars[i].low > 0.0
  }

  /** On positive sane prices the last close lies between the recent lowest
      low and the recent highest high, and both are positive. */
  lemma {:induction false} RecentBounds(bars: seq<Bar>)
    requires |bars| > 0
    requires PositiveSane(bars)
    ensures 0.0 < MinLow(Recent(bars)) <= Last(bars).close <= MaxHigh(Recent(bars))
  {
    RecentKeepsLast(bars);
    ExtremesBracketClose(Recent(bars));
  }

  lemma RecentKeepsLast(bars: seq<Bar>)
    requires |bars| > 0
    requires PositiveSane(bars)
    ensures PositiveSane(Recent(bars))
    ensures |Recent(bars)| > 0 && Last(Recent(bars)) == Last(bars)
  {
    var w := Recent(bars);
    forall k | 0 <= k < |w|
      ensures 0.0 < w[k].low <= w[k].close <= w[k].high
    {
      assert w[k] == bars[|bars| - |w| + k];
    }
  }

  lemma ExtremesBracketClose(w: seq<Bar>)
    requires |w| > 0
    requires PositiveSane(w)
    ensures 0.0 < MinLow(w) <= Last(w).close <= MaxHigh(w)
  {
    var k :| 0 <= k < |w| && w[k].low == MinLow(w);
  }

  /** The move is a pullback in an up trend and a bounce in a down trend:
      the last close can be no higher than the recent high, nor lower than
      the recent low. */
  lemma {:induction false} MoveSign(bars: seq<Bar>)
    requires |bars| > 0
    requires PositiveSane(bars)
    ensures AtMost(MovePct(bars, Up), 0.0)
    ensures AtLeast(MovePct(bars, Down), 0.0)
  {
    var w := Recent(bars);
    var c := Last(bars).close;
    var hi, lo := MaxHigh(w), MinLow(w);
    RecentBounds(bars);
    PctSign(c, hi);
    PctSign(c, lo);
    assert MovePct(bars, Up) == PctChange(c, hi);
    assert MovePct(bars, Down) == PctChange(c, lo);
  }

  /** The trend stage's test on the direction and the move. */
  predicate PassTrend(d: Direction, move: Pct)
  {
    (d == Up && AtMost(move, -PullbackPct)) || (d == Down && AtLeast(move, PullbackPct))
  }

  lemma PullbackThresholds(c: real, hi: real, lo: real)
    requires hi > 0.0 && lo > 0.0
    ensures AtMost(PctChange(c, hi), -PullbackPct) <==> 100.0 * c <= 85.0 * hi
    ensures AtLeast(PctChange(c, lo), PullbackPct) <==> 100.0 * c >= 115.0 * lo
  {
    PctVersusScaled(c, hi, -PullbackPct);
    PctVersusScaled(c, lo, PullbackPct);
  }

  /** On positive prices the trend stage asks an up trend to sit at least
      15% under its recent high and a down trend at least 15% over its
      recent low. */
  lemma {:induction false} PassTrendByPrices(bars: seq<Bar>)
    requires |bars| > 0
    requires PositiveSane(bars)
    ensures PassTrend(Up, MovePct(bars, Up)) <==> 100.0 * Last(bars).close <= 85.0 * MaxHigh(Recent(bars))
    ensures PassTrend(Down, MovePct(bars, Down)) <==> 100.0 * Last(bars).close >= 115.0 * MinLow(Recent(bars))
  {
    var w := Recent(bars);
    var c := Last(bars).close;
    var hi, lo := MaxHigh(w), MinLow(w);
    RecentBounds(bars);
    assert MovePct(bars, Up) == PctChange(c, hi);
    assert MovePct(bars, Down) == PctChange(c, lo);
    PullbackThresholds(c, hi, lo);
  }

}

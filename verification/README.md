# Multi-stage stock scanner — a Dafny model of its technical funnel

The scanner takes a list of ticker symbols and fetches about three years of
daily OHLCV bars for each one. It then runs every symbol through up to three
stages, each switched on or off from the sidebar:

1. **ATR/volume condition.** The daily bars are resampled into weekly bars.
   The weekly true range and ATR are computed (`compute_atr`). The last two
   weeks are then labelled *Compression*, *Quiet Breakout* or *Exhaustion*,
   in that priority order.
2. **Trend and pullback.** The direction is up when the last close is above
   the close about two years back. The move is the percentage from the last
   six months' highest high (up trend) or lowest low (down trend). This
   stage asks for at least 15% of pullback or bounce.
3. **Momentum.** The 10-bar SMA and the 9-span EMA of the close must both
   confirm the direction on the last bar.

Each symbol that passes all enabled stages adds one result row. A symbol
whose fetch fails, whose series is shorter than 260 bars, or that raises
anywhere is skipped. The accepted symbols can be downloaded as a
newline-separated watchlist.

The model is written over exact `real`s as pure functions on sequences:

- `wrappers.dfy`: `Option`.
- `ratios.dfy`: max, min and abs. It also gives the value of the unguarded
  float expression `(now / prev - 1) * 100`: finite, ±inf or NaN. Float
  comparisons are modelled on these values.
- `bars.dfy`: the `Bar` record, true range, the exponentially weighted mean,
  and ATR.
- `weekly.dfy`: grouping into weeks and the weekly aggregate.
- `conditions.dfy`: the three-way classifier.
- `trend.dfy`: direction, the recent extreme, the move %, and the trend
  stage test.
- `momentum.dfy`: SMA, EMA and confirmation.
- `scanner.dfy`: per-symbol signals, the funnel, and the scan as a fold over
  the candidates with an abstract `fetch`.
- `candidates.dfy`: deduplication of the scraped tickers.
- `export.dfy`: the watchlist join, with its split round trip.

Behaviour of the code worth noting:

- A zero previous weekly volume does not give "no label". The volume change
  becomes +inf (or NaN when both weeks are zero). So a symbol with a zero
  previous volume and rising volume gets a label exactly when its ATR rose
  less than 5% (`Conditions.ZeroPreviousVolume`). A zero previous ATR does
  give no label whenever the current ATR is non-negative
  (`Conditions.ZeroPreviousAtr`).
- The first bar's true range is its high minus its low, not undefined. The
  row-wise max skips the missing previous close.
- The ATR smoothing factor is fixed at 1, so ATR equals the true range. The
  weighted mean (`Bars.Ewm`) takes the factor as a parameter, and the EMA
  uses the same definition with factor 2/(9+1).
- A series that resamples to fewer than two weeks raises when the previous
  week is read. The symbol is then skipped whatever the toggles say. So with
  every stage off, a symbol is reported exactly when its fetch succeeds with
  at least 260 bars and at least two weeks.
- The code has no momentum streak, no multi-week condition streak, and no
  streak fields in the result. None is modelled.

Week keys abstract the calendar. Each bar carries the key of its week, and a
week is a maximal run of consecutive bars sharing a key. When keys follow
time order, as dated bars do, every week appears once
(`Weekly.RunKeysIncrease`).

## Model

| member | source | states |
|---|---|---|
| Ratios.PctChange | app.py:81-82 | with a non-zero base the change times the base equals 100·(now − prev); with a zero base it is +inf, −inf or NaN according to the sign of the numerator |
| Ratios.Above | app.py:88-90 | the float test `p > c`: on a finite change the real comparison; +inf is above every bound; −inf and NaN are above none |
| Ratios.Below | app.py:88-90 | the float test `p < c` is the mirror image of `p > c`: `p < c` exactly when `−p > −c` |
| Ratios.AtMost | app.py:105 | the float test `p <= c` holds exactly when `p > c` fails and `p` is not NaN |
| Ratios.AtLeast | app.py:105 | the float test `p >= c` holds exactly when `p < c` fails and `p` is not NaN |
| Ratios.ComparisonsExclusive | app.py:88-90 | a percentage is never both above and at most a bound; every non-NaN value is on one side |
| Ratios.PctVersusScaled | app.py:81-82 | with a positive base, "change above/below/at most/at least c%" is the division-free comparison of 100·now with (100 + c)·prev |
| Ratios.PctSign | app.py:102 | against a positive base, a smaller amount gives a change ≤ 0 and a larger one a change ≥ 0 |
| Bars.TrueRange | app.py:55-58 | the true range is at least the bar's range and at least both gaps to the previous close, and equals one of them; on the first bar it is high − low; it is non-negative when low ≤ high |
| Bars.TrueRanges | app.py:58 | one true range per bar |
| Bars.Ewm | app.py:59 | the non-adjusted exponentially weighted mean starts at the first value and blends each new value with the previous mean using the smoothing factor |
| Bars.EwmWithinRange | app.py:59 | with a factor in [0, 1] the mean never leaves the range of the values seen so far |
| Bars.EwmUnitAlpha | app.py:59 | with factor 1 the mean is the input itself |
| Bars.Atr | app.py:59 | one ATR value per bar |
| Bars.AtrIsTrueRange | app.py:59 | every bar's ATR equals its own true range: no smoothing across bars |
| Bars.AtrNonNegative | app.py:55-59 | on bars with low ≤ high every ATR is ≥ 0 |
| Weekly.Runs | app.py:77 | the bars split into non-empty groups |
| Weekly.RunsCover | app.py:77 | the groups, concatenated in order, are exactly the daily bars; there are at most as many groups as bars, and none only for no bars |
| Weekly.RunsOneWeek | app.py:77 | every bar of a group carries the group's week key |
| Weekly.RunsMaximal | app.py:77 | neighbouring groups have different keys, so no group could be extended |
| Weekly.MaxHigh | app.py:77 | the result is at least every high and equals one of them |
| Weekly.MinLow | app.py:77 | the result is at most every low and equals one of them |
| Weekly.SumVolumeAppend | app.py:77 | total volume is additive over concatenation |
| Weekly.Aggregate | app.py:77 | a weekly bar's high is the highest daily high, its low the lowest daily low (both attained), its close the last daily close, its volume the sum of daily volumes |
| Weekly.AggregateAll | app.py:77 | one weekly bar per group, in order |
| Weekly.Resample | app.py:77 | weekly bar i is the aggregate of the i-th week group; there are no more weekly than daily bars, at least one when there is a daily bar, and neighbouring weekly bars belong to different weeks |
| Weekly.LastWeekKept | app.py:77 | the last weekly bar aggregates exactly the longest suffix of days sharing the last day's week key, however short (the partial week is kept) |
| Weekly.ResampleConservesVolume | app.py:77 | the weekly volumes add up to the daily volumes |
| Weekly.RunKeysIncrease | app.py:77 | with time-ordered week keys the weekly keys strictly increase, so each week appears once |
| Weekly.ResamplePreservesSane | app.py:77 | if every daily close lies inside its range, every weekly close lies inside the weekly range |
| Conditions.Classify | app.py:84-91 | Compression exactly when volume rose and ATR fell; otherwise Quiet Breakout exactly when the volume change is above 20% and the ATR change below 5%; otherwise Exhaustion exactly when the volume change is above −5% and the ATR change below −20%; else no label |
| Conditions.ClassifyByRatios | app.py:81-91 | with positive previous volume and ATR the same three-way priority holds with the thresholds as multiplications: 10·v > 12·v₀ and 100·a < 105·a₀; 100·v > 95·v₀ and 10·a < 8·a₀ |
| Conditions.QuietBreakoutHoldsAtr | app.py:86-89 | a Quiet Breakout has rising volume and an ATR that held or rose by under 5% |
| Conditions.ExhaustionHoldsVolume | app.py:86-91 | Exhaustion has volume down by under 5% (never up) and ATR down by over 20% |
| Conditions.ZeroPreviousAtr | app.py:81-91 | a zero previous ATR with a non-negative current ATR gives no label |
| Conditions.ZeroPreviousVolume | app.py:81-91 | a zero previous volume with positive current volume and a positive previous ATR gives a label exactly when ATR rose less than 5% |
| Conditions.ClassifyExamples | app.py:85-91 | sample weeks give Compression, Quiet Breakout, Exhaustion and no label |
| Trend.AnchorClose | app.py:97 | the anchor is the close at position length − 500 when there are at least 500 bars, else the first close |
| Trend.TrendOf | app.py:96-98 | the trend is Up exactly when the last close is strictly above the anchor close |
| Trend.TrendByReturn | app.py:96-98 | with a positive anchor close the trend is Up exactly when the return since the anchor is above 0%, and Down exactly when it is at most 0% |
| Trend.FlatIsDown | app.py:98 | an equal last and anchor close gives Down |
| Trend.Recent | app.py:100-101 | the window is the last 126 bars, or the whole of a shorter series |
| Trend.Extreme | app.py:100-102 | the move's reference: in an up trend a high of the last 126 bars (or fewer) that no high there exceeds; in a down trend a low there that no low there undercuts |
| Trend.RecentKeepsLast | app.py:100-101 | the recent window ends with the last bar and inherits positive, in-range prices |
| Trend.ExtremesBracketClose | app.py:100-101 | on positive in-range prices the lowest low is positive and at most the last close, which is at most the highest high |
| Trend.RecentBounds | app.py:100-101 | on positive prices with the close inside the range, the last close lies between the window's lowest low and highest high, both positive |
| Trend.MoveSign | app.py:100-102 | the move % (`Trend.MovePct`, the change from the extreme to the last close) is never positive in an up trend and never negative in a down trend, on positive prices with closes inside their ranges |
| Trend.PassTrendByPrices | app.py:100-106 | the trend-stage test `Trend.PassTrend` on the move: an up trend passes exactly when the close is at most 85% of the recent high, a down trend exactly when it is at least 115% of the recent low (positive prices) |
| Trend.PullbackThresholds | app.py:105 | `Trend.PassTrend`'s bounds ≤ −15% and ≥ +15% against a positive extreme are 100·close ≤ 85·high and 100·close ≥ 115·low |
| Momentum.SumBounds | app.py:109 | a sum of n values in [lo, hi] lies in [n·lo, n·hi] |
| Momentum.Sma | app.py:109 | the SMA is defined exactly when the window has filled, and then times the window equals the sum of the last 10 closes |
| Momentum.SmaWithinWindow | app.py:109 | the SMA lies within the range of the closes it averages |
| Momentum.SpanAlpha | app.py:110 | the span's smoothing factor is positive, and at most 1 for a span ≥ 1 |
| Momentum.EmaWithinRange | app.py:110 | `Momentum.Ema`, the non-adjusted span EMA at the last close, never leaves the range of the closes for a span ≥ 1 |
| Momentum.NineSpanAlpha | app.py:110 | `Momentum.Ema` with span 9 weighs each new close by 0.2 |
| Momentum.ConfirmedMirror | app.py:112-113 | up-trend confirmation of prices is down-trend confirmation of the negated prices, and back |
| Momentum.ConfirmedOneDirection | app.py:112-113 | `Momentum.Confirmed` (`is_confirmed`) never holds for both directions, and never before the SMA window has filled |
| Momentum.ConfirmsTrend | app.py:109-113 | the last bar confirms exactly when the 10-bar SMA window has filled and, for Up, both the close and the 9-span EMA are above the SMA, or, for Down, both are below it |
| Scanner.Analyse | app.py:76-113 | signals exist exactly when there are at least two weekly bars; the weekly figures are the last two weekly volumes and true ranges, their percentage changes (the result's volume and ATR change columns), and the label over them; price, trend, move and confirmation come from the daily series |
| Scanner.AdmitsStages | app.py:93-115 | the stage gates (`Scanner.Admits`): with every stage off everything passes; turning stages off never rejects what passed; with every stage on a series passes exactly when it has a label, passes the ±15% test and is confirmed |
| Scanner.ResultOf | app.py:117-127 | the record carries the symbol it was built for |
| Scanner.Evaluate | app.py:74-117 | a series yields a record, about its own symbol, exactly when it has ≥ 260 bars, ≥ 2 weeks and passes every enabled stage; such a record has a label if stage 1 is on, passes the ±15% test if stage 2 is on, and is confirmed if stage 3 is on |
| Scanner.Outcome | app.py:72-128 | one symbol's pass appends at most one record, about that symbol; a failed fetch appends nothing |
| Scanner.OutcomeAccepts | app.py:72-128 | a symbol appends a record exactly when its fetch succeeds and its series is accepted, and that record is the accepted one |
| Scanner.Step | app.py:70-128 | the loop body appends at most one record per symbol, about that symbol |
| Scanner.FoldLength | app.py:70-128 | a loop appending at most one record per symbol produces at most one record per candidate |
| Scanner.Scan | app.py:70-128 | no more results than candidates |
| Scanner.FoldSound | app.py:70-128 | every appended record names a candidate and came from that candidate's own step |
| Scanner.FoldComplete | app.py:70-128 | every candidate whose step gives a record is reported |
| Scanner.FoldKeepsOrder | app.py:70-128 | the reported symbols are a subsequence of the candidates |
| Scanner.FoldDistinct | app.py:70-128 | with distinct candidates the reported symbols are distinct |
| Scanner.FoldShrinks | app.py:70-128 | a step that keeps a subset of another's records, unchanged, gives a subsequence of its results |
| Scanner.ScanSound | app.py:70-128 | every result names a candidate whose fetch succeeded and whose series the funnel accepted, and is the record built from that series |
| Scanner.ScanComplete | app.py:70-128 | every accepted candidate is reported |
| Scanner.ScanKeepsOrder | app.py:70-128 | results come in candidate order, each candidate at most once |
| Scanner.ScanDistinct | app.py:51 | over deduplicated candidates no symbol is reported twice |
| Scanner.ScanDedupedDistinct | app.py:51-70 | scanning the deduplicated scrape reports every symbol at most once |
| Scanner.EvaluateMonotone | app.py:93-115 | whatever a configuration with more stages accepts, one with fewer accepts with the same record |
| Scanner.MoreStagesFewerResults | app.py:93-115 | enabling more stages yields a subsequence of the results: nothing is added or changed |
| Scanner.AllStagesOffKeepsEligible | app.py:72-79 | with every stage off a candidate is reported exactly when its fetch succeeds with ≥ 260 bars spanning ≥ 2 weeks |
| Candidates.Dedupe | app.py:51 | the candidates are distinct, hold exactly the scraped tickers, and are no more numerous |
| Candidates.DedupeIdempotent | app.py:51 | deduplicating twice is deduplicating once |
| Candidates.DedupeDistinct | app.py:51 | a list without duplicates is left unchanged |
| Export.LastNewline | app.py:144 | reading side only (the program never splits the file): the index found holds a newline and no newline follows it; it serves to state the round trip of the join |
| Export.JoinLines | app.py:144 | `"\n".join`: a non-empty list gives a file as long as the symbols' characters plus one separator between each pair of neighbours; an empty list gives the empty file |
| Export.JoinLinesLayout | app.py:144 | in the joined file each symbol is copied whole at its offset (the characters of the symbols before it plus one separator each), and a newline sits just before every symbol but the first; with the length this is exactly `"\n".join`, with no trailing newline |
| Export.SplitJoin | app.py:144 | splitting the newline-joined symbols at newlines gives back the non-empty symbol list, when no symbol holds a newline |
| Export.Watchlist | app.py:134-146 | a watchlist file is offered exactly when there is at least one result |
| Export.WatchlistListsResults | app.py:144 | over deduplicated, newline-free candidates, whenever a watchlist is produced it splits back into the reported symbols in scan order, each once |

## Left out

- Symbol scraping (`get_symbols`, app.py:33-50) is HTTP and HTML parsing. Only the deduplication on app.py:51 is modelled, as `Candidates.Dedupe`.
- Candidates.Dedupe: Python's `list(set(...))` order is unspecified. The model fixes one order, first occurrence, and its contract states only membership and distinctness.
- The yfinance download (app.py:73) is the parameter `fetch: string -> Option<seq<Bar>>`. A failed download, and any exception other than the too-few-weeks case, is `None`.
- The Streamlit page is presentation and is not modelled. This covers page set-up, CSS, title, progress bar, status text, the coloured `Action` column (`style_action`), the dataframe and the "no matches" warning. The three sidebar toggles are the `Stages` value.
- Display formatting (app.py:119-126) is left out. The result keeps the unrounded numbers and the direction, not the rounded price or the `"…%"` and `"LONG 🟢"` strings.
- Prices use exact `real` arithmetic, not IEEE doubles, so rounding is not modelled. Infinities and NaN are modelled only where app.py divides (lines 81-82 and 102) and for the first bar's missing previous close. NaN in fetched data is not modelled.
- The calendar is abstracted to a week key per bar. The Sunday-anchored bins of `resample('W')` are not modelled. Neither are the empty rows pandas inserts for a week with no bars, or `last` skipping NaN closes.
- The open price is fetched but never read, so `Bar` has no open field.
- Trend.MoveSign: stated only for positive prices whose closes lie inside their ranges. On other data the sign of the move is not determined.
- Trend.PassTrendByPrices: stated only for positive prices whose closes lie inside their ranges.
- Export.SplitJoin: stated only for symbols without a newline and a non-empty list. `"\n".join` of other lists does not split back.
- Momentum.EmaWithinRange: stated for spans ≥ 1, the spans pandas accepts. A span of 0 gives a factor of 2.

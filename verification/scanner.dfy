/** The scan: for every candidate symbol, fetch its daily series, compute the
    weekly condition, the trend and move, and the momentum confirmation, and
    keep the symbol when it passes every enabled stage. A failure for one
    symbol skips that symbol only. */
module Scanner {

  import opened Wrappers
  import opened Ratios
  import opened Bars
  import opened Weekly
  import opened Conditions
  import opened Trend
  import opened Momentum
  import opened Candidates

  /** Daily bars a series needs before it is looked at. */
  const MinHistory: nat := 260

  /** The three sidebar toggles. */
  datatype Stages = Stages(atr: bool, trend: bool, tech: bool)

  const AllOff := Stages(false, false, false)

  /** Everything the funnel computes for one series. */
  datatype Signals = Signals(
    condition: Option<Condition>,
    volPrev: real, volNow: real,
    atrPrev: real, atrNow: real,
    volPct: Pct, atrPct: Pct,
    trend: Direction, price: real, movePct: Pct,
    confirmed: bool)

  /** One row of the result table, with the numbers before display rounding. */
  datatype ScanResult = ScanResult(
    symbol: string, trend: Direction, condition: Option<Condition>,
    price: real, movePct: Pct,
    atrNow: real, atrPrev: real, volNow: real, volPrev: real,
    atrPct: Pct, volPct: Pct)

  /** The signals of a daily series, or `None` when it resamples to fewer
      than two weeks (taking the second-to-last week raises, and the scan
      skips the symbol). */
  function Analyse(bars: seq<Bar>): (s: Option<Signals>)
    requires |bars| > 0
    ensures s.Some? <==> |Resample(bars)| >= 2
    ensures s.Some? ==> var ws := Resample(bars); var n := |ws|;
              && s.value.volNow == ws[n - 1].volume as real
              && s.value.volPrev == ws[n - 2].volume as real
              && s.value.atrNow == TrueRange(ws, n - 1)
              && s.value.atrPrev == TrueRange(ws, n - 2)
              && s.value.condition == Classify(s.value.volPrev, s.value.atrPrev, s.value.volNow, s.value.atrNow)
              && s.value.volPct == PctChange(s.value.volNow, s.value.volPrev)
              && s.value.atrPct == PctChange(s.value.atrNow, s.value.atrPrev)
    ensures s.Some? ==> s.value.price == Last(bars).close && s.value.trend == TrendOf(bars)
    ensures s.Some? ==> s.value.movePct == MovePct(bars, s.value.trend)
    ensures s.Some? ==> s.value.confirmed == ConfirmsTrend(bars, s.value.trend)
  {
    var weekly := Resample(bars);
    if |weekly| < 2 then None
    else
      var atr := Atr(weekly);
      var n := |weekly|;
      AtrIsTrueRange(weekly);
      var volPrev, volNow := weekly[n - 2].volume as real, weekly[n - 1].volume as real;
      var atrPrev, atrNow := atr[n - 2], atr[n - 1];
      var trend := TrendOf(bars);
      Some(Signals(
        Classify(volPrev, atrPrev, volNow, atrNow),
        volPrev, volNow, atrPrev, atrNow,
        PctChange(volNow, volPrev), PctChange(atrNow, atrPrev),
        trend, Last(bars).close, MovePct(bars, trend),
        ConfirmsTrend(bars, trend)))
  }

  /** The enabled stages all pass: a label when the ATR stage is on, the
      pullback when the trend stage is on, confirmation when the momentum
      stage is on. */
  predicate Admits(stages: Stages, sig: Signals)
  {
    && (stages.atr ==> sig.condition.Some?)
    && (stages.trend ==> PassTrend(sig.trend, sig.movePct))
    && (stages.tech ==> sig.confirmed)
  }

  /** `more` enables every stage `fewer` enables. */
  predicate StagesWithin(fewer: Stages, more: Stages)
  {
    (fewer.atr ==> more.atr) && (fewer.trend ==> more.trend) && (fewer.tech ==> more.tech)
  }

  /** With every stage off any signals pass, and switching a stage off
      never rejects signals that passed before. */
  lemma AdmitsStages(sig: Signals, fewer: Stages, more: Stages)
    ensures Admits(AllOff, sig)
    ensures StagesWithin(fewer, more) && Admits(more, sig) ==> Admits(fewer, sig)
    ensures Admits(Stages(true, true, true), sig) <==> sig.condition.Some? && PassTrend(sig.trend, sig.movePct) && sig.confirmed
  {
  }

  function ResultOf(symbol: string, sig: Signals): (r: ScanResult)
    ensures r.symbol == symbol
  {
    ScanResult(symbol, sig.trend, sig.condition, sig.price, sig.movePct,
               sig.atrNow, sig.atrPrev, sig.volNow, sig.volPrev, sig.atrPct, sig.volPct)
  }

  /** One pass of the loop body for a fetched series. */
  function Evaluate(symbol: string, bars: seq<Bar>, stages: Stages): (r: Option<ScanResult>)
    ensures r.Some? <==> |bars| >= MinHistory && |Resample(bars)| >= 2 && Admits(stages, Analyse(bars).value)
    ensures r.Some? ==> r.value == ResultOf(symbol, Analyse(bars).value)
    ensures r.Some? ==> r.value.symbol == symbol
    ensures r.Some? && stages.atr ==> r.value.condition.Some?
    ensures r.Some? && stages.trend ==> PassTrend(r.value.trend, r.value.movePct)
    ensures r.Some? && stages.tech ==> ConfirmsTrend(bars, r.value.trend)
  {
    if |bars| < MinHistory then None
    else
      match Analyse(bars)
      case None => None
      case Some(sig) => if Admits(stages, sig) then Some(ResultOf(symbol, sig)) else None
  }

  /** What the loop appends for one symbol: nothing when the fetch fails or
      the series is rejected, else its one result. */
  function Outcome(symbol: string, fetch: string -> Option<seq<Bar>>, stages: Stages): (out: seq<ScanResult>)
    ensures |out| <= 1
    ensures forall k :: 0 <= k < |out| ==> out[k].symbol == symbol
    ensures fetch(symbol).None? ==> out == []
  {
    var fetched := fetch(symbol);
    if fetched.None? then []
    else
      var r := Evaluate(symbol, fetched.value, stages);
      if r.None? then [] else [r.value]
  }

  /** The symbol yields a result. */
  predicate Accepts(symbol: string, fetch: string -> Option<seq<Bar>>, stages: Stages)
  {
    fetch(symbol).Some? && Evaluate(symbol, fetch(symbol).value, stages).Some?
  }

  /** A symbol yields one result exactly when it is accepted. */
  lemma OutcomeAccepts(symbol: string, fetch: string -> Option<seq<Bar>>, stages: Stages)
    ensures |Outcome(symbol, fetch, stages)| == 1 <==> Accepts(symbol, fetch, stages)
    ensures |Outcome(symbol, fetch, stages)| == 1 ==>
              Evaluate(symbol, fetch(symbol).value, stages) == Some(Outcome(symbol, fetch, stages)[0])
  {
  }

  /** A loop body that appends at most one record, about the symbol at hand. */
  ghost predicate PerSymbol(step: string -> seq<ScanResult>)
  {
    forall s :: |step(s)| <= 1 && forall k :: 0 <= k < |step(s)| ==> step(s)[k].symbol == s
  }

  /** The loop over the candidates: each symbol in turn appends what `step`
      gives for it. */
  function Fold(symbols: seq<string>, step: string -> seq<ScanResult>): seq<ScanResult>
    decreases |symbols|
  {
    if |symbols| == 0 then [] else Fold(symbols[..|symbols| - 1], step) + step(symbols[|symbols| - 1])
  }

  lemma {:induction false} FoldLength(symbols: seq<string>, step: string -> seq<ScanResult>)
    requires PerSymbol(step)
    ensures |Fold(symbols, step)| <= |symbols|
    decreases |symbols|
  {
    if |symbols| > 0 {
      FoldLength(symbols[..|symbols| - 1], step);
    }
  }

  /** The scan's loop body with the fetch and toggles fixed for the run. */
  function Step(fetch: string -> Option<seq<Bar>>, stages: Stages): (step: string -> seq<ScanResult>)
    ensures PerSymbol(step)
    ensures forall s :: step(s) == Outcome(s, fetch, stages)
  {
    s => Outcome(s, fetch, stages)
  }

  /** The scan loop with every toggle fixed for the whole run. */
  function Scan(symbols: seq<string>, fetch: string -> Option<seq<Bar>>, stages: Stages): (results: seq<ScanResult>)
    ensures |results| <= |symbols|
  {
    FoldLength(symbols, Step(fetch, stages));
    Fold(symbols, Step(fetch, stages))
  }

  function SymbolsOf(results: seq<ScanResult>): (syms: seq<string>)
    ensures |syms| == |results|
    ensures forall k :: 0 <= k < |results| ==> syms[k] == results[k].symbol
  {
    seq(|results|, k requires 0 <= k < |results| => results[k].symbol)
  }

  lemma SymbolsOfAppend(a: seq<ScanResult>, b: seq<ScanResult>)
    ensures SymbolsOf(a + b) == SymbolsOf(a) + SymbolsOf(b)
  {
  }

  /** Every record the loop appends came from the step of its own symbol,
      one of the candidates. */
  lemma {:induction false} FoldSound(symbols: seq<string>, step: string -> seq<ScanResult>)
    requires PerSymbol(step)
    ensures forall k :: 0 <= k < |Fold(symbols, step)| ==>
              Fold(symbols, step)[k].symbol in symbols && Fold(symbols, step)[k] in step(Fold(symbols, step)[k].symbol)
    decreases |symbols|
  {
    if |symbols| > 0 {
      var prefix, s := symbols[..|symbols| - 1], symbols[|symbols| - 1];
      FoldSound(prefix, step);
      var before, results := Fold(prefix, step), Fold(symbols, step);
      forall k | 0 <= k < |results|
        ensures results[k].symbol in symbols && results[k] in step(results[k].symbol)
      {
        if k < |before| {
          assert results[k] == before[k];
        } else {
          assert results[k] == step(s)[k - |before|];
        }
      }
    }
  }

  /** Some record in `results` is about `symbol`. */
  ghost predicate Reported(results: seq<ScanResult>, symbol: string)
  {
    exists k :: 0 <= k < |results| && results[k].symbol == symbol
  }

  /** Every candidate whose step gives a record is reported. */
  lemma {:induction false} FoldComplete(symbols: seq<string>, step: string -> seq<ScanResult>)
    requires PerSymbol(step)
    ensures forall i :: 0 <= i < |symbols| && |step(symbols[i])| > 0 ==> Reported(Fold(symbols, step), symbols[i])
    decreases |symbols|
  {
    if |symbols| > 0 {
      var prefix, s := symbols[..|symbols| - 1], symbols[|symbols| - 1];
      FoldComplete(prefix, step);
      var before, results := Fold(prefix, step), Fold(symbols, step);
      assert results == before + step(s);
      forall i | 0 <= i < |symbols| && |step(symbols[i])| > 0
        ensures Reported(results, symbols[i])
      {
        if i < |prefix| {
          assert symbols[i] == prefix[i];
          assert Reported(before, prefix[i]);
          var k :| 0 <= k < |before| && before[k].symbol == prefix[i];
          assert results[k] == before[k];
        } else {
          assert results[|before|] == step(s)[0];
          assert step(s)[0].symbol == s;
        }
      }
    }
  }

  /** Every result belongs to a candidate the scan accepted, and is the
      record built from that candidate's own series: it had at least 260
      bars and passed each enabled stage. */
  lemma ScanSound(symbols: seq<string>, fetch: string -> Option<seq<Bar>>, stages: Stages)
    ensures forall k :: 0 <= k < |Scan(symbols, fetch, stages)| ==>
              var r := Scan(symbols, fetch, stages)[k];
              && r.symbol in symbols
              && Accepts(r.symbol, fetch, stages)
              && Evaluate(r.symbol, fetch(r.symbol).value, stages) == Some(r)
  {
    var step := Step(fetch, stages);
    FoldSound(symbols, step);
    var results := Scan(symbols, fetch, stages);
    forall k | 0 <= k < |results|
      ensures Accepts(results[k].symbol, fetch, stages)
      ensures Evaluate(results[k].symbol, fetch(results[k].symbol).value, stages) == Some(results[k])
    {
      OutcomeAccepts(results[k].symbol, fetch, stages);
    }
  }

  /** Every accepted candidate appears among the results. */
  lemma ScanComplete(symbols: seq<string>, fetch: string -> Option<seq<Bar>>, stages: Stages)
    ensures forall i :: 0 <= i < |symbols| && Accepts(symbols[i], fetch, stages) ==>
              Reported(Scan(symbols, fetch, stages), symbols[i])
  {
    var step := Step(fetch, stages);
    FoldComplete(symbols, step);
    forall i | 0 <= i < |symbols| && Accepts(symbols[i], fetch, stages)
      ensures |step(symbols[i])| > 0
    {
      OutcomeAccepts(symbols[i], fetch, stages);
    }
  }

  /** `a` is a subsequence of `b`: `b` with some elements deleted. */
  predicate IsSubseq<T(==)>(a: seq<T>, b: seq<T>)
    decreases |b|
  {
    if |a| == 0 then true
    else if |b| == 0 then false
    else if a[|a| - 1] == b[|b| - 1] then IsSubseq(a[..|a| - 1], b[..|b| - 1])
    else IsSubseq(a, b[..|b| - 1])
  }

  lemma {:induction false} IsSubseqSnocRight<T>(a: seq<T>, b: seq<T>, x: T)
    requires IsSubseq(a, b)
    ensures IsSubseq(a, b + [x])
    decreases |b|, 1
  {
    assert (b + [x])[..|b|] == b;
    if |a| > 0 && a[|a| - 1] == x {
      IsSubseqDropLast(a, b);
    }
  }

  lemma {:induction false} IsSubseqDropLast<T>(a: seq<T>, b: seq<T>)
    requires |a| > 0 && IsSubseq(a, b)
    ensures IsSubseq(a[..|a| - 1], b)
    decreases |b|, 0
  {
    var a', b' := a[..|a| - 1], b[..|b| - 1];
    assert b == b' + [b[|b| - 1]];
    if a[|a| - 1] == b[|b| - 1] {
      IsSubseqSnocRight(a', b', b[|b| - 1]);
    } else {
      IsSubseqDropLast(a, b');
      IsSubseqSnocRight(a', b', b[|b| - 1]);
    }
  }

  lemma IsSubseqSnocBoth<T>(a: seq<T>, b: seq<T>, x: T)
    requires IsSubseq(a, b)
    ensures IsSubseq(a + [x], b + [x])
  {
    assert (a + [x])[..|a|] == a;
    assert (b + [x])[..|b|] == b;
  }

  lemma {:induction false} FoldKeepsOrder(symbols: seq<string>, step: string -> seq<ScanResult>)
    requires PerSymbol(step)
    ensures IsSubseq(SymbolsOf(Fold(symbols, step)), symbols)
    decreases |symbols|
  {
    if |symbols| > 0 {
      var prefix, s := symbols[..|symbols| - 1], symbols[|symbols| - 1];
      FoldKeepsOrder(prefix, step);
      var before := SymbolsOf(Fold(prefix, step));
      SymbolsOfAppend(Fold(prefix, step), step(s));
      assert symbols == prefix + [s];
      if |step(s)| == 0 {
        assert SymbolsOf(step(s)) == [];
        assert SymbolsOf(Fold(symbols, step)) == before;
        IsSubseqSnocRight(before, prefix, s);
      } else {
        assert SymbolsOf(step(s)) == [s];
        IsSubseqSnocBoth(before, prefix, s);
      }
    }
  }

  /** Results come in candidate order, each candidate at most once. */
  lemma ScanKeepsOrder(symbols: seq<string>, fetch: string -> Option<seq<Bar>>, stages: Stages)
    ensures IsSubseq(SymbolsOf(Scan(symbols, fetch, stages)), symbols)
  {
    var step := Step(fetch, stages);
    FoldKeepsOrder(symbols, step);
  }

  lemma {:induction false} FoldDistinct(symbols: seq<string>, step: string -> seq<ScanResult>)
    requires PerSymbol(step)
    requires Distinct(symbols)
    ensures Distinct(SymbolsOf(Fold(symbols, step)))
    decreases |symbols|
  {
    if |symbols| > 0 {
      var prefix, s := symbols[..|symbols| - 1], symbols[|symbols| - 1];
      FoldDistinct(prefix, step);
      FoldSound(prefix, step);
      var before, results := Fold(prefix, step), Fold(symbols, step);
      assert s !in prefix;
      forall i, j | 0 <= i < j < |results|
        ensures results[i].symbol != results[j].symbol
      {
        assert results[i] == before[i];
        if j < |before| {
          assert results[j] == before[j];
          assert SymbolsOf(before)[i] != SymbolsOf(before)[j];
        } else {
          assert results[j] == step(s)[j - |before|];
          assert before[i].symbol in prefix;
        }
      }
    }
  }

  /** With deduplicated candidates no symbol is reported twice. */
  lemma ScanDistinct(symbols: seq<string>, fetch: string -> Option<seq<Bar>>, stages: Stages)
    requires Distinct(symbols)
    ensures Distinct(SymbolsOf(Scan(symbols, fetch, stages)))
  {
    var step := Step(fetch, stages);
    FoldDistinct(symbols, step);
  }

  /** Scanning the deduplicated scrape reports every symbol at most once. */
  lemma ScanDedupedDistinct(raw: seq<string>, fetch: string -> Option<seq<Bar>>, stages: Stages)
    ensures Distinct(SymbolsOf(Scan(Dedupe(raw), fetch, stages)))
  {
    ScanDistinct(Dedupe(raw), fetch, stages);
  }

  /** A loop body that keeps fewer records, and the same ones, keeps a
      subsequence of the records. */
  lemma {:induction false} FoldShrinks(symbols: seq<string>, fewer: string -> seq<ScanResult>, more: string -> seq<ScanResult>)
    requires PerSymbol(fewer) && PerSymbol(more)
    requires forall s :: |more(s)| > 0 ==> more(s) == fewer(s)
    ensures IsSubseq(Fold(symbols, more), Fold(symbols, fewer))
    decreases |symbols|
  {
    if |symbols| > 0 {
      var prefix, s := symbols[..|symbols| - 1], symbols[|symbols| - 1];
      FoldShrinks(prefix, fewer, more);
      var a, b := Fold(prefix, more), Fold(prefix, fewer);
      var oa, ob := more(s), fewer(s);
      if |oa| == 0 {
        assert a + oa == a;
        if |ob| == 0 {
          assert b + ob == b;
        } else {
          assert ob == [ob[0]];
          IsSubseqSnocRight(a, b, ob[0]);
        }
      } else {
        assert oa == ob;
        assert oa == [oa[0]];
        IsSubseqSnocBoth(a, b, oa[0]);
      }
    }
  }

  /** A symbol a stricter configuration accepts gets the same record from
      a looser one. */
  lemma EvaluateMonotone(symbol: string, bars: seq<Bar>, fewer: Stages, more: Stages)
    requires StagesWithin(fewer, more)
    ensures Evaluate(symbol, bars, more).Some? ==> Evaluate(symbol, bars, fewer) == Evaluate(symbol, bars, more)
  {
  }

  /** Switching on more stages only removes results; the results that
      remain are unchanged and in the same order. */
  lemma MoreStagesFewerResults(symbols: seq<string>, fetch: string -> Option<seq<Bar>>, fewer: Stages, more: Stages)
    requires StagesWithin(fewer, more)
    ensures IsSubseq(Scan(symbols, fetch, more), Scan(symbols, fetch, fewer))
  {
    var stepF, stepM := Step(fetch, fewer), Step(fetch, more);
    forall s | |stepM(s)| > 0
      ensures stepM(s) == stepF(s)
    {
      if fetch(s).Some? {
        EvaluateMonotone(s, fetch(s).value, fewer, more);
      }
    }
    FoldShrinks(symbols, stepF, stepM);
  }

  /** A fetched series the scan can look at: long enough, and spanning at
      least two weeks. */
  predicate Eligible(fetched: Option<seq<Bar>>)
  {
    fetched.Some? && |fetched.value| >= MinHistory && |Resample(fetched.value)| >= 2
  }

  /** With every stage off, a candidate is reported exactly when its fetch
      succeeds with an eligible series. */
  lemma AllStagesOffKeepsEligible(symbols: seq<string>, fetch: string -> Option<seq<Bar>>)
    ensures forall i :: 0 <= i < |symbols| ==>
              (Eligible(fetch(symbols[i])) <==> Reported(Scan(symbols, fetch, AllOff), symbols[i]))
  {
    ScanSound(symbols, fetch, AllOff);
    ScanComplete(symbols, fetch, AllOff);
  }

}

/** The weekly resample: daily bars grouped by week, each group summarised
    as one bar (highest high, lowest low, last close, total volume). Weeks
    are the maximal runs of consecutive bars sharing a week key. */
module Weekly {

  import opened Ratios
  import opened Bars

  function Flatten(rs: seq<seq<Bar>>): seq<Bar>
  {
    if |rs| == 0 then [] else Flatten(rs[..|rs| - 1]) + rs[|rs| - 1]
  }

  lemma FlattenSnoc(rs: seq<seq<Bar>>, r: seq<Bar>)
    ensures Flatten(rs + [r]) == Flatten(rs) + r
  {
    assert (rs + [r])[..|rs|] == rs;
  }

  /** Splits the bars into maximal runs of equal week key, in order (the
      partition is stated by `RunsCover`, `RunsOneWeek` and `RunsMaximal`). */
  function Runs(bars: seq<Bar>): (rs: seq<seq<Bar>>)
    ensures forall i :: 0 <= i < |rs| ==> |rs[i]| > 0
    decreases |bars|
  {
    if |bars| == 0 then []
    else
      var b := bars[|bars| - 1];
      var rs := Runs(bars[..|bars| - 1]);
      if |rs| > 0 && rs[|rs| - 1][0].week == b.week then
        rs[..|rs| - 1] + [rs[|rs| - 1] + [b]]
      else
        rs + [[b]]
  }

  /** All bars of a run carry the run's week key. */
  predicate OneWeek(r: seq<Bar>)
  {
    forall k :: 0 <= k < |r| ==> r[k].week == r[0].week
  }

  /** The runs cover the bars exactly, in order, with no empty run. */
  lemma {:induction false} RunsCover(bars: seq<Bar>)
    ensures Flatten(Runs(bars)) == bars
    ensures |Runs(bars)| <= |bars|
    ensures |bars| > 0 <==> |Runs(bars)| > 0
    decreases |bars|
  {
    if |bars| > 0 {
      var prefix := bars[..|bars| - 1];
      var b := bars[|bars| - 1];
      var rs: seq<seq<Bar>> := Runs(prefix);
      RunsCover(prefix);
      assert prefix + [b] == bars;
      if |rs| > 0 && rs[|rs| - 1][0].week == b.week {
        var m := |rs| - 1;
        assert rs == rs[..m] + [rs[m]];
        FlattenSnoc(rs[..m], rs[m]);
        FlattenSnoc(rs[..m], rs[m] + [b]);
      } else {
        FlattenSnoc(rs, [b]);
      }
    }
  }

  /** Each run holds a single week key. */
  lemma {:induction false} RunsOneWeek(bars: seq<Bar>)
    ensures forall i :: 0 <= i < |Runs(bars)| ==> OneWeek(Runs(bars)[i])
    decreases |bars|
  {
    if |bars| > 0 {
      var prefix := bars[..|bars| - 1];
      var b := bars[|bars| - 1];
      var rs: seq<seq<Bar>> := Runs(prefix);
      RunsOneWeek(prefix);
      if |rs| > 0 && rs[|rs| - 1][0].week == b.week {
        var m := |rs| - 1;
        var out: seq<seq<Bar>> := rs[..m] + [rs[m] + [b]];
        assert Runs(bars) == out;
        assert OneWeek(rs[m]);
        assert OneWeek(out[m]);
      } else {
        assert Runs(bars) == rs + [[b]];
      }
    }
  }

  /** Neighbouring runs hold different keys, so no run can be extended. */
  lemma {:induction false} RunsMaximal(bars: seq<Bar>)
    ensures forall i :: 0 < i < |Runs(bars)| ==> Runs(bars)[i - 1][0].week != Runs(bars)[i][0].week
    decreases |bars|
  {
    if |bars| > 0 {
      var prefix := bars[..|bars| - 1];
      var b := bars[|bars| - 1];
      var rs: seq<seq<Bar>> := Runs(prefix);
      RunsMaximal(prefix);
      if |rs| > 0 && rs[|rs| - 1][0].week == b.week {
        var m := |rs| - 1;
        var out: seq<seq<Bar>> := rs[..m] + [rs[m] + [b]];
        assert Runs(bars) == out;
        forall i | 0 < i < |out|
          ensures out[i - 1][0].week != out[i][0].week
        {
          assert out[i - 1] == rs[i - 1];
          assert out[i][0] == rs[i][0];
        }
      } else {
        assert Runs(bars) == rs + [[b]];
      }
    }
  }

  function MaxHigh(bars: seq<Bar>): (h: real)
    requires |bars| > 0
    ensures forall k :: 0 <= k < |bars| ==> bars[k].high <= h
    ensures exists k :: 0 <= k < |bars| && bars[k].high == h
  {
    if |bars| == 1 then bars[0].high
    else Max(MaxHigh(bars[..|bars| - 1]), bars[|bars| - 1].high)
  }

  function MinLow(bars: seq<Bar>): (l: real)
    requires |bars| > 0
    ensures forall k :: 0 <= k < |bars| ==> l <= bars[k].low
    ensures exists k :: 0 <= k < |bars| && bars[k].low == l
  {
    if |bars| == 1 then bars[0].low
    else Min(MinLow(bars[..|bars| - 1]), bars[|bars| - 1].low)
  }

  function SumVolume(bars: seq<Bar>): nat
  {
    if |bars| == 0 then 0 else SumVolume(bars[..|bars| - 1]) + bars[|bars| - 1].volume
  }

  lemma {:induction false} SumVolumeAppend(a: seq<Bar>, b: seq<Bar>)
    ensures SumVolume(a + b) == SumVolume(a) + SumVolume(b)
    decreases |b|
  {
    if |b| > 0 {
      var b' := b[..|b| - 1];
      assert (a + b)[..|a + b| - 1] == a + b';
      SumVolumeAppend(a, b');
    } else {
      assert a + b == a;
    }
  }

  /** One weekly bar from the daily bars of its week. */
  function Aggregate(run: seq<Bar>): (w: Bar)
    requires |run| > 0
    ensures w.week == run[0].week
    ensures forall k :: 0 <= k < |run| ==> run[k].high <= w.high && w.low <= run[k].low
    ensures exists k :: 0 <= k < |run| && run[k].high == w.high
    ensures exists k :: 0 <= k < |run| && run[k].low == w.low
    ensures w.close == run[|run| - 1].close
    ensures w.volume == SumVolume(run)
  {
    Bar(run[0].week, MaxHigh(run), MinLow(run), run[|run| - 1].close, SumVolume(run))
  }

  function AggregateAll(rs: seq<seq<Bar>>): (ws: seq<Bar>)
    requires forall i :: 0 <= i < |rs| ==> |rs[i]| > 0
    ensures |ws| == |rs|
    ensures forall i :: 0 <= i < |rs| ==> ws[i] == Aggregate(rs[i])
  {
    if |rs| == 0 then [] else AggregateAll(rs[..|rs| - 1]) + [Aggregate(rs[|rs| - 1])]
  }

  /** `data.resample('W').agg(...)`: one bar per week, in week order. */
  function Resample(bars: seq<Bar>): (ws: seq<Bar>)
    ensures |ws| <= |bars|
    ensures |bars| > 0 <==> |ws| > 0
    ensures forall i :: 0 < i < |ws| ==> ws[i - 1].week != ws[i].week
    ensures |ws| == |Runs(bars)| && forall i :: 0 <= i < |ws| ==> ws[i] == Aggregate(Runs(bars)[i])
  {
    RunsCover(bars);
    RunsMaximal(bars);
    AggregateAll(Runs(bars))
  }

  /** The most recent week is kept even when partial: the last weekly bar
      summarises exactly the longest suffix of days sharing the last day's
      week key. */
  lemma {:induction false} LastWeekKept(bars: seq<Bar>) returns (j: nat)
    requires |bars| > 0
    ensures j < |bars|
    ensures Last(Resample(bars)) == Aggregate(bars[j..])
    ensures forall k :: j <= k < |bars| ==> bars[k].week == Last(bars).week
    ensures j > 0 ==> bars[j - 1].week != Last(bars).week
  {
    RunsCover(bars);
    var rs: seq<seq<Bar>> := Runs(bars);
    var m := |rs| - 1;
    j := |Flatten(rs[..m])|;
    assert j < |bars| && bars[j..] == rs[m] by {
      FlattenPrefixSnoc(rs, m);
      assert rs[..m + 1] == rs;
      forall k | 0 <= k < |rs[m]|
        ensures bars[j + k] == rs[m][k]
      {
        FlattenIndex(rs, m, k);
      }
    }
    assert OneWeek(rs[m]) by {
      RunsOneWeek(bars);
    }
    if j > 0 {
      assert bars[j - 1].week != Last(bars).week by {
        FlattenIndex(rs, m - 1, |rs[m - 1]| - 1);
        FlattenPrefixSnoc(rs, m - 1);
        RunsOneWeek(bars);
        RunsMaximal(bars);
        assert OneWeek(rs[m - 1]);
      }
    }
    assert Last(Resample(bars)) == Aggregate(rs[m]);
  }

  lemma {:induction false} AggregateAllVolume(rs: seq<seq<Bar>>)
    requires forall i :: 0 <= i < |rs| ==> |rs[i]| > 0
    ensures SumVolume(AggregateAll(rs)) == SumVolume(Flatten(rs))
  {
    if |rs| > 0 {
      var p := rs[..|rs| - 1];
      AggregateAllVolume(p);
      var ws := AggregateAll(rs);
      assert ws[..|ws| - 1] == AggregateAll(p);
      SumVolumeAppend(Flatten(p), rs[|rs| - 1]);
    }
  }

  /** Resampling neither loses nor invents volume. */
  lemma ResampleConservesVolume(bars: seq<Bar>)
    ensures SumVolume(Resample(bars)) == SumVolume(bars)
  {
    RunsCover(bars);
    AggregateAllVolume(Runs(bars));
  }

  /** With week keys in time order (the bars are sorted by date), every week
      appears exactly once, as one weekly bar, and weekly keys increase. */
  lemma RunKeysIncrease(bars: seq<Bar>)
    requires forall i :: 0 < i < |bars| ==> bars[i - 1].week <= bars[i].week
    ensures forall i :: 0 < i < |Resample(bars)| ==> Resample(bars)[i - 1].week < Resample(bars)[i].week
  {
    RunsCover(bars);
    RunsOneWeek(bars);
    RunsMaximal(bars);
    var rs: seq<seq<Bar>> := Runs(bars);
    forall i | 0 < i < |rs|
      ensures rs[i - 1][0].week < rs[i][0].week
    {
      var j := |Flatten(rs[..i])|;
      FlattenIndex(rs, i, 0);
      FlattenIndex(rs, i - 1, |rs[i - 1]| - 1);
      FlattenPrefixSnoc(rs, i - 1);
      assert bars[j - 1].week <= bars[j].week;
      assert OneWeek(rs[i - 1]);
    }
  }

  /** Element `k` of run `i` sits in the flattened list right after the
      bars of the runs before it. */
  lemma FlattenIndex(rs: seq<seq<Bar>>, i: nat, k: nat)
    requires i < |rs| && k < |rs[i]|
    ensures |Flatten(rs[..i])| + k < |Flatten(rs)|
    ensures Flatten(rs)[|Flatten(rs[..i])| + k] == rs[i][k]
  {
    var p := rs[..i + 1];
    assert rs == p + rs[i + 1..];
    FlattenAppend(p, rs[i + 1..]);
    assert p == p[..i] + [p[i]];
    assert p[..i] == rs[..i];
    FlattenSnoc(p[..i], p[i]);
  }

  lemma FlattenPrefixSnoc(rs: seq<seq<Bar>>, i: nat)
    requires i < |rs|
    ensures |Flatten(rs[..i + 1])| == |Flatten(rs[..i])| + |rs[i]|
  {
    assert rs[..i + 1] == rs[..i] + [rs[i]];
    FlattenSnoc(rs[..i], rs[i]);
  }

  lemma {:induction false} FlattenAppend(a: seq<seq<Bar>>, b: seq<seq<Bar>>)
    ensures Flatten(a + b) == Flatten(a) + Flatten(b)
    decreases |b|
  {
    if |b| == 0 {
      assert a + b == a;
    } else {
      var b' := b[..|b| - 1];
      assert a + b == (a + b') + [b[|b| - 1]];
      FlattenSnoc(a + b', b[|b| - 1]);
      FlattenAppend(a, b');
      FlattenSnoc(b', b[|b| - 1]);
      assert b == b' + [b[|b| - 1]];
    }
  }

  /** Resampling keeps the close inside each bar's range. */
  lemma ResamplePreservesSane(bars: seq<Bar>)
    requires AllSane(bars)
    ensures AllSane(Resample(bars))
  {
    RunsCover(bars);
    var rs: seq<seq<Bar>> := Runs(bars);
    forall i | 0 <= i < |rs|
      ensures Sane(Aggregate(rs[i]))
    {
      RunInside(rs, i);
      var r := rs[i];
      assert Sane(r[|r| - 1]);
    }
  }

  /** Every bar of a run is one of the input bars. */
  lemma RunInside(rs: seq<seq<Bar>>, i: nat)
    requires i < |rs|
    ensures forall k :: 0 <= k < |rs[i]| ==> rs[i][k] in Flatten(rs)
  {
    forall k | 0 <= k < |rs[i]|
      ensures rs[i][k] in Flatten(rs)
    {
      FlattenIndex(rs, i, k);
    }
  }


}

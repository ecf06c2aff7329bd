/** The downloadable watchlist: the accepted symbols joined by newlines,
    offered only when there is at least one result. */
module Export {

  import opened Wrappers
  import opened Candidates
  import opened Scanner
  import opened Bars

  /** Total number of characters in the symbols. */
  function TotalLength(xs: seq<string>): nat
  {
    if |xs| == 0 then 0 else TotalLength(xs[..|xs| - 1]) + |xs[|xs| - 1]|
  }

  /** `"\n".join(xs)`: no header and no trailing newline, so exactly one
      separator between neighbouring symbols. */
  function JoinLines(xs: seq<string>): (s: string)
    ensures |xs| > 0 ==> |s| == TotalLength(xs) + |xs| - 1
    ensures |xs| == 0 ==> s == ""
  {
    if |xs| == 0 then ""
    else if |xs| == 1 then xs[0]
    else JoinLines(xs[..|xs| - 1]) + "\n" + xs[|xs| - 1]
  }

  /** Where the `i`-th symbol starts in the joined file: the characters of
      the symbols before it and one separator after each of them. */
  function Offset(xs: seq<string>, i: nat): nat
    requires i <= |xs|
  {
    TotalLength(xs[..i]) + i
  }

  /** A symbol and the symbols before it fit in the total length. */
  lemma {:induction false} TotalLengthPrefix(xs: seq<string>, i: nat)
    requires i < |xs|
    ensures TotalLength(xs[..i + 1]) == TotalLength(xs[..i]) + |xs[i]|
    ensures TotalLength(xs[..i]) + |xs[i]| <= TotalLength(xs)
    decreases |xs|
  {
    assert xs[..i + 1][..i] == xs[..i];
    if i < |xs| - 1 {
      var p := xs[..|xs| - 1];
      assert p[..i] == xs[..i] && p[..i + 1] == xs[..i + 1];
      TotalLengthPrefix(p, i);
    } else {
      assert xs[..i + 1] == xs;
    }
  }

  /** Dropping the last symbol moves no earlier symbol, and each earlier
      symbol ends inside the shorter joined file. */
  lemma OffsetSnoc(xs: seq<string>, i: nat)
    requires |xs| > 1 && i < |xs| - 1
    ensures Offset(xs, i) == Offset(xs[..|xs| - 1], i)
    ensures Offset(xs, i) + |xs[i]| <= |JoinLines(xs[..|xs| - 1])|
  {
    var p := xs[..|xs| - 1];
    assert p[..i] == xs[..i];
    assert p[i] == xs[i];
    TotalLengthPrefix(p, i);
  }

  /** Character `k` of the `i`-th symbol sits at `Offset(xs, i) + k`. */
  lemma {:induction false} JoinLinesSymbolAt(xs: seq<string>, i: nat, k: nat)
    requires i < |xs| && k < |xs[i]|
    ensures Offset(xs, i) + k < |JoinLines(xs)| && JoinLines(xs)[Offset(xs, i) + k] == xs[i][k]
    decreases |xs|
  {
    var n := |xs|;
    if n == 1 {
      assert xs[..0] == [];
    } else {
      var p := xs[..n - 1];
      var jp := JoinLines(p);
      assert JoinLines(xs) == jp + "\n" + xs[n - 1];
      if i == n - 1 {
        assert xs[..i] == p;
        assert Offset(xs, i) == |jp| + 1;
      } else {
        OffsetSnoc(xs, i);
        JoinLinesSymbolAt(p, i, k);
        assert p[i] == xs[i];
      }
    }
  }

  /** A newline sits just before every symbol but the first. */
  lemma {:induction false} JoinLinesSeparators(xs: seq<string>)
    ensures forall i :: 0 < i < |xs| ==> Offset(xs, i) - 1 < |JoinLines(xs)| && JoinLines(xs)[Offset(xs, i) - 1] == '\n'
    decreases |xs|
  {
    var n := |xs|;
    if n > 1 {
      var p := xs[..n - 1];
      JoinLinesSeparators(p);
      var jp := JoinLines(p);
      assert JoinLines(xs) == jp + "\n" + xs[n - 1];
      forall i | 0 < i < n
        ensures Offset(xs, i) - 1 < |JoinLines(xs)| && JoinLines(xs)[Offset(xs, i) - 1] == '\n'
      {
        if i == n - 1 {
          assert xs[..i] == p;
          assert Offset(xs, i) == |jp| + 1;
        } else {
          OffsetSnoc(xs, i);
          assert jp[Offset(p, i) - 1] == '\n';
        }
      }
    }
  }

  /** The layout of `"\n".join(xs)`: the `i`-th symbol is copied whole at
      `Offset(xs, i)`, and a newline sits just before every symbol but the
      first. With the length, this leaves no room for anything else. */
  lemma JoinLinesLayout(xs: seq<string>)
    ensures forall i :: 0 <= i < |xs| ==> Offset(xs, i) + |xs[i]| <= |JoinLines(xs)|
    ensures forall i, k :: 0 <= i < |xs| && 0 <= k < |xs[i]| ==> JoinLines(xs)[Offset(xs, i) + k] == xs[i][k]
    ensures forall i :: 0 < i < |xs| ==> Offset(xs, i) - 1 < |JoinLines(xs)| && JoinLines(xs)[Offset(xs, i) - 1] == '\n'
  {
    forall i | 0 <= i < |xs|
      ensures Offset(xs, i) + |xs[i]| <= |JoinLines(xs)|
    {
      TotalLengthPrefix(xs, i);
    }
    forall i, k | 0 <= i < |xs| && 0 <= k < |xs[i]|
      ensures JoinLines(xs)[Offset(xs, i) + k] == xs[i][k]
    {
      JoinLinesSymbolAt(xs, i, k);
    }
    JoinLinesSeparators(xs);
  }

  function LastNewline(s: string): (i: nat)
    requires '\n' in s
    ensures i < |s| && s[i] == '\n'
    ensures forall k :: i < k < |s| ==> s[k] != '\n'
  {
    if s[|s| - 1] == '\n' then |s| - 1
    else
      assert '\n' in s[..|s| - 1] by {
        var k :| 0 <= k < |s| && s[k] == '\n';
        assert s[..|s| - 1][k] == '\n';
      }
      LastNewline(s[..|s| - 1])
  }

  /** `s.split("\n")`: the pieces between newlines. */
  function SplitLines(s: string): (parts: seq<string>)
    ensures |parts| > 0
    decreases |s|
  {
    if '\n' !in s then [s]
    else
      var i := LastNewline(s);
      SplitLines(s[..i]) + [s[i + 1..]]
  }

  predicate NoNewline(x: string)
  {
    '\n' !in x
  }

  /** Splitting the joined list gives the list back, when it is not empty
      and no symbol itself holds a newline. */
  lemma {:induction false} SplitJoin(xs: seq<string>)
    requires |xs| > 0
    requires forall i :: 0 <= i < |xs| ==> NoNewline(xs[i])
    ensures SplitLines(JoinLines(xs)) == xs
    decreases |xs|
  {
    if |xs| > 1 {
      var p, x := xs[..|xs| - 1], xs[|xs| - 1];
      var j := JoinLines(p);
      var s := JoinLines(xs);
      assert s == j + "\n" + x;
      assert s[|j|] == '\n';
      var i := LastNewline(s);
      assert forall k :: |j| < k < |s| ==> s[k] == x[k - |j| - 1];
      assert i == |j|;
      assert s[..i] == j;
      assert s[i + 1..] == x;
      SplitJoin(p);
      assert xs == p + [x];
    }
  }

  /** The watchlist file, or `None` when nothing matched (a warning is
      shown instead of a download). */
  function Watchlist(results: seq<ScanResult>): (file: Option<string>)
    ensures file.Some? <==> |results| > 0
  {
    if |results| == 0 then None else Some(JoinLines(SymbolsOf(results)))
  }

  /** Over deduplicated candidates without newlines, the watchlist lists
      each accepted symbol once, in scan order. */
  lemma WatchlistListsResults(symbols: seq<string>, fetch: string -> Option<seq<Bar>>, stages: Stages)
    requires Distinct(symbols)
    requires forall i :: 0 <= i < |symbols| ==> NoNewline(symbols[i])
    ensures Watchlist(Scan(symbols, fetch, stages)).Some? ==>
              && SplitLines(Watchlist(Scan(symbols, fetch, stages)).value) == SymbolsOf(Scan(symbols, fetch, stages))
              && Distinct(SplitLines(Watchlist(Scan(symbols, fetch, stages)).value))
  {
    var results := Scan(symbols, fetch, stages);
    if |results| == 0 {
      return;
    }
    ScanSound(symbols, fetch, stages);
    ScanDistinct(symbols, fetch, stages);
    var syms := SymbolsOf(results);
    forall i | 0 <= i < |syms|
      ensures NoNewline(syms[i])
    {
      assert syms[i] == results[i].symbol;
      assert results[i].symbol in symbols;
    }
    SplitJoin(syms);
  }

}

/** The candidate list: the scraped tickers with duplicates removed. */
module Candidates {

  predicate Distinct<T(==)>(xs: seq<T>)
  {
    forall i, j :: 0 <= i < j < |xs| ==> xs[i] != xs[j]
  }

  /** `list(set(symbols))`: every scraped ticker once. Python leaves the
      order unspecified; this keeps first occurrences in scrape order. */
  function Dedupe(raw: seq<string>): (d: seq<string>)
    ensures Distinct(d)
    ensures forall x :: x in d <==> x in raw
    ensures |d| <= |raw|
  {
    if |raw| == 0 then []
    else
      var d := Dedupe(raw[..|raw| - 1]);
      var x := raw[|raw| - 1];
      assert raw == raw[..|raw| - 1] + [x];
      if x in d then d else d + [x]
  }

  /** Removing duplicates again changes nothing. */
  lemma {:induction false} DedupeIdempotent(raw: seq<string>)
    ensures Dedupe(Dedupe(raw)) == Dedupe(raw)
  {
    DedupeDistinct(Dedupe(raw));
  }

  /** A list without duplicates is its own deduplication. */
  lemma {:induction false} DedupeDistinct(xs: seq<string>)
    requires Distinct(xs)
    ensures Dedupe(xs) == xs
    decreases |xs|
  {
    if |xs| > 0 {
      var p := xs[..|xs| - 1];
      DedupeDistinct(p);
      assert xs[|xs| - 1] !in p;
    }
  }

}

/** What one listing page contributes to its salary bucket: the combined records
    (posted as the page's batch) and the growth of `jobCount` and the ten keyword
    counters (posted, per bucket, in the count item). */
module Aggregate {
  import opened Text
  import opened Tally
  import opened Records

  /** The running values of one bucket: `jobCount` and the ten counters. */
  datatype Agg = Agg(total: nat, counts: seq<nat>)

  /** The values every bucket starts from. */
  const Zero: Agg := Agg(0, seq(|Keywords|, _ => 0))

  /** The count item `{SalaryRange, Total, Java, Python, JavaScript, TypeScript,
      ReactJS, VueJs, Spring, NodeJS, MySQL, NoSQL, date}`; `counts[k]` is the counter
      of Keywords[k], posted under that field name. */
  datatype CountItem = CountItem(salaryRange: string, total: nat, counts: seq<nat>, date: string)

  function Snapshot(salaryRange: string, date: string, a: Agg): (r: CountItem) {
    CountItem(salaryRange, a.total, a.counts, date)
  }

  /** The string the keyword tests read: the panel's trimmed text, normalised, which
      is the panel's own text normalised. */
  function Describe(c: Card): (r: string)
    ensures r == Normalise(c.panel)
  {
    Normalise(DetailMap(c.panel)["jobAdDetails"])
  }

  /** The counters after tallying every card of a page, in card order. */
  function PageCounts(counts: seq<nat>, cards: seq<Card>): (r: seq<nat>)
    requires |counts| == |Keywords|
    ensures |r| == |Keywords|
  {
    if cards == [] then counts
    else Tallied(PageCounts(counts, cards[..|cards| - 1]), Describe(cards[|cards| - 1]))
  }

  /** Tallying one more card extends the page's counters by that card. */
  lemma PageCountsStep(counts: seq<nat>, cards: seq<Card>, i: nat)
    requires |counts| == |Keywords| && i < |cards|
    ensures PageCounts(counts, cards[..i + 1]) == Tallied(PageCounts(counts, cards[..i]), Describe(cards[i]))
  {
    assert cards[..i + 1][..i] == cards[..i];
  }

  /** The page's batch: one combined record per card, the k-th record built from the
      k-th card. */
  function PageRecords(date: string, salaryRange: string, cards: seq<Card>): (r: seq<Record>)
    ensures |r| == |cards|
  {
    seq(|cards|, k requires 0 <= k < |cards| => Combined(date, salaryRange, cards[k]))
  }

  /** The bucket's values after one more page: one record per card is added to
      `jobCount`. */
  function PageAgg(a: Agg, cards: seq<Card>): (r: Agg)
    requires |a.counts| == |Keywords|
    ensures |r.counts| == |Keywords|
  {
    Agg(a.total + |cards|, PageCounts(a.counts, cards))
  }

  /** Every counter is at most the number of records counted. */
  predicate WithinTotal(a: Agg) {
    |a.counts| == |Keywords| && forall k :: 0 <= k < |Keywords| ==> a.counts[k] <= a.total
  }

  /** Neither `jobCount` nor any counter is smaller in `b` than in `a`. */
  predicate NoLess(a: Agg, b: Agg)
    requires |a.counts| == |Keywords| && |b.counts| == |Keywords|
  {
    a.total <= b.total && forall k :: 0 <= k < |Keywords| ==> a.counts[k] <= b.counts[k]
  }

  /** In one page a counter grows by at most the number of cards, and never shrinks. */
  lemma {:induction false} PageCountsBounds(counts: seq<nat>, cards: seq<Card>, k: nat)
    requires |counts| == |Keywords| && k < |Keywords|
    ensures counts[k] <= PageCounts(counts, cards)[k] <= counts[k] + |cards|
  {
    if cards != [] {
      var n := |cards| - 1;
      PageCountsBounds(counts, cards[..n], k);
      TalliedAtMostOne(PageCounts(counts, cards[..n]), Describe(cards[n]), k);
    }
  }

  /** In one page the JavaScript counter grows by no more than the Java counter. */
  lemma {:induction false} PageCountsJavaScript(counts: seq<nat>, cards: seq<Card>)
    requires |counts| == |Keywords|
    ensures PageCounts(counts, cards)[JavaScript] + counts[Java]
              <= PageCounts(counts, cards)[Java] + counts[JavaScript]
  {
    if cards != [] {
      var n := |cards| - 1;
      var before := PageCounts(counts, cards[..n]);
      PageCountsJavaScript(counts, cards[..n]);
      JavaScriptCountsJava(before, Describe(cards[n]));
      TalliedAtMostOne(before, Describe(cards[n]), JavaScript);
      TalliedAtMostOne(before, Describe(cards[n]), Java);
    }
  }

  /** A page keeps every counter within `jobCount`, lowers nothing, and keeps the
      JavaScript counter at or below the Java counter. */
  lemma PageAggKeeps(a: Agg, cards: seq<Card>)
    requires WithinTotal(a)
    ensures WithinTotal(PageAgg(a, cards))
    ensures NoLess(a, PageAgg(a, cards))
    ensures PageAgg(a, cards).total == a.total + |cards|
    ensures a.counts[JavaScript] <= a.counts[Java] ==>
              PageAgg(a, cards).counts[JavaScript] <= PageAgg(a, cards).counts[Java]
  {
    forall k | 0 <= k < |Keywords|
      ensures a.counts[k] <= PageAgg(a, cards).counts[k] <= a.counts[k] + |cards|
    {
      PageCountsBounds(a.counts, cards, k);
    }
    PageCountsJavaScript(a.counts, cards);
  }
}

/** The scraping run: for each salary bucket in order, fetch listing pages 1, 2, ...
    while the page cursor stays within the page count the site last reported; turn each
    page into a batch of combined records while bumping the bucket's counters; post the
    batch; and after the bucket's last page post its count item.

    The rendered site is an input: a function from (salary range, page number) to the
    page the browser would show. The two POST requests, and each page visit, are
    appended to an event log; whether a POST reached the collector is a further input,
    recorded in the event and read by nothing else. */
module Scraper {
  import opened Text
  import opened Tally
  import opened Records
  import opened Aggregate

  /** The salary buckets, in the order they are crawled. */
  const SalaryRanges: seq<string> := ["17000-20000", "20000-25000"]

  /** One rendered listing page: the number in `totalJobsCount` and the job cards. */
  datatype Page = Page(reported: nat, cards: seq<Card>)

  /** What the browser shows for a salary range and a page number. */
  type Site = (string, nat) -> Page

  /** Whether the collector accepts the batch of a given page, and the count item of a
      given bucket. */
  datatype Delivery = Delivery(batch: (string, nat) -> bool, count: string -> bool)

  datatype Event =
    | Load(salaryRange: string, page: nat)                  // page.goto of the listing URL
    | PostDetails(records: seq<Record>, delivered: bool)    // POST /v1/job-detail-list
    | PostCount(item: CountItem, delivered: bool)           // POST /v1/job-count

  /** `Math.ceil(total / 32)`: 32 jobs are listed per page. */
  function TotalPages(n: nat): (r: nat)
    ensures n <= 32 * r
    ensures r > 0 ==> 32 * (r - 1) < n
  {
    (n + 31) / 32
  }

  lemma TotalPagesMonotone(a: nat, b: nat)
    requires a <= b
    ensures TotalPages(a) <= TotalPages(b)
  {
  }

  /** Every page of every salary range, visited or not, reports at most `cap` jobs. */
  ghost predicate Bounded(site: Site, cap: nat) {
    forall b, p :: site(b, p).reported <= cap
  }

  /** The page numbers the do-while loop visits from page `p` on: it always visits `p`,
      and goes on to `p + 1` exactly when `p + 1` is within the page count read from
      page `p`. */
  function PagesFrom(site: Site, b: string, ghost cap: nat, p: nat): (r: seq<nat>)
    requires Bounded(site, cap)
    ensures |r| >= 1 && r[0] == p
    decreases TotalPages(cap) + 1 - p
  {
    if Continues(site, b, p) then
      TotalPagesMonotone(site(b, p).reported, cap);
      [p] + PagesFrom(site, b, cap, p + 1)
    else [p]
  }

  /** The loop goes on after page `p` of bucket `b`: `p + 1` is within the page count
      read from page `p`. */
  predicate Continues(site: Site, b: string, p: nat) {
    p + 1 <= TotalPages(site(b, p).reported)
  }

  /** An independent description of a finished do-while run from page `p`: the pages
      `p, p + 1, ...` in order, the loop going on after each but the last and stopping
      after the last. */
  predicate RunFrom(site: Site, b: string, p: nat, r: seq<nat>) {
    |r| >= 1 && (forall i :: 0 <= i < |r| ==> r[i] == p + i)
    && (forall i :: 0 <= i < |r| - 1 ==> Continues(site, b, r[i]))
    && !Continues(site, b, r[|r| - 1])
  }

  /** The pages a bucket's loop visits. */
  function Fetched(site: Site, b: string, ghost cap: nat): (r: seq<nat>)
    requires Bounded(site, cap)
    ensures |r| >= 1 && r[0] == 1
  {
    PagesFrom(site, b, cap, 1)
  }

  /** `jobCount` and the counters after the given pages of bucket `b`, starting from zero. */
  function AggAfter(site: Site, b: string, pages: seq<nat>): (r: Agg)
    ensures |r.counts| == |Keywords|
  {
    if pages == [] then Zero
    else PageAgg(AggAfter(site, b, pages[..|pages| - 1]), site(b, pages[|pages| - 1]).cards)
  }

  /** What visiting page `p` of bucket `b` appends to the log. */
  function PageEvents(site: Site, b: string, date: string, net: Delivery, p: nat): (r: seq<Event>) {
    [Load(b, p), PostDetails(PageRecords(date, b, site(b, p).cards), net.batch(b, p))]
  }

  /** What visiting `pages` of bucket `b` in turn appends to the log. */
  function BucketEvents(site: Site, b: string, date: string, net: Delivery, pages: seq<nat>): (r: seq<Event>)
    ensures |r| == 2 * |pages|
    ensures pages != [] ==> r[0] == Load(b, pages[0])
  {
    if pages == [] then []
    else BucketEvents(site, b, date, net, pages[..|pages| - 1]) + PageEvents(site, b, date, net, pages[|pages| - 1])
  }

  /** Everything one bucket appends to the log: its pages, then its count item. */
  function BucketLog(site: Site, ghost cap: nat, b: string, date: string, net: Delivery): (r: seq<Event>)
    requires Bounded(site, cap)
    ensures |r| >= 3 && r[0] == Load(b, 1) && r[|r| - 1].PostCount? && r[|r| - 1].item.salaryRange == b
  {
    var pages := Fetched(site, b, cap);
    BucketEvents(site, b, date, net, pages) + [PostCount(Snapshot(b, date, AggAfter(site, b, pages)), net.count(b))]
  }

  /** The log of a whole run over the given buckets, in order. */
  function RunLog(site: Site, ghost cap: nat, buckets: seq<string>, date: string, net: Delivery): (r: seq<Event>)
    requires Bounded(site, cap)
    ensures |r| >= 3 * |buckets|
    ensures buckets != [] ==> r[|r| - 1].PostCount? && r[|r| - 1].item.salaryRange == buckets[|buckets| - 1]
  {
    if buckets == [] then []
    else RunLog(site, cap, buckets[..|buckets| - 1], date, net) + BucketLog(site, cap, buckets[|buckets| - 1], date, net)
  }

  /** The number of records in the batches of the log. */
  function Posted(log: seq<Event>): (r: nat) {
    if log == [] then 0
    else Posted(log[..|log| - 1]) + (if log[|log| - 1].PostDetails? then |log[|log| - 1].records| else 0)
  }

  lemma AggAfterStep(site: Site, b: string, done: seq<nat>, p: nat)
    ensures AggAfter(site, b, done + [p]) == PageAgg(AggAfter(site, b, done), site(b, p).cards)
  {
    assert (done + [p])[..|done|] == done;
  }

  lemma BucketEventsStep(site: Site, b: string, date: string, net: Delivery, done: seq<nat>, p: nat)
    ensures BucketEvents(site, b, date, net, done + [p]) ==
              BucketEvents(site, b, date, net, done) + PageEvents(site, b, date, net, p)
  {
    assert (done + [p])[..|done|] == done;
  }

  // ---------------------------------------------------------------------------
  // Pagination

  /** The pages visited from `p` on form a finished run from `p`. */
  lemma {:induction false} PagesFromShape(site: Site, b: string, cap: nat, p: nat)
    requires Bounded(site, cap)
    ensures RunFrom(site, b, p, PagesFrom(site, b, cap, p))
    decreases TotalPages(cap) + 1 - p
  {
    var r := PagesFrom(site, b, cap, p);
    if Continues(site, b, p) {
      TotalPagesMonotone(site(b, p).reported, cap);
      var rest := PagesFrom(site, b, cap, p + 1);
      PagesFromShape(site, b, cap, p + 1);
      assert r == [p] + rest;
      forall i | 1 <= i < |r| ensures r[i] == rest[i - 1] { }
    }
  }

  /** A finished run from `p` is the one the loop performs. */
  lemma {:induction false} RunFromIsPagesFrom(site: Site, b: string, cap: nat, p: nat, r: seq<nat>)
    requires Bounded(site, cap) && RunFrom(site, b, p, r)
    ensures r == PagesFrom(site, b, cap, p)
    decreases |r|
  {
    assert r[0] == p;
    if |r| > 1 {
      assert Continues(site, b, r[0]);
      TotalPagesMonotone(site(b, p).reported, cap);
      var rest := r[1..];
      assert RunFrom(site, b, p + 1, rest) by {
        forall i | 0 <= i < |rest| ensures rest[i] == p + 1 + i {
          assert rest[i] == r[i + 1];
        }
        forall i | 0 <= i < |rest| - 1 ensures Continues(site, b, rest[i]) {
          assert rest[i] == r[i + 1];
        }
        assert rest[|rest| - 1] == r[|r| - 1];
      }
      RunFromIsPagesFrom(site, b, cap, p + 1, rest);
      assert r == [p] + rest;
    } else {
      assert !Continues(site, b, p);
      assert r == [p];
    }
  }

  /** The pages a bucket visits are exactly the finished run from page 1: the two
      descriptions agree on every sequence of page numbers. */
  lemma FetchedCharacterised(site: Site, b: string, cap: nat, r: seq<nat>)
    requires Bounded(site, cap)
    ensures RunFrom(site, b, 1, r) <==> r == Fetched(site, b, cap)
  {
    PagesFromShape(site, b, cap, 1);
    if RunFrom(site, b, 1, r) {
      RunFromIsPagesFrom(site, b, cap, 1, r);
    }
  }

  /** Page 1 is always visited; the pages visited are 1, 2, ... in order; and the
      loop goes on after page q exactly when q + 1 is within the count read from page q. */
  lemma FetchedShape(site: Site, b: string, cap: nat)
    requires Bounded(site, cap)
    ensures var f := Fetched(site, b, cap);
              |f| >= 1 && f[0] == 1 &&
              (forall i :: 0 <= i < |f| ==> f[i] == i + 1) &&
              (forall i :: 0 <= i < |f| - 1 ==> f[i] + 1 <= TotalPages(site(b, f[i]).reported)) &&
              |f| + 1 > TotalPages(site(b, |f|).reported)
  {
    PagesFromShape(site, b, cap, 1);
  }

  /** With a constant reported count n, the loop visits exactly ceil(n / 32) pages,
      and one page when n is 0. */
  lemma FetchedConstant(site: Site, b: string, cap: nat, n: nat)
    requires Bounded(site, cap)
    requires forall p :: site(b, p).reported == n
    ensures |Fetched(site, b, cap)| == if n == 0 then 1 else TotalPages(n)
  {
    FetchedShape(site, b, cap);
    var f := Fetched(site, b, cap);
    if |f| >= 2 {
      assert f[|f| - 2] + 1 <= TotalPages(site(b, f[|f| - 2]).reported);
    }
  }

  // ---------------------------------------------------------------------------
  // Aggregation

  lemma {:induction false} PostedAppend(a: seq<Event>, b: seq<Event>)
    ensures Posted(a + b) == Posted(a) + Posted(b)
    decreases |b|
  {
    if b != [] {
      var n := |b| - 1;
      assert (a + b)[..|a + b| - 1] == a + b[..n];
      assert (a + b)[|a + b| - 1] == b[n];
      PostedAppend(a, b[..n]);
    } else {
      assert a + b == a;
    }
  }

  lemma PostedPage(site: Site, b: string, date: string, net: Delivery, p: nat)
    ensures Posted(PageEvents(site, b, date, net, p)) == |site(b, p).cards|
  {
    var ev := PageEvents(site, b, date, net, p);
    assert ev[..1] == [Load(b, p)];
    assert Posted(ev[..1]) == 0 by {
      assert ev[..1][..0] == [];
    }
  }

  /** After any run of pages the bucket's `Total` is the number of records in the
      batches posted for those pages, every counter is at most `Total`, and the
      JavaScript counter is at most the Java counter. */
  lemma {:induction false} AggAfterInvariant(site: Site, b: string, date: string, net: Delivery, pages: seq<nat>)
    ensures AggAfter(site, b, pages).total == Posted(BucketEvents(site, b, date, net, pages))
    ensures WithinTotal(AggAfter(site, b, pages))
    ensures AggAfter(site, b, pages).counts[JavaScript] <= AggAfter(site, b, pages).counts[Java]
  {
    if pages != [] {
      var n := |pages| - 1;
      var p := pages[n];
      AggAfterInvariant(site, b, date, net, pages[..n]);
      PageAggKeeps(AggAfter(site, b, pages[..n]), site(b, p).cards);
      PostedAppend(BucketEvents(site, b, date, net, pages[..n]), PageEvents(site, b, date, net, p));
      PostedPage(site, b, date, net, p);
    }
  }

  /** Within a bucket neither `Total` nor any counter decreases from page to page. */
  lemma {:induction false} AggAfterMonotone(site: Site, b: string, pages: seq<nat>, i: nat)
    requires i <= |pages|
    ensures NoLess(AggAfter(site, b, pages[..i]), AggAfter(site, b, pages))
    decreases |pages|
  {
    if i < |pages| {
      var n := |pages| - 1;
      AggAfterInvariant(site, b, "", Delivery((_, _) => true, _ => true), pages[..n]);
      PageAggKeeps(AggAfter(site, b, pages[..n]), site(b, pages[n]).cards);
      assert pages[..n][..i] == pages[..i];
      AggAfterMonotone(site, b, pages[..n], i);
    } else {
      assert pages[..i] == pages;
    }
  }

  // ---------------------------------------------------------------------------
  // Dispatch

  /** Each visited page appends a visit and then exactly one batch post: the page's
      records in card order. */
  lemma {:induction false} BucketEventsShape(site: Site, b: string, date: string, net: Delivery, pages: seq<nat>)
    ensures |BucketEvents(site, b, date, net, pages)| == 2 * |pages|
    ensures forall i :: 0 <= i < |pages| ==>
              BucketEvents(site, b, date, net, pages)[2 * i] == Load(b, pages[i]) &&
              BucketEvents(site, b, date, net, pages)[2 * i + 1] ==
                PostDetails(PageRecords(date, b, site(b, pages[i]).cards), net.batch(b, pages[i]))
  {
    if pages != [] {
      var n := |pages| - 1;
      var init := BucketEvents(site, b, date, net, pages[..n]);
      var all := BucketEvents(site, b, date, net, pages);
      BucketEventsShape(site, b, date, net, pages[..n]);
      assert all == init + PageEvents(site, b, date, net, pages[n]);
      forall i | 0 <= i < n
        ensures all[2 * i] == Load(b, pages[i])
        ensures all[2 * i + 1] == PostDetails(PageRecords(date, b, site(b, pages[i]).cards), net.batch(b, pages[i]))
      {
        assert all[2 * i] == init[2 * i] && all[2 * i + 1] == init[2 * i + 1];
        assert pages[..n][i] == pages[i];
      }
    }
  }

  /** No count item is posted while a bucket's pages are being visited. */
  lemma {:induction false} BucketEventsNoCount(site: Site, b: string, date: string, net: Delivery, pages: seq<nat>)
    ensures forall i :: 0 <= i < |BucketEvents(site, b, date, net, pages)| ==>
              !BucketEvents(site, b, date, net, pages)[i].PostCount?
  {
    if pages != [] {
      var n := |pages| - 1;
      BucketEventsNoCount(site, b, date, net, pages[..n]);
    }
  }

  /** A bucket's log: two events per visited page, then its one count post, which
      carries the bucket's salary range and the values after its last page, and whose
      `Total` is the number of records the bucket posted. */
  lemma BucketLogShape(site: Site, cap: nat, b: string, date: string, net: Delivery)
    requires Bounded(site, cap)
    ensures var log := BucketLog(site, cap, b, date, net);
            var pages := Fetched(site, b, cap);
              |log| == 2 * |pages| + 1 &&
              (forall i :: 0 <= i < |log| - 1 ==> !log[i].PostCount?) &&
              log[|log| - 1] == PostCount(Snapshot(b, date, AggAfter(site, b, pages)), net.count(b)) &&
              log[|log| - 1].item.salaryRange == b &&
              log[|log| - 1].item.total == Posted(log[..|log| - 1]) &&
              WithinTotal(AggAfter(site, b, pages))
  {
    var pages := Fetched(site, b, cap);
    var ev := BucketEvents(site, b, date, net, pages);
    BucketEventsShape(site, b, date, net, pages);
    BucketEventsNoCount(site, b, date, net, pages);
    AggAfterInvariant(site, b, date, net, pages);
    var log := ev + [PostCount(Snapshot(b, date, AggAfter(site, b, pages)), net.count(b))];
    assert log == BucketLog(site, cap, b, date, net);
    assert log[..|log| - 1] == ev;
    forall i | 0 <= i < |log| - 1 ensures !log[i].PostCount? {
      assert log[i] == ev[i];
    }
  }

  /** Scenario: a bucket whose pages all report 40 jobs is crawled over pages 1 and 2,
      giving two batch posts and then one count post. */
  lemma FortyJobsTwoPages(site: Site, cap: nat, b: string, date: string, net: Delivery)
    requires Bounded(site, cap)
    requires forall p :: site(b, p).reported == 40
    ensures Fetched(site, b, cap) == [1, 2]
    ensures var log := BucketLog(site, cap, b, date, net);
              |log| == 5 && log[1].PostDetails? && log[3].PostDetails? && log[4].PostCount?
  {
    FetchedConstant(site, b, cap, 40);
    FetchedShape(site, b, cap);
    BucketLogShape(site, cap, b, date, net);
    BucketEventsShape(site, b, date, net, Fetched(site, b, cap));
    var log := BucketLog(site, cap, b, date, net);
    assert log[1] == BucketEvents(site, b, date, net, Fetched(site, b, cap))[2 * 0 + 1];
    assert log[3] == BucketEvents(site, b, date, net, Fetched(site, b, cap))[2 * 1 + 1];
  }

  /** Two events that differ at most in whether the collector accepted a post. */
  predicate SameButDelivery(e1: Event, e2: Event) {
    match e1
    case Load(_, _) => e1 == e2
    case PostDetails(r, _) => e2.PostDetails? && e2.records == r
    case PostCount(c, _) => e2.PostCount? && e2.item == c
  }

  predicate LogsAgree(l1: seq<Event>, l2: seq<Event>) {
    |l1| == |l2| && forall i :: 0 <= i < |l1| ==> SameButDelivery(l1[i], l2[i])
  }

  lemma LogsAgreeAppend(a1: seq<Event>, a2: seq<Event>, b1: seq<Event>, b2: seq<Event>)
    requires LogsAgree(a1, a2) && LogsAgree(b1, b2)
    ensures LogsAgree(a1 + b1, a2 + b2)
  {
    forall i | 0 <= i < |a1| + |b1| ensures SameButDelivery((a1 + b1)[i], (a2 + b2)[i]) {
      if i < |a1| {
        assert (a1 + b1)[i] == a1[i] && (a2 + b2)[i] == a2[i];
      } else {
        assert (a1 + b1)[i] == b1[i - |a1|] && (a2 + b2)[i] == b2[i - |a1|];
      }
    }
  }

  lemma {:induction false} BucketEventsAgree(site: Site, b: string, date: string, n1: Delivery, n2: Delivery, pages: seq<nat>)
    ensures LogsAgree(BucketEvents(site, b, date, n1, pages), BucketEvents(site, b, date, n2, pages))
  {
    if pages != [] {
      var n := |pages| - 1;
      BucketEventsAgree(site, b, date, n1, n2, pages[..n]);
      LogsAgreeAppend(BucketEvents(site, b, date, n1, pages[..n]), BucketEvents(site, b, date, n2, pages[..n]),
                      PageEvents(site, b, date, n1, pages[n]), PageEvents(site, b, date, n2, pages[n]));
    }
  }

  /** A failed post changes nothing else: whatever the collector accepts, the run
      visits the same pages and posts the same batches and count items. */
  lemma {:induction false} DeliveryIrrelevant(site: Site, cap: nat, buckets: seq<string>, date: string, n1: Delivery, n2: Delivery)
    requires Bounded(site, cap)
    ensures LogsAgree(RunLog(site, cap, buckets, date, n1), RunLog(site, cap, buckets, date, n2))
  {
    if buckets != [] {
      var m := |buckets| - 1;
      var b := buckets[m];
      var pages := Fetched(site, b, cap);
      DeliveryIrrelevant(site, cap, buckets[..m], date, n1, n2);
      BucketEventsAgree(site, b, date, n1, n2, pages);
      var c := Snapshot(b, date, AggAfter(site, b, pages));
      LogsAgreeAppend(BucketEvents(site, b, date, n1, pages), BucketEvents(site, b, date, n2, pages),
                      [PostCount(c, n1.count(b))], [PostCount(c, n2.count(b))]);
      LogsAgreeAppend(RunLog(site, cap, buckets[..m], date, n1), RunLog(site, cap, buckets[..m], date, n2),
                      BucketLog(site, cap, b, date, n1), BucketLog(site, cap, b, date, n2));
    }
  }

  // ---------------------------------------------------------------------------
  // The scraper

  /** The body of the inner loop for one job card: read its detail panel, bump the
      counters for the keywords its description contains, and layer the record. */
  method ProcessJob(date: string, salaryRange: string, card: Card, cardData: Record, counters: array<nat>)
    returns (combinedItem: Record)
    requires counters.Length == |Keywords|
    modifies counters
    ensures combinedItem == Combine(date, salaryRange, cardData, DetailMap(card.panel))
    ensures counters[..] == Tallied(old(counters[..]), Describe(card))
  {
    var detailData := DetailMap(card.panel);
    var jobDescription := Normalise(detailData["jobAdDetails"]);
    CountKeywords(jobDescription, counters);
    combinedItem := Combine(date, salaryRange, cardData, detailData);
  }

  /** The record built from the i-th card and the i-th extracted card map extends the
      batch of the first i cards. */
  lemma PagePaired(date: string, salaryRange: string, cards: seq<Card>, i: nat,
                   combinedData: seq<Record>, cardData: Record, combinedItem: Record)
    requires i < |cards| && |combinedData| == i
    requires forall j :: 0 <= j < i ==> combinedData[j] == Combined(date, salaryRange, cards[j])
    requires cardData == CardMap(cards[i])
    requires combinedItem == Combine(date, salaryRange, cardData, DetailMap(cards[i].panel))
    ensures forall j :: 0 <= j < i + 1 ==> (combinedData + [combinedItem])[j] == Combined(date, salaryRange, cards[j])
  {
    var all := combinedData + [combinedItem];
    assert combinedItem == Combined(date, salaryRange, cards[i]);
    forall j | 0 <= j < i + 1 ensures all[j] == Combined(date, salaryRange, cards[j]) {
      if j < i {
        assert all[j] == combinedData[j];
      } else {
        assert all[j] == combinedItem;
      }
    }
  }

  /** One page: extract the card maps, then for each job card in turn process it
      against the next unpaired card map (`jobCardData.shift()`). */
  method ProcessPage(date: string, salaryRange: string, cards: seq<Card>, counters: array<nat>)
    returns (combinedData: seq<Record>)
    requires counters.Length == |Keywords|
    modifies counters
    ensures combinedData == PageRecords(date, salaryRange, cards)
    ensures counters[..] == PageCounts(old(counters[..]), cards)
  {
    var jobCardData := ExtractCards(cards);
    ghost var extracted, initial := jobCardData, counters[..];
    combinedData := [];
    for i := 0 to |cards|
      invariant jobCardData == extracted[i..]
      invariant |combinedData| == i
      invariant forall j :: 0 <= j < i ==> combinedData[j] == Combined(date, salaryRange, cards[j])
      invariant counters[..] == PageCounts(initial, cards[..i])
    {
      assert jobCardData[0] == extracted[i] && jobCardData[1..] == extracted[i + 1..];
      var cardData: Record := if |jobCardData| > 0 then jobCardData[0] else map[];
      jobCardData := if |jobCardData| > 0 then jobCardData[1..] else [];
      var combinedItem := ProcessJob(date, salaryRange, cards[i], cardData, counters);
      PageCountsStep(initial, cards, i);
      PagePaired(date, salaryRange, cards, i, combinedData, cardData, combinedItem);
      combinedData := combinedData + [combinedItem];
    }
    assert cards[..|cards|] == cards;
  }

  /** The state of a bucket's do-while loop after the pages `done`: they are
      1, 2, ... in order, the loop went on after each but the last, and `more` says
      whether it goes on after the last. */
  predicate Visiting(site: Site, b: string, done: seq<nat>, more: bool) {
    (forall i :: 0 <= i < |done| ==> done[i] == i + 1)
    && (forall i :: 0 <= i < |done| - 1 ==> Continues(site, b, done[i]))
    && (if done == [] then more else more == Continues(site, b, done[|done| - 1]))
  }

  lemma VisitingStep(site: Site, b: string, done: seq<nat>)
    requires Visiting(site, b, done, true)
    ensures Visiting(site, b, done + [|done| + 1], Continues(site, b, |done| + 1))
  {
    var d := done + [|done| + 1];
    forall i | 0 <= i < |d| - 1 ensures d[i] == done[i] && Continues(site, b, d[i]) { }
  }

  /** When the loop stops, the pages it visited are the ones the bucket fetches. */
  lemma VisitingDone(site: Site, b: string, cap: nat, done: seq<nat>)
    requires Bounded(site, cap) && Visiting(site, b, done, false)
    ensures done == Fetched(site, b, cap)
  {
    FetchedCharacterised(site, b, cap, done);
  }

  /** What a bucket's loop has accumulated after the pages `done`: `jobCount`, the
      counters, the count item of the last page, and the log. */
  predicate Tracking(site: Site, b: string, date: string, net: Delivery, done: seq<nat>,
                     jobCount: nat, counts: seq<nat>, countItem: CountItem, log: seq<Event>) {
    jobCount == AggAfter(site, b, done).total
    && counts == AggAfter(site, b, done).counts
    && (done != [] ==> countItem == Snapshot(b, date, AggAfter(site, b, done)))
    && log == BucketEvents(site, b, date, net, done)
  }

  /** The body of the do-while loop for page `currentPage`: visit it, read the
      page count, process its cards, update `jobCount` and `countItem`, and post the
      batch. `done` holds the pages visited before. */
  method VisitPage(site: Site, date: string, salaryRange: string, net: Delivery, currentPage: nat,
                   counters: array<nat>, ghost done: seq<nat>, log0: seq<Event>, jobCount0: nat, countItem0: CountItem)
    returns (log: seq<Event>, jobCount: nat, countItem: CountItem, totalPages: nat)
    requires counters.Length == |Keywords|
    requires Tracking(site, salaryRange, date, net, done, jobCount0, counters[..], countItem0, log0)
    modifies counters
    ensures totalPages == TotalPages(site(salaryRange, currentPage).reported)
    ensures Tracking(site, salaryRange, date, net, done + [currentPage], jobCount, counters[..], countItem, log)
  {
    log := log0 + [Load(salaryRange, currentPage)];
    var page := site(salaryRange, currentPage);
    totalPages := TotalPages(page.reported);
    var combinedData := ProcessPage(date, salaryRange, page.cards, counters);
    jobCount := jobCount0 + |combinedData|;
    countItem := CountItem(salaryRange, jobCount, counters[..], date);
    log := log + [PostDetails(combinedData, net.batch(salaryRange, currentPage))];
    AggAfterStep(site, salaryRange, done, currentPage);
    BucketEventsStep(site, salaryRange, date, net, done, currentPage);
  }

  /** One salary bucket: the do-while loop over its pages, then its count post. */
  method ScrapeBucket(site: Site, ghost cap: nat, date: string, salaryRange: string, net: Delivery)
    returns (log: seq<Event>)
    requires Bounded(site, cap)
    ensures log == BucketLog(site, cap, salaryRange, date, net)
  {
    var currentPage: nat := 1;
    var totalPages: nat := 0;
    var counters := new nat[|Keywords|](_ => 0);
    var jobCount: nat := 0;
    var countItem := Snapshot(salaryRange, date, Zero);   // assigned on every page
    log := [];
    ghost var done: seq<nat> := [];
    assert counters[..] == Zero.counts;
    var more := true;
    while more
      invariant currentPage == |done| + 1
      invariant more ==> currentPage <= TotalPages(cap) + 1
      invariant Visiting(site, salaryRange, done, more)
      invariant Tracking(site, salaryRange, date, net, done, jobCount, counters[..], countItem, log)
      decreases if more then TotalPages(cap) + 2 - currentPage else 0
    {
      log, jobCount, countItem, totalPages :=
        VisitPage(site, date, salaryRange, net, currentPage, counters, done, log, jobCount, countItem);
      TotalPagesMonotone(site(salaryRange, currentPage).reported, cap);
      VisitingStep(site, salaryRange, done);
      done := done + [currentPage];
      currentPage := currentPage + 1;
      more := currentPage <= totalPages;
    }
    VisitingDone(site, salaryRange, cap, done);
    log := log + [PostCount(countItem, net.count(salaryRange))];
  }

  /** The whole run: the buckets in their configured order, each from fresh counters. */
  method ScrapeJobs(site: Site, ghost cap: nat, date: string, net: Delivery) returns (log: seq<Event>)
    requires Bounded(site, cap)
    ensures log == RunLog(site, cap, SalaryRanges, date, net)
  {
    log := [];
    for i := 0 to |SalaryRanges|
      invariant log == RunLog(site, cap, SalaryRanges[..i], date, net)
    {
      var bucketLog := ScrapeBucket(site, cap, date, SalaryRanges[i], net);
      assert SalaryRanges[..i + 1][..i] == SalaryRanges[..i];
      log := log + bucketLog;
    }
    assert SalaryRanges[..|SalaryRanges|] == SalaryRanges;
  }
}

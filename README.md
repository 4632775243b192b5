# JobsDB scraping run, modelled in Dafny

This project models `scrapeJobs` in `index.js`, the scraper that crawls the JobsDB
Hong Kong listings for the ICT category. The salary buckets `17000-20000` and
`20000-25000` are crawled in that order. For each bucket the scraper:

- visits listing pages 1, 2, … in a do-while loop. It reads the reported job count
  on every page and goes on while the next page number is at most `ceil(count / 32)`.
- turns each job card into a field map: `id` first, then every `[data-automation]`
  element's trimmed text, a later key overwriting an earlier one.
- opens each card's detail panel. It normalises the description (lower-cased, every
  whitespace character removed) and bumps each of ten keyword counters by at most one
  per job.
- builds the combined record `{date, salaryRange, ...card, ...detail}` and posts the
  page's records as one batch.
- posts one count item (`SalaryRange`, `Total`, the ten counters, `date`) after its
  last page.

The modules follow the structure of the code:

- `Text` (`text.dfy`): `trim()`, the description normalisation and `includes`.
- `Tally` (`keywords.dfy`): the ten keywords and the per-job tally, written as a loop
  over a counter array.
- `Records` (`records.dfy`): the card map, the detail map and the combined record.
- `Aggregate` (`aggregate.dfy`): what one page adds to `jobCount` and the counters.
- `Scraper` (`scraper.dfy`): the pagination loop, the per-bucket state, the two POST
  dispatch points and the whole run.

The methods are imperative, as the scraper is. `CountKeywords` bumps an array of ten
counters in place. `ProcessPage` consumes the extracted card maps front to back, as
`jobCardData.shift()` does. `ScrapeBucket` is the do-while loop.

Each method is proved equal to a specification function: `Tallied`, `PageRecords`,
`PageCounts`, `BucketLog` and `RunLog`. Lemmas about those functions state what the
scraper promises.

The browser is an input: a function `Site` from a salary range and a page number to
the rendered page, which holds the reported count and the job cards. Network
requests become events appended to a log:

- `Load` for `page.goto`;
- `PostDetails` for `POST /v1/job-detail-list`;
- `PostCount` for `POST /v1/job-count`.

A `Delivery` input says whether each POST succeeded. Its value is recorded in the
event and read by nothing else, because the code catches the error, logs it and
carries on. The capture date is a parameter.

## Model

| member | source | states |
|---|---|---|
| Text.IsSpace | index.js:128 | the characters of JavaScript's `\s` class (the WhiteSpace and LineTerminator characters), the same set `trim()` removes at index.js:91 and 118 |
| Text.IsUpper | index.js:127 | the letters `toLowerCase` maps in this model, the ASCII capitals `A`-`Z` |
| Text.LowerChar | index.js:125-127 | an upper-case letter becomes the lower-case letter at the same position of the alphabet, so "JAVA" becomes "java"; any other character is unchanged; the result is never upper-case and is whitespace exactly when the input is |
| Text.Lower | index.js:125-127 | `toLowerCase` keeps the length and lower-cases every position |
| Text.StripSpace | index.js:125-128 | `replace(/\s+/g, "")`: every character of the result is a non-whitespace character of the input, every non-whitespace character of the input occurs in the result, and the result is no longer than the input; order and repeats are fixed by the two rows below |
| Text.StripSpaceChar | index.js:128 | on one character, whitespace is dropped and any other character is kept |
| Text.StripSpaceAppend | index.js:128 | stripping distributes over concatenation, so with the row above the value is the input's non-whitespace characters in their order and number |
| Text.Normalise | index.js:125-128 | a normalised description holds no upper-case letter and no whitespace at any position |
| Text.NormaliseIgnoresSpace | index.js:125-128 | deleting one whitespace character anywhere leaves the normalised description unchanged |
| Text.NormaliseIgnoresCase | index.js:125-128 | lower-casing the description first changes nothing |
| Text.NormaliseIdempotent | index.js:125-128 | normalising twice gives the same as normalising once |
| Text.NormaliseAppend | index.js:125-128 | normalisation distributes over concatenation |
| Text.TrimStart | index.js:118 | the result is no longer than the input and is empty or starts with a non-whitespace character; its value is fixed by `TrimStartDrops` |
| Text.TrimEnd | index.js:118 | the result is no longer than the input and is empty or ends with a non-whitespace character; its value is fixed by `TrimEndDrops` |
| Text.TrimStartDrops | index.js:118 | `trimStart` keeps a suffix of the input and everything it drops before that suffix is whitespace |
| Text.TrimEndDrops | index.js:118 | `trimEnd` keeps a prefix of the input and everything it drops after that prefix is whitespace |
| Text.Trim | index.js:91 | `trim()`, the value every card field and the panel text take; defined as `trimEnd` after `trimStart` and characterised by the row below |
| Text.TrimCharacterised | index.js:118 | `trim()` gives the contiguous piece of the input left after cutting whitespace at both ends: it is empty or starts and ends with a non-whitespace character, and all that is cut is whitespace |
| Text.Contains | index.js:131-140 | `includes`: `k` occurs at some position of `s`; the empty string is included in every string, and nothing longer than `s` is included in it |
| Text.NormaliseTrim | index.js:118-127 | trimming the panel text before normalising it makes no difference to the description |
| Text.ContainsPrefix | index.js:131-133 | a string that includes `k1 + k2` includes `k1` |
| Tally.Tallied | index.js:131-140 | the ten counters after one job: counter k is bumped by one exactly where `includes(Keywords[k])` holds; the list of ten keeps its length; its meaning is stated by the two rows below |
| Tally.TalliedAtMostOne | index.js:131-140 | a counter grows by one exactly when its keyword occurs in the description, however often it occurs, and is unchanged otherwise |
| Tally.JavaScriptCountsJava | index.js:131-133 | a job counted for JavaScript is also counted for Java, since "java" is a prefix of "javascript" |
| Tally.SpellingsMatchJavaScript | index.js:125-133 | "Java Script", "javascript" and "JAVA SCRIPT " all normalise to "javascript" and so count toward JavaScript |
| Tally.NormaliseJavaScript | index.js:125-128 | "JavaScript", "javascript" and "JAVASCRIPT" all normalise to "javascript" |
| Tally.CountKeywords | index.js:131-140 | the counter array afterwards is the tally of the old counters for this description |
| Records.Fold | index.js:89-93 | the field loop: `data[key] = value.trim()` for each labelled element in document order; characterised by `FoldKeys`, `FoldLast` and `FoldUntouched` |
| Records.CardMap | index.js:85-94 | the card map starts from `id` and folds in the labelled elements, so it always holds `id`; characterised by `CardMapLookup` |
| Records.DetailMap | index.js:110-123 | the detail map holds the single key `jobAdDetails`, whose normalised text is that of the untrimmed panel |
| Records.Combine | index.js:142-147 | the object literal `{date, salaryRange, ...card, ...detail}`; characterised by `CombineLayers` |
| Records.Combined | index.js:142-147 | the combined record of one card, layering its card map and its detail map |
| Records.CardMapLookup | index.js:85-94 | the card map holds `id` plus exactly the labelled keys; a labelled key holds the trimmed text of its last element; `id` holds the job id unless an element labelled `id` overwrote it |
| Records.FoldKeys | index.js:89-93 | the field loop adds exactly the keys the fields carry |
| Records.FoldLast | index.js:89-93 | a key holds the trimmed text of the last field that carries it |
| Records.FoldUntouched | index.js:88-93 | a key no field carries keeps the value it had before the field loop |
| Records.CombineLayers | index.js:142-147 | the combined record holds `date`, `salaryRange` and every card and detail key; a key takes its value from the detail map, else from the card map, else from the two leading fields |
| Records.ExtractCard | index.js:86-94 | the extracted map of one card is its card map |
| Records.ExtractCards | index.js:82-97 | one map per card, the i-th from the i-th card |
| Aggregate.Describe | index.js:125-128 | the description the keyword tests read is the normalised panel text; trimming first makes no difference |
| Aggregate.PageCounts | index.js:102-140 | the counters after tallying a page's cards in card order, still ten of them; bounded by `PageCountsBounds` and `PageCountsJavaScript` |
| Aggregate.PageAgg | index.js:102-151 | one page adds its number of records to `jobCount` and tallies its cards into the counters, keeping ten counters |
| Aggregate.Snapshot | index.js:153-167 | the count item built after each page from the range, `jobCount`, the ten counters and the date |
| Aggregate.PageRecords | index.js:100-149 | a page's batch has one record per card, the k-th built from the k-th card |
| Aggregate.PageCountsBounds | index.js:102-140 | over one page a counter never shrinks and grows by at most the number of cards |
| Aggregate.PageCountsJavaScript | index.js:102-140 | over one page the JavaScript counter grows by no more than the Java counter |
| Aggregate.PageAggKeeps | index.js:131-151 | one page keeps every counter at most `jobCount`, lowers nothing, adds the number of records to `jobCount`, and keeps JavaScript at or below Java |
| Scraper.TotalPages | index.js:79 | `ceil(n / 32)`: the smallest page count whose pages hold n jobs |
| Scraper.Continues | index.js:182-183 | the loop goes on after page p when p + 1 is within the page count read from page p |
| Scraper.RunFrom | index.js:69-183 | an independent description of a finished do-while run from page p, used to characterise `PagesFrom` |
| Scraper.PagesFrom | index.js:69-183 | the pages the do-while loop visits from page p; the run is never empty and starts at p; characterised by `PagesFromShape` and `RunFromIsPagesFrom` |
| Scraper.Fetched | index.js:53-183 | the pages a bucket visits, starting at page 1; characterised by `FetchedCharacterised` |
| Scraper.AggAfter | index.js:66-151 | `jobCount` and the counters after the given pages from zero, keeping ten counters; stated by `AggAfterInvariant` and `AggAfterMonotone` |
| Scraper.PageEvents | index.js:72-176 | visiting a page logs its `goto` and then its batch post |
| Scraper.BucketEvents | index.js:69-183 | the events of a bucket's page loop: two per page, the first the visit of the first page; stated more fully by `BucketEventsShape` |
| Scraper.BucketLog | index.js:53-195 | a bucket's log begins with the visit of page 1, holds at least three events, and ends with the bucket's count post; stated more fully by `BucketLogShape` |
| Scraper.RunLog | index.js:52-196 | a run over the buckets has at least three events per bucket and ends with the last bucket's count post |
| Scraper.PagesFromShape | index.js:69-183 | the pages the do-while loop visits from page p form a finished run from p: p, p+1, … in order, going on after each page but the last and stopping after the last |
| Scraper.RunFromIsPagesFrom | index.js:69-183 | any finished run from p is the one the loop performs |
| Scraper.FetchedCharacterised | index.js:53-183 | a sequence of page numbers is a finished run from page 1 exactly when it is the bucket's visited pages |
| Scraper.FetchedShape | index.js:53-183 | page 1 is always visited; the pages are 1, 2, … consecutively; the loop goes on after page q only when q + 1 is within the count read from page q, and stops after the last page |
| Scraper.FetchedConstant | index.js:75-183 | with a constant reported count n the bucket visits ceil(n / 32) pages, or one page when n is 0 |
| Scraper.FortyJobsTwoPages | index.js:75-195 | when every page reports 40 jobs the bucket visits pages 1 and 2 and logs two batch posts, then one count post |
| Scraper.AggAfterInvariant | index.js:151-176 | after any pages, `Total` equals the number of records posted in their batches, every counter is at most `Total`, and JavaScript is at most Java |
| Scraper.AggAfterMonotone | index.js:131-151 | within a bucket neither `Total` nor any counter decreases from page to page |
| Scraper.BucketEventsShape | index.js:69-183 | each visited page logs its visit and then exactly one batch post holding that page's records in card order |
| Scraper.BucketEventsNoCount | index.js:69-183 | no count item is posted while a bucket's pages are being visited |
| Scraper.BucketLogShape | index.js:66-195 | a bucket logs two events per page and then exactly one count post, carrying the bucket's range, the values after its last page, and a `Total` equal to the records it posted |
| Scraper.DeliveryIrrelevant | index.js:169-195 | whether each POST succeeds or fails, the run visits the same pages and posts the same batches and count items |
| Scraper.VisitingStep | index.js:182-183 | visiting the next page keeps the loop state consecutive and records whether the loop goes on |
| Scraper.VisitingDone | index.js:183 | when the loop stops, the pages visited are the bucket's fetched pages |
| Scraper.ProcessJob | index.js:102-148 | one job bumps the counters by the tally of its description and yields its combined record |
| Scraper.PagePaired | index.js:142-148 | the record built from the i-th card and the i-th card map (the one `shift()` hands out) extends the batch of the first i cards |
| Scraper.ProcessPage | index.js:82-149 | a page's batch is its `PageRecords` and the counters afterwards are `PageCounts` of the old counters |
| Scraper.VisitPage | index.js:69-182 | one iteration of the do-while body extends `jobCount`, the counters, the count item and the log by the visited page |
| Scraper.ScrapeBucket | index.js:53-195 | the bucket's log is `BucketLog`: its pages' events, then its count post |
| Scraper.ScrapeJobs | index.js:49-196 | the run's log is the buckets' logs in configured order, each bucket starting from zero counters |

## Left out

- The Express server and its two POST endpoints `/v1/job-detail-list` and
  `/v1/job-count` (index.js:15-26), which only log what they receive, and the
  scheduling that triggers a run.
- The browser is not modelled. Puppeteer start-up, `waitForSelector` and clicking
  are replaced by the `Site` function, which gives the page the browser shows.
- The listing URL is not modelled. A `Load` event records the salary range and page
  number that the URL is built from.
- The HTTP transport of axios and the console logging are not modelled. A POST is an
  appended event, and its success is read from the `Delivery` input.
- `new Date()` is not modelled. The capture date is a parameter.
- Reported count: the `totalJobsCount` text is modelled as the natural number it
  denotes. Text that `Number` reads as `NaN` or as a fraction is left out. (With
  `NaN`, the loop would stop after the current page.)
- Text.LowerChar: lower-cases ASCII letters only. Full Unicode case mapping is
  outside the model.
- Text.Normalise: keywords are plain ASCII, so they match the same descriptions under
  ASCII-only lower-casing. A non-ASCII letter that lower-cases to an ASCII one (the
  Kelvin sign, for instance) is left out.
- Records.Card: each card has exactly one detail panel. The case where
  `[data-automation="jobAdDetails"]` matches several elements (the last would win)
  is left out.
- Records.Card: the case where it matches none is left out. There
  `waitForSelector('[data-automation="jobAdDetails"]')` (index.js:108) would time
  out and abort the run.
- Records.Card: a card without a `jobTitle` element is left out. Clicking it would
  throw and abort the run.
- Scraper.ProcessPage: `jobCardData` is taken to have one map per clicked card. The
  two lists come from the same selector on the same page. The `shift()` of an empty
  list is handled but never reached.
- Scraper.ScrapeBucket: requires the reported count of every page of every salary
  range, including pages never visited, to be at most a ghost bound `cap`, so that
  the do-while loop provably ends. Some sites on which the source stops are therefore
  outside the model (page 1 reports 0 while far pages report ever larger counts). This is not a promise of the
  source: a site that reports ever-growing counts would make the code crawl forever.
- Scraper.ScrapeJobs: the same bound. `PagesFrom`, `Fetched`, `BucketLog` and
  `RunLog` carry it too.
- Scraper.Page: a listing page without job cards. There
  `waitForSelector('[data-card-type="JobCard"]')` (index.js:73) times out, the run is
  rejected and nothing more is posted. The model instead gives such a page a
  behaviour the source lacks: it logs the visit, an empty batch post, and (as its
  last page) the bucket's count post.
- Scraper.Delivery: a failed POST is caught in the source, so a failed POST only
  marks the event. Exceptions from the page itself (a failed `goto` or
  `waitForSelector`) are left out. They would abort the whole run.

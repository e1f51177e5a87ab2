# A verified model of the depth-bounded crawl of a small web crawler

The crawler takes a seed URL and a maximum depth. It fetches the seed page and
extracts the page's links. Each link is resolved against the page URL and the
crawler recurses on it one level deeper. One `visited` set is shared by every
recursive call, and the recursion stops at `max_depth`. The repository has two
variants of this recursive `scrape` function, and this project models both,
each with the seed check of its command-line entry point.

- `scraper.py` honours a global `stop_flag`, which its signal handler sets. It
  writes a link to the worker file `worker_<id>.txt` only when the link is not
  yet in `visited`, and records the file name in the global `output_files` list
  once per such link. It also downloads every image of every page it fetches.
- `main.py` has no stop flag and no downloads. It writes every resolved link to
  its output file, visited or not.

Dafny files:

- `web.dfy`, module `Web`: the things both variants use without implementing
  them. The link graph is a map from URL to page, and a URL outside the map
  stands for a failed fetch. URL resolution (`urljoin`) is an uninterpreted
  function. The module also defines the claim log: every "Scraping URL ... at
  depth ..." line, as a URL with its depth. The Frontier invariant
  (`ClaimedOnce`) and provenance (`Traced`) are defined over this log.
- `scraper.dfy`, module `Scraper`, and `main_crawler.dfy`, module `MainCrawler`:
  one variant each. A specification function `Crawl` gives the effect of one
  `scrape` call on a value `State`. `RunTasks` / `RunAll` give the effect of its
  futures. The class `Crawler` holds the process state as fields, and its
  methods are imperative: `Scrape`, the link loop, the image loop, the
  `as_completed` loop and the `__main__` block. Each method is proved equal to
  the specification function, `Snapshot() == Crawl(Cfg(), url, depth,
  old(Snapshot()))`.
- `scraper_proofs.dfy` and `main_crawler_proofs.dfy`: what a crawl guarantees,
  proved by induction over the recursion. Each URL is claimed at most once, and
  `visited` is exactly the set of claimed URLs. Every claim is within
  `[0, max_depth]`. Every claim below the seed was linked from a page claimed
  one level shallower. The output file and the failure lines follow from the
  claim log, claim by claim. For `scraper.py`, every image of every fetched
  page is downloaded. Every link of a page claimed above the depth bound ends
  up visited.
- `graphs.dfy`, `scraper_scenarios.dfy` and `main_scenarios.dfy`: complete runs
  over small link graphs, worked out exactly. In one of them
  (`ShortcutAtDepthTwo`, with `max_depth` 2, seed a, a -> [b, c], b -> [c],
  c -> [d]) the URL d, two links from the seed, is never claimed. Its parent c
  is claimed first through the longer path a -> b -> c, at depth 2, so the call
  for d is beyond the bound. The call for c at depth 1 through the shorter path
  then finds c already visited. That outcome is the one of the modelled
  schedule described below.

In the source, `executor.submit` hands each recursive call to a pool thread at
once. A submitted call can therefore run, and claim URLs, while its parent's
link loop is still testing links against `visited`. The model fixes one of the
possible interleavings: the futures of each call run one after the other, in
submission order, after that call's submission loops are done. Every proof is
about this schedule. The exact contents of the worker file
(`ScraperProofs.Logged`, which depends on what is visited when each link loop
runs) and the exact claims and files of the scenario runs belong to this
schedule in particular.

## Model

| member | source | states |
|---|---|---|
| Web.ResolveAll | scraper.py:56-57 | each link of a page becomes `resolve(page URL, link)`, in order, one per link |
| Web.ClaimKeepsClaimedOnce | scraper.py:35 | adding a URL that is not yet visited to `visited`, and logging its claim, keeps every URL claimed once and `visited` equal to the claimed URLs |
| Web.Failures | scraper.py:38-43 | every "Failed to retrieve" URL was claimed and cannot be fetched |
| Web.TracedHasParent | scraper.py:56-63 | in a traced log, each claim at depth > 0 has an earlier claim one level shallower whose page links to it |
| Scraper.FreshIsUnvisitedLinks | scraper.py:56-58 | the links the loop logs and submits are exactly the resolved links of the page that are not in `visited`, and there are no more of them than the page has links |
| Scraper.Futures | scraper.py:55-67 | every recursive call submitted by a page is at `current_depth + 1` |
| Scraper.Crawl | scraper.py:27-70 | a rejected call (too deep, visited, or stop flag set) changes nothing. An admitted call claims its URL before anything else, and every later claim is strictly deeper. All its claims are within `[depth, max_depth]`. `visited` only grows, every log is only appended to, and `output_files` gains one worker-file name per logged link |
| Scraper.RunTasks | scraper.py:69-70 | running a call's futures only grows the state, and every claim they make is within `[depth, max_depth]` |
| Scraper.Run | scraper.py:96-103 | a seed without an HTTP scheme changes nothing; with one, the first claim is the seed at depth 0. That the worker file is truncated first is stated by `ScraperProofs.LaunchedOutput` |
| Scraper.Crawler.constructor | scraper.py:11-12 | a new process starts with empty `output_files`, a clear stop flag and nothing visited or written |
| Scraper.Crawler.Interrupt | scraper.py:79-82 | the signal handler sets the stop flag |
| Scraper.Crawler.DownloadImage | scraper.py:14-25 | one download attempt is recorded per call |
| Scraper.Crawler.Scrape | scraper.py:27-70 | the method's final state is exactly `Crawl` applied to its initial state, and the stop flag is untouched |
| Scraper.Crawler.LogLinks | scraper.py:56-63 | the link loop appends exactly the fresh links to the worker file and one worker-file name per fresh link to `output_files`, and returns one recursive call per fresh link at `current_depth + 1` |
| Scraper.Crawler.SubmitImages | scraper.py:65-67 | the image loop appends one download per image, resolved against the page URL, with no depth or visited check |
| Scraper.Crawler.AwaitAll | scraper.py:69-70 | waiting for the futures has exactly the effect of running them in order |
| Scraper.Crawler.Launch | scraper.py:96-103 | `started` is true exactly for an HTTP seed, and the final state is `Run` applied to the initial state |
| ScraperProofs.CrawlClaimsOnce | scraper.py:32-35 | a call keeps every URL claimed at most once, with `visited` equal to the claimed URLs |
| ScraperProofs.RunTasksClaimsOnce | scraper.py:63-70 | running the futures keeps the at-most-once claim invariant |
| ScraperProofs.CrawlAccounted | scraper.py:35-62 | after a call, the worker file is, claim by claim, the links that were fresh when each page was claimed, and the failure lines are the claims that could not be fetched |
| ScraperProofs.RunTasksAccounted | scraper.py:63-70 | running the futures keeps the worker file and the failure lines accounted |
| ScraperProofs.LoggedLinksComeFromPages | scraper.py:56-62 | every worker-file line is a resolved link of a page fetched successfully, and it was not claimed when that page was claimed |
| ScraperProofs.CrawlDownloads | scraper.py:65-70 | the downloads of a call are, as a multiset, the resolved images of every page it fetched |
| ScraperProofs.RunTasksDownloads | scraper.py:65-70 | the futures download exactly their pending images plus those of the pages they fetch |
| ScraperProofs.CrawlTraced | scraper.py:56-63 | every claim a call makes below the seed is linked from an earlier claim one level shallower |
| ScraperProofs.RunTasksTraced | scraper.py:63-70 | running futures whose calls are linked from the log keeps the log traced |
| ScraperProofs.RunTasksVisitsTasks | scraper.py:63-70 | with the stop flag clear, every submitted call within the depth bound finds its URL visited once the futures have run |
| ScraperProofs.CrawlCloses | scraper.py:54-70 | when the call claims its URL (so the stop flag is clear), every resolved link of a page claimed above the depth bound is visited once the call returns |
| ScraperProofs.CrawlClosesAll | scraper.py:27-70 | with the stop flag clear, every claim a call and its descendants make is closed in this sense when it returns |
| ScraperProofs.RunTasksClosesAll | scraper.py:69-70 | with the stop flag clear, every claim the futures make is closed once they have run |
| ScraperProofs.FailedFetchStops | scraper.py:38-43 | a page that cannot be fetched stays visited and is reported as failed, and nothing else changes: nothing is written, submitted or downloaded |
| ScraperProofs.RunTasksBeyondBound | scraper.py:32-33 | futures one level past `max_depth` claim, write and log nothing; only their image downloads run |
| ScraperProofs.CrawlAtDepthBound | scraper.py:32-67 | a page claimed at `max_depth` logs its fresh links and downloads its images, but claims nothing below it |
| ScraperProofs.LaunchedClaims | scraper.py:84-103 | in a whole run from an HTTP seed, whatever the worker file held before, each URL is claimed once and `visited` is the claimed set, depths are within `[0, max_depth]`, only the seed is at depth 0 and it comes first, and every other claim is traced to a page that links to it |
| ScraperProofs.LaunchedOutput | scraper.py:84-103 | in a whole run from an HTTP seed, the worker file holds exactly the lines the claims log, so whatever it held before the run is discarded; the failure lines are accounted claim by claim, every image of every fetched page is downloaded, and `output_files` holds one worker-file name per written line plus one |
| ScraperProofs.LaunchedCoverage | scraper.py:84-103 | in a whole run from an HTTP seed, whatever the worker file held before, without the stop flag, every page claimed above the depth bound has all its links visited |
| ScraperScenarios.DiamondAtDepthOne | scraper.py:27-70 | with a -> [b, c], b -> [d], c -> [d] and depth 1, the claims are a(0), b(1), c(1), and the worker file holds b, c, d, d: d is written twice and never fetched |
| ScraperScenarios.ShortcutAtDepthTwo | scraper.py:32-35 | with a -> [b, c], b -> [c], c -> [d] and depth 2, under the modelled schedule c is claimed first, at depth 2, through the longer path a -> b -> c, so the call for d is past the bound, and the later call for c at depth 1 finds c visited: d, two links from a, is never claimed |
| ScraperScenarios.CycleAtDepthOne | scraper.py:58 | with a <-> b and depth 1, the link from b back to a is not written because a is already visited |
| ScraperScenarios.FailureIsIsolated | scraper.py:38-43 | with a -> [b, c], b failing and depth 1, the claims are a(0), b(1), c(1), b is the one failure, and the crawl continues with c |
| MainCrawler.Crawl | main.py:10-45 | a rejected call (too deep or visited) changes nothing. An admitted call claims its URL before anything else, and every later claim is strictly deeper. All its claims are within `[depth, max_depth]`. `visited` only grows, every log is only appended to, and without an output file nothing is written |
| MainCrawler.RunAll | main.py:44-45 | running a call's futures only grows the state, and every claim they make is within `[depth, max_depth]` |
| MainCrawler.Run | main.py:62-68 | a seed without an HTTP scheme changes nothing, and neither does an empty output name; otherwise the first claim is the seed at depth 0. That the output file is cleared first is stated by `MainCrawlerProofs.LaunchedRun` |
| MainCrawler.Crawler.constructor | main.py:10-12 | a crawl starts with nothing visited or written |
| MainCrawler.Crawler.Scrape | main.py:10-45 | the method's final state is exactly `Crawl` applied to its initial state |
| MainCrawler.Crawler.SubmitLinks | main.py:37-42 | the link loop returns every link resolved against the page URL, in order, and writes all of them when an output file is given and none otherwise |
| MainCrawler.Crawler.AwaitAll | main.py:44-45 | waiting for the futures has exactly the effect of running them in order |
| MainCrawler.Crawler.Launch | main.py:62-68 | `started` is true exactly for an HTTP seed with an output name, and the final state is `Run` applied to the initial state |
| MainCrawlerProofs.CrawlClaimsOnce | main.py:14-17 | a call keeps every URL claimed at most once, with `visited` equal to the claimed URLs |
| MainCrawlerProofs.RunAllClaimsOnce | main.py:42-45 | running the futures keeps the at-most-once claim invariant |
| MainCrawlerProofs.CrawlAccounted | main.py:17-42 | after a call, the output file is, claim by claim, every resolved link of each page fetched successfully, and the failure lines are the claims that could not be fetched |
| MainCrawlerProofs.RunAllAccounted | main.py:42-45 | running the futures keeps the output file and the failure lines accounted |
| MainCrawlerProofs.EmittedLinksComeFromPages | main.py:37-41 | every output line is a resolved link of a page fetched successfully, never the seed as such, and nothing is written without an output file |
| MainCrawlerProofs.PageLinksAreEmitted | main.py:37-41 | every resolved link of every page fetched successfully is in the output, visited or not, at any depth |
| MainCrawlerProofs.CrawlTraced | main.py:37-42 | every claim a call makes below the seed is linked from an earlier claim one level shallower |
| MainCrawlerProofs.RunAllTraced | main.py:42-45 | running futures whose calls are linked from the log keeps the log traced |
| MainCrawlerProofs.RunAllVisitsAll | main.py:42-45 | every submitted call within the depth bound finds its URL visited once the futures have run |
| MainCrawlerProofs.CrawlCloses | main.py:35-45 | every resolved link of a page claimed above the depth bound is visited once the call returns |
| MainCrawlerProofs.CrawlClosesAll | main.py:10-45 | every claim a call and its descendants make is closed in this sense when it returns |
| MainCrawlerProofs.RunAllClosesAll | main.py:44-45 | every claim the futures make is closed once they have run |
| MainCrawlerProofs.FailedFetchStops | main.py:20-25 | a page that cannot be fetched stays visited and is reported as failed; nothing is written or submitted |
| MainCrawlerProofs.RunAllBeyondBound | main.py:14-15 | futures one level past `max_depth` change nothing |
| MainCrawlerProofs.CrawlAtDepthBound | main.py:14-42 | a page claimed at `max_depth` writes all its resolved links but claims none of them |
| MainCrawlerProofs.LaunchedRun | main.py:51-68 | a whole run from an HTTP seed with an output file, whatever that file held before: each URL is claimed once and `visited` is the claimed set, depths are within `[0, max_depth]`, only the seed is at depth 0, every claim is traced to a linking page, the output file holds exactly the lines the claims emit, so its earlier contents are discarded, the failures are accounted, and every page above the depth bound has all its links visited |
| MainScenarios.CycleAtDepthOne | main.py:37-42 | with a <-> b and depth 1, the output holds b and then a: a is written although it is already visited, and it is not fetched again |
| MainScenarios.DiamondAtDepthOne | main.py:37-42 | with a -> [b, c], b -> [d], c -> [d] and depth 1, the output holds b, c, d, d: d is written twice, at depth `max_depth + 1`, and never fetched |

## Left out

- HTTP fetching (`requests.get`, `raise_for_status`). A fetch succeeds exactly when the URL is a key of the link graph. Status codes and error messages are not modelled.
- HTML parsing and the plain-text URL regular expression. A page is its given sequence of links (anchor targets, then plain-text URLs) and of image sources.
- `urllib.parse.urljoin`: an uninterpreted `resolve(base, link)`. Nothing is assumed about it, and there is no normalisation.
- Thread pools, `as_completed` and the check-then-add race on `visited`. In the source a submitted call may start on a pool thread at once and claim URLs while its parent's link loop is still running. The model fixes one schedule instead: the futures of a call run one after the other, in submission order, after its submission loops. All proofs are about this schedule, and no claim is made about other interleavings, under which the claims and the worker-file lines can differ (for instance d may be claimed in the graph of `ScraperScenarios.ShortcutAtDepthTwo`).
- File I/O. The worker file and the output file are the `written` sequences, and truncation at start-up resets them. `merge_output_files` is not modelled. `output_files` holds the worker file name once per logged link, so the merge would try to read and delete the same file several times.
- Console messages other than the "Scraping URL" and "Failed to retrieve" lines. This includes the seed error message and the shutdown message.
- Signals. `Scraper.Crawler.Interrupt` sets the flag, but a signal that arrives while a crawl is running is not modelled: the stop flag is read as a fixed value during a crawl. `sys.exit` in the `main.py` handler is not modelled.
- `Scraper.Crawler.DownloadImage`: records the attempt only. Streaming the image to `worker_<id>_images/<basename>` and the outcome, success or failure, are not modelled.
- Argument parsing, and the formatting of `worker_<id>.txt`. The worker file name is a given string, and `worker_id` is not modelled otherwise.
- Exceptions other than the fetch failure: parser errors, and file errors such as an unwritable worker file. The one exception modelled is the empty output name of `main.py`: the truncating `open('')` raises before any crawling, and the model leaves the state unchanged and reports that the crawl did not start.
- Exceptions raised inside a future and re-raised by `future.result()`.

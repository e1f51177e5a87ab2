/** What a crawl of scraper.py guarantees, proved about the specification
    functions of module Scraper (and so, through the `ensures` of
    `Crawler.Scrape` and `Crawler.Launch`, about the class). */
module ScraperProofs {
  import opened Web
  import opened Scraper

  // ---------------------------------------------------------------------------
  // The Frontier: each URL is claimed at most once, and `visited` holds exactly
  // the claimed URLs.

  lemma {:induction false} CrawlClaimsOnce(c: Config, url: Url, depth: nat, st: State)
    requires ClaimedOnce(st.visited, st.fetched)
    ensures ClaimedOnce(Crawl(c, url, depth, st).visited, Crawl(c, url, depth, st).fetched)
    decreases Rank(c.maxDepth, depth), 0
  {
    if Admitted(c, url, depth, st) {
      var claimed := Claim(st, url, depth);
      ClaimKeepsClaimedOnce(st.visited, st.fetched, Visit(url, depth));
      if url in c.web.pages {
        RunTasksClaimsOnce(c, Futures(c, url, depth, claimed.visited), depth + 1, Submitted(c, url, claimed));
      }
    }
  }

  lemma {:induction false} RunTasksClaimsOnce(c: Config, tasks: seq<Task>, depth: nat, st: State)
    requires TasksAt(tasks, depth)
    requires ClaimedOnce(st.visited, st.fetched)
    ensures ClaimedOnce(RunTasks(c, tasks, depth, st).visited, RunTasks(c, tasks, depth, st).fetched)
    decreases Rank(c.maxDepth, depth), 1, |tasks|
  {
    if tasks != [] {
      if tasks[0].ScrapeTask? {
        CrawlClaimsOnce(c, tasks[0].url, tasks[0].depth, st);
      }
      assert TasksAt(tasks[1..], depth);
      RunTasksClaimsOnce(c, tasks[1..], depth, Step(c, tasks[0], depth, st));
    }
  }

  // ---------------------------------------------------------------------------
  // The worker file and the failure lines, accounted claim by claim.

  /** The lines a claim adds to the worker file: nothing when the fetch failed,
      otherwise the resolved links of the page not in `visited` right after the
      claim. */
  function PageLog(c: Config, url: Url, visited: set<Url>): seq<Url>
  {
    if url in c.web.pages then FreshLinks(c, url, visited) else []
  }

  /** The worker file a claim log produces: claim by claim, the page's links
      that were not yet claimed when that page was claimed. */
  function Logged(c: Config, log: seq<Visit>): seq<Url>
  {
    if log == [] then []
    else Logged(c, log[..|log| - 1]) + PageLog(c, log[|log| - 1].url, UrlSet(log))
  }

  ghost predicate Accounted(c: Config, st: State)
  {
    st.written == Logged(c, st.fetched) && st.failed == Failures(c.web, st.fetched)
  }

  lemma {:induction false} CrawlAccounted(c: Config, url: Url, depth: nat, st: State)
    requires ClaimedOnce(st.visited, st.fetched) && Accounted(c, st)
    ensures Accounted(c, Crawl(c, url, depth, st))
    decreases Rank(c.maxDepth, depth), 0
  {
    if Admitted(c, url, depth, st) {
      var claimed := Claim(st, url, depth);
      ClaimKeepsClaimedOnce(st.visited, st.fetched, Visit(url, depth));
      ClaimAccounted(c, st, url, depth);
      if url in c.web.pages {
        var submitted := Submitted(c, url, claimed);
        assert Accounted(c, submitted);
        RunTasksAccounted(c, Futures(c, url, depth, claimed.visited), depth + 1, submitted);
      }
    }
  }

  /** A claim adds to the worker file exactly the lines `PageLog` gives it, and
      a failure line exactly when the fetch fails. */
  lemma ClaimAccounted(c: Config, st: State, url: Url, depth: nat)
    requires ClaimedOnce(st.visited, st.fetched) && Accounted(c, st) && url !in st.visited
    ensures Logged(c, Claim(st, url, depth).fetched) == st.written + PageLog(c, url, st.visited + {url})
    ensures Failures(c.web, Claim(st, url, depth).fetched) ==
      st.failed + (if url in c.web.pages then [] else [url])
  {
    var log := st.fetched + [Visit(url, depth)];
    assert log[..|log| - 1] == st.fetched;
    UrlSetAppend(st.fetched, Visit(url, depth));
  }

  lemma {:induction false} RunTasksAccounted(c: Config, tasks: seq<Task>, depth: nat, st: State)
    requires TasksAt(tasks, depth)
    requires ClaimedOnce(st.visited, st.fetched) && Accounted(c, st)
    ensures Accounted(c, RunTasks(c, tasks, depth, st))
    decreases Rank(c.maxDepth, depth), 1, |tasks|
  {
    if tasks != [] {
      if tasks[0].ScrapeTask? {
        CrawlClaimsOnce(c, tasks[0].url, tasks[0].depth, st);
        CrawlAccounted(c, tasks[0].url, tasks[0].depth, st);
      }
      assert TasksAt(tasks[1..], depth);
      RunTasksAccounted(c, tasks[1..], depth, Step(c, tasks[0], depth, st));
    }
  }

  /** Every line of the worker file is a link of a page that was fetched
      successfully, resolved against that page's URL, and it was not yet
      claimed when that page was claimed. */
  lemma {:induction false} LoggedLinksComeFromPages(c: Config, log: seq<Visit>, x: Url)
    requires x in Logged(c, log)
    ensures exists i :: (0 <= i < |log| && log[i].url in c.web.pages && x !in UrlSet(log[..i + 1])
      && exists l :: l in c.web.pages[log[i].url].links && c.web.resolve(log[i].url, l) == x)
  {
    var n := |log| - 1;
    var init := log[..n];
    if x in Logged(c, init) {
      LoggedLinksComeFromPages(c, init, x);
      var i :| 0 <= i < |init| && init[i].url in c.web.pages && x !in UrlSet(init[..i + 1])
        && exists l :: l in c.web.pages[init[i].url].links && c.web.resolve(init[i].url, l) == x;
      assert init[i] == log[i] && init[..i + 1] == log[..i + 1];
      assert log[i].url in c.web.pages && x !in UrlSet(log[..i + 1]);
    } else {
      var u := log[n].url;
      assert u in c.web.pages && x in FreshLinks(c, u, UrlSet(log));
      FreshIsUnvisitedLinks(c.web.resolve, u, c.web.pages[u].links, UrlSet(log));
      assert log[..n + 1] == log;
      assert exists l :: l in c.web.pages[log[n].url].links && c.web.resolve(log[n].url, l) == x;
    }
  }

  // ---------------------------------------------------------------------------
  // Image downloads: every image of every page fetched successfully is
  // downloaded, whatever the depth and whatever is visited.

  /** The resolved images of the pages of a claim log, claim by claim. */
  function Images(c: Config, log: seq<Visit>): seq<Url>
  {
    if log == [] then []
    else
      var u := log[|log| - 1].url;
      Images(c, log[..|log| - 1]) + (if u in c.web.pages then ResolveAll(c.web.resolve, u, c.web.pages[u].images) else [])
  }

  /** The downloads among a list of futures. */
  function Pending(tasks: seq<Task>): multiset<Url>
  {
    if tasks == [] then multiset{}
    else (if tasks[0].DownloadTask? then multiset{tasks[0].url} else multiset{}) + Pending(tasks[1..])
  }

  lemma {:induction false} PendingAppend(a: seq<Task>, b: seq<Task>)
    ensures Pending(a + b) == Pending(a) + Pending(b)
  {
    if a != [] {
      var head := if a[0].DownloadTask? then multiset{a[0].url} else multiset{};
      assert (a + b)[0] == a[0];
      assert (a + b)[1..] == a[1..] + b;
      PendingAppend(a[1..], b);
      calc {
        Pending(a + b);
        head + Pending(a[1..] + b);
        head + (Pending(a[1..]) + Pending(b));
        (head + Pending(a[1..])) + Pending(b);
        Pending(a) + Pending(b);
      }
    } else {
      assert a + b == b;
    }
  }

  lemma {:induction false} PendingOfFutures(c: Config, url: Url, depth: nat, visited: set<Url>)
    requires url in c.web.pages
    ensures Pending(Futures(c, url, depth, visited))
         == multiset(ResolveAll(c.web.resolve, url, c.web.pages[url].images))
  {
    var links := FreshLinks(c, url, visited);
    PendingAppend(ScrapeTasks(links, depth + 1), DownloadTasks(ResolveAll(c.web.resolve, url, c.web.pages[url].images)));
    PendingOfScrapeTasks(links, depth + 1);
    PendingOfDownloadTasks(ResolveAll(c.web.resolve, url, c.web.pages[url].images));
  }

  lemma {:induction false} PendingOfScrapeTasks(urls: seq<Url>, depth: nat)
    ensures Pending(ScrapeTasks(urls, depth)) == multiset{}
  {
    if urls != [] {
      var n := |urls| - 1;
      var last := [ScrapeTask(urls[n], depth)];
      PendingOfScrapeTasks(urls[..n], depth);
      PendingAppend(ScrapeTasks(urls[..n], depth), last);
      assert Pending(last) == multiset{} by {
        assert last[1..] == [];
      }
    }
  }

  lemma {:induction false} PendingOfDownloadTasks(urls: seq<Url>)
    ensures Pending(DownloadTasks(urls)) == multiset(urls)
  {
    if urls != [] {
      var n := |urls| - 1;
      var last := [DownloadTask(urls[n])];
      PendingOfDownloadTasks(urls[..n]);
      PendingAppend(DownloadTasks(urls[..n]), last);
      assert Pending(last) == multiset{urls[n]} by {
        assert last[1..] == [];
      }
      assert multiset(urls) == multiset(urls[..n]) + multiset{urls[n]} by {
        assert urls == urls[..n] + [urls[n]];
      }
    }
  }

  lemma {:induction false} CrawlDownloads(c: Config, url: Url, depth: nat, st: State, others: multiset<Url>)
    requires multiset(st.downloads) + others == multiset(Images(c, st.fetched))
    ensures multiset(Crawl(c, url, depth, st).downloads) + others == multiset(Images(c, Crawl(c, url, depth, st).fetched))
    decreases Rank(c.maxDepth, depth), 0
  {
    if Admitted(c, url, depth, st) {
      var claimed := Claim(st, url, depth);
      ClaimImages(c, st, url, depth);
      if url in c.web.pages {
        var futures := Futures(c, url, depth, claimed.visited);
        var submitted := Submitted(c, url, claimed);
        PendingOfFutures(c, url, depth, claimed.visited);
        BalanceOfClaim(multiset(st.downloads), others, Pending(futures), multiset(Images(c, st.fetched)));
        RunTasksDownloads(c, futures, depth + 1, submitted, others);
      }
    }
  }

  /** A claim adds the resolved images of its page, when the fetch succeeds. */
  lemma ClaimImages(c: Config, st: State, url: Url, depth: nat)
    ensures Images(c, Claim(st, url, depth).fetched) == Images(c, st.fetched) +
      (if url in c.web.pages then ResolveAll(c.web.resolve, url, c.web.pages[url].images) else [])
  {
    var log := st.fetched + [Visit(url, depth)];
    assert log[..|log| - 1] == st.fetched;
  }

  lemma BalanceOfClaim(done: multiset<Url>, others: multiset<Url>, pending: multiset<Url>, before: multiset<Url>)
    requires done + others == before
    ensures done + pending + others == before + pending
  {
  }

  /** One download moves its URL from the pending futures to the downloads. */
  lemma DownloadKeepsBalance(c: Config, st: State, u: Url, pending: multiset<Url>, others: multiset<Url>)
    requires multiset(st.downloads) + (multiset{u} + pending) + others == multiset(Images(c, st.fetched))
    ensures multiset((st.downloads + [u])) + pending + others == multiset(Images(c, st.fetched))
  {
    assert multiset(st.downloads + [u]) == multiset(st.downloads) + multiset{u};
  }

  lemma {:induction false} RunTasksDownloads(c: Config, tasks: seq<Task>, depth: nat, st: State, others: multiset<Url>)
    requires TasksAt(tasks, depth)
    requires multiset(st.downloads) + Pending(tasks) + others == multiset(Images(c, st.fetched))
    ensures multiset(RunTasks(c, tasks, depth, st).downloads) + others
         == multiset(Images(c, RunTasks(c, tasks, depth, st).fetched))
    decreases Rank(c.maxDepth, depth), 1, |tasks|
  {
    if tasks != [] {
      var next := Step(c, tasks[0], depth, st);
      var rest := tasks[1..];
      assert multiset(next.downloads) + Pending(rest) + others == multiset(Images(c, next.fetched)) by {
        match tasks[0]
        case ScrapeTask(u, d) =>
          assert Pending(tasks) == Pending(rest);
          CrawlDownloads(c, u, d, st, Pending(rest) + others);
        case DownloadTask(u) =>
          assert Pending(tasks) == multiset{u} + Pending(rest);
          DownloadKeepsBalance(c, st, u, Pending(rest), others);
      }
      assert TasksAt(rest, depth);
      RunTasksDownloads(c, rest, depth, next, others);
      assert RunTasks(c, tasks, depth, st) == RunTasks(c, rest, depth, next);
    }
  }

  // ---------------------------------------------------------------------------
  // Provenance: every claim below the seed is a link of a page claimed earlier,
  // resolved against that page's URL, one level deeper.

  /** An admitted call on a page that can be fetched claims it, runs the link
      loop, and runs its futures one level deeper. */
  lemma CrawlOfFetched(c: Config, url: Url, depth: nat, st: State)
    requires Admitted(c, url, depth, st) && url in c.web.pages
    ensures var claimed := Claim(st, url, depth);
      Crawl(c, url, depth, st) ==
        RunTasks(c, Futures(c, url, depth, claimed.visited), depth + 1, Submitted(c, url, claimed))
  {
  }

  /** Every recursive call a fetched page submits is linked from that page's claim. */
  lemma FuturesLinked(c: Config, url: Url, depth: nat, log: seq<Visit>, visited: set<Url>)
    requires url in c.web.pages && log != [] && log[|log| - 1] == Visit(url, depth)
    ensures forall k :: 0 <= k < |Futures(c, url, depth, visited)| && Futures(c, url, depth, visited)[k].ScrapeTask? ==>
      Linked(c.web, log, Visit(Futures(c, url, depth, visited)[k].url, depth + 1))
  {
    var links := FreshLinks(c, url, visited);
    var futures := Futures(c, url, depth, visited);
    FreshIsUnvisitedLinks(c.web.resolve, url, c.web.pages[url].links, visited);
    forall k | 0 <= k < |futures| && futures[k].ScrapeTask?
      ensures Linked(c.web, log, Visit(futures[k].url, depth + 1))
    {
      assert k < |links| && futures[k].url == links[k];
      assert links[k] in links;
      assert LinksTo(c.web, log[|log| - 1], Visit(futures[k].url, depth + 1));
    }
  }

  lemma {:induction false} CrawlTraced(c: Config, url: Url, depth: nat, st: State)
    requires Traced(c.web, st.fetched)
    requires depth == 0 || Linked(c.web, st.fetched, Visit(url, depth))
    ensures Traced(c.web, Crawl(c, url, depth, st).fetched)
    decreases Rank(c.maxDepth, depth), 0
  {
    if Admitted(c, url, depth, st) {
      var claimed := Claim(st, url, depth);
      if url in c.web.pages {
        var futures := Futures(c, url, depth, claimed.visited);
        var submitted := Submitted(c, url, claimed);
        assert Traced(c.web, RunTasks(c, futures, depth + 1, submitted).fetched) by {
          TracedAppend(c.web, st.fetched, Visit(url, depth));
          SubmittedTraced(c, url, depth, claimed);
          RunTasksTraced(c, futures, depth + 1, submitted);
        }
        CrawlOfFetched(c, url, depth, st);
      } else {
        assert Traced(c.web, st.fetched + [Visit(url, depth)]) by {
          TracedAppend(c.web, st.fetched, Visit(url, depth));
        }
        FailedFetchStops(c, url, depth, st);
      }
    }
  }

  /** After the link loop the log is still traced, and every submitted call is
      linked from the page just claimed. */
  lemma SubmittedTraced(c: Config, url: Url, depth: nat, claimed: State)
    requires url in c.web.pages && claimed.fetched != []
    requires claimed.fetched[|claimed.fetched| - 1] == Visit(url, depth)
    requires Traced(c.web, claimed.fetched)
    ensures var submitted := Submitted(c, url, claimed);
      var futures := Futures(c, url, depth, claimed.visited);
      && Traced(c.web, submitted.fetched)
      && forall k :: 0 <= k < |futures| && futures[k].ScrapeTask? ==>
           Linked(c.web, submitted.fetched, Visit(futures[k].url, depth + 1))
  {
    assert Submitted(c, url, claimed).fetched == claimed.fetched;
    FuturesLinked(c, url, depth, claimed.fetched, claimed.visited);
  }

  lemma {:induction false} RunTasksTraced(c: Config, tasks: seq<Task>, depth: nat, st: State)
    requires TasksAt(tasks, depth)
    requires Traced(c.web, st.fetched)
    requires forall k :: 0 <= k < |tasks| && tasks[k].ScrapeTask? ==> Linked(c.web, st.fetched, Visit(tasks[k].url, depth))
    ensures Traced(c.web, RunTasks(c, tasks, depth, st).fetched)
    decreases Rank(c.maxDepth, depth), 1, |tasks|
  {
    if tasks != [] {
      var next := Step(c, tasks[0], depth, st);
      if tasks[0].ScrapeTask? {
        CrawlTraced(c, tasks[0].url, tasks[0].depth, st);
      }
      var rest := tasks[1..];
      forall k | 0 <= k < |rest| && rest[k].ScrapeTask?
        ensures Linked(c.web, next.fetched, Visit(rest[k].url, depth))
      {
        assert rest[k] == tasks[k + 1];
        LinkedGrows(c.web, st.fetched, next.fetched, Visit(rest[k].url, depth));
      }
      RunTasksTraced(c, rest, depth, next);
    }
  }

  // ---------------------------------------------------------------------------
  // Coverage: while the stop flag is clear, once a call returns, every link of
  // its page is visited, unless the page sits at the depth bound.

  /** The resolved links of a page claimed above the depth bound are all in `visited`. */
  ghost predicate Closed(c: Config, v: Visit, visited: set<Url>)
  {
    v.depth < c.maxDepth && v.url in c.web.pages ==>
      forall l :: l in c.web.pages[v.url].links ==> c.web.resolve(v.url, l) in visited
  }

  /** A recursive call that is still within the depth bound is visited once the
      futures have run: either it claimed its URL, or the URL was claimed before. */
  lemma {:induction false} RunTasksVisitsTasks(c: Config, tasks: seq<Task>, depth: nat, st: State)
    requires TasksAt(tasks, depth)
    requires !c.stop && depth <= c.maxDepth
    ensures forall k :: 0 <= k < |tasks| && tasks[k].ScrapeTask? ==> tasks[k].url in RunTasks(c, tasks, depth, st).visited
    decreases |tasks|
  {
    if tasks != [] {
      var next := Step(c, tasks[0], depth, st);
      assert TasksAt(tasks[1..], depth);
      RunTasksVisitsTasks(c, tasks[1..], depth, next);
      forall k | 0 <= k < |tasks| && tasks[k].ScrapeTask?
        ensures tasks[k].url in RunTasks(c, tasks, depth, st).visited
      {
        if k > 0 {
          assert tasks[k] == tasks[1..][k - 1];
        }
      }
    }
  }

  lemma {:induction false} CrawlCloses(c: Config, url: Url, depth: nat, st: State)
    ensures Closed(c, Visit(url, depth), Crawl(c, url, depth, st).visited) || !Admitted(c, url, depth, st)
  {
    if Admitted(c, url, depth, st) && depth < c.maxDepth && url in c.web.pages {
      var claimed := Claim(st, url, depth);
      var page := c.web.pages[url];
      var links := FreshLinks(c, url, claimed.visited);
      var futures := Futures(c, url, depth, claimed.visited);
      var submitted := Submitted(c, url, claimed);
      var r := RunTasks(c, futures, depth + 1, submitted);
      assert r == Crawl(c, url, depth, st);
      assert claimed.visited <= r.visited;
      RunTasksVisitsTasks(c, futures, depth + 1, submitted);
      FreshIsUnvisitedLinks(c.web.resolve, url, page.links, claimed.visited);
      forall l | l in page.links ensures c.web.resolve(url, l) in r.visited {
        var x := c.web.resolve(url, l);
        if x !in claimed.visited {
          assert x in links;
          var k :| 0 <= k < |links| && links[k] == x;
          assert futures[k] == ScrapeTask(x, depth + 1);
        }
      }
    }
  }

  lemma ClosedGrows(c: Config, v: Visit, visited: set<Url>, visited': set<Url>)
    requires Closed(c, v, visited) && visited <= visited'
    ensures Closed(c, v, visited')
  {
  }

  /** Every claim a call makes, its own and its descendants', is closed once it returns. */
  lemma {:induction false} CrawlClosesAll(c: Config, url: Url, depth: nat, st: State)
    requires !c.stop
    ensures forall i :: |st.fetched| <= i < |Crawl(c, url, depth, st).fetched| ==>
      Closed(c, Crawl(c, url, depth, st).fetched[i], Crawl(c, url, depth, st).visited)
    decreases Rank(c.maxDepth, depth), 0
  {
    if Admitted(c, url, depth, st) {
      var claimed := Claim(st, url, depth);
      CrawlCloses(c, url, depth, st);
      if url in c.web.pages {
        RunTasksClosesAll(c, Futures(c, url, depth, claimed.visited), depth + 1, Submitted(c, url, claimed));
      }
    }
  }

  lemma {:induction false} RunTasksClosesAll(c: Config, tasks: seq<Task>, depth: nat, st: State)
    requires TasksAt(tasks, depth) && !c.stop
    ensures forall i :: |st.fetched| <= i < |RunTasks(c, tasks, depth, st).fetched| ==>
      Closed(c, RunTasks(c, tasks, depth, st).fetched[i], RunTasks(c, tasks, depth, st).visited)
    decreases Rank(c.maxDepth, depth), 1, |tasks|
  {
    if tasks != [] {
      var next := Step(c, tasks[0], depth, st);
      var r := RunTasks(c, tasks, depth, st);
      assert TasksAt(tasks[1..], depth);
      RunTasksClosesAll(c, tasks[1..], depth, next);
      match tasks[0]
      case ScrapeTask(u, d) =>
        CrawlClosesAll(c, u, d, st);
        assert next == Crawl(c, u, d, st);
        forall i | |st.fetched| <= i < |next.fetched| ensures Closed(c, r.fetched[i], r.visited) {
          assert r.fetched[i] == next.fetched[i];
          ClosedGrows(c, next.fetched[i], next.visited, r.visited);
        }
      case DownloadTask(_) =>
    }
  }

  // ---------------------------------------------------------------------------
  // Failure isolation: a failed fetch ends the call after the claim.

  /** A page that cannot be fetched stays claimed and is reported as failed;
      nothing is written, submitted or downloaded for it. */
  lemma FailedFetchStops(c: Config, url: Url, depth: nat, st: State)
    requires Admitted(c, url, depth, st) && url !in c.web.pages
    ensures Crawl(c, url, depth, st) ==
      st.(visited := st.visited + {url}, fetched := st.fetched + [Visit(url, depth)], failed := st.failed + [url])
  {
  }

  // ---------------------------------------------------------------------------
  // The depth bound: calls one level past `max_depth` return at once, so a page
  // claimed at the bound is fetched, logs its links and downloads its images,
  // and nothing below it is claimed.

  lemma {:induction false} RunTasksBeyondBound(c: Config, tasks: seq<Task>, depth: nat, st: State)
    requires TasksAt(tasks, depth) && depth > c.maxDepth
    ensures RunTasks(c, tasks, depth, st) == st.(downloads := RunTasks(c, tasks, depth, st).downloads)
    ensures multiset(RunTasks(c, tasks, depth, st).downloads) == multiset(st.downloads) + Pending(tasks)
    decreases |tasks|
  {
    if tasks != [] {
      assert TasksAt(tasks[1..], depth);
      RunTasksBeyondBound(c, tasks[1..], depth, Step(c, tasks[0], depth, st));
    }
  }

  lemma CrawlAtDepthBound(c: Config, url: Url, depth: nat, st: State)
    requires depth == c.maxDepth && Admitted(c, url, depth, st) && url in c.web.pages
    ensures var r := Crawl(c, url, depth, st);
      && r == Submitted(c, url, Claim(st, url, depth)).(downloads := r.downloads)
      && multiset(r.downloads) == multiset(st.downloads) + multiset(ResolveAll(c.web.resolve, url, c.web.pages[url].images))
  {
    var claimed := Claim(st, url, depth);
    PendingOfFutures(c, url, depth, claimed.visited);
    RunTasksBeyondBound(c, Futures(c, url, depth, claimed.visited), depth + 1, Submitted(c, url, claimed));
  }

  // ---------------------------------------------------------------------------
  // A whole run from a fresh process, whatever an earlier run left in the
  // worker file.

  /** The claims of a run started with an HTTP seed: each URL once, the seed
      first and alone at depth 0, every other claim linked from an earlier one. */
  lemma LaunchedClaims(c: Config, seed: Url, leftover: seq<Url>)
    requires IsHttpUrl(seed)
    ensures var r := Run(c, seed, Initial().(written := leftover));
      && ClaimedOnce(r.visited, r.fetched)
      && (forall i :: 0 <= i < |r.fetched| ==> r.fetched[i].depth <= c.maxDepth)
      && (forall i :: 0 <= i < |r.fetched| ==> (r.fetched[i].depth == 0 <==> i == 0))
      && (r.fetched != [] ==> r.fetched[0] == Visit(seed, 0))
      && Traced(c.web, r.fetched)
  {
    var st := State({}, [], [], [], [c.workerFile], []);
    RunStartsCrawl(c, seed, leftover);
    CrawlClaimsOnce(c, seed, 0, st);
    CrawlTraced(c, seed, 0, st);
  }

  /** The output of a run started with an HTTP seed: the worker file holds
      exactly the lines the claims log, so nothing left in it before the run
      survives; the failures follow from the claims, every image of every
      fetched page is downloaded, and `output_files` names the worker file once
      per written line plus once for the start. */
  lemma LaunchedOutput(c: Config, seed: Url, leftover: seq<Url>)
    requires IsHttpUrl(seed)
    ensures var r := Run(c, seed, Initial().(written := leftover));
      && Accounted(c, r)
      && multiset(r.downloads) == multiset(Images(c, r.fetched))
      && r.outputFiles == Repeat(c.workerFile, |r.written| + 1)
  {
    var st := State({}, [], [], [], [c.workerFile], []);
    var r := Crawl(c, seed, 0, st);
    RunStartsCrawl(c, seed, leftover);
    assert Accounted(c, r) by {
      CrawlAccounted(c, seed, 0, st);
    }
    assert multiset(r.downloads) == multiset(Images(c, r.fetched)) by {
      CrawlDownloads(c, seed, 0, st, multiset{});
    }
    assert r.outputFiles == Repeat(c.workerFile, |r.written| + 1) by {
      AllRepeat(r.outputFiles, c.workerFile);
    }
  }

  /** Without the stop flag, a run started with an HTTP seed visits every link
      of every page it claims above the depth bound. */
  lemma LaunchedCoverage(c: Config, seed: Url, leftover: seq<Url>)
    requires IsHttpUrl(seed) && !c.stop
    ensures var r := Run(c, seed, Initial().(written := leftover));
      forall i :: 0 <= i < |r.fetched| ==> Closed(c, r.fetched[i], r.visited)
  {
    RunStartsCrawl(c, seed, leftover);
    CrawlClosesAll(c, seed, 0, State({}, [], [], [], [c.workerFile], []));
  }

  /** The crawl a run starts: empty `visited`, an empty worker file registered
      once. */
  lemma RunStartsCrawl(c: Config, seed: Url, leftover: seq<Url>)
    requires IsHttpUrl(seed)
    ensures Run(c, seed, Initial().(written := leftover)) ==
      Crawl(c, seed, 0, State({}, [], [], [], [c.workerFile], []))
  {
    assert [] + [c.workerFile] == [c.workerFile];
  }

  /** A sequence holding one name throughout is that name repeated. */
  lemma AllRepeat(s: seq<string>, name: string)
    requires forall k :: 0 <= k < |s| ==> s[k] == name
    ensures s == Repeat(name, |s|)
  {
  }
}

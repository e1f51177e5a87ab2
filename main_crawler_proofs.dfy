/** What a crawl of main.py guarantees, proved about the specification
    functions of module MainCrawler (and so, through the `ensures` of
    `Crawler.Scrape` and `Crawler.Launch`, about the class). */
module MainCrawlerProofs {
  import opened Web
  import opened MainCrawler

  // ---------------------------------------------------------------------------
  // The Frontier: each URL is claimed at most once, and `visited` holds exactly
  // the claimed URLs.

  lemma {:induction false} CrawlClaimsOnce(c: Config, url: Url, depth: nat, st: State)
    requires ClaimedOnce(st.visited, st.fetched)
    ensures ClaimedOnce(Crawl(c, url, depth, st).visited, Crawl(c, url, depth, st).fetched)
    decreases Rank(c.maxDepth, depth), 0
  {
    if Admitted(c, url, depth, st) {
      var claimed := Claim(st, url, depth);
      ClaimKeepsClaimedOnce(st.visited, st.fetched, Visit(url, depth));
      if url in c.web.pages {
        var children := Children(c, url);
        RunAllClaimsOnce(c, children, depth + 1, claimed.(written := claimed.written + Emit(c, children)));
      }
    }
  }

  lemma {:induction false} RunAllClaimsOnce(c: Config, urls: seq<Url>, depth: nat, st: State)
    requires ClaimedOnce(st.visited, st.fetched)
    ensures ClaimedOnce(RunAll(c, urls, depth, st).visited, RunAll(c, urls, depth, st).fetched)
    decreases Rank(c.maxDepth, depth), 1, |urls|
  {
    if urls != [] {
      CrawlClaimsOnce(c, urls[0], depth, st);
      RunAllClaimsOnce(c, urls[1..], depth, Crawl(c, urls[0], depth, st));
    }
  }

  // ---------------------------------------------------------------------------
  // The output file and the failure lines, accounted claim by claim.

  /** The output file a claim log produces: claim by claim, every resolved link
      of each page fetched successfully, when an output file is given. */
  function Emitted(c: Config, log: seq<Visit>): seq<Url>
  {
    if log == [] then []
    else
      var u := log[|log| - 1].url;
      Emitted(c, log[..|log| - 1]) + (if u in c.web.pages then Emit(c, Children(c, u)) else [])
  }

  ghost predicate Accounted(c: Config, st: State)
  {
    st.written == Emitted(c, st.fetched) && st.failed == Failures(c.web, st.fetched)
  }

  lemma {:induction false} CrawlAccounted(c: Config, url: Url, depth: nat, st: State)
    requires Accounted(c, st)
    ensures Accounted(c, Crawl(c, url, depth, st))
    decreases Rank(c.maxDepth, depth), 0
  {
    if Admitted(c, url, depth, st) {
      var claimed := Claim(st, url, depth);
      ClaimAccounted(c, st, url, depth);
      if url in c.web.pages {
        var children := Children(c, url);
        var emitted := claimed.(written := claimed.written + Emit(c, children));
        assert Accounted(c, emitted);
        RunAllAccounted(c, children, depth + 1, emitted);
      }
    }
  }

  /** A claim adds to the output file the page's resolved links when the fetch
      succeeds, and a failure line when it fails. */
  lemma ClaimAccounted(c: Config, st: State, url: Url, depth: nat)
    requires Accounted(c, st)
    ensures Emitted(c, Claim(st, url, depth).fetched) ==
      st.written + (if url in c.web.pages then Emit(c, Children(c, url)) else [])
    ensures Failures(c.web, Claim(st, url, depth).fetched) ==
      st.failed + (if url in c.web.pages then [] else [url])
  {
    var log := st.fetched + [Visit(url, depth)];
    assert log[..|log| - 1] == st.fetched;
  }

  lemma {:induction false} RunAllAccounted(c: Config, urls: seq<Url>, depth: nat, st: State)
    requires Accounted(c, st)
    ensures Accounted(c, RunAll(c, urls, depth, st))
    decreases Rank(c.maxDepth, depth), 1, |urls|
  {
    if urls != [] {
      CrawlAccounted(c, urls[0], depth, st);
      RunAllAccounted(c, urls[1..], depth, Crawl(c, urls[0], depth, st));
    }
  }

  /** Every line of the output file is a link of a page that was fetched
      successfully, resolved against that page's URL; without an output file
      nothing is written. */
  lemma {:induction false} EmittedLinksComeFromPages(c: Config, log: seq<Visit>, x: Url)
    requires x in Emitted(c, log)
    ensures c.outputFile != ""
    ensures exists i :: (0 <= i < |log| && log[i].url in c.web.pages
      && exists l :: l in c.web.pages[log[i].url].links && c.web.resolve(log[i].url, l) == x)
  {
    var n := |log| - 1;
    var init := log[..n];
    if x in Emitted(c, init) {
      EmittedLinksComeFromPages(c, init, x);
      var i :| 0 <= i < |init| && init[i].url in c.web.pages
        && exists l :: l in c.web.pages[init[i].url].links && c.web.resolve(init[i].url, l) == x;
      assert init[i] == log[i];
    } else {
      var u := log[n].url;
      var links := c.web.pages[u].links;
      assert u in c.web.pages && x in Children(c, u);
      var k :| 0 <= k < |links| && ResolveAll(c.web.resolve, u, links)[k] == x;
      assert links[k] in links;
    }
  }

  /** Conversely, every resolved link of every page fetched successfully is in
      the output file, visited or not, at any depth. */
  lemma {:induction false} PageLinksAreEmitted(c: Config, log: seq<Visit>, i: nat, l: Url)
    requires c.outputFile != "" && i < |log| && log[i].url in c.web.pages
    requires l in c.web.pages[log[i].url].links
    ensures c.web.resolve(log[i].url, l) in Emitted(c, log)
  {
    var n := |log| - 1;
    if i < n {
      PageLinksAreEmitted(c, log[..n], i, l);
      assert log[..n][i] == log[i];
    } else {
      var links := c.web.pages[log[i].url].links;
      var k :| 0 <= k < |links| && links[k] == l;
      assert Children(c, log[i].url)[k] == c.web.resolve(log[i].url, l);
    }
  }

  // ---------------------------------------------------------------------------
  // Provenance: every claim below the seed is a link of a page claimed earlier,
  // resolved against that page's URL, one level deeper.

  lemma {:induction false} CrawlTraced(c: Config, url: Url, depth: nat, st: State)
    requires Traced(c.web, st.fetched)
    requires depth == 0 || Linked(c.web, st.fetched, Visit(url, depth))
    ensures Traced(c.web, Crawl(c, url, depth, st).fetched)
    decreases Rank(c.maxDepth, depth), 0
  {
    if Admitted(c, url, depth, st) {
      var claimed := Claim(st, url, depth);
      if url in c.web.pages {
        var children := Children(c, url);
        var emitted := claimed.(written := claimed.written + Emit(c, children));
        assert Traced(c.web, RunAll(c, children, depth + 1, emitted).fetched) by {
          TracedAppend(c.web, st.fetched, Visit(url, depth));
          EmittedTraced(c, url, depth, claimed);
          RunAllTraced(c, children, depth + 1, emitted);
        }
        CrawlOfFetched(c, url, depth, st);
      } else {
        assert Traced(c.web, st.fetched + [Visit(url, depth)]) by {
          TracedAppend(c.web, st.fetched, Visit(url, depth));
        }
        FailedFetchStops(c, url, depth, st);
      }
    }
  }

  /** After the link loop the log is still traced, and every submitted call is
      linked from the page just claimed. */
  lemma EmittedTraced(c: Config, url: Url, depth: nat, claimed: State)
    requires url in c.web.pages && claimed.fetched != []
    requires claimed.fetched[|claimed.fetched| - 1] == Visit(url, depth)
    requires Traced(c.web, claimed.fetched)
    ensures var emitted := claimed.(written := claimed.written + Emit(c, Children(c, url)));
      && Traced(c.web, emitted.fetched)
      && forall k :: 0 <= k < |Children(c, url)| ==>
           Linked(c.web, emitted.fetched, Visit(Children(c, url)[k], depth + 1))
  {
    ChildrenLinked(c, url, depth, claimed.fetched);
  }

  /** Every recursive call a fetched page submits is linked from that page's claim. */
  lemma ChildrenLinked(c: Config, url: Url, depth: nat, log: seq<Visit>)
    requires url in c.web.pages && log != [] && log[|log| - 1] == Visit(url, depth)
    ensures forall k :: 0 <= k < |Children(c, url)| ==> Linked(c.web, log, Visit(Children(c, url)[k], depth + 1))
  {
    var children := Children(c, url);
    var links := c.web.pages[url].links;
    forall k | 0 <= k < |children| ensures Linked(c.web, log, Visit(children[k], depth + 1)) {
      assert links[k] in links;
      assert LinksTo(c.web, log[|log| - 1], Visit(children[k], depth + 1));
    }
  }

  /** One admitted call on a page fetched successfully, unfolded: the claim,
      the link loop, then the futures. Kept apart so that proofs about a call
      need not unfold `Crawl` next to their own facts. */
  lemma CrawlOfFetched(c: Config, url: Url, depth: nat, st: State)
    requires Admitted(c, url, depth, st) && url in c.web.pages
    ensures var claimed := Claim(st, url, depth);
      Crawl(c, url, depth, st) ==
        RunAll(c, Children(c, url), depth + 1, claimed.(written := claimed.written + Emit(c, Children(c, url))))
  {
  }

  lemma {:induction false} RunAllTraced(c: Config, urls: seq<Url>, depth: nat, st: State)
    requires Traced(c.web, st.fetched)
    requires forall k :: 0 <= k < |urls| ==> Linked(c.web, st.fetched, Visit(urls[k], depth))
    ensures Traced(c.web, RunAll(c, urls, depth, st).fetched)
    decreases Rank(c.maxDepth, depth), 1, |urls|
  {
    if urls != [] {
      var next := Crawl(c, urls[0], depth, st);
      CrawlTraced(c, urls[0], depth, st);
      var rest := urls[1..];
      forall k | 0 <= k < |rest| ensures Linked(c.web, next.fetched, Visit(rest[k], depth)) {
        assert rest[k] == urls[k + 1];
        LinkedGrows(c.web, st.fetched, next.fetched, Visit(rest[k], depth));
      }
      RunAllTraced(c, rest, depth, next);
    }
  }

  // ---------------------------------------------------------------------------
  // Coverage: once a call returns, every link of its page is visited, unless
  // the page sits at the depth bound.

  /** The resolved links of a page claimed above the depth bound are all in `visited`. */
  ghost predicate Closed(c: Config, v: Visit, visited: set<Url>)
  {
    v.depth < c.maxDepth && v.url in c.web.pages ==>
      forall l :: l in c.web.pages[v.url].links ==> c.web.resolve(v.url, l) in visited
  }

  /** Every recursive call within the depth bound finds its URL visited once the
      futures have run: either it claimed the URL, or the URL was claimed before. */
  lemma {:induction false} RunAllVisitsAll(c: Config, urls: seq<Url>, depth: nat, st: State)
    requires depth <= c.maxDepth
    ensures forall k :: 0 <= k < |urls| ==> urls[k] in RunAll(c, urls, depth, st).visited
    decreases |urls|
  {
    if urls != [] {
      var next := Crawl(c, urls[0], depth, st);
      RunAllVisitsAll(c, urls[1..], depth, next);
      forall k | 0 <= k < |urls| ensures urls[k] in RunAll(c, urls, depth, st).visited {
        if k > 0 {
          assert urls[k] == urls[1..][k - 1];
        }
      }
    }
  }

  lemma {:induction false} CrawlCloses(c: Config, url: Url, depth: nat, st: State)
    ensures Closed(c, Visit(url, depth), Crawl(c, url, depth, st).visited) || !Admitted(c, url, depth, st)
  {
    if Admitted(c, url, depth, st) && depth < c.maxDepth && url in c.web.pages {
      var claimed := Claim(st, url, depth);
      var links := c.web.pages[url].links;
      var children := Children(c, url);
      var r := RunAll(c, children, depth + 1, claimed.(written := claimed.written + Emit(c, children)));
      assert r == Crawl(c, url, depth, st);
      RunAllVisitsAll(c, children, depth + 1, claimed.(written := claimed.written + Emit(c, children)));
      forall l | l in links ensures c.web.resolve(url, l) in r.visited {
        var k :| 0 <= k < |links| && links[k] == l;
        assert children[k] == c.web.resolve(url, l);
      }
    }
  }

  lemma ClosedGrows(c: Config, v: Visit, visited: set<Url>, visited': set<Url>)
    requires Closed(c, v, visited) && visited <= visited'
    ensures Closed(c, v, visited')
  {
  }

  /** Every claim a call makes, its own and its descendants', is closed once it returns. */
  lemma {:induction false} CrawlClosesAll(c: Config, url: Url, depth: nat, st: State)
    ensures forall i :: |st.fetched| <= i < |Crawl(c, url, depth, st).fetched| ==>
      Closed(c, Crawl(c, url, depth, st).fetched[i], Crawl(c, url, depth, st).visited)
    decreases Rank(c.maxDepth, depth), 0
  {
    if Admitted(c, url, depth, st) {
      var claimed := Claim(st, url, depth);
      CrawlCloses(c, url, depth, st);
      if url in c.web.pages {
        var children := Children(c, url);
        RunAllClosesAll(c, children, depth + 1, claimed.(written := claimed.written + Emit(c, children)));
      }
    }
  }

  lemma {:induction false} RunAllClosesAll(c: Config, urls: seq<Url>, depth: nat, st: State)
    ensures forall i :: |st.fetched| <= i < |RunAll(c, urls, depth, st).fetched| ==>
      Closed(c, RunAll(c, urls, depth, st).fetched[i], RunAll(c, urls, depth, st).visited)
    decreases Rank(c.maxDepth, depth), 1, |urls|
  {
    if urls != [] {
      var next := Crawl(c, urls[0], depth, st);
      var r := RunAll(c, urls, depth, st);
      RunAllClosesAll(c, urls[1..], depth, next);
      CrawlClosesAll(c, urls[0], depth, st);
      forall i | |st.fetched| <= i < |next.fetched| ensures Closed(c, r.fetched[i], r.visited) {
        assert r.fetched[i] == next.fetched[i];
        ClosedGrows(c, next.fetched[i], next.visited, r.visited);
      }
    }
  }

  // ---------------------------------------------------------------------------
  // Failure isolation: a failed fetch ends the call after the claim.

  /** A page that cannot be fetched stays claimed and is reported as failed;
      nothing is written, submitted or downloaded for it. */
  lemma FailedFetchStops(c: Config, url: Url, depth: nat, st: State)
    requires Admitted(c, url, depth, st) && url !in c.web.pages
    ensures Crawl(c, url, depth, st) ==
      st.(visited := st.visited + {url}, fetched := st.fetched + [Visit(url, depth)], failed := st.failed + [url])
  {
  }

  // ---------------------------------------------------------------------------
  // The depth bound: calls one level past `max_depth` return at once, so a page
  // claimed at the bound writes all its links, none of which is claimed.

  lemma {:induction false} RunAllBeyondBound(c: Config, urls: seq<Url>, depth: nat, st: State)
    requires depth > c.maxDepth
    ensures RunAll(c, urls, depth, st) == st
    decreases |urls|
  {
    if urls != [] {
      RunAllBeyondBound(c, urls[1..], depth, Crawl(c, urls[0], depth, st));
    }
  }

  lemma CrawlAtDepthBound(c: Config, url: Url, depth: nat, st: State)
    requires depth == c.maxDepth && Admitted(c, url, depth, st) && url in c.web.pages
    ensures Crawl(c, url, depth, st) ==
      st.(visited := st.visited + {url}, fetched := st.fetched + [Visit(url, depth)],
          written := st.written + Emit(c, Children(c, url)))
  {
    var claimed := Claim(st, url, depth);
    var children := Children(c, url);
    RunAllBeyondBound(c, children, depth + 1, claimed.(written := claimed.written + Emit(c, children)));
  }

  // ---------------------------------------------------------------------------
  // A whole run from a fresh process, whatever an earlier run left in the
  // output file.

  /** What a run started with an HTTP seed and an output file leaves behind:
      the output file holds exactly the lines the claims emit, so nothing left
      in it before the run survives. */
  lemma {:induction false} LaunchedRun(c: Config, seed: Url, leftover: seq<Url>)
    requires IsHttpUrl(seed) && c.outputFile != ""
    ensures var r := Run(c, seed, Initial().(written := leftover));
      && ClaimedOnce(r.visited, r.fetched)
      && (forall i :: 0 <= i < |r.fetched| ==> r.fetched[i].depth <= c.maxDepth)
      && (forall i :: 0 <= i < |r.fetched| ==> (r.fetched[i].depth == 0 <==> i == 0))
      && (r.fetched != [] ==> r.fetched[0] == Visit(seed, 0))
      && Traced(c.web, r.fetched)
      && Accounted(c, r)
      && (forall i :: 0 <= i < |r.fetched| ==> Closed(c, r.fetched[i], r.visited))
  {
    var st := Initial();
    var r := Run(c, seed, Initial().(written := leftover));
    assert r == Crawl(c, seed, 0, st);
    CrawlClaimsOnce(c, seed, 0, st);
    CrawlAccounted(c, seed, 0, st);
    CrawlTraced(c, seed, 0, st);
    CrawlClosesAll(c, seed, 0, st);
  }
}

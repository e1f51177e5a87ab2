/** Concrete runs of scraper.py over the small link graphs of module Graphs. */
module ScraperScenarios {
  import opened Web
  import opened Scraper
  import opened ScraperProofs
  import opened Graphs

  /** The state the `__main__` block hands to the first call. */
  function Start(cfg: Config): State
  {
    State({}, [], [], [], [cfg.workerFile], [])
  }

  /** With depth 1, d would be claimed at depth 2 and is never fetched, but both
      b and c log it: the worker file holds d twice. */
  lemma DiamondAtDepthOne(a: Url, b: Url, c: Url, d: Url, w: string)
    requires Four(a, b, c, d)
    ensures Run(Config(Diamond(a, b, c, d), 1, false, w), a, Initial()) ==
      State({a, b, c}, [Visit(a, 0), Visit(b, 1), Visit(c, 1)], [], [b, c, d, d],
            [w, w, w, w, w], [])
  {
    var cfg := Config(Diamond(a, b, c, d), 1, false, w);
    DiamondLinks(a, b, c, d, w, cfg);
    DiamondRun(a, b, c, d, cfg);
    DiamondStates(a, b, c, d, w, cfg);
  }

  /** The seed, then b and c at the depth bound. */
  lemma DiamondRun(a: Url, b: Url, c: Url, d: Url, cfg: Config)
    requires IsHttpUrl(a) && a != b && a != c && b != c && cfg.maxDepth == 1 && !cfg.stop
    requires Plain(cfg, a, {a}, [b, c]) && Plain(cfg, b, {a, b}, [d]) && Plain(cfg, c, {a, b, c}, [d])
    ensures Run(cfg, a, Initial()) ==
      AfterPage(cfg, AfterPage(cfg, AfterPage(cfg, Start(cfg), a, 0, [b, c]), b, 1, [d]), c, 1, [d])
  {
    ScrapeTasksOfTwo(b, c, 1);
    SeedCall(cfg, a, [b, c], [ScrapeTask(b, 1), ScrapeTask(c, 1)]);
    DiamondChildren(a, b, c, d, cfg, AfterPage(cfg, Start(cfg), a, 0, [b, c]));
  }

  /** b, then c, each claimed at the depth bound, each logging d. */
  lemma DiamondChildren(a: Url, b: Url, c: Url, d: Url, cfg: Config, s1: State)
    requires a != b && a != c && b != c && cfg.maxDepth == 1 && !cfg.stop && s1.visited == {a}
    requires Plain(cfg, b, {a, b}, [d]) && Plain(cfg, c, {a, b, c}, [d])
    ensures RunTasks(cfg, [ScrapeTask(b, 1), ScrapeTask(c, 1)], 1, s1) ==
      AfterPage(cfg, AfterPage(cfg, s1, b, 1, [d]), c, 1, [d])
  {
    assert s1.visited + {b} == {a, b} && s1.visited + {b} + {c} == {a, b, c};
    TwoLeaves(cfg, b, c, 1, s1, [d], [d]);
  }

  lemma DiamondLinks(a: Url, b: Url, c: Url, d: Url, w: string, cfg: Config)
    requires Four(a, b, c, d)
    requires cfg == Config(Diamond(a, b, c, d), 1, false, w)
    ensures Plain(cfg, a, {a}, [b, c])
    ensures Plain(cfg, b, {a, b}, [d])
    ensures Plain(cfg, c, {a, b, c}, [d])
  {
    FreshOfTwo(a, b, c, {a});
    FreshOfOne(b, d, {a, b});
    FreshOfOne(c, d, {a, b, c});
  }

  lemma DiamondStates(a: Url, b: Url, c: Url, d: Url, w: string, cfg: Config)
    requires cfg.workerFile == w
    ensures AfterPage(cfg, AfterPage(cfg, AfterPage(cfg, Start(cfg), a, 0, [b, c]), b, 1, [d]), c, 1, [d]) ==
      State({a, b, c}, [Visit(a, 0), Visit(b, 1), Visit(c, 1)], [], [b, c, d, d],
            [w, w, w, w, w], [])
  {
    RepeatSmall(w);
  }

  /** With depth 2, d is two links from a, yet it is never claimed: c is first
      reached through b at depth 2, where its links are beyond the bound, and
      the later call for c at depth 1 finds it already visited. */
  lemma ShortcutAtDepthTwo(a: Url, b: Url, c: Url, d: Url, w: string)
    requires Four(a, b, c, d)
    ensures var r := Run(Config(Shortcut(a, b, c, d), 2, false, w), a, Initial());
      && r == State({a, b, c}, [Visit(a, 0), Visit(b, 1), Visit(c, 2)], [], [b, c, c, d],
                    [w, w, w, w, w], [])
      && d !in r.visited
  {
    var cfg := Config(Shortcut(a, b, c, d), 2, false, w);
    ShortcutLinks(a, b, c, d, w, cfg);
    ShortcutRun(a, b, c, d, cfg);
    ShortcutStates(a, b, c, d, w, cfg);
  }

  /** The seed, then b with c below it, then the call for c at depth 1. */
  lemma ShortcutRun(a: Url, b: Url, c: Url, d: Url, cfg: Config)
    requires IsHttpUrl(a) && a != b && a != c && b != c && cfg.maxDepth == 2 && !cfg.stop
    requires Plain(cfg, a, {a}, [b, c]) && Plain(cfg, b, {a, b}, [c]) && Plain(cfg, c, {a, b, c}, [d])
    ensures Run(cfg, a, Initial()) ==
      AfterPage(cfg, AfterPage(cfg, AfterPage(cfg, Start(cfg), a, 0, [b, c]), b, 1, [c]), c, 2, [d])
  {
    ScrapeTasksOfTwo(b, c, 1);
    SeedCall(cfg, a, [b, c], [ScrapeTask(b, 1), ScrapeTask(c, 1)]);
    ShortcutChildren(a, b, c, d, cfg, AfterPage(cfg, Start(cfg), a, 0, [b, c]));
  }

  /** b claims c one level down before the task for c at depth 1 runs. */
  lemma ShortcutChildren(a: Url, b: Url, c: Url, d: Url, cfg: Config, s1: State)
    requires a != b && a != c && b != c && cfg.maxDepth == 2 && !cfg.stop && s1.visited == {a}
    requires Plain(cfg, b, {a, b}, [c]) && Plain(cfg, c, {a, b, c}, [d])
    ensures RunTasks(cfg, [ScrapeTask(b, 1), ScrapeTask(c, 1)], 1, s1) ==
      AfterPage(cfg, AfterPage(cfg, s1, b, 1, [c]), c, 2, [d])
  {
    var s3 := AfterPage(cfg, AfterPage(cfg, s1, b, 1, [c]), c, 2, [d]);
    RunTwo(cfg, b, c, 1, s1);
    ShortcutB(a, b, c, d, cfg, s1);
    assert c in s3.visited;
  }

  /** b is claimed at depth 1 and its one fresh link, c, at depth 2. */
  lemma ShortcutB(a: Url, b: Url, c: Url, d: Url, cfg: Config, s1: State)
    requires a != b && a != c && b != c && cfg.maxDepth == 2 && !cfg.stop && s1.visited == {a}
    requires Plain(cfg, b, {a, b}, [c]) && Plain(cfg, c, {a, b, c}, [d])
    ensures Crawl(cfg, b, 1, s1) == AfterPage(cfg, AfterPage(cfg, s1, b, 1, [c]), c, 2, [d])
  {
    assert s1.visited + {b} == {a, b} && s1.visited + {b} + {c} == {a, b, c};
    PageThenLeaf(cfg, b, c, 1, s1, [d]);
  }

  lemma ShortcutLinks(a: Url, b: Url, c: Url, d: Url, w: string, cfg: Config)
    requires Four(a, b, c, d)
    requires cfg == Config(Shortcut(a, b, c, d), 2, false, w)
    ensures Plain(cfg, a, {a}, [b, c])
    ensures Plain(cfg, b, {a, b}, [c])
    ensures Plain(cfg, c, {a, b, c}, [d])
  {
    FreshOfTwo(a, b, c, {a});
    FreshOfOne(b, c, {a, b});
    FreshOfOne(c, d, {a, b, c});
  }

  lemma ShortcutStates(a: Url, b: Url, c: Url, d: Url, w: string, cfg: Config)
    requires cfg.workerFile == w
    ensures AfterPage(cfg, AfterPage(cfg, AfterPage(cfg, Start(cfg), a, 0, [b, c]), b, 1, [c]), c, 2, [d]) ==
      State({a, b, c}, [Visit(a, 0), Visit(b, 1), Visit(c, 2)], [], [b, c, c, d],
            [w, w, w, w, w], [])
  {
    RepeatSmall(w);
  }

  /** With depth 1, the link from b back to a is not logged, a being visited
      already: the worker file holds b alone. */
  lemma CycleAtDepthOne(a: Url, b: Url, w: string)
    requires IsHttpUrl(a) && a != b
    ensures Run(Config(Cycle(a, b), 1, false, w), a, Initial()) ==
      State({a, b}, [Visit(a, 0), Visit(b, 1)], [], [b], [w, w], [])
  {
    var cfg := Config(Cycle(a, b), 1, false, w);
    CycleLinks(a, b, w, cfg);
    CycleRun(a, b, cfg);
    CycleStates(a, b, w, cfg);
  }

  /** The seed, then b at the depth bound. */
  lemma CycleRun(a: Url, b: Url, cfg: Config)
    requires IsHttpUrl(a) && a != b && cfg.maxDepth == 1 && !cfg.stop
    requires Plain(cfg, a, {a}, [b]) && Plain(cfg, b, {a, b}, [])
    ensures Run(cfg, a, Initial()) == AfterPage(cfg, AfterPage(cfg, Start(cfg), a, 0, [b]), b, 1, [])
  {
    ScrapeTasksOfOne(b, 1);
    SeedCall(cfg, a, [b], [ScrapeTask(b, 1)]);
    CycleChild(a, b, cfg, AfterPage(cfg, Start(cfg), a, 0, [b]));
  }

  lemma CycleLinks(a: Url, b: Url, w: string, cfg: Config)
    requires a != b && cfg == Config(Cycle(a, b), 1, false, w)
    ensures Plain(cfg, a, {a}, [b])
    ensures Plain(cfg, b, {a, b}, [])
  {
    FreshOfOne(a, b, {a});
    FreshOfVisited(b, a, {a, b});
  }

  lemma CycleStates(a: Url, b: Url, w: string, cfg: Config)
    requires cfg.workerFile == w
    ensures AfterPage(cfg, AfterPage(cfg, Start(cfg), a, 0, [b]), b, 1, []) ==
      State({a, b}, [Visit(a, 0), Visit(b, 1)], [], [b], [w, w], [])
  {
    RepeatSmall(w);
  }

  /** b, claimed at the depth bound, logs nothing. */
  lemma CycleChild(a: Url, b: Url, cfg: Config, s1: State)
    requires a != b && cfg.maxDepth == 1 && !cfg.stop && s1.visited == {a}
    requires Plain(cfg, b, {a, b}, [])
    ensures RunTasks(cfg, [ScrapeTask(b, 1)], 1, s1) == AfterPage(cfg, s1, b, 1, [])
  {
    RunOne(cfg, b, 1, s1);
    assert s1.visited + {b} == {a, b};
    CrawlOfLeaf(cfg, b, 1, s1, []);
  }

  /** With depth 1, the failure to fetch b is recorded and the crawl goes on
      with c. */
  lemma FailureIsIsolated(a: Url, b: Url, c: Url, w: string)
    requires IsHttpUrl(a) && a != b && a != c && b != c
    ensures Run(Config(Broken(a, b, c), 1, false, w), a, Initial()) ==
      State({a, b, c}, [Visit(a, 0), Visit(b, 1), Visit(c, 1)], [b], [b, c], [w, w, w], [])
  {
    var cfg := Config(Broken(a, b, c), 1, false, w);
    BrokenLinks(a, b, c, w, cfg);
    BrokenRun(a, b, c, cfg);
    BrokenStates(a, b, c, w, cfg);
  }

  /** The seed, then the failing b, then c at the depth bound. */
  lemma BrokenRun(a: Url, b: Url, c: Url, cfg: Config)
    requires IsHttpUrl(a) && a != b && a != c && b != c && cfg.maxDepth == 1 && !cfg.stop
    requires Plain(cfg, a, {a}, [b, c]) && b !in cfg.web.pages && Plain(cfg, c, {a, b, c}, [])
    ensures var s1 := AfterPage(cfg, Start(cfg), a, 0, [b, c]);
      Run(cfg, a, Initial()) == AfterPage(cfg, Claim(s1, b, 1).(failed := s1.failed + [b]), c, 1, [])
  {
    ScrapeTasksOfTwo(b, c, 1);
    SeedCall(cfg, a, [b, c], [ScrapeTask(b, 1), ScrapeTask(c, 1)]);
    BrokenChildren(a, b, c, cfg, AfterPage(cfg, Start(cfg), a, 0, [b, c]));
  }

  lemma BrokenLinks(a: Url, b: Url, c: Url, w: string, cfg: Config)
    requires a != b && a != c && b != c
    requires cfg == Config(Broken(a, b, c), 1, false, w)
    ensures Plain(cfg, a, {a}, [b, c])
    ensures b !in cfg.web.pages
    ensures Plain(cfg, c, {a, b, c}, [])
  {
    FreshOfTwo(a, b, c, {a});
  }

  lemma BrokenStates(a: Url, b: Url, c: Url, w: string, cfg: Config)
    requires cfg.workerFile == w
    ensures var s1 := AfterPage(cfg, Start(cfg), a, 0, [b, c]);
      AfterPage(cfg, Claim(s1, b, 1).(failed := s1.failed + [b]), c, 1, []) ==
      State({a, b, c}, [Visit(a, 0), Visit(b, 1), Visit(c, 1)], [b], [b, c], [w, w, w], [])
  {
    RepeatSmall(w);
  }

  /** b fails and is recorded; c is claimed at the depth bound and logs nothing. */
  lemma BrokenChildren(a: Url, b: Url, c: Url, cfg: Config, s1: State)
    requires a != b && a != c && b != c && cfg.maxDepth == 1 && !cfg.stop && s1.visited == {a}
    requires b !in cfg.web.pages && Plain(cfg, c, {a, b, c}, [])
    ensures RunTasks(cfg, [ScrapeTask(b, 1), ScrapeTask(c, 1)], 1, s1) ==
      AfterPage(cfg, Claim(s1, b, 1).(failed := s1.failed + [b]), c, 1, [])
  {
    RunTwo(cfg, b, c, 1, s1);
    var s2 := Crawl(cfg, b, 1, s1);
    FailedFetchStops(cfg, b, 1, s1);
    assert s2.visited + {c} == {a, b, c};
    CrawlOfLeaf(cfg, c, 1, s2, []);
  }

  // ---------------------------------------------------------------------------
  // Steps of a run, stated once for any graph.

  /** The first call: the seed is claimed at depth 0 and its logged links submitted. */
  lemma SeedCall(cfg: Config, seed: Url, logged: seq<Url>, tasks: seq<Task>)
    requires IsHttpUrl(seed) && 0 <= cfg.maxDepth && !cfg.stop && Plain(cfg, seed, {seed}, logged)
    requires ScrapeTasks(logged, 1) == tasks
    ensures Run(cfg, seed, Initial()) == RunTasks(cfg, tasks, 1, AfterPage(cfg, Start(cfg), seed, 0, logged))
  {
    RunStartsCrawl(cfg, seed, []);
    SeedCrawl(cfg, seed, logged);
  }

  lemma SeedCrawl(cfg: Config, seed: Url, logged: seq<Url>)
    requires 0 <= cfg.maxDepth && !cfg.stop && Plain(cfg, seed, {seed}, logged)
    ensures Crawl(cfg, seed, 0, Start(cfg)) ==
      RunTasks(cfg, ScrapeTasks(logged, 1), 1, AfterPage(cfg, Start(cfg), seed, 0, logged))
  {
    PlainSeed(cfg, seed, logged);
    CrawlOfPage(cfg, seed, 0, Start(cfg), logged);
  }

  lemma PlainSeed(cfg: Config, seed: Url, logged: seq<Url>)
    requires Plain(cfg, seed, {seed}, logged)
    ensures Plain(cfg, seed, Start(cfg).visited + {seed}, logged)
  {
    assert Start(cfg).visited + {seed} == {seed};
  }

  lemma ScrapeTasksOfOne(x: Url, depth: nat)
    ensures ScrapeTasks([x], depth) == [ScrapeTask(x, depth)]
  {
    assert [x][..0] == [];
  }

  lemma ScrapeTasksOfTwo(x: Url, y: Url, depth: nat)
    ensures ScrapeTasks([x, y], depth) == [ScrapeTask(x, depth), ScrapeTask(y, depth)]
  {
    assert [x, y][..1] == [x];
    ScrapeTasksOfOne(x, depth);
  }

  /** `url` is a page without images whose fresh links against `visited` are `logged`. */
  predicate Plain(cfg: Config, url: Url, visited: set<Url>, logged: seq<Url>)
  {
    url in cfg.web.pages && cfg.web.pages[url].images == [] && FreshLinks(cfg, url, visited) == logged
  }

  /** The state once `url` is claimed at `depth` and `logged` written. */
  function AfterPage(cfg: Config, st: State, url: Url, depth: nat, logged: seq<Url>): State
  {
    st.(visited := st.visited + {url}, fetched := st.fetched + [Visit(url, depth)],
        written := st.written + logged, outputFiles := st.outputFiles + Repeat(cfg.workerFile, |logged|))
  }

  /** An admitted call on a page without images recurses on exactly its logged links. */
  lemma CrawlOfPage(cfg: Config, url: Url, depth: nat, st: State, logged: seq<Url>)
    requires Admitted(cfg, url, depth, st) && Plain(cfg, url, st.visited + {url}, logged)
    ensures Crawl(cfg, url, depth, st) ==
      RunTasks(cfg, ScrapeTasks(logged, depth + 1), depth + 1, AfterPage(cfg, st, url, depth, logged))
  {
    var claimed := Claim(st, url, depth);
    assert ResolveAll(cfg.web.resolve, url, []) == [];
    assert Futures(cfg, url, depth, claimed.visited) == ScrapeTasks(logged, depth + 1);
  }

  /** An admitted call on a page without images and with one fresh link runs
      the call for that link next. */
  lemma CrawlOfPageWithOneLink(cfg: Config, url: Url, x: Url, depth: nat, st: State)
    requires Admitted(cfg, url, depth, st) && Plain(cfg, url, st.visited + {url}, [x])
    ensures Crawl(cfg, url, depth, st) == Crawl(cfg, x, depth + 1, AfterPage(cfg, st, url, depth, [x]))
  {
    CrawlOfPage(cfg, url, depth, st, [x]);
    ScrapeTasksOfOne(x, depth + 1);
    RunOne(cfg, x, depth + 1, AfterPage(cfg, st, url, depth, [x]));
  }

  /** A page one level above the bound, without images and with one fresh link,
      is followed by the call for that link, which only logs. */
  lemma PageThenLeaf(cfg: Config, url: Url, x: Url, depth: nat, st: State, logged: seq<Url>)
    requires depth + 1 == cfg.maxDepth && Admitted(cfg, url, depth, st) && Plain(cfg, url, st.visited + {url}, [x])
    requires x !in st.visited + {url} && Plain(cfg, x, st.visited + {url} + {x}, logged)
    ensures Crawl(cfg, url, depth, st) == AfterPage(cfg, AfterPage(cfg, st, url, depth, [x]), x, depth + 1, logged)
  {
    CrawlOfPageWithOneLink(cfg, url, x, depth, st);
    CrawlOfLeaf(cfg, x, depth + 1, AfterPage(cfg, st, url, depth, [x]), logged);
  }

  /** An admitted call at the depth bound on a page without images only logs. */
  lemma CrawlOfLeaf(cfg: Config, url: Url, depth: nat, st: State, logged: seq<Url>)
    requires depth == cfg.maxDepth && Admitted(cfg, url, depth, st) && Plain(cfg, url, st.visited + {url}, logged)
    ensures Crawl(cfg, url, depth, st) == AfterPage(cfg, st, url, depth, logged)
  {
    CrawlAtDepthBound(cfg, url, depth, st);
    var r := Crawl(cfg, url, depth, st);
    assert ResolveAll(cfg.web.resolve, url, cfg.web.pages[url].images) == [];
    assert multiset(r.downloads) == multiset(st.downloads);
    assert |r.downloads| == |multiset(r.downloads)| == |st.downloads|;
    assert st.downloads <= r.downloads;
  }

  /** Two scrape tasks at the depth bound, on pages without images, each only logs. */
  lemma TwoLeaves(cfg: Config, u: Url, v: Url, d: nat, st: State, lu: seq<Url>, lv: seq<Url>)
    requires d == cfg.maxDepth && !cfg.stop && u !in st.visited && v !in st.visited + {u}
    requires Plain(cfg, u, st.visited + {u}, lu) && Plain(cfg, v, st.visited + {u} + {v}, lv)
    ensures RunTasks(cfg, [ScrapeTask(u, d), ScrapeTask(v, d)], d, st) ==
      AfterPage(cfg, AfterPage(cfg, st, u, d, lu), v, d, lv)
  {
    RunTwo(cfg, u, v, d, st);
    CrawlOfLeaf(cfg, u, d, st, lu);
    CrawlOfLeaf(cfg, v, d, AfterPage(cfg, st, u, d, lu), lv);
  }

  lemma RunOne(cfg: Config, u: Url, d: nat, st: State)
    ensures RunTasks(cfg, [ScrapeTask(u, d)], d, st) == Crawl(cfg, u, d, st)
  {
    var tasks := [ScrapeTask(u, d)];
    assert tasks[1..] == [];
    assert Step(cfg, tasks[0], d, st) == Crawl(cfg, u, d, st);
  }

  /** Two scrape tasks of the same level run one after the other. */
  lemma RunTwo(cfg: Config, u: Url, v: Url, d: nat, st: State)
    ensures RunTasks(cfg, [ScrapeTask(u, d), ScrapeTask(v, d)], d, st) == Crawl(cfg, v, d, Crawl(cfg, u, d, st))
  {
    var tasks := [ScrapeTask(u, d), ScrapeTask(v, d)];
    assert tasks[1..] == [ScrapeTask(v, d)] && tasks[1..][1..] == [];
    assert Step(cfg, tasks[0], d, st) == Crawl(cfg, u, d, st);
    var mid := Crawl(cfg, u, d, st);
    assert Step(cfg, tasks[1..][0], d, mid) == Crawl(cfg, v, d, mid);
    assert RunTasks(cfg, tasks, d, st) == RunTasks(cfg, tasks[1..], d, mid);
    assert RunTasks(cfg, tasks[1..], d, mid) == RunTasks(cfg, tasks[1..][1..], d, Crawl(cfg, v, d, mid));
  }

  lemma FreshOfOne(base: Url, x: Url, visited: set<Url>)
    requires x !in visited
    ensures Fresh(KeepAbsolute, base, [x], visited) == [x]
  {
    assert [x][..0] == [];
  }

  lemma FreshOfVisited(base: Url, x: Url, visited: set<Url>)
    requires x in visited
    ensures Fresh(KeepAbsolute, base, [x], visited) == []
  {
    assert [x][..0] == [];
  }

  lemma FreshOfTwo(base: Url, x: Url, y: Url, visited: set<Url>)
    requires x !in visited && y !in visited
    ensures Fresh(KeepAbsolute, base, [x, y], visited) == [x, y]
  {
    assert [x, y][..1] == [x];
    FreshOfOne(base, x, visited);
  }

  lemma RepeatSmall(name: string)
    ensures Repeat(name, 1) == [name]
    ensures Repeat(name, 2) == [name, name]
  {
  }
}

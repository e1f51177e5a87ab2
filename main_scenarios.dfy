/** Concrete runs of main.py over the small link graphs of module Graphs. */
module MainScenarios {
  import opened Web
  import opened MainCrawler
  import opened MainCrawlerProofs
  import opened Graphs

  /** The state the `__main__` block hands to the first call. */
  function Start(): State
  {
    Initial().(written := [], visited := {})
  }

  /** With depth 1, b's link back to a is written although a is visited, and a
      is not fetched again: the output file holds b and a. */
  lemma CycleAtDepthOne(a: Url, b: Url, out: string)
    requires IsHttpUrl(a) && a != b && out != ""
    ensures Run(Config(Cycle(a, b), 1, out), a, Initial()) ==
      State({a, b}, [Visit(a, 0), Visit(b, 1)], [], [b, a])
  {
    var cfg := Config(Cycle(a, b), 1, out);
    var s1 := Start().(visited := {a}, fetched := [Visit(a, 0)], written := [b]);
    ChildrenOfOne(cfg, a, b);
    ChildrenOfOne(cfg, b, a);
    SeedCall(cfg, a, [b]);
    RunOne(cfg, b, 1, s1);
    CrawlAtDepthBound(cfg, b, 1, s1);
  }

  /** With depth 1, d is written by both b and c but never fetched. */
  lemma DiamondAtDepthOne(a: Url, b: Url, c: Url, d: Url, out: string)
    requires Four(a, b, c, d) && out != ""
    ensures var r := Run(Config(Diamond(a, b, c, d), 1, out), a, Initial());
      && r == State({a, b, c}, [Visit(a, 0), Visit(b, 1), Visit(c, 1)], [], [b, c, d, d])
      && d !in r.visited
  {
    var cfg := Config(Diamond(a, b, c, d), 1, out);
    var s1 := Start().(visited := {a}, fetched := [Visit(a, 0)], written := [b, c]);
    ChildrenOfTwo(cfg, a, b, c);
    ChildrenOfOne(cfg, b, d);
    ChildrenOfOne(cfg, c, d);
    SeedCall(cfg, a, [b, c]);
    RunTwo(cfg, b, c, 1, s1);
    CrawlAtDepthBound(cfg, b, 1, s1);
    var s2 := Crawl(cfg, b, 1, s1);
    assert s2.visited == {a, b};
    CrawlAtDepthBound(cfg, c, 1, s2);
  }

  // ---------------------------------------------------------------------------
  // Steps of a run, stated once for any graph.

  /** The first call: the seed is claimed at depth 0, its links are written
      and submitted one level deeper. */
  lemma SeedCall(cfg: Config, seed: Url, children: seq<Url>)
    requires IsHttpUrl(seed) && 0 <= cfg.maxDepth && cfg.outputFile != ""
    requires seed in cfg.web.pages && Children(cfg, seed) == children
    ensures Run(cfg, seed, Initial()) ==
      RunAll(cfg, children, 1, Start().(visited := {seed}, fetched := [Visit(seed, 0)], written := children))
  {
    assert Start().visited + {seed} == {seed};
    assert [] + [Visit(seed, 0)] == [Visit(seed, 0)];
    assert [] + children == children;
  }

  lemma RunOne(cfg: Config, u: Url, d: nat, st: State)
    ensures RunAll(cfg, [u], d, st) == Crawl(cfg, u, d, st)
  {
    assert [u][1..] == [];
  }

  /** Two calls of the same level run one after the other. */
  lemma RunTwo(cfg: Config, u: Url, v: Url, d: nat, st: State)
    ensures RunAll(cfg, [u, v], d, st) == Crawl(cfg, v, d, Crawl(cfg, u, d, st))
  {
    var urls := [u, v];
    assert urls[1..] == [v] && urls[1..][1..] == [];
    var mid := Crawl(cfg, u, d, st);
    assert RunAll(cfg, urls, d, st) == RunAll(cfg, [v], d, mid);
    assert RunAll(cfg, [v], d, mid) == RunAll(cfg, [], d, Crawl(cfg, v, d, mid));
  }

  lemma ChildrenOfOne(cfg: Config, u: Url, x: Url)
    requires cfg.web.resolve == KeepAbsolute && u in cfg.web.pages && cfg.web.pages[u].links == [x]
    ensures Children(cfg, u) == [x]
  {
    assert [x][..0] == [];
  }

  lemma ChildrenOfTwo(cfg: Config, u: Url, x: Url, y: Url)
    requires cfg.web.resolve == KeepAbsolute && u in cfg.web.pages && cfg.web.pages[u].links == [x, y]
    ensures Children(cfg, u) == [x, y]
  {
    assert [x, y][..1] == [x] && [x][..0] == [];
  }
}

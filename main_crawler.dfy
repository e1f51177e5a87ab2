/** The crawl of main.py: the same depth-bounded recursive traversal with one
    `visited` set shared by all recursive calls, but with no stop flag and no
    image downloads, and with every resolved link of a fetched page written to
    the output file (when one is given) whether or not it was visited.

    As in module Scraper, the model fixes one schedule among the possible
    interleavings of the thread pool: the submitted calls of each call run one
    after the other, in submission order, once its link loop is done. */
module MainCrawler {
  import opened Web

  /** The parameters of a run: the link graph, `max_depth`, and `output_file`,
      where the empty string stands for `None` (no output file). */
  datatype Config = Config(web: Web, maxDepth: int, outputFile: string)

  /** Everything a crawl changes. */
  datatype State = State(
    visited: set<Url>,    // the set shared by every recursive call
    fetched: seq<Visit>,  // the "Scraping URL" lines: each claim with its depth
    failed: seq<Url>,     // the "Failed to retrieve" lines
    written: seq<Url>)    // the lines of the output file

  function Initial(): State
  {
    State({}, [], [], [])
  }

  /** The admission rule at the top of `scrape`. */
  predicate Admitted(c: Config, url: Url, depth: nat, st: State)
  {
    depth <= c.maxDepth && url !in st.visited
  }

  /** `visited.add(url)` and the "Scraping URL" line. */
  function Claim(st: State, url: Url, depth: nat): State
  {
    st.(visited := st.visited + {url}, fetched := st.fetched + [Visit(url, depth)])
  }

  /** The `futures` list of a fetched page: one recursive call per link, each
      link resolved against the page URL, visited or not. */
  function Children(c: Config, url: Url): seq<Url>
    requires url in c.web.pages
  {
    ResolveAll(c.web.resolve, url, c.web.pages[url].links)
  }

  /** What the link loop writes: every resolved link when an output file is
      given, nothing otherwise. */
  function Emit(c: Config, links: seq<Url>): seq<Url>
  {
    if c.outputFile != "" then links else []
  }

  /** What every step of a crawl keeps: `visited` only grows, the logs and the
      output file are only appended to, and without an output file nothing is
      written. */
  ghost predicate Grows(c: Config, st: State, r: State)
  {
    && st.visited <= r.visited
    && st.fetched <= r.fetched
    && st.failed <= r.failed
    && st.written <= r.written
    && (c.outputFile == "" ==> r.written == st.written)
  }

  /** Every claim appended between `st` and `r` lies in `[lo, maxDepth]`. */
  ghost predicate NewClaimsWithin(c: Config, st: State, r: State, lo: nat)
  {
    forall i :: |st.fetched| <= i < |r.fetched| ==> lo <= r.fetched[i].depth <= c.maxDepth
  }

  /** `scrape(url, max_depth, depth, visited, output_file)`. A rejected call
      changes nothing; an admitted call claims `url` first, and everything it
      and its descendants claim lies between its own depth and `max_depth`,
      its descendants strictly deeper. */
  function Crawl(c: Config, url: Url, depth: nat, st: State): (r: State)
    decreases Rank(c.maxDepth, depth), 0
    ensures !Admitted(c, url, depth, st) ==> r == st
    ensures Admitted(c, url, depth, st) ==>
      && url in r.visited
      && |st.fetched| < |r.fetched|
      && r.fetched[|st.fetched|] == Visit(url, depth)
      && forall i :: |st.fetched| < i < |r.fetched| ==> depth < r.fetched[i].depth
    ensures Grows(c, st, r)
    ensures NewClaimsWithin(c, st, r, depth)
  {
    if !Admitted(c, url, depth, st) then st
    else
      var claimed := Claim(st, url, depth);
      if url !in c.web.pages then claimed.(failed := claimed.failed + [url])
      else
        var children := Children(c, url);
        RunAll(c, children, depth + 1, claimed.(written := claimed.written + Emit(c, children)))
  }

  /** The futures of one call, all recursive calls one level deeper, run one
      after the other. */
  function RunAll(c: Config, urls: seq<Url>, depth: nat, st: State): (r: State)
    decreases Rank(c.maxDepth, depth), 1, |urls|
    ensures Grows(c, st, r)
    ensures NewClaimsWithin(c, st, r, depth)
  {
    if urls == [] then st
    else RunAll(c, urls[1..], depth, Crawl(c, urls[0], depth, st))
  }

  /** The `__main__` block once the arguments are parsed. A seed without an
      HTTP scheme is refused with nothing changed. Otherwise the output file is
      truncated, which raises before any crawling when its name is empty, and
      the crawl starts at depth 0 with a new `visited` set. */
  function Run(c: Config, seed: Url, st: State): (r: State)
    ensures !IsHttpUrl(seed) || c.outputFile == "" ==> r == st
    ensures IsHttpUrl(seed) && c.outputFile != "" && 0 <= c.maxDepth ==>
      |st.fetched| < |r.fetched| && r.fetched[|st.fetched|] == Visit(seed, 0)
  {
    if !IsHttpUrl(seed) || c.outputFile == "" then st
    else Crawl(c, seed, 0, st.(written := [], visited := {}))
  }

  /** The state of main.py during a crawl: the `visited` set threaded through
      every call, the output file and the console lines. */
  class Crawler {
    const web: Web
    const maxDepth: int
    const outputFile: string
    var visited: set<Url>
    var fetched: seq<Visit>
    var failed: seq<Url>
    var written: seq<Url>

    function Cfg(): Config
      reads this
    {
      Config(web, maxDepth, outputFile)
    }

    function Snapshot(): State
      reads this
    {
      State(visited, fetched, failed, written)
    }

    constructor (web: Web, maxDepth: int, outputFile: string)
      ensures Cfg() == Config(web, maxDepth, outputFile)
      ensures Snapshot() == Initial()
    {
      this.web := web;
      this.maxDepth := maxDepth;
      this.outputFile := outputFile;
      visited, fetched, failed, written := {}, [], [], [];
    }

    /** `scrape`: the admission rule, the claim, the fetch, then the link loop
        and the wait for every future. */
    method Scrape(url: Url, currentDepth: nat)
      modifies this
      decreases Rank(maxDepth, currentDepth), 0
      ensures Snapshot() == Crawl(Cfg(), url, currentDepth, old(Snapshot()))
    {
      if currentDepth > maxDepth || url in visited {
        return;
      }
      visited := visited + {url};
      fetched := fetched + [Visit(url, currentDepth)];
      if url !in web.pages {
        failed := failed + [url];
        return;
      }
      var futures := SubmitLinks(url);
      AwaitAll(futures, currentDepth + 1);
    }

    /** The loop over the links of a fetched page: each link resolved against
        the page URL, written to the output file when there is one, and
        submitted one level deeper, with no visited check. */
    method SubmitLinks(url: Url) returns (futures: seq<Url>)
      requires url in web.pages
      modifies this`written
      ensures futures == Children(Cfg(), url)
      ensures written == old(written) + Emit(Cfg(), futures)
    {
      var links := web.pages[url].links;
      futures := [];
      var i := 0;
      while i < |links|
        invariant i <= |links|
        invariant futures == ResolveAll(web.resolve, url, links[..i])
        invariant written == old(written) + Emit(Cfg(), futures)
      {
        assert links[..i + 1][..i] == links[..i];
        var absoluteLink := web.resolve(url, links[i]);
        if outputFile != "" {
          written := written + [absoluteLink];
        }
        futures := futures + [absoluteLink];
        i := i + 1;
      }
      assert links[..i] == links;
    }

    /** The `as_completed` loop: every future runs to completion. */
    method AwaitAll(futures: seq<Url>, depth: nat)
      modifies this
      decreases Rank(maxDepth, depth), 1
      ensures Snapshot() == RunAll(Cfg(), futures, depth, old(Snapshot()))
    {
      var j := 0;
      while j < |futures|
        invariant j <= |futures|
        decreases |futures| - j
        invariant RunAll(Cfg(), futures[j..], depth, Snapshot())
               == RunAll(Cfg(), futures, depth, old(Snapshot()))
      {
        assert futures[j..][1..] == futures[j + 1..];
        Scrape(futures[j], depth);
        j := j + 1;
      }
    }

    /** The `__main__` block after argument parsing; `started` tells whether the
        crawl began. */
    method Launch(seed: Url) returns (started: bool)
      modifies this
      ensures started == (IsHttpUrl(seed) && outputFile != "")
      ensures Snapshot() == Run(Cfg(), seed, old(Snapshot()))
    {
      if !("http://" <= seed || "https://" <= seed) {
        return false;
      }
      if outputFile == "" {
        return false;
      }
      written := [];
      visited := {};
      Scrape(seed, 0);
      return true;
    }
  }
}

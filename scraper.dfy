/** The crawl of scraper.py: a depth-bounded recursive traversal sharing one
    `visited` set across all recursive calls, honouring the global `stop_flag`,
    logging each newly seen link to the worker file and to the module-level
    `output_files` list, and downloading every image of every page it fetches.

    In scraper.py a submitted call may start on a pool thread at once, while
    the link loop is still running. The model fixes one schedule among the
    possible interleavings: the submitted calls of each call run one after the
    other, in submission order, once its submission loops are done. */
module Scraper {
  import opened Web

  /** The parameters of a run: the link graph, `max_depth`, the global
      `stop_flag` as the crawl reads it, and the worker file name
      `worker_<worker_id>.txt`. */
  datatype Config = Config(web: Web, maxDepth: int, stop: bool, workerFile: string)

  /** Everything a crawl changes. */
  datatype State = State(
    visited: set<Url>,         // the set shared by every recursive call
    fetched: seq<Visit>,       // the "Scraping URL" lines: each claim with its depth
    failed: seq<Url>,          // the "Failed to retrieve" lines
    written: seq<Url>,         // the lines of the worker file
    outputFiles: seq<string>,  // the module-level `output_files` list
    downloads: seq<Url>)       // the `download_image` calls, in the order they run

  /** A submitted future: a recursive `scrape` call or a `download_image` call. */
  datatype Task = ScrapeTask(url: Url, depth: nat) | DownloadTask(url: Url)

  /** The state of a freshly started process. */
  function Initial(): State
  {
    State({}, [], [], [], [], [])
  }

  /** The links of a page that the link loop logs and submits: each link
      resolved against the page URL, kept when it is not in `visited`. */
  function Fresh(resolve: (Url, Url) -> Url, base: Url, links: seq<Url>, visited: set<Url>): seq<Url>
  {
    if links == [] then []
    else
      var last := resolve(base, links[|links| - 1]);
      Fresh(resolve, base, links[..|links| - 1], visited) + (if last in visited then [] else [last])
  }

  /** The logged links are exactly the resolved links of the page that are not
      in `visited`, and there are no more of them than the page has links. */
  lemma {:induction false} FreshIsUnvisitedLinks(resolve: (Url, Url) -> Url, base: Url, links: seq<Url>, visited: set<Url>)
    ensures |Fresh(resolve, base, links, visited)| <= |links|
    ensures forall x :: x in Fresh(resolve, base, links, visited) <==>
      x !in visited && exists l :: l in links && resolve(base, l) == x
  {
    if links != [] {
      var init := links[..|links| - 1];
      var lastLink := links[|links| - 1];
      FreshIsUnvisitedLinks(resolve, base, init, visited);
      assert forall l :: l in links <==> l in init || l == lastLink;
    }
  }

  /** `n` copies of one file name, as `output_files` gains them. */
  function Repeat(name: string, n: nat): (r: seq<string>)
    ensures |r| == n
    ensures forall k :: 0 <= k < n ==> r[k] == name
  {
    if n == 0 then [] else Repeat(name, n - 1) + [name]
  }

  /** The recursive calls submitted for the logged links. */
  function ScrapeTasks(urls: seq<Url>, depth: nat): (r: seq<Task>)
    ensures |r| == |urls|
    ensures forall k :: 0 <= k < |urls| ==> r[k] == ScrapeTask(urls[k], depth)
  {
    if urls == [] then [] else ScrapeTasks(urls[..|urls| - 1], depth) + [ScrapeTask(urls[|urls| - 1], depth)]
  }

  /** The downloads submitted for the resolved image URLs. */
  function DownloadTasks(urls: seq<Url>): (r: seq<Task>)
    ensures |r| == |urls|
    ensures forall k :: 0 <= k < |urls| ==> r[k] == DownloadTask(urls[k])
  {
    if urls == [] then [] else DownloadTasks(urls[..|urls| - 1]) + [DownloadTask(urls[|urls| - 1])]
  }

  /** Resolving and submitting one more image appends one download. */
  lemma DownloadTasksStep(resolve: (Url, Url) -> Url, base: Url, refs: seq<Url>, k: nat)
    requires k < |refs|
    ensures DownloadTasks(ResolveAll(resolve, base, refs[..k + 1])) ==
      DownloadTasks(ResolveAll(resolve, base, refs[..k])) + [DownloadTask(resolve(base, refs[k]))]
  {
    var prefix := ResolveAll(resolve, base, refs[..k]);
    assert refs[..k + 1][..k] == refs[..k];
    assert ResolveAll(resolve, base, refs[..k + 1]) == prefix + [resolve(base, refs[k])];
    assert (prefix + [resolve(base, refs[k])])[..k] == prefix;
  }

  /** Every recursive call among `tasks` is at `depth`. */
  predicate TasksAt(tasks: seq<Task>, depth: nat)
  {
    forall k :: 0 <= k < |tasks| && tasks[k].ScrapeTask? ==> tasks[k].depth == depth
  }

  /** The admission rule at the top of `scrape`. */
  predicate Admitted(c: Config, url: Url, depth: nat, st: State)
  {
    depth <= c.maxDepth && url !in st.visited && !c.stop
  }

  /** `visited.add(url)` and the "Scraping URL" line. */
  function Claim(st: State, url: Url, depth: nat): State
  {
    st.(visited := st.visited + {url}, fetched := st.fetched + [Visit(url, depth)])
  }

  /** The links a fetched page logs and recurses on, against `visited` as it is
      when the link loop runs. */
  function FreshLinks(c: Config, url: Url, visited: set<Url>): seq<Url>
    requires url in c.web.pages
  {
    Fresh(c.web.resolve, url, c.web.pages[url].links, visited)
  }

  /** The state after the link loop: the fresh links are in the worker file and
      `output_files` has one more entry per link. */
  function Submitted(c: Config, url: Url, st: State): State
    requires url in c.web.pages
  {
    var logged := FreshLinks(c, url, st.visited);
    st.(written := st.written + logged, outputFiles := st.outputFiles + Repeat(c.workerFile, |logged|))
  }

  /** The `futures` list: the recursive calls, then the image downloads. */
  function Futures(c: Config, url: Url, depth: nat, visited: set<Url>): (r: seq<Task>)
    requires url in c.web.pages
    ensures TasksAt(r, depth + 1)
  {
    var links := ScrapeTasks(FreshLinks(c, url, visited), depth + 1);
    var images := DownloadTasks(ResolveAll(c.web.resolve, url, c.web.pages[url].images));
    assert forall k :: |links| <= k < |links + images| ==> (links + images)[k] == images[k - |links|];
    links + images
  }

  /** What every step of a crawl keeps: `visited` only grows, and the logs, the
      worker file and `output_files` are only appended to, `output_files` by
      one worker file name per logged link. */
  ghost predicate Grows(c: Config, st: State, r: State)
  {
    && st.visited <= r.visited
    && st.fetched <= r.fetched
    && st.failed <= r.failed
    && st.written <= r.written
    && st.downloads <= r.downloads
    && st.outputFiles <= r.outputFiles
    && |r.outputFiles| - |st.outputFiles| == |r.written| - |st.written|
    && (forall k :: |st.outputFiles| <= k < |r.outputFiles| ==> r.outputFiles[k] == c.workerFile)
  }

  /** Every claim appended between `st` and `r` lies in `[lo, maxDepth]`. */
  ghost predicate NewClaimsWithin(c: Config, st: State, r: State, lo: nat)
  {
    forall i :: |st.fetched| <= i < |r.fetched| ==> lo <= r.fetched[i].depth <= c.maxDepth
  }

  /** `scrape(url, max_depth, depth, visited, worker_id)`. A rejected call
      changes nothing; an admitted call claims `url` first, and everything it
      and its descendants claim lies between its own depth and `max_depth`,
      its descendants strictly deeper. */
  function Crawl(c: Config, url: Url, depth: nat, st: State): (r: State)
    decreases Rank(c.maxDepth, depth), 0
    ensures !Admitted(c, url, depth, st) ==> r == st
    ensures Admitted(c, url, depth, st) ==>
      && url in r.visited
      && |st.fetched| < |r.fetched|
      && r.fetched[|st.fetched|] == Visit(url, depth)
      && forall i :: |st.fetched| < i < |r.fetched| ==> depth < r.fetched[i].depth
    ensures Grows(c, st, r)
    ensures NewClaimsWithin(c, st, r, depth)
  {
    if !Admitted(c, url, depth, st) then st
    else
      var claimed := Claim(st, url, depth);
      if url !in c.web.pages then claimed.(failed := claimed.failed + [url])
      else RunTasks(c, Futures(c, url, depth, claimed.visited), depth + 1, Submitted(c, url, claimed))
  }

  /** One future run to completion. */
  function Step(c: Config, t: Task, depth: nat, st: State): (r: State)
    requires t.ScrapeTask? ==> t.depth == depth
    decreases Rank(c.maxDepth, depth), 1, 0
    ensures Grows(c, st, r)
    ensures NewClaimsWithin(c, st, r, depth)
  {
    match t
    case ScrapeTask(u, d) => Crawl(c, u, d, st)
    case DownloadTask(u) => st.(downloads := st.downloads + [u])
  }

  /** The futures of one call run one after the other. */
  function RunTasks(c: Config, tasks: seq<Task>, depth: nat, st: State): (r: State)
    requires TasksAt(tasks, depth)
    decreases Rank(c.maxDepth, depth), 1, |tasks|
    ensures Grows(c, st, r)
    ensures NewClaimsWithin(c, st, r, depth)
  {
    if tasks == [] then st
    else RunTasks(c, tasks[1..], depth, Step(c, tasks[0], depth, st))
  }

  /** The `__main__` block once the arguments are parsed: a seed without an
      HTTP scheme is refused with nothing changed; otherwise the worker file is
      registered in `output_files` and truncated, and the crawl starts at depth
      0 with an empty `visited` set. */
  function Run(c: Config, seed: Url, st: State): (r: State)
    ensures !IsHttpUrl(seed) ==> r == st
    ensures IsHttpUrl(seed) && !c.stop && 0 <= c.maxDepth ==>
      |st.fetched| < |r.fetched| && r.fetched[|st.fetched|] == Visit(seed, 0)
  {
    if !IsHttpUrl(seed) then st
    else Crawl(c, seed, 0, st.(outputFiles := st.outputFiles + [c.workerFile], written := [], visited := {}))
  }

  /** The process-wide state of scraper.py: the module globals `output_files`
      and `stop_flag`, the `visited` set threaded through every call, and the
      files and console lines the crawl produces. */
  class Crawler {
    const web: Web
    const maxDepth: int
    const workerFile: string
    var stopFlag: bool
    var visited: set<Url>
    var fetched: seq<Visit>
    var failed: seq<Url>
    var written: seq<Url>
    var outputFiles: seq<string>
    var downloads: seq<Url>

    function Cfg(): Config
      reads this
    {
      Config(web, maxDepth, stopFlag, workerFile)
    }

    function Snapshot(): State
      reads this
    {
      State(visited, fetched, failed, written, outputFiles, downloads)
    }

    constructor (web: Web, maxDepth: int, workerFile: string)
      ensures Cfg() == Config(web, maxDepth, false, workerFile)
      ensures Snapshot() == Initial()
    {
      this.web := web;
      this.maxDepth := maxDepth;
      this.workerFile := workerFile;
      stopFlag := false;
      visited, fetched, failed := {}, [], [];
      written, outputFiles, downloads := [], [], [];
    }

    /** `signal_handler`: SIGINT or SIGTERM sets the global stop flag. */
    method Interrupt()
      modifies this`stopFlag
      ensures stopFlag
    {
      stopFlag := true;
    }

    /** `download_image`: one download attempt, whatever its outcome. */
    method DownloadImage(url: Url)
      modifies this`downloads
      ensures downloads == old(downloads) + [url]
    {
      downloads := downloads + [url];
    }

    /** `scrape`: the admission rule, the claim, the fetch, then the two
        submission loops and the wait for every future. */
    method Scrape(url: Url, currentDepth: nat)
      modifies this
      decreases Rank(maxDepth, currentDepth), 0
      ensures stopFlag == old(stopFlag)
      ensures Snapshot() == Crawl(Cfg(), url, currentDepth, old(Snapshot()))
    {
      if currentDepth > maxDepth || url in visited || stopFlag {
        return;
      }
      visited := visited + {url};
      fetched := fetched + [Visit(url, currentDepth)];
      ghost var claimed := Snapshot();
      if url !in web.pages {
        failed := failed + [url];
        return;
      }
      var futures := LogLinks(url, currentDepth);
      assert Snapshot() == Submitted(Cfg(), url, claimed);
      futures := SubmitImages(url, futures);
      assert futures == Futures(Cfg(), url, currentDepth, claimed.visited);
      AwaitAll(futures, currentDepth + 1);
    }

    /** The loop over the links of a fetched page: each link resolved against
        the page URL and, when not yet visited, written to the worker file,
        recorded in `output_files` and submitted one level deeper. */
    method LogLinks(url: Url, currentDepth: nat) returns (futures: seq<Task>)
      requires url in web.pages
      modifies this`written, this`outputFiles
      ensures Snapshot() == Submitted(Cfg(), url, old(Snapshot()))
      ensures futures == ScrapeTasks(FreshLinks(Cfg(), url, visited), currentDepth + 1)
    {
      var links := web.pages[url].links;
      ghost var logged, files := written, outputFiles;
      ghost var kept: seq<Url> := [];
      futures := [];
      var i := 0;
      while i < |links|
        invariant i <= |links|
        invariant kept == Fresh(web.resolve, url, links[..i], visited)
        invariant written == logged + kept
        invariant outputFiles == files + Repeat(workerFile, |kept|)
        invariant futures == ScrapeTasks(kept, currentDepth + 1)
      {
        var absoluteLink := web.resolve(url, links[i]);
        assert links[..i + 1][..i] == links[..i];
        if absoluteLink !in visited {
          outputFiles := outputFiles + [workerFile];
          written := written + [absoluteLink];
          futures := futures + [ScrapeTask(absoluteLink, currentDepth + 1)];
          assert (kept + [absoluteLink])[..|kept|] == kept;
          kept := kept + [absoluteLink];
        }
        i := i + 1;
      }
      assert links[..i] == links;
    }

    /** The loop over the images of a fetched page: each image resolved against
        the page URL and submitted for download, with no depth or visited check. */
    method SubmitImages(url: Url, futures: seq<Task>) returns (all: seq<Task>)
      requires url in web.pages
      ensures all == futures + DownloadTasks(ResolveAll(web.resolve, url, web.pages[url].images))
    {
      var resolve, images := web.resolve, web.pages[url].images;
      var downloads: seq<Task> := [];
      var k := 0;
      assert images[..0] == [];
      while k < |images|
        invariant k <= |images|
        invariant downloads == DownloadTasks(ResolveAll(resolve, url, images[..k]))
      {
        DownloadTasksStep(resolve, url, images, k);
        downloads := downloads + [DownloadTask(resolve(url, images[k]))];
        k := k + 1;
      }
      assert images[..k] == images;
      all := futures + downloads;
    }

    /** The `as_completed` loop: every future runs to completion. */
    method AwaitAll(futures: seq<Task>, depth: nat)
      requires TasksAt(futures, depth)
      modifies this
      decreases Rank(maxDepth, depth), 1
      ensures stopFlag == old(stopFlag)
      ensures Snapshot() == RunTasks(Cfg(), futures, depth, old(Snapshot()))
    {
      var j := 0;
      while j < |futures|
        invariant j <= |futures|
        decreases |futures| - j
        invariant stopFlag == old(stopFlag)
        invariant RunTasks(Cfg(), futures[j..], depth, Snapshot())
               == RunTasks(Cfg(), futures, depth, old(Snapshot()))
      {
        assert futures[j..][1..] == futures[j + 1..];
        match futures[j] {
          case ScrapeTask(u, d) => Scrape(u, d);
          case DownloadTask(u) => DownloadImage(u);
        }
        j := j + 1;
      }
    }

    /** The `__main__` block after argument parsing. */
    method Launch(seed: Url) returns (started: bool)
      modifies this
      ensures started == IsHttpUrl(seed)
      ensures stopFlag == old(stopFlag)
      ensures Snapshot() == Run(Cfg(), seed, old(Snapshot()))
    {
      started := "http://" <= seed || "https://" <= seed;
      if !started {
        return;
      }
      outputFiles := outputFiles + [workerFile];
      written := [];
      visited := {};
      Scrape(seed, 0);
    }
  }
}

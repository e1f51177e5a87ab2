/** The collaborators both crawler variants consume but do not implement (HTTP
    fetching, HTML link extraction, URL resolution) and the vocabulary of the
    crawl log that both variants write: which URL was claimed at which depth. */
module Web {

  type Url = string

  /** What the parser extracts from a page that was fetched successfully: the
      anchor targets followed by the plain-text URLs found in the page text
      (`links`), and the image sources (`images`). */
  datatype Page = Page(links: seq<Url>, images: seq<Url>)

  /** A fixed link graph. Fetching `u` succeeds exactly when `u in pages`; every
      other URL stands for a transport error or a non-success status. `resolve`
      stands for `urllib.parse.urljoin(base, link)`, of which nothing is assumed. */
  datatype Web = Web(pages: map<Url, Page>, resolve: (Url, Url) -> Url)

  /** One "Scraping URL ... at depth ..." line: a URL claimed by a call and the
      depth of that call. */
  datatype Visit = Visit(url: Url, depth: nat)

  /** The seed check of both command-line entry points: `url.startswith(('http://', 'https://'))`. */
  predicate IsHttpUrl(s: string)
  {
    "http://" <= s || "https://" <= s
  }

  /** The termination measure of the traversal: how many more levels a call at
      `depth` may still descend before the depth bound rejects it. */
  function Rank(maxDepth: int, depth: nat): nat
  {
    if depth <= maxDepth then maxDepth - depth + 1 else 0
  }

  /** Every reference of a page resolved against the page's own URL, in order. */
  function ResolveAll(resolve: (Url, Url) -> Url, base: Url, refs: seq<Url>): (r: seq<Url>)
    ensures |r| == |refs|
    ensures forall k :: 0 <= k < |refs| ==> r[k] == resolve(base, refs[k])
  {
    if refs == [] then []
    else ResolveAll(resolve, base, refs[..|refs| - 1]) + [resolve(base, refs[|refs| - 1])]
  }

  /** The URLs of a claim log. */
  function UrlSet(log: seq<Visit>): (s: set<Url>)
    ensures forall i :: 0 <= i < |log| ==> log[i].url in s
    ensures forall u :: u in s ==> exists i :: 0 <= i < |log| && log[i].url == u
  {
    set i | 0 <= i < |log| :: log[i].url
  }

  lemma UrlSetAppend(log: seq<Visit>, v: Visit)
    ensures UrlSet(log + [v]) == UrlSet(log) + {v.url}
  {
    var l := log + [v];
    forall u | u in UrlSet(l) ensures u in UrlSet(log) + {v.url} {
      var i :| 0 <= i < |l| && l[i].url == u;
      if i < |log| { assert log[i] == l[i]; }
    }
    forall u | u in UrlSet(log) + {v.url} ensures u in UrlSet(l) {
      if u == v.url {
        assert l[|log|].url == u;
      } else {
        var i :| 0 <= i < |log| && log[i].url == u;
        assert l[i] == log[i];
      }
    }
  }

  /** No URL occurs twice in a claim log. */
  ghost predicate DistinctUrls(log: seq<Visit>)
  {
    forall i, j :: 0 <= i < j < |log| ==> log[i].url != log[j].url
  }

  /** The Frontier invariant: every URL in `visited` was claimed exactly once,
      and every claim is recorded in `visited`. */
  ghost predicate ClaimedOnce(visited: set<Url>, log: seq<Visit>)
  {
    DistinctUrls(log) && UrlSet(log) == visited
  }

  /** Claiming a URL that is not yet visited keeps the Frontier invariant. */
  lemma ClaimKeepsClaimedOnce(visited: set<Url>, log: seq<Visit>, v: Visit)
    requires ClaimedOnce(visited, log) && v.url !in visited
    ensures ClaimedOnce(visited + {v.url}, log + [v])
  {
    UrlSetAppend(log, v);
    var l := log + [v];
    forall i, j | 0 <= i < j < |l| ensures l[i].url != l[j].url {
      assert l[i] == log[i];
      if j < |log| { assert l[j] == log[j]; }
    }
  }

  /** The URLs of the claims whose fetch failed, in claim order. */
  function Failures(web: Web, log: seq<Visit>): (r: seq<Url>)
    ensures forall u :: u in r ==> u in UrlSet(log) && u !in web.pages
  {
    if log == [] then []
    else
      var last := log[|log| - 1];
      Failures(web, log[..|log| - 1]) + (if last.url in web.pages then [] else [last.url])
  }

  /** `from` is a page that was fetched successfully, and `child` is one of its
      links resolved against its URL, one level deeper. */
  ghost predicate LinksTo(web: Web, from: Visit, child: Visit)
  {
    && from.depth + 1 == child.depth
    && from.url in web.pages
    && exists l :: l in web.pages[from.url].links && web.resolve(from.url, l) == child.url
  }

  /** Some claim of `log` links to `child`. */
  ghost predicate Linked(web: Web, log: seq<Visit>, child: Visit)
  {
    exists j :: 0 <= j < |log| && LinksTo(web, log[j], child)
  }

  /** Every claim below the seed level was discovered on a page claimed before it. */
  ghost predicate Traced(web: Web, log: seq<Visit>)
  {
    forall i :: 0 <= i < |log| && log[i].depth > 0 ==> Linked(web, log[..i], log[i])
  }

  lemma LinkedGrows(web: Web, log: seq<Visit>, log': seq<Visit>, child: Visit)
    requires log <= log' && Linked(web, log, child)
    ensures Linked(web, log', child)
  {
    var j :| 0 <= j < |log| && LinksTo(web, log[j], child);
    assert log'[j] == log[j];
  }

  lemma TracedAppend(web: Web, log: seq<Visit>, v: Visit)
    requires Traced(web, log)
    requires v.depth == 0 || Linked(web, log, v)
    ensures Traced(web, log + [v])
  {
    var l := log + [v];
    forall i | 0 <= i < |l| && l[i].depth > 0 ensures Linked(web, l[..i], l[i]) {
      if i < |log| {
        assert l[..i] == log[..i];
        assert l[i] == log[i];
      } else {
        assert l[..i] == log;
      }
    }
  }

  /** Every claim of a traced log at a positive depth has, somewhere before it,
      a claim one level shallower whose page links to it. */
  lemma {:induction false} TracedHasParent(web: Web, log: seq<Visit>, i: nat)
    requires Traced(web, log) && i < |log| && log[i].depth > 0
    ensures exists j :: 0 <= j < i && LinksTo(web, log[j], log[i])
  {
    assert Linked(web, log[..i], log[i]);
    var j :| 0 <= j < i && LinksTo(web, log[..i][j], log[i]);
    assert log[..i][j] == log[j];
  }
}

/** Small link graphs whose links are already absolute, so that resolving a
    link yields the link itself; the concrete runs of both crawlers use them. */
module Graphs {
  import opened Web

  /** Four different URLs, the first an acceptable seed. */
  predicate Four(a: Url, b: Url, c: Url, d: Url)
  {
    IsHttpUrl(a) && a != b && a != c && a != d && b != c && b != d && c != d
  }

  function KeepAbsolute(base: Url, link: Url): Url
  {
    link
  }

  /** A page with the given links and no images. */
  function Links(links: seq<Url>): Page
  {
    Page(links, [])
  }

  /** a links to b and c, and both link to d. */
  function Diamond(a: Url, b: Url, c: Url, d: Url): Web
  {
    Web(map[a := Links([b, c]), b := Links([d]), c := Links([d])], KeepAbsolute)
  }

  /** a links to b and c, b links to c, and c links to d. */
  function Shortcut(a: Url, b: Url, c: Url, d: Url): Web
  {
    Web(map[a := Links([b, c]), b := Links([c]), c := Links([d]), d := Links([])], KeepAbsolute)
  }

  /** a and b link to each other. */
  function Cycle(a: Url, b: Url): Web
  {
    Web(map[a := Links([b]), b := Links([a])], KeepAbsolute)
  }

  /** a links to b and c; fetching b fails, and c has no links. */
  function Broken(a: Url, b: Url, c: Url): Web
  {
    Web(map[a := Links([b, c]), c := Links([])], KeepAbsolute)
  }
}

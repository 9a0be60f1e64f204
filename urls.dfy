/**
 URLs taken as given strings: prefix tests, query stripping and the path rewrite the
 fetch handler applies before consulting the local manifest.
 */
module Urls {
  import opened Net

  /** `s.startsWith(prefix)` */
  predicate StartsWith(s: string, prefix: string) {
    |prefix| <= |s| && s[..|prefix|] == prefix
  }

  /** The URL with its query removed: everything before the first `?`. This is what a cache
      lookup with `ignoreSearch` compares. */
  function StripQuery(s: string): (r: string)
    ensures StartsWith(s, r) && '?' !in r
    ensures r == s || s[|r|] == '?'
  {
    if s == [] || s[0] == '?' then []
    else [s[0]] + StripQuery(s[1..])
  }

  /** Appending a query (empty, or starting with `?`) to a query-free string is undone by
      `StripQuery`. */
  lemma {:induction false} StripQueryAppend(a: string, q: string)
    requires '?' !in a
    requires q == [] || q[0] == '?'
    ensures StripQuery(a + q) == a
  {
    if a == [] {
      assert a + q == q;
    } else {
      assert (a + q)[0] == a[0] && (a + q)[1..] == a[1..] + q;
      StripQueryAppend(a[1..], q);
    }
  }

  /** A query-free prefix matches a URL exactly when it matches the URL without its query. */
  lemma {:induction false} PrefixIgnoresQuery(p: string, a: string, q: string)
    requires '?' !in p
    requires q == [] || q[0] == '?'
    ensures StartsWith(a + q, p) <==> StartsWith(a, p)
  {
    if p == [] {
    } else if a == [] {
      assert a + q == q;
      assert p[0] in p;
    } else {
      assert (a + q)[0] == a[0] && (a + q)[1..] == a[1..] + q;
      StartsWithCons(a + q, p);
      StartsWithCons(a, p);
      PrefixIgnoresQuery(p[1..], a[1..], q);
    }
  }

  lemma StartsWithCons(s: string, p: string)
    requires s != [] && p != []
    ensures StartsWith(s, p) <==> s[0] == p[0] && StartsWith(s[1..], p[1..])
  {
    if s[0] == p[0] && StartsWith(s[1..], p[1..]) {
      assert s[..|p|] == [s[0]] + s[1..][..|p| - 1];
      assert p == [p[0]] + p[1..];
    }
    if StartsWith(s, p) {
      assert s[1..][..|p| - 1] == s[..|p|][1..];
    }
  }

  /** A request as the fetch handler sees it: the URL split into origin, pathname and
      search (the search is empty or starts with `?`), and the request mode. */
  datatype Request = Request(origin: string, pathname: string, search: string, mode: Mode)

  /** `request.url` */
  function Href(r: Request): string {
    r.origin + r.pathname + r.search
  }

  /** What URL parsing guarantees of the three parts: only the search holds a `?`. */
  predicate WellFormed(r: Request) {
    '?' !in r.origin && '?' !in r.pathname && (r.search == [] || r.search[0] == '?')
  }

  /** The cache key of a well-formed request, its query ignored: origin and pathname. */
  lemma HrefWithoutQuery(r: Request)
    requires WellFormed(r)
    ensures StripQuery(Href(r)) == r.origin + r.pathname
  {
    StripQueryAppend(r.origin + r.pathname, r.search);
  }

  /** The fetch handler's rewrite of the pathname before the local-manifest test: a
      leading `/` gets a `.` in front of it, anything else is left as it is. */
  function NormalizePath(p: string): string {
    if StartsWith(p, "/") then "." + p else p
  }

  /** A pathname with a leading `/` (every http(s) pathname) is rewritten to a `./` form,
      and dropping the added `.` gives it back, so two such pathnames never collide. */
  lemma NormalizePathInverse(p: string)
    requires StartsWith(p, "/")
    ensures StartsWith(NormalizePath(p), "./") && NormalizePath(p)[1..] == p
  {
    assert NormalizePath(p) == "." + p;
    assert ("." + p)[..2] == "." + p[..1];
  }
}

/**
 The fetch handler's decision: every request is a CDN asset, a local asset or unmanaged.
 */
module Classification {
  import opened Net
  import opened Urls
  import opened Settings

  datatype Class = CdnAsset | LocalAsset | Unmanaged

  /** `prefixes.some(p => s.startsWith(p))` */
  function SomePrefix(prefixes: seq<string>, s: string): (b: bool)
    ensures b <==> exists p :: p in prefixes && StartsWith(s, p)
  {
    if prefixes == [] then false
    else
      assert forall p :: p in prefixes ==> p == prefixes[0] || p in prefixes[1..];
      StartsWith(s, prefixes[0]) || SomePrefix(prefixes[1..], s)
  }

  /** The CDN test runs on the full URL and comes first; only a request that is not a CDN
      asset is looked up, by its rewritten pathname, in the local manifest. */
  function Classify(cfg: Config, r: Request): (c: Class)
    ensures c == CdnAsset <==> exists p :: p in cfg.cdn && StartsWith(Href(r), p)
    ensures c == LocalAsset <==> (forall p :: p in cfg.cdn ==> !StartsWith(Href(r), p))
                                 && NormalizePath(r.pathname) in cfg.local
  {
    if SomePrefix(cfg.cdn, Href(r)) then CdnAsset
    else if NormalizePath(r.pathname) in cfg.local then LocalAsset
    else Unmanaged
  }

  /** A URL that matches both manifests is a CDN asset. */
  lemma CdnWinsOverLocal(cfg: Config, r: Request, p: string)
    requires p in cfg.cdn && StartsWith(Href(r), p)
    requires NormalizePath(r.pathname) in cfg.local
    ensures Classify(cfg, r) == CdnAsset
  {
  }

  /** An http(s) pathname `/x` is a local asset exactly when `./x` is in the manifest (and
      no CDN prefix matches). */
  lemma LocalByRewrittenPath(cfg: Config, r: Request)
    requires StartsWith(r.pathname, "/")
    requires forall p :: p in cfg.cdn ==> !StartsWith(Href(r), p)
    ensures Classify(cfg, r) == LocalAsset <==> "." + r.pathname in cfg.local
  {
  }

  /** With query-free CDN prefixes, the query string plays no part in classification:
      a well-formed request is classified as it would be with any other query. */
  lemma {:induction false} ClassifyIgnoresQuery(cfg: Config, r: Request, q: string)
    requires WellFormed(r)
    requires q == [] || q[0] == '?'
    requires forall p :: p in cfg.cdn ==> '?' !in p
    ensures Classify(cfg, r.(search := q)) == Classify(cfg, r)
  {
    var base := r.origin + r.pathname;
    forall p | p in cfg.cdn
      ensures StartsWith(Href(r.(search := q)), p) <==> StartsWith(Href(r), p)
    {
      PrefixIgnoresQuery(p, base, q);
      PrefixIgnoresQuery(p, base, r.search);
    }
  }

  /** Every shipped CDN prefix is at least 28 characters long, so a shorter URL is never a
      CDN asset. */
  lemma ShorterThanShippedCdn(s: string)
    requires |s| < 28
    ensures forall p :: p in CdnUrls ==> !StartsWith(s, p)
  {
    assert forall i :: 0 <= i < |CdnUrls| ==> |CdnUrls[i]| >= 28;
  }

  /** With the shipped manifests the site root `/` is a local asset (it becomes `./`). */
  lemma ShippedRootIsLocal(m: Mode)
    ensures Classify(Sw, Request("https://a.it", "/", "", m)) == LocalAsset
  {
    ShorterThanShippedCdn(Href(Request("https://a.it", "/", "", m)));
    assert StartsWith("/", "/");
    assert "." + "/" == LocalUrls[0];
  }

  /** `/index.html` is a local asset, with or without a query. */
  lemma ShippedIndexIsLocal(m: Mode)
    ensures Classify(Sw, Request("https://a.it", "/index.html", "", m)) == LocalAsset
    ensures Classify(Sw, Request("https://a.it", "/index.html", "?v=2", m)) == LocalAsset
  {
    ShorterThanShippedCdn(Href(Request("https://a.it", "/index.html", "", m)));
    ShorterThanShippedCdn(Href(Request("https://a.it", "/index.html", "?v=2", m)));
    assert StartsWith("/index.html", "/");
    assert "." + "/index.html" == LocalUrls[1];
  }

  /** A path outside the local manifest, on the site's own origin, is unmanaged. */
  lemma ShippedApiIsUnmanaged(m: Mode)
    ensures Classify(Sw, Request("https://a.it", "/api/claims", "", m)) == Unmanaged
  {
    ShorterThanShippedCdn(Href(Request("https://a.it", "/api/claims", "", m)));
    assert StartsWith("/api/claims", "/");
    forall i | 0 <= i < |LocalUrls| ensures LocalUrls[i] != "." + "/api/claims" {
      assert |LocalUrls[i]| <= 2 || LocalUrls[i][2] != 'a';
    }
  }

  /** The Dexie script, with a query appended, is a CDN asset. */
  lemma ShippedDexieIsCdn(q: string, m: Mode)
    ensures Classify(Sw, Request("https://unpkg.com", "/dexie@3/dist/dexie.js", q, m)) == CdnAsset
  {
    var r := Request("https://unpkg.com", "/dexie@3/dist/dexie.js", q, m);
    var dexie := CdnUrls[1];
    assert r.origin + r.pathname == dexie;
    assert Href(r) == dexie + q;
    assert StartsWith(dexie + q, dexie) by {
      assert (dexie + q)[..|dexie|] == dexie;
    }
    assert dexie in Sw.cdn;
  }
}

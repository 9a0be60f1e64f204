/**
 The fetch handler's two cache-first strategies and the pass-through. Routing only reads
 the storage; a miss goes to the network and its response is not stored.
 */
module Routing {
  import opened Net
  import opened Urls
  import opened Settings
  import opened CacheStorage
  import opened Classification
  import opened Installation
  import opened Activation

  /** What a `respondWith` promise settles to: a cached response, a network response,
      `undefined` (the CDN branch's caught fetch error) or a rejection (a failed local
      fetch). */
  datatype Reply = FromCache(response: Response) | FromNetwork(response: Response) | NoResponse | Failed

  /** Either the handler calls `respondWith`, or the request is left to the browser. */
  datatype Handling = PassThrough | RespondWith(reply: Reply)

  /** How a request was handled and how many network fetches the handler made. */
  datatype Routed = Routed(handling: Handling, fetches: nat)

  /** CDN assets: lookup ignoring the query, then a no-cors fetch of the request URL whose
      error is swallowed. */
  function CdnFirst(s: Storage, r: Request, net: Network): Routed {
    match StorageMatch(s, Href(r), true)
    case Some(cached) => Routed(RespondWith(FromCache(cached)), 0)
    case None =>
      (match net(Href(r), NoCors)
       case Some(resp) => Routed(RespondWith(FromNetwork(resp)), 1)
       case None => Routed(RespondWith(NoResponse), 1))
  }

  /** Local assets: exact lookup, then the request itself goes to the network. */
  function LocalFirst(s: Storage, r: Request, net: Network): Routed {
    match StorageMatch(s, Href(r), false)
    case Some(cached) => Routed(RespondWith(FromCache(cached)), 0)
    case None =>
      (match net(Href(r), r.mode)
       case Some(resp) => Routed(RespondWith(FromNetwork(resp)), 1)
       case None => Routed(RespondWith(Failed), 1))
  }

  /** The fetch handler. */
  function Route(cfg: Config, s: Storage, r: Request, net: Network): (out: Routed)
    ensures out.fetches <= 1
  {
    match Classify(cfg, r)
    case CdnAsset => CdnFirst(s, r, net)
    case LocalAsset => LocalFirst(s, r, net)
    case Unmanaged => Routed(PassThrough, 0)
  }

  /** `respondWith` is called exactly for CDN and local assets. An unmanaged request is
      passed through with no fetch, whatever the storage and the network hold. */
  lemma PassThroughExactlyUnmanaged(cfg: Config, s: Storage, s': Storage, r: Request, net: Network, net': Network)
    ensures Route(cfg, s, r, net).handling == PassThrough <==> Classify(cfg, r) == Unmanaged
    ensures Classify(cfg, r) == Unmanaged ==>
              Route(cfg, s, r, net) == Routed(PassThrough, 0) == Route(cfg, s', r, net')
  {
  }

  /** CDN branch: a hit (any cache, query ignored) is served with no fetch; a miss makes
      one no-cors fetch of the request URL and answers with its response, or with no
      response if it fails. */
  lemma CdnRouting(cfg: Config, s: Storage, r: Request, net: Network)
    requires Classify(cfg, r) == CdnAsset
    ensures var out := Route(cfg, s, r, net);
            match StorageMatch(s, Href(r), true)
            case Some(cached) => out == Routed(RespondWith(FromCache(cached)), 0)
            case None => out.fetches == 1 &&
                         out.handling == RespondWith(if net(Href(r), NoCors).Some?
                                                     then FromNetwork(net(Href(r), NoCors).value)
                                                     else NoResponse)
  {
  }

  /** Local branch: an exact hit is served with no fetch; a miss forwards the request
      unchanged and a failed fetch rejects. */
  lemma LocalRouting(cfg: Config, s: Storage, r: Request, net: Network)
    requires Classify(cfg, r) == LocalAsset
    ensures var out := Route(cfg, s, r, net);
            match StorageMatch(s, Href(r), false)
            case Some(cached) => out == Routed(RespondWith(FromCache(cached)), 0)
            case None => out.fetches == 1 &&
                         out.handling == RespondWith(if net(Href(r), r.mode).Some?
                                                     then FromNetwork(net(Href(r), r.mode).value)
                                                     else Failed)
  {
  }

  /** The CDN lookup ignores the query: a well-formed request hits with any query exactly
      as it does without one, and gets the same cached response. */
  lemma CdnLookupIgnoresQuery(s: Storage, r: Request, q: string)
    requires WellFormed(r)
    requires q == [] || q[0] == '?'
    ensures StorageMatch(s, Href(r.(search := q)), true) == StorageMatch(s, Href(r), true)
  {
    HrefWithoutQuery(r);
    HrefWithoutQuery(r.(search := q));
    MatchAllIgnoringQuery(s.order, s.caches, Href(r.(search := q)), Href(r));
  }

  /** The local lookup is exact: when no cached key carries a query, a request with a query
      misses, even if the same URL without it is cached, and goes to the network. */
  lemma LocalQueryMisses(cfg: Config, s: Storage, r: Request, net: Network)
    requires Valid(s)
    requires WellFormed(r) && r.search != []
    requires forall n, i :: n in s.caches && 0 <= i < |s.caches[n]| ==> '?' !in s.caches[n][i].key
    requires Classify(cfg, r) == LocalAsset
    ensures StorageMatch(s, Href(r), false) == None
    ensures Route(cfg, s, r, net).fetches == 1
  {
    var base := r.origin + r.pathname;
    assert Href(r)[|base|] == r.search[0] == '?';
    assert '?' in Href(r);
    StorageMatchHits(s, Href(r), false);
  }

  /** Install, then activate, then request a CDN asset the install stored (with any
      query): it is served from the cache and the network is not called. */
  lemma InstalledCdnAssetServedFromCache(cfg: Config, sc: Scope, net: Network, s: Storage,
                                         u: string, r: Request, later: Network)
    requires Valid(s)
    requires Install(cfg, sc, net, s).completed
    requires u in cfg.cdn && '?' !in u && Storable(net, u)
    requires WellFormed(r) && r.origin + r.pathname == u
    ensures var live := Activated(cfg, Install(cfg, sc, net, s).storage);
            var out := Route(cfg, live, r, later);
            out.fetches == 0 && out.handling.RespondWith? && out.handling.reply.FromCache?
  {
    InstalledCdnAssetSurvives(cfg, sc, net, s, u);
    var live := Activated(cfg, Install(cfg, sc, net, s).storage);
    CdnHit(cfg, live, cfg.cacheName, u, r, later);
  }

  /** After install and activate, the current cache still holds every CDN asset the
      install stored. */
  lemma InstalledCdnAssetSurvives(cfg: Config, sc: Scope, net: Network, s: Storage, u: string)
    requires Valid(s)
    requires Install(cfg, sc, net, s).completed
    requires u in cfg.cdn && Storable(net, u)
    ensures var live := Activated(cfg, Install(cfg, sc, net, s).storage);
            Valid(live) && cfg.cacheName in live.caches && CacheMatch(live.caches[cfg.cacheName], u, false).Some?
  {
    var installed := Install(cfg, sc, net, s).storage;
    CdnBestEffort(cfg, sc, net, s);
    ActivationSurvivors(cfg, installed);
  }

  /** A CDN request, with any query, whose query-less URL is stored in some cache is
      served from the cache with no fetch. */
  lemma CdnHit(cfg: Config, s: Storage, name: string, u: string, r: Request, net: Network)
    requires Valid(s) && name in s.caches
    requires u in cfg.cdn && '?' !in u
    requires WellFormed(r) && r.origin + r.pathname == u
    requires CacheMatch(s.caches[name], u, false).Some?
    ensures Route(cfg, s, r, net).fetches == 0
    ensures Route(cfg, s, r, net).handling.RespondWith? && Route(cfg, s, r, net).handling.reply.FromCache?
  {
    var c := s.caches[name];
    var i :| 0 <= i < |c| && EntryMatches(c[i], u, false);
    HrefWithoutQuery(r);
    StripQueryAppend(u, []);
    assert u + [] == u;
    assert EntryMatches(c[i], Href(r), true);
    assert StartsWith(Href(r), u) by {
      assert Href(r) == u + r.search;
    }
    assert Classify(cfg, r) == CdnAsset;
    HitWhenCached(cfg, s, name, r, net);
  }

  /** A request every cache lookup finds in some cache is served from the cache, in
      either branch, with no fetch. */
  lemma HitWhenCached(cfg: Config, s: Storage, name: string, r: Request, net: Network)
    requires Valid(s) && name in s.caches
    requires Classify(cfg, r) != Unmanaged
    requires CacheMatch(s.caches[name], Href(r), Classify(cfg, r) == CdnAsset).Some?
    ensures Route(cfg, s, r, net).fetches == 0
    ensures Route(cfg, s, r, net).handling.RespondWith? && Route(cfg, s, r, net).handling.reply.FromCache?
  {
    StorageMatchHits(s, Href(r), Classify(cfg, r) == CdnAsset);
  }

  lemma RootKey(origin: string, rel: string, m: Mode)
    requires StartsWith(rel, "./")
    ensures Resolve(Scope(origin, "/"), rel) == Href(Request(origin, "/" + rel[2..], "", m))
  {
    assert origin + "/" + rel[2..] == origin + ("/" + rel[2..]) + "";
  }

  /** Install from the origin's root, then activate, then request a local asset by its
      pathname: it is served from the cache and the network is not called. */
  lemma InstalledLocalAssetServedFromCache(cfg: Config, origin: string, net: Network, s: Storage,
                                           rel: string, m: Mode, later: Network)
    requires Valid(s)
    requires Install(cfg, Scope(origin, "/"), net, s).completed
    requires rel in cfg.local && StartsWith(rel, "./")
    requires var key := Resolve(Scope(origin, "/"), rel); !(key in cfg.cdn && Storable(net, key))
    requires forall p :: p in cfg.cdn ==> !StartsWith(origin + "/" + rel[2..], p)
    ensures var live := Activated(cfg, Install(cfg, Scope(origin, "/"), net, s).storage);
            var out := Route(cfg, live, Request(origin, "/" + rel[2..], "", m), later);
            out.fetches == 0 && out.handling.RespondWith? && out.handling.reply.FromCache?
  {
    var sc := Scope(origin, "/");
    InstalledLocalAssetSurvives(cfg, sc, net, s, rel);
    LocalHit(cfg, Activated(cfg, Install(cfg, sc, net, s).storage), cfg.cacheName, origin, rel, m, later);
  }

  /** A local asset stored under its URL resolved at the origin's root is served from the
      cache, with no fetch, when requested by its pathname. */
  lemma LocalHit(cfg: Config, s: Storage, name: string, origin: string, rel: string, m: Mode, net: Network)
    requires Valid(s) && name in s.caches
    requires rel in cfg.local && StartsWith(rel, "./")
    requires forall p :: p in cfg.cdn ==> !StartsWith(origin + "/" + rel[2..], p)
    requires CacheMatch(s.caches[name], Resolve(Scope(origin, "/"), rel), false).Some?
    ensures var out := Route(cfg, s, Request(origin, "/" + rel[2..], "", m), net);
            out.fetches == 0 && out.handling.RespondWith? && out.handling.reply.FromCache?
  {
    var r := Request(origin, "/" + rel[2..], "", m);
    RootKey(origin, rel, m);
    assert Classify(cfg, r) == LocalAsset by {
      LocalRecognisedOnlyAtRoot(Scope(origin, "/"), rel);
      assert StartsWith(r.pathname, "/");
    }
    HitWhenCached(cfg, s, name, r, net);
  }

  /** After install and activate, the current cache still holds every local asset the
      install stored, under its resolved URL. */
  lemma InstalledLocalAssetSurvives(cfg: Config, sc: Scope, net: Network, s: Storage, rel: string)
    requires Valid(s)
    requires Install(cfg, sc, net, s).completed
    requires rel in cfg.local
    requires var key := Resolve(sc, rel); !(key in cfg.cdn && Storable(net, key))
    ensures var live := Activated(cfg, Install(cfg, sc, net, s).storage);
            Valid(live) && cfg.cacheName in live.caches && CacheMatch(live.caches[cfg.cacheName], Resolve(sc, rel), false).Some?
  {
    var installed := Install(cfg, sc, net, s).storage;
    var keys := LocalKeys(sc, cfg.local);
    var j :| 0 <= j < |cfg.local| && cfg.local[j] == rel;
    assert keys[j] == Resolve(sc, rel);
    LocalAllOrNothing(cfg, sc, net, s);
    ActivationSurvivors(cfg, installed);
  }
}

/**
 Install-time population of the current version's cache: the local manifest with one
 all-or-nothing `cache.addAll`, then each CDN asset fetched in no-cors mode and stored on
 its own, a failure caught per URL.
 */
module Installation {
  import opened Net
  import opened Urls
  import opened Settings
  import opened CacheStorage

  /** Where the worker script is served from: `origin + dir + "sw.js"`; `dir` starts and
      ends with `/`. */
  datatype Scope = Scope(origin: string, dir: string)

  /** The URL a manifest entry names once resolved against the worker's own URL, for the
      forms a manifest uses: `./x`, `/x` and a bare `x`. */
  function Resolve(sc: Scope, rel: string): string {
    if StartsWith(rel, "./") then sc.origin + sc.dir + rel[2..]
    else if StartsWith(rel, "/") then sc.origin + rel
    else sc.origin + sc.dir + rel
  }

  /** Two distinct `./` entries never resolve to the same URL. */
  lemma ResolveInjective(sc: Scope, a: string, b: string)
    requires StartsWith(a, "./") && StartsWith(b, "./")
    ensures Resolve(sc, a) == Resolve(sc, b) <==> a == b
  {
    var base := sc.origin + sc.dir;
    if Resolve(sc, a) == Resolve(sc, b) {
      assert (base + a[2..])[|base|..] == a[2..];
      assert (base + b[2..])[|base|..] == b[2..];
      assert a == a[..2] + a[2..] && b == b[..2] + b[2..];
    }
  }

  /** The rewritten pathname of a resolved `./x` entry is the entry itself exactly when the
      worker is served from the origin's root. Under any other directory the request for an
      installed asset is recognised only if the manifest also lists its longer path, which
      the single-segment shipped manifest does not. */
  lemma LocalRecognisedOnlyAtRoot(sc: Scope, rel: string)
    requires StartsWith(sc.dir, "/") && StartsWith(rel, "./")
    ensures NormalizePath(sc.dir + rel[2..]) == rel <==> sc.dir == "/"
  {
    var t := rel[2..];
    assert rel == "./" + t;
    assert (sc.dir + t)[..1] == sc.dir[..1];
    assert NormalizePath(sc.dir + t) == "." + sc.dir + t;
    assert |sc.dir| == 1 ==> sc.dir == sc.dir[..1];
    if sc.dir == "/" {
      assert "." + "/" + t == "./" + t;
    } else {
      assert |"." + sc.dir + t| != |rel|;
    }
  }

  /** The request URLs `cache.addAll(local)` is given. */
  function LocalKeys(sc: Scope, local: seq<string>): (keys: seq<string>)
    ensures |keys| == |local| && forall i :: 0 <= i < |local| ==> keys[i] == Resolve(sc, local[i])
  {
    seq(|local|, i requires 0 <= i < |local| => Resolve(sc, local[i]))
  }

  /** A manifest of distinct `./` entries resolves to distinct URLs, so `addAll` never
      rejects it for a repeated request. */
  lemma LocalKeysDistinct(sc: Scope, local: seq<string>)
    requires forall i :: 0 <= i < |local| ==> StartsWith(local[i], "./")
    requires Distinct(local)
    ensures Distinct(LocalKeys(sc, local))
  {
    var keys := LocalKeys(sc, local);
    forall i, j | 0 <= i < j < |keys| ensures keys[i] != keys[j] {
      ResolveInjective(sc, local[i], local[j]);
    }
  }

  /** The no-cors fetch of a CDN URL gave a response that `cache.put` accepts. */
  predicate Storable(net: Network, url: string) {
    net(url, NoCors).Some? && PutAccepts(net(url, NoCors).value)
  }

  /** One CDN asset: fetched and put, or, on a fetch or put failure, skipped. */
  function CdnPut(c: Cache, url: string, net: Network): Cache {
    if Storable(net, url) then CachePut(c, url, net(url, NoCors).value) else c
  }

  /** A CDN put answers its URL with the fetched response when that is storable, and
      every other request as before. */
  lemma CdnPutLookup(c: Cache, url: string, net: Network, k: string)
    ensures CacheMatch(CdnPut(c, url, net), k, false) ==
            if k == url && Storable(net, url) then Some(net(url, NoCors).value) else CacheMatch(c, k, false)
  {
    if Storable(net, url) {
      CachePutLookup(c, url, net(url, NoCors).value, k);
    }
  }

  /** Every CDN asset in turn. */
  function CdnPuts(c: Cache, urls: seq<string>, net: Network): Cache {
    if urls == [] then c
    else CdnPut(CdnPuts(c, urls[..|urls| - 1], net), urls[|urls| - 1], net)
  }

  /** Every CDN URL whose fetch and put succeed is stored, with its response. */
  lemma {:induction false} CdnPutsStores(c: Cache, urls: seq<string>, net: Network, u: string)
    requires u in urls && Storable(net, u)
    ensures CacheMatch(CdnPuts(c, urls, net), u, false) == Some(net(u, NoCors).value)
  {
    var init := urls[..|urls| - 1];
    var last := urls[|urls| - 1];
    assert urls == init + [last];
    CdnPutLookup(CdnPuts(c, init, net), last, net, u);
    if u != last {
      CdnPutsStores(c, init, net, u);
    }
  }

  /** A request that no CDN URL stores keeps its entry, whatever the other URLs do. */
  lemma {:induction false} CdnPutsKeeps(c: Cache, urls: seq<string>, net: Network, k: string)
    requires !(k in urls && Storable(net, k))
    ensures CacheMatch(CdnPuts(c, urls, net), k, false) == CacheMatch(c, k, false)
  {
    if urls != [] {
      var init := urls[..|urls| - 1];
      assert urls == init + [urls[|urls| - 1]];
      CdnPutsKeeps(c, init, net, k);
      CdnPutLookup(CdnPuts(c, init, net), urls[|urls| - 1], net, k);
    }
  }

  lemma CdnPutsSnoc(c: Cache, urls: seq<string>, i: nat, net: Network)
    requires i < |urls|
    ensures CdnPuts(c, urls[..i + 1], net) == CdnPut(CdnPuts(c, urls[..i], net), urls[i], net)
  {
    assert urls[..i + 1][..i] == urls[..i];
  }

  /** The outcome of the install handler: the storage, whether the chain completed (and so
      called `skipWaiting`), and how many network fetches were made. */
  datatype InstallRun = InstallRun(storage: Storage, completed: bool, fetches: nat)

  /** The install handler. A rejected `addAll` is caught: the handler still resolves,
      leaving the opened cache as it was, fetching no CDN asset and not calling
      `skipWaiting`. */
  function Install(cfg: Config, sc: Scope, net: Network, s: Storage): (r: InstallRun)
    requires Valid(s)
    ensures Valid(r.storage) && cfg.cacheName in r.storage.caches
  {
    var created := Open(s, cfg.cacheName);
    var keys := LocalKeys(sc, cfg.local);
    match AddAll(created.caches[cfg.cacheName], keys, net)
    case None => InstallRun(created, false, |keys|)
    case Some(c) =>
      InstallRun(created.(caches := created.caches[cfg.cacheName := CdnPuts(c, cfg.cdn, net)]), true, |keys| + |cfg.cdn|)
  }

  /** The install run in terms of its two stages: what `caches.open` gives and what
      `addAll` does with it. */
  lemma InstallStages(cfg: Config, sc: Scope, net: Network, s: Storage, created: Storage, added: Option<Cache>)
    requires Valid(s) && created == Open(s, cfg.cacheName)
    requires added == AddAll(created.caches[cfg.cacheName], LocalKeys(sc, cfg.local), net)
    ensures Install(cfg, sc, net, s) ==
            if added.Some?
            then InstallRun(created.(caches := created.caches[cfg.cacheName := CdnPuts(added.value, cfg.cdn, net)]), true, |cfg.local| + |cfg.cdn|)
            else InstallRun(created, false, |cfg.local|)
  {
  }

  /** Install writes only the current cache: every other cache, and the order of the
      existing names, is unchanged. */
  lemma InstallTouchesOnlyCurrent(cfg: Config, sc: Scope, net: Network, s: Storage)
    requires Valid(s)
    ensures var r := Install(cfg, sc, net, s).storage;
            && (forall n :: n != cfg.cacheName ==> (n in r.caches <==> n in s.caches))
            && (forall n :: n != cfg.cacheName && n in s.caches ==> r.caches[n] == s.caches[n])
            && r.order == if cfg.cacheName in s.caches then s.order else s.order + [cfg.cacheName]
  {
  }

  /** The local step is all-or-nothing. It succeeds exactly when the resolved URLs are
      distinct and every fetch gave an acceptable response, and then every local asset is
      stored (unless a CDN URL names the same request and overwrote it). When it fails,
      the storage is the one `caches.open` left, only the local URLs were fetched and the
      chain did not complete. */
  lemma LocalAllOrNothing(cfg: Config, sc: Scope, net: Network, s: Storage)
    requires Valid(s)
    ensures var keys := LocalKeys(sc, cfg.local);
            var run := Install(cfg, sc, net, s);
            && (run.completed <==> Distinct(keys) && forall i :: 0 <= i < |keys| ==> FetchedForAddAll(net, keys[i]))
            && (!run.completed ==> run.storage == Open(s, cfg.cacheName) && run.fetches == |cfg.local|)
            && (run.completed ==> forall i :: 0 <= i < |keys| && !(keys[i] in cfg.cdn && Storable(net, keys[i])) ==>
                  CacheMatch(run.storage.caches[cfg.cacheName], keys[i], false) == Some(net(keys[i], Cors).value))
  {
    var keys := LocalKeys(sc, cfg.local);
    var created := Open(s, cfg.cacheName);
    var added := AddAll(created.caches[cfg.cacheName], keys, net);
    AddAllOutcome(created.caches[cfg.cacheName], keys, net);
    if added.Some? {
      forall i | 0 <= i < |keys| && !(keys[i] in cfg.cdn && Storable(net, keys[i])) {
        CdnPutsKeeps(added.value, cfg.cdn, net, keys[i]);
      }
    }
  }

  /** The CDN step runs only after the local step succeeded, fetches every CDN URL once,
      stores each one whose fetch and put succeed and leaves every other request's entry as
      `caches.open` and `addAll` left it; the chain completes whatever the CDN fetches do. */
  lemma CdnBestEffort(cfg: Config, sc: Scope, net: Network, s: Storage)
    requires Valid(s)
    ensures var keys := LocalKeys(sc, cfg.local);
            var run := Install(cfg, sc, net, s);
            var before := Open(s, cfg.cacheName).caches[cfg.cacheName];
            run.completed ==>
              && run.fetches == |cfg.local| + |cfg.cdn|
              && (forall u :: u in cfg.cdn && Storable(net, u) ==>
                    CacheMatch(run.storage.caches[cfg.cacheName], u, false) == Some(net(u, NoCors).value))
              && (forall k :: k !in keys && !(k in cfg.cdn && Storable(net, k)) ==>
                    CacheMatch(run.storage.caches[cfg.cacheName], k, false) == CacheMatch(before, k, false))
  {
    var keys := LocalKeys(sc, cfg.local);
    var before := Open(s, cfg.cacheName).caches[cfg.cacheName];
    var added := AddAll(before, keys, net);
    AddAllOutcome(before, keys, net);
    if added.Some? {
      forall u | u in cfg.cdn && Storable(net, u) {
        CdnPutsStores(added.value, cfg.cdn, net, u);
      }
      forall k | k !in keys && !(k in cfg.cdn && Storable(net, k)) {
        CdnPutsKeeps(added.value, cfg.cdn, net, k);
      }
    }
  }

  /** The shipped manifest resolves to distinct URLs wherever the worker is served, so the
      shipped install completes exactly when every local fetch succeeds acceptably. */
  lemma ShippedInstallCompletes(sc: Scope, net: Network, s: Storage)
    requires Valid(s)
    ensures Install(Sw, sc, net, s).completed <==>
            forall l :: l in LocalUrls ==> FetchedForAddAll(net, Resolve(sc, l))
  {
    assert forall i :: 0 <= i < |LocalUrls| ==> StartsWith(LocalUrls[i], "./");
    assert Distinct(LocalUrls);
    LocalKeysDistinct(sc, LocalUrls);
    LocalAllOrNothing(Sw, sc, net, s);
    assert forall l :: l in LocalUrls ==> exists i :: 0 <= i < |LocalUrls| && LocalUrls[i] == l;
  }

  /** An index page that fetches and a CDN library whose fetch throws: the install
      completes and the new cache holds the index page only. */
  lemma IndexOnlyScenario()
    ensures var cfg := Config(CacheName, CachePrefix, ["./index.html"], ["https://cdn.example/lib.js"]);
            var page := Basic(200, "<html>");
            var net: Network := (u, m) => if u == "https://cdn.example/lib.js" then None else Some(page);
            var run := Install(cfg, Scope("https://a.it", "/"), net, Empty);
            run.completed && run.fetches == 2 && run.storage.order == [CacheName]
            && run.storage.caches[CacheName] == [Entry("https://a.it/index.html", page)]
  {
    var cfg := Config(CacheName, CachePrefix, ["./index.html"], ["https://cdn.example/lib.js"]);
    var page := Basic(200, "<html>");
    var net: Network := (u, m) => if u == "https://cdn.example/lib.js" then None else Some(page);
    var sc := Scope("https://a.it", "/");
    assert StartsWith("./index.html", "./");
    var key := Resolve(sc, "./index.html");
    assert key == "https://a.it/index.html";
    assert key != "https://cdn.example/lib.js" by { assert |key| != |"https://cdn.example/lib.js"|; }
    var keys := LocalKeys(sc, cfg.local);
    assert keys == [key];
    var created := Open(Empty, CacheName);
    assert created.caches[CacheName] == [];
    var added := AddAll([], keys, net);
    assert FetchedForAddAll(net, key);
    assert added == Some(PutAll([], FetchedEntries(keys, net)));
    assert FetchedEntries(keys, net) == [Entry(key, page)];
    assert PutAll([], [Entry(key, page)]) == CachePut([], key, page) by {
      assert [Entry(key, page)][..0] == [];
    }
    assert CachePut([], key, page) == [Entry(key, page)];
    assert !Storable(net, "https://cdn.example/lib.js");
    assert CdnPuts([Entry(key, page)], cfg.cdn, net) == [Entry(key, page)] by {
      assert cfg.cdn[..0] == [];
    }
  }
}

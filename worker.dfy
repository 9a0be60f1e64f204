/**
 The worker's global scope as a state machine: the origin's cache storage, whether
 `skipWaiting` and `clients.claim` have been called, and how many network fetches were
 made. The three event handlers update it in place through the Cache API.
 */
module Worker {
  import opened Net
  import opened Urls
  import opened Settings
  import opened CacheStorage
  import opened Classification
  import opened Installation
  import opened Activation
  import opened Routing

  class ServiceWorker {
    var storage: Storage
    var skipWaitingCalled: bool
    var clientsClaimed: bool
    var fetchCount: nat

    ghost predicate Valid()
      reads this
    {
      CacheStorage.Valid(storage)
    }

    constructor (s: Storage)
      requires CacheStorage.Valid(s)
      ensures Valid() && storage == s
      ensures !skipWaitingCalled && !clientsClaimed && fetchCount == 0
    {
      storage := s;
      skipWaitingCalled, clientsClaimed, fetchCount := false, false, 0;
    }

    /* ------------------------ the APIs the handlers call ------------------------ */

    /** `fetch(url, {mode})`, counted. */
    method Fetch(url: string, mode: Mode, net: Network) returns (r: Option<Response>)
      modifies this`fetchCount
      ensures r == net(url, mode) && fetchCount == old(fetchCount) + 1
    {
      r := net(url, mode);
      fetchCount := fetchCount + 1;
    }

    /** `caches.open(name)` */
    method OpenCache(name: string)
      requires Valid()
      modifies this`storage
      ensures Valid() && storage == Open(old(storage), name)
    {
      storage := Open(storage, name);
    }

    /** `caches.keys()` */
    method CacheNames() returns (names: seq<string>)
      ensures names == storage.order
    {
      names := storage.order;
    }

    /** `caches.delete(name)` */
    method DeleteCache(name: string) returns (existed: bool)
      requires Valid()
      modifies this`storage
      ensures Valid() && storage == Delete(old(storage), name)
      ensures existed == (name in old(storage).caches)
    {
      existed := name in storage.caches;
      storage := Delete(storage, name);
    }

    /** `caches.match(key, {ignoreSearch})` */
    method MatchRequest(key: string, ignoreSearch: bool) returns (r: Option<Response>)
      ensures r == StorageMatch(storage, key, ignoreSearch)
    {
      r := StorageMatch(storage, key, ignoreSearch);
    }

    /** `cache.addAll(urls)` on the cache `name`: one fetch per URL; all responses are
        stored or none. */
    method AddAllTo(name: string, urls: seq<string>, net: Network) returns (ok: bool)
      requires Valid() && name in storage.caches
      modifies this`storage, this`fetchCount
      ensures Valid() && fetchCount == old(fetchCount) + |urls|
      ensures ok == AddAll(old(storage).caches[name], urls, net).Some?
      ensures storage == if ok then old(storage).(caches := old(storage).caches[name := AddAll(old(storage).caches[name], urls, net).value])
                         else old(storage)
    {
      fetchCount := fetchCount + |urls|;
      var added := AddAll(storage.caches[name], urls, net);
      ok := added.Some?;
      if ok {
        storage := storage.(caches := storage.caches[name := added.value]);
      }
    }

    /** `cache.put(key, response)` on the cache `name`; a refused response changes nothing. */
    method PutInto(name: string, key: string, resp: Response) returns (ok: bool)
      requires Valid() && name in storage.caches
      modifies this`storage
      ensures Valid() && ok == PutAccepts(resp)
      ensures storage == if ok then old(storage).(caches := old(storage).caches[name := CachePut(old(storage).caches[name], key, resp)])
                         else old(storage)
    {
      ok := PutAccepts(resp);
      if ok {
        storage := storage.(caches := storage.caches[name := CachePut(storage.caches[name], key, resp)]);
      }
    }

    method SkipWaiting()
      modifies this`skipWaitingCalled
      ensures skipWaitingCalled
    {
      skipWaitingCalled := true;
    }

    method ClaimClients()
      modifies this`clientsClaimed
      ensures clientsClaimed
    {
      clientsClaimed := true;
    }

    /* ------------------------------- the handlers ------------------------------- */

    /** The CDN step of the install handler: each URL is fetched in no-cors mode and put
        into the cache `name`; a failed fetch or put is caught and the next URL goes on. */
    method CacheCdnAssets(name: string, urls: seq<string>, net: Network)
      requires Valid() && name in storage.caches
      modifies this`storage, this`fetchCount
      ensures Valid() && storage.order == old(storage).order
      ensures storage.caches == old(storage).caches[name := CdnPuts(old(storage).caches[name], urls, net)]
      ensures fetchCount == old(fetchCount) + |urls|
    {
      ghost var start := storage;
      assert urls[..0] == [];
      var i := 0;
      while i < |urls|
        invariant 0 <= i <= |urls|
        invariant Valid() && name in storage.caches
        invariant storage.order == start.order
        invariant storage.caches == start.caches[name := CdnPuts(start.caches[name], urls[..i], net)]
        invariant fetchCount == old(fetchCount) + i
      {
        ghost var before := storage.caches[name];
        var resp := Fetch(urls[i], NoCors, net);
        if resp.Some? {
          var stored := PutInto(name, urls[i], resp.value);
        }
        assert storage.caches == start.caches[name := CdnPut(before, urls[i], net)];
        CdnPutsSnoc(start.caches[name], urls, i, net);
        i := i + 1;
      }
      assert urls[..|urls|] == urls;
    }

    /** The local step of the install handler: open the current cache and `addAll` the
        local manifest into it. */
    method CacheLocalAssets(cfg: Config, sc: Scope, net: Network) returns (completed: bool)
      requires Valid()
      modifies this`storage, this`fetchCount
      ensures Valid() && cfg.cacheName in storage.caches
      ensures var created := Open(old(storage), cfg.cacheName);
              var added := AddAll(created.caches[cfg.cacheName], LocalKeys(sc, cfg.local), net);
              && completed == added.Some?
              && storage == (if completed then created.(caches := created.caches[cfg.cacheName := added.value]) else created)
      ensures fetchCount == old(fetchCount) + |cfg.local|
    {
      OpenCache(cfg.cacheName);
      var keys := LocalKeys(sc, cfg.local);
      completed := AddAllTo(cfg.cacheName, keys, net);
    }

    /** The install handler: open the current cache, `addAll` the local manifest, then
        cache the CDN assets and call `skipWaiting` once all have settled. A rejected
        `addAll` is caught and ends the handler. */
    method OnInstall(cfg: Config, sc: Scope, net: Network) returns (completed: bool)
      requires Valid()
      modifies this
      ensures Valid()
      ensures var run := Install(cfg, sc, net, old(storage));
              storage == run.storage && completed == run.completed
              && fetchCount == old(fetchCount) + run.fetches
      ensures skipWaitingCalled == (old(skipWaitingCalled) || completed)
      ensures clientsClaimed == old(clientsClaimed)
    {
      ghost var created := Open(storage, cfg.cacheName);
      ghost var added := AddAll(created.caches[cfg.cacheName], LocalKeys(sc, cfg.local), net);
      InstallStages(cfg, sc, net, storage, created, added);
      completed := CacheLocalAssets(cfg, sc, net);
      if completed {
        CacheCdnAssets(cfg.cacheName, cfg.cdn, net);
        SkipWaiting();
      }
    }

    /** Delete each listed cache in turn. */
    method DeleteCaches(names: seq<string>)
      requires Valid()
      modifies this`storage
      ensures Valid()
      ensures storage == Storage(Keep(old(storage).order, Elements(names)), old(storage).caches - Elements(names))
    {
      ghost var s0 := storage;
      ghost var gone: set<string> := {};
      KeepNothing(s0.order);
      assert s0.caches - {} == s0.caches;
      var i := 0;
      while i < |names|
        invariant 0 <= i <= |names|
        invariant Valid()
        invariant gone == Elements(names[..i])
        invariant storage == Storage(Keep(s0.order, gone), s0.caches - gone)
      {
        DeleteAfter(s0, gone, names[i]);
        var existed := DeleteCache(names[i]);
        ElementsSnoc(names, i);
        gone := gone + {names[i]};
        i := i + 1;
      }
      assert names[..|names|] == names;
    }

    /** The activate handler: delete every stale cache name `caches.keys()` lists, then
        claim the open clients. */
    method OnActivate(cfg: Config)
      requires Valid()
      modifies this
      ensures Valid() && storage == Activated(cfg, old(storage))
      ensures clientsClaimed
      ensures skipWaitingCalled == old(skipWaitingCalled) && fetchCount == old(fetchCount)
    {
      var names := CacheNames();
      var stale := StaleNames(cfg, names);
      assert Elements(stale) == StaleSet(cfg, storage);
      DeleteCaches(stale);
      ClaimClients();
    }

    /** The fetch handler: it reads the storage, calls the network at most once and never
        writes a cache. */
    method OnFetch(cfg: Config, r: Request, net: Network) returns (h: Handling)
      modifies this`fetchCount
      ensures storage == old(storage)
      ensures h == Route(cfg, storage, r, net).handling
      ensures fetchCount == old(fetchCount) + Route(cfg, storage, r, net).fetches
    {
      var kind := Classify(cfg, r);
      if kind == CdnAsset {
        var cached := MatchRequest(Href(r), true);
        if cached.Some? {
          h := RespondWith(FromCache(cached.value));
        } else {
          var resp := Fetch(Href(r), NoCors, net);
          h := RespondWith(if resp.Some? then FromNetwork(resp.value) else NoResponse);
        }
      } else if kind == LocalAsset {
        var cached := MatchRequest(Href(r), false);
        if cached.Some? {
          h := RespondWith(FromCache(cached.value));
        } else {
          var resp := Fetch(Href(r), r.mode, net);
          h := RespondWith(if resp.Some? then FromNetwork(resp.value) else Failed);
        }
      } else {
        h := PassThrough;
      }
    }
  }
}

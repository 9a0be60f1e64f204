# Offline cache service worker for the claims PWA, in Dafny

This project models the service worker `sw.js` of the "sinistri" (insurance claims)
progressive web app. The worker keeps a versioned cache of the application shell and its
CDN libraries and serves requests from that cache. It handles three events:

- **install** opens the cache `sinistri-pwa-cache-v12`. It then `addAll`s the five local
  shell assets, which is all-or-nothing. Next each of the six CDN libraries gets a
  `no-cors` fetch and a `put`, and one library's failure is caught without stopping the
  others. `skipWaiting` is called once the whole chain has succeeded.
- **activate** lists the origin's caches and deletes every one whose name starts with
  `sinistri-pwa-cache-` but is not the current version. It then claims the open clients.
- **fetch** sorts each request into one of three classes:
  - a CDN asset: the full URL starts with a CDN prefix;
  - a local asset: the pathname, rewritten from `/x` to `./x`, is in the local manifest;
  - unmanaged.

  CDN assets are served cache-first, with the lookup ignoring the query string and a
  `no-cors` fetch on a miss. Local assets are served cache-first with an exact lookup,
  and the request itself is forwarded on a miss. Unmanaged requests are left to the
  browser. Nothing fetched here is stored.

The model is laid out as follows:

- `net.dfy`: responses, with an opaque response whose status reads as 0; request modes;
  the network as a function from URL and mode to an optional response.
- `urls.dfy`: the request URL, given already split into origin, pathname and query; the
  `startsWith` test; removing the query; the pathname rewrite.
- `settings.dfy`: the worker's configuration, with the shipped cache name, namespace
  prefix and both URL lists as constants.
- `cache_storage.dfy`: the origin's cache storage. It is a value: an ordered list of
  named caches, each an ordered list of request/response entries. It carries the
  operations of the Cache API the worker uses: `caches.open`, `caches.delete`,
  `caches.match`, `cache.match`, `cache.put` and `cache.addAll`. They follow the
  Service Workers specification:
  - `put` replaces the entries for the same request and appends;
  - `match` answers with the oldest matching entry, taking the caches in creation order;
  - `addAll` rejects if a fetch fails, a status is outside 200-299 or is 206, or a
    request repeats;
  - `put` rejects a 206 response.
- `classification.dfy`, `activation.dfy`, `installation.dfy` and `routing.dfy`: the
  three handlers as functions over that state, each with the properties it keeps.
- `worker.dfy`: the worker as an object. The storage, the `skipWaiting` and
  `clients.claim` flags and a fetch counter are fields. The handlers are methods that
  update those fields through one method per Cache API call. Each handler is proved
  to leave exactly the state the corresponding function describes.

Every handler takes the configuration as a parameter. The lemmas about the shipped
values (`Sw`) instantiate it.

Three behaviours of the code are worth knowing:

- **A failed `addAll` does not fail the install.** The rejection is caught at
  sw.js:53-55, so the install promise resolves. The new cache, already created by
  `caches.open`, stays in place. No CDN asset is fetched and `skipWaiting` is not called
  (`LocalAllOrNothing`).
- **Local assets are only recognised from the origin's root.** Install resolves
  `./index.html` against the worker's own directory. Routing, however, compares the
  rewritten pathname `./…` with the manifest verbatim. A local asset is therefore only
  ever routed to the cache when the worker is served from `/`
  (`LocalRecognisedOnlyAtRoot`).
- **A failed fetch fails in two ways.** The CDN branch catches a fetch error and
  resolves `respondWith` with `undefined` (the reply `NoResponse`). A failed local fetch
  rejects (the reply `Failed`). The model keeps the two apart, but the page sees a failed
  fetch either way: section "Handle Fetch" of the Service Workers specification turns a
  `respondWith` value that is not a Response into a network error, just as it does a
  rejection.

## Model

| member | source | states |
|---|---|---|
| Urls.StripQuery | sw.js:92 | the URL without its query is a prefix of it with no `?`, and is all of it unless a `?` follows |
| Urls.StripQueryAppend | sw.js:92 | removing the query of a query-free URL with any `?…` appended gives back that URL |
| Urls.PrefixIgnoresQuery | sw.js:82 | a query-free prefix matches a URL with a query exactly when it matches the URL without it |
| Urls.HrefWithoutQuery | sw.js:92 | the query-less URL of a well-formed request is its origin and pathname |
| Urls.NormalizePathInverse | sw.js:85 | the rewrite of a pathname `/x` is `./x` and gives the pathname back once the dot is dropped |
| CacheStorage.CacheMatch | sw.js:118 | a cache answers exactly when some entry matches the key, and then with the response of a matching entry |
| CacheStorage.CacheMatchIsOldest | sw.js:118 | the answer is the response of the first matching entry |
| CacheStorage.CacheMatchIgnoringQuery | sw.js:92 | two keys equal up to their queries get the same answer from a query-ignoring lookup |
| CacheStorage.MatchAll | sw.js:92 | the storage-wide lookup misses exactly when every existing cache misses, and otherwise answers with some cache's answer |
| CacheStorage.MatchAllFirst | sw.js:92 | the storage-wide lookup answers with the first cache, in creation order, that holds a matching entry |
| CacheStorage.StorageMatchHits | sw.js:118 | `caches.match` hits exactly when some entry of some cache matches |
| CacheStorage.MatchAllIgnoringQuery | sw.js:92 | two keys equal up to their queries get the same storage-wide query-ignoring answer |
| CacheStorage.Without | sw.js:40 | dropping a request's entries keeps exactly the other entries |
| CacheStorage.MatchWithoutAny | sw.js:40 | dropping a request's entries keeps the others in their order, so any lookup, query-ignoring or exact, that none of the dropped entries answers is unchanged |
| CacheStorage.CachePutIgnoring | sw.js:40 | after `put`, a query-ignoring lookup still answers with the older matching entry, and with the new response only if no older entry matches |
| CacheStorage.CachePutLookup | sw.js:40 | after `put`, the key put is answered with the new response and every other key as before |
| CacheStorage.PutAllKeeps | sw.js:30 | storing a batch leaves every request it does not name unchanged |
| CacheStorage.PutAllStores | sw.js:30 | after storing a batch of distinct requests, each is answered with its own response |
| CacheStorage.AddAllEffect | sw.js:30 | storing the fetched batch answers each URL with its fetched response and leaves every other request |
| CacheStorage.AddAllOutcome | sw.js:30 | `addAll` succeeds exactly when the URLs are distinct and every fetch gave an acceptable response; then every URL is stored and nothing else changes |
| CacheStorage.Open | sw.js:26 | `caches.open` reuses an existing cache or appends an empty one, and changes no other cache |
| CacheStorage.Keep | sw.js:65-70 | the names kept are exactly those not removed, and stay distinct |
| CacheStorage.KeepOrder | sw.js:65-70 | two names that are both kept appear in the result in the order they had |
| CacheStorage.Delete | sw.js:70 | `caches.delete` removes exactly that cache, keeps every other with its contents, and keeps the storage well formed |
| CacheStorage.DeleteAfter | sw.js:68-70 | deleting one more name from storage with some names already deleted is the same as deleting them all together |
| Classification.SomePrefix | sw.js:82 | `some(startsWith)` holds exactly when some listed prefix starts the URL |
| Classification.Classify | sw.js:82-87 | a request is a CDN asset exactly when some CDN prefix starts its full URL, and a local asset exactly when none does and its rewritten pathname is in the manifest |
| Classification.CdnWinsOverLocal | sw.js:90-116 | a request in both manifests takes the CDN branch |
| Classification.LocalByRewrittenPath | sw.js:85-87 | a pathname `/x` with no CDN match is local exactly when `./x` is in the manifest |
| Classification.ClassifyIgnoresQuery | sw.js:82-87 | with query-free CDN prefixes, changing a request's query never changes its class |
| Classification.ShorterThanShippedCdn | sw.js:12-20 | no URL shorter than 28 characters matches a shipped CDN prefix |
| Classification.ShippedRootIsLocal | sw.js:85-87 | `/` on a short origin (`https://a.it`) is a local asset of the shipped worker |
| Classification.ShippedIndexIsLocal | sw.js:85-87 | `/index.html` on `https://a.it`, with or without a query, is a local asset of the shipped worker |
| Classification.ShippedApiIsUnmanaged | sw.js:130-132 | `/api/claims` on `https://a.it` is passed through by the shipped worker |
| Classification.ShippedDexieIsCdn | sw.js:14 | the Dexie script with any query is a CDN asset of the shipped worker |
| Activation.StaleNames | sw.js:65-67 | the filtered names are exactly the listed names in the namespace other than the current one |
| Activation.Activated | sw.js:63-72 | removing the stale caches keeps the storage well formed |
| Activation.ActivationSurvivors | sw.js:65-70 | exactly the current cache and the names outside the namespace survive, each with its contents |
| Activation.ActivationIdempotent | sw.js:65-70 | after activation nothing is stale, and a second activation changes nothing |
| Activation.OnlyCurrentRemains | sw.js:63-72 | once the current cache exists, it is the only cache of the namespace left after activation |
| Activation.ShippedUpgradeScenario | sw.js:1 | with v11 and v12 present, activating v12 leaves only v12, with its contents |
| Installation.ResolveInjective | sw.js:30 | two `./` manifest entries resolve to the same URL only when they are equal |
| Installation.LocalRecognisedOnlyAtRoot | sw.js:85-87 | the rewritten pathname of an installed local URL equals its manifest entry exactly when the worker's directory is `/` |
| Installation.LocalKeysDistinct | sw.js:4-10 | a manifest of distinct `./` entries resolves to distinct URLs, so `addAll` never rejects it for a repeated request |
| Installation.CdnPutLookup | sw.js:37-44 | one CDN step stores its URL exactly when the fetch succeeded and `put` accepts the response, and touches no other request |
| Installation.CdnPutsStores | sw.js:33-46 | every CDN URL whose fetch and put succeed ends up stored with its response |
| Installation.CdnPutsKeeps | sw.js:33-46 | a request no CDN URL stores keeps its entry, whatever the other CDN fetches do |
| Installation.Install | sw.js:26-55 | the install leaves the storage well formed and the current cache present, whatever the network does |
| Installation.InstallTouchesOnlyCurrent | sw.js:26 | the install changes no cache other than the current one, and at most appends the current name |
| Installation.LocalAllOrNothing | sw.js:30 | the install completes exactly when the local URLs are distinct and all fetch acceptably; on failure the storage is what `caches.open` left and only local fetches happened; on success every local asset is stored unless a CDN URL stored the same request |
| Installation.CdnBestEffort | sw.js:33-52 | a completed install fetches every CDN URL once and stores each that succeeds; every other request keeps its entry |
| Installation.ShippedInstallCompletes | sw.js:4-10 | wherever the shipped worker is served, its install completes exactly when every local fetch succeeds acceptably |
| Installation.IndexOnlyScenario | sw.js:26-55 | with a page that fetches and a library that fails, the install completes with two fetches and a cache of the page alone |
| Routing.Route | sw.js:90-128 | the fetch handler makes at most one network fetch |
| Routing.PassThroughExactlyUnmanaged | sw.js:129-132 | `respondWith` is skipped exactly for unmanaged requests, which need no fetch and are independent of storage and network |
| Routing.CdnRouting | sw.js:90-113 | a CDN hit is served from the cache with no fetch; a miss makes one no-cors fetch and answers with its response or no response |
| Routing.LocalRouting | sw.js:116-128 | a local hit is served from the cache with no fetch; a miss forwards the request once, and a failed fetch rejects |
| Routing.CdnLookupIgnoresQuery | sw.js:92 | the CDN lookup of a request gives the same answer with any query |
| Routing.LocalQueryMisses | sw.js:118 | with query-free keys cached, a local request with a query misses and goes to the network |
| Routing.InstalledCdnAssetServedFromCache | sw.js:90-97 | after install and activate, a stored CDN asset is served from the cache, with any query and no fetch |
| Routing.InstalledCdnAssetSurvives | sw.js:40 | a CDN asset stored by install is still in the current cache after activation |
| Routing.CdnHit | sw.js:90-97 | a CDN request whose query-less URL is cached is served from the cache with no fetch |
| Routing.HitWhenCached | sw.js:92-123 | a managed request found by its lookup is served from the cache with no fetch |
| Routing.RootKey | sw.js:85 | a manifest entry resolved at the root is the URL of the request for its rewritten pathname |
| Routing.InstalledLocalAssetServedFromCache | sw.js:116-123 | after install from the root and activate, a stored local asset requested by its pathname is served from the cache with no fetch |
| Routing.LocalHit | sw.js:116-123 | a local asset cached under its root URL is served from the cache with no fetch |
| Routing.InstalledLocalAssetSurvives | sw.js:30 | a local asset stored by install is still in the current cache after activation |
| Worker.ServiceWorker.Fetch | sw.js:38 | a fetch returns the network's answer and counts one fetch |
| Worker.ServiceWorker.OpenCache | sw.js:26 | the storage becomes the one `caches.open` gives |
| Worker.ServiceWorker.CacheNames | sw.js:63 | `caches.keys()` lists the cache names in creation order |
| Worker.ServiceWorker.DeleteCache | sw.js:70 | the cache is deleted and the result says whether it existed |
| Worker.ServiceWorker.MatchRequest | sw.js:92 | the lookup returns the storage-wide match |
| Worker.ServiceWorker.AddAllTo | sw.js:30 | counts one fetch per URL and stores the `addAll` batch into the named cache when it succeeds, leaving the storage alone otherwise |
| Worker.ServiceWorker.PutInto | sw.js:40 | stores the response into the named cache when `put` accepts it, and otherwise leaves the storage alone |
| Worker.ServiceWorker.SkipWaiting | sw.js:51 | records the `skipWaiting` call |
| Worker.ServiceWorker.ClaimClients | sw.js:73 | records the `clients.claim` call |
| Worker.ServiceWorker.CacheCdnAssets | sw.js:33-46 | the loop over the CDN URLs fetches each once and leaves the cache as the CDN puts in order give |
| Worker.ServiceWorker.CacheLocalAssets | sw.js:26-30 | opens the current cache and `addAll`s the resolved manifest into it, counting the local fetches |
| Worker.ServiceWorker.OnInstall | sw.js:23-57 | the install handler leaves the storage, completion and fetch count of the install function, and calls `skipWaiting` exactly when it completes |
| Worker.ServiceWorker.DeleteCaches | sw.js:64-72 | deleting each listed name in turn removes exactly those caches |
| Worker.ServiceWorker.OnActivate | sw.js:60-75 | the activate handler leaves the storage of the activation function and claims the clients |
| Worker.ServiceWorker.OnFetch | sw.js:78-133 | the fetch handler leaves the storage unchanged, handles the request as the routing function does, and counts its fetches |

## Left out

- Event plumbing (`addEventListener`, `waitUntil`, `respondWith` as calls), logging and
  the console: the handlers are modelled by what they compute and change.
- URL parsing: a request arrives already split into origin, pathname and query. The
  scheme, host and fragment of the URL parser are not modelled, and `WellFormed` stands
  for what a parsed URL guarantees about `?`.
- Request method, headers and `Vary`: every request is treated as a GET whose cache key
  is its URL.
- Concurrency: the CDN fetches and puts of `Promise.all` are taken one after another in
  list order. Different URLs write different keys, so the order only matters if the
  list repeats a URL or holds two URLs equal up to their query (their query-ignoring
  lookups then answer with the put that happened first, `CachePutIgnoring`; under
  `Promise.all`, whichever lands first). The shipped list does neither.
- The network is a deterministic function of URL and mode. Fetch errors, timeouts and
  retries are all an absent response.
- Storage quota and other storage errors are not modelled:
  - a `put` or `addAll` fails only for the reasons the Cache API itself gives;
  - `caches.delete` always succeeds, so the rejection path of the activate handler's
    `Promise.all` (which would skip `clients.claim`) is not modelled.
- `self.clients.claim()` and `self.skipWaiting()` are recorded as flags. Their effect on
  the browser's client and worker lifecycle is outside the model.
- Activation.Activated: its own contract only promises a well-formed result. Which
  caches survive is stated by `ActivationSurvivors`, and `OnActivate` is tied to the
  function.
- Installation.Install: its own contract only promises a well-formed storage holding the
  current cache. The all-or-nothing local step, the rejection path and the local fetch
  count are stated by `LocalAllOrNothing`; the best-effort CDN step and the full fetch
  count by `CdnBestEffort`; that no other cache changes by `InstallTouchesOnlyCurrent`.
  `OnInstall` is tied to the function.
- Routing.Route: its own contract only bounds the fetch count. The behaviour of each
  branch is stated by `CdnRouting`, `LocalRouting` and `PassThroughExactlyUnmanaged`.
- Activation.StaleNames: states which names the filter keeps but not that they keep
  their order. The deletions that follow do not depend on it.

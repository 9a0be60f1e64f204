/**
 An in-memory model of the Cache and CacheStorage interfaces (sections 5.4 and 5.5 of the
 W3C Service Workers specification): a cache is an ordered list of request/response
 entries, and the storage is an ordered map from cache name to cache.
 */
module CacheStorage {
  import opened Net
  import opened Urls
  import opened Settings

  /** One request/response pair; the request is identified by its URL. */
  datatype Entry = Entry(key: string, response: Response)

  /** A cache's request/response list, oldest entry first. */
  type Cache = seq<Entry>

  /** All caches of the origin: their names in creation order, and their contents. */
  datatype Storage = Storage(order: seq<string>, caches: map<string, Cache>)

  /** No name occurs twice. */
  predicate Distinct(xs: seq<string>) {
    forall i, j :: 0 <= i < j < |xs| ==> xs[i] != xs[j]
  }

  ghost predicate Valid(s: Storage) {
    Distinct(s.order) && forall n :: n in s.caches <==> n in s.order
  }

  const Empty: Storage := Storage([], map[])

  /* -------------------------------- lookups -------------------------------- */

  /** Does a cached entry answer a query for `key`? With `ignoreSearch` the queries of both
      URLs are disregarded. */
  predicate EntryMatches(e: Entry, key: string, ignoreSearch: bool) {
    if ignoreSearch then StripQuery(e.key) == StripQuery(key) else e.key == key
  }

  /** `cache.match(key, {ignoreSearch})`: the response of a matching entry, if any. */
  function CacheMatch(c: Cache, key: string, ignoreSearch: bool): (r: Option<Response>)
    ensures r.None? <==> forall i :: 0 <= i < |c| ==> !EntryMatches(c[i], key, ignoreSearch)
    ensures r.Some? ==> exists i :: 0 <= i < |c| && EntryMatches(c[i], key, ignoreSearch) && r.value == c[i].response
  {
    if c == [] then None
    else if EntryMatches(c[0], key, ignoreSearch) then Some(c[0].response)
    else
      assert forall i :: 1 <= i < |c| ==> c[i] == c[1..][i - 1];
      CacheMatch(c[1..], key, ignoreSearch)
  }

  /** The entry `cache.match` answers with is the oldest one that matches. */
  lemma {:induction false} CacheMatchIsOldest(c: Cache, key: string, ignoreSearch: bool, i: nat)
    requires i < |c| && EntryMatches(c[i], key, ignoreSearch)
    requires forall j :: 0 <= j < i ==> !EntryMatches(c[j], key, ignoreSearch)
    ensures CacheMatch(c, key, ignoreSearch) == Some(c[i].response)
  {
    if i > 0 {
      CacheMatchIsOldest(c[1..], key, ignoreSearch, i - 1);
    }
  }

  /** Two keys equal once their queries are removed get the same answer from an
      `ignoreSearch` lookup. */
  lemma {:induction false} CacheMatchIgnoringQuery(c: Cache, k1: string, k2: string)
    requires StripQuery(k1) == StripQuery(k2)
    ensures CacheMatch(c, k1, true) == CacheMatch(c, k2, true)
  {
    if c != [] {
      CacheMatchIgnoringQuery(c[1..], k1, k2);
    }
  }

  /** The first hit in `names` order among the caches that exist. */
  function MatchAll(names: seq<string>, caches: map<string, Cache>, key: string, ignoreSearch: bool): (r: Option<Response>)
    ensures r.None? <==> forall n :: n in names && n in caches ==> CacheMatch(caches[n], key, ignoreSearch).None?
    ensures r.Some? ==> exists n :: n in names && n in caches && CacheMatch(caches[n], key, ignoreSearch) == r
  {
    if names == [] then None
    else if names[0] in caches && CacheMatch(caches[names[0]], key, ignoreSearch).Some? then
      CacheMatch(caches[names[0]], key, ignoreSearch)
    else
      assert forall n :: n in names ==> n == names[0] || n in names[1..];
      MatchAll(names[1..], caches, key, ignoreSearch)
  }

  /** The answer comes from the first cache in `names` order, among those that exist, that
      holds a matching entry. */
  lemma {:induction false} MatchAllFirst(names: seq<string>, caches: map<string, Cache>, key: string, ignoreSearch: bool, j: nat)
    requires j < |names| && names[j] in caches && CacheMatch(caches[names[j]], key, ignoreSearch).Some?
    requires forall i :: 0 <= i < j && names[i] in caches ==> CacheMatch(caches[names[i]], key, ignoreSearch).None?
    ensures MatchAll(names, caches, key, ignoreSearch) == CacheMatch(caches[names[j]], key, ignoreSearch)
  {
    if j > 0 {
      assert forall i :: 0 <= i < j - 1 ==> names[1..][i] == names[i + 1];
      MatchAllFirst(names[1..], caches, key, ignoreSearch, j - 1);
    }
  }

  /** `caches.match(key, {ignoreSearch})`: every cache is searched, oldest cache first, not
      only the current version's. */
  function StorageMatch(s: Storage, key: string, ignoreSearch: bool): Option<Response> {
    MatchAll(s.order, s.caches, key, ignoreSearch)
  }

  /** A lookup of the whole storage hits exactly when some cache holds a matching entry. */
  lemma StorageMatchHits(s: Storage, key: string, ignoreSearch: bool)
    requires Valid(s)
    ensures StorageMatch(s, key, ignoreSearch).Some? <==>
            exists n, i :: n in s.caches && 0 <= i < |s.caches[n]| && EntryMatches(s.caches[n][i], key, ignoreSearch)
  {
    if exists n, i :: n in s.caches && 0 <= i < |s.caches[n]| && EntryMatches(s.caches[n][i], key, ignoreSearch) {
      var n, i :| n in s.caches && 0 <= i < |s.caches[n]| && EntryMatches(s.caches[n][i], key, ignoreSearch);
      assert n in s.order && CacheMatch(s.caches[n], key, ignoreSearch).Some?;
    }
  }

  /** Both `ignoreSearch` lookups of two keys equal up to their queries agree. */
  lemma {:induction false} MatchAllIgnoringQuery(names: seq<string>, caches: map<string, Cache>, k1: string, k2: string)
    requires StripQuery(k1) == StripQuery(k2)
    ensures MatchAll(names, caches, k1, true) == MatchAll(names, caches, k2, true)
  {
    if names != [] {
      if names[0] in caches {
        CacheMatchIgnoringQuery(caches[names[0]], k1, k2);
      }
      MatchAllIgnoringQuery(names[1..], caches, k1, k2);
    }
  }

  /* ------------------------------ cache writes ------------------------------ */

  /** The entries whose key is not exactly `key`, in their order. */
  function Without(c: Cache, key: string): (r: Cache)
    ensures forall e :: e in r <==> e in c && e.key != key
  {
    if c == [] then []
    else
      assert forall e :: e in c ==> e == c[0] || e in c[1..];
      (if c[0].key == key then [] else [c[0]]) + Without(c[1..], key)
  }

  /** Dropping a request's entries changes no lookup that none of those entries answers:
      as the kept entries stay in their order, the oldest match is still the same one. */
  lemma {:induction false} MatchWithoutAny(c: Cache, key: string, k: string, ignoreSearch: bool)
    requires forall e :: e in c && e.key == key ==> !EntryMatches(e, k, ignoreSearch)
    ensures CacheMatch(Without(c, key), k, ignoreSearch) == CacheMatch(c, k, ignoreSearch)
  {
    if c != [] {
      var rest := Without(c[1..], key);
      assert forall e :: e in c[1..] ==> e in c;
      MatchWithoutAny(c[1..], key, k, ignoreSearch);
      if c[0].key == key {
        assert Without(c, key) == rest;
        assert !EntryMatches(c[0], k, ignoreSearch);
      } else {
        var w := [c[0]] + rest;
        assert Without(c, key) == w;
        assert w[0] == c[0] && w[1..] == rest;
      }
    }
  }

  lemma MatchWithout(c: Cache, key: string, k: string)
    requires k != key
    ensures CacheMatch(Without(c, key), k, false) == CacheMatch(c, k, false)
  {
    MatchWithoutAny(c, key, k, false);
  }

  lemma {:induction false} MatchAppend(c: Cache, e: Entry, k: string, ignoreSearch: bool)
    ensures CacheMatch(c + [e], k, ignoreSearch) ==
            if CacheMatch(c, k, ignoreSearch).Some? then CacheMatch(c, k, ignoreSearch)
            else if EntryMatches(e, k, ignoreSearch) then Some(e.response)
            else None
  {
    if c == [] {
      assert c + [e] == [e];
      assert [e][1..] == [];
    } else {
      assert (c + [e])[1..] == c[1..] + [e];
      MatchAppend(c[1..], e, k, ignoreSearch);
    }
  }

  /** Whether `cache.put` accepts a response: a partial (206) response is refused. */
  predicate PutAccepts(r: Response) {
    Status(r) != 206
  }

  /** `cache.put(key, response)`: entries for the same request are replaced, every other
      entry stays. */
  function CachePut(c: Cache, key: string, resp: Response): Cache {
    Without(c, key) + [Entry(key, resp)]
  }

  /** After a put, the request put is answered with the new response and every other
      request as before. */
  lemma CachePutLookup(c: Cache, key: string, resp: Response, k: string)
    ensures CacheMatch(CachePut(c, key, resp), k, false) == if k == key then Some(resp) else CacheMatch(c, k, false)
  {
    var kept := Without(c, key);
    MatchAppend(kept, Entry(key, resp), k, false);
    if k == key {
      assert CacheMatch(kept, key, false).None?;
    } else {
      MatchWithout(c, key, k);
    }
  }

  /** A query-ignoring lookup after a put: when no entry the put replaces matches, the
      older entries still answer first, and the new entry answers only if none does. */
  lemma CachePutIgnoring(c: Cache, key: string, resp: Response, k: string)
    requires forall e :: e in c && e.key == key ==> !EntryMatches(e, k, true)
    ensures CacheMatch(CachePut(c, key, resp), k, true) ==
            if CacheMatch(c, k, true).Some? then CacheMatch(c, k, true)
            else if EntryMatches(Entry(key, resp), k, true) then Some(resp)
            else None
  {
    MatchWithoutAny(c, key, k, true);
    MatchAppend(Without(c, key), Entry(key, resp), k, true);
  }

  predicate DistinctKeys(es: seq<Entry>) {
    forall i, j :: 0 <= i < j < |es| ==> es[i].key != es[j].key
  }

  /** The request URLs of a batch. */
  function KeysOf(es: seq<Entry>): (ks: seq<string>)
    ensures |ks| == |es| && forall i :: 0 <= i < |es| ==> ks[i] == es[i].key
  {
    seq(|es|, i requires 0 <= i < |es| => es[i].key)
  }

  /** The puts of a batch, applied in order. */
  function PutAll(c: Cache, es: seq<Entry>): Cache {
    if es == [] then c
    else CachePut(PutAll(c, es[..|es| - 1]), es[|es| - 1].key, es[|es| - 1].response)
  }

  /** A batch leaves the lookup of every request it does not name unchanged. */
  lemma {:induction false} PutAllKeeps(c: Cache, es: seq<Entry>, k: string)
    requires k !in KeysOf(es)
    ensures CacheMatch(PutAll(c, es), k, false) == CacheMatch(c, k, false)
  {
    if es != [] {
      var init := es[..|es| - 1];
      assert KeysOf(init) == KeysOf(es)[..|es| - 1];
      PutAllKeeps(c, init, k);
      CachePutLookup(PutAll(c, init), es[|es| - 1].key, es[|es| - 1].response, k);
    }
  }

  /** After a batch of distinct requests, each one is answered with its own response. */
  lemma {:induction false} PutAllStores(c: Cache, es: seq<Entry>, i: nat)
    requires DistinctKeys(es) && i < |es|
    ensures CacheMatch(PutAll(c, es), es[i].key, false) == Some(es[i].response)
  {
    var init := es[..|es| - 1];
    CachePutLookup(PutAll(c, init), es[|es| - 1].key, es[|es| - 1].response, es[i].key);
    if i < |es| - 1 {
      assert init[i] == es[i];
      assert es[i].key != es[|es| - 1].key;
      PutAllStores(c, init, i);
    }
  }

  /** Whether `cache.addAll` accepts a fetched response: an ok (2xx) status other than 206. */
  predicate AddAllAccepts(r: Response) {
    200 <= Status(r) <= 299 && Status(r) != 206
  }

  /** The fetch `cache.addAll` makes for a URL succeeded with an acceptable response. */
  predicate FetchedForAddAll(net: Network, url: string) {
    net(url, Cors).Some? && AddAllAccepts(net(url, Cors).value)
  }

  /** The request/response pairs `cache.addAll` has fetched, in request order. */
  function FetchedEntries(urls: seq<string>, net: Network): (es: seq<Entry>)
    requires forall i :: 0 <= i < |urls| ==> FetchedForAddAll(net, urls[i])
    ensures |es| == |urls|
    ensures forall i :: 0 <= i < |urls| ==> FetchedForAddAll(net, urls[i]) && es[i] == Entry(urls[i], net(urls[i], Cors).value)
  {
    seq(|urls|, i requires 0 <= i < |urls| && FetchedForAddAll(net, urls[i]) => Entry(urls[i], net(urls[i], Cors).value))
  }

  /** Storing the fetched pairs answers each URL with its fetched response and leaves
      every other request as it was. */
  lemma AddAllEffect(c: Cache, urls: seq<string>, net: Network, es: seq<Entry>)
    requires DistinctKeys(es) && KeysOf(es) == urls
    requires forall i :: 0 <= i < |urls| ==> FetchedForAddAll(net, urls[i]) && es[i] == Entry(urls[i], net(urls[i], Cors).value)
    ensures forall i :: 0 <= i < |urls| ==> CacheMatch(PutAll(c, es), urls[i], false) == Some(es[i].response)
    ensures forall k :: k !in urls ==> CacheMatch(PutAll(c, es), k, false) == CacheMatch(c, k, false)
  {
    forall i | 0 <= i < |urls| ensures CacheMatch(PutAll(c, es), urls[i], false) == Some(es[i].response) {
      PutAllStores(c, es, i);
    }
    forall k | k !in urls ensures CacheMatch(PutAll(c, es), k, false) == CacheMatch(c, k, false) {
      PutAllKeeps(c, es, k);
    }
  }

  /** `cache.addAll(urls)`: all URLs are fetched; either every response is stored, or (one
      fetch failed, one response was not acceptable, or a URL is repeated) nothing is. */
  function AddAll(c: Cache, urls: seq<string>, net: Network): Option<Cache> {
    if Distinct(urls) && forall i :: 0 <= i < |urls| ==> FetchedForAddAll(net, urls[i])
    then Some(PutAll(c, FetchedEntries(urls, net)))
    else None
  }

  /** `addAll` succeeds exactly when the URLs are distinct and every fetch gave an
      acceptable response; then each URL is answered with its fetched response and every
      other request keeps its entry. */
  lemma AddAllOutcome(c: Cache, urls: seq<string>, net: Network)
    ensures var r := AddAll(c, urls, net);
            && (r.Some? <==> Distinct(urls) && forall i :: 0 <= i < |urls| ==> FetchedForAddAll(net, urls[i]))
            && (r.Some? ==> forall i :: 0 <= i < |urls| ==> CacheMatch(r.value, urls[i], false) == Some(net(urls[i], Cors).value))
            && (r.Some? ==> forall k :: k !in urls ==> CacheMatch(r.value, k, false) == CacheMatch(c, k, false))
  {
    if Distinct(urls) && forall i :: 0 <= i < |urls| ==> FetchedForAddAll(net, urls[i]) {
      var es := FetchedEntries(urls, net);
      assert DistinctKeys(es) && KeysOf(es) == urls;
      AddAllEffect(c, urls, net, es);
    }
  }

  /* ---------------------------- storage updates ---------------------------- */

  /** `caches.open(name)`: an existing cache is reused; otherwise an empty one is created
      after all the others. */
  function Open(s: Storage, name: string): (r: Storage)
    requires Valid(s)
    ensures Valid(r) && name in r.caches
    ensures r.caches[name] == if name in s.caches then s.caches[name] else []
    ensures forall n :: n != name ==> (n in r.caches <==> n in s.caches)
    ensures forall n :: n != name && n in s.caches ==> r.caches[n] == s.caches[n]
    ensures r.order == if name in s.caches then s.order else s.order + [name]
  {
    if name in s.caches then s else Storage(s.order + [name], s.caches[name := []])
  }

  /** The names of `xs` not in `gone`, in their order. */
  function Keep(xs: seq<string>, gone: set<string>): (r: seq<string>)
    ensures forall x :: x in r <==> x in xs && x !in gone
    ensures Distinct(xs) ==> Distinct(r)
  {
    if xs == [] then []
    else
      var rest := Keep(xs[1..], gone);
      assert forall x :: x in xs ==> x == xs[0] || x in xs[1..];
      assert Distinct(xs) ==> xs[0] !in xs[1..];
      if xs[0] in gone then rest
      else
        assert Distinct(xs) ==> forall j :: 0 <= j < |rest| ==> ([xs[0]] + rest)[j + 1] == rest[j];
        [xs[0]] + rest
  }

  /** Any two names that are kept stay in the order they had. */
  lemma {:induction false} KeepOrder(xs: seq<string>, gone: set<string>, i: nat, j: nat)
    requires i < j < |xs| && xs[i] !in gone && xs[j] !in gone
    ensures exists a, b :: 0 <= a < b < |Keep(xs, gone)| && Keep(xs, gone)[a] == xs[i] && Keep(xs, gone)[b] == xs[j]
  {
    var rest := Keep(xs[1..], gone);
    if i == 0 {
      assert xs[j] == xs[1..][j - 1];
      assert xs[j] in rest;
      var b :| 0 <= b < |rest| && rest[b] == xs[j];
      assert Keep(xs, gone) == [xs[0]] + rest;
      assert Keep(xs, gone)[0] == xs[i] && Keep(xs, gone)[b + 1] == xs[j];
    } else {
      KeepOrder(xs[1..], gone, i - 1, j - 1);
      var a, b :| 0 <= a < b < |rest| && rest[a] == xs[1..][i - 1] && rest[b] == xs[1..][j - 1];
      if xs[0] in gone {
        assert Keep(xs, gone) == rest;
        assert Keep(xs, gone)[a] == xs[i] && Keep(xs, gone)[b] == xs[j];
      } else {
        assert Keep(xs, gone) == [xs[0]] + rest;
        assert Keep(xs, gone)[a + 1] == xs[i] && Keep(xs, gone)[b + 1] == xs[j];
      }
    }
  }

  /** The names listed in `xs`. */
  function Elements(xs: seq<string>): (r: set<string>)
    ensures forall x :: x in r <==> x in xs
  {
    set x | x in xs
  }

  lemma ElementsSnoc(xs: seq<string>, i: nat)
    requires i < |xs|
    ensures Elements(xs[..i + 1]) == Elements(xs[..i]) + {xs[i]}
  {
    assert xs[..i + 1] == xs[..i] + [xs[i]];
  }

  lemma {:induction false} KeepTwice(xs: seq<string>, a: set<string>, b: set<string>)
    ensures Keep(Keep(xs, a), b) == Keep(xs, a + b)
  {
    if xs != [] {
      KeepTwice(xs[1..], a, b);
      if xs[0] !in a {
        assert Keep(xs, a) == [xs[0]] + Keep(xs[1..], a);
        assert ([xs[0]] + Keep(xs[1..], a))[1..] == Keep(xs[1..], a);
      }
    }
  }

  /** `caches.delete(name)`: the cache and its name are gone, nothing else changes. */
  function Delete(s: Storage, name: string): (r: Storage)
    requires Valid(s)
    ensures Valid(r) && name !in r.caches
    ensures forall n :: n != name ==> (n in r.caches <==> n in s.caches)
    ensures forall n :: n in r.caches ==> r.caches[n] == s.caches[n]
  {
    Storage(Keep(s.order, {name}), s.caches - {name})
  }

  /** Deleting one more name from a storage some names were deleted from. */
  lemma DeleteAfter(s: Storage, gone: set<string>, name: string)
    requires Valid(s)
    ensures Valid(Storage(Keep(s.order, gone), s.caches - gone))
    ensures Delete(Storage(Keep(s.order, gone), s.caches - gone), name) ==
            Storage(Keep(s.order, gone + {name}), s.caches - (gone + {name}))
  {
    KeepTwice(s.order, gone, {name});
    assert (s.caches - gone) - {name} == s.caches - (gone + {name});
  }
}

/**
 Activation cleanup: every cache of the application's namespace other than the current
 version's is deleted; everything else is left alone.
 */
module Activation {
  import opened Urls
  import opened Settings
  import opened CacheStorage

  /** The filter predicate of the activate handler. */
  predicate IsStale(cfg: Config, name: string) {
    StartsWith(name, cfg.prefix) && name != cfg.cacheName
  }

  /** `names.filter(n => IsStale(n))` */
  function StaleNames(cfg: Config, names: seq<string>): (r: seq<string>)
    ensures forall n :: n in r <==> n in names && IsStale(cfg, n)
  {
    if names == [] then []
    else
      assert forall n :: n in names ==> n == names[0] || n in names[1..];
      (if IsStale(cfg, names[0]) then [names[0]] else []) + StaleNames(cfg, names[1..])
  }

  /** The stale caches present in `s`. */
  function StaleSet(cfg: Config, s: Storage): set<string> {
    set n | n in s.order && IsStale(cfg, n)
  }

  /** The storage once every stale cache has been deleted. */
  function Activated(cfg: Config, s: Storage): (r: Storage)
    requires Valid(s)
    ensures Valid(r)
  {
    Storage(Keep(s.order, StaleSet(cfg, s)), s.caches - StaleSet(cfg, s))
  }

  /** Exactly the stale names are deleted: the current cache and every name outside the
      namespace survive, with their contents, and the survivors' names are the old list
      filtered, so they keep their order (`KeepOrder`). */
  lemma ActivationSurvivors(cfg: Config, s: Storage)
    requires Valid(s)
    ensures forall n :: n in Activated(cfg, s).caches <==>
                        n in s.caches && (n == cfg.cacheName || !StartsWith(n, cfg.prefix))
    ensures forall n :: n in Activated(cfg, s).caches ==> Activated(cfg, s).caches[n] == s.caches[n]
    ensures Activated(cfg, s).order == Keep(s.order, StaleSet(cfg, s))
  {
  }

  lemma {:induction false} KeepNothing(xs: seq<string>)
    ensures Keep(xs, {}) == xs
  {
    if xs != [] {
      KeepNothing(xs[1..]);
      assert xs == [xs[0]] + xs[1..];
    }
  }

  lemma {:induction false} NothingStale(cfg: Config, xs: seq<string>)
    requires forall i :: 0 <= i < |xs| ==> !IsStale(cfg, xs[i])
    ensures StaleNames(cfg, xs) == []
  {
    if xs != [] {
      NothingStale(cfg, xs[1..]);
    }
  }

  /** Activating a second time deletes nothing further. */
  lemma ActivationIdempotent(cfg: Config, s: Storage)
    requires Valid(s)
    ensures StaleNames(cfg, Activated(cfg, s).order) == []
    ensures Activated(cfg, Activated(cfg, s)) == Activated(cfg, s)
  {
    var a := Activated(cfg, s);
    forall i | 0 <= i < |a.order| ensures !IsStale(cfg, a.order[i]) {
      assert a.order[i] in Keep(s.order, StaleSet(cfg, s));
    }
    NothingStale(cfg, a.order);
    assert StaleSet(cfg, a) == {};
    KeepNothing(a.order);
    assert a.caches - {} == a.caches;
  }

  /** After installing (which opens the current cache) and activating, the current cache
      is the only one left in the namespace. */
  lemma OnlyCurrentRemains(cfg: Config, s: Storage)
    requires Valid(s)
    requires StartsWith(cfg.cacheName, cfg.prefix)
    requires cfg.cacheName in s.caches
    ensures forall n :: n in Activated(cfg, s).caches && StartsWith(n, cfg.prefix) <==> n == cfg.cacheName
  {
    ActivationSurvivors(cfg, s);
  }

  /** With caches `sinistri-pwa-cache-v11` and `sinistri-pwa-cache-v12` present, activating
      v12 leaves `sinistri-pwa-cache-v12` alone. */
  lemma ShippedUpgradeScenario(c11: Cache, c12: Cache)
    ensures Activated(Sw, Storage(["sinistri-pwa-cache-v11", CacheName],
                                  map["sinistri-pwa-cache-v11" := c11, CacheName := c12]))
         == Storage([CacheName], map[CacheName := c12])
  {
    var v11 := "sinistri-pwa-cache-v11";
    var s := Storage([v11, CacheName], map[v11 := c11, CacheName := c12]);
    assert v11 != CacheName by {
      assert v11[21] != CacheName[21];
    }
    assert Valid(s);
    assert v11[..|CachePrefix|] == CachePrefix;
    assert IsStale(Sw, v11) && !IsStale(Sw, CacheName);
    assert StaleSet(Sw, s) == {v11};
    assert Keep([v11, CacheName], {v11}) == [CacheName] by {
      assert [v11, CacheName][1..] == [CacheName];
      assert [CacheName][1..] == [];
      assert Keep([], {v11}) == [];
      assert Keep([CacheName], {v11}) == [CacheName] + Keep([], {v11});
      assert Keep([v11, CacheName], {v11}) == Keep([CacheName], {v11});
    }
    assert s.caches - {v11} == map[CacheName := c12];
  }
}

/** One connection to a cluster context: its discovery client and a bounded cache of watchers,
    keyed by resource, namespace and watcher type, that evicts the least recently used watcher.
    The clients the connection builds are parameters: a client construction that fails is an
    `Option` holding its error. */
module Connection {
  import opened Wrappers
  import opened Kube
  import opened ListWatch
  import opened TableWatch

  const MaxWatchers: int := 10

  /** The cache key. The source formats these three into a string; distinct triples are assumed
      to give distinct strings. */
  datatype WatcherKey = WatcherKey(gvr: GVR, namespace: string, watcherType: WatcherType)

  /** What a cached watcher holds apart from its last use: the running watch and the object
      cache, or the running watch, the table and whether the table lock was left held. */
  datatype Contents =
    | ListContents(watch: Option<nat>, objList: ObjectMap)
    | TableContents(watch: Option<nat>, table: Table, lockHeld: bool)

  /** The contents of a watcher just built: no watch and nothing cached. */
  function Initial(watcherType: WatcherType): Contents {
    if watcherType.ListType? then ListContents(None, map[]) else TableContents(None, Table([], []), false)
  }

  /** A cached watcher of one of the two supported types. */
  datatype Watcher = ListW(lw: ListWatcher) | TableW(tw: TableWatcher) {
    function Obj(): object {
      if ListW? then lw else tw
    }

    function Config(): WatcherConfig {
      if ListW? then lw.config else tw.config
    }

    function Kind(): WatcherType {
      if ListW? then ListType else TableType
    }

    function LastUsed(): int
      reads Obj()
    {
      if ListW? then lw.lastUsed else tw.lastUsed
    }

    predicate Running()
      reads Obj()
    {
      if ListW? then lw.watch.Some? else tw.watch.Some?
    }

    function Contents(): Contents
      reads Obj()
    {
      if ListW? then ListContents(lw.watch, lw.objList) else TableContents(tw.watch, tw.table, tw.tableLockHeld)
    }

    method UpdateLastUsed(now: int)
      modifies Obj()
      ensures LastUsed() == now && Running() == old(Running()) && Contents() == old(Contents())
    {
      if ListW? {
        lw.UpdateLastUsed(now);
      } else {
        tw.UpdateLastUsed(now);
      }
    }

    method Stop()
      modifies Obj()
      ensures !Running() && LastUsed() == old(LastUsed())
    {
      if ListW? {
        lw.Stop();
      } else {
        tw.Stop();
      }
    }
  }

  /** The last-use time of every cached watcher. */
  function Ages(ws: map<WatcherKey, Watcher>): (ages: map<WatcherKey, int>)
    reads set k | k in ws :: ws[k].Obj()
    ensures ages.Keys == ws.Keys
    ensures forall k :: k in ws ==> ages[k] == ws[k].LastUsed()
  {
    map k | k in ws :: ws[k].LastUsed()
  }

  /** `victim` has the least age. */
  predicate IsOldest<K>(ages: map<K, int>, victim: K) {
    victim in ages && forall k :: k in ages ==> ages[victim] <= ages[k]
  }

  /** One API group-version as discovery reports it. */
  datatype ApiResource = ApiResource(name: string, namespaced: bool)

  datatype ApiResourceList = ApiResourceList(groupVersion: string, resources: seq<ApiResource>)

  /** The watcher constructors, chosen by type: an unsupported type, or a client that cannot
      be built, is an error. */
  method NewWatcher(config: WatcherConfig, watcherType: WatcherType, clientError: Option<string>, now: int)
    returns (r: Result<Watcher, Error>)
    ensures watcherType.OtherType? ==> r == Err(UnsupportedWatcherType(watcherType.name))
    ensures !watcherType.OtherType? && clientError.Some? ==> r == Err(ClientFailed(clientError.value))
    ensures r.Ok? <==> !watcherType.OtherType? && clientError.None?
    ensures r.Ok? ==> && fresh(r.value.Obj()) && r.value.LastUsed() == now && !r.value.Running()
                      && r.value.Config() == config && r.value.Kind() == watcherType
                      && r.value.Contents() == Initial(watcherType)
  {
    match watcherType {
      case ListType =>
        if clientError.Some? {
          return Err(ClientFailed(clientError.value));
        }
        var lw := new ListWatcher(config, now);
        r := Ok(ListW(lw));
      case TableType =>
        if clientError.Some? {
          return Err(ClientFailed(clientError.value));
        }
        var tw := new TableWatcher(config, now);
        r := Ok(TableW(tw));
      case OtherType(name) =>
        r := Err(UnsupportedWatcherType(name));
    }
  }

  /** Every watcher is stored under the key of its own configuration and type. */
  ghost predicate KeysMatch(kubeContext: string, ws: map<WatcherKey, Watcher>) {
    forall k :: k in ws ==>
      && ws[k].Config() == WatcherConfig(kubeContext, k.gvr, k.namespace)
      && ws[k].Kind() == k.watcherType
  }

  class KubeConnection {
    const kubeContext: string
    var watchers: map<WatcherKey, Watcher>
    var lastUsed: int

    /** The watcher objects the cache holds. */
    ghost function Footprint(): set<object>
      reads this
    {
      set k | k in watchers :: watchers[k].Obj()
    }

    ghost predicate Valid()
      reads this
    {
      KeysMatch(kubeContext, watchers)
    }

    /** The contents of the watcher cached under `key`, if any. */
    ghost function ContentsAt(key: WatcherKey): Option<Contents>
      reads this, Footprint()
    {
      if key in watchers then Some(watchers[key].Contents()) else None
    }

    constructor (kubeContext: string, now: int)
      ensures this.kubeContext == kubeContext && watchers == map[] && lastUsed == now
      ensures Valid()
    {
      this.kubeContext := kubeContext;
      watchers := map[];
      lastUsed := now;
    }

    /** `Discover`: marks the connection used, then asks the (caching) discovery client. */
    method Discover(now: int, discovery: Result<seq<ApiResourceList>, string>) returns (r: Result<seq<ApiResourceList>, Error>)
      modifies this
      ensures lastUsed == now && watchers == old(watchers)
      ensures discovery.Ok? ==> r == Ok(discovery.value)
      ensures discovery.Err? ==> r == Err(DiscoveryFailed(discovery.error))
    {
      lastUsed := now;
      if discovery.Err? {
        return Err(DiscoveryFailed(discovery.error));
      }
      r := Ok(discovery.value);
    }

    /** Stops and removes the watcher with the least last-use time. */
    method EvictOldest() returns (victim: WatcherKey)
      requires watchers != map[]
      modifies this, Footprint()
      ensures IsOldest(old(Ages(watchers)), victim)
      ensures watchers == old(watchers) - {victim}
      ensures !old(watchers)[victim].Running()
      ensures lastUsed == old(lastUsed)
    {
      var ages := Ages(watchers);
      victim := OldestKey(ages);
      var oldest := watchers[victim];
      oldest.Stop();
      watchers := watchers - {victim};
    }

    /** Evicts the oldest watcher when the cache holds more than `bound`. */
    method Thin(bound: int)
      requires bound >= 0 && Valid()
      modifies this, Footprint()
      ensures Valid() && lastUsed == old(lastUsed)
      ensures |old(watchers)| <= bound ==> watchers == old(watchers)
      ensures |old(watchers)| > bound ==>
                exists victim :: IsOldest(old(Ages(watchers)), victim) && watchers == old(watchers) - {victim}
    {
      if |watchers| > bound {
        var victim := EvictOldest();
      }
    }

    /** A miss: when the cache holds more than `bound` watchers the oldest is evicted, then
        the new watcher is created and, if that succeeds, stored under its key. */
    method AddWatcher(bound: int, now: int, gvr: GVR, namespace: string, watcherType: WatcherType, clientError: Option<string>)
      returns (r: Result<Watcher, Error>)
      requires bound >= 0 && Valid()
      requires WatcherKey(gvr, namespace, watcherType) !in watchers
      modifies this, Footprint()
      ensures Valid() && lastUsed == now
      ensures var key := WatcherKey(gvr, namespace, watcherType);
              && (|old(watchers)| <= bound ==> watchers - {key} == old(watchers))
              && (|old(watchers)| > bound ==>
                    exists victim :: IsOldest(old(Ages(watchers)), victim) && watchers - {key} == old(watchers) - {victim})
              && (r.Err? <==> key !in watchers)
              && (r.Ok? ==> watchers[key] == r.value)
      ensures watcherType.OtherType? ==> r == Err(UnsupportedWatcherType(watcherType.name))
      ensures !watcherType.OtherType? && clientError.Some? ==> r == Err(ClientFailed(clientError.value))
      ensures !watcherType.OtherType? && clientError.None? ==> r.Ok?
      ensures r.Ok? ==> && fresh(r.value.Obj()) && r.value.LastUsed() == now && !r.value.Running()
                        && r.value.Config() == WatcherConfig(kubeContext, gvr, namespace) && r.value.Kind() == watcherType
                        && r.value.Contents() == Initial(watcherType)
    {
      var key := WatcherKey(gvr, namespace, watcherType);
      Thin(bound);
      r := NewWatcher(WatcherConfig(kubeContext, gvr, namespace), watcherType, clientError, now);
      if r.Ok? {
        InsertNew(watchers, key, r.value);
        watchers := watchers[key := r.value];
      } else {
        RemoveAbsent(watchers, key);
      }
      lastUsed := now;
      assert KeysMatch(kubeContext, watchers);
    }

    /** The shared part of `GetWatcher`: a hit refreshes the watcher's last use; a miss adds a
        watcher, thinning the cache when it holds more than `bound`. */
    method GetWatcherWith(bound: int, now: int, gvr: GVR, namespace: string, watcherType: WatcherType, clientError: Option<string>)
      returns (r: Result<Watcher, Error>)
      requires bound >= 0 && Valid()
      modifies this, Footprint()
      ensures Valid() && lastUsed == now
      ensures var key := WatcherKey(gvr, namespace, watcherType);
              && (key in old(watchers) ==>
                    && watchers == old(watchers) && r == Ok(old(watchers)[key])
                    && r.value.LastUsed() == now && r.value.Contents() == old(watchers[key].Contents()))
              && (key !in old(watchers) ==>
                    && (|old(watchers)| <= bound ==> watchers - {key} == old(watchers))
                    && (|old(watchers)| > bound ==>
                          exists victim :: IsOldest(old(Ages(watchers)), victim) && watchers - {key} == old(watchers) - {victim})
                    && (watcherType.OtherType? ==> r == Err(UnsupportedWatcherType(watcherType.name)))
                    && (!watcherType.OtherType? && clientError.Some? ==> r == Err(ClientFailed(clientError.value)))
                    && (!watcherType.OtherType? && clientError.None? ==> r.Ok?)
                    && (r.Err? <==> key !in watchers)
                    && (r.Ok? ==> fresh(r.value.Obj()) && r.value.LastUsed() == now && !r.value.Running()
                                  && r.value.Contents() == Initial(watcherType)))
      ensures r.Ok? ==> && WatcherKey(gvr, namespace, watcherType) in watchers
                        && watchers[WatcherKey(gvr, namespace, watcherType)] == r.value
                        && r.value.Config() == WatcherConfig(kubeContext, gvr, namespace)
                        && r.value.Kind() == watcherType
      ensures r.Ok? ==> fresh(r.value.Obj()) || r.value.Obj() in old(Footprint())
    {
      var key := WatcherKey(gvr, namespace, watcherType);
      if key in watchers {
        lastUsed := now;
        var hit := watchers[key];
        assert hit.Obj() in Footprint();
        hit.UpdateLastUsed(now);
        return Ok(hit);
      }
      r := AddWatcher(bound, now, gvr, namespace, watcherType, clientError);
    }

    /** `GetWatcher` as written: a miss evicts only when the cache holds more than
        `MaxWatchers`, so a full cache of ten grows to eleven and stays there. */
    method GetWatcher(now: int, gvr: GVR, namespace: string, watcherType: WatcherType, clientError: Option<string>)
      returns (r: Result<Watcher, Error>)
      requires Valid()
      modifies this, Footprint()
      ensures Valid() && lastUsed == now
      ensures |old(watchers)| <= MaxWatchers + 1 ==> |watchers| <= MaxWatchers + 1
      ensures |old(watchers)| == MaxWatchers && WatcherKey(gvr, namespace, watcherType) !in old(watchers) && r.Ok? ==>
                |watchers| == MaxWatchers + 1
      ensures r.Ok? ==> WatcherKey(gvr, namespace, watcherType) in watchers
                        && watchers[WatcherKey(gvr, namespace, watcherType)] == r.value
                        && r.value.Config() == WatcherConfig(kubeContext, gvr, namespace)
                        && r.value.Kind() == watcherType && r.value.LastUsed() == now
      ensures WatcherKey(gvr, namespace, watcherType) !in old(watchers) && !watcherType.OtherType? && clientError.Some? ==>
                r == Err(ClientFailed(clientError.value))
      ensures WatcherKey(gvr, namespace, watcherType) !in old(watchers) && !watcherType.OtherType? && clientError.None? ==>
                r.Ok? && fresh(r.value.Obj()) && r.value.Contents() == Initial(watcherType)
      ensures WatcherKey(gvr, namespace, watcherType) in old(watchers) ==>
                && watchers == old(watchers) && r == Ok(old(watchers)[WatcherKey(gvr, namespace, watcherType)])
                && r.value.Contents() == old(watchers[WatcherKey(gvr, namespace, watcherType)].Contents())
      ensures r.Ok? ==> fresh(r.value.Obj()) || r.value.Obj() in old(Footprint())
    {
      ghost var before := watchers;
      r := GetWatcherWith(MaxWatchers, now, gvr, namespace, watcherType, clientError);
      CacheSize(before, watchers, WatcherKey(gvr, namespace, watcherType), MaxWatchers);
    }

    /** `GetWatcher` as evidently intended: evicting once the cache holds `MaxWatchers` keeps it
        at `MaxWatchers` at most. */
    method GetWatcherBounded(now: int, gvr: GVR, namespace: string, watcherType: WatcherType, clientError: Option<string>)
      returns (r: Result<Watcher, Error>)
      requires Valid()
      modifies this, Footprint()
      ensures Valid() && lastUsed == now
      ensures |old(watchers)| <= MaxWatchers ==> |watchers| <= MaxWatchers
      ensures r.Ok? ==> WatcherKey(gvr, namespace, watcherType) in watchers
                        && watchers[WatcherKey(gvr, namespace, watcherType)] == r.value
                        && r.value.Config() == WatcherConfig(kubeContext, gvr, namespace)
                        && r.value.Kind() == watcherType && r.value.LastUsed() == now
      ensures WatcherKey(gvr, namespace, watcherType) !in old(watchers) && !watcherType.OtherType? && clientError.Some? ==>
                r == Err(ClientFailed(clientError.value))
      ensures WatcherKey(gvr, namespace, watcherType) !in old(watchers) && !watcherType.OtherType? && clientError.None? ==>
                r.Ok? && fresh(r.value.Obj()) && r.value.Contents() == Initial(watcherType)
      ensures WatcherKey(gvr, namespace, watcherType) in old(watchers) ==>
                && watchers == old(watchers) && r == Ok(old(watchers)[WatcherKey(gvr, namespace, watcherType)])
                && r.value.Contents() == old(watchers[WatcherKey(gvr, namespace, watcherType)].Contents())
      ensures r.Ok? ==> fresh(r.value.Obj()) || r.value.Obj() in old(Footprint())
    {
      ghost var before := watchers;
      r := GetWatcherWith(MaxWatchers - 1, now, gvr, namespace, watcherType, clientError);
      CacheSize(before, watchers, WatcherKey(gvr, namespace, watcherType), MaxWatchers - 1);
    }

    /** `Stop`: every cached watcher is stopped; the cache itself is kept. */
    method Stop()
      modifies Footprint()
      ensures watchers == old(watchers)
      ensures forall k :: k in watchers ==> !watchers[k].Running()
    {
      var keys := watchers.Keys;
      while keys != {}
        invariant keys <= watchers.Keys
        invariant forall k :: k in watchers && k !in keys ==> !watchers[k].Running()
        decreases |keys|
      {
        var k :| k in keys;
        watchers[k].Stop();
        keys := keys - {k};
      }
    }
  }

  /** Storing a value under a new key grows the map by exactly that key. */
  lemma InsertNew<K, V>(m: map<K, V>, k: K, v: V)
    requires k !in m
    ensures m[k := v] - {k} == m && |m[k := v]| == |m| + 1
  {
    assert (m[k := v] - {k}).Keys == m.Keys;
  }

  /** Removing a key shrinks the map by one. */
  lemma RemoveKey<K, V>(m: map<K, V>, k: K)
    requires k in m
    ensures |m - {k}| == |m| - 1
  {
    assert (m - {k}).Keys == m.Keys - {k};
  }

  /** Removing a key that is absent changes nothing. */
  lemma RemoveAbsent<K, V>(m: map<K, V>, k: K)
    requires k !in m
    ensures m - {k} == m
  {
    assert (m - {k}).Keys == m.Keys;
  }

  /** The cache sizes a lookup can produce when the cache is thinned above `bound`. */
  lemma CacheSize<V>(before: map<WatcherKey, V>, after: map<WatcherKey, V>, key: WatcherKey, bound: int)
    requires bound >= 0
    requires key in before ==> after == before
    requires key !in before && |before| <= bound ==> after - {key} == before
    requires key !in before && |before| > bound ==> exists victim :: victim in before && after - {key} == before - {victim}
    ensures |before| <= bound + 1 ==> |after| <= bound + 1
    ensures key !in before && |before| == bound && key in after ==> |after| == bound + 1
  {
    if key !in before {
      var rest := after - {key};
      assert after.Keys == rest.Keys + (if key in after then {key} else {});
      if |before| > bound {
        var victim :| victim in before && rest == before - {victim};
        assert rest.Keys == before.Keys - {victim};
      } else {
        assert rest.Keys == before.Keys;
      }
    }
  }
}

/** The Kubernetes service: the context names of the loaded kubeconfig and a bounded cache of
    connections, one per context, that evicts the least recently used connection. Its list calls
    chain connection, watcher and watcher call, returning the first error met. */
module Service {
  import opened Wrappers
  import opened Strings
  import opened Sorting
  import opened Kube
  import opened ListWatch
  import opened TableWatch
  import opened Connection

  const MaxConnections: int := 3

  /** The last-use time of every cached connection. */
  function ConnectionAges(cs: map<string, KubeConnection>): (ages: map<string, int>)
    reads set k | k in cs :: cs[k]
    ensures ages.Keys == cs.Keys
    ensures forall k :: k in cs ==> ages[k] == cs[k].lastUsed
  {
    map k | k in cs :: cs[k].lastUsed
  }

  class KubeService {
    /** The names of the contexts in the loaded kubeconfig. */
    const contexts: set<string>
    var connections: map<string, KubeConnection>

    ghost function Connections(): set<object>
      reads this
    {
      set k | k in connections :: connections[k]
    }

    /** The watchers of every cached connection. */
    ghost function Watchers(): set<object>
      reads this, Connections()
    {
      set k, o | k in connections && o in connections[k].Footprint() :: o
    }

    /** The contents of the watcher cached under `key` by the connection of `kubeContext`. */
    ghost function CachedContents(kubeContext: string, key: WatcherKey): Option<Contents>
      reads this, Connections(), Watchers()
    {
      if kubeContext in connections then
        assert connections[kubeContext].Footprint() <= Watchers();
        connections[kubeContext].ContentsAt(key)
      else
        None
    }

    /** Every connection is cached under its own context and keeps its watcher keys. */
    ghost predicate Valid()
      reads this, Connections()
    {
      forall k :: k in connections ==> connections[k].kubeContext == k && connections[k].Valid()
    }

    constructor (contexts: set<string>)
      ensures this.contexts == contexts && connections == map[]
      ensures Valid()
    {
      this.contexts := contexts;
      connections := map[];
    }

    /** `GetContextNames`: the context names appended in map order, then sorted. */
    method GetContextNames() returns (names: seq<string>)
      ensures |names| == |contexts|
      ensures forall n :: n in names <==> n in contexts
      ensures forall i, j :: 0 <= i < j < |names| ==> Below(names[i], names[j])
    {
      var keys := contexts;
      var unsorted: seq<string> := [];
      while keys != {}
        invariant keys <= contexts
        invariant |unsorted| + |keys| == |contexts|
        invariant forall n :: n in unsorted <==> n in contexts && n !in keys
        decreases |keys|
      {
        var k :| k in keys;
        unsorted := unsorted + [k];
        keys := keys - {k};
      }
      var byName := (n: string) => n;
      SortKeeps(unsorted, byName);
      names := SortBy(unsorted, byName);
      assert SortedBy(names, byName);
    }

    /** Stops and removes the connection with the least last-use time. */
    method EvictOldest() returns (victim: string)
      requires connections != map[] && Valid()
      modifies this, Watchers()
      ensures Valid()
      ensures IsOldest(old(ConnectionAges(connections)), victim)
      ensures connections == old(connections) - {victim}
      ensures |connections| == |old(connections)| - 1
    {
      var ages := ConnectionAges(connections);
      victim := OldestKey(ages);
      var oldest := connections[victim];
      assert oldest.Footprint() <= Watchers();
      ghost var cs := connections;
      ServiceIsNoWatcher(this, oldest);
      forall k | k in cs
        ensures cs[k] !in oldest.Footprint()
      {
        ConnectionIsNoWatcher(cs[k], oldest);
      }
      oldest.Stop();
      assert connections == cs;
      RemoveKey(connections, victim);
      connections := connections - {victim};
    }

    /** Evicts the oldest connection when the cache is full. */
    method Thin()
      requires Valid()
      modifies this, Watchers()
      ensures Valid()
      ensures |old(connections)| < MaxConnections ==> connections == old(connections)
      ensures |old(connections)| >= MaxConnections ==>
                && |connections| == |old(connections)| - 1
                && exists victim :: IsOldest(old(ConnectionAges(connections)), victim) && connections == old(connections) - {victim}
    {
      if |connections| >= MaxConnections {
        var victim := EvictOldest();
      }
    }

    /** `NewKubeConnection` and the insertion that follows it. */
    method Create(kubeContext: string, now: int, connectError: Option<string>) returns (r: Result<KubeConnection, Error>)
      requires Valid() && kubeContext !in connections
      modifies this
      ensures Valid()
      ensures connections - {kubeContext} == old(connections)
      ensures |connections| <= |old(connections)| + 1
      ensures connectError.Some? ==> r == Err(ConnectionFailed(connectError.value)) && kubeContext !in connections
      ensures connectError.None? ==> r.Ok? && fresh(r.value) && r.value.watchers == map[] && r.value.lastUsed == now
      ensures r.Ok? ==> kubeContext in connections && connections[kubeContext] == r.value && r.value.kubeContext == kubeContext
    {
      if connectError.Some? {
        assert connections - {kubeContext} == connections;
        return Err(ConnectionFailed(connectError.value));
      }
      var conn := new KubeConnection(kubeContext, now);
      ghost var before := connections;
      InsertNew(connections, kubeContext, conn);
      connections := connections[kubeContext := conn];
      forall k | k in connections
        ensures connections[k].kubeContext == k && connections[k].Valid()
      {
        if k != kubeContext {
          assert connections[k] == before[k];
        }
      }
      r := Ok(conn);
    }

    /** A miss: the cache is thinned when full, then a new connection is built and cached. A
        failed build leaves the cache thinned. */
    method AddConnection(kubeContext: string, now: int, connectError: Option<string>) returns (r: Result<KubeConnection, Error>)
      requires Valid() && kubeContext !in connections
      modifies this, Watchers()
      ensures Valid()
      ensures |old(connections)| < MaxConnections ==> connections - {kubeContext} == old(connections)
      ensures |old(connections)| >= MaxConnections ==>
                exists victim :: IsOldest(old(ConnectionAges(connections)), victim)
                  && connections - {kubeContext} == old(connections) - {victim}
      ensures connectError.Some? ==> r == Err(ConnectionFailed(connectError.value)) && kubeContext !in connections
      ensures connectError.None? ==> r.Ok? && fresh(r.value) && r.value.watchers == map[] && r.value.lastUsed == now
      ensures r.Ok? ==> kubeContext in connections && connections[kubeContext] == r.value && r.value.kubeContext == kubeContext
      ensures |old(connections)| <= MaxConnections ==> |connections| <= MaxConnections
    {
      Thin();
      r := Create(kubeContext, now, connectError);
    }

    /** `getConnection`: a cached connection is returned as it is; otherwise one is added. */
    method GetConnection(kubeContext: string, now: int, connectError: Option<string>) returns (r: Result<KubeConnection, Error>)
      requires Valid()
      modifies this, Watchers()
      ensures Valid()
      ensures kubeContext in old(connections) ==>
                && connections == old(connections) && r == Ok(old(connections)[kubeContext]) && unchanged(Watchers())
                && forall key :: r.value.ContentsAt(key) == old(r.value.ContentsAt(key))
      ensures kubeContext !in old(connections) ==>
                && (|old(connections)| < MaxConnections ==> connections - {kubeContext} == old(connections))
                && (|old(connections)| >= MaxConnections ==>
                      exists victim :: IsOldest(old(ConnectionAges(connections)), victim)
                        && connections - {kubeContext} == old(connections) - {victim})
                && (connectError.Some? ==> r == Err(ConnectionFailed(connectError.value)) && kubeContext !in connections)
                && (connectError.None? ==> r.Ok? && fresh(r.value) && r.value.watchers == map[] && r.value.lastUsed == now)
      ensures r.Ok? ==> kubeContext in connections && connections[kubeContext] == r.value && r.value.kubeContext == kubeContext
      ensures r.Ok? ==> fresh(r.value) || (r.value in old(Connections()) && r.value.Footprint() <= old(Watchers()))
      ensures |old(connections)| <= MaxConnections ==> |connections| <= MaxConnections
    {
      if kubeContext in connections {
        var conn := connections[kubeContext];
        assert conn in Connections() && conn.Footprint() <= Watchers();
        return Ok(conn);
      }
      r := AddConnection(kubeContext, now, connectError);
    }

    /** `Discover`: the connection, then its discovery; the first error is returned. */
    method Discover(kubeContext: string, now: int, connectError: Option<string>, discovery: Result<seq<ApiResourceList>, string>)
      returns (r: Result<seq<ApiResourceList>, Error>)
      requires Valid()
      modifies this, Connections(), Watchers()
      ensures kubeContext !in old(connections) && connectError.Some? ==> r == Err(ConnectionFailed(connectError.value))
      ensures (kubeContext in old(connections) || connectError.None?) ==>
                && (discovery.Ok? ==> r == Ok(discovery.value))
                && (discovery.Err? ==> r == Err(DiscoveryFailed(discovery.error)))
                && kubeContext in connections && connections[kubeContext].lastUsed == now
    {
      var conn := GetConnection(kubeContext, now, connectError);
      if conn.Err? {
        return Err(conn.error);
      }
      r := conn.value.Discover(now, discovery);
    }

    /** `ListResource`: connection, list watcher, list; the first error is returned. */
    method ListResource(kubeContext: string, gvr: GVR, namespace: string, now: int,
                        connectError: Option<string>, clientError: Option<string>,
                        listFn: Scope -> Result<ObjectList, string>,
                        watchFn: (Scope, WatchOptions) -> Result<nat, string>)
      returns (r: Result<seq<Object>, Error>)
      requires Valid()
      modifies this, Connections(), Watchers()
      ensures kubeContext !in old(connections) && connectError.Some? ==> r == Err(ConnectionFailed(connectError.value))
      ensures kubeContext in old(connections) || connectError.None? ==>
                var key := WatcherKey(gvr, namespace, ListType);
                ListOutcome(old(CachedContents(kubeContext, key)), CachedContents(kubeContext, key), r,
                            kubeContext, gvr, namespace, clientError, listFn, watchFn)
    {
      ghost var key := WatcherKey(gvr, namespace, ListType);
      ghost var cached := CachedContents(kubeContext, key);
      var conn := GetConnection(kubeContext, now, connectError);
      if conn.Err? {
        return Err(conn.error);
      }
      var c := conn.value;
      assert c == connections[kubeContext] && c.kubeContext == kubeContext && c.Valid();
      assert c.ContentsAt(key) == cached;
      ServiceIsNoWatcher(this, c);
      ghost var cs := connections;
      r := ListOn(c, now, gvr, namespace, clientError, listFn, watchFn);
      assert connections == cs;
      assert CachedContents(kubeContext, key) == c.ContentsAt(key);
    }

    /** `ListResourceTabular`: connection, table watcher, table; the first error is returned. */
    method ListResourceTabular(kubeContext: string, gvr: GVR, namespace: string, now: int,
                               connectError: Option<string>, clientError: Option<string>,
                               listFn: Scope -> Result<RawTable, string>,
                               watchFn: (Scope, WatchOptions) -> Result<nat, string>,
                               decode: Decoder)
      returns (r: Result<Table, Error>)
      requires Valid()
      modifies this, Connections(), Watchers()
      ensures kubeContext !in old(connections) && connectError.Some? ==> r == Err(ConnectionFailed(connectError.value))
      ensures kubeContext in old(connections) || connectError.None? ==>
                var key := WatcherKey(gvr, namespace, TableType);
                TableOutcome(old(CachedContents(kubeContext, key)), CachedContents(kubeContext, key), r,
                             kubeContext, gvr, namespace, clientError, listFn, watchFn, decode)
    {
      ghost var key := WatcherKey(gvr, namespace, TableType);
      ghost var cached := CachedContents(kubeContext, key);
      var conn := GetConnection(kubeContext, now, connectError);
      if conn.Err? {
        return Err(conn.error);
      }
      var c := conn.value;
      assert c == connections[kubeContext] && c.kubeContext == kubeContext && c.Valid();
      assert c.ContentsAt(key) == cached;
      ServiceIsNoWatcher(this, c);
      ghost var cs := connections;
      r := TableOn(c, now, gvr, namespace, clientError, listFn, watchFn, decode);
      assert connections == cs;
      assert CachedContents(kubeContext, key) == c.ContentsAt(key);
    }
  }

  /** No connection is one of a connection's watchers. */
  lemma ConnectionIsNoWatcher(d: KubeConnection, c: KubeConnection)
    ensures d !in c.Footprint()
  {
    forall o | o in c.Footprint()
      ensures o != d
    {
      var k :| k in c.watchers && c.watchers[k].Obj() == o;
    }
  }

  /** The service object is none of a connection's watchers. */
  lemma ServiceIsNoWatcher(s: KubeService, c: KubeConnection)
    ensures s !in c.Footprint()
  {
    forall o | o in c.Footprint()
      ensures o != s
    {
      var k :| k in c.watchers && c.watchers[k].Obj() == o;
    }
  }

  /** A list watcher has to list: it is not cached yet and can be built, or its watch ended. */
  ghost predicate MustList(before: Option<Contents>, clientError: Option<string>) {
    (before.None? && clientError.None?) || (before.Some? && before.value.watch.None?)
  }

  /** One list call through the watcher cache, given the contents of the list watcher before
      (`None` when it is not cached) and after:
      - a watcher that cannot be built is a client error;
      - a watcher whose watch runs answers from its cache, which stays as it is;
      - otherwise the list and watch errors pass through, and on success the watcher watches
        the listed scope and caches exactly the listed objects;
      - an error leaves a cached watcher as it was;
      - a result is the name-sorted snapshot of the watcher's cache. */
  ghost predicate ListOutcome(before: Option<Contents>, after: Option<Contents>, r: Result<seq<Object>, Error>,
                              kubeContext: string, gvr: GVR, namespace: string, clientError: Option<string>,
                              listFn: Scope -> Result<ObjectList, string>,
                              watchFn: (Scope, WatchOptions) -> Result<nat, string>)
  {
    var scope := ScopeOf(namespace);
    var listing := listFn(scope);
    && (before.None? && clientError.Some? ==> r == Err(ClientFailed(clientError.value)))
    && (before.Some? && before.value.watch.Some? ==> r.Ok? && after == before)
    && (MustList(before, clientError) ==>
          && (listing.Err? ==> r == Err(ListFailed(kubeContext, gvr, listing.error)))
          && (listing.Ok? && watchFn(scope, WatchFrom(listing.value.resourceVersion)).Err? ==>
                r == Err(WatchFailed(kubeContext, gvr, watchFn(scope, WatchFrom(listing.value.resourceVersion)).error)))
          && (listing.Ok? && watchFn(scope, WatchFrom(listing.value.resourceVersion)).Ok? ==>
                && r.Ok?
                && after == Some(ListContents(Some(watchFn(scope, WatchFrom(listing.value.resourceVersion)).value),
                                              Upsert(map[], listing.value.items)))))
    && (before.Some? && r.Err? ==> after == before)
    && (r.Ok? ==> after.Some? && after.value.ListContents? && IsSnapshot(r.value, after.value.objList))
  }

  /** A table watcher has to list: it is not cached yet and can be built, or its watch ended
      and its lock is free. */
  ghost predicate MustListTable(before: Option<Contents>, clientError: Option<string>) {
    || (before.None? && clientError.None?)
    || (before.Some? && before.value.TableContents? && !before.value.lockHeld && before.value.watch.None?)
  }

  /** One table call through the watcher cache, given the contents of the table watcher before
      (`None` when it is not cached) and after:
      - a watcher that cannot be built is a client error;
      - a watcher whose table lock is held answers `Blocked`;
      - a watcher whose watch runs answers from its table, which stays as it is;
      - otherwise the list, watch and decode errors pass through, and on success the watcher
        watches the listed scope and stores exactly the decoded table;
      - an error leaves a cached watcher as it was;
      - a result has the stored columns and the stored rows, sorted by name. */
  ghost predicate TableOutcome(before: Option<Contents>, after: Option<Contents>, r: Result<Table, Error>,
                               kubeContext: string, gvr: GVR, namespace: string, clientError: Option<string>,
                               listFn: Scope -> Result<RawTable, string>,
                               watchFn: (Scope, WatchOptions) -> Result<nat, string>,
                               decode: Decoder)
  {
    var scope := ScopeOf(namespace);
    var listing := listFn(scope);
    && (before.None? && clientError.Some? ==> r == Err(ClientFailed(clientError.value)))
    && (before.Some? && before.value.TableContents? && before.value.lockHeld ==> r == Err(Blocked))
    && (before.Some? && before.value.TableContents? && !before.value.lockHeld && before.value.watch.Some? ==>
          r.Ok? && after == before)
    && (MustListTable(before, clientError) ==>
          && (listing.Err? ==> r == Err(ListFailed(kubeContext, gvr, listing.error)))
          && (listing.Ok? && watchFn(scope, WatchFrom(listing.value.resourceVersion)).Err? ==>
                r == Err(WatchFailed(kubeContext, gvr, watchFn(scope, WatchFrom(listing.value.resourceVersion)).error)))
          && (listing.Ok? && watchFn(scope, WatchFrom(listing.value.resourceVersion)).Ok? ==>
                var decoded := DecodeAll(listing.value.rows, decode);
                && (decoded.Err? ==> r == Err(decoded.error))
                && (decoded.Ok? ==>
                      && r.Ok?
                      && after == Some(TableContents(Some(watchFn(scope, WatchFrom(listing.value.resourceVersion)).value),
                                                     Table(listing.value.columns, decoded.value), false)))))
    && (before.Some? && r.Err? ==> after == before)
    && (r.Ok? ==>
          && after.Some? && after.value.TableContents?
          && r.value.columns == after.value.table.columns
          && multiset(r.value.rows) == multiset(after.value.table.rows)
          && SortedBy(r.value.rows, RowName))
  }

  /** The part of `ListResource` after the connection is found: the connection's list watcher
      for the key, then its list. */
  method ListOn(c: KubeConnection, now: int, gvr: GVR, namespace: string, clientError: Option<string>,
                listFn: Scope -> Result<ObjectList, string>,
                watchFn: (Scope, WatchOptions) -> Result<nat, string>)
    returns (r: Result<seq<Object>, Error>)
    requires c.Valid()
    modifies c, c.Footprint()
    ensures c.Valid()
    ensures var key := WatcherKey(gvr, namespace, ListType);
            ListOutcome(old(c.ContentsAt(key)), c.ContentsAt(key), r, c.kubeContext, gvr, namespace, clientError, listFn, watchFn)
  {
    var w := c.GetWatcherBounded(now, gvr, namespace, ListType, clientError);
    if w.Err? {
      return Err(w.error);
    }
    var lw := w.value.lw;
    r := lw.ListConsistent(listFn, watchFn);
  }

  /** The part of `ListResourceTabular` after the connection is found: the connection's table
      watcher for the key, then its table. A watcher whose lock an earlier call left held
      answers `Blocked` where the source would wait. */
  method TableOn(c: KubeConnection, now: int, gvr: GVR, namespace: string, clientError: Option<string>,
                 listFn: Scope -> Result<RawTable, string>,
                 watchFn: (Scope, WatchOptions) -> Result<nat, string>,
                 decode: Decoder)
    returns (r: Result<Table, Error>)
    requires c.Valid()
    modifies c, c.Footprint()
    ensures c.Valid()
    ensures var key := WatcherKey(gvr, namespace, TableType);
            TableOutcome(old(c.ContentsAt(key)), c.ContentsAt(key), r, c.kubeContext, gvr, namespace, clientError,
                         listFn, watchFn, decode)
  {
    var w := c.GetWatcherBounded(now, gvr, namespace, TableType, clientError);
    if w.Err? {
      return Err(w.error);
    }
    var tw := w.value.tw;
    if tw.tableLockHeld {
      return Err(Blocked);
    }
    r := tw.GetTableReleasing(listFn, watchFn, decode);
  }
}

/** The list watcher the service hands out for plain object lists: like the resource watcher,
    but configured with a namespace, and built on the watcher base that the connection cache
    evicts by last use. The list and watch calls are parameters of the scope they are sent to. */
module ListWatch {
  import opened Wrappers
  import opened Kube

  /** The API server only reports objects that lie in the scope asked for. */
  ghost predicate InScope(o: Object, scope: Scope) {
    scope.ClusterWide? || o.namespace == scope.namespace
  }

  ghost predicate EventInScope(e: Event<Object>, scope: Scope) {
    e.Failure? || InScope(e.obj, scope)
  }

  ghost predicate CacheInScope(m: ObjectMap, scope: Scope) {
    forall k :: k in m ==> InScope(m[k], scope)
  }

  /** A cache that holds only objects of a scope keeps that property under every event the
      scope can produce. */
  lemma ApplyEventKeepsScope(m: ObjectMap, e: Event<Object>, scope: Scope)
    requires CacheInScope(m, scope) && EventInScope(e, scope)
    ensures CacheInScope(ApplyEvent(m, e), scope)
  {
    var r := ApplyEvent(m, e);
    forall k | k in r
      ensures InScope(r[k], scope)
    {
      if !e.Failure? && k == e.obj.uid {
        assert !e.Deleted?;
      }
    }
  }

  /** Storing listed objects of a scope into a cache of that scope keeps it in scope. */
  lemma {:induction false} UpsertKeepsScope(m: ObjectMap, items: seq<Object>, scope: Scope)
    requires CacheInScope(m, scope)
    requires forall i :: 0 <= i < |items| ==> InScope(items[i], scope)
    ensures CacheInScope(Upsert(m, items), scope)
    decreases |items|
  {
    if items != [] {
      var prefix := items[..|items| - 1];
      assert forall i :: 0 <= i < |prefix| ==> prefix[i] == items[i];
      UpsertKeepsScope(m, prefix, scope);
    }
  }

  class ListWatcher {
    const config: WatcherConfig
    var watch: Option<nat>
    /** The scope the running watch was opened with. */
    var watchScope: Scope
    var objList: ObjectMap
    var lastUsed: int

    constructor (config: WatcherConfig, now: int)
      ensures this.config == config
      ensures watch == None && objList == map[] && lastUsed == now
    {
      this.config := config;
      watch := None;
      watchScope := ClusterWide;
      objList := map[];
      lastUsed := now;
    }

    /** `List`: when no watch runs, list in the configured namespace (or the whole cluster when
        it is empty), start a watch, which is always cluster-wide, store the items on top of the
        existing cache, and hand out the name-sorted snapshot. */
    method List(listFn: Scope -> Result<ObjectList, string>, watchFn: (Scope, WatchOptions) -> Result<nat, string>)
      returns (r: Result<seq<Object>, Error>)
      modifies this
      ensures lastUsed == old(lastUsed)
      ensures old(watch).Some? ==> watch == old(watch) && watchScope == old(watchScope) && objList == old(objList) && r.Ok?
      ensures old(watch).None? ==>
                var listing := listFn(ScopeOf(config.namespace));
                && (listing.Err? ==>
                      r == Err(ListFailed(config.kubeContext, config.gvr, listing.error))
                      && watch == None && objList == old(objList))
                && (listing.Ok? && watchFn(ClusterWide, WatchFrom(listing.value.resourceVersion)).Err? ==>
                      r == Err(WatchFailed(config.kubeContext, config.gvr, watchFn(ClusterWide, WatchFrom(listing.value.resourceVersion)).error))
                      && watch == None && objList == old(objList))
                && (listing.Ok? && watchFn(ClusterWide, WatchFrom(listing.value.resourceVersion)).Ok? ==>
                      watch == Some(watchFn(ClusterWide, WatchFrom(listing.value.resourceVersion)).value)
                      && watchScope == ClusterWide
                      && objList == Upsert(old(objList), listing.value.items) && r.Ok?)
      ensures r.Ok? ==> IsSnapshot(r.value, objList)
    {
      if watch.None? {
        var listing := listFn(ScopeOf(config.namespace));
        if listing.Err? {
          return Err(ListFailed(config.kubeContext, config.gvr, listing.error));
        }
        var started := watchFn(ClusterWide, WatchFrom(listing.value.resourceVersion));
        if started.Err? {
          return Err(WatchFailed(config.kubeContext, config.gvr, started.error));
        }
        watch := Some(started.value);
        watchScope := ClusterWide;
        objList := Populate(objList, listing.value.items);
      }
      var list := Snapshot(objList);
      r := Ok(list);
    }

    /** `List` as evidently intended: the watch looks at the same scope as the list, and a new
        list replaces the cache instead of being stored on top of what an ended watch left. */
    method ListConsistent(listFn: Scope -> Result<ObjectList, string>, watchFn: (Scope, WatchOptions) -> Result<nat, string>)
      returns (r: Result<seq<Object>, Error>)
      modifies this
      ensures lastUsed == old(lastUsed)
      ensures old(watch).Some? ==> watch == old(watch) && watchScope == old(watchScope) && objList == old(objList) && r.Ok?
      ensures old(watch).None? ==>
                var scope := ScopeOf(config.namespace);
                var listing := listFn(scope);
                && (listing.Err? ==>
                      r == Err(ListFailed(config.kubeContext, config.gvr, listing.error))
                      && watch == None && objList == old(objList))
                && (listing.Ok? && watchFn(scope, WatchFrom(listing.value.resourceVersion)).Err? ==>
                      r == Err(WatchFailed(config.kubeContext, config.gvr, watchFn(scope, WatchFrom(listing.value.resourceVersion)).error))
                      && watch == None && objList == old(objList))
                && (listing.Ok? && watchFn(scope, WatchFrom(listing.value.resourceVersion)).Ok? ==>
                      watch == Some(watchFn(scope, WatchFrom(listing.value.resourceVersion)).value)
                      && watchScope == scope
                      && objList == Upsert(map[], listing.value.items) && r.Ok?)
      ensures r.Ok? ==> IsSnapshot(r.value, objList)
    {
      if watch.None? {
        var scope := ScopeOf(config.namespace);
        var listing := listFn(scope);
        if listing.Err? {
          return Err(ListFailed(config.kubeContext, config.gvr, listing.error));
        }
        var started := watchFn(scope, WatchFrom(listing.value.resourceVersion));
        if started.Err? {
          return Err(WatchFailed(config.kubeContext, config.gvr, started.error));
        }
        watch := Some(started.value);
        watchScope := scope;
        objList := Populate(map[], listing.value.items);
      }
      var list := Snapshot(objList);
      r := Ok(list);
    }

    /** One event of the background watch. */
    method OnEvent(e: Event<Object>)
      modifies this
      ensures objList == ApplyEvent(old(objList), e)
      ensures watch == old(watch) && watchScope == old(watchScope) && lastUsed == old(lastUsed)
    {
      objList := ApplyEvent(objList, e);
    }

    /** The watch stream closed: the next call lists again. */
    method WatchEnded()
      modifies this
      ensures watch == None
      ensures objList == old(objList) && lastUsed == old(lastUsed)
    {
      watch := None;
    }

    /** The base watcher's `UpdateLastUsed`. */
    method UpdateLastUsed(now: int)
      modifies this
      ensures lastUsed == now
      ensures watch == old(watch) && watchScope == old(watchScope) && objList == old(objList)
    {
      lastUsed := now;
    }

    /** The base watcher's `Stop`: the watch is stopped and its goroutine has finished. */
    method Stop()
      modifies this
      ensures watch == None
      ensures objList == old(objList) && lastUsed == old(lastUsed)
    {
      watch := None;
    }
  }

  /** After the watch ends, an object deleted in the meantime is absent from the new list, yet
      `List` still returns it: the new list is stored on top of the old cache. */
  method StaleAfterRelist() returns (r: Result<seq<Object>, Error>, gone: Object)
    ensures r.Ok? && gone in r.value
  {
    gone := Object("uid-1", "web-1", "default", GVK("", "v1", "Pod"), map[]);
    var lw := new ListWatcher(WatcherConfig("kind", GVR("", "v1", "pods"), "default"), 0);
    var first := lw.List(_ => Ok(ObjectList("1", [gone])), (_, _) => Ok(7));
    assert Upsert(map[], [gone]) == map[gone.uid := gone] by {
      assert [gone][..0] == [];
    }
    assert first.Ok? && gone in first.value;
    lw.WatchEnded();
    r := lw.List(_ => Ok(ObjectList("2", [])), (_, _) => Ok(8));
    assert gone.uid in lw.objList && lw.objList[gone.uid] == gone;
  }

  /** A watcher configured for namespace "a" opens its watch on the whole cluster, so an object
      created in namespace "b" enters its cache. */
  method ForeignNamespaceLeaks() returns (r: Result<seq<Object>, Error>, foreign: Object)
    ensures r.Ok? && foreign in r.value && foreign.namespace != "a"
  {
    foreign := Object("uid-2", "db-0", "b", GVK("", "v1", "Pod"), map[]);
    var lw := new ListWatcher(WatcherConfig("kind", GVR("", "v1", "pods"), "a"), 0);
    var first := lw.List(_ => Ok(ObjectList("1", [])), (_, _) => Ok(7));
    assert first.Ok? && first.value == [];
    assert lw.watchScope == ClusterWide;
    assert EventInScope(Added(foreign), lw.watchScope);
    lw.OnEvent(Added(foreign));
    r := lw.List(_ => Ok(ObjectList("1", [])), (_, _) => Ok(7));
  }

  /** With the watch opened on the configured scope, and the server reporting only objects of
      the scope asked for, the cache never holds an object of another namespace. */
  lemma ConsistentWatchStaysInScope(listing: ObjectList, events: seq<Event<Object>>, scope: Scope)
    requires forall i :: 0 <= i < |listing.items| ==> InScope(listing.items[i], scope)
    requires forall i :: 0 <= i < |events| ==> EventInScope(events[i], scope)
    ensures CacheInScope(ApplyAll(Upsert(map[], listing.items), events), scope)
  {
    UpsertKeepsScope(map[], listing.items, scope);
    ApplyAllKeepsScope(Upsert(map[], listing.items), events, scope);
  }

  function ApplyAll(m: ObjectMap, events: seq<Event<Object>>): ObjectMap
    decreases |events|
  {
    if events == [] then m else ApplyAll(ApplyEvent(m, events[0]), events[1..])
  }

  lemma {:induction false} ApplyAllKeepsScope(m: ObjectMap, events: seq<Event<Object>>, scope: Scope)
    requires CacheInScope(m, scope)
    requires forall i :: 0 <= i < |events| ==> EventInScope(events[i], scope)
    ensures CacheInScope(ApplyAll(m, events), scope)
    decreases |events|
  {
    if events != [] {
      ApplyEventKeepsScope(m, events[0], scope);
      ApplyAllKeepsScope(ApplyEvent(m, events[0]), events[1..], scope);
    }
  }
}

/** Types and cache operations shared by the Kubernetes watchers: objects keyed by UID, watch
    events, the name-sorted snapshot a cache hands out, and the search for the least recently
    used entry that both bounded caches evict. */
module Kube {
  import opened Wrappers
  import opened Strings
  import opened Sorting

  datatype GVR = GVR(group: string, version: string, resource: string)

  datatype GVK = GVK(group: string, version: string, kind: string)

  /** An unstructured Kubernetes object: its metadata and its other fields. */
  datatype Object = Object(uid: string, name: string, namespace: string, gvk: GVK, fields: map<string, string>)

  /** The result of a list call: the items and the resource version to watch from. */
  datatype ObjectList = ObjectList(resourceVersion: string, items: seq<Object>)

  /** The options of a watch request that starts where a list left off. */
  datatype WatchOptions = WatchOptions(resourceVersion: string, timeoutSeconds: int)

  const DefaultWatchTimeoutSeconds: int := 120

  function WatchFrom(resourceVersion: string): (opts: WatchOptions)
    ensures opts.resourceVersion == resourceVersion && opts.timeoutSeconds == 120
  {
    WatchOptions(resourceVersion, DefaultWatchTimeoutSeconds)
  }

  /** Where a list or watch request looks: one namespace, or the whole cluster. */
  datatype Scope = Namespaced(namespace: string) | ClusterWide

  /** An empty namespace means the whole cluster. */
  function ScopeOf(namespace: string): (scope: Scope)
    ensures namespace == "" <==> scope.ClusterWide?
    ensures scope.Namespaced? ==> scope.namespace == namespace
  {
    if namespace != "" then Namespaced(namespace) else ClusterWide
  }

  /** A watch event. An Error event carries a status, or some other object, that is only logged. */
  datatype Event<T> = Added(obj: T) | Modified(obj: T) | Deleted(obj: T) | Failure(reason: string)

  datatype WatcherType = ListType | TableType | OtherType(name: string)

  datatype WatcherConfig = WatcherConfig(kubeContext: string, gvr: GVR, namespace: string)

  /** The errors the caches return; the foreign cause is kept as text. */
  datatype Error =
    | ListFailed(kubeContext: string, gvr: GVR, cause: string)
    | WatchFailed(kubeContext: string, gvr: GVR, cause: string)
    | DecodeFailed(cause: string)
    | ClientFailed(cause: string)
    | UnsupportedWatcherType(name: string)
    | ConnectionFailed(cause: string)
    | DiscoveryFailed(cause: string)
      /** The call would wait forever on a lock that an earlier failed call left held. */
    | Blocked

  /** The object cache: every entry is stored under its own UID. */
  type ObjectMap = m: map<string, Object> | forall k :: k in m ==> m[k].uid == k witness map[]

  /** Storing the list items in order, each under its UID; a later item with the same UID
      replaces an earlier one. */
  function Upsert(m: ObjectMap, items: seq<Object>): (r: ObjectMap)
    ensures forall k :: k in r <==> k in m || exists i :: 0 <= i < |items| && items[i].uid == k
    decreases |items|
  {
    if items == [] then m
    else
      var prefix := Upsert(m, items[..|items| - 1]);
      var last := items[|items| - 1];
      var r: map<string, Object> := prefix[last.uid := last];
      forall k | k != last.uid && (exists i :: 0 <= i < |items| && items[i].uid == k)
        ensures k in prefix
      {
        var i :| 0 <= i < |items| && items[i].uid == k;
        assert items[..|items| - 1][i] == items[i];
      }
      r
  }

  /** The last item carrying a UID is the one kept. */
  lemma {:induction false} UpsertLastWins(m: ObjectMap, items: seq<Object>, i: nat)
    requires i < |items|
    requires forall j :: i < j < |items| ==> items[j].uid != items[i].uid
    ensures items[i].uid in Upsert(m, items) && Upsert(m, items)[items[i].uid] == items[i]
    decreases |items|
  {
    if i < |items| - 1 {
      var prefix := items[..|items| - 1];
      assert forall j :: i < j < |prefix| ==> prefix[j] == items[j];
      UpsertLastWins(m, prefix, i);
    }
  }

  /** An entry whose UID no item carries is left as it was. */
  lemma {:induction false} UpsertKeepsOthers(m: ObjectMap, items: seq<Object>, k: string)
    requires k in m
    requires forall i :: 0 <= i < |items| ==> items[i].uid != k
    ensures k in Upsert(m, items) && Upsert(m, items)[k] == m[k]
    decreases |items|
  {
    if items != [] {
      var prefix := items[..|items| - 1];
      assert forall i :: 0 <= i < |prefix| ==> prefix[i] == items[i];
      UpsertKeepsOthers(m, prefix, k);
    }
  }

  /** The initial-list loop: every item stored under its UID, in list order. */
  method Populate(m: ObjectMap, items: seq<Object>) returns (r: ObjectMap)
    ensures r == Upsert(m, items)
  {
    r := m;
    var i := 0;
    while i < |items|
      invariant 0 <= i <= |items|
      invariant r == Upsert(m, items[..i])
    {
      assert items[..i + 1][..i] == items[..i];
      r := r[items[i].uid := items[i]];
      i := i + 1;
    }
    assert items[..i] == items;
  }

  /** One watch event applied to the object cache. */
  function ApplyEvent(m: ObjectMap, e: Event<Object>): (r: ObjectMap)
    ensures (e.Added? || e.Modified?) ==> e.obj.uid in r && r[e.obj.uid] == e.obj
    ensures e.Deleted? ==> e.obj.uid !in r
    ensures e.Failure? ==> r == m
    ensures !e.Failure? ==> forall k :: k != e.obj.uid ==> (k in r <==> k in m) && (k in r ==> r[k] == m[k])
    ensures (e.Added? || e.Modified?) ==> |r| == |m| + (if e.obj.uid in m then 0 else 1)
  {
    match e
    case Added(obj) => m[obj.uid := obj]
    case Modified(obj) => m[obj.uid := obj]
    case Deleted(obj) => m - {obj.uid}
    case Failure(_) => m
  }

  /** Adding an object that was not cached and then deleting it restores the cache. */
  lemma AddThenDelete(m: ObjectMap, obj: Object)
    requires obj.uid !in m
    ensures ApplyEvent(ApplyEvent(m, Added(obj)), Deleted(obj)) == m
  {
    var r := ApplyEvent(ApplyEvent(m, Added(obj)), Deleted(obj));
    assert r.Keys == m.Keys;
  }

  /** Deleting an object that is not cached changes nothing. */
  lemma DeleteAbsent(m: ObjectMap, obj: Object)
    requires obj.uid !in m
    ensures ApplyEvent(m, Deleted(obj)) == m
  {
    var r := ApplyEvent(m, Deleted(obj));
    assert r.Keys == m.Keys;
  }

  /** Replaying an upsert changes nothing more. */
  lemma ModifiedIdempotent(m: ObjectMap, obj: Object)
    ensures ApplyEvent(ApplyEvent(m, Modified(obj)), Modified(obj)) == ApplyEvent(m, Modified(obj))
  {
  }

  function NameOf(o: Object): string {
    o.name
  }

  /** `list` holds exactly the cached objects, each once, in non-decreasing name order. */
  ghost predicate IsSnapshot(list: seq<Object>, m: ObjectMap) {
    && |list| == |m|
    && (forall x :: x in list ==> x.uid in m && m[x.uid] == x)
    && (forall k :: k in m ==> m[k] in list)
    && SortedBy(list, NameOf)
  }

  /** The cached objects appended one by one in map order, then sorted by name. */
  method Snapshot(m: ObjectMap) returns (list: seq<Object>)
    ensures IsSnapshot(list, m)
  {
    var keys := m.Keys;
    list := [];
    while keys != {}
      invariant keys <= m.Keys
      invariant |list| + |keys| == |m|
      invariant forall x :: x in list ==> x.uid in m && x.uid !in keys && m[x.uid] == x
      invariant forall k :: k in m && k !in keys ==> m[k] in list
      decreases |keys|
    {
      var k :| k in keys;
      list := list + [m[k]];
      keys := keys - {k};
    }
    var unsorted := list;
    SortKeeps(unsorted, NameOf);
    list := SortBy(unsorted, NameOf);
    assert forall x :: x in list ==> x in unsorted;
  }

  /** The key with the least last-use time, found as the source's loop finds it: keep the first
      entry seen, then any entry strictly older. */
  method OldestKey<K>(ages: map<K, int>) returns (oldest: K)
    requires ages != map[]
    ensures oldest in ages
    ensures forall k :: k in ages ==> ages[oldest] <= ages[k]
  {
    var keys := ages.Keys;
    var found := false;
    oldest :| oldest in ages;
    while keys != {}
      invariant keys <= ages.Keys
      invariant found <==> keys != ages.Keys
      invariant found ==> oldest in ages && oldest !in keys
      invariant found ==> forall k :: k in ages && k !in keys ==> ages[oldest] <= ages[k]
      decreases |keys|
    {
      var k :| k in keys;
      if !found || ages[k] < ages[oldest] {
        oldest := k;
        found := true;
      }
      keys := keys - {k};
    }
    assert found by {
      var k :| k in ages;
      assert k !in keys;
    }
  }
}

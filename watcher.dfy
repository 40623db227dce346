/** The original resource watcher: a UID-keyed cache of one resource type across the cluster,
    filled by a list call and kept current by a background watch. The list and watch calls are
    parameters that give the outcome the client would give; the background goroutine is the
    `OnEvent` and `WatchEnded` methods, called once per event and once when the stream closes. */
module Watcher {
  import opened Wrappers
  import opened Kube

  class ResourceWatcher {
    const kubeContext: string
    const gvr: GVR
    /** The running watch, by handle. */
    var watch: Option<nat>
    var objList: ObjectMap
    var lastUsed: int

    constructor (kubeContext: string, gvr: GVR, now: int)
      ensures this.kubeContext == kubeContext && this.gvr == gvr
      ensures watch == None && objList == map[] && lastUsed == now
    {
      this.kubeContext := kubeContext;
      this.gvr := gvr;
      watch := None;
      objList := map[];
      lastUsed := now;
    }

    /** `ListAll`: when no watch runs, list, start a watch from the list's resource version and
        store the items; then hand out the name-sorted snapshot. */
    method ListAll(now: int, listing: Result<ObjectList, string>, watchFn: WatchOptions -> Result<nat, string>)
      returns (r: Result<seq<Object>, Error>)
      modifies this
      ensures lastUsed == now
      ensures old(watch).Some? ==> watch == old(watch) && objList == old(objList) && r.Ok?
      ensures old(watch).None? && listing.Err? ==>
                r == Err(ListFailed(kubeContext, gvr, listing.error)) && watch == None && objList == old(objList)
      ensures old(watch).None? && listing.Ok? && watchFn(WatchFrom(listing.value.resourceVersion)).Err? ==>
                && r == Err(WatchFailed(kubeContext, gvr, watchFn(WatchFrom(listing.value.resourceVersion)).error))
                && watch == None && objList == old(objList)
      ensures old(watch).None? && listing.Ok? && watchFn(WatchFrom(listing.value.resourceVersion)).Ok? ==>
                && watch == Some(watchFn(WatchFrom(listing.value.resourceVersion)).value)
                && objList == Upsert(old(objList), listing.value.items)
                && r.Ok?
      ensures r.Ok? ==> IsSnapshot(r.value, objList)
    {
      lastUsed := now;
      if watch.None? {
        if listing.Err? {
          return Err(ListFailed(kubeContext, gvr, listing.error));
        }
        var started := watchFn(WatchFrom(listing.value.resourceVersion));
        if started.Err? {
          return Err(WatchFailed(kubeContext, gvr, started.error));
        }
        watch := Some(started.value);
        objList := Populate(objList, listing.value.items);
      }
      var list := Snapshot(objList);
      r := Ok(list);
    }

    /** One event of the background watch. */
    method OnEvent(e: Event<Object>)
      modifies this
      ensures objList == ApplyEvent(old(objList), e)
      ensures watch == old(watch) && lastUsed == old(lastUsed)
    {
      objList := ApplyEvent(objList, e);
    }

    /** The watch stream closed (it times out after two minutes): the next call lists again. */
    method WatchEnded()
      modifies this
      ensures watch == None
      ensures objList == old(objList) && lastUsed == old(lastUsed)
    {
      watch := None;
    }
  }
}

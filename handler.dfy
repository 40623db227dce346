/** The gRPC handler: turns the service's answers into replies. Discovery results are keyed by
    group-version, with the group and version split out; object lists and tables are copied
    entry by entry, each object converted to a protobuf struct. Every error, from the service or
    from a conversion, becomes an Internal error and no reply. The service call and the
    conversions are parameters. */
module Handler {
  import opened Wrappers
  import opened Strings
  import opened Kube
  import opened TableWatch
  import opened Connection

  /** Where an Internal error came from. */
  datatype Cause = Backend(error: Error) | Conversion(message: string)

  datatype RpcError = Internal(cause: Cause)

  /** A protobuf struct built from a field map. */
  datatype Struct = Struct(fields: map<string, string>)

  type StructFn = map<string, string> -> Result<Struct, string>

  // ---------------------------------------------------------------- group and version

  /** The group and version of a group-version string: exactly two parts give both; any other
      number of parts gives the empty group and the first part as version. */
  function SplitGroupVersion(groupVersion: string): (string, string) {
    var parts := Split(groupVersion, '/');
    if |parts| == 2 then (parts[0], parts[1]) else ("", parts[0])
  }

  /** A group and a version without slashes come back out of "group/version". */
  lemma GroupVersionRoundTrip(group: string, version: string)
    requires '/' !in group && '/' !in version
    ensures SplitGroupVersion(group + "/" + version) == (group, version)
  {
    SplitAfterPiece(group, '/', version);
    SplitNoSep(version, '/');
    assert group + "/" + version == group + ['/'] + version;
  }

  /** A core group-version such as "v1" has the empty group. */
  lemma CoreGroupVersion(groupVersion: string)
    requires '/' !in groupVersion
    ensures SplitGroupVersion(groupVersion) == ("", groupVersion)
  {
    SplitNoSep(groupVersion, '/');
  }

  /** Three or more parts fall to the same branch: the version is the first part. */
  lemma ExtraSlashes(a: string, b: string, c: string)
    requires '/' !in a && '/' !in b && '/' !in c
    ensures SplitGroupVersion(a + "/" + b + "/" + c) == ("", a)
  {
    SplitAfterPiece(b, '/', c);
    SplitNoSep(c, '/');
    SplitAfterPiece(a, '/', b + "/" + c);
    assert a + "/" + b + "/" + c == a + ['/'] + (b + ['/'] + c);
  }

  // ---------------------------------------------------------------- discovery

  datatype DiscoverResource = DiscoverResource(name: string, namespaced: bool)

  datatype DiscoverApi = DiscoverApi(group: string, version: string, resources: seq<DiscoverResource>)

  function ResourceOf(r: ApiResource): DiscoverResource {
    DiscoverResource(r.name, r.namespaced)
  }

  function ApiOf(list: ApiResourceList): DiscoverApi {
    var gv := SplitGroupVersion(list.groupVersion);
    DiscoverApi(gv.0, gv.1, seq(|list.resources|, i requires 0 <= i < |list.resources| => ResourceOf(list.resources[i])))
  }

  /** One discovery entry: the split group-version and the resources copied in order. */
  method BuildApi(list: ApiResourceList) returns (api: DiscoverApi)
    ensures (api.group, api.version) == SplitGroupVersion(list.groupVersion)
    ensures |api.resources| == |list.resources|
    ensures forall i :: 0 <= i < |list.resources| ==>
              api.resources[i].name == list.resources[i].name && api.resources[i].namespaced == list.resources[i].namespaced
    ensures api == ApiOf(list)
  {
    var gv := SplitGroupVersion(list.groupVersion);
    var resources: seq<DiscoverResource> := [];
    var i := 0;
    while i < |list.resources|
      invariant 0 <= i <= |list.resources| && |resources| == i
      invariant forall j :: 0 <= j < i ==> resources[j] == ResourceOf(list.resources[j])
    {
      resources := resources + [DiscoverResource(list.resources[i].name, list.resources[i].namespaced)];
      i := i + 1;
    }
    api := DiscoverApi(gv.0, gv.1, resources);
  }

  /** The reply map: every list under its group-version, a later duplicate replacing an
      earlier one. */
  function Assemble(lists: seq<ApiResourceList>): (apis: map<string, DiscoverApi>)
    ensures forall gv :: gv in apis <==> exists i :: 0 <= i < |lists| && lists[i].groupVersion == gv
    decreases |lists|
  {
    if lists == [] then map[]
    else
      var prefix := Assemble(lists[..|lists| - 1]);
      var last := lists[|lists| - 1];
      forall gv | gv != last.groupVersion && (exists i :: 0 <= i < |lists| && lists[i].groupVersion == gv)
        ensures gv in prefix
      {
        var i :| 0 <= i < |lists| && lists[i].groupVersion == gv;
        assert lists[..|lists| - 1][i] == lists[i];
      }
      prefix[last.groupVersion := ApiOf(last)]
  }

  /** The entry of a group-version is built from its last list. */
  lemma {:induction false} AssembleLastWins(lists: seq<ApiResourceList>, i: nat)
    requires i < |lists|
    requires forall j :: i < j < |lists| ==> lists[j].groupVersion != lists[i].groupVersion
    ensures Assemble(lists)[lists[i].groupVersion] == ApiOf(lists[i])
    decreases |lists|
  {
    if i < |lists| - 1 {
      var prefix := lists[..|lists| - 1];
      assert forall j :: i < j < |prefix| ==> prefix[j] == lists[j];
      AssembleLastWins(prefix, i);
    }
  }

  /** `Discover`: the service's discovery, or an Internal error. */
  method Discover(kubeContext: string, backend: string -> Result<seq<ApiResourceList>, Error>)
    returns (r: Result<map<string, DiscoverApi>, RpcError>)
    ensures backend(kubeContext).Err? ==> r == Err(Internal(Backend(backend(kubeContext).error)))
    ensures backend(kubeContext).Ok? ==> r == Ok(Assemble(backend(kubeContext).value))
  {
    var resources := backend(kubeContext);
    if resources.Err? {
      return Err(Internal(Backend(resources.error)));
    }
    var lists := resources.value;
    var apis: map<string, DiscoverApi> := map[];
    var i := 0;
    while i < |lists|
      invariant 0 <= i <= |lists|
      invariant apis == Assemble(lists[..i])
    {
      assert lists[..i + 1][..i] == lists[..i];
      var api := BuildApi(lists[i]);
      apis := apis[lists[i].groupVersion := api];
      i := i + 1;
    }
    assert lists[..i] == lists;
    r := Ok(apis);
  }

  // ---------------------------------------------------------------- conversions

  /** A list of conversions that stops at the first failure. */
  function MapAll<A, B>(xs: seq<A>, f: A -> Result<B, string>): (r: Result<seq<B>, string>)
    ensures r.Ok? <==> forall i :: 0 <= i < |xs| ==> f(xs[i]).Ok?
    ensures r.Ok? ==> |r.value| == |xs| && forall i :: 0 <= i < |xs| ==> r.value[i] == f(xs[i]).value
    decreases |xs|
  {
    if xs == [] then Ok([])
    else
      var head := f(xs[0]);
      if head.Err? then Err(head.error)
      else
        var tail := MapAll(xs[1..], f);
        assert forall i :: 1 <= i < |xs| ==> xs[i] == xs[1..][i - 1];
        if tail.Err? then tail else Ok([head.value] + tail.value)
  }

  /** The error reported is the first failure's. */
  lemma {:induction false} MapAllFirstFailure<A, B>(xs: seq<A>, f: A -> Result<B, string>, i: nat)
    requires i < |xs| && f(xs[i]).Err?
    requires forall j :: 0 <= j < i ==> f(xs[j]).Ok?
    ensures MapAll(xs, f) == Err(f(xs[i]).error)
    decreases i
  {
    if i > 0 {
      assert forall j :: 0 <= j < i - 1 ==> xs[1..][j] == xs[j + 1];
      MapAllFirstFailure(xs[1..], f, i - 1);
    }
  }

  /** An optional namespace: absent means every namespace. */
  function NamespaceOf(namespace: Option<string>): string {
    namespace.GetOr("")
  }

  lemma NamespaceDefault(namespace: Option<string>)
    ensures namespace.None? ==> NamespaceOf(namespace) == ""
    ensures namespace.Some? ==> NamespaceOf(namespace) == namespace.value
    ensures NamespaceOf(namespace) == "" ==> ScopeOf(NamespaceOf(namespace)) == ClusterWide
  {
  }

  // ---------------------------------------------------------------- object lists

  /** A resource of a reply; tables also carry the creation time. */
  datatype ResourceMsg = ResourceMsg(name: string, gvk: GVK, namespace: string, raw: Struct, created: Option<int>)

  function ObjectMsg(obj: Object, newStruct: StructFn): Result<ResourceMsg, string> {
    var raw := newStruct(obj.fields);
    if raw.Err? then Err(raw.error) else Ok(ResourceMsg(obj.name, obj.gvk, obj.namespace, raw.value, None))
  }

  /** `ListResource`: the service's object list, one resource per object in the same order, or
      an Internal error for the service's failure or the first object that does not convert. */
  method ListResource(kubeContext: string, gvr: GVR, namespace: Option<string>,
                      backend: (string, GVR, string) -> Result<seq<Object>, Error>, newStruct: StructFn)
    returns (r: Result<seq<ResourceMsg>, RpcError>)
    ensures var objs := backend(kubeContext, gvr, NamespaceOf(namespace));
            && (objs.Err? ==> r == Err(Internal(Backend(objs.error))))
            && (objs.Ok? ==> var all := MapAll(objs.value, o => ObjectMsg(o, newStruct));
                  && (all.Err? ==> r == Err(Internal(Conversion(all.error))))
                  && (all.Ok? ==> r == Ok(all.value)))
    ensures r.Ok? ==> var objs := backend(kubeContext, gvr, NamespaceOf(namespace)).value;
              && |r.value| == |objs|
              && forall i :: 0 <= i < |objs| ==>
                   r.value[i].name == objs[i].name && r.value[i].namespace == objs[i].namespace && r.value[i].gvk == objs[i].gvk
  {
    var objs := backend(kubeContext, gvr, NamespaceOf(namespace));
    if objs.Err? {
      return Err(Internal(Backend(objs.error)));
    }
    var f := o => ObjectMsg(o, newStruct);
    var resources: seq<ResourceMsg> := [];
    var i := 0;
    while i < |objs.value|
      invariant 0 <= i <= |objs.value| && |resources| == i
      invariant forall j :: 0 <= j < i ==> f(objs.value[j]).Ok? && resources[j] == f(objs.value[j]).value
    {
      var obj := objs.value[i];
      var raw := newStruct(obj.fields);
      if raw.Err? {
        MapAllFirstFailure(objs.value, f, i);
        return Err(Internal(Conversion(raw.error)));
      }
      resources := resources + [ResourceMsg(obj.name, obj.gvk, obj.namespace, raw.value, None)];
      i := i + 1;
    }
    assert MapAll(objs.value, f).value == resources;
    r := Ok(resources);
  }

  // ---------------------------------------------------------------- tables

  datatype TabularColumn = TabularColumn(name: string, columnType: string)

  datatype TabularRow = TabularRow(cells: seq<string>, resource: ResourceMsg)

  datatype TabularReply = TabularReply(columns: seq<TabularColumn>, rows: seq<TabularRow>)

  /** One row: its cells printed, its metadata converted to a map and then to a struct. */
  function RowMsg(row: Row, show: Cell -> string, toUnstructured: Meta -> Result<map<string, string>, string>, newStruct: StructFn)
    : Result<TabularRow, string>
  {
    var fields := toUnstructured(row.meta);
    if fields.Err? then Err(fields.error)
    else
      var raw := newStruct(fields.value);
      if raw.Err? then Err(raw.error)
      else
        var m := row.meta;
        Ok(TabularRow(seq(|row.cells|, i requires 0 <= i < |row.cells| => show(row.cells[i])),
                      ResourceMsg(m.name, m.gvk, m.namespace, raw.value, Some(m.creationSeconds))))
  }

  /** The printed cells of one row, in order. */
  method Cells(row: Row, show: Cell -> string) returns (cells: seq<string>)
    ensures |cells| == |row.cells|
    ensures forall j :: 0 <= j < |row.cells| ==> cells[j] == show(row.cells[j])
  {
    cells := [];
    var j := 0;
    while j < |row.cells|
      invariant 0 <= j <= |row.cells| && |cells| == j
      invariant forall k :: 0 <= k < j ==> cells[k] == show(row.cells[k])
    {
      cells := cells + [show(row.cells[j])];
      j := j + 1;
    }
  }

  /** `ListResourceTabular`: one column per column definition and one row per table row, in
      order, each row with as many cells as the table row; or an Internal error for the
      service's failure or the first row whose metadata does not convert. */
  method ListResourceTabular(kubeContext: string, gvr: GVR, namespace: Option<string>,
                             backend: (string, GVR, string) -> Result<Table, Error>,
                             show: Cell -> string,
                             toUnstructured: Meta -> Result<map<string, string>, string>,
                             newStruct: StructFn)
    returns (r: Result<TabularReply, RpcError>)
    ensures var table := backend(kubeContext, gvr, NamespaceOf(namespace));
            && (table.Err? ==> r == Err(Internal(Backend(table.error))))
            && (table.Ok? ==> var all := MapAll(table.value.rows, row => RowMsg(row, show, toUnstructured, newStruct));
                  && (all.Err? ==> r == Err(Internal(Conversion(all.error))))
                  && (all.Ok? ==> r.Ok? && r.value.rows == all.value))
    ensures r.Ok? ==> var table := backend(kubeContext, gvr, NamespaceOf(namespace)).value;
              && |r.value.columns| == |table.columns|
              && (forall i :: 0 <= i < |table.columns| ==>
                    r.value.columns[i] == TabularColumn(table.columns[i].name, table.columns[i].columnType))
              && |r.value.rows| == |table.rows|
              && (forall i :: 0 <= i < |table.rows| ==>
                    && |r.value.rows[i].cells| == |table.rows[i].cells|
                    && (forall j :: 0 <= j < |table.rows[i].cells| ==> r.value.rows[i].cells[j] == show(table.rows[i].cells[j]))
                    && r.value.rows[i].resource.name == table.rows[i].meta.name)
  {
    var result := backend(kubeContext, gvr, NamespaceOf(namespace));
    if result.Err? {
      return Err(Internal(Backend(result.error)));
    }
    var table := result.value;
    var columns: seq<TabularColumn> := [];
    var i := 0;
    while i < |table.columns|
      invariant 0 <= i <= |table.columns| && |columns| == i
      invariant forall j :: 0 <= j < i ==> columns[j] == TabularColumn(table.columns[j].name, table.columns[j].columnType)
    {
      columns := columns + [TabularColumn(table.columns[i].name, table.columns[i].columnType)];
      i := i + 1;
    }
    var f := row => RowMsg(row, show, toUnstructured, newStruct);
    var rows: seq<TabularRow> := [];
    i := 0;
    while i < |table.rows|
      invariant 0 <= i <= |table.rows| && |rows| == i
      invariant forall j :: 0 <= j < i ==> f(table.rows[j]).Ok? && rows[j] == f(table.rows[j]).value
    {
      var row := table.rows[i];
      var cells := Cells(row, show);
      var fields := toUnstructured(row.meta);
      if fields.Err? {
        MapAllFirstFailure(table.rows, f, i);
        return Err(Internal(Conversion(fields.error)));
      }
      var raw := newStruct(fields.value);
      if raw.Err? {
        MapAllFirstFailure(table.rows, f, i);
        return Err(Internal(Conversion(raw.error)));
      }
      var m := row.meta;
      var msg := TabularRow(cells, ResourceMsg(m.name, m.gvk, m.namespace, raw.value, Some(m.creationSeconds)));
      assert msg == f(row).value;
      rows := rows + [msg];
      i := i + 1;
    }
    assert MapAll(table.rows, f).value == rows;
    r := Ok(TabularReply(columns, rows));
  }
}

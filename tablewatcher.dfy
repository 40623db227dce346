/** The table watcher: the server-side rendered table of one resource type (its columns and one
    row per object), filled by a list call and kept current by a watch whose events each carry
    a one-row table. Rows are stored in arrival order; snapshots are sorted by name. */
module TableWatch {
  import opened Wrappers
  import opened Strings
  import opened Sorting
  import opened Kube

  /** The REST path prefix of a group and version: the legacy core group lives under "/api". */
  function ApiPath(gvr: GVR): string {
    (if gvr.group != "" then "/apis/" + gvr.group else "/api") + "/" + gvr.version
  }

  const CorePrefix: string := "/api/"
  const GroupPrefix: string := "/apis/"

  /** Reads a path made by `ApiPath` back into its group and version. */
  function ParseApiPath(path: string): Option<(string, string)> {
    if |path| >= |GroupPrefix| && path[..|GroupPrefix|] == GroupPrefix then
      var rest := path[|GroupPrefix|..];
      var parts := Split(rest, '/');
      if |parts| >= 2 && parts[0] != "" then Some((parts[0], rest[|parts[0]| + 1..])) else None
    else if |path| >= |CorePrefix| && path[..|CorePrefix|] == CorePrefix then
      Some(("", path[|CorePrefix|..]))
    else
      None
  }

  lemma SplitFirstPiece(g: string, v: string)
    requires '/' !in g
    ensures var parts := Split(g + "/" + v, '/'); |parts| >= 2 && parts[0] == g
  {
    var rest := Split(v, '/');
    SplitJoin([g] + rest, '/');
    assert ([g] + rest)[1..] == rest;
    assert Join([g] + rest, '/') == g + "/" + Join(rest, '/');
  }

  /** A group without a slash and any version survive the trip through the path. */
  lemma ApiPathRoundTrip(gvr: GVR)
    requires '/' !in gvr.group
    ensures ParseApiPath(ApiPath(gvr)) == Some((gvr.group, gvr.version))
  {
    var path := ApiPath(gvr);
    if gvr.group != "" {
      var rest := gvr.group + "/" + gvr.version;
      assert path == GroupPrefix + rest;
      assert path[..|GroupPrefix|] == GroupPrefix;
      assert path[|GroupPrefix|..] == rest;
      SplitFirstPiece(gvr.group, gvr.version);
      assert rest[|gvr.group| + 1..] == gvr.version;
    } else {
      assert path == CorePrefix + gvr.version;
      assert path[..|CorePrefix|] == CorePrefix;
      assert !(|path| >= |GroupPrefix| && path[..|GroupPrefix|] == GroupPrefix) by {
        assert path[4] == '/' && GroupPrefix[4] == 's';
      }
      assert path[|CorePrefix|..] == gvr.version;
    }
  }

  lemma ApiPathExamples()
    ensures ApiPath(GVR("apps", "v1", "deployments")) == "/apis/apps/v1"
    ensures ApiPath(GVR("", "v1", "pods")) == "/api/v1"
  {
  }

  /** The object metadata each row carries once decoded. */
  datatype Meta = Meta(uid: string, name: string, namespace: string, gvk: GVK, creationSeconds: int)

  /** A cell value as the server sends it. */
  datatype Cell = StringCell(s: string) | IntCell(i: int) | BoolCell(b: bool)

  datatype Column = Column(name: string, columnType: string)

  /** A row as received: the cells and the undecoded object. */
  datatype RawRow = RawRow(cells: seq<Cell>, raw: string)

  datatype Row = Row(cells: seq<Cell>, meta: Meta)

  datatype RawTable = RawTable(resourceVersion: string, columns: seq<Column>, rows: seq<RawRow>)

  datatype Table = Table(columns: seq<Column>, rows: seq<Row>)

  /** Decoding of a row's object into its metadata (a JSON decode that may fail). */
  type Decoder = string -> Result<Meta, string>

  /** All rows decoded, or the first decode failure. */
  function DecodeAll(rows: seq<RawRow>, decode: Decoder): (r: Result<seq<Row>, Error>)
    ensures r.Ok? <==> forall i :: 0 <= i < |rows| ==> decode(rows[i].raw).Ok?
    ensures r.Ok? ==> |r.value| == |rows|
                      && forall i :: 0 <= i < |rows| ==> r.value[i] == Row(rows[i].cells, decode(rows[i].raw).value)
    decreases |rows|
  {
    if rows == [] then Ok([])
    else
      var head := decode(rows[0].raw);
      if head.Err? then Err(DecodeFailed(head.error))
      else
        var tail := DecodeAll(rows[1..], decode);
        assert forall i :: 1 <= i < |rows| ==> rows[i] == rows[1..][i - 1];
        if tail.Err? then tail else Ok([Row(rows[0].cells, head.value)] + tail.value)
  }

  /** A failure is reported for the first row that does not decode. */
  lemma {:induction false} DecodeAllFirstFailure(rows: seq<RawRow>, decode: Decoder, i: nat)
    requires i < |rows| && decode(rows[i].raw).Err?
    requires forall j :: 0 <= j < i ==> decode(rows[j].raw).Ok?
    ensures DecodeAll(rows, decode) == Err(DecodeFailed(decode(rows[i].raw).error))
    decreases i
  {
    if i > 0 {
      assert forall j :: 0 <= j < i - 1 ==> rows[1..][j] == rows[j + 1];
      DecodeAllFirstFailure(rows[1..], decode, i - 1);
    }
  }

  /** `decodeTableRows`: decode row by row, stopping at the first failure. */
  method DecodeRows(rows: seq<RawRow>, decode: Decoder) returns (r: Result<seq<Row>, Error>)
    ensures r == DecodeAll(rows, decode)
  {
    var decoded: seq<Row> := [];
    var i := 0;
    while i < |rows|
      invariant 0 <= i <= |rows| && |decoded| == i
      invariant forall j :: 0 <= j < i ==> decode(rows[j].raw).Ok?
      invariant forall j :: 0 <= j < i ==> decoded[j] == Row(rows[j].cells, decode(rows[j].raw).value)
    {
      var meta := decode(rows[i].raw);
      if meta.Err? {
        DecodeAllFirstFailure(rows, decode, i);
        return Err(DecodeFailed(meta.error));
      }
      decoded := decoded + [Row(rows[i].cells, meta.value)];
      i := i + 1;
    }
    r := Ok(decoded);
    assert DecodeAll(rows, decode).value == decoded;
  }

  /** The position of the first row with the given UID, or -1. */
  function UidIndex(rows: seq<Row>, uid: string): (i: int)
    ensures -1 <= i < |rows|
    ensures i >= 0 ==> rows[i].meta.uid == uid
    ensures forall j :: 0 <= j < |rows| && (i == -1 || j < i) ==> rows[j].meta.uid != uid
    decreases |rows|
  {
    if rows == [] then -1
    else if rows[0].meta.uid == uid then 0
    else
      var j := UidIndex(rows[1..], uid);
      assert forall k :: 1 <= k < |rows| ==> rows[k] == rows[1..][k - 1];
      if j == -1 then -1 else j + 1
  }

  /** A Modified event: the first row with the row's UID is replaced, nothing else moves. */
  function ReplaceFirst(rows: seq<Row>, row: Row): (r: seq<Row>)
    ensures |r| == |rows|
    ensures UidIndex(rows, row.meta.uid) == -1 ==> r == rows
    ensures UidIndex(rows, row.meta.uid) >= 0 ==> r[UidIndex(rows, row.meta.uid)] == row
    ensures forall j :: 0 <= j < |rows| && j != UidIndex(rows, row.meta.uid) ==> r[j] == rows[j]
  {
    var i := UidIndex(rows, row.meta.uid);
    if i == -1 then rows else rows[i := row]
  }

  /** A Deleted event: the first row with the UID is removed; the rest keep their order. */
  function RemoveFirst(rows: seq<Row>, uid: string): (r: seq<Row>)
    ensures UidIndex(rows, uid) == -1 ==> r == rows
    ensures UidIndex(rows, uid) >= 0 ==>
              var i := UidIndex(rows, uid);
              && |r| == |rows| - 1
              && (forall j :: 0 <= j < i ==> r[j] == rows[j])
              && (forall j :: i <= j < |r| ==> r[j] == rows[j + 1])
              && multiset(r) + multiset{rows[i]} == multiset(rows)
  {
    var i := UidIndex(rows, uid);
    if i == -1 then rows
    else
      assert rows == rows[..i] + [rows[i]] + rows[i + 1..];
      rows[..i] + rows[i + 1..]
  }

  /** A decoded event applied to the stored rows: Added appends, even when the UID is already
      present; Modified and Deleted act on the first row with the UID; Error changes nothing. */
  function ApplyRowEvent(rows: seq<Row>, e: Event<Row>): seq<Row> {
    match e
    case Added(row) => rows + [row]
    case Modified(row) => ReplaceFirst(rows, row)
    case Deleted(row) => RemoveFirst(rows, row.meta.uid)
    case Failure(_) => rows
  }

  /** Adding a row whose UID is new and then deleting it restores the rows. */
  lemma AddThenDelete(rows: seq<Row>, row: Row)
    requires UidIndex(rows, row.meta.uid) == -1
    ensures ApplyRowEvent(ApplyRowEvent(rows, Added(row)), Deleted(row)) == rows
  {
    var added := rows + [row];
    assert added[..|rows|] == rows;
    assert UidIndex(added, row.meta.uid) == |rows| by {
      assert added[|rows|] == row;
      assert forall j :: 0 <= j < |rows| ==> added[j] == rows[j];
    }
    assert added[..|rows|] + added[|rows| + 1..] == rows;
  }

  /** Adding a row whose UID is already present stores a second row for it. */
  lemma AddedDuplicates(rows: seq<Row>, row: Row)
    requires UidIndex(rows, row.meta.uid) >= 0
    ensures var r := ApplyRowEvent(rows, Added(row));
            |r| == |rows| + 1 && r[UidIndex(rows, row.meta.uid)].meta.uid == r[|rows|].meta.uid
  {
  }

  function RowName(r: Row): string {
    r.meta.name
  }

  /** The event's first row, decoded, as the event to apply; None when decoding fails. */
  function DecodedEvent(e: Event<seq<RawRow>>, decode: Decoder): Option<Event<Row>>
    requires !e.Failure? ==> |e.obj| >= 1
  {
    match e
    case Failure(reason) => Some(Failure(reason))
    case Added(raw) => (var d := DecodeAll(raw, decode); if d.Err? then None else Some(Added(d.value[0])))
    case Modified(raw) => (var d := DecodeAll(raw, decode); if d.Err? then None else Some(Modified(d.value[0])))
    case Deleted(raw) => (var d := DecodeAll(raw, decode); if d.Err? then None else Some(Deleted(d.value[0])))
  }

  class TableWatcher {
    const config: WatcherConfig
    const apiPath: string
    var watch: Option<nat>
    var table: Table
    var lastUsed: int
    /** Set when the initial decode failed: the table lock is never released, so every later
        call blocks. */
    var tableLockHeld: bool

    constructor (config: WatcherConfig, now: int)
      ensures this.config == config && apiPath == ApiPath(config.gvr)
      ensures watch == None && table == Table([], []) && lastUsed == now && !tableLockHeld
    {
      this.config := config;
      apiPath := ApiPath(config.gvr);
      watch := None;
      table := Table([], []);
      lastUsed := now;
      tableLockHeld := false;
    }

    /** The body of `GetTable`: when no watch runs, list and watch in the configured scope and
        store the decoded table; then hand out a copy with the rows sorted by name. When the
        list does not decode, `holdOnDecodeFailure` chooses between returning with the table
        lock still held and the watch recorded, and giving both up. */
    method GetTableWith(holdOnDecodeFailure: bool, listFn: Scope -> Result<RawTable, string>,
                        watchFn: (Scope, WatchOptions) -> Result<nat, string>, decode: Decoder)
      returns (r: Result<Table, Error>)
      requires !tableLockHeld
      modifies this
      ensures lastUsed == old(lastUsed)
      ensures old(watch).Some? ==> watch == old(watch) && table == old(table) && !tableLockHeld && r.Ok?
      ensures old(watch).None? ==>
                var scope := ScopeOf(config.namespace);
                var listing := listFn(scope);
                && (listing.Err? ==>
                      r == Err(ListFailed(config.kubeContext, config.gvr, listing.error))
                      && watch == None && table == old(table) && !tableLockHeld)
                && (listing.Ok? && watchFn(scope, WatchFrom(listing.value.resourceVersion)).Err? ==>
                      r == Err(WatchFailed(config.kubeContext, config.gvr, watchFn(scope, WatchFrom(listing.value.resourceVersion)).error))
                      && watch == None && table == old(table) && !tableLockHeld)
                && (listing.Ok? && watchFn(scope, WatchFrom(listing.value.resourceVersion)).Ok? ==>
                      var started := watchFn(scope, WatchFrom(listing.value.resourceVersion)).value;
                      var decoded := DecodeAll(listing.value.rows, decode);
                      && (decoded.Ok? ==>
                            watch == Some(started) && table == Table(listing.value.columns, decoded.value) && !tableLockHeld)
                      && (decoded.Err? ==> r == Err(decoded.error))
                      && (decoded.Err? && holdOnDecodeFailure ==> watch == Some(started) && tableLockHeld)
                      && (decoded.Err? && !holdOnDecodeFailure ==> watch == None && table == old(table) && !tableLockHeld))
      ensures r.Err? && !holdOnDecodeFailure ==> watch == old(watch) && table == old(table)
      ensures r.Ok? ==>
                && r.value.columns == table.columns
                && multiset(r.value.rows) == multiset(table.rows)
                && SortedBy(r.value.rows, RowName)
    {
      if watch.None? {
        var scope := ScopeOf(config.namespace);
        var listing := listFn(scope);
        if listing.Err? {
          return Err(ListFailed(config.kubeContext, config.gvr, listing.error));
        }
        var started := watchFn(scope, WatchFrom(listing.value.resourceVersion));
        if started.Err? {
          return Err(WatchFailed(config.kubeContext, config.gvr, started.error));
        }
        var decoded := DecodeRows(listing.value.rows, decode);
        if decoded.Err? {
          if holdOnDecodeFailure {
            watch := Some(started.value);
            tableLockHeld := true;
          }
          return Err(decoded.error);
        }
        watch := Some(started.value);
        table := Table(listing.value.columns, decoded.value);
      }
      r := Ok(Table(table.columns, SortBy(table.rows, RowName)));
    }

    /** `GetTable` as written: a list that does not decode is reported, but the table lock is
        left held and the watch recorded, so every later call waits forever. */
    method GetTable(listFn: Scope -> Result<RawTable, string>, watchFn: (Scope, WatchOptions) -> Result<nat, string>, decode: Decoder)
      returns (r: Result<Table, Error>)
      requires !tableLockHeld
      modifies this
      ensures old(watch).None? && listFn(ScopeOf(config.namespace)).Ok? ==>
                var listing := listFn(ScopeOf(config.namespace)).value;
                var started := watchFn(ScopeOf(config.namespace), WatchFrom(listing.resourceVersion));
                started.Ok? && DecodeAll(listing.rows, decode).Err? ==>
                  && r == Err(DecodeAll(listing.rows, decode).error)
                  && tableLockHeld && watch == Some(started.value)
      ensures r.Ok? ==>
                && !tableLockHeld
                && r.value.columns == table.columns
                && multiset(r.value.rows) == multiset(table.rows)
                && SortedBy(r.value.rows, RowName)
    {
      r := GetTableWith(true, listFn, watchFn, decode);
    }

    /** `GetTable` as evidently intended: a list that does not decode gives up the lock and the
        watch, so the table lock is never left held and the next call lists again. */
    method GetTableReleasing(listFn: Scope -> Result<RawTable, string>, watchFn: (Scope, WatchOptions) -> Result<nat, string>, decode: Decoder)
      returns (r: Result<Table, Error>)
      requires !tableLockHeld
      modifies this
      ensures !tableLockHeld && lastUsed == old(lastUsed)
      ensures r.Err? ==> watch == old(watch) && table == old(table)
      ensures old(watch).Some? ==> watch == old(watch) && table == old(table) && r.Ok?
      ensures old(watch).None? ==>
                var scope := ScopeOf(config.namespace);
                var listing := listFn(scope);
                && (listing.Err? ==> r == Err(ListFailed(config.kubeContext, config.gvr, listing.error)))
                && (listing.Ok? && watchFn(scope, WatchFrom(listing.value.resourceVersion)).Err? ==>
                      r == Err(WatchFailed(config.kubeContext, config.gvr, watchFn(scope, WatchFrom(listing.value.resourceVersion)).error)))
                && (listing.Ok? && watchFn(scope, WatchFrom(listing.value.resourceVersion)).Ok? ==>
                      && (DecodeAll(listing.value.rows, decode).Err? ==> r == Err(DecodeAll(listing.value.rows, decode).error))
                      && (DecodeAll(listing.value.rows, decode).Ok? ==> r.Ok?))
      ensures old(watch).None? && r.Ok? ==>
                && listFn(ScopeOf(config.namespace)).Ok?
                && var listing := listFn(ScopeOf(config.namespace)).value;
                   && watchFn(ScopeOf(config.namespace), WatchFrom(listing.resourceVersion)).Ok?
                   && watch == Some(watchFn(ScopeOf(config.namespace), WatchFrom(listing.resourceVersion)).value)
                   && DecodeAll(listing.rows, decode).Ok?
                   && table == Table(listing.columns, DecodeAll(listing.rows, decode).value)
      ensures r.Ok? ==>
                && r.value.columns == table.columns
                && multiset(r.value.rows) == multiset(table.rows)
                && SortedBy(r.value.rows, RowName)
    {
      r := GetTableWith(false, listFn, watchFn, decode);
    }

    /** One event of the background watch: decode the event's rows, then apply its first row,
        searching the stored rows for the first one with the same UID. */
    method OnEvent(e: Event<seq<RawRow>>, decode: Decoder)
      requires !e.Failure? ==> |e.obj| >= 1
      modifies this
      ensures table.columns == old(table.columns)
      ensures DecodedEvent(e, decode).None? ==> table == old(table)
      ensures DecodedEvent(e, decode).Some? ==> table.rows == ApplyRowEvent(old(table.rows), DecodedEvent(e, decode).value)
      ensures watch == old(watch) && lastUsed == old(lastUsed) && tableLockHeld == old(tableLockHeld)
    {
      if e.Failure? {
        return;
      }
      var decoded := DecodeRows(e.obj, decode);
      if decoded.Err? {
        return;
      }
      var row := decoded.value[0];
      var uid := row.meta.uid;
      var rows := table.rows;
      if e.Added? {
        rows := rows + [row];
      } else {
        var i := 0;
        while i < |rows|
          invariant 0 <= i <= |rows|
          invariant rows == table.rows
          invariant forall j :: 0 <= j < i ==> rows[j].meta.uid != uid
        {
          if rows[i].meta.uid == uid {
            assert UidIndex(rows, uid) == i;
            if e.Modified? {
              rows := rows[i := row];
            } else {
              rows := rows[..i] + rows[i + 1..];
            }
            break;
          }
          i := i + 1;
        }
      }
      table := Table(table.columns, rows);
    }

    method UpdateLastUsed(now: int)
      modifies this
      ensures lastUsed == now
      ensures watch == old(watch) && table == old(table) && tableLockHeld == old(tableLockHeld)
    {
      lastUsed := now;
    }

    method Stop()
      modifies this
      ensures watch == None
      ensures table == old(table) && lastUsed == old(lastUsed) && tableLockHeld == old(tableLockHeld)
    {
      watch := None;
    }
  }

  /** A first list whose row does not decode leaves the watcher with its table lock held, so
      no later `GetTable` can run. */
  method DecodeFailureBlocks() returns (tw: TableWatcher, r: Result<Table, Error>)
    ensures r == Err(DecodeFailed("unexpected end of JSON input"))
    ensures tw.tableLockHeld && tw.watch == Some(7)
  {
    tw := new TableWatcher(WatcherConfig("kind", GVR("", "v1", "pods"), "default"), 0);
    var listing := RawTable("1", [Column("Name", "string")], [RawRow([StringCell("web-1")], "{")]);
    var decode: Decoder := _ => Err("unexpected end of JSON input");
    DecodeAllFirstFailure(listing.rows, decode, 0);
    r := tw.GetTable(_ => Ok(listing), (_, _) => Ok(7), decode);
  }
}

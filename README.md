# Spyglass core, modelled in Dafny

Spyglass is a desktop Kubernetes browser. A Go backend keeps caches of cluster objects and
serves them over gRPC. A TypeScript frontend polls the backend and renders the answers in tables.
This project models the sequential core of both halves and proves what each part promises.

**Frontend**
- `Render` (render.ts): the cell-rendering builder and the render function it builds. It also
  covers the stock decorators: ellipsis, translation, relative time, status badge with its
  severity sort key, and selector pills. DOM nodes are values: `Text(s)` or an element with
  title, classes, children and `data-*` attributes. "Now", `dayjs(...).format()`,
  `Number(data)` and `translateTableCell` are parameters.
- `Refresh` (refresher.ts): the refresh scheduler, as a class. Promise completion (`Resolve`,
  `Reject`) and timer expiry (`Fire`) are explicit event methods. The environment (aborted
  controllers, armed timers, fetches in flight, reported errors) lives in fields.
- `Translator` (translator.ts): the language-fallback lookup, with identity as the last resort.
- `TableConfig` (config.ts): the pods override. It hides "Nominated Node" and
  "Readiness Gates", orders "Status" and "Ready" first, and renders Status as an HTML badge.

**Backend**
- `Kube`: shared types and the UID-keyed object cache. It covers list population, watch
  events, the name-sorted snapshot, and the least-recently-used search.
- `Watcher` (watcher.go), `ListWatch` (listwatcher.go) and `TableWatch` (tablewatcher.go): the
  three watchers as classes. The list and watch calls are parameters of the scope they are sent
  to. The background goroutine becomes `OnEvent` and `WatchEnded`, called once per event and
  once when the stream closes.
- `Connection` (connection.go) and `Service` (service.go): the bounded watcher cache and the
  bounded connection cache, each evicting the entry with the least last-use time.
- `Handler` (handler.go): the gRPC replies. It splits group-versions, assembles discovery
  replies, copies object lists and tables, defaults the namespace, and maps every error to
  Internal.

**Helpers**
- `Strings`: split and join, lexicographic order, decimal printing, `padStart`, ASCII
  lower-casing.
- `Sorting`: a sort by key that promises sorted output and a permutation. It stands for
  `sort.Slice`, `sort.Strings` and JavaScript key order without fixing a tie order.

## Model

| member | source | states |
|---|---|---|
| Render.Renderer.Render | frontend/src/lib/table/render.ts:37-51 | modes "sort" and "type" give `sortFn(data,row)`; "filter" gives `filterFn(data,row)`; any other non-display mode gives the data unchanged; display with no decorators gives the data |
| Render.FoldAppend | frontend/src/lib/table/render.ts:45-46 | folding one more decorator applies it to the result of the shorter fold (the left fold seeded with the data) |
| Render.DisplayAfterDecorate | frontend/src/lib/table/render.ts:22-25 | a renderer with one more decorator displays that decorator applied to the shorter renderer's display; sort and filter modes are unaffected |
| Render.RenderBuilder.Create | frontend/src/lib/table/render.ts:12-20 | a new builder has no decorators and identity sort and filter |
| Render.RenderBuilder.Decorate | frontend/src/lib/table/render.ts:22-25 | appends the decorator; sort and filter unchanged |
| Render.RenderBuilder.Filter | frontend/src/lib/table/render.ts:27-30 | replaces the filter transform; nothing else changes |
| Render.RenderBuilder.Sort | frontend/src/lib/table/render.ts:32-35 | replaces the sort transform; nothing else changes |
| Render.RenderBuilder.Build | frontend/src/lib/table/render.ts:37-51 | the renderer carries exactly the builder's decorators and transforms at the time of the call |
| Render.Ellipsis | frontend/src/lib/table/render.ts:54-67 | wraps the value in a truncating span with the same text; title is the text for plain text and the element's own title otherwise |
| Render.TranslateCell | frontend/src/lib/table/render.ts:70-72 | always plain text: the translation of the value's text content |
| Render.RenderDefault | frontend/src/lib/table/render.ts:74-79 | display is the ellipsis of the translation; sort and filter give the raw data |
| Render.DefaultDisplayShowsTranslation | frontend/src/lib/table/render.ts:74-79 | the default display shows the translation and uses it as tooltip |
| Render.LargestUnit | frontend/src/lib/table/render.ts:94-112 | the count is the floor of the difference in the chosen unit; the unit is the largest of y/d/h/m that fits at least once, else seconds |
| Render.RelativeTextDirection | frontend/src/lib/table/render.ts:86-92 | the text starts with "in " exactly when the timestamp is in the future and ends with " ago" exactly otherwise |
| Render.RelativeTextExamples | frontend/src/lib/table/render.ts:94-114 | 90000 s in the past gives "1d ago", 120 s ahead gives "in 2m", zero difference gives "0s ago" |
| Render.RelativeTimeSpan | frontend/src/lib/table/render.ts:116-120 | the span shows the relative text, has the absolute time as title and the raw data as `ageTimestamp` |
| Render.RenderRelativeTime | frontend/src/lib/table/render.ts:81-125 | display is the ellipsis of the relative-time span for the `nowMs` given when the renderer is built; sort and filter give the raw data |
| Render.IndexOf | frontend/src/lib/table/render.ts:154 | the first position of the key, or -1 exactly when it is absent |
| Render.StatusClass | frontend/src/lib/table/render.ts:128-136 | "secondary" for an unmapped status, one of the four mapped classes otherwise |
| Render.StatusBadge | frontend/src/lib/table/render.ts:141-152 | an element passes through; text becomes a badge with class "bg-" + class of the raw data, title the raw data, content the text |
| Render.StatusSortKey | frontend/src/lib/table/render.ts:153-156 | a known status gives its key-order index zero-padded to three digits; an unknown one gives "999" + data |
| Render.StatusSortKeyFailed | frontend/src/lib/table/render.ts:153-156 | "Failed" sorts under "005" |
| Render.StatusSortKeyUnknown | frontend/src/lib/table/render.ts:155 | "Unknown" sorts under "999Unknown" |
| Render.StatusSortKeyOrder | frontend/src/lib/table/render.ts:128-136 | known statuses sort by their position in the map; each known status sorts before each unknown one |
| Render.StatusSortKeyInjective | frontend/src/lib/table/render.ts:153-156 | distinct statuses get distinct sort keys |
| Render.RenderStatus | frontend/src/lib/table/render.ts:127-158 | display is the badge of the translation; sort and type give the status sort key; filter gives the raw data |
| Render.PairTextExact | frontend/src/lib/table/render.ts:170-179 | an item with exactly one "=" shows as itself |
| Render.PairTextDropsTail | frontend/src/lib/table/render.ts:171-179 | with a second "=", the text after it is dropped |
| Render.Pill | frontend/src/lib/table/render.ts:175-180 | a pill's text is `parts[0]=parts[1]` of its item |
| Render.SelectorBadges | frontend/src/lib/table/render.ts:162-183 | an element passes through; text becomes a container titled with the whole text, holding one pill per comma-separated item |
| Render.SelectorBadgesRoundTrip | frontend/src/lib/table/render.ts:167-183 | when every item has one "=", the pill texts joined by "," give back the selector |
| Render.SelectorExample | frontend/src/lib/table/render.ts:167-183 | "app=api,tier=backend" gives two pills "app=api" and "tier=backend" |
| Render.RenderSelector | frontend/src/lib/table/render.ts:160-187 | display is the ellipsis of the selector badges; sort and filter give the raw data |
| Translator.Lookup | frontend/src/lib/translator.ts:43-44 | a hit exactly when the language table holds the key with a non-empty value |
| Translator.FirstHit | frontend/src/lib/translator.ts:42-47 | the hit of the first language that has one; no hit exactly when none has |
| Translator.Translate | frontend/src/lib/translator.ts:39-50 | the loop with early return computes the fallback chain's first hit, or the input |
| Translator.TranslationIsEnglish | frontend/src/lib/translator.ts:8-49 | with only an English table, every browser language gets the English entry or the input |
| Translator.EnglishNonEmpty | frontend/src/lib/translator.ts:9-36 | no English entry is empty, so none is skipped by the truthiness test |
| Translator.MissIsIdentity | frontend/src/lib/translator.ts:49 | a key no table holds comes back unchanged |
| Translator.EnglishVariantsFallBack | frontend/src/lib/translator.ts:1-4 | "en-gb" and "en-us" fall back to "en" |
| Translator.TranslationIgnoresCase | frontend/src/lib/translator.ts:40 | the browser language's case does not matter |
| Translator.DeploymentsExample | frontend/src/lib/translator.ts:14 | "apps/v1::deployments" translates to "Deployments" |
| TableConfig.PodStatusClass | frontend/src/lib/table/config.ts:10-19 | the mapped class, or "secondary" for an unmapped status |
| TableConfig.PodStatusHtml | frontend/src/lib/table/config.ts:8-20 | the badge opens and closes the span and holds the raw data verbatim |
| TableConfig.BadgeRoundTrip | frontend/src/lib/table/config.ts:19 | class and raw data can be read back from the badge, whatever the data holds |
| TableConfig.RunningExample | frontend/src/lib/table/config.ts:11-19 | "Running" renders as a `bg-success` badge |
| TableConfig.MapMatchesRendererTable | frontend/src/lib/table/config.ts:10-17 | the pods map agrees with the status renderer's map except that it lacks "OOMKilled" |
| TableConfig.ClassesAgreeWithRenderer | frontend/src/lib/table/config.ts:10-19 | the pods badge colours like the status renderer except for "OOMKilled", which gets "secondary" |
| Refresh.Refresher.constructor | frontend/src/lib/grpc/refresher.ts:8-18 | no controller, no timer, default interval 5000 |
| Refresh.Refresher.Abort | frontend/src/lib/grpc/refresher.ts:20-28 | aborts the current controller if any, clears the armed timer and forgets it; no live fetch remains |
| Refresh.Refresher.AfterRefresh | frontend/src/lib/grpc/refresher.ts:30-35 | forgets the controller and arms exactly one new timer for the interval |
| Refresh.Refresher.Refresh | frontend/src/lib/grpc/refresher.ts:37-42 | aborts first, then starts one fetch with a fresh controller whose signal is handed to the handler |
| Refresh.Refresher.Resolve | frontend/src/lib/grpc/refresher.ts:42-45 | a completed live fetch re-arms: controller cleared, one timer for the interval |
| Refresh.Refresher.Reject | frontend/src/lib/grpc/refresher.ts:46-54 | Canceled changes nothing else; any other error is reported once and re-arms as on success |
| Refresh.Refresher.Fire | frontend/src/lib/grpc/refresher.ts:32-34 | only the armed timer can fire, and it starts a refresh |
| Refresh.AtMostOneTimer | frontend/src/lib/grpc/refresher.ts:20-55 | under the scheduler invariant at most one timer is armed, none when `refreshCancel` is null |
| Refresh.AtMostOneLiveFetch | frontend/src/lib/grpc/refresher.ts:37-55 | under the invariant at most one non-aborted fetch is in flight, the current controller's |
| Refresh.AbortTwice | frontend/src/lib/grpc/refresher.ts:20-28 | two aborts leave the state of one |
| Refresh.StaleSuccess | frontend/src/lib/grpc/refresher.ts:42-54 | a superseded fetch that ignores its abort and succeeds leaves two timers armed |
| Kube.WatchFrom | internal/kubernetes/watcher.go:74-78 | the watch starts at the list's resource version with a 120 s timeout |
| Kube.ScopeOf | internal/kubernetes/listwatcher.go:49-53 | an empty namespace means the whole cluster, any other one that namespace |
| Kube.Upsert | internal/kubernetes/watcher.go:87-91 | the cache holds the old keys and the UID of every listed item |
| Kube.UpsertLastWins | internal/kubernetes/watcher.go:87-91 | the last item with a UID is the one stored |
| Kube.UpsertKeepsOthers | internal/kubernetes/watcher.go:87-91 | entries no item names are kept |
| Kube.Populate | internal/kubernetes/watcher.go:86-92 | the population loop computes `Upsert` |
| Kube.ApplyEvent | internal/kubernetes/watcher.go:101-116 | Added and Modified store the object under its UID; Deleted removes the UID; Error changes nothing; no other key changes |
| Kube.AddThenDelete | internal/kubernetes/watcher.go:102-107 | adding a new object and deleting it restores the cache |
| Kube.DeleteAbsent | internal/kubernetes/watcher.go:105-107 | deleting an absent UID changes nothing |
| Kube.ModifiedIdempotent | internal/kubernetes/watcher.go:102-104 | replaying a Modified event changes nothing more |
| Kube.Snapshot | internal/kubernetes/watcher.go:128-140 | exactly the cached objects, each once, sorted by name |
| Kube.OldestKey | internal/kubernetes/connection.go:90-97 | a key of the map with the least last-use time |
| Watcher.ResourceWatcher.constructor | internal/kubernetes/watcher.go:35-43 | empty cache, no watch, last use now |
| Watcher.ResourceWatcher.ListAll | internal/kubernetes/watcher.go:55-141 | sets last use; with no watch, lists and watches from the list's version and stores the items; a list or watch failure returns its error with no watch and the cache untouched; success returns the sorted snapshot |
| Watcher.ResourceWatcher.OnEvent | internal/kubernetes/watcher.go:99-118 | the cache after an event is `ApplyEvent` of the cache before |
| Watcher.ResourceWatcher.WatchEnded | internal/kubernetes/watcher.go:120-122 | the watch is cleared; the cache is kept |
| ListWatch.ListWatcher.constructor | internal/kubernetes/listwatcher.go:31-36 | empty cache, no watch, last use now |
| ListWatch.ListWatcher.List | internal/kubernetes/listwatcher.go:38-127 | with no watch, lists in the configured scope, watches the whole cluster and stores the items over the existing cache; failures leave the cache and watch as they were; success returns the sorted snapshot |
| ListWatch.ListWatcher.ListConsistent | internal/kubernetes/listwatcher.go:38-127 | as `List`, but the watch looks at the listed scope and the cache becomes exactly the listed items |
| ListWatch.ListWatcher.OnEvent | internal/kubernetes/listwatcher.go:85-104 | the cache after an event is `ApplyEvent` of the cache before |
| ListWatch.ListWatcher.WatchEnded | internal/kubernetes/listwatcher.go:106-108 | the watch is cleared; the cache is kept |
| ListWatch.ListWatcher.UpdateLastUsed | internal/kubernetes/connection.go:84 | last use set to now; nothing else changes |
| ListWatch.ListWatcher.Stop | internal/kubernetes/connection.go:99 | the watch is stopped; the cache is kept |
| ListWatch.ApplyEventKeepsScope | internal/kubernetes/listwatcher.go:87-102 | a cache holding only objects of a scope keeps that property under every event of that scope |
| ListWatch.UpsertKeepsScope | internal/kubernetes/listwatcher.go:73-78 | storing listed objects of a scope keeps the cache in that scope |
| ListWatch.StaleAfterRelist | internal/kubernetes/listwatcher.go:73-78 | an object deleted while no watch ran is still returned after the re-list |
| ListWatch.ForeignNamespaceLeaks | internal/kubernetes/listwatcher.go:49-65 | a watcher of namespace "a" returns an object of namespace "b" |
| ListWatch.ConsistentWatchStaysInScope | internal/kubernetes/listwatcher.go:49-65 | when list and watch use the same scope, the cache never holds an object outside it |
| TableWatch.ApiPathRoundTrip | internal/kubernetes/tablewatcher.go:35-42 | group and version are read back from the API path: "/apis/GROUP/VERSION", or "/api/VERSION" for the core group |
| TableWatch.ApiPathExamples | internal/kubernetes/tablewatcher.go:35-42 | "apps"/"v1" gives "/apis/apps/v1"; the core group gives "/api/v1" |
| TableWatch.DecodeAll | internal/kubernetes/tablewatcher.go:57-67 | succeeds exactly when every row decodes, keeping the cells and attaching each row's metadata |
| TableWatch.DecodeAllFirstFailure | internal/kubernetes/tablewatcher.go:58-63 | the error is the first failing row's |
| TableWatch.DecodeRows | internal/kubernetes/tablewatcher.go:57-67 | the decode loop computes `DecodeAll` |
| TableWatch.UidIndex | internal/kubernetes/tablewatcher.go:144-156 | the first row with the UID, or -1 when none has it |
| TableWatch.ReplaceFirst | internal/kubernetes/tablewatcher.go:143-155 | Modified replaces only the first matching row, with no match nothing changes, and the rows keep their order |
| TableWatch.RemoveFirst | internal/kubernetes/tablewatcher.go:143-155 | Deleted removes exactly the first matching row and keeps the others in order; with no match nothing changes |
| TableWatch.AddThenDelete | internal/kubernetes/tablewatcher.go:141-155 | appending a row with a new UID and deleting it restores the rows |
| TableWatch.AddedDuplicates | internal/kubernetes/tablewatcher.go:141-142 | Added appends even when the UID is present, leaving two rows for it |
| TableWatch.TableWatcher.constructor | internal/kubernetes/tablewatcher.go:26-55 | the watcher's API path is computed from its group and version; empty table, no watch |
| TableWatch.TableWatcher.GetTableWith | internal/kubernetes/tablewatcher.go:69-197 | with no watch, lists and watches in the configured scope and stores the decoded table; failures return their error; success returns the same columns and the stored rows permuted and sorted by name, without reordering the store |
| TableWatch.TableWatcher.GetTable | internal/kubernetes/tablewatcher.go:110-117 | a list that does not decode returns the error with the lock held and the watch recorded |
| TableWatch.TableWatcher.GetTableReleasing | internal/kubernetes/tablewatcher.go:69-197 | the lock is never left held; with no watch running, the list, watch and decode errors pass through and a decodable list gives a result; an error leaves watch and table as they were |
| TableWatch.TableWatcher.OnEvent | internal/kubernetes/tablewatcher.go:126-170 | an event whose rows decode applies its first row (append, replace first, remove first); an Error event or a decode failure leaves the table unchanged |
| TableWatch.TableWatcher.UpdateLastUsed | internal/kubernetes/connection.go:84 | last use set to now; nothing else changes |
| TableWatch.TableWatcher.Stop | internal/kubernetes/connection.go:99 | the watch is stopped; the table is kept |
| TableWatch.DecodeFailureBlocks | internal/kubernetes/tablewatcher.go:113-117 | a first list that does not decode leaves the table lock held |
| Connection.Watcher.UpdateLastUsed | internal/kubernetes/connection.go:84 | the watcher's last use becomes now |
| Connection.Watcher.Stop | internal/kubernetes/connection.go:99 | the watcher no longer runs |
| Connection.NewWatcher | internal/kubernetes/connection.go:103-123 | list and table types build a fresh, idle watcher of that configuration; an unsupported type or a failed client is an error |
| Connection.KubeConnection.constructor | internal/kubernetes/connection.go:57-63 | no watchers, last use now |
| Connection.KubeConnection.Discover | internal/kubernetes/connection.go:66-76 | sets last use, then returns the discovery result or its error |
| Connection.KubeConnection.EvictOldest | internal/kubernetes/connection.go:88-101 | exactly one watcher, one with the least last use, is stopped and removed |
| Connection.KubeConnection.Thin | internal/kubernetes/connection.go:88-101 | evicts the oldest watcher only when the cache holds more than the bound |
| Connection.KubeConnection.AddWatcher | internal/kubernetes/connection.go:88-127 | a miss thins the cache, then stores the new watcher under its key; a failed construction stores nothing and keeps the eviction |
| Connection.KubeConnection.GetWatcherWith | internal/kubernetes/connection.go:78-128 | a hit returns the cached watcher with its last use refreshed and the map unchanged; a miss adds; the connection's last use is now |
| Connection.KubeConnection.GetWatcher | internal/kubernetes/connection.go:78-128 | the cache stays within 11 entries and grows from 10 to 11 on a miss; a hit returns the cached watcher with its contents unchanged; a miss builds a fresh idle watcher or reports the client error |
| Connection.KubeConnection.GetWatcherBounded | internal/kubernetes/connection.go:78-128 | the cache stays within `MaxWatchers`; a hit returns the cached watcher with its contents unchanged; a miss builds a fresh idle watcher or reports the client error |
| Connection.KubeConnection.Stop | internal/kubernetes/connection.go:130-134 | every cached watcher is stopped |
| Connection.CacheSize | internal/kubernetes/connection.go:88-101 | a cache thinned above a bound and then added to stays within the bound plus one |
| Service.KubeService.constructor | internal/kubernetes/service.go:26-38 | the kubeconfig's contexts and no connections |
| Service.KubeService.GetContextNames | internal/kubernetes/service.go:46-55 | exactly the context names, each once, sorted ascending |
| Service.KubeService.EvictOldest | internal/kubernetes/service.go:66-79 | exactly one connection, one with the least last use, is stopped and removed |
| Service.KubeService.Thin | internal/kubernetes/service.go:66-79 | evicts the oldest connection exactly when the cache holds `MaxConnections` or more |
| Service.KubeService.Create | internal/kubernetes/service.go:81-89 | a new connection is stored under its context; a failed one is not |
| Service.KubeService.AddConnection | internal/kubernetes/service.go:66-89 | a miss thins, then creates; the cache stays within `MaxConnections` |
| Service.KubeService.GetConnection | internal/kubernetes/service.go:61-90 | a known context returns its connection with no eviction; a miss evicts the oldest when full, then creates; failure inserts nothing; the cache stays within 3 |
| Service.KubeService.Discover | internal/kubernetes/service.go:92-104 | a connection failure is returned first; otherwise the discovery result or its error |
| Service.KubeService.ListResource | internal/kubernetes/service.go:106-124 | a failed connection is returned first; otherwise `ListOutcome` (stated under `Service.ListOn`) holds for the list watcher cached under the key before and after the call |
| Service.ListOn | internal/kubernetes/service.go:112-123 | the corrected composition (see "## Findings") of `GetWatcherBounded` and `ListConsistent`; `ListOutcome`: a watcher that cannot be built is a client error; a running watch answers from the cache unchanged; otherwise the list and watch errors pass through and success caches exactly the listed objects; an error leaves a cached watcher as it was; a result is the name-sorted snapshot of the watcher's cache |
| Service.KubeService.ListResourceTabular | internal/kubernetes/service.go:126-144 | a failed connection is returned first; otherwise `TableOutcome` (stated under `Service.TableOn`) holds for the table watcher cached under the key before and after the call |
| Service.TableOn | internal/kubernetes/service.go:132-143 | the corrected composition (see "## Findings") of `GetWatcherBounded` and `GetTableReleasing`; `TableOutcome`: a watcher that cannot be built is a client error; a held table lock gives `Blocked`; a running watch answers from the table unchanged; otherwise the list, watch and decode errors pass through and success stores exactly the decoded table; an error leaves a cached watcher as it was; a result has the stored columns and the stored rows, permuted and sorted by name |
| Handler.GroupVersionRoundTrip | internal/grpc/handler.go:54-59 | "g/v" splits into group g and version v |
| Handler.CoreGroupVersion | internal/grpc/handler.go:60-63 | a group-version without "/" gives group "" and the whole string as version |
| Handler.ExtraSlashes | internal/grpc/handler.go:57-63 | three parts also take the else branch: group "", version the first part |
| Handler.BuildApi | internal/grpc/handler.go:65-76 | the resources keep the order and count of the list, with name and namespaced copied |
| Handler.Assemble | internal/grpc/handler.go:53-79 | the reply has an entry for exactly the group-versions of the lists |
| Handler.AssembleLastWins | internal/grpc/handler.go:78 | a group-version's entry comes from its last list |
| Handler.Discover | internal/grpc/handler.go:40-82 | a backend error becomes Internal with no reply; otherwise the assembled map |
| Handler.MapAll | internal/grpc/handler.go:107-122 | succeeds exactly when every element converts, element by element |
| Handler.MapAllFirstFailure | internal/grpc/handler.go:107-111 | the error reported is the first failing element's |
| Handler.NamespaceDefault | internal/grpc/handler.go:92-95 | an absent namespace becomes "", which means the whole cluster |
| Handler.ListResource | internal/grpc/handler.go:84-125 | a backend or conversion error becomes Internal; otherwise one resource per object, in order, with name, namespace and kind copied |
| Handler.Cells | internal/grpc/handler.go:161-163 | one printed cell per table cell, in order |
| Handler.ListResourceTabular | internal/grpc/handler.go:127-190 | one column per column definition and one row per table row, in order, each row with its cells printed and its name copied; a backend or conversion error becomes Internal |

## Left out

- Concurrency: the goroutines, mutexes, wait groups and channel draining are not modelled. Each watch event is a sequential `OnEvent` call. Each stream end is a `WatchEnded` call.
- Kubernetes clients, cached discovery, kubeconfig loading, JSON decoding, `structpb.NewStruct`, `ToUnstructured` and `fmt.Sprintf("%v")` are foreign calls. They appear as function parameters, or as `Option`/`Result` outcomes, that may fail.
- Error message texts are not modelled. Errors are tagged values that carry the cause. For example, the watch error at internal/kubernetes/tablewatcher.go:107 swaps the namespace and resource arguments in its message, which the model does not capture.
- `FormatWatcherID` is not part of this model. The cache key is the (resource, namespace, type) triple, so distinct triples are assumed to give distinct keys.
- `baseWatcher` and `NewBaseWatcher` are not part of this model. They are assumed to record the configuration and type, set last use to now, and stop the watch on `Stop`.
- `ResourceWatcher.Stop`, `KubeService.Stop`, `GetDefaultContext`, and the handler's `GetContexts`/`GetDefaultContext` pass-throughs are left out. They only forward or wait on goroutines.
- `NewKubeService`'s kubeconfig loading is left out. The service is built from the set of context names.
- TableWatch.TableWatcher.GetTable: after an initial decode failure, the source stores the partly decoded table. The model leaves the stored table unspecified in that case.
- TableWatch.TableWatcher.OnEvent requires a non-Error event to carry at least one row. The source indexes `Rows[0]` unconditionally, so an empty event would panic.
- Service.ListOn, Service.TableOn, Service.KubeService.ListResource and Service.KubeService.ListResourceTabular are built from the corrected members `GetWatcherBounded`, `ListConsistent` and `GetTableReleasing`, where internal/kubernetes/service.go:112,118,132,138 calls the members as written. So none of the four shows the source behaviours listed under "## Findings": a watcher cache that grows to 11 entries, a cluster-wide watch that caches objects of other namespaces, a re-list stored on top of a stale cache, and every later table call waiting forever after a table that did not decode.
- Service.KubeService.ListResourceTabular answers `Blocked` for a table watcher whose lock is held, where the source would wait forever at internal/kubernetes/tablewatcher.go:180. Only the as-written `TableWatch.TableWatcher.GetTable` leaves a lock held, and the service never calls it, so the service itself never reaches that answer.
- Render.RenderBuilder.Build returns a snapshot of the builder. The closure of render.ts:38-50 reads `this.decorators`, `this.sortFn` and `this.filterFn` on every call, so a `decorate()`, `sort()` or `filter()` after `build()` changes a renderer already built; in the model it does not.
- Render.RenderRelativeTime takes one `nowMs` when the renderer is built. render.ts:84 reads the clock on every display call, so the source's cells age as time passes; a model renderer reused across refreshes shows the ages of the moment it was built.
- Render: DOM APIs are values. `title` is a string, never null, so the ellipsis fallback to `textContent` is dead code and not modelled.
- Render.RelativeTimeSpan: time is integer milliseconds, and `Number(data)` is a parameter giving whole seconds. Floating point and `Date` are not modelled.
- Translator: lower-casing is ASCII only. Prototype keys of JavaScript objects, such as "constructor", are not modelled as table entries.
- Render.StatusClass: a status that names a property of `Object.prototype`, such as "constructor", "toString" or "__proto__", finds that property in the plain-object map at render.ts:148. The source's class is then the property printed as text, for example "bg-function Object() { [native code] }"; the model gives "secondary".
- TableConfig.PodStatusClass: the same prototype lookup happens in the map at config.ts:19, and the model gives "secondary" there too.
- Sorting: Go's `sort.Slice` is not stable and JavaScript key order is fixed by insertion. The model promises only sortedness and permutation, never a particular order among equal names.
- Refresh.Refresher.Reject: an aborted fetch keeps the invariant only when it rejects with Canceled. A superseded fetch that succeeds breaks it (`Refresh.StaleSuccess`).

## Findings

| source | as written | input that shows it | evidently intended | confidence | as-written member | corrected member |
|---|---|---|---|---|---|---|
| internal/kubernetes/connection.go:88 | evicts only when the cache holds more than `MaxWatchers` | ten cached watchers and a lookup of an eleventh key: nothing is evicted and the cache holds 11 | evict once the cache holds `MaxWatchers`, as service.go:66 does for connections, so the cache never exceeds 10 | high, not executed | Connection.KubeConnection.GetWatcher | Connection.KubeConnection.GetWatcherBounded |
| internal/kubernetes/listwatcher.go:73-78 | a re-list after the watch ended stores the new items on top of the old cache | cache one object, end the watch, delete the object, list again: it is still returned | a new list replaces the cache, so it holds exactly the listed items | medium, not executed | ListWatch.StaleAfterRelist | ListWatch.ListWatcher.ListConsistent |
| internal/kubernetes/listwatcher.go:65 | the watch is always cluster-wide while the list honours the namespace | a watcher of namespace "a" receives an Added event for an object of namespace "b" and returns it | the watch uses the list's scope, so the cache stays in scope (`ListWatch.ConsistentWatchStaysInScope`) | high, not executed | ListWatch.ForeignNamespaceLeaks | ListWatch.ListWatcher.ListConsistent |
| internal/kubernetes/tablewatcher.go:115-117 | returns on a decode failure with the table lock held and the watch recorded | a first list with a row whose object is not valid JSON: later `GetTable` calls wait forever | give up the lock and the watch, so the next call lists again | high, not executed | TableWatch.DecodeFailureBlocks | TableWatch.TableWatcher.GetTableReleasing |

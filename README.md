# MapServer's ArcSDE layer adapter, modelled in Dafny

This project models the bookkeeping of `mapsde.c`, the MapServer layer
driver that reads features from an ESRI ArcSDE server. The adapter does
little computing of its own. It hands connections, queries and geometry to
the closed ArcSDE C library (`SE_*` calls) and keeps the following state
around those calls:

- a process-wide cache of layer ids, keyed by table, spatial column and
  connection string (`lcache`);
- the per-layer state `msSDELayerInfo`: the connection, the stream, the
  layer description, the version state, the table, the column and the
  row-id column;
- the conversion of ArcSDE shapes into MapServer's `shapeObj`;
- the decoding of a fetched row into attribute texts;
- the search envelope and the set-up of the stream query;
- the cursor that skips shapes without geometry;
- the resolution of a version name to a state when a layer is opened;
- the matching of requested items against the table's columns.

Every `SE_*` call is an oracle (`Foreign.Engine`), a function of the call's
arguments:

- Status-only calls are answered by `status`.
- Calls that also return a value have a dedicated field.
- The query stream is the class `Foreign.Stream`. It replays the fetch
  replies the engine gives for the query last executed on it.
- Operations that make several calls return the trace of calls they made
  (`seq<Call>`), so that call order and the "stop at the first failing call"
  discipline can be stated.

Modules, one file each:

- `SdeCore` and `Text` (`sde_core.dfy`): return codes, status codes,
  rectangles, the sentinel strings `"<null>"`, `"<shape>"` and `"SE_ROW_ID"`,
  `strcasecmp` and `sprintf("%ld")`.
- `Foreign` (`foreign.dfy`): the ArcSDE oracle, shapes, rows, column
  definitions and the stream.
- `LayerCache` (`layer_cache.dfy`): `msSDELCacheAdd` and `msSDEGetLayerInfo`
  over the class `LayerIdCache` (an `array` of slots, a count and a capacity).
- `Geometry` (`geometry.dfy`): `sdeShapeCopy` and the class `Shape` (`shapeObj`).
- `RowDecode` (`row_decode.dfy`): `sdeGetRecord`.
- `Layers` (`layer.dfy`): the class `Layer` (`layerObj`), `msSDELayerInfo`,
  `msSDELayerIsOpen`, `msSDELayerClose` and `msSDELayerGetRowIDColumn`.
- `Envelope` (`envelope.dfy`): `msSDELayerWhichShapes`.
- `Cursor` (`cursor.dfy`): `msSDELayerNextShape`.
- `Lifecycle` (`lifecycle.dfy`): `msSDELayerOpen`.
- `Items` (`items.dfy`): `msSDELayerInitItemInfo`, `msSDELayerGetItems` and
  `msSDELayerCreateItems`.

Imperative code stays imperative:

- The cache scan and add, the shape copy, the row decoder, the cursor, the
  query set-up and the item matching are methods with loops, over the
  classes `LayerIdCache`, `Shape`, `Stream` and `Layer` and their arrays.
- The open sequence is a method without a loop: a chain of checked calls
  that updates the layer and the cache.
- Each method's `ensures` ties its result and new state to a pure function:
  - `FirstMatch` for the cache scan;
  - `CopyShape` and `SubpartLines` for the shape copy;
  - `Record` for the row decoder;
  - `NextSpec` for the cursor;
  - `Plan` and `QueryEnvelope` for the query set-up;
  - `ResolveState`, `Lookup` and `SlotsAfter` for the open sequence;
  - `FirstColumnNamed` for the item matching.
- The properties are proved as lemmas about those functions.

## Model

| member | source | states |
|---|---|---|
| Text.EqualsIgnoreCaseIsEquivalence | mapsde.c:362-364 | strcasecmp equality is reflexive, symmetric and transitive, which the case-insensitive cache and item lookups rely on |
| Text.EqualsIgnoreCaseIffSameLower | mapsde.c:362-364 | two strings compare equal under strcasecmp exactly when their lower-cased forms are the same string |
| Text.LongToDecimalRoundTrip | mapsde.c:575 | the "%ld" text of a row id reads back as that row id, negative ids included |
| Text.DecimalIsNotSentinel | mapsde.c:575 | a row id's decimal text is never one of the adapter's "<...>" sentinel texts |
| Foreign.Stream.Fetch | mapsde.c:1299 | a fetch returns the next reply and advances; after SE_FINISHED or the last reply, every later fetch reports SE_FINISHED |
| Foreign.Stream.Reset | mapsde.c:1213 | closing the stream with reset drops the query, its rows and the pinned state |
| Foreign.Stream.Pin | mapsde.c:1224-1227 | a successful SE_stream_set_state pins the stream to the state and leaves its rows alone |
| Foreign.Stream.Load | mapsde.c:1260 | a successful execute makes the query's rows the stream's, from the first one |
| Foreign.Issue | mapsde.c:1101-1105 | a call whose status is not SE_SUCCESS ends the trace there, and then the plan as a whole has not succeeded |
| LayerCache.FirstMatch | mapsde.c:359-380 | the scan finds the first slot matching all three strings ignoring case, and finds none exactly when no slot matches |
| LayerCache.AppendedEntryIsFound | mapsde.c:387-395 | once a layer is added, a lookup with any letter-case spelling of its key finds an entry, the new one when there was none before |
| LayerCache.FirstMatchStable | mapsde.c:291-293 | appending slots never changes which slot an existing hit resolves to |
| LayerCache.LayerIdCache.constructor | mapsde.c:104-106 | the cache starts empty, with no capacity |
| LayerCache.LayerIdCache.Find | mapsde.c:359-367 | the scanning loop returns exactly the first matching slot in use |
| LayerCache.LayerIdCache.Add | mapsde.c:258-308 | the capacity grows by exactly 10, and only when count equals capacity; the count always grows by one; on success the new last slot holds the id and the three strings and earlier slots are unchanged; a failed id read returns MS_FAILURE with the slot already counted |
| LayerCache.LayerIdCache.GetLayerInfo | mapsde.c:316-397 | a NULL table, column or connection fails with MS_MISCERR before any scan or call; a hit resolves the layer by id with no by-name lookup and no add; a miss resolves by name, then adds, and succeeds whatever the add does; the key is found at the new slot only when the add could read the layer's id, and a failed add leaves a Vacant slot that never matches |
| LayerCache.LookupLeavesKeyCached | mapsde.c:359-396 | after a lookup that resolved the layer, the cached slots are kept and any letter-case spelling of the same key hits the cache, unless the layer was resolved by name and its id could not be read |
| Geometry.MapShapeType | mapsde.c:427-451 | nil shapes are skipped; single- and multi-part types map to POINT, LINE or POLYGON by dimension; every other type is unsupported |
| Geometry.SubpartLines | mapsde.c:482-506 | one line per subpart, line i having offsets[i+1]-offsets[i] points (the last num_points-offsets[i]), taken in order from the running counter |
| Geometry.SubpartLinesCoverPoints | mapsde.c:482-506 | the lines concatenated are the leading k points of the shape, k being where the counter stops; that is all points when the first subpart starts at 0 |
| Geometry.CopyShape | mapsde.c:404-520 | a failed type query fails; the copy never alters the lines the shape already had; a failed copy adds no line and keeps the bounds |
| Geometry.CopyShapeAppendsSubparts | mapsde.c:404-520 | a successful copy of a non-nil shape appends exactly num_subparts lines after the existing ones, holding the points in order, sets the bounds to the extent and a non-null type; a nil shape changes nothing |
| Geometry.Shape.AddLine | mapsde.c:504 | msAddLine appends one line and changes nothing else |
| Geometry.ShapeCopy | mapsde.c:404-520 | the nested copy loops produce exactly CopyShape's result and geometry; values and index are untouched |
| RowDecode.BlobTextKeepsBytes | mapsde.c:639-645 | the bytes can be read back from a blob's copied buffer unchanged: none lost, none added |
| RowDecode.ColumnText | mapsde.c:579-685 | NULL gives "<null>" for smallint, integer, float, double, blob, date and shape columns and "" for strings; a read smallint or integer gives long2string of it, a read float or double double2string of it, a read date its strftime text, a read shape "<shape>", a read blob its bytes as characters; any other status or an unknown column type fails |
| RowDecode.ItemText | mapsde.c:567-577 | the row-id item succeeds exactly when its integer read does, and its text parses back to the row id |
| RowDecode.RecordValues | mapsde.c:567-685 | a decoded record has one value per item: the row id in decimal (which the index takes when it is the last row-id item), and for every other item the text its column type gives it (the formatted number or date, "" for a NULL string, "<null>" for other NULLs) |
| RowDecode.IndexAfterLastRowId | mapsde.c:567-571 | shape->index is the integer of the last row-id item read |
| RowDecode.UnknownColumnTypeFails | mapsde.c:681-684 | one item of an unknown column type makes the whole record fail |
| RowDecode.Record | mapsde.c:528-699 | a decoded record needs a created shape handle and every item decoded; it has one value per item and never alters the shape's existing lines |
| RowDecode.ShapeAfterIsLastRead | mapsde.c:670-671 | the handle copied into the shape is the one the last shape column read into; later items of other types leave it alone |
| RowDecode.NoShapeReadStaysNil | mapsde.c:558 | without a shape column read, the handle copied is the fresh nil shape |
| RowDecode.NilHandleKeepsGeometry | mapsde.c:688 | a row that leaves the handle nil, because it has no shape column or its shape column's read left a nil shape, leaves the shape's geometry as it was |
| RowDecode.DecodeItems | mapsde.c:565-686 | the item loop succeeds exactly when every item decodes; then each item's slot holds that item's text, the index is the last row-id item's integer, the handle is the one the last shape column read into, and the geometry and the slots past the items are untouched |
| RowDecode.GetRecord | mapsde.c:528-699 | the decoding loop succeeds exactly when Record does, and then leaves the shape in Record's state, with a fresh value array of one entry per item |
| Layers.Layer.IsOpen | mapsde.c:985-998 | a layer is open exactly when it holds layer info |
| Layers.Layer.Close | mapsde.c:1006-1031 | close always succeeds and leaves the layer without layer info, a layer that was not open included |
| Layers.SpatialColumn | mapsde.c:1611-1631 | NULL for a layer that is not open, otherwise the spatial column the layer was opened on |
| Layers.RowIdColumn | mapsde.c:172-242 | the default state gives SE_ROW_ID; otherwise NULL exactly when a registration call fails, SE_ROW_ID for an unregistered table, else the registered column |
| Envelope.Clip | mapsde.c:1124-1127 | the cropped envelope holds exactly the points common to the layer envelope and the rectangle |
| Envelope.QueryEnvelope | mapsde.c:1117-1137 | MS_DONE exactly when one of the four disjointness tests holds; otherwise the envelope is the intersection, or, when that is a single point, a square of side 0.002 centred on it |
| Envelope.DisjointIffNoCommonPoint | mapsde.c:1117-1120 | for well-ordered rectangles the early exit is taken exactly when they share no point, and otherwise the search envelope is well-ordered |
| Envelope.OneAxisCollapseIsNotWidened | mapsde.c:1129-1137 | an envelope of zero width or zero height alone is not widened |
| Envelope.OrderFor | mapsde.c:1242-1244 | the order is attribute-first exactly when QUERYORDER is set and reads "attribute" once lower-cased, and spatial-first otherwise |
| Envelope.SetupCalls | mapsde.c:1139-1264 | ten set-up calls, eleven with a pinned state; the search shape is built from the search envelope, and the spatial constraint just before the execute uses that envelope on the layer's table and column |
| Envelope.Plan | mapsde.c:1101-1264 | the search shape and the layer envelope are always asked for first; the query is set up and executed only when the envelope was read and the rectangle overlaps it |
| Envelope.SetupOrder | mapsde.c:1211-1264 | the stream is reset before it is pinned, pinned (to the layer's state, and only outside the default state) before the query is attached, and the query is attached before it executes |
| Envelope.RunSetup | mapsde.c:1139-1264 | the set-up calls are made in order until one fails; when all succeed the stream is reset, pinned outside the default state and loaded with the query's rows |
| Envelope.SetupQuery | mapsde.c:1117-1264 | once the layer envelope is read: MS_DONE with no further call and the stream untouched for a rectangle beside it; otherwise the set-up calls in order until one fails, and on success the stream runs the query over the search envelope |
| Envelope.WhichShapes | mapsde.c:1081-1277 | a layer that is not open fails; the result fails exactly when some planned call fails, stopping at the first; MS_DONE comes after only the shape and envelope calls with the stream untouched; success leaves the stream running the query over the search envelope |
| Cursor.NextSpec | mapsde.c:1284-1324 | the cursor never moves back, and a result other than MS_DONE consumes at least one reply and stays within the replies |
| Cursor.NextSuccessHasLines | mapsde.c:1311-1317 | MS_SUCCESS is only returned with a shape that has at least one line |
| Cursor.DoneIsFinal | mapsde.c:1301-1302 | after MS_DONE the stream is exhausted and every later call returns MS_DONE |
| Cursor.NilRowsAreSkipped | mapsde.c:1314-1315 | from a shape without lines, a row that leaves the handle nil (no shape column, or a shape column whose read left a nil shape) is skipped and the call answers what the rest of the stream answers |
| Cursor.NextShape | mapsde.c:1284-1324 | the fetch-decode-skip loop returns NextSpec's result and stream position; SE_FINISHED gives MS_DONE; a failed fetch or decode gives MS_FAILURE; zero-line shapes are skipped; the stream's rows and pinned state are unchanged |
| Lifecycle.ResolveState | mapsde.c:854-920 | two DATA fields give the default state; SE_INVALID_RELEASE falls back to the default state; other version errors fail; a failed SE_versioninfo_create, SE_versioninfo_get_state_id, SE_stateinfo_create or SE_state_get_info fails; a resolved state comes from the version, was read successfully and is not open for edits; a state open for edits fails; a readable version whose state is read and closed gives exactly that state's id |
| Lifecycle.Open | mapsde.c:719-976 | without a pooled connection, fewer than 5 connection fields or a failing connect fails; fewer than 2 DATA fields fail; a failed state resolution or SE_layerinfo_create fails, with the cache untouched; past those, the cache changes as the lookup does, and the open succeeds exactly when the lookup, SE_layerinfo_get_coordref and SE_stream_close succeed; success stores the looked-up layer description, the table, the column, the resolved state and a reset stream; failure leaves the layer as it was |
| Items.FirstColumnNamed | mapsde.c:1560-1567 | the first column whose name equals the item's ignoring case; none exactly when no column does |
| Items.MatchColumn | mapsde.c:1560-1567 | the inner scanning loop stops at exactly that first matching column |
| Items.DescribedColumnsMatch | mapsde.c:1378-1387 | every described column finds a definition of its own name at or before its position, its own when names are unique ignoring case |
| Items.InitItemInfo | mapsde.c:1517-1584 | the row-id column is recorded; a failed describe gives MS_SDEERR; it succeeds exactly when every non-row-id item names a column, and then each gets its first matching definition while the row-id item's definition is kept; otherwise it fails with MS_MISCERR |
| Items.MatchDescribedItems | mapsde.c:1378-1387 | every item of a described table gets the definition of the first column of its name |
| Items.GetItems | mapsde.c:1331-1397 | a layer that is not open fails; the row-id column is recorded; a failed describe gives MS_SDEERR; otherwise the items are the column names and each has its first matching definition |
| Items.CreateItems | mapsde.c:1640-1665 | the items become exactly the row-id column and the spatial column |
| Items.SeededItemsLeadWithRowId | mapsde.c:1654-1656 | with the seeded items, the decoder reads item 0 as the row id, and item 1 as an ordinary column unless it has the row-id column's name |

## Left out

- The ArcSDE library. Each call is an oracle whose answer depends only on its arguments, so two identical calls get the same answer. Handle allocation is not modelled; freeing and leaks are not modelled either.
- Connection pooling (`msConnPoolRequest`, `msConnPoolRegister`, `msConnPoolRelease`) and `msSDECloseConnection`. `Lifecycle.Open` takes what the pool handed out as the parameter `pooled`; `Layers.Layer.Close` does not model the release.
- The `TLOCK_SDE` lock around the cache: the cache is modelled single-threaded.
- Decrypting the connection string and `split`. `Lifecycle.Open` takes the comma-separated fields as given; a failed decryption is not modelled.
- Number and date formatting (`long2string`, `double2string`, `strftime`). These are the abstract functions of `RowDecode.Formats`. Only `sprintf("%ld")` of the row id is written out.
- Floating point: coordinates are `real`, so the ±0.001 widening is exact.
- `malloc` and `realloc` failures, the `MS_MEMERR` paths, memory leaks on early returns, and `msDebug` logging.
- The `#else` stubs built without ArcSDE support, and the commented-out `msSDELayerCloseConnection`.
- `msSDELayerGetExtent`, `msSDELayerGetShape`, `msSDELayerGetShapeVT`, `msSDELayerFreeItemInfo` and `msSDELayerInitializeVirtualTable` are not part of this model.
- `sde_error`'s message texts are not modelled; an error is recorded only by its class (`MS_SDEERR`, `MS_MISCERR`).
- LayerCache.LayerIdCache.Add: a failed id read leaves a counted slot whose strings are uninitialised memory in the source. The model fills it as `Vacant`, which no lookup matches; in the source a later scan would compare uninitialised pointers.
- LayerCache.LayerIdCache.Add: the `realloc` of the whole array is modelled as a copy into a fresh array.
- Foreign: a `NULL` string compared with `strcmp` or `strcasecmp` is undefined behaviour in C. The model treats it as matching nothing (`SdeCore.SameName`, `Items.FirstColumnNamed`), so a NULL item makes `Items.InitItemInfo` fail with MS_MISCERR.
- Geometry.ShapeCopy: the statuses of `SE_shape_get_num_parts`, `SE_shape_get_num_points` and `SE_shape_get_extent` are not checked by the source. The model assumes ArcSDE's point layout (`Foreign.WellFormed`), so the counts and offsets are consistent.
- Geometry.Shape: only the kind, lines, bounds, values and index of `shapeObj` are modelled.
- Items.InitItemInfo requires an open layer. The source stores the row-id column through `layer->layerinfo` (mapsde.c:1529) before its NULL test (mapsde.c:1532), so a closed layer crashes before the test can fail; the unreachable MS_SDEERR branch is not modelled.
- Items.GetItems requires that an item-info array left over from before is large enough for the described columns. The source reuses it without reallocating and would write past its end otherwise.
- Items.CreateItems: the `nt` argument only sizes the allocation and is not modelled.
- Layers.RowIdColumn: for an unregistered table the source returns the string literal `MS_SDE_ROW_ID_COLUMN` itself rather than a copy (mapsde.c:232). A caller that frees it would free a literal; the model, which has no allocation, returns the same text.
- Lifecycle.Open: the source does not check the status of `SE_coordref_create` (mapsde.c:942-946); the test there sees the previous, successful status. The model does not fail on it and does not model the coordinate reference.
- Lifecycle.Open: when `msSDEGetLayerInfo` fails with MS_MISCERR (the layer has no connection string), Open reports the failure again as an ArcSDE error; the model returns `MsFailure(SdeErr)`.
- Envelope.WhichShapes: the filter's table and column are copied with `strcpy` into fixed-size buffers; their length limits are not modelled.
- Cursor.NextShape: the source skips zero-line rows by recursion; the model uses the equivalent loop.
- Cursor.NextShape requires that the layer's item-info holds a definition for every item (`RecordLayout.Fits`). The source indexes `layer->iteminfo` by item without a bound check, so a shorter array is read past its end.
- Items.InitItemInfo requires that an item-info array left over from before holds at least one definition per item. The source reuses it without reallocating (mapsde.c:1546) and would write past its end otherwise.
- Foreign.Stream.Fetch: a fetch on a stream with no executed query, or after it has reported SE_FINISHED, is assumed to report SE_FINISHED again. ArcSDE's behaviour there is not established by the adapter. `Cursor.DoneIsFinal`, and MS_DONE on a stream that was never queried, rest on this assumption.
- Foreign.Call: `SE_shape_create` and `SE_stream_close` carry no arguments. The search shape of WhichShapes (mapsde.c:1101) and the per-row shape of sdeGetRecord (mapsde.c:558) share one answer, as do the stream closes of Open (mapsde.c:956) and WhichShapes (mapsde.c:1213). A failure of one of these calls but not the other, or of one row's shape creation only, is not expressible.
- RowDecode.ShapeAfter: after a shape column read reports SE_NULL_VALUE, the handle is whatever the engine answered; mapsde.c:670-676 does not say what ArcSDE leaves in `shapeval` then, so the model does not promise a nil shape (and so no skipped row) for a NULL shape column.
- RowDecode.BlobTextKeepsBytes: the blob is copied without a terminating NUL (mapsde.c:641-644). The model's text is the buffer; MapServer, reading it as a C string, would read past it or stop at an embedded zero byte.

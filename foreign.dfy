/**
 * The ArcSDE C API as the adapter sees it. ArcSDE is a closed library, so
 * each SE_* call is an oracle: `Engine` answers a status-only call through
 * `status` and a call that also yields a value through a dedicated field.
 * The oracle is a function of the call's arguments. The one stateful
 * handle, the query stream, is the class `Stream`, which replays the rows
 * the engine produced for the last executed query.
 */
module Foreign {
  import opened SdeCore

  /** A status together with the value an SE_* call wrote to its out-parameter. */
  datatype Reply<T> = Reply(status: Status, value: T)

  /** Connection, layer-info and version-info handles, compared by identity. */
  datatype Conn = Conn(handle: int)
  datatype LayerDesc = LayerDesc(handle: int)
  datatype VersionDesc = VersionDesc(handle: int)

  /** The SG_* shape types of ArcSDE geometry. */
  datatype ShapeType =
    | NilShape | PointShape | MultiPointShape
    | LineShape | SimpleLineShape | MultiLineShape | MultiSimpleLineShape
    | AreaShape | MultiAreaShape
    | OtherShapeType(code: int)

  /**
   * What SE_shape_is_nil, SE_shape_get_type, SE_shape_get_num_parts,
   * SE_shape_get_num_points, SE_shape_get_all_points and SE_shape_get_extent
   * report about one shape handle.
   */
  datatype ShapeData = ShapeData(
    isNil: bool,
    shapeType: Reply<ShapeType>,
    numSubparts: int,
    numPoints: int,
    pointsStatus: Status,
    subpartOffsets: seq<int>,
    points: seq<Point>,
    extent: Rect)

  /**
   * The layout ArcSDE guarantees for a shape's point array: one start offset
   * per subpart, non-decreasing and within the point array.
   */
  predicate WellFormed(d: ShapeData)
  {
    && 0 <= d.numSubparts == |d.subpartOffsets|
    && 0 <= d.numPoints == |d.points|
    && (forall i :: 0 <= i < |d.subpartOffsets| ==> 0 <= d.subpartOffsets[i] <= d.numPoints)
    && (forall i, j :: 0 <= i <= j < |d.subpartOffsets| ==> d.subpartOffsets[i] <= d.subpartOffsets[j])
  }

  const EmptyShapeData: ShapeData :=
    ShapeData(true, Reply(Success, NilShape), 0, 0, Success, [], [], Rect(0.0, 0.0, 0.0, 0.0))

  type ForeignShape = d: ShapeData | WellFormed(d) witness EmptyShapeData

  /** struct tm as SE_stream_get_date fills it. */
  datatype Tm = Tm(sec: int, min: int, hour: int, mday: int, mon: int, year: int)

  /**
   * The current row of a stream: each SE_stream_get_* getter, applied to a
   * 1-based column position.
   */
  datatype Row = Row(
    smallint: int -> Reply<int>,
    integer: int -> Reply<int>,
    float: int -> Reply<real>,
    double: int -> Reply<real>,
    str: int -> Reply<string>,
    blob: int -> Reply<seq<bv8>>,
    date: int -> Reply<Tm>,
    shape: int -> Reply<ForeignShape>)

  /** The SE_*_TYPE column types; anything else (a zeroed definition included) is `OtherColumn`. */
  datatype ColumnType =
    | SmallIntColumn | IntegerColumn | FloatColumn | DoubleColumn
    | StringColumn | BlobColumn | DateColumn | ShapeColumn
    | OtherColumn(code: int)

  /** SE_COLUMN_DEF: the parts the adapter reads. */
  datatype ColumnDef = ColumnDef(name: string, sdeType: ColumnType, size: int)

  /** A calloc'ed SE_COLUMN_DEF. */
  const ZeroColumnDef: ColumnDef := ColumnDef("", OtherColumn(0), 0)

  /** What SE_reginfo_get_rowid_column reports for a table's registration. */
  datatype RowIdInfo = RowIdInfo(name: string, registered: bool)

  /** SE_SPATIAL_FIRST or SE_ATTRIBUTE_FIRST. */
  datatype QueryOrder = SpatialFirst | AttributeFirst

  /** The SE_FILTER the adapter builds: an envelope-intersects shape filter on a table's column. */
  datatype Filter = Filter(envelope: Rect, table: string, column: string)

  /** Everything a stream query depends on: what the engine's rows are a function of. */
  datatype Query = Query(
    table: string,
    whereClause: string,
    columns: seq<Option<string>>,
    pinnedState: Option<int>,
    order: QueryOrder,
    filter: Filter)

  /** The SE_* calls whose only answer is a status, and the trace entries of every call. */
  datatype Call =
    | LayerinfoGetId(desc: LayerDesc)
    | LayerGetInfoById(conn: Conn, layerId: int)
    | LayerGetInfo(conn: Conn, table: string, column: string)
    | ConnectionCreate(params: seq<string>)
    | ConnectionSetConcurrency(conn: Conn)
    | StreamCreate(conn: Conn)
    | VersioninfoCreate
    | VersionGetInfo(conn: Conn, name: string)
    | VersioninfoGetStateId(version: VersionDesc)
    | StateinfoCreate
    | StateGetInfo(conn: Conn, stateId: int)
    | LayerinfoCreate
    | CoordrefCreate
    | LayerinfoGetCoordref(desc: LayerDesc)
    | ShapeCreate
    | LayerinfoGetEnvelope(desc: LayerDesc)
    | ShapeGenerateRectangle(envelope: Rect)
    | QueryinfoCreate
    | QueryinfoSetTables(table: string)
    | QueryinfoSetWhereClause(clause: string)
    | QueryinfoSetColumns(columns: seq<Option<string>>)
    | QueryinfoSetQueryType
    | StreamClose
    | StreamSetState(stateId: int)
    | StreamQueryWithInfo(table: string, whereClause: string, columns: seq<Option<string>>)
    | StreamSetSpatialConstraints(order: QueryOrder, filter: Filter)
    | StreamExecute
    | ReginfoCreate
    | RegistrationGetInfo(conn: Conn, table: string)
    | ReginfoGetRowidColumn(conn: Conn, table: string)
    | TableDescribe(conn: Conn, table: string)

  /** The oracle standing for the ArcSDE library. */
  datatype Engine = Engine(
    status: Call -> Status,
    layerId: LayerDesc -> Reply<int>,
    layerById: (Conn, int) -> Reply<LayerDesc>,
    layerByName: (Conn, string, string) -> Reply<LayerDesc>,
    connect: seq<string> -> Reply<Conn>,
    versionInfo: (Conn, string) -> Reply<VersionDesc>,
    versionStateId: VersionDesc -> Reply<int>,
    stateIsOpen: (Conn, int) -> Reply<bool>,
    envelope: LayerDesc -> Reply<Rect>,
    rows: Query -> seq<Reply<Row>>,
    rowIdColumn: (Conn, string) -> Reply<RowIdInfo>,
    describe: (Conn, string) -> Reply<seq<ColumnDef>>)

  /** The status an engine gives a call, whether or not the call also yields a value. */
  function Answer(engine: Engine, call: Call): Status
  {
    match call
    case LayerinfoGetId(d) => engine.layerId(d).status
    case LayerGetInfoById(c, id) => engine.layerById(c, id).status
    case LayerGetInfo(c, t, col) => engine.layerByName(c, t, col).status
    case ConnectionCreate(p) => engine.connect(p).status
    case VersionGetInfo(c, name) => engine.versionInfo(c, name).status
    case VersioninfoGetStateId(v) => engine.versionStateId(v).status
    case StateGetInfo(c, s) => engine.stateIsOpen(c, s).status
    case LayerinfoGetEnvelope(d) => engine.envelope(d).status
    case ReginfoGetRowidColumn(c, t) => engine.rowIdColumn(c, t).status
    case TableDescribe(c, t) => engine.describe(c, t).status
    case _ => engine.status(call)
  }

  /** Every call of a trace succeeded. */
  predicate AllSucceeded(engine: Engine, calls: seq<Call>)
  {
    forall i :: 0 <= i < |calls| ==> Answer(engine, calls[i]) == Success
  }

  /**
   * The adapter's error discipline: the calls of a trace all succeeded but
   * the last, after which the operation gave up.
   */
  predicate StoppedAtFailure(engine: Engine, calls: seq<Call>)
  {
    && |calls| > 0
    && AllSucceeded(engine, calls[..|calls| - 1])
    && Answer(engine, calls[|calls| - 1]) != Success
  }

  /**
   * One step of a planned call sequence: the call is made and its status
   * checked, as the adapter does after every SE_* call. A failure ends the
   * trace there, so the plan as a whole cannot succeed.
   */
  method Issue(engine: Engine, plan: seq<Call>, calls: seq<Call>) returns (ok: bool, calls': seq<Call>)
    requires |calls| < |plan| && calls == plan[..|calls|]
    requires AllSucceeded(engine, calls)
    ensures calls' == plan[..|calls| + 1]
    ensures ok <==> Answer(engine, plan[|calls|]) == Success
    ensures ok ==> AllSucceeded(engine, calls')
    ensures !ok ==> StoppedAtFailure(engine, calls') && !AllSucceeded(engine, plan)
  {
    var c := plan[|calls|];
    calls' := calls + [c];
    assert calls' == plan[..|calls| + 1];
    ok := Answer(engine, c) == Success;
    assert calls'[..|calls'| - 1] == calls;
  }

  /** The row SE_stream_fetch leaves current once the stream is exhausted. */
  const NoRow: Row := Row(
    _ => Reply(NullValue, 0), _ => Reply(NullValue, 0),
    _ => Reply(NullValue, 0.0), _ => Reply(NullValue, 0.0),
    _ => Reply(NullValue, ""), _ => Reply(NullValue, []),
    _ => Reply(NullValue, Tm(0, 0, 0, 0, 0, 0)), _ => Reply(NullValue, EmptyShapeData))

  /**
   * An SE_STREAM: the state it is pinned to (None after a reset, that is the
   * default state) and the fetch replies of the query last executed on it.
   */
  class Stream {
    var pinned: Option<int>
    var script: seq<Reply<Row>>
    var pos: nat

    constructor ()
      ensures pinned == None && script == [] && pos == 0
    {
      pinned, script, pos := None, [], 0;
    }

    /** SE_stream_close(stream, TRUE) that succeeded: the query and the pinned state are dropped. */
    method Reset()
      modifies this
      ensures pinned == None && script == [] && pos == 0
    {
      pinned, script, pos := None, [], 0;
    }

    /** SE_stream_set_state that succeeded. */
    method Pin(stateId: int)
      modifies this
      ensures pinned == Some(stateId) && script == old(script) && pos == old(pos)
    {
      pinned := Some(stateId);
    }

    /** SE_stream_execute that succeeded: the engine's rows for the query become the stream's. */
    method Load(rows: seq<Reply<Row>>)
      modifies this
      ensures script == rows && pos == 0 && pinned == old(pinned)
    {
      script, pos := rows, 0;
    }

    /**
     * SE_stream_fetch: the next reply; once the stream has reported SE_FINISHED,
     * or its rows are used up, every further fetch reports SE_FINISHED.
     */
    method Fetch() returns (r: Reply<Row>)
      modifies this
      ensures script == old(script) && pinned == old(pinned)
      ensures old(pos) < |script| ==> r == script[old(pos)]
      ensures old(pos) < |script| && r.status != Finished ==> pos == old(pos) + 1
      ensures old(pos) < |script| && r.status == Finished ==> pos == |script|
      ensures old(pos) >= |script| ==> r == Reply(Finished, NoRow) && pos == old(pos)
    {
      if pos < |script| {
        r := script[pos];
        pos := if r.status == Finished then |script| else pos + 1;
      } else {
        r := Reply(Finished, NoRow);
      }
    }
  }
}

/**
 * The part of MapServer's layerObj the ArcSDE adapter reads and writes, and
 * msSDELayerInfo, the state an open layer keeps behind layer->layerinfo.
 */
module Layers {
  import opened SdeCore
  import opened Foreign
  import opened RowDecode

  /** msSDELayerInfo: connection, stream, layer description, version state and names. */
  datatype SdeInfo = SdeInfo(
    connection: Conn,
    stream: Stream,
    layerInfo: LayerDesc,
    stateId: int,
    table: string,
    column: string,
    rowIdColumn: Option<string>)

  class Layer {
    /** layer->connection: the connection string, the cache's third key. */
    var connection: Option<string>
    /** layer->filter.string: the attribute filter, NULL when unset. */
    var filter: Option<string>
    /** The QUERYORDER processing key, NULL when unset. */
    var queryOrder: Option<string>
    /** layer->layerinfo: None is the NULL pointer of a layer that is not open. */
    var info: Option<SdeInfo>
    /** layer->items; layer->numitems is its length. */
    var items: seq<Option<string>>
    /** layer->iteminfo: one column definition per item, or NULL. */
    var itemInfo: array?<ColumnDef>

    /** A layer as the mapfile loader leaves it: not open, no items. */
    constructor (connection: Option<string>, filter: Option<string>, queryOrder: Option<string>)
      ensures this.connection == connection && this.filter == filter && this.queryOrder == queryOrder
      ensures info == None && items == [] && itemInfo == null
    {
      this.connection, this.filter, this.queryOrder := connection, filter, queryOrder;
      info, items, itemInfo := None, [], null;
    }

    /** What sdeGetRecord decodes a row against. */
    function Layout(): RecordLayout
      reads this, itemInfo
      requires info.Some?
    {
      RecordLayout(items, if itemInfo == null then [] else itemInfo[..], info.value.rowIdColumn)
    }

    /** msSDELayerIsOpen. */
    method IsOpen() returns (b: bool)
      ensures b <==> info.Some?
    {
      b := info.Some?;
    }

    /**
     * msSDELayerClose: a layer that is not open is left alone; an open one
     * drops its layer info. Either way the result is MS_SUCCESS.
     */
    method Close() returns (r: MsResult)
      modifies this
      ensures r == MsSuccess && info == None
      ensures connection == old(connection) && filter == old(filter) && queryOrder == old(queryOrder)
      ensures items == old(items) && itemInfo == old(itemInfo)
    {
      if info.None? {
        return MsSuccess;
      }
      info := None;
      r := MsSuccess;
    }
  }

  /**
   * msSDELayerGetRowIDColumn: the default state uses SE_ROW_ID; otherwise the
   * table's registration is read, and any failing call gives NULL; an
   * unregistered table uses SE_ROW_ID, a registered one its row-id column.
   */
  function RowIdColumn(engine: Engine, info: Option<SdeInfo>): (col: Option<string>)
    ensures info.None? ==> col.None?
    ensures info.Some? && IsDefaultState(info.value.stateId) ==> col == Some(DefaultRowIdColumn)
    ensures info.Some? && !IsDefaultState(info.value.stateId) ==>
              var reg := engine.rowIdColumn(info.value.connection, info.value.table);
              && (col.None? <==>
                    || engine.status(ReginfoCreate) != Success
                    || engine.status(RegistrationGetInfo(info.value.connection, info.value.table)) != Success
                    || reg.status != Success)
              && (col.Some? ==> col.value == if reg.value.registered then reg.value.name else DefaultRowIdColumn)
  {
    match info
    case None => None
    case Some(sde) =>
      if IsDefaultState(sde.stateId) then Some(DefaultRowIdColumn)
      else if engine.status(ReginfoCreate) != Success then None
      else if engine.status(RegistrationGetInfo(sde.connection, sde.table)) != Success then None
      else
        var reg := engine.rowIdColumn(sde.connection, sde.table);
        if reg.status != Success then None
        else if !reg.value.registered then Some(DefaultRowIdColumn)
        else Some(reg.value.name)
  }

  /** msSDELayerGetSpatialColumn: a copy of the layer's spatial column, NULL when not open. */
  function SpatialColumn(info: Option<SdeInfo>): (col: Option<string>)
    ensures col.Some? <==> info.Some?
    ensures info.Some? ==> col == Some(info.value.column)
  {
    if info.None? then None else Some(info.value.column)
  }
}

/**
 * msSDELayerOpen: connecting (or reusing a pooled connection), reading the
 * DATA fields, resolving the version to a state, looking the layer up and
 * resetting the stream.
 */
module Lifecycle {
  import opened SdeCore
  import opened Foreign
  import opened LayerCache
  import opened Layers

  /** A connection and stream handed out by the connection pool. */
  datatype PoolEntry = PoolEntry(connection: Conn, stream: Stream)

  /**
   * The state a layer's queries run in, from its DATA fields: None when the
   * open fails. Two fields mean the default state; a third names a version,
   * whose lookup may report SE_INVALID_RELEASE (an older client), which also
   * means the default state; otherwise the version's state is used, unless
   * it cannot be read or is open for edits.
   */
  function ResolveState(engine: Engine, conn: Conn, dataParams: seq<string>): (s: Option<int>)
    requires |dataParams| >= 2
    ensures |dataParams| == 2 ==> s == Some(DefaultStateId)
    ensures (|dataParams| >= 3 && engine.status(VersioninfoCreate) == Success &&
             engine.versionInfo(conn, dataParams[2]).status == InvalidRelease) ==> s == Some(DefaultStateId)
    ensures (|dataParams| >= 3 && engine.status(VersioninfoCreate) != Success) ==> s.None?
    ensures (|dataParams| >= 3 && engine.versionInfo(conn, dataParams[2]).status !in {Success, InvalidRelease}) ==>
              s.None?
    ensures (&& |dataParams| >= 3
             && engine.versionInfo(conn, dataParams[2]).status == Success
             && engine.versionStateId(engine.versionInfo(conn, dataParams[2]).value).status != Success)
            ==> s.None?
    ensures (&& |dataParams| >= 3
             && engine.versionInfo(conn, dataParams[2]).status == Success
             && engine.status(StateinfoCreate) != Success)
            ==> s.None?
    ensures (&& |dataParams| >= 3
             && engine.versionInfo(conn, dataParams[2]).status == Success
             && var state := engine.versionStateId(engine.versionInfo(conn, dataParams[2]).value);
                state.status == Success && engine.stateIsOpen(conn, state.value).status != Success)
            ==> s.None?
    ensures s.Some? && s.value != DefaultStateId ==>
              && |dataParams| >= 3
              && engine.versionInfo(conn, dataParams[2]).status == Success
              && var version := engine.versionInfo(conn, dataParams[2]).value;
                 && engine.versionStateId(version).status == Success
                 && s.value == engine.versionStateId(version).value
                 && engine.stateIsOpen(conn, s.value).status == Success
                 && !engine.stateIsOpen(conn, s.value).value
    ensures (&& |dataParams| >= 3
             && engine.versionInfo(conn, dataParams[2]).status == Success
             && var state := engine.versionStateId(engine.versionInfo(conn, dataParams[2]).value);
                && state.status == Success
                && engine.stateIsOpen(conn, state.value).status == Success
                && engine.stateIsOpen(conn, state.value).value)
            ==> s.None?
    ensures (&& |dataParams| >= 3
             && engine.status(VersioninfoCreate) == Success
             && engine.versionInfo(conn, dataParams[2]).status == Success
             && var state := engine.versionStateId(engine.versionInfo(conn, dataParams[2]).value);
                && state.status == Success
                && engine.status(StateinfoCreate) == Success
                && engine.stateIsOpen(conn, state.value).status == Success
                && !engine.stateIsOpen(conn, state.value).value)
            ==> s == Some(engine.versionStateId(engine.versionInfo(conn, dataParams[2]).value).value)
  {
    if |dataParams| < 3 then Some(DefaultStateId)
    else if engine.status(VersioninfoCreate) != Success then None
    else
      var version := engine.versionInfo(conn, dataParams[2]);
      if version.status == InvalidRelease then Some(DefaultStateId)
      else if version.status != Success then None
      else
        var state := engine.versionStateId(version.value);
        if state.status != Success then None
        else if engine.status(StateinfoCreate) != Success then None
        else
          var info := engine.stateIsOpen(conn, state.value);
          if info.status != Success || info.value then None
          else Some(state.value)
  }

  /** The connection a layer is opened on: the pooled one, or a new one on the first five fields. */
  function ConnectionOf(engine: Engine, pooled: Option<PoolEntry>, connParams: seq<string>): Conn
    requires pooled.Some? || |connParams| >= 5
  {
    if pooled.Some? then pooled.value.connection else engine.connect(connParams[..5]).value
  }

  /** Whether a new connection and its stream can be set up. */
  predicate Connects(engine: Engine, connParams: seq<string>)
  {
    && |connParams| >= 5
    && engine.connect(connParams[..5]).status == Success
    && engine.status(ConnectionSetConcurrency(engine.connect(connParams[..5]).value)) == Success
    && engine.status(StreamCreate(engine.connect(connParams[..5]).value)) == Success
  }

  /** Whether the open gets as far as looking the layer up. */
  predicate ReachesLookup(engine: Engine, pooled: Option<PoolEntry>, connParams: seq<string>,
                          dataParams: seq<string>)
  {
    && (pooled.Some? || Connects(engine, connParams))
    && |dataParams| >= 2
    && ResolveState(engine, ConnectionOf(engine, pooled, connParams), dataParams).Some?
    && engine.status(LayerinfoCreate) == Success
  }

  /**
   * msSDELayerOpen. connParams and dataParams are the comma-separated fields
   * of the connection string and of DATA; pooled is what the pool handed
   * out. Without a pooled connection, fewer than five connection fields
   * fail; fewer than two DATA fields fail; the state is resolved from the
   * DATA fields; the layer is looked up through the cache. A successful open
   * stores the layer info, with a reset stream; a failed one leaves the
   * layer as it was.
   */
  method Open(layer: Layer, cache: LayerIdCache, engine: Engine, pooled: Option<PoolEntry>,
              connParams: seq<string>, dataParams: seq<string>)
    returns (r: MsResult)
    requires cache.Valid()
    modifies layer, cache, cache.lcache, if pooled.Some? then {pooled.value.stream} else {}
    ensures cache.Valid()
    ensures r == MsSuccess || r == MsFailure(SdeErr)
    ensures layer.connection == old(layer.connection) && layer.filter == old(layer.filter)
    ensures layer.queryOrder == old(layer.queryOrder)
    ensures layer.items == old(layer.items) && layer.itemInfo == old(layer.itemInfo)
    ensures r != MsSuccess ==> layer.info == old(layer.info)
    ensures pooled.None? && !Connects(engine, connParams) ==> r == MsFailure(SdeErr)
    ensures |dataParams| < 2 ==> r == MsFailure(SdeErr)
    ensures (pooled.Some? || Connects(engine, connParams)) && |dataParams| >= 2 &&
            ResolveState(engine, ConnectionOf(engine, pooled, connParams), dataParams).None? ==>
              r == MsFailure(SdeErr)
    ensures !ReachesLookup(engine, pooled, connParams, dataParams) ==>
              r == MsFailure(SdeErr) && cache.Entries() == old(cache.Entries())
    ensures ReachesLookup(engine, pooled, connParams, dataParams) ==>
              var conn := ConnectionOf(engine, pooled, connParams);
              var desc := Lookup(engine, conn, old(cache.Entries()), Some(dataParams[0]), Some(dataParams[1]),
                                 layer.connection);
              && cache.Entries() == SlotsAfter(engine, conn, old(cache.Entries()), Some(dataParams[0]),
                                               Some(dataParams[1]), layer.connection)
              && (r == MsSuccess <==>
                    && desc.Some?
                    && engine.status(LayerinfoGetCoordref(desc.value)) == Success
                    && engine.status(StreamClose) == Success)
              && (r == MsSuccess ==> layer.info.Some? && layer.info.value.layerInfo == desc.value)
    ensures r == MsSuccess ==> SpatialColumn(layer.info) == Some(dataParams[1])
    ensures r == MsSuccess ==>
              && (pooled.Some? || Connects(engine, connParams))
              && |dataParams| >= 2
              && var conn := ConnectionOf(engine, pooled, connParams);
                 && layer.info.Some?
                 && layer.info.value.connection == conn
                 && layer.info.value.table == dataParams[0]
                 && layer.info.value.column == dataParams[1]
                 && ResolveState(engine, conn, dataParams) == Some(layer.info.value.stateId)
                 && layer.info.value.rowIdColumn.None?
                 && (pooled.Some? ==> layer.info.value.stream == pooled.value.stream)
                 && (pooled.None? ==> fresh(layer.info.value.stream))
                 && layer.info.value.stream.pinned.None?
                 && layer.info.value.stream.script == [] && layer.info.value.stream.pos == 0
  {
    var conn: Conn;
    var stream: Stream;
    if pooled.Some? {
      conn, stream := pooled.value.connection, pooled.value.stream;
    } else {
      if |connParams| < 5 {
        return MsFailure(SdeErr);
      }
      var connected := engine.connect(connParams[..5]);
      if connected.status != Success {
        return MsFailure(SdeErr);
      }
      conn := connected.value;
      if engine.status(ConnectionSetConcurrency(conn)) != Success {
        return MsFailure(SdeErr);
      }
      if engine.status(StreamCreate(conn)) != Success {
        return MsFailure(SdeErr);
      }
      stream := new Stream();
    }
    if |dataParams| < 2 {
      return MsFailure(SdeErr);
    }
    var table, column := dataParams[0], dataParams[1];
    var state := ResolveState(engine, conn, dataParams);
    if state.None? {
      return MsFailure(SdeErr);
    }
    if engine.status(LayerinfoCreate) != Success {
      return MsFailure(SdeErr);
    }
    var found, desc, _ := cache.GetLayerInfo(engine, conn, Some(table), Some(column), layer.connection);
    if found != MsSuccess {
      return MsFailure(SdeErr);
    }
    // the status of SE_coordref_create is not checked
    if engine.status(LayerinfoGetCoordref(desc.value)) != Success {
      return MsFailure(SdeErr);
    }
    if engine.status(StreamClose) != Success {
      return MsFailure(SdeErr);
    }
    stream.Reset();
    layer.info := Some(SdeInfo(conn, stream, desc.value, state.value, table, column, None));
    r := MsSuccess;
  }
}

/**
 * The process-wide layer-id cache of mapsde.c (lcache, lcacheCount,
 * lcacheMax): an append-only array of (layer id, table, column, connection)
 * entries that spares a by-name layer lookup when a layer is opened again.
 */
module LayerCache {
  import opened SdeCore
  import opened Text
  import opened Foreign

  /**
   * One slot of the cache array. A slot that an add counted but could not
   * fill (its layer id could not be read) is `Vacant`.
   */
  datatype Slot =
    | Vacant
    | Entry(layerId: int, table: string, column: string, connection: string)

  /** The three strcasecmp tests of the lookup scan. */
  predicate Matches(s: Slot, table: string, column: string, connection: string)
  {
    && s.Entry?
    && EqualsIgnoreCase(s.table, table)
    && EqualsIgnoreCase(s.column, column)
    && EqualsIgnoreCase(s.connection, connection)
  }

  /** The index the lookup scan stops at: the first matching slot, if any. */
  function FirstMatch(slots: seq<Slot>, table: string, column: string, connection: string): (r: Option<nat>)
    ensures r.Some? ==> r.value < |slots| && Matches(slots[r.value], table, column, connection)
    ensures r.Some? ==> forall j :: 0 <= j < r.value ==> !Matches(slots[j], table, column, connection)
    ensures r.None? <==> forall j :: 0 <= j < |slots| ==> !Matches(slots[j], table, column, connection)
  {
    if |slots| == 0 then None
    else if Matches(slots[0], table, column, connection) then Some(0)
    else
      match FirstMatch(slots[1..], table, column, connection)
      case None => None
      case Some(i) => Some(i + 1)
  }

  /**
   * Once an entry for a key is appended, a lookup by any spelling of that key
   * that differs only in letter case finds an entry, at the appended slot or
   * at an earlier one.
   */
  lemma {:induction false} AppendedEntryIsFound(slots: seq<Slot>, e: Slot, table: string, column: string, connection: string)
    requires e.Entry?
    requires EqualsIgnoreCase(e.table, table) && EqualsIgnoreCase(e.column, column)
    requires EqualsIgnoreCase(e.connection, connection)
    ensures FirstMatch(slots + [e], table, column, connection).Some?
    ensures FirstMatch(slots + [e], table, column, connection).value <= |slots|
    ensures FirstMatch(slots, table, column, connection).None? ==>
              FirstMatch(slots + [e], table, column, connection) == Some(|slots|)
  {
    var all := slots + [e];
    assert all[|slots|] == e;
    assert Matches(all[|slots|], table, column, connection);
    if FirstMatch(slots, table, column, connection).None? {
      assert forall j :: 0 <= j < |slots| ==> all[j] == slots[j];
    }
  }

  /** Appending entries never changes which slot an existing hit resolves to. */
  lemma {:induction false} FirstMatchStable(slots: seq<Slot>, more: seq<Slot>, table: string, column: string, connection: string)
    requires FirstMatch(slots, table, column, connection).Some?
    ensures FirstMatch(slots + more, table, column, connection) == FirstMatch(slots, table, column, connection)
  {
    var i := FirstMatch(slots, table, column, connection).value;
    var all := slots + more;
    assert all[i] == slots[i];
    assert forall j :: 0 <= j < i ==> all[j] == slots[j];
  }

  /**
   * The layer description msSDEGetLayerInfo resolves from the cache's slots:
   * by the cached id on a hit, by name on a miss; None when it fails.
   */
  function Lookup(engine: Engine, conn: Conn, slots: seq<Slot>, table: Option<string>,
                  column: Option<string>, connection: Option<string>): Option<LayerDesc>
  {
    if table.None? || column.None? || connection.None? then None
    else match FirstMatch(slots, table.value, column.value, connection.value)
      case Some(i) =>
        var byId := engine.layerById(conn, slots[i].layerId);
        if byId.status == Success then Some(byId.value) else None
      case None =>
        var byName := engine.layerByName(conn, table.value, column.value);
        if byName.status == Success then Some(byName.value) else None
  }

  /**
   * The slots after msSDEGetLayerInfo: a miss resolved by name appends a
   * slot, filled when the layer's id can be read; anything else leaves them.
   */
  function SlotsAfter(engine: Engine, conn: Conn, slots: seq<Slot>, table: Option<string>,
                      column: Option<string>, connection: Option<string>): seq<Slot>
  {
    if table.None? || column.None? || connection.None? then slots
    else if FirstMatch(slots, table.value, column.value, connection.value).Some? then slots
    else
      var byName := engine.layerByName(conn, table.value, column.value);
      if byName.status != Success then slots
      else
        var id := engine.layerId(byName.value);
        slots + [if id.status == Success then Entry(id.value, table.value, column.value, connection.value) else Vacant]
  }

  /**
   * After a lookup that resolved the layer, the same key (in any letter case)
   * hits the cache, unless the layer was resolved by name and its id could
   * not be read; the slots that were there are kept.
   */
  lemma LookupLeavesKeyCached(engine: Engine, conn: Conn, slots: seq<Slot>, table: string,
                              column: string, connection: string, table': string, column': string,
                              connection': string)
    requires Lookup(engine, conn, slots, Some(table), Some(column), Some(connection)).Some?
    requires EqualsIgnoreCase(table, table') && EqualsIgnoreCase(column, column')
    requires EqualsIgnoreCase(connection, connection')
    requires FirstMatch(slots, table, column, connection).None? ==>
               engine.layerId(engine.layerByName(conn, table, column).value).status == Success
    ensures var after := SlotsAfter(engine, conn, slots, Some(table), Some(column), Some(connection));
            && |after| >= |slots| && after[..|slots|] == slots
            && FirstMatch(after, table', column', connection').Some?
  {
    var after := SlotsAfter(engine, conn, slots, Some(table), Some(column), Some(connection));
    match FirstMatch(slots, table, column, connection)
    case Some(i) =>
      var s := slots[i];
      EqualsIgnoreCaseIsEquivalence(s.table, table, table');
      EqualsIgnoreCaseIsEquivalence(s.column, column, column');
      EqualsIgnoreCaseIsEquivalence(s.connection, connection, connection');
      assert Matches(slots[i], table', column', connection');
    case None =>
      var e := after[|slots|];
      assert after == slots + [e];
      EqualsIgnoreCaseIsEquivalence(e.table, table, table');
      EqualsIgnoreCaseIsEquivalence(e.column, column, column');
      EqualsIgnoreCaseIsEquivalence(e.connection, connection, connection');
      AppendedEntryIsFound(slots, e, table', column', connection');
  }

  class LayerIdCache {
    /** lcache: lcacheMax slots, of which the first lcacheCount are in use. */
    var lcache: array<Slot>
    /** lcacheCount */
    var count: nat
    /** lcacheMax */
    var max: nat

    ghost predicate Valid()
      reads this, lcache
    {
      && count <= max
      && lcache.Length == max
      && forall i :: count <= i < max ==> lcache[i] == Vacant
    }

    /** The slots in use, in insertion order. */
    function Entries(): seq<Slot>
      reads this, lcache
      requires Valid()
    {
      lcache[..count]
    }

    /** The cache as the process starts: no array, nothing counted. */
    constructor ()
      ensures Valid() && Entries() == [] && max == 0 && fresh(lcache)
    {
      lcache := new Slot[0];
      count, max := 0, 0;
    }

    /** The scan of msSDEGetLayerInfo over the slots in use. */
    method Find(table: string, column: string, connection: string) returns (idx: Option<nat>)
      requires Valid()
      ensures idx == FirstMatch(Entries(), table, column, connection)
    {
      var i := 0;
      while i < count
        invariant 0 <= i <= count
        invariant forall j :: 0 <= j < i ==> !Matches(lcache[j], table, column, connection)
      {
        if Matches(lcache[i], table, column, connection) {
          return Some(i);
        }
        i := i + 1;
      }
      return None;
    }

    /**
     * msSDELCacheAdd: when every slot is in use the array grows by ten; then
     * a slot is counted and filled with the layer's id and the three strings.
     * If the id cannot be read, the slot stays counted and unfilled.
     */
    method Add(engine: Engine, desc: LayerDesc, table: string, column: string, connection: string)
      returns (r: MsResult, calls: seq<Call>)
      requires Valid()
      modifies this, lcache
      ensures Valid()
      ensures old(count) == old(max) ==> max == old(max) + 10
      ensures old(count) < old(max) ==> max == old(max) && lcache == old(lcache)
      ensures count == old(count) + 1
      ensures calls == [LayerinfoGetId(desc)]
      ensures engine.layerId(desc).status == Success ==>
                r == MsSuccess &&
                Entries() == old(Entries()) + [Entry(engine.layerId(desc).value, table, column, connection)]
      ensures engine.layerId(desc).status != Success ==>
                r == MsFailure(SdeErr) && Entries() == old(Entries()) + [Vacant]
    {
      if count == max {
        var grown := new Slot[max + 10](_ => Vacant);
        forall i | 0 <= i < count {
          grown[i] := lcache[i];
        }
        lcache := grown;
        max := max + 10;
      }
      var lid := count;
      count := count + 1;
      calls := [LayerinfoGetId(desc)];
      var id := engine.layerId(desc);
      if id.status != Success {
        return MsFailure(SdeErr), calls;
      }
      lcache[lid] := Entry(id.value, table, column, connection);
      r := MsSuccess;
    }

    /**
     * msSDEGetLayerInfo: a missing table, column or connection string fails
     * with MS_MISCERR; a cache hit resolves the layer by its cached id; a miss
     * resolves it by name and then caches it, succeeding even if caching fails.
     */
    method GetLayerInfo(engine: Engine, conn: Conn, table: Option<string>, column: Option<string>,
                        connection: Option<string>)
      returns (r: MsResult, info: Option<LayerDesc>, calls: seq<Call>)
      requires Valid()
      modifies this, lcache
      ensures Valid()
      ensures r.MsSuccess? <==> info.Some?
      ensures r != MsDone
      ensures info == Lookup(engine, conn, old(Entries()), table, column, connection)
      ensures Entries() == SlotsAfter(engine, conn, old(Entries()), table, column, connection)
      // NULL strings: failure before any scan or call
      ensures table.None? || column.None? || connection.None? ==>
                r == MsFailure(MiscErr) && calls == [] && Entries() == old(Entries())
      // a hit: resolved by the cached id; no by-name lookup, no add
      ensures table.Some? && column.Some? && connection.Some? &&
              FirstMatch(old(Entries()), table.value, column.value, connection.value).Some? ==>
                var hit := old(Entries())[FirstMatch(old(Entries()), table.value, column.value, connection.value).value];
                var byId := engine.layerById(conn, hit.layerId);
                && calls == [LayerGetInfoById(conn, hit.layerId)]
                && Entries() == old(Entries())
                && (byId.status == Success ==> r == MsSuccess && info == Some(byId.value))
                && (byId.status != Success ==> r == MsFailure(SdeErr))
      // a miss: by-name lookup, then an add whose outcome does not matter
      ensures table.Some? && column.Some? && connection.Some? &&
              FirstMatch(old(Entries()), table.value, column.value, connection.value).None? ==>
                var byName := engine.layerByName(conn, table.value, column.value);
                && (byName.status != Success ==>
                      r == MsFailure(SdeErr) && calls == [LayerGetInfo(conn, table.value, column.value)] &&
                      Entries() == old(Entries()))
                && (byName.status == Success ==>
                      && r == MsSuccess && info == Some(byName.value)
                      && calls == [LayerGetInfo(conn, table.value, column.value), LayerinfoGetId(byName.value)]
                      && |Entries()| == |old(Entries())| + 1
                      && Entries()[..|old(Entries())|] == old(Entries())
                      && (engine.layerId(byName.value).status == Success ==>
                            FirstMatch(Entries(), table.value, column.value, connection.value)
                              == Some(|old(Entries())|)))
    {
      if table.None? || column.None? || connection.None? {
        return MsFailure(MiscErr), None, [];
      }
      var hit := Find(table.value, column.value, connection.value);
      if hit.Some? {
        var id := lcache[hit.value].layerId;
        calls := [LayerGetInfoById(conn, id)];
        var byId := engine.layerById(conn, id);
        if byId.status != Success {
          return MsFailure(SdeErr), None, calls;
        }
        return MsSuccess, Some(byId.value), calls;
      }
      calls := [LayerGetInfo(conn, table.value, column.value)];
      var byName := engine.layerByName(conn, table.value, column.value);
      if byName.status != Success {
        return MsFailure(SdeErr), None, calls;
      }
      ghost var before := Entries();
      var added, addCalls := Add(engine, byName.value, table.value, column.value, connection.value);
      calls := calls + addCalls;
      if added == MsSuccess {
        AppendedEntryIsFound(before, Entries()[|before|], table.value, column.value, connection.value);
        assert Entries() == before + [Entries()[|before|]];
      }
      return MsSuccess, Some(byName.value), calls;
    }
  }
}

/**
 * Item metadata: matching a layer's items against the columns the table
 * describes (msSDELayerInitItemInfo, msSDELayerGetItems) and seeding the
 * item list with the row-id and spatial columns (msSDELayerCreateItems).
 */
module Items {
  import opened SdeCore
  import opened Text
  import opened Foreign
  import opened RowDecode
  import opened Layers

  /** The first column whose name equals the item's ignoring case; a NULL item matches none. */
  function FirstColumnNamed(defs: seq<ColumnDef>, name: Option<string>): (j: Option<nat>)
    ensures j.Some? ==> name.Some? && j.value < |defs| && EqualsIgnoreCase(name.value, defs[j.value].name)
    ensures j.Some? ==> forall k :: 0 <= k < j.value ==> !EqualsIgnoreCase(name.value, defs[k].name)
    ensures j.None? <==> name.None? || forall k :: 0 <= k < |defs| ==> !EqualsIgnoreCase(name.value, defs[k].name)
  {
    if name.None? || |defs| == 0 then None
    else if EqualsIgnoreCase(name.value, defs[0].name) then Some(0)
    else
      match FirstColumnNamed(defs[1..], name)
      case None => None
      case Some(j) => Some(j + 1)
  }

  /** The inner scan of the matching loops: it stops at the first column that matches. */
  method MatchColumn(defs: seq<ColumnDef>, name: Option<string>) returns (j: Option<nat>)
    ensures j == FirstColumnNamed(defs, name)
  {
    if name.None? {
      return None;
    }
    var k := 0;
    while k < |defs|
      invariant 0 <= k <= |defs|
      invariant forall m :: 0 <= m < k ==> !EqualsIgnoreCase(name.value, defs[m].name)
    {
      if EqualsIgnoreCase(name.value, defs[k].name) {
        return Some(k);
      }
      k := k + 1;
    }
    return None;
  }

  /**
   * Every described column finds a definition of its own name, at or before
   * its own position; when no two columns share a name up to letter case, it
   * finds its own.
   */
  lemma DescribedColumnsMatch(defs: seq<ColumnDef>, i: nat)
    requires i < |defs|
    ensures FirstColumnNamed(defs, Some(defs[i].name)).Some?
    ensures FirstColumnNamed(defs, Some(defs[i].name)).value <= i
    ensures (forall k :: 0 <= k < |defs| && k != i ==> !EqualsIgnoreCase(defs[k].name, defs[i].name)) ==>
              FirstColumnNamed(defs, Some(defs[i].name)) == Some(i)
  {
    EqualsIgnoreCaseIsEquivalence(defs[i].name, defs[i].name, defs[i].name);
    var j := FirstColumnNamed(defs, Some(defs[i].name)).value;
    EqualsIgnoreCaseIsEquivalence(defs[i].name, defs[j].name, defs[i].name);
  }

  /** The item list of a described table: every column's name, in table order. */
  function ColumnNames(defs: seq<ColumnDef>): (items: seq<Option<string>>)
    ensures |items| == |defs| && forall i :: 0 <= i < |defs| ==> items[i] == Some(defs[i].name)
  {
    seq(|defs|, i requires 0 <= i < |defs| => Some(defs[i].name))
  }

  /**
   * msSDELayerInitItemInfo. The layer must be open: the row-id column is
   * stored through layer->layerinfo before the NULL test. The table is
   * described; every item except the row-id item gets the definition of the
   * first column of its name (ignoring case), and an item with no such
   * column fails with MS_MISCERR. The row-id item's definition is left as it was.
   */
  method InitItemInfo(layer: Layer, engine: Engine) returns (r: MsResult)
    requires layer.info.Some?
    requires layer.itemInfo != null ==> layer.itemInfo.Length >= |layer.items|
    modifies layer, layer.itemInfo
    ensures layer.info == Some(old(layer.info.value).(rowIdColumn := RowIdColumn(engine, old(layer.info))))
    ensures layer.connection == old(layer.connection) && layer.filter == old(layer.filter)
    ensures layer.queryOrder == old(layer.queryOrder) && layer.items == old(layer.items)
    ensures var sde := old(layer.info.value);
            engine.describe(sde.connection, sde.table).status != Success ==>
              r == MsFailure(SdeErr) && layer.itemInfo == old(layer.itemInfo)
    ensures var sde := old(layer.info.value);
            var described := engine.describe(sde.connection, sde.table);
            var rowId := RowIdColumn(engine, old(layer.info));
            described.status == Success ==>
              && layer.itemInfo != null && layer.itemInfo.Length >= |layer.items|
              && (old(layer.itemInfo) == null ==> fresh(layer.itemInfo) && layer.itemInfo.Length == |layer.items|)
              && (old(layer.itemInfo) != null ==> layer.itemInfo == old(layer.itemInfo))
              && (r == MsSuccess || r == MsFailure(MiscErr))
              && (r == MsSuccess <==>
                    forall i :: 0 <= i < |layer.items| && !SameName(layer.items[i], rowId) ==>
                      FirstColumnNamed(described.value, layer.items[i]).Some?)
              && (r == MsSuccess ==>
                    forall i :: 0 <= i < |layer.items| ==>
                      layer.itemInfo[i] ==
                        if SameName(layer.items[i], rowId) then
                          (if old(layer.itemInfo) == null then ZeroColumnDef else old(layer.itemInfo[i]))
                        else described.value[FirstColumnNamed(described.value, layer.items[i]).value])
  {
    var sde := layer.info.value;
    var rowId := RowIdColumn(engine, layer.info);
    layer.info := Some(sde.(rowIdColumn := rowId));
    var described := engine.describe(sde.connection, sde.table);
    if described.status != Success {
      return MsFailure(SdeErr);
    }
    var defs := described.value;
    if layer.itemInfo == null {
      layer.itemInfo := new ColumnDef[|layer.items|](_ => ZeroColumnDef);
    }
    var info := layer.itemInfo;
    ghost var init := info[..];
    var items := layer.items;
    var i := 0;
    while i < |items|
      modifies info
      invariant 0 <= i <= |items|
      invariant forall k :: 0 <= k < i && !SameName(items[k], rowId) ==>
                  FirstColumnNamed(defs, items[k]).Some? && info[k] == defs[FirstColumnNamed(defs, items[k]).value]
      invariant forall k :: 0 <= k < info.Length && (k >= i || SameName(items[k], rowId)) ==> info[k] == init[k]
    {
      if !SameName(items[i], rowId) {
        var j := MatchColumn(defs, items[i]);
        if j.None? {
          return MsFailure(MiscErr);
        }
        info[i] := defs[j.value];
      }
      i := i + 1;
    }
    r := MsSuccess;
  }

  /**
   * The matching loop of msSDELayerGetItems over a table's own column names:
   * each item gets the definition of the first column of its name.
   */
  method MatchDescribedItems(info: array<ColumnDef>, defs: seq<ColumnDef>)
    requires info.Length >= |defs|
    modifies info
    ensures forall i :: 0 <= i < |defs| ==>
              var j := FirstColumnNamed(defs, Some(defs[i].name));
              j.Some? && info[i] == defs[j.value]
  {
    var items := ColumnNames(defs);
    var i := 0;
    while i < |items|
      invariant 0 <= i <= |items|
      invariant forall k :: 0 <= k < i ==>
                  FirstColumnNamed(defs, items[k]).Some? && info[k] == defs[FirstColumnNamed(defs, items[k]).value]
    {
      var j := MatchColumn(defs, items[i]);
      DescribedColumnsMatch(defs, i);
      info[i] := defs[j.value];
      i := i + 1;
    }
  }

  /**
   * msSDELayerGetItems. A layer that is not open fails. The row-id column is
   * stored, the table is described, the items become the table's column
   * names, and each gets the definition of the first column of its name.
   */
  method GetItems(layer: Layer, engine: Engine) returns (r: MsResult)
    requires layer.info.Some? && layer.itemInfo != null ==>
               var described := engine.describe(layer.info.value.connection, layer.info.value.table);
               described.status == Success ==> layer.itemInfo.Length >= |described.value|
    modifies layer, layer.itemInfo
    ensures layer.connection == old(layer.connection) && layer.filter == old(layer.filter)
    ensures layer.queryOrder == old(layer.queryOrder)
    ensures old(layer.info).None? ==>
              r == MsFailure(SdeErr) && layer.info == old(layer.info) &&
              layer.items == old(layer.items) && layer.itemInfo == old(layer.itemInfo)
    ensures old(layer.info).Some? ==>
              layer.info == Some(old(layer.info.value).(rowIdColumn := RowIdColumn(engine, old(layer.info))))
    ensures old(layer.info).Some? ==>
              var sde := old(layer.info).value;
              engine.describe(sde.connection, sde.table).status != Success ==>
                r == MsFailure(SdeErr) && layer.items == old(layer.items) && layer.itemInfo == old(layer.itemInfo)
    ensures old(layer.info).Some? ==>
              var sde := old(layer.info).value;
              var described := engine.describe(sde.connection, sde.table);
              described.status == Success ==>
                && r == MsSuccess
                && layer.items == ColumnNames(described.value)
                && layer.itemInfo != null
                && (old(layer.itemInfo) == null ==> fresh(layer.itemInfo) && layer.itemInfo.Length == |described.value|)
                && (old(layer.itemInfo) != null ==> layer.itemInfo == old(layer.itemInfo))
                && forall i :: 0 <= i < |described.value| ==>
                     FirstColumnNamed(described.value, layer.items[i]).Some? &&
                     layer.itemInfo[i] == described.value[FirstColumnNamed(described.value, layer.items[i]).value]
  {
    if layer.info.None? {
      return MsFailure(SdeErr);
    }
    var sde := layer.info.value;
    layer.info := Some(sde.(rowIdColumn := RowIdColumn(engine, layer.info)));
    var described := engine.describe(sde.connection, sde.table);
    if described.status != Success {
      return MsFailure(SdeErr);
    }
    var defs := described.value;
    layer.items := ColumnNames(defs);
    if layer.itemInfo == null {
      layer.itemInfo := new ColumnDef[|defs|](_ => ZeroColumnDef);
    }
    MatchDescribedItems(layer.itemInfo, defs);
    r := MsSuccess;
  }

  /** msSDELayerCreateItems: the items become the row-id column and the spatial column. */
  method CreateItems(layer: Layer, engine: Engine) returns (r: MsResult)
    modifies layer
    ensures r == MsSuccess
    ensures layer.items == [RowIdColumn(engine, layer.info), SpatialColumn(layer.info)]
    ensures layer.info == old(layer.info) && layer.itemInfo == old(layer.itemInfo)
    ensures layer.connection == old(layer.connection) && layer.filter == old(layer.filter)
    ensures layer.queryOrder == old(layer.queryOrder)
  {
    layer.items := [RowIdColumn(engine, layer.info), SpatialColumn(layer.info)];
    r := MsSuccess;
  }

  /**
   * With the seeded items and the row-id column that the item set-up
   * records, the decoder reads the first item as the row id, and the second
   * one (the spatial column) as an ordinary column unless it has the same name.
   */
  lemma SeededItemsLeadWithRowId(engine: Engine, sde: SdeInfo, defs: seq<ColumnDef>)
    requires RowIdColumn(engine, Some(sde)).Some?
    requires |defs| >= 2
    ensures var rowId := RowIdColumn(engine, Some(sde));
            var layout := RecordLayout([rowId, SpatialColumn(Some(sde))], defs, rowId);
            && IsRowIdItem(layout, 0)
            && (IsRowIdItem(layout, 1) <==> sde.column == rowId.value)
  {
  }
}

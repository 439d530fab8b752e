/**
 * sdeGetRecord: decoding the stream's current row into a shape's attribute
 * values, its row index and, through sdeShapeCopy, its geometry.
 */
module RowDecode {
  import opened SdeCore
  import opened Text
  import opened Foreign
  import opened Geometry

  /**
   * long2string, double2string and strftime with "%T %m/%d/%Y": the
   * formatting services the decoder hands native values to.
   */
  datatype Formats = Formats(long: int -> string, double: real -> string, date: Tm -> string)

  /** What a row is decoded against: the layer's items, their column definitions and the row-id column. */
  datatype RecordLayout = RecordLayout(items: seq<Option<string>>, defs: seq<ColumnDef>, rowIdColumn: Option<string>)
  {
    /** layer->iteminfo holds a definition for every requested item. */
    predicate Fits() { |defs| >= |items| }
  }

  /** The attribute-relevant state of a shapeObj. */
  datatype ShapeState = ShapeState(geom: Geometry, values: seq<string>, index: int)

  function StateOf(s: Shape): ShapeState
    reads s, s.values
  {
    ShapeState(s.Geom(), s.values[..], s.index)
  }

  /** Blob bytes copied into the value's character buffer. */
  function BytesAsText(b: seq<bv8>): (s: string)
    ensures |s| == |b| && forall i :: 0 <= i < |b| ==> s[i] as int == b[i] as int
  {
    seq(|b|, i requires 0 <= i < |b| => (b[i] as int) as char)
  }

  /** A buffer of 8-bit characters read back as bytes. */
  function TextAsBytes(s: string): seq<bv8>
    requires forall i :: 0 <= i < |s| ==> s[i] as int < 256
  {
    seq(|s|, i requires 0 <= i < |s| => (s[i] as int) as bv8)
  }

  /** The copy of a blob into a value buffer loses no byte and adds none. */
  lemma BlobTextKeepsBytes(b: seq<bv8>)
    ensures forall i :: 0 <= i < |BytesAsText(b)| ==> BytesAsText(b)[i] as int < 256
    ensures TextAsBytes(BytesAsText(b)) == b
  {
    var s := BytesAsText(b);
    forall i | 0 <= i < |b| ensures TextAsBytes(s)[i] == b[i] {
      assert s[i] as int == b[i] as int;
    }
  }

  /** A read that maps SE_NULL_VALUE to "<null>" and any other failure to an error. */
  function NullableText<T>(r: Reply<T>, format: T -> string): Option<string>
  {
    if r.status == Success then Some(format(r.value))
    else if r.status == NullValue then Some(NullString)
    else None
  }

  /**
   * The switch on the column type for one item read at 1-based position pos.
   * None is a decode failure.
   */
  function ColumnText(row: Row, pos: int, t: ColumnType, fmt: Formats): (v: Option<string>)
    ensures t.OtherColumn? ==> v.None?
    ensures t == StringColumn ==>
              (row.str(pos).status == NullValue ==> v == Some("")) &&
              (row.str(pos).status == Success ==> v == Some(row.str(pos).value))
    ensures t == ShapeColumn && row.shape(pos).status == Success ==> v == Some(ShapeString)
    ensures t == BlobColumn && row.blob(pos).status == Success ==> v == Some(BytesAsText(row.blob(pos).value))
    ensures t == SmallIntColumn && row.smallint(pos).status == Success ==> v == Some(fmt.long(row.smallint(pos).value))
    ensures t == IntegerColumn && row.integer(pos).status == Success ==> v == Some(fmt.long(row.integer(pos).value))
    ensures t == FloatColumn && row.float(pos).status == Success ==> v == Some(fmt.double(row.float(pos).value))
    ensures t == DoubleColumn && row.double(pos).status == Success ==> v == Some(fmt.double(row.double(pos).value))
    ensures t == DateColumn && row.date(pos).status == Success ==> v == Some(fmt.date(row.date(pos).value))
    ensures t == SmallIntColumn && row.smallint(pos).status == NullValue ==> v == Some(NullString)
    ensures t == IntegerColumn && row.integer(pos).status == NullValue ==> v == Some(NullString)
    ensures t == FloatColumn && row.float(pos).status == NullValue ==> v == Some(NullString)
    ensures t == DoubleColumn && row.double(pos).status == NullValue ==> v == Some(NullString)
    ensures t == BlobColumn && row.blob(pos).status == NullValue ==> v == Some(NullString)
    ensures t == DateColumn && row.date(pos).status == NullValue ==> v == Some(NullString)
    ensures t == ShapeColumn && row.shape(pos).status == NullValue ==> v == Some(NullString)
    ensures v.Some? <==> !t.OtherColumn? && ReadStatus(row, pos, t) in {Success, NullValue}
  {
    match t
    case SmallIntColumn => NullableText(row.smallint(pos), fmt.long)
    case IntegerColumn => NullableText(row.integer(pos), fmt.long)
    case FloatColumn => NullableText(row.float(pos), fmt.double)
    case DoubleColumn => NullableText(row.double(pos), fmt.double)
    case StringColumn =>
      var r := row.str(pos);
      if r.status == NullValue then Some("")
      else if r.status != Success then None
      else Some(r.value)
    case BlobColumn => NullableText(row.blob(pos), BytesAsText)
    case DateColumn => NullableText(row.date(pos), fmt.date)
    case ShapeColumn => NullableText(row.shape(pos), _ => ShapeString)
    case OtherColumn(_) => None
  }

  /** The status of the getter the column type selects. */
  function ReadStatus(row: Row, pos: int, t: ColumnType): Status
  {
    match t
    case SmallIntColumn => row.smallint(pos).status
    case IntegerColumn => row.integer(pos).status
    case FloatColumn => row.float(pos).status
    case DoubleColumn => row.double(pos).status
    case StringColumn => row.str(pos).status
    case BlobColumn => row.blob(pos).status
    case DateColumn => row.date(pos).status
    case ShapeColumn => row.shape(pos).status
    case OtherColumn(_) => Failed(0)
  }

  /** Whether item i is the row-id column (compared byte for byte). */
  predicate IsRowIdItem(layout: RecordLayout, i: nat)
    requires i < |layout.items|
  {
    SameName(layout.items[i], layout.rowIdColumn)
  }

  /**
   * The text of item i: the row-id column is read as an integer and written
   * in decimal; every other item goes through the type switch.
   */
  function ItemText(layout: RecordLayout, row: Row, i: nat, fmt: Formats): (v: Option<string>)
    requires layout.Fits() && i < |layout.items|
    ensures IsRowIdItem(layout, i) ==>
              (v.Some? <==> row.integer(i + 1).status == Success) &&
              (v.Some? ==> ParseLong(v.value) == row.integer(i + 1).value)
  {
    if IsRowIdItem(layout, i) then
      var r := row.integer(i + 1);
      if r.status != Success then None
      else
        LongToDecimalRoundTrip(r.value);
        Some(LongToDecimal(r.value))
    else
      ColumnText(row, i + 1, layout.defs[i].sdeType, fmt)
  }

  /** shape->index after the first n items: set by the last row-id item among them. */
  function IndexAfter(layout: RecordLayout, row: Row, n: nat, index0: int): int
    requires n <= |layout.items|
  {
    if n == 0 then index0
    else if IsRowIdItem(layout, n - 1) then row.integer(n).value
    else IndexAfter(layout, row, n - 1, index0)
  }

  /** Whether item i is read into the shape handle. */
  predicate ReadsShape(layout: RecordLayout, row: Row, i: nat)
    requires layout.Fits() && i < |layout.items|
  {
    && !IsRowIdItem(layout, i)
    && layout.defs[i].sdeType == ShapeColumn
    && row.shape(i + 1).status in {Success, NullValue}
  }

  /**
   * The shape handle after the first n items: the last shape column read, or
   * the fresh nil shape. What a NULL read leaves in the handle is the
   * engine's answer, not necessarily a nil shape.
   */
  function ShapeAfter(layout: RecordLayout, row: Row, n: nat): ForeignShape
    requires layout.Fits() && n <= |layout.items|
  {
    if n == 0 then EmptyShapeData
    else if ReadsShape(layout, row, n - 1) then row.shape(n).value
    else ShapeAfter(layout, row, n - 1)
  }

  predicate AllItemsDecode(layout: RecordLayout, row: Row, fmt: Formats)
    requires layout.Fits()
  {
    forall i :: 0 <= i < |layout.items| ==> ItemText(layout, row, i, fmt).Some?
  }

  /**
   * sdeGetRecord as a function of the row and the shape's previous state:
   * None when it returns MS_FAILURE.
   */
  function Record(layout: RecordLayout, row: Row, fmt: Formats, created: Status, st: ShapeState): (r: Option<ShapeState>)
    requires layout.Fits()
    ensures r.Some? ==> created == Success && AllItemsDecode(layout, row, fmt)
    ensures r.Some? && |layout.items| > 0 ==> |r.value.values| == |layout.items|
    ensures r.Some? ==>
              && |r.value.geom.lines| >= |st.geom.lines|
              && r.value.geom.lines[..|st.geom.lines|] == st.geom.lines
  {
    if created != Success || !AllItemsDecode(layout, row, fmt) then None
    else
      var n := |layout.items|;
      var values := if n > 0 then seq(n, i requires 0 <= i < n => ItemText(layout, row, i, fmt).value)
                    else st.values;
      var index := IndexAfter(layout, row, n, st.index);
      var handle := ShapeAfter(layout, row, n);
      if handle.isNil then Some(ShapeState(st.geom, values, index))
      else
        var copied := CopyShape(handle, st.geom);
        if copied.0 then Some(ShapeState(copied.1, values, index)) else None
  }

  /**
   * A decoded record holds one value per item: the row id in decimal (which
   * reads back as the row id, and which the shape's index takes when it is the
   * last row-id item), "" for a NULL string column and "<null>" for any other
   * NULL column.
   */
  lemma {:induction false} RecordValues(layout: RecordLayout, row: Row, fmt: Formats, created: Status,
                                        st: ShapeState, i: nat)
    requires layout.Fits() && i < |layout.items|
    requires Record(layout, row, fmt, created, st).Some?
    ensures var rec := Record(layout, row, fmt, created, st).value;
            && |rec.values| == |layout.items|
            && (IsRowIdItem(layout, i) ==>
                  && rec.values[i] == LongToDecimal(row.integer(i + 1).value)
                  && ParseLong(rec.values[i]) == row.integer(i + 1).value
                  && ((forall j :: i < j < |layout.items| ==> !IsRowIdItem(layout, j)) ==>
                        rec.index == row.integer(i + 1).value))
            && (!IsRowIdItem(layout, i) ==>
                  && ColumnText(row, i + 1, layout.defs[i].sdeType, fmt).Some?
                  && rec.values[i] == ColumnText(row, i + 1, layout.defs[i].sdeType, fmt).value)
            && (!IsRowIdItem(layout, i) && ReadStatus(row, i + 1, layout.defs[i].sdeType) == NullValue ==>
                  rec.values[i] == if layout.defs[i].sdeType == StringColumn then "" else NullString)
  {
    assert ItemText(layout, row, i, fmt).Some?;
    if IsRowIdItem(layout, i) {
      LongToDecimalRoundTrip(row.integer(i + 1).value);
      if forall j :: i < j < |layout.items| ==> !IsRowIdItem(layout, j) {
        IndexAfterLastRowId(layout, row, |layout.items|, i, st.index);
      }
    }
  }

  lemma {:induction false} IndexAfterLastRowId(layout: RecordLayout, row: Row, n: nat, i: nat, index0: int)
    requires i < n <= |layout.items| && IsRowIdItem(layout, i)
    requires forall j :: i < j < n ==> !IsRowIdItem(layout, j)
    ensures IndexAfter(layout, row, n, index0) == row.integer(i + 1).value
  {
    if n - 1 > i {
      IndexAfterLastRowId(layout, row, n - 1, i, index0);
    }
  }

  /** An item of a type the switch does not know makes the whole record fail. */
  lemma UnknownColumnTypeFails(layout: RecordLayout, row: Row, fmt: Formats, created: Status,
                               st: ShapeState, i: nat)
    requires layout.Fits() && i < |layout.items|
    requires !IsRowIdItem(layout, i) && layout.defs[i].sdeType.OtherColumn?
    ensures Record(layout, row, fmt, created, st).None?
  {
    assert ItemText(layout, row, i, fmt).None?;
  }

  /**
   * A row that leaves the shape handle nil (no shape column, or a shape
   * column whose read left a nil shape) keeps the shape's geometry, and
   * so adds no line.
   */
  lemma NilHandleKeepsGeometry(layout: RecordLayout, row: Row, fmt: Formats, created: Status,
                               st: ShapeState)
    requires layout.Fits()
    requires ShapeAfter(layout, row, |layout.items|).isNil
    requires Record(layout, row, fmt, created, st).Some?
    ensures Record(layout, row, fmt, created, st).value.geom == st.geom
  {
  }

  /**
   * The handle sdeGetRecord copies is the one the last shape column read
   * into: a later non-shape item leaves it alone.
   */
  lemma {:induction false} ShapeAfterIsLastRead(layout: RecordLayout, row: Row, n: nat, i: nat)
    requires layout.Fits() && i < n <= |layout.items|
    requires ReadsShape(layout, row, i)
    requires forall j :: i < j < n ==> !ReadsShape(layout, row, j)
    ensures ShapeAfter(layout, row, n) == row.shape(i + 1).value
  {
    if n - 1 > i {
      ShapeAfterIsLastRead(layout, row, n - 1, i);
    }
  }

  /** Without a shape column read, the handle is the fresh nil shape. */
  lemma {:induction false} NoShapeReadStaysNil(layout: RecordLayout, row: Row, n: nat)
    requires layout.Fits() && n <= |layout.items|
    requires forall i :: 0 <= i < n ==> !ReadsShape(layout, row, i)
    ensures ShapeAfter(layout, row, n) == EmptyShapeData
  {
    if n > 0 {
      NoShapeReadStaysNil(layout, row, n - 1);
    }
  }

  /** Record, once every item has been decoded into the value buffer. */
  lemma RecordOfDecodedRow(layout: RecordLayout, row: Row, fmt: Formats, st: ShapeState,
                           values: seq<string>, index: int, handle: ForeignShape)
    requires layout.Fits()
    requires |layout.items| > 0 ==> |values| == |layout.items|
    requires |layout.items| == 0 ==> values == st.values
    requires forall j :: 0 <= j < |layout.items| ==>
               ItemText(layout, row, j, fmt).Some? && values[j] == ItemText(layout, row, j, fmt).value
    requires index == IndexAfter(layout, row, |layout.items|, st.index)
    requires handle == ShapeAfter(layout, row, |layout.items|)
    ensures handle.isNil ==> Record(layout, row, fmt, Success, st) == Some(ShapeState(st.geom, values, index))
    ensures !handle.isNil ==>
              Record(layout, row, fmt, Success, st) ==
                if CopyShape(handle, st.geom).0 then Some(ShapeState(CopyShape(handle, st.geom).1, values, index))
                else None
  {
    var n := |layout.items|;
    assert AllItemsDecode(layout, row, fmt);
    assert n > 0 ==> values == seq(n, j requires 0 <= j < n => ItemText(layout, row, j, fmt).value);
  }

  /**
   * The item loop of sdeGetRecord: each item's text goes into its value
   * slot, the row-id item sets the index and a shape column sets the
   * handle; the loop stops at the first item that does not decode.
   */
  method DecodeItems(layout: RecordLayout, row: Row, fmt: Formats, shape: Shape)
    returns (ok: bool, handle: ForeignShape)
    requires layout.Fits() && |layout.items| <= shape.values.Length
    modifies shape, if |layout.items| > 0 then {shape.values} else {}
    ensures shape.values == old(shape.values) && shape.Geom() == old(shape.Geom())
    ensures forall j :: |layout.items| <= j < shape.values.Length ==> shape.values[j] == old(shape.values[j])
    ensures ok <==> AllItemsDecode(layout, row, fmt)
    ensures ok ==>
              && (forall j :: 0 <= j < |layout.items| ==> shape.values[j] == ItemText(layout, row, j, fmt).value)
              && shape.index == IndexAfter(layout, row, |layout.items|, old(shape.index))
              && handle == ShapeAfter(layout, row, |layout.items|)
  {
    var n := |layout.items|;
    handle := EmptyShapeData;
    var i := 0;
    while i < n
      invariant 0 <= i <= n
      invariant shape.values == old(shape.values) && shape.Geom() == old(shape.Geom())
      invariant forall j :: n <= j < shape.values.Length ==> shape.values[j] == old(shape.values[j])
      invariant forall j :: 0 <= j < i ==>
                  ItemText(layout, row, j, fmt).Some? && shape.values[j] == ItemText(layout, row, j, fmt).value
      invariant shape.index == IndexAfter(layout, row, i, old(shape.index))
      invariant handle == ShapeAfter(layout, row, i)
    {
      var text := ItemText(layout, row, i, fmt);
      if text.None? {
        return false, handle;
      }
      if IsRowIdItem(layout, i) {
        shape.index := row.integer(i + 1).value;
      } else if layout.defs[i].sdeType == ShapeColumn {
        handle := row.shape(i + 1).value;
      }
      shape.values[i] := text.value;
      i := i + 1;
    }
    ok := true;
  }

  /** sdeGetRecord. */
  method GetRecord(layout: RecordLayout, row: Row, fmt: Formats, engine: Engine, shape: Shape)
    returns (r: MsResult)
    requires layout.Fits()
    modifies shape
    ensures r == MsSuccess || r == MsFailure(SdeErr)
    ensures r == MsSuccess <==> Record(layout, row, fmt, engine.status(ShapeCreate), old(StateOf(shape))).Some?
    ensures r == MsSuccess ==>
              StateOf(shape) == Record(layout, row, fmt, engine.status(ShapeCreate), old(StateOf(shape))).value
    ensures |layout.items| > 0 ==> fresh(shape.values) && shape.values.Length == |layout.items|
    ensures |layout.items| == 0 ==> shape.values == old(shape.values)
  {
    var n := |layout.items|;
    ghost var st := StateOf(shape);
    if n > 0 {
      shape.values := new string[n](_ => "");
    }
    if engine.status(ShapeCreate) != Success {
      return MsFailure(SdeErr);
    }
    var ok, handle := DecodeItems(layout, row, fmt, shape);
    if !ok {
      return MsFailure(SdeErr);
    }
    assert n == 0 ==> shape.values[..] == st.values;
    RecordOfDecodedRow(layout, row, fmt, st, shape.values[..], shape.index, handle);
    if handle.isNil {
      return MsSuccess;
    }
    r := ShapeCopy(handle, shape);
  }
}

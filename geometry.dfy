/**
 * sdeShapeCopy: converting an ArcSDE shape into MapServer's shapeObj. The
 * shape type decides the MapServer shape kind; the flat point array is cut
 * into one line per subpart; the shape's extent becomes the bounds.
 */
module Geometry {
  import opened SdeCore
  import opened Foreign

  /** MS_SHAPE_NULL, MS_SHAPE_POINT, MS_SHAPE_LINE, MS_SHAPE_POLYGON. */
  datatype ShapeKind = NullKind | PointKind | LineKind | PolygonKind

  /** The outcome of the type switch of sdeShapeCopy. */
  datatype TypeMapping = SkipNil | Kind(kind: ShapeKind) | Unsupported

  /** The single-part type a multi-part type is made of. */
  function SinglePart(t: ShapeType): ShapeType
  {
    match t
    case MultiPointShape => PointShape
    case MultiLineShape => LineShape
    case MultiSimpleLineShape => SimpleLineShape
    case MultiAreaShape => AreaShape
    case _ => t
  }

  /** The dimension of a single-part geometry type: 0 for points, 1 for lines, 2 for areas. */
  function Dimension(t: ShapeType): Option<nat>
  {
    match t
    case PointShape => Some(0)
    case LineShape => Some(1)
    case SimpleLineShape => Some(1)
    case AreaShape => Some(2)
    case _ => None
  }

  /** The MapServer kind that holds geometry of a given dimension. */
  function KindOfDimension(n: nat): ShapeKind
  {
    if n == 0 then PointKind else if n == 1 then LineKind else PolygonKind
  }

  /**
   * The type switch: a nil shape is skipped, each supported type gives the
   * kind of its dimension whether it is single- or multi-part, and every
   * other type is unsupported.
   */
  function MapShapeType(t: ShapeType): (m: TypeMapping)
    ensures m == SkipNil <==> t == NilShape
    ensures m.Kind? <==> Dimension(SinglePart(t)).Some?
    ensures m.Kind? ==> m.kind == KindOfDimension(Dimension(SinglePart(t)).value)
    ensures m.Kind? ==> m.kind != NullKind
  {
    match t
    case NilShape => SkipNil
    case PointShape => Kind(PointKind)
    case MultiPointShape => Kind(PointKind)
    case LineShape => Kind(LineKind)
    case SimpleLineShape => Kind(LineKind)
    case MultiLineShape => Kind(LineKind)
    case MultiSimpleLineShape => Kind(LineKind)
    case AreaShape => Kind(PolygonKind)
    case MultiAreaShape => Kind(PolygonKind)
    case OtherShapeType(_) => Unsupported
  }

  /** The number of points the copy loop gives subpart i: up to the next offset, or to the end. */
  function SubpartLength(d: ForeignShape, i: nat): nat
    requires i < d.numSubparts
  {
    if i == d.numSubparts - 1 then d.numPoints - d.subpartOffsets[i]
    else d.subpartOffsets[i + 1] - d.subpartOffsets[i]
  }

  /**
   * Where the running point counter stands before subpart i: the copy always
   * starts at point 0, so every subpart starts at its offset relative to the
   * first one; after the last subpart it stands at the number of points copied.
   */
  function CounterBefore(d: ForeignShape, i: nat): nat
    requires i <= d.numSubparts
  {
    if i < d.numSubparts then d.subpartOffsets[i] - d.subpartOffsets[0]
    else if d.numSubparts == 0 then 0
    else d.numPoints - d.subpartOffsets[0]
  }

  /** The lines the copy produces, one per subpart. */
  function SubpartLines(d: ForeignShape): (lines: seq<Line>)
    ensures |lines| == d.numSubparts
    ensures forall i :: 0 <= i < |lines| ==> |lines[i]| == SubpartLength(d, i)
    ensures forall i :: 0 <= i < |lines| ==>
              lines[i] == d.points[CounterBefore(d, i) .. CounterBefore(d, i + 1)]
  {
    seq(d.numSubparts, i requires 0 <= i < d.numSubparts =>
      d.points[CounterBefore(d, i) .. CounterBefore(d, i) + SubpartLength(d, i)])
  }

  /** The points of several lines, in order. */
  function Flatten(lines: seq<Line>): seq<Point>
  {
    if |lines| == 0 then [] else Flatten(lines[..|lines| - 1]) + lines[|lines| - 1]
  }

  lemma {:induction false} FlattenPrefix(d: ForeignShape, n: nat)
    requires n <= d.numSubparts
    ensures Flatten(SubpartLines(d)[..n]) == d.points[..CounterBefore(d, n)]
  {
    var lines := SubpartLines(d);
    if n > 0 {
      FlattenPrefix(d, n - 1);
      assert lines[..n][..n - 1] == lines[..n - 1];
      assert lines[..n][n - 1] == d.points[CounterBefore(d, n - 1) .. CounterBefore(d, n)];
      assert d.points[..CounterBefore(d, n)]
          == d.points[..CounterBefore(d, n - 1)] + d.points[CounterBefore(d, n - 1) .. CounterBefore(d, n)];
    }
  }

  /**
   * The lines of a converted shape, concatenated, are the leading points of
   * the shape's point array, as many as the counter reached; when the first
   * subpart starts at offset 0 that is every point.
   */
  lemma SubpartLinesCoverPoints(d: ForeignShape)
    ensures Flatten(SubpartLines(d)) == d.points[..CounterBefore(d, d.numSubparts)]
    ensures d.numSubparts > 0 && d.subpartOffsets[0] == 0 ==> Flatten(SubpartLines(d)) == d.points
  {
    FlattenPrefix(d, d.numSubparts);
    assert SubpartLines(d)[..d.numSubparts] == SubpartLines(d);
  }

  /** The geometric part of a shapeObj. */
  datatype Geometry = Geometry(kind: ShapeKind, lines: seq<Line>, bounds: Rect)

  /**
   * What sdeShapeCopy does to a shape's geometry, and whether it succeeds.
   * A failed type query, an unsupported type or a failed point query fail;
   * the last one after the kind has been set.
   */
  function CopyShape(d: ForeignShape, g: Geometry): (r: (bool, Geometry))
    ensures d.shapeType.status != Success ==> !r.0
    ensures |r.1.lines| >= |g.lines| && r.1.lines[..|g.lines|] == g.lines
    ensures !r.0 ==> r.1.lines == g.lines && r.1.bounds == g.bounds
  {
    if d.shapeType.status != Success then (false, g)
    else match MapShapeType(d.shapeType.value)
      case SkipNil => (true, g)
      case Unsupported => (false, g)
      case Kind(k) =>
        if d.pointsStatus != Success then (false, g.(kind := k))
        else (true, Geometry(k, g.lines + SubpartLines(d), d.extent))
  }

  /**
   * A successful copy of a non-nil shape appends exactly one line per subpart,
   * holding the points in order, and takes the shape's extent as the bounds;
   * a nil shape leaves the geometry as it was.
   */
  lemma CopyShapeAppendsSubparts(d: ForeignShape, g: Geometry)
    requires CopyShape(d, g).0
    ensures d.shapeType.status == Success
    ensures d.shapeType.value == NilShape ==> CopyShape(d, g).1 == g
    ensures d.shapeType.value != NilShape ==>
              var g' := CopyShape(d, g).1;
              && |g'.lines| == |g.lines| + d.numSubparts
              && g'.lines[..|g.lines|] == g.lines
              && Flatten(g'.lines[|g.lines|..]) == d.points[..CounterBefore(d, d.numSubparts)]
              && g'.bounds == d.extent
              && g'.kind != NullKind
  {
    if d.shapeType.value != NilShape {
      var g' := CopyShape(d, g).1;
      assert g'.lines[|g.lines|..] == SubpartLines(d);
      SubpartLinesCoverPoints(d);
    }
  }

  /** MapServer's shapeObj: the fields the adapter writes. */
  class Shape {
    var kind: ShapeKind
    var lines: seq<Line>
    var bounds: Rect
    var values: array<string>
    var index: int

    /** A shape as msInitShape leaves it. */
    constructor ()
      ensures kind == NullKind && lines == [] && values.Length == 0 && fresh(values)
    {
      kind, lines, bounds := NullKind, [], Rect(-1.0, -1.0, -1.0, -1.0);
      values := new string[0];
      index := -1;
    }

    function Geom(): Geometry
      reads this
    {
      Geometry(kind, lines, bounds)
    }

    /** msAddLine: append a copy of a line. */
    method AddLine(line: Line)
      modifies this
      ensures lines == old(lines) + [line]
      ensures kind == old(kind) && bounds == old(bounds) && values == old(values) && index == old(index)
    {
      lines := lines + [line];
    }
  }

  /** sdeShapeCopy. */
  method ShapeCopy(d: ForeignShape, outshp: Shape) returns (r: MsResult)
    modifies outshp
    ensures r == MsSuccess || r == MsFailure(SdeErr)
    ensures (r == MsSuccess, outshp.Geom()) == CopyShape(d, old(outshp.Geom()))
    ensures outshp.values == old(outshp.values) && outshp.index == old(outshp.index)
  {
    if d.shapeType.status != Success {
      return MsFailure(SdeErr);
    }
    match MapShapeType(d.shapeType.value)
    case SkipNil =>
      return MsSuccess;
    case Unsupported =>
      return MsFailure(SdeErr);
    case Kind(k) =>
      outshp.kind := k;
    if d.pointsStatus != Success {
      return MsFailure(SdeErr);
    }
    var k := 0;  // overall point counter
    var i := 0;
    while i < d.numSubparts
      invariant 0 <= i <= d.numSubparts
      invariant k == CounterBefore(d, i)
      invariant outshp.lines == old(outshp.lines) + SubpartLines(d)[..i]
      invariant outshp.kind == MapShapeType(d.shapeType.value).kind
      invariant outshp.bounds == old(outshp.bounds)
      invariant outshp.values == old(outshp.values) && outshp.index == old(outshp.index)
    {
      var n := if i == d.numSubparts - 1 then d.numPoints - d.subpartOffsets[i]
               else d.subpartOffsets[i + 1] - d.subpartOffsets[i];
      var line := new Point[n](_ => Point(0.0, 0.0));
      var j := 0;
      while j < n
        modifies line
        invariant 0 <= j <= n
        invariant k == CounterBefore(d, i) + j
        invariant line[..j] == d.points[CounterBefore(d, i) .. CounterBefore(d, i) + j]
      {
        line[j] := d.points[k];
        k := k + 1;
        j := j + 1;
      }
      assert line[..] == SubpartLines(d)[i];
      outshp.AddLine(line[..]);
      assert SubpartLines(d)[..i + 1] == SubpartLines(d)[..i] + [SubpartLines(d)[i]];
      i := i + 1;
    }
    assert SubpartLines(d)[..i] == SubpartLines(d);
    outshp.bounds := d.extent;
    r := MsSuccess;
  }
}

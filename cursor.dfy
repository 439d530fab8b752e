/**
 * msSDELayerNextShape: stepping through the rows of the layer's query until
 * one decodes into a shape with at least one line.
 */
module Cursor {
  import opened SdeCore
  import opened Foreign
  import opened Geometry
  import opened RowDecode
  import opened Layers

  /**
   * The outcome of fetching from position pos of a stream's replies onward:
   * the result, the position the stream is left at and the shape's state.
   * SE_FINISHED (or the end of the replies) is MS_DONE; a failed fetch or a
   * row that does not decode is MS_FAILURE; a decoded row whose shape has no
   * line is skipped.
   */
  function NextSpec(layout: RecordLayout, fmt: Formats, created: Status,
                    script: seq<Reply<Row>>, pos: nat, st: ShapeState): (r: (MsResult, nat, ShapeState))
    requires layout.Fits()
    ensures pos <= r.1
    ensures r.0 != MsDone ==> pos < r.1 <= |script|
    ensures r.0 == MsSuccess || r.0 == MsDone || r.0 == MsFailure(SdeErr)
    decreases |script| - pos
  {
    if pos >= |script| then (MsDone, pos, st)
    else
      var fetched := script[pos];
      if fetched.status == Finished then (MsDone, |script|, st)
      else if fetched.status != Success then (MsFailure(SdeErr), pos + 1, st)
      else
        match Record(layout, fetched.value, fmt, created, st)
        case None => (MsFailure(SdeErr), pos + 1, st)
        case Some(st') =>
          if |st'.geom.lines| == 0 then NextSpec(layout, fmt, created, script, pos + 1, st')
          else (MsSuccess, pos + 1, st')
  }

  /** MS_SUCCESS is only returned with a shape that has a line. */
  lemma {:induction false} NextSuccessHasLines(layout: RecordLayout, fmt: Formats, created: Status,
                                               script: seq<Reply<Row>>, pos: nat, st: ShapeState)
    requires layout.Fits()
    requires NextSpec(layout, fmt, created, script, pos, st).0 == MsSuccess
    ensures |NextSpec(layout, fmt, created, script, pos, st).2.geom.lines| > 0
    decreases |script| - pos
  {
    if pos < |script| && script[pos].status == Success {
      var rec := Record(layout, script[pos].value, fmt, created, st);
      if rec.Some? && |rec.value.geom.lines| == 0 {
        NextSuccessHasLines(layout, fmt, created, script, pos + 1, rec.value);
      }
    }
  }

  /**
   * MS_DONE is final: it leaves the stream exhausted, so every later call
   * returns MS_DONE again, whatever the shape holds then.
   */
  lemma {:induction false} DoneIsFinal(layout: RecordLayout, fmt: Formats, created: Status,
                                       script: seq<Reply<Row>>, pos: nat, st: ShapeState, st2: ShapeState)
    requires layout.Fits()
    requires NextSpec(layout, fmt, created, script, pos, st).0 == MsDone
    ensures NextSpec(layout, fmt, created, script, pos, st).1 >= |script|
    ensures var after := NextSpec(layout, fmt, created, script, pos, st).1;
            NextSpec(layout, fmt, created, script, after, st2) == (MsDone, after, st2)
    decreases |script| - pos
  {
    if pos < |script| && script[pos].status == Success {
      var rec := Record(layout, script[pos].value, fmt, created, st);
      if rec.Some? && |rec.value.geom.lines| == 0 {
        DoneIsFinal(layout, fmt, created, script, pos + 1, rec.value, st2);
      }
    }
  }

  /**
   * A row that leaves the shape handle nil (no shape column, or a shape
   * column whose read left a nil shape) leaves the geometry as it was; so
   * from a shape without lines such a row is skipped, and the call answers
   * what the rest of the stream answers.
   */
  lemma {:induction false} NilRowsAreSkipped(layout: RecordLayout, fmt: Formats, created: Status,
                                             script: seq<Reply<Row>>, pos: nat, st: ShapeState)
    requires layout.Fits()
    requires pos < |script| && script[pos].status == Success
    requires |st.geom.lines| == 0
    requires ShapeAfter(layout, script[pos].value, |layout.items|).isNil
    requires Record(layout, script[pos].value, fmt, created, st).Some?
    ensures var st' := Record(layout, script[pos].value, fmt, created, st).value;
            NextSpec(layout, fmt, created, script, pos, st) == NextSpec(layout, fmt, created, script, pos + 1, st')
  {
    NilHandleKeepsGeometry(layout, script[pos].value, fmt, created, st);
  }

  /**
   * msSDELayerNextShape. A layer that is not open fails. Otherwise the
   * stream is fetched until a row decodes into a shape with a line, the
   * stream is finished, or something fails; the result and the stream
   * position are those of NextSpec, and so is the shape unless the call fails.
   */
  method NextShape(layer: Layer, fmt: Formats, engine: Engine, shape: Shape) returns (r: MsResult)
    requires layer.info.Some? ==> layer.Layout().Fits()
    modifies shape, if layer.info.Some? then {layer.info.value.stream} else {}
    ensures layer.info.None? ==> r == MsFailure(SdeErr) && shape.Geom() == old(shape.Geom())
    ensures layer.info.Some? ==>
              var stream := layer.info.value.stream;
              var spec := NextSpec(layer.Layout(), fmt, engine.status(ShapeCreate),
                                   old(stream.script), old(stream.pos), old(StateOf(shape)));
              && r == spec.0
              && stream.pos == spec.1
              && stream.script == old(stream.script)
              && stream.pinned == old(stream.pinned)
              && (!r.MsFailure? ==> StateOf(shape) == spec.2)
  {
    if layer.info.None? {
      return MsFailure(SdeErr);
    }
    var stream := layer.info.value.stream;
    var layout := layer.Layout();
    var created := engine.status(ShapeCreate);
    ghost var spec := NextSpec(layout, fmt, created, stream.script, stream.pos, StateOf(shape));
    while true
      invariant stream.script == old(stream.script) && stream.pinned == old(stream.pinned)
      invariant NextSpec(layout, fmt, created, stream.script, stream.pos, StateOf(shape)) == spec
      decreases if stream.pos <= |stream.script| then |stream.script| - stream.pos else 0
    {
      var fetched := stream.Fetch();
      if fetched.status == Finished {
        return MsDone;
      } else if fetched.status != Success {
        return MsFailure(SdeErr);
      }
      r := GetRecord(layout, fetched.value, fmt, engine, shape);
      if r != MsSuccess {
        return MsFailure(SdeErr);
      }
      if |shape.lines| != 0 {
        return MsSuccess;
      }
    }
  }
}

/**
 * msSDELayerWhichShapes: the search envelope computed from the layer's
 * extent and the requested rectangle, and the query set up on the layer's
 * stream.
 */
module Envelope {
  import opened SdeCore
  import opened Text
  import opened Foreign
  import opened Layers

  /** The four early-exit tests: the rectangle lies wholly beside the layer envelope on some side. */
  predicate Disjoint(env: Rect, rect: Rect)
  {
    env.minx > rect.maxx || env.maxx < rect.minx || env.miny > rect.maxy || env.maxy < rect.miny
  }

  predicate Contains(r: Rect, p: Point)
  {
    r.minx <= p.x <= r.maxx && r.miny <= p.y <= r.maxy
  }

  /** A rectangle whose corners are in order. */
  predicate Proper(r: Rect)
  {
    r.minx <= r.maxx && r.miny <= r.maxy
  }

  function Max(a: real, b: real): real { if a >= b then a else b }
  function Min(a: real, b: real): real { if a <= b then a else b }

  /** The envelope cropped to the rectangle: max of the minima, min of the maxima. */
  function Clip(env: Rect, rect: Rect): (c: Rect)
    ensures forall p :: Contains(c, p) <==> Contains(env, p) && Contains(rect, p)
  {
    Rect(Max(rect.minx, env.minx), Max(rect.miny, env.miny), Min(rect.maxx, env.maxx), Min(rect.maxy, env.maxy))
  }

  /** A rectangle that has shrunk to one point. */
  predicate IsPoint(r: Rect)
  {
    r.minx == r.maxx && r.miny == r.maxy
  }

  /** The amount a one-point envelope is widened by on every side. */
  const Fudge: real := 0.001

  function Widen(r: Rect): Rect
  {
    Rect(r.minx - Fudge, r.miny - Fudge, r.maxx + Fudge, r.maxy + Fudge)
  }

  /**
   * The search envelope, or None when the query is answered MS_DONE at once.
   * It holds exactly the points common to the layer envelope and the
   * rectangle, unless that is a single point, which is widened to a small
   * square around it.
   */
  function QueryEnvelope(env: Rect, rect: Rect): (q: Option<Rect>)
    ensures q.None? <==> Disjoint(env, rect)
    ensures q.Some? && !IsPoint(Clip(env, rect)) ==>
              forall p :: Contains(q.value, p) <==> Contains(env, p) && Contains(rect, p)
    ensures q.Some? && IsPoint(Clip(env, rect)) ==>
              var c := Clip(env, rect);
              && Contains(q.value, Point(c.minx, c.miny))
              && q.value.maxx - q.value.minx == 2.0 * Fudge
              && q.value.maxy - q.value.miny == 2.0 * Fudge
              && (q.value.minx + q.value.maxx) / 2.0 == c.minx
              && (q.value.miny + q.value.maxy) / 2.0 == c.miny
  {
    if Disjoint(env, rect) then None
    else
      var c := Clip(env, rect);
      if IsPoint(c) then Some(Widen(c)) else Some(c)
  }

  /**
   * For rectangles whose corners are in order, the early exit is taken
   * exactly when the rectangle and the layer envelope have no point in
   * common, and otherwise the search envelope is itself in order.
   */
  lemma DisjointIffNoCommonPoint(env: Rect, rect: Rect)
    requires Proper(env) && Proper(rect)
    ensures Disjoint(env, rect) <==> forall p :: !(Contains(env, p) && Contains(rect, p))
    ensures !Disjoint(env, rect) ==> Proper(QueryEnvelope(env, rect).value)
  {
    if !Disjoint(env, rect) {
      var c := Clip(env, rect);
      var corner := Point(c.minx, c.miny);
      assert Contains(env, corner) && Contains(rect, corner);
    }
  }

  /** Only a search envelope collapsed on both axes is widened; a zero width or height alone is kept. */
  lemma OneAxisCollapseIsNotWidened(env: Rect, rect: Rect)
    requires !Disjoint(env, rect)
    requires var c := Clip(env, rect); (c.minx == c.maxx) != (c.miny == c.maxy)
    ensures QueryEnvelope(env, rect) == Some(Clip(env, rect))
  {
  }

  /**
   * The search order: attribute first only for a QUERYORDER that reads
   * "attribute" once lower-cased, spatial first otherwise and when unset.
   */
  function OrderFor(queryOrder: Option<string>): (o: QueryOrder)
    ensures o == AttributeFirst <==> queryOrder.Some? && LowerString(queryOrder.value) == "attribute"
    ensures o == SpatialFirst <==> queryOrder.None? || LowerString(queryOrder.value) != "attribute"
  {
    if queryOrder.Some? && EqualsIgnoreCase(queryOrder.value, "ATTRIBUTE") then
      EqualsIgnoreCaseIffSameLower(queryOrder.value, "ATTRIBUTE");
      LowerAttribute();
      AttributeFirst
    else
      if queryOrder.Some? then
        EqualsIgnoreCaseIffSameLower(queryOrder.value, "ATTRIBUTE");
        LowerAttribute();
        SpatialFirst
      else SpatialFirst
  }

  lemma LowerAttribute()
    ensures LowerString("ATTRIBUTE") == "attribute"
  {
    forall i | 0 <= i < 9 ensures LowerString("ATTRIBUTE")[i] == "attribute"[i] {
    }
  }

  /** The where clause: the layer's filter, or "" without one. */
  function WhereClause(filter: Option<string>): string
  {
    if filter.None? then "" else filter.value
  }

  /** The state the stream is pinned to for the query: none in the default state. */
  function PinnedState(sde: SdeInfo): Option<int>
  {
    if IsDefaultState(sde.stateId) then None else Some(sde.stateId)
  }

  /** The query the stream executes, over the search envelope q. */
  function QueryFor(layer: SdeInfo, items: seq<Option<string>>, filter: Option<string>,
                    queryOrder: Option<string>, q: Rect): Query
  {
    Query(layer.table, WhereClause(filter), items, PinnedState(layer), OrderFor(queryOrder),
          Filter(q, layer.table, layer.column))
  }

  /**
   * The calls that set the query up, once the early exit has not been taken:
   * ten, or eleven when the stream is pinned to a state; the first builds the
   * search shape from the search envelope, the last executes the query, and
   * the one before constrains it to that envelope on the layer's own table
   * and spatial column.
   */
  function SetupCalls(sde: SdeInfo, items: seq<Option<string>>, filter: Option<string>,
                      queryOrder: Option<string>, q: Rect): (calls: seq<Call>)
    ensures |calls| == if IsDefaultState(sde.stateId) then 10 else 11
    ensures calls[0] == ShapeGenerateRectangle(q) && calls[|calls| - 1] == StreamExecute
    ensures calls[|calls| - 2] == StreamSetSpatialConstraints(OrderFor(queryOrder), Filter(q, sde.table, sde.column))
  {
    [ ShapeGenerateRectangle(q), QueryinfoCreate, QueryinfoSetTables(sde.table),
      QueryinfoSetWhereClause(WhereClause(filter)), QueryinfoSetColumns(items), QueryinfoSetQueryType,
      StreamClose ]
    + (if IsDefaultState(sde.stateId) then [] else [StreamSetState(sde.stateId)])
    + [ StreamQueryWithInfo(sde.table, WhereClause(filter), items),
        StreamSetSpatialConstraints(OrderFor(queryOrder), Filter(q, sde.table, sde.column)),
        StreamExecute ]
  }

  /**
   * Every call WhichShapes makes when each of them succeeds: the search shape
   * and the layer envelope first; the query is set up and executed only when
   * the envelope could be read and the rectangle is not beside it.
   */
  function Plan(engine: Engine, sde: SdeInfo, items: seq<Option<string>>, filter: Option<string>,
                queryOrder: Option<string>, rect: Rect): (p: seq<Call>)
    ensures |p| >= 2 && p[0] == ShapeCreate && p[1] == LayerinfoGetEnvelope(sde.layerInfo)
    ensures var env := engine.envelope(sde.layerInfo);
            |p| > 2 <==> env.status == Success && !Disjoint(env.value, rect)
    ensures |p| > 2 ==> p[|p| - 1] == StreamExecute
  {
    var env := engine.envelope(sde.layerInfo);
    [ShapeCreate, LayerinfoGetEnvelope(sde.layerInfo)]
    + if env.status == Success && !Disjoint(env.value, rect) then
        SetupCalls(sde, items, filter, queryOrder, QueryEnvelope(env.value, rect).value)
      else []
  }

  /**
   * The order the set-up keeps: the stream is reset before it is pinned, it
   * is pinned (to the layer's state, and only outside the default state)
   * before the query is attached, and the query is attached before it is
   * executed.
   */
  lemma SetupOrder(sde: SdeInfo, items: seq<Option<string>>, filter: Option<string>,
                   queryOrder: Option<string>, q: Rect)
    ensures var calls := SetupCalls(sde, items, filter, queryOrder, q);
            && (forall j :: 0 <= j < |calls| && calls[j].StreamSetState? ==>
                  !IsDefaultState(sde.stateId) && calls[j].stateId == sde.stateId)
            && (!IsDefaultState(sde.stateId) ==> StreamSetState(sde.stateId) in calls)
            && (forall i, j ::
                  (0 <= i < |calls| && 0 <= j < |calls| && calls[i] == StreamClose && calls[j].StreamSetState?)
                  ==> i < j)
            && (forall j, k ::
                  (0 <= j < |calls| && 0 <= k < |calls| && calls[j].StreamSetState? && calls[k].StreamQueryWithInfo?)
                  ==> j < k)
            && (forall k, e ::
                  (0 <= k < |calls| && 0 <= e < |calls| && calls[k].StreamQueryWithInfo? && calls[e] == StreamExecute)
                  ==> k < e)
  {
    var calls := SetupCalls(sde, items, filter, queryOrder, q);
    var n := if IsDefaultState(sde.stateId) then 7 else 8;
    assert |calls| == n + 3;
    assert calls[6] == StreamClose;
    assert forall i :: 0 <= i < |calls| && calls[i] == StreamClose ==> i == 6;
    assert forall j :: 0 <= j < |calls| && calls[j].StreamSetState? ==> j == 7 && n == 8;
    assert forall k :: 0 <= k < |calls| && calls[k].StreamQueryWithInfo? ==> k == n;
    assert forall e :: 0 <= e < |calls| && calls[e] == StreamExecute ==> e == n + 2;
    if !IsDefaultState(sde.stateId) {
      assert calls[7] == StreamSetState(sde.stateId);
    }
  }

  /**
   * The set-up calls of msSDELayerWhichShapes, from building the search
   * shape to executing the query, each checked in turn. A successful
   * SE_stream_close resets the stream, a successful SE_stream_set_state pins
   * it, and a successful SE_stream_execute loads the query's rows.
   */
  method RunSetup(engine: Engine, sde: SdeInfo, items: seq<Option<string>>, filter: Option<string>,
                  queryOrder: Option<string>, q: Rect, plan: seq<Call>, calls: seq<Call>)
    returns (ok: bool, calls': seq<Call>)
    requires plan == calls + SetupCalls(sde, items, filter, queryOrder, q)
    requires AllSucceeded(engine, calls)
    modifies sde.stream
    ensures |calls'| <= |plan| && calls' == plan[..|calls'|]
    ensures ok ==> calls' == plan && AllSucceeded(engine, calls')
    ensures ok ==>
              && sde.stream.pinned == PinnedState(sde)
              && sde.stream.script == engine.rows(QueryFor(sde, items, filter, queryOrder, q))
              && sde.stream.pos == 0
    ensures !ok ==> StoppedAtFailure(engine, calls') && !AllSucceeded(engine, plan)
  {
    var stream := sde.stream;
    var base := |calls|;
    calls' := calls;
    var n := 0;
    while n < 7
      invariant 0 <= n <= 7
      invariant calls' == plan[..base + n] && AllSucceeded(engine, calls')
    {
      ok, calls' := Issue(engine, plan, calls');
      if !ok {
        return;
      }
      n := n + 1;
    }
    assert plan[base + 6] == StreamClose;
    stream.Reset();
    if !IsDefaultState(sde.stateId) {
      ok, calls' := Issue(engine, plan, calls');
      if !ok {
        return;
      }
      stream.Pin(sde.stateId);
    }
    n := 0;
    while n < 3
      invariant 0 <= n <= 3
      invariant calls' == plan[..|plan| - 3 + n] && AllSucceeded(engine, calls')
      invariant stream.script == [] && stream.pos == 0 && stream.pinned == PinnedState(sde)
    {
      ok, calls' := Issue(engine, plan, calls');
      if !ok {
        return;
      }
      n := n + 1;
    }
    assert calls' == plan;
    stream.Load(engine.rows(QueryFor(sde, items, filter, queryOrder, q)));
    ok := true;
  }

  /**
   * The part of msSDELayerWhichShapes after the layer envelope has been
   * read: MS_DONE for a rectangle beside it, otherwise the query set-up.
   */
  method SetupQuery(engine: Engine, sde: SdeInfo, items: seq<Option<string>>, filter: Option<string>,
                    queryOrder: Option<string>, rect: Rect, env: Rect, plan: seq<Call>, calls: seq<Call>)
    returns (r: MsResult, calls': seq<Call>)
    requires engine.envelope(sde.layerInfo) == Reply(Success, env)
    requires plan == Plan(engine, sde, items, filter, queryOrder, rect)
    requires calls == [ShapeCreate, LayerinfoGetEnvelope(sde.layerInfo)] && AllSucceeded(engine, calls)
    modifies sde.stream
    ensures r == MsSuccess || r == MsDone || r == MsFailure(SdeErr)
    ensures r.MsFailure? <==> !AllSucceeded(engine, plan)
    ensures r.MsFailure? ==> |calls'| <= |plan| && calls' == plan[..|calls'|] && StoppedAtFailure(engine, calls')
    ensures !r.MsFailure? ==> calls' == plan && AllSucceeded(engine, calls')
    ensures r == MsDone <==> !r.MsFailure? && Disjoint(env, rect)
    ensures r == MsDone ==>
              && calls' == calls
              && sde.stream.script == old(sde.stream.script) && sde.stream.pos == old(sde.stream.pos)
              && sde.stream.pinned == old(sde.stream.pinned)
    ensures r == MsSuccess ==>
              && sde.stream.pinned == PinnedState(sde)
              && sde.stream.script == engine.rows(QueryFor(sde, items, filter, queryOrder, QueryEnvelope(env, rect).value))
              && sde.stream.pos == 0
  {
    if Disjoint(env, rect) {
      assert plan == calls;
      return MsDone, calls;
    }
    var q := QueryEnvelope(env, rect).value;
    assert plan == calls + SetupCalls(sde, items, filter, queryOrder, q);
    var ok;
    ok, calls' := RunSetup(engine, sde, items, filter, queryOrder, q, plan, calls);
    r := if ok then MsSuccess else MsFailure(SdeErr);
  }

  /**
   * msSDELayerWhichShapes. A layer that is not open fails. Otherwise the
   * calls of the plan are made in order until one fails; a rectangle beside
   * the layer envelope ends the plan with MS_DONE before any query or stream
   * call; a completed plan leaves the stream reset, pinned to the layer's
   * state outside the default state, and loaded with the query's rows.
   */
  method WhichShapes(layer: Layer, engine: Engine, rect: Rect) returns (r: MsResult, calls: seq<Call>)
    modifies if layer.info.Some? then {layer.info.value.stream} else {}
    ensures layer.info.None? ==> r == MsFailure(SdeErr) && calls == []
    ensures layer.info.Some? ==>
              var sde := layer.info.value;
              var plan := Plan(engine, sde, layer.items, layer.filter, layer.queryOrder, rect);
              && (r == MsSuccess || r == MsDone || r == MsFailure(SdeErr))
              && (r.MsFailure? <==> !AllSucceeded(engine, plan))
              && (r.MsFailure? ==> |calls| <= |plan| && calls == plan[..|calls|] && StoppedAtFailure(engine, calls))
              && (!r.MsFailure? ==> calls == plan && AllSucceeded(engine, calls))
    ensures layer.info.Some? ==>
              var sde := layer.info.value;
              var env := engine.envelope(sde.layerInfo);
              && (r == MsDone <==> !r.MsFailure? && Disjoint(env.value, rect))
              && (r == MsDone ==>
                    && calls == [ShapeCreate, LayerinfoGetEnvelope(sde.layerInfo)]
                    && sde.stream.script == old(sde.stream.script) && sde.stream.pos == old(sde.stream.pos)
                    && sde.stream.pinned == old(sde.stream.pinned))
              && (r == MsSuccess ==>
                    var query := QueryFor(sde, layer.items, layer.filter, layer.queryOrder,
                                          QueryEnvelope(env.value, rect).value);
                    && sde.stream.pinned == PinnedState(sde)
                    && sde.stream.script == engine.rows(query)
                    && sde.stream.pos == 0)
  {
    if layer.info.None? {
      return MsFailure(SdeErr), [];
    }
    var sde := layer.info.value;
    var plan := Plan(engine, sde, layer.items, layer.filter, layer.queryOrder, rect);
    var ok;
    ok, calls := Issue(engine, plan, []);  // SE_shape_create
    if !ok {
      return MsFailure(SdeErr), calls;
    }
    ok, calls := Issue(engine, plan, calls);  // SE_layerinfo_get_envelope
    if !ok {
      return MsFailure(SdeErr), calls;
    }
    r, calls := SetupQuery(engine, sde, layer.items, layer.filter, layer.queryOrder, rect,
                           engine.envelope(sde.layerInfo).value, plan, calls);
  }
}

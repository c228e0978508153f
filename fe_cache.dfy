/** The decisions `FE::reinit` takes from its cache state: whether the shape tables are
    rebuilt, whether the shape values are recomputed, whether the dual coefficients are
    computed, and what the cache holds afterwards.  The FE class in module Fe is proved
    to follow these functions; the properties the design relies on are proved here. */
module FeCache {
  import opened Geometry

  /** Traits of the FE family the object was built for. */
  datatype Family = Family(
    isScalar: bool,          // T == SCALAR
    isVector: bool,          // field_type(T) == TYPE_VECTOR
    shapesNeedReinit: bool   // the family's shapes depend on the element's geometry
  )

  /** The per-object settings the decisions depend on. */
  datatype Config = Config(
    family: Family,
    dual: bool,                        // calculate_dual
    same: (Point, Point) -> bool       // relative_fuzzy_equals(., ., 1e-13)
  )

  /** `elem_type`, `_p_level`, `shapes_on_quadrature`, `cached_nodes`, `calculate_dual_coeff`. */
  datatype CacheState = CacheState(
    elemType: ElemType,
    pLevel: nat,
    onQuadrature: bool,
    cachedNodes: seq<Point>,
    dualCoeffPending: bool
  )

  /** One `reinit(elem, pts, weights)` call: the element (None for a null pointer), whether
      explicit points are given, and whether the attached rule reports `shapes_need_reinit`. */
  datatype Call = Call(elem: Option<Elem>, hasPts: bool, ruleNeedsReinit: bool)

  /** The way through `reinit`. */
  datatype Path =
    | NullElem    // no element: the tables are sized for the given or synthesized points
    | Explicit    // user points
    | Rebuild     // quadrature points, new type or p-level, or shapes not on the rule
    | Reuse       // quadrature points, same cell, cached nodes still fit
    | Refit       // same cell type, nodes moved, geometry-dependent family: rebuild
    | Recompute   // same cell type, nodes moved, shapes only recomputed

  /** The offsets of all nodes from node 0 agree, up to `same`, with the cached ones. */
  predicate NodesStillFit(cached: seq<Point>, nodes: seq<Point>, same: (Point, Point) -> bool) {
    |cached| == |nodes| &&
    forall n :: 1 <= n < |nodes| ==> same(Sub(nodes[n], nodes[0]), Sub(cached[n], cached[0]))
  }

  /** The cell, p-level or rule changed, or the tables are for other points. */
  predicate MustRebuild(s: CacheState, e: Elem, ruleNeedsReinit: bool) {
    s.elemType != e.elemType || s.pLevel != e.pLevel || !s.onQuadrature || ruleNeedsReinit
  }

  function ChoosePath(cfg: Config, s: CacheState, call: Call): Path {
    match call.elem
    case None => NullElem
    case Some(e) =>
      if call.hasPts then Explicit
      else if MustRebuild(s, e, call.ruleNeedsReinit) then Rebuild
      else if NodesStillFit(s.cachedNodes, e.nodes, cfg.same) then Reuse
      else if cfg.family.shapesNeedReinit then Refit
      else Recompute
  }

  /** The paths that call `init_shape_functions`. */
  predicate RunsInit(p: Path) {
    p == NullElem || p == Explicit || p == Rebuild || p == Refit
  }

  /** The paths that call `init_reference_to_physical_map`. */
  predicate MapsReference(p: Path) {
    p == Explicit || p == Rebuild || p == Refit
  }

  /** The dual coefficients are computed on this call. */
  predicate DualCoeffNow(cfg: Config, s: CacheState, call: Call) {
    cfg.dual && s.dualCoeffPending && call.elem.Some? && ChoosePath(cfg, s, call) != Reuse
  }

  /** The cache after the call. */
  function Next(cfg: Config, s: CacheState, call: Call): CacheState {
    var path := ChoosePath(cfg, s, call);
    var pending := s.dualCoeffPending && !DualCoeffNow(cfg, s, call);
    match call.elem
    case None => s.(elemType := InvalidElem, pLevel := 0, dualCoeffPending := pending)
    case Some(e) =>
      var stores := path == Refit || (path == Rebuild && cfg.family.shapesNeedReinit);
      CacheState(e.elemType, e.pLevel, !call.hasPts, if stores then e.nodes else s.cachedNodes, pending)
  }

  // ---------------------------------------------------------------------------
  // The calls `reinit` makes

  datatype Event =
    | InitReferenceMap(points: seq<Point>)       // _fe_map->init_reference_to_physical_map
    | InitShapes(points: seq<Point>)             // init_shape_functions
    | ComputeMap(weights: seq<real>)             // _fe_map->compute_map
    | ComputeShapes(points: seq<Point>)          // compute_shape_functions
    | DualCoefficients(elemType: ElemType, pLevel: nat)  // compute_dual_shape_coeffs on the default rule
    | DualShapes                                 // compute_dual_shape_functions

  /** The calls of one `reinit`, in order; `qp` are the points the shapes are evaluated at
      and `w` the weights handed to the map. */
  function ReinitEvents(cfg: Config, s: CacheState, call: Call, qp: seq<Point>, w: seq<real>): seq<Event> {
    InitEvents(ChoosePath(cfg, s, call), qp) + [ComputeMap(w)] + ShapeEvents(cfg, s, call, qp)
  }

  /** The calls before the map is computed: the reference map and `init_shape_functions`. */
  function InitEvents(path: Path, qp: seq<Point>): seq<Event> {
    (if MapsReference(path) then [InitReferenceMap(qp)] else [])
    + (if RunsInit(path) then [InitShapes(qp)] else [])
  }

  /** The calls after the map is computed: none when the cached nodes still fit, otherwise
      the shape values and the dual basis. */
  function ShapeEvents(cfg: Config, s: CacheState, call: Call, qp: seq<Point>): seq<Event> {
    if ChoosePath(cfg, s, call) == Reuse then [] else [ComputeShapes(qp)] + DualEvents(cfg, s, call)
  }

  /** The calls of one `reinit`, made one group after the other after the calls `e0`. */
  lemma ReinitEventsAfter(e0: seq<Event>, cfg: Config, s: CacheState, call: Call, qp: seq<Point>, w: seq<real>)
    ensures e0 + InitEvents(ChoosePath(cfg, s, call), qp) + [ComputeMap(w)] + ShapeEvents(cfg, s, call, qp)
            == e0 + ReinitEvents(cfg, s, call, qp, w)
  {
  }

  function DualEvents(cfg: Config, s: CacheState, call: Call): seq<Event> {
    if !cfg.dual then []
    else if DualCoeffNow(cfg, s, call)
    then [DualCoefficients(call.elem.value.elemType, call.elem.value.pLevel), DualShapes]
    else [DualShapes]
  }

  // ---------------------------------------------------------------------------
  // The cached-node comparison

  /** The loop deciding `cached_nodes_still_fit`, with its early `break`. */
  method CachedNodesStillFit(cached: seq<Point>, nodes: seq<Point>, same: (Point, Point) -> bool)
    returns (fit: bool)
    ensures fit == NodesStillFit(cached, nodes, same)
  {
    fit := true;
    if |cached| != |nodes| {
      fit := false;
    } else {
      var n := 1;
      while n < |nodes|
        invariant 1 <= n
        invariant forall k :: 1 <= k < n && k < |nodes| ==> same(Sub(nodes[k], nodes[0]), Sub(cached[k], cached[0]))
      {
        if !same(Sub(nodes[n], nodes[0]), Sub(cached[n], cached[0])) {
          fit := false;
          break;
        }
        n := n + 1;
      }
    }
  }

  // ---------------------------------------------------------------------------
  // Properties of the decisions

  /** With explicit points the call takes the element's type and p-level, rebuilds the tables
      and leaves them off the quadrature rule. */
  lemma ExplicitPointsReinit(cfg: Config, s: CacheState, call: Call)
    requires call.elem.Some? && call.hasPts
    ensures ChoosePath(cfg, s, call) == Explicit && RunsInit(ChoosePath(cfg, s, call))
    ensures Next(cfg, s, call).elemType == call.elem.value.elemType
    ensures Next(cfg, s, call).pLevel == call.elem.value.pLevel
    ensures !Next(cfg, s, call).onQuadrature
    ensures Next(cfg, s, call).cachedNodes == s.cachedNodes
  {
  }

  /** On the quadrature rule the call always ends on it, and rebuilds exactly when the type
      or p-level changed, the tables were not on the rule, or the rule asks for it. */
  lemma QuadratureReinit(cfg: Config, s: CacheState, call: Call)
    requires call.elem.Some? && !call.hasPts
    ensures Next(cfg, s, call).onQuadrature
    ensures Next(cfg, s, call).elemType == call.elem.value.elemType
    ensures Next(cfg, s, call).pLevel == call.elem.value.pLevel
    ensures ChoosePath(cfg, s, call) == Rebuild <==>
              s.elemType != call.elem.value.elemType || s.pLevel != call.elem.value.pLevel
              || !s.onQuadrature || call.ruleNeedsReinit
  {
  }

  /** The cached nodes are consulted, and can fit, only on the same-cell quadrature path. */
  lemma StillFitOnlyOnSameCell(cfg: Config, s: CacheState, call: Call)
    ensures ChoosePath(cfg, s, call) == Reuse <==>
              call.elem.Some? && !call.hasPts && !MustRebuild(s, call.elem.value, call.ruleNeedsReinit)
              && NodesStillFit(s.cachedNodes, call.elem.value.nodes, cfg.same)
  {
  }

  /** `attach_quadrature_rule` leaves `elem_type` invalid, so the next quadrature `reinit`
      on a real element rebuilds. */
  lemma AttachForcesRebuild(cfg: Config, s: CacheState, call: Call)
    requires s.elemType == InvalidElem
    requires call.elem.Some? && IsRealElem(call.elem.value) && !call.hasPts
    ensures ChoosePath(cfg, s, call) == Rebuild
    ensures RunsInit(ChoosePath(cfg, s, call)) && MapsReference(ChoosePath(cfg, s, call))
  {
  }

  /** A null element resets the type and p-level and keeps the rest of the cache. */
  lemma NullElementReinit(cfg: Config, s: CacheState, call: Call)
    requires call.elem.None?
    ensures ChoosePath(cfg, s, call) == NullElem && RunsInit(NullElem)
    ensures Next(cfg, s, call) == s.(elemType := InvalidElem, pLevel := 0)
  {
  }

  /** `init_shape_functions`, the reference map and `compute_shape_functions` run exactly
      on their paths; the shape values are recomputed unless the cached nodes still fit. */
  lemma {:induction false} ReinitCalls(cfg: Config, s: CacheState, call: Call, qp: seq<Point>, w: seq<real>)
    ensures InitShapes(qp) in ReinitEvents(cfg, s, call, qp, w) <==> RunsInit(ChoosePath(cfg, s, call))
    ensures InitReferenceMap(qp) in ReinitEvents(cfg, s, call, qp, w) <==> MapsReference(ChoosePath(cfg, s, call))
    ensures ComputeShapes(qp) in ReinitEvents(cfg, s, call, qp, w) <==> ChoosePath(cfg, s, call) != Reuse
    ensures ComputeMap(w) in ReinitEvents(cfg, s, call, qp, w)
  {
    var path := ChoosePath(cfg, s, call);
    var ev := ReinitEvents(cfg, s, call, qp, w);
    var a := if MapsReference(path) then [InitReferenceMap(qp)] else [];
    var b := if RunsInit(path) then [InitShapes(qp)] else [];
    var c := ShapeEvents(cfg, s, call, qp);
    assert ev == a + b + [ComputeMap(w)] + c;
    assert ComputeMap(w) == ev[|a| + |b|];
  }

  /** `compute_dual_shape_functions` runs whenever dual shapes are demanded and the shapes
      were recomputed; the coefficients only when, in addition, they are still pending. */
  lemma {:induction false} DualCalls(cfg: Config, s: CacheState, call: Call, qp: seq<Point>, w: seq<real>)
    requires call.elem.Some?
    ensures DualShapes in ReinitEvents(cfg, s, call, qp, w) <==> cfg.dual && ChoosePath(cfg, s, call) != Reuse
    ensures (DualCoefficients(call.elem.value.elemType, call.elem.value.pLevel) in ReinitEvents(cfg, s, call, qp, w))
        <==> cfg.dual && s.dualCoeffPending && ChoosePath(cfg, s, call) != Reuse
    ensures !Next(cfg, s, call).dualCoeffPending <==>
              !s.dualCoeffPending || (cfg.dual && ChoosePath(cfg, s, call) != Reuse)
  {
    var path := ChoosePath(cfg, s, call);
    var ev := ReinitEvents(cfg, s, call, qp, w);
    var a := if MapsReference(path) then [InitReferenceMap(qp)] else [];
    var b := if RunsInit(path) then [InitShapes(qp)] else [];
    var c := ShapeEvents(cfg, s, call, qp);
    assert ev == a + b + [ComputeMap(w)] + c;
  }

  /** How many of `calls` compute the dual coefficients. */
  function DualCoeffRuns(cfg: Config, s: CacheState, calls: seq<Call>): nat
    decreases |calls|
  {
    if calls == [] then 0
    else (if DualCoeffNow(cfg, s, calls[0]) then 1 else 0) + DualCoeffRuns(cfg, Next(cfg, s, calls[0]), calls[1..])
  }

  /** The dual coefficients are computed at most once over any sequence of calls, and never
      once they are no longer pending. */
  lemma {:induction false} DualCoefficientsAtMostOnce(cfg: Config, s: CacheState, calls: seq<Call>)
    ensures DualCoeffRuns(cfg, s, calls) <= (if s.dualCoeffPending then 1 else 0)
    decreases |calls|
  {
    if calls != [] {
      DualCoefficientsAtMostOnce(cfg, Next(cfg, s, calls[0]), calls[1..]);
    }
  }

  /** Nothing sets the coefficients pending again: once they are computed, a quadrature call on
      a cell of another type or p-level rebuilds the tables and computes the dual shapes from
      the coefficients already held, without computing new ones for the new cell. */
  lemma DualCoefficientsKeptOnNewCell(cfg: Config, s: CacheState, call: Call, qp: seq<Point>)
    requires cfg.dual && !s.dualCoeffPending
    requires call.elem.Some? && !call.hasPts
    requires call.elem.value.elemType != s.elemType || call.elem.value.pLevel != s.pLevel
    ensures ChoosePath(cfg, s, call) == Rebuild
    ensures ShapeEvents(cfg, s, call, qp) == [ComputeShapes(qp), DualShapes]
    ensures !Next(cfg, s, call).dualCoeffPending
  {
  }

  /** Repeating a quadrature `reinit` on the same element reuses everything when the family's
      shapes depend on the geometry and the point comparison is reflexive: the first call
      cached the nodes, the second finds them still fitting. */
  lemma {:induction false} RepeatedReinitReuses(cfg: Config, s: CacheState, call: Call)
    requires call.elem.Some? && !call.hasPts && !call.ruleNeedsReinit
    requires cfg.family.shapesNeedReinit
    requires forall p :: cfg.same(p, p)
    ensures ChoosePath(cfg, Next(cfg, s, call), call) == Reuse
  {
    var e := call.elem.value;
    var s1 := Next(cfg, s, call);
    var path := ChoosePath(cfg, s, call);
    assert !MustRebuild(s1, e, call.ruleNeedsReinit);
    if path == Rebuild || path == Refit {
      assert s1.cachedNodes == e.nodes;
      forall n | 1 <= n < |e.nodes|
        ensures cfg.same(Sub(e.nodes[n], e.nodes[0]), Sub(s1.cachedNodes[n], s1.cachedNodes[0]))
      {
        assert cfg.same(Sub(e.nodes[n], e.nodes[0]), Sub(e.nodes[n], e.nodes[0]));
      }
    } else {
      assert path == Reuse;
      assert s1.cachedNodes == s.cachedNodes;
    }
  }
}

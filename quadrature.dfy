/** The quadrature-rule interface the shape-function evaluator consumes:
    a point/weight set that `init(type, p_level)` rebuilds for a cell type. */
module Quadrature {
  import opened Geometry

  /** A point set with one weight per point. */
  datatype Rule = Rule(points: seq<Point>, weights: seq<real>)

  /** The rule object a finite element is attached to.  How a concrete rule
      derives its points from the cell type is given by `build`; whether its points
      depend on the cell's shape (`shapes_need_reinit`) by `needsReinit`. */
  class QBase {
    var points: seq<Point>
    var weights: seq<real>
    var elemType: ElemType
    var pLevel: nat
    const build: (ElemType, nat) -> Rule
    const needsReinit: bool

    constructor (build: (ElemType, nat) -> Rule, needsReinit: bool)
      ensures this.build == build && this.needsReinit == needsReinit
      ensures points == [] && weights == [] && elemType == InvalidElem && pLevel == 0
    {
      this.build := build;
      this.needsReinit := needsReinit;
      points, weights := [], [];
      elemType, pLevel := InvalidElem, 0;
    }

    /** `init(type, p_level)`: the rule now holds the points and weights for that cell. */
    method Init(t: ElemType, p: nat)
      modifies this
      ensures elemType == t && pLevel == p
      ensures points == build(t, p).points && weights == build(t, p).weights
    {
      elemType, pLevel := t, p;
      points, weights := build(t, p).points, build(t, p).weights;
    }

    /** `n_points()`. */
    function NPoints(): nat
      reads this
    {
      |points|
    }
  }
}

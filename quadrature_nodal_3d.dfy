/** `QNodal::init_3D`: the nodal (mass-lumping) quadrature rules for 3D cells.
    Linear cells borrow the trapezoidal rule, quadratic cells the Simpson rule
    (truncated to 13 points for the 13-node pyramid), and the 15-node prism and the
    20-node hexahedron get hand-derived rules whose points are the reference nodes. */
module QuadratureNodal3D {
  import opened Geometry
  import opened Quadrature

  // ---------------------------------------------------------------------------
  // Integration with a point/weight set

  /** The sum of a weight vector. */
  function Sum(ws: seq<real>): real {
    SumFrom(ws, 0)
  }

  /** The sum of the weights from index `i` on. */
  function SumFrom(ws: seq<real>, i: nat): real
    requires i <= |ws|
    decreases |ws| - i
  {
    if i == |ws| then 0.0 else ws[i] + SumFrom(ws, i + 1)
  }

  /** What a rule computes for the field `f`: the weighted sum of `f` at its points. */
  function Integrate(ps: seq<Point>, ws: seq<real>, f: Point -> real): real
    requires |ps| == |ws|
  {
    IntegrateFrom(ps, ws, f, 0)
  }

  /** The contribution of the points from index `i` on. */
  function IntegrateFrom(ps: seq<Point>, ws: seq<real>, f: Point -> real, i: nat): real
    requires |ps| == |ws| && i <= |ws|
    decreases |ws| - i
  {
    if i == |ws| then 0.0 else ws[i] * f(ps[i]) + IntegrateFrom(ps, ws, f, i + 1)
  }

  /** The coordinate fields; with the constant field (the weight sum) they span the linears. */
  function X(p: Point): real { p.x }
  function Y(p: Point): real { p.y }
  function Z(p: Point): real { p.z }

  /** The linear field a + b x + c y + d z, and its four terms. */
  function Linear(a: real, b: real, c: real, d: real): Point -> real {
    (p: Point) => a + b * X(p) + c * Y(p) + d * Z(p)
  }
  function ConstField(a: real): Point -> real { p => a }
  function XField(b: real): Point -> real { p => b * X(p) }
  function YField(c: real): Point -> real { p => c * Y(p) }
  function ZField(d: real): Point -> real { p => d * Z(p) }

  /** A rule integrates `k` times a field to `k` times the field's integral. */
  lemma {:induction false} IntegrateScaled(ps: seq<Point>, ws: seq<real>, k: real, f: Point -> real, g: Point -> real, i: nat)
    requires |ps| == |ws| && i <= |ws|
    requires forall p :: g(p) == k * f(p)
    ensures IntegrateFrom(ps, ws, g, i) == k * IntegrateFrom(ps, ws, f, i)
    decreases |ws| - i
  {
    if i < |ws| {
      IntegrateScaled(ps, ws, k, f, g, i + 1);
      ScaleStep(k, ws[i], f(ps[i]), g(ps[i]), IntegrateFrom(ps, ws, f, i + 1), IntegrateFrom(ps, ws, g, i + 1));
    }
  }

  /** A rule integrates the constant `a` to `a` times its weight sum. */
  lemma {:induction false} IntegrateConst(ps: seq<Point>, ws: seq<real>, a: real, g: Point -> real, i: nat)
    requires |ps| == |ws| && i <= |ws|
    requires forall p :: g(p) == a
    ensures IntegrateFrom(ps, ws, g, i) == a * SumFrom(ws, i)
    decreases |ws| - i
  {
    if i < |ws| {
      IntegrateConst(ps, ws, a, g, i + 1);
      ScaleStep(a, ws[i], 1.0, g(ps[i]), SumFrom(ws, i + 1), IntegrateFrom(ps, ws, g, i + 1));
    }
  }

  /** A rule integrates a sum of four fields to the sum of their integrals. */
  lemma {:induction false} IntegrateSum4(ps: seq<Point>, ws: seq<real>, f1: Point -> real, f2: Point -> real,
                                         f3: Point -> real, f4: Point -> real, g: Point -> real, i: nat)
    requires |ps| == |ws| && i <= |ws|
    requires forall p :: g(p) == f1(p) + f2(p) + f3(p) + f4(p)
    ensures IntegrateFrom(ps, ws, g, i) == IntegrateFrom(ps, ws, f1, i) + IntegrateFrom(ps, ws, f2, i)
                                           + IntegrateFrom(ps, ws, f3, i) + IntegrateFrom(ps, ws, f4, i)
    decreases |ws| - i
  {
    if i < |ws| {
      IntegrateSum4(ps, ws, f1, f2, f3, f4, g, i + 1);
      var p := ps[i];
      SumStep(ws[i], f1(p), f2(p), f3(p), f4(p), g(p),
              IntegrateFrom(ps, ws, f1, i + 1), IntegrateFrom(ps, ws, f2, i + 1),
              IntegrateFrom(ps, ws, f3, i + 1), IntegrateFrom(ps, ws, f4, i + 1), IntegrateFrom(ps, ws, g, i + 1));
    }
  }

  // The arithmetic of one point of `IntegrateScaled`/`IntegrateConst` and of `IntegrateSum4`,
  // kept apart from the sums so that the solver sees only the products of this one step.
  lemma ScaleStep(k: real, w: real, v: real, u: real, r: real, q: real)
    requires u == k * v && q == k * r
    ensures w * u + q == k * (w * v + r)
  {
  }

  lemma SumStep(w: real, v1: real, v2: real, v3: real, v4: real, u: real, r1: real, r2: real, r3: real, r4: real, q: real)
    requires u == v1 + v2 + v3 + v4 && q == r1 + r2 + r3 + r4
    ensures w * u + q == (w * v1 + r1) + (w * v2 + r2) + (w * v3 + r3) + (w * v4 + r4)
  {
  }

  /** The integral of a linear field splits into the integrals of its four terms. */
  lemma LinearSplits(ps: seq<Point>, ws: seq<real>, a: real, b: real, c: real, d: real, i: nat)
    requires |ps| == |ws| && i <= |ws|
    ensures IntegrateFrom(ps, ws, Linear(a, b, c, d), i)
            == IntegrateFrom(ps, ws, ConstField(a), i) + IntegrateFrom(ps, ws, XField(b), i)
               + IntegrateFrom(ps, ws, YField(c), i) + IntegrateFrom(ps, ws, ZField(d), i)
  {
    IntegrateSum4(ps, ws, ConstField(a), XField(b), YField(c), ZField(d), Linear(a, b, c, d), i);
  }

  /** A rule integrates a linear field to `a` times its weight sum plus `b`, `c` and `d`
      times its first moments. */
  lemma IntegrateLinear(ps: seq<Point>, ws: seq<real>, a: real, b: real, c: real, d: real, i: nat)
    requires |ps| == |ws| && i <= |ws|
    ensures IntegrateFrom(ps, ws, Linear(a, b, c, d), i)
            == a * SumFrom(ws, i) + b * IntegrateFrom(ps, ws, X, i)
               + c * IntegrateFrom(ps, ws, Y, i) + d * IntegrateFrom(ps, ws, Z, i)
  {
    IntegrateScaled(ps, ws, b, X, XField(b), i);
    IntegrateScaled(ps, ws, c, Y, YField(c), i);
    IntegrateScaled(ps, ws, d, Z, ZField(d), i);
    IntegrateConst(ps, ws, a, ConstField(a), i);
    LinearSplits(ps, ws, a, b, c, d, i);
  }

  /** Summing two weight vectors one after the other. */
  lemma {:induction false} SumFromAppend(a: seq<real>, b: seq<real>, i: nat)
    requires i <= |a|
    ensures SumFrom(a + b, i) == SumFrom(a, i) + Sum(b)
    decreases |a| - i
  {
    if i < |a| {
      SumFromAppend(a, b, i + 1);
    } else {
      SumFromShift(a, b, 0);
    }
  }

  lemma {:induction false} SumFromShift(a: seq<real>, b: seq<real>, j: nat)
    requires j <= |b|
    ensures SumFrom(a + b, |a| + j) == SumFrom(b, j)
    decreases |b| - j
  {
    if j < |b| {
      SumFromShift(a, b, j + 1);
    }
  }

  lemma SumAppend(a: seq<real>, b: seq<real>)
    ensures Sum(a + b) == Sum(a) + Sum(b)
  {
    SumFromAppend(a, b, 0);
  }

  /** A class of `n` equal weights contributes `n` times that weight. */
  lemma {:induction false} SumRepeat(w: real, n: nat)
    ensures Sum(Repeat(w, n)) == n as real * w
  {
    SumFromRepeat(w, n, 0);
  }

  lemma {:induction false} SumFromRepeat(w: real, n: nat, i: nat)
    requires i <= n
    ensures SumFrom(Repeat(w, n), i) == (n - i) as real * w
    decreases n - i
  {
    if i < n {
      SumFromRepeat(w, n, i + 1);
      var r := Repeat(w, n);
      assert SumFrom(r, i) == r[i] + SumFrom(r, i + 1);
      assert r[i] == w;
      assert (n - i) as real * w == w + (n - (i + 1)) as real * w;
    }
  }

  // ---------------------------------------------------------------------------
  // The hand-derived rules (quadrature_nodal_3D.C)

  /** PRISM15: the reference nodes, vertices first, then the bottom triangle's
      mid-edges, the vertical mid-edges and the top triangle's mid-edges. */
  function Prism15Points(): (ps: seq<Point>)
    ensures |ps| == 15
  {
    [ Point(0.0, 0.0, -1.0), Point(1.0, 0.0, -1.0), Point(0.0, 1.0, -1.0),
      Point(0.0, 0.0,  1.0), Point(1.0, 0.0,  1.0), Point(0.0, 1.0,  1.0),
      Point(0.5, 0.0, -1.0), Point(0.5, 0.5, -1.0), Point(0.0, 0.5, -1.0),
      Point(0.0, 0.0,  0.0), Point(1.0, 0.0,  0.0), Point(0.0, 1.0,  0.0),
      Point(0.5, 0.0,  1.0), Point(0.5, 0.5,  1.0), Point(0.0, 0.5,  1.0) ]
  }

  function Prism15Weights(): (ws: seq<real>)
    ensures |ws| == 15
  {
    [ 1.0 / 34.0, 1.0 / 34.0, 1.0 / 34.0, 1.0 / 34.0, 1.0 / 34.0, 1.0 / 34.0,
      4.0 / 51.0, 4.0 / 51.0, 4.0 / 51.0,
      2.0 / 17.0, 2.0 / 17.0, 2.0 / 17.0,
      4.0 / 51.0, 4.0 / 51.0, 4.0 / 51.0 ]
  }

  /** HEX20: the eight vertices, then the bottom, vertical and top mid-edges. */
  function Hex20Points(): (ps: seq<Point>)
    ensures |ps| == 20
  {
    [ Point(-1.0, -1.0, -1.0), Point( 1.0, -1.0, -1.0), Point( 1.0,  1.0, -1.0), Point(-1.0,  1.0, -1.0),
      Point(-1.0, -1.0,  1.0), Point( 1.0, -1.0,  1.0), Point( 1.0,  1.0,  1.0), Point(-1.0,  1.0,  1.0),
      Point( 0.0, -1.0, -1.0), Point( 1.0,  0.0, -1.0), Point( 0.0,  1.0, -1.0), Point(-1.0,  0.0, -1.0),
      Point(-1.0, -1.0,  0.0), Point( 1.0, -1.0,  0.0), Point( 1.0,  1.0,  0.0), Point(-1.0,  1.0,  0.0),
      Point( 0.0, -1.0,  1.0), Point( 1.0,  0.0,  1.0), Point( 0.0,  1.0,  1.0), Point(-1.0,  0.0,  1.0) ]
  }

  function Hex20Weights(): (ws: seq<real>)
    ensures |ws| == 20
  {
    [ 7.0 / 31.0, 7.0 / 31.0, 7.0 / 31.0, 7.0 / 31.0, 7.0 / 31.0, 7.0 / 31.0, 7.0 / 31.0, 7.0 / 31.0,
      16.0 / 31.0, 16.0 / 31.0, 16.0 / 31.0, 16.0 / 31.0, 16.0 / 31.0, 16.0 / 31.0,
      16.0 / 31.0, 16.0 / 31.0, 16.0 / 31.0, 16.0 / 31.0, 16.0 / 31.0, 16.0 / 31.0 ]
  }

  // ---------------------------------------------------------------------------
  // What the hand-derived rules promise

  /** HEX20 weights come in two classes: 8 vertex weights 7/31, then 12 edge weights 16/31. */
  lemma Hex20WeightClasses()
    ensures Hex20Weights() == Repeat(7.0 / 31.0, 8) + Repeat(16.0 / 31.0, 12)
  {
  }

  /** The HEX20 weights are positive and add up to 8, the volume of [-1,1]^3. */
  lemma Hex20Weights_SumAndSign()
    ensures Sum(Hex20Weights()) == 8.0
    ensures forall i :: 0 <= i < 20 ==> Hex20Weights()[i] > 0.0
  {
    Hex20WeightClasses();
    SumAppend(Repeat(7.0 / 31.0, 8), Repeat(16.0 / 31.0, 12));
    SumRepeat(7.0 / 31.0, 8);
    SumRepeat(16.0 / 31.0, 12);
  }

  /** The HEX20 first moments vanish, as x, y and z do over [-1,1]^3. */
  lemma Hex20FirstMoments()
    ensures Integrate(Hex20Points(), Hex20Weights(), X) == 0.0
    ensures Integrate(Hex20Points(), Hex20Weights(), Y) == 0.0
    ensures Integrate(Hex20Points(), Hex20Weights(), Z) == 0.0
  {
    Hex20MomentX();
    Hex20MomentY();
    Hex20MomentZ();
  }

  // Each moment is summed four points at a time: every row of four mid-edge or vertex
  // nodes is symmetric in x and y; in z the rows pair off.
  lemma Hex20MomentX()
    ensures Integrate(Hex20Points(), Hex20Weights(), X) == 0.0
  {
    var ps, ws := Hex20Points(), Hex20Weights();
    assert IntegrateFrom(ps, ws, X, 16) == 0.0;
    assert IntegrateFrom(ps, ws, X, 12) == 0.0;
    assert IntegrateFrom(ps, ws, X, 8) == 0.0;
    assert IntegrateFrom(ps, ws, X, 4) == 0.0;
  }

  lemma Hex20MomentY()
    ensures Integrate(Hex20Points(), Hex20Weights(), Y) == 0.0
  {
    var ps, ws := Hex20Points(), Hex20Weights();
    assert IntegrateFrom(ps, ws, Y, 16) == 0.0;
    assert IntegrateFrom(ps, ws, Y, 12) == 0.0;
    assert IntegrateFrom(ps, ws, Y, 8) == 0.0;
    assert IntegrateFrom(ps, ws, Y, 4) == 0.0;
  }

  lemma Hex20MomentZ()
    ensures Integrate(Hex20Points(), Hex20Weights(), Z) == 0.0
  {
    var ps, ws := Hex20Points(), Hex20Weights();
    assert IntegrateFrom(ps, ws, Z, 16) == 4.0 * (16.0 / 31.0);
    assert IntegrateFrom(ps, ws, Z, 12) == 4.0 * (16.0 / 31.0);
    assert IntegrateFrom(ps, ws, Z, 8) == 0.0;
    assert IntegrateFrom(ps, ws, Z, 4) == 4.0 * (7.0 / 31.0);
  }

  /** PRISM15 weights: 6 vertex weights 1/34, then 3 triangle-edge weights 4/51,
      3 quadrilateral-edge weights 2/17 and 3 more triangle-edge weights 4/51. */
  lemma Prism15WeightClasses()
    ensures Prism15Weights() == Repeat(1.0 / 34.0, 6) + Repeat(4.0 / 51.0, 3) + Repeat(2.0 / 17.0, 3) + Repeat(4.0 / 51.0, 3)
  {
  }

  /** The PRISM15 weights are positive and add up to 1, the volume of the reference prism
      (the unit right triangle times the height 2). */
  lemma Prism15Weights_SumAndSign()
    ensures Sum(Prism15Weights()) == 1.0
    ensures forall i :: 0 <= i < 15 ==> Prism15Weights()[i] > 0.0
  {
    var wv, wt, wq := Repeat(1.0 / 34.0, 6), Repeat(4.0 / 51.0, 3), Repeat(2.0 / 17.0, 3);
    Prism15WeightClasses();
    SumAppend(wv + wt + wq, wt);
    SumAppend(wv + wt, wq);
    SumAppend(wv, wt);
    SumRepeat(1.0 / 34.0, 6);
    SumRepeat(4.0 / 51.0, 3);
    SumRepeat(2.0 / 17.0, 3);
  }

  /** The PRISM15 first moments: over the reference prism x and y integrate to 1/3
      and z to 0. */
  lemma Prism15FirstMoments()
    ensures Integrate(Prism15Points(), Prism15Weights(), X) == 1.0 / 3.0
    ensures Integrate(Prism15Points(), Prism15Weights(), Y) == 1.0 / 3.0
    ensures Integrate(Prism15Points(), Prism15Weights(), Z) == 0.0
  {
    Prism15MomentX();
    Prism15MomentY();
    Prism15MomentZ();
  }

  // Summed three points (one row of the table) at a time.
  lemma Prism15MomentX()
    ensures Integrate(Prism15Points(), Prism15Weights(), X) == 1.0 / 3.0
  {
    var ps, ws := Prism15Points(), Prism15Weights();
    var wv, wt, wq := 1.0 / 34.0, 4.0 / 51.0, 2.0 / 17.0;
    assert IntegrateFrom(ps, ws, X, 12) == wt;
    assert IntegrateFrom(ps, ws, X, 9) == wq + wt;
    assert IntegrateFrom(ps, ws, X, 6) == 2.0 * wt + wq;
    assert IntegrateFrom(ps, ws, X, 3) == wv + 2.0 * wt + wq;
  }

  lemma Prism15MomentY()
    ensures Integrate(Prism15Points(), Prism15Weights(), Y) == 1.0 / 3.0
  {
    var ps, ws := Prism15Points(), Prism15Weights();
    var wv, wt, wq := 1.0 / 34.0, 4.0 / 51.0, 2.0 / 17.0;
    assert IntegrateFrom(ps, ws, Y, 12) == wt;
    assert IntegrateFrom(ps, ws, Y, 9) == wq + wt;
    assert IntegrateFrom(ps, ws, Y, 6) == 2.0 * wt + wq;
    assert IntegrateFrom(ps, ws, Y, 3) == wv + 2.0 * wt + wq;
  }

  lemma Prism15MomentZ()
    ensures Integrate(Prism15Points(), Prism15Weights(), Z) == 0.0
  {
    var ps, ws := Prism15Points(), Prism15Weights();
    var wv, wt := 1.0 / 34.0, 4.0 / 51.0;
    assert IntegrateFrom(ps, ws, Z, 12) == 3.0 * wt;
    assert IntegrateFrom(ps, ws, Z, 9) == 3.0 * wt;
    assert IntegrateFrom(ps, ws, Z, 6) == 0.0;
    assert IntegrateFrom(ps, ws, Z, 3) == 3.0 * wv;
  }

  /** HEX20 integrates every linear field exactly: a + b x + c y + d z over [-1,1]^3 is 8a. */
  lemma Hex20ExactForLinears(a: real, b: real, c: real, d: real)
    ensures Integrate(Hex20Points(), Hex20Weights(), Linear(a, b, c, d)) == 8.0 * a
  {
    IntegrateLinear(Hex20Points(), Hex20Weights(), a, b, c, d, 0);
    Hex20Weights_SumAndSign();
    Hex20FirstMoments();
  }

  /** PRISM15 integrates every linear field exactly: over the reference prism (volume 1/2
      times height 2) a + b x + c y + d z integrates to a + (b + c) / 3. */
  lemma Prism15ExactForLinears(a: real, b: real, c: real, d: real)
    ensures Integrate(Prism15Points(), Prism15Weights(), Linear(a, b, c, d)) == a + (b + c) / 3.0
  {
    IntegrateLinear(Prism15Points(), Prism15Weights(), a, b, c, d, 0);
    Prism15Weights_SumAndSign();
    Prism15FirstMoments();
  }

  // ---------------------------------------------------------------------------
  // init_3D

  /** The 3D cell types `init_3D` has a rule for. */
  predicate Supported3D(t: ElemType) {
    t in {Tet4, Prism6, Hex8, Pyramid5, Prism15, Hex20, Tet10, Prism18, Hex27, Pyramid13, Pyramid14}
  }

  /** The rule `init_3D` selects for cell type `t`, or None for the "Unsupported type" error.
      `trap` and `simpson` are what the trapezoidal and Simpson rules build for a type. */
  function NodalRule3D(t: ElemType, trap: ElemType -> Rule, simpson: ElemType -> Rule): (r: Option<Rule>)
    ensures r.Some? <==> Supported3D(t)
    ensures t in {Tet4, Prism6, Hex8, Pyramid5} ==> r == Some(trap(t))
    ensures t in {Tet10, Prism18, Hex27, Pyramid14} ==> r == Some(simpson(t))
    ensures t == Prism15 ==> r == Some(Rule(Prism15Points(), Prism15Weights()))
    ensures t == Hex20 ==> r == Some(Rule(Hex20Points(), Hex20Weights()))
    ensures t == Pyramid13 ==> r.Some? && |r.value.points| == 13 && |r.value.weights| == 13
  {
    match t
    case Tet4 | Prism6 | Hex8 | Pyramid5 => Some(trap(t))
    case Prism15 => Some(Rule(Prism15Points(), Prism15Weights()))
    case Hex20 => Some(Rule(Hex20Points(), Hex20Weights()))
    case Tet10 | Prism18 | Hex27 | Pyramid14 => Some(simpson(t))
    case Pyramid13 =>
      Some(Rule(Resize(simpson(t).points, 13, Origin), Resize(simpson(t).weights, 13, 0.0)))
    case _ => None
  }

  /** A well-formed rule has one weight per point. */
  predicate Balanced(r: Rule) {
    |r.points| == |r.weights|
  }

  /** The selected rule is well formed whenever the borrowed trapezoidal and Simpson rules are. */
  lemma NodalRule3DBalanced(t: ElemType, trap: ElemType -> Rule, simpson: ElemType -> Rule)
    requires Balanced(trap(t)) && Balanced(simpson(t))
    requires NodalRule3D(t, trap, simpson).Some?
    ensures Balanced(NodalRule3D(t, trap, simpson).value)
  {
  }

  /** PYRAMID13 keeps the first 13 Simpson points and weights: every point it keeps is
      a Simpson point with the Simpson weight, and nothing else changes. */
  lemma Pyramid13TruncatesSimpson(trap: ElemType -> Rule, simpson: ElemType -> Rule)
    requires |simpson(Pyramid13).points| >= 13 && |simpson(Pyramid13).weights| >= 13
    ensures NodalRule3D(Pyramid13, trap, simpson)
         == Some(Rule(simpson(Pyramid13).points[..13], simpson(Pyramid13).weights[..13]))
  {
  }

  /** The hand-derived rules are the only ones that do not come from another rule, and both
      are balanced with positive weights.  Positive weights are what a positive definite
      lumped mass matrix needs; the matrix itself is outside this model. */
  lemma HandDerivedRulesPositive(t: ElemType, trap: ElemType -> Rule, simpson: ElemType -> Rule)
    requires t == Prism15 || t == Hex20
    ensures NodalRule3D(t, trap, simpson).Some?
    ensures Balanced(NodalRule3D(t, trap, simpson).value)
    ensures forall i :: 0 <= i < |NodalRule3D(t, trap, simpson).value.weights| ==>
              NodalRule3D(t, trap, simpson).value.weights[i] > 0.0
  {
    if t == Prism15 {
      Prism15Weights_SumAndSign();
    } else {
      Hex20Weights_SumAndSign();
    }
  }

  /** The nodal rule object: the cell type recorded by `init` (`_type`) and the
      point/weight vectors `init_3D` fills. */
  class QNodal {
    var elemType: ElemType
    var points: seq<Point>
    var weights: seq<real>

    constructor (t: ElemType)
      ensures elemType == t && points == [] && weights == []
    {
      elemType := t;
      points, weights := [], [];
    }

    /** `init_3D`: fills the points and weights for `_type`; `ok` is false for the
        "Unsupported type" error, which leaves the rule as it was. */
    method Init3D(trap: ElemType -> Rule, simpson: ElemType -> Rule) returns (ok: bool)
      modifies this
      ensures elemType == old(elemType)
      ensures ok <==> NodalRule3D(elemType, trap, simpson).Some?
      ensures ok ==> points == NodalRule3D(elemType, trap, simpson).value.points
      ensures ok ==> weights == NodalRule3D(elemType, trap, simpson).value.weights
      ensures !ok ==> points == old(points) && weights == old(weights)
    {
      if elemType in {Tet4, Prism6, Hex8, Pyramid5} {
        var rule := trap(elemType);
        points, weights := rule.points, rule.weights;
        return true;
      } else if elemType == Prism15 {
        points := Prism15Points();
        weights := Prism15Weights();
        return true;
      } else if elemType == Hex20 {
        points := Hex20Points();
        weights := Hex20Weights();
        return true;
      } else if elemType in {Tet10, Prism18, Hex27, Pyramid13, Pyramid14} {
        var rule := simpson(elemType);
        points, weights := rule.points, rule.weights;
        // no proper Simpson rule exists for the 13-node pyramid
        if elemType == Pyramid13 {
          points := Resize(points, 13, Origin);
          weights := Resize(weights, 13, 0.0);
        }
        return true;
      } else {
        return false;
      }
    }
  }
}

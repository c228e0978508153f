/** Shared vocabulary: reference points, cell types, the element a shape-function
    evaluator is reinitialised on, and `std::vector::resize`. */
module Geometry {

  datatype Option<T> = None | Some(value: T)

  /** A point of the reference (or physical) space; LIBMESH_DIM == 3. */
  datatype Point = Point(x: real, y: real, z: real)

  /** `Point(0)`: the origin, also what `resize` pads a point vector with. */
  const Origin: Point := Point(0.0, 0.0, 0.0)

  /** `a - b`, used to express node positions relative to node 0. */
  function Sub(a: Point, b: Point): (r: Point)
    ensures Point(r.x + b.x, r.y + b.y, r.z + b.z) == a
  {
    Point(a.x - b.x, a.y - b.y, a.z - b.z)
  }

  /** The cell types this model distinguishes; `InvalidElem` is the "no element yet" sentinel.
      The 0D, 1D and 2D types are here because `FE` is instantiated for dimensions 0 to 3
      and `init_3D` must reject them. */
  datatype ElemType =
    | NodeElem
    | Edge2 | Edge3 | Edge4
    | Tri3 | Tri6 | Quad4 | Quad8 | Quad9
    | Tet4 | Tet10
    | Hex8 | Hex20 | Hex27
    | Prism6 | Prism15 | Prism18
    | Pyramid5 | Pyramid13 | Pyramid14
    | InvalidElem

  /** An element as the evaluator sees it.  Its topology queries (`is_node_on_side`,
      `is_node_on_edge`) belong to the element classes and are carried here as given
      relations. */
  datatype Elem = Elem(
    elemType: ElemType,
    pLevel: nat,
    nodes: seq<Point>,
    nSides: nat,
    nEdges: nat,
    onSide: (nat, nat) -> bool,  // is_node_on_side(node, side)
    onEdge: (nat, nat) -> bool   // is_node_on_edge(node, edge)
  )

  /** A real element never carries the sentinel type. */
  predicate IsRealElem(e: Elem) {
    e.elemType != InvalidElem
  }

  /** `std::vector::resize(n, pad)`: keeps the common prefix and pads with `pad`. */
  function Resize<T>(s: seq<T>, n: nat, pad: T): (r: seq<T>)
    ensures |r| == n
    ensures forall i :: 0 <= i < n && i < |s| ==> r[i] == s[i]
    ensures forall i :: |s| <= i < n ==> r[i] == pad
  {
    if n <= |s| then s[..n] else s + seq(n - |s|, _ => pad)
  }

  /** Resizing to the current length changes nothing. */
  lemma ResizeSameLength<T>(s: seq<T>, pad: T)
    ensures Resize(s, |s|, pad) == s
  {
  }

  /** `std::vector<T>(n, v)`. */
  function Repeat<T>(v: T, n: nat): (r: seq<T>)
    ensures |r| == n && forall i :: 0 <= i < n ==> r[i] == v
  {
    seq(n, _ => v)
  }
}

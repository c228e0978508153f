/** `dofs_on_side` / `dofs_on_edge`: the local degree-of-freedom numbers of the nodes
    that lie on one side (edge) of an element.  Local dofs are numbered node by node:
    node `m` owns the `nd(m)` numbers starting at `Offset(nd, m)`. */
module FeDofs {
  import opened Geometry

  // ---------------------------------------------------------------------------
  // Specification

  /** The first local dof number of node `m`: the dofs of nodes `0 .. m-1`. */
  function Offset(nd: nat -> nat, m: nat): nat {
    if m == 0 then 0 else Offset(nd, m - 1) + nd(m - 1)
  }

  /** `a, a+1, ..., a+k-1`. */
  function Range(a: nat, k: nat): (r: seq<nat>)
    ensures |r| == k && forall i :: 0 <= i < k ==> r[i] == a + i
  {
    seq(k, i => a + i)
  }

  /** The dof numbers of the nodes below `m` that satisfy `on`, in node order. */
  function OnDofs(nd: nat -> nat, on: nat -> bool, m: nat): seq<nat> {
    if m == 0 then []
    else OnDofs(nd, on, m - 1) + (if on(m - 1) then Range(Offset(nd, m - 1), nd(m - 1)) else [])
  }

  /** How many dofs the nodes below `m` that satisfy `on` own. */
  function CountOn(nd: nat -> nat, on: nat -> bool, m: nat): nat {
    if m == 0 then 0 else CountOn(nd, on, m - 1) + (if on(m - 1) then nd(m - 1) else 0)
  }

  predicate StrictlyIncreasing(s: seq<nat>) {
    forall a, b :: 0 <= a < b < |s| ==> s[a] < s[b]
  }

  /** `n_dofs_at_node(type, order, ·)` for one element type and order. */
  function NodeDofs(nDofsAtNode: (ElemType, nat, nat) -> nat, t: ElemType, o: nat): nat -> nat {
    (n: nat) => nDofsAtNode(t, o, n)
  }

  /** `is_node_on_side(·, s)`. */
  function SideNodes(elem: Elem, s: nat): nat -> bool {
    (n: nat) => elem.onSide(n, s)
  }

  /** `is_node_on_edge(·, e)`. */
  function EdgeNodes(elem: Elem, e: nat): nat -> bool {
    (n: nat) => elem.onEdge(n, e)
  }

  // ---------------------------------------------------------------------------
  // Properties of the specification

  /** The selected dofs are strictly increasing and all below the element's total. */
  lemma {:induction false} OnDofsIncreasingAndBounded(nd: nat -> nat, on: nat -> bool, m: nat)
    ensures StrictlyIncreasing(OnDofs(nd, on, m))
    ensures forall k :: 0 <= k < |OnDofs(nd, on, m)| ==> OnDofs(nd, on, m)[k] < Offset(nd, m)
  {
    if m > 0 {
      OnDofsIncreasingAndBounded(nd, on, m - 1);
      var prev := OnDofs(nd, on, m - 1);
      var tail := if on(m - 1) then Range(Offset(nd, m - 1), nd(m - 1)) else [];
      assert OnDofs(nd, on, m) == prev + tail;
      forall k | 0 <= k < |tail|
        ensures Offset(nd, m - 1) <= tail[k] < Offset(nd, m)
      {
      }
    }
  }

  /** As many dofs are selected as the selected nodes own. */
  lemma {:induction false} OnDofsLength(nd: nat -> nat, on: nat -> bool, m: nat)
    ensures |OnDofs(nd, on, m)| == CountOn(nd, on, m)
  {
    if m > 0 {
      OnDofsLength(nd, on, m - 1);
    }
  }

  /** Node `j` is selected and owns dof `k`. */
  predicate Owns(nd: nat -> nat, on: nat -> bool, j: nat, k: nat) {
    on(j) && Offset(nd, j) <= k < Offset(nd, j) + nd(j)
  }

  /** Exactly the dofs of the selected nodes are selected. */
  lemma {:induction false} OnDofsMembers(nd: nat -> nat, on: nat -> bool, m: nat, k: nat)
    ensures k in OnDofs(nd, on, m) <==> exists j :: 0 <= j < m && Owns(nd, on, j, k)
  {
    if m > 0 {
      OnDofsMembers(nd, on, m - 1, k);
      var prev := OnDofs(nd, on, m - 1);
      var tail := if on(m - 1) then Range(Offset(nd, m - 1), nd(m - 1)) else [];
      assert OnDofs(nd, on, m) == prev + tail;
      assert k in tail <==> Owns(nd, on, m - 1, k) by {
        if Owns(nd, on, m - 1, k) {
          assert tail[k - Offset(nd, m - 1)] == k;
        }
      }
      if exists j :: 0 <= j < m && Owns(nd, on, j, k) {
        var j :| 0 <= j < m && Owns(nd, on, j, k);
        assert j < m - 1 ==> k in prev;
      }
    }
  }

  /** Selecting every node selects every dof. */
  lemma {:induction false} CountOnAll(nd: nat -> nat, on: nat -> bool, m: nat)
    ensures CountOn(nd, on, m) <= Offset(nd, m)
    ensures (forall j :: 0 <= j < m ==> on(j)) ==> CountOn(nd, on, m) == Offset(nd, m)
  {
    if m > 0 {
      CountOnAll(nd, on, m - 1);
    }
  }

  // ---------------------------------------------------------------------------
  // The loop

  /** The shared loop of `dofs_on_side` and `dofs_on_edge`: walk the nodes with a running
      dof counter, pushing the numbers of the nodes on the side and skipping the others. */
  method DofsOnNodes(nNodes: nat, nd: nat -> nat, on: nat -> bool) returns (di: seq<nat>)
    ensures di == OnDofs(nd, on, nNodes)
  {
    di := [];
    var nodenum := 0;
    var n := 0;
    while n != nNodes
      invariant n <= nNodes
      invariant di == OnDofs(nd, on, n)
      invariant nodenum == Offset(nd, n)
    {
      var nDofs := nd(n);
      if on(n) {
        var i := 0;
        while i != nDofs
          invariant i <= nDofs
          invariant di == OnDofs(nd, on, n) + Range(Offset(nd, n), i)
          invariant nodenum == Offset(nd, n) + i
        {
          assert Range(Offset(nd, n), i + 1) == Range(Offset(nd, n), i) + [nodenum];
          di := di + [nodenum];
          nodenum := nodenum + 1;
          i := i + 1;
        }
      } else {
        nodenum := nodenum + nDofs;
      }
      n := n + 1;
    }
  }

  /** `dofs_on_side(elem, o, s, di)`. */
  method DofsOnSide(nDofsAtNode: (ElemType, nat, nat) -> nat, elem: Elem, o: nat, s: nat)
    returns (di: seq<nat>)
    requires s < elem.nSides
    ensures di == OnDofs(NodeDofs(nDofsAtNode, elem.elemType, o + elem.pLevel), SideNodes(elem, s), |elem.nodes|)
    ensures StrictlyIncreasing(di)
    ensures forall k :: 0 <= k < |di| ==>
              di[k] < Offset(NodeDofs(nDofsAtNode, elem.elemType, o + elem.pLevel), |elem.nodes|)
    ensures |di| == CountOn(NodeDofs(nDofsAtNode, elem.elemType, o + elem.pLevel), SideNodes(elem, s), |elem.nodes|)
  {
    var nd, on := NodeDofs(nDofsAtNode, elem.elemType, o + elem.pLevel), SideNodes(elem, s);
    di := DofsOnNodes(|elem.nodes|, nd, on);
    OnDofsIncreasingAndBounded(nd, on, |elem.nodes|);
    OnDofsLength(nd, on, |elem.nodes|);
  }

  /** `dofs_on_edge(elem, o, e, di)`. */
  method DofsOnEdge(nDofsAtNode: (ElemType, nat, nat) -> nat, elem: Elem, o: nat, e: nat)
    returns (di: seq<nat>)
    requires e < elem.nEdges
    ensures di == OnDofs(NodeDofs(nDofsAtNode, elem.elemType, o + elem.pLevel), EdgeNodes(elem, e), |elem.nodes|)
    ensures StrictlyIncreasing(di)
    ensures forall k :: 0 <= k < |di| ==>
              di[k] < Offset(NodeDofs(nDofsAtNode, elem.elemType, o + elem.pLevel), |elem.nodes|)
    ensures |di| == CountOn(NodeDofs(nDofsAtNode, elem.elemType, o + elem.pLevel), EdgeNodes(elem, e), |elem.nodes|)
  {
    var nd, on := NodeDofs(nDofsAtNode, elem.elemType, o + elem.pLevel), EdgeNodes(elem, e);
    di := DofsOnNodes(|elem.nodes|, nd, on);
    OnDofsIncreasingAndBounded(nd, on, |elem.nodes|);
    OnDofsLength(nd, on, |elem.nodes|);
  }
}

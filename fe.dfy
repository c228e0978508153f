/** The FE shape-function evaluator's bookkeeping (`src/fe/fe.C`): attaching a quadrature
    rule, sizing the shape tables for the current element and points, and the `reinit`
    cache that decides what to recompute.  Numeric values are abstract: the family's
    closed forms are given functions, and the geometric map and the value computations are
    recorded as calls in `events`. */
module Fe {
  import opened Geometry
  import opened Quadrature
  import opened FeStorage
  import opened FeCache

  /** The family's closed forms (not part of this model): `n_dofs(type, order)`,
      `shape_deriv(elem, order, i, j, p)` and `shape_second_deriv(elem, order, i, k, p)`. */
  datatype FamilyOps = FamilyOps(
    nDofs: (ElemType, nat) -> nat,
    shapeDeriv: (Option<Elem>, nat, nat, nat, Point) -> real,
    shapeSecondDeriv: (Option<Elem>, nat, nat, nat, Point) -> real
  )

  // ---------------------------------------------------------------------------
  // The sizing steps of init_shape_functions

  /** The `old_n_qp` the `do { ... } while (false)` block leaves: the row length of the first
      demanded leader table when it already has `n` rows (0 if `n` is 0), and 0 otherwise. */
  function OldNQp(d: Demand, dim: nat, m: Tables, n: nat): nat {
    match Leader(d, dim)
    case None => 0
    case Some(l) => if |Get(m, l)| == n && n > 0 then |Get(m, l)[0]| else 0
  }

  /** Row `i` of table `t` after the row resize and, if `oldNQp` differs from `q`, the
      column resize to `q`. */
  function SizedRow(m: Tables, t: Table, i: nat, oldNQp: nat, q: nat): seq<real> {
    if oldNQp != q then Resize(RowOrEmpty(m, t, i), q, 0.0) else RowOrEmpty(m, t, i)
  }

  /** Resizing tables that already have `n` rows changes nothing. */
  lemma LockstepResizeIdentity(m: Tables, ts: set<Table>, n: nat)
    requires Lockstep(m, ts, n)
    ensures forall t :: t in ts ==> Resize(Get(m, t), n, []) == Get(m, t)
  {
    forall t | t in ts
      ensures Resize(Get(m, t), n, []) == Get(m, t)
    {
      ResizeSameLength(Get(m, t), []);
    }
  }

  /** The tables of `done` have been resized to `n` rows; the others are as in `m0`. */
  ghost predicate SizedSoFar(m0: Tables, m: Tables, done: set<Table>, n: nat) {
    forall t :: Get(m, t) == if t in done then Resize(Get(m0, t), n, []) else Get(m0, t)
  }

  /** Resizing group `g` after the tables of `done`. */
  lemma SizedThen(m0: Tables, m1: Tables, m2: Tables, done: set<Table>, g: set<Table>, n: nat)
    requires SizedSoFar(m0, m1, done, n)
    requires SizedSoFar(m1, m2, g, n)
    ensures SizedSoFar(m0, m2, done + g, n)
  {
    forall t | t in done && t in g
      ensures Get(m2, t) == Resize(Get(m0, t), n, [])
    {
      ResizeSameLength(Resize(Get(m0, t), n, []), []);
    }
  }

  /** Leaving the block early: the tables not resized yet already have `n` rows. */
  lemma SizedBreak(m0: Tables, m: Tables, done: set<Table>, all: set<Table>, n: nat)
    requires SizedSoFar(m0, m, done, n)
    requires done <= all
    requires Lockstep(m0, all, n)
    ensures SizedSoFar(m0, m, all, n)
  {
    LockstepResizeIdentity(m0, all, n);
  }

  /** `d2phi` is sized after the first-order groups and is none of them. */
  lemma D2PhiIsLater(d: Demand, dim: nat)
    requires dim <= 3
    ensures D2Phi !in FirstOrderGroups(d, dim)
  {
  }

  /** The leaders have as many rows as the other demanded tables. */
  predicate LeadersHaveRows(d: Demand, dim: nat, m: Tables, rows: nat) {
    (d.phi ==> |Get(m, Phi)| == rows)
    && (d.dphi ==> |Get(m, DPhi)| == rows)
    && (d.dphiref && dim > 0 ==> |Get(m, DPhidxi)| == rows)
    && (d.d2phi ==> |Get(m, D2Phi)| == rows)
  }

  lemma LockstepLeaders(d: Demand, dim: nat, vector: bool, m: Tables, rows: nat)
    requires dim <= 3
    requires Lockstep(m, Demanded(d, dim, vector), rows)
    ensures LeadersHaveRows(d, dim, m, rows)
  {
    assert d.phi ==> Phi in Demanded(d, dim, vector);
    assert d.dphi ==> DPhi in Demanded(d, dim, vector);
    assert d.dphiref && dim > 0 ==> DPhidxi in Demanded(d, dim, vector);
    assert d.d2phi ==> D2Phi in Demanded(d, dim, vector);
  }

  /** The first part of the `do { ... } while (false)` block: `phi`, `dphi` and the
      reference first derivatives, each led by a check of its leader table.  `stopped`
      is the block's `break`, which can only be taken before anything was resized. */
  method SizeFirstOrder(d: Demand, dim: nat, m0: Tables, n: nat, ghost rows: nat)
    returns (m: Tables, oldNQp: nat, stopped: bool)
    requires dim <= 3
    requires LeadersHaveRows(d, dim, m0, rows)
    ensures stopped ==> rows == n && SizedSoFar(m0, m, {}, n) && oldNQp == OldNQp(d, dim, m0, n)
    ensures !stopped ==> SizedSoFar(m0, m, FirstOrderGroups(d, dim), n) && oldNQp == 0
    ensures !stopped ==> ((d.phi || d.dphi || (d.dphiref && dim > 0)) ==> rows != n)
  {
    m, oldNQp, stopped := m0, 0, false;
    if d.phi {
      if |Get(m, Phi)| == n {
        oldNQp := if n > 0 then |Get(m, Phi)[0]| else 0;
        stopped := true;
        return;
      }
      m := ResizeRows(m, {Phi}, n);
    }
    ghost var m1 := m;
    assert d.phi ==> rows != n;

    if d.dphi {
      if |Get(m, DPhi)| == n {
        assert !d.phi;
        oldNQp := if n > 0 then |Get(m, DPhi)[0]| else 0;
        stopped := true;
        return;
      }
      m := ResizeRows(m, {DPhi, DPhidx, DPhidy, DPhidz}, n);
    }
    ghost var m2 := m;
    SizedThen(m0, m1, m2, PhiGroup(d), DPhiGroup(d), n);
    assert |Get(m2, DPhidxi)| == |Get(m0, DPhidxi)|;
    assert (d.phi || d.dphi) ==> rows != n;

    if d.dphiref {
      if dim > 0 && |Get(m, DPhidxi)| == n {
        assert !d.phi && !d.dphi;
        oldNQp := if n > 0 then |Get(m, DPhidxi)[0]| else 0;
        stopped := true;
        return;
      }
      // dphidxi, dphideta, dphidzeta up to the dimension
      m := ResizeRows(m, FirstRefSet(dim), n);
    }
    SizedThen(m0, m2, m, PhiGroup(d) + DPhiGroup(d), RefGroup(d, dim), n);
  }

  /** The rest of the block: `curl_phi` and `div_phi`, then `d2phi`, led by a check of
      `d2phi` itself; `stopped` is the block's `break`. */
  method SizeRest(d: Demand, dim: nat, vector: bool, m0: Tables, n: nat, ghost rows: nat)
    returns (m: Tables, oldNQp: nat, stopped: bool)
    requires dim <= 3
    requires d.d2phi ==> |Get(m0, D2Phi)| == rows
    ensures stopped ==> d.d2phi && rows == n && SizedSoFar(m0, m, CurlGroup(d, vector) + DivGroup(d, vector), n)
    ensures stopped ==> oldNQp == if n > 0 then |Get(m0, D2Phi)[0]| else 0
    ensures !stopped ==> SizedSoFar(m0, m, LaterGroups(d, dim, vector), n)
    ensures !stopped ==> oldNQp == 0 && (d.d2phi ==> rows != n)
  {
    m, oldNQp, stopped := m0, 0, false;
    if d.curl && vector {
      m := ResizeRows(m, {CurlPhi}, n);
    }
    ghost var m1 := m;
    if d.div && vector {
      m := ResizeRows(m, {DivPhi}, n);
    }
    ghost var m2 := m;
    SizedThen(m0, m1, m2, CurlGroup(d, vector), DivGroup(d, vector), n);
    assert Get(m2, D2Phi) == Get(m0, D2Phi);
    if d.d2phi {
      if |Get(m, D2Phi)| == n {
        oldNQp := if n > 0 then |Get(m, D2Phi)[0]| else 0;
        stopped := true;
        return;
      }
      // d2phi and its physical components, then the reference slots up to the dimension
      m := ResizeRows(m, D2Group(d, dim), n);
    }
    SizedThen(m0, m2, m, CurlGroup(d, vector) + DivGroup(d, vector), D2Group(d, dim), n);
  }

  /** The `do { ... } while (false)` block: resize the demanded tables to `n` rows, group by
      group, unless the first demanded leader shows (the tables moving in lockstep) that
      they already have `n` rows. */
  method SizeRows(d: Demand, dim: nat, vector: bool, m0: Tables, n: nat, ghost rows: nat)
    returns (m: Tables, oldNQp: nat)
    requires dim <= 3
    requires Lockstep(m0, Demanded(d, dim, vector), rows)
    ensures SizedSoFar(m0, m, Demanded(d, dim, vector), n)
    ensures oldNQp == OldNQp(d, dim, m0, n)
  {
    ghost var D := Demanded(d, dim, vector);
    LockstepLeaders(d, dim, vector, m0, rows);
    var stopped;
    m, oldNQp, stopped := SizeFirstOrder(d, dim, m0, n, rows);
    if stopped {
      SizedBreak(m0, m, {}, D, n);
      return;
    }
    var m3 := m;
    D2PhiIsLater(d, dim);
    assert Get(m3, D2Phi) == Get(m0, D2Phi);
    m, oldNQp, stopped := SizeRest(d, dim, vector, m3, n, rows);
    SizedRest(d, dim, vector, m0, m3, m, n, rows, oldNQp, stopped);
  }

  /** Composing the two halves of the block when the first did not stop. */
  lemma SizedRest(d: Demand, dim: nat, vector: bool, m0: Tables, m3: Tables, m: Tables, n: nat, rows: nat,
                  oldNQp: nat, stopped: bool)
    requires dim <= 3
    requires Lockstep(m0, Demanded(d, dim, vector), rows)
    requires SizedSoFar(m0, m3, FirstOrderGroups(d, dim), n)
    requires (d.phi || d.dphi || (d.dphiref && dim > 0)) ==> rows != n
    requires Get(m3, D2Phi) == Get(m0, D2Phi)
    requires stopped ==> d.d2phi && rows == n && SizedSoFar(m3, m, CurlGroup(d, vector) + DivGroup(d, vector), n)
    requires stopped ==> oldNQp == if n > 0 then |Get(m3, D2Phi)[0]| else 0
    requires !stopped ==> SizedSoFar(m3, m, LaterGroups(d, dim, vector), n)
    requires !stopped ==> oldNQp == 0 && (d.d2phi ==> rows != n)
    ensures SizedSoFar(m0, m, Demanded(d, dim, vector), n)
    ensures oldNQp == OldNQp(d, dim, m0, n)
  {
    var first := FirstOrderGroups(d, dim);
    if stopped {
      SizedThen(m0, m3, m, first, CurlGroup(d, vector) + DivGroup(d, vector), n);
      SizedBreak(m0, m, first + (CurlGroup(d, vector) + DivGroup(d, vector)), Demanded(d, dim, vector), n);
      assert Leader(d, dim) == Some(D2Phi);
    } else {
      SizedThen(m0, m3, m, first, LaterGroups(d, dim, vector), n);
      LockstepLeaders(d, dim, vector, m0, rows);
      assert Leader(d, dim).Some? ==> rows != n;
    }
  }

  /** The `old_n_qp != n_qp` loop: row `i` of every table of `ts` is resized to `q`
      entries, for every shape function `i`. */
  method ResizeColumns(ts: set<Table>, m0: Tables, n: nat, q: nat) returns (m: Tables)
    requires Lockstep(m0, ts, n)
    ensures forall t :: t !in ts ==> Get(m, t) == Get(m0, t)
    ensures Lockstep(m, ts, n)
    ensures forall t, i :: t in ts && 0 <= i < n ==> Get(m, t)[i] == Resize(Get(m0, t)[i], q, 0.0)
  {
    m := m0;
    var i := 0;
    while i < n
      invariant i <= n
      invariant forall t :: t !in ts ==> Get(m, t) == Get(m0, t)
      invariant Lockstep(m, ts, n)
      invariant forall t, k :: t in ts && 0 <= k < n ==>
                  Get(m, t)[k] == if k < i then Resize(Get(m0, t)[k], q, 0.0) else Get(m0, t)[k]
    {
      m := ResizeRowEach(m, ts, i, q);
      i := i + 1;
    }
  }

  /** When resizing keeps the tables rectangular: there are points, or the old rows were
      empty, or there were no rows, or there are none now, or the leader already had the
      right row count.  Otherwise the sentinel 0 of `old_n_qp` cannot tell "no points"
      from "no leader". */
  predicate StillRectangular(d: Demand, dim: nat, q: nat, cols0: nat, rows0: nat, n: nat) {
    q > 0 || cols0 == 0 || rows0 == 0 || n == 0 || (Leader(d, dim).Some? && rows0 == n)
  }

  /** After the sizing steps every row of a demanded table has `q` entries, provided the
      tables were rectangular before and the `old_n_qp` sentinel cannot mislead. */
  lemma SizedRowsRectangular(d: Demand, dim: nat, vector: bool, m0: Tables, rows0: nat, cols0: nat, n: nat, q: nat)
    requires dim <= 3
    requires Lockstep(m0, Demanded(d, dim, vector), rows0)
    requires Rectangular(m0, Demanded(d, dim, vector), cols0)
    requires StillRectangular(d, dim, q, cols0, rows0, n)
    ensures forall t, i :: t in Demanded(d, dim, vector) && 0 <= i < n ==>
              |SizedRow(m0, t, i, OldNQp(d, dim, m0, n), q)| == q
  {
    LeaderDemanded(d, dim, vector);
    var old_n_qp := OldNQp(d, dim, m0, n);
    if old_n_qp == q && n > 0 {
      if Leader(d, dim).Some? && rows0 == n {
        var l := Leader(d, dim).value;
        assert |Get(m0, l)| == n;
        assert old_n_qp == cols0;
      } else {
        assert old_n_qp == 0;
      }
    }
  }

  /** The sizing part of `init_shape_functions`: the `do { ... } while (false)` block,
      then the per-row resize to `q` points when `old_n_qp` differs from `q`. */
  method SizeTables(d: Demand, dim: nat, vector: bool, m0: Tables, n: nat, q: nat, ghost rows0: nat, ghost cols0: nat)
    returns (m: Tables)
    requires dim <= 3
    requires Lockstep(m0, Demanded(d, dim, vector), rows0)
    ensures forall t :: t !in Demanded(d, dim, vector) ==> Get(m, t) == Get(m0, t)
    ensures Lockstep(m, Demanded(d, dim, vector), n)
    ensures forall t, i :: t in Demanded(d, dim, vector) && 0 <= i < n ==>
              Get(m, t)[i] == SizedRow(m0, t, i, OldNQp(d, dim, m0, n), q)
    ensures Rectangular(m0, Demanded(d, dim, vector), cols0) && StillRectangular(d, dim, q, cols0, rows0, n) ==>
              Rectangular(m, Demanded(d, dim, vector), q)
  {
    var D := Demanded(d, dim, vector);
    var oldNQp;
    m, oldNQp := SizeRows(d, dim, vector, m0, n, rows0);
    ghost var m1 := m;
    if oldNQp != q {
      m := ResizeColumns(D, m, n, q);
    }
    SizedColumns(d, dim, vector, m0, m1, m, n, q, rows0, cols0);
  }

  /** What the row sizing and the per-row resize leave, row by row. */
  lemma SizedColumns(d: Demand, dim: nat, vector: bool, m0: Tables, m1: Tables, m: Tables, n: nat, q: nat,
                     rows0: nat, cols0: nat)
    requires dim <= 3
    requires Lockstep(m0, Demanded(d, dim, vector), rows0)
    requires SizedSoFar(m0, m1, Demanded(d, dim, vector), n)
    requires forall t :: t !in Demanded(d, dim, vector) ==> Get(m, t) == Get(m1, t)
    requires Lockstep(m, Demanded(d, dim, vector), n)
    requires forall t, i :: t in Demanded(d, dim, vector) && 0 <= i < n ==>
               Get(m, t)[i] == if OldNQp(d, dim, m0, n) != q then Resize(Get(m1, t)[i], q, 0.0) else Get(m1, t)[i]
    ensures forall t :: t !in Demanded(d, dim, vector) ==> Get(m, t) == Get(m0, t)
    ensures forall t, i :: t in Demanded(d, dim, vector) && 0 <= i < n ==>
              Get(m, t)[i] == SizedRow(m0, t, i, OldNQp(d, dim, m0, n), q)
    ensures Rectangular(m0, Demanded(d, dim, vector), cols0) && StillRectangular(d, dim, q, cols0, rows0, n) ==>
              Rectangular(m, Demanded(d, dim, vector), q)
  {
    SizedColumnsFrame(Demanded(d, dim, vector), m0, m1, m, n);
    SizedColumnsRows(Demanded(d, dim, vector), m0, m1, m, n, OldNQp(d, dim, m0, n), q);
    SizedColumnsRectangular(d, dim, vector, m0, m, n, q, rows0, cols0);
  }

  /** The tables outside the demanded ones are untouched by either step. */
  lemma SizedColumnsFrame(D: set<Table>, m0: Tables, m1: Tables, m: Tables, n: nat)
    requires SizedSoFar(m0, m1, D, n)
    requires forall t :: t !in D ==> Get(m, t) == Get(m1, t)
    ensures forall t :: t !in D ==> Get(m, t) == Get(m0, t)
  {
    forall t | t !in D
      ensures Get(m, t) == Get(m0, t)
    {
      assert Get(m1, t) == Get(m0, t);
    }
  }

  /** Row `i` after both steps is the old row (or nothing), resized to `q` if needed. */
  lemma SizedColumnsRows(D: set<Table>, m0: Tables, m1: Tables, m: Tables, n: nat, oldNQp: nat, q: nat)
    requires SizedSoFar(m0, m1, D, n)
    requires Lockstep(m, D, n)
    requires forall t, i :: t in D && 0 <= i < n ==>
               Get(m, t)[i] == if oldNQp != q then Resize(Get(m1, t)[i], q, 0.0) else Get(m1, t)[i]
    ensures forall t, i :: t in D && 0 <= i < n ==> Get(m, t)[i] == SizedRow(m0, t, i, oldNQp, q)
  {
    forall t, i | t in D && 0 <= i < n
      ensures Get(m, t)[i] == SizedRow(m0, t, i, oldNQp, q)
    {
      assert Get(m1, t) == Resize(Get(m0, t), n, []);
      assert Get(m1, t)[i] == RowOrEmpty(m0, t, i);
    }
  }

  /** The rows of `SizedRow` keep the demanded tables rectangular when `StillRectangular`. */
  lemma SizedColumnsRectangular(d: Demand, dim: nat, vector: bool, m0: Tables, m: Tables, n: nat, q: nat,
                                rows0: nat, cols0: nat)
    requires dim <= 3
    requires Lockstep(m0, Demanded(d, dim, vector), rows0)
    requires Lockstep(m, Demanded(d, dim, vector), n)
    requires forall t, i :: t in Demanded(d, dim, vector) && 0 <= i < n ==>
               Get(m, t)[i] == SizedRow(m0, t, i, OldNQp(d, dim, m0, n), q)
    ensures Rectangular(m0, Demanded(d, dim, vector), cols0) && StillRectangular(d, dim, q, cols0, rows0, n) ==>
              Rectangular(m, Demanded(d, dim, vector), q)
  {
    if Rectangular(m0, Demanded(d, dim, vector), cols0) && StillRectangular(d, dim, q, cols0, rows0, n) {
      SizedRowsRectangular(d, dim, vector, m0, rows0, cols0, n, q);
    }
  }

  /** The body of `init_dual_shape_functions` when dual shapes are demanded: `dual_phi`,
      and `dual_dphi` / `dual_d2phi` when their primal tables are demanded, become
      `nShapes` x `nQp`, keeping what fits of the old entries. */
  method DualTables(d: Demand, m0: Tables, nShapes: nat, nQp: nat) returns (m: Tables)
    ensures forall t :: t !in DualDemanded(d) ==> Get(m, t) == Get(m0, t)
    ensures Lockstep(m, DualDemanded(d), nShapes)
    ensures forall t, i :: t in DualDemanded(d) && 0 <= i < nShapes ==>
              Get(m, t)[i] == Resize(RowOrEmpty(m0, t, i), nQp, 0.0)
    ensures Rectangular(m, DualDemanded(d), nQp)
  {
    var ts := DualDemanded(d);
    m := ResizeRows(m0, ts, nShapes);
    ghost var m1 := m;
    m := ResizeColumns(ts, m, nShapes, nQp);
    SizedColumnsFrame(ts, m0, m1, m, nShapes);
    DualColumns(ts, m0, m1, m, nShapes, nQp);
  }

  /** Row `i` of a dual table is its old row (or nothing) resized to `nQp` entries. */
  lemma DualColumns(ts: set<Table>, m0: Tables, m1: Tables, m: Tables, n: nat, q: nat)
    requires SizedSoFar(m0, m1, ts, n)
    requires Lockstep(m, ts, n)
    requires forall t, i :: t in ts && 0 <= i < n ==> Get(m, t)[i] == Resize(Get(m1, t)[i], q, 0.0)
    ensures forall t, i :: t in ts && 0 <= i < n ==> Get(m, t)[i] == Resize(RowOrEmpty(m0, t, i), q, 0.0)
    ensures Rectangular(m, ts, q)
  {
    forall t, i | t in ts && 0 <= i < n
      ensures Get(m, t)[i] == Resize(RowOrEmpty(m0, t, i), q, 0.0)
    {
      assert Get(m1, t) == Resize(Get(m0, t), n, []);
      assert Get(m1, t)[i] == RowOrEmpty(m0, t, i);
    }
  }

  // ---------------------------------------------------------------------------
  // The FE object

  class FE {
    const dim: nat
    const order: nat            // fe_type.order
    const family: Family
    const ops: FamilyOps
    const demand: Demand
    const same: (Point, Point) -> bool

    var qrule: QBase?
    var elemType: ElemType
    var pLevel: nat
    var shapesOnQuadrature: bool
    var cachedNodes: seq<Point>
    var calculateDualCoeff: bool
    var tables: Tables
    var events: seq<Event>
    ghost var rows: nat         // the common row count of the demanded tables
    ghost var cols: nat         // their row length, when they are rectangular

    function Cfg(): Config {
      Config(family, demand.dual, same)
    }

    function State(): CacheState
      reads this`elemType, this`pLevel, this`shapesOnQuadrature, this`cachedNodes, this`calculateDualCoeff
    {
      CacheState(elemType, pLevel, shapesOnQuadrature, cachedNodes, calculateDualCoeff)
    }

    function Primal(): set<Table>
      requires dim <= 3
    {
      Demanded(demand, dim, family.isVector)
    }

    /** The object invariant: a dimension FE is instantiated for, dual shapes only on top of
        primal ones, the demanded primal and dual tables resized in lockstep, and the tables
        nothing demands never sized. */
    ghost predicate Valid()
      reads this`tables, this`rows
    {
      dim <= 3 && (demand.dual ==> demand.phi)
      && Lockstep(tables, Primal(), rows) && Lockstep(tables, DualDemanded(demand), rows)
      && EmptyOutside(tables, Primal() + DualDemanded(demand))
    }

    /** Every demanded primal and dual table is `rows` x `cols`. */
    ghost predicate Shaped()
      reads this`tables, this`rows, this`cols
      requires Valid()
    {
      Rectangular(tables, Primal(), cols) && Rectangular(tables, DualDemanded(demand), cols)
    }

    constructor (dim: nat, order: nat, family: Family, ops: FamilyOps, demand: Demand, same: (Point, Point) -> bool)
      requires dim <= 3
      requires demand.dual ==> demand.phi
      ensures Valid() && Shaped()
      ensures this.dim == dim && this.order == order && this.family == family
      ensures this.ops == ops && this.demand == demand && this.same == same
      ensures qrule == null && State() == CacheState(InvalidElem, 0, false, [], true)
      ensures tables == map[] && events == []
    {
      this.dim, this.order, this.family := dim, order, family;
      this.ops, this.demand, this.same := ops, demand, same;
      qrule := null;
      elemType, pLevel, shapesOnQuadrature := InvalidElem, 0, false;
      cachedNodes, calculateDualCoeff := [], true;
      tables, events := map[], [];
      rows, cols := 0, 0;
    }

    /** `n_shape_functions()`. */
    function NShapeFunctions(): nat
      reads this`elemType, this`pLevel
    {
      ops.nDofs(elemType, order + pLevel)
    }

    /** `n_quadrature_points()`. */
    function NQuadraturePoints(): nat
      reads this`qrule, qrule
      requires qrule != null
    {
      qrule.NPoints()
    }

    /** `attach_quadrature_rule(q)`: store the rule and forget the cached cell type. */
    method Attach(q: QBase)
      requires Valid()
      modifies this`qrule, this`elemType
      ensures Valid()
      ensures qrule == q && elemType == InvalidElem
      ensures pLevel == old(pLevel) && shapesOnQuadrature == old(shapesOnQuadrature)
      ensures cachedNodes == old(cachedNodes) && calculateDualCoeff == old(calculateDualCoeff)
      ensures tables == old(tables) && events == old(events) && rows == old(rows) && cols == old(cols)
    {
      qrule := q;
      elemType := InvalidElem;
    }

    /** The values `shape_derivs(elem, order, i, j, qp, .)` writes. */
    function DerivRow(qp: seq<Point>, elem: Option<Elem>, i: nat, j: nat): (r: seq<real>)
      ensures |r| == |qp|
    {
      seq(|qp|, p requires 0 <= p < |qp| => ops.shapeDeriv(elem, order, i, j, qp[p]))
    }

    /** The values `shape_second_deriv(elem, order, i, k, qp[p])` for all points. */
    function SecondDerivRow(qp: seq<Point>, elem: Option<Elem>, i: nat, k: nat): (r: seq<real>)
      ensures |r| == |qp|
    {
      seq(|qp|, p requires 0 <= p < |qp| => ops.shapeSecondDeriv(elem, order, i, k, qp[p]))
    }

    /** Each demanded reference-derivative table of `m` holds, row by row, the derivatives
        for its direction (first derivatives) or its slot (second derivatives). */
    ghost predicate DerivsAt(m: Tables, qp: seq<Point>, elem: Option<Elem>)
      requires dim <= 3
    {
      (demand.dphiref ==>
        forall t, i {:trigger Get(m, t)[i]} :: t in FirstRefSet(dim) && 0 <= i < |Get(m, t)| ==>
          Get(m, t)[i] == DerivRow(qp, elem, i, Direction(t)))
      && (demand.d2phi ==>
        forall t, i {:trigger Get(m, t)[i]} :: t in SecondRefSet(dim) && 0 <= i < |Get(m, t)| ==>
          Get(m, t)[i] == SecondDerivRow(qp, elem, i, Slot(t)))
    }

    ghost predicate ShapesAt(qp: seq<Point>, elem: Option<Elem>)
      reads this`tables
      requires dim <= 3
    {
      DerivsAt(tables, qp, elem)
    }

    /** The tables the dimension switch writes. */
    predicate Evaluated(t: Table)
      requires dim <= 3
    {
      (demand.dphiref && t in FirstRefSet(dim)) || (demand.d2phi && t in SecondRefSet(dim))
    }

    /** Row `i` of d/dxi_j for each direction `j < Dim`. */
    method WriteFirstRow(m0: Tables, i: nat, qp: seq<Point>, elem: Option<Elem>) returns (m: Tables)
      requires dim <= 3
      requires forall t :: t in FirstRefSet(dim) ==> i < |Get(m0, t)|
      ensures forall t :: |Get(m, t)| == |Get(m0, t)|
      ensures forall t :: t !in FirstRefSet(dim) ==> Get(m, t) == Get(m0, t)
      ensures forall t :: t in FirstRefSet(dim) ==> Get(m, t) == Get(m0, t)[i := DerivRow(qp, elem, i, Direction(t))]
    {
      DirectionsAndSlots(dim);
      m := m0;
      var j := 0;
      while j < dim
        invariant j <= dim
        invariant forall t :: Direction(t) >= j ==> Get(m, t) == Get(m0, t)
        invariant forall t :: Direction(t) < j ==> Get(m, t) == Get(m0, t)[i := DerivRow(qp, elem, i, Direction(t))]
      {
        m := SetRow(m, FirstRef(j), i, DerivRow(qp, elem, i, j));
        j := j + 1;
      }
    }

    /** The first-derivative part of the dimension switch: row `i` of d/dxi_j for every
        shape function `i` and direction `j < Dim`. */
    method WriteFirstDerivs(m0: Tables, n: nat, qp: seq<Point>, elem: Option<Elem>) returns (m: Tables)
      requires dim <= 3
      requires forall t :: t in FirstRefSet(dim) ==> |Get(m0, t)| == n
      ensures forall t :: |Get(m, t)| == |Get(m0, t)|
      ensures forall t :: t !in FirstRefSet(dim) ==> Get(m, t) == Get(m0, t)
      ensures forall t, i :: t in FirstRefSet(dim) && 0 <= i < n ==> Get(m, t)[i] == DerivRow(qp, elem, i, Direction(t))
    {
      m := m0;
      var i := 0;
      while i < n
        invariant i <= n
        invariant forall t :: |Get(m, t)| == |Get(m0, t)|
        invariant forall t :: t !in FirstRefSet(dim) ==> Get(m, t) == Get(m0, t)
        invariant forall t, r :: t in FirstRefSet(dim) && 0 <= r < i ==> Get(m, t)[r] == DerivRow(qp, elem, r, Direction(t))
      {
        m := WriteFirstRow(m, i, qp, elem);
        i := i + 1;
      }
    }

    /** Slot `k` of shape function `i` for every slot `k` the dimension has. */
    method WriteSecondRow(m0: Tables, i: nat, qp: seq<Point>, elem: Option<Elem>) returns (m: Tables)
      requires dim <= 3
      requires forall t :: t in SecondRefSet(dim) ==> i < |Get(m0, t)|
      ensures forall t :: |Get(m, t)| == |Get(m0, t)|
      ensures forall t :: t !in SecondRefSet(dim) ==> Get(m, t) == Get(m0, t)
      ensures forall t :: t in SecondRefSet(dim) ==> Get(m, t) == Get(m0, t)[i := SecondDerivRow(qp, elem, i, Slot(t))]
    {
      DirectionsAndSlots(dim);
      m := m0;
      var k := 0;
      while k < SlotCount(dim)
        invariant k <= SlotCount(dim)
        invariant forall t :: Slot(t) >= k ==> Get(m, t) == Get(m0, t)
        invariant forall t :: Slot(t) < k ==> Get(m, t) == Get(m0, t)[i := SecondDerivRow(qp, elem, i, Slot(t))]
      {
        m := SetRow(m, SecondSlot(k), i, SecondDerivRow(qp, elem, i, k));
        k := k + 1;
      }
    }

    /** The second-derivative part of the dimension switch: slot `k` of shape function `i`
        for every `k` the dimension has. */
    method WriteSecondDerivs(m0: Tables, n: nat, qp: seq<Point>, elem: Option<Elem>) returns (m: Tables)
      requires dim <= 3
      requires forall t :: t in SecondRefSet(dim) ==> |Get(m0, t)| == n
      ensures forall t :: |Get(m, t)| == |Get(m0, t)|
      ensures forall t :: t !in SecondRefSet(dim) ==> Get(m, t) == Get(m0, t)
      ensures forall t, i :: t in SecondRefSet(dim) && 0 <= i < n ==> Get(m, t)[i] == SecondDerivRow(qp, elem, i, Slot(t))
    {
      m := m0;
      var i := 0;
      while i < n
        invariant i <= n
        invariant forall t :: |Get(m, t)| == |Get(m0, t)|
        invariant forall t :: t !in SecondRefSet(dim) ==> Get(m, t) == Get(m0, t)
        invariant forall t, r :: t in SecondRefSet(dim) && 0 <= r < i ==> Get(m, t)[r] == SecondDerivRow(qp, elem, r, Slot(t))
      {
        m := WriteSecondRow(m, i, qp, elem);
        i := i + 1;
      }
    }

    /** The reference derivatives the dimension switch writes are demanded. */
    lemma RefDemanded()
      requires dim <= 3
      ensures demand.dphiref ==> forall t :: t in FirstRefSet(dim) ==> t in Primal()
      ensures demand.d2phi ==> forall t :: t in SecondRefSet(dim) ==> t in Primal()
      ensures forall t :: t in FirstRefSet(dim) ==> t !in SecondRefSet(dim)
    {
    }

    /** Sizing the dual tables leaves the primal ones as they are. */
    lemma KeepPrimal(m1: Tables, m2: Tables, n: nat, q: nat, qp: seq<Point>, elem: Option<Elem>)
      requires dim <= 3
      requires forall t :: t !in DualDemanded(demand) ==> Get(m2, t) == Get(m1, t)
      ensures forall t :: t in Primal() ==> Get(m2, t) == Get(m1, t)
      ensures Lockstep(m1, Primal(), n) ==> Lockstep(m2, Primal(), n)
      ensures Rectangular(m1, Primal(), q) ==> Rectangular(m2, Primal(), q)
      ensures DerivsAt(m1, qp, elem) ==> DerivsAt(m2, qp, elem)
    {
      PrimalNotDual(demand, dim, family.isVector);
      DualDemandedIsDual(demand);
      forall t | t in FirstRefSet(dim) || t in SecondRefSet(dim)
        ensures Get(m2, t) == Get(m1, t)
      {
        assert !IsDual(t);
      }
    }

    /** The primal part of `init_shape_functions` on the tables `m0`: size them to `n` rows
        and `|qp|` points, then evaluate the reference derivatives the dimension calls for. */
    method ShapeTables(m0: Tables, n: nat, qp: seq<Point>, elem: Option<Elem>, ghost rows0: nat, ghost cols0: nat)
      returns (m: Tables)
      requires dim <= 3
      requires Lockstep(m0, Primal(), rows0)
      ensures forall t :: t !in Primal() ==> Get(m, t) == Get(m0, t)
      ensures Lockstep(m, Primal(), n)
      ensures forall t, i :: t in Primal() && !Evaluated(t) && 0 <= i < n ==>
                Get(m, t)[i] == SizedRow(m0, t, i, OldNQp(demand, dim, m0, n), |qp|)
      ensures DerivsAt(m, qp, elem)
      ensures Rectangular(m0, Primal(), cols0) && StillRectangular(demand, dim, |qp|, cols0, rows0, n) ==>
                Rectangular(m, Primal(), |qp|)
    {
      m := SizeTables(demand, dim, family.isVector, m0, n, |qp|, rows0, cols0);
      ghost var m1 := m;
      RefDemanded();
      // the dimension switch; `Dim` is 0 to 3 here
      if demand.dphiref {
        m := WriteFirstDerivs(m, n, qp, elem);
      }
      ghost var m2 := m;
      if demand.d2phi {
        m := WriteSecondDerivs(m, n, qp, elem);
      }
      assert forall t :: !Evaluated(t) ==> Get(m, t) == Get(m1, t);
      EvaluatedRectangular(m1, m, qp, elem);
    }

    /** Evaluating the reference derivatives keeps the demanded tables rectangular: every
        row written is one entry per point. */
    lemma EvaluatedRectangular(m1: Tables, m: Tables, qp: seq<Point>, elem: Option<Elem>)
      requires dim <= 3
      requires forall t :: !Evaluated(t) ==> Get(m, t) == Get(m1, t)
      requires DerivsAt(m, qp, elem)
      ensures Rectangular(m1, Primal(), |qp|) ==> Rectangular(m, Primal(), |qp|)
    {
      if Rectangular(m1, Primal(), |qp|) {
        forall t, i | t in Primal() && 0 <= i < |Get(m, t)|
          ensures |Get(m, t)[i]| == |qp|
        {
          if demand.dphiref && t in FirstRefSet(dim) {
            assert Get(m, t)[i] == DerivRow(qp, elem, i, Direction(t));
          } else if demand.d2phi && t in SecondRefSet(dim) {
            assert Get(m, t)[i] == SecondDerivRow(qp, elem, i, Slot(t));
          }
        }
      }
    }

    /** The tables `init_shape_functions` leaves: the primal ones sized and evaluated, then
        the dual ones sized. */
    method BuildTables(m0: Tables, n: nat, qp: seq<Point>, elem: Option<Elem>, ghost rows0: nat, ghost cols0: nat)
      returns (m: Tables)
      requires dim <= 3 && (demand.dual ==> demand.phi)
      requires Lockstep(m0, Primal(), rows0)
      ensures forall t :: t !in Primal() && t !in DualDemanded(demand) ==> Get(m, t) == Get(m0, t)
      ensures Lockstep(m, Primal(), n)
      ensures DerivsAt(m, qp, elem)
      ensures Rectangular(m0, Primal(), cols0) && StillRectangular(demand, dim, |qp|, cols0, rows0, n) ==>
                Rectangular(m, Primal(), |qp|)
      ensures Lockstep(m, DualDemanded(demand), n) && Rectangular(m, DualDemanded(demand), |qp|)
    {
      m := ShapeTables(m0, n, qp, elem, rows0, cols0);
      if demand.dual {
        ghost var m1 := m;
        m := DualTables(demand, m, n, |qp|);
        KeepPrimal(m1, m, n, |qp|, qp, elem);
      }
    }

    /** `init_dual_shape_functions(n_shapes, n_qp)`: nothing unless dual shapes are
        demanded, then `DualTables`. */
    method InitDualShapeFunctions(nShapes: nat, nQp: nat)
      modifies this`tables
      ensures !demand.dual ==> tables == old(tables)
      ensures forall t :: t !in DualDemanded(demand) ==> Get(tables, t) == Get(old(tables), t)
      ensures Lockstep(tables, DualDemanded(demand), nShapes)
      ensures Rectangular(tables, DualDemanded(demand), nQp)
    {
      if !demand.dual {
        return;
      }
      tables := DualTables(demand, tables, nShapes, nQp);
    }

    /** `init_shape_functions(qp, elem)`: size the demanded tables to
        `n_shape_functions()` x `qp.size()`, write the reference derivatives the dimension
        calls for, and size the dual tables. */
    method InitShapeFunctions(qp: seq<Point>, elem: Option<Elem>)
      requires Valid()
      modifies this`tables, this`rows, this`cols, this`events
      ensures Valid() && rows == NShapeFunctions() && cols == |qp|
      ensures events == old(events) + [InitShapes(qp)]
      ensures forall t :: t !in Primal() && t !in DualDemanded(demand) ==> Get(tables, t) == Get(old(tables), t)
      ensures ShapesAt(qp, elem)
      ensures old(Shaped()) && StillRectangular(demand, dim, |qp|, old(cols), old(rows), rows) ==> Shaped()
      ensures Lockstep(tables, DualDemanded(demand), rows) && Rectangular(tables, DualDemanded(demand), cols)
    {
      var n := NShapeFunctions();
      tables := BuildTables(tables, n, qp, elem, rows, cols);
      rows, cols := n, |qp|;
      events := events + [InitShapes(qp)];
    }

    // -------------------------------------------------------------------------
    // reinit

    /** The call as the cache decisions see it. */
    function CallOf(elem: Option<Elem>, pts: Option<seq<Point>>): Call
      reads this`qrule
    {
      Call(elem, pts.Some?, qrule != null && qrule.needsReinit)
    }

    /** The points the shapes are evaluated at. */
    function PointsUsed(pts: Option<seq<Point>>): seq<Point>
      reads this`qrule, qrule
      requires pts.Some? || qrule != null
    {
      if pts.Some? then pts.value else qrule.points
    }

    /** The weights handed to `compute_map`: the given ones, unit weights for explicit points
        without weights, or the rule's. */
    function WeightsUsed(pts: Option<seq<Point>>, weights: Option<seq<real>>): seq<real>
      reads this`qrule, qrule
      requires pts.Some? || qrule != null
    {
      if pts.Some? then (if weights.Some? then weights.value else Repeat(1.0, |pts.value|))
      else qrule.weights
    }

    /** What `reinit` leaves in the attached rule: the rule built for the cell when the
        rule's points are used; one point at the origin with weight 1 (SCALAR) or nothing
        when there is neither an element nor points; otherwise the rule as it was. */
    twostate predicate RuleAfter(elem: Option<Elem>, pts: Option<seq<Point>>)
      reads this`qrule, qrule
    {
      && qrule == old(qrule)
      && (pts.None? && elem.Some? ==>
            qrule != null
            && qrule.elemType == elem.value.elemType && qrule.pLevel == elem.value.pLevel
            && qrule.points == qrule.build(elem.value.elemType, elem.value.pLevel).points
            && qrule.weights == qrule.build(elem.value.elemType, elem.value.pLevel).weights)
      && (pts.None? && elem.None? ==>
            qrule != null
            && qrule.points == (if family.isScalar then [Origin] else [])
            && qrule.weights == (if family.isScalar then [1.0] else [])
            && qrule.elemType == old(qrule.elemType) && qrule.pLevel == old(qrule.pLevel))
      && (pts.Some? && qrule != null ==>
            qrule.points == old(qrule.points) && qrule.weights == old(qrule.weights)
            && qrule.elemType == old(qrule.elemType) && qrule.pLevel == old(qrule.pLevel))
    }

    /** The element branch with explicit points: take the element's type and p-level, map
        the reference points and size the tables for them. */
    method ReinitAtPoints(e: Elem, qp: seq<Point>)
      requires Valid()
      modifies this`elemType, this`pLevel, this`shapesOnQuadrature, this`events, this`tables, this`rows, this`cols
      ensures Valid() && qrule == old(qrule)
      ensures State() == old(State()).(elemType := e.elemType, pLevel := e.pLevel, onQuadrature := false)
      ensures events == old(events) + InitEvents(Explicit, qp)
      ensures rows == NShapeFunctions() && cols == |qp| && ShapesAt(qp, Some(e))
      ensures old(Shaped()) && |qp| > 0 ==> Shaped()
    {
      elemType, pLevel := e.elemType, e.pLevel;
      // the shapes will not correspond to the rule; init_shape_functions does not read the flag
      shapesOnQuadrature := false;
      events := events + [InitReferenceMap(qp)];
      InitShapeFunctions(qp, Some(e));
    }

    /** Map the rule's points for `e` and size the tables for them. */
    method InitOnRule(e: Elem)
      requires Valid() && qrule != null
      requires elemType == e.elemType && pLevel == e.pLevel
      modifies this`events, this`tables, this`rows, this`cols
      ensures Valid()
      ensures events == old(events) + InitEvents(Rebuild, qrule.points)
      ensures rows == ops.nDofs(e.elemType, order + e.pLevel) && cols == NQuadraturePoints()
      ensures ShapesAt(qrule.points, Some(e))
      ensures old(Shaped()) && |qrule.points| > 0 ==> Shaped()
    {
      events := events + [InitReferenceMap(qrule.points)];
      InitShapeFunctions(qrule.points, Some(e));
    }

    /** A new cell type or p-level, or tables not on the rule: take the cell's type and
        p-level, rebuild, and cache the nodes when the family's shapes depend on them. */
    method RebuildOnRule(e: Elem)
      requires Valid() && qrule != null
      modifies this`elemType, this`pLevel, this`cachedNodes, this`events, this`tables, this`rows, this`cols
      ensures Valid() && elemType == e.elemType && pLevel == e.pLevel
      ensures cachedNodes == if family.shapesNeedReinit then e.nodes else old(cachedNodes)
      ensures events == old(events) + InitEvents(Rebuild, qrule.points)
      ensures rows == ops.nDofs(e.elemType, order + e.pLevel) && cols == NQuadraturePoints()
      ensures ShapesAt(qrule.points, Some(e))
      ensures old(Shaped()) && |qrule.points| > 0 ==> Shaped()
    {
      elemType, pLevel := e.elemType, e.pLevel;
      InitOnRule(e);
      if family.shapesNeedReinit {
        cachedNodes := e.nodes;
      }
    }

    /** The same cell on the rule: compare the nodes with the cached ones and, when they no
        longer fit and the family's shapes depend on them, rebuild and cache them. */
    method SameCellOnRule(e: Elem) returns (fit: bool)
      requires Valid() && qrule != null
      requires elemType == e.elemType && pLevel == e.pLevel
      modifies this`cachedNodes, this`events, this`tables, this`rows, this`cols
      ensures Valid()
      ensures fit == NodesStillFit(old(cachedNodes), e.nodes, same)
      ensures var refit := family.shapesNeedReinit && !fit;
              && cachedNodes == (if refit then e.nodes else old(cachedNodes))
              && events == old(events) + InitEvents(if refit then Refit else Reuse, qrule.points)
              && (refit ==>
                    rows == ops.nDofs(e.elemType, order + e.pLevel) && cols == NQuadraturePoints()
                    && ShapesAt(qrule.points, Some(e)))
              && (!refit ==> tables == old(tables) && rows == old(rows) && cols == old(cols))
      ensures old(Shaped()) && |qrule.points| > 0 ==> Shaped()
    {
      fit := CachedNodesStillFit(cachedNodes, e.nodes, same);
      if family.shapesNeedReinit && !fit {
        InitOnRule(e);
        cachedNodes := e.nodes;
      }
    }

    /** The element branch on the attached rule: reinitialise the rule for the cell, then
        rebuild, refit or reuse the tables as `ChoosePath` says.  `fit` is whether the cached
        nodes still fit. */
    method ReinitOnRule(e: Elem) returns (fit: bool)
      requires Valid() && qrule != null
      modifies this`elemType, this`pLevel, this`shapesOnQuadrature, this`cachedNodes, this`events
      modifies this`tables, this`rows, this`cols, qrule
      ensures Valid()
      ensures qrule.elemType == e.elemType && qrule.pLevel == e.pLevel
      ensures qrule.points == qrule.build(e.elemType, e.pLevel).points
      ensures qrule.weights == qrule.build(e.elemType, e.pLevel).weights
      ensures var path := ChoosePath(Cfg(), old(State()), Call(Some(e), false, qrule.needsReinit));
              && fit == (path == Reuse)
              && elemType == e.elemType && pLevel == e.pLevel && shapesOnQuadrature
              && cachedNodes == (if path == Refit || (path == Rebuild && family.shapesNeedReinit)
                                 then e.nodes else old(cachedNodes))
              && events == old(events) + InitEvents(path, qrule.points)
              && (RunsInit(path) ==>
                    rows == ops.nDofs(e.elemType, order + e.pLevel) && cols == NQuadraturePoints()
                    && ShapesAt(qrule.points, Some(e)))
              && (!RunsInit(path) ==> tables == old(tables) && rows == old(rows) && cols == old(cols))
      ensures old(Shaped()) && |qrule.points| > 0 ==> Shaped()
    {
      qrule.Init(e.elemType, e.pLevel);
      if qrule.needsReinit {
        shapesOnQuadrature := false;
      }
      fit := ShapesOnRule(e);
    }

    /** The rest of the element branch on the rule, once the rule is set up for the cell:
        rebuild when the cell type or p-level changed or the tables are not on the rule,
        otherwise refit or reuse; the tables then correspond to the rule. */
    method ShapesOnRule(e: Elem) returns (fit: bool)
      requires Valid() && qrule != null
      modifies this`elemType, this`pLevel, this`shapesOnQuadrature, this`cachedNodes, this`events
      modifies this`tables, this`rows, this`cols
      ensures Valid()
      ensures var path := ChoosePath(Cfg(), old(State()), Call(Some(e), false, false));
              && fit == (path == Reuse)
              && elemType == e.elemType && pLevel == e.pLevel && shapesOnQuadrature
              && cachedNodes == (if path == Refit || (path == Rebuild && family.shapesNeedReinit)
                                 then e.nodes else old(cachedNodes))
              && events == old(events) + InitEvents(path, qrule.points)
              && (RunsInit(path) ==>
                    rows == ops.nDofs(e.elemType, order + e.pLevel) && cols == NQuadraturePoints()
                    && ShapesAt(qrule.points, Some(e)))
              && (!RunsInit(path) ==> tables == old(tables) && rows == old(rows) && cols == old(cols))
      ensures old(Shaped()) && |qrule.points| > 0 ==> Shaped()
    {
      ghost var path := ChoosePath(Cfg(), State(), Call(Some(e), false, false));
      fit := false;
      var rebuild := elemType != e.elemType || pLevel != e.pLevel || !shapesOnQuadrature;
      // the tables will correspond to the rule; nothing below reads the flag
      shapesOnQuadrature := true;
      if rebuild {
        assert path == Rebuild;
        RebuildOnRule(e);
      } else {
        fit := SameCellOnRule(e);
        assert path == if fit then Reuse else if family.shapesNeedReinit then Refit else Recompute;
      }
    }

    /** The branch without an element: no type, p-level 0, and the tables sized for the
        given points or, without them, for one point at the origin (SCALAR) or none. */
    method ReinitWithoutElem(pts: Option<seq<Point>>) returns (qp: seq<Point>)
      requires Valid()
      requires pts.None? ==> qrule != null
      modifies this`elemType, this`pLevel, this`events, this`tables, this`rows, this`cols, qrule
      ensures Valid() && qrule == old(qrule)
      ensures State() == old(State()).(elemType := InvalidElem, pLevel := 0)
      ensures pts.Some? ==> qp == pts.value
      ensures pts.None? ==>
                qp == qrule.points && qrule.points == (if family.isScalar then [Origin] else [])
                && qrule.weights == (if family.isScalar then [1.0] else [])
      ensures qrule != null ==> qrule.elemType == old(qrule.elemType) && qrule.pLevel == old(qrule.pLevel)
      ensures pts.Some? && qrule != null ==>
                qrule.points == old(qrule.points) && qrule.weights == old(qrule.weights)
      ensures events == old(events) + InitEvents(NullElem, qp)
      ensures rows == NShapeFunctions() && cols == |qp| && ShapesAt(qp, None)
      ensures old(Shaped()) && |qp| > 0 ==> Shaped()
    {
      elemType, pLevel := InvalidElem, 0;
      if pts.None? {
        if family.isScalar {
          qrule.points, qrule.weights := [Origin], [1.0];
        } else {
          qrule.points, qrule.weights := [], [];
        }
        qp := qrule.points;
      } else {
        qp := pts.value;
      }
      InitShapeFunctions(qp, None);
    }

    /** The tail of `reinit`: compute the map with the given, unit or rule weights, then,
        unless the cached nodes still fit, the shape values and, when demanded, the dual
        coefficients (once) and the dual shapes.  `s0` and `call` are the cache before the
        call and the call, which `fit` and the pending flag come from. */
    method ComputeAfterInit(elem: Option<Elem>, pts: Option<seq<Point>>, weights: Option<seq<real>>,
                            qp: seq<Point>, fit: bool, ghost s0: CacheState, ghost call: Call)
      requires pts.None? ==> qrule != null
      requires call.elem == elem && fit == (ChoosePath(Cfg(), s0, call) == Reuse)
      requires calculateDualCoeff == s0.dualCoeffPending
      requires elem.None? ==> !(demand.dual && calculateDualCoeff)
      modifies this`events, this`calculateDualCoeff
      ensures events == old(events) + [ComputeMap(WeightsUsed(pts, weights))] + ShapeEvents(Cfg(), s0, call, qp)
      ensures calculateDualCoeff == Next(Cfg(), s0, call).dualCoeffPending
    {
      if pts.Some? {
        if weights.Some? {
          events := events + [ComputeMap(weights.value)];
        } else {
          events := events + [ComputeMap(Repeat(1.0, |pts.value|))];
        }
      } else {
        events := events + [ComputeMap(qrule.weights)];
      }
      if !fit {
        events := events + [ComputeShapes(qp)];
        if demand.dual {
          if calculateDualCoeff {
            events := events + [DualCoefficients(elem.value.elemType, elem.value.pLevel)];
            calculateDualCoeff := false;
          }
          events := events + [DualShapes];
        }
      }
    }

    /** The part of `reinit` before the map is computed: the branch on the element and the
        points.  `fit` is whether the cached nodes still fit. */
    method ReinitShapes(elem: Option<Elem>, pts: Option<seq<Point>>) returns (qp: seq<Point>, fit: bool)
      requires Valid()
      requires pts.None? ==> qrule != null
      modifies this`elemType, this`pLevel, this`shapesOnQuadrature, this`cachedNodes, this`events
      modifies this`tables, this`rows, this`cols, qrule
      ensures Valid() && qp == PointsUsed(pts)
      ensures var path := ChoosePath(Cfg(), old(State()), CallOf(elem, pts));
              && fit == (path == Reuse)
              && State() == Next(Cfg(), old(State()), CallOf(elem, pts)).(dualCoeffPending := old(calculateDualCoeff))
              && events == old(events) + InitEvents(path, qp)
              && (RunsInit(path) ==> rows == NShapeFunctions() && cols == |qp| && ShapesAt(qp, elem))
              && (!RunsInit(path) ==> tables == old(tables) && rows == old(rows) && cols == old(cols))
      ensures old(Shaped()) && |qp| > 0 ==> Shaped()
      ensures RuleAfter(elem, pts)
    {
      fit := false;
      if elem.Some? {
        if pts.Some? {
          qp := pts.value;
          ReinitAtPoints(elem.value, qp);
        } else {
          fit := ReinitOnRule(elem.value);
          qp := qrule.points;
        }
      } else {
        qp := ReinitWithoutElem(pts);
      }
    }

    /** `reinit(elem, pts, weights)`.  The cache follows `Next`, the calls made are those of
        `ReinitEvents`, and the tables are rebuilt exactly on the paths that run
        `init_shape_functions`.  Without an element or points the rule is replaced by one
        point at the origin with weight 1 for SCALAR families and by nothing otherwise. */
    method Reinit(elem: Option<Elem>, pts: Option<seq<Point>>, weights: Option<seq<real>>)
      requires Valid()
      requires pts.None? ==> qrule != null
      requires elem.None? ==> !(demand.dual && calculateDualCoeff)
      modifies this, qrule
      ensures Valid() && qrule == old(qrule)
      ensures State() == Next(Cfg(), old(State()), CallOf(elem, pts))
      ensures events == old(events)
                        + ReinitEvents(Cfg(), old(State()), CallOf(elem, pts), PointsUsed(pts), WeightsUsed(pts, weights))
      ensures RunsInit(ChoosePath(Cfg(), old(State()), CallOf(elem, pts))) ==>
                rows == NShapeFunctions() && cols == |PointsUsed(pts)| && ShapesAt(PointsUsed(pts), elem)
      ensures !RunsInit(ChoosePath(Cfg(), old(State()), CallOf(elem, pts))) ==>
                tables == old(tables) && rows == old(rows) && cols == old(cols)
      ensures old(Shaped()) && |PointsUsed(pts)| > 0 ==> Shaped()
      ensures RuleAfter(elem, pts)
    {
      ghost var s0, call := State(), CallOf(elem, pts);
      var qp, fit := ReinitShapes(elem, pts);
      ComputeAfterInit(elem, pts, weights, qp, fit, s0, call);
      ReinitEventsAfter(old(events), Cfg(), s0, call, qp, WeightsUsed(pts, weights));
      assert qp == PointsUsed(pts) && call == CallOf(elem, pts);
    }
  }
}

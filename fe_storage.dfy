/** The shape-function tables an FE object keeps (`phi`, `dphi`, `dphidxi`, `d2phi`, ...),
    which of them a computation demands, and how `init_shape_functions` dispatches the
    reference-derivative slots by dimension.  A table is a vector of rows, one row per
    shape function, one entry per quadrature point; entry values are abstract reals. */
module FeStorage {
  import opened Geometry

  datatype Table =
    | Phi
    | DPhi | DPhidx | DPhidy | DPhidz
    | DPhidxi | DPhideta | DPhidzeta
    | CurlPhi | DivPhi
    | D2Phi | D2Phidx2 | D2Phidxdy | D2Phidxdz | D2Phidy2 | D2Phidydz | D2Phidz2
    | D2Phidxi2 | D2Phidxideta | D2Phideta2 | D2Phidxidzeta | D2Phidetadzeta | D2Phidzeta2
    | DualPhi | DualDPhi | DualD2Phi

  /** All tables of one FE object; a table that was never sized is an empty vector. */
  type Tables = map<Table, seq<seq<real>>>

  function Get(m: Tables, t: Table): seq<seq<real>> {
    if t in m then m[t] else []
  }

  /** The `calculate_*` flags. */
  datatype Demand = Demand(phi: bool, dphi: bool, dphiref: bool, d2phi: bool, curl: bool, div: bool, dual: bool)

  // ---------------------------------------------------------------------------
  // Reference-derivative slots

  /** The table of d/dxi_j: xi, eta, zeta. */
  function FirstRef(j: nat): Table
    requires j < 3
  {
    if j == 0 then DPhidxi else if j == 1 then DPhideta else DPhidzeta
  }

  /** The table of d^2/(dxi_a dxi_b), named by its pair of reference directions. */
  function SecondRef(a: nat, b: nat): Table
    requires a <= b < 3
  {
    match (a, b)
    case (0, 0) => D2Phidxi2
    case (0, 1) => D2Phidxideta
    case (1, 1) => D2Phideta2
    case (0, 2) => D2Phidxidzeta
    case (1, 2) => D2Phidetadzeta
    case (_, _) => D2Phidzeta2
  }

  /** The table `shape_second_deriv` slot `k` is written to: xi^2, xi eta, eta^2, xi zeta,
      eta zeta, zeta^2. */
  function SecondSlot(k: nat): Table
    requires k < 6
  {
    match k
    case 0 => D2Phidxi2
    case 1 => D2Phidxideta
    case 2 => D2Phideta2
    case 3 => D2Phidxidzeta
    case 4 => D2Phidetadzeta
    case _ => D2Phidzeta2
  }

  /** The slot of the pair a <= b: the pairs are ordered by b, then by a. */
  function SlotIndex(a: nat, b: nat): nat
    requires a <= b < 3
  {
    if b == 0 then 0 else if b == 1 then a + 1 else a + 3
  }

  /** How many second-derivative slots a dimension has: one per pair a <= b < dim. */
  function SlotCount(dim: nat): nat
    requires dim <= 3
  {
    if dim == 0 then 0 else if dim == 1 then 1 else if dim == 2 then 3 else 6
  }

  function FirstRefTables(dim: nat): (r: seq<Table>)
    requires dim <= 3
    ensures |r| == dim
  {
    seq(dim, j requires 0 <= j < dim => FirstRef(j))
  }

  function SecondRefTables(dim: nat): (r: seq<Table>)
    requires dim <= 3
    ensures |r| == SlotCount(dim)
  {
    seq(SlotCount(dim), k requires 0 <= k < SlotCount(dim) => SecondSlot(k))
  }

  /** The tables the per-dimension `switch` writes. */
  datatype Slots = Slots(first: seq<Table>, second: seq<Table>)

  /** The `switch (Dim)` of `init_shape_functions`: 0D writes nothing, 1D/2D/3D write one
      first-derivative table per direction and one second-derivative table per pair of
      directions; any other dimension is the "Invalid dimension" error. */
  function Dispatch(dim: nat): (r: Option<Slots>)
    ensures r.Some? <==> dim <= 3
    ensures r.Some? ==> |r.value.first| == dim && |r.value.second| == SlotCount(dim)
    ensures r.Some? ==> forall j :: 0 <= j < dim ==> r.value.first[j] == FirstRef(j)
    ensures r.Some? ==> forall a, b :: 0 <= a <= b < dim ==>
              SlotIndex(a, b) < |r.value.second| && r.value.second[SlotIndex(a, b)] == SecondRef(a, b)
  {
    if dim > 3 then None else Some(Slots(FirstRefTables(dim), SecondRefTables(dim)))
  }

  /** Every second-derivative slot is one pair's table, and distinct slots hold distinct tables. */
  lemma SlotsDistinct(dim: nat)
    requires dim <= 3
    ensures forall k, l :: 0 <= k < l < SlotCount(dim) ==> SecondRefTables(dim)[k] != SecondRefTables(dim)[l]
    ensures forall j, l :: 0 <= j < l < dim ==> FirstRefTables(dim)[j] != FirstRefTables(dim)[l]
  {
  }

  /** The reference direction of a first-derivative table. */
  function Direction(t: Table): nat {
    if t == DPhidxi then 0 else if t == DPhideta then 1 else if t == DPhidzeta then 2 else 3
  }

  /** The slot of a second-derivative table. */
  function Slot(t: Table): nat {
    match t
    case D2Phidxi2 => 0
    case D2Phidxideta => 1
    case D2Phideta2 => 2
    case D2Phidxidzeta => 3
    case D2Phidetadzeta => 4
    case D2Phidzeta2 => 5
    case _ => 6
  }

  // ---------------------------------------------------------------------------
  // Which tables are demanded

  /** The reference first-derivative tables up to the dimension. */
  function FirstRefSet(dim: nat): set<Table>
    requires dim <= 3
  {
    if dim == 0 then {}
    else if dim == 1 then {DPhidxi}
    else if dim == 2 then {DPhidxi, DPhideta}
    else {DPhidxi, DPhideta, DPhidzeta}
  }

  /** The reference second-derivative tables up to the dimension. */
  function SecondRefSet(dim: nat): set<Table>
    requires dim <= 3
  {
    if dim == 0 then {}
    else if dim == 1 then {D2Phidxi2}
    else if dim == 2 then {D2Phidxi2, D2Phidxideta, D2Phideta2}
    else {D2Phidxi2, D2Phidxideta, D2Phideta2, D2Phidxidzeta, D2Phidetadzeta, D2Phidzeta2}
  }

  /** The first-derivative list and set of the dispatch hold the same tables. */
  lemma FirstSlotSet(dim: nat)
    requires dim <= 3
    ensures forall j :: 0 <= j < dim ==> FirstRefTables(dim)[j] in FirstRefSet(dim)
    ensures forall t :: t in FirstRefSet(dim) ==> exists j :: 0 <= j < dim && FirstRefTables(dim)[j] == t
  {
    forall t | t in FirstRefSet(dim)
      ensures exists j :: 0 <= j < dim && FirstRefTables(dim)[j] == t
    {
      var j := if t == DPhidxi then 0 else if t == DPhideta then 1 else 2;
      assert FirstRefTables(dim)[j] == t;
    }
  }

  /** The second-derivative list and set of the dispatch hold the same tables. */
  lemma SecondSlotSet(dim: nat)
    requires dim <= 3
    ensures forall k :: 0 <= k < SlotCount(dim) ==> SecondRefTables(dim)[k] in SecondRefSet(dim)
    ensures forall t :: t in SecondRefSet(dim) ==> exists k :: 0 <= k < SlotCount(dim) && SecondRefTables(dim)[k] == t
  {
    forall k | 0 <= k < SlotCount(dim)
      ensures SecondRefTables(dim)[k] in SecondRefSet(dim)
    {
      assert SecondRefTables(dim)[k] == SecondSlot(k);
    }
    forall t | t in SecondRefSet(dim)
      ensures exists k :: 0 <= k < SlotCount(dim) && SecondRefTables(dim)[k] == t
    {
      var k := Slot(t);
      assert SecondRefTables(dim)[k] == t;
    }
  }

  /** `Direction` and `Slot` name the direction and the slot each table is written for. */
  lemma DirectionsAndSlots(dim: nat)
    requires dim <= 3
    ensures forall j :: 0 <= j < dim ==> FirstRef(j) in FirstRefSet(dim) && Direction(FirstRef(j)) == j
    ensures forall t :: t in FirstRefSet(dim) <==> Direction(t) < dim
    ensures forall k :: 0 <= k < SlotCount(dim) ==> SecondSlot(k) in SecondRefSet(dim) && Slot(SecondSlot(k)) == k
    ensures forall t :: t in SecondRefSet(dim) <==> Slot(t) < SlotCount(dim)
  {
    forall t ensures t in FirstRefSet(dim) <==> Direction(t) < dim {
      if Direction(t) < dim {
        assert t == FirstRef(Direction(t));
      }
    }
    forall t ensures t in SecondRefSet(dim) <==> Slot(t) < SlotCount(dim) {
      if Slot(t) < SlotCount(dim) {
        assert t == SecondSlot(Slot(t));
      }
    }
  }

  /** The switch as `Dispatch` lists it and as the `FE` class writes it agree: the class writes
      `FirstRef(j)` for each direction and `SecondSlot(k)` for each slot, which are the
      entries of `Dispatch`'s lists in order, and the lists hold exactly the demanded
      reference tables of the dimension. */
  lemma DispatchMatchesWrites(dim: nat)
    requires dim <= 3
    ensures Dispatch(dim).Some?
    ensures forall j :: 0 <= j < dim ==> Dispatch(dim).value.first[j] == FirstRef(j)
    ensures forall k :: 0 <= k < SlotCount(dim) ==> Dispatch(dim).value.second[k] == SecondSlot(k)
    ensures forall t :: t in Dispatch(dim).value.first <==> t in FirstRefSet(dim)
    ensures forall t :: t in Dispatch(dim).value.second <==> t in SecondRefSet(dim)
  {
    FirstSlotSet(dim);
    SecondSlotSet(dim);
  }

  /** `phi`. */
  function PhiGroup(d: Demand): set<Table> {
    if d.phi then {Phi} else {}
  }

  /** `dphi` and its physical components. */
  function DPhiGroup(d: Demand): set<Table> {
    if d.dphi then {DPhi, DPhidx, DPhidy, DPhidz} else {}
  }

  /** The reference first derivatives up to the dimension. */
  function RefGroup(d: Demand, dim: nat): set<Table>
    requires dim <= 3
  {
    if d.dphiref then FirstRefSet(dim) else {}
  }

  /** `curl_phi` and `div_phi`, kept for vector-valued families only. */
  function CurlGroup(d: Demand, vector: bool): set<Table> {
    if d.curl && vector then {CurlPhi} else {}
  }

  function DivGroup(d: Demand, vector: bool): set<Table> {
    if d.div && vector then {DivPhi} else {}
  }

  /** `d2phi`, its physical components and the reference second derivatives. */
  function D2Group(d: Demand, dim: nat): set<Table>
    requires dim <= 3
  {
    if d.d2phi
    then {D2Phi, D2Phidx2, D2Phidxdy, D2Phidxdz, D2Phidy2, D2Phidydz, D2Phidz2} + SecondRefSet(dim)
    else {}
  }

  /** The groups sized first, each but the last led by a check of its first table. */
  function FirstOrderGroups(d: Demand, dim: nat): set<Table>
    requires dim <= 3
  {
    PhiGroup(d) + DPhiGroup(d) + RefGroup(d, dim)
  }

  /** The groups sized after them. */
  function LaterGroups(d: Demand, dim: nat, vector: bool): set<Table>
    requires dim <= 3
  {
    CurlGroup(d, vector) + DivGroup(d, vector) + D2Group(d, dim)
  }

  /** The primal tables `init_shape_functions` sizes. */
  function Demanded(d: Demand, dim: nat, vector: bool): set<Table>
    requires dim <= 3
  {
    FirstOrderGroups(d, dim) + LaterGroups(d, dim, vector)
  }

  /** The dual tables `init_dual_shape_functions` sizes. */
  function DualDemanded(d: Demand): set<Table> {
    if !d.dual then {}
    else {DualPhi} + (if d.dphi then {DualDPhi} else {}) + (if d.d2phi then {DualD2Phi} else {})
  }

  predicate IsDual(t: Table) {
    t == DualPhi || t == DualDPhi || t == DualD2Phi
  }

  /** The table whose row count decides whether the sizing is redundant: the first
      demanded of `phi`, `dphi`, `dphidxi` (from 1D on) and `d2phi`. */
  function Leader(d: Demand, dim: nat): Option<Table> {
    if d.phi then Some(Phi)
    else if d.dphi then Some(DPhi)
    else if d.dphiref && dim > 0 then Some(DPhidxi)
    else if d.d2phi then Some(D2Phi)
    else None
  }

  /** The leader is itself demanded. */
  lemma LeaderDemanded(d: Demand, dim: nat, vector: bool)
    requires dim <= 3
    ensures Leader(d, dim).Some? ==> Leader(d, dim).value in Demanded(d, dim, vector)
  {
  }

  /** Primal and dual tables never overlap. */
  lemma PrimalNotDual(d: Demand, dim: nat, vector: bool)
    requires dim <= 3
    ensures forall t :: t in Demanded(d, dim, vector) ==> !IsDual(t)
  {
    forall t | t in Demanded(d, dim, vector)
      ensures !IsDual(t)
    {
      assert t in PhiGroup(d) || t in DPhiGroup(d) || t in RefGroup(d, dim)
             || t in CurlGroup(d, vector) || t in DivGroup(d, vector) || t in D2Group(d, dim);
    }
  }

  lemma DualDemandedIsDual(d: Demand)
    ensures forall t :: t in DualDemanded(d) ==> IsDual(t)
  {
  }

  // ---------------------------------------------------------------------------
  // Table shapes

  /** All tables of `ts` have `rows` rows (they are resized in lockstep). */
  predicate Lockstep(m: Tables, ts: set<Table>, rows: nat) {
    forall t {:trigger Get(m, t)} :: t in ts ==> |Get(m, t)| == rows
  }

  /** The tables outside `ts` are empty vectors. */
  predicate EmptyOutside(m: Tables, ts: set<Table>) {
    forall t {:trigger Get(m, t)} :: t !in ts ==> Get(m, t) == []
  }

  /** Every row of every table of `ts` has `cols` entries. */
  predicate Rectangular(m: Tables, ts: set<Table>, cols: nat) {
    forall t, i {:trigger Get(m, t)[i]} :: t in ts && 0 <= i < |Get(m, t)| ==> |Get(m, t)[i]| == cols
  }

  /** Row `i` of table `t`, or the empty row a `resize` would add. */
  function RowOrEmpty(m: Tables, t: Table, i: nat): seq<real> {
    if i < |Get(m, t)| then Get(m, t)[i] else []
  }

  // ---------------------------------------------------------------------------
  // The `resize` calls, one table set at a time

  /** `t.resize(n)` for every table `t` of `ts`. */
  function ResizeRows(m: Tables, ts: set<Table>, n: nat): (r: Tables)
    ensures forall t :: Get(r, t) == if t in ts then Resize(Get(m, t), n, []) else Get(m, t)
  {
    map t | t in m.Keys + ts :: if t in ts then Resize(Get(m, t), n, []) else m[t]
  }

  /** `t[i].resize(q)` for every table `t` of `ts` that has a row `i`. */
  function ResizeRowEach(m: Tables, ts: set<Table>, i: nat, q: nat): (r: Tables)
    ensures forall t :: Get(r, t)
                     == if t in ts && i < |Get(m, t)| then Get(m, t)[i := Resize(Get(m, t)[i], q, 0.0)] else Get(m, t)
  {
    map t | t in m.Keys :: if t in ts && i < |m[t]| then m[t][i := Resize(m[t][i], q, 0.0)] else m[t]
  }

  /** Overwrites row `i` of table `t`. */
  function SetRow(m: Tables, t: Table, i: nat, row: seq<real>): (r: Tables)
    requires i < |Get(m, t)|
    ensures forall u :: Get(r, u) == if u == t then Get(m, t)[i := row] else Get(m, u)
  {
    m[t := m[t][i := row]]
  }
}

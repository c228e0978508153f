# libMesh FE bookkeeping and 3D nodal quadrature, in Dafny

This project models two pieces of libMesh.

**The finite-element shape-function engine `FE<Dim,T>`** (`src/fe/fe.C`), in the part that
decides *whether* and *how much* to recompute:

- `attach_quadrature_rule`, `n_shape_functions` and `n_quadrature_points`;
- `dofs_on_side` and `dofs_on_edge`: the local dof numbers of the nodes on one side or edge;
- the cache that `reinit` keeps: `elem_type`, `_p_level`, `shapes_on_quadrature`,
  `cached_nodes` and `calculate_dual_coeff`, and the calls it makes from it;
- `init_shape_functions`: the sizing of the demanded tables, with its
  `do { ... break; } while (false)` short-circuit, and the per-dimension writes of the
  reference derivatives in the fixed order of the second-derivative slots;
- `init_dual_shape_functions`.

**`QNodal::init_3D`** (`src/quadrature/quadrature_nodal_3D.C`): the nodal (mass-lumping) rule
for each 3D cell type. The rule is borrowed from the trapezoidal rule for linear cells and
from the Simpson rule for quadratic cells, with PYRAMID13 truncated to 13 entries. PRISM15 and
HEX20 get hand-derived rational tables. Every other type is an error.

Numeric values are abstract throughout:

- table entries are `real`s;
- the family's closed forms (`n_dofs`, `shape_deriv`, `shape_second_deriv`) are given functions;
- the point comparison `relative_fuzzy_equals(., ., 1e-13)` is a given relation;
- the trapezoidal and Simpson rules are given functions from cell type to rule;
- the geometric map and the value computations are recorded, in order, as an event log on
  the FE object.

The modules follow the program:

- `Geometry`: points, cell types, the element, and `std::vector::resize`.
- `Quadrature`: the attached rule object.
- `QuadratureNodal3D`: `init_3D` and the two hand-derived tables.
- `FeDofs`: `dofs_on_side` and `dofs_on_edge`.
- `FeStorage`: the tables, the `calculate_*` flags, which tables are demanded, and the
  dimension dispatch.
- `FeCache`: the decisions of `reinit`, as pure functions of the cache state and the call,
  with the properties the design relies on.
- `Fe`: the class `FE`, whose methods are proved to follow `FeCache` and to leave the tables
  in the promised shape.

`n_shape_functions()` and `n_quadrature_points()` are the one-line functions
`Fe.FE.NShapeFunctions` and `Fe.FE.NQuadraturePoints`; the latter is the attached rule's
`n_points()`, `Quadrature.QBase.NPoints`. The first two are used in the contracts of the
methods below (the row count of the rebuilt tables, and their row length on the quadrature
rule) and carry no contract of their own.

`calculate_dual_coeff` is cleared after the first computation of the dual coefficients
(`src/fe/fe.C:324`) and nothing in `src/fe/fe.C` sets it again. A later `reinit` on a cell of
another type or p-level therefore computes its dual shapes from the coefficients of the first
cell; the model keeps this behaviour (`FeCache.DualCoefficientsKeptOnNewCell`).

## Model

| member | source | states |
|---|---|---|
| Geometry.Resize | src/quadrature/quadrature_nodal_3D.C:118-119 | `resize(n)` yields exactly `n` entries; it keeps the common prefix and pads with the default value |
| Quadrature.QBase.Init | src/fe/fe.C:185 | after `qrule->init(type, p_level)` the rule records the cell and holds the points and weights built for it |
| QuadratureNodal3D.Prism15Points | src/quadrature/quadrature_nodal_3D.C:53-60 | the PRISM15 rule has 15 points |
| QuadratureNodal3D.Prism15Weights | src/quadrature/quadrature_nodal_3D.C:65-72 | the PRISM15 rule has 15 weights |
| QuadratureNodal3D.Hex20Points | src/quadrature/quadrature_nodal_3D.C:83-90 | the HEX20 rule has 20 points |
| QuadratureNodal3D.Hex20Weights | src/quadrature/quadrature_nodal_3D.C:95-99 | the HEX20 rule has 20 weights |
| QuadratureNodal3D.Hex20WeightClasses | src/quadrature/quadrature_nodal_3D.C:95-99 | the HEX20 weights are 8 vertex weights 7/31 followed by 12 edge weights 16/31 |
| QuadratureNodal3D.Hex20Weights_SumAndSign | src/quadrature/quadrature_nodal_3D.C:95-99 | the HEX20 weights add up to 8, the volume of [-1,1]^3, and each is positive |
| QuadratureNodal3D.Hex20FirstMoments | src/quadrature/quadrature_nodal_3D.C:79-99 | the HEX20 rule integrates x, y and z to 0, as over [-1,1]^3 |
| QuadratureNodal3D.Hex20MomentX | src/quadrature/quadrature_nodal_3D.C:83-99 | the weighted sum of the x coordinates of the HEX20 points is 0 |
| QuadratureNodal3D.Hex20MomentY | src/quadrature/quadrature_nodal_3D.C:83-99 | the weighted sum of the y coordinates of the HEX20 points is 0 |
| QuadratureNodal3D.Hex20MomentZ | src/quadrature/quadrature_nodal_3D.C:83-99 | the weighted sum of the z coordinates of the HEX20 points is 0 |
| QuadratureNodal3D.Prism15WeightClasses | src/quadrature/quadrature_nodal_3D.C:65-72 | the PRISM15 weights are 6 x 1/34, 3 x 4/51, 3 x 2/17, 3 x 4/51, in node order |
| QuadratureNodal3D.Prism15Weights_SumAndSign | src/quadrature/quadrature_nodal_3D.C:65-72 | the PRISM15 weights add up to 1, the volume of the reference prism, and each is positive |
| QuadratureNodal3D.Prism15FirstMoments | src/quadrature/quadrature_nodal_3D.C:49-72 | the PRISM15 rule integrates x and y to 1/3 and z to 0, as over the reference prism |
| QuadratureNodal3D.Prism15MomentX | src/quadrature/quadrature_nodal_3D.C:53-72 | the weighted sum of the x coordinates of the PRISM15 points is 1/3 |
| QuadratureNodal3D.Prism15MomentY | src/quadrature/quadrature_nodal_3D.C:53-72 | the weighted sum of the y coordinates of the PRISM15 points is 1/3 |
| QuadratureNodal3D.Prism15MomentZ | src/quadrature/quadrature_nodal_3D.C:53-72 | the weighted sum of the z coordinates of the PRISM15 points is 0 |
| QuadratureNodal3D.Hex20ExactForLinears | src/quadrature/quadrature_nodal_3D.C:79-99 | the HEX20 rule integrates every linear field a + b x + c y + d z exactly, to 8a, its integral over [-1,1]^3 |
| QuadratureNodal3D.Prism15ExactForLinears | src/quadrature/quadrature_nodal_3D.C:49-72 | the PRISM15 rule integrates every linear field a + b x + c y + d z exactly, to a + (b + c)/3, its integral over the reference prism |
| QuadratureNodal3D.NodalRule3D | src/quadrature/quadrature_nodal_3D.C:33-127 | a rule exists exactly for the 11 supported 3D types; TET4, PRISM6, HEX8 and PYRAMID5 get the trapezoidal rule unchanged; TET10, PRISM18, HEX27 and PYRAMID14 get the Simpson rule unchanged; PRISM15 and HEX20 get their tables; PYRAMID13 gets exactly 13 points and 13 weights |
| QuadratureNodal3D.NodalRule3DBalanced | src/quadrature/quadrature_nodal_3D.C:33-123 | whenever the trapezoidal and Simpson rules have one weight per point, so does the selected rule |
| QuadratureNodal3D.Pyramid13TruncatesSimpson | src/quadrature/quadrature_nodal_3D.C:115-120 | PYRAMID13 keeps exactly the first 13 Simpson points and weights |
| QuadratureNodal3D.HandDerivedRulesPositive | src/quadrature/quadrature_nodal_3D.C:47-102 | the PRISM15 and HEX20 rules have one weight per point and every weight is positive; positive weights are the motive of these tables (a positive definite lumped mass matrix), which the model does not state |
| QuadratureNodal3D.QNodal.Init3D | src/quadrature/quadrature_nodal_3D.C:29-129 | `init_3D` stores the rule `NodalRule3D` selects for `_type` and reports success; for an unsupported type it reports the error and leaves the rule as it was |
| FeDofs.DofsOnNodes | src/fe/fe.C:96-108 | the loop with the running `nodenum` counter emits exactly the dof numbers of the selected nodes, in node order |
| FeDofs.DofsOnSide | src/fe/fe.C:87-109 | for `s < n_sides`, `di` holds the dofs of the nodes on side `s`; it is strictly increasing, below the element's dof count, and as long as those nodes own dofs |
| FeDofs.DofsOnEdge | src/fe/fe.C:113-135 | the same for the nodes on edge `e`, for `e < n_edges` |
| FeDofs.OnDofsIncreasingAndBounded | src/fe/fe.C:97-107 | the emitted dofs are strictly increasing and each is below the total dof count of the nodes walked |
| FeDofs.OnDofsLength | src/fe/fe.C:99-107 | as many dofs are emitted as the selected nodes own |
| FeDofs.OnDofsMembers | src/fe/fe.C:99-107 | a dof number is emitted if and only if it lies in the block of a selected node |
| FeDofs.CountOnAll | src/fe/fe.C:97-107 | the selected nodes never own more dofs than all nodes, and selecting every node selects all of them |
| FeStorage.Dispatch | src/fe/fe.C:553-643 | the `switch (Dim)` has a case exactly for 0 to 3; it writes one first-derivative table per direction and one second-derivative table per pair a <= b, with slots 0..5 as xi^2, xi eta, eta^2, xi zeta, eta zeta, zeta^2 (1, 3 and 6 slots in 1D, 2D and 3D) |
| FeStorage.SlotsDistinct | src/fe/fe.C:624-634 | distinct slots and distinct directions are written to distinct tables |
| FeStorage.FirstSlotSet | src/fe/fe.C:616-622 | the first-derivative tables the switch writes are exactly the demanded reference first-derivative tables for the dimension |
| FeStorage.SecondSlotSet | src/fe/fe.C:624-634 | the second-derivative tables the switch writes are exactly the demanded reference second-derivative tables for the dimension |
| FeStorage.DirectionsAndSlots | src/fe/fe.C:565-634 | each table is written for one direction or one slot, and a table is written for the dimension if and only if its direction or slot is below the dimension's count |
| FeStorage.DispatchMatchesWrites | src/fe/fe.C:553-643 | the tables `Dispatch` lists for a dimension are, entry for entry, the ones the `FE` class writes (`FirstRef(j)` per direction, `SecondSlot(k)` per slot), and as sets the demanded reference tables |
| FeStorage.LeaderDemanded | src/fe/fe.C:388-442 | the table whose size check can break out of the sizing block is itself a demanded table |
| FeStorage.PrimalNotDual | src/fe/fe.C:383-469 | the primal sizing block never touches a dual table |
| FeStorage.DualDemandedIsDual | src/fe/fe.C:343-349 | `init_dual_shape_functions` sizes only dual tables |
| FeStorage.ResizeRows | src/fe/fe.C:395-465 | `t.resize(n)` on a group of tables resizes each of them and touches no other table |
| FeStorage.ResizeRowEach | src/fe/fe.C:474-526 | `t[i].resize(n_qp)` on a group of tables resizes row `i` of each and touches nothing else |
| FeStorage.SetRow | src/fe/fe.C:570 | writing the derivatives of one shape function replaces that row of that table only |
| Fe.SizeFirstOrder | src/fe/fe.C:388-427 | the `phi`, `dphi` and reference first-derivative groups are resized in order; the `break` is taken only before anything was resized, exactly when a leader already has `n` rows, and sets `old_n_qp` to its row length |
| Fe.SizeRest | src/fe/fe.C:429-466 | `curl_phi` and `div_phi` are resized for vector families only; then `d2phi` either breaks because it already has `n` rows or its group is resized |
| Fe.SizeRows | src/fe/fe.C:383-469 | for tables resized in lockstep, the block leaves every demanded table with `n` rows, as if each had been resized, and `old_n_qp` is the first leader's row length when it already had `n` rows and 0 otherwise |
| Fe.SizedBreak | src/fe/fe.C:389-394 | the short-circuit is sound: when the leader already has `n` rows, so have the tables not yet resized |
| Fe.SizedRest | src/fe/fe.C:383-469 | the two halves of the block together size every demanded table |
| Fe.ResizeColumns | src/fe/fe.C:471-528 | the `old_n_qp != n_qp` loop resizes every row of every demanded table to `n_qp` entries and changes no other table |
| Fe.SizedRowsRectangular | src/fe/fe.C:382-392 | after the two sizing steps every row has `n_qp` entries, unless there are no points and `old_n_qp`'s sentinel 0 hides longer old rows |
| Fe.SizeTables | src/fe/fe.C:379-528 | the sizing leaves the demanded tables with `n` rows, row `i` is the old row kept or padded to `n_qp` entries, nothing else changes, and the tables stay rectangular under the condition above |
| Fe.SizedColumns | src/fe/fe.C:471-528 | the row resize followed by the per-row resize gives, row by row, the old row resized to `n_qp` entries |
| Fe.DualTables | src/fe/fe.C:343-360 | `dual_phi`, and `dual_dphi` and `dual_d2phi` when `dphi` and `d2phi` are demanded, become `n_shapes` x `n_qp`; old entries that fit are kept and no other table changes |
| Fe.DualColumns | src/fe/fe.C:351-360 | each dual row is its old row, or an empty one, resized to `n_qp` entries |
| Fe.FE.constructor | src/fe/fe.C:48-57 | a new FE has no rule, an invalid cell type, no cached nodes, dual coefficients pending and empty tables |
| Fe.FE.Attach | src/fe/fe.C:68-76 | `attach_quadrature_rule` stores the rule, sets `elem_type` to invalid and changes nothing else |
| Fe.FE.DerivRow | src/fe/fe.C:570 | `shape_derivs` gives one value per point |
| Fe.FE.SecondDerivRow | src/fe/fe.C:575 | the second derivative of one slot is one value per point |
| Fe.FE.WriteFirstRow | src/fe/fe.C:617-622 | for one shape function, the d/dxi, d/deta and d/dzeta rows up to the dimension receive the derivative in their own direction; no other table changes |
| Fe.FE.WriteFirstDerivs | src/fe/fe.C:568-570 | every row of every reference first-derivative table up to the dimension holds the derivative in that table's direction |
| Fe.FE.WriteSecondRow | src/fe/fe.C:624-634 | for one shape function, slot `k` of the second derivative goes to the `k`-th table of the fixed slot order; no other table changes |
| Fe.FE.WriteSecondDerivs | src/fe/fe.C:572-575 | every row of every reference second-derivative table up to the dimension holds the derivative of that table's slot |
| Fe.FE.RefDemanded | src/fe/fe.C:410-465 | the tables the switch writes were sized by the block, and no table is both a first- and a second-derivative table |
| Fe.FE.KeepPrimal | src/fe/fe.C:645-646 | sizing the dual tables keeps the primal tables, their shape and their derivative values |
| Fe.FE.ShapeTables | src/fe/fe.C:370-643 | the primal tables end with `n` rows, the ones the switch does not write are the sized old rows, and the reference derivatives hold the values at the given points |
| Fe.FE.EvaluatedRectangular | src/fe/fe.C:565-634 | writing the derivatives keeps the tables rectangular, since every row written has one entry per point |
| Fe.FE.BuildTables | src/fe/fe.C:363-647 | the primal tables are sized and evaluated, then the dual ones are sized to the same row count and one entry per point |
| Fe.FE.InitDualShapeFunctions | src/fe/fe.C:333-361 | without `calculate_dual` nothing changes; otherwise the demanded dual tables become `n_shapes` x `n_qp` and nothing else changes |
| Fe.FE.InitShapeFunctions | src/fe/fe.C:363-647 | the demanded tables now have `n_shape_functions()` rows, the derivatives at the given points and, under the sentinel condition, `qp.size()` entries per row; the dual tables are sized to match; the object invariant is kept, so the tables nothing demands stay empty and the demanded dual tables share the primal row count |
| Fe.FE.ReinitAtPoints | src/fe/fe.C:160-173 | with explicit points: take the element's type and p-level, map the points, run `init_shape_functions` on them, and leave `shapes_on_quadrature` false |
| Fe.FE.InitOnRule | src/fe/fe.C:198-200 | map the rule's points and run `init_shape_functions` on them; the tables get `n_shape_functions()` rows of `n_quadrature_points()` entries |
| Fe.FE.RebuildOnRule | src/fe/fe.C:190-208 | on the rebuild branch, take the cell's type and p-level, rebuild, and cache the nodes exactly when the family's shapes need reinit |
| Fe.FE.SameCellOnRule | src/fe/fe.C:209-236 | on the same cell, `fit` is whether the cached nodes still fit; only when they do not and the family needs reinit are the tables rebuilt and the nodes cached |
| Fe.FE.ReinitOnRule | src/fe/fe.C:182-240 | on the quadrature rule, the rule is reinitialised for the cell and the tables are rebuilt, refitted or reused as the cache decision says; the tables end on the rule, and when rebuilt they have `n_quadrature_points()` entries per row |
| Fe.FE.ShapesOnRule | src/fe/fe.C:187-239 | after the rule is set up, rebuild exactly when the type or p-level changed or the tables were not on the rule; the tables then correspond to the rule |
| Fe.FE.ReinitWithoutElem | src/fe/fe.C:242-269 | without an element: invalid type and p-level 0; without points, a SCALAR family gets one point at the origin with weight 1 and any other family gets no points; shapes are initialised at those points; the attached rule keeps its cell type and p-level, and its points and weights when points are given |
| Fe.FE.ComputeAfterInit | src/fe/fe.C:271-330 | the map is computed with the given weights, unit weights or the rule's; then, unless the nodes still fit, the shapes are computed and the dual basis follows, with the coefficients computed only while pending and then no longer pending |
| Fe.FE.ReinitShapes | src/fe/fe.C:144-269 | the branch on the element and the points follows the cache decision and leaves the cache as `Next` says; `RuleAfter` states what the attached rule then holds: the rule built for the cell when its points are used, the synthesized point or none without element and points, and otherwise the rule unchanged, cell type and p-level included |
| Fe.FE.Reinit | src/fe/fe.C:140-331 | `reinit` leaves the cache as `Next` says and makes exactly the calls `ReinitEvents` lists; on the paths that run `init_shape_functions` the tables are resized and their reference derivatives evaluated for the points used, and on the others they are not resized or re-evaluated; the attached rule ends as `RuleAfter` says; the object invariant is kept, so undemanded tables stay empty and the dual tables keep the primal row count |
| FeCache.CachedNodesStillFit | src/fe/fe.C:213-225 | the loop with its early `break` decides exactly whether the node count matches and every offset from node 0 agrees with the cached one |
| FeCache.ExplicitPointsReinit | src/fe/fe.C:160-173 | with explicit points the call always runs `init_shape_functions`, takes the element's type and p-level, and leaves the shapes off the rule and the cached nodes as they were |
| FeCache.QuadratureReinit | src/fe/fe.C:182-240 | without points the call always ends on the rule; it rebuilds if and only if the type or p-level changed, the shapes were off the rule, or the rule needs reinit |
| FeCache.StillFitOnlyOnSameCell | src/fe/fe.C:209-225 | the cached nodes are found to fit if and only if the call is on the rule, nothing forces a rebuild, and the nodes fit |
| FeCache.AttachForcesRebuild | src/fe/fe.C:190-200 | after `attach_quadrature_rule` the next quadrature `reinit` on a real element takes the rebuild branch and maps the points |
| FeCache.NullElementReinit | src/fe/fe.C:242-269 | a null element resets the type and p-level, runs `init_shape_functions`, and keeps the rest of the cache |
| FeCache.ReinitCalls | src/fe/fe.C:156-296 | `init_shape_functions` and the reference map run exactly on their paths; `compute_shape_functions` runs if and only if the cached nodes did not fit; the map is always computed |
| FeCache.DualCalls | src/fe/fe.C:297-328 | the dual shapes are computed if and only if dual shapes are demanded and the nodes did not fit; the coefficients only when, in addition, they are pending; afterwards they are pending if and only if they were pending and were not computed |
| FeCache.DualCoefficientsAtMostOnce | src/fe/fe.C:301-325 | over any sequence of `reinit` calls the dual coefficients are computed at most once, and never once they are no longer pending |
| FeCache.DualCoefficientsKeptOnNewCell | src/fe/fe.C:297-328 | once the coefficients are computed, a quadrature call on a cell of another type or p-level rebuilds the tables and computes the dual shapes, but not new coefficients, and they stay not pending |
| FeCache.RepeatedReinitReuses | src/fe/fe.C:202-236 | repeating a quadrature `reinit` on the same element reuses the tables when the family caches the nodes and the comparison is reflexive |

## Left out

- Floating point: shape values, derivatives and quadrature weights are exact `real`s. The
  values of `shape_derivs` and `shape_second_deriv` are given functions.
- Fe.FE.ComputeAfterInit: the values written by `compute_shape_functions`
  (`src/fe/fe.C:291-296`, on every path where the cached nodes do not fit, `Recompute`
  included), by `all_shapes` into `dual_phi` (`src/fe/fe.C:321`) and by
  `compute_dual_shape_functions` (`src/fe/fe.C:328`) are not tracked in `tables`. These calls
  appear only in the event log; `tables` carries the sizes of the tables and the reference
  derivatives written by `init_shape_functions`.
- `relative_fuzzy_equals` with tolerance 1e-13 is the relation `same` on points, given at
  construction.
- The geometric map (`init_reference_to_physical_map`, `compute_map`) and the dual-basis
  computations (`compute_dual_shape_coeffs`, `compute_dual_shape_functions`) are foreign
  calls. They appear only as entries in the event log, with the points or weights they are
  given. The default `QGauss` rule used for the dual coefficients is not modelled; its event
  records the cell type and p-level it is built for.
- `determine_calculations` is not part of this model: the `calculate_*` flags are fixed
  when the object is built. This is also what makes "the demanded tables share a row count"
  an invariant of the object.
- `nonlagrange_dual_warning`, `LOG_SCOPE` and the `libmesh_assert` checks are not modelled
  as behaviour. The assertions become preconditions: the side or edge is in range, dual
  shapes need primal `phi`, and a rule is attached when no points are given.
- The `LIBMESH_ENABLE_INFINITE_ELEMENTS` blocks, including `init_base_shape_functions`, and
  the explicit template instantiations are left out. Second derivatives are always
  enabled and `LIBMESH_DIM` is 3.
- Fe.FE.constructor: `Dim` is limited to 0..3, the dimensions `FE` is instantiated for. The
  "Invalid dimension" error is modelled by `FeStorage.Dispatch` returning nothing, and the
  object never reaches it.
- Fe.FE.Reinit: it requires that a null element is not combined with pending dual
  coefficients on a dual-demanding object. On that path the source computes the
  coefficients from the null element's dimension and type, which has no defined outcome.
- Fe.FE.InitShapeFunctions: the tables are promised rectangular only under
  `StillRectangular`. With no quadrature points, `old_n_qp`'s sentinel 0 cannot tell
  "no points" from "no leader". Rows kept from an earlier call can then keep their old
  length, and the model states exactly that condition rather than a rectangular result.
- FeDofs.DofsOnNodes: the counter `nodenum` is an unbounded `nat`. The 32-bit unsigned
  wrap-around of the source is not modelled; it would need more than 2^32 local dofs.
- Quadrature.QBase.Init: `src/quadrature/quadrature.C` is not part of this model. A rule's
  `init` is modelled as rebuilding its points and weights from a given function of the cell
  type and p-level, and `shapes_need_reinit` as a constant of the rule. `Fe.FE.RuleAfter`'s
  clause for the quadrature path relies on this: a `reinit` with a null element on a SCALAR
  family overwrites the rule's points with the origin but keeps its cell type
  (`src/fe/fe.C:242-262`), and a rule whose `init` skips the rebuild when the type and
  p-level are unchanged would keep that point on the next quadrature `reinit` of that type.
- QuadratureNodal3D.QNodal.Init3D: the trapezoidal and Simpson rules (`QTrap`, `QSimpson`)
  are not part of this model. They are parameters giving the rule for each cell type.
- Tables are rows of values. A row written by the dimension switch is replaced as a whole
  rather than entry by entry, and the aliasing between the `FE` object's vectors and the
  attached rule's vectors is not modelled beyond the rule object's own fields.

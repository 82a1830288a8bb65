/**
 * The master problem's storage plan and its translation into the operating
 * bounds of the subproblems (Functions/run.py:215-239).
 */
module Storage {
  import opened Tensors

  /**
   * What `Allocation_2D` returns: its objective (the lower bound), the
   * investment cost, the per-bus 0/1 site selection `ESS_loc[:, iter]`, the
   * per-bus power rating and energy capacity, and the cut variable `alpha`.
   */
  datatype Plan = Plan(
    objective: real,
    invest: real,
    loc: seq<real>,
    rating: seq<real>,
    capacity: seq<real>,
    alpha: real)

  /** Every per-bus vector of the plan has one entry per bus. */
  predicate PlanShaped(plan: Plan, nBus: nat) {
    |plan.loc| == nBus && |plan.rating| == nBus && |plan.capacity| == nBus
  }

  /** `ESS_loc[i, iter] == 1`: the master installed storage at bus `i`. */
  predicate IsOne(x: real) {
    x == 1.0
  }

  /**
   * The bounds handed to every subproblem: initial state of charge and the
   * lower and upper charge, discharge and state-of-charge limits, each of
   * shape (N_bus, NT).
   */
  datatype StorageBounds = StorageBounds(
    soc0: seq<real>,
    chaLower: Grid, chaUpper: Grid,
    disLower: Grid, disUpper: Grid,
    socLower: Grid, socUpper: Grid)

  /** Row `i` repeats `values[i]` over the horizon at a selected bus and is zero elsewhere. */
  function SelectedRows(loc: seq<real>, values: seq<real>, nt: nat): Grid
    requires |values| == |loc|
  {
    seq(|loc|, i requires 0 <= i < |loc| => if IsOne(loc[i]) then seq(nt, _ => values[i]) else Zeros(nt))
  }

  /** The bounds that `plan` imposes over a horizon of `nt` time steps. */
  function PlanBounds(plan: Plan, nt: nat): StorageBounds
    requires PlanShaped(plan, |plan.loc|)
  {
    var nBus := |plan.loc|;
    StorageBounds(
      Zeros(nBus),
      ZeroGrid(nBus, nt), SelectedRows(plan.loc, plan.rating, nt),
      ZeroGrid(nBus, nt), SelectedRows(plan.loc, plan.rating, nt),
      ZeroGrid(nBus, nt), SelectedRows(plan.loc, plan.capacity, nt))
  }

  /** Every table of the bounds has shape (N_bus, NT) and `soc0` has one entry per bus. */
  predicate BoundsShaped(b: StorageBounds, nBus: nat, nt: nat) {
    && |b.soc0| == nBus
    && Shaped(b.chaLower, nBus, nt) && Shaped(b.chaUpper, nBus, nt)
    && Shaped(b.disLower, nBus, nt) && Shaped(b.disUpper, nBus, nt)
    && Shaped(b.socLower, nBus, nt) && Shaped(b.socUpper, nBus, nt)
  }

  /**
   * One bound table built in place: a zeroed (N_bus, NT) array whose rows at
   * the selected buses `indEss` are overwritten with `values` of that bus.
   */
  method FillSelectedRows(loc: seq<real>, indEss: seq<nat>, values: seq<real>, nt: nat) returns (g: Grid)
    requires |values| == |loc|
    requires indEss == IndicesWhere(loc, IsOne)
    ensures g == SelectedRows(loc, values, nt)
  {
    var a := new real[|loc|, nt]((_, _) => 0.0);
    forall j, t | 0 <= j < |indEss| && 0 <= t < nt {
      a[indEss[j], t] := values[indEss[j]];
    }
    g := Snapshot(a);
    forall i, t | 0 <= i < |loc| && 0 <= t < nt
      ensures g[i][t] == SelectedRows(loc, values, nt)[i][t]
    {
      if IsOne(loc[i]) {
        var j :| 0 <= j < |indEss| && indEss[j] == i;
      }
    }
    SameEntries(g, SelectedRows(loc, values, nt), |loc|, nt);
  }

  /**
   * Builds the bounds as the source does: zeroed lower limits and initial
   * state of charge, and upper limits carrying the plan's rating (charge,
   * discharge) or capacity (state of charge) on the rows `IndESS` of the
   * selected buses.
   */
  method BuildBounds(plan: Plan, nBus: nat, nt: nat) returns (b: StorageBounds)
    requires PlanShaped(plan, nBus)
    ensures b == PlanBounds(plan, nt)
  {
    var indEss := IndicesWhere(plan.loc, IsOne);
    var chaU := FillSelectedRows(plan.loc, indEss, plan.rating, nt);
    var disU := FillSelectedRows(plan.loc, indEss, plan.rating, nt);
    var socU := FillSelectedRows(plan.loc, indEss, plan.capacity, nt);
    var zeros := new real[nBus, nt]((_, _) => 0.0);
    var lower := Snapshot(zeros);
    SameEntries(lower, ZeroGrid(nBus, nt), nBus, nt);
    b := StorageBounds(Zeros(nBus), lower, chaU, lower, disU, lower, socU);
  }

  /**
   * The bounds at bus `i` and time step `t`: lower limits and the initial
   * state of charge are zero; the charge and discharge ceilings are the
   * rating and the state-of-charge ceiling the capacity when the bus is
   * selected, and all three are zero when it is not.
   */
  lemma PlanBoundsAt(plan: Plan, nt: nat, i: nat, t: nat)
    requires PlanShaped(plan, |plan.loc|)
    requires i < |plan.loc| && t < nt
    ensures var b := PlanBounds(plan, nt);
      && BoundsShaped(b, |plan.loc|, nt)
      && b.soc0[i] == 0.0
      && b.chaLower[i][t] == 0.0 && b.disLower[i][t] == 0.0 && b.socLower[i][t] == 0.0
      && b.chaUpper[i][t] == (if plan.loc[i] == 1.0 then plan.rating[i] else 0.0)
      && b.disUpper[i][t] == (if plan.loc[i] == 1.0 then plan.rating[i] else 0.0)
      && b.socUpper[i][t] == (if plan.loc[i] == 1.0 then plan.capacity[i] else 0.0)
  {
  }

  /**
   * A plan that selects no bus (an empty candidate set) collapses every
   * storage bound to zero.
   */
  lemma NoSelectionNoStorage(plan: Plan, nt: nat)
    requires PlanShaped(plan, |plan.loc|)
    requires forall i :: 0 <= i < |plan.loc| ==> plan.loc[i] != 1.0
    ensures var b := PlanBounds(plan, nt); var z := ZeroGrid(|plan.loc|, nt);
      b.chaUpper == z && b.disUpper == z && b.socUpper == z
  {
    var n := |plan.loc|;
    var b := PlanBounds(plan, nt);
    SameEntries(b.chaUpper, ZeroGrid(n, nt), n, nt);
    SameEntries(b.socUpper, ZeroGrid(n, nt), n, nt);
  }

  /** With a non-negative rating and capacity, every lower limit is at most its upper limit. */
  lemma BoundsOrdered(plan: Plan, nt: nat, i: nat, t: nat)
    requires PlanShaped(plan, |plan.loc|)
    requires i < |plan.loc| && t < nt
    requires plan.rating[i] >= 0.0 && plan.capacity[i] >= 0.0
    ensures var b := PlanBounds(plan, nt);
      b.chaLower[i][t] <= b.chaUpper[i][t] && b.disLower[i][t] <= b.disUpper[i][t]
      && b.socLower[i][t] <= b.socUpper[i][t]
  {
  }
}

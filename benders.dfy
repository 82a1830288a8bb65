/**
 * The Benders decomposition loop of Functions/run.py (lines 197-293) as a
 * function of its history buffers: one `Step` per pass of the `while` loop,
 * `RunFrom` for the whole loop, and `Saved` for the truncated arrays written
 * at the end.
 */
module Benders {
  import opened Wrappers
  import opened Tensors
  import opened Storage
  import opened Scenarios

  /** The gap tolerance of the convergence test, `1e-2`. */
  const Tolerance: real := 0.01

  /**
   * The fixed configuration of one run: `NP` scenarios, `N_bus` buses, `NT`
   * time steps, the iteration limit `lim_iter`, the relative frequency `dp`
   * of every row of the scenario table (at least `NP` of them; only the
   * first `NP` weights are used), and each scenario's solar ceiling
   * `Pn_solar_bound[sc, 1]` of shape (N_bus, NT).
   */
  datatype Config = Config(
    np: nat,
    nBus: nat,
    nt: nat,
    limIter: nat,
    dp: seq<real>,
    solar: seq<Grid>)

  predicate ConfigValid(c: Config) {
    && c.np <= |c.dp| && Sum(c.dp) != 0.0
    && |c.solar| == c.np
    && forall sc :: 0 <= sc < c.np ==> Shaped(c.solar[sc], c.nBus, c.nt)
  }

  /**
   * The history buffers, one entry per iteration column: `obj[k][sc]` is
   * `obj_2nd[sc, k]`, `lambda[k][sc]` is `lambda_2nd[sc, :, :, k]`,
   * `rating[k]` is `previous_rating[:, k]`, `loc[k]` is `ESS_loc[:, k]`, and
   * so on; `iter` and `converged` are the loop's counter and flag.
   */
  datatype State = State(
    iter: nat,
    converged: bool,
    obj: seq<seq<real>>,
    lambda: seq<seq<Grid>>,
    mu: seq<seq<Grid>>,
    rating: seq<seq<real>>,
    capacity: seq<seq<real>>,
    loc: seq<seq<real>>,
    alpha: seq<real>,
    upper: seq<real>,
    lower: seq<real>,
    fairness: seq<real>,
    invest: seq<real>)

  /** The buffers `Allocation_2D` receives to build its cuts. */
  datatype History = History(
    obj: seq<seq<real>>,
    lambda: seq<seq<Grid>>,
    mu: seq<seq<Grid>>,
    rating: seq<seq<real>>,
    capacity: seq<seq<real>>)

  /**
   * `Allocation_2D` with the candidate set, sizing bounds and unit costs
   * bound in: given the iteration index and the buffers, a plan, or `None`
   * when the solve raises.
   */
  type Master = (nat, History) -> Option<Plan>

  /** Why a run stopped early: the master, or scenario `sc`'s subproblem, failed at iteration `iter`. */
  datatype Fault = MasterFailed(iter: nat) | ScenarioFailed(iter: nat, sc: nat)

  function HistoryOf(s: State): History {
    History(s.obj, s.lambda, s.mu, s.rating, s.capacity)
  }

  /** Every buffer has `lim_iter` columns, each of its fixed shape, and the fairness term is zero. */
  predicate WellFormed(c: Config, s: State) {
    && s.iter <= c.limIter
    && |s.obj| == c.limIter && |s.lambda| == c.limIter && |s.mu| == c.limIter
    && |s.rating| == c.limIter && |s.capacity| == c.limIter && |s.loc| == c.limIter
    && |s.alpha| == c.limIter && |s.upper| == c.limIter && |s.lower| == c.limIter
    && |s.fairness| == c.limIter && |s.invest| == c.limIter
    && (forall k :: 0 <= k < c.limIter ==>
          && |s.obj[k]| == c.np && |s.lambda[k]| == c.np && |s.mu[k]| == c.np
          && |s.rating[k]| == c.nBus && |s.capacity[k]| == c.nBus && |s.loc[k]| == c.nBus
          && s.fairness[k] == 0.0)
    && (forall k, sc :: 0 <= k < c.limIter && 0 <= sc < c.np ==>
          Shaped(s.lambda[k][sc], c.nBus, c.nt) && Shaped(s.mu[k][sc], c.nBus, c.nt))
  }

  /** One zeroed dual column: an (N_bus, NT) zero table per scenario. */
  function ZeroDuals(c: Config): seq<Grid> {
    seq(c.np, _ => ZeroGrid(c.nBus, c.nt))
  }

  /** The state before the loop: zeroed buffers, `iter = 0`, `convergence = 0`. */
  function Init(c: Config): (s: State)
    ensures WellFormed(c, s) && s.iter == 0 && !s.converged
  {
    var zc := seq(c.limIter, _ => Zeros(c.np));
    var zg := seq(c.limIter, _ => ZeroDuals(c));
    var zb := seq(c.limIter, _ => Zeros(c.nBus));
    var z := Zeros(c.limIter);
    State(0, false, zc, zg, zg, zb, zb, zb, z, z, z, z, z)
  }

  /** Every column of every buffer of the initial state is zero. */
  lemma InitZeroed(c: Config)
    ensures var s := Init(c);
      forall k :: 0 <= k < c.limIter ==>
        && s.obj[k] == Zeros(c.np)
        && s.lambda[k] == ZeroDuals(c)
        && s.mu[k] == ZeroDuals(c)
        && s.rating[k] == Zeros(c.nBus) && s.capacity[k] == Zeros(c.nBus) && s.loc[k] == Zeros(c.nBus)
        && s.alpha[k] == 0.0 && s.upper[k] == 0.0 && s.lower[k] == 0.0 && s.invest[k] == 0.0
        && s.fairness[k] == 0.0
  {
  }

  function Abs(x: real): real {
    if x < 0.0 then -x else x
  }

  /** `abs(UB - LB) <= UB * 1e-2`. */
  predicate Converged(ub: real, lb: real) {
    Abs(ub - lb) <= ub * Tolerance
  }

  /**
   * The test passes exactly when the upper bound is non-negative and the
   * lower bound lies within one percent of it on either side.
   */
  lemma ConvergedIff(ub: real, lb: real)
    ensures Converged(ub, lb) <==> 0.0 <= ub && ub - ub * Tolerance <= lb <= ub + ub * Tolerance
  {
  }

  function Costs(rs: seq<ScenarioResult>): seq<real> {
    seq(|rs|, k requires 0 <= k < |rs| => rs[k].cost)
  }

  function NegatedLambdas(rs: seq<ScenarioResult>): seq<Grid> {
    seq(|rs|, k requires 0 <= k < |rs| => Negate(rs[k].lambda))
  }

  function NegatedMus(rs: seq<ScenarioResult>): seq<Grid> {
    seq(|rs|, k requires 0 <= k < |rs| => Negate(rs[k].mu))
  }

  /** The subproblem inputs of every scenario under the bounds of `plan`. */
  function Inputs(c: Config, plan: Plan): seq<ScenarioInput>
    requires ConfigValid(c) && PlanShaped(plan, c.nBus)
  {
    ScenarioInputs(Frequencies(c.dp), c.solar, c.nBus, c.nt, PlanBounds(plan, c.nt))
  }

  /** Line 215: the master's outputs are written into column `iter`. */
  function WithPlan(s: State, plan: Plan): State
    requires s.iter < |s.loc| && s.iter < |s.alpha| && s.iter < |s.invest|
  {
    s.(loc := s.loc[s.iter := plan.loc], alpha := s.alpha[s.iter := plan.alpha],
       invest := s.invest[s.iter := plan.invest])
  }

  /** Lines 255-258: column `iter` receives the costs and the negated duals, scenario by scenario. */
  function WithResults(s: State, rs: seq<ScenarioResult>): State
    requires s.iter < |s.obj| && s.iter < |s.lambda| && s.iter < |s.mu|
  {
    s.(obj := s.obj[s.iter := Costs(rs)], lambda := s.lambda[s.iter := NegatedLambdas(rs)],
       mu := s.mu[s.iter := NegatedMus(rs)])
  }

  /**
   * Lines 260-277: the plan's rating and capacity are recorded, the upper
   * bound is taken from column `iter` of the cost, investment and fairness
   * buffers, the lower bound is the master's objective, the flag is raised
   * when they meet the tolerance, and `iter` advances.
   */
  function WithBounds(s: State, plan: Plan): State
    requires s.iter < |s.obj| && s.iter < |s.invest| && s.iter < |s.fairness|
    requires s.iter < |s.rating| && s.iter < |s.capacity| && s.iter < |s.upper| && s.iter < |s.lower|
  {
    var k := s.iter;
    var ub := Sum(s.obj[k]) + s.invest[k] + s.fairness[k];
    s.(iter := k + 1,
       converged := s.converged || Converged(ub, plan.objective),
       rating := s.rating[k := plan.rating],
       capacity := s.capacity[k := plan.capacity],
       upper := s.upper[k := ub],
       lower := s.lower[k := plan.objective])
  }

  lemma WithPlanWellFormed(c: Config, s: State, plan: Plan)
    requires WellFormed(c, s) && s.iter < c.limIter && PlanShaped(plan, c.nBus)
    ensures WellFormed(c, WithPlan(s, plan))
  {
  }

  lemma WithResultsWellFormed(c: Config, s: State, rs: seq<ScenarioResult>)
    requires WellFormed(c, s) && s.iter < c.limIter && |rs| == c.np
    requires forall sc :: 0 <= sc < c.np ==> ResultShaped(rs[sc], c.nBus, c.nt)
    ensures WellFormed(c, WithResults(s, rs))
  {
    forall sc | 0 <= sc < c.np
      ensures Shaped(Negate(rs[sc].lambda), c.nBus, c.nt) && Shaped(Negate(rs[sc].mu), c.nBus, c.nt)
    {
      NegatePreservesShape(rs[sc].lambda, c.nBus, c.nt);
      NegatePreservesShape(rs[sc].mu, c.nBus, c.nt);
    }
  }

  lemma WithBoundsWellFormed(c: Config, s: State, plan: Plan)
    requires WellFormed(c, s) && s.iter < c.limIter && PlanShaped(plan, c.nBus)
    ensures WellFormed(c, WithBounds(s, plan)) && WithBounds(s, plan).iter == s.iter + 1
  {
  }

  /**
   * One pass of the loop body (lines 215-277): call the master, dispatch the
   * scenarios under its plan, fold their results into column `iter`, record
   * the bounds, test convergence and advance `iter`.
   */
  function Step(c: Config, s: State, master: Master, solver: Solver): (r: Result<State, Fault>)
    requires ConfigValid(c) && WellFormed(c, s) && s.iter < c.limIter
    ensures r.Success? ==> WellFormed(c, r.value) && r.value.iter == s.iter + 1
    ensures r.Failure? ==> r.error.iter == s.iter
  {
    match master(s.iter, HistoryOf(s))
    case None => Failure(MasterFailed(s.iter))
    case Some(plan) =>
      if !PlanShaped(plan, c.nBus) then Failure(MasterFailed(s.iter))
      else
        match Dispatch(solver, Inputs(c, plan), c.nBus, c.nt)
        case Failure(sc) => Failure(ScenarioFailed(s.iter, sc))
        case Success(rs) =>
          var s1 := WithPlan(s, plan);
          WithPlanWellFormed(c, s, plan);
          var s2 := WithResults(s1, rs);
          WithResultsWellFormed(c, s1, rs);
          WithBoundsWellFormed(c, s2, plan);
          Success(WithBounds(s2, plan))
  }

  /**
   * How a pass ends: a master that raises or returns a misshaped plan is a
   * master fault; otherwise the first failing scenario of the dispatch is
   * named; and a pass succeeds only when the master and every solve did.
   */
  lemma StepFails(c: Config, s: State, master: Master, solver: Solver)
    requires ConfigValid(c) && WellFormed(c, s) && s.iter < c.limIter
    ensures var answer := master(s.iter, HistoryOf(s));
      answer.None? || !PlanShaped(answer.value, c.nBus) ==>
        Step(c, s, master, solver) == Failure(MasterFailed(s.iter))
    ensures var answer := master(s.iter, HistoryOf(s));
      answer.Some? && PlanShaped(answer.value, c.nBus) ==>
        forall sc :: Dispatch(solver, Inputs(c, answer.value), c.nBus, c.nt) == Failure(sc) ==>
          Step(c, s, master, solver) == Failure(ScenarioFailed(s.iter, sc))
    ensures var answer := master(s.iter, HistoryOf(s));
      Step(c, s, master, solver).Success? ==>
        && answer.Some? && PlanShaped(answer.value, c.nBus)
        && Dispatch(solver, Inputs(c, answer.value), c.nBus, c.nt).Success?
  {
  }

  /** The `while` loop from `s` on: step until the limit or convergence, or stop at the first fault. */
  function RunFrom(c: Config, s: State, master: Master, solver: Solver): Result<State, Fault>
    requires ConfigValid(c) && WellFormed(c, s)
    decreases c.limIter - s.iter
  {
    if s.iter >= c.limIter || s.converged then Success(s)
    else
      match Step(c, s, master, solver)
      case Failure(f) => Failure(f)
      case Success(next) => RunFrom(c, next, master, solver)
  }

  /** The arrays saved after the loop, each cut to its first `iter` columns. */
  datatype Output = Output(
    obj: seq<seq<real>>,
    lambda: seq<seq<Grid>>,
    mu: seq<seq<Grid>>,
    rating: seq<seq<real>>,
    capacity: seq<seq<real>>,
    loc: seq<seq<real>>,
    alpha: seq<real>,
    upper: seq<real>,
    lower: seq<real>,
    invest: seq<real>)

  function Saved(c: Config, s: State): Output
    requires WellFormed(c, s)
  {
    var n := s.iter;
    Output(s.obj[..n], s.lambda[..n], s.mu[..n], s.rating[..n], s.capacity[..n], s.loc[..n],
           s.alpha[..n], s.upper[..n], s.lower[..n], s.invest[..n])
  }

  /**
   * What a successful pass writes into column `iter`: each scenario's cost,
   * the negation of its two dual tables, the plan's rating, capacity,
   * selection, investment cost and `alpha`; the upper bound is the
   * unweighted sum of the column's costs plus the investment cost (the
   * fairness term being zero), the lower bound the master's objective, and
   * the flag is raised when they are within tolerance.
   */
  lemma StepFolds(c: Config, s: State, master: Master, solver: Solver, plan: Plan, rs: seq<ScenarioResult>)
    requires ConfigValid(c) && WellFormed(c, s) && s.iter < c.limIter
    requires master(s.iter, HistoryOf(s)) == Some(plan) && PlanShaped(plan, c.nBus)
    requires Dispatch(solver, Inputs(c, plan), c.nBus, c.nt) == Success(rs)
    ensures Step(c, s, master, solver).Success?
    ensures var t := Step(c, s, master, solver).value; var k := s.iter;
      && |rs| == c.np
      && (forall sc :: 0 <= sc < c.np ==>
            && solver(Inputs(c, plan)[sc]) == Some(rs[sc])
            && t.obj[k][sc] == rs[sc].cost)
      && (forall sc, i, j :: 0 <= sc < c.np && 0 <= i < c.nBus && 0 <= j < c.nt ==>
            && t.lambda[k][sc][i][j] == -rs[sc].lambda[i][j]
            && t.mu[k][sc][i][j] == -rs[sc].mu[i][j])
      && t.rating[k] == plan.rating && t.capacity[k] == plan.capacity && t.loc[k] == plan.loc
      && t.invest[k] == plan.invest && t.alpha[k] == plan.alpha
      && t.upper[k] == Sum(t.obj[k]) + plan.invest
      && t.lower[k] == plan.objective
      && t.converged == (s.converged || Converged(t.upper[k], t.lower[k]))
  {
    assert |rs| == c.np;
    forall sc | 0 <= sc < c.np
      ensures solver(Inputs(c, plan)[sc]) == Some(rs[sc])
    {
      assert Solve(solver, Inputs(c, plan)[sc], c.nBus, c.nt) == Some(rs[sc]);
    }
  }

  /** Columns `j` of the two states hold the same values in every buffer. */
  predicate SameColumn(s: State, t: State, j: nat)
    requires j < |s.obj| && j < |s.lambda| && j < |s.mu| && j < |s.rating| && j < |s.capacity|
    requires j < |s.loc| && j < |s.alpha| && j < |s.upper| && j < |s.lower| && j < |s.invest|
    requires j < |t.obj| && j < |t.lambda| && j < |t.mu| && j < |t.rating| && j < |t.capacity|
    requires j < |t.loc| && j < |t.alpha| && j < |t.upper| && j < |t.lower| && j < |t.invest|
  {
    && t.obj[j] == s.obj[j] && t.lambda[j] == s.lambda[j] && t.mu[j] == s.mu[j]
    && t.rating[j] == s.rating[j] && t.capacity[j] == s.capacity[j] && t.loc[j] == s.loc[j]
    && t.alpha[j] == s.alpha[j] && t.upper[j] == s.upper[j] && t.lower[j] == s.lower[j]
    && t.invest[j] == s.invest[j]
  }

  /** A pass writes column `iter` only: every other column, and the fairness term, is unchanged. */
  lemma StepWritesOneColumn(c: Config, s: State, master: Master, solver: Solver)
    requires ConfigValid(c) && WellFormed(c, s) && s.iter < c.limIter
    requires Step(c, s, master, solver).Success?
    ensures var t := Step(c, s, master, solver).value;
      && t.fairness == s.fairness
      && forall j :: 0 <= j < c.limIter && j != s.iter ==> SameColumn(s, t, j)
  {
  }

  /**
   * The columns from `iter` on still hold their zeroed allocation, so the
   * history the master reads carries nothing beyond the completed iterations.
   */
  predicate FutureColumnsZero(c: Config, s: State)
    requires WellFormed(c, s)
  {
    forall j :: s.iter <= j < c.limIter ==>
      && s.obj[j] == Zeros(c.np)
      && s.lambda[j] == ZeroDuals(c)
      && s.mu[j] == ZeroDuals(c)
      && s.rating[j] == Zeros(c.nBus) && s.capacity[j] == Zeros(c.nBus)
  }

  /**
   * The records of the completed iterations agree with the loop, and the
   * columns after them are untouched: each upper
   * bound is its column's cost sum plus its investment cost, the flag says
   * whether the last completed iteration met the tolerance, and no earlier
   * one did.
   */
  predicate Consistent(c: Config, s: State)
    requires WellFormed(c, s)
  {
    && FutureColumnsZero(c, s)
    && (forall k :: 0 <= k < s.iter ==> s.upper[k] == Sum(s.obj[k]) + s.invest[k])
    && (s.converged <==> s.iter > 0 && Converged(s.upper[s.iter - 1], s.lower[s.iter - 1]))
    && (forall k :: 0 <= k < s.iter - 1 ==> !Converged(s.upper[k], s.lower[k]))
  }

  lemma InitConsistent(c: Config)
    ensures Consistent(c, Init(c)) && Init(c).iter == 0 && !Init(c).converged
  {
  }

  lemma StepKeepsConsistent(c: Config, s: State, master: Master, solver: Solver)
    requires ConfigValid(c) && WellFormed(c, s) && s.iter < c.limIter
    requires !s.converged && Consistent(c, s)
    requires Step(c, s, master, solver).Success?
    ensures Consistent(c, Step(c, s, master, solver).value)
  {
    var t := Step(c, s, master, solver).value;
    var plan := master(s.iter, HistoryOf(s)).value;
    var rs := Dispatch(solver, Inputs(c, plan), c.nBus, c.nt).value;
    StepFolds(c, s, master, solver, plan, rs);
    StepWritesOneColumn(c, s, master, solver);
  }

  /**
   * Whatever the master and solver return, a run from a consistent state
   * either stops at a fault of an iteration below the limit, or ends in a
   * consistent state with `iter <= lim_iter` that has converged or reached
   * the limit.
   */
  lemma {:induction false} RunFromOutcome(c: Config, s: State, master: Master, solver: Solver)
    requires ConfigValid(c) && WellFormed(c, s) && Consistent(c, s)
    ensures var r := RunFrom(c, s, master, solver);
      && (r.Failure? ==> s.iter <= r.error.iter < c.limIter)
      && (r.Success? ==>
            && WellFormed(c, r.value) && Consistent(c, r.value)
            && s.iter <= r.value.iter <= c.limIter
            && (r.value.converged || r.value.iter == c.limIter))
    decreases c.limIter - s.iter
  {
    if s.iter < c.limIter && !s.converged {
      var step := Step(c, s, master, solver);
      if step.Success? {
        StepKeepsConsistent(c, s, master, solver);
        assert RunFrom(c, s, master, solver) == RunFrom(c, step.value, master, solver);
        RunFromOutcome(c, step.value, master, solver);
      }
    }
  }

  /** A run never rewrites a column completed before it started. */
  lemma {:induction false} RunFromKeepsColumns(c: Config, s: State, master: Master, solver: Solver)
    requires ConfigValid(c) && WellFormed(c, s)
    requires RunFrom(c, s, master, solver).Success?
    ensures var t := RunFrom(c, s, master, solver).value;
      && WellFormed(c, t) && s.iter <= t.iter
      && forall j :: 0 <= j < s.iter ==> SameColumn(s, t, j)
    decreases c.limIter - s.iter
  {
    if s.iter < c.limIter && !s.converged {
      var next := Step(c, s, master, solver).value;
      StepWritesOneColumn(c, s, master, solver);
      assert RunFrom(c, s, master, solver) == RunFrom(c, next, master, solver);
      RunFromKeepsColumns(c, next, master, solver);
      var t := RunFrom(c, next, master, solver).value;
      forall j | 0 <= j < s.iter
        ensures SameColumn(s, t, j)
      {
        assert SameColumn(s, next, j) && SameColumn(next, t, j);
      }
    }
  }

  /**
   * How a finished run reads: when converged, iteration `iter - 1` is the
   * first that met the tolerance; otherwise the limit was reached and no
   * iteration met it.
   */
  lemma FinalVerdict(c: Config, s: State)
    requires WellFormed(c, s) && Consistent(c, s)
    requires s.converged || s.iter == c.limIter
    ensures s.converged ==>
      && 1 <= s.iter <= c.limIter
      && Converged(s.upper[s.iter - 1], s.lower[s.iter - 1])
      && forall k :: 0 <= k < s.iter - 1 ==> !Converged(s.upper[k], s.lower[k])
    ensures !s.converged ==>
      && s.iter == c.limIter
      && forall k :: 0 <= k < s.iter ==> !Converged(s.upper[k], s.lower[k])
  {
  }

  /**
   * The saved arrays hold exactly the `iter` completed columns of every
   * buffer, and each saved upper bound is its saved cost sum plus its saved
   * investment cost.
   */
  lemma SavedCompleted(c: Config, s: State)
    requires WellFormed(c, s) && Consistent(c, s)
    ensures var o := Saved(c, s);
      && |o.obj| == s.iter && |o.lambda| == s.iter && |o.mu| == s.iter && |o.rating| == s.iter
      && |o.capacity| == s.iter && |o.loc| == s.iter && |o.alpha| == s.iter
      && |o.upper| == s.iter && |o.lower| == s.iter && |o.invest| == s.iter
      && (forall k :: 0 <= k < s.iter ==>
            && o.obj[k] == s.obj[k] && o.lambda[k] == s.lambda[k] && o.mu[k] == s.mu[k]
            && o.rating[k] == s.rating[k] && o.capacity[k] == s.capacity[k] && o.loc[k] == s.loc[k]
            && o.alpha[k] == s.alpha[k] && o.invest[k] == s.invest[k]
            && o.upper[k] == s.upper[k] && o.lower[k] == s.lower[k]
            && o.upper[k] == Sum(o.obj[k]) + o.invest[k])
  {
  }
}

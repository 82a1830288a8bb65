/**
 * Scenario weights and per-scenario subproblem inputs
 * (Functions/run.py:12-38, 66, 243-256): what `compute_SOC_ACOPF` derives
 * before calling the operational solver, and the fail-fast map of that call
 * over all scenarios.
 */
module Scenarios {
  import opened Wrappers
  import opened Tensors
  import opened Storage

  /** The base scenario weight `Yp`. */
  const Yp: real := 10.0

  function Sum(v: seq<real>): real {
    if |v| == 0 then 0.0 else v[0] + Sum(v[1..])
  }

  predicate NonNegative(v: seq<real>) {
    forall i :: 0 <= i < |v| ==> v[i] >= 0.0
  }

  lemma {:induction false} SumNonNegative(v: seq<real>)
    requires NonNegative(v)
    ensures Sum(v) >= 0.0
  {
    if |v| > 0 {
      SumNonNegative(v[1..]);
    }
  }

  function Divided(v: seq<real>, d: real): seq<real>
    requires d != 0.0
  {
    seq(|v|, i requires 0 <= i < |v| => v[i] / d)
  }

  function Scaled(v: seq<real>, a: real): seq<real> {
    seq(|v|, i requires 0 <= i < |v| => a * v[i])
  }

  lemma {:induction false} SumDivided(v: seq<real>, d: real)
    requires d != 0.0
    ensures Sum(Divided(v, d)) == Sum(v) / d
  {
    if |v| > 0 {
      assert Divided(v, d)[1..] == Divided(v[1..], d);
      SumDivided(v[1..], d);
    }
  }

  lemma {:induction false} SumScaled(v: seq<real>, a: real)
    ensures Sum(Scaled(v, a)) == a * Sum(v)
  {
    if |v| > 0 {
      assert forall i :: 0 <= i < |v| - 1 ==> Scaled(v, a)[1..][i] == Scaled(v[1..], a)[i];
      assert Scaled(v, a)[1..] == Scaled(v[1..], a);
      SumScaled(v[1..], a);
    }
  }

  /**
   * `freq_scenario`: each scenario's relative frequency `dp` divided by the
   * total, so that the frequencies sum to 1.
   */
  function Frequencies(dp: seq<real>): (f: seq<real>)
    requires Sum(dp) != 0.0
    ensures |f| == |dp| && Sum(f) == 1.0
    ensures forall i :: 0 <= i < |f| ==> f[i] == dp[i] / Sum(dp)
  {
    SumDivided(dp, Sum(dp));
    assert Sum(dp) / Sum(dp) == 1.0;
    Divided(dp, Sum(dp))
  }

  /** Non-negative relative frequencies give non-negative normalised frequencies. */
  lemma FrequenciesNonNegative(dp: seq<real>)
    requires NonNegative(dp) && Sum(dp) != 0.0
    ensures NonNegative(Frequencies(dp))
  {
    SumNonNegative(dp);
  }

  /** `Yp_scenario = Yp * freq_scenario`. */
  function Weights(freq: seq<real>): (w: seq<real>)
    ensures |w| == |freq| && Sum(w) == Yp * Sum(freq)
    ensures forall k :: 0 <= k < |w| ==> w[k] == Yp * freq[k]
  {
    SumScaled(freq, Yp);
    Scaled(freq, Yp)
  }

  /** The weights of normalised frequencies add up to the base weight. */
  lemma WeightsOfFrequencies(dp: seq<real>)
    requires Sum(dp) != 0.0
    ensures Sum(Weights(Frequencies(dp))) == Yp
  {
  }

  /**
   * Only the first `np` weights reach a solve. They add up to `Yp` times the
   * share of the first `np` relative frequencies in the total, which is `Yp`
   * itself only when no frequency lies beyond them.
   */
  lemma {:induction false} WeightsUsed(dp: seq<real>, np: nat)
    requires np <= |dp| && Sum(dp) != 0.0
    ensures Sum(Weights(Frequencies(dp))[..np]) == Yp * (Sum(dp[..np]) / Sum(dp))
  {
    var w := Weights(Frequencies(dp))[..np];
    assert w == Scaled(Divided(dp[..np], Sum(dp)), Yp);
    SumScaled(Divided(dp[..np], Sum(dp)), Yp);
    SumDivided(dp[..np], Sum(dp));
  }

  predicate IsPositive(x: real) {
    x > 0.0
  }

  /**
   * `idx_PV_sc`: for every time step, the buses whose solar ceiling
   * `solar[i][t]` is positive.
   */
  function PvBuses(solar: Grid, nt: nat): seq<seq<nat>>
    requires forall i :: 0 <= i < |solar| ==> nt <= |solar[i]|
  {
    seq(nt, t requires 0 <= t < nt => IndicesWhere(Column(solar, t), IsPositive))
  }

  /**
   * At time step `t`, the listed buses are exactly those with a positive
   * solar ceiling, in increasing order.
   */
  lemma PvBusesExact(solar: Grid, nt: nat, t: nat)
    requires forall i :: 0 <= i < |solar| ==> nt <= |solar[i]|
    requires t < nt
    ensures |PvBuses(solar, nt)| == nt
    ensures var r := PvBuses(solar, nt)[t];
      && (forall i: int :: i in r <==> 0 <= i < |solar| && solar[i][t] > 0.0)
      && (forall j, k :: 0 <= j < k < |r| ==> r[j] < r[k])
  {
    var r := PvBuses(solar, nt)[t];
    forall i: int | i in r
      ensures 0 <= i < |solar| && solar[i][t] > 0.0
    {
      var j :| 0 <= j < |r| && r[j] == i;
    }
  }

  /** The arguments one subproblem solve receives. */
  datatype ScenarioInput = ScenarioInput(
    sc: nat,
    weight: real,
    pvBuses: seq<seq<nat>>,
    bounds: StorageBounds)

  /** The cost and the active- and reactive-power balance duals one solve returns. */
  datatype ScenarioResult = ScenarioResult(cost: real, lambda: Grid, mu: Grid)

  /**
   * `SOC_ACOPF_2D_alocation` with the network and the scenario's demand
   * data bound in: `None` when the solve raises.
   */
  type Solver = ScenarioInput -> Option<ScenarioResult>

  /** Scenario `sc`'s input: its weight `Yp_scenario[sc]`, its solar buses and the shared bounds. */
  function ScenarioInputOf(sc: nat, freq: seq<real>, solar: Grid, nt: nat, bounds: StorageBounds): ScenarioInput
    requires sc < |freq|
    requires forall i :: 0 <= i < |solar| ==> nt <= |solar[i]|
  {
    ScenarioInput(sc, Weights(freq)[sc], PvBuses(solar, nt), bounds)
  }

  /** `inputs`: one entry per scenario `sc` in `range(NP)`. */
  function ScenarioInputs(freq: seq<real>, solar: seq<Grid>, nBus: nat, nt: nat, bounds: StorageBounds): seq<ScenarioInput>
    requires |solar| <= |freq|
    requires forall sc :: 0 <= sc < |solar| ==> Shaped(solar[sc], nBus, nt)
  {
    seq(|solar|, sc requires 0 <= sc < |solar| =>
      assert Shaped(solar[sc], nBus, nt);
      ScenarioInputOf(sc, freq, solar[sc], nt, bounds))
  }

  /** Both dual tables have shape (N_bus, NT). */
  predicate ResultShaped(r: ScenarioResult, nBus: nat, nt: nat) {
    Shaped(r.lambda, nBus, nt) && Shaped(r.mu, nBus, nt)
  }

  /**
   * One solve as the coordinator can use it: a raise, or duals whose shape
   * cannot be stored in the (N_bus, NT) slots, is a failure.
   */
  function Solve(solver: Solver, input: ScenarioInput, nBus: nat, nt: nat): (r: Option<ScenarioResult>)
    ensures r.Some? <==> solver(input).Some? && ResultShaped(solver(input).value, nBus, nt)
    ensures r.Some? ==> r == solver(input)
  {
    match solver(input)
    case None => None
    case Some(res) => if ResultShaped(res, nBus, nt) then Some(res) else None
  }

  /**
   * `pool.starmap(compute_SOC_ACOPF, inputs)` run as a sequential map: the
   * results in input order, or the first scenario whose solve failed.
   */
  function Dispatch(solver: Solver, inputs: seq<ScenarioInput>, nBus: nat, nt: nat): (r: Result<seq<ScenarioResult>, nat>)
    ensures r.Success? ==>
      && |r.value| == |inputs|
      && forall k :: 0 <= k < |inputs| ==> Solve(solver, inputs[k], nBus, nt) == Some(r.value[k])
    ensures r.Failure? ==>
      && r.error < |inputs|
      && Solve(solver, inputs[r.error], nBus, nt).None?
      && forall k :: 0 <= k < r.error ==> Solve(solver, inputs[k], nBus, nt).Some?
    decreases |inputs|
  {
    if |inputs| == 0 then Success([])
    else match Solve(solver, inputs[0], nBus, nt)
      case None => Failure(0)
      case Some(res) =>
        match Dispatch(solver, inputs[1..], nBus, nt)
        case Failure(k) => Failure(k + 1)
        case Success(rest) => Success([res] + rest)
  }

  /** A dispatch round fails exactly when some scenario's solve fails. */
  lemma DispatchFailsIff(solver: Solver, inputs: seq<ScenarioInput>, nBus: nat, nt: nat)
    ensures Dispatch(solver, inputs, nBus, nt).Failure?
        <==> exists k :: 0 <= k < |inputs| && Solve(solver, inputs[k], nBus, nt).None?
  {
  }

  /**
   * Result `k` of a round is what the solver returned on scenario `k`'s own
   * input, which carries index `k`, weight `Yp * freq[k]` and the solar
   * bus lists of scenario `k`'s own ceilings.
   */
  lemma DispatchAttribution(solver: Solver, freq: seq<real>, solar: seq<Grid>, nBus: nat, nt: nat,
                            bounds: StorageBounds, k: nat)
    requires |solar| <= |freq| && k < |solar|
    requires forall sc :: 0 <= sc < |solar| ==> Shaped(solar[sc], nBus, nt)
    requires Dispatch(solver, ScenarioInputs(freq, solar, nBus, nt, bounds), nBus, nt).Success?
    ensures var inputs := ScenarioInputs(freq, solar, nBus, nt, bounds);
      var rs := Dispatch(solver, inputs, nBus, nt).value;
      && |rs| == |solar|
      && inputs[k].sc == k && inputs[k].weight == Yp * freq[k] && inputs[k].bounds == bounds
      && inputs[k].pvBuses == PvBuses(solar[k], nt)
      && solver(inputs[k]) == Some(rs[k])
      && ResultShaped(rs[k], nBus, nt)
  {
  }
}

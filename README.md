# Benders coordinator for storage siting and sizing

This project models the decomposition loop that plans energy-storage units in
a distribution network (`Functions/run.py`). A master investment problem
(`Allocation_2D`) picks the buses that get storage and sizes them. One convex
optimal-power-flow subproblem per demand/solar scenario (`SOC_ACOPF_2D_alocation`)
prices that plan. The coordinator runs the loop between them and keeps its
history buffers:

- It turns the master's 0/1 selection, ratings and capacities into per-bus,
  per-time-step charge, discharge and state-of-charge bounds. Every bound is
  zero at a bus that was not selected.
- It builds each scenario's input: the buses with a positive solar ceiling at
  each time step, and the weight `Yp * freq_scenario[sc]`.
- It runs every scenario. One failure aborts the iteration.
- It writes the costs and the negated duals into column `iter` of
  `obj_2nd`, `lambda_2nd` and `mu_2nd`, and the plan into `previous_rating`,
  `previous_cap`, `ESS_loc`, `invest_save` and `alpha_store`.
- It computes the upper bound (sum of scenario costs + investment + fairness
  term) and the lower bound (master objective), and tests
  `|UB - LB| <= UB * 1e-2`.
- It stops at convergence or at `lim_iter` and saves the first `iter` columns
  of the ten saved buffers (`Benders.Output`).

Both solvers are parameters of type `Benders.Master` and `Scenarios.Solver`.
They may return any value, or `None` for a solve that raised. Every property
below holds whatever they return, provided the master only reads the buffers
it is passed (see "## Left out").

Layout:

- `wrappers.dfy`: `Option` and `Result`.
- `tensors.dfy`: per-bus, per-time-step tables, `np.where`-style index selection, negation.
- `storage.dfy`: the master's plan and its translation into subproblem bounds. The bounds are built in place on zeroed arrays, as the source does.
- `scenarios.dfy`: scenario frequencies and weights, solar bus lists, and the fail-fast map over scenarios.
- `benders.dfy`: the loop as functions of a value `State`. `Step` is one pass. `RunFrom` is the whole loop. `Saved` is the truncated output. Lemmas about them state the properties.
- `coordinator.dfy`: class `Coordinator`. Its buffers are arrays of `lim_iter` columns, updated in place by methods proved equal to `Step` and `RunFrom`.

Representation: element `k` of each buffer array is column `k` of the numpy
buffer with the same name. `obj2nd[k][sc]` is `obj_2nd[sc, k]`.
`lambda2nd[k][sc][i][t]` is `lambda_2nd[sc, i, t, k]`. The iteration axis is
outermost here and last in numpy. The entries are the same. Numbers are `real`.

## Model

| member | source | states |
|---|---|---|
| `Tensors.IndicesWhere` | Functions/run.py:220 | The selected indices are exactly those whose entry passes the test, each below the length, strictly increasing. |
| `Tensors.NegateInvolutive` | Functions/run.py:257-258 | Negating the stored duals gives back the returned duals, so the stored tensor determines the returned one. |
| `Storage.FillSelectedRows` | Functions/run.py:223-235 | A zeroed (N_bus, NT) array whose `IndESS` rows are overwritten equals the table that repeats the bus's value on selected rows and is zero on all others. |
| `Storage.BuildBounds` | Functions/run.py:220-239 | The bounds built in place equal `PlanBounds` of the plan: zero lower limits and zero `ESS_soc0`, rating ceilings for charge and discharge, capacity ceiling for state of charge. |
| `Storage.PlanBoundsAt` | Functions/run.py:220-235 | At every bus and time step, each lower bound and `soc0` is 0. Each upper bound equals `Max_rating[i]` (charge, discharge) or `Max_capacity[i]` (state of charge) when `ESS_loc[i] == 1`, and 0 otherwise. |
| `Storage.NoSelectionNoStorage` | Functions/run.py:220-235 | A plan that selects no bus makes all three upper-bound tables the zero table. |
| `Storage.BoundsOrdered` | Functions/run.py:223-235 | With a non-negative rating and capacity, every lower limit is at most its upper limit. |
| `Scenarios.Frequencies` | Functions/run.py:66 | `freq_scenario` has one entry per row of the scenario table, entry `i` is `dp[i]` divided by the total of `dp`, and the entries sum to 1. |
| `Scenarios.FrequenciesNonNegative` | Functions/run.py:66 | Non-negative relative frequencies give non-negative normalised frequencies. |
| `Scenarios.Weights` | Functions/run.py:19 | `Yp_scenario` has one entry per row of the scenario table, entry `k` is `Yp * freq[k]`, and the entries sum to `Yp` times the sum of the frequencies. |
| `Scenarios.WeightsOfFrequencies` | Functions/run.py:19 | The weights of all the normalised frequencies sum to `Yp`. |
| `Scenarios.WeightsUsed` | Functions/run.py:19-25 | The `NP` weights that reach a solve sum to `Yp` times the share of the first `NP` rows in the total of `dp`. That is `Yp` only when the table has no further rows. |
| `Scenarios.PvBusesExact` | Functions/run.py:18 | `idx_PV_sc[t]` contains exactly the buses whose solar ceiling at time `t` is positive, in strictly increasing order, with one list per time step. |
| `Scenarios.Solve` | Functions/run.py:21-38 | One solve succeeds exactly when the solver returns and both dual tables have shape (N_bus, NT), the shape the stores at run.py:257-258 write into. It then gives the solver's own result. |
| `Scenarios.Dispatch` | Functions/run.py:243-252 | On success, result `k` is the result of solve `k`, one per input, in input order. On failure, the reported scenario is the first whose solve failed, and every earlier one succeeded. |
| `Scenarios.DispatchFailsIff` | Functions/run.py:251-252 | A round fails exactly when some scenario's solve fails. |
| `Scenarios.DispatchAttribution` | Functions/run.py:243-256 | Result `k` is what the solver returned on scenario `k`'s input. That input carries index `k`, weight `Yp * freq[k]`, the solar bus lists `idx_PV_sc` of scenario `k`'s own ceilings `Pn_solar_bound[k, 1]`, and the iteration's bounds. |
| `Benders.Init` | Functions/run.py:197-211 | The buffers have `lim_iter` columns of the fixed shapes, with `iter = 0` and the flag down. |
| `Benders.InitZeroed` | Functions/run.py:197-208 | Every column of every buffer starts at zero. |
| `Benders.ConvergedIff` | Functions/run.py:266 | The test passes exactly when UB >= 0 and LB lies within 1% of UB on either side. |
| `Benders.Step` | Functions/run.py:213-277 | A successful pass keeps every buffer's shape and the zero fairness term, and advances `iter` by one. A failed pass reports the current iteration. |
| `Benders.StepFails` | Functions/run.py:213-252 | A master that raises or returns a misshaped plan ends the pass with `MasterFailed(iter)`. Otherwise a failing dispatch ends it with `ScenarioFailed(iter, sc)`, where `sc` is the scenario the dispatch names. A pass succeeds only when the master and every solve succeeded. |
| `Benders.StepFolds` | Functions/run.py:255-266 | Column `iter` gets each scenario's cost and the element-wise negation of its `lambda` and `mu`, taken from scenario `sc`'s own solve. It also gets the plan's rating, capacity, selection, investment and `alpha`. UB is the unweighted cost sum plus the investment cost. LB is the master objective. The flag is raised exactly when they meet the tolerance. |
| `Benders.StepWritesOneColumn` | Functions/run.py:255-265 | A pass leaves every column other than `iter` unchanged in every buffer, and never changes the fairness buffer. |
| `Benders.InitConsistent` | Functions/run.py:197-211 | The initial state satisfies the loop invariant `Consistent`. |
| `Benders.StepKeepsConsistent` | Functions/run.py:255-277 | A pass from a consistent, unconverged state keeps these facts: every completed UB is its cost sum plus its investment, the flag reflects the last iteration, no earlier iteration converged, and columns from `iter` on are still zero. |
| `Benders.RunFromOutcome` | Functions/run.py:210-277 | For any master and solver, the loop either stops at a fault of an iteration below the limit, or ends consistent with `iter <= lim_iter`, either converged or at the limit. |
| `Benders.RunFromKeepsColumns` | Functions/run.py:213-277 | The loop never rewrites a column completed before it started. |
| `Benders.FinalVerdict` | Functions/run.py:213-277 | When converged, iteration `iter - 1` is the first that met the tolerance. Otherwise `iter == lim_iter` and no iteration met it. |
| `Benders.SavedCompleted` | Functions/run.py:283-292 | Every saved array has exactly `iter` columns, each equal to the same column of its buffer, and each saved UB is its saved cost sum plus its saved investment. |
| `Coordination.Coordinator.constructor` | Functions/run.py:197-211 | The arrays are allocated as the zeroed buffers of `Init`. |
| `Coordination.Coordinator.RecordPlan` | Functions/run.py:215 | Writes the master's selection, `alpha` and investment cost into column `iter` and nothing else. |
| `Coordination.Coordinator.FoldResults` | Functions/run.py:255-258 | The `for sc` loop leaves the state as `WithResults`: column `iter` holds every cost and negated dual, and no other column changes. |
| `Coordination.Coordinator.RecordBounds` | Functions/run.py:260-277 | Writes rating, capacity, UB and LB into column `iter`, raises the flag when converged, advances `iter`, and leaves the state as `WithBounds`. |
| `Coordination.Coordinator.Iterate` | Functions/run.py:215-277 | On success the new buffers are `Step` of the old ones. A failed master changes nothing. A failed scenario leaves only the master's outputs written, with `iter` unchanged. |
| `Coordination.Coordinator.Run` | Functions/run.py:213-292 | The loop ends as `RunFrom` says. On success it returns the prefix of length `iter` with `iter <= lim_iter`, converged or at the limit, and consistent. On a fault it returns the fault of iteration `iter < lim_iter`. |

## Left out

- `Allocation_2D` and `SOC_ACOPF_2D_alocation`, and cvxpy under them, are not part of this model. They are function parameters (`Benders.Master`, `Scenarios.Solver`) that may return anything. So the economic properties of a real solve (lower bound non-decreasing, LB <= UB, dual prices as marginal costs) cannot be stated. The candidate set, sizing bounds and unit costs (run.py:43, 170-178) are closed over in the master parameter. The network data and each scenario's demand are closed over in the solver parameter.
- `Benders.Master` receives the history as a value, so it cannot write into it. `Allocation_2D` receives the live numpy buffers `obj_2nd`, `lambda_2nd`, `mu_2nd`, `previous_rating` and `previous_cap` by reference (run.py:215-216), and Python would let it write into them. The model assumes the master only reads them. `Benders.StepWritesOneColumn`, `Benders.RunFromKeepsColumns` and the zero future columns in `Benders.Consistent` depend on that assumption.
- `multiprocessing.Pool` (run.py:251-252): the dispatch is a sequential map over `range(NP)` in input order. When several scenarios fail, the model reports the lowest-indexed one.
- CSV and pandas ingestion and preprocessing (run.py:52-167): the inputs are the prepared `Config` (`NP`, `N_bus`, `NT`, `lim_iter`, the relative frequencies `dp`, and the solar ceilings `Pn_solar_bound[sc, 1]`). The scenario table may have more rows than `NP`. Only the first `NP` weights are used (`Scenarios.WeightsUsed`). A table with fewer than `NP` rows, which would make `Yp_scenario[sc]` raise, is excluded by `Benders.ConfigValid`.
- The first, dead buffer allocation (run.py:181-191) is not modelled. The scenario count is one value `Config.np`, not the reassignment of `NP` from data (run.py:75) to 10 (run.py:195).
- Printing, wall-clock timing and the `Elapsed_time` buffer (run.py:22, 32, 37, 208, 267-274). The `np.save` file output (run.py:281-293) is kept only as the prefix of length `iter` (`Benders.Saved`).
- Floating point: numbers are `real`. Rounding, NaN and solver tolerance in the gap test are not modelled. `Scenarios.Frequencies` requires a non-zero total, because with a zero total numpy would produce inf or NaN entries.
- `Scenarios.Solve`: numpy would also store dual arrays that broadcast to (N_bus, NT), for example a scalar. The model treats every return not of shape (N_bus, NT) as a failed solve. A master plan whose vectors do not have N_bus entries is likewise treated as a failed master.
- On any exception the source ends the program before `np.save`, so nothing is saved. `Coordination.Coordinator.Run` therefore returns only the fault, and no output. A design that keeps the partial history readable after an abort would differ; this follows the code.
- The upper bound is the unweighted sum of the returned scenario costs (run.py:264), as the code computes it. The scenario weight is passed into each solve as `Yp_scenario[sc]`. A design that weights the sum in the coordinator would differ; this follows the code.
- `Storage.BuildBounds` builds one zeroed table and uses it for all three lower limits, where the source allocates three identical zero arrays. The values are the same.

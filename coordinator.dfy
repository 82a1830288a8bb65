/**
 * The `__main__` driver of Functions/run.py (lines 197-293) in its own
 * imperative form: pre-allocated history buffers updated in place by a
 * `while` loop, proved to follow `Benders.Step` and `Benders.RunFrom`.
 */
module Coordination {
  import opened Wrappers
  import opened Tensors
  import opened Storage
  import opened Scenarios
  import opened Benders

  /**
   * The decomposition coordinator. Every buffer is an array of `lim_iter`
   * columns; element `k` of an array is column `k` of the numpy buffer of the
   * same name (`obj2nd[k][sc]` is `obj_2nd[sc, k]`, `lambda2nd[k][sc]` is
   * `lambda_2nd[sc, :, :, k]`, `previousRating[k]` is `previous_rating[:, k]`).
   */
  class Coordinator {
    const cfg: Config
    const obj2nd: array<seq<real>>
    const lambda2nd: array<seq<Grid>>
    const mu2nd: array<seq<Grid>>
    const previousRating: array<seq<real>>
    const previousCap: array<seq<real>>
    const essLoc: array<seq<real>>
    const alphaStore: array<real>
    const upperBSave: array<real>
    const lowerBSave: array<real>
    const fairnessPrice: array<real>
    const investSave: array<real>
    var iter: nat
    var convergence: bool

    /** The buffers, counter and flag as a value. */
    function Current(): State
      reads this, obj2nd, lambda2nd, mu2nd, previousRating, previousCap, essLoc
      reads alphaStore, upperBSave, lowerBSave, fairnessPrice, investSave
    {
      State(iter, convergence, obj2nd[..], lambda2nd[..], mu2nd[..], previousRating[..],
            previousCap[..], essLoc[..], alphaStore[..], upperBSave[..], lowerBSave[..],
            fairnessPrice[..], investSave[..])
    }

    ghost predicate Valid()
      reads this, obj2nd, lambda2nd, mu2nd, previousRating, previousCap, essLoc
      reads alphaStore, upperBSave, lowerBSave, fairnessPrice, investSave
    {
      && ConfigValid(cfg)
      && obj2nd != previousRating && obj2nd != previousCap && obj2nd != essLoc
      && previousRating != previousCap && previousRating != essLoc && previousCap != essLoc
      && lambda2nd != mu2nd
      && alphaStore != upperBSave && alphaStore != lowerBSave && alphaStore != fairnessPrice
      && alphaStore != investSave && upperBSave != lowerBSave && upperBSave != fairnessPrice
      && upperBSave != investSave && lowerBSave != fairnessPrice && lowerBSave != investSave
      && fairnessPrice != investSave
      && WellFormed(cfg, Current())
    }

    /** Allocates the zeroed buffers (lines 197-208) and sets `iter = 0`, `convergence = 0`. */
    constructor (c: Config)
      requires ConfigValid(c)
      ensures Valid() && cfg == c && Current() == Init(c)
    {
      cfg := c;
      obj2nd := new seq<real>[c.limIter](_ => Zeros(c.np));
      lambda2nd := new seq<Grid>[c.limIter](_ => ZeroDuals(c));
      mu2nd := new seq<Grid>[c.limIter](_ => ZeroDuals(c));
      previousRating := new seq<real>[c.limIter](_ => Zeros(c.nBus));
      previousCap := new seq<real>[c.limIter](_ => Zeros(c.nBus));
      essLoc := new seq<real>[c.limIter](_ => Zeros(c.nBus));
      alphaStore := new real[c.limIter](_ => 0.0);
      upperBSave := new real[c.limIter](_ => 0.0);
      lowerBSave := new real[c.limIter](_ => 0.0);
      fairnessPrice := new real[c.limIter](_ => 0.0);
      investSave := new real[c.limIter](_ => 0.0);
      iter := 0;
      convergence := false;
      new;
      ghost var init := Init(c);
      assert obj2nd[..] == init.obj by { }
      assert lambda2nd[..] == init.lambda by { }
      assert mu2nd[..] == init.mu by { }
      assert previousRating[..] == init.rating by { }
      assert previousCap[..] == init.capacity by { }
      assert essLoc[..] == init.loc by { }
      assert alphaStore[..] == init.alpha by { }
      assert upperBSave[..] == init.upper by { }
      assert lowerBSave[..] == init.lower by { }
      assert fairnessPrice[..] == init.fairness by { }
      assert investSave[..] == init.invest by { }
      assert Current() == init;
    }

    /**
     * One pass of the loop body (lines 215-277). On success the new state
     * is `Step` of the old one. On a fault `iter` stays put and nothing is
     * recorded for the scenarios, the ratings or the bounds: a failed master
     * changes nothing, and a failed scenario leaves only the master's own
     * outputs written into column `iter`.
     */
    method Iterate(master: Master, solver: Solver) returns (fault: Option<Fault>)
      requires Valid() && iter < cfg.limIter
      modifies this, obj2nd, lambda2nd, mu2nd, previousRating, previousCap, essLoc
      modifies alphaStore, upperBSave, lowerBSave, investSave
      ensures Valid()
      ensures var r := Step(cfg, old(Current()), master, solver);
        && (r.Success? ==> fault.None? && Current() == r.value)
        && (r.Failure? ==> fault == Some(r.error))
      ensures fault.Some? && fault.value.MasterFailed? ==> Current() == old(Current())
      ensures fault.Some? && fault.value.ScenarioFailed? ==>
        var s := old(Current());
        var answer := master(s.iter, HistoryOf(s));
        answer.Some? && Current() == WithPlan(s, answer.value)
    {
      ghost var s0 := Current();
      var k := iter;
      var answer := master(k, History(obj2nd[..], lambda2nd[..], mu2nd[..], previousRating[..], previousCap[..]));
      assert answer == master(s0.iter, HistoryOf(s0));
      if answer.None? || !PlanShaped(answer.value, cfg.nBus) {
        assert Step(cfg, s0, master, solver) == Failure(MasterFailed(k));
        return Some(MasterFailed(k));
      }
      var plan := answer.value;
      RecordPlan(plan);

      var bounds := BuildBounds(plan, cfg.nBus, cfg.nt);
      var inputs := ScenarioInputs(Frequencies(cfg.dp), cfg.solar, cfg.nBus, cfg.nt, bounds);
      var results := Dispatch(solver, inputs, cfg.nBus, cfg.nt);
      assert inputs == Inputs(cfg, plan);
      if results.Failure? {
        assert Step(cfg, s0, master, solver) == Failure(ScenarioFailed(k, results.error));
        return Some(ScenarioFailed(k, results.error));
      }
      var rs := results.value;

      FoldResults(rs);
      RecordBounds(plan);
      fault := None;
      assert Current() == WithBounds(WithResults(WithPlan(s0, plan), rs), plan);
    }

    /**
     * The master's own outputs land in column `k` as it returns (line 215):
     * `invest_save[k]`, `ESS_loc[:, k]` and `alpha_store[k]`.
     */
    method RecordPlan(plan: Plan)
      requires Valid() && iter < cfg.limIter && PlanShaped(plan, cfg.nBus)
      modifies investSave, essLoc, alphaStore
      ensures Valid() && Current() == WithPlan(old(Current()), plan)
    {
      var k := iter;
      investSave[k] := plan.invest;
      essLoc[k] := plan.loc;
      alphaStore[k] := plan.alpha;
      ghost var s := old(Current());
      WithPlanWellFormed(cfg, s, plan);
      assert essLoc[..] == s.loc[k := plan.loc];
      assert alphaStore[..] == s.alpha[k := plan.alpha];
      assert investSave[..] == s.invest[k := plan.invest];
    }

    /**
     * Lines 260-277: the plan's rating and capacity go into column `k`, the
     * upper bound is the column's cost sum plus the investment cost and the
     * fairness term, the lower bound the master's objective; the flag is
     * raised when they meet the tolerance, and `iter` advances.
     */
    method RecordBounds(plan: Plan)
      requires Valid() && iter < cfg.limIter && PlanShaped(plan, cfg.nBus)
      modifies this`iter, this`convergence, previousRating, previousCap, upperBSave, lowerBSave
      ensures Valid() && Current() == WithBounds(old(Current()), plan)
    {
      var k := iter;
      previousRating[k] := plan.rating;
      previousCap[k] := plan.capacity;
      upperBSave[k] := Sum(obj2nd[k]) + investSave[k] + fairnessPrice[k];
      lowerBSave[k] := plan.objective;
      if Converged(upperBSave[k], lowerBSave[k]) {
        convergence := true;
      }
      iter := k + 1;
      ghost var s := old(Current());
      assert previousRating[..] == s.rating[k := plan.rating];
      assert previousCap[..] == s.capacity[k := plan.capacity];
      assert upperBSave[..] == s.upper[k := Sum(s.obj[k]) + s.invest[k] + s.fairness[k]];
      assert lowerBSave[..] == s.lower[k := plan.objective];
      WithBoundsWellFormed(cfg, s, plan);
    }

    /**
     * The `for sc, (cost, lambda_aloc, mu_aloc) in enumerate(results)` loop
     * (lines 255-258): column `k` of `obj_2nd` receives every scenario's
     * cost and the columns of `lambda_2nd` and `mu_2nd` the negated duals;
     * no other column changes.
     */
    method FoldResults(rs: seq<ScenarioResult>)
      requires Valid() && iter < cfg.limIter && |rs| == cfg.np
      requires forall sc :: 0 <= sc < cfg.np ==> ResultShaped(rs[sc], cfg.nBus, cfg.nt)
      modifies obj2nd, lambda2nd, mu2nd
      ensures Valid() && Current() == WithResults(old(Current()), rs)
    {
      var k := iter;
      var sc := 0;
      while sc < |rs|
        invariant 0 <= sc <= |rs|
        invariant |obj2nd[k]| == |rs| && |lambda2nd[k]| == |rs| && |mu2nd[k]| == |rs|
        invariant forall j :: 0 <= j < sc ==>
          && obj2nd[k][j] == rs[j].cost
          && lambda2nd[k][j] == Negate(rs[j].lambda)
          && mu2nd[k][j] == Negate(rs[j].mu)
        invariant forall j :: 0 <= j < obj2nd.Length && j != k ==> obj2nd[j] == old(obj2nd[j])
        invariant forall j :: 0 <= j < lambda2nd.Length && j != k ==> lambda2nd[j] == old(lambda2nd[j])
        invariant forall j :: 0 <= j < mu2nd.Length && j != k ==> mu2nd[j] == old(mu2nd[j])
      {
        obj2nd[k] := obj2nd[k][sc := rs[sc].cost];
        lambda2nd[k] := lambda2nd[k][sc := Negate(rs[sc].lambda)];
        mu2nd[k] := mu2nd[k][sc := Negate(rs[sc].mu)];
        sc := sc + 1;
      }
      assert obj2nd[k] == Costs(rs);
      assert lambda2nd[k] == NegatedLambdas(rs);
      assert mu2nd[k] == NegatedMus(rs);
      ghost var s := old(Current());
      assert obj2nd[..] == s.obj[k := Costs(rs)];
      assert lambda2nd[..] == s.lambda[k := NegatedLambdas(rs)];
      assert mu2nd[..] == s.mu[k := NegatedMus(rs)];
      WithResultsWellFormed(cfg, s, rs);
    }

    /**
     * The `while` loop (lines 213-277) and the truncated arrays saved after
     * it (lines 283-292): the run ends as `RunFrom` says, with the first
     * `iter` columns of every buffer, or with the fault that stopped it.
     */
    method Run(master: Master, solver: Solver) returns (out: Result<Output, Fault>)
      requires Valid() && Consistent(cfg, Current())
      modifies this, obj2nd, lambda2nd, mu2nd, previousRating, previousCap, essLoc
      modifies alphaStore, upperBSave, lowerBSave, investSave
      ensures Valid()
      ensures var r := RunFrom(cfg, old(Current()), master, solver);
        && (r.Success? ==> Current() == r.value && out == Success(Saved(cfg, r.value)))
        && (r.Failure? ==> out == Failure(r.error))
      ensures out.Success? ==>
        && iter <= cfg.limIter && (convergence || iter == cfg.limIter)
        && Consistent(cfg, Current()) && |out.value.upper| == iter
      ensures out.Failure? ==> old(iter) <= out.error.iter == iter < cfg.limIter
    {
      ghost var s0 := Current();
      RunFromOutcome(cfg, s0, master, solver);
      while iter < cfg.limIter && !convergence
        invariant Valid()
        invariant RunFrom(cfg, Current(), master, solver) == RunFrom(cfg, s0, master, solver)
        invariant s0.iter <= iter
        decreases cfg.limIter - iter
      {
        var fault := Iterate(master, solver);
        if fault.Some? {
          return Failure(fault.value);
        }
      }
      out := Success(Saved(cfg, Current()));
    }
  }
}

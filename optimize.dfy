/** The optimisers the fitting scripts call, as opaque parameters, and the
    selection rule the multi-start loops apply to their results. */
module Optimize {
  import opened Common
  import opened Extrema

  /** The fields of scipy's `OptimizeResult` that the scripts read. */
  datatype OptResult = OptResult(x: seq<real>, fun: real, success: bool, message: string)

  /** A `(low, high)` pair of the `bounds` argument. */
  datatype Bound = Bound(lo: real, hi: real)

  /** A Python objective: a value, or an exception that escapes it. */
  type Objective = seq<real> -> Outcome<real>

  /** `minimize(objective, x0, method='L-BFGS-B', bounds=bounds, ...)`. */
  type Minimizer = (Objective, seq<real>, seq<Bound>) -> OptResult

  /** `differential_evolution(objective, bounds, ...)`. */
  type GlobalMinimizer = (Objective, seq<Bound>) -> OptResult

  predicate InBounds(x: seq<real>, bounds: seq<Bound>)
  {
    |x| == |bounds| && forall k :: 0 <= k < |x| ==> bounds[k].lo <= x[k] <= bounds[k].hi
  }

  /** What the model relies on from L-BFGS-B: its answer has one coordinate
      per bound and stays inside the box. */
  ghost predicate RespectsBounds(minimize: Minimizer)
  {
    forall f, x0, bounds :: InBounds(minimize(f, x0, bounds).x, bounds)
  }

  /** The same for differential evolution, whose polishing step also keeps
      to the box. */
  ghost predicate GlobalRespectsBounds(search: GlobalMinimizer)
  {
    forall f, bounds :: InBounds(search(f, bounds).x, bounds)
  }

  /** The `fun` of every result, in order. */
  function Funs(results: seq<OptResult>): (fs: seq<real>)
    ensures |fs| == |results|
    ensures forall k :: 0 <= k < |results| ==> fs[k] == results[k].fun
  {
    seq(|results|, k requires 0 <= k < |results| => results[k].fun)
  }

  /** The result one minimisation per start produces, in start order. */
  function Runs(minimize: Minimizer, f: Objective, starts: seq<seq<real>>, bounds: seq<Bound>): (rs: seq<OptResult>)
    ensures |rs| == |starts|
    ensures forall k :: 0 <= k < |starts| ==> rs[k] == minimize(f, starts[k], bounds)
  {
    seq(|starts|, k requires 0 <= k < |starts| => minimize(f, starts[k], bounds))
  }

  /** One step of `if best_result is None or result.fun < best_result.fun:
      best_result = result`. */
  function Keep(best: Option<OptResult>, result: OptResult): Option<OptResult>
  {
    if best.None? || result.fun < best.value.fun then Some(result) else best
  }

  /** Result j has the smallest `fun`, and every earlier one a larger `fun`. */
  predicate FirstMinimum(runs: seq<OptResult>, j: int)
    requires 0 <= j < |runs|
  {
    (forall k :: 0 <= k < |runs| ==> runs[j].fun <= runs[k].fun) &&
    (forall k :: 0 <= k < j ==> runs[j].fun < runs[k].fun)
  }

  /** The result the loop holds after seeing `runs`: none before the first,
      then the first result whose `fun` is smallest. */
  function BestSoFar(runs: seq<OptResult>): (b: Option<OptResult>)
    ensures b.None? <==> |runs| == 0
    ensures b.Some? ==> exists j :: 0 <= j < |runs| && b.value == runs[j] && FirstMinimum(runs, j)
  {
    if |runs| == 0 then None
    else
      var j := FirstArgMin(Funs(runs));
      Some(runs[j])
  }

  /** Keeping a strictly better result, and nothing else, is exactly how the
      first minimum is found one result at a time. */
  lemma KeepExtendsBest(runs: seq<OptResult>, result: OptResult)
    ensures BestSoFar(runs + [result]) == Keep(BestSoFar(runs), result)
  {
    if |runs| > 0 {
      assert Funs(runs + [result]) == Funs(runs) + [result.fun];
      FirstArgMinSnoc(Funs(runs), result.fun);
    }
  }

  /** Running one more start appends its result. */
  lemma RunsSnoc(minimize: Minimizer, f: Objective, starts: seq<seq<real>>, x0: seq<real>, bounds: seq<Bound>)
    ensures Runs(minimize, f, starts + [x0], bounds) == Runs(minimize, f, starts, bounds) + [minimize(f, x0, bounds)]
  {
  }

  /** The kept result of a non-empty run stays in the box and is no worse
      than any run. */
  lemma BestOfRuns(minimize: Minimizer, f: Objective, starts: seq<seq<real>>, bounds: seq<Bound>)
    requires RespectsBounds(minimize)
    requires |starts| > 0
    ensures BestSoFar(Runs(minimize, f, starts, bounds)).Some?
    ensures InBounds(BestSoFar(Runs(minimize, f, starts, bounds)).value.x, bounds)
    ensures forall k :: 0 <= k < |starts| ==>
      BestSoFar(Runs(minimize, f, starts, bounds)).value.fun <= minimize(f, starts[k], bounds).fun
  {
    var runs := Runs(minimize, f, starts, bounds);
    var j :| 0 <= j < |runs| && BestSoFar(runs).value == runs[j] && FirstMinimum(runs, j);
    assert runs[j] == minimize(f, starts[j], bounds);
  }

  /** Taking one more start appends it. */
  lemma TakeOneMore(starts: seq<seq<real>>, k: int)
    requires 0 <= k < |starts|
    ensures starts[..k + 1] == starts[..k] + [starts[k]]
  {
  }

  /** One more start in a multi-start loop: the results seen grow by its
      result, and keeping it only when strictly better keeps the first best. */
  lemma RunOneMore(minimize: Minimizer, f: Objective, starts: seq<seq<real>>, bounds: seq<Bound>,
                   k: int, seen: seq<OptResult>, best: Option<OptResult>)
    requires 0 <= k < |starts|
    requires seen == Runs(minimize, f, starts[..k], bounds)
    requires best == BestSoFar(seen)
    ensures seen + [minimize(f, starts[k], bounds)] == Runs(minimize, f, starts[..k + 1], bounds)
    ensures Keep(best, minimize(f, starts[k], bounds)) == BestSoFar(seen + [minimize(f, starts[k], bounds)])
  {
    TakeOneMore(starts, k);
    RunsSnoc(minimize, f, starts[..k], starts[k], bounds);
    KeepExtendsBest(seen, minimize(f, starts[k], bounds));
  }
}

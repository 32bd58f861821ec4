/**
 * Collection of efficient-frontier points (`get_ef_points`, app.py lines 109-143).
 *
 * The optimiser object is outside the model. It is represented by a solver: a
 * total function from (objective, parameter value) to the outcome of one solve,
 * together with the performance the object currently holds, which is what
 * `portfolio_performance()` reports.
 *
 * The source names `exceptions.OptimizationError` and `warnings.warn` without
 * importing either module, so as written an exception raised by a solve would
 * surface as a NameError. The model follows the evident intent of the two
 * handlers: skip the value on an optimisation error, warn and fall through on a
 * ValueError.
 */
module FrontierPoints {
  import opened Outcomes

  /** The three solves the `ef_param` string selects. */
  datatype Objective = MaxQuadraticUtility | EfficientRisk | EfficientReturn

  /** Expected return and volatility of the portfolio the optimiser holds (its Sharpe ratio is discarded). */
  datatype Performance = Performance(ret: real, sigma: real)

  /** What one solve does: succeed with a new portfolio, or raise one of two exceptions. */
  datatype SolveOutcome = Solved(perf: Performance) | OptimizationError | ValueError

  /** The errors that leave get_ef_points: an unknown `ef_param`, or asking for the performance of an optimiser that holds no weights. */
  datatype EfError = NotImplemented | NoWeights

  /** The two parallel lists `mus` and `sigmas`. */
  datatype Frontier = Frontier(mus: seq<real>, sigmas: seq<real>)

  /** The state of the loop: the two lists so far and the performance the optimiser holds. */
  datatype ScanState = ScanState(mus: seq<real>, sigmas: seq<real>, held: Option<Performance>)

  type Solver = (Objective, real) -> SolveOutcome

  /** The if/elif chain of app.py:120-129. */
  function Dispatch(efParam: string): (r: Option<Objective>)
    ensures r.Some? <==> efParam == "utility" || efParam == "risk" || efParam == "return"
    ensures efParam == "utility" ==> r == Some(MaxQuadraticUtility)
    ensures efParam == "risk" ==> r == Some(EfficientRisk)
    ensures efParam == "return" ==> r == Some(EfficientReturn)
  {
    if efParam == "utility" then Some(MaxQuadraticUtility)
    else if efParam == "risk" then Some(EfficientRisk)
    else if efParam == "return" then Some(EfficientReturn)
    else None
  }

  /**
   * One iteration after the solve: an optimisation error skips the value; a
   * success replaces the held portfolio; a ValueError keeps the old one. Unless
   * skipped, the held portfolio's performance is appended (and asking for it
   * fails when nothing is held).
   */
  function Step(s: ScanState, outcome: SolveOutcome): (r: Result<ScanState, EfError>)
    ensures r.Err? <==> outcome.ValueError? && s.held.None?
    ensures outcome.OptimizationError? ==> r == Ok(s)
    ensures r.Ok? && !outcome.OptimizationError? ==>
              r.value.held.Some? &&
              r.value.mus == s.mus + [r.value.held.value.ret] &&
              r.value.sigmas == s.sigmas + [r.value.held.value.sigma]
    ensures outcome.Solved? ==> r.Ok? && r.value.held == Some(outcome.perf)
    ensures outcome.ValueError? ==> r.Ok? ==> r.value.held == s.held
  {
    match outcome
    case OptimizationError => Ok(s)
    case Solved(p) => Ok(ScanState(s.mus + [p.ret], s.sigmas + [p.sigma], Some(p)))
    case ValueError =>
      match s.held
      case None => Err(NoWeights)
      case Some(p) => Ok(ScanState(s.mus + [p.ret], s.sigmas + [p.sigma], s.held))
  }

  /** The loop over `values`, starting from state `s`. */
  function Run(solver: Solver, efParam: string, s: ScanState, values: seq<real>): (r: Result<ScanState, EfError>)
    ensures r.Ok? ==> s.mus <= r.value.mus && s.sigmas <= r.value.sigmas
    ensures r.Ok? ==> |r.value.mus| - |s.mus| == |r.value.sigmas| - |s.sigmas| <= |values|
    ensures r.Err? ==> values != []
    decreases |values|
  {
    if values == [] then Ok(s)
    else
      match Dispatch(efParam)
      case None => Err(NotImplemented)
      case Some(objective) =>
        match Step(s, solver(objective, values[0]))
        case Err(e) => Err(e)
        case Ok(next) => Run(solver, efParam, next, values[1..])
  }

  /** The result of get_ef_points on an optimiser that holds `held` on entry. */
  function EfPoints(solver: Solver, efParam: string, paramRange: seq<real>, held: Option<Performance>): (r: Result<Frontier, EfError>)
    ensures r.Ok? ==> |r.value.mus| == |r.value.sigmas| <= |paramRange|
    ensures Dispatch(efParam).None? ==> r == if paramRange == [] then Ok(Frontier([], [])) else Err(NotImplemented)
  {
    match Run(solver, efParam, ScanState([], [], held), paramRange)
    case Ok(s) => Ok(Frontier(s.mus, s.sigmas))
    case Err(e) => Err(e)
  }

  /** get_ef_points: one solve per parameter value, appending (ret, sigma) to two parallel lists. */
  method GetEfPoints(solver: Solver, efParam: string, paramRange: seq<real>, held: Option<Performance>)
    returns (r: Result<Frontier, EfError>)
    ensures r == EfPoints(solver, efParam, paramRange, held)
    ensures r.Ok? ==> |r.value.mus| == |r.value.sigmas| <= |paramRange|
    ensures Dispatch(efParam).None? ==> (r.Ok? <==> paramRange == [])
  {
    var mus, sigmas := [], [];
    var current := held;
    var i := 0;
    while i < |paramRange|
      invariant 0 <= i <= |paramRange|
      invariant Run(solver, efParam, ScanState([], [], held), paramRange)
             == Run(solver, efParam, ScanState(mus, sigmas, current), paramRange[i..])
    {
      var paramValue := paramRange[i];
      var outcome;
      if efParam == "utility" {
        outcome := solver(MaxQuadraticUtility, paramValue);
      } else if efParam == "risk" {
        outcome := solver(EfficientRisk, paramValue);
      } else if efParam == "return" {
        outcome := solver(EfficientReturn, paramValue);
      } else {
        return Err(NotImplemented);
      }
      if outcome.OptimizationError? {
        i := i + 1;
        continue;
      }
      if outcome.Solved? {
        current := Some(outcome.perf);
      }
      // A ValueError only warns and falls through to the performance query below.
      if current.None? {
        return Err(NoWeights);
      }
      mus := mus + [current.value.ret];
      sigmas := sigmas + [current.value.sigma];
      i := i + 1;
    }
    assert paramRange[i..] == [];
    r := Ok(Frontier(mus, sigmas));
  }

  // ---------------------------------------------------------------------------
  // The loop over a concatenation, and what one value contributes
  // ---------------------------------------------------------------------------

  /** Carry on with `values` after a partial run, unless that run already failed. */
  function Continue(r: Result<ScanState, EfError>, solver: Solver, efParam: string, values: seq<real>): Result<ScanState, EfError>
  {
    match r
    case Err(e) => Err(e)
    case Ok(s) => Run(solver, efParam, s, values)
  }

  /** Running over a + b is running over a, then over b from where a stopped. */
  lemma {:induction false} RunAppend(solver: Solver, efParam: string, s: ScanState, a: seq<real>, b: seq<real>)
    ensures Run(solver, efParam, s, a + b) == Continue(Run(solver, efParam, s, a), solver, efParam, b)
    decreases |a|
  {
    if a == [] {
      assert a + b == b;
    } else {
      assert (a + b)[0] == a[0];
      assert (a + b)[1..] == a[1..] + b;
      match Dispatch(efParam)
      case None =>
      case Some(objective) =>
        match Step(s, solver(objective, a[0]))
        case Err(e) =>
        case Ok(next) => RunAppend(solver, efParam, next, a[1..], b);
    }
  }

  /** A parameter value whose solve raises OptimizationError contributes nothing: dropping it changes nothing. */
  lemma OptimizationErrorSkipped(solver: Solver, efParam: string, paramRange: seq<real>, held: Option<Performance>, k: nat)
    requires k < |paramRange|
    requires Dispatch(efParam).Some?
    requires solver(Dispatch(efParam).value, paramRange[k]).OptimizationError?
    ensures EfPoints(solver, efParam, paramRange, held) == EfPoints(solver, efParam, paramRange[..k] + paramRange[k + 1..], held)
  {
    var init := ScanState([], [], held);
    var prefix, rest := paramRange[..k], paramRange[k + 1..];
    assert paramRange == prefix + ([paramRange[k]] + rest);
    RunAppend(solver, efParam, init, prefix, [paramRange[k]] + rest);
    RunAppend(solver, efParam, init, prefix, rest);
    match Run(solver, efParam, init, prefix)
    case Err(e) =>
    case Ok(s) =>
      assert ([paramRange[k]] + rest)[1..] == rest;
  }

  /** The values of a range for which the solve succeeds, in order, with the performance each one reports. */
  function SolvedPoints(solver: Solver, objective: Objective, values: seq<real>): (f: Frontier)
    ensures |f.mus| == |f.sigmas| <= |values|
    decreases |values|
  {
    if values == [] then Frontier([], [])
    else
      var rest := SolvedPoints(solver, objective, values[1..]);
      match solver(objective, values[0])
      case Solved(p) => Frontier([p.ret] + rest.mus, [p.sigma] + rest.sigmas)
      case _ => rest
  }

  predicate NoValueErrors(solver: Solver, objective: Objective, values: seq<real>) {
    forall j :: 0 <= j < |values| ==> !solver(objective, values[j]).ValueError?
  }

  lemma {:induction false} RunWithoutValueErrors(solver: Solver, efParam: string, objective: Objective, s: ScanState, values: seq<real>)
    requires Dispatch(efParam) == Some(objective)
    requires NoValueErrors(solver, objective, values)
    ensures Run(solver, efParam, s, values).Ok?
    ensures Run(solver, efParam, s, values).value.mus == s.mus + SolvedPoints(solver, objective, values).mus
    ensures Run(solver, efParam, s, values).value.sigmas == s.sigmas + SolvedPoints(solver, objective, values).sigmas
    decreases |values|
  {
    if values == [] {
      assert s.mus + [] == s.mus && s.sigmas + [] == s.sigmas;
    } else {
      var rest := values[1..];
      assert NoValueErrors(solver, objective, rest) by {
        forall j | 0 <= j < |rest| ensures !solver(objective, rest[j]).ValueError? {
          assert rest[j] == values[j + 1];
        }
      }
      assert !solver(objective, values[0]).ValueError?;
      match solver(objective, values[0])
      case OptimizationError =>
        RunWithoutValueErrors(solver, efParam, objective, s, rest);
      case Solved(p) =>
        var next := ScanState(s.mus + [p.ret], s.sigmas + [p.sigma], Some(p));
        RunWithoutValueErrors(solver, efParam, objective, next, rest);
        assert s.mus + [p.ret] + SolvedPoints(solver, objective, rest).mus
            == s.mus + ([p.ret] + SolvedPoints(solver, objective, rest).mus);
        assert s.sigmas + [p.sigma] + SolvedPoints(solver, objective, rest).sigmas
            == s.sigmas + ([p.sigma] + SolvedPoints(solver, objective, rest).sigmas);
    }
  }

  /**
   * When no solve raises ValueError, the frontier is exactly the successful solves'
   * (ret, sigma), in the order of the parameter values: nothing else is appended.
   */
  lemma FrontierIsSolvedPoints(solver: Solver, efParam: string, objective: Objective, paramRange: seq<real>, held: Option<Performance>)
    requires Dispatch(efParam) == Some(objective)
    requires NoValueErrors(solver, objective, paramRange)
    ensures EfPoints(solver, efParam, paramRange, held) == Ok(SolvedPoints(solver, objective, paramRange))
  {
    RunWithoutValueErrors(solver, efParam, objective, ScanState([], [], held), paramRange);
    assert [] + SolvedPoints(solver, objective, paramRange).mus == SolvedPoints(solver, objective, paramRange).mus;
    assert [] + SolvedPoints(solver, objective, paramRange).sigmas == SolvedPoints(solver, objective, paramRange).sigmas;
  }

  // ---------------------------------------------------------------------------
  // The ValueError fall-through
  // ---------------------------------------------------------------------------

  /** The held portfolio, when there is one, is the last point appended. */
  predicate HeldIsLast(s: ScanState) {
    s.held.Some? ==>
      |s.mus| > 0 && |s.sigmas| > 0 &&
      s.mus[|s.mus| - 1] == s.held.value.ret && s.sigmas[|s.sigmas| - 1] == s.held.value.sigma
  }

  lemma {:induction false} RunKeepsHeldIsLast(solver: Solver, efParam: string, s: ScanState, values: seq<real>)
    requires HeldIsLast(s)
    ensures Run(solver, efParam, s, values).Ok? ==> HeldIsLast(Run(solver, efParam, s, values).value)
    decreases |values|
  {
    if values != [] {
      match Dispatch(efParam)
      case None =>
      case Some(objective) =>
        match Step(s, solver(objective, values[0]))
        case Err(e) =>
        case Ok(next) => RunKeepsHeldIsLast(solver, efParam, next, values[1..]);
    }
  }

  /**
   * On the fresh optimiser of app.py:193, a ValueError at the k-th value either
   * fails (no portfolio solved yet) or appends a second copy of the previous point.
   */
  lemma ValueErrorRepeatsLastPoint(solver: Solver, efParam: string, paramRange: seq<real>, k: nat)
    requires k < |paramRange|
    requires Dispatch(efParam).Some?
    requires solver(Dispatch(efParam).value, paramRange[k]).ValueError?
    requires Run(solver, efParam, ScanState([], [], None), paramRange[..k]).Ok?
    ensures var s := Run(solver, efParam, ScanState([], [], None), paramRange[..k]).value;
            var after := Run(solver, efParam, ScanState([], [], None), paramRange[..k + 1]);
            && (s.held.None? ==> after == Err(NoWeights))
            && (s.held.Some? ==>
                  |s.mus| > 0 && |s.sigmas| > 0 &&
                  after == Ok(ScanState(s.mus + [s.mus[|s.mus| - 1]], s.sigmas + [s.sigmas[|s.sigmas| - 1]], s.held)))
  {
    var init := ScanState([], [], None);
    var v := paramRange[k];
    assert paramRange[..k + 1] == paramRange[..k] + [v];
    RunAppend(solver, efParam, init, paramRange[..k], [v]);
    RunKeepsHeldIsLast(solver, efParam, init, paramRange[..k]);
    var s := Run(solver, efParam, init, paramRange[..k]).value;
    assert [v][1..] == [];
    if s.held.Some? {
      var next := ScanState(s.mus + [s.held.value.ret], s.sigmas + [s.held.value.sigma], s.held);
      assert Step(s, solver(Dispatch(efParam).value, v)) == Ok(next);
      assert Run(solver, efParam, s, [v]) == Run(solver, efParam, next, []);
    }
  }

  // ---------------------------------------------------------------------------
  // The evidently intended behaviour: skip a value on either exception
  // ---------------------------------------------------------------------------

  /** get_ef_points with a `continue` in the ValueError handler as well. */
  function EfPointsSkipping(solver: Solver, efParam: string, paramRange: seq<real>): (r: Result<Frontier, EfError>)
    ensures r.Err? <==> Dispatch(efParam).None? && paramRange != []
  {
    if paramRange == [] then Ok(Frontier([], []))
    else
      match Dispatch(efParam)
      case None => Err(NotImplemented)
      case Some(objective) => Ok(SolvedPoints(solver, objective, paramRange))
  }

  lemma {:induction false} SolvedPointsAppend(solver: Solver, objective: Objective, a: seq<real>, b: seq<real>)
    ensures SolvedPoints(solver, objective, a + b).mus
         == SolvedPoints(solver, objective, a).mus + SolvedPoints(solver, objective, b).mus
    ensures SolvedPoints(solver, objective, a + b).sigmas
         == SolvedPoints(solver, objective, a).sigmas + SolvedPoints(solver, objective, b).sigmas
    decreases |a|
  {
    if a == [] {
      assert a + b == b;
    } else {
      assert (a + b)[0] == a[0];
      assert (a + b)[1..] == a[1..] + b;
      SolvedPointsAppend(solver, objective, a[1..], b);
    }
  }

  /** With skipping, a value whose solve raises either exception contributes nothing. */
  lemma SkippingDropsFailedValues(solver: Solver, efParam: string, paramRange: seq<real>, k: nat)
    requires k < |paramRange|
    requires Dispatch(efParam).Some?
    requires !solver(Dispatch(efParam).value, paramRange[k]).Solved?
    ensures EfPointsSkipping(solver, efParam, paramRange) == EfPointsSkipping(solver, efParam, paramRange[..k] + paramRange[k + 1..])
  {
    var objective := Dispatch(efParam).value;
    var prefix, rest := paramRange[..k], paramRange[k + 1..];
    assert paramRange == prefix + ([paramRange[k]] + rest);
    SolvedPointsAppend(solver, objective, prefix, [paramRange[k]] + rest);
    SolvedPointsAppend(solver, objective, prefix, rest);
    assert ([paramRange[k]] + rest)[1..] == rest;
  }

  /** As written and as intended agree whenever no solve raises ValueError. */
  lemma SkippingAgreesWithoutValueErrors(solver: Solver, efParam: string, objective: Objective, paramRange: seq<real>, held: Option<Performance>)
    requires Dispatch(efParam) == Some(objective)
    requires NoValueErrors(solver, objective, paramRange)
    ensures EfPoints(solver, efParam, paramRange, held) == EfPointsSkipping(solver, efParam, paramRange)
  {
    FrontierIsSolvedPoints(solver, efParam, objective, paramRange, held);
  }

  /** A solver that succeeds at risk 0.2 with return 0.1 and raises ValueError at risk 0.3. */
  function StaleExampleSolver(): Solver {
    (objective: Objective, v: real) => if v == 0.2 then Solved(Performance(0.1, 0.2)) else ValueError
  }

  /** As written, the ValueError at 0.3 appends the point solved at 0.2 a second time; skipping does not. */
  lemma ValueErrorAppendsStalePoint()
    ensures EfPoints(StaleExampleSolver(), "risk", [0.2, 0.3], None) == Ok(Frontier([0.1, 0.1], [0.2, 0.2]))
    ensures EfPointsSkipping(StaleExampleSolver(), "risk", [0.2, 0.3]) == Ok(Frontier([0.1], [0.2]))
  {
    var solver := StaleExampleSolver();
    var values: seq<real> := [0.2, 0.3];
    var p := Performance(0.1, 0.2);
    assert values[1..] == [0.3] && values[1..][1..] == [];
    assert Dispatch("risk") == Some(EfficientRisk);
    assert solver(EfficientRisk, 0.2) == Solved(p);
    assert solver(EfficientRisk, 0.3) == ValueError;
    var s0 := ScanState([], [], None);
    var s1 := ScanState([0.1], [0.2], Some(p));
    var s2 := ScanState([0.1, 0.1], [0.2, 0.2], Some(p));
    assert [] + [0.1] == [0.1] && [] + [0.2] == [0.2];
    assert Step(s0, solver(EfficientRisk, values[0])) == Ok(s1);
    assert Run(solver, "risk", s0, values) == Run(solver, "risk", s1, [0.3]);
    assert [0.1] + [0.1] == [0.1, 0.1] && [0.2] + [0.2] == [0.2, 0.2];
    assert Step(s1, solver(EfficientRisk, 0.3)) == Ok(s2);
    assert Run(solver, "risk", s1, [0.3]) == Run(solver, "risk", s2, []);
    assert SolvedPoints(solver, EfficientRisk, [0.3]) == Frontier([], []);
    assert SolvedPoints(solver, EfficientRisk, values) == Frontier([0.1], [0.2]);
  }
}

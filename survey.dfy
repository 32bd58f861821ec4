/**
 * The risk-aversion survey of the dashboard's sidebar (app.py lines 33-65).
 *
 * Six fixed lotteries are shown to the user; for each one the user states how
 * much they would pay to enter it (a certainty equivalent). Under quadratic
 * utility U = mu - A/2 * sigma^2, the coefficient A that makes the lottery's
 * utility equal to the payment is 2 * (mu - payment) / sigma^2. The six implied
 * coefficients are SUMMED (not averaged) and the total is floored at 1e-6.
 */
module RiskAversionSurvey {
  import opened Reals

  /** A lottery: with probability pLose the player gets `lose`, with probability pWin gets `win`. */
  datatype Lottery = Lottery(pLose: real, lose: real, pWin: real, win: real)

  /** The six survey questions, in the order the sidebar shows them. */
  const Questions: seq<Lottery> := [
    Lottery(0.50, 0.0, 0.50, 10.0),
    Lottery(0.50, 0.0, 0.50, 1000.0),
    Lottery(0.90, 0.0, 0.10, 10.0),
    Lottery(0.90, 0.0, 0.10, 1000.0),
    Lottery(0.25, 0.0, 0.75, 100.0),
    Lottery(0.75, 0.0, 0.25, 100.0)
  ]

  /** The smallest risk aversion the survey reports (the guard against a zero or negative total). */
  const Epsilon: real := 0.000001

  /** The largest raw total a user can reach with every slider in its range: all answers 0. */
  const MaxRawTotal: real := 827.0 / 1125.0

  /** The expected payoff (app.py:57). */
  function Expected(q: Lottery): real {
    q.pLose * q.lose + q.pWin * q.win
  }

  /** The variance of the payoff around its expected value (app.py:58). */
  function Variance(q: Lottery): real {
    var e := Expected(q);
    q.pLose * Square(q.lose - e) + q.pWin * Square(q.win - e)
  }

  /** Quadratic utility of a gamble with mean `mean` and variance `variance` for risk aversion `a`. */
  function QuadraticUtility(mean: real, variance: real, a: real): real {
    mean - 0.5 * a * variance
  }

  /** The risk aversion implied by paying `ans` for lottery `q` (the division needs a non-zero variance). */
  function ImpliedA(q: Lottery, ans: real): real
    requires Variance(q) != 0.0
  {
    2.0 * (Expected(q) - ans) / Variance(q)
  }

  /** Two outcomes, both possible, probabilities summing to one, and different payoffs. */
  predicate WellPosed(q: Lottery) {
    0.0 < q.pLose && 0.0 < q.pWin && q.pLose + q.pWin == 1.0 && q.lose != q.win
  }

  /** The slider at app.py:48-49 ranges over [0, expected value] and starts at the expected value. */
  predicate InSliderRange(answers: seq<real>) {
    |answers| == |Questions| &&
    forall i :: 0 <= i < |Questions| ==> 0.0 <= answers[i] <= Expected(Questions[i])
  }

  /** The answers the sliders hold before the user moves them: each lottery's expected value. */
  function DefaultAnswers(): (d: seq<real>)
    ensures |d| == |Questions|
    ensures InSliderRange(d)
  {
    seq(|Questions|, i requires 0 <= i < |Questions| => Expected(Questions[i]))
  }

  // ---------------------------------------------------------------------------
  // Facts about single lotteries
  // ---------------------------------------------------------------------------

  /** A proper two-outcome lottery has a positive variance. */
  lemma VariancePositive(q: Lottery)
    requires WellPosed(q)
    ensures Variance(q) > 0.0
  {
    var d := q.win - q.lose;
    VarianceFactors(q, d);
    SquarePositive(d);
    PositiveProduct(q.pLose, q.pWin);
    PositiveProduct(q.pLose * q.pWin, Square(d));
  }

  /** For a two-outcome lottery the variance factors as pLose * pWin * d^2, with d the spread win - lose. */
  lemma VarianceFactors(q: Lottery, d: real)
    requires q.pLose + q.pWin == 1.0
    requires d == q.win - q.lose
    ensures Variance(q) == q.pLose * q.pWin * Square(d)
  {
    var e := Expected(q);
    assert e - q.lose == q.pWin * d;
    assert q.win - e == q.pLose * d;
    calc {
      Variance(q);
      q.pLose * Square(q.pWin * d) + q.pWin * Square(q.pLose * d);
      q.pLose * q.pWin * Square(d) * (q.pWin + q.pLose);
    }
  }

  /** Every survey question is a proper two-outcome lottery, so every division at app.py:60 is defined. */
  lemma QuestionsWellPosed()
    ensures forall i :: 0 <= i < |Questions| ==> WellPosed(Questions[i]) && Variance(Questions[i]) > 0.0
  {
    forall i | 0 <= i < |Questions|
      ensures WellPosed(Questions[i]) && Variance(Questions[i]) > 0.0
    {
      VariancePositive(Questions[i]);
    }
  }

  /** Expected value and variance of each of the six questions. */
  lemma QuestionMoments()
    ensures Expected(Questions[0]) == 5.0   && Variance(Questions[0]) == 25.0
    ensures Expected(Questions[1]) == 500.0 && Variance(Questions[1]) == 250000.0
    ensures Expected(Questions[2]) == 1.0   && Variance(Questions[2]) == 9.0
    ensures Expected(Questions[3]) == 100.0 && Variance(Questions[3]) == 90000.0
    ensures Expected(Questions[4]) == 75.0  && Variance(Questions[4]) == 1875.0
    ensures Expected(Questions[5]) == 25.0  && Variance(Questions[5]) == 1875.0
  {
  }

  /** ImpliedA inverts quadratic utility: A is implied by `ans` exactly when U(A) equals `ans`. */
  lemma ImpliedAInvertsUtility(q: Lottery, ans: real, a: real)
    requires Variance(q) != 0.0
    ensures QuadraticUtility(Expected(q), Variance(q), ImpliedA(q, ans)) == ans
    ensures QuadraticUtility(Expected(q), Variance(q), a) == ans <==> a == ImpliedA(q, ans)
  {
    SolveUtility(Expected(q), Variance(q), ans, a);
    SolveUtility(Expected(q), Variance(q), ans, ImpliedA(q, ans));
  }

  /** mean - a/2 * variance == ans has the single solution a == 2 * (mean - ans) / variance. */
  lemma SolveUtility(mean: real, variance: real, ans: real, a: real)
    requires variance != 0.0
    ensures QuadraticUtility(mean, variance, a) == ans <==> a == 2.0 * (mean - ans) / variance
  {
    var ia := 2.0 * (mean - ans) / variance;
    assert ia * variance == 2.0 * (mean - ans);
    if QuadraticUtility(mean, variance, a) == ans {
      assert a * variance == 2.0 * (mean - ans);
      assert (a - ia) * variance == 0.0;
    }
  }

  /** Paying more for a lottery means being less risk averse. */
  lemma ImpliedAAntitone(q: Lottery, ans1: real, ans2: real)
    requires Variance(q) > 0.0
    requires ans1 <= ans2
    ensures ImpliedA(q, ans1) >= ImpliedA(q, ans2)
  {
    var v := Variance(q);
    var e := Expected(q);
    assert ImpliedA(q, ans1) - ImpliedA(q, ans2) == 2.0 * (ans2 - ans1) / v;
  }

  /** Within the slider range an answer implies a coefficient between 0 and 2 * mu / sigma^2. */
  lemma ImpliedABounds(q: Lottery, ans: real)
    requires Variance(q) > 0.0
    requires 0.0 <= ans <= Expected(q)
    ensures 0.0 <= ImpliedA(q, ans) <= 2.0 * Expected(q) / Variance(q)
    ensures ans == Expected(q) ==> ImpliedA(q, ans) == 0.0
  {
    ImpliedAAntitone(q, 0.0, ans);
    ImpliedAAntitone(q, ans, Expected(q));
  }

  /** The worked example of the first question: pay 0 for (0.5: $0, 0.5: $10) means A = 0.4; pay 5 means A = 0. */
  lemma FirstQuestionExample()
    ensures Expected(Questions[0]) == 5.0 && Variance(Questions[0]) == 25.0
    ensures ImpliedA(Questions[0], 0.0) == 0.4
    ensures ImpliedA(Questions[0], 5.0) == 0.0
  {
  }

  // ---------------------------------------------------------------------------
  // The aggregate over the six questions
  // ---------------------------------------------------------------------------

  /** Sum of the coefficients implied by the first n answers. */
  function TotalImplied(answers: seq<real>, n: nat): real
    requires n <= |Questions| <= |answers|
  {
    if n == 0 then 0.0
    else
      QuestionsWellPosed();
      TotalImplied(answers, n - 1) + ImpliedA(Questions[n - 1], answers[n - 1])
  }

  /** The survey's raw total, before flooring. */
  function RawScore(answers: seq<real>): real
    requires |answers| == |Questions|
  {
    TotalImplied(answers, |Questions|)
  }

  /** The survey's result: the raw total floored at Epsilon. */
  function SurveyScore(answers: seq<real>): (r: real)
    requires |answers| == |Questions|
    ensures r >= Epsilon
    ensures RawScore(answers) >= Epsilon ==> r == RawScore(answers)
    ensures RawScore(answers) < Epsilon ==> r == Epsilon
  {
    if RawScore(answers) < Epsilon then Epsilon else RawScore(answers)
  }

  /** One more question adds the coefficient computed from its moments, as the loop body does. */
  lemma TotalImpliedStep(answers: seq<real>, i: nat, exp: real, variance: real)
    requires i < |Questions| <= |answers|
    requires exp == Questions[i].pLose * Questions[i].lose + Questions[i].pWin * Questions[i].win
    requires variance == Questions[i].pLose * Square(Questions[i].lose - exp) + Questions[i].pWin * Square(Questions[i].win - exp)
    ensures variance > 0.0
    ensures TotalImplied(answers, i + 1) == TotalImplied(answers, i) + 2.0 * (exp - answers[i]) / variance
  {
    QuestionsWellPosed();
    assert exp == Expected(Questions[i]) && variance == Variance(Questions[i]);
  }

  /**
   * The loop at app.py:51-62 followed by the floor at 64-65: accumulate the implied
   * coefficient of every question into one variable, then raise it to Epsilon if below.
   */
  method EstimateRiskAversion(answers: seq<real>) returns (riskAversion: real)
    requires |answers| == |Questions|
    ensures riskAversion == SurveyScore(answers)
    ensures riskAversion >= Epsilon
    ensures RawScore(answers) >= Epsilon ==> riskAversion == RawScore(answers)
  {
    riskAversion := 0.0;
    var i := 0;
    while i < |Questions|
      invariant 0 <= i <= |Questions|
      invariant riskAversion == TotalImplied(answers, i)
    {
      var q := Questions[i];
      var exp := q.pLose * q.lose + q.pWin * q.win;
      var variance := q.pLose * Square(q.lose - exp) + q.pWin * Square(q.win - exp);
      TotalImpliedStep(answers, i, exp, variance);
      var impliedA := 2.0 * (exp - answers[i]) / variance;
      riskAversion := riskAversion + impliedA;
      i := i + 1;
    }
    if riskAversion < Epsilon {
      riskAversion := Epsilon;
    }
  }

  /** Answering every question with its expected value (the slider default) implies no risk aversion at all. */
  lemma {:induction false} DefaultTotalIsZero(n: nat)
    requires n <= |Questions|
    ensures TotalImplied(DefaultAnswers(), n) == 0.0
  {
    if n > 0 {
      DefaultTotalIsZero(n - 1);
      QuestionsWellPosed();
      var q := Questions[n - 1];
      assert DefaultAnswers()[n - 1] == Expected(q);
      ImpliedABounds(q, Expected(q));
    }
  }

  /** Leaving every slider at its default yields exactly the floor Epsilon. */
  lemma DefaultScoreIsEpsilon()
    ensures SurveyScore(DefaultAnswers()) == Epsilon
  {
    DefaultTotalIsZero(|Questions|);
  }

  /** Paying at least as much on every question never raises the total. */
  lemma {:induction false} TotalImpliedAntitone(answers1: seq<real>, answers2: seq<real>, n: nat)
    requires |answers1| == |answers2| == |Questions|
    requires n <= |Questions|
    requires forall i :: 0 <= i < |Questions| ==> answers1[i] <= answers2[i]
    ensures TotalImplied(answers1, n) >= TotalImplied(answers2, n)
  {
    if n > 0 {
      TotalImpliedAntitone(answers1, answers2, n - 1);
      QuestionsWellPosed();
      ImpliedAAntitone(Questions[n - 1], answers1[n - 1], answers2[n - 1]);
    }
  }

  /** The survey's result is non-increasing in every answer. */
  lemma SurveyScoreAntitone(answers1: seq<real>, answers2: seq<real>)
    requires |answers1| == |answers2| == |Questions|
    requires forall i :: 0 <= i < |Questions| ==> answers1[i] <= answers2[i]
    ensures SurveyScore(answers1) >= SurveyScore(answers2)
  {
    TotalImpliedAntitone(answers1, answers2, |Questions|);
  }

  /** The all-zero answers: every question's largest implied coefficient 2 * mu / sigma^2. */
  function ZeroAnswers(): (z: seq<real>)
    ensures InSliderRange(z)
  {
    QuestionMoments();
    [0.0, 0.0, 0.0, 0.0, 0.0, 0.0]
  }

  /** Summing the six maxima 0.4 + 0.004 + 2/9 + 1/450 + 0.08 + 2/75 gives 827/1125. */
  lemma MaxRawTotalValue()
    ensures RawScore(ZeroAnswers()) == MaxRawTotal
  {
    QuestionMoments();
    var z := ZeroAnswers();
    assert TotalImplied(z, 1) == 0.4;
    assert TotalImplied(z, 2) == 0.404;
    assert TotalImplied(z, 3) == 0.404 + 2.0 / 9.0;
    assert TotalImplied(z, 4) == 0.404 + 2.0 / 9.0 + 1.0 / 450.0;
    assert TotalImplied(z, 5) == 0.484 + 2.0 / 9.0 + 1.0 / 450.0;
  }

  /** With every slider in range the raw total lies between 0 and the total of all-zero answers. */
  lemma {:induction false} TotalImpliedBounds(answers: seq<real>, n: nat)
    requires InSliderRange(answers)
    requires n <= |Questions|
    ensures 0.0 <= TotalImplied(answers, n) <= TotalImplied(ZeroAnswers(), n)
  {
    if n > 0 {
      TotalImpliedBounds(answers, n - 1);
      QuestionsWellPosed();
      ImpliedABounds(Questions[n - 1], answers[n - 1]);
    }
  }

  /** Over the whole slider range the survey's result lies in [Epsilon, 827/1125]. */
  lemma SurveyScoreBounds(answers: seq<real>)
    requires InSliderRange(answers)
    ensures 0.0 <= RawScore(answers) <= MaxRawTotal
    ensures Epsilon <= SurveyScore(answers) <= MaxRawTotal
  {
    TotalImpliedBounds(answers, |Questions|);
    MaxRawTotalValue();
  }
}

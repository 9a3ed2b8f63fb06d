/** `calculateBudgetEstimate` (home-diagnosis/src/lib/diagnose.ts): from the monthly
    payment the household can afford, the loan it can carry and the total budget. The
    answers are JavaScript numbers; the model takes them as reals and leaves the
    annuity's power function as a parameter. */
module Budget {
  import opened Types
  import opened Wrappers

  /** BudgetAnswers, every answer optional: B01 monthly payment, B02 down payment,
      B03 repayment years, B04 interest rate in percent. */
  datatype BudgetAnswers = BudgetAnswers(b01: Option<real>, b02: Option<real>, b03: Option<real>, b04: Option<real>)

  const DefaultYears: real := 35.0
  const DefaultRatePercent: real := 1.5
  const DefaultDownPayment: real := 0.0

  /** Math.round on a number: the nearest integer, a half rounded up. */
  function Round(x: real): (k: int)
    ensures k as real - 0.5 <= x < k as real + 0.5
  {
    (x + 0.5).Floor
  }

  /** Only one integer lies within a half below and above x. */
  lemma RoundUnique(x: real, k: int)
    requires k as real - 0.5 <= x < k as real + 0.5
    ensures Round(x) == k
  {
  }

  /** The largest loan a monthly payment repays over the years at the rate: the annuity
      present value, or simply payment × months at rate 0. `pow` stands for Math.pow. */
  function LoanMax(payment: real, years: real, ratePercent: real, pow: (real, real) -> real): int {
    var r := (ratePercent / 100.0) / 12.0;
    var n := years * 12.0;
    if r == 0.0 then Round(payment * n)
    else Round(payment * (1.0 - pow(1.0 + r, -n)) / r)
  }

  /** calculateBudgetEstimate: nothing without a positive monthly payment; otherwise the
      loan, the total with the down payment, and the answers used, defaults filled in. */
  function CalculateBudgetEstimate(budget: BudgetAnswers, pow: (real, real) -> real): (e: Option<BudgetEstimate>)
    ensures e.None? <==> budget.b01.None? || budget.b01.value <= 0.0
    ensures e.Some? ==>
      var years, rate, down := budget.b03.GetOr(DefaultYears), budget.b04.GetOr(DefaultRatePercent), budget.b02.GetOr(DefaultDownPayment);
      e.value.monthlyPayment == budget.b01.value && e.value.years == years && e.value.rate == rate &&
      e.value.loanMax == LoanMax(budget.b01.value, years, rate, pow) &&
      e.value.totalBudgetApprox == e.value.loanMax as real + down
  {
    if budget.b01.None? || budget.b01.value <= 0.0 then None
    else
      var payment := budget.b01.value;
      var downPayment := budget.b02.GetOr(DefaultDownPayment);
      var years := budget.b03.GetOr(DefaultYears);
      var ratePercent := budget.b04.GetOr(DefaultRatePercent);
      var loanMax := LoanMax(payment, years, ratePercent, pow);
      Some(BudgetEstimate(loanMax, loanMax as real + downPayment, payment, years, ratePercent))
  }

  /** Interest-free, the loan is the payment times the number of months, to the nearest
      unit, whatever the power function. */
  lemma InterestFreeLoan(budget: BudgetAnswers, pow: (real, real) -> real)
    requires budget.b01.Some? && budget.b01.value > 0.0 && budget.b04 == Some(0.0)
    ensures var e := CalculateBudgetEstimate(budget, pow);
      e.Some? && e.value.rate == 0.0 &&
      e.value.loanMax as real - 0.5 <= budget.b01.value * e.value.years * 12.0 < e.value.loanMax as real + 0.5
  {
    var years := budget.b03.GetOr(DefaultYears);
    assert (0.0 / 100.0) / 12.0 == 0.0;
    assert budget.b01.value * (years * 12.0) == budget.b01.value * years * 12.0;
  }

  /** With the B02, B03 and B04 answers left out, the estimate runs over 35 years at 1.5 %
      and the total is the loan alone. */
  lemma Defaults(payment: real, pow: (real, real) -> real)
    requires payment > 0.0
    ensures var e := CalculateBudgetEstimate(BudgetAnswers(Some(payment), None, None, None), pow);
      e.Some? && e.value.years == 35.0 && e.value.rate == 1.5 &&
      e.value.totalBudgetApprox == e.value.loanMax as real && e.value.monthlyPayment == payment
  {
  }

  /** The down payment moves the total by exactly its amount and leaves the loan alone. */
  lemma DownPaymentAddsToTotal(budget: BudgetAnswers, down: real, pow: (real, real) -> real)
    requires budget.b01.Some? && budget.b01.value > 0.0
    ensures var e, e' := CalculateBudgetEstimate(budget.(b02 := None), pow), CalculateBudgetEstimate(budget.(b02 := Some(down)), pow);
      e.Some? && e'.Some? && e'.value.loanMax == e.value.loanMax &&
      e'.value.totalBudgetApprox == e.value.totalBudgetApprox + down
  {
  }
}

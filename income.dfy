/**
 The income settings of the component and the helpers that turn them into
 a monthly income: the regular (paycheck) profile and the irregular
 (freelance billing) profile.
 */
module Income {
  import opened Wrappers
  import opened Categories

  datatype IncomeType = Regular | Irregular

  /** The "Paychecks Per Month" buttons offer 1, 2, 3 and 4. */
  type PaychecksPerMonth = n: int | 1 <= n <= 4 witness 2

  /**
   The income fields of the component state, already parsed to numbers
   (an empty text field reads as 0).
   */
  datatype IncomeSettings = IncomeSettings(
    incomeType: IncomeType,
    regularPaycheck: real,
    paychecksPerMonth: PaychecksPerMonth,
    expectedMonthlyBilling: real,
    expectedBillingMonths: int,
    freelanceDeductTax: bool)

  /** The income settings the component starts with. */
  const InitialIncome: IncomeSettings :=
    IncomeSettings(Regular, 0.0, 2, 0.0, 3, true)

  /** `getMonthlyIncome`: none for an irregular profile, else paycheck times paychecks per month. */
  function MonthlyIncome(s: IncomeSettings): (r: Option<real>)
    ensures r.None? <==> s.incomeType == Irregular
    ensures r.Some? ==> r.value == s.regularPaycheck * s.paychecksPerMonth as real
    ensures r.Some? ==> (r.value > 0.0 <==> s.regularPaycheck > 0.0)
  {
    if s.incomeType == Irregular then None
    else Some(s.regularPaycheck * s.paychecksPerMonth as real)
  }

  /** `getExpectedMonthlyNet`: the expected billing, less the tax share when it is deducted. */
  function ExpectedMonthlyNet(s: IncomeSettings): (r: real)
    ensures s.freelanceDeductTax ==> r + TaxRate * s.expectedMonthlyBilling == s.expectedMonthlyBilling
    ensures !s.freelanceDeductTax ==> r == s.expectedMonthlyBilling
    ensures r > 0.0 <==> s.expectedMonthlyBilling > 0.0
  {
    var billing := s.expectedMonthlyBilling;
    if s.freelanceDeductTax then billing * (1.0 - TaxRate) else billing
  }

  /**
   The monthly income the forecast uses (app.jsx:205-210): the regular
   monthly income, or the expected net billing for an irregular profile.
   */
  function ForecastIncome(s: IncomeSettings): real {
    match s.incomeType
    case Regular => MonthlyIncome(s).value
    case Irregular => ExpectedMonthlyNet(s)
  }

  /**
   The monthly income goal tracking and the main optimizer use: none when
   the regular paycheck is not positive, or when the irregular net billing
   is not positive. Its guard is written on the paycheck, the forecast's on
   the monthly income; the two agree, and where both have an income it is
   the same number.
   */
  function PlanningIncome(s: IncomeSettings): (r: Option<real>)
    ensures r.Some? <==> ForecastIncome(s) > 0.0
    ensures r.Some? ==> r.value == ForecastIncome(s) && r.value > 0.0
    ensures s.incomeType == Regular ==> (r.Some? <==> s.regularPaycheck > 0.0)
  {
    match s.incomeType
    case Regular =>
      if s.regularPaycheck <= 0.0 then None
      else Some(s.regularPaycheck * s.paychecksPerMonth as real)
    case Irregular =>
      var net := ExpectedMonthlyNet(s);
      if net <= 0.0 then None else Some(net)
  }
}

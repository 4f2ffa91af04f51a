/** The three-stage early-wage-access pipeline of the payroll service: gross balance, tax
    estimate and net balance, then the final (withdrawable) balance. Amounts are C# `decimal`,
    modelled as exact reals with `Math.Round(x, 2)` as banker's rounding to cents. */
module EwaCalculation {
  import opened Decimals
  import opened Text
  import opened DomainEvents
  import opened Deductions
  import opened TaxInformations

  const SocialSecurityRate: real := 0.062
  const MedicareRate: real := 0.0145
  const SocialSecurityWageBase: real := 168600.0
  const DefaultStateTaxRate: real := 0.04
  /** The rate for a filing status the table does not know. */
  const DefaultFederalTaxRate: real := 0.22

  /** The flat federal rate by filing status; the table's keys compare case-insensitively. */
  function FederalTaxRate(filingStatus: string): (r: real)
    ensures 0.12 <= r <= 0.22
  {
    if EqualsIgnoreCase(filingStatus, "Single") then 0.22
    else if EqualsIgnoreCase(filingStatus, "Married") then 0.12
    else if EqualsIgnoreCase(filingStatus, "HeadOfHousehold") then 0.15
    else DefaultFederalTaxRate
  }

  /** The flat state rate by state code, case-insensitively; other states pay the default. */
  function StateTaxRate(state: string): (r: real)
    ensures 0.0 <= r <= 0.06
  {
    if EqualsIgnoreCase(state, "CA") then 0.06
    else if EqualsIgnoreCase(state, "NY") then 0.055
    else if EqualsIgnoreCase(state, "TX") then 0.0
    else if EqualsIgnoreCase(state, "FL") then 0.0
    else if EqualsIgnoreCase(state, "WA") then 0.0
    else DefaultStateTaxRate
  }

  /** Both rate tables ignore case: a key spelled in any case finds the same rate. */
  lemma RatesIgnoreCase(a: string, b: string)
    requires EqualsIgnoreCase(a, b)
    ensures FederalTaxRate(a) == FederalTaxRate(b) && StateTaxRate(a) == StateTaxRate(b)
  {
  }

  lemma Round2NonNegativeWhen(x: real)
    ensures x >= 0.0 ==> Round2(x) >= 0.0
  {
    if x >= 0.0 {
      Round2NonNegative(x);
    }
  }

  lemma MulMonotone(k: real, a: real, b: real)
    requires k >= 0.0 && a <= b
    ensures a * k <= b * k && k * a <= k * b
  {
    assert (b - a) * k >= 0.0;
  }

  /** An amount times a rate, rounded to cents. */
  function RoundedProduct(amount: real, rate: real): (r: real)
    ensures HasTwoPlaces(r)
    ensures Abs(r - amount * rate) <= 0.005
    ensures amount >= 0.0 && rate >= 0.0 ==> r >= 0.0
  {
    if amount >= 0.0 && rate >= 0.0 then
      MulMonotone(rate, 0.0, amount);
      Round2NonNegative(amount * rate);
      Round2(amount * rate)
    else Round2(amount * rate)
  }

  lemma RoundedProductMonotone(a: real, b: real, rate: real)
    requires a <= b && rate >= 0.0
    ensures RoundedProduct(a, rate) <= RoundedProduct(b, rate)
  {
    MulMonotone(rate, a, b);
    Round2Monotone(a * rate, b * rate);
  }

  /** `CalculateGrossBalance`: hours times rate for hourly pay, the hourly share (52 weeks of
      40 hours) of an annual salary for salaried pay, each rounded to cents; nothing for any
      other pay type. */
  function CalculateGrossBalance(payType: PayType, payRate: real, hoursWorked: real): (g: real)
    ensures HasTwoPlaces(g)
    ensures payType == Hourly ==> Abs(g - hoursWorked * payRate) <= 0.005
    ensures payType == Salary ==> Abs(g - payRate * hoursWorked / 2080.0) <= 0.005
    ensures payType != Hourly && payType != Salary ==> g == 0.0
    ensures payRate >= 0.0 && hoursWorked >= 0.0 ==> g >= 0.0
  {
    if payType == Hourly then RoundedProduct(hoursWorked, payRate)
    else if payType == Salary then
      assert hoursWorked * (payRate / 52.0 / 40.0) == payRate * hoursWorked / 2080.0;
      RoundedProduct(hoursWorked, payRate / 52.0 / 40.0)
    else
      assert HasTwoPlaces(0.0);
      0.0
  }

  /** More hours never lower the gross balance (for a non-negative rate). */
  lemma GrossBalanceMonotone(payType: PayType, payRate: real, h1: real, h2: real)
    requires payRate >= 0.0 && h1 <= h2
    ensures CalculateGrossBalance(payType, payRate, h1) <= CalculateGrossBalance(payType, payRate, h2)
  {
    if payType == Hourly {
      RoundedProductMonotone(h1, h2, payRate);
    } else if payType == Salary {
      RoundedProductMonotone(h1, h2, payRate / 52.0 / 40.0);
    }
  }

  /** `CalculateHoursForSalaried`: eight hours for each day worked, never counting more days
      than the period has; nothing when the period has no work days. */
  function CalculateHoursForSalaried(daysWorked: int, totalWorkDays: int): (h: real)
    ensures totalWorkDays <= 0 ==> h == 0.0
    ensures totalWorkDays > 0 ==> h <= 8.0 * totalWorkDays as real && h <= 8.0 * daysWorked as real
    ensures totalWorkDays > 0 ==> (h == 8.0 * daysWorked as real || h == 8.0 * totalWorkDays as real)
    ensures daysWorked >= 0 ==> h >= 0.0
  {
    if totalWorkDays <= 0 then 0.0
    else (if daysWorked <= totalWorkDays then daysWorked else totalWorkDays) as real * 8.0
  }

  /** The six withheld components of a tax estimate. */
  datatype TaxEstimate = TaxEstimate(
    socialSecurity: real, medicare: real, federalIncomeTax: real, stateIncomeTax: real,
    additionalFederalWithholding: real, additionalStateWithholding: real)
  {
    /** `TaxEstimateResult.Total`. */
    function Total(): real {
      socialSecurity + medicare + federalIncomeTax + stateIncomeTax
      + additionalFederalWithholding + additionalStateWithholding
    }

    predicate NonNegative() {
      socialSecurity >= 0.0 && medicare >= 0.0 && federalIncomeTax >= 0.0 && stateIncomeTax >= 0.0
      && additionalFederalWithholding >= 0.0 && additionalStateWithholding >= 0.0
    }
  }

  /** A total of non-negative components is non-negative and bounds each of them. */
  lemma TotalBoundsComponents(t: TaxEstimate)
    requires t.NonNegative()
    ensures t.Total() >= 0.0
    ensures t.socialSecurity <= t.Total() && t.medicare <= t.Total() && t.federalIncomeTax <= t.Total()
    ensures t.stateIncomeTax <= t.Total()
  {
  }

  /** An annual amount spread over the pay periods of a year, rounded to cents; nothing when
      the year has no pay periods. */
  function PerPeriod(annual: real, payPeriodsPerYear: int): (r: real)
    ensures payPeriodsPerYear <= 0 ==> r == 0.0
    ensures payPeriodsPerYear > 0 ==> Abs(r - annual / payPeriodsPerYear as real) <= 0.005
    ensures annual >= 0.0 ==> r >= 0.0
  {
    if payPeriodsPerYear > 0 then
      Round2NonNegativeWhen(annual / payPeriodsPerYear as real);
      Round2(annual / payPeriodsPerYear as real)
    else 0.0
  }

  /** `EstimateTaxWithholdings`: nothing on a non-positive gross; otherwise each component is
      its rate times the gross, rounded to cents — social security only while the annualised
      gross stays within the wage base — and the additional withholdings are spread over the
      pay periods of a year (nothing when there are none). */
  function EstimateTaxWithholdings(gross: real, taxInfo: TaxInformationData, payPeriodsPerYear: int): (t: TaxEstimate)
    ensures gross <= 0.0 ==> t == TaxEstimate(0.0, 0.0, 0.0, 0.0, 0.0, 0.0) && t.Total() == 0.0
    ensures gross > 0.0 && gross * payPeriodsPerYear as real > SocialSecurityWageBase ==> t.socialSecurity == 0.0
    ensures gross > 0.0 && gross * payPeriodsPerYear as real <= SocialSecurityWageBase ==>
      Abs(t.socialSecurity - gross * SocialSecurityRate) <= 0.005
    ensures gross > 0.0 ==> Abs(t.medicare - gross * MedicareRate) <= 0.005
    ensures gross > 0.0 ==> Abs(t.federalIncomeTax - gross * FederalTaxRate(taxInfo.federalFilingStatus)) <= 0.005
    ensures gross > 0.0 ==> Abs(t.stateIncomeTax - gross * StateTaxRate(taxInfo.state)) <= 0.005
    ensures payPeriodsPerYear <= 0 ==> t.additionalFederalWithholding == 0.0 && t.additionalStateWithholding == 0.0
    ensures gross > 0.0 && payPeriodsPerYear > 0 ==>
      Abs(t.additionalFederalWithholding - taxInfo.additionalFederalWithholding / payPeriodsPerYear as real) <= 0.005
      && Abs(t.additionalStateWithholding - taxInfo.additionalStateWithholding / payPeriodsPerYear as real) <= 0.005
    ensures taxInfo.additionalFederalWithholding >= 0.0 && taxInfo.additionalStateWithholding >= 0.0 ==> t.NonNegative()
  {
    if gross <= 0.0 then TaxEstimate(0.0, 0.0, 0.0, 0.0, 0.0, 0.0)
    else
      var annualizedGross := gross * payPeriodsPerYear as real;
      var socialSecurity := if annualizedGross <= SocialSecurityWageBase then RoundedProduct(gross, SocialSecurityRate) else 0.0;
      var medicare := RoundedProduct(gross, MedicareRate);
      var federalIncomeTax := RoundedProduct(gross, FederalTaxRate(taxInfo.federalFilingStatus));
      var stateIncomeTax := RoundedProduct(gross, StateTaxRate(taxInfo.state));
      var additionalFederal := PerPeriod(taxInfo.additionalFederalWithholding, payPeriodsPerYear);
      var additionalState := PerPeriod(taxInfo.additionalStateWithholding, payPeriodsPerYear);
      TaxEstimate(socialSecurity, medicare, federalIncomeTax, stateIncomeTax, additionalFederal, additionalState)
  }

  /** What one deduction withholds from `gross`: nothing when inactive, a percentage of the
      gross rounded to cents, or its fixed amount. */
  function DeductionAmount(gross: real, d: DeductionData): (a: real)
    ensures !d.isActive ==> a == 0.0
    ensures d.isActive && !d.isPercentage ==> a == d.amount
    ensures d.isActive && d.isPercentage ==> Abs(a - gross * d.amount / 100.0) <= 0.005
  {
    if !d.isActive then 0.0
    else if d.isPercentage then PercentOf(gross, d.amount)
    else d.amount
  }

  /** A percentage of an amount, rounded to cents. */
  function PercentOf(amount: real, percent: real): (r: real)
    ensures HasTwoPlaces(r)
    ensures Abs(r - amount * percent / 100.0) <= 0.005
  {
    assert amount * (percent / 100.0) == amount * percent / 100.0;
    Round2(amount * (percent / 100.0))
  }

  /** The sum of the deductions' amounts, in list order. */
  function DeductionsTotal(gross: real, ds: seq<DeductionData>): real
    decreases |ds|
  {
    if |ds| == 0 then 0.0
    else DeductionsTotal(gross, ds[..|ds| - 1]) + DeductionAmount(gross, ds[|ds| - 1])
  }

  /** The deductions that are active, in order (`Where(d => d.IsActive)`). */
  function ActiveOnly(ds: seq<DeductionData>): (r: seq<DeductionData>)
    ensures |r| <= |ds|
    ensures forall k :: 0 <= k < |r| ==> r[k].isActive
    decreases |ds|
  {
    if |ds| == 0 then []
    else if ds[|ds| - 1].isActive then ActiveOnly(ds[..|ds| - 1]) + [ds[|ds| - 1]]
    else ActiveOnly(ds[..|ds| - 1])
  }

  /** Inactive deductions count for nothing: the total over a list equals the total over its
      active deductions. */
  lemma {:induction false} DeductionsTotalOfActive(gross: real, ds: seq<DeductionData>)
    ensures DeductionsTotal(gross, ActiveOnly(ds)) == DeductionsTotal(gross, ds)
    decreases |ds|
  {
    if |ds| > 0 {
      var init := ds[..|ds| - 1];
      DeductionsTotalOfActive(gross, init);
      if ds[|ds| - 1].isActive {
        var r := ActiveOnly(init) + [ds[|ds| - 1]];
        assert r[..|r| - 1] == ActiveOnly(init);
      }
    }
  }

  /** The net balance of a gross amount: taxes and deductions removed, never below zero,
      rounded to cents. */
  function NetBalance(gross: real, deductions: seq<DeductionData>, taxEstimate: TaxEstimate): (net: real)
    ensures net >= 0.0 && HasTwoPlaces(net)
    ensures net <= Max(gross, 0.0) + 0.005 || taxEstimate.Total() + DeductionsTotal(gross, deductions) < 0.0
  {
    var x := Max(gross - taxEstimate.Total() - DeductionsTotal(gross, deductions), 0.0);
    Round2NonNegative(x);
    Round2(x)
  }

  /** `CalculateNetBalance`: the deductions are summed in a loop, skipping inactive ones. */
  method CalculateNetBalance(gross: real, deductions: seq<DeductionData>, taxEstimate: TaxEstimate) returns (net: real)
    ensures net == NetBalance(gross, deductions, taxEstimate)
    ensures net >= 0.0 && HasTwoPlaces(net)
  {
    var totalTax := taxEstimate.Total();
    var totalDeductions := 0.0;
    for i := 0 to |deductions|
      invariant totalDeductions == DeductionsTotal(gross, deductions[..i])
    {
      var d := deductions[i];
      assert deductions[..i + 1][..i] == deductions[..i];
      assert DeductionsTotal(gross, deductions[..i + 1]) == totalDeductions + DeductionAmount(gross, d);
      if !d.isActive {
        continue;
      }
      totalDeductions := totalDeductions + (if d.isPercentage then PercentOf(gross, d.amount) else d.amount);
    }
    assert deductions[..|deductions|] == deductions;
    net := Round2(Max(gross - totalTax - totalDeductions, 0.0));
  }

  /** `EwaFinalResult`. */
  datatype EwaFinalResult = EwaFinalResult(
    finalBalance: real, isTransferEligible: bool, dailyTransferLimit: real, remainingDailyLimit: real)

  /** `CalculateFinalBalance`: the accessible share of the net balance (to cents), less
      outstanding advances but not below zero, capped by the daily limit, then floored to whole
      dollars; eligible when that reaches the minimum. No earlier transfers are tracked, so the
      whole limit remains. */
  function CalculateFinalBalance(net: real, accessPercentage: real, dailyTransferLimit: real,
                                 outstandingAdvances: real, minimumThreshold: real): (r: EwaFinalResult)
    ensures r.finalBalance.Floor as real == r.finalBalance
    ensures r.finalBalance <= dailyTransferLimit
    ensures dailyTransferLimit >= 0.0 ==> r.finalBalance >= 0.0
    ensures r.finalBalance <= Max(Round2(net * accessPercentage) - outstandingAdvances, 0.0)
    ensures r.isTransferEligible <==> r.finalBalance >= minimumThreshold
    ensures r.dailyTransferLimit == dailyTransferLimit && r.remainingDailyLimit == dailyTransferLimit
  {
    var accessible := Round2(net * accessPercentage);
    var afterAdvances := Max(accessible - outstandingAdvances, 0.0);
    var capped := Min(afterAdvances, dailyTransferLimit);
    var finalBalance := Floor(capped);
    EwaFinalResult(finalBalance, finalBalance >= minimumThreshold, dailyTransferLimit, dailyTransferLimit)
  }

  /** The final balance is the largest whole number of dollars within both the daily limit
      and the accessible amount left after advances. */
  lemma FinalBalanceIsLargestWhole(net: real, accessPercentage: real, dailyTransferLimit: real,
                                   outstandingAdvances: real, minimumThreshold: real, n: int)
    requires n as real <= dailyTransferLimit
    requires n as real <= Round2(net * accessPercentage) - outstandingAdvances || n <= 0
    ensures n as real <= CalculateFinalBalance(net, accessPercentage, dailyTransferLimit, outstandingAdvances, minimumThreshold).finalBalance
  {
    var afterAdvances := Max(Round2(net * accessPercentage) - outstandingAdvances, 0.0);
    var capped := Min(afterAdvances, dailyTransferLimit);
    assert n as real <= capped;
    assert capped < capped.Floor as real + 1.0;
    assert n < capped.Floor + 1;
  }
}

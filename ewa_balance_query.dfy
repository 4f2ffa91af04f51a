/** The early-wage-access balance query of the payroll service: the error checks, the current
    pay period, the hours worked in it, the three-stage pipeline and the optional breakdown. The
    four repository reads and the wall clock are parameters. */
module EwaBalanceQuery {
  import opened Wrappers
  import opened Decimals
  import opened Text
  import opened Clock
  import Guids
  import opened DomainEvents
  import opened Employees
  import opened Deductions
  import opened TaxInformations
  import opened TimeEntries
  import opened EwaCalculation

  /** `EwaSettings`, bound from configuration. */
  datatype EwaSettings = EwaSettings(
    accessPercentage: real, dailyTransferLimit: real, minimumThreshold: real,
    payPeriodsPerYear: int, workDaysPerPeriod: int)

  /** The settings' defaults. */
  const DefaultSettings: EwaSettings := EwaSettings(0.50, 500.00, 20.00, 26, 10)

  // ---------------------------------------------------------------- the pay period

  datatype PayPeriod = PayPeriod(start: DateTime, end: DateTime)

  /** The work days of a period plus two weekend days for every five of them, never less than
      two weeks. */
  function PeriodLengthDays(workDaysPerPeriod: int): (n: int)
    ensures n >= 14
    ensures workDaysPerPeriod >= 0 ==> n >= workDaysPerPeriod
  {
    var n := workDaysPerPeriod + TruncDiv(workDaysPerPeriod, 5) * 2;
    if n < 14 then 14 else n
  }

  /** `GetCurrentPayPeriod`: periods follow one another from the Monday 2025-01-06; the index of
      the current one is the whole days since then divided by the period length, both
      truncated toward zero. */
  function GetCurrentPayPeriod(workDaysPerPeriod: int, now: DateTime): (p: PayPeriod)
    ensures p.start == AddDays(Monday2025Jan6, PeriodIndex(workDaysPerPeriod, now) * PeriodLengthDays(workDaysPerPeriod))
    ensures p.end == AddDays(p.start, PeriodLengthDays(workDaysPerPeriod))
  {
    var length := PeriodLengthDays(workDaysPerPeriod);
    var daysSinceReference := SpanDays(now - Monday2025Jan6);
    var periodIndex := TruncDiv(daysSinceReference, length);
    var start := AddDays(Monday2025Jan6, periodIndex * length);
    PayPeriod(start, AddDays(start, length))
  }

  /** How many whole periods lie between the reference Monday and "now". */
  function PeriodIndex(workDaysPerPeriod: int, now: DateTime): (k: int)
    ensures now >= Monday2025Jan6 ==> k >= 0
  {
    TruncDiv(SpanDays(now - Monday2025Jan6), PeriodLengthDays(workDaysPerPeriod))
  }

  /** From the reference Monday on, the current period is the one that contains "now". */
  lemma CurrentPeriodContainsNow(workDaysPerPeriod: int, now: DateTime)
    requires now >= Monday2025Jan6
    ensures GetCurrentPayPeriod(workDaysPerPeriod, now).start <= now < GetCurrentPayPeriod(workDaysPerPeriod, now).end
  {
    var length := PeriodLengthDays(workDaysPerPeriod);
    var days := SpanDays(now - Monday2025Jan6);
    assert days == (now - Monday2025Jan6) / TicksPerDay;
    var index := TruncDiv(days, length);
    assert index == days / length;
    var m := index * length;
    assert m <= days < m + length by {
      assert days == index * length + days % length;
    }
    assert m * TicksPerDay <= days * TicksPerDay <= now - Monday2025Jan6;
    assert now - Monday2025Jan6 < (days + 1) * TicksPerDay <= (m + length) * TicksPerDay;
  }

  /** When the period length is a whole number of weeks (two weeks with the default ten work
      days), every pay period starts on a Monday. */
  lemma CurrentPeriodStartsOnMonday(workDaysPerPeriod: int, now: DateTime)
    requires PeriodLengthDays(workDaysPerPeriod) % 7 == 0
    ensures DayOfWeek(GetCurrentPayPeriod(workDaysPerPeriod, now).start) == 1
  {
    var length := PeriodLengthDays(workDaysPerPeriod);
    var index := PeriodIndex(workDaysPerPeriod, now);
    var weeks := length / 7;
    assert length == weeks * 7;
    MultiplyRegroup(index, weeks, 7);
    ReferenceIsMonday();
    WholeWeeksKeepDayOfWeek(Monday2025Jan6, index * weeks);
  }

  lemma MultiplyRegroup(a: int, b: int, c: int)
    ensures a * (b * c) == (a * b) * c
  {
  }

  lemma ReferenceIsMonday()
    ensures DayOfWeek(Monday2025Jan6) == 1
  {
  }

  // ---------------------------------------------------------------- counting work days

  predicate IsWorkDay(t: DateTime) {
    DayOfWeek(t) != Saturday && DayOfWeek(t) != Sunday
  }

  /** How many of the `n` days from `start` on fall from Monday to Friday. */
  function WeekdayCount(start: DateTime, n: nat): (c: nat)
    ensures c <= n
  {
    if n == 0 then 0
    else WeekdayCount(start, n - 1) + WorkDayAt(start, n - 1)
  }

  /** 1 when day `k` from `start` on is a work day, else 0. */
  function WorkDayAt(start: DateTime, k: int): (c: nat)
    ensures c <= 1
  {
    if IsWorkDay(AddDays(start, k)) then 1 else 0
  }

  lemma {:induction false} WeekdayCountMonotone(start: DateTime, m: nat, n: nat)
    requires m <= n
    ensures WeekdayCount(start, m) <= WeekdayCount(start, n)
    decreases n - m
  {
    if m < n {
      WeekdayCountMonotone(start, m, n - 1);
    }
  }

  /** Any seven consecutive days hold exactly five work days. */
  lemma WeekHasFiveWorkDays(start: DateTime)
    ensures WeekdayCount(start, 7) == 5
  {
    var w := DayOfWeek(start);
    assert WeekdayCount(start, 2) == WorkDayAt(start, 0) + WorkDayAt(start, 1);
    assert WeekdayCount(start, 4) == WeekdayCount(start, 2) + WorkDayAt(start, 2) + WorkDayAt(start, 3);
    assert WeekdayCount(start, 6) == WeekdayCount(start, 4) + WorkDayAt(start, 4) + WorkDayAt(start, 5);
    assert WeekdayCount(start, 7) == WeekdayCount(start, 6) + WorkDayAt(start, 6);
    WorkDayAtWeekday(start, 0);
    WorkDayAtWeekday(start, 1);
    WorkDayAtWeekday(start, 2);
    WorkDayAtWeekday(start, 3);
    WorkDayAtWeekday(start, 4);
    WorkDayAtWeekday(start, 5);
    WorkDayAtWeekday(start, 6);
    FiveWeekdaysFrom(w);
  }

  /** Whether the weekday numbered `d` is a work day, as 1 or 0. */
  function WeekdayIndicator(d: int): nat {
    if d == Saturday || d == Sunday then 0 else 1
  }

  /** Day `k` of a run starting on weekday `w` falls on weekday `(w + k) % 7`. */
  lemma WorkDayAtWeekday(start: DateTime, k: int)
    ensures WorkDayAt(start, k) == WeekdayIndicator((DayOfWeek(start) + k) % 7)
  {
    DayOfWeekAddDays(start, k);
  }

  /** Seven weekdays in a row, from any one, hold five work days. */
  lemma FiveWeekdaysFrom(w: int)
    requires 0 <= w < 7
    ensures WeekdayIndicator(w % 7) + WeekdayIndicator((w + 1) % 7) + WeekdayIndicator((w + 2) % 7)
      + WeekdayIndicator((w + 3) % 7) + WeekdayIndicator((w + 4) % 7) + WeekdayIndicator((w + 5) % 7)
      + WeekdayIndicator((w + 6) % 7) == 5
  {
  }

  /** The days from the one `start` falls on through the one `now` falls on; none when "now"
      is on an earlier day. */
  function DaysThrough(start: DateTime, now: DateTime): (n: nat)
    ensures n > 0 <==> DayNumber(start) <= DayNumber(now)
  {
    if DayNumber(now) >= DayNumber(start) then DayNumber(now) - DayNumber(start) + 1 else 0
  }

  /** The work days from the period start through today, capped at the work days of a period. */
  function WorkDaysElapsed(periodStart: DateTime, now: DateTime, workDaysPerPeriod: int): (n: int)
    ensures 0 <= n
    ensures workDaysPerPeriod >= 0 ==> n <= workDaysPerPeriod
    ensures n <= DaysThrough(periodStart, now)
  {
    if workDaysPerPeriod <= 0 then 0
    else
      var c := WeekdayCount(periodStart, DaysThrough(periodStart, now));
      if c < workDaysPerPeriod then c else workDaysPerPeriod
  }

  /** `GetWorkDaysElapsedInPeriod`: walks day by day from the period start while the day is not
      after today and the cap is not reached, counting the days that are not Saturday or
      Sunday. */
  method GetWorkDaysElapsedInPeriod(periodStart: DateTime, now: DateTime, workDaysPerPeriod: int) returns (workDays: int)
    ensures workDays == WorkDaysElapsed(periodStart, now, workDaysPerPeriod)
  {
    workDays := 0;
    var current := periodStart;
    ghost var k: nat := 0;
    while Date(current) <= Date(now) && workDays < workDaysPerPeriod
      invariant current == AddDays(periodStart, k)
      invariant k <= DaysThrough(periodStart, now)
      invariant workDays == WeekdayCount(periodStart, k)
      invariant workDaysPerPeriod <= 0 ==> k == 0
      invariant workDaysPerPeriod > 0 ==> workDays <= workDaysPerPeriod
      decreases DaysThrough(periodStart, now) - k
    {
      DayNumberAddDays(periodStart, k);
      DateOrder(current, now);
      if DayOfWeek(current) != Saturday && DayOfWeek(current) != Sunday {
        workDays := workDays + 1;
      }
      current := AddDays(current, 1);
      assert AddDays(AddDays(periodStart, k), 1) == AddDays(periodStart, k + 1);
      k := k + 1;
    }
    DayNumberAddDays(periodStart, k);
    DateOrder(current, now);
    if workDaysPerPeriod > 0 && workDays >= workDaysPerPeriod {
      WeekdayCountMonotone(periodStart, k, DaysThrough(periodStart, now));
    }
  }

  /** Over a fourteen-day period of ten work days the elapsed count reaches the full ten on
      the period's last day. */
  lemma FullPeriodCountsAllWorkDays(periodStart: DateTime)
    ensures WorkDaysElapsed(periodStart, AddDays(periodStart, 13), 10) == 10
  {
    DayNumberAddDays(periodStart, 13);
    assert DaysThrough(periodStart, AddDays(periodStart, 13)) == 14;
    WeekHasFiveWorkDays(periodStart);
    WeekHasFiveWorkDays(AddDays(periodStart, 7));
    TwoWeeks(periodStart);
  }

  lemma {:induction false} WeekdayCountSplit(start: DateTime, m: nat, n: nat)
    ensures WeekdayCount(start, m + n) == WeekdayCount(start, m) + WeekdayCount(AddDays(start, m), n)
    decreases n
  {
    if n > 0 {
      WeekdayCountSplit(start, m, n - 1);
      assert AddDays(AddDays(start, m), n - 1) == AddDays(start, m + n - 1);
    }
  }

  lemma TwoWeeks(start: DateTime)
    ensures WeekdayCount(start, 14) == 10
  {
    WeekdayCountSplit(start, 7, 7);
    WeekHasFiveWorkDays(start);
    WeekHasFiveWorkDays(AddDays(start, 7));
  }

  // ---------------------------------------------------------------- hours in the period

  /** The entries clocked in within `[start, end)`, in order. */
  function InPeriod(entries: seq<TimeEntryData>, start: DateTime, end: DateTime): (r: seq<TimeEntryData>)
    ensures |r| <= |entries|
    ensures forall e :: e in r <==> e in entries && start <= e.clockIn < end
    decreases |entries|
  {
    if |entries| == 0 then []
    else
      var last := entries[|entries| - 1];
      var init := InPeriod(entries[..|entries| - 1], start, end);
      assert forall e :: e in entries <==> e in entries[..|entries| - 1] || e == last;
      if start <= last.clockIn < end then init + [last] else init
  }

  /** The hours of the closed entries, summed in order. */
  function ClosedHours(entries: seq<TimeEntryData>): real
    decreases |entries|
  {
    if |entries| == 0 then 0.0
    else
      var last := entries[|entries| - 1];
      ClosedHours(entries[..|entries| - 1]) + (if last.clockOut.Some? then last.hoursWorked else 0.0)
  }

  /** Open entries add nothing, and no entry subtracts. */
  lemma {:induction false} ClosedHoursNonNegative(entries: seq<TimeEntryData>)
    requires forall e :: e in entries ==> e.hoursWorked >= 0.0
    ensures ClosedHours(entries) >= 0.0
    decreases |entries|
  {
    if |entries| > 0 {
      assert forall e :: e in entries[..|entries| - 1] ==> e in entries;
      ClosedHoursNonNegative(entries[..|entries| - 1]);
    }
  }

  /** The hours the balance is computed from: the closed time in the period for hourly pay,
      otherwise eight hours per elapsed work day. */
  function HoursWorked(employee: EmployeeData, timeEntries: seq<TimeEntryData>, period: PayPeriod,
                       now: DateTime, settings: EwaSettings): (h: real)
    ensures employee.payType == Hourly ==> h == ClosedHours(InPeriod(timeEntries, period.start, period.end))
    ensures employee.payType != Hourly ==> 0.0 <= h <= 8.0 * Max(settings.workDaysPerPeriod as real, 0.0)
  {
    if employee.payType == Hourly then ClosedHours(InPeriod(timeEntries, period.start, period.end))
    else CalculateHoursForSalaried(WorkDaysElapsed(period.start, now, settings.workDaysPerPeriod), settings.workDaysPerPeriod)
  }

  // ---------------------------------------------------------------- the breakdown

  /** `EwaDeductionItemDto`. */
  datatype DeductionItem = DeductionItem(itemType: string, name: string, amount: real)

  function TaxLine(name: string, amount: real): (r: seq<DeductionItem>)
    ensures amount > 0.0 ==> r == [DeductionItem("TAX", name, amount)]
    ensures amount <= 0.0 ==> r == []
  {
    if amount > 0.0 then [DeductionItem("TAX", name, amount)] else []
  }

  /** One "TAX" line for each positive component of the estimate, in a fixed order. */
  function TaxLines(t: TaxEstimate): seq<DeductionItem> {
    TaxLine("Social Security (FICA)", t.socialSecurity)
    + TaxLine("Medicare", t.medicare)
    + TaxLine("Federal Income Tax", t.federalIncomeTax)
    + TaxLine("State Income Tax", t.stateIncomeTax)
    + TaxLine("Additional Federal Withholding", t.additionalFederalWithholding)
    + TaxLine("Additional State Withholding", t.additionalStateWithholding)
  }

  /** The breakdown line of one employee deduction: its type's name in upper case, its
      description, and what it withholds from the gross. */
  function DeductionLine(gross: real, d: DeductionData): (r: DeductionItem)
    ensures r.itemType == ToUpper(DeductionTypeName(d.deductionType)) && r.name == d.description
  {
    DeductionItem(ToUpper(DeductionTypeName(d.deductionType)), d.description,
                  if d.isPercentage then PercentOf(gross, d.amount) else d.amount)
  }

  function DeductionLines(gross: real, ds: seq<DeductionData>): (r: seq<DeductionItem>)
    ensures |r| == |ds|
    ensures forall k :: 0 <= k < |ds| ==> r[k] == DeductionLine(gross, ds[k])
  {
    seq(|ds|, k requires 0 <= k < |ds| => DeductionLine(gross, ds[k]))
  }

  /** One more deduction adds its line at the end. */
  lemma DeductionLinesExtend(gross: real, ds: seq<DeductionData>, i: int)
    requires 0 <= i < |ds|
    ensures DeductionLines(gross, ds[..i + 1]) == DeductionLines(gross, ds[..i]) + [DeductionLine(gross, ds[i])]
  {
    var a := DeductionLines(gross, ds[..i + 1]);
    var b := DeductionLines(gross, ds[..i]) + [DeductionLine(gross, ds[i])];
    assert |a| == |b|;
    forall k | 0 <= k < |a| ensures a[k] == b[k] {
      assert ds[..i + 1][k] == ds[k];
      if k < i {
        assert ds[..i][k] == ds[k];
      }
    }
  }

  function ItemsTotal(items: seq<DeductionItem>): real
    decreases |items|
  {
    if |items| == 0 then 0.0 else ItemsTotal(items[..|items| - 1]) + items[|items| - 1].amount
  }

  lemma {:induction false} ItemsTotalAppend(a: seq<DeductionItem>, b: seq<DeductionItem>)
    ensures ItemsTotal(a + b) == ItemsTotal(a) + ItemsTotal(b)
    decreases |b|
  {
    if |b| == 0 {
      assert a + b == a;
    } else {
      assert (a + b)[..|a + b| - 1] == a + b[..|b| - 1];
      assert (a + b)[|a + b| - 1] == b[|b| - 1];
      ItemsTotalAppend(a, b[..|b| - 1]);
    }
  }

  lemma TaxLineTotal(name: string, amount: real)
    ensures ItemsTotal(TaxLine(name, amount)) == (if amount > 0.0 then amount else 0.0)
  {
    if amount > 0.0 {
      assert TaxLine(name, amount)[..0] == [];
    }
  }

  /** Omitting the zero components loses nothing: with no negative component the tax lines
      add up to the estimate's total. */
  lemma TaxLinesTotal(t: TaxEstimate)
    requires t.NonNegative()
    ensures ItemsTotal(TaxLines(t)) == t.Total()
  {
    var l1 := TaxLine("Social Security (FICA)", t.socialSecurity);
    var l2 := TaxLine("Medicare", t.medicare);
    var l3 := TaxLine("Federal Income Tax", t.federalIncomeTax);
    var l4 := TaxLine("State Income Tax", t.stateIncomeTax);
    var l5 := TaxLine("Additional Federal Withholding", t.additionalFederalWithholding);
    var l6 := TaxLine("Additional State Withholding", t.additionalStateWithholding);
    TaxLineTotal("Social Security (FICA)", t.socialSecurity);
    TaxLineTotal("Medicare", t.medicare);
    TaxLineTotal("Federal Income Tax", t.federalIncomeTax);
    TaxLineTotal("State Income Tax", t.stateIncomeTax);
    TaxLineTotal("Additional Federal Withholding", t.additionalFederalWithholding);
    TaxLineTotal("Additional State Withholding", t.additionalStateWithholding);
    ItemsTotalAppend(l1, l2);
    ItemsTotalAppend(l1 + l2, l3);
    ItemsTotalAppend(l1 + l2 + l3, l4);
    ItemsTotalAppend(l1 + l2 + l3 + l4, l5);
    ItemsTotalAppend(l1 + l2 + l3 + l4 + l5, l6);
  }

  /** Every tax line is labelled "TAX" and carries a positive amount. */
  lemma TaxLinesPositive(t: TaxEstimate)
    ensures forall item :: item in TaxLines(t) ==> item.itemType == "TAX" && item.amount > 0.0
  {
  }

  /** The employee lines of the breakdown add up to exactly the deductions the net balance
      subtracts, inactive ones included or not. */
  lemma {:induction false} DeductionLinesTotal(gross: real, ds: seq<DeductionData>)
    ensures ItemsTotal(DeductionLines(gross, ActiveOnly(ds))) == DeductionsTotal(gross, ds)
  {
    DeductionsTotalOfActive(gross, ds);
    ActiveLinesTotal(gross, ActiveOnly(ds));
  }

  lemma {:induction false} ActiveLinesTotal(gross: real, ds: seq<DeductionData>)
    requires forall k :: 0 <= k < |ds| ==> ds[k].isActive
    ensures ItemsTotal(DeductionLines(gross, ds)) == DeductionsTotal(gross, ds)
    decreases |ds|
  {
    if |ds| > 0 {
      var init := ds[..|ds| - 1];
      var lines := DeductionLines(gross, ds);
      assert lines[..|ds| - 1] == DeductionLines(gross, init);
      assert lines[|ds| - 1].amount == DeductionAmount(gross, ds[|ds| - 1]);
      ActiveLinesTotal(gross, init);
    }
  }

  /** The tax part of the breakdown, one conditional append per component. */
  method BuildTaxLines(taxEstimate: TaxEstimate) returns (lines: seq<DeductionItem>)
    ensures lines == TaxLines(taxEstimate)
  {
    lines := [];
    if taxEstimate.socialSecurity > 0.0 {
      lines := lines + [DeductionItem("TAX", "Social Security (FICA)", taxEstimate.socialSecurity)];
    }
    assert lines == TaxLine("Social Security (FICA)", taxEstimate.socialSecurity);
    ghost var prefix := lines;
    if taxEstimate.medicare > 0.0 {
      lines := lines + [DeductionItem("TAX", "Medicare", taxEstimate.medicare)];
    }
    assert lines == prefix + TaxLine("Medicare", taxEstimate.medicare);
    prefix := lines;
    if taxEstimate.federalIncomeTax > 0.0 {
      lines := lines + [DeductionItem("TAX", "Federal Income Tax", taxEstimate.federalIncomeTax)];
    }
    assert lines == prefix + TaxLine("Federal Income Tax", taxEstimate.federalIncomeTax);
    prefix := lines;
    if taxEstimate.stateIncomeTax > 0.0 {
      lines := lines + [DeductionItem("TAX", "State Income Tax", taxEstimate.stateIncomeTax)];
    }
    assert lines == prefix + TaxLine("State Income Tax", taxEstimate.stateIncomeTax);
    prefix := lines;
    if taxEstimate.additionalFederalWithholding > 0.0 {
      lines := lines + [DeductionItem("TAX", "Additional Federal Withholding", taxEstimate.additionalFederalWithholding)];
    }
    assert lines == prefix + TaxLine("Additional Federal Withholding", taxEstimate.additionalFederalWithholding);
    prefix := lines;
    if taxEstimate.additionalStateWithholding > 0.0 {
      lines := lines + [DeductionItem("TAX", "Additional State Withholding", taxEstimate.additionalStateWithholding)];
    }
    assert lines == prefix + TaxLine("Additional State Withholding", taxEstimate.additionalStateWithholding);
  }

  /** Builds the breakdown as the handler does: the tax lines, then one line per active
      deduction. */
  method BuildBreakdown(taxEstimate: TaxEstimate, gross: real, activeDeductions: seq<DeductionData>)
    returns (lines: seq<DeductionItem>)
    ensures lines == TaxLines(taxEstimate) + DeductionLines(gross, activeDeductions)
  {
    lines := BuildTaxLines(taxEstimate);
    ghost var taxLines := lines;
    for i := 0 to |activeDeductions|
      invariant lines == taxLines + DeductionLines(gross, activeDeductions[..i])
    {
      var d := activeDeductions[i];
      var amount := if d.isPercentage then PercentOf(gross, d.amount) else d.amount;
      DeductionLinesExtend(gross, activeDeductions, i);
      lines := lines + [DeductionItem(ToUpper(DeductionTypeName(d.deductionType)), d.description, amount)];
    }
    assert activeDeductions[..|activeDeductions|] == activeDeductions;
  }

  // ---------------------------------------------------------------- the handler

  /** `EwaBalanceUnavailableReasonDto`; its message text is not modelled. */
  datatype UnavailableReason = UnavailableReason(code: string)

  /** `EwaBalanceDto`. */
  datatype EwaBalance = EwaBalance(
    employeeId: Guids.Guid, calculationTimestamp: DateTime,
    grossBalance: real, netBalance: real, finalBalance: real,
    accessPercentage: real, minimumThreshold: real, isTransferEligible: bool, currency: string,
    dailyTransferLimit: real, remainingDailyLimit: real, outstandingAdvances: real,
    calculationMethod: string, hoursWorked: real, payRate: real,
    deductions: Option<seq<DeductionItem>>, balanceUnavailableReason: Option<UnavailableReason>)

  /** `GetEwaBalanceResult`. */
  datatype EwaBalanceResult = EwaBalanceResult(
    balance: Option<EwaBalance>, statusCode: int, errorCode: Option<string>, errorMessage: Option<string>)

  const EmployeeNotFound: EwaBalanceResult := EwaBalanceResult(None, 404, Some("EMPLOYEE_NOT_FOUND"), Some("Employee not found."))
  const EmployeeInactive: EwaBalanceResult := EwaBalanceResult(None, 422, Some("EMPLOYEE_INACTIVE"), Some("Employee is inactive."))
  const InsufficientData: EwaBalanceResult :=
    EwaBalanceResult(None, 422, Some("INSUFFICIENT_DATA"), Some("Tax information is missing for this employee."))

  function CalculationMethod(payType: PayType): string {
    if payType == Hourly then "TIMESHEET" else "SALARY_PRORATION"
  }

  /** The balance of an active employee with tax information, as the handler's success path
      assembles it. */
  predicate IsBalanceOf(b: EwaBalance, employee: EmployeeData, taxInfo: TaxInformationData,
                        allDeductions: seq<DeductionData>, allTimeEntries: seq<TimeEntryData>,
                        includeBreakdown: bool, now: DateTime, settings: EwaSettings)
  {
    var period := GetCurrentPayPeriod(settings.workDaysPerPeriod, now);
    var hours := HoursWorked(employee, allTimeEntries, period, now, settings);
    var gross := CalculateGrossBalance(employee.payType, employee.payRate, hours);
    var taxEstimate := EstimateTaxWithholdings(gross, taxInfo, settings.payPeriodsPerYear);
    var net := NetBalance(gross, ActiveOnly(allDeductions), taxEstimate);
    var final := CalculateFinalBalance(net, settings.accessPercentage, settings.dailyTransferLimit, 0.0, settings.minimumThreshold);
    b.employeeId == employee.id && b.calculationTimestamp == now
    && b.hoursWorked == hours && b.calculationMethod == CalculationMethod(employee.payType)
    && b.grossBalance == gross && b.netBalance == net
    && b.finalBalance == final.finalBalance && b.isTransferEligible == final.isTransferEligible
    && b.dailyTransferLimit == final.dailyTransferLimit && b.remainingDailyLimit == final.remainingDailyLimit
    && b.accessPercentage == settings.accessPercentage && b.minimumThreshold == settings.minimumThreshold
    && b.currency == "USD" && b.outstandingAdvances == 0.0 && b.payRate == employee.payRate
    && b.deductions == (if includeBreakdown then Some(TaxLines(taxEstimate) + DeductionLines(gross, ActiveOnly(allDeductions))) else None)
    && b.balanceUnavailableReason == (if final.isTransferEligible then None else Some(UnavailableReason("BELOW_MINIMUM")))
  }

  /** `GetEwaBalanceQueryHandler.Handle`. The employee, tax-record, deduction and time-entry
      reads are parameters: `employee` and `taxInfo` are what the lookups by employee id
      found, `allDeductions` and `allTimeEntries` the employee's documents. The checks run in
      the order: employee missing, employee inactive, tax information missing. */
  method Handle(includeBreakdown: bool, employee: Option<EmployeeData>, taxInfo: Option<TaxInformationData>,
                allDeductions: seq<DeductionData>, allTimeEntries: seq<TimeEntryData>,
                now: DateTime, settings: EwaSettings)
    returns (r: EwaBalanceResult)
    ensures employee.None? ==> r == EmployeeNotFound
    ensures employee.Some? && !employee.value.isActive ==> r == EmployeeInactive
    ensures employee.Some? && employee.value.isActive && taxInfo.None? ==> r == InsufficientData
    ensures r.balance.Some? <==> r.statusCode == 200
    ensures r.statusCode == 200 <==> employee.Some? && employee.value.isActive && taxInfo.Some?
    ensures r.balance.Some? ==> (r.errorCode.None? && r.errorMessage.None?
      && IsBalanceOf(r.balance.value, employee.value, taxInfo.value, allDeductions, allTimeEntries, includeBreakdown, now, settings))
  {
    if employee.None? {
      return EmployeeNotFound;
    }
    var e := employee.value;
    if !e.isActive {
      return EmployeeInactive;
    }
    if taxInfo.None? {
      return InsufficientData;
    }
    var activeDeductions := ActiveOnly(allDeductions);
    var period := GetCurrentPayPeriod(settings.workDaysPerPeriod, now);
    var periodEntries := InPeriod(allTimeEntries, period.start, period.end);
    var hoursWorked: real;
    var calculationMethod: string;
    if e.payType == Hourly {
      hoursWorked := ClosedHours(periodEntries);
      calculationMethod := "TIMESHEET";
    } else {
      var daysWorked := GetWorkDaysElapsedInPeriod(period.start, now, settings.workDaysPerPeriod);
      hoursWorked := CalculateHoursForSalaried(daysWorked, settings.workDaysPerPeriod);
      calculationMethod := "SALARY_PRORATION";
    }
    var gross := CalculateGrossBalance(e.payType, e.payRate, hoursWorked);
    var taxEstimate := EstimateTaxWithholdings(gross, taxInfo.value, settings.payPeriodsPerYear);
    var net := CalculateNetBalance(gross, activeDeductions, taxEstimate);
    var finalResult := CalculateFinalBalance(net, settings.accessPercentage, settings.dailyTransferLimit, 0.0, settings.minimumThreshold);
    var deductionBreakdown: Option<seq<DeductionItem>> := None;
    if includeBreakdown {
      var lines := BuildBreakdown(taxEstimate, gross, activeDeductions);
      deductionBreakdown := Some(lines);
    }
    var unavailableReason: Option<UnavailableReason> := None;
    if !finalResult.isTransferEligible {
      unavailableReason := Some(UnavailableReason("BELOW_MINIMUM"));
    }
    var dto := EwaBalance(e.id, now, gross, net, finalResult.finalBalance, settings.accessPercentage,
      settings.minimumThreshold, finalResult.isTransferEligible, "USD", finalResult.dailyTransferLimit,
      finalResult.remainingDailyLimit, 0.0, calculationMethod, hoursWorked, e.payRate,
      deductionBreakdown, unavailableReason);
    return EwaBalanceResult(Some(dto), 200, None, None);
  }

  /** What a successful balance promises: a non-negative net balance in cents, a whole-dollar
      final balance within the daily limit, an unavailable reason exactly when the transfer is
      not allowed, and a breakdown only when asked for, whose employee lines add up to the
      deductions that were subtracted. */
  lemma BalanceProperties(b: EwaBalance, employee: EmployeeData, taxInfo: TaxInformationData,
                          allDeductions: seq<DeductionData>, allTimeEntries: seq<TimeEntryData>,
                          includeBreakdown: bool, now: DateTime, settings: EwaSettings)
    requires IsBalanceOf(b, employee, taxInfo, allDeductions, allTimeEntries, includeBreakdown, now, settings)
    ensures b.netBalance >= 0.0 && HasTwoPlaces(b.netBalance)
    ensures b.finalBalance.Floor as real == b.finalBalance && b.finalBalance <= settings.dailyTransferLimit
    ensures settings.dailyTransferLimit >= 0.0 ==> b.finalBalance >= 0.0
    ensures b.balanceUnavailableReason.Some? <==> !b.isTransferEligible
    ensures b.isTransferEligible <==> b.finalBalance >= settings.minimumThreshold
    ensures b.deductions.Some? <==> includeBreakdown
    ensures b.remainingDailyLimit == b.dailyTransferLimit == settings.dailyTransferLimit
    ensures employee.payType != Hourly && employee.payType != Salary ==> b.grossBalance == 0.0
  {
    BalanceAmounts(b, employee, taxInfo, allDeductions, allTimeEntries, includeBreakdown, now, settings);
    BalanceEligibility(b, employee, taxInfo, allDeductions, allTimeEntries, includeBreakdown, now, settings);
    BalanceShape(b, employee, taxInfo, allDeductions, allTimeEntries, includeBreakdown, now, settings);
  }

  lemma BalanceAmounts(b: EwaBalance, employee: EmployeeData, taxInfo: TaxInformationData,
                          allDeductions: seq<DeductionData>, allTimeEntries: seq<TimeEntryData>,
                          includeBreakdown: bool, now: DateTime, settings: EwaSettings)
    requires IsBalanceOf(b, employee, taxInfo, allDeductions, allTimeEntries, includeBreakdown, now, settings)
    ensures b.netBalance >= 0.0 && HasTwoPlaces(b.netBalance)
    ensures b.finalBalance.Floor as real == b.finalBalance && b.finalBalance <= settings.dailyTransferLimit
    ensures settings.dailyTransferLimit >= 0.0 ==> b.finalBalance >= 0.0
  {
  }

  lemma BalanceEligibility(b: EwaBalance, employee: EmployeeData, taxInfo: TaxInformationData,
                          allDeductions: seq<DeductionData>, allTimeEntries: seq<TimeEntryData>,
                          includeBreakdown: bool, now: DateTime, settings: EwaSettings)
    requires IsBalanceOf(b, employee, taxInfo, allDeductions, allTimeEntries, includeBreakdown, now, settings)
    ensures b.balanceUnavailableReason.Some? <==> !b.isTransferEligible
    ensures b.isTransferEligible <==> b.finalBalance >= settings.minimumThreshold
  {
  }

  lemma BalanceShape(b: EwaBalance, employee: EmployeeData, taxInfo: TaxInformationData,
                          allDeductions: seq<DeductionData>, allTimeEntries: seq<TimeEntryData>,
                          includeBreakdown: bool, now: DateTime, settings: EwaSettings)
    requires IsBalanceOf(b, employee, taxInfo, allDeductions, allTimeEntries, includeBreakdown, now, settings)
    ensures b.deductions.Some? <==> includeBreakdown
    ensures b.remainingDailyLimit == b.dailyTransferLimit == settings.dailyTransferLimit
    ensures employee.payType != Hourly && employee.payType != Salary ==> b.grossBalance == 0.0
  {
  }

  /** Inactive deductions neither reduce the net balance nor show up in the breakdown: the
      balance is the one the employee's active deductions alone give. */
  lemma InactiveDeductionsIgnored(b: EwaBalance, employee: EmployeeData, taxInfo: TaxInformationData,
                                  allDeductions: seq<DeductionData>, allTimeEntries: seq<TimeEntryData>,
                                  includeBreakdown: bool, now: DateTime, settings: EwaSettings)
    requires IsBalanceOf(b, employee, taxInfo, allDeductions, allTimeEntries, includeBreakdown, now, settings)
    ensures IsBalanceOf(b, employee, taxInfo, ActiveOnly(allDeductions), allTimeEntries, includeBreakdown, now, settings)
  {
    ActiveOnlyIdempotent(allDeductions);
  }

  lemma {:induction false} ActiveOnlyIdempotent(ds: seq<DeductionData>)
    ensures ActiveOnly(ActiveOnly(ds)) == ActiveOnly(ds)
    decreases |ds|
  {
    if |ds| > 0 {
      ActiveOnlyIdempotent(ds[..|ds| - 1]);
      var r := ActiveOnly(ds[..|ds| - 1]);
      if ds[|ds| - 1].isActive {
        assert (r + [ds[|ds| - 1]])[..|r|] == r;
      }
    }
  }

  /** Only entries clocked in during the current period count toward an hourly employee's
      hours: entries outside it can be added or removed without changing the balance. */
  lemma {:induction false} InPeriodIgnoresOthers(entries: seq<TimeEntryData>, e: TimeEntryData, start: DateTime, end: DateTime)
    requires !(start <= e.clockIn < end)
    ensures InPeriod(entries + [e], start, end) == InPeriod(entries, start, end)
  {
    assert (entries + [e])[..|entries|] == entries;
  }
}

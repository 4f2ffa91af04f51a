/** The chatbot's own early-wage-access estimate, computed from the payroll API's JSON replies
    with System.Text.Json. The four API replies, the JSON parser, the date parser and the wall
    clock are parameters. A reader of an element that "throws" is modelled by `None`. */
module ChatbotEwa {
  import opened Wrappers
  import opened Decimals
  import opened Text
  import opened Clock
  import opened JsonTree

  const MaxDailyWithdrawal: real := 200.00
  const MaxWithdrawalPercent: real := 0.70
  const MaxWithdrawalsPerDay: int := 1
  const DefaultFederalTaxRate: real := 0.22
  const DefaultStateTaxRate: real := 0.05
  const FicaRate: real := 0.0765

  /** `DateTime.TryParse`: the time, or `None` when the text is not a date. */
  type DateParser = string -> Option<DateTime>

  // ---------------------------------------------------------------- JsonElement readers

  /** `TryGetProperty`: throws on anything but an object; otherwise the member, if any. */
  function TryGetProperty(e: Json, name: string): (r: Option<Option<Json>>)
    ensures r.Some? <==> e.JObj?
    ensures e.JObj? ==> r.value == Lookup(e.fields, name)
  {
    if e.JObj? then Some(Lookup(e.fields, name)) else None
  }

  /** `GetDecimal`: the value of a number; throws on anything else. */
  function GetDecimal(e: Json): (r: Option<real>)
    ensures r.Some? <==> e.JInt? || e.JDec?
  {
    match e
    case JInt(i) => Some(i as real)
    case JDec(x, _) => Some(x)
    case _ => None
  }

  /** `GetInt32`: an integral number within 32 bits; throws otherwise. */
  function GetInt32(e: Json): (r: Option<int>)
    ensures r.Some? ==> -0x8000_0000 <= r.value <= 0x7fff_ffff
  {
    if e.JInt? && -0x8000_0000 <= e.i <= 0x7fff_ffff then Some(e.i) else None
  }

  /** `GetBoolean`: `true` or `false`; throws otherwise. */
  function GetBoolean(e: Json): (r: Option<bool>)
    ensures r.Some? <==> e.JBool?
  {
    if e.JBool? then Some(e.b) else None
  }

  /** `GetString`: the text of a string, `null` for null (as the inner `None`); throws otherwise. */
  function GetString(e: Json): (r: Option<Option<string>>)
    ensures r == Some(None) <==> e.JNull?
  {
    match e
    case JStr(s) => Some(Some(s))
    case JNull => Some(None)
    case _ => None
  }

  /** The items of a document that parses to an array; a reply that does not parse, or is not
      an array, contributes nothing (the parse error is caught and logged). */
  function ArrayItems(parse: Parser, text: string): (items: seq<Json>)
    ensures parse(text).Some? && parse(text).value.JArr? ==> items == parse(text).value.items
    ensures parse(text).None? || !parse(text).value.JArr? ==> items == []
  {
    match parse(text)
    case Some(JArr(items)) => items
    case _ => []
  }

  // ---------------------------------------------------------------- the pay period

  /** `GetPayPeriodStart`: today, moved back by the days since the last two-week boundary
      counted from Monday 2024-01-01. */
  function GetPayPeriodStart(now: DateTime): (start: DateTime)
    ensures AddDays(Date(now), -13) <= start <= AddDays(Date(now), 13)
  {
    var today := Date(now);
    var daysSinceAnchor := Truncate(TotalDays(today - Monday2024Jan1));
    var daysIntoPeriod := TruncMod(daysSinceAnchor, 14);
    AddDays(today, -daysIntoPeriod)
  }

  /** From the anchor on, the period holding `now` starts a whole number of two-week periods
      after the anchor, on or before today, and ends on or after today. */
  lemma PayPeriodBounds(now: DateTime)
    requires now >= Monday2024Jan1
    ensures GetPayPeriodStart(now) <= Date(now) <= GetPayPeriodEnd(now) < AddDays(GetPayPeriodStart(now), 14)
    ensures DayNumber(GetPayPeriodStart(now)) - DayNumber(Monday2024Jan1) == 14 * ((DayNumber(now) - DayNumber(Monday2024Jan1)) / 14)
  {
    PeriodStartFacts(now);
  }

  /** The whole days between the anchor and today, and where they put the period start. */
  lemma PeriodStartFacts(now: DateTime)
    ensures Truncate(TotalDays(Date(now) - Monday2024Jan1)) == DayNumber(now) - DayNumber(Monday2024Jan1)
    ensures now >= Monday2024Jan1 ==> TruncMod(DayNumber(now) - DayNumber(Monday2024Jan1), 14) == (DayNumber(now) - DayNumber(Monday2024Jan1)) % 14
  {
    var n := DayNumber(now) - DayNumber(Monday2024Jan1);
    assert Date(now) - Monday2024Jan1 == n * TicksPerDay;
    WholeDaySpan(n);
  }

  /** `GetPayPeriodEnd`: the period's last day, thirteen days after its start. */
  function GetPayPeriodEnd(now: DateTime): (end: DateTime)
    ensures Truncate(TotalDays(end - GetPayPeriodStart(now))) == 13
  {
    WholeDaySpan(13);
    AddDays(GetPayPeriodStart(now), 13)
  }

  /** From the anchor on, every pay period starts on a Monday. */
  lemma PayPeriodStartsOnMonday(now: DateTime)
    requires now >= Monday2024Jan1
    ensures DayOfWeek(GetPayPeriodStart(now)) == 1
  {
    PayPeriodBounds(now);
    var start := GetPayPeriodStart(now);
    var weeks := (DayNumber(now) - DayNumber(Monday2024Jan1)) / 14 * 2;
    AnchorIsMonday();
    WholeWeeksKeepDayOfWeek(Monday2024Jan1, weeks);
    assert AddDays(Monday2024Jan1, weeks * 7) == start;
  }

  lemma AnchorIsMonday()
    ensures DayOfWeek(Monday2024Jan1) == 1 && Monday2024Jan1 % TicksPerDay == 0
  {
  }

  // ---------------------------------------------------------------- gross earned

  /** The salaried share, as written: days elapsed counted inclusively (today is day 1 of the
      period on its first day) but the period length taken as the thirteen days from the
      first to the last day. */
  function SalaryGrossAsWritten(payRate: real, now: DateTime): (r: real)
    ensures payRate >= 0.0 ==> 0.0 <= r <= payRate / 26.0
  {
    var biweeklyPay := payRate / 26.0;
    var periodStart := GetPayPeriodStart(now);
    var today := Date(now);
    var periodEnd := GetPayPeriodEnd(now);
    var totalDaysInPeriod := IntMax(1, Truncate(TotalDays(periodEnd - periodStart)));
    var daysElapsed := IntMin(IntMax(1, Truncate(TotalDays(today - periodStart)) + 1), totalDaysInPeriod);
    DayShare(biweeklyPay, daysElapsed, totalDaysInPeriod)
  }

  /** On the last two days of a period the estimate as written is the same: the full
      two-week pay is reached one day early, so the last day accrues nothing. */
  lemma SalaryLastDayAccruesNothingAsWritten()
    ensures SalaryGrossAsWritten(2600.0, AddDays(Monday2024Jan1, 12)) == 100.0
    ensures SalaryGrossAsWritten(2600.0, AddDays(Monday2024Jan1, 13)) == 100.0
  {
    DayNumberAddDays(Monday2024Jan1, 12);
    LastTwoDaysAsWritten(AddDays(Monday2024Jan1, 12), 12);
    DayNumberAddDays(Monday2024Jan1, 13);
    LastTwoDaysAsWritten(AddDays(Monday2024Jan1, 13), 13);
  }

  lemma LastTwoDaysAsWritten(now: DateTime, d: int)
    requires d == 12 || d == 13
    requires now >= Monday2024Jan1 && DayNumber(now) == DayNumber(Monday2024Jan1) + d
    ensures SalaryGrossAsWritten(2600.0, now) == 100.0
  {
    SalaryGrossAsWrittenShare(2600.0, now);
    assert IntMin(d + 1, 13) == 13;
  }

  /** On day `d` (counting from 0) of a period, the estimate as written is `min(d + 1, 13)`
      thirteenths of the two-week pay: one thirteenth more each day until the full pay on the
      thirteenth day, then no more on the fourteenth. */
  lemma SalaryGrossAsWrittenShare(payRate: real, now: DateTime)
    requires now >= Monday2024Jan1
    ensures var d := (DayNumber(now) - DayNumber(Monday2024Jan1)) % 14;
      SalaryGrossAsWritten(payRate, now) == payRate / 26.0 * (IntMin(d + 1, 13) as real / 13.0)
  {
    SalaryDayCounts(now);
    var d := (DayNumber(now) - DayNumber(Monday2024Jan1)) % 14;
    assert IntMax(1, 13) == 13;
    assert IntMin(IntMax(1, d + 1), 13) == IntMin(d + 1, 13);
  }

  lemma SalaryDays(now: DateTime, daysInto: int)
    requires now >= Monday2024Jan1 && 0 <= daysInto < 14
    requires DayNumber(now) - DayNumber(Monday2024Jan1) == daysInto
    ensures GetPayPeriodStart(now) == Monday2024Jan1
    ensures Truncate(TotalDays(GetPayPeriodEnd(now) - GetPayPeriodStart(now))) == 13
    ensures Truncate(TotalDays(Date(now) - GetPayPeriodStart(now))) == daysInto
  {
    PayPeriodBounds(now);
    AnchorIsMonday();
    WholeDaySpan(13);
    assert Date(now) - Monday2024Jan1 == daysInto * TicksPerDay;
    WholeDaySpan(daysInto);
  }

  /** The share of `pay` that `elapsed` days out of `total` earn. */
  function DayShare(pay: real, elapsed: int, total: int): (r: real)
    requires total >= 1
    ensures pay >= 0.0 && 0 <= elapsed <= total ==> 0.0 <= r <= pay
  {
    var fraction := elapsed as real / total as real;
    assert 0 <= elapsed <= total ==> 0.0 <= fraction <= 1.0;
    pay * fraction
  }

  function IntMax(a: int, b: int): int {
    if a >= b then a else b
  }

  function IntMin(a: int, b: int): int {
    if a <= b then a else b
  }

  /** The salaried share as evidently intended: the days elapsed, counted inclusively, out of
      the fourteen days of the period. */
  function SalaryGross(payRate: real, now: DateTime): (r: real)
    ensures payRate >= 0.0 ==> 0.0 <= r <= payRate / 26.0
  {
    var biweeklyPay := payRate / 26.0;
    var periodStart := GetPayPeriodStart(now);
    var today := Date(now);
    var periodEnd := GetPayPeriodEnd(now);
    var totalDaysInPeriod := IntMax(1, Truncate(TotalDays(periodEnd - periodStart)) + 1);
    var daysElapsed := IntMin(IntMax(1, Truncate(TotalDays(today - periodStart)) + 1), totalDaysInPeriod);
    DayShare(biweeklyPay, daysElapsed, totalDaysInPeriod)
  }

  /** On day `d` (counting from 0) of a period, the corrected salaried estimate is `d + 1`
      fourteenths of the two-week pay: it grows every day and reaches the full pay only on
      the period's last day. */
  lemma SalaryGrossAccruesDaily(payRate: real, now: DateTime)
    requires now >= Monday2024Jan1
    ensures var d := (DayNumber(now) - DayNumber(Monday2024Jan1)) % 14;
      SalaryGross(payRate, now) == payRate / 26.0 * ((d + 1) as real / 14.0)
  {
    SalaryDayCounts(now);
    var d := (DayNumber(now) - DayNumber(Monday2024Jan1)) % 14;
    assert IntMax(1, 13 + 1) == 14;
    assert IntMin(IntMax(1, d + 1), 14) == d + 1;
  }

  /** A period spans 13 whole days from its start to its end, and day `d` of it lies `d` whole
      days after its start. */
  lemma SalaryDayCounts(now: DateTime)
    requires now >= Monday2024Jan1
    ensures Truncate(TotalDays(GetPayPeriodEnd(now) - GetPayPeriodStart(now))) == 13
    ensures Truncate(TotalDays(Date(now) - GetPayPeriodStart(now))) == (DayNumber(now) - DayNumber(Monday2024Jan1)) % 14
  {
    var n := DayNumber(now) - DayNumber(Monday2024Jan1);
    var d := n % 14;
    PayPeriodBounds(now);
    var start := GetPayPeriodStart(now);
    assert GetPayPeriodEnd(now) - start == 13 * TicksPerDay;
    WholeDaySpan(13);
    assert Date(now) - start == d * TicksPerDay;
    WholeDaySpan(d);
  }

  /** What one time entry adds to the hours: its hours when it has no clock-in, or when its
      clock-in parses to a date on or after the period start; nothing when it has no hours or
      its clock-in is null, unparsable or earlier. `None` when reading it throws. */
  function EntryHours(entry: Json, periodStart: DateTime, parseDate: DateParser): (r: Option<real>)
    ensures !entry.JObj? ==> r.None?
    ensures entry.JObj? && Lookup(entry.fields, "hoursWorked").None? ==> r == Some(0.0)
    ensures entry.JObj? && Lookup(entry.fields, "hoursWorked").Some? && Lookup(entry.fields, "clockIn").None? ==>
      r == GetDecimal(Lookup(entry.fields, "hoursWorked").value)
    ensures entry.JObj? && Lookup(entry.fields, "hoursWorked").Some? ==>
      var hours := GetDecimal(Lookup(entry.fields, "hoursWorked").value);
      var clockIn := Lookup(entry.fields, "clockIn");
      && (hours.None? ==> r.None?)
      && (hours.Some? && clockIn == Some(JNull) ==> r == Some(0.0))
      && (hours.Some? && clockIn.Some? && clockIn.value.JStr? && parseDate(clockIn.value.s).None? ==> r == Some(0.0))
      && (hours.Some? && clockIn.Some? && clockIn.value.JStr? && parseDate(clockIn.value.s).Some? ==>
            r == Some(if Date(parseDate(clockIn.value.s).value) >= periodStart then hours.value else 0.0))
      && (hours.Some? && clockIn.Some? && !clockIn.value.JStr? && !clockIn.value.JNull? ==> r.None?)
  {
    match TryGetProperty(entry, "hoursWorked")
    case None => None
    case Some(None) => Some(0.0)
    case Some(Some(hoursEl)) =>
      match GetDecimal(hoursEl)
      case None => None
      case Some(hours) =>
        match TryGetProperty(entry, "clockIn")
        case None => None
        case Some(None) => Some(hours)
        case Some(Some(clockInEl)) =>
          match GetString(clockInEl)
          case None => None
          case Some(None) => Some(0.0)
          case Some(Some(text)) =>
            match parseDate(text)
            case None => Some(0.0)
            case Some(clockIn) => if Date(clockIn) >= periodStart then Some(hours) else Some(0.0)
  }

  /** Every entry that can be read adds no negative hours. */
  predicate ReadableHoursNonNegative(entries: seq<Json>, periodStart: DateTime, parseDate: DateParser) {
    forall e :: e in entries && EntryHours(e, periodStart, parseDate).Some? ==>
      EntryHours(e, periodStart, parseDate).value >= 0.0
  }

  /** The hours of the entries, in order, up to the first entry whose reading throws: the
      exception ends the loop, and the hours added before it are kept. */
  function HoursUntilError(entries: seq<Json>, periodStart: DateTime, parseDate: DateParser): (r: real)
    ensures ReadableHoursNonNegative(entries, periodStart, parseDate) ==> r >= 0.0
    decreases |entries|
  {
    if |entries| == 0 then 0.0
    else match EntryHours(entries[0], periodStart, parseDate)
      case None => 0.0
      case Some(h) => h + HoursUntilError(entries[1..], periodStart, parseDate)
  }

  /** An entry that throws hides every later entry but not the earlier ones. */
  lemma {:induction false} HoursKeptBeforeError(a: seq<Json>, bad: Json, b: seq<Json>,
                                                periodStart: DateTime, parseDate: DateParser)
    requires EntryHours(bad, periodStart, parseDate).None?
    ensures HoursUntilError(a + [bad] + b, periodStart, parseDate) == HoursUntilError(a, periodStart, parseDate)
    decreases |a|
  {
    if |a| == 0 {
      assert (a + [bad] + b)[0] == bad;
    } else {
      assert (a + [bad] + b)[0] == a[0];
      assert (a + [bad] + b)[1..] == a[1..] + [bad] + b;
      HoursKeptBeforeError(a[1..], bad, b, periodStart, parseDate);
    }
  }

  /** Only the current pay period counts: an entry clocked in before the period start adds
      nothing to the hours, wherever it sits among the others. */
  lemma {:induction false} EntryBeforePeriodIgnored(a: seq<Json>, e: Json, b: seq<Json>,
                                                   periodStart: DateTime, parseDate: DateParser)
    requires e.JObj? && Lookup(e.fields, "hoursWorked").Some?
    requires GetDecimal(Lookup(e.fields, "hoursWorked").value).Some?
    requires Lookup(e.fields, "clockIn").Some? && Lookup(e.fields, "clockIn").value.JStr?
    requires parseDate(Lookup(e.fields, "clockIn").value.s).Some?
    requires Date(parseDate(Lookup(e.fields, "clockIn").value.s).value) < periodStart
    ensures HoursUntilError(a + [e] + b, periodStart, parseDate) == HoursUntilError(a + b, periodStart, parseDate)
    decreases |a|
  {
    if |a| == 0 {
      assert (a + [e] + b)[0] == e;
      assert (a + [e] + b)[1..] == a + b;
    } else {
      assert (a + [e] + b)[0] == a[0] && (a + b)[0] == a[0];
      assert (a + [e] + b)[1..] == a[1..] + [e] + b;
      assert (a + b)[1..] == a[1..] + b;
      EntryBeforePeriodIgnored(a[1..], e, b, periodStart, parseDate);
    }
  }

  /** The hourly loop: entries are read in order until one throws. */
  method SumHours(entries: seq<Json>, periodStart: DateTime, parseDate: DateParser) returns (totalHours: real)
    ensures totalHours == HoursUntilError(entries, periodStart, parseDate)
  {
    totalHours := 0.0;
    var i := 0;
    while i < |entries|
      invariant 0 <= i <= |entries|
      invariant totalHours + HoursUntilError(entries[i..], periodStart, parseDate) == HoursUntilError(entries, periodStart, parseDate)
    {
      assert entries[i..][0] == entries[i];
      assert entries[i..][1..] == entries[i + 1..];
      var hours := EntryHours(entries[i], periodStart, parseDate);
      if hours.None? {
        return;
      }
      totalHours := totalHours + hours.value;
      i := i + 1;
    }
  }

  /** What `hours` earn at `rate` per hour. */
  function HourlyPay(hours: real, rate: real): (r: real)
    ensures hours >= 0.0 && rate >= 0.0 ==> r >= 0.0
  {
    hours * rate
  }

  /** The gross earned so far in the period, with the salaried share as the calculator is
      written (`SalaryGrossAsWritten`). */
  function GrossEarned(payType: int, payRate: real, timeEntriesJson: string,
                       parse: Parser, parseDate: DateParser, now: DateTime): (r: real)
    ensures payType == 2 && payRate >= 0.0 ==> 0.0 <= r <= payRate / 26.0
    ensures (payType != 2 && payRate >= 0.0
             && ReadableHoursNonNegative(ArrayItems(parse, timeEntriesJson), GetPayPeriodStart(now), parseDate)) ==> r >= 0.0
  {
    if payType == 2 then SalaryGrossAsWritten(payRate, now)
    else HourlyPay(HoursUntilError(ArrayItems(parse, timeEntriesJson), GetPayPeriodStart(now), parseDate), payRate)
  }

  /** `CalculateGrossEarned`: the salaried share of a two-week salary for pay type 2; for any
      other pay type the hours of the period's time entries times the rate. */
  method CalculateGrossEarned(payType: int, payRate: real, timeEntriesJson: string,
                              parse: Parser, parseDate: DateParser, now: DateTime) returns (gross: real)
    ensures payType == 2 ==> gross == SalaryGrossAsWritten(payRate, now)
    ensures payType != 2 ==>
      gross == HourlyPay(HoursUntilError(ArrayItems(parse, timeEntriesJson), GetPayPeriodStart(now), parseDate), payRate)
    ensures gross == GrossEarned(payType, payRate, timeEntriesJson, parse, parseDate, now)
  {
    if payType == 2 {
      gross := SalaryGrossAsWritten(payRate, now);
    } else {
      var entries := ArrayItems(parse, timeEntriesJson);
      var periodStart := GetPayPeriodStart(now);
      var totalHours := SumHours(entries, periodStart, parseDate);
      gross := HourlyPay(totalHours, payRate);
    }
  }

  // ---------------------------------------------------------------- deductions

  /** An optional member read with `reader`: `None` when reading throws, `Some(None)` when the
      member is absent. */
  function ReadOptional<T>(e: Json, name: string, reader: Json -> Option<T>): (r: Option<Option<T>>)
    ensures !e.JObj? ==> r.None?
    ensures e.JObj? && Lookup(e.fields, name).None? ==> r == Some(None)
    ensures e.JObj? && Lookup(e.fields, name).Some? ==>
      (r.None? <==> reader(Lookup(e.fields, name).value).None?)
      && (r.Some? ==> r.value == reader(Lookup(e.fields, name).value))
  {
    match TryGetProperty(e, name)
    case None => None
    case Some(None) => Some(None)
    case Some(Some(el)) =>
      match reader(el)
      case None => None
      case Some(v) => Some(Some(v))
  }

  /** What one deduction withholds: nothing when `isActive` is false (it defaults to true);
      otherwise `amount` percent of the gross when `isPercentage` is true, else `amount` (0
      when absent). `None` when reading it throws. */
  function DeductionValue(d: Json, grossEarned: real): (r: Option<real>)
    ensures !d.JObj? ==> r.None?
    ensures d.JObj? && Lookup(d.fields, "isActive") == Some(JBool(false)) ==> r == Some(0.0)
  {
    match ReadOptional(d, "isActive", GetBoolean)
    case None => None
    case Some(isActive) =>
      if isActive == Some(false) then Some(0.0)
      else
        match ReadOptional(d, "amount", GetDecimal)
        case None => None
        case Some(amountEl) =>
          var amount := amountEl.GetOr(0.0);
          match ReadOptional(d, "isPercentage", GetBoolean)
          case None => None
          case Some(isPercentage) =>
            if isPercentage == Some(true) then Some(PercentOf(grossEarned, amount)) else Some(amount)
  }

  /** `amount` percent of the gross, unrounded. */
  function PercentOf(grossEarned: real, amount: real): (r: real)
    ensures grossEarned >= 0.0 && amount >= 0.0 ==> r >= 0.0
  {
    MulMonotoneAt(amount / 100.0, 0.0, grossEarned);
    grossEarned * (amount / 100.0)
  }

  lemma MulMonotoneAt(k: real, a: real, b: real)
    ensures k >= 0.0 && a <= b ==> a * k <= b * k
  {
    if k >= 0.0 && a <= b {
      assert (b - a) * k >= 0.0;
    }
  }

  /** The deductions in order up to the first one whose reading throws. */
  function DeductionsUntilError(ds: seq<Json>, grossEarned: real): (r: real)
    ensures (forall d :: d in ds && DeductionValue(d, grossEarned).Some? ==>
               DeductionValue(d, grossEarned).value >= 0.0) ==> r >= 0.0
    decreases |ds|
  {
    if |ds| == 0 then 0.0
    else match DeductionValue(ds[0], grossEarned)
      case None => 0.0
      case Some(v) => v + DeductionsUntilError(ds[1..], grossEarned)
  }

  /** A deduction marked inactive can be dropped from the list without changing the total. */
  lemma {:induction false} InactiveDeductionIgnored(a: seq<Json>, d: Json, b: seq<Json>, grossEarned: real)
    requires d.JObj? && Lookup(d.fields, "isActive") == Some(JBool(false))
    ensures DeductionsUntilError(a + [d] + b, grossEarned) == DeductionsUntilError(a + b, grossEarned)
    decreases |a|
  {
    if |a| == 0 {
      assert (a + [d] + b)[0] == d;
      assert (a + [d] + b)[1..] == a + b;
    } else {
      assert (a + [d] + b)[0] == a[0] && (a + b)[0] == a[0];
      assert (a + [d] + b)[1..] == a[1..] + [d] + b;
      assert (a + b)[1..] == a[1..] + b;
      InactiveDeductionIgnored(a[1..], d, b, grossEarned);
    }
  }

  /** A fixed deduction is its amount, taken as is; a percentage one scales with the gross.
      The amount is any number element (integral or decimal, whatever its text), or 0 when
      the deduction has none. */
  lemma DeductionValueCases(fields: seq<(string, Json)>, amount: real, grossEarned: real)
    requires Lookup(fields, "isActive").None? || Lookup(fields, "isActive") == Some(JBool(true))
    requires (Lookup(fields, "amount").Some? && GetDecimal(Lookup(fields, "amount").value) == Some(amount))
             || (Lookup(fields, "amount").None? && amount == 0.0)
    ensures Lookup(fields, "isPercentage") == Some(JBool(true)) ==> DeductionValue(JObj(fields), grossEarned) == Some(PercentOf(grossEarned, amount))
    ensures Lookup(fields, "isPercentage").None? || Lookup(fields, "isPercentage") == Some(JBool(false)) ==>
      DeductionValue(JObj(fields), grossEarned) == Some(amount)
  {
    var d := JObj(fields);
    var active := ReadOptional(d, "isActive", GetBoolean);
    assert active.Some? && active.value != Some(false);
    var amountEl := ReadOptional(d, "amount", GetDecimal);
    assert amountEl.Some? && amountEl.value.GetOr(0.0) == amount;
  }

  /** `CalculateDeductions`: the loop over the deductions array. */
  method CalculateDeductions(deductionsJson: string, grossEarned: real, parse: Parser) returns (total: real)
    ensures total == DeductionsUntilError(ArrayItems(parse, deductionsJson), grossEarned)
  {
    var ds := ArrayItems(parse, deductionsJson);
    total := 0.0;
    var i := 0;
    while i < |ds|
      invariant 0 <= i <= |ds|
      invariant total + DeductionsUntilError(ds[i..], grossEarned) == DeductionsUntilError(ds, grossEarned)
    {
      assert ds[i..][0] == ds[i];
      assert ds[i..][1..] == ds[i + 1..];
      var value := DeductionValue(ds[i], grossEarned);
      if value.None? {
        return;
      }
      total := total + value.value;
      i := i + 1;
    }
  }

  // ---------------------------------------------------------------- taxes

  /** The rates and additional withholdings the tax estimate uses. */
  datatype TaxSettings = TaxSettings(federalRate: real, stateRate: real, additionalFederal: real, additionalState: real)

  const DefaultTaxSettings: TaxSettings := TaxSettings(DefaultFederalTaxRate, DefaultStateTaxRate, 0.0, 0.0)

  /** The states without an income tax. */
  const NoIncomeTaxStates: set<string> := {"FL", "TX", "WA", "NV", "WY", "SD", "AK", "NH", "TN"}

  /** Each allowance lowers the federal rate by two points, down to ten percent. */
  function FederalRateFor(allowances: int): (r: real)
    ensures r >= 0.10
    ensures allowances >= 0 ==> r <= DefaultFederalTaxRate
  {
    Max(0.10, DefaultFederalTaxRate - allowances as real * 0.02)
  }

  /** Each allowance lowers the state rate by one point, down to zero. */
  function StateRateFor(allowances: int): (r: real)
    ensures r >= 0.0
    ensures allowances >= 0 ==> r <= DefaultStateTaxRate
  {
    Max(0.0, DefaultStateTaxRate - allowances as real * 0.01)
  }

  /** The tax information's settings, read step by step: the two additional withholdings,
      then the federal and state allowances, then the state. A read that throws ends the
      reading, keeping what was already set. */
  function ReadTaxSettings(root: Json): (s: TaxSettings)
    ensures s.federalRate == DefaultFederalTaxRate || s.federalRate >= 0.10
    ensures s.stateRate >= 0.0
  {
    var s := DefaultTaxSettings;
    match ReadOptional(root, "additionalFederalWithholding", GetDecimal)
    case None => s
    case Some(addFed) =>
      var s := if addFed.Some? then s.(additionalFederal := addFed.value) else s;
      match ReadOptional(root, "additionalStateWithholding", GetDecimal)
      case None => s
      case Some(addState) =>
        var s := if addState.Some? then s.(additionalState := addState.value) else s;
        match ReadOptional(root, "federalAllowances", GetInt32)
        case None => s
        case Some(fedAllowances) =>
          var s := if fedAllowances.Some? then s.(federalRate := FederalRateFor(fedAllowances.value)) else s;
          match ReadOptional(root, "stateAllowances", GetInt32)
          case None => s
          case Some(stateAllowances) =>
            var s := if stateAllowances.Some? then s.(stateRate := StateRateFor(stateAllowances.value)) else s;
            match ReadOptional(root, "state", GetString)
            case None => s
            case Some(state) =>
              if state.Some? && state.value.Some? && ToUpper(state.value.value) in NoIncomeTaxStates
              then s.(stateRate := 0.0) else s
  }

  /** A state without income tax, in any case, pays no state rate when the tax information
      reads without error. */
  lemma NoIncomeTaxStateRate(root: Json, state: string)
    requires ReadOptional(root, "additionalFederalWithholding", GetDecimal).Some?
    requires ReadOptional(root, "additionalStateWithholding", GetDecimal).Some?
    requires ReadOptional(root, "federalAllowances", GetInt32).Some?
    requires ReadOptional(root, "stateAllowances", GetInt32).Some?
    requires ReadOptional(root, "state", GetString) == Some(Some(Some(state))) && ToUpper(state) in NoIncomeTaxStates
    ensures ReadTaxSettings(root).stateRate == 0.0
  {
  }

  /** `CalculateEstimatedTaxes`: federal and state rates on the gross plus their additional
      withholdings, and FICA at 7.65%. */
  function EstimatedTaxes(grossEarned: real, s: TaxSettings): (t: real)
    ensures grossEarned >= 0.0 && s.federalRate >= 0.10 && s.stateRate >= 0.0 ==>
      t >= grossEarned * (0.10 + FicaRate) + s.additionalFederal + s.additionalState
  {
    var federalTax := grossEarned * s.federalRate + s.additionalFederal;
    var stateTax := grossEarned * s.stateRate + s.additionalState;
    var ficaTax := grossEarned * FicaRate;
    federalTax + stateTax + ficaTax
  }

  /** The settings from the tax-information reply; the defaults when it does not parse. */
  function TaxSettingsOf(parse: Parser, taxInfoJson: string): (s: TaxSettings)
    ensures parse(taxInfoJson).None? ==> s == DefaultTaxSettings
  {
    match parse(taxInfoJson)
    case None => DefaultTaxSettings
    case Some(root) => ReadTaxSettings(root)
  }

  // ---------------------------------------------------------------- the estimate

  /** Net earned wages: gross less taxes and deductions, never negative. */
  function NetEarned(grossEarned: real, estimatedTaxes: real, totalDeductions: real): (n: real)
    ensures n >= 0.0 && n >= grossEarned - estimatedTaxes - totalDeductions
  {
    Max(0.0, grossEarned - estimatedTaxes - totalDeductions)
  }

  /** What may be withdrawn today: seventy percent of the net, at most the daily maximum,
      rounded to cents and never negative. */
  function AvailableWithdrawal(netEarned: real): (w: real)
    ensures 0.0 <= w <= MaxDailyWithdrawal
    ensures HasTwoPlaces(w)
    ensures netEarned * MaxWithdrawalPercent >= MaxDailyWithdrawal ==> w == MaxDailyWithdrawal
    ensures netEarned >= 0.0 ==> Abs(w - Min(MaxDailyWithdrawal, netEarned * MaxWithdrawalPercent)) <= 0.005
  {
    var seventyPercentOfNet := netEarned * MaxWithdrawalPercent;
    var available := Min(MaxDailyWithdrawal, seventyPercentOfNet);
    Round2Monotone(available, MaxDailyWithdrawal);
    Round2Exact(MaxDailyWithdrawal);
    Round2Exact(0.0);
    assert HasTwoPlaces(0.0);
    ShareNonNegative(netEarned);
    Max(0.0, Round2(available))
  }

  lemma ShareNonNegative(netEarned: real)
    ensures netEarned >= 0.0 ==> Round2(Min(MaxDailyWithdrawal, netEarned * MaxWithdrawalPercent)) >= 0.0
  {
    if netEarned >= 0.0 {
      Round2NonNegative(Min(MaxDailyWithdrawal, netEarned * MaxWithdrawalPercent));
    }
  }

  /** The note on the withdrawal: limited by the seventy-percent rule, or capped at the daily
      maximum. */
  datatype WithdrawalNote = LimitedToPercentOfNet(available: real) | CappedAtDailyMaximum(maximum: real)

  /** The estimate the chatbot returns, before it is serialised. */
  datatype EwaEstimate = EwaEstimate(
    employeeId: string, employeeName: string, payPeriodStart: DateTime, payPeriodEnd: DateTime,
    grossEarnedWages: real, estimatedTaxes: real, estimatedDeductions: real, netEarnedWages: real,
    availableBalance: real, maxDailyWithdrawal: real, withdrawalLimitPercent: string,
    availableToWithdrawToday: real, maxWithdrawalsPerDay: int, note: WithdrawalNote)

  /** The reply: the employee reply itself when it reports an error, the failure message when
      anything throws (its text is not modelled), or the estimate. */
  datatype EwaReply = PassThrough(json: string) | Failed | Estimate(estimate: EwaEstimate)

  /** The employee fields the estimate reads, or `None` when reading them throws. */
  datatype EmployeeFields = EmployeeFields(payType: int, payRate: real, firstName: string, lastName: string)

  function ReadEmployee(employee: Json): (r: Option<EmployeeFields>)
    ensures r.Some? ==> employee.JObj?
  {
    match Member(employee, "payType")
    case None => None
    case Some(payTypeEl) =>
      match GetInt32(payTypeEl)
      case None => None
      case Some(payType) =>
        match Member(employee, "payRate")
        case None => None
        case Some(payRateEl) =>
          match GetDecimal(payRateEl)
          case None => None
          case Some(payRate) =>
            match Member(employee, "firstName")
            case None => None
            case Some(firstNameEl) =>
              match GetString(firstNameEl)
              case None => None
              case Some(firstName) =>
                match Member(employee, "lastName")
                case None => None
                case Some(lastNameEl) =>
                  match GetString(lastNameEl)
                  case None => None
                  case Some(lastName) =>
                    Some(EmployeeFields(payType, payRate, firstName.GetOr("Employee"), lastName.GetOr("")))
  }

  /** Whether the employee reply carries an `error` member; `None` when it is not an object. */
  function HasError(employee: Json): Option<bool> {
    match TryGetProperty(employee, "error")
    case None => None
    case Some(e) => Some(e.Some?)
  }

  /** The estimate built from the computed amounts. */
  function EstimateOf(employeeId: string, fields: EmployeeFields, now: DateTime,
                      grossEarned: real, estimatedTaxes: real, totalDeductions: real): (e: EwaEstimate)
    ensures e.availableToWithdrawToday <= e.maxDailyWithdrawal == MaxDailyWithdrawal
    ensures e.netEarnedWages >= 0.0 && e.availableBalance == e.netEarnedWages
    ensures e.note.CappedAtDailyMaximum? <==> e.availableToWithdrawToday == MaxDailyWithdrawal
  {
    var netEarned := NetEarned(grossEarned, estimatedTaxes, totalDeductions);
    var availableWithdrawal := AvailableWithdrawal(netEarned);
    Round2NonNegative(netEarned);
    EwaEstimate(employeeId, fields.firstName + " " + fields.lastName,
      GetPayPeriodStart(now), GetPayPeriodEnd(now),
      Round2(grossEarned), Round2(estimatedTaxes), Round2(totalDeductions), Round2(netEarned),
      Round2(netEarned), MaxDailyWithdrawal, "70.00%", availableWithdrawal, MaxWithdrawalsPerDay,
      if availableWithdrawal < MaxDailyWithdrawal then LimitedToPercentOfNet(availableWithdrawal)
      else CappedAtDailyMaximum(MaxDailyWithdrawal))
  }

  /** `GetEwaBalanceAsync`. The employee reply is checked first: one that does not parse or is
      not an object fails, one with an `error` member is passed through unchanged, and one
      missing a field fails. The time-entry, deduction and tax replies never make it fail:
      their readers catch and keep what they had. */
  method GetEwaBalance(employeeId: string, employeeJson: string, timeEntriesJson: string,
                       deductionsJson: string, taxInfoJson: string,
                       parse: Parser, parseDate: DateParser, now: DateTime) returns (r: EwaReply)
    ensures parse(employeeJson).None? ==> r == Failed
    ensures parse(employeeJson).Some? && HasError(parse(employeeJson).value) == None ==> r == Failed
    ensures parse(employeeJson).Some? && HasError(parse(employeeJson).value) == Some(true) ==> r == PassThrough(employeeJson)
    ensures parse(employeeJson).Some? && HasError(parse(employeeJson).value) == Some(false) ==>
      match ReadEmployee(parse(employeeJson).value)
      case None => r == Failed
      case Some(fields) =>
        var gross := GrossEarned(fields.payType, fields.payRate, timeEntriesJson, parse, parseDate, now);
        r == Estimate(EstimateOf(employeeId, fields, now, gross,
          EstimatedTaxes(gross, TaxSettingsOf(parse, taxInfoJson)),
          DeductionsUntilError(ArrayItems(parse, deductionsJson), gross)))
  {
    var employeeDoc := parse(employeeJson);
    if employeeDoc.None? {
      return Failed;
    }
    var employee := employeeDoc.value;
    var hasError := HasError(employee);
    if hasError.None? {
      return Failed;
    }
    if hasError.value {
      return PassThrough(employeeJson);
    }
    var fields := ReadEmployee(employee);
    if fields.None? {
      return Failed;
    }
    var grossEarned := CalculateGrossEarned(fields.value.payType, fields.value.payRate, timeEntriesJson, parse, parseDate, now);
    var totalDeductions := CalculateDeductions(deductionsJson, grossEarned, parse);
    var estimatedTaxes := EstimatedTaxes(grossEarned, TaxSettingsOf(parse, taxInfoJson));
    return Estimate(EstimateOf(employeeId, fields.value, now, grossEarned, estimatedTaxes, totalDeductions));
  }
}

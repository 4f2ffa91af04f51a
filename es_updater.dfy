/** The search-index updater: joins employee info and net pay per employee in memory, keeps a
    window of each employee's latest pay periods, and produces one search document (or a
    tombstone) per employee to the "employee-search" topic. */
module SearchUpdater {
  import opened Wrappers
  import opened Text
  import opened JsonTree
  import opened Jackson

  /** How many pay periods a search document carries. */
  const MaxPayPeriods: nat := 4

  datatype EmployeeInfo = EmployeeInfo(
    employeeId: string, firstName: string, lastName: string, email: string,
    payType: string, payRate: real, payPeriodHours: real, isActive: string, hireDate: string)

  /** One pay period's figures as the net-pay topic carries them. */
  datatype PayPeriodRecord = PayPeriodRecord(
    payPeriodNumber: int, grossPay: real, federalTax: real, stateTax: real,
    additionalFederalWithholding: real, additionalStateWithholding: real, totalTax: real,
    totalFixedDeductions: real, totalPercentDeductions: real, totalDeductions: real, netPay: real,
    payRate: real, payType: string, totalHoursWorked: real, payPeriodStart: string, payPeriodEnd: string)

  datatype EmployeeSearchDocument = EmployeeSearchDocument(
    employeeId: string, firstName: string, lastName: string, email: string,
    payType: string, payRate: real, payPeriodHours: real, isActive: bool, hireDate: string,
    payPeriods: seq<PayPeriodRecord>)

  /** A record sent to the search topic: a document, or a tombstone (`None`). */
  datatype Produced = Produced(employeeId: string, document: Option<EmployeeSearchDocument>)

  // ---------------------------------------------------------------- keys

  /** `replaceAll("^\"|\"$", "")`: one leading and one trailing double quote removed. */
  function StripQuotes(k: string): (r: string)
    ensures |r| <= |k|
    ensures (|k| == 0 || k[0] != '"') && (|k| == 0 || k[|k| - 1] != '"') ==> r == k
  {
    var a := if |k| > 0 && k[0] == '"' then k[1..] else k;
    if |a| > 0 && a[|a| - 1] == '"' then a[..|a| - 1] else a
  }

  /** Quoting and stripping are inverse: a quoted text comes back as it was. */
  lemma StripQuotesOfQuoted(s: string)
    ensures StripQuotes("\"" + s + "\"") == s
  {
    var q := "\"" + s + "\"";
    assert q[1..] == s + "\"";
  }

  /** `extractEmployeeIdFromKey`: a JSON string key gives its text; any other JSON gives its
      `EMPLOYEE_ID` (or nothing); a key that is not JSON is taken raw, quotes stripped. */
  function ExtractEmployeeIdFromKey(parse: Parser, rawKey: Option<string>): (r: Option<string>)
    ensures rawKey.None? ==> r.None?
    ensures rawKey.Some? && ReadTree(parse, rawKey.value).None? ==> r == Some(StripQuotes(rawKey.value))
    ensures rawKey.Some? && ReadTree(parse, rawKey.value).Some? && IsTextual(ReadTree(parse, rawKey.value).value) ==>
      r == Some(ReadTree(parse, rawKey.value).value.json.s)
    ensures rawKey.Some? && ReadTree(parse, rawKey.value).Some? && !IsTextual(ReadTree(parse, rawKey.value).value) ==>
      r == AsTextOr(Path(ReadTree(parse, rawKey.value).value, "EMPLOYEE_ID"), None)
  {
    match rawKey
    case None => None
    case Some(k) =>
      match ReadTree(parse, k)
      case None => Some(StripQuotes(k))
      case Some(key) =>
        if IsTextual(key) then Some(AsText(key))
        else AsTextOr(Path(key, "EMPLOYEE_ID"), None)
  }

  /** The key written for a single-column table: a JSON string holding the id. */
  lemma ExtractFromStringKey(parse: Parser, rawKey: string, id: string)
    requires JavaTrim(rawKey) != "" && parse(rawKey) == Some(JStr(id))
    ensures ExtractEmployeeIdFromKey(parse, Some(rawKey)) == Some(id)
  {
  }

  /** How a net-pay key reads: it throws, it is ignored (no key, no id, or a negative
      period), or it names an employee's period. */
  datatype KeyRead = Unreadable | Ignored | PeriodKey(employeeId: string, period: int)

  function NetPayKey(parse: Parser, key: Option<string>): (r: KeyRead)
    ensures r.PeriodKey? ==> r.period >= 0
    ensures key.None? ==> r.Ignored?
    ensures key.Some? ==> (r.Unreadable? <==> ReadTree(parse, key.value).None?)
  {
    match key
    case None => Ignored
    case Some(k) =>
      match ReadTree(parse, k)
      case None => Unreadable
      case Some(keyNode) =>
        var id := AsTextOr(Path(keyNode, "EMPLOYEE_ID"), None);
        var period := AsLongOr(Path(keyNode, "PAY_PERIOD_NUMBER"), -1);
        if id.None? || period < 0 then Ignored else PeriodKey(id.value, period)
  }

  // ---------------------------------------------------------------- records

  /** Column `name` of `value` read as text (`asText(default)`) gives `s`. */
  predicate TextColumn(value: Node, name: string, default: string, s: string) {
    AsTextOr(Path(value, name), Some(default)) == Some(s)
  }

  /** Column `name` of `value` read as a number (`asDouble(0)`) gives `x`. */
  predicate NumberColumn(value: Node, name: string, x: real) {
    x == AsDoubleOr(Path(value, name), 0.0)
  }

  /** The info read from an employee-info value, each absent field at its default. */
  function EmployeeInfoOf(employeeId: string, value: Node): (info: EmployeeInfo)
    ensures info.employeeId == employeeId
    ensures TextColumn(value, "FIRST_NAME", "", info.firstName) && TextColumn(value, "LAST_NAME", "", info.lastName)
    ensures TextColumn(value, "EMAIL", "", info.email) && TextColumn(value, "PAY_TYPE", "", info.payType)
    ensures NumberColumn(value, "PAY_RATE", info.payRate) && NumberColumn(value, "PAY_PERIOD_HOURS", info.payPeriodHours)
    ensures TextColumn(value, "IS_ACTIVE", "true", info.isActive) && TextColumn(value, "HIRE_DATE", "", info.hireDate)
    ensures Path(value, "IS_ACTIVE").Missing? ==> info.isActive == "true"
  {
    EmployeeInfo(employeeId,
      AsTextOrElse(Path(value, "FIRST_NAME"), ""),
      AsTextOrElse(Path(value, "LAST_NAME"), ""),
      AsTextOrElse(Path(value, "EMAIL"), ""),
      AsTextOrElse(Path(value, "PAY_TYPE"), ""),
      AsDoubleOr(Path(value, "PAY_RATE"), 0.0),
      AsDoubleOr(Path(value, "PAY_PERIOD_HOURS"), 0.0),
      AsTextOrElse(Path(value, "IS_ACTIVE"), "true"),
      AsTextOrElse(Path(value, "HIRE_DATE"), ""))
  }

  /** The entry an employee-info record puts, or `None` when it puts nothing: the id is the
      value's `EMPLOYEE_ID`, else the key's. */
  function EmployeeInfoUpdate(parse: Parser, key: Option<string>, value: Option<string>): (r: Option<EmployeeInfo>)
    ensures key.None? || value.None? ==> r.None?
    ensures r.Some? ==> ReadTree(parse, value.value).Some?
  {
    if key.None? || value.None? then None
    else match ReadTree(parse, value.value)
      case None => None
      case Some(v) => InfoFromValue(parse, key, v)
  }

  /** The entry filed for a read value `v`: under its `EMPLOYEE_ID`, else under the key's id. */
  function InfoFromValue(parse: Parser, key: Option<string>, v: Node): (r: Option<EmployeeInfo>)
    ensures r.Some? ==> r.value == EmployeeInfoOf(r.value.employeeId, v)
  {
    var id := match AsTextOr(Path(v, "EMPLOYEE_ID"), None)
              case Some(i) => Some(i)
              case None => ExtractEmployeeIdFromKey(parse, key);
    match id
    case None => None
    case Some(i) => Some(EmployeeInfoOf(i, v))
  }

  /** The info is filed under the value's `EMPLOYEE_ID` when it has one, else under the key's
      id, and nothing is filed when neither names an employee. */
  lemma EmployeeInfoUpdateId(parse: Parser, key: Option<string>, value: Option<string>)
    requires key.Some? && value.Some? && ReadTree(parse, value.value).Some?
    ensures var valueId := AsTextOr(Path(ReadTree(parse, value.value).value, "EMPLOYEE_ID"), None);
      var u := EmployeeInfoUpdate(parse, key, value);
      (valueId.Some? ==> u.Some? && u.value.employeeId == valueId.value)
      && (valueId.None? ==> (u.None? <==> ExtractEmployeeIdFromKey(parse, key).None?))
      && (valueId.None? && u.Some? ==> Some(u.value.employeeId) == ExtractEmployeeIdFromKey(parse, key))
  {
  }

  /** The record a net-pay value gives for `period`: the period from the key, every figure
      and text from its column, absent columns at 0 or "". */
  function PayPeriodOf(period: int, value: Node): (pp: PayPeriodRecord)
    ensures pp.payPeriodNumber == period
    ensures NumberColumn(value, "GROSS_PAY", pp.grossPay) && NumberColumn(value, "NET_PAY", pp.netPay)
    ensures NumberColumn(value, "FEDERAL_TAX", pp.federalTax) && NumberColumn(value, "STATE_TAX", pp.stateTax)
    ensures NumberColumn(value, "ADDITIONAL_FEDERAL_WITHHOLDING", pp.additionalFederalWithholding)
    ensures NumberColumn(value, "ADDITIONAL_STATE_WITHHOLDING", pp.additionalStateWithholding)
    ensures NumberColumn(value, "TOTAL_TAX", pp.totalTax) && NumberColumn(value, "TOTAL_DEDUCTIONS", pp.totalDeductions)
    ensures NumberColumn(value, "TOTAL_FIXED_DEDUCTIONS", pp.totalFixedDeductions)
    ensures NumberColumn(value, "TOTAL_PERCENT_DEDUCTIONS", pp.totalPercentDeductions)
    ensures NumberColumn(value, "PAY_RATE", pp.payRate) && NumberColumn(value, "TOTAL_HOURS_WORKED", pp.totalHoursWorked)
    ensures TextColumn(value, "PAY_TYPE", "", pp.payType)
    ensures TextColumn(value, "PAY_PERIOD_START", "", pp.payPeriodStart) && TextColumn(value, "PAY_PERIOD_END", "", pp.payPeriodEnd)
  {
    PayPeriodRecord(period,
      AsDoubleOr(Path(value, "GROSS_PAY"), 0.0),
      AsDoubleOr(Path(value, "FEDERAL_TAX"), 0.0),
      AsDoubleOr(Path(value, "STATE_TAX"), 0.0),
      AsDoubleOr(Path(value, "ADDITIONAL_FEDERAL_WITHHOLDING"), 0.0),
      AsDoubleOr(Path(value, "ADDITIONAL_STATE_WITHHOLDING"), 0.0),
      AsDoubleOr(Path(value, "TOTAL_TAX"), 0.0),
      AsDoubleOr(Path(value, "TOTAL_FIXED_DEDUCTIONS"), 0.0),
      AsDoubleOr(Path(value, "TOTAL_PERCENT_DEDUCTIONS"), 0.0),
      AsDoubleOr(Path(value, "TOTAL_DEDUCTIONS"), 0.0),
      AsDoubleOr(Path(value, "NET_PAY"), 0.0),
      AsDoubleOr(Path(value, "PAY_RATE"), 0.0),
      AsTextOrElse(Path(value, "PAY_TYPE"), ""),
      AsDoubleOr(Path(value, "TOTAL_HOURS_WORKED"), 0.0),
      AsTextOrElse(Path(value, "PAY_PERIOD_START"), ""),
      AsTextOrElse(Path(value, "PAY_PERIOD_END"), ""))
  }

  /** A value with none of the columns (an empty object, or JSON null) gives every default:
      empty texts, zero figures, and an active employee. */
  lemma EmptyValueDefaults(id: string, period: int, value: Node)
    requires value.Present? && (value.json.JNull? || value.json == JObj([]))
    ensures EmployeeInfoOf(id, value) == EmployeeInfo(id, "", "", "", "", 0.0, 0.0, "true", "")
    ensures PayPeriodOf(period, value)
         == PayPeriodRecord(period, 0.0, 0.0, 0.0, 0.0, 0.0, 0.0, 0.0, 0.0, 0.0, 0.0, 0.0, "", 0.0, "", "")
  {
  }

  // ---------------------------------------------------------------- the window

  lemma {:induction false} MinExists(s: set<int>)
    requires s != {}
    ensures exists m :: m in s && forall k :: k in s ==> m <= k
  {
    assert exists x :: x in s by {
      if forall x :: x !in s {
        assert false;
      }
    }
    var x :| x in s;
    var rest := s - {x};
    if rest == {} {
      assert forall k :: k in s ==> x <= k by {
        forall k | k in s ensures x <= k {
          assert k !in rest;
        }
      }
    } else {
      MinExists(rest);
      var m :| m in rest && forall k :: k in rest ==> m <= k;
      var least := if x < m then x else m;
      assert forall k :: k in s ==> least <= k by {
        forall k | k in s ensures least <= k {
          if k != x {
            assert k in rest;
          }
        }
      }
    }
  }

  /** The smallest element (`TreeMap.firstKey`). */
  function MinOf(s: set<int>): (m: int)
    requires s != {}
    ensures m in s && forall k :: k in s ==> m <= k
  {
    MinExists(s);
    var m :| m in s && forall k :: k in s ==> m <= k;
    m
  }

  /** A set's elements in ascending order (a `TreeMap`'s key order). */
  function AscendingKeys(s: set<int>): (r: seq<int>)
    ensures |r| == |s|
    ensures forall k :: k in s <==> k in r
    ensures forall i, j :: 0 <= i < j < |r| ==> r[i] < r[j]
    decreases |s|
  {
    if s == {} then []
    else
      var m := MinOf(s);
      var rest := AscendingKeys(s - {m});
      PrependMin(s, m, rest);
      [m] + rest
  }

  /** The least element of a set, put before the rest in ascending order, lists the whole set
      in ascending order. */
  lemma PrependMin(s: set<int>, m: int, rest: seq<int>)
    requires m in s && forall k :: k in s ==> m <= k
    requires |rest| == |s - {m}|
    requires forall k :: k in s - {m} <==> k in rest
    requires forall i, j :: 0 <= i < j < |rest| ==> rest[i] < rest[j]
    ensures |[m] + rest| == |s|
    ensures forall k :: k in s <==> k in [m] + rest
    ensures forall i, j :: 0 <= i < j < |[m] + rest| ==> ([m] + rest)[i] < ([m] + rest)[j]
  {
    assert |s - {m}| == |s| - 1;
    var r := [m] + rest;
    assert forall k :: k in r <==> k == m || k in rest;
    forall i, j | 0 <= i < j < |r| ensures r[i] < r[j] {
      assert r[j] == rest[j - 1] && r[j] in s - {m};
      if i > 0 {
        assert r[i] == rest[i - 1];
      }
    }
  }

  /** A window's records in ascending period order (`new ArrayList<>(treeMap.values())`). */
  function AscendingValues(m: map<int, PayPeriodRecord>): (r: seq<PayPeriodRecord>)
    ensures |r| == |m|
    ensures var keys := AscendingKeys(m.Keys);
      |keys| == |r| && forall i :: 0 <= i < |r| ==> keys[i] in m && r[i] == m[keys[i]]
  {
    var keys := AscendingKeys(m.Keys);
    assert |keys| == |m| by {
      assert |m.Keys| == |m|;
    }
    assert forall i :: 0 <= i < |keys| ==> keys[i] in m by {
      forall i | 0 <= i < |keys| ensures keys[i] in m {
        assert keys[i] in m.Keys;
      }
    }
    seq(|keys|, i requires 0 <= i < |keys| => m[keys[i]])
  }

  /** Records filed under their own period numbers come out in strictly ascending period order. */
  lemma AscendingValuesSorted(m: map<int, PayPeriodRecord>)
    requires forall p :: p in m ==> m[p].payPeriodNumber == p
    ensures forall i, j :: 0 <= i < j < |AscendingValues(m)| ==>
      AscendingValues(m)[i].payPeriodNumber < AscendingValues(m)[j].payPeriodNumber
  {
    var r := AscendingValues(m);
    var keys := AscendingKeys(m.Keys);
    forall i, j | 0 <= i < j < |r| ensures r[i].payPeriodNumber < r[j].payPeriodNumber {
      assert r[i] == m[keys[i]] && r[j] == m[keys[j]];
    }
  }

  /** `w` is `m` cut down to its `n` largest keys: a sub-map with the same values, of size
      min(|m|, n), every dropped key below every kept one. */
  ghost predicate KeepsLargest(m: map<int, PayPeriodRecord>, w: map<int, PayPeriodRecord>, n: nat) {
    w.Keys <= m.Keys
    && (forall k :: k in w ==> w[k] == m[k])
    && |w| == (if |m| <= n then |m| else n)
    && (forall j, k :: j in m && j !in w && k in w ==> j < k)
  }

  /** The window an employee's periods form: at most four, each under its own number, none
      negative. */
  ghost predicate WindowValid(m: map<int, PayPeriodRecord>) {
    |m| <= MaxPayPeriods && forall p :: p in m ==> p >= 0 && m[p].payPeriodNumber == p
  }

  /** The eviction loop: while more than four periods remain, the smallest is dropped. */
  method TrimToLatest(periods: map<int, PayPeriodRecord>) returns (w: map<int, PayPeriodRecord>)
    ensures KeepsLargest(periods, w, MaxPayPeriods)
  {
    w := periods;
    while |w| > MaxPayPeriods
      invariant w.Keys <= periods.Keys
      invariant forall k :: k in w ==> w[k] == periods[k]
      invariant |periods| <= MaxPayPeriods ==> w == periods
      invariant |periods| > MaxPayPeriods ==> |w| >= MaxPayPeriods
      invariant forall j, k :: j in periods && j !in w && k in w ==> j < k
      decreases |w|
    {
      var first := MinOf(w.Keys);
      assert (w - {first}).Keys == w.Keys - {first};
      w := w - {first};
    }
  }

  lemma SubsetCard(a: set<int>, b: set<int>)
    requires a <= b
    ensures |a| <= |b|
  {
    assert b == a + (b - a);
  }

  /** A key one window keeps and another drops would lie both above and below the second
      window's keys; so the second window lies inside the first without that key. */
  lemma KeepsLargestInside(m: map<int, PayPeriodRecord>, w1: map<int, PayPeriodRecord>, w2: map<int, PayPeriodRecord>, n: nat, k: int)
    requires KeepsLargest(m, w1, n) && KeepsLargest(m, w2, n)
    requires k in w1 && k !in w2
    ensures w2.Keys <= w1.Keys - {k}
  {
    forall j | j in w2 ensures j in w1 && j != k {
      assert k < j;
    }
  }

  /** Any two windows of the same map agree: the window is determined by the map alone. */
  lemma KeepsLargestUnique(m: map<int, PayPeriodRecord>, w1: map<int, PayPeriodRecord>, w2: map<int, PayPeriodRecord>, n: nat)
    requires KeepsLargest(m, w1, n) && KeepsLargest(m, w2, n)
    ensures w1 == w2
  {
    if k :| k in w1 && k !in w2 {
      KeepsLargestInside(m, w1, w2, n, k);
      SubsetCard(w2.Keys, w1.Keys - {k});
      assert false;
    } else if k :| k in w2 && k !in w1 {
      KeepsLargestInside(m, w2, w1, n, k);
      SubsetCard(w1.Keys, w2.Keys - {k});
      assert false;
    } else {
      assert forall k :: k in w1 <==> k in w2;
      assert w1.Keys == w2.Keys;
      assert forall k :: k in w1 ==> w1[k] == w2[k];
    }
  }

  /** Trimming keeps windows valid, and the newest period, once put, survives when it is among
      the largest. */
  lemma PutThenTrimValid(base: map<int, PayPeriodRecord>, p: int, pp: PayPeriodRecord, w: map<int, PayPeriodRecord>)
    requires WindowValid(base) && p >= 0 && pp.payPeriodNumber == p
    requires KeepsLargest(base[p := pp], w, MaxPayPeriods)
    ensures WindowValid(w)
    ensures (forall k :: k in base ==> k <= p) ==> p in w && w[p] == pp
  {
    var m := base[p := pp];
    if forall k :: k in base ==> k <= p {
      if p !in w {
        assert false;
      }
    }
  }

  // ---------------------------------------------------------------- the document

  function IsDeactivated(info: EmployeeInfo): bool {
    EqualsIgnoreCase("false", info.isActive)
  }

  /** The document for an employee: the info's fields, active unless `isActive` is "false" in
      any case, and the window's periods in ascending period order (none without a window). */
  function SearchDocumentOf(employeeId: string, info: EmployeeInfo, periods: Option<map<int, PayPeriodRecord>>): (doc: EmployeeSearchDocument)
    ensures doc.employeeId == employeeId && doc.isActive == !IsDeactivated(info)
    ensures doc.firstName == info.firstName && doc.lastName == info.lastName && doc.email == info.email
    ensures doc.payType == info.payType && doc.payRate == info.payRate && doc.payPeriodHours == info.payPeriodHours
    ensures doc.hireDate == info.hireDate
    ensures periods.None? ==> doc.payPeriods == []
    ensures periods.Some? ==> doc.payPeriods == AscendingValues(periods.value)
  {
    var list := if periods.None? then [] else AscendingValues(periods.value);
    EmployeeSearchDocument(employeeId, info.firstName, info.lastName, info.email, info.payType,
      info.payRate, info.payPeriodHours, !IsDeactivated(info), info.hireDate, list)
  }

  /** A document built from a valid window carries at most four periods, in strictly
      ascending period order. */
  lemma DocumentPeriodsOrdered(employeeId: string, info: EmployeeInfo, m: map<int, PayPeriodRecord>)
    requires WindowValid(m)
    ensures var doc := SearchDocumentOf(employeeId, info, Some(m));
      |doc.payPeriods| <= MaxPayPeriods
      && forall i, j :: 0 <= i < j < |doc.payPeriods| ==> doc.payPeriods[i].payPeriodNumber < doc.payPeriods[j].payPeriodNumber
  {
    AscendingValuesSorted(m);
  }

  /** How a net-pay value reads: a tombstone (no value), text that throws, or a record. */
  datatype ValueRead = Tombstone | Unparsable | Record(node: Node)

  function ValueOf(parse: Parser, value: Option<string>): (r: ValueRead)
    ensures r.Tombstone? <==> value.None?
    ensures r.Unparsable? <==> value.Some? && ReadTree(parse, value.value).None?
  {
    match value
    case None => Tombstone
    case Some(t) =>
      match ReadTree(parse, t)
      case None => Unparsable
      case Some(n) => Record(n)
  }

  /** Reading a net-pay record throws exactly where its key, or (for a period key) its value,
      is not JSON. */
  predicate NetPayRecordReadable(parse: Parser, key: Option<string>, value: Option<string>) {
    !NetPayKey(parse, key).Unreadable?
    && !(NetPayKey(parse, key).PeriodKey? && ValueOf(parse, value).Unparsable?)
  }

  ghost function WindowOf(m: map<string, map<int, PayPeriodRecord>>, id: string): map<int, PayPeriodRecord> {
    if id in m then m[id] else map[]
  }

  /** The employee a readable net-pay key names, whether or not it also names a period. */
  function KeyEmployee(parse: Parser, key: string): (r: Option<string>)
    requires ReadTree(parse, key).Some?
    ensures r.None? ==> NetPayKey(parse, Some(key)).Ignored?
    ensures NetPayKey(parse, Some(key)).PeriodKey? ==> r == Some(NetPayKey(parse, Some(key)).employeeId)
  {
    AsTextOr(Path(ReadTree(parse, key).value, "EMPLOYEE_ID"), None)
  }

  /** A net-pay record for period `p` of `id` applied to the windows: the employee gets a
      window (if it had none) and the others are untouched; a tombstone removes that period,
      an unreadable value leaves the window, a record is put and the window cut to the four
      largest periods. */
  ghost predicate NetPayApplied(before: map<string, map<int, PayPeriodRecord>>, after: map<string, map<int, PayPeriodRecord>>,
                                id: string, p: int, v: ValueRead) {
    match v
    case Tombstone => after == before[id := WindowOf(before, id) - {p}]
    case Unparsable => after == before[id := WindowOf(before, id)]
    case Record(n) =>
      id in after && after == before[id := after[id]]
      && KeepsLargest(WindowOf(before, id)[p := PayPeriodOf(p, n)], after[id], MaxPayPeriods)
  }

  /** What a net-pay record does to the stored pay periods: a key naming an employee and a
      period applies the value to that window, any other key changes nothing. */
  ghost predicate NetPayRecordApplied(before: map<string, map<int, PayPeriodRecord>>, after: map<string, map<int, PayPeriodRecord>>,
                                      parse: Parser, key: Option<string>, value: Option<string>) {
    var k := NetPayKey(parse, key);
    if k.PeriodKey? then NetPayApplied(before, after, k.employeeId, k.period, ValueOf(parse, value)) else after == before
  }

  ghost predicate ValidWindows(m: map<string, map<int, PayPeriodRecord>>) {
    forall e :: e in m ==> WindowValid(m[e])
  }

  lemma WindowsValidAfterPut(m: map<string, map<int, PayPeriodRecord>>, id: string, w: map<int, PayPeriodRecord>)
    requires ValidWindows(m)
    requires WindowValid(w)
    ensures ValidWindows(m[id := w])
  {
  }

  /** The info map after an employee-info record: the update's entry put under its id. */
  function WithInfo(m: map<string, EmployeeInfo>, update: Option<EmployeeInfo>): (r: map<string, EmployeeInfo>)
    ensures update.None? ==> r == m
    ensures update.Some? ==> r.Keys == m.Keys + {update.value.employeeId} && r[update.value.employeeId] == update.value
    ensures forall e :: e in m && (update.None? || e != update.value.employeeId) ==> e in r && r[e] == m[e]
  {
    match update
    case None => m
    case Some(info) => m[info.employeeId := info]
  }

  /** The employee an employee-info record is announced for: the key's id, else the value's
      `EMPLOYEE_ID`. */
  function InfoTarget(parse: Parser, key: Option<string>, value: Option<string>): (r: Option<string>)
    ensures key.None? ==> r.None?
    ensures ExtractEmployeeIdFromKey(parse, key).Some? ==> r == ExtractEmployeeIdFromKey(parse, key)
  {
    if key.None? then None
    else match ExtractEmployeeIdFromKey(parse, key)
      case Some(id) => Some(id)
      case None =>
        if value.Some? && ReadTree(parse, value.value).Some? then
          AsTextOr(Path(ReadTree(parse, value.value).value, "EMPLOYEE_ID"), None)
        else None
  }

  /** What producing an employee's document sends: nothing without info, else one document
      joining the info with the employee's window. */
  function DocumentFor(info: map<string, EmployeeInfo>, periods: map<string, map<int, PayPeriodRecord>>, id: string): (r: seq<Produced>)
    ensures id !in info <==> r == []
    ensures id in info ==> r == [Produced(id, Some(SearchDocumentOf(id, info[id], if id in periods then Some(periods[id]) else None)))]
  {
    if id in info then
      [Produced(id, Some(SearchDocumentOf(id, info[id], if id in periods then Some(periods[id]) else None)))]
    else []
  }

  /** What an employee-info record sends for its employee: a tombstone when the info says
      inactive, its document when active, nothing without info. */
  function InfoOutput(info: map<string, EmployeeInfo>, periods: map<string, map<int, PayPeriodRecord>>, id: string): (r: seq<Produced>)
    ensures |r| <= 1
    ensures |r| == 1 <==> id in info
    ensures |r| == 1 ==> r[0].employeeId == id
    ensures |r| == 1 ==> (r[0].document.None? <==> IsDeactivated(info[id]))
    ensures |r| == 1 && r[0].document.Some? ==> r[0].document.value.isActive
  {
    if id in info && IsDeactivated(info[id]) then [Produced(id, None)]
    else DocumentFor(info, periods, id)
  }

  lemma TombstoneApplied(before: map<string, map<int, PayPeriodRecord>>, id: string, p: int)
    requires ValidWindows(before)
    ensures NetPayApplied(before, before[id := WindowOf(before, id) - {p}], id, p, Tombstone)
    ensures ValidWindows(before[id := WindowOf(before, id) - {p}])
  {
    var w := WindowOf(before, id);
    SubsetCardinality(w - {p}, w);
    WindowsValidAfterPut(before, id, w - {p});
  }

  lemma UnparsableApplied(before: map<string, map<int, PayPeriodRecord>>, id: string, p: int)
    requires ValidWindows(before)
    ensures NetPayApplied(before, before[id := WindowOf(before, id)], id, p, Unparsable)
    ensures ValidWindows(before[id := WindowOf(before, id)])
  {
    WindowsValidAfterPut(before, id, WindowOf(before, id));
  }

  lemma RecordApplied(before: map<string, map<int, PayPeriodRecord>>, id: string, p: int, n: Node, w: map<int, PayPeriodRecord>)
    requires ValidWindows(before) && p >= 0
    requires KeepsLargest(WindowOf(before, id)[p := PayPeriodOf(p, n)], w, MaxPayPeriods)
    ensures NetPayApplied(before, before[id := w], id, p, Record(n))
    ensures ValidWindows(before[id := w])
  {
    PutThenTrimValid(WindowOf(before, id), p, PayPeriodOf(p, n), w);
    WindowsValidAfterPut(before, id, w);
  }

  lemma SubsetCardinality(a: map<int, PayPeriodRecord>, b: map<int, PayPeriodRecord>)
    requires a.Keys <= b.Keys
    ensures |a| <= |b|
  {
    SubsetCard(a.Keys, b.Keys);
  }

  class SearchUpdater {
    var employeeInfo: map<string, EmployeeInfo>
    var payPeriods: map<string, map<int, PayPeriodRecord>>
    /** Every record sent to the search topic, in order. */
    var produced: seq<Produced>

    ghost predicate Valid()
      reads this
    {
      ValidWindows(payPeriods)
    }

    constructor()
      ensures Valid()
      ensures employeeInfo == map[] && payPeriods == map[] && produced == []
    {
      employeeInfo := map[];
      payPeriods := map[];
      produced := [];
    }

    /** The start of each run: both in-memory maps cleared. */
    method Reset()
      modifies this
      ensures Valid()
      ensures employeeInfo == map[] && payPeriods == map[] && produced == old(produced)
    {
      employeeInfo := map[];
      payPeriods := map[];
    }

    /** `processEmployeeInfoRecord`: `ok` is false where reading the value throws. */
    method ProcessEmployeeInfoRecord(parse: Parser, key: Option<string>, value: Option<string>) returns (ok: bool)
      modifies this`employeeInfo
      ensures ok <==> key.None? || value.None? || ReadTree(parse, value.value).Some?
      ensures employeeInfo == WithInfo(old(employeeInfo), EmployeeInfoUpdate(parse, key, value))
    {
      ghost var update := EmployeeInfoUpdate(parse, key, value);
      if key.None? || value.None? {
        return true;
      }
      var v := ReadTree(parse, value.value);
      if v.None? {
        assert update.None?;
        return false;
      }
      assert update == InfoFromValue(parse, key, v.value);
      var employeeId := AsTextOr(Path(v.value, "EMPLOYEE_ID"), None);
      if employeeId.None? {
        employeeId := ExtractEmployeeIdFromKey(parse, key);
      }
      if employeeId.None? {
        assert update.None?;
        return true;
      }
      var info := EmployeeInfoOf(employeeId.value, v.value);
      assert update == Some(info);
      employeeInfo := employeeInfo[employeeId.value := info];
      return true;
    }

    /** `processNetPayRecord`: a tombstone removes that one period; any other value puts the
        period and trims the employee's window to the four largest. The employee's window is
        created before the value is read, so it stays even where reading throws. */
    method ProcessNetPayRecord(parse: Parser, key: Option<string>, value: Option<string>) returns (ok: bool)
      requires Valid()
      modifies this`payPeriods
      ensures Valid()
      ensures ok <==> NetPayRecordReadable(parse, key, value)
      ensures NetPayRecordApplied(old(payPeriods), payPeriods, parse, key, value)
    {
      var k := NetPayKey(parse, key);
      if k.Unreadable? {
        return false;
      }
      if k.Ignored? {
        return true;
      }
      ok := ApplyNetPayValue(k.employeeId, k.period, parse, value);
    }

    /** The part of `processNetPayRecord` after the key is read: the employee's window is
        created if absent, then the value is applied to it. */
    method ApplyNetPayValue(id: string, p: int, parse: Parser, value: Option<string>) returns (ok: bool)
      requires Valid() && p >= 0
      modifies this`payPeriods
      ensures Valid()
      ensures ok <==> !ValueOf(parse, value).Unparsable?
      ensures NetPayApplied(old(payPeriods), payPeriods, id, p, ValueOf(parse, value))
    {
      // the window is created (computeIfAbsent) before the value is read; each path below
      // writes the employee's final window once
      var periods := if id in payPeriods then payPeriods[id] else map[];
      if value.None? {
        TombstoneApplied(payPeriods, id, p);
        payPeriods := payPeriods[id := periods - {p}];
        return true;
      }
      var v := ReadTree(parse, value.value);
      if v.None? {
        UnparsableApplied(payPeriods, id, p);
        payPeriods := payPeriods[id := periods];
        return false;
      }
      var pp := PayPeriodOf(p, v.value);
      var trimmed := TrimToLatest(periods[p := pp]);
      RecordApplied(payPeriods, id, p, v.value, trimmed);
      assert ValueOf(parse, value) == Record(v.value);
      payPeriods := payPeriods[id := trimmed];
      return true;
    }

    /** `produceSearchDocument`: nothing without info for the employee; otherwise the joined
        document is sent under the employee's id. */
    method ProduceSearchDocument(employeeId: string)
      modifies this`produced
      ensures produced == old(produced) + DocumentFor(employeeInfo, payPeriods, employeeId)
    {
      if employeeId !in employeeInfo {
        return;
      }
      var periods := if employeeId in payPeriods then Some(payPeriods[employeeId]) else None;
      var doc := SearchDocumentOf(employeeId, employeeInfo[employeeId], periods);
      produced := produced + [Produced(employeeId, Some(doc))];
    }

    /** The employee an employee-info record is for: the one its key names, else the one its
        value names. */
    method ResolveInfoTarget(parse: Parser, key: Option<string>, value: Option<string>) returns (employeeId: Option<string>)
      requires key.Some?
      requires value.None? || ReadTree(parse, value.value).Some?
      ensures employeeId == InfoTarget(parse, key, value)
    {
      employeeId := ExtractEmployeeIdFromKey(parse, key);
      if employeeId.None? && value.Some? {
        // the value was read once already, so reading it again cannot throw
        var v := ReadTree(parse, value.value).value;
        employeeId := AsTextOr(Path(v, "EMPLOYEE_ID"), None);
      }
    }

    /** Sends a tombstone for an employee whose info says inactive, else its document. */
    method ProduceInfoOutput(id: string)
      modifies this`produced
      ensures produced == old(produced) + InfoOutput(employeeInfo, payPeriods, id)
    {
      if id in employeeInfo && IsDeactivated(employeeInfo[id]) {
        produced := produced + [Produced(id, None)];
        return;
      }
      ProduceSearchDocument(id);
    }

    /** `handleEmployeeInfo`: the info is recorded, then the employee named by the key (else by
        the value) gets a tombstone when its info says inactive, or its document. */
    method HandleEmployeeInfo(parse: Parser, key: Option<string>, value: Option<string>) returns (ok: bool)
      requires Valid()
      modifies this
      ensures Valid()
      ensures ok <==> key.None? || value.None? || ReadTree(parse, value.value).Some?
      ensures payPeriods == old(payPeriods)
      ensures employeeInfo == WithInfo(old(employeeInfo), EmployeeInfoUpdate(parse, key, value))
      ensures produced == old(produced) +
        (if ok && InfoTarget(parse, key, value).Some? then InfoOutput(employeeInfo, payPeriods, InfoTarget(parse, key, value).value) else [])
    {
      ok := ProcessEmployeeInfoRecord(parse, key, value);
      if !ok || key.None? {
        return;
      }
      var employeeId := ResolveInfoTarget(parse, key, value);
      if employeeId.None? {
        return;
      }
      ProduceInfoOutput(employeeId.value);
    }

    /** `handleNetPay`: the record is applied, then the employee named by the key gets its
        document. */
    method HandleNetPay(parse: Parser, key: Option<string>, value: Option<string>) returns (ok: bool)
      requires Valid()
      modifies this
      ensures Valid()
      ensures ok <==> NetPayRecordReadable(parse, key, value)
      ensures employeeInfo == old(employeeInfo)
      ensures NetPayRecordApplied(old(payPeriods), payPeriods, parse, key, value)
      ensures NetPayKey(parse, key).PeriodKey? && ok ==>
        produced == old(produced) + DocumentFor(employeeInfo, payPeriods, NetPayKey(parse, key).employeeId)
      ensures produced == old(produced) +
        (if ok && key.Some? && ReadTree(parse, key.value).Some? && KeyEmployee(parse, key.value).Some?
         then DocumentFor(employeeInfo, payPeriods, KeyEmployee(parse, key.value).value) else [])
    {
      if key.None? {
        return true;
      }
      if ReadTree(parse, key.value).None? {
        return false;
      }
      var employeeId := KeyEmployee(parse, key.value);
      if employeeId.None? {
        return true;
      }
      ok := ProcessThenProduce(parse, key, value, employeeId.value);
    }

    /** The tail of `handleNetPay` once the key has named employee `id`: the record is
        applied, and when it was readable the employee's document is sent. */
    method ProcessThenProduce(parse: Parser, key: Option<string>, value: Option<string>, id: string) returns (ok: bool)
      requires Valid()
      modifies this
      ensures Valid()
      ensures ok <==> NetPayRecordReadable(parse, key, value)
      ensures employeeInfo == old(employeeInfo)
      ensures NetPayRecordApplied(old(payPeriods), payPeriods, parse, key, value)
      ensures produced == old(produced) + (if ok then DocumentFor(employeeInfo, payPeriods, id) else [])
    {
      ok := ProcessNetPayRecord(parse, key, value);
      if !ok {
        return;
      }
      ProduceSearchDocument(id);
    }
  }
}

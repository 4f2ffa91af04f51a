/** The net-pay stream processor: gross pay per (employee, pay period), tax configuration and
    deductions per employee, and the set of deactivated employees, all held in memory and shared
    by the gross-pay and employee-events sources. Records are handled one at a time. */
module NetPay {
  import opened Wrappers
  import opened Text
  import Decimals
  import opened JsonTree
  import opened Jackson
  import opened DeductionMaps

  /** 2024-01-01T00:00:00Z in milliseconds since the epoch. */
  const PayPeriodEpochMs: int := 1704067200000
  /** Fourteen days in milliseconds. */
  const PayPeriodDurationMs: int := 14 * 24 * 60 * 60 * 1000
  /** The source name of the processor instance that reads gross pay; any other name reads
      employee events. */
  const GrossPaySourceName: string := "gross-pay"

  /** Gross pay as stored per (employee, period); the amounts are carried, not computed. */
  datatype GrossPay = GrossPay(
    employeeId: string, payPeriodNumber: int, payRate: real, payType: string,
    grossPay: real, totalHoursWorked: real, payPeriodStart: string, payPeriodEnd: string)

  datatype TaxConfig = TaxConfig(
    employeeId: string, federalFilingStatus: string, state: string,
    additionalFederalWithholding: real, additionalStateWithholding: real)

  /** The key `{"employeeId": …, "payPeriodNumber": …}` of every forwarded record. */
  datatype OutputKey = OutputKey(employeeId: string, payPeriodNumber: int)

  /** A forwarded record: a tombstone (null value), or a net-pay result whose figures are
      not modelled. */
  datatype Forwarded = Tombstone(key: OutputKey) | NetPayEmitted(key: OutputKey)

  /** All the processor's state at one moment. */
  datatype Stores = Stores(
    grossPay: map<string, GrossPay>, taxConfig: map<string, TaxConfig>,
    deductions: map<string, DeductionMapData>, deactivated: set<string>,
    forwarded: seq<Forwarded>)

  /** The pay period containing `nowMs`: Java's long division truncates toward zero, so from
      the epoch on each period is fourteen days long. */
  function GetCurrentPayPeriod(nowMs: int): (p: int)
    ensures nowMs >= PayPeriodEpochMs ==>
      p >= 0 && PayPeriodEpochMs + p * PayPeriodDurationMs <= nowMs < PayPeriodEpochMs + (p + 1) * PayPeriodDurationMs
    ensures nowMs < PayPeriodEpochMs ==> p <= 0
  {
    var d := nowMs - PayPeriodEpochMs;
    PeriodOfOffset(d);
    Decimals.TruncDiv(d, PayPeriodDurationMs)
  }

  lemma PeriodOfOffset(d: int)
    ensures var p := Decimals.TruncDiv(d, PayPeriodDurationMs);
      (d >= 0 ==> p >= 0 && p * PayPeriodDurationMs <= d < (p + 1) * PayPeriodDurationMs)
      && (d < 0 ==> p <= 0)
  {
    var p := Decimals.TruncDiv(d, PayPeriodDurationMs);
    if d < 0 {
      assert Decimals.Abs(d as real - (p * PayPeriodDurationMs) as real) < PayPeriodDurationMs as real;
    }
  }

  // ---------------------------------------------------------------- store keys

  /** `employeeId + ":" + payPeriodNumber`. */
  function StoreKey(employeeId: string, period: int): string {
    employeeId + ":" + IntToString(period)
  }

  /** The period a deactivation reads back from a store key: `Long.parseLong` of the text after
      the key's first ':' (the whole key when it has none). */
  function KeyPeriod(key: string): Option<int> {
    ParseLong(key[IndexOf(key, ':') + 1..])
  }

  /** The store keys a deactivation of `employeeId` selects: those starting `employeeId + ":"`. */
  function PrefixedKeys(store: map<string, GrossPay>, employeeId: string): (ks: set<string>)
    ensures forall k :: k in ks <==> k in store && StartsWith(k, employeeId + ":")
  {
    set k | k in store && StartsWith(k, employeeId + ":")
  }

  /** Every gross pay is stored under the key of its own employee and period. */
  ghost predicate WellKeyed(store: map<string, GrossPay>) {
    forall k :: k in store ==> k == StoreKey(store[k].employeeId, store[k].payPeriodNumber)
  }

  lemma WellKeyedAfterRemoval(store: map<string, GrossPay>, removed: set<string>)
    requires WellKeyed(store)
    ensures WellKeyed(store - removed)
  {
  }

  /** No stored employee id contains ':' (true of GUIDs). */
  ghost predicate ColonFreeIds(store: map<string, GrossPay>) {
    forall k :: k in store ==> ':' !in store[k].employeeId
  }

  /** A key written for a colon-free id reads back its period, and it starts `id + ":"` for
      exactly one id: its own. */
  lemma StoreKeyReadsBack(employeeId: string, period: int, id: string)
    requires ':' !in employeeId
    ensures KeyPeriod(StoreKey(employeeId, period)) == Some(period)
    ensures StartsWith(StoreKey(employeeId, period), id + ":") <==> id == employeeId
  {
    StoreKeyPeriod(employeeId, period);
    StoreKeyOwner(employeeId, period, id);
  }

  lemma StoreKeyPeriod(employeeId: string, period: int)
    requires ':' !in employeeId
    ensures KeyPeriod(StoreKey(employeeId, period)) == Some(period)
  {
    var k := StoreKey(employeeId, period);
    var digits := IntToString(period);
    IndexOfAfterPrefix(employeeId, ':', digits);
    assert k == employeeId + [':'] + digits;
    assert k[IndexOf(k, ':') + 1..] == digits;
    ParseLongIntToString(period);
  }

  lemma StoreKeyOwner(employeeId: string, period: int, id: string)
    requires ':' !in employeeId
    ensures StartsWith(StoreKey(employeeId, period), id + ":") <==> id == employeeId
  {
    var k := StoreKey(employeeId, period);
    var digits := IntToString(period);
    assert k == employeeId + [':'] + digits;
    IntToStringHasNo(period, ':');
    if StartsWith(k, id + ":") {
      assert k[|id|] == ':';
      assert id == k[..|id|] == employeeId;
    }
  }

  /** When the stored ids are colon-free, the keys a deactivation selects are exactly the
      employee's own periods, and each reads back its period. */
  lemma PrefixedKeysAreEmployeePeriods(store: map<string, GrossPay>, id: string)
    requires WellKeyed(store) && ColonFreeIds(store)
    ensures forall k :: k in PrefixedKeys(store, id) <==> k in store && store[k].employeeId == id
    ensures forall k :: k in PrefixedKeys(store, id) ==> KeyPeriod(k) == Some(store[k].payPeriodNumber)
  {
    forall k | k in store
      ensures StartsWith(k, id + ":") <==> store[k].employeeId == id
      ensures KeyPeriod(k) == Some(store[k].payPeriodNumber)
    {
      StoreKeyReadsBack(store[k].employeeId, store[k].payPeriodNumber, id);
    }
  }

  // ---------------------------------------------------------------- gross pay

  /** The `{EMPLOYEE_ID, PAY_PERIOD_NUMBER}` of a gross-pay key, or `None` where reading it
      throws: a null key, text that is not JSON, or a field that is absent (a blank key reads as
      the missing node, whose `get` is null too). The id is `asText()`, the period `asLong()`. */
  function GrossPayKey(parse: Parser, key: Option<string>): (r: Option<OutputKey>)
    ensures key.None? ==> r.None?
    ensures r.Some? ==> key.Some? && ReadTree(parse, key.value).Some? && ReadTree(parse, key.value).value.Present?
  {
    if key.None? then None
    else match ReadTree(parse, key.value)
      case None => None
      case Some(Missing) => None
      case Some(Present(j)) =>
        match (Member(j, "EMPLOYEE_ID"), Member(j, "PAY_PERIOD_NUMBER"))
        case (Some(id), Some(period)) => Some(OutputKey(AsText(Present(id)), AsLongOr(Present(period), 0)))
        case _ => None
  }

  /** The key the upstream gross-pay table writes reads back as that employee and period. */
  lemma GrossPayKeyOfTableKey(parse: Parser, key: string, id: string, period: int)
    requires JavaTrim(key) != ""
    requires parse(key) == Some(JObj([("EMPLOYEE_ID", JStr(id)), ("PAY_PERIOD_NUMBER", JInt(period))]))
    ensures GrossPayKey(parse, Some(key)) == Some(OutputKey(id, period))
  {
    var fields := [("EMPLOYEE_ID", JStr(id)), ("PAY_PERIOD_NUMBER", JInt(period))];
    assert Lookup(fields, "EMPLOYEE_ID") == Some(JStr(id)) by {
      assert Lookup(fields[..1], "EMPLOYEE_ID") == Some(JStr(id));
    }
  }

  /** The gross pay read from a value node, each field with the processor's default. */
  function GrossPayOf(employeeId: string, period: int, value: Node): (gp: GrossPay)
    ensures gp.employeeId == employeeId && gp.payPeriodNumber == period
    ensures value.Missing? ==> gp == GrossPay(employeeId, period, 0.0, "1", 0.0, 0.0, "", "")
  {
    GrossPay(employeeId, period,
      AsDoubleOr(Path(value, "PAY_RATE"), 0.0),
      AsTextOrElse(Path(value, "PAY_TYPE"), "1"),
      AsDoubleOr(Path(value, "GROSS_PAY"), 0.0),
      AsDoubleOr(Path(value, "TOTAL_HOURS_WORKED"), 0.0),
      AsTextOrElse(Path(value, "PAY_PERIOD_START"), ""),
      AsTextOrElse(Path(value, "PAY_PERIOD_END"), ""))
  }

  /** `computeAndEmit`: a result is forwarded for the period when its gross pay is stored. */
  function Recompute(s: Stores, employeeId: string, period: int): (t: Stores)
    ensures t.grossPay == s.grossPay && t.taxConfig == s.taxConfig && t.deductions == s.deductions
    ensures t.deactivated == s.deactivated
    ensures StoreKey(employeeId, period) in s.grossPay ==> t.forwarded == s.forwarded + [NetPayEmitted(OutputKey(employeeId, period))]
    ensures StoreKey(employeeId, period) !in s.grossPay ==> t == s
  {
    if StoreKey(employeeId, period) in s.grossPay then
      s.(forwarded := s.forwarded + [NetPayEmitted(OutputKey(employeeId, period))])
    else s
  }

  /** `handleGrossPay`: a deactivated employee's gross pay only forwards a tombstone; any other
      is stored under its key, replacing an earlier value, and forwards a net-pay result.
      Where reading the key or the value throws, nothing changes. */
  function GrossPayEffect(s: Stores, parse: Parser, key: Option<string>, value: string): (t: Stores)
    ensures t.taxConfig == s.taxConfig && t.deductions == s.deductions && t.deactivated == s.deactivated
    ensures GrossPayKey(parse, key).None? || ReadTree(parse, value).None? ==> t == s
    ensures GrossPayKey(parse, key).Some? && ReadTree(parse, value).Some? ==>
      var k := GrossPayKey(parse, key).value;
      if k.employeeId in s.deactivated then
        t.grossPay == s.grossPay && t.forwarded == s.forwarded + [Tombstone(k)]
      else
        t.grossPay == s.grossPay[StoreKey(k.employeeId, k.payPeriodNumber) :=
                                   GrossPayOf(k.employeeId, k.payPeriodNumber, ReadTree(parse, value).value)]
        && t.forwarded == s.forwarded + [NetPayEmitted(k)]
  {
    match (GrossPayKey(parse, key), ReadTree(parse, value))
    case (Some(k), Some(v)) =>
      if k.employeeId in s.deactivated then
        s.(forwarded := s.forwarded + [Tombstone(k)])
      else
        var gp := GrossPayOf(k.employeeId, k.payPeriodNumber, v);
        var stored := s.(grossPay := s.grossPay[StoreKey(k.employeeId, k.payPeriodNumber) := gp]);
        Recompute(stored, k.employeeId, k.payPeriodNumber)
    case _ => s
  }

  /** Storing an entry under its own key keeps the store well keyed, and stores no pay for a
      deactivated employee when the entry is not for one. */
  lemma StoreEntryKeepsInvariants(store: map<string, GrossPay>, deactivated: set<string>, gp: GrossPay)
    requires WellKeyed(store)
    ensures WellKeyed(store[StoreKey(gp.employeeId, gp.payPeriodNumber) := gp])
    ensures (forall k :: k in store ==> store[k].employeeId !in deactivated) && gp.employeeId !in deactivated ==>
      var after := store[StoreKey(gp.employeeId, gp.payPeriodNumber) := gp];
      forall k :: k in after ==> after[k].employeeId !in deactivated
  {
  }

  /** Storing gross pay keeps every entry under its own key, and never stores pay for a
      deactivated employee that had none. */
  lemma GrossPayKeepsInvariants(s: Stores, parse: Parser, key: Option<string>, value: string)
    requires WellKeyed(s.grossPay)
    ensures WellKeyed(GrossPayEffect(s, parse, key, value).grossPay)
    ensures (forall k :: k in s.grossPay ==> s.grossPay[k].employeeId !in s.deactivated) ==>
      var t := GrossPayEffect(s, parse, key, value);
      forall k :: k in t.grossPay ==> t.grossPay[k].employeeId !in t.deactivated
  {
    if GrossPayKey(parse, key).Some? && ReadTree(parse, value).Some? {
      var k := GrossPayKey(parse, key).value;
      if k.employeeId !in s.deactivated {
        var gp := GrossPayOf(k.employeeId, k.payPeriodNumber, ReadTree(parse, value).value);
        assert gp.employeeId == k.employeeId && gp.payPeriodNumber == k.payPeriodNumber;
        StoreEntryKeepsInvariants(s.grossPay, s.deactivated, gp);
      }
    }
  }

  // ---------------------------------------------------------------- employee events

  /** As written: `path("data").asText(null)`, then `readTree` of that text. `asText(null)` is
      null only for the missing node and JSON null; an object or array gives "", which reads as
      the missing node, so object-shaped `data` never reaches the dispatcher. `None`: ignored. */
  function EventDataAsWritten(parse: Parser, envelope: Node): (r: Option<Node>)
    ensures Path(envelope, "data").Missing? ==> r.None?
    ensures Path(envelope, "data").Present? && Path(envelope, "data").json.JStr? ==>
      r == ReadTree(parse, Path(envelope, "data").json.s)
  {
    match AsTextOr(Path(envelope, "data"), None)
    case None => None
    case Some(text) => ReadTree(parse, text)
  }

  /** The event data as intended: a JSON string is read as JSON text (the Dapr CloudEvent
      form); an object or array is the data itself; missing or null data ignores the event. */
  function EventData(parse: Parser, envelope: Node): (r: Option<Node>)
    ensures Path(envelope, "data").Missing? ==> r.None?
    ensures Path(envelope, "data").Present? && Path(envelope, "data").json.JNull? ==> r.None?
    ensures Path(envelope, "data").Present? && Path(envelope, "data").json.JStr? ==>
      r == ReadTree(parse, Path(envelope, "data").json.s)
    ensures Path(envelope, "data").Present? && Path(envelope, "data").json.JObj? ==>
      r == Some(Path(envelope, "data"))
  {
    var d := Path(envelope, "data");
    if d.Present? && (d.json.JObj? || d.json.JArr?) then Some(d)
    else match AsTextOr(d, None)
      case None => None
      case Some(text) => ReadTree(parse, text)
  }

  /** `DomainEvents[0].EventType` (default ""), or `None` when `DomainEvents` is not a
      non-empty array. */
  function EventTypeOf(data: Node): (r: Option<string>)
    ensures r.Some? <==> IsNonEmptyArray(Path(data, "DomainEvents"))
  {
    var events := Path(data, "DomainEvents");
    if IsNonEmptyArray(events) then
      Some(AsTextOrElse(Path(Present(events.json.items[0]), "EventType"), ""))
    else None
  }

  /** The event type and data of an employee-events record, read as the processor is written
      (`EventDataAsWritten`), or `None` when it is ignored or reading it throws. */
  function EmployeeEventOf(parse: Parser, value: string): (r: Option<(string, Node)>)
    ensures r.Some? ==> ReadTree(parse, value).Some?
    ensures r.Some? ==> (EventDataAsWritten(parse, ReadTree(parse, value).value) == Some(r.value.1)
                         && EventTypeOf(r.value.1) == Some(r.value.0))
    ensures (ReadTree(parse, value).Some? && Path(ReadTree(parse, value).value, "data").Present?
             && Path(ReadTree(parse, value).value, "data").json.JObj?) ==> r.None?
  {
    match ReadTree(parse, value)
    case None => None
    case Some(envelope) =>
      match EventDataAsWritten(parse, envelope)
      case None => None
      case Some(data) =>
        match EventTypeOf(data)
        case None => None
        case Some(eventType) => Some((eventType, data))
  }

  /** Object-shaped `data` is dropped as written, while the intended reading dispatches it:
      a deactivation sent as an object envelope is lost. */
  lemma ObjectDataDroppedAsWritten(parse: Parser, id: string)
    ensures
      var event := JObj([("EventType", JStr("employee.deactivated"))]);
      var data := JObj([("Id", JStr(id)), ("DomainEvents", JArr([event]))]);
      var envelope := Present(JObj([("data", data)]));
      EventDataAsWritten(parse, envelope) == Some(Missing)
      && EventTypeOf(Missing).None?
      && EventData(parse, envelope) == Some(Present(data))
      && EventTypeOf(Present(data)) == Some("employee.deactivated")
  {
    var event := JObj([("EventType", JStr("employee.deactivated"))]);
    var fields := [("Id", JStr(id)), ("DomainEvents", JArr([event]))];
    assert Lookup(fields, "DomainEvents") == Some(JArr([event]));
  }

  /** The two readings differ only on object and array `data`: for a missing, null or textual
      `data` (the Dapr CloudEvent form) the processor as written reads what was intended. */
  lemma AsWrittenAgreesOnText(parse: Parser, envelope: Node)
    requires Path(envelope, "data").Missing? || !(Path(envelope, "data").json.JObj? || Path(envelope, "data").json.JArr?)
    ensures EventDataAsWritten(parse, envelope) == EventData(parse, envelope)
  {
  }

  /** Any object `data` is dropped as written, whatever it holds. */
  lemma ObjectDataNeverDispatchedAsWritten(parse: Parser, envelope: Node)
    requires Path(envelope, "data").Present? && Path(envelope, "data").json.JObj?
    ensures EventDataAsWritten(parse, envelope) == Some(Missing)
    ensures EventTypeOf(EventDataAsWritten(parse, envelope).value).None?
  {
  }

  /** The tombstones a deactivation forwards for the selected keys. */
  function Tombstones(employeeId: string, keys: set<string>): set<Forwarded> {
    set k | k in keys && KeyPeriod(k).Some? :: Tombstone(OutputKey(employeeId, KeyPeriod(k).value))
  }

  ghost predicate AllPeriodsRead(keys: set<string>) {
    forall k :: k in keys ==> KeyPeriod(k).Some?
  }

  /** `handleEmployeeDeactivated`, as a relation between the stores before (`s`) and after
      (`t`): the id joins the deactivated set; every key starting `id + ":"` is removed with one
      tombstone each, in no particular order, then the tax and deduction entries go. When a
      selected key's period is not a number, the removal stops there with what it has done. */
  ghost predicate DeactivationStep(s: Stores, t: Stores, data: Node) {
    match AsTextOr(Path(data, "Id"), None)
    case None => t == s
    case Some(id) =>
      var selected := PrefixedKeys(s.grossPay, id);
      t.deactivated == s.deactivated + {id}
      && |s.forwarded| <= |t.forwarded| && t.forwarded[..|s.forwarded|] == s.forwarded
      && (forall o :: o in t.forwarded[|s.forwarded|..] ==> o in Tombstones(id, selected))
      && (forall k :: k in t.grossPay ==> k in s.grossPay && t.grossPay[k] == s.grossPay[k])
      && (forall k :: k in s.grossPay && k !in selected ==> k in t.grossPay)
      && if AllPeriodsRead(selected) then
           t.grossPay == s.grossPay - selected
           && t.taxConfig == s.taxConfig - {id} && t.deductions == s.deductions - {id}
           && |t.forwarded| == |s.forwarded| + |selected|
           && (forall o :: o in Tombstones(id, selected) ==> o in t.forwarded[|s.forwarded|..])
         else
           t.taxConfig == s.taxConfig && t.deductions == s.deductions
  }

  /** Part way through a deactivation of `id`: the keys in `done` are removed, each with its
      tombstone, and nothing else has changed yet. */
  ghost predicate DeactivationPartial(s: Stores, t: Stores, id: string, done: set<string>) {
    t.deactivated == s.deactivated + {id}
    && t.taxConfig == s.taxConfig && t.deductions == s.deductions
    && done <= PrefixedKeys(s.grossPay, id)
    && t.grossPay == s.grossPay - done
    && AllPeriodsRead(done)
    && |s.forwarded| <= |t.forwarded| && t.forwarded[..|s.forwarded|] == s.forwarded
    && |t.forwarded| == |s.forwarded| + |done|
    && (forall o :: o in t.forwarded[|s.forwarded|..] <==> o in Tombstones(id, done))
  }

  /** Part way through the removal loop: the keys in `done`, all starting `id + ":"` and with
      readable periods, are gone from the store, and one tombstone each has been forwarded. */
  ghost predicate PurgeState(store0: map<string, GrossPay>, fw0: seq<Forwarded>,
                             store: map<string, GrossPay>, fw: seq<Forwarded>, id: string, done: set<string>) {
    done <= PrefixedKeys(store0, id) && AllPeriodsRead(done)
    && store == store0 - done
    && |fw0| <= |fw| && fw[..|fw0|] == fw0
    && SentTombstones(fw[|fw0|..], id, done)
  }

  lemma PurgeStart(store: map<string, GrossPay>, fw: seq<Forwarded>, id: string)
    ensures PurgeState(store, fw, store, fw, id, {})
  {
    assert fw[|fw|..] == [];
    assert store - {} == store;
  }

  lemma PurgeStep(store0: map<string, GrossPay>, fw0: seq<Forwarded>,
                  store: map<string, GrossPay>, fw: seq<Forwarded>, id: string, done: set<string>, key: string)
    requires PurgeState(store0, fw0, store, fw, id, done)
    requires key in PrefixedKeys(store0, id) && key !in done && KeyPeriod(key).Some?
    ensures PurgeState(store0, fw0, store - {key}, fw + [Tombstone(OutputKey(id, KeyPeriod(key).value))], id, done + {key})
  {
    var tomb := Tombstone(OutputKey(id, KeyPeriod(key).value));
    assert (fw + [tomb])[|fw0|..] == fw[|fw0|..] + [tomb];
    assert (fw + [tomb])[..|fw0|] == fw[..|fw0|];
    SentTombstonesAdd(fw[|fw0|..], id, done, key);
    assert store - {key} == store0 - (done + {key});
  }

  /** `sent` holds one tombstone per key in `done`, and no other record. */
  ghost predicate SentTombstones(sent: seq<Forwarded>, id: string, done: set<string>) {
    |sent| == |done| && forall o :: o in sent <==> o in Tombstones(id, done)
  }

  lemma SentTombstonesAdd(sent: seq<Forwarded>, id: string, done: set<string>, key: string)
    requires SentTombstones(sent, id, done) && key !in done && KeyPeriod(key).Some?
    ensures SentTombstones(sent + [Tombstone(OutputKey(id, KeyPeriod(key).value))], id, done + {key})
  {
    assert |done + {key}| == |done| + 1;
    assert Tombstones(id, done + {key}) == Tombstones(id, done) + {Tombstone(OutputKey(id, KeyPeriod(key).value))};
  }

  lemma DeactivationAborted(s: Stores, t: Stores, data: Node, id: string, done: set<string>)
    requires AsTextOr(Path(data, "Id"), None) == Some(id)
    requires DeactivationPartial(s, t, id, done)
    requires !AllPeriodsRead(PrefixedKeys(s.grossPay, id))
    ensures DeactivationStep(s, t, data)
  {
    assert forall o :: o in Tombstones(id, done) ==> o in Tombstones(id, PrefixedKeys(s.grossPay, id));
  }

  lemma DeactivationCompleted(s: Stores, t: Stores, data: Node, id: string)
    requires AsTextOr(Path(data, "Id"), None) == Some(id)
    requires DeactivationPartial(s, t, id, PrefixedKeys(s.grossPay, id))
    ensures DeactivationStep(s, t.(taxConfig := t.taxConfig - {id}, deductions := t.deductions - {id}), data)
  {
  }

  /** With colon-free ids, a deactivation removes exactly the employee's gross pay, forwards a
      tombstone for each of its periods and nothing else, and leaves no pay of the employee. */
  lemma DeactivationClearsEmployee(s: Stores, t: Stores, data: Node, id: string)
    requires WellKeyed(s.grossPay) && ColonFreeIds(s.grossPay)
    requires AsTextOr(Path(data, "Id"), None) == Some(id)
    requires DeactivationStep(s, t, data)
    ensures forall k :: k in t.grossPay <==> k in s.grossPay && s.grossPay[k].employeeId != id
    ensures forall k :: k in t.grossPay ==> t.grossPay[k].employeeId != id
    ensures id !in t.taxConfig && id !in t.deductions && id in t.deactivated
    ensures forall o :: o in t.forwarded[|s.forwarded|..] <==>
      exists k :: k in s.grossPay && s.grossPay[k].employeeId == id
        && o == Tombstone(OutputKey(id, s.grossPay[k].payPeriodNumber))
  {
    PrefixedKeysAreEmployeePeriods(s.grossPay, id);
    assert AllPeriodsRead(PrefixedKeys(s.grossPay, id));
    EmployeeTombstones(s.grossPay, id);
  }

  /** With colon-free ids, the tombstones for the selected keys are one per period of the
      employee's stored gross pay. */
  lemma EmployeeTombstones(store: map<string, GrossPay>, id: string)
    requires WellKeyed(store) && ColonFreeIds(store)
    ensures forall o :: o in Tombstones(id, PrefixedKeys(store, id)) <==>
      exists k :: k in store && store[k].employeeId == id
        && o == Tombstone(OutputKey(id, store[k].payPeriodNumber))
  {
    PrefixedKeysAreEmployeePeriods(store, id);
    var selected := PrefixedKeys(store, id);
    forall o | o in Tombstones(id, selected)
      ensures exists k :: k in store && store[k].employeeId == id
                && o == Tombstone(OutputKey(id, store[k].payPeriodNumber))
    {
      var k :| k in selected && KeyPeriod(k).Some? && o == Tombstone(OutputKey(id, KeyPeriod(k).value));
      assert k in store && store[k].employeeId == id;
    }
    forall o | exists k :: k in store && store[k].employeeId == id
                 && o == Tombstone(OutputKey(id, store[k].payPeriodNumber))
      ensures o in Tombstones(id, selected)
    {
      var k :| k in store && store[k].employeeId == id
        && o == Tombstone(OutputKey(id, store[k].payPeriodNumber));
      assert k in selected && KeyPeriod(k) == Some(store[k].payPeriodNumber);
    }
  }

  /** `handleTaxInfoEvent`: the configuration is replaced, with "Single", "" and 0 for absent
      fields, and the current period recomputed when its gross pay is stored. */
  function TaxInfoEffect(s: Stores, data: Node, nowMs: int): (t: Stores)
    ensures t.grossPay == s.grossPay && t.deductions == s.deductions && t.deactivated == s.deactivated
    ensures AsTextOr(Path(data, "EmployeeId"), None).None? ==> t == s
    ensures AsTextOr(Path(data, "EmployeeId"), None).Some? ==>
      var id := AsTextOr(Path(data, "EmployeeId"), None).value;
      t.taxConfig.Keys == s.taxConfig.Keys + {id} && t.taxConfig[id].employeeId == id
      && (forall e :: e in s.taxConfig && e != id ==> t.taxConfig[e] == s.taxConfig[e])
      && t.forwarded == s.forwarded + (if StoreKey(id, GetCurrentPayPeriod(nowMs)) in s.grossPay
                                        then [NetPayEmitted(OutputKey(id, GetCurrentPayPeriod(nowMs)))] else [])
    ensures AsTextOr(Path(data, "EmployeeId"), None).Some? ==>
      var cfg := t.taxConfig[AsTextOr(Path(data, "EmployeeId"), None).value];
      && AsTextOr(Path(data, "FederalFilingStatus"), Some("Single")) == Some(cfg.federalFilingStatus)
      && AsTextOr(Path(data, "State"), Some("")) == Some(cfg.state)
      && cfg.additionalFederalWithholding == AsDoubleOr(Path(data, "AdditionalFederalWithholding"), 0.0)
      && cfg.additionalStateWithholding == AsDoubleOr(Path(data, "AdditionalStateWithholding"), 0.0)
      && (Path(data, "FederalFilingStatus").Missing? ==> cfg.federalFilingStatus == "Single")
      && (Path(data, "State").Missing? ==> cfg.state == "")
      && (Path(data, "AdditionalFederalWithholding").Missing? ==> cfg.additionalFederalWithholding == 0.0)
      && (Path(data, "AdditionalStateWithholding").Missing? ==> cfg.additionalStateWithholding == 0.0)
  {
    match AsTextOr(Path(data, "EmployeeId"), None)
    case None => s
    case Some(id) =>
      var tc := TaxConfig(id,
        AsTextOrElse(Path(data, "FederalFilingStatus"), "Single"),
        AsTextOrElse(Path(data, "State"), ""),
        AsDoubleOr(Path(data, "AdditionalFederalWithholding"), 0.0),
        AsDoubleOr(Path(data, "AdditionalStateWithholding"), 0.0));
      Recompute(s.(taxConfig := s.taxConfig[id := tc]), id, GetCurrentPayPeriod(nowMs))
  }

  /** The entry a deduction event puts: a deactivation keeps the previous amount and
      percentage flag (0 and false when there is none) and marks it inactive; any other event
      takes the payload, active unless it says otherwise. */
  function DeductionEntryFor(m: map<string, DeductionEntry>, deductionId: string, data: Node, eventType: string): (e: DeductionEntry)
    ensures eventType == "deduction.deactivated" ==> (
      !e.isActive
      && (deductionId in m ==> e.amount == m[deductionId].amount && e.isPercentage == m[deductionId].isPercentage)
      && (deductionId !in m ==> e.amount == 0.0 && !e.isPercentage))
    ensures eventType != "deduction.deactivated" ==> (
      e.amount == AsDoubleOr(Path(data, "Amount"), 0.0)
      && e.isActive == AsBooleanOr(Path(data, "IsActive"), true)
      && e.isPercentage == AsBooleanOr(Path(data, "IsPercentage"), false)
      && (Path(data, "Amount").Missing? ==> e.amount == 0.0)
      && (Path(data, "IsActive").Missing? ==> e.isActive)
      && (Path(data, "IsPercentage").Missing? ==> !e.isPercentage))
  {
    if eventType == "deduction.deactivated" then
      DeductionEntry(
        if deductionId in m then m[deductionId].amount else 0.0,
        deductionId in m && m[deductionId].isPercentage,
        false)
    else
      DeductionEntry(
        AsDoubleOr(Path(data, "Amount"), 0.0),
        AsBooleanOr(Path(data, "IsPercentage"), false),
        AsBooleanOr(Path(data, "IsActive"), true))
  }

  /** The employee's deduction map (new when absent) with the event's entry put under `did`. */
  function WithDeduction(store: map<string, DeductionMapData>, eid: string, did: string, data: Node, eventType: string): (dm: DeductionMapData)
    ensures var before := if eid in store then store[eid].deductions else map[];
      dm.deductions == before[did := DeductionEntryFor(before, did, data, eventType)]
  {
    var dm := if eid in store then store[eid] else DeductionMapData(eid, map[]);
    dm.(deductions := dm.deductions[did := DeductionEntryFor(dm.deductions, did, data, eventType)])
  }

  /** `handleDeductionEvent` on the stores: the employee's map (new when absent) gets the
      entry, and the current period is recomputed when its gross pay is stored. */
  function DeductionEffect(s: Stores, data: Node, eventType: string, nowMs: int): (t: Stores)
    ensures t.grossPay == s.grossPay && t.taxConfig == s.taxConfig && t.deactivated == s.deactivated
    ensures AsTextOr(Path(data, "EmployeeId"), None).None? || AsTextOr(Path(data, "Id"), None).None? ==> t == s
    ensures AsTextOr(Path(data, "EmployeeId"), None).Some? && AsTextOr(Path(data, "Id"), None).Some? ==>
      var eid := AsTextOr(Path(data, "EmployeeId"), None).value;
      var did := AsTextOr(Path(data, "Id"), None).value;
      var before := if eid in s.deductions then s.deductions[eid].deductions else map[];
      t.deductions.Keys == s.deductions.Keys + {eid}
      && t.deductions[eid].deductions == before[did := DeductionEntryFor(before, did, data, eventType)]
      && (forall e :: e in s.deductions && e != eid ==> t.deductions[e] == s.deductions[e])
  {
    match (AsTextOr(Path(data, "EmployeeId"), None), AsTextOr(Path(data, "Id"), None))
    case (Some(eid), Some(did)) =>
      Recompute(s.(deductions := s.deductions[eid := WithDeduction(s.deductions, eid, did, data, eventType)]), eid, GetCurrentPayPeriod(nowMs))
    case _ => s
  }

  /** A `deduction.deactivated` event takes the deduction out of both totals and changes no
      other deduction's contribution. */
  lemma DeactivatedDeductionLeavesTotals(s: Stores, data: Node, nowMs: int, percent: bool, grossPay: real)
    requires AsTextOr(Path(data, "EmployeeId"), None).Some? && AsTextOr(Path(data, "Id"), None).Some?
    ensures
      var eid := AsTextOr(Path(data, "EmployeeId"), None).value;
      var did := AsTextOr(Path(data, "Id"), None).value;
      var before := if eid in s.deductions then s.deductions[eid].deductions else map[];
      var t := DeductionEffect(s, data, "deduction.deactivated", nowMs);
      Total(t.deductions[eid].deductions, percent, grossPay) == Total(before - {did}, percent, grossPay)
  {
    var eid := AsTextOr(Path(data, "EmployeeId"), None).value;
    var did := AsTextOr(Path(data, "Id"), None).value;
    var before := if eid in s.deductions then s.deductions[eid].deductions else map[];
    InactiveEntryIgnored(before, did, DeductionEntryFor(before, did, data, "deduction.deactivated"), percent, grossPay);
  }

  /** `handleEmployeeEvent`: deactivation, tax and deduction events are dispatched;
      `employee.created`, every other type and an ignored record change nothing. */
  ghost predicate EmployeeEventStep(s: Stores, t: Stores, parse: Parser, value: string, nowMs: int) {
    match EmployeeEventOf(parse, value)
    case None => t == s
    case Some((eventType, data)) =>
      if eventType == "employee.created" then t == s
      else if eventType == "employee.deactivated" then DeactivationStep(s, t, data)
      else if StartsWith(eventType, "taxinfo.") then t == TaxInfoEffect(s, data, nowMs)
      else if StartsWith(eventType, "deduction.") then t == DeductionEffect(s, data, eventType, nowMs)
      else t == s
  }

  /** `employee.created` changes no state. */
  lemma CreatedChangesNothing(s: Stores, t: Stores, parse: Parser, value: string, nowMs: int)
    requires EmployeeEventOf(parse, value).Some? && EmployeeEventOf(parse, value).value.0 == "employee.created"
    requires EmployeeEventStep(s, t, parse, value, nowMs)
    ensures t == s
  {
  }

  class NetPayProcessor {
    var grossPayStore: map<string, GrossPay>
    var taxConfigStore: map<string, TaxConfig>
    var deductionStore: map<string, DeductionMapData>
    var deactivatedEmployees: set<string>
    /** Every record forwarded downstream, in order. */
    var forwarded: seq<Forwarded>

    function Snapshot(): Stores
      reads this
    {
      Stores(grossPayStore, taxConfigStore, deductionStore, deactivatedEmployees, forwarded)
    }

    ghost predicate Valid()
      reads this
    {
      WellKeyed(grossPayStore)
    }

    constructor()
      ensures Valid()
      ensures Snapshot() == Stores(map[], map[], map[], {}, [])
    {
      grossPayStore := map[];
      taxConfigStore := map[];
      deductionStore := map[];
      deactivatedEmployees := {};
      forwarded := [];
    }

    /** `process`: a record with a null value is ignored; otherwise the source decides the
        handler, and an exception in it is caught with whatever it had changed kept. */
    method Process(parse: Parser, sourceName: string, key: Option<string>, value: Option<string>, nowMs: int)
      requires Valid()
      modifies this
      ensures Valid()
      ensures value.None? ==> Snapshot() == old(Snapshot())
      ensures value.Some? && sourceName == GrossPaySourceName ==>
        Snapshot() == GrossPayEffect(old(Snapshot()), parse, key, value.value)
      ensures value.Some? && sourceName != GrossPaySourceName ==>
        EmployeeEventStep(old(Snapshot()), Snapshot(), parse, value.value, nowMs)
    {
      if value.None? {
        return;
      }
      if sourceName == GrossPaySourceName {
        HandleGrossPay(parse, key, value.value);
      } else {
        HandleEmployeeEvent(parse, value.value, nowMs);
      }
    }

    method HandleGrossPay(parse: Parser, key: Option<string>, value: string)
      requires Valid()
      modifies this
      ensures Valid()
      ensures Snapshot() == GrossPayEffect(old(Snapshot()), parse, key, value)
    {
      var k := GrossPayKey(parse, key);
      var v := ReadTree(parse, value);
      if k.None? || v.None? {
        return;
      }
      var employeeId := k.value.employeeId;
      var period := k.value.payPeriodNumber;
      if employeeId in deactivatedEmployees {
        forwarded := forwarded + [Tombstone(k.value)];
        return;
      }
      var gp := GrossPayOf(employeeId, period, v.value);
      grossPayStore := grossPayStore[StoreKey(employeeId, period) := gp];
      ComputeAndEmit(employeeId, period);
    }

    /** `computeAndEmit`, its figures left out. */
    method ComputeAndEmit(employeeId: string, period: int)
      modifies this
      ensures Snapshot() == Recompute(old(Snapshot()), employeeId, period)
    {
      if StoreKey(employeeId, period) in grossPayStore {
        forwarded := forwarded + [NetPayEmitted(OutputKey(employeeId, period))];
      }
    }

    method HandleEmployeeEvent(parse: Parser, value: string, nowMs: int)
      requires Valid()
      modifies this
      ensures Valid()
      ensures EmployeeEventStep(old(Snapshot()), Snapshot(), parse, value, nowMs)
    {
      var event := EmployeeEventOf(parse, value);
      if event.None? {
        return;
      }
      var (eventType, data) := event.value;
      if eventType == "employee.created" {
        // the deactivated set was built from the full history; nothing to do
      } else if eventType == "employee.deactivated" {
        HandleEmployeeDeactivated(data);
      } else if StartsWith(eventType, "taxinfo.") {
        HandleTaxInfoEvent(data, nowMs);
      } else if StartsWith(eventType, "deduction.") {
        HandleDeductionEvent(data, eventType, nowMs);
      }
    }

    method HandleEmployeeDeactivated(data: Node)
      requires Valid()
      modifies this
      ensures Valid()
      ensures DeactivationStep(old(Snapshot()), Snapshot(), data)
    {
      var employeeId := AsTextOr(Path(data, "Id"), None);
      if employeeId.None? {
        return;
      }
      var id := employeeId.value;
      ghost var s0 := Snapshot();
      var complete, done := DeactivateAndPurge(id);
      ghost var purged := Snapshot();
      if !complete {
        DeactivationAborted(s0, purged, data, id, done);
        return;
      }
      DeactivationCompleted(s0, purged, data, id);
      DropEmployeeConfig(id);
      assert Snapshot() == purged.(taxConfig := purged.taxConfig - {id}, deductions := purged.deductions - {id});
    }

    /** The first half of a deactivation: the id is marked deactivated and its gross pay
        purged. */
    method DeactivateAndPurge(id: string) returns (complete: bool, ghost done: set<string>)
      requires Valid()
      modifies this`deactivatedEmployees, this`grossPayStore, this`forwarded
      ensures Valid()
      ensures DeactivationPartial(old(Snapshot()), Snapshot(), id, done)
      ensures complete <==> AllPeriodsRead(PrefixedKeys(old(grossPayStore), id))
      ensures complete ==> done == PrefixedKeys(old(grossPayStore), id)
    {
      ghost var s0 := Snapshot();
      deactivatedEmployees := deactivatedEmployees + {id};
      complete, done := PurgeGrossPay(id);
      WellKeyedAfterRemoval(s0.grossPay, done);
      assert DeactivationPartial(s0, Snapshot(), id, done);
    }

    /** The tax configuration and deduction map of the employee are dropped. */
    method DropEmployeeConfig(id: string)
      modifies this`taxConfigStore, this`deductionStore
      ensures taxConfigStore == old(taxConfigStore) - {id} && deductionStore == old(deductionStore) - {id}
    {
      taxConfigStore := taxConfigStore - {id};
      deductionStore := deductionStore - {id};
    }

    /** The removal loop of a deactivation: each key starting `id + ":"` has its period read
        back, a tombstone forwarded and the key removed, in no particular order. `complete` is
        false when a period could not be read: the loop stops there, `done` holding the keys
        already removed. */
    method PurgeGrossPay(id: string) returns (complete: bool, ghost done: set<string>)
      modifies this`grossPayStore, this`forwarded
      ensures PurgeState(old(grossPayStore), old(forwarded), grossPayStore, forwarded, id, done)
      ensures complete <==> AllPeriodsRead(PrefixedKeys(old(grossPayStore), id))
      ensures complete ==> done == PrefixedKeys(old(grossPayStore), id)
    {
      ghost var store0, fw0 := grossPayStore, forwarded;
      var keysToRemove := PrefixedKeys(grossPayStore, id);
      done := {};
      PurgeStart(grossPayStore, forwarded, id);
      var remaining := keysToRemove;
      while remaining != {}
        invariant remaining <= keysToRemove && done + remaining == keysToRemove && done !! remaining
        invariant PurgeState(store0, fw0, grossPayStore, forwarded, id, done)
        decreases remaining
      {
        var key :| key in remaining;
        var period := KeyPeriod(key);
        if period.None? {
          assert !AllPeriodsRead(keysToRemove) by {
            assert key in keysToRemove;
          }
          return false, done;
        }
        PurgeStep(store0, fw0, grossPayStore, forwarded, id, done, key);
        forwarded := forwarded + [Tombstone(OutputKey(id, period.value))];
        grossPayStore := grossPayStore - {key};
        remaining := remaining - {key};
        done := done + {key};
      }
      return true, done;
    }

    method HandleTaxInfoEvent(data: Node, nowMs: int)
      requires Valid()
      modifies this
      ensures Valid()
      ensures Snapshot() == TaxInfoEffect(old(Snapshot()), data, nowMs)
    {
      var employeeId := AsTextOr(Path(data, "EmployeeId"), None);
      if employeeId.None? {
        return;
      }
      var id := employeeId.value;
      var tc := TaxConfig(id,
        AsTextOrElse(Path(data, "FederalFilingStatus"), "Single"),
        AsTextOrElse(Path(data, "State"), ""),
        AsDoubleOr(Path(data, "AdditionalFederalWithholding"), 0.0),
        AsDoubleOr(Path(data, "AdditionalStateWithholding"), 0.0));
      taxConfigStore := taxConfigStore[id := tc];
      var currentPeriod := GetCurrentPayPeriod(nowMs);
      if StoreKey(id, currentPeriod) in grossPayStore {
        ComputeAndEmit(id, currentPeriod);
      }
    }

    /** Loads the employee's deduction map (or starts one), puts the event's entry and stores
        the map back. */
    method StoreDeduction(eid: string, did: string, data: Node, eventType: string)
      modifies this`deductionStore
      ensures deductionStore == old(deductionStore)[eid := WithDeduction(old(deductionStore), eid, did, data, eventType)]
    {
      var dm: DeductionMap;
      if eid in deductionStore {
        dm := new DeductionMap.Load(deductionStore[eid]);
      } else {
        dm := new DeductionMap(eid);
      }
      assert dm.Data() == if eid in deductionStore then deductionStore[eid] else DeductionMapData(eid, map[]);
      ghost var before := dm.deductions;
      if eventType == "deduction.deactivated" {
        dm.PutDeduction(did,
          if did in dm.deductions then dm.deductions[did].amount else 0.0,
          did in dm.deductions && dm.deductions[did].isPercentage,
          false);
      } else {
        dm.PutDeduction(did,
          AsDoubleOr(Path(data, "Amount"), 0.0),
          AsBooleanOr(Path(data, "IsPercentage"), false),
          AsBooleanOr(Path(data, "IsActive"), true));
      }
      assert dm.deductions == before[did := DeductionEntryFor(before, did, data, eventType)];
      deductionStore := deductionStore[eid := dm.Data()];
    }

    method HandleDeductionEvent(data: Node, eventType: string, nowMs: int)
      requires Valid()
      modifies this
      ensures Valid()
      ensures Snapshot() == DeductionEffect(old(Snapshot()), data, eventType, nowMs)
    {
      var employeeId := AsTextOr(Path(data, "EmployeeId"), None);
      var deductionId := AsTextOr(Path(data, "Id"), None);
      if employeeId.None? || deductionId.None? {
        return;
      }
      var eid := employeeId.value;
      var did := deductionId.value;
      StoreDeduction(eid, did, data, eventType);
      var currentPeriod := GetCurrentPayPeriod(nowMs);
      if StoreKey(eid, currentPeriod) in grossPayStore {
        ComputeAndEmit(eid, currentPeriod);
      }
    }
  }
}

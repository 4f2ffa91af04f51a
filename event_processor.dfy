/** The listener's event processor: projects employee domain events into the read model, guarded
    against duplicates and stale deliveries, and records the latest pay figures per employee. */
module EventProcessing {
  import opened Wrappers
  import opened Text
  import Guids
  import Clock
  import opened ReadModel
  import opened SubscriptionPublisher

  /** One element of the nested `DomainEvents` list of an entity snapshot. */
  datatype DomainEventInfo = DomainEventInfo(eventId: Guids.Guid, occurredOn: Clock.DateTime, eventType: string)

  /** The bound message body: the direct event fields, the entity fields, and the nested events
      an entity snapshot carries (`None` when the property is absent). */
  datatype EmployeeEventPayload = EmployeeEventPayload(
    eventId: Guids.Guid, occurredOn: Clock.DateTime, eventType: string, employeeId: Guids.Guid,
    id: Guids.Guid, firstName: string, lastName: string, email: string,
    payType: Option<int>, payRate: Option<real>, payPeriodHours: Option<real>, isActive: bool,
    domainEvents: Option<seq<DomainEventInfo>>)

  datatype EventInfo = EventInfo(employeeId: Guids.Guid, eventId: Guids.Guid, eventType: string, occurredOn: Clock.DateTime)

  /** The payload carries its own event identity and type. */
  predicate HasDirectFields(p: EmployeeEventPayload) {
    p.eventId != Guids.Empty && p.eventType != ""
  }

  /** `ResolveEventInfo`: the direct fields when both identity and type are set; otherwise the entity
      identity with the first nested event; with no nested event, an empty identity and type at `now`. */
  function ResolveEventInfo(p: EmployeeEventPayload, now: Clock.DateTime): (r: EventInfo)
    ensures HasDirectFields(p) ==> r == EventInfo(p.employeeId, p.eventId, p.eventType, p.occurredOn)
    ensures !HasDirectFields(p) ==> r.employeeId == p.id
    ensures !HasDirectFields(p) && p.domainEvents.Some? && |p.domainEvents.value| > 0 ==>
      (var e := p.domainEvents.value[0]; r.eventId == e.eventId && r.eventType == e.eventType && r.occurredOn == e.occurredOn)
    ensures !HasDirectFields(p) && (p.domainEvents.None? || |p.domainEvents.value| == 0) ==>
      r == EventInfo(p.id, Guids.Empty, "", now)
  {
    if HasDirectFields(p) then EventInfo(p.employeeId, p.eventId, p.eventType, p.occurredOn)
    else if p.domainEvents.Some? && |p.domainEvents.value| > 0 then
      var e := p.domainEvents.value[0];
      EventInfo(p.id, e.eventId, e.eventType, e.occurredOn)
    else EventInfo(p.id, Guids.Empty, "", now)
  }

  /** The clock is consulted only when nothing identifies the event, and then the type is empty. */
  lemma ResolutionIgnoresClock(p: EmployeeEventPayload, now1: Clock.DateTime, now2: Clock.DateTime)
    requires ResolveEventInfo(p, now1).eventType != ""
    ensures ResolveEventInfo(p, now1) == ResolveEventInfo(p, now2)
  {
  }

  const EmployeeCreatedType: string := "employee.created"
  const EmployeeUpdatedType: string := "employee.updated"
  const EmployeeDeactivatedType: string := "employee.deactivated"
  const EmployeeActivatedType: string := "employee.activated"

  /** The four tags the projection handles. */
  predicate IsKnownType(t: string) {
    t == EmployeeCreatedType || t == EmployeeUpdatedType || t == EmployeeDeactivatedType || t == EmployeeActivatedType
  }

  /** What the processor does with one delivery. */
  datatype Decision =
    | SkipDuplicate
    | SkipStale
    | SkipUnknownType
    | Apply(record: EmployeeRecord, deletesPayAttributes: bool)

  /** The new record for a known event: business fields by type, then the tracking fields. */
  function Project(base: EmployeeRecord, isNew: bool, p: EmployeeEventPayload, info: EventInfo, now: Clock.DateTime): (r: EmployeeRecord)
    requires IsKnownType(info.eventType)
    ensures r.id == base.id && r.payAttributes == base.payAttributes
    ensures r.lastEventType == info.eventType && r.lastEventTimestamp == info.occurredOn
    ensures r.lastEventId == info.eventId && r.updatedAt == now
    ensures r.createdAt == (if isNew then now else base.createdAt)
    ensures (info.eventType == EmployeeCreatedType || info.eventType == EmployeeUpdatedType) ==> (
      r.firstName == p.firstName && r.lastName == p.lastName && r.email == p.email
      && r.payType == (if p.payType.Some? then IntToString(p.payType.value) else "")
      && r.payRate == p.payRate && r.payPeriodHours == p.payPeriodHours.GetOr(40.0)
      && r.isActive == p.isActive)
    ensures info.eventType == EmployeeDeactivatedType || info.eventType == EmployeeActivatedType ==> (
      r.isActive == (info.eventType == EmployeeActivatedType)
      && r.firstName == base.firstName && r.lastName == base.lastName && r.email == base.email
      && r.payType == base.payType && r.payRate == base.payRate && r.payPeriodHours == base.payPeriodHours)
  {
    var t := info.eventType;
    var b :=
      if t == EmployeeCreatedType || t == EmployeeUpdatedType then
        base.(firstName := p.firstName, lastName := p.lastName, email := p.email,
              payType := if p.payType.Some? then IntToString(p.payType.value) else "",
              payRate := p.payRate, payPeriodHours := p.payPeriodHours.GetOr(40.0), isActive := p.isActive)
      else base.(isActive := t == EmployeeActivatedType);
    b.(lastEventType := t, lastEventTimestamp := info.occurredOn, lastEventId := info.eventId,
       updatedAt := now, createdAt := if isNew then now else base.createdAt)
  }

  /** The guard and the state machine of `ProcessEmployeeEventAsync` over the stored records:
      a stored record with the same last event id, or a last timestamp at or after the incoming
      one, skips the delivery; an unknown tag skips it too; otherwise the projected record. */
  function Decide(records: map<Guids.Guid, EmployeeRecord>, p: EmployeeEventPayload, now: Clock.DateTime): (d: Decision)
    requires RecordsKeyedById(records)
    ensures var info := ResolveEventInfo(p, now);
      && (d == SkipDuplicate <==> info.employeeId in records && records[info.employeeId].lastEventId == info.eventId)
      && (d == SkipStale <==> (info.employeeId in records && records[info.employeeId].lastEventId != info.eventId
                               && records[info.employeeId].lastEventTimestamp >= info.occurredOn))
      && (d == SkipUnknownType <==> (!IsKnownType(info.eventType)
           && (info.employeeId in records ==> (records[info.employeeId].lastEventId != info.eventId
                                                && records[info.employeeId].lastEventTimestamp < info.occurredOn))))
    ensures d.Apply? ==> (
      var info := ResolveEventInfo(p, now);
      IsKnownType(info.eventType) && d.record.id == info.employeeId
      && d.deletesPayAttributes == (info.eventType == EmployeeDeactivatedType)
      && (info.employeeId in records ==> d.record.lastEventTimestamp > records[info.employeeId].lastEventTimestamp))
    ensures d.Apply? ==> (
      var info := ResolveEventInfo(p, now);
      var isNew := info.employeeId !in records;
      d.record == Project(if isNew then NewRecord(info.employeeId) else records[info.employeeId], isNew, p, info, now))
  {
    var info := ResolveEventInfo(p, now);
    var existing := if info.employeeId in records then Some(records[info.employeeId]) else None;
    if existing.Some? && existing.value.lastEventId == info.eventId then SkipDuplicate
    else if existing.Some? && existing.value.lastEventTimestamp >= info.occurredOn then SkipStale
    else if !IsKnownType(info.eventType) then SkipUnknownType
    else
      var base := existing.GetOr(NewRecord(info.employeeId));
      Apply(Project(base, existing.None?, p, info, now), info.eventType == EmployeeDeactivatedType)
  }

  /** Every stored record is kept under its own identity. */
  predicate RecordsKeyedById(records: map<Guids.Guid, EmployeeRecord>) {
    forall k :: k in records ==> records[k].id == k
  }

  /** Redelivering an applied event, at any later time, is recognised as a duplicate. */
  lemma {:induction false} RedeliveryIsDuplicate(records: map<Guids.Guid, EmployeeRecord>, p: EmployeeEventPayload,
                                                 now: Clock.DateTime, later: Clock.DateTime)
    requires RecordsKeyedById(records) && Decide(records, p, now).Apply?
    ensures var rec := Decide(records, p, now).record;
      Decide(records[rec.id := rec], p, later) == SkipDuplicate
  {
    var info := ResolveEventInfo(p, now);
    ResolutionIgnoresClock(p, now, later);
    var rec := Decide(records, p, now).record;
    assert rec.lastEventId == info.eventId by {
      var existing := if info.employeeId in records then Some(records[info.employeeId]) else None;
      var base := existing.GetOr(NewRecord(info.employeeId));
      assert rec == Project(base, existing.None?, p, info, now);
    }
  }

  /** Once an event is applied, any other event for the same employee that is not strictly newer
      is skipped. */
  lemma {:induction false} OlderEventSkippedAfterApply(records: map<Guids.Guid, EmployeeRecord>, p: EmployeeEventPayload,
                                                       q: EmployeeEventPayload, now: Clock.DateTime, later: Clock.DateTime)
    requires RecordsKeyedById(records) && Decide(records, p, now).Apply?
    requires ResolveEventInfo(q, later).employeeId == ResolveEventInfo(p, now).employeeId
    requires ResolveEventInfo(q, later).occurredOn <= ResolveEventInfo(p, now).occurredOn
    ensures var rec := Decide(records, p, now).record;
      !Decide(records[rec.id := rec], q, later).Apply?
  {
    var info := ResolveEventInfo(p, now);
    var rec := Decide(records, p, now).record;
    assert rec.lastEventTimestamp == info.occurredOn by {
      var existing := if info.employeeId in records then Some(records[info.employeeId]) else None;
      var base := existing.GetOr(NewRecord(info.employeeId));
      assert rec == Project(base, existing.None?, p, info, now);
    }
  }

  /** The outcome the processor reports, for the statement of its behaviour. */
  datatype Outcome = Duplicate | Stale | UnknownType | Applied

  /** The bound net-pay message body. */
  datatype NetPayEventPayload = NetPayEventPayload(
    employeeId: string, payPeriodNumber: int,
    grossPay: real, federalTax: real, stateTax: real,
    additionalFederalWithholding: real, additionalStateWithholding: real, totalTax: real,
    totalFixedDeductions: real, totalPercentDeductions: real, totalDeductions: real, netPay: real,
    payRate: real, payType: Option<string>, totalHoursWorked: real,
    payPeriodStart: Option<string>, payPeriodEnd: Option<string>)

  /** The pay attributes built from a net-pay message: every figure copied, absent texts empty. */
  function PayAttributesOf(employeeId: Guids.Guid, p: NetPayEventPayload, now: Clock.DateTime): (a: EmployeePayAttributes)
    ensures a.employeeId == employeeId && a.payPeriodNumber == p.payPeriodNumber && a.updatedAt == now
    ensures a.grossPay == p.grossPay && a.netPay == p.netPay && a.payRate == p.payRate
    ensures a.federalTax == p.federalTax && a.stateTax == p.stateTax && a.totalTax == p.totalTax
    ensures a.additionalFederalWithholding == p.additionalFederalWithholding
    ensures a.additionalStateWithholding == p.additionalStateWithholding
    ensures a.totalFixedDeductions == p.totalFixedDeductions && a.totalPercentDeductions == p.totalPercentDeductions
    ensures a.totalDeductions == p.totalDeductions && a.totalHoursWorked == p.totalHoursWorked
    ensures p.payType.Some? ==> a.payType == p.payType.value
    ensures p.payPeriodStart.Some? ==> a.payPeriodStart == p.payPeriodStart.value
    ensures p.payPeriodEnd.Some? ==> a.payPeriodEnd == p.payPeriodEnd.value
    ensures p.payType.None? ==> a.payType == ""
    ensures p.payPeriodStart.None? ==> a.payPeriodStart == ""
    ensures p.payPeriodEnd.None? ==> a.payPeriodEnd == ""
  {
    EmployeePayAttributes(employeeId, p.payPeriodNumber, p.grossPay, p.federalTax, p.stateTax,
      p.additionalFederalWithholding, p.additionalStateWithholding, p.totalTax,
      p.totalFixedDeductions, p.totalPercentDeductions, p.totalDeductions, p.netPay,
      p.payRate, p.payType.GetOr(""), p.totalHoursWorked,
      p.payPeriodStart.GetOr(""), p.payPeriodEnd.GetOr(""), now)
  }

  datatype NetPayOutcome = InvalidEmployeeId | OlderPeriod | Upserted

  class EventProcessor {
    var records: map<Guids.Guid, EmployeeRecord>
    /** At most one pay-attribute row per employee, keyed by the employee. */
    var payAttributes: map<Guids.Guid, EmployeePayAttributes>
    const publisher: InMemorySubscriptionPublisher

    predicate Valid()
      reads this
    {
      RecordsKeyedById(records) && forall k :: k in payAttributes ==> payAttributes[k].employeeId == k
    }

    constructor(publisher: InMemorySubscriptionPublisher)
      ensures Valid() && this.publisher == publisher
      ensures records == map[] && payAttributes == map[]
    {
      records := map[];
      payAttributes := map[];
      this.publisher := publisher;
    }

    /** `ProcessEmployeeEventAsync`. A skipped delivery changes neither store and publishes
        nothing. An applied one stores the projected record (insert or update), deletes the pay
        attributes on deactivation, and then publishes the record with the raw tag; a failing send
        surfaces as an error after the store write. */
    method ProcessEmployeeEvent(p: EmployeeEventPayload, now: Clock.DateTime, sendFails: bool)
      returns (r: Result<Outcome, PublishError>)
      requires Valid()
      modifies this, publisher
      ensures Valid()
      ensures var d := Decide(old(records), p, now);
        && (d == SkipDuplicate ==> r == Ok(Duplicate))
        && (d == SkipStale ==> r == Ok(Stale))
        && (d == SkipUnknownType ==> r == Ok(UnknownType))
        && (!d.Apply? ==> (records == old(records) && payAttributes == old(payAttributes)
                           && publisher.sent == old(publisher.sent)))
    ensures var d := Decide(old(records), p, now);
        d.Apply? ==> (
          && records == old(records)[d.record.id := d.record]
          && payAttributes == (if d.deletesPayAttributes then old(payAttributes) - {d.record.id} else old(payAttributes))
          && (r.Err? <==> sendFails) && (r.Ok? ==> r.value == Applied)
          && publisher.sent == old(publisher.sent)
               + (if sendFails then [] else [ChangeMessage(EmployeeChangesTopic, EmployeeChange(d.record, ChangeType(d.record.lastEventType), now))]))
    {
      var info := ResolveEventInfo(p, now);
      var existing := if info.employeeId in records then Some(records[info.employeeId]) else None;
      if existing.Some? {
        if existing.value.lastEventId == info.eventId {
          assert Decide(records, p, now) == SkipDuplicate;
          return Ok(Duplicate);
        }
        if existing.value.lastEventTimestamp >= info.occurredOn {
          assert Decide(records, p, now) == SkipStale;
          return Ok(Stale);
        }
      }
      if !IsKnownType(info.eventType) {
        assert Decide(records, p, now) == SkipUnknownType;
        return Ok(UnknownType);
      }
      var record := ProjectRecord(existing.GetOr(NewRecord(info.employeeId)), existing.None?, p, info, now);
      if info.eventType == EmployeeDeactivatedType {
        payAttributes := payAttributes - {info.employeeId};
      }
      assert Decide(old(records), p, now) == Apply(record, info.eventType == EmployeeDeactivatedType);
      r := SaveAndPublish(record, now, sendFails);
    }

    /** The state machine's switch on the event type, then the tracking fields, written as the
        successive updates of one record. */
    static method ProjectRecord(base: EmployeeRecord, isNew: bool, p: EmployeeEventPayload, info: EventInfo, now: Clock.DateTime)
      returns (record: EmployeeRecord)
      requires IsKnownType(info.eventType)
      ensures record == Project(base, isNew, p, info, now)
    {
      record := base;
      if info.eventType == EmployeeCreatedType || info.eventType == EmployeeUpdatedType {
        record := record.(firstName := p.firstName, lastName := p.lastName, email := p.email);
        record := record.(payType := if p.payType.Some? then IntToString(p.payType.value) else "");
        record := record.(payRate := p.payRate, payPeriodHours := p.payPeriodHours.GetOr(40.0));
        record := record.(isActive := p.isActive);
      } else if info.eventType == EmployeeDeactivatedType {
        record := record.(isActive := false);
      } else {
        record := record.(isActive := true);
      }
      record := record.(lastEventType := info.eventType, lastEventTimestamp := info.occurredOn,
                        lastEventId := info.eventId, updatedAt := now);
      if isNew {
        record := record.(createdAt := now);
      }
    }

    /** The tail of `ProcessEmployeeEventAsync`: insert or update the record, then publish it with
        its (raw) last event type. */
    method SaveAndPublish(record: EmployeeRecord, now: Clock.DateTime, sendFails: bool)
      returns (r: Result<Outcome, PublishError>)
      requires Valid()
      modifies this, publisher
      ensures Valid()
      ensures records == old(records)[record.id := record] && payAttributes == old(payAttributes)
      ensures (r.Err? <==> sendFails) && (r.Ok? ==> r.value == Applied)
      ensures publisher.sent == old(publisher.sent)
        + (if sendFails then [] else [ChangeMessage(EmployeeChangesTopic, EmployeeChange(record, ChangeType(record.lastEventType), now))])
    {
      records := records[record.id := record];
      var sent := publisher.PublishEmployeeChange(record, record.lastEventType, now, sendFails);
      if sent.Err? {
        return Err(sent.error);
      }
      return Ok(Applied);
    }

    /** `ProcessNetPayEventAsync`. A non-GUID employee id, or a period older than the stored one,
        changes nothing. Otherwise the attributes are replaced wholesale, and subscribers are told
        only when the employee has a record; the record itself is not rewritten. */
    method ProcessNetPayEvent(p: NetPayEventPayload, now: Clock.DateTime, sendFails: bool)
      returns (r: Result<NetPayOutcome, PublishError>)
      requires Valid()
      modifies this, publisher
      ensures Valid()
      ensures Guids.TryParse(p.employeeId).None? ==> (r == Ok(InvalidEmployeeId)
        && records == old(records) && payAttributes == old(payAttributes) && publisher.sent == old(publisher.sent))
      ensures Guids.TryParse(p.employeeId).Some? ==> (
        var id := Guids.TryParse(p.employeeId).value;
        && records == old(records)
        && (id in old(payAttributes) && p.payPeriodNumber < old(payAttributes)[id].payPeriodNumber ==>
              r == Ok(OlderPeriod) && payAttributes == old(payAttributes) && publisher.sent == old(publisher.sent))
        && (!(id in old(payAttributes) && p.payPeriodNumber < old(payAttributes)[id].payPeriodNumber) ==>
              && payAttributes == old(payAttributes)[id := PayAttributesOf(id, p, now)]
              && (id !in old(records) ==> r == Ok(Upserted) && publisher.sent == old(publisher.sent))
              && (id in old(records) ==> (
                   (r.Err? <==> sendFails) && (r.Ok? ==> r.value == Upserted)
                   && publisher.sent == old(publisher.sent)
                        + (if sendFails then [] else [PayAttributesMessage(old(records)[id].(payAttributes := Some(PayAttributesOf(id, p, now))))])))))
      ensures forall k :: k in old(payAttributes) ==> k in payAttributes && payAttributes[k].payPeriodNumber >= old(payAttributes)[k].payPeriodNumber
    {
      var parsed := Guids.TryParse(p.employeeId);
      if parsed.None? {
        return Ok(InvalidEmployeeId);
      }
      var id := parsed.value;
      if id in payAttributes && p.payPeriodNumber < payAttributes[id].payPeriodNumber {
        return Ok(OlderPeriod);
      }
      var attributes := PayAttributesOf(id, p, now);
      payAttributes := payAttributes[id := attributes];
      if id in records {
        var employee := records[id].(payAttributes := Some(attributes));
        var sent := publisher.PublishPayAttributesChange(employee, sendFails);
        if sent.Err? {
          return Err(sent.error);
        }
      }
      return Ok(Upserted);
    }
  }
}

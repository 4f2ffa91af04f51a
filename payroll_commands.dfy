/** The clock-in, clock-out and create-tax-information command handlers of the payroll service,
    over an in-memory picture of the document store and of the event publisher. */
module PayrollCommands {
  import opened Wrappers
  import opened Decimals
  import Guids
  import Clock
  import opened DomainEvents
  import opened Entities
  import opened Employees
  import opened TimeEntries
  import opened TaxInformations

  /** The exceptions the handlers throw: `KeyNotFoundException` and `InvalidOperationException`. */
  datatype CommandError = KeyNotFound | InvalidOperation

  /** The entry is the employee's open (not clocked-out) entry. */
  predicate OpenFor(e: TimeEntryData, employeeId: Guids.Guid) {
    e.employeeId == employeeId && e.clockOut.None?
  }

  predicate HasOpenEntry(entries: map<Guids.Guid, TimeEntryData>, employeeId: Guids.Guid) {
    exists k :: k in entries && OpenFor(entries[k], employeeId)
  }

  /** No employee has two open time entries. */
  predicate AtMostOneOpenEntry(entries: map<Guids.Guid, TimeEntryData>) {
    forall j, k :: (j in entries && k in entries && entries[j].clockOut.None? && entries[k].clockOut.None?
      && entries[j].employeeId == entries[k].employeeId) ==> j == k
  }

  /** Every entry is stored under its own identity. */
  predicate EntriesKeyedById(entries: map<Guids.Guid, TimeEntryData>) {
    forall k :: k in entries ==> entries[k].id == k
  }

  predicate HasTaxInformation(records: map<Guids.Guid, TaxInformationData>, employeeId: Guids.Guid) {
    exists k :: k in records && records[k].employeeId == employeeId
  }

  /** Every tax record is stored under its own identity. */
  predicate TaxRecordsKeyedById(records: map<Guids.Guid, TaxInformationData>) {
    forall k :: k in records ==> records[k].id == k
  }

  /** No employee has two tax records. */
  predicate AtMostOneTaxRecord(records: map<Guids.Guid, TaxInformationData>) {
    forall j, k :: j in records && k in records && records[j].employeeId == records[k].employeeId ==> j == k
  }

  class PayrollDatabase {
    var employees: map<Guids.Guid, EmployeeData>
    var timeEntries: map<Guids.Guid, TimeEntryData>
    var taxInformation: map<Guids.Guid, TaxInformationData>
    /** Every domain event handed to the publisher, in publication order. */
    var published: seq<DomainEvent>

    /** Documents are stored under their own identity, and the two uniqueness rules hold. */
    predicate Valid()
      reads this
    {
      EntriesKeyedById(timeEntries) && TaxRecordsKeyedById(taxInformation)
      && AtMostOneOpenEntry(timeEntries)
      && AtMostOneTaxRecord(taxInformation)
    }

    constructor()
      ensures Valid()
      ensures employees == map[] && timeEntries == map[] && taxInformation == map[] && published == []
    {
      employees := map[];
      timeEntries := map[];
      taxInformation := map[];
      published := [];
    }

    /** `GetActiveEntryByEmployeeIdAsync`: the employee's open entry, if any. */
    method ActiveEntry(employeeId: Guids.Guid) returns (r: Option<TimeEntryData>)
      requires Valid()
      ensures r.None? <==> !HasOpenEntry(timeEntries, employeeId)
      ensures r.Some? ==> (r.value.id in timeEntries && timeEntries[r.value.id] == r.value
        && OpenFor(r.value, employeeId))
    {
      if HasOpenEntry(timeEntries, employeeId) {
        var k :| k in timeEntries && OpenFor(timeEntries[k], employeeId);
        return Some(timeEntries[k]);
      }
      return None;
    }

    /** The unit of work's in-memory effect after a successful write: the aggregate's pending
        events go to the publisher in order and are then cleared. */
    method PublishAndClear(entity: Entity)
      modifies this, entity
      ensures published == old(published) + old(entity.domainEvents)
      ensures entity.domainEvents == []
      ensures entity.createdAt == old(entity.createdAt) && entity.updatedAt == old(entity.updatedAt)
      ensures employees == old(employees) && timeEntries == old(timeEntries)
      ensures taxInformation == old(taxInformation)
    {
      published := published + entity.domainEvents;
      entity.ClearDomainEvents();
    }

    /** `ClockInCommandHandler.Handle`. The employee check comes first, then the open-entry check;
        a refusal writes nothing. Otherwise a new open entry is inserted, its clocked-in event is
        published, and the DTO is the stored entry. */
    method ClockIn(employeeId: Guids.Guid, newEntryId: Guids.Guid, eventId: Guids.Guid, now: Clock.DateTime)
      returns (r: Result<TimeEntryData, CommandError>)
      requires Valid()
      modifies this
      ensures employeeId !in old(employees) ==> r == Err(KeyNotFound)
      ensures employeeId in old(employees) && HasOpenEntry(old(timeEntries), employeeId) ==> r == Err(InvalidOperation)
      ensures r.Ok? <==> employeeId in old(employees) && !HasOpenEntry(old(timeEntries), employeeId)
      ensures r.Err? ==> unchanged(this)
      ensures r.Ok? ==> (r.value == TimeEntryData(newEntryId, employeeId, now, None, 0.0, now, now)
        && timeEntries == old(timeEntries)[newEntryId := r.value]
        && published == old(published) + [DomainEvent(eventId, now, ClockedIn(newEntryId, employeeId, now))]
        && employees == old(employees) && taxInformation == old(taxInformation))
      ensures newEntryId !in old(timeEntries) ==> Valid()
    {
      if employeeId !in employees {
        return Err(KeyNotFound);
      }
      var active := ActiveEntry(employeeId);
      if active.Some? {
        return Err(InvalidOperation);
      }
      var entry := new TimeEntry.ClockInEmployee(newEntryId, employeeId, eventId, now);
      var d := entry.Data();
      timeEntries := timeEntries[newEntryId := d];
      PublishAndClear(entry.entity);
      r := Ok(d);
      if newEntryId !in old(timeEntries) {
        NewOpenEntryKeepsUnique(old(timeEntries), d);
      }
    }

    /** `ClockOutCommandHandler.Handle`. Without an open entry it refuses and writes nothing;
        otherwise exactly that entry is closed now, replaced in the store and its clocked-out
        event published. */
    method ClockOut(employeeId: Guids.Guid, eventId: Guids.Guid, now: Clock.DateTime)
      returns (r: Result<TimeEntryData, CommandError>)
      requires Valid()
      modifies this
      ensures !HasOpenEntry(old(timeEntries), employeeId) <==> r == Err(InvalidOperation)
      ensures r.Err? ==> unchanged(this)
      ensures r.Ok? ==> (
        var id := r.value.id;
        id in old(timeEntries) && var before := old(timeEntries)[id];
        OpenFor(before, employeeId)
        && r.value == before.(clockOut := Some(now),
             hoursWorked := Round2(Clock.TotalHours(now - before.clockIn)), updatedAt := now)
        && timeEntries == old(timeEntries)[id := r.value]
        && published == old(published)
             + [DomainEvent(eventId, now, ClockedOut(id, employeeId, before.clockIn, now, r.value.hoursWorked))]
        && employees == old(employees) && taxInformation == old(taxInformation))
      ensures Valid()
    {
      var active := ActiveEntry(employeeId);
      if active.None? {
        return Err(InvalidOperation);
      }
      var before := active.value;
      var entry := new TimeEntry.Load(before);
      var res := entry.ClockOutEmployee(eventId, now);
      assert res.Ok?;
      var d := entry.Data();
      assert d == before.(clockOut := Some(now),
        hoursWorked := Round2(Clock.TotalHours(now - before.clockIn)), updatedAt := now);
      ClosingKeepsUnique(timeEntries, d);
      timeEntries := timeEntries[d.id := d];
      PublishAndClear(entry.entity);
      return Ok(d);
    }

    /** `CreateTaxInformationCommandHandler.Handle`. Unknown employee, then existing tax record,
        refuse and write nothing; otherwise the record built from the request is inserted, its
        created event published, and the DTO is the stored record. */
    method CreateTaxInformation(employeeId: Guids.Guid, federalFilingStatus: string, federalAllowances: int,
                                additionalFederalWithholding: real, state: string, stateFilingStatus: string,
                                stateAllowances: int, additionalStateWithholding: real,
                                newId: Guids.Guid, eventId: Guids.Guid, now: Clock.DateTime)
      returns (r: Result<TaxInformationData, CommandError>)
      requires Valid()
      modifies this
      ensures employeeId !in old(employees) ==> r == Err(KeyNotFound)
      ensures employeeId in old(employees) && HasTaxInformation(old(taxInformation), employeeId)
        ==> r == Err(InvalidOperation)
      ensures r.Ok? <==> employeeId in old(employees) && !HasTaxInformation(old(taxInformation), employeeId)
      ensures r.Err? ==> unchanged(this)
      ensures r.Ok? ==> (r.value == TaxInformationData(newId, employeeId, federalFilingStatus, federalAllowances,
          additionalFederalWithholding, state, stateFilingStatus, stateAllowances, additionalStateWithholding, now, now)
        && taxInformation == old(taxInformation)[newId := r.value]
        && published == old(published) + [DomainEvent(eventId, now, TaxInformationCreated(newId, employeeId))]
        && employees == old(employees) && timeEntries == old(timeEntries))
      ensures newId !in old(taxInformation) ==> Valid()
    {
      if employeeId !in employees {
        return Err(KeyNotFound);
      }
      if HasTaxInformation(taxInformation, employeeId) {
        return Err(InvalidOperation);
      }
      var info := new TaxInformation.Create(newId, employeeId, federalFilingStatus, federalAllowances,
        additionalFederalWithholding, state, stateFilingStatus, stateAllowances, additionalStateWithholding,
        eventId, now);
      var d := info.Data();
      taxInformation := taxInformation[newId := d];
      PublishAndClear(info.entity);
      r := Ok(d);
      if newId !in old(taxInformation) {
        NewTaxRecordKeepsUnique(old(taxInformation), d);
      }
    }
  }

  /** Inserting an open entry under a fresh identity for an employee without one keeps
      open entries unique. */
  lemma NewOpenEntryKeepsUnique(m: map<Guids.Guid, TimeEntryData>, d: TimeEntryData)
    requires AtMostOneOpenEntry(m) && EntriesKeyedById(m)
    requires d.id !in m && !HasOpenEntry(m, d.employeeId)
    ensures AtMostOneOpenEntry(m[d.id := d]) && EntriesKeyedById(m[d.id := d])
  {
  }

  /** Replacing a stored entry by a closed version of itself keeps open entries unique. */
  lemma ClosingKeepsUnique(m: map<Guids.Guid, TimeEntryData>, d: TimeEntryData)
    requires AtMostOneOpenEntry(m) && EntriesKeyedById(m)
    requires d.clockOut.Some? && d.id in m
    ensures AtMostOneOpenEntry(m[d.id := d]) && EntriesKeyedById(m[d.id := d])
  {
  }

  /** Inserting a tax record under a fresh identity for an employee without one keeps tax
      records unique per employee. */
  lemma NewTaxRecordKeepsUnique(m: map<Guids.Guid, TaxInformationData>, d: TaxInformationData)
    requires AtMostOneTaxRecord(m) && TaxRecordsKeyedById(m)
    requires d.id !in m && !HasTaxInformation(m, d.employeeId)
    ensures AtMostOneTaxRecord(m[d.id := d]) && TaxRecordsKeyedById(m[d.id := d])
  {
  }
}

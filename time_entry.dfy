/** The `TimeEntry` aggregate: one clock-in, optionally closed by a clock-out. */
module TimeEntries {
  import opened Wrappers
  import opened Decimals
  import Guids
  import Clock
  import opened DomainEvents
  import opened Entities

  /** The stored shape of a time entry; the service returns it unchanged as its DTO. */
  datatype TimeEntryData = TimeEntryData(
    id: Guids.Guid, employeeId: Guids.Guid, clockIn: Clock.DateTime, clockOut: Option<Clock.DateTime>,
    hoursWorked: real, createdAt: Clock.DateTime, updatedAt: Clock.DateTime)

  /** `InvalidOperationException` raised by the aggregate. */
  datatype TimeEntryError = ClockOutNotAfterClockIn | AlreadyClockedOut

  /** A clock-out must come strictly after the clock-in. */
  predicate ValidTimes(clockIn: Clock.DateTime, clockOut: Option<Clock.DateTime>) {
    clockOut.None? || clockOut.value > clockIn
  }

  /** Hours between clock-in and clock-out rounded to cents, or 0 for an open entry. */
  function HoursWorked(clockIn: Clock.DateTime, clockOut: Option<Clock.DateTime>): (h: real)
    requires ValidTimes(clockIn, clockOut)
    ensures clockOut.None? ==> h == 0.0
    ensures clockOut.Some? ==> Abs(h - Clock.TotalHours(clockOut.value - clockIn)) <= 0.005
    ensures HasTwoPlaces(h) && h >= 0.0
  {
    if clockOut.Some? then
      Round2NonNegative(Clock.TotalHours(clockOut.value - clockIn));
      Round2(Clock.TotalHours(clockOut.value - clockIn))
    else
      assert HasTwoPlaces(0.0);
      0.0
  }

  class TimeEntry {
    const entity: Entity
    /** Set when the entry is built; no operation changes it. */
    const employeeId: Guids.Guid
    var clockIn: Clock.DateTime
    var clockOut: Option<Clock.DateTime>
    var hoursWorked: real

    function Data(): TimeEntryData
      reads this, entity
    {
      TimeEntryData(entity.id, employeeId, clockIn, clockOut, hoursWorked, entity.createdAt, entity.updatedAt)
    }

    predicate IsOpen()
      reads this
    {
      clockOut.None?
    }

    /** `ClockInEmployee`: an open entry starting now, with exactly one clocked-in event. */
    constructor ClockInEmployee(id: Guids.Guid, employeeId: Guids.Guid, eventId: Guids.Guid, now: Clock.DateTime)
      ensures fresh(entity)
      ensures Data() == TimeEntryData(id, employeeId, now, None, 0.0, now, now)
      ensures entity.domainEvents == [DomainEvent(eventId, now, ClockedIn(id, employeeId, now))]
    {
      entity := new Entity(id, now);
      this.employeeId := employeeId;
      clockIn := now;
      clockOut := None;
      hoursWorked := 0.0;
      new;
      entity.AddDomainEvent(DomainEvent(eventId, now, ClockedIn(id, employeeId, now)));
    }

    /** Rebuilds a stored entry, as the repository reads it back, with no pending events. */
    constructor Load(d: TimeEntryData)
      ensures fresh(entity)
      ensures Data() == d && entity.domainEvents == []
    {
      entity := new Entity.Load(d.id, d.createdAt, d.updatedAt);
      employeeId := d.employeeId;
      clockIn := d.clockIn;
      clockOut := d.clockOut;
      hoursWorked := d.hoursWorked;
    }

    /** Closes an open entry now; a second clock-out is refused and changes nothing. */
    method ClockOutEmployee(eventId: Guids.Guid, now: Clock.DateTime) returns (r: Result<(), TimeEntryError>)
      modifies this, entity
      ensures old(clockOut).Some? <==> r.Err?
      ensures r.Err? ==> r.error == AlreadyClockedOut
      ensures r.Err? ==> Data() == old(Data()) && entity.domainEvents == old(entity.domainEvents)
      ensures r.Ok? ==> Data() == old(Data()).(clockOut := Some(now),
        hoursWorked := Round2(Clock.TotalHours(now - clockIn)), updatedAt := now)
      ensures r.Ok? ==> (entity.domainEvents == old(entity.domainEvents)
        + [DomainEvent(eventId, now, ClockedOut(entity.id, employeeId, clockIn, now, hoursWorked))])
    {
      if clockOut.Some? {
        return Err(AlreadyClockedOut);
      }
      clockOut := Some(now);
      hoursWorked := Round2(Clock.TotalHours(now - clockIn));
      entity.SetUpdated(now);
      entity.AddDomainEvent(DomainEvent(eventId, now, ClockedOut(entity.id, employeeId, clockIn, now, hoursWorked)));
      return Ok(());
    }

    /** Replaces both times and recomputes the hours, raising one updated event; a clock-out that
        is not after the clock-in is refused and changes nothing. */
    method UpdateTimes(clockIn: Clock.DateTime, clockOut: Option<Clock.DateTime>,
                       eventId: Guids.Guid, now: Clock.DateTime) returns (r: Result<(), TimeEntryError>)
      modifies this, entity
      ensures r.Err? <==> !ValidTimes(clockIn, clockOut)
      ensures r.Err? ==> (r.error == ClockOutNotAfterClockIn
        && Data() == old(Data()) && entity.domainEvents == old(entity.domainEvents))
      ensures r.Ok? ==> Data() == old(Data()).(clockIn := clockIn, clockOut := clockOut,
        hoursWorked := HoursWorked(clockIn, clockOut), updatedAt := now)
      ensures r.Ok? ==> (entity.domainEvents == old(entity.domainEvents)
        + [DomainEvent(eventId, now, TimeEntryUpdated(entity.id, employeeId, clockIn, clockOut, hoursWorked))])
    {
      if !ValidTimes(clockIn, clockOut) {
        return Err(ClockOutNotAfterClockIn);
      }
      this.clockIn := clockIn;
      this.clockOut := clockOut;
      hoursWorked := HoursWorked(clockIn, clockOut);
      entity.SetUpdated(now);
      entity.AddDomainEvent(DomainEvent(eventId, now, TimeEntryUpdated(entity.id, employeeId, clockIn, clockOut, hoursWorked)));
      return Ok(());
    }

    /** `Create`: a manual entry. Refused when the clock-out is not after the clock-in; otherwise
        the event is clocked-out exactly when a clock-out is given, and clocked-in otherwise. */
    static method Create(id: Guids.Guid, employeeId: Guids.Guid, clockIn: Clock.DateTime, clockOut: Option<Clock.DateTime>,
                  eventId: Guids.Guid, now: Clock.DateTime) returns (r: Result<TimeEntry, TimeEntryError>)
      ensures r.Err? <==> !ValidTimes(clockIn, clockOut)
      ensures r.Err? ==> r.error == ClockOutNotAfterClockIn
      ensures r.Ok? ==> fresh(r.value) && fresh(r.value.entity)
      ensures r.Ok? ==> (r.value.Data() ==
        TimeEntryData(id, employeeId, clockIn, clockOut, HoursWorked(clockIn, clockOut), now, now))
      ensures r.Ok? && clockOut.Some? ==> (r.value.entity.domainEvents ==
        [DomainEvent(eventId, now, ClockedOut(id, employeeId, clockIn, clockOut.value, HoursWorked(clockIn, clockOut)))])
      ensures r.Ok? && clockOut.None? ==> (r.value.entity.domainEvents ==
        [DomainEvent(eventId, now, ClockedIn(id, employeeId, clockIn))])
    {
      if !ValidTimes(clockIn, clockOut) {
        return Err(ClockOutNotAfterClockIn);
      }
      var hours := HoursWorked(clockIn, clockOut);
      var e := new TimeEntry.Load(TimeEntryData(id, employeeId, clockIn, clockOut, hours, now, now));
      if clockOut.Some? {
        e.entity.AddDomainEvent(DomainEvent(eventId, now, ClockedOut(id, employeeId, clockIn, clockOut.value, hours)));
      } else {
        e.entity.AddDomainEvent(DomainEvent(eventId, now, ClockedIn(id, employeeId, clockIn)));
      }
      return Ok(e);
    }
  }
}

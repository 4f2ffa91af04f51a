/** The `Employee` aggregate of the payroll service. */
module Employees {
  import Guids
  import Clock
  import opened DomainEvents
  import opened Entities

  /** The stored shape of an employee, as repositories and queries see it. */
  datatype EmployeeData = EmployeeData(
    id: Guids.Guid, firstName: string, lastName: string, email: string,
    payType: PayType, payRate: real, hireDate: Clock.DateTime, isActive: bool,
    createdAt: Clock.DateTime, updatedAt: Clock.DateTime)

  class Employee {
    const entity: Entity
    var firstName: string
    var lastName: string
    var email: string
    var payType: PayType
    var payRate: real
    var hireDate: Clock.DateTime
    var isActive: bool

    function Data(): EmployeeData
      reads this, entity
    {
      EmployeeData(entity.id, firstName, lastName, email, payType, payRate, hireDate, isActive,
                   entity.createdAt, entity.updatedAt)
    }

    /** The factory: the given fields, active, and exactly one created event. */
    constructor Create(id: Guids.Guid, firstName: string, lastName: string, email: string,
                       payType: PayType, payRate: real, hireDate: Clock.DateTime,
                       eventId: Guids.Guid, now: Clock.DateTime)
      ensures fresh(entity)
      ensures entity.id == id && entity.createdAt == now && entity.updatedAt == now
      ensures this.firstName == firstName && this.lastName == lastName && this.email == email
      ensures this.payType == payType && this.payRate == payRate && this.hireDate == hireDate
      ensures isActive
      ensures entity.domainEvents == [DomainEvent(eventId, now, EmployeeCreated(id, firstName, lastName, email))]
    {
      entity := new Entity(id, now);
      this.firstName := firstName;
      this.lastName := lastName;
      this.email := email;
      this.payType := payType;
      this.payRate := payRate;
      this.hireDate := hireDate;
      isActive := true;
      new;
      entity.AddDomainEvent(DomainEvent(eventId, now, EmployeeCreated(id, firstName, lastName, email)));
    }

    /** Overwrites the five business fields; hire date and active flag are kept. The event carries
        the default pay-period hours of 40. */
    method Update(firstName: string, lastName: string, email: string, payType: PayType, payRate: real,
                  eventId: Guids.Guid, now: Clock.DateTime)
      modifies this, entity
      ensures this.firstName == firstName && this.lastName == lastName && this.email == email
      ensures this.payType == payType && this.payRate == payRate
      ensures hireDate == old(hireDate) && isActive == old(isActive)
      ensures entity.updatedAt == now && entity.createdAt == old(entity.createdAt)
      ensures entity.domainEvents == old(entity.domainEvents)
        + [DomainEvent(eventId, now, EmployeeUpdated(entity.id, firstName, lastName, email, payType, payRate, 40.0))]
    {
      this.firstName := firstName;
      this.lastName := lastName;
      this.email := email;
      this.payType := payType;
      this.payRate := payRate;
      entity.SetUpdated(now);
      entity.AddDomainEvent(DomainEvent(eventId, now,
        EmployeeUpdated(entity.id, firstName, lastName, email, payType, payRate, 40.0)));
    }

    /** Marks the employee inactive; raises an event on every call, even when already inactive. */
    method Deactivate(eventId: Guids.Guid, now: Clock.DateTime)
      modifies this, entity
      ensures !isActive
      ensures firstName == old(firstName) && lastName == old(lastName) && email == old(email)
      ensures payType == old(payType) && payRate == old(payRate) && hireDate == old(hireDate)
      ensures entity.updatedAt == now && entity.createdAt == old(entity.createdAt)
      ensures entity.domainEvents == old(entity.domainEvents) + [DomainEvent(eventId, now, EmployeeDeactivated(entity.id))]
    {
      isActive := false;
      entity.SetUpdated(now);
      entity.AddDomainEvent(DomainEvent(eventId, now, EmployeeDeactivated(entity.id)));
    }

    /** Marks the employee active; raises an event on every call, even when already active. */
    method Activate(eventId: Guids.Guid, now: Clock.DateTime)
      modifies this, entity
      ensures isActive
      ensures firstName == old(firstName) && lastName == old(lastName) && email == old(email)
      ensures payType == old(payType) && payRate == old(payRate) && hireDate == old(hireDate)
      ensures entity.updatedAt == now && entity.createdAt == old(entity.createdAt)
      ensures entity.domainEvents == old(entity.domainEvents) + [DomainEvent(eventId, now, EmployeeActivated(entity.id))]
    {
      isActive := true;
      entity.SetUpdated(now);
      entity.AddDomainEvent(DomainEvent(eventId, now, EmployeeActivated(entity.id)));
    }
  }
}

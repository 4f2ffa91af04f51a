/** The `Deduction` aggregate: a recurring amount or percentage withheld from an employee's pay. */
module Deductions {
  import Guids
  import Clock
  import opened DomainEvents
  import opened Entities

  /** The stored shape of a deduction. */
  datatype DeductionData = DeductionData(
    id: Guids.Guid, employeeId: Guids.Guid, deductionType: DeductionType, description: string,
    amount: real, isPercentage: bool, isActive: bool)

  class Deduction {
    const entity: Entity
    /** Set by the factory only. */
    const employeeId: Guids.Guid
    var deductionType: DeductionType
    var description: string
    var amount: real
    var isPercentage: bool
    var isActive: bool

    function Data(): DeductionData
      reads this, entity
    {
      DeductionData(entity.id, employeeId, deductionType, description, amount, isPercentage, isActive)
    }

    /** The factory: the given fields, active, and exactly one created event. */
    constructor Create(id: Guids.Guid, employeeId: Guids.Guid, deductionType: DeductionType,
                       description: string, amount: real, isPercentage: bool,
                       eventId: Guids.Guid, now: Clock.DateTime)
      ensures fresh(entity)
      ensures entity.id == id && entity.createdAt == now && entity.updatedAt == now
      ensures this.employeeId == employeeId && this.deductionType == deductionType
      ensures this.description == description && this.amount == amount && this.isPercentage == isPercentage
      ensures isActive
      ensures entity.domainEvents == [DomainEvent(eventId, now, DeductionCreated(id, employeeId, deductionType, amount))]
    {
      entity := new Entity(id, now);
      this.employeeId := employeeId;
      this.deductionType := deductionType;
      this.description := description;
      this.amount := amount;
      this.isPercentage := isPercentage;
      isActive := true;
      new;
      entity.AddDomainEvent(DomainEvent(eventId, now, DeductionCreated(id, employeeId, deductionType, amount)));
    }

    /** Overwrites type, description, amount and percentage flag; the active flag is kept, so an
        inactive deduction stays inactive. */
    method Update(deductionType: DeductionType, description: string, amount: real, isPercentage: bool,
                  eventId: Guids.Guid, now: Clock.DateTime)
      modifies this, entity
      ensures this.deductionType == deductionType && this.description == description
      ensures this.amount == amount && this.isPercentage == isPercentage
      ensures isActive == old(isActive)
      ensures entity.updatedAt == now && entity.createdAt == old(entity.createdAt)
      ensures entity.domainEvents == old(entity.domainEvents)
        + [DomainEvent(eventId, now, DeductionUpdated(entity.id, employeeId, deductionType, amount))]
    {
      this.deductionType := deductionType;
      this.description := description;
      this.amount := amount;
      this.isPercentage := isPercentage;
      entity.SetUpdated(now);
      entity.AddDomainEvent(DomainEvent(eventId, now, DeductionUpdated(entity.id, employeeId, deductionType, amount)));
    }

    /** Marks the deduction inactive. No operation of the class sets the flag back to true. */
    method Deactivate(eventId: Guids.Guid, now: Clock.DateTime)
      modifies this, entity
      ensures !isActive
      ensures deductionType == old(deductionType) && description == old(description)
      ensures amount == old(amount) && isPercentage == old(isPercentage)
      ensures entity.updatedAt == now && entity.createdAt == old(entity.createdAt)
      ensures entity.domainEvents == old(entity.domainEvents)
        + [DomainEvent(eventId, now, DeductionDeactivated(entity.id, employeeId))]
    {
      isActive := false;
      entity.SetUpdated(now);
      entity.AddDomainEvent(DomainEvent(eventId, now, DeductionDeactivated(entity.id, employeeId)));
    }
  }
}

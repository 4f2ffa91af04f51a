/** The `TaxInformation` aggregate: an employee's withholding settings. */
module TaxInformations {
  import Guids
  import Clock
  import opened DomainEvents
  import opened Entities

  /** The stored shape of a tax record; the service returns it unchanged as its DTO. */
  datatype TaxInformationData = TaxInformationData(
    id: Guids.Guid, employeeId: Guids.Guid,
    federalFilingStatus: string, federalAllowances: int, additionalFederalWithholding: real,
    state: string, stateFilingStatus: string, stateAllowances: int, additionalStateWithholding: real,
    createdAt: Clock.DateTime, updatedAt: Clock.DateTime)

  class TaxInformation {
    const entity: Entity
    /** Set by the factory only. */
    const employeeId: Guids.Guid
    var federalFilingStatus: string
    var federalAllowances: int
    var additionalFederalWithholding: real
    var state: string
    var stateFilingStatus: string
    var stateAllowances: int
    var additionalStateWithholding: real

    function Data(): TaxInformationData
      reads this, entity
    {
      TaxInformationData(entity.id, employeeId, federalFilingStatus, federalAllowances,
                         additionalFederalWithholding, state, stateFilingStatus, stateAllowances,
                         additionalStateWithholding, entity.createdAt, entity.updatedAt)
    }

    /** The factory copies all eight arguments and raises one created event. */
    constructor Create(id: Guids.Guid, employeeId: Guids.Guid,
                       federalFilingStatus: string, federalAllowances: int, additionalFederalWithholding: real,
                       state: string, stateFilingStatus: string, stateAllowances: int,
                       additionalStateWithholding: real,
                       eventId: Guids.Guid, now: Clock.DateTime)
      ensures fresh(entity)
      ensures Data() == TaxInformationData(id, employeeId, federalFilingStatus, federalAllowances,
        additionalFederalWithholding, state, stateFilingStatus, stateAllowances,
        additionalStateWithholding, now, now)
      ensures entity.domainEvents == [DomainEvent(eventId, now, TaxInformationCreated(id, employeeId))]
    {
      entity := new Entity(id, now);
      this.employeeId := employeeId;
      this.federalFilingStatus := federalFilingStatus;
      this.federalAllowances := federalAllowances;
      this.additionalFederalWithholding := additionalFederalWithholding;
      this.state := state;
      this.stateFilingStatus := stateFilingStatus;
      this.stateAllowances := stateAllowances;
      this.additionalStateWithholding := additionalStateWithholding;
      new;
      entity.AddDomainEvent(DomainEvent(eventId, now, TaxInformationCreated(id, employeeId)));
    }

    /** Overwrites the seven withholding fields; always stamps the update time and raises one
        updated event, even when nothing changes. */
    method Update(federalFilingStatus: string, federalAllowances: int, additionalFederalWithholding: real,
                  state: string, stateFilingStatus: string, stateAllowances: int,
                  additionalStateWithholding: real,
                  eventId: Guids.Guid, now: Clock.DateTime)
      modifies this, entity
      ensures Data() == old(Data()).(federalFilingStatus := federalFilingStatus,
        federalAllowances := federalAllowances, additionalFederalWithholding := additionalFederalWithholding,
        state := state, stateFilingStatus := stateFilingStatus, stateAllowances := stateAllowances,
        additionalStateWithholding := additionalStateWithholding, updatedAt := now)
      ensures entity.domainEvents == old(entity.domainEvents)
        + [DomainEvent(eventId, now, TaxInformationUpdated(entity.id, employeeId))]
    {
      this.federalFilingStatus := federalFilingStatus;
      this.federalAllowances := federalAllowances;
      this.additionalFederalWithholding := additionalFederalWithholding;
      this.state := state;
      this.stateFilingStatus := stateFilingStatus;
      this.stateAllowances := stateAllowances;
      this.additionalStateWithholding := additionalStateWithholding;
      entity.SetUpdated(now);
      entity.AddDomainEvent(DomainEvent(eventId, now, TaxInformationUpdated(entity.id, employeeId)));
    }
  }
}

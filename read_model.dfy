/** The listener's read model: one employee record per employee, and the latest pay figures
    of each employee. */
module ReadModel {
  import opened Wrappers
  import Guids
  import Clock

  /** The figures of the latest pay period seen for an employee (amounts carried, not computed). */
  datatype EmployeePayAttributes = EmployeePayAttributes(
    employeeId: Guids.Guid, payPeriodNumber: int,
    grossPay: real, federalTax: real, stateTax: real,
    additionalFederalWithholding: real, additionalStateWithholding: real, totalTax: real,
    totalFixedDeductions: real, totalPercentDeductions: real, totalDeductions: real, netPay: real,
    payRate: real, payType: string, totalHoursWorked: real,
    payPeriodStart: string, payPeriodEnd: string, updatedAt: Clock.DateTime)

  /** The projected employee. `payAttributes` is the navigation the event processor attaches
      before notifying subscribers; the record class itself does not declare it. */
  datatype EmployeeRecord = EmployeeRecord(
    id: Guids.Guid, firstName: string, lastName: string, email: string,
    payType: string, payRate: Option<real>, payPeriodHours: real, isActive: bool,
    lastEventType: string, lastEventTimestamp: Clock.DateTime, lastEventId: Guids.Guid,
    createdAt: Clock.DateTime, updatedAt: Clock.DateTime,
    payAttributes: Option<EmployeePayAttributes>)

  /** `new EmployeeRecord { Id = id }`: every other property at its declared default
      (40 pay-period hours, inactive, the empty GUID, `DateTime.MinValue`). */
  function NewRecord(employeeId: Guids.Guid): (r: EmployeeRecord)
    ensures r.id == employeeId && !r.isActive && r.payPeriodHours == 40.0
    ensures r.lastEventId == Guids.Empty && r.lastEventType == "" && r.payAttributes.None?
  {
    EmployeeRecord(employeeId, "", "", "", "", None, 40.0, false, "", 0, Guids.Empty, 0, 0, None)
  }
}

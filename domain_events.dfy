/** Domain events raised by the payroll aggregates, and the two enumerations they carry. */
module DomainEvents {
  import opened Text
  import Wrappers
  import Guids
  import Clock

  /** `PayType` is a C# enum: any integer fits, only 1 and 2 are named. */
  type PayType = int
  const Hourly: PayType := 1
  const Salary: PayType := 2

  /** `DeductionType` is a C# enum with the values below; other integers are still representable. */
  type DeductionType = int
  const Health: DeductionType := 1
  const Dental: DeductionType := 2
  const Vision: DeductionType := 3
  const Retirement401k: DeductionType := 4
  const LifeInsurance: DeductionType := 5
  const OtherDeduction: DeductionType := 99

  /** `Enum.ToString()`: the member name, or the number for an unnamed value. */
  function DeductionTypeName(t: DeductionType): (s: string)
    ensures |s| > 0
  {
    if t == Health then "Health"
    else if t == Dental then "Dental"
    else if t == Vision then "Vision"
    else if t == Retirement401k then "Retirement401k"
    else if t == LifeInsurance then "LifeInsurance"
    else if t == OtherDeduction then "Other"
    else IntToString(t)
  }

  /** The payload of each concrete event class. */
  datatype EventBody =
    | EmployeeCreated(employeeId: Guids.Guid, firstName: string, lastName: string, email: string)
    | EmployeeUpdated(employeeId: Guids.Guid, firstName: string, lastName: string, email: string,
                      payType: PayType, payRate: real, payPeriodHours: real)
    | EmployeeDeactivated(employeeId: Guids.Guid)
    | EmployeeActivated(employeeId: Guids.Guid)
    | DeductionCreated(deductionId: Guids.Guid, employeeId: Guids.Guid, deductionType: DeductionType, amount: real)
    | DeductionUpdated(deductionId: Guids.Guid, employeeId: Guids.Guid, deductionType: DeductionType, amount: real)
    | DeductionDeactivated(deductionId: Guids.Guid, employeeId: Guids.Guid)
    | TaxInformationCreated(taxInfoId: Guids.Guid, employeeId: Guids.Guid)
    | TaxInformationUpdated(taxInfoId: Guids.Guid, employeeId: Guids.Guid)
    | ClockedIn(timeEntryId: Guids.Guid, employeeId: Guids.Guid, clockInTime: Clock.DateTime)
    | ClockedOut(timeEntryId: Guids.Guid, employeeId: Guids.Guid, clockInTime: Clock.DateTime,
                 clockOutTime: Clock.DateTime, hoursWorked: real)
    | TimeEntryUpdated(timeEntryId: Guids.Guid, employeeId: Guids.Guid, clockIn: Clock.DateTime,
                       clockOut: Wrappers.Option<Clock.DateTime>, hoursWorked: real)

  /** `DomainEvent`: a fresh identity and the time of construction, both supplied by the caller. */
  datatype DomainEvent = DomainEvent(eventId: Guids.Guid, occurredOn: Clock.DateTime, body: EventBody)

  /** The dotted type tag of each event class ("timeentry.updated" is assumed for the update event). */
  function EventType(b: EventBody): (tag: string)
    ensures Split(tag, '.') == [Aggregate(b), Action(b)]
  {
    var tag := Aggregate(b) + "." + Action(b);
    SplitJoin(Aggregate(b), '.', Action(b));
    tag
  }

  /** The part of the tag before the dot: the aggregate that raised the event. */
  function Aggregate(b: EventBody): (a: string)
    ensures a in {"employee", "deduction", "taxinfo", "timeentry"}
    ensures '.' !in a
  {
    match b
    case EmployeeCreated(_, _, _, _) => "employee"
    case EmployeeUpdated(_, _, _, _, _, _, _) => "employee"
    case EmployeeDeactivated(_) => "employee"
    case EmployeeActivated(_) => "employee"
    case DeductionCreated(_, _, _, _) => "deduction"
    case DeductionUpdated(_, _, _, _) => "deduction"
    case DeductionDeactivated(_, _) => "deduction"
    case TaxInformationCreated(_, _) => "taxinfo"
    case TaxInformationUpdated(_, _) => "taxinfo"
    case ClockedIn(_, _, _) => "timeentry"
    case ClockedOut(_, _, _, _, _) => "timeentry"
    case TimeEntryUpdated(_, _, _, _, _) => "timeentry"
  }

  /** The part of the tag after the dot. */
  function Action(b: EventBody): (a: string)
    ensures a in {"created", "updated", "deactivated", "activated", "clockedin", "clockedout"}
    ensures '.' !in a
  {
    match b
    case EmployeeCreated(_, _, _, _) => "created"
    case EmployeeUpdated(_, _, _, _, _, _, _) => "updated"
    case EmployeeDeactivated(_) => "deactivated"
    case EmployeeActivated(_) => "activated"
    case DeductionCreated(_, _, _, _) => "created"
    case DeductionUpdated(_, _, _, _) => "updated"
    case DeductionDeactivated(_, _) => "deactivated"
    case TaxInformationCreated(_, _) => "created"
    case TaxInformationUpdated(_, _) => "updated"
    case ClockedIn(_, _, _) => "clockedin"
    case ClockedOut(_, _, _, _, _) => "clockedout"
    case TimeEntryUpdated(_, _, _, _, _) => "updated"
  }
}

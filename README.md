# Payroll event pipeline: a verified Dafny model

This project models the core of a payroll proof of concept. The system keeps employees, time entries, deductions and tax information in a C# service. It publishes domain events, projects them into a read model, and maintains derived state in two Java stream processors and a JavaScript search screen. The model covers the parts that hold the system's logic:

- **Domain aggregates** (`entity.dfy`, `employee.dfy`, `deduction.dfy`, `tax_information.dfy`, `time_entry.dfy`, `domain_events.dfy`): classes whose methods update fields and append to the pending domain-event list. Time-entry validation rejects a clock-out that is not after the clock-in.
- **Command handlers** (`payroll_commands.dfy`): clock-in, clock-out and tax-information creation over repositories held as maps. They keep at most one open time entry and at most one tax record per employee.
- **State keys** (`state_keys.dfy`, `guids.dfy`): the `type-guid` key format and its parser, with a round-trip property.
- **Read-model ingestion** (`event_processor.dfy`, `read_model.dfy`, `subscription_publisher.dfy`): envelope resolution, the duplicate and stale-event guard, the employee projection state machine, the pay-attribute channel, and change notifications.
- **Search-index updater** (`es_updater.dfy`): the per-employee window of the four newest pay periods, tombstones, and the id-from-key extraction.
- **Net-pay processor** (`net_pay_processor.dfy`, `deduction_map.dfy`): keyed gross-pay, tax and deduction stores, the deactivated-employee set, the prefix purge on deactivation, and deduction totals.
- **Early wage access** (`ewa_calculation.dfy`, `ewa_balance_query.dfy`, `chatbot_ewa.dfy`): the three-stage balance pipeline, the balance query with its error codes and work-day loop, and the chatbot's estimate.
- **Search screen** (`search_query_builder.dfy`, `search_api.dfy`): field definitions from the index mapping, the quick and advanced query builders, and the snake_case to camelCase renaming of hits.

Supporting modules model the libraries the code relies on:

- `wrappers.dfy`: Option and Result.
- `text.dfy`: string operations.
- `decimals.dfy`: C# `decimal` as exact reals, with `Math.Round(x, 2)` as banker's rounding to cents and truncating integer division.
- `clock.dfy`: `DateTime` as ticks.
- `json.dfy`: a JSON tree with Jackson's lenient accessors.

Wall-clock time, new GUIDs, JSON text parsing and number parsing are parameters of the operations that use them.

## Model

| member | source | states |
|---|---|---|
| DomainEvents.EventType | src/PayrollService.Domain/Events/EmployeeEvents.cs:8 | each event class has a two-part tag, aggregate then action, split at its single dot |
| DomainEvents.Aggregate | src/PayrollService.Domain/Events/DeductionEvents.cs:8 | the part before the dot is one of "employee", "deduction", "taxinfo", "timeentry", and contains no dot |
| DomainEvents.Action | src/PayrollService.Domain/Events/TimeEntryEvents.cs:22 | the part after the dot is one of "created", "updated", "deactivated", "activated", "clockedin", "clockedout", and contains no dot |
| DomainEvents.DeductionTypeName | src/PayrollService.Domain/Enums/DeductionType.cs:3-11 | the name of a deduction type is never empty: a member name, or the number for an unnamed value |
| Entities.Entity.constructor | src/PayrollService.Domain/Common/Entity.cs:5-10 | a new entity carries the given identity, both timestamps equal to now, and no pending events |
| Entities.Entity.Load | src/PayrollService.Domain/Common/Entity.cs:5-7 | an entity read back from storage keeps its identity and stored timestamps, with no pending events |
| Entities.Entity.AddDomainEvent | src/PayrollService.Domain/Common/Entity.cs:12-15 | the event is appended after the earlier ones, in order; timestamps are unchanged |
| Entities.Entity.ClearDomainEvents | src/PayrollService.Domain/Common/Entity.cs:17-20 | the pending list becomes empty; timestamps are unchanged |
| Entities.Entity.SetUpdated | src/PayrollService.Domain/Common/Entity.cs:22-25 | only the update time changes, to now |
| TimeEntries.HoursWorked | src/PayrollService.Domain/Entities/TimeEntry.cs:33-35 | 0 for an open entry; otherwise within half a cent of the elapsed hours, non-negative and with two decimal places |
| TimeEntries.TimeEntry.ClockInEmployee | src/PayrollService.Domain/Entities/TimeEntry.cs:15-26 | an open entry starting now with 0 hours and exactly one clocked-in event |
| TimeEntries.TimeEntry.Load | src/PayrollService.Domain/Entities/TimeEntry.cs:8-11 | a stored entry is rebuilt with its stored fields and no pending events |
| TimeEntries.TimeEntry.Create | src/PayrollService.Domain/Entities/TimeEntry.cs:28-51 | refused exactly when the clock-out is not after the clock-in; otherwise the given times, rounded hours, and one event that is clocked-out exactly when a clock-out is given |
| TimeEntries.TimeEntry.ClockOutEmployee | src/PayrollService.Domain/Entities/TimeEntry.cs:53-63 | refused, changing nothing, exactly when the entry is already closed; otherwise closed now with rounded hours, the update time stamped and one clocked-out event appended |
| TimeEntries.TimeEntry.UpdateTimes | src/PayrollService.Domain/Entities/TimeEntry.cs:65-77 | refused, changing nothing, exactly when the clock-out is not after the clock-in; otherwise both times replaced, hours recomputed and one updated event appended |
| Employees.Employee.Create | src/PayrollService.Domain/Entities/Employee.cs:19-40 | the given fields, active, and exactly one created event carrying the names and email |
| Employees.Employee.Update | src/PayrollService.Domain/Entities/Employee.cs:42-52 | the five business fields are overwritten; hire date and active flag are kept; one updated event is appended |
| Employees.Employee.Deactivate | src/PayrollService.Domain/Entities/Employee.cs:54-59 | inactive afterwards, every business field kept, and one deactivated event appended on every call |
| Employees.Employee.Activate | src/PayrollService.Domain/Entities/Employee.cs:61-66 | active afterwards, every business field kept, and one activated event appended on every call |
| Deductions.Deduction.Create | src/PayrollService.Domain/Entities/Deduction.cs:12-31 | the given fields, active, and exactly one created event |
| Deductions.Deduction.Update | src/PayrollService.Domain/Entities/Deduction.cs:33-42 | type, description, amount and percentage flag are overwritten; the active flag is kept; one updated event is appended |
| Deductions.Deduction.Deactivate | src/PayrollService.Domain/Entities/Deduction.cs:44-49 | inactive afterwards, other fields kept, one deactivated event appended |
| TaxInformations.TaxInformation.Create | src/PayrollService.Domain/Entities/TaxInformation.cs:19-43 | all eight arguments are copied, and exactly one created event is raised |
| TaxInformations.TaxInformation.Update | src/PayrollService.Domain/Entities/TaxInformation.cs:45-64 | the seven withholding fields are overwritten, the owner is kept, and one updated event is appended |
| StateKeys.GetKey | src/PayrollService.Infrastructure/StateStore/StateKeyHelper.cs:7-10 | the key is the entity type, one separator, then the identity in a form that parses back to it; its length is the type's plus 37 |
| StateKeys.ParseKey | src/PayrollService.Infrastructure/StateStore/StateKeyHelper.cs:17-29 | fails with the format error exactly when there is no '-'; otherwise splits at the first '-', and fails with the identity error exactly when the rest is not a GUID |
| StateKeys.ParseGetKey | src/PayrollService.Infrastructure/StateStore/StateKeyHelper.cs:7-29 | a key built from a hyphen-free entity type parses back to that type and identity |
| StateKeys.ParseGetKeyHyphenated | src/PayrollService.Infrastructure/StateStore/StateKeyHelper.cs:19-26 | an entity type containing '-' does not come back from the parse |
| StateKeys.TypedKeysRoundTrip | src/PayrollService.Infrastructure/StateStore/StateKeyHelper.cs:12-15 | the employee, timeentry, taxinformation and deduction keys each parse back to their fixed prefix and identity |
| StateKeys.EmployeeKeyRoundTrip | src/PayrollService.Infrastructure/StateStore/StateKeyHelper.cs:12 | an employee key parses back to "employee" and the id |
| StateKeys.TimeEntryKeyRoundTrip | src/PayrollService.Infrastructure/StateStore/StateKeyHelper.cs:13 | a time-entry key parses back to "timeentry" and the id |
| StateKeys.TaxInformationKeyRoundTrip | src/PayrollService.Infrastructure/StateStore/StateKeyHelper.cs:14 | a tax-information key parses back to "taxinformation" and the id |
| StateKeys.DeductionKeyRoundTrip | src/PayrollService.Infrastructure/StateStore/StateKeyHelper.cs:15 | a deduction key parses back to "deduction" and the id |
| PayrollCommands.PayrollDatabase.constructor | src/PayrollService.Infrastructure/Repositories/TimeEntryRepository.cs:32-37 | empty stores satisfy the keyed-by-identity and uniqueness invariants |
| PayrollCommands.PayrollDatabase.ActiveEntry | src/PayrollService.Infrastructure/Repositories/TimeEntryRepository.cs:32-37 | none exactly when the employee has no open entry; otherwise the stored open entry of that employee |
| PayrollCommands.PayrollDatabase.PublishAndClear | src/PayrollService.Infrastructure/Events/TransactionalUnitOfWork.cs:20-54 | the aggregate's pending events are published in order and then cleared; the stores are unchanged |
| PayrollCommands.PayrollDatabase.ClockIn | src/PayrollService.Application/Commands/TimeEntry/ClockInCommand.cs:26-50 | unknown employee, then an already open entry, refuse and write nothing; it succeeds exactly otherwise, inserting one open entry and publishing its clocked-in event; at most one open entry per employee is kept |
| PayrollCommands.PayrollDatabase.ClockOut | src/PayrollService.Application/Commands/TimeEntry/ClockOutCommand.cs:21-41 | refused exactly when the employee has no open entry; otherwise exactly that entry is closed now, stored and its clocked-out event published; the invariants are kept |
| PayrollCommands.PayrollDatabase.CreateTaxInformation | src/PayrollService.Application/Commands/TaxInformation/CreateTaxInformationCommand.cs:34-70 | unknown employee, then an existing tax record, refuse and write nothing; it succeeds exactly otherwise, inserting the record and publishing its created event; at most one tax record per employee is kept |
| PayrollCommands.NewOpenEntryKeepsUnique | src/PayrollService.Application/Commands/TimeEntry/ClockInCommand.cs:31-35 | inserting an open entry for an employee without one keeps open entries unique per employee |
| PayrollCommands.ClosingKeepsUnique | src/PayrollService.Application/Commands/TimeEntry/ClockOutCommand.cs:23-31 | replacing an entry by its closed version keeps open entries unique per employee |
| PayrollCommands.NewTaxRecordKeepsUnique | src/PayrollService.Application/Commands/TaxInformation/CreateTaxInformationCommand.cs:39-56 | inserting a tax record for an employee without one keeps tax records unique per employee |
| ReadModel.NewRecord | src/ListenerApi.Data/Entities/EmployeeRecord.cs:5-17 | a new record has the given id, 40 pay-period hours, is inactive, and has empty tracking fields |
| SubscriptionPublisher.ChangeType | src/ListenerApi.Data/Services/InMemorySubscriptionPublisher.cs:27 | the whole tag when it has no '.', otherwise the second dot-separated segment; never contains '.' |
| SubscriptionPublisher.ChangeTypeOfEventTag | src/ListenerApi.Data/Services/InMemorySubscriptionPublisher.cs:27 | for every tag the domain raises, the change type is the action part ("employee.created" gives "created") |
| SubscriptionPublisher.InMemorySubscriptionPublisher.constructor | src/ListenerApi.Data/Services/InMemorySubscriptionPublisher.cs:12-18 | nothing has been sent yet |
| SubscriptionPublisher.InMemorySubscriptionPublisher.PublishEmployeeChange | src/ListenerApi.Data/Services/InMemorySubscriptionPublisher.cs:20-40 | fails exactly when the sender fails, sending nothing; otherwise exactly one message on "EmployeeChanges" with the record unchanged and the derived change type |
| SubscriptionPublisher.InMemorySubscriptionPublisher.PublishPayAttributesChange | src/ListenerApi.Data/Services/ISubscriptionPublisher.cs:8 | fails exactly when the sender fails; otherwise exactly one pay-attributes message carrying the record |
| EventProcessing.ResolveEventInfo | src/ListenerApi.Data/Services/EventProcessor.cs:183-195 | direct fields when both event id and type are set; otherwise the entity id with the first nested event's id, type and time; with no nested event the empty id, empty type and now |
| EventProcessing.ResolutionIgnoresClock | src/ListenerApi.Data/Services/EventProcessor.cs:186-194 | whenever the resolved type is not empty, the resolution does not depend on the clock |
| EventProcessing.Project | src/ListenerApi.Data/Services/EventProcessor.cs:55-87 | created/updated copy the business fields (pay type as text or "", 40 hours when absent); deactivated/activated change only the active flag; the tracking fields take the incoming values; the creation time is set only for a new record |
| EventProcessing.Decide | src/ListenerApi.Data/Services/EventProcessor.cs:33-87 | duplicate exactly when the stored last event id matches; stale exactly when not a duplicate and the stored timestamp is at or after the incoming one; unknown type exactly when neither and the tag is not one of the four; an applied record has a strictly newer timestamp and deletes pay attributes exactly on deactivation; the applied record is the projection of the stored record, or of a new one |
| EventProcessing.RedeliveryIsDuplicate | src/ListenerApi.Data/Services/EventProcessor.cs:36-42 | redelivering an applied event, at any later time, is skipped as a duplicate |
| EventProcessing.OlderEventSkippedAfterApply | src/ListenerApi.Data/Services/EventProcessor.cs:44-49 | after an event is applied, no event for the same employee that is not strictly newer is applied |
| EventProcessing.PayAttributesOf | src/ListenerApi.Data/Services/EventProcessor.cs:121-141 | the attributes carry the employee, period and every figure of the message, with absent texts as "" |
| EventProcessing.EventProcessor.constructor | src/ListenerApi.Data/Services/EventProcessor.cs:14-24 | both stores start empty |
| EventProcessing.EventProcessor.ProcessEmployeeEvent | src/ListenerApi.Data/Services/EventProcessor.cs:26-99 | a skipped delivery changes neither store and publishes nothing; an applied one stores the projected record, deletes the pay attributes on deactivation and publishes exactly one change with the raw tag; a failing send surfaces after the write |
| EventProcessing.EventProcessor.ProjectRecord | src/ListenerApi.Data/Services/EventProcessor.cs:53-87 | the switch on the tag and the tracking updates produce the projected record |
| EventProcessing.EventProcessor.SaveAndPublish | src/ListenerApi.Data/Services/EventProcessor.cs:85-98 | the record is inserted or updated under its id, then exactly one change message is published unless the send fails |
| EventProcessing.EventProcessor.ProcessNetPayEvent | src/ListenerApi.Data/Services/EventProcessor.cs:101-154 | a non-GUID id or an older period changes nothing; otherwise the attributes are replaced wholesale and a notification is sent only when the employee has a record; stored periods never decrease |
| SearchUpdater.StripQuotes | src/ElasticsearchUpdater/src/main/java/com/payroll/esupdater/ElasticsearchUpdaterApp.java:225 | at most one leading and one trailing double quote are removed; text without them is unchanged |
| SearchUpdater.StripQuotesOfQuoted | src/ElasticsearchUpdater/src/main/java/com/payroll/esupdater/ElasticsearchUpdaterApp.java:225 | a quoted text comes back as it was |
| SearchUpdater.ExtractEmployeeIdFromKey | src/ElasticsearchUpdater/src/main/java/com/payroll/esupdater/ElasticsearchUpdaterApp.java:213-228 | no key gives none; text that is not JSON gives the key with its quotes stripped; a JSON string gives its text; other JSON gives its EMPLOYEE_ID text, or none |
| SearchUpdater.ExtractFromStringKey | src/ElasticsearchUpdater/src/main/java/com/payroll/esupdater/ElasticsearchUpdaterApp.java:216-218 | the single-column key, a JSON string, gives the id it holds |
| SearchUpdater.NetPayKey | src/ElasticsearchUpdater/src/main/java/com/payroll/esupdater/ElasticsearchUpdaterApp.java:263-268 | no key is ignored; a key that is not JSON throws; otherwise it names an employee and a non-negative period, or is ignored when either is missing or the period is negative |
| SearchUpdater.EmployeeInfoOf | src/ElasticsearchUpdater/src/main/java/com/payroll/esupdater/ElasticsearchUpdaterApp.java:244-253 | the info carries the given id and each of the eight columns read as the source reads it, "" or 0 when absent and "true" for a missing IS_ACTIVE |
| SearchUpdater.EmployeeInfoUpdate | src/ElasticsearchUpdater/src/main/java/com/payroll/esupdater/ElasticsearchUpdaterApp.java:234-243 | a record without key or value puts nothing; any entry it puts comes from a value that parses |
| SearchUpdater.InfoFromValue | src/ElasticsearchUpdater/src/main/java/com/payroll/esupdater/ElasticsearchUpdaterApp.java:237-255 | the entry put for a parsed value holds that value's fields under its id |
| SearchUpdater.EmployeeInfoUpdateId | src/ElasticsearchUpdater/src/main/java/com/payroll/esupdater/ElasticsearchUpdaterApp.java:238-242 | the entry is filed under the value's EMPLOYEE_ID when present, else under the key's id, and nothing is filed when neither names an employee |
| SearchUpdater.PayPeriodOf | src/ElasticsearchUpdater/src/main/java/com/payroll/esupdater/ElasticsearchUpdaterApp.java:280-296 | the record carries the key's period number and each of the fifteen figures and texts read from its column, 0 or "" when absent |
| SearchUpdater.EmptyValueDefaults | src/ElasticsearchUpdater/src/main/java/com/payroll/esupdater/ElasticsearchUpdaterApp.java:244-296 | a value without any column gives empty texts, zero figures and an active employee |
| SearchUpdater.MinOf | src/ElasticsearchUpdater/src/main/java/com/payroll/esupdater/ElasticsearchUpdaterApp.java:302 | the smallest period of a non-empty window, as the first entry of a sorted map |
| SearchUpdater.AscendingKeys | src/ElasticsearchUpdater/src/main/java/com/payroll/esupdater/ElasticsearchUpdaterApp.java:367 | the window's periods exactly once each, in strictly ascending order |
| SearchUpdater.AscendingValues | src/ElasticsearchUpdater/src/main/java/com/payroll/esupdater/ElasticsearchUpdaterApp.java:367 | one record per entry, the i-th being the one under the i-th smallest period |
| SearchUpdater.AscendingValuesSorted | src/ElasticsearchUpdater/src/main/java/com/payroll/esupdater/ElasticsearchUpdaterApp.java:367 | records filed under their own periods come out in strictly ascending period order |
| SearchUpdater.TrimToLatest | src/ElasticsearchUpdater/src/main/java/com/payroll/esupdater/ElasticsearchUpdaterApp.java:300-303 | the result keeps exactly the four largest periods (all of them when there are at most four) with their records, and every dropped period is below every kept one |
| SearchUpdater.KeepsLargestUnique | src/ElasticsearchUpdater/src/main/java/com/payroll/esupdater/ElasticsearchUpdaterApp.java:300-303 | the trimmed window is determined by the map alone |
| SearchUpdater.PutThenTrimValid | src/ElasticsearchUpdater/src/main/java/com/payroll/esupdater/ElasticsearchUpdaterApp.java:298-303 | putting a period then trimming keeps at most four non-negative periods, each under its own number; a period at least as new as every stored one survives |
| SearchUpdater.SearchDocumentOf | src/ElasticsearchUpdater/src/main/java/com/payroll/esupdater/ElasticsearchUpdaterApp.java:354-368 | the document has the info's fields, is active unless IS_ACTIVE is "false" in any case, and lists the window's records in ascending period order, or none |
| SearchUpdater.DocumentPeriodsOrdered | src/ElasticsearchUpdater/src/main/java/com/payroll/esupdater/ElasticsearchUpdaterApp.java:365-368 | a document built from a valid window has at most four periods, in strictly ascending order |
| SearchUpdater.ValueOf | src/ElasticsearchUpdater/src/main/java/com/payroll/esupdater/ElasticsearchUpdaterApp.java:273-279 | a missing value is a tombstone, text that is not JSON throws, anything else is a record |
| SearchUpdater.KeyEmployee | src/ElasticsearchUpdater/src/main/java/com/payroll/esupdater/ElasticsearchUpdaterApp.java:334-336 | the employee a readable key names; a key that names a period names its employee |
| SearchUpdater.WithInfo | src/ElasticsearchUpdater/src/main/java/com/payroll/esupdater/ElasticsearchUpdaterApp.java:255 | the entry replaces any earlier one for that id; other ids are untouched |
| SearchUpdater.InfoTarget | src/ElasticsearchUpdater/src/main/java/com/payroll/esupdater/ElasticsearchUpdaterApp.java:310-316 | the id the key names, else the value's EMPLOYEE_ID, else none |
| SearchUpdater.DocumentFor | src/ElasticsearchUpdater/src/main/java/com/payroll/esupdater/ElasticsearchUpdaterApp.java:345-376 | nothing without info for the employee; otherwise exactly one document for that employee |
| SearchUpdater.InfoOutput | src/ElasticsearchUpdater/src/main/java/com/payroll/esupdater/ElasticsearchUpdaterApp.java:318-327 | nothing without info; otherwise one record for the employee, a tombstone exactly when the info says inactive, else an active document |
| SearchUpdater.TombstoneApplied | src/ElasticsearchUpdater/src/main/java/com/payroll/esupdater/ElasticsearchUpdaterApp.java:273-277 | a tombstone removes only that period of that employee, and windows stay valid |
| SearchUpdater.RecordApplied | src/ElasticsearchUpdater/src/main/java/com/payroll/esupdater/ElasticsearchUpdaterApp.java:298-303 | a record is put then the window trimmed, other employees untouched, and windows stay valid |
| SearchUpdater.SearchUpdater.constructor | src/ElasticsearchUpdater/src/main/java/com/payroll/esupdater/ElasticsearchUpdaterApp.java:69-70 | both maps start empty and nothing has been sent |
| SearchUpdater.SearchUpdater.Reset | src/ElasticsearchUpdater/src/main/java/com/payroll/esupdater/ElasticsearchUpdaterApp.java:67-70 | each run starts with both in-memory maps empty; what was sent stays sent |
| SearchUpdater.SearchUpdater.ProcessEmployeeInfoRecord | src/ElasticsearchUpdater/src/main/java/com/payroll/esupdater/ElasticsearchUpdaterApp.java:234-256 | throws exactly when a present value is not JSON; otherwise the info map gets the update's entry |
| SearchUpdater.SearchUpdater.ProcessNetPayRecord | src/ElasticsearchUpdater/src/main/java/com/payroll/esupdater/ElasticsearchUpdaterApp.java:262-304 | throws exactly when the key, or the value of a period key, is not JSON; a period key applies the value to that window (tombstone removes, record puts and trims); any other key changes nothing; windows stay valid |
| SearchUpdater.SearchUpdater.ApplyNetPayValue | src/ElasticsearchUpdater/src/main/java/com/payroll/esupdater/ElasticsearchUpdaterApp.java:270-303 | the employee's window is updated by the value read: removal, no change on a throw, or put and trim |
| SearchUpdater.SearchUpdater.ProduceSearchDocument | src/ElasticsearchUpdater/src/main/java/com/payroll/esupdater/ElasticsearchUpdaterApp.java:345-376 | sends exactly the document the info and windows give, or nothing without info |
| SearchUpdater.SearchUpdater.ResolveInfoTarget | src/ElasticsearchUpdater/src/main/java/com/payroll/esupdater/ElasticsearchUpdaterApp.java:310-316 | the employee the key names, else the one the value names |
| SearchUpdater.SearchUpdater.ProduceInfoOutput | src/ElasticsearchUpdater/src/main/java/com/payroll/esupdater/ElasticsearchUpdaterApp.java:318-327 | sends a tombstone for an inactive employee, else its document |
| SearchUpdater.SearchUpdater.HandleEmployeeInfo | src/ElasticsearchUpdater/src/main/java/com/payroll/esupdater/ElasticsearchUpdaterApp.java:306-328 | the info is recorded, the periods untouched, and the target employee gets a tombstone or its document; nothing is sent after a throw or without a target |
| SearchUpdater.SearchUpdater.HandleNetPay | src/ElasticsearchUpdater/src/main/java/com/payroll/esupdater/ElasticsearchUpdaterApp.java:330-340 | the record is applied as processNetPayRecord does; the employee the key names then gets its document, even when the period is negative; the info map is untouched |
| SearchUpdater.SearchUpdater.ProcessThenProduce | src/ElasticsearchUpdater/src/main/java/com/payroll/esupdater/ElasticsearchUpdaterApp.java:338-339 | the record is applied and, unless it threw, the employee's document is sent |
| SearchUpdater.WindowsValidAfterPut | src/ElasticsearchUpdater/src/main/java/com/payroll/esupdater/ElasticsearchUpdaterApp.java:298-303 | replacing one employee's window by a valid one keeps every window valid |
| SearchUpdater.UnparsableApplied | src/ElasticsearchUpdater/src/main/java/com/payroll/esupdater/ElasticsearchUpdaterApp.java:270-279 | a value that does not parse still leaves the employee a window, the one it had or a new empty one, and every window stays valid |
| NetPay.GetCurrentPayPeriod | src/NetPayProcessor/src/main/java/com/payroll/netpay/NetPayProcessor.java:319-321 | with Java's truncating division, from 2024-01-01 on the period p satisfies epoch + 14 days * p <= now < epoch + 14 days * (p + 1); before the epoch it is at most 0 |
| NetPay.PrefixedKeys | src/NetPayProcessor/src/main/java/com/payroll/netpay/NetPayProcessor.java:159-164 | exactly the store keys starting with the id followed by ':' |
| NetPay.StoreKeyReadsBack | src/NetPayProcessor/src/main/java/com/payroll/netpay/NetPayProcessor.java:168 | a key written for a colon-free id reads back its period, and starts with id + ":" for that id only |
| NetPay.PrefixedKeysAreEmployeePeriods | src/NetPayProcessor/src/main/java/com/payroll/netpay/NetPayProcessor.java:159-168 | with colon-free ids, the keys selected are exactly the employee's own entries, each reading back its period |
| NetPay.GrossPayKey | src/NetPayProcessor/src/main/java/com/payroll/netpay/NetPayProcessor.java:81-85 | no key, a key that is not JSON, or a key without both fields throws; otherwise the id and period it holds |
| NetPay.GrossPayKeyOfTableKey | src/NetPayProcessor/src/main/java/com/payroll/netpay/NetPayProcessor.java:84-85 | the key the upstream gross-pay table writes reads back as that employee and period |
| NetPay.GrossPayOf | src/NetPayProcessor/src/main/java/com/payroll/netpay/NetPayProcessor.java:99-107 | the gross pay carries the key's employee and period, and every field's default when the value is missing |
| NetPay.Recompute | src/NetPayProcessor/src/main/java/com/payroll/netpay/NetPayProcessor.java:249-252 | a result is forwarded exactly when gross pay is stored for that period; no store changes |
| NetPay.GrossPayEffect | src/NetPayProcessor/src/main/java/com/payroll/netpay/NetPayProcessor.java:80-114 | a throw changes nothing; a deactivated employee's pay forwards only a tombstone and stores nothing; any other is stored under "id:period", replacing an earlier value, and forwards a result |
| NetPay.StoreEntryKeepsInvariants | src/NetPayProcessor/src/main/java/com/payroll/netpay/NetPayProcessor.java:109-110 | storing under its own key keeps the store well keyed, and stores no pay for a deactivated employee |
| NetPay.GrossPayKeepsInvariants | src/NetPayProcessor/src/main/java/com/payroll/netpay/NetPayProcessor.java:88-110 | gross pay handling keeps every entry under its own key and never stores pay for a deactivated employee |
| NetPay.EventDataAsWritten | src/NetPayProcessor/src/main/java/com/payroll/netpay/NetPayProcessor.java:120-128 | missing data ignores the event; a JSON string is read as JSON text; an object gives the missing node |
| NetPay.EventData | src/NetPayProcessor/src/main/java/com/payroll/netpay/NetPayProcessor.java:119-128 | the corrected reading: missing or null data ignores the event; a JSON string is read as JSON text; an object is the data itself |
| NetPay.AsWrittenAgreesOnText | src/NetPayProcessor/src/main/java/com/payroll/netpay/NetPayProcessor.java:120-128 | for missing, null or textual data the reading as written equals the corrected one: the two differ only on object and array data |
| NetPay.EventTypeOf | src/NetPayProcessor/src/main/java/com/payroll/netpay/NetPayProcessor.java:131-133 | present exactly when DomainEvents is a non-empty array, holding the first event's EventType or "" |
| NetPay.EmployeeEventOf | src/NetPayProcessor/src/main/java/com/payroll/netpay/NetPayProcessor.java:116-133 | a dispatched event has a readable envelope, its data read as the processor is written, and the type of its first domain event; an envelope whose data is an object is never dispatched |
| NetPay.ObjectDataDroppedAsWritten | src/NetPayProcessor/src/main/java/com/payroll/netpay/NetPayProcessor.java:120-128 | a deactivation sent with object data is dropped as written, though it is dispatched when read as intended |
| NetPay.ObjectDataNeverDispatchedAsWritten | src/NetPayProcessor/src/main/java/com/payroll/netpay/NetPayProcessor.java:120-132 | as written, any object data reads as the missing node and is never dispatched |
| NetPay.PurgeStep | src/NetPayProcessor/src/main/java/com/payroll/netpay/NetPayProcessor.java:167-176 | removing one more selected key with its tombstone extends the partial removal |
| NetPay.SentTombstonesAdd | src/NetPayProcessor/src/main/java/com/payroll/netpay/NetPayProcessor.java:169-174 | one more tombstone is sent for one more removed key |
| NetPay.DeactivationAborted | src/NetPayProcessor/src/main/java/com/payroll/netpay/NetPayProcessor.java:167-168 | a period that does not parse stops the removal with what it has done, which is still a deactivation step |
| NetPay.DeactivationCompleted | src/NetPayProcessor/src/main/java/com/payroll/netpay/NetPayProcessor.java:151-184 | a completed removal followed by dropping the tax and deduction entries is a deactivation step |
| NetPay.DeactivationClearsEmployee | src/NetPayProcessor/src/main/java/com/payroll/netpay/NetPayProcessor.java:151-184 | with colon-free ids, a deactivation removes exactly the employee's gross pay, forwards one tombstone per period of it and nothing else, drops the tax and deduction entries and marks the id deactivated |
| NetPay.EmployeeTombstones | src/NetPayProcessor/src/main/java/com/payroll/netpay/NetPayProcessor.java:167-174 | with colon-free ids, the tombstones forwarded are one per period of the employee's stored pay |
| NetPay.TaxInfoEffect | src/NetPayProcessor/src/main/java/com/payroll/netpay/NetPayProcessor.java:186-207 | without an EmployeeId nothing changes; otherwise only that employee's configuration is replaced, its filing status, state and withholdings read from the event with "Single", "" and 0 for absent fields, and the current period is recomputed exactly when its gross pay is stored |
| NetPay.DeductionEntryFor | src/NetPayProcessor/src/main/java/com/payroll/netpay/NetPayProcessor.java:223-236 | a deactivation keeps the previous amount and percentage flag (0 and false when unknown) and marks the entry inactive; other events take the payload's amount, percentage flag and active flag as read, 0, not a percentage and active when absent |
| NetPay.WithDeduction | src/NetPayProcessor/src/main/java/com/payroll/netpay/NetPayProcessor.java:214-236 | the employee's map, new when absent, gets the event's entry; other deductions are untouched |
| NetPay.DeductionEffect | src/NetPayProcessor/src/main/java/com/payroll/netpay/NetPayProcessor.java:209-247 | a missing employee or deduction id changes nothing; otherwise the entry is put and the current period recomputed when its gross pay is stored |
| NetPay.DeactivatedDeductionLeavesTotals | src/NetPayProcessor/src/main/java/com/payroll/netpay/NetPayProcessor.java:223-230 | after deduction.deactivated the deduction adds nothing to either total |
| NetPay.CreatedChangesNothing | src/NetPayProcessor/src/main/java/com/payroll/netpay/NetPayProcessor.java:135-140 | employee.created changes no state |
| NetPay.NetPayProcessor.constructor | src/NetPayProcessor/src/main/java/com/payroll/netpay/NetPayProcessor.java:41-47 | all stores empty, nothing deactivated or forwarded |
| NetPay.NetPayProcessor.Process | src/NetPayProcessor/src/main/java/com/payroll/netpay/NetPayProcessor.java:66-78 | a null value is ignored; otherwise the gross-pay source handles gross pay and any other source an employee event, read as written (object data dropped) |
| NetPay.NetPayProcessor.HandleGrossPay | src/NetPayProcessor/src/main/java/com/payroll/netpay/NetPayProcessor.java:80-114 | the stores change exactly as the gross-pay effect says |
| NetPay.NetPayProcessor.ComputeAndEmit | src/NetPayProcessor/src/main/java/com/payroll/netpay/NetPayProcessor.java:249-317 | a result is forwarded exactly when gross pay is stored; its figures are not modelled |
| NetPay.NetPayProcessor.HandleEmployeeEvent | src/NetPayProcessor/src/main/java/com/payroll/netpay/NetPayProcessor.java:116-149 | the stores change as the dispatched event's handler says, or not at all when the event is ignored, including every event whose data is an object |
| NetPay.NetPayProcessor.HandleEmployeeDeactivated | src/NetPayProcessor/src/main/java/com/payroll/netpay/NetPayProcessor.java:151-184 | the stores change as a deactivation step: marked, removed with tombstones, and the other entries dropped when every period parses |
| NetPay.NetPayProcessor.DeactivateAndPurge | src/NetPayProcessor/src/main/java/com/payroll/netpay/NetPayProcessor.java:152-176 | the id is marked deactivated and its selected keys removed, each with a tombstone; complete exactly when every period parses |
| NetPay.NetPayProcessor.DropEmployeeConfig | src/NetPayProcessor/src/main/java/com/payroll/netpay/NetPayProcessor.java:179-180 | only the employee's tax and deduction entries are removed |
| NetPay.NetPayProcessor.PurgeGrossPay | src/NetPayProcessor/src/main/java/com/payroll/netpay/NetPayProcessor.java:159-176 | the removal loop removes selected keys one at a time with one tombstone each; it completes exactly when every selected period parses |
| NetPay.NetPayProcessor.HandleTaxInfoEvent | src/NetPayProcessor/src/main/java/com/payroll/netpay/NetPayProcessor.java:186-207 | the stores change exactly as the tax-info effect says: the employee's configuration from the event's fields with their defaults, others kept |
| NetPay.NetPayProcessor.StoreDeduction | src/NetPayProcessor/src/main/java/com/payroll/netpay/NetPayProcessor.java:214-238 | the employee's stored deduction map becomes the loaded (or new) map with the event's entry put |
| NetPay.NetPayProcessor.HandleDeductionEvent | src/NetPayProcessor/src/main/java/com/payroll/netpay/NetPayProcessor.java:209-247 | the stores change exactly as the deduction effect says |
| NetPay.PeriodOfOffset | src/NetPayProcessor/src/main/java/com/payroll/netpay/NetPayProcessor.java:319-321 | for a non-negative offset the truncating quotient is the period whose span holds it; a negative offset gives no positive period |
| NetPay.StoreKeyPeriod | src/NetPayProcessor/src/main/java/com/payroll/netpay/NetPayProcessor.java:109 | the period part of a key written for a colon-free id reads back as the period |
| NetPay.StoreKeyOwner | src/NetPayProcessor/src/main/java/com/payroll/netpay/NetPayProcessor.java:161 | a key written for a colon-free id starts with another id and a colon exactly when the ids are the same |
| NetPay.WellKeyedAfterRemoval | src/NetPayProcessor/src/main/java/com/payroll/netpay/NetPayProcessor.java:158-170 | removing keys keeps every remaining entry under its own key |
| DeductionMaps.Contribution | src/NetPayProcessor/src/main/java/com/payroll/netpay/model/DeductionMap.java:34-41 | an inactive entry, or one of the other kind, contributes 0 to a total |
| DeductionMaps.ScaledSum | src/NetPayProcessor/src/main/java/com/payroll/netpay/model/DeductionMap.java:42 | scaling by the gross pay distributes over a sum of rates |
| DeductionMaps.TotalWithout | src/NetPayProcessor/src/main/java/com/payroll/netpay/model/DeductionMap.java:33-36 | any entry can be taken out of the sum first: the total is its contribution plus the rest |
| DeductionMaps.TotalAfterPut | src/NetPayProcessor/src/main/java/com/payroll/netpay/model/DeductionMap.java:28-30 | putting an entry replaces that id's contribution and leaves the others' untouched |
| DeductionMaps.InactiveEntryIgnored | src/NetPayProcessor/src/main/java/com/payroll/netpay/model/DeductionMap.java:34-41 | an inactive entry counts in neither total: marking an entry inactive is the same as removing it |
| DeductionMaps.NoActiveEntryTotalZero | src/NetPayProcessor/src/main/java/com/payroll/netpay/model/DeductionMap.java:33-43 | with no active entry both totals are 0 |
| DeductionMaps.PercentTotalScales | src/NetPayProcessor/src/main/java/com/payroll/netpay/model/DeductionMap.java:39-44 | the percentage total is the gross pay times the total of the active percentage rates over 100 |
| DeductionMaps.DeductionMap.constructor | src/NetPayProcessor/src/main/java/com/payroll/netpay/model/DeductionMap.java:18-20 | a new map for an employee has no entries |
| DeductionMaps.DeductionMap.Load | src/NetPayProcessor/src/main/java/com/payroll/netpay/model/DeductionMap.java:16-26 | a stored map is read back with its employee and entries |
| DeductionMaps.DeductionMap.PutDeduction | src/NetPayProcessor/src/main/java/com/payroll/netpay/model/DeductionMap.java:28-30 | the entry with that id is replaced or added; the others and the employee are untouched |
| DeductionMaps.DeductionMap.ComputeFixedTotal | src/NetPayProcessor/src/main/java/com/payroll/netpay/model/DeductionMap.java:32-37 | the sum of the amounts of the active fixed entries; 0 when no entry is active |
| DeductionMaps.DeductionMap.ComputePercentTotal | src/NetPayProcessor/src/main/java/com/payroll/netpay/model/DeductionMap.java:39-44 | the gross pay scaled by the sum of the active percentage rates over 100 |
| DeductionMaps.NoActiveEntryTotalZeroFixed | src/NetPayProcessor/src/main/java/com/payroll/netpay/model/DeductionMap.java:32-37 | with no active entry the fixed total is 0 |
| EwaCalculation.FederalTaxRate | src/PayrollService.Application/Services/EwaCalculationService.cs:8-13 | the federal rate is 12 % to 22 %; an unknown filing status pays 22 % |
| EwaCalculation.StateTaxRate | src/PayrollService.Application/Services/EwaCalculationService.cs:15-27 | the state rate is 0 % to 6 %; an unknown state pays the 4 % default |
| EwaCalculation.RatesIgnoreCase | src/PayrollService.Application/Services/EwaCalculationService.cs:8-15 | both rate tables compare keys case-insensitively: keys equal ignoring case find the same rate |
| EwaCalculation.RoundedProduct | src/PayrollService.Application/Services/EwaCalculationService.cs:56-68 | an amount times a rate rounded to cents: two decimal places, within half a cent of the exact product, non-negative for non-negative inputs |
| EwaCalculation.RoundedProductMonotone | src/PayrollService.Application/Services/EwaCalculationService.cs:56-68 | a larger amount never gives a smaller rounded product |
| EwaCalculation.CalculateGrossBalance | src/PayrollService.Application/Services/EwaCalculationService.cs:29-37 | hourly pay is hours times rate, salary the hourly share (52 weeks of 40 hours) times hours, both to cents; any other pay type gives 0 |
| EwaCalculation.GrossBalanceMonotone | src/PayrollService.Application/Services/EwaCalculationService.cs:29-37 | more hours never lower the gross balance for a non-negative rate |
| EwaCalculation.CalculateHoursForSalaried | src/PayrollService.Application/Services/EwaCalculationService.cs:39-45 | 0 when the period has no work days; otherwise 8 hours per day worked, capped at the period's work days |
| EwaCalculation.TotalBoundsComponents | src/PayrollService.Application/Services/EwaCalculationService.cs:135-136 | a total of non-negative components is non-negative and bounds each component |
| EwaCalculation.PerPeriod | src/PayrollService.Application/Services/EwaCalculationService.cs:71-76 | an annual amount divided over the pay periods, to cents; 0 without pay periods |
| EwaCalculation.EstimateTaxWithholdings | src/PayrollService.Application/Services/EwaCalculationService.cs:47-85 | all zero for a non-positive gross; Social Security only while the annualized gross is within the wage base; Medicare, federal and state tax as rate times gross to cents; additional withholdings spread per period; non-negative for non-negative additional withholdings |
| EwaCalculation.DeductionAmount | src/PayrollService.Application/Services/EwaCalculationService.cs:94-99 | an inactive deduction withholds nothing, a fixed one its amount, a percentage one that share of the gross to cents |
| EwaCalculation.PercentOf | src/PayrollService.Application/Services/EwaCalculationService.cs:98 | a percentage of an amount, to cents within half a cent |
| EwaCalculation.ActiveOnly | src/PayrollService.Application/Services/EwaCalculationService.cs:92-96 | the kept deductions are all active and no more than the input |
| EwaCalculation.DeductionsTotalOfActive | src/PayrollService.Application/Services/EwaCalculationService.cs:92-100 | skipping the inactive deductions does not change the total |
| EwaCalculation.NetBalance | src/PayrollService.Application/Services/EwaCalculationService.cs:87-103 | the net balance is non-negative, in cents, and at most the gross unless taxes and deductions are negative |
| EwaCalculation.CalculateNetBalance | src/PayrollService.Application/Services/EwaCalculationService.cs:87-103 | the loop computes the net balance: gross less taxes and active deductions, floored at 0, to cents |
| EwaCalculation.CalculateFinalBalance | src/PayrollService.Application/Services/EwaCalculationService.cs:105-124 | the final balance is a whole number of dollars, within the daily limit and the accessible share less outstanding advances; eligible exactly when it reaches the minimum; both limits reported as the daily limit |
| EwaCalculation.FinalBalanceIsLargestWhole | src/PayrollService.Application/Services/EwaCalculationService.cs:112-115 | every whole number of dollars within both caps is at most the final balance, so the floor is the largest such |
| EwaBalanceQuery.PeriodLengthDays | src/PayrollService.Application/Queries/EarlyWageAccess/GetEwaBalanceQuery.cs:164-167 | a period is at least 14 days and never shorter than its work days |
| EwaBalanceQuery.GetCurrentPayPeriod | src/PayrollService.Application/Queries/EarlyWageAccess/GetEwaBalanceQuery.cs:158-175 | the period starts a whole number of period lengths after the reference Monday 2025-01-06 and lasts one period length |
| EwaBalanceQuery.PeriodIndex | src/PayrollService.Application/Queries/EarlyWageAccess/GetEwaBalanceQuery.cs:169-170 | from the reference Monday on, the period index is non-negative |
| EwaBalanceQuery.CurrentPeriodContainsNow | src/PayrollService.Application/Queries/EarlyWageAccess/GetEwaBalanceQuery.cs:158-175 | from the reference Monday on, the current period contains "now" |
| EwaBalanceQuery.CurrentPeriodStartsOnMonday | src/PayrollService.Application/Queries/EarlyWageAccess/GetEwaBalanceQuery.cs:160-171 | when the period length is whole weeks, every period starts on a Monday |
| EwaBalanceQuery.WeekdayCount | src/PayrollService.Application/Queries/EarlyWageAccess/GetEwaBalanceQuery.cs:183-187 | no more work days than days counted |
| EwaBalanceQuery.WeekdayCountMonotone | src/PayrollService.Application/Queries/EarlyWageAccess/GetEwaBalanceQuery.cs:183-187 | counting more days never finds fewer work days |
| EwaBalanceQuery.WeekHasFiveWorkDays | src/PayrollService.Application/Queries/EarlyWageAccess/GetEwaBalanceQuery.cs:185 | any seven consecutive days hold exactly five work days |
| EwaBalanceQuery.WeekdayCountSplit | src/PayrollService.Application/Queries/EarlyWageAccess/GetEwaBalanceQuery.cs:183-187 | counting a run of days in two parts gives the same total |
| EwaBalanceQuery.TwoWeeks | src/PayrollService.Application/Queries/EarlyWageAccess/GetEwaBalanceQuery.cs:164-165 | any fourteen consecutive days hold ten work days |
| EwaBalanceQuery.DaysThrough | src/PayrollService.Application/Queries/EarlyWageAccess/GetEwaBalanceQuery.cs:183 | there are days to walk exactly when the period start is not after today |
| EwaBalanceQuery.WorkDaysElapsed | src/PayrollService.Application/Queries/EarlyWageAccess/GetEwaBalanceQuery.cs:177-191 | the elapsed work days are non-negative, capped at the work days of a period and at the days walked |
| EwaBalanceQuery.GetWorkDaysElapsedInPeriod | src/PayrollService.Application/Queries/EarlyWageAccess/GetEwaBalanceQuery.cs:177-191 | the day-by-day loop computes the Monday-to-Friday days from the period start through today, capped at the period's work days |
| EwaBalanceQuery.FullPeriodCountsAllWorkDays | src/PayrollService.Application/Queries/EarlyWageAccess/GetEwaBalanceQuery.cs:177-191 | on the last day of a 14-day period of 10 work days all 10 are counted |
| EwaBalanceQuery.InPeriod | src/PayrollService.Application/Queries/EarlyWageAccess/GetEwaBalanceQuery.cs:62-64 | the kept entries are exactly those clocked in within the period |
| EwaBalanceQuery.InPeriodIgnoresOthers | src/PayrollService.Application/Queries/EarlyWageAccess/GetEwaBalanceQuery.cs:62-64 | an entry clocked in outside the period changes nothing |
| EwaBalanceQuery.ClosedHoursNonNegative | src/PayrollService.Application/Queries/EarlyWageAccess/GetEwaBalanceQuery.cs:72-74 | the hours of the closed entries are non-negative when no entry has negative hours |
| EwaBalanceQuery.HoursWorked | src/PayrollService.Application/Queries/EarlyWageAccess/GetEwaBalanceQuery.cs:67-82 | hourly pay counts the closed hours in the period; other pay counts at most 8 hours per work day of a period |
| EwaBalanceQuery.TaxLine | src/PayrollService.Application/Queries/EarlyWageAccess/GetEwaBalanceQuery.cs:105-116 | a tax component gives a "TAX" line only when positive |
| EwaBalanceQuery.TaxLinesTotal | src/PayrollService.Application/Queries/EarlyWageAccess/GetEwaBalanceQuery.cs:104-116 | with no negative component the tax lines add up to the whole estimate |
| EwaBalanceQuery.TaxLinesPositive | src/PayrollService.Application/Queries/EarlyWageAccess/GetEwaBalanceQuery.cs:104-116 | every tax line is labelled "TAX" and carries a positive amount |
| EwaBalanceQuery.DeductionLine | src/PayrollService.Application/Queries/EarlyWageAccess/GetEwaBalanceQuery.cs:121-124 | an employee deduction line carries its type's name in upper case and its description |
| EwaBalanceQuery.DeductionLines | src/PayrollService.Application/Queries/EarlyWageAccess/GetEwaBalanceQuery.cs:119-125 | one line per deduction, in order |
| EwaBalanceQuery.DeductionLinesExtend | src/PayrollService.Application/Queries/EarlyWageAccess/GetEwaBalanceQuery.cs:119-125 | one more deduction appends its line |
| EwaBalanceQuery.ItemsTotalAppend | src/PayrollService.Application/Queries/EarlyWageAccess/GetEwaBalanceQuery.cs:99-126 | the total of a concatenated breakdown is the sum of the parts' totals |
| EwaBalanceQuery.TaxLineTotal | src/PayrollService.Application/Queries/EarlyWageAccess/GetEwaBalanceQuery.cs:105-106 | a tax line contributes its amount when positive and nothing otherwise |
| EwaBalanceQuery.DeductionLinesTotal | src/PayrollService.Application/Queries/EarlyWageAccess/GetEwaBalanceQuery.cs:57-125 | the employee lines of the breakdown add up to exactly the deductions the net balance subtracts |
| EwaBalanceQuery.ActiveLinesTotal | src/PayrollService.Application/Queries/EarlyWageAccess/GetEwaBalanceQuery.cs:119-125 | over active deductions the lines add up to the deductions' total |
| EwaBalanceQuery.BuildTaxLines | src/PayrollService.Application/Queries/EarlyWageAccess/GetEwaBalanceQuery.cs:104-116 | the conditional appends build the tax lines in a fixed order |
| EwaBalanceQuery.BuildBreakdown | src/PayrollService.Application/Queries/EarlyWageAccess/GetEwaBalanceQuery.cs:99-126 | the breakdown is the tax lines followed by one line per active deduction |
| EwaBalanceQuery.Handle | src/PayrollService.Application/Queries/EarlyWageAccess/GetEwaBalanceQuery.cs:40-156 | 404 for a missing employee, 422 for an inactive one, 422 when tax information is missing; otherwise 200 with the balance and no error |
| EwaBalanceQuery.BalanceProperties | src/PayrollService.Application/Queries/EarlyWageAccess/GetEwaBalanceQuery.cs:84-155 | a successful balance has a non-negative net in cents, a whole-dollar final balance within the daily limit, a reason exactly when ineligible, a breakdown exactly when asked for |
| EwaBalanceQuery.BalanceAmounts | src/PayrollService.Application/Queries/EarlyWageAccess/GetEwaBalanceQuery.cs:84-96 | the net balance is non-negative in cents and the final balance a whole number of dollars within the daily limit |
| EwaBalanceQuery.BalanceEligibility | src/PayrollService.Application/Queries/EarlyWageAccess/GetEwaBalanceQuery.cs:128-134 | a reason is given exactly when the balance is not eligible, which is exactly when it is below the minimum |
| EwaBalanceQuery.BalanceShape | src/PayrollService.Application/Queries/EarlyWageAccess/GetEwaBalanceQuery.cs:99-153 | a breakdown exactly when asked for; both limits are the configured daily limit; an unknown pay type has no gross balance |
| EwaBalanceQuery.InactiveDeductionsIgnored | src/PayrollService.Application/Queries/EarlyWageAccess/GetEwaBalanceQuery.cs:56-57 | inactive deductions change nothing: the balance over all deductions is the balance over the active ones |
| EwaBalanceQuery.ActiveOnlyIdempotent | src/PayrollService.Application/Queries/EarlyWageAccess/GetEwaBalanceQuery.cs:57 | filtering the active deductions twice is filtering them once |
| ChatbotEwa.TryGetProperty | src/ChatbotApi/Services/EwaBalanceCalculator.cs:143 | reading a member throws on a non-object; on an object it finds the member, if any |
| ChatbotEwa.GetDecimal | src/ChatbotApi/Services/EwaBalanceCalculator.cs:145 | only a number reads as a decimal |
| ChatbotEwa.GetInt32 | src/ChatbotApi/Services/EwaBalanceCalculator.cs:55 | an integer read stays within 32 bits |
| ChatbotEwa.GetBoolean | src/ChatbotApi/Services/EwaBalanceCalculator.cs:188 | only true or false reads as a boolean |
| ChatbotEwa.GetString | src/ChatbotApi/Services/EwaBalanceCalculator.cs:57-58 | null reads as the missing string |
| ChatbotEwa.ArrayItems | src/ChatbotApi/Services/EwaBalanceCalculator.cs:136-141 | the entries of a reply that parses to an array; none otherwise |
| ChatbotEwa.GetPayPeriodStart | src/ChatbotApi/Services/EwaBalanceCalculator.cs:263-271 | the period start lies within 13 days of today either way (the truncating remainder); PayPeriodBounds pins it down from the anchor on |
| ChatbotEwa.GetPayPeriodEnd | src/ChatbotApi/Services/EwaBalanceCalculator.cs:273-276 | the end lies 13 whole days after the start, which is the 13 the salaried share divides by |
| ChatbotEwa.PayPeriodBounds | src/ChatbotApi/Services/EwaBalanceCalculator.cs:263-276 | from the anchor Monday 2024-01-01 on, the period starts a whole number of two-week periods after it and holds today between its first and last day |
| ChatbotEwa.PeriodStartFacts | src/ChatbotApi/Services/EwaBalanceCalculator.cs:268-269 | the whole days since the anchor are the calendar days between them, and the truncating remainder equals the mathematical one from the anchor on |
| ChatbotEwa.PayPeriodStartsOnMonday | src/ChatbotApi/Services/EwaBalanceCalculator.cs:263-271 | from the anchor on, every pay period starts on a Monday |
| ChatbotEwa.SalaryLastDayAccruesNothingAsWritten | src/ChatbotApi/Services/EwaBalanceCalculator.cs:122-126 | as written, a salary of 2600 gives the full 100 on both the 13th and 14th day of a period: the last day earns nothing |
| ChatbotEwa.SalaryGrossAsWritten | src/ChatbotApi/Services/EwaBalanceCalculator.cs:114-126 | the salaried share as written: for a non-negative salary between 0 and the two-week pay |
| ChatbotEwa.SalaryGrossAsWrittenShare | src/ChatbotApi/Services/EwaBalanceCalculator.cs:116-126 | on day d (from 0) the share as written is min(d + 1, 13) thirteenths of the two-week pay: full on day 13, nothing more on day 14 |
| ChatbotEwa.SalaryDays | src/ChatbotApi/Services/EwaBalanceCalculator.cs:122-123 | on day d of the first period the code's two day counts are 13 and d |
| ChatbotEwa.SalaryGrossAccruesDaily | src/ChatbotApi/Services/EwaBalanceCalculator.cs:116-126 | on day d (from 0) the corrected salaried estimate is d + 1 fourteenths of the two-week pay |
| ChatbotEwa.SalaryGross | src/ChatbotApi/Services/EwaBalanceCalculator.cs:114-126 | the corrected salaried share: for a non-negative salary between 0 and the two-week pay |
| ChatbotEwa.SalaryDayCounts | src/ChatbotApi/Services/EwaBalanceCalculator.cs:122-123 | from the anchor on, a period spans 13 whole days from its start to its end, and day d lies d whole days after the start |
| ChatbotEwa.EntryHours | src/ChatbotApi/Services/EwaBalanceCalculator.cs:143-159 | an entry without hours adds nothing; one without a clock-in adds its hours; only the current pay period counts: a clock-in that parses to a date on or after the period start adds the hours, an earlier, null or unparsable one adds nothing; hours that are not a number, a clock-in that is neither text nor null, or a non-object entry throw |
| ChatbotEwa.EntryBeforePeriodIgnored | src/ChatbotApi/Services/EwaBalanceCalculator.cs:147-153 | an entry clocked in before the period start leaves the hours of the whole list unchanged, wherever it sits |
| ChatbotEwa.HoursKeptBeforeError | src/ChatbotApi/Services/EwaBalanceCalculator.cs:134-167 | an entry whose reading throws hides every later entry but keeps the earlier ones |
| ChatbotEwa.HoursUntilError | src/ChatbotApi/Services/EwaBalanceCalculator.cs:134-167 | the hours summed up to the first entry that throws are non-negative when every readable entry's hours are |
| ChatbotEwa.SumHours | src/ChatbotApi/Services/EwaBalanceCalculator.cs:131-167 | the loop sums the hours in order up to the first entry whose reading throws |
| ChatbotEwa.HourlyPay | src/ChatbotApi/Services/EwaBalanceCalculator.cs:169 | hours times the rate, non-negative for non-negative hours and rate |
| ChatbotEwa.GrossEarned | src/ChatbotApi/Services/EwaBalanceCalculator.cs:112-171 | the salaried share as written is between 0 and the two-week pay; hourly pay is non-negative when the readable hours and the rate are |
| ChatbotEwa.CalculateGrossEarned | src/ChatbotApi/Services/EwaBalanceCalculator.cs:112-171 | pay type 2 earns the salaried share as written (days elapsed out of 13); any other pay type earns the hours summed up to the first entry that throws, times the rate |
| ChatbotEwa.ReadOptional | src/ChatbotApi/Services/EwaBalanceCalculator.cs:223-243 | an optional member: none when missing, the reader's value when present, a throw on a non-object or a bad value |
| ChatbotEwa.DeductionValue | src/ChatbotApi/Services/EwaBalanceCalculator.cs:186-198 | a deduction marked inactive withholds nothing; reading a non-object throws |
| ChatbotEwa.PercentOf | src/ChatbotApi/Services/EwaBalanceCalculator.cs:196 | a non-negative percentage of a non-negative gross is non-negative |
| ChatbotEwa.InactiveDeductionIgnored | src/ChatbotApi/Services/EwaBalanceCalculator.cs:186-190 | a deduction marked inactive can be dropped without changing the total |
| ChatbotEwa.DeductionsUntilError | src/ChatbotApi/Services/EwaBalanceCalculator.cs:177-205 | the deductions summed up to the first one that throws are non-negative when every readable deduction is |
| ChatbotEwa.DeductionValueCases | src/ChatbotApi/Services/EwaBalanceCalculator.cs:192-198 | an active deduction that is not a percentage (flag absent or false) withholds its amount, a percentage one that share of the gross; the amount is any number element, or 0 when absent |
| ChatbotEwa.CalculateDeductions | src/ChatbotApi/Services/EwaBalanceCalculator.cs:173-208 | the loop sums the deductions in order up to the first one whose reading throws |
| ChatbotEwa.FederalRateFor | src/ChatbotApi/Services/EwaBalanceCalculator.cs:230-234 | allowances lower the federal rate, never below 10 % and, for non-negative allowances, never above 22 % |
| ChatbotEwa.StateRateFor | src/ChatbotApi/Services/EwaBalanceCalculator.cs:236-240 | allowances lower the state rate, never below 0 and, for non-negative allowances, never above 5 % |
| ChatbotEwa.ReadTaxSettings | src/ChatbotApi/Services/EwaBalanceCalculator.cs:210-253 | the federal rate read is the default or at least 10 %; the state rate is never negative |
| ChatbotEwa.NoIncomeTaxStateRate | src/ChatbotApi/Services/EwaBalanceCalculator.cs:242-248 | a state without income tax, in any case, has no state rate |
| ChatbotEwa.EstimatedTaxes | src/ChatbotApi/Services/EwaBalanceCalculator.cs:255-259 | with non-negative gross, rates and withholdings the taxes are non-negative |
| ChatbotEwa.TaxSettingsOf | src/ChatbotApi/Services/EwaBalanceCalculator.cs:210-253 | a tax reply that does not parse leaves the default rates |
| ChatbotEwa.NetEarned | src/ChatbotApi/Services/EwaBalanceCalculator.cs:70 | the net is non-negative and at least gross less taxes and deductions |
| ChatbotEwa.AvailableWithdrawal | src/ChatbotApi/Services/EwaBalanceCalculator.cs:72-75 | between 0 and the 200 daily maximum, in cents; the maximum when 70 % of the net reaches it; otherwise 70 % of the net to within half a cent |
| ChatbotEwa.ReadEmployee | src/ChatbotApi/Services/EwaBalanceCalculator.cs:55-58 | the employee fields are read only from an object |
| ChatbotEwa.EstimateOf | src/ChatbotApi/Services/EwaBalanceCalculator.cs:77-101 | the withdrawable amount is at most the 200 maximum; the net is non-negative and equals the available balance; the note says "capped" exactly when the maximum is reached |
| ChatbotEwa.GetEwaBalance | src/ChatbotApi/Services/EwaBalanceCalculator.cs:31-110 | with the gross earned as the calculator is written: an employee reply that does not parse, is not an object or lacks a field fails; one with an error member is passed through; otherwise the estimate from the gross, taxes and deductions |
| SearchQueryBuilder.FieldEnrichment | frontend/src/utils/searchQueryBuilder.js:6-9 | only pay_type and is_active are enriched, both as select fields |
| SearchQueryBuilder.EsTypeMap | frontend/src/utils/searchQueryBuilder.js:12-23 | every mapped index type gets a known UI type, boolean exactly the select type; unlisted types get none |
| SearchQueryBuilder.Unsnake | frontend/src/utils/searchQueryBuilder.js:25-27 | each underscore becomes a space and nothing else changes |
| SearchQueryBuilder.SnakeToLabel | frontend/src/utils/searchQueryBuilder.js:25-27 | the label keeps the length and has no underscore; a word's first letter is upper-cased and the other letters are kept |
| SearchQueryBuilder.FullField | frontend/src/utils/searchQueryBuilder.js:39 | a top-level property is its name; a deeper one is the prefix, a dot and the name |
| SearchQueryBuilder.LeafDef | frontend/src/utils/searchQueryBuilder.js:54-75 | a leaf is skipped exactly when it has neither an enrichment nor a known index type; otherwise its path, index type, nesting and category, with the enrichment's options first and true/false for booleans |
| SearchQueryBuilder.WalkFields | frontend/src/utils/searchQueryBuilder.js:37-77 | every definition the walk emits is well formed, nested below a nested property and below its prefix |
| SearchQueryBuilder.WalkFieldsComplete | frontend/src/utils/searchQueryBuilder.js:37-77 | the walk loses nothing: a definition any earlier property emits is among the definitions of the walk |
| SearchQueryBuilder.EntryFields | frontend/src/utils/searchQueryBuilder.js:38-76 | one property emits well-formed definitions, nested inside a nested walk and below the prefix; an excluded path emits none; a leaf emits exactly its definition when its enrichment or index type gives it a UI type, and nothing otherwise |
| SearchQueryBuilder.DottedBelow | frontend/src/utils/searchQueryBuilder.js:39-52 | definitions below a child's path are below its parent's path too |
| SearchQueryBuilder.Root | frontend/src/utils/searchQueryBuilder.js:79 | the walk starts at the mapping's properties |
| SearchQueryBuilder.FieldDefinitions | frontend/src/utils/searchQueryBuilder.js:34-81 | every definition found is well formed, and every top-level leaf with an enrichment or a known type appears as its definition |
| SearchQueryBuilder.NestedLeafListed | frontend/src/utils/searchQueryBuilder.js:44-60 | a leaf one level down a top-level nested property appears too, as a nested field under its dotted path in the category named after the nested property |
| SearchQueryBuilder.Walk | frontend/src/utils/searchQueryBuilder.js:37-77 | the recursive walk appends exactly the definitions of the walk, property by property |
| SearchQueryBuilder.BuildFieldDefinitions | frontend/src/utils/searchQueryBuilder.js:34-81 | the definitions of the whole mapping: all well formed, every listed top-level leaf present |
| SearchQueryBuilder.NestedPropertyFields | frontend/src/utils/searchQueryBuilder.js:44-52 | a top-level nested property contributes only nested definitions below its path |
| SearchQueryBuilder.FlatWalkCategory | frontend/src/utils/searchQueryBuilder.js:48-72 | inside a nested walk over leaves every definition carries the walk's category |
| SearchQueryBuilder.NestedCategoryIsParentLabel | frontend/src/utils/searchQueryBuilder.js:44-52 | the leaves of a top-level nested property fall in the category named by the property's label |
| SearchQueryBuilder.UnknownTypeSkipped | frontend/src/utils/searchQueryBuilder.js:54-60 | a leaf of unknown type without enrichment yields nothing |
| SearchQueryBuilder.ContainsPattern | frontend/src/utils/searchQueryBuilder.js:137 | the pattern is the lower-cased text between two asterisks |
| SearchQueryBuilder.TextFieldsOfType | frontend/src/utils/searchQueryBuilder.js:119-124 | exactly the top-level text fields of the given index type, no more of them than definitions |
| SearchQueryBuilder.TextFieldsOfTypeInOrder | frontend/src/utils/searchQueryBuilder.js:119-124 | the fields keep the definitions' order: those of any first n definitions come first |
| SearchQueryBuilder.KeywordClauses | frontend/src/utils/searchQueryBuilder.js:136-138 | one wildcard clause with the contains pattern per keyword field |
| SearchQueryBuilder.CollectAlternatives | frontend/src/utils/searchQueryBuilder.js:117-142 | the pushes build exactly the phrase-prefix and wildcard alternatives |
| SearchQueryBuilder.SimpleQuery | frontend/src/utils/searchQueryBuilder.js:113-164 | the quick-search query is match_all, or a bool query with at most one must (an any-of the alternatives) and at most two filters, never empty |
| SearchQueryBuilder.BuildSimpleQuery | frontend/src/utils/searchQueryBuilder.js:113-164 | the quick-search query: text alternatives, then the status and pay-type filters, or match-all |
| SearchQueryBuilder.MatchAllExactly | frontend/src/utils/searchQueryBuilder.js:113-154 | the quick search matches everything exactly when there is no text and no filter |
| SearchQueryBuilder.StatusFilter | frontend/src/utils/searchQueryBuilder.js:144-147 | a set status filter becomes a term on is_active, true exactly for "active" |
| SearchQueryBuilder.PayTypeFilter | frontend/src/utils/searchQueryBuilder.js:148-150 | a set pay-type filter becomes a term on pay_type with the value as given, the last filter, after the status one if that is set |
| SearchQueryBuilder.AnalyzedFieldsSearched | frontend/src/utils/searchQueryBuilder.js:117-134 | when a top-level analysed text field exists, the first alternative for non-blank text is one phrase-prefix search of the trimmed text over all such fields, that field among them |
| SearchQueryBuilder.KeywordFieldSearched | frontend/src/utils/searchQueryBuilder.js:117-141 | every top-level keyword text field is searched with a wildcard on the trimmed, lower-cased text |
| SearchQueryBuilder.SelectValue | frontend/src/utils/searchQueryBuilder.js:248 | "true" and "false" become booleans; other values stay text |
| SearchQueryBuilder.NumberClause | frontend/src/utils/searchQueryBuilder.js:231-243 | a clause exists exactly for the six comparison operators: eq a term, neq its must-not, gt/gte/lt/lte a range with just that bound |
| SearchQueryBuilder.Clause | frontend/src/utils/searchQueryBuilder.js:212-273 | no clause for an unknown UI type, an unparsable number or a "between" without its second date; each UI type accepts exactly its operators; a parsed number gives its number clause, contains a wildcard on `*lower(value)*`, starts_with a lower-cased prefix, equals a term on the value, is a term on the select value, before/after/between the date range bounds |
| SearchQueryBuilder.NegatedOperators | frontend/src/utils/searchQueryBuilder.js:231-257 | "not equal" and "is not" are exactly the negations of "equal" and "is" |
| SearchQueryBuilder.SelectBooleans | frontend/src/utils/searchQueryBuilder.js:245-257 | "is" compares with a boolean for "true"/"false" and with the text otherwise |
| SearchQueryBuilder.TextEqualsTarget | frontend/src/utils/searchQueryBuilder.js:216-229 | "equals" on an analysed text field compares its keyword sub-field; a keyword field compares itself |
| SearchQueryBuilder.DateEqualsIsBetweenItself | frontend/src/utils/searchQueryBuilder.js:259-269 | a date "equals" is the range from the day to itself |
| SearchQueryBuilder.ToLowerIdempotent | frontend/src/utils/searchQueryBuilder.js:216-229 | lower-casing twice is lower-casing once |
| SearchQueryBuilder.TextMatchIgnoresCase | frontend/src/utils/searchQueryBuilder.js:216-229 | text matching ignores the case of the value typed |
| SearchQueryBuilder.FindFieldDef | frontend/src/utils/searchQueryBuilder.js:109-111 | the first definition with that field, or none exactly when no definition has it |
| SearchQueryBuilder.NestedPath | frontend/src/utils/searchQueryBuilder.js:200 | the nested path is the dot-free text before the first dot, or empty |
| SearchQueryBuilder.ConditionQuery | frontend/src/utils/searchQueryBuilder.js:189-210 | no query for an incomplete condition or an unknown field; a nested field's clause is wrapped in a nested query on its path |
| SearchQueryBuilder.Combine | frontend/src/utils/searchQueryBuilder.js:178-186 | no query for no clauses, the one clause itself, all for "AND" and any otherwise |
| SearchQueryBuilder.ChildClauses | frontend/src/utils/searchQueryBuilder.js:168-177 | no more clauses than children |
| SearchQueryBuilder.AdvancedQuery | frontend/src/utils/searchQueryBuilder.js:166-187 | no query exactly when no child yields a clause |
| SearchQueryBuilder.BuildAdvancedQuery | frontend/src/utils/searchQueryBuilder.js:166-187 | the loop with recursion into sub-groups computes the group's query |
| SearchQueryBuilder.OtherNodesIgnored | frontend/src/utils/searchQueryBuilder.js:168-177 | a child of an unknown type changes nothing |
| SearchQueryBuilder.ChildClausesOfPrefix | frontend/src/utils/searchQueryBuilder.js:168-177 | the clauses of the first children depend only on those children |
| SearchQueryBuilder.SingleSubgroupTransparent | frontend/src/utils/searchQueryBuilder.js:178-186 | a group with a single sub-group is that sub-group, whatever the operators |
| SearchQueryBuilder.EmptyCondition | frontend/src/utils/searchQueryBuilder.js:284-292 | an empty condition has empty field, operator and values |
| SearchQueryBuilder.CreateEmptyGroup | frontend/src/utils/searchQueryBuilder.js:276-282 | a new group holds one empty condition; its operator defaults to "AND" |
| SearchQueryBuilder.EmptyGroupHasNoQuery | frontend/src/utils/searchQueryBuilder.js:276-292 | a freshly created group yields no query |
| SearchApi.LookupUnique | frontend/src/api/search.js:15-19 | in an object with unique keys, a key finds exactly the member that carries it |
| SearchApi.FindKey | frontend/src/api/search.js:18 | the position of the member with that key, or -1 exactly when there is none |
| SearchApi.Put | frontend/src/api/search.js:18 | assigning a member sets that key and leaves every other key as it was; keys stay unique |
| SearchApi.PutAll | frontend/src/api/search.js:16-19 | assigning members in turn: each key takes the last value assigned, others keep theirs |
| SearchApi.Entries | frontend/src/api/search.js:16 | one entry per distinct name, each with the value a lookup finds |
| SearchApi.CamelKey | frontend/src/api/search.js:17 | the renamed key is no longer, non-empty for a non-empty key, and has no underscore before a lower-case letter |
| SearchApi.CamelKeyWithoutUnderscore | frontend/src/api/search.js:17 | a key without underscores is kept |
| SearchApi.CamelKeyKeepsCamel | frontend/src/api/search.js:17 | a key with no underscore before a lower-case letter is kept |
| SearchApi.CamelKeyIdempotent | frontend/src/api/search.js:17 | renaming twice is renaming once |
| SearchApi.CamelKeyJoin | frontend/src/api/search.js:17 | an underscore and a lower-case letter after a part without underscores become the upper-case letter |
| SearchApi.SnakePair | frontend/src/api/search.js:17 | a name with one underscore pair loses the underscore and upper-cases the letter |
| SearchApi.EmployeeIdName | frontend/src/api/search.js:17 | "employee_id" becomes "employeeId", the name the row reads |
| SearchApi.PayTypeName | frontend/src/api/search.js:17 | "pay_type" becomes "payType", the name the row reads |
| SearchApi.Camelize | frontend/src/api/search.js:11-21 | scalars and null are kept, arrays keep their length, objects stay objects with unique keys |
| SearchApi.CamelizeEntries | frontend/src/api/search.js:15-19 | the partly built result always has unique keys |
| SearchApi.SnakeToCamel | frontend/src/api/search.js:11-21 | the recursive conversion computes the renamed value |
| SearchApi.ArraysElementwise | frontend/src/api/search.js:12 | arrays are converted element by element |
| SearchApi.CamelizedMember | frontend/src/api/search.js:15-20 | where no two names rename alike, each member is found converted under its renamed key |
| SearchApi.CamelizedEntriesMember | frontend/src/api/search.js:15-20 | after all entries are assigned, a member is found converted under its renamed key |
| SearchApi.CamelizeEntriesLookup | frontend/src/api/search.js:16-19 | after the first entries are assigned, a member among them is found under its renamed key |
| SearchApi.OptProp | frontend/src/api/search.js:35 | an optional read of undefined or null is undefined |
| SearchApi.LeadingDigitCount | frontend/src/api/search.js:44 | the count covers exactly the run of digits at the start |
| SearchApi.LeadingValue | frontend/src/api/search.js:44 | none exactly when the text does not start with a digit; otherwise the value of the leading digits |
| SearchApi.ParseIntOfDigitStart | frontend/src/api/search.js:44 | a text starting with a digit reads as the value of its leading digits |
| SearchApi.ParseIntDigits | frontend/src/api/search.js:44 | a text of digits reads as its value, the same as Long.parseLong on the other side of the index |
| SearchApi.ParseIntIgnoresTail | frontend/src/api/search.js:44 | whatever follows the leading digits is ignored |
| SearchApi.ParseIntValue | frontend/src/api/search.js:44 | undefined and null read as NaN; a number reads as itself; a string as its text |
| SearchApi.ParseIntText | frontend/src/api/search.js:44 | NaN exactly when no digit follows the leading white space and sign; otherwise the value of those digits, negated after a minus sign, and non-negative without one |
| SearchApi.RowOf | frontend/src/api/search.js:39-50 | the row's id is the converted employeeId, its pay type the parsed payType, its pay periods those given or empty |
| SearchApi.HitRow | frontend/src/api/search.js:37-51 | a hit throws exactly when it has no source or a null one; otherwise its row is read from the converted source |
| SearchApi.HitRows | frontend/src/api/search.js:37-51 | one row per hit, in order, or a throw when any hit throws |
| SearchApi.HitsOf | frontend/src/api/search.js:35 | missing or falsy hits read as none |
| SearchApi.SearchEmployees | frontend/src/api/search.js:23-54 | a failed response throws; otherwise the rows of all hits and the reported total, or the number of rows when none is reported |
| SearchApi.RowReadsIndexFields | frontend/src/api/search.js:38-44 | a row reads the index's snake-case employee_id and pay_type, whatever the order of the members |
| SearchApi.WithDefault | frontend/src/api/search.js:27 | the members win; the default is set only when they leave the key unset |
| SearchApi.RequestBody | frontend/src/api/search.js:27 | the request asks for 200 hits unless the query sets its own size, and carries the query's members |
| JsonTree.Lookup | src/ChatbotApi/Services/EwaBalanceCalculator.cs:143 | a member is found exactly when some member has that name, and then it is one of the object's members |
| Jackson.ReadTree | src/NetPayProcessor/src/main/java/com/payroll/netpay/NetPayProcessor.java:81-82 | blank text reads as the missing node; other text reads as the parsed tree, or throws when it does not parse |
| Jackson.Path | src/NetPayProcessor/src/main/java/com/payroll/netpay/NetPayProcessor.java:102-107 | a path step is present only on an object with that member, and then it is that member |
| JsonTree.Member | src/ChatbotApi/Services/EwaBalanceCalculator.cs:55-58 | a member is found exactly when the value is an object that has it, and it is the last member of that name; this one reading serves `GetProperty` here, Jackson's `get` (NetPayProcessor.java:84-85) and the JavaScript property reads of search.js |
| Jackson.JavaTrim | src/NetPayProcessor/src/main/java/com/payroll/netpay/NetPayProcessor.java:85 | the trimmed text has no control or space character at either end |
| Jackson.AsText | src/NetPayProcessor/src/main/java/com/payroll/netpay/NetPayProcessor.java:84 | a string node reads as its text, null as "null", a missing node, array or object as "" |
| Jackson.AsTextOr | src/NetPayProcessor/src/main/java/com/payroll/netpay/NetPayProcessor.java:120 | a missing or null node gives the default; any other its text |
| Jackson.AsTextOrElse | src/NetPayProcessor/src/main/java/com/payroll/netpay/NetPayProcessor.java:103 | the text with a default, as the general reader gives it |
| Jackson.ParseDecimal | src/NetPayProcessor/src/main/java/com/payroll/netpay/NetPayProcessor.java:102 | a whole number in text reads as that number |
| Jackson.ParseUnsignedDecimal | src/NetPayProcessor/src/main/java/com/payroll/netpay/NetPayProcessor.java:102 | a text of digits reads as its value |
| Jackson.PlusSignDropped | src/NetPayProcessor/src/main/java/com/payroll/netpay/NetPayProcessor.java:85 | a leading plus sign does not change the number read |
| Jackson.TextAsLong | src/NetPayProcessor/src/main/java/com/payroll/netpay/NetPayProcessor.java:85 | blank text reads as the default; a whole number in text as that number |
| Jackson.AsLongOr | src/NetPayProcessor/src/main/java/com/payroll/netpay/NetPayProcessor.java:85 | a missing node, null, array or object gives the default; an integer itself; a string holding an integer that integer |
| Jackson.AsDoubleOr | src/NetPayProcessor/src/main/java/com/payroll/netpay/NetPayProcessor.java:102 | a missing node, null, array or object gives the default; a number itself |
| Jackson.AsBooleanOr | src/NetPayProcessor/src/main/java/com/payroll/netpay/NetPayProcessor.java:234-235 | a boolean reads as itself, an integer as whether it is non-zero; missing, null, arrays, objects and decimals give the default |
| Decimals.RoundHalfEven | src/PayrollService.Domain/Entities/TimeEntry.cs:34 | the nearest integer, the even one on a tie |
| Decimals.RoundHalfEvenOfInt | src/PayrollService.Domain/Entities/TimeEntry.cs:34 | an integer rounds to itself |
| Decimals.RoundHalfEvenMonotone | src/PayrollService.Domain/Entities/TimeEntry.cs:34 | rounding keeps the order |
| Decimals.Round2 | src/PayrollService.Domain/Entities/TimeEntry.cs:34 | an amount rounded to cents has two decimal places and is within half a cent |
| Decimals.Round2Exact | src/PayrollService.Domain/Entities/TimeEntry.cs:34 | an amount already in cents is unchanged |
| Decimals.Round2Idempotent | src/PayrollService.Application/Services/EwaCalculationService.cs:102 | rounding to cents twice is rounding once |
| Decimals.Round2Monotone | src/PayrollService.Application/Services/EwaCalculationService.cs:102 | rounding to cents keeps the order |
| Decimals.Round2NonNegative | src/PayrollService.Application/Services/EwaCalculationService.cs:102 | a non-negative amount rounds to a non-negative one |
| Decimals.Floor | src/PayrollService.Application/Services/EwaCalculationService.cs:115 | the floor is the whole number at most the amount and within one of it |
| Decimals.TruncDiv | src/NetPayProcessor/src/main/java/com/payroll/netpay/NetPayProcessor.java:320 | integer division rounding toward zero: the quotient leaves less than one divisor; the ordinary quotient on non-negative operands |
| Decimals.TruncMod | src/ChatbotApi/Services/EwaBalanceCalculator.cs:269 | the remainder completes the truncating quotient |
| Decimals.Truncate | src/ChatbotApi/Services/EwaBalanceCalculator.cs:268 | the integer part is within one of the number and no larger in magnitude |
| Clock.Date | src/ChatbotApi/Services/EwaBalanceCalculator.cs:265 | the day's midnight is at most the time and less than a day before it |
| Clock.DayOfWeek | src/PayrollService.Application/Queries/EarlyWageAccess/GetEwaBalanceQuery.cs:185 | the day of the week is one of seven |
| Clock.WholeDaySpan | src/ChatbotApi/Services/EwaBalanceCalculator.cs:268 | a span of n whole days counts as n days |
| Clock.DayNumberAddDays | src/PayrollService.Application/Queries/EarlyWageAccess/GetEwaBalanceQuery.cs:187 | adding k days moves the date k days on |
| Clock.DayOfWeekAddDays | src/PayrollService.Application/Queries/EarlyWageAccess/GetEwaBalanceQuery.cs:185-187 | adding k days moves the weekday k places round the week |
| Clock.DateOrder | src/PayrollService.Application/Queries/EarlyWageAccess/GetEwaBalanceQuery.cs:183 | comparing dates is comparing day numbers |
| Clock.WholeWeeksKeepDayOfWeek | src/PayrollService.Application/Queries/EarlyWageAccess/GetEwaBalanceQuery.cs:171 | whole weeks keep the weekday |
| Guids.HexText | src/PayrollService.Infrastructure/StateStore/StateKeyHelper.cs:9 | a GUID digit string has one character per digit |
| Guids.ParseHex | src/PayrollService.Infrastructure/StateStore/StateKeyHelper.cs:26 | parsed hex digits keep the length |
| Guids.ParseHexText | src/PayrollService.Infrastructure/StateStore/StateKeyHelper.cs:26 | reading back the hex text of digits gives the digits |
| Guids.Format | src/PayrollService.Infrastructure/StateStore/StateKeyHelper.cs:9 | a GUID is written as 36 characters |
| Guids.ParseFormat | src/PayrollService.Infrastructure/StateStore/StateKeyHelper.cs:26 | parsing a written GUID gives it back |
| Guids.TryParse | src/PayrollService.Infrastructure/StateStore/StateKeyHelper.cs:26 | a text parses only with 36 characters hyphenated at 8, 13, 18 and 23, or with 32 hex digits |
| Guids.FormatHyphens | src/PayrollService.Infrastructure/StateStore/StateKeyHelper.cs:19-26 | the first eight characters of a written GUID hold no hyphen, so a key's first hyphen is the separator |
| Text.IndexOf | src/PayrollService.Infrastructure/StateStore/StateKeyHelper.cs:19 | the first position of the character, or -1 exactly when it does not occur |
| Text.IndexOfAfterPrefix | src/PayrollService.Infrastructure/StateStore/StateKeyHelper.cs:19 | after a part without the character, the character is found at the part's end |
| Text.Split | src/ListenerApi.Data/Services/InMemorySubscriptionPublisher.cs:27 | at least one part and none holding the separator; the first part is the text before the first separator |
| Text.SplitJoin | src/ListenerApi.Data/Services/InMemorySubscriptionPublisher.cs:27 | splitting a part, the separator and the rest gives the part and the rest's parts |
| Text.ToLower | frontend/src/utils/searchQueryBuilder.js:137 | lower-casing character by character keeps the length |
| Text.ToUpper | src/PayrollService.Application/Queries/EarlyWageAccess/GetEwaBalanceQuery.cs:124 | upper-casing character by character keeps the length |
| Text.TrimStart | frontend/src/utils/searchQueryBuilder.js:117 | the start is trimmed to a non-white-space character |
| Text.TrimEnd | frontend/src/utils/searchQueryBuilder.js:117 | the end is trimmed to a non-white-space character |
| Text.NatToString | src/NetPayProcessor/src/main/java/com/payroll/netpay/NetPayProcessor.java:109 | a number is written as digits without a leading zero |
| Text.DigitsOfNat | src/NetPayProcessor/src/main/java/com/payroll/netpay/NetPayProcessor.java:109 | a number written as digits reads back as itself |
| Text.ParseLongIntToString | src/NetPayProcessor/src/main/java/com/payroll/netpay/NetPayProcessor.java:109 | a written integer reads back as itself |
| Text.IntToStringHasNo | src/NetPayProcessor/src/main/java/com/payroll/netpay/NetPayProcessor.java:109 | a written integer holds no other character than a sign and digits, so no colon |

## Left out

- Transport and storage are not modelled: Kafka consumer loops, Dapr pub/sub and state wiring, HTTP clients, controllers and database adapters. Repositories and state stores are maps, and publishing appends to a list of sent messages.
- Concurrency is not modelled. Each message or request is handled alone and in sequence. The read-model processor reads and then writes a record without atomicity, so concurrent redelivery could lose an update; the Java processors share static maps across tasks.
- JSON text parsing (Jackson, System.Text.Json) is a parameter `string -> Option<Json>`, where `None` means that parsing throws. `DateTime.TryParse` and `parseFloat` are parameters too.
- The wall clock (`DateTime.UtcNow`, `System.currentTimeMillis`) and GUID generation are parameters.
- C# `decimal` is modelled as exact reals. Its 28-digit precision and overflow are not modelled.
- Binary floating point is not modelled. This covers the Java `double` amounts, the `computeAndEmit` tax arithmetic (`TaxCalculator`, `roundTwo`) and the double fields of the Java records, which are carried as reals.
- NetPay.NetPayProcessor.ComputeAndEmit: states that a result is forwarded exactly when gross pay is stored for the period, and that no store changes. It does not model the figures `TaxCalculator` computes for the result.
- Logging and exception messages are not modelled. A thrown exception is an error result or `None`.
- Text case conversion and white space are ASCII only: `ToLowerInvariant`, `ToUpperInvariant`, JavaScript `toLowerCase`/`trim` and `StringComparer.OrdinalIgnoreCase`. There is no Unicode case folding.
- SearchApi.Entries: the order of JavaScript's `Object.entries`, which lists integer-like keys first, is not modelled. Entries keep their order of first appearance.
- SearchApi.ParseIntValue: `parseInt` on an array, which first joins its elements into text, is read as NaN. Prototype-inherited properties are not modelled. A number is read through the text it was written with in the JSON, not through JavaScript's `String(n)`: `1e3` reads as 1 where JavaScript reads 1000, and a number whose `String` form has an exponent (1e21 and up) reads as its whole value.
- Guids.TryParse: accepts only the "D" (hyphenated) and "N" (32 digits) formats. The "B" (`{…}`), "P" (`(…)`) and "X" formats and surrounding white space, which .NET `Guid.Parse` and `Guid.TryParse` also accept, are read as non-GUIDs. Every key and identity this system writes is in "D" format.
- StateKeys.ParseKey: an identity in "B", "P" or "X" format, or padded with white space, fails with the identity error here, where `Guid.Parse` would accept it (see Guids.TryParse).
- EventProcessing.EventProcessor.ProcessNetPayEvent: an employee id in "B", "P" or "X" format, or padded with white space, is treated as a non-GUID and changes nothing, where `Guid.TryParse` would accept it (see Guids.TryParse).
- Jackson.ParseDecimal: reads only the plain decimal forms of `Double.parseDouble` (an optional sign, digits, at most one point). Exponents, hexadecimal floating point, `NaN`, `Infinity` and the `d`/`f` suffixes, which `parseDouble` also accepts, read as not a number. Results are exact reals, not rounded doubles.
- Jackson.TextAsLong: inherits ParseDecimal's forms for its decimal fallback, so text such as "1e3" gives the default here. Integer text outside the 64-bit range is read as its exact value, where Jackson cannot hold it in a `long`.
- Jackson.AsDoubleOr: textual numbers go through ParseDecimal, so exponent, hexadecimal and named forms give the default here, where Jackson reads a value.
- SearchUpdater.StripQuotes: Java's `$` also matches before a final line terminator, so a key ending in a quote and a newline loses that quote in Java. The model removes only a quote that is the last character.
- SearchQueryBuilder.ConditionQuery: a condition whose value is missing is modelled with the value "". In JavaScript an `undefined` value passes the emptiness test at searchQueryBuilder.js:191 and reaches `buildClause`, where text operators call `toLowerCase` on it and throw.
- ChatbotEwa.GetPayPeriodStart: the model reads the clock once per estimate. The source reads `DateTime.UtcNow` separately for the start, the end and today, so an estimate that runs across midnight can mix two days.
- EwaBalanceQuery.Handle: the model reads the clock once per request. The source reads `DateTime.UtcNow` separately for the pay period (GetEwaBalanceQuery.cs:162), the work days elapsed (GetEwaBalanceQuery.cs:179) and the response timestamp (GetEwaBalanceQuery.cs:138), so a request that runs across midnight can mix two days.
- SearchApi.CamelizedMember: proved only where no two names of an object rename to the same key. When two do, the later one wins, as the assignment order says.
- SearchQueryBuilder.NestedCategoryIsParentLabel: proved for a nested property whose own properties are all leaves.
- SearchQueryBuilder.NestedPath: the nested path is the first path segment, as `indexOf('.')` gives it. A field nested two levels deep is therefore queried under its outer path only.
- `fetchMapping` in `frontend/src/api/search.js` is HTTP plumbing. Its mapping arrives as the input of `BuildFieldDefinitions`.
- Source files from different snapshots are modelled as each file is written:
  - `EventProcessor.cs` assigns a `PayAttributes` member that `EmployeeRecord.cs` lacks. The model's record carries it (`ReadModel.EmployeeRecord.payAttributes`).
  - The publisher interface declares `PublishPayAttributesChangeAsync`, which the in-memory publisher does not implement. The model adds it with the same failure behaviour as the employee change.
  - `TimeEntry.UpdateTimes` raises a `TimeEntryUpdatedEvent` that `TimeEntryEvents.cs` does not define. Its type tag is taken to be `timeentry.updated`.
  - `UpdateEmployeeCommand.cs` passes six arguments to the five-argument `Employee.Update`. The model follows `Employee.cs`, and its update event carries the default 40 pay-period hours.
- The thin create, update and delete handlers for employees, deductions and time entries, `DataSeeder.cs`, the chat and LLM services, the UI components and authentication are outside this model.

## Findings

| source | as written | input that shows it | evidently intended | confidence | as-written member | corrected member |
|---|---|---|---|---|---|---|
| src/NetPayProcessor/src/main/java/com/payroll/netpay/NetPayProcessor.java:120-128 | `envelope.path("data").asText(null)` returns "" for an object node rather than null, so the object branch never runs; `readTree("")` gives the missing node and the event is dropped | an envelope `{"data": {"Id": id, "DomainEvents": [{"EventType": "employee.deactivated"}]}}`: the deactivation is never dispatched | object-shaped `data` is the event data itself, as the branch's comment says | high (not executed) | NetPay.EventDataAsWritten, NetPay.ObjectDataDroppedAsWritten, NetPay.ObjectDataNeverDispatchedAsWritten | NetPay.EventData, NetPay.AsWrittenAgreesOnText |
| src/ChatbotApi/Services/EwaBalanceCalculator.cs:122-126 | the period length is `(end - start).TotalDays` = 13 while the days elapsed count today, so the salaried share reaches the full two-week pay on day 13 | a salary of 2600 gives 100 on both the 13th and the 14th day of a period | the days elapsed out of the 14 days of the period, so the pay grows every day up to the last | medium (not executed) | ChatbotEwa.SalaryGrossAsWritten, ChatbotEwa.SalaryGrossAsWrittenShare, ChatbotEwa.SalaryLastDayAccruesNothingAsWritten | ChatbotEwa.SalaryGross, ChatbotEwa.SalaryGrossAccruesDaily |

The operations follow the code as written: the net-pay processor dispatches employee events through `NetPay.EventDataAsWritten` (`NetPay.EmployeeEventOf`), and the chatbot's gross earned uses `ChatbotEwa.SalaryGrossAsWritten` (`ChatbotEwa.GrossEarned`). The corrected definitions stand beside them with the intended property proved, for comparison.

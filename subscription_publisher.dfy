/** The in-process subscription publisher: turns a projected employee into a change message
    on the "EmployeeChanges" topic. */
module SubscriptionPublisher {
  import opened Wrappers
  import opened Text
  import Clock
  import opened ReadModel
  import DomainEvents

  const EmployeeChangesTopic: string := "EmployeeChanges"

  datatype EmployeeChange = EmployeeChange(employee: EmployeeRecord, changeType: string, timestamp: Clock.DateTime)

  /** What reaches the topic sender. */
  datatype Message =
    | ChangeMessage(topic: string, change: EmployeeChange)
    | PayAttributesMessage(employee: EmployeeRecord)

  /** The exception the topic sender raised, passed on to the caller. */
  datatype PublishError = SendFailed

  /** The change type of a dotted event tag: the second dot-separated segment, or the whole
      tag when it has no dot. */
  function ChangeType(eventType: string): (c: string)
    ensures '.' !in c
    ensures '.' !in eventType ==> c == eventType
    ensures '.' in eventType ==> (
      var rest := eventType[IndexOf(eventType, '.') + 1..];
      StartsWith(rest, c) && (c == rest || rest[|c|] == '.'))
  {
    if '.' in eventType then Split(eventType, '.')[1] else eventType
  }

  /** For every tag the domain raises, the change type is the action part of the tag. */
  lemma ChangeTypeOfEventTag(b: DomainEvents.EventBody)
    ensures ChangeType(DomainEvents.EventType(b)) == DomainEvents.Action(b)
  {
    var t := DomainEvents.EventType(b);
    assert Split(t, '.') == [DomainEvents.Aggregate(b), DomainEvents.Action(b)];
    assert '.' in t;
  }

  class InMemorySubscriptionPublisher {
    /** Everything handed to the topic sender, in order. */
    var sent: seq<Message>

    constructor()
      ensures sent == []
    {
      sent := [];
    }

    /** `PublishEmployeeChangeAsync`. The record is sent unchanged with the derived change type;
        a send failure (`sendFails`, the sender's outcome) sends nothing and is rethrown. */
    method PublishEmployeeChange(employee: EmployeeRecord, eventType: string, now: Clock.DateTime, sendFails: bool)
      returns (r: Result<(), PublishError>)
      modifies this
      ensures r.Err? <==> sendFails
      ensures r.Ok? ==> sent == old(sent) + [ChangeMessage(EmployeeChangesTopic, EmployeeChange(employee, ChangeType(eventType), now))]
      ensures r.Err? ==> sent == old(sent)
    {
      if sendFails {
        return Err(SendFailed);
      }
      var change := EmployeeChange(employee, ChangeType(eventType), now);
      sent := sent + [ChangeMessage(EmployeeChangesTopic, change)];
      return Ok(());
    }

    /** `PublishPayAttributesChangeAsync`, declared by the publisher interface but not implemented
        by this class: modelled as sending the employee with its pay attributes attached. */
    method PublishPayAttributesChange(employee: EmployeeRecord, sendFails: bool) returns (r: Result<(), PublishError>)
      modifies this
      ensures r.Err? <==> sendFails
      ensures r.Ok? ==> sent == old(sent) + [PayAttributesMessage(employee)]
      ensures r.Err? ==> sent == old(sent)
    {
      if sendFails {
        return Err(SendFailed);
      }
      sent := sent + [PayAttributesMessage(employee)];
      return Ok(());
    }
  }
}

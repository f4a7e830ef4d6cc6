/** Payloads of the reservation events and the reservation commands.
    Identifiers (uuids) are natural numbers, instants are whole seconds. */
module Events {

  /** A uuid: aggregate ids, billing-history ids and bill ids. */
  type Id = nat

  /** An instant, in seconds. */
  type Time = int

  /** The payload of an event, one constructor per event kind.
      `Unknown` stands for any event kind the handlers were not written for. */
  datatype EventData =
    | Created(roomId: int, name: string, user: string, startTime: Time, endTime: Time)
    | Confirmed(user: string)
    | Declined(user: string, message: string)
    | TimeChanged(user: string, startTime: Time, endTime: Time)
    | Cancelled(user: string)
    | BookingConflicted
    | Unknown(kind: string)

  /** An event as delivered by the bus: the aggregate it belongs to and its payload. */
  datatype Event = Event(aggregateId: Id, data: EventData)

  /** The five reservation commands. */
  datatype Command =
    | CreateReservation(id: Id, name: string, user: string, roomId: int, startTime: Time, endTime: Time)
    | ConfirmReservation(id: Id, user: string)
    | DeclineReservation(id: Id, user: string, message: string)
    | ChangeReservationTime(id: Id, user: string, startTime: Time, endTime: Time)
    | CancelReservation(id: Id, user: string)
  {
    /** The aggregate a command is routed to. */
    function AggregateId(): Id
    {
      match this
      case CreateReservation(id, _, _, _, _, _) => id
      case ConfirmReservation(id, _) => id
      case DeclineReservation(id, _, _) => id
      case ChangeReservationTime(id, _, _, _) => id
      case CancelReservation(id, _) => id
    }
  }

  /** Which handler receives which event kinds. */
  predicate SagaReceives(d: EventData)
  {
    d.Created? || d.TimeChanged? || d.Cancelled?
  }

  predicate BillingReceives(d: EventData)
  {
    d.Created? || d.Confirmed? || d.Declined? || d.TimeChanged? || d.Cancelled?
  }

  predicate ViewReceives(d: EventData)
  {
    BillingReceives(d) || d.BookingConflicted?
  }
}

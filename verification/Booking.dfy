/** The durable entities: a row of the bookings table and a row of its lineage
    (internal/model/booking.go, internal/model/event.go, migrations/0001_bookings.sql). */
module Bookings {
  import opened Dates
  import opened Statuses

  datatype Option<+T> = None | Some(value: T)

  /** What is to be booked, and for whom. */
  datatype Stay = Stay(
    property: string, room: string, checkIn: Date, checkOut: Date, firstName: string, lastName: string)

  /** What the distributor asked for, carried unchanged for the life of the row. */
  datatype Identity = Identity(
    id: string, distributor: string, key: string, fingerprint: string, supplier: string, stay: Stay)

  datatype Booking = Booking(
    identity: Identity,
    status: Status,
    attempts: nat,               // supplier_attempts
    marker: Option<nat>,         // in_flight_attempt
    flagged: bool,               // needs_recovery
    reference: Option<string>,   // supplier_reference
    failure: Option<string>,     // failure_reason
    supplierKey: Option<string>, // supplier_idempotency_key
    version: nat,
    updatedAt: int)

  datatype EventKind =
    | CreatedEvent | TransitionEvent | ConflictEvent
    | RequestEvent | ResponseEvent | TimeoutEvent | CallbackEvent
    | CallbackRejectedEvent | ParkedEvent

  datatype Event = Event(
    kind: EventKind,
    from: Option<Status>,
    to: Status,
    attempt: Option<nat>,
    code: Option<string>,   // supplier_status_code
    reason: Option<string>, // supplier_reason
    digest: Option<string>) // payload_digest

  /** A booking's row together with its lineage, oldest event first. */
  datatype Store = Store(row: Booking, log: seq<Event>)

  /** What the insert writes: the column defaults, and the lineage row beside it. */
  function Inserted(identity: Identity, now: int): Store {
    Store(Booking(identity, Received, 0, None, false, None, None, None, 0, now),
          [Event(CreatedEvent, None, Received, None, None, None, None)])
  }

  /** What an auditor can rebuild from the lineage alone. */
  datatype Audit = Audit(status: Status, attempts: nat, marker: Option<nat>)

  function Column(row: Booking): Audit {
    Audit(row.status, row.attempts, row.marker)
  }

  /** One lineage row read without the table. A request with no reason opens an attempt; the
      same kind with a reason, and every other attempt or transition event, closes it. A park
      and a refusal say nothing about the row: a refusal's status was read earlier. */
  function Read(a: Audit, e: Event): Audit {
    match e.kind
    case CreatedEvent => Audit(e.to, 0, None)
    case RequestEvent =>
      if e.reason.None? && e.attempt.Some?
      then Audit(e.to, e.attempt.value, e.attempt)
      else Audit(e.to, a.attempts, None)
    case TransitionEvent => Audit(e.to, a.attempts, None)
    case ResponseEvent => Audit(e.to, a.attempts, None)
    case TimeoutEvent => Audit(e.to, a.attempts, None)
    case CallbackEvent => Audit(e.to, a.attempts, None)
    case ConflictEvent => a
    case CallbackRejectedEvent => a
    case ParkedEvent => a
  }

  function Replay(log: seq<Event>): Audit {
    if log == [] then Audit(Received, 0, None)
    else Read(Replay(log[..|log| - 1]), log[|log| - 1])
  }

  lemma ReplayAppend(log: seq<Event>, e: Event)
    ensures Replay(log + [e]) == Read(Replay(log), e)
  {
  }
}

/** The SQL. Every write to a booking is one statement that locks the row, guards on what it
    finds, updates, appends lineage and returns what it saw, so a statement is a function of
    the row and its lineage (internal/repository/booking/transition.go, authorize.go). */
module Statements {
  import opened Statuses
  import opened Bookings

  datatype MarkerRule = Unset | Clear | Owned | Supersede

  datatype Transition = Transition(
    from: Status, to: Status,
    rule: MarkerRule, attempt: Option<nat>,
    kind: EventKind,
    reference: Option<string>, failure: Option<string>, clearFlag: bool,
    code: Option<string>, reason: Option<string>, digest: Option<string>)

  datatype Statement =
    | Select
    | Guarded(t: Transition)
    | ClearMarker(attempt: nat, kind: EventKind, reason: Option<string>)
    | AppendRefusal(e: Event)
    | ResolveStale
    | Authorize(budget: int, key: string)
    | ParkIfUnknown
    | Flag

  /** What a statement's trailing SELECT returns. */
  datatype Reply =
    | Found(row: Booking)
    | Moved(applied: Option<Status>, current: Status, marker: Option<nat>)
    | Cleared(cleared: bool)
    | Appended
    | Resolved(stale: Option<nat>)
    | Granted(attempt: Option<nat>, previous: Status, held: Option<nat>, soFar: nat)
    | Parked(parked: bool)
    | Flagged(changed: bool)
    | NoRow     // no booking with this id
    | Lost      // the round trip failed; the statement may or may not have run

  const ATTEMPT_ABANDONED := "attempt_abandoned"

  predicate MarkerHolds(t: Transition, row: Booking) {
    match t.rule
    case Clear => row.marker.None?
    case Owned => t.attempt.Some? && row.marker == t.attempt
    case Supersede => true
    case Unset => false
  }

  predicate Moves(t: Transition, row: Booking) {
    row.status == t.from && MarkerHolds(t, row)
  }

  predicate Resolves(row: Booking) {
    row.marker.Some? && (row.status.Pending? || row.status.Unknown?)
  }

  predicate Grants(row: Booking, budget: int) {
    && row.marker.None?
    && row.attempts < budget
    && (row.status.Received? || row.status.Pending? || row.status.Unknown?)
  }

  predicate Parks(row: Booking) {
    row.status.Unknown? && row.marker.None?
  }

  function Coalesce<T>(a: Option<T>, b: Option<T>): Option<T> {
    if a.Some? then a else b
  }

  /** Every UPDATE bumps the version, and the trigger stamps updated_at on every UPDATE,
      including the self-assignment in Flag. */
  function Touch(row: Booking, now: int): Booking {
    row.(version := row.version + 1, updatedAt := now)
  }

  function RowAfter(row: Booking, now: int, q: Statement): Booking {
    match q
    case Select => row
    case AppendRefusal(_) => row
    case Guarded(t) =>
      if !Moves(t, row) then row else
        Touch(row, now).(
          status := t.to,
          marker := None,
          reference := Coalesce(t.reference, row.reference),
          failure := t.failure,
          flagged := if t.clearFlag then false else row.flagged)
    case ClearMarker(k, _, _) =>
      if row.marker != Some(k) then row else Touch(row, now).(marker := None)
    case ResolveStale =>
      if !Resolves(row) then row else Touch(row, now).(status := Unknown, marker := None)
    case Authorize(budget, key) =>
      if !Grants(row, budget) then row else
        Touch(row, now).(
          attempts := row.attempts + 1,
          marker := Some(row.attempts + 1),
          status := if row.status.Received? then Pending else row.status,
          supplierKey := Coalesce(row.supplierKey, Some(key)))
    case ParkIfUnknown =>
      if !Parks(row) then row else Touch(row, now).(flagged := true)
    case Flag =>
      if row.flagged then row else Touch(row, now).(flagged := true)
  }

  /** The lineage rows the same statement appends: at most one. */
  function EventsOf(row: Booking, q: Statement): seq<Event> {
    match q
    case Select => []
    case Flag => []
    case AppendRefusal(e) => [e.(from := Some(e.to))]
    case Guarded(t) =>
      if !Moves(t, row) then []
      else [Event(t.kind, Some(row.status), t.to, t.attempt, t.code, t.reason, t.digest)]
    case ClearMarker(k, kind, reason) =>
      if row.marker != Some(k) then []
      else [Event(kind, Some(row.status), row.status, Some(k), None, reason, None)]
    case ResolveStale =>
      if !Resolves(row) then []
      else [Event(TimeoutEvent, Some(row.status), Unknown, row.marker, None, Some(ATTEMPT_ABANDONED), None)]
    case Authorize(budget, _) =>
      if !Grants(row, budget) then []
      else [Event(RequestEvent, Some(row.status), if row.status.Received? then Pending else row.status,
                  Some(row.attempts + 1), None, None, None)]
    case ParkIfUnknown =>
      if !Parks(row) || row.flagged then []
      else [Event(ParkedEvent, Some(Unknown), Unknown, Some(row.attempts), None, None, None)]
  }

  function Effect(s: Store, now: int, q: Statement): Store {
    Store(RowAfter(s.row, now, q), s.log + EventsOf(s.row, q))
  }

  function ReplyTo(row: Booking, q: Statement): (r: Reply)
    ensures !r.NoRow? && !r.Lost?
  {
    match q
    case Select => Found(row)
    case AppendRefusal(_) => Appended
    case Guarded(t) => Moved(if Moves(t, row) then Some(t.to) else None, row.status, row.marker)
    case ClearMarker(k, _, _) => Cleared(row.marker == Some(k))
    case ResolveStale => Resolved(if Resolves(row) then row.marker else None)
    case Authorize(budget, _) =>
      Granted(if Grants(row, budget) then Some(row.attempts + 1) else None, row.status, row.marker, row.attempts)
    case ParkIfUnknown => Parked(Parks(row))
    case Flag => Flagged(!row.flagged)
  }
}

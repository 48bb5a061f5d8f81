/** The repository: each method sends its statement and names what came back
    (internal/repository/booking/transition.go, authorize.go, repository.go). */
module Repository {
  import opened Statuses
  import opened Bookings
  import opened Statements
  import opened Protocol
  import opened Invariant
  import opened Evolution
  import opened Database

  datatype Error = NotFound | InvalidTransition | Infrastructure

  datatype Try<+T> = Ok(value: T) | Err(error: Error) {
    predicate IsFailure() { Err? }
    function PropagateFailure<U>(): Try<U> requires Err? { Err(error) }
    function Extract(): T requires Ok? { value }
  }

  /** What became of a guarded transition. A lost race and a superseded attempt are answers. */
  datatype Ruling =
    | Took(to: Status)
    | LostRace(found: Status)
    | WasSuperseded(found: Status)
    | Broke(error: Error)

  datatype Authorization = Authorization(attempt: Option<nat>, previous: Status, refusal: Option<Refusal>)

  /** The statements the template can be built for. */
  predicate Buildable(t: Transition) {
    Allowed(t.from, t.to) && !t.rule.Unset? && (t.rule.Owned? ==> t.attempt.Some?)
  }

  /** The lineage row that keeps what a superseded attempt was told. Its free text is not modelled. */
  function SupersededEvent(t: Transition, found: Status): (e: Event)
    ensures e.kind.ConflictEvent? && e.(from := Some(e.to)) == e
  {
    Event(ConflictEvent, Some(found), found, t.attempt, t.code, Some("attempt superseded"), t.digest)
  }

  lemma IdleIsNothing(w: World)
    ensures Exec(w, Idle) == w
  {
  }

  lemma EvolvedSame(w: World, me: Option<nat>)
    requires Inv(w)
    ensures Evolved(w, w, me)
  {
    LaterSame(w);
  }

  lemma NoWorseSame(tape: seq<Slot>)
    ensures NoWorse(tape, tape)
  {
  }

  lemma NoWorseTransitive(a: seq<Slot>, b: seq<Slot>, c: seq<Slot>)
    requires NoWorse(a, b) && NoWorse(b, c)
    ensures NoWorse(a, c) && Faults(c) <= Faults(b) <= Faults(a)
    ensures Faultless(a) ==> Faultless(b)
    ensures Solo(a) ==> Solo(b)
    ensures Quiet(a) ==> Quiet(b)
  {
  }

  /** A flag raised since is still up, unless the booking has settled on the supplier's word since. */
  predicate FlagHeld(was: Booking, now: Booking) {
    now.flagged || (!Settled(was.status) && (now.status.Confirmed? || now.status.Rejected?))
  }

  lemma SettledFlagStays(was: World, flagged: World, now: World)
    requires Later(was, flagged) && Later(flagged, now)
    ensures flagged.store.row.flagged ==> FlagHeld(was.store.row, now.store.row)
    ensures FlagHeld(flagged.store.row, now.store.row) ==> FlagHeld(was.store.row, now.store.row)
  {
  }

  /** A guard that fails leaves the booking exactly as it was. */
  lemma RefusedIsNothing(w: World, a: Action, t: Transition)
    requires Enabled(w, a) && StatementOf(w, a) == Guarded(t) && !Moves(t, w.store.row)
    ensures Exec(w, a) == w
  {
  }

  /** What a statement can change: a guarded one the row only if it moves, a clear only if the
      marker is the attempt's; a refusal and a read never the row. */
  lemma StatementTouches(w: World, a: Action)
    requires Enabled(w, a)
    ensures var (q, v) := (StatementOf(w, a), Exec(w, a));
            && (q.Guarded? && !Moves(q.t, w.store.row) ==> v.store == w.store)
            && (q.ClearMarker? && w.store.row.marker != Some(q.attempt) ==> v.store == w.store)
            && (q.AppendRefusal? ==> v.store.row == w.store.row)
            && (q.Select? ==> v.store == w.store)
  {
    assert w.store.log + [] == w.store.log;
  }

  lemma GuardedTouches(w: World, a: Action, t: Transition, me: Option<nat>)
    requires Issues(w, a, Guarded(t), me)
    ensures !Drives(a, me)
    ensures Exec(w, a).store != w.store ==> Moves(t, w.store.row)
    ensures !Moves(t, w.store.row) ==> Exec(w, a) == w
  {
    StatementTouches(w, a);
    if !Moves(t, w.store.row) {
      RefusedIsNothing(w, a, t);
    }
  }

  lemma RefusalFiled(w: World, e: Event)
    requires e.kind.ConflictEvent? || e.kind.CallbackRejectedEvent?
    ensures Enabled(w, Refuse(e)) && StatementOf(w, Refuse(e)) == AppendRefusal(e)
    ensures e.(from := Some(e.to)) in Exec(w, Refuse(e)).store.log
  {
    assert Exec(w, Refuse(e)).store.log[|w.store.log|] == e.(from := Some(e.to));
  }

  lemma FlagRaises(w: World)
    ensures Exec(w, RaiseFlag).store.row.flagged
  {
  }

  class Repo {
    const db: Db

    constructor (db: Db)
      ensures this.db == db
    {
      this.db := db;
    }

    method GetByID() returns (r: Try<Booking>, ghost seen: World)
      requires db.Valid()
      modifies db
      ensures db.known && r.Err? ==> Faults(db.tape) < Faults(old(db.tape))
      ensures db.Keeps(old(db.world), old(db.tape), old(db.trace)) && db.tape == Rest(old(db.tape), 1)
      ensures db.Writes() <= old(db.Writes()) && db.Entries() <= old(db.Entries()) && db.Sends() == old(db.Sends())
      ensures old(Solo(db.tape)) || !db.known ==> db.world == old(db.world)
      ensures old(Faultless(db.tape)) ==> r != Err(Infrastructure)
      ensures r.Ok? ==> db.known && r.value == db.world.store.row
      ensures r.Err? ==> r.error.Infrastructure? || (r.error.NotFound? && !db.known)
      ensures db.known ==>
                && db.world == Others(old(db.world), db.me, At(old(db.tape), 0).others)
                && (r.Ok? <==> At(old(db.tape), 0).fault.Clean?)
    {
      var reply;
      hide Inv, Later, Exec, Others, At, Rest, RunAll, Actions, OwnWrites, OwnEntries, OwnSends, Solo, Faultless, Quiet;
      LaterSame(db.world);
      reply, seen := db.Query(Select, Idle);
      IdleIsNothing(seen);
      match reply {
        case Found(row) => r := Ok(row);
        case NoRow => r := Err(NotFound);
        case _ => r := Err(Infrastructure);
      }
    }

    /** Records what a supplier asserted and this service declined to act on. */
    method AppendRefusal(e: Event) returns (r: Try<()>)
      requires db.Valid() && (e.kind.ConflictEvent? || e.kind.CallbackRejectedEvent?)
      modifies db
      ensures db.known && r.Err? ==> Faults(db.tape) < Faults(old(db.tape))
      ensures db.Keeps(old(db.world), old(db.tape), old(db.trace)) && db.tape == Rest(old(db.tape), 1)
      ensures old(Faultless(db.tape)) && db.known ==> r.Ok?
      ensures r.Err? ==> r.error.Infrastructure?
      ensures old(Quiet(db.tape)) && r.Err? ==> db.world == old(db.world)
      ensures r.Ok? ==> db.known && e.(from := Some(e.to)) in db.world.store.log
      ensures r.Ok? && old(Solo(db.tape)) ==> db.world == Exec(old(db.world), Refuse(e))
      ensures db.known && !At(old(db.tape), 0).fault.NeverArrived? ==> e.(from := Some(e.to)) in db.world.store.log
      ensures db.Writes() <= old(db.Writes()) && db.Entries() <= old(db.Entries()) + 1
    {
      var reply;
      ghost var seen;
      hide Inv, Later, At, Rest, RunAll, Actions, OwnWrites, OwnEntries, OwnSends, Exec, StatementOf, Enabled, Others;
      LaterSame(db.world);
      RefusalFiled(db.world, e);
      reply, seen := db.Query(Statement.AppendRefusal(e), Refuse(e));
      if db.known {
        StatementTouches(seen, Refuse(e));
        RefusalFiled(seen, e);
      }
      // A missing booking breaks the lineage's foreign key.
      r := if reply.Appended? then Ok(()) else Err(Infrastructure);
    }

    /** The guarded statement itself, for a transition the template can be built for. A status that
        matches an owned write that did not move says the marker was another's. */
    method Guard(t: Transition, a: Action) returns (r: Ruling, ghost seen: World)
      requires db.Valid() && Buildable(t)
      requires db.known ==> Issues(db.world, a, Guarded(t), db.me)
      modifies db
      ensures db.known && r.Broke? ==> Faults(db.tape) < Faults(old(db.tape))
      ensures db.Keeps(old(db.world), old(db.tape), old(db.trace)) && db.tape == Rest(old(db.tape), 1)
      ensures old(Faultless(db.tape)) ==> r != Broke(Infrastructure)
      ensures old(Quiet(db.tape)) && r.Broke? ==> db.world == old(db.world)
      ensures !db.known ==> r.Broke? && !r.error.InvalidTransition?
      ensures db.known ==>
                && Evolved(old(db.world), seen, db.me) && Later(seen, db.world)
                && seen == Others(old(db.world), db.me, At(old(db.tape), 0).others)
                && (old(Solo(db.tape)) ==> seen == old(db.world))
                && (r.Broke? <==> !At(old(db.tape), 0).fault.Clean?)
                && db.Writes() <= old(db.Writes()) + (if Moves(t, seen.store.row) then 1 else 0)
                && db.Entries() <= old(db.Entries()) + (if Moves(t, seen.store.row) then 1 else 0)
                && match r
                   case Took(to) => to == t.to && Moves(t, seen.store.row) && db.world == Exec(seen, a)
                   case LostRace(found) =>
                     && found == seen.store.row.status && !Moves(t, seen.store.row) && db.world == seen
                     && (found == t.from ==> !t.rule.Owned?)
                   case WasSuperseded(found) =>
                     && found == seen.store.row.status == t.from && !Moves(t, seen.store.row) && db.world == seen
                     && t.rule.Owned?
                   case Broke(error) => error.Infrastructure?
    {
      hide Inv, Later, Evolved, Others, At, Rest, RunAll, Actions, OwnWrites, OwnEntries, OwnSends;
      hide Exec, StatementOf, Enabled;
      hide Solo, Faultless, Quiet, NoWorse, RowAfter, EventsOf, Issues, Drives;
      LaterSame(db.world);
      EvolvedSame(db.world, db.me);
      var reply;
      reply, seen := db.Query(Guarded(t), a);
      if db.known {
        GuardedTouches(seen, a, t, db.me);
      }
      match reply {
        case Moved(Some(to), _, _) =>
          r := Took(to);
        case Moved(None, current, _) =>
          r := if current == t.from && t.rule.Owned? then WasSuperseded(current) else LostRace(current);
        case NoRow =>
          r := Broke(NotFound);
        case _ =>
          r := Broke(Infrastructure);
      }
    }

    /** A guarded transition. Zero rows is an answer: the status that was there says whether the
        booking moved on or the attempt was superseded, and a superseded one is recorded. */
    method Apply(t: Transition, a: Action) returns (r: Ruling, ghost seen: World)
      requires db.Valid()
      requires db.known && Buildable(t) ==> Issues(db.world, a, Guarded(t), db.me)
      modifies db
      ensures Buildable(t) && db.known && r.Broke? ==> Faults(db.tape) < Faults(old(db.tape))
      ensures db.Keeps(old(db.world), old(db.tape), old(db.trace))
      ensures old(Faultless(db.tape)) ==> r != Broke(Infrastructure)
      ensures old(Quiet(db.tape)) && r.Broke? ==> db.world == old(db.world)
      ensures !Buildable(t) ==> r == Broke(InvalidTransition) && db.world == old(db.world)
      ensures Buildable(t) && !db.known ==> r.Broke? && !r.error.InvalidTransition?
      ensures Buildable(t) && db.known ==>
                && Evolved(old(db.world), seen, db.me)
                && (old(Solo(db.tape)) ==> seen == old(db.world))
                && Later(seen, db.world)
                && db.Writes() <= old(db.Writes()) + (if Moves(t, seen.store.row) then 1 else 0)
                && db.Entries() <= old(db.Entries()) + (if Moves(t, seen.store.row) || t.rule.Owned? then 1 else 0)
                && match r
                   case Took(to) => to == t.to && Moves(t, seen.store.row) && db.world == Exec(seen, a)
                   case LostRace(found) =>
                     && found == seen.store.row.status && !Moves(t, seen.store.row) && db.world == seen
                     && (found == t.from ==> !t.rule.Owned?)
                     && db.Entries() <= old(db.Entries())
                   case WasSuperseded(found) =>
                     && found == seen.store.row.status == t.from && !Moves(t, seen.store.row) && t.rule.Owned?
                     && SupersededEvent(t, found) in db.world.store.log
                     && (old(Solo(db.tape)) ==> db.world == Exec(seen, Refuse(SupersededEvent(t, found))))
                   case Broke(error) => error.Infrastructure?
      ensures Buildable(t) && db.known ==>
                var slot := At(old(db.tape), 0);
                && seen == Others(old(db.world), db.me, slot.others)
                && (!slot.fault.Clean? ==> r.Broke?)
                && (!t.rule.Owned? ==> db.tape == Rest(old(db.tape), 1) && (r.Broke? <==> !slot.fault.Clean?))
    {
      hide Inv, Later, Evolved, Others, At, Rest, RunAll, Actions, OwnWrites, OwnEntries, OwnSends;
      hide Exec, StatementOf, Enabled;
      hide Solo, Faultless, Quiet, NoWorse, RowAfter, EventsOf, Issues;
      hide Moves, SupersededEvent;
      seen := db.world;
      EvolvedSame(db.world, db.me);
      NoWorseSame(db.tape);
      QuietIsSolo(db.tape);
      LaterSame(db.world);
      if !Buildable(t) {
        return Broke(InvalidTransition), seen;
      }
      r, seen := Guard(t, a);
      if r.WasSuperseded? {
        ghost var tried := db.tape;
        var recorded := AppendRefusal(SupersededEvent(t, r.found));
        EvolvedTransitive(old(db.world), seen, db.world, db.me);
        EvolvedIsLater(seen, db.world, db.me);
        NoWorseTransitive(old(db.tape), tried, db.tape);
        if recorded.Err? {
          r := Broke(recorded.error);
        }
      }
    }

    /** Clears the marker if it still is this attempt's; the status is not looked at. */
    method ClearMarker(attempt: nat, kind: EventKind, reason: string, a: Action)
        returns (r: Try<bool>, ghost seen: World)
      requires db.Valid()
      requires db.known ==> Issues(db.world, a, Statement.ClearMarker(attempt, kind, Some(reason)), db.me)
      modifies db
      ensures db.known && r.Err? ==> Faults(db.tape) < Faults(old(db.tape))
      ensures db.Keeps(old(db.world), old(db.tape), old(db.trace)) && db.tape == Rest(old(db.tape), 1)
      ensures old(Faultless(db.tape)) ==> r.Ok?
      ensures r.Err? ==> r.error.Infrastructure?
      ensures !db.known ==> db.world == old(db.world)
      ensures old(Quiet(db.tape)) && r.Err? ==> db.world == old(db.world)
      ensures db.known ==>
                && Evolved(old(db.world), seen, db.me) && Later(seen, db.world)
                && (old(Solo(db.tape)) ==> seen == old(db.world))
                && db.world == (if At(old(db.tape), 0).fault.NeverArrived? then seen else Exec(seen, a))
                && (r.Ok? <==> At(old(db.tape), 0).fault.Clean?)
                && (r.Ok? ==> r.value == (seen.store.row.marker == Some(attempt)) && db.world == Exec(seen, a))
                && db.Writes() <= old(db.Writes()) + (if seen.store.row.marker == Some(attempt) then 1 else 0)
                && db.Entries() <= old(db.Entries()) + (if seen.store.row.marker == Some(attempt) then 1 else 0)
      ensures r.Ok? && !db.known ==> !r.value
    {
      var reply;
      hide Inv, Later, At, Rest, RunAll, Actions, OwnWrites, OwnEntries, OwnSends, Exec, Others;
      LaterSame(db.world);
      reply, seen := db.Query(Statement.ClearMarker(attempt, kind, Some(reason)), a);
      if db.known {
        StatementTouches(seen, a);
      }
      match reply {
        case Cleared(cleared) => r := Ok(cleared);
        case NoRow => r := Ok(false);
        case _ => r := Err(Infrastructure);
      }
    }

    /** Authorizes one attempt, or says which of three look-alike refusals this is. */
    method Authorize(budget: int, key: string, run: nat) returns (r: Try<Authorization>, ghost seen: World)
      requires db.Valid() && db.me == Some(run)
      requires db.known ==> Issues(db.world, AuthorizeFor(run), Statement.Authorize(budget, key), db.me)
      modifies db
      ensures db.Valid() && Later(old(db.world), db.world) && old(db.trace) <= db.trace
      ensures NoWorse(old(db.tape), db.tape) && db.Sends() == old(db.Sends())
      ensures old(Faultless(db.tape)) ==> r != Err(Infrastructure)
      ensures r.Err? ==> r.error.Infrastructure? || (r.error.NotFound? && !db.known)
      ensures !db.known ==> db.world == old(db.world)
      ensures r.Ok? ==>
                && db.known
                && Evolved(old(db.world), seen, db.me)
                && (old(Solo(db.tape)) ==> seen == old(db.world))
                && db.world == Exec(seen, AuthorizeFor(run))
                && r.value.previous == seen.store.row.status
                && if Grants(seen.store.row, budget)
                   then r.value.attempt == Some(seen.store.row.attempts + 1) && r.value.refusal.None?
                   else
                     && r.value.attempt.None?
                     && r.value.refusal ==
                          Some(RefusalOf(seen.store.row.status, seen.store.row.marker, seen.store.row.attempts, budget))
    {
      var reply;
      hide Inv, Later, At, Rest, RunAll, Actions, OwnWrites, OwnEntries, OwnSends, Exec, Others;
      LaterSame(db.world);
      reply, seen := db.Query(Statement.Authorize(budget, key), AuthorizeFor(run));
      match reply {
        case Granted(attempt, previous, held, soFar) =>
          if attempt.Some? {
            return Ok(Authorization(attempt, previous, None)), seen;
          }
          var refusal := RefusedBudget;
          if Settled(previous) {
            refusal := RefusedSettled;
          } else if held.Some? {
            refusal := RefusedOutstanding;
          } else if soFar < budget {
            refusal := RefusedSettled;
          }
          return Ok(Authorization(None, previous, Some(refusal))), seen;
        case NoRow =>
          return Err(NotFound), seen;
        case _ =>
          return Err(Infrastructure), seen;
      }
    }

    /** Clears whatever marker is set, and says whose it was; the booking is in doubt from then on. */
    method ResolveStaleMarker() returns (r: Try<Option<nat>>, ghost seen: World)
      requires db.Valid()
      modifies db
      ensures db.known && r.Err? ==> Faults(db.tape) < Faults(old(db.tape))
      ensures db.Keeps(old(db.world), old(db.tape), old(db.trace))
      ensures old(Faultless(db.tape)) ==> r.Ok?
      ensures r.Err? ==> r.error.Infrastructure?
      ensures !db.known ==> db.world == old(db.world)
      ensures old(Quiet(db.tape)) && r.Err? ==> db.world == old(db.world)
      ensures r.Ok? && db.known ==>
                && Evolved(old(db.world), seen, db.me)
                && (old(Solo(db.tape)) ==> seen == old(db.world))
                && db.world == Exec(seen, Resolve)
                && r.value == (if Resolves(seen.store.row) then seen.store.row.marker else None)
    {
      var reply;
      hide Inv, Later, At, Rest, RunAll, Actions, OwnWrites, OwnEntries, OwnSends, Exec, Others;
      LaterSame(db.world);
      reply, seen := db.Query(ResolveStale, Resolve);
      match reply {
        case Resolved(stale) => r := Ok(stale);
        case NoRow => r := Ok(None);
        case _ => r := Err(Infrastructure);
      }
    }

    /** Raises the flag on an unmarked booking in doubt, and reports whether that is what it found,
        flagged before or not. */
    method ParkIfUnknown() returns (r: Try<bool>, ghost seen: World)
      requires db.Valid()
      modifies db
      ensures db.known && r.Err? ==> Faults(db.tape) < Faults(old(db.tape))
      ensures db.Keeps(old(db.world), old(db.tape), old(db.trace))
      ensures old(Faultless(db.tape)) ==> r.Ok?
      ensures r.Err? ==> r.error.Infrastructure?
      ensures !db.known ==> db.world == old(db.world)
      ensures old(Quiet(db.tape)) && r.Err? ==> db.world == old(db.world)
      ensures r.Ok? && db.known ==>
                && Evolved(old(db.world), seen, db.me)
                && (old(Solo(db.tape)) ==> seen == old(db.world))
                && db.world == Exec(seen, ParkDoubt)
                && r.value == Parks(seen.store.row)
    {
      var reply;
      hide Inv, Later, At, Rest, RunAll, Actions, OwnWrites, OwnEntries, OwnSends, Exec, Others;
      LaterSame(db.world);
      reply, seen := db.Query(Statement.ParkIfUnknown, ParkDoubt);
      match reply {
        case Parked(parked) => r := Ok(parked);
        case NoRow => r := Ok(false);
        case _ => r := Err(Infrastructure);
      }
    }

    method MustExist() returns (r: Try<()>)
      requires db.Valid()
      modifies db
      ensures db.Keeps(old(db.world), old(db.tape), old(db.trace))
      ensures old(Solo(db.tape)) || !db.known ==> db.world == old(db.world)
      ensures old(Faultless(db.tape)) && db.known ==> r.Ok?
      ensures r.Ok? ==> db.known
      ensures r.Err? ==> r.error.Infrastructure? || (r.error.NotFound? && !db.known)
    {
      var row;
      ghost var seen;
      row, seen := GetByID();
      r := if row.Ok? then Ok(()) else Err(row.error);
    }

    /** Flags a booking without moving it. Already flagged is fine; only a missing row is not. */
    method Flag() returns (r: Try<()>)
      requires db.Valid()
      modifies db
      ensures db.Keeps(old(db.world), old(db.tape), old(db.trace))
      ensures old(Faultless(db.tape)) && db.known ==> r.Ok?
      ensures r.Ok? ==> db.known
      ensures db.known && (r.Ok? || !At(old(db.tape), 0).fault.NeverArrived?) ==>
                FlagHeld(old(db.world).store.row, db.world.store.row)
      ensures r.Err? ==> r.error.Infrastructure? || (r.error.NotFound? && !db.known)
      ensures r.Ok? && old(Solo(db.tape)) ==> db.world == Exec(old(db.world), RaiseFlag)
    {
      var reply;
      ghost var seen;
      hide Inv, Later, Exec, At, Rest, RunAll, Actions, OwnWrites, OwnEntries, OwnSends, Others;
      hide Solo, Faultless, Quiet, NoWorse;
      reply, seen := db.Query(Statement.Flag, RaiseFlag);
      ghost var (flagged, tried) := (db.world, db.tape);
      FlagRaises(seen);
      LaterSame(flagged);
      SettledFlagStays(old(db.world), flagged, flagged);
      match reply {
        case Flagged(changed) =>
          if changed {
            return Ok(());
          }
          r := MustExist();
          NoWorseTransitive(old(db.tape), tried, db.tape);
          EvolvedTransitive(old(db.world), flagged, db.world, db.me);
          SettledFlagStays(old(db.world), flagged, db.world);
        case NoRow =>
          // No row was affected, so the existence check tells a missing one apart.
          r := MustExist();
          NoWorseTransitive(old(db.tape), tried, db.tape);
          EvolvedTransitive(old(db.world), flagged, db.world, db.me);
        case _ =>
          return Err(Infrastructure);
      }
    }
  }
}

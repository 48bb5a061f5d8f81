/** Supplier callbacks (internal/service/booking/service.go, ApplyCallback). */
module Callback {
  import opened Statuses
  import opened Bookings
  import opened Statements
  import opened Protocol
  import opened Invariant
  import opened Evolution
  import opened Database
  import opened Repository
  import Plain

  datatype CallbackResult =
    | Applied(status: Status)
    | Duplicate(status: Status)
    | CallbackConflict
    | UnsupportedStatus
    | Failure(error: Error)

  /** A stored absence is not "matches anything": a reference we do not have is news. */
  predicate SameReference(stored: Option<string>, incoming: string) {
    if stored.None? then incoming == "" else stored.value == incoming
  }

  function RefusalEvent(kind: EventKind, found: Status, said: Assertion): Event {
    Event(kind, None, found, None, Some(said.status), Some("refused"), NonEmpty(said.reference))
  }

  /** The lineage holds a refusal that quotes what the supplier asserted, and the status it met. */
  predicate Refused(log: seq<Event>, kind: EventKind, said: Assertion, found: Status) {
    exists e | e in log ::
      && e.kind == kind && e.from == Some(found) && e.to == found && e.code == Some(said.status)
      && e.digest == if said.reference == "" then None else Some(said.reference)
  }

  /** The two words this version understands. */
  predicate Understood(said: Assertion) {
    said.status == "CONFIRMED" || said.status == "REJECTED"
  }

  /** The row says what the callback asserted: that status, and that reference or, for none, none. */
  predicate Says(row: Booking, said: Assertion) {
    && ((said.status == "CONFIRMED" && row.status.Confirmed?) || (said.status == "REJECTED" && row.status.Rejected?))
    && (if said.reference == "" then row.reference == None || row.reference == Some("")
        else row.reference == Some(said.reference))
  }

  /** The row carries the callback's own outcome: a confirmation's reference, or a rejection's reason. */
  predicate Carries(row: Booking, said: Assertion) {
    if said.status == "CONFIRMED" then
      row.status.Confirmed? && row.failure == None
      && row.reference == (if said.reference == "" then None else Some(said.reference))
    else
      && said.status == "REJECTED" && row.status.Rejected? && row.reference == None
      && row.failure == Some(if said.declineReason == "" then "supplier_declined" else said.declineReason)
  }

  /** The code's vocabulary and comparisons, in those words. */
  lemma TargetMeans(said: Assertion)
    ensures Target(said.status).Some? <==> Understood(said)
    ensures said.status == "CONFIRMED" ==> Target(said.status) == Some(Confirmed)
    ensures said.status == "REJECTED" ==> Target(said.status) == Some(Rejected)
  {
  }

  lemma SaysMeans(row: Booking, said: Assertion)
    ensures Says(row, said) <==> Target(said.status) == Some(row.status) && SameReference(row.reference, said.reference)
  {
  }

  lemma RefusedStays(w: World, v: World, kind: EventKind, said: Assertion, found: Status)
    requires Later(w, v) && Refused(w.store.log, kind, said, found)
    ensures Refused(v.store.log, kind, said, found)
  {
  }

  /** What a settled row says, it says for good. */
  lemma SettledStays(w: World, v: World, said: Assertion)
    requires Later(w, v) && Settled(w.store.row.status)
    ensures Settled(v.store.row.status)
    ensures Says(w.store.row, said) ==> Says(v.store.row, said)
    ensures Carries(w.store.row, said) ==> Carries(v.store.row, said)
    ensures w.store.row.flagged ==> v.store.row.flagged
  {
  }

  lemma Unsettled(w: World)
    requires Inv(w)
    ensures var status := w.store.row.status;
            !Settled(status) ==>
              && (status.Received? || status.Pending? || status.Unknown?)
              && w.store.row.reference.None? && w.store.row.failure.None?
  {
  }

  lemma CallbackIssues(w: World, from: Status, said: Assertion)
    requires Target(said.status).Some? && (from.Pending? || from.Unknown?)
    ensures var t := CallbackMove(from, Target(said.status).value, said);
            Buildable(t) && t.rule.Supersede? && t.from == from && t.to == Target(said.status).value
    ensures Issues(w, CallbackWrite(from, said), Guarded(CallbackMove(from, Target(said.status).value, said)), None)
  {
  }

  /** A callback's write, seen from the moment it ran: it lands unless the booking has moved, and
      from Pending or Unknown there are only two places to have moved to. */
  lemma CallbackLands(was: World, seen: World, from: Status, said: Assertion)
    requires Inv(was) && Inv(seen) && Later(was, seen) && Target(said.status).Some?
    requires from == was.store.row.status && (from.Pending? || from.Unknown?)
    ensures var t := CallbackMove(from, Target(said.status).value, said);
            && (Moves(t, seen.store.row) <==> seen.store.row.status == from)
            && (Moves(t, seen.store.row) ==>
                  && Carries(Exec(seen, CallbackWrite(from, said)).store.row, said)
                  && Settled(Exec(seen, CallbackWrite(from, said)).store.row.status)
                  && !Exec(seen, CallbackWrite(from, said)).store.row.flagged)
            && (!Moves(t, seen.store.row) ==> seen.store.row.status.Unknown? || Settled(seen.store.row.status))
            && (!Moves(t, seen.store.row) && from.Unknown? ==> Settled(seen.store.row.status))
  {
  }

  /** What a callback comes to when nobody interferes, for a booking in Pending or Unknown. */
  function Asserted(w: World, said: Assertion): (World, CallbackResult)
    requires Target(said.status).Some?
  {
    var landed := Exec(w, CallbackWrite(w.store.row.status, said));
    var target := Target(said.status).value;
    (if target.Confirmed? && said.reference == "" then Exec(landed, RaiseFlag) else landed, Applied(target))
  }

  function Contradicted(w: World, said: Assertion): (World, CallbackResult) {
    (Exec(Exec(w, Refuse(RefusalEvent(ConflictEvent, w.store.row.status, said))), RaiseFlag), CallbackConflict)
  }

  /** What a callback comes to when nobody interferes. */
  function Handled(w: World, said: Assertion): (World, CallbackResult) {
    var row := w.store.row;
    if Target(said.status).None? then
      (Exec(Exec(w, Refuse(RefusalEvent(CallbackRejectedEvent, row.status, said))), RaiseFlag), UnsupportedStatus)
    else if row.status.Received? then
      (Exec(w, Refuse(RefusalEvent(ConflictEvent, row.status, said))), CallbackConflict)
    else if Settled(row.status) then
      if Says(row, said) then (w, Duplicate(row.status)) else Contradicted(w, said)
    else Asserted(w, said)
  }

  /** Nothing a supplier or an attempt decided has changed. */
  predicate Unmoved(now: Booking, was: Booking) {
    && now.status == was.status && now.attempts == was.attempts && now.marker == was.marker
    && now.reference == was.reference && now.failure == was.failure
  }

  lemma RefusedThenFlagged(w: World, e: Event)
    requires e.kind.ConflictEvent? || e.kind.CallbackRejectedEvent?
    ensures var (u, quoted) := (Exec(w, Refuse(e)), e.(from := Some(e.to)));
            && u.store == Store(w.store.row, w.store.log + [quoted])
            && var v := Exec(u, RaiseFlag).store;
               v.log == w.store.log + [quoted] && v.row.flagged && Unmoved(v.row, w.store.row)
  {
    hide Exec;
    Plain.TheRestIs(w, Refuse(e));
    Plain.FlaggingIs(Exec(w, Refuse(e)));
    assert w.store.log + [e.(from := Some(e.to))] + [] == w.store.log + [e.(from := Some(e.to))];
  }

  /** The account of a callback nobody interferes with, told in the words of the assertion and of the
      row it finds. */
  lemma HandledIs(w: World, said: Assertion)
    requires Inv(w)
    ensures var (row, v, r) := (w.store.row, Handled(w, said).0.store, Handled(w, said).1);
            var quoted := if said.reference == "" then None else Some(said.reference);
            var refusal := kind =>
              Event(kind, Some(row.status), row.status, None, Some(said.status), Some("refused"), quoted);
            if !Understood(said) then
              && r.UnsupportedStatus? && v.log == w.store.log + [refusal(CallbackRejectedEvent)]
              && v.row.flagged && Unmoved(v.row, row)
            else if row.status.Received? then
              r.CallbackConflict? && v.log == w.store.log + [refusal(ConflictEvent)] && v.row == row
            else if Settled(row.status) && Says(row, said) then
              r == Duplicate(row.status) && v == w.store
            else if Settled(row.status) then
              && r.CallbackConflict? && v.log == w.store.log + [refusal(ConflictEvent)]
              && v.row.flagged && Unmoved(v.row, row)
            else
              && r == Applied(v.row.status) && Carries(v.row, said)
              && v.row.marker.None? && v.row.attempts == row.attempts
              && v.row.flagged == (said.status == "CONFIRMED" && said.reference == "")
              && v.log == w.store.log + [Event(CallbackEvent, Some(row.status), v.row.status, None,
                                               Some(said.status), None, None)]
  {
    hide Inv, Exec, SameReference, Target;
    TargetMeans(said);
    SaysMeans(w.store.row, said);
    Unsettled(w);
    var status := w.store.row.status;
    RefusedThenFlagged(w, RefusalEvent(CallbackRejectedEvent, status, said));
    RefusedThenFlagged(w, RefusalEvent(ConflictEvent, status, said));
    if status.Pending? || status.Unknown? {
      Plain.CallbackIs(w, status, said);
      Plain.FlaggingIs(Exec(w, CallbackWrite(status, said)));
    }
  }

  /** A refusal decided after n round trips was filed if its own write arrived. */
  predicate FiledAfter(tape: seq<Slot>, n: nat, log: seq<Event>, kind: EventKind, said: Assertion, found: Status) {
    !At(tape, n).fault.NeverArrived? ==> Refused(log, kind, said, found)
  }

  /** And the booking was flagged if the write after that arrived. */
  predicate FlaggedAfter(tape: seq<Slot>, n: nat, row: Booking) {
    !At(tape, n + 1).fault.NeverArrived? ==> row.flagged
  }

  /** An answer is true of the row it leaves. */
  predicate Truthful(r: CallbackResult, row: Booking, said: Assertion) {
    match r
    case Applied(status) => status == row.status && Settled(status) && Carries(row, said)
    case Duplicate(status) => status == row.status && Says(row, said)
    case UnsupportedStatus => !Understood(said)
    case CallbackConflict => Understood(said)
    case _ => true
  }

  /** A contradiction decided after n round trips is on record and flagged as far as its writes went. */
  predicate ContradictionFiled(r: CallbackResult, s: Store, tape: seq<Slot>, n: nat, said: Assertion, found: Status) {
    r.CallbackConflict? ==> FiledAfter(tape, n, s.log, ConflictEvent, said, found) && FlaggedAfter(tape, n, s.row)
  }

  /** A confirmation without a reference leaves the booking flagged if the write after it arrived. */
  predicate UnreferencedFlagged(r: CallbackResult, row: Booking, tape: seq<Slot>, n: nat, said: Assertion) {
    r.Applied? && r.status.Confirmed? && said.reference == "" && !At(tape, n).fault.NeverArrived? ==> row.flagged
  }

  lemma FlagHeldBefore(w: World, v: World, now: Booking)
    requires Later(w, v)
    ensures FlagHeld(v.store.row, now) ==> FlagHeld(w.store.row, now)
  {
  }

  lemma FiledStays(tape: seq<Slot>, n: nat, w: World, v: World, kind: EventKind, said: Assertion, found: Status)
    requires Later(w, v) && FiledAfter(tape, n, w.store.log, kind, said, found)
    ensures FiledAfter(tape, n, v.store.log, kind, said, found)
  {
    if Refused(w.store.log, kind, said, found) {
      RefusedStays(w, v, kind, said, found);
    }
  }

  lemma ContradictionKept(w: World, v: World, said: Assertion)
    requires Later(w, v) && Settled(w.store.row.status)
    ensures Says(v.store.row, said) <==> Says(w.store.row, said)
  {
  }

  /** What is decided about a callback, after how many round trips, on which state, and which status
      it takes the booking to have been found in. */
  datatype Decision = Decision(result: CallbackResult, trips: nat, seen: World, found: Status)

  /** The second write, from the status the first one found. */
  function Rewriting(w: World, tape: seq<Slot>, found: Status, said: Assertion): Decision
    requires Target(said.status).Some?
  {
    var second := Others(w, None, At(tape, 0).others);
    Decision(if !At(tape, 0).fault.Clean? then Failure(Infrastructure)
             else if second.store.row.status == found then Applied(Target(said.status).value)
             else CallbackConflict,
             1, second, found)
  }

  lemma OneWrite(w: World, tape: seq<Slot>, found: Status, said: Assertion)
    requires Target(said.status).Some?
    ensures Rewriting(w, tape, found, said).trips == 1
  {
  }

  /** What follows a lost race: the re-read and the second write, whatever others do in between
      and whichever round trips fail. */
  function Retrying(w: World, tape: seq<Slot>, found: Status, said: Assertion): (r: Decision)
    requires Target(said.status).Some?
    ensures r.found == found
  {
    var target := Target(said.status).value;
    var read := Others(w, None, At(tape, 0).others);
    if At(tape, 0).fault.Clean? && found == target && SameReference(read.store.row.reference, said.reference)
    then Decision(Duplicate(found), 1, read, found)
    else if Settled(found) || !Allowed(found, target) then Decision(CallbackConflict, 1, read, found)
    else
      var d := Rewriting(read, Rest(tape, 1), found, said);
      d.(trips := d.trips + 1)
  }

  /** The first write, and the rest when it lost the race. */
  function Asserting(w: World, tape: seq<Slot>, from: Status, said: Assertion): Decision
    requires Target(said.status).Some?
  {
    var first := Others(w, None, At(tape, 0).others);
    if !At(tape, 0).fault.Clean? then Decision(Failure(Infrastructure), 1, first, from)
    else if first.store.row.status == from then Decision(Applied(Target(said.status).value), 1, first, from)
    else
      var d := Retrying(first, Rest(tape, 1), first.store.row.status, said);
      d.(trips := d.trips + 1)
  }

  /** The whole callback, likewise. */
  function Handling(w: World, tape: seq<Slot>, said: Assertion): Decision {
    var read := Others(w, None, At(tape, 0).others);
    var row := read.store.row;
    if !At(tape, 0).fault.Clean? then Decision(Failure(Infrastructure), 1, read, row.status)
    else if Target(said.status).None? then Decision(UnsupportedStatus, 1, read, row.status)
    else if row.status.Received? then Decision(CallbackConflict, 1, read, row.status)
    else if Settled(row.status) then
      Decision(if Says(row, said) then Duplicate(row.status) else CallbackConflict, 1, read, row.status)
    else
      var d := Asserting(read, Rest(tape, 1), row.status, said);
      d.(trips := d.trips + 1)
  }

  /** Counting round trips from here or from before a few of them is the same. */
  lemma FiledFromHere(tape: seq<Slot>, k: nat, n: nat, s: Store, kind: EventKind, said: Assertion, found: Status)
    ensures FiledAfter(Rest(tape, k), n, s.log, kind, said, found) <==>
              FiledAfter(tape, k + n, s.log, kind, said, found)
    ensures FlaggedAfter(Rest(tape, k), n, s.row) <==> FlaggedAfter(tape, k + n, s.row)
  {
  }

  lemma MovedOn(w: World, v: World)
    requires Later(w, v)
    ensures !w.store.row.status.Received? ==> !v.store.row.status.Received?
    ensures w.store.row.status.Unknown? ==> v.store.row.status.Unknown? || Settled(v.store.row.status)
    ensures Settled(w.store.row.status) ==>
              v.store.row.status == w.store.row.status && v.store.row.reference == w.store.row.reference
  {
  }

  /** The second try writes from doubt, and doubt leaves only to a settled outcome. */
  lemma DoubtLands(was: World, seen: World, said: Assertion)
    requires Inv(was) && Inv(seen) && Later(was, seen) && Target(said.status).Some?
    requires was.store.row.status.Unknown? || Settled(was.store.row.status)
    ensures var t := CallbackMove(Unknown, Target(said.status).value, said);
            && (Moves(t, seen.store.row) <==> seen.store.row.status.Unknown?)
            && (Moves(t, seen.store.row) ==>
                  && Carries(Exec(seen, CallbackWrite(Unknown, said)).store.row, said)
                  && Settled(Exec(seen, CallbackWrite(Unknown, said)).store.row.status))
            && (!Moves(t, seen.store.row) ==> Settled(seen.store.row.status))
  {
  }

  class Service {
    const repo: Repo
    const db: Db

    constructor (repo: Repo)
      ensures this.repo == repo && this.db == repo.db
    {
      this.repo := repo;
      this.db := repo.db;
    }

    ghost predicate Valid()
      reads this, db
    {
      db == repo.db && db.Valid() && db.me.None?
    }

    /** Keeps a refused assertion. Its write failing does not stop the refusal being reported. */
    method RecordRefusal(kind: EventKind, found: Status, said: Assertion)
      requires Valid() && (kind.ConflictEvent? || kind.CallbackRejectedEvent?)
      modifies db
      ensures Valid() && db.Keeps(old(db.world), old(db.tape), old(db.trace)) && db.tape == Rest(old(db.tape), 1)
      ensures db.known ==> FiledAfter(old(db.tape), 0, db.world.store.log, kind, said, found)
      ensures db.known && old(Solo(db.tape)) && old(Faultless(db.tape)) ==>
                db.world == Exec(old(db.world), Refuse(RefusalEvent(kind, found, said)))
    {
      hide Inv, Exec, Later, Evolved, Others, At, Rest, RunAll, Actions, OwnWrites, OwnEntries, OwnSends;
      hide Solo, Faultless, Faults, Quiet, NoWorse, Db.Traced;
      var recorded := repo.AppendRefusal(RefusalEvent(kind, found, said));
      if db.known && !At(old(db.tape), 0).fault.NeverArrived? {
        assert RefusalEvent(kind, found, said).(from := Some(found)) in db.world.store.log;
      }
    }

    /** Refuses a contradiction: the lineage says what was asserted, the flag says look at it. */
    method Conflict(found: Status, said: Assertion) returns (r: CallbackResult)
      requires Valid() && Settled(db.world.store.row.status)
      modifies db
      ensures Valid() && db.Keeps(old(db.world), old(db.tape), old(db.trace)) && r.CallbackConflict?
      ensures db.known ==>
                && FiledAfter(old(db.tape), 0, db.world.store.log, ConflictEvent, said, found)
                && FlaggedAfter(old(db.tape), 0, db.world.store.row)
      ensures db.known && old(Solo(db.tape)) && old(Faultless(db.tape)) ==>
                db.world == Exec(Exec(old(db.world), Refuse(RefusalEvent(ConflictEvent, found, said))), RaiseFlag)
    {
      hide Inv, Exec, Later, Evolved, Others, At, Rest, RunAll, Actions, OwnWrites, OwnEntries, OwnSends;
      hide Solo, Faultless, Faults, Quiet, NoWorse, Db.Traced, Refused;
      RecordRefusal(ConflictEvent, found, said);
      ghost var (between, tried) := (db.world, db.tape);
      EvolvedIsLater(old(db.world), between, db.me);
      SettledStays(old(db.world), between, said);
      var flagged := repo.Flag();
      EvolvedIsLater(between, db.world, db.me);
      if Refused(between.store.log, ConflictEvent, said, found) {
        RefusedStays(between, db.world, ConflictEvent, said, found);
      }
      EvolvedTransitive(old(db.world), between, db.world, db.me);
      NoWorseTransitive(old(db.tape), tried, db.tape);
      r := CallbackConflict;
    }

    /** Refuses an assertion the model has no status for. The row keeps its status, and is marked as
        knowing less than the supplier does. */
    method Unsupported(found: Status, said: Assertion) returns (r: CallbackResult)
      requires Valid()
      modifies db
      ensures Valid() && db.Keeps(old(db.world), old(db.tape), old(db.trace)) && r.UnsupportedStatus?
      ensures db.known ==> FiledAfter(old(db.tape), 0, db.world.store.log, CallbackRejectedEvent, said, found)
      ensures db.known && !At(old(db.tape), 1).fault.NeverArrived? ==>
                FlagHeld(old(db.world).store.row, db.world.store.row)
      ensures db.known && old(Solo(db.tape)) && old(Faultless(db.tape)) ==>
                var refused := Exec(old(db.world), Refuse(RefusalEvent(CallbackRejectedEvent, found, said)));
                db.world == Exec(refused, RaiseFlag)
    {
      hide Inv, Exec, Later, Evolved, Others, At, Rest, RunAll, Actions, OwnWrites, OwnEntries, OwnSends;
      hide Solo, Faultless, Faults, Quiet, NoWorse, Db.Traced, Refused, FiledAfter, FlagHeld;
      RecordRefusal(CallbackRejectedEvent, found, said);
      ghost var (between, tried) := (db.world, db.tape);
      EvolvedIsLater(old(db.world), between, db.me);
      var _ := repo.Flag();
      EvolvedIsLater(between, db.world, db.me);
      EvolvedTransitive(old(db.world), between, db.world, db.me);
      NoWorseTransitive(old(db.tape), tried, db.tape);
      if db.known {
        FiledStays(old(db.tape), 0, between, db.world, CallbackRejectedEvent, said, found);
        SettledFlagStays(old(db.world), between, db.world);
      }
      r := UnsupportedStatus;
    }

    /** The second write, out of the doubt the first one found. */
    method WriteAgain(said: Assertion) returns (r: CallbackResult)
      requires Valid() && db.known && Target(said.status).Some?
      requires db.world.store.row.status.Unknown? || Settled(db.world.store.row.status)
      modifies db
      ensures Valid() && db.Keeps(old(db.world), old(db.tape), old(db.trace))
      ensures r == Rewriting(old(db.world), old(db.tape), Unknown, said).result
      ensures old(Faultless(db.tape)) ==> !r.Failure?
      ensures match r
              case Applied(status) =>
                && Some(status) == Target(said.status) && status == db.world.store.row.status
                && Settled(status) && Carries(db.world.store.row, said)
                && At(db.tape, 0) == At(old(db.tape), 1)
              case CallbackConflict =>
                && Settled(db.world.store.row.status)
                && FiledAfter(old(db.tape), 1, db.world.store.log, ConflictEvent, said, Unknown)
                && FlaggedAfter(old(db.tape), 1, db.world.store.row)
              case Failure(_) => true
              case _ => false
    {
      hide Inv, Exec, Later, Evolved, Others, At, Rest, RunAll, Actions, OwnWrites, OwnEntries, OwnSends;
      hide Solo, Faultless, Faults, Quiet, NoWorse, Db.Traced, Enabled, StatementOf, OutcomeDetail, Refused, Carries;
      hide FiledAfter, FlaggedAfter, Buildable, Moves, CallbackMove, Issues;
      var target := Target(said.status).value;
      CallbackIssues(db.world, Unknown, said);
      var ruling;
      ghost var seen;
      ruling, seen := repo.Apply(CallbackMove(Unknown, target, said), CallbackWrite(Unknown, said));
      ghost var (between, tried) := (db.world, db.tape);
      EvolvedIsLater(old(db.world), seen, db.me);
      DoubtLands(old(db.world), seen, said);
      if ruling.Broke? {
        return Failure(ruling.error);
      }
      if ruling.LostRace? {
        // The refusal names what the first try found, not what beat the second.
        r := Conflict(Unknown, said);
        FiledFromHere(old(db.tape), 1, 0, db.world.store, ConflictEvent, said, Unknown);
        EvolvedTransitive(old(db.world), between, db.world, db.me);
        NoWorseTransitive(old(db.tape), tried, db.tape);
        EvolvedIsLater(between, db.world, db.me);
        MovedOn(between, db.world);
        return;
      }
      r := Applied(target);
    }

    /** What follows a first write that found the booking moved: the re-read tells a copy of the same
        assertion from a contradiction, and doubt is written over once more. */
    method Retry(found: Status, said: Assertion) returns (r: CallbackResult)
      requires Valid() && db.known && Target(said.status).Some?
      requires db.world.store.row.status == found && (found.Unknown? || Settled(found))
      modifies db
      ensures Valid() && db.Keeps(old(db.world), old(db.tape), old(db.trace))
      ensures r == Retrying(old(db.world), old(db.tape), found, said).result
      ensures old(Faultless(db.tape)) ==> !r.Failure?
      ensures !r.UnsupportedStatus? && Truthful(r, db.world.store.row, said)
      ensures r.CallbackConflict? ==> Settled(db.world.store.row.status)
      ensures r.Applied? ==> Some(r.status) == Target(said.status)
      ensures r.Applied? ==>
                At(db.tape, 0) == At(old(db.tape), Retrying(old(db.world), old(db.tape), found, said).trips)
      ensures r.Duplicate? ==> db.Writes() <= old(db.Writes()) && db.Entries() <= old(db.Entries())
      ensures ContradictionFiled(r, db.world.store, old(db.tape),
                             Retrying(old(db.world), old(db.tape), found, said).trips, said, found)
      ensures r.CallbackConflict? && Settled(found) && At(old(db.tape), 0).fault.Clean? ==>
                !Says(db.world.store.row, said)
    {
      hide Inv, Exec, Later, Evolved, Others, At, Rest, RunAll, Actions, OwnWrites, OwnEntries, OwnSends;
      hide Solo, Faultless, Faults, Quiet, NoWorse, Db.Traced, Refused, Carries, FiledAfter, FlaggedAfter, Rewriting;
      hide SameReference;
      TargetMeans(said);
      var target := Target(said.status).value;
      var winner;
      ghost var seen;
      winner, seen := repo.GetByID();
      ghost var (between, tried) := (db.world, db.tape);
      EvolvedIsLater(old(db.world), between, db.me);
      MovedOn(old(db.world), between);
      SaysMeans(between.store.row, said);
      if winner.Ok? && found == target && SameReference(winner.value.reference, said.reference) {
        return Duplicate(found);
      }
      if Settled(found) || !Allowed(found, target) {
        r := Conflict(found, said);
        FiledFromHere(old(db.tape), 1, 0, db.world.store, ConflictEvent, said, found);
        EvolvedIsLater(between, db.world, db.me);
        ContradictionKept(between, db.world, said);
        MovedOn(between, db.world);
      } else {
        r := WriteAgain(said);
        FiledFromHere(old(db.tape), 1, 1, db.world.store, ConflictEvent, said, found);
        OneWrite(between, tried, found, said);
      }
      EvolvedTransitive(old(db.world), between, db.world, db.me);
      NoWorseTransitive(old(db.tape), tried, db.tape);
    }

    /** A confirmation that names no reservation stands, and is marked for someone to look at. The
        settling write has just lowered the flag; failing to raise it does not undo that write. */
    method FlagUnreferenced(target: Status, said: Assertion)
      requires Valid() && db.known && Settled(db.world.store.row.status)
      modifies db
      ensures Valid() && db.Keeps(old(db.world), old(db.tape), old(db.trace))
      ensures db.world.store.row.status == old(db.world).store.row.status
      ensures Carries(old(db.world).store.row, said) ==> Carries(db.world.store.row, said)
      ensures target.Confirmed? && said.reference == "" && !At(old(db.tape), 0).fault.NeverArrived? ==>
                db.world.store.row.flagged
      ensures old(Solo(db.tape)) && old(Faultless(db.tape)) ==>
                db.world ==
                  if target.Confirmed? && said.reference == "" then Exec(old(db.world), RaiseFlag) else old(db.world)
    {
      hide Inv, Exec, Later, Evolved, Others, At, Rest, RunAll, Actions, OwnWrites, OwnEntries, OwnSends;
      hide Solo, Faultless, Faults, Quiet, NoWorse, Db.Traced, Carries;
      EvolvedSame(db.world, db.me);
      NoWorseSame(db.tape);
      if target.Confirmed? && said.reference == "" {
        var _ := repo.Flag();
        EvolvedIsLater(old(db.world), db.world, db.me);
        SettledStays(old(db.world), db.world, said);
        MovedOn(old(db.world), db.world);
      }
    }

    /** The settling write, and `Retry` when it lost its race. No marker stands in its way. */
    method AssertOutcome(from: Status, said: Assertion) returns (r: CallbackResult)
      requires Valid() && db.known && Target(said.status).Some?
      requires db.world.store.row.status == from && (from.Pending? || from.Unknown?)
      modifies db
      ensures Valid() && db.Keeps(old(db.world), old(db.tape), old(db.trace))
      ensures r == Asserting(old(db.world), old(db.tape), from, said).result
      ensures old(Faultless(db.tape)) ==> !r.Failure?
      ensures !r.UnsupportedStatus? && Truthful(r, db.world.store.row, said)
      ensures r.CallbackConflict? ==> Settled(db.world.store.row.status)
      ensures var d := Asserting(old(db.world), old(db.tape), from, said);
              ContradictionFiled(r, db.world.store, old(db.tape), d.trips, said, d.found)
      ensures r.Duplicate? ==> db.Writes() <= old(db.Writes()) && db.Entries() <= old(db.Entries())
      ensures UnreferencedFlagged(r, db.world.store.row, old(db.tape),
                                  Asserting(old(db.world), old(db.tape), from, said).trips, said)
      ensures r.CallbackConflict? && from.Unknown? && At(old(db.tape), 1).fault.Clean? ==>
                !Says(db.world.store.row, said)
      ensures old(Solo(db.tape)) && old(Faultless(db.tape)) ==> (db.world, r) == Asserted(old(db.world), said)
    {
      hide Inv, Exec, Later, Evolved, Others, At, Rest, RunAll, Actions, OwnWrites, OwnEntries, OwnSends;
      hide Solo, Faultless, Faults, Quiet, NoWorse, Db.Traced, Enabled, StatementOf, OutcomeDetail, Refused, Carries;
      hide Says, Retrying;
      hide FiledAfter, FlaggedAfter, Buildable, Moves, CallbackMove, Issues;
      var target := Target(said.status).value;
      ghost var seen;
      LaterSame(db.world);
      CallbackIssues(db.world, from, said);
      var ruling;
      ruling, seen := repo.Apply(CallbackMove(from, target, said), CallbackWrite(from, said));
      EvolvedIsLater(old(db.world), seen, db.me);
      CallbackLands(old(db.world), seen, from, said);
      ghost var (between, tried) := (db.world, db.tape);
      if ruling.Broke? {
        return Failure(ruling.error);
      }
      r := Applied(target);
      if ruling.LostRace? {
        r := Retry(ruling.found, said);
        EvolvedTransitive(old(db.world), between, db.world, db.me);
        NoWorseTransitive(old(db.tape), tried, db.tape);
        ghost var n := Retrying(between, tried, ruling.found, said).trips;
        FiledFromHere(old(db.tape), 1, n, db.world.store, ConflictEvent, said, ruling.found);
        if !r.Applied? {
          return;
        }
        between, tried := db.world, db.tape;
      }
      FlagUnreferenced(target, said);
      EvolvedTransitive(old(db.world), between, db.world, db.me);
      NoWorseTransitive(old(db.tape), tried, db.tape);
    }

    /** A supplier asserts an outcome. Whatever else is going on, an assertion this version
        understands about a booking that was sent ends applied, recognised as what the row
        already says, or refused on a row that has settled; a refusal is on record and flagged as
        long as those two writes arrive. One re-read is enough. */
    method ApplyCallback(said: Assertion) returns (r: CallbackResult)
      requires Valid()
      modifies db
      ensures Valid() && db.Keeps(old(db.world), old(db.tape), old(db.trace))
      ensures !db.known ==> r.Failure?
      ensures db.known ==> r == Handling(old(db.world), old(db.tape), said).result
      ensures old(Faultless(db.tape)) && db.known ==> !r.Failure?
      ensures db.known ==> Truthful(r, db.world.store.row, said)
      ensures db.known && !Understood(said) && At(old(db.tape), 0).fault.Clean? ==> r.UnsupportedStatus?
      ensures var row := old(db.world).store.row;
              db.known && Settled(row.status) && Understood(said) && At(old(db.tape), 0).fault.Clean? ==>
                if Says(row, said) then r == Duplicate(row.status) else r.CallbackConflict?
      ensures db.known && r.CallbackConflict? && !old(db.world).store.row.status.Received? ==>
                Settled(db.world.store.row.status)
      ensures db.known && r.UnsupportedStatus? ==>
                && FiledAfter(old(db.tape), 1, db.world.store.log, CallbackRejectedEvent, said,
                              Handling(old(db.world), old(db.tape), said).found)
                && (!At(old(db.tape), 2).fault.NeverArrived? ==> FlagHeld(old(db.world).store.row, db.world.store.row))
      ensures db.known && !old(db.world).store.row.status.Received? ==>
                var d := Handling(old(db.world), old(db.tape), said);
                ContradictionFiled(r, db.world.store, old(db.tape), d.trips, said, d.found)
      ensures db.known && r.CallbackConflict? ==>
                var d := Handling(old(db.world), old(db.tape), said);
                FiledAfter(old(db.tape), d.trips, db.world.store.log, ConflictEvent, said, d.found)
      ensures db.known && r.Duplicate? ==> db.Writes() <= old(db.Writes()) && db.Entries() <= old(db.Entries())
      ensures db.known ==>
                UnreferencedFlagged(r, db.world.store.row, old(db.tape),
                                    Handling(old(db.world), old(db.tape), said).trips, said)
      ensures var status := old(db.world).store.row.status;
              db.known && r.CallbackConflict? && !status.Received? && !status.Pending?
              && At(old(db.tape), 2).fault.Clean? ==>
                !Says(db.world.store.row, said)
      ensures db.known && old(Solo(db.tape)) && old(Faultless(db.tape)) ==>
                (db.world, r) == Handled(old(db.world), said)
    {
      hide Inv, Exec, Later, Evolved, Others, At, Rest, RunAll, Actions, OwnWrites, OwnEntries, OwnSends;
      hide Solo, Faultless, Faults, Quiet, NoWorse, Db.Traced, Refused, Carries, Asserting, Asserted, FiledAfter;
      hide FlaggedAfter, FlagHeld;
      hide SameReference, Target, Says, Understood;
      TargetMeans(said);
      ghost var seen;
      var read;
      read, seen := repo.GetByID();
      ghost var (between, tried) := (db.world, db.tape);
      EvolvedIsLater(old(db.world), between, db.me);
      MovedOn(old(db.world), between);
      SaysMeans(between.store.row, said);
      if Settled(old(db.world).store.row.status) {
        ContradictionKept(old(db.world), between, said);
      }
      if read.Err? {
        return Failure(read.error);
      }
      var current := read.value;
      if Target(said.status).None? {
        r := Unsupported(current.status, said);
        FiledFromHere(old(db.tape), 1, 0, db.world.store, CallbackRejectedEvent, said, current.status);
        FlagHeldBefore(old(db.world), between, db.world.store.row);
        EvolvedTransitive(old(db.world), between, db.world, db.me);
        NoWorseTransitive(old(db.tape), tried, db.tape);
        return;
      }
      var target := Target(said.status).value;
      if current.status.Received? {
        RecordRefusal(ConflictEvent, current.status, said);
        FiledFromHere(old(db.tape), 1, 0, db.world.store, ConflictEvent, said, current.status);
        EvolvedTransitive(old(db.world), between, db.world, db.me);
        NoWorseTransitive(old(db.tape), tried, db.tape);
        return CallbackConflict;
      }
      if Settled(current.status) {
        if current.status == target && SameReference(current.reference, said.reference) {
          return Duplicate(current.status);
        }
        r := Conflict(current.status, said);
        FiledFromHere(old(db.tape), 1, 0, db.world.store, ConflictEvent, said, current.status);
        EvolvedIsLater(between, db.world, db.me);
        SettledStays(between, db.world, said);
        ContradictionKept(between, db.world, said);
        EvolvedTransitive(old(db.world), between, db.world, db.me);
        NoWorseTransitive(old(db.tape), tried, db.tape);
        return;
      }
      Unsettled(between);
      r := AssertOutcome(current.status, said);
      ghost var d := Asserting(between, tried, current.status, said);
      FiledFromHere(old(db.tape), 1, d.trips, db.world.store, ConflictEvent, said, d.found);
      EvolvedTransitive(old(db.world), between, db.world, db.me);
      NoWorseTransitive(old(db.tape), tried, db.tape);
    }
  }

  /** The steps by which others bring a booking that is waiting or between attempts into doubt. */
  function IntoDoubt(w: World): seq<Action> {
    if w.store.row.marker.Some? then [Resolve]
    else
      var r := |w.runs|;
      [Start(w.store.row.attempts + 1), Enter(r, false), AuthorizeFor(r), Resolve]
  }

  lemma OneMoreDoubt(w: World)
    requires Inv(w) && w.store.row.status.Pending? && w.store.row.marker.None?
    ensures var (r, budget) := (|w.runs|, w.store.row.attempts + 1);
            var u := Exec(Exec(w, Start(budget)), Enter(r, false));
            && u.runs[r] == Run(budget, Ready(1)) && u.store.row == w.store.row
            && Exec(u, AuthorizeFor(r)).store.row.marker.Some?
            && Exec(u, AuthorizeFor(r)).store.row.status.Pending?
            && Exec(u, AuthorizeFor(r)).store.row.reference == w.store.row.reference
  {
    var (r, budget) := (|w.runs|, w.store.row.attempts + 1);
    var v := Exec(w, Start(budget));
    assert v.runs[r] == Run(budget, Entering);
  }

  lemma AbandonedIsDoubt(w: World)
    requires w.store.row.marker.Some? && w.store.row.status.Pending?
    ensures var row := Exec(w, Resolve).store.row;
            row.status.Unknown? && row.reference == w.store.row.reference
  {
  }

  lemma ReachesDoubt(w: World)
    requires Inv(w) && w.store.row.status.Pending?
    ensures var v := Others(w, None, IntoDoubt(w));
            v.store.row.status.Unknown? && v.store.row.reference == w.store.row.reference
  {
    hide Inv, Exec;
    var none: seq<Action> := [];
    assert RunAll(w, none) == w;
    if w.store.row.marker.Some? {
      RunAllOne(w, none, Resolve);
      assert none + [Resolve] == [Resolve] == Foreign(None, IntoDoubt(w));
      AbandonedIsDoubt(w);
    } else {
      OneMoreDoubt(w);
      var (start, enter) := (Start(w.store.row.attempts + 1), Enter(|w.runs|, false));
      var grant := AuthorizeFor(|w.runs|);
      RunAllOne(w, none, start);
      RunAllOne(w, none + [start], enter);
      RunAllOne(w, none + [start] + [enter], grant);
      RunAllOne(w, none + [start] + [enter] + [grant], Resolve);
      assert none + [start] + [enter] + [grant] + [Resolve] == IntoDoubt(w);
      OthersTakeTheirSteps(None, IntoDoubt(w));
      AbandonedIsDoubt(RunAll(w, none + [start] + [enter] + [grant]));
    }
  }

  /** A copy of an assertion settles a booking in doubt, and the row then says what it asserted
      unless that was a rejection with a reference. */
  lemma CopySettles(w: World, said: Assertion)
    requires Understood(said) && w.store.row.status.Unknown? && w.store.row.reference.None?
    ensures var row := Exec(w, CallbackWrite(Unknown, said)).store.row;
            && row.status == Target(said.status).value
            && (said.status == "CONFIRMED" || said.reference == "" ==> Says(row, said))
  {
  }

  /** The race: the first write finds doubt, and a copy settles the booking before the second. */
  function Race(w: World, said: Assertion): seq<Slot> {
    [Slot([], Clean), Slot(IntoDoubt(w), Clean), Slot([], Clean), Slot([CallbackWrite(Unknown, said)], Clean)]
  }

  lemma PendingHasNoReference(w: World)
    requires Inv(w)
    ensures !w.store.row.status.Confirmed? ==> w.store.row.reference.None?
  {
  }

  lemma OneActs(w: World, a: Action)
    ensures Others(w, None, [a]) == Exec(w, a)
  {
    OthersTakeTheirSteps(None, [a]);
    NobodyActs(w, None);
    RunAllOne(w, [], a);
    assert [] + [a] == [a];
  }

  /** The assertions no row ever says: a rejection's reference is not stored. */
  predicate NeverSaid(said: Assertion) {
    said.status == "REJECTED" && said.reference != ""
  }

  lemma RaceRefusesCopy(w: World, said: Assertion)
    requires Inv(w) && w.store.row.status.Pending? && Understood(said)
    requires said.status == "CONFIRMED" || said.reference == ""
    ensures Faultless(Race(w, said))
    ensures var d := Handling(w, Race(w, said), said);
            d.result.CallbackConflict? && Says(d.seen.store.row, said)
  {
    hide Inv, Exec, RunAll, IntoDoubt;
    var tape := Race(w, said);
    NobodyActs(w, None);
    ReachesDoubt(w);
    var doubt := Others(w, None, IntoDoubt(w));
    NobodyActs(doubt, None);
    PendingHasNoReference(w);
    CopySettles(doubt, said);
    OneActs(doubt, CallbackWrite(Unknown, said));
    assert At(Rest(tape, 1), 0) == tape[1] && At(Rest(tape, 1), 1) == tape[2] && At(Rest(tape, 1), 2) == tape[3];
  }

  /** From a settled row, or from doubt if the re-read succeeds, a refusal is always of something the
      row does not say. */
  lemma FairFromDoubt(w: World, tape: seq<Slot>, said: Assertion)
    requires Inv(w) && !w.store.row.status.Received? && !w.store.row.status.Pending?
    requires Settled(w.store.row.status) || At(tape, 2).fault.Clean?
    requires Handling(w, tape, said).result.CallbackConflict?
    ensures !Says(Handling(w, tape, said).seen.store.row, said)
  {
    hide Inv, Later, Evolved, Exec, RunAll, Others, Allowed;
    OthersEvolve(w, None, At(tape, 0).others);
    var read := Others(w, None, At(tape, 0).others);
    EvolvedIsLater(w, read, None);
    MovedOn(w, read);
    Unsettled(read);
    if !Settled(read.store.row.status) {
      OthersEvolve(read, None, At(tape, 1).others);
      var first := Others(read, None, At(tape, 1).others);
      EvolvedIsLater(read, first, None);
      MovedOn(read, first);
      OthersEvolve(first, None, At(tape, 2).others);
      EvolvedIsLater(first, Others(first, None, At(tape, 2).others), None);
      MovedOn(first, Others(first, None, At(tape, 2).others));
    }
  }

  /** A rejection with a reference is never what a row says: the reference is not stored. */
  lemma ReferencedRejectionIsNews(row: Booking, said: Assertion)
    requires RowShape(row) && NeverSaid(said)
    ensures !Says(row, said)
  {
  }

  lemma OthersKeepShape(w: World, actions: seq<Action>)
    requires Inv(w)
    ensures Inv(Others(w, None, actions)) && RowShape(Others(w, None, actions).store.row)
  {
    OthersEvolve(w, None, actions);
  }

  lemma SeenIsReached(w: World, tape: seq<Slot>, said: Assertion)
    requires Inv(w)
    ensures RowShape(Handling(w, tape, said).seen.store.row)
  {
    hide Inv, RowShape, RunAll, Others, Allowed, SameReference, Settled, Says;
    var (a, b, c, d) := (At(tape, 0).others, At(tape, 1).others, At(tape, 2).others, At(tape, 3).others);
    OthersKeepShape(w, a);
    var read := Others(w, None, a);
    OthersKeepShape(read, b);
    var first := Others(read, None, b);
    OthersKeepShape(first, c);
    OthersKeepShape(Others(first, None, c), d);
  }

  /** The other race: a copy settles the booking before the first write, and the re-read fails. */
  function BlindRace(said: Assertion): seq<Slot> {
    [Slot([], Clean), Slot([CallbackWrite(Unknown, said)], Clean), Slot([], NeverArrived)]
  }

  lemma BlindRaceRefusesCopy(w: World, said: Assertion)
    requires Inv(w) && w.store.row.status.Unknown? && Understood(said)
    requires said.status == "CONFIRMED" || said.reference == ""
    ensures var d := Handling(w, BlindRace(said), said);
            d.result.CallbackConflict? && Says(d.seen.store.row, said)
  {
    hide Inv, Exec, RunAll;
    var tape := BlindRace(said);
    NobodyActs(w, None);
    PendingHasNoReference(w);
    CopySettles(w, said);
    OneActs(w, CallbackWrite(Unknown, said));
    NobodyActs(Exec(w, CallbackWrite(Unknown, said)), None);
    assert At(Rest(tape, 1), 0) == tape[1] && At(Rest(tape, 1), 1) == tape[2];
  }

  /** A refusal decided on this tape contradicts what the row says by then. */
  predicate FairOn(w: World, tape: seq<Slot>, said: Assertion) {
    Handling(w, tape, said).result.CallbackConflict? ==> !Says(Handling(w, tape, said).seen.store.row, said)
  }

  lemma NeverSaidIsFair(w: World, tape: seq<Slot>, said: Assertion)
    requires Inv(w) && NeverSaid(said)
    ensures FairOn(w, tape, said)
  {
    SeenIsReached(w, tape, said);
    ReferencedRejectionIsNews(Handling(w, tape, said).seen.store.row, said);
  }

  lemma SettledOrReadIsFair(w: World, tape: seq<Slot>, said: Assertion)
    requires Inv(w) && !w.store.row.status.Received? && !w.store.row.status.Pending?
    requires Settled(w.store.row.status) || At(tape, 2).fault.Clean?
    ensures FairOn(w, tape, said)
  {
    hide Handling, Says;
    if Handling(w, tape, said).result.CallbackConflict? {
      FairFromDoubt(w, tape, said);
    }
  }

  lemma SentAndUnsettled(w: World)
    requires Inv(w) && !w.store.row.status.Received?
    ensures Settled(w.store.row.status) || w.store.row.status.Pending? || w.store.row.status.Unknown?
  {
  }

  lemma TwoTargets(said: Assertion)
    requires Understood(said) && !NeverSaid(said)
    ensures said.status == "CONFIRMED" || said.reference == ""
  {
  }

  lemma UnfairTape(w: World, said: Assertion)
    requires Inv(w) && (w.store.row.status.Pending? || w.store.row.status.Unknown?)
    requires Understood(said) && !NeverSaid(said)
    ensures !FairOn(w, if w.store.row.status.Pending? then Race(w, said) else BlindRace(said), said)
  {
    hide Inv, Handling, Says, Race, BlindRace;
    TwoTargets(said);
    if w.store.row.status.Pending? {
      RaceRefusesCopy(w, said);
    } else {
      BlindRaceRefusesCopy(w, said);
    }
  }

  lemma RaceRereads(w: World, said: Assertion)
    ensures At(Race(w, said), 2).fault.Clean?
  {
  }

  /** Exactly when a refusal can be trusted to mean a contradiction, for a booking that was sent and
      whatever the tape: the booking had settled when the callback arrived, or the assertion is one no
      row says. Otherwise a copy of it can settle the booking in between and make this one lose. */
  lemma RefusalIsFairIff(w: World, said: Assertion)
    requires Inv(w) && !w.store.row.status.Received? && Understood(said)
    ensures (forall tape :: FairOn(w, tape, said)) <==> Settled(w.store.row.status) || NeverSaid(said)
  {
    hide Inv, Handling, Says, Race, BlindRace, FairOn;
    if NeverSaid(said) {
      forall tape ensures FairOn(w, tape, said) {
        NeverSaidIsFair(w, tape, said);
      }
    } else if Settled(w.store.row.status) {
      forall tape ensures FairOn(w, tape, said) {
        SettledOrReadIsFair(w, tape, said);
      }
    } else {
      SentAndUnsettled(w);
      UnfairTape(w, said);
    }
  }

  /** As long as the re-read succeeds, only a booking that was PENDING when the callback arrived is
      at risk: doubt has nowhere to move to but a settled row, which the re-read then shows. */
  lemma RereadIsFairIff(w: World, said: Assertion)
    requires Inv(w) && !w.store.row.status.Received? && Understood(said)
    ensures (forall tape :: At(tape, 2).fault.Clean? ==> FairOn(w, tape, said))
            <==> !w.store.row.status.Pending? || NeverSaid(said)
  {
    hide Inv, Handling, Says, Race, FairOn;
    if NeverSaid(said) {
      forall tape | At(tape, 2).fault.Clean? ensures FairOn(w, tape, said) {
        NeverSaidIsFair(w, tape, said);
      }
    } else if !w.store.row.status.Pending? {
      forall tape | At(tape, 2).fault.Clean? ensures FairOn(w, tape, said) {
        SettledOrReadIsFair(w, tape, said);
      }
    } else {
      UnfairTape(w, said);
      RaceRereads(w, said);
    }
  }

  lemma CarriedIsSaid(row: Booking, said: Assertion)
    requires Settled(row.status) && Carries(row, said)
    ensures Says(row, said) <==> !NeverSaid(said)
  {
  }

  /** Redelivery. Once a callback has been applied, every later copy finds a row that already says
      the same and is a no-op, exactly when it confirmed or carried no reference: a decline's
      reference is never stored, so its copies are refused and flagged instead. */
  lemma Redelivery(w: World, said: Assertion, since: seq<Action>)
    requires Inv(w) && Handled(w, said).1.Applied?
    ensures var u := RunAll(Handled(w, said).0, since);
            if !NeverSaid(said)
            then Handled(u, said) == (u, Duplicate(u.store.row.status))
            else Handled(u, said) == Contradicted(u, said)
  {
    hide Inv, RunAll, SameReference, OutcomeDetail, EventsOf;
    var landed := Exec(w, CallbackWrite(w.store.row.status, said));
    var v := Handled(w, said).0;
    Unsettled(w);
    LaterSame(w);
    StepInv(w, CallbackWrite(w.store.row.status, said));
    CallbackLands(w, w, w.store.row.status, said);
    StepInv(landed, RaiseFlag);
    StepLater(landed, RaiseFlag);
    MovedOn(landed, Exec(landed, RaiseFlag));
    CarriedIsSaid(landed.store.row, said);
    RunsLater(v, since);
    MovedOn(v, RunAll(v, since));
  }

  /** However the first delivery ended, once the row carries what it asserted: any later copy, under
      any interference, whose first read succeeds is recognised exactly when it confirmed or carried
      no reference, and refused otherwise. */
  lemma RedeliveryOnAnyTape(w: World, said: Assertion, since: seq<Action>, tape: seq<Slot>)
    requires Inv(w) && Settled(w.store.row.status) && Carries(w.store.row, said)
    requires At(tape, 0).fault.Clean?
    ensures Handling(RunAll(w, since), tape, said).result ==
              if NeverSaid(said) then CallbackConflict else Duplicate(w.store.row.status)
  {
    hide Inv, Exec, RunAll, Others;
    RunsLater(w, since);
    var u := RunAll(w, since);
    SettledStays(w, u, said);
    OthersEvolve(u, None, At(tape, 0).others);
    var read := Others(u, None, At(tape, 0).others);
    EvolvedIsLater(u, read, None);
    SettledStays(u, read, said);
    MovedOn(w, u);
    MovedOn(u, read);
  }

  /** A contradicted callback leaves the row's outcome alone, on record and flagged. */
  lemma ContradictionIsKept(w: World, said: Assertion)
    requires Inv(w) && Settled(w.store.row.status)
    ensures var v := Contradicted(w, said).0;
            && v.store.row.flagged && Refused(v.store.log, ConflictEvent, said, w.store.row.status)
            && Column(v.store.row) == Column(w.store.row) && v.store.row.reference == w.store.row.reference
  {
    var e := RefusalEvent(ConflictEvent, w.store.row.status, said);
    var u := Exec(w, Refuse(e));
    assert u.store.log[|w.store.log|] == e.(from := Some(e.to));
    assert Contradicted(w, said).0.store.log[|w.store.log|] == e.(from := Some(e.to));
  }
}

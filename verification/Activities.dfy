/** The four activities of a run (internal/workflow/activity.go). Every contract here holds for
    any tape: other actors may act between any two statements, and any round trip may fail. */
module Activities {
  import opened Statuses
  import opened Bookings
  import opened Statements
  import opened Supplier
  import opened Protocol
  import opened Invariant
  import opened Evolution
  import opened Database
  import opened Repository
  import Guarantees
  import SupplierKey

  /** All that a run is ever told about a turn. */
  datatype RunOutcome =
    | SawConfirmed | SawRejected | SawAmbiguous | SawNotSent | SawFailed
    | SawSettled | SawInDoubt | SawExit | SawBudgetSpent

  datatype AttemptResult = AttemptResult(outcome: RunOutcome, attempt: nat)

  /** What the workflow is told when the answer was its attempt's to record. */
  function Told(a: Answer): RunOutcome {
    match a.outcome
    case Confirm => SawConfirmed
    case Decline => SawRejected
    case NotSent => SawNotSent
    case PreSendFailure => if a.from.Unknown? then SawInDoubt else SawFailed
    case Ambiguous => SawAmbiguous
    case AlreadySettled => SawSettled
    case Outstanding => SawExit
    case BudgetSpent => SawBudgetSpent
  }

  /** What a run may be told of each answer; of one that came too late, that the attempt is settled. */
  predicate SaidPlainly(told: RunOutcome, a: Answer) {
    match a.outcome
    case Confirm => told.SawConfirmed? || told.SawSettled?
    case Decline => told.SawRejected? || told.SawSettled?
    case NotSent => told.SawNotSent? || told.SawSettled?
    case PreSendFailure => if a.from.Unknown? then told.SawInDoubt? || told.SawSettled? else told.SawFailed?
    case Ambiguous => told.SawAmbiguous? || (a.from.Unknown? && told.SawSettled?)
    case AlreadySettled => told.SawSettled?
    case Outstanding => told.SawExit?
    case BudgetSpent => told.SawBudgetSpent?
  }

  predicate Internal(o: Outcome) {
    o.AlreadySettled? || o.Outstanding? || o.BudgetSpent?
  }

  function OutcomeStatus(a: Answer): Status {
    if a.outcome.Decline? then Rejected else Confirmed
  }

  /** The supplier's words for what it answered. */
  predicate InItsWords(code: Option<string>, o: Outcome) {
    match o
    case Confirm => code == Some("CONFIRMED")
    case Decline => code == Some("REJECTED")
    case Ambiguous => code == Some("AMBIGUOUS")
    case NotSent => code == Some("NOT_SENT")
    case PreSendFailure => code == Some("PRE_SEND_FAILURE")
    case _ => false
  }

  predicate KeptAsConflict(log: seq<Event>, a: Answer) {
    exists e | e in log :: e.kind.ConflictEvent? && e.attempt == Some(a.attempt) && InItsWords(e.code, a.outcome)
  }

  /** The conflict also keeps the supplier's reference, which is all that leads back to a reservation. */
  predicate FiledLate(log: seq<Event>, a: Answer) {
    exists e | e in log ::
      && e.kind.ConflictEvent? && e.attempt == Some(a.attempt) && InItsWords(e.code, a.outcome)
      && e.digest == if a.reference == "" then None else Some(a.reference)
  }

  lemma TextIsItsWords(a: Outcome)
    ensures match a
            case AlreadySettled => OutcomeText(a) == "ALREADY_SETTLED"
            case BudgetSpent => OutcomeText(a) == "BUDGET_SPENT"
            case Outstanding => OutcomeText(a) == "ATTEMPT_OUTSTANDING"
            case _ => InItsWords(Some(OutcomeText(a)), a)
  {
  }

  lemma TextsDiffer(a: Outcome, b: Outcome)
    ensures OutcomeText(a) == OutcomeText(b) <==> a == b
    ensures !Internal(a) ==> InItsWords(Some(OutcomeText(a)), a)
  {
    TextIsItsWords(a);
    TextIsItsWords(b);
  }

  /** The booking carries a definitive answer, filed as a response under the same word. */
  predicate IsOutcome(s: Store, a: Answer) {
    && s.row.status == OutcomeStatus(a)
    && (if a.outcome.Decline? then s.row.failure == Some(a.reason)
        else s.row.reference == if a.reference == "" then None else Some(a.reference))
    && exists e | e in s.log ::
         && e.kind.ResponseEvent? && e.attempt == Some(a.attempt) && e.to == s.row.status
         && InItsWords(e.code, a.outcome)
  }

  /** A definitive answer is never dropped: it is the booking's outcome, with what it carried, or
      the lineage holds a conflict that names its attempt and what was said. */
  predicate Recorded(s: Store, a: Answer) {
    KeptAsConflict(s.log, a) || IsOutcome(s, a)
  }

  lemma LateIsRecorded(s: Store, a: Answer)
    requires FiledLate(s.log, a)
    ensures Recorded(s, a)
  {
  }

  lemma LandedIsRecorded(s: Store, a: Answer)
    requires IsOutcome(s, a)
    ensures Recorded(s, a)
  {
  }

  lemma SupersededIsRecorded(s: Store, t: Transition, a: Answer, found: Status)
    requires SupersededEvent(t, found) in s.log && !Internal(a.outcome)
    requires t.attempt == Some(a.attempt) && t.code == Some(OutcomeText(a.outcome))
    ensures Recorded(s, a)
  {
    TextsDiffer(a.outcome, a.outcome);
  }

  lemma RecordedInWords(s: Store, a: Answer)
    requires Recorded(s, a) && (a.outcome.Confirm? || a.outcome.Decline?)
    ensures exists e | e in s.log ::
              && (e.kind.ResponseEvent? || e.kind.ConflictEvent?) && e.attempt == Some(a.attempt)
              && (e.code == Some("CONFIRMED") <==> a.outcome.Confirm?)
              && (e.code == Some("REJECTED") <==> a.outcome.Decline?)
  {
    if KeptAsConflict(s.log, a) {
      var e :| e in s.log && e.kind.ConflictEvent? && e.attempt == Some(a.attempt) && InItsWords(e.code, a.outcome);
    } else {
      var e :| e in s.log && e.kind.ResponseEvent? && e.attempt == Some(a.attempt) && e.to == s.row.status
               && InItsWords(e.code, a.outcome);
    }
  }

  /** An answer an activity may be handed: its own internal ones, or a call's. */
  predicate Genuine(w: World, a: Answer) {
    Internal(a.outcome) || (Answered(w, a.attempt) && a == AnswerTo(w, a.attempt))
  }

  /** The answers whose record ends the attempt without moving the booking. */
  predicate ClearsOnly(a: Answer) {
    !Internal(a.outcome) && Record(a).ClearMarker?
  }

  predicate Released(w: World, attempt: nat) {
    w.store.row.marker != Some(attempt)
  }

  /** What a call recorded for an attempt that is no longer the booking's business says. */
  function LateAnswer(a: Answer, found: Status): Event {
    Event(ConflictEvent, None, found, Some(a.attempt), Some(OutcomeText(a.outcome)),
          Some("answered after the booking moved on"), NonEmpty(a.reference))
  }

  /** What applying an answer comes to when nobody interferes: the first time its record lands, and
      from then on only evidence is filed, for everything but a move that had nothing to say. */
  function Alone(w: World, a: Answer): World {
    var status := w.store.row.status;
    if Internal(a.outcome) then w
    else if !Released(w, a.attempt) then Exec(w, Persist(a.attempt))
    else match Record(a)
         case Guarded(t) =>
           if a.outcome.Ambiguous? || a.outcome.PreSendFailure? then w
           else if status == a.from then Exec(w, Refuse(SupersededEvent(t, status)))
           else Exec(w, Refuse(LateAnswer(a, status)))
         case _ => Exec(w, Refuse(LateAnswer(a, status)))
  }

  lemma GenuineStays(w: World, v: World, a: Answer)
    requires Later(w, v) && Genuine(w, a)
    ensures Genuine(v, a)
  {
  }

  /** Whichever way the first write for a genuine answer goes, its attempt is over. */
  lemma AfterRecord(w: World, a: Answer)
    requires Inv(w) && Genuine(w, a) && !Internal(a.outcome)
    ensures a.outcome.Confirm? || a.outcome.Decline? || a.outcome.NotSent?
            || a.outcome.PreSendFailure? || a.outcome.Ambiguous?
    ensures Issues(w, Persist(a.attempt), Record(a), None)
    ensures a.from.Pending? || a.from.Unknown?
    ensures Released(Exec(w, Persist(a.attempt)), a.attempt)
    ensures w.store.row.marker == Some(a.attempt) ==> a.from == w.store.row.status
  {
  }

  lemma ReleasedStays(w: World, v: World, attempt: nat)
    requires Later(w, v) && Released(w, attempt) && attempt <= w.store.row.attempts
    ensures Released(v, attempt)
  {
  }

  /** The first write for an answer, seen from the moment it ran: landed or refused, the attempt
      is over, and stays over. */
  lemma RecordCloses(was: World, seen: World, now: World, a: Answer)
    requires Later(was, seen) && Genuine(was, a) && !Internal(a.outcome) && Inv(seen)
    requires now == Exec(seen, Persist(a.attempt)) || Later(Exec(seen, Persist(a.attempt)), now)
    ensures Released(now, a.attempt)
  {
    GenuineStays(was, seen, a);
    AfterRecord(seen, a);
    ExecEvolves(seen, Persist(a.attempt), None);
    var u := Exec(seen, Persist(a.attempt));
    if now != u {
      ReleasedStays(u, now, a.attempt);
    }
  }

  lemma GuardedRecord(w: World, a: Answer, t: Transition)
    requires Inv(w) && Genuine(w, a) && !Internal(a.outcome) && Record(a) == Guarded(t)
    ensures Buildable(t) && t.rule.Owned? && t.attempt == Some(a.attempt) && t.from == a.from
    ensures a.outcome.Confirm? || a.outcome.Decline? ==> t.code == Some(OutcomeText(a.outcome))
    ensures !Moves(t, w.store.row) ==> Exec(w, Persist(a.attempt)) == w
    ensures Moves(t, w.store.row) <==> w.store.row.marker == Some(a.attempt)
    ensures Moves(t, w.store.row) && (a.outcome.Confirm? || a.outcome.Decline?) ==>
              IsOutcome(Exec(w, Persist(a.attempt)).store, a)
  {
    hide Verdict;
    if Moves(t, w.store.row) && (a.outcome.Confirm? || a.outcome.Decline?) {
      Guarantees.OwnerStands(w, a.attempt);
      Guarantees.SettlingLands(w, a.attempt);
      var s := Exec(w, Persist(a.attempt)).store;
      assert s.log[|w.store.log|] in s.log;
    }
  }

  lemma AloneSettles(w: World, a: Answer, t: Transition)
    requires Inv(w) && Genuine(w, a) && (a.outcome.Confirm? || a.outcome.Decline?) && Record(a) == Guarded(t)
    ensures !Released(w, a.attempt) ==> Alone(w, a) == Exec(w, Persist(a.attempt))
    ensures Released(w, a.attempt) ==>
              Alone(w, a) == Exec(w, Refuse(if w.store.row.status == a.from
                                            then SupersededEvent(t, w.store.row.status)
                                            else LateAnswer(a, w.store.row.status)))
  {
  }

  lemma AloneClears(w: World, a: Answer)
    requires Inv(w) && Genuine(w, a) && !Internal(a.outcome) && Record(a).ClearMarker?
    ensures !Released(w, a.attempt) ==> Alone(w, a) == Exec(w, Persist(a.attempt))
    ensures Released(w, a.attempt) ==>
              && Exec(w, Persist(a.attempt)) == w
              && Alone(w, a) == Exec(w, Refuse(LateAnswer(a, w.store.row.status)))
  {
  }

  /** The last lineage row of a definitive answer that came too late names its attempt and outcome,
      and keeps the supplier's reference exactly when the booking had left the status the attempt
      wrote from: the superseded path has nothing to put it in. */
  lemma LateReferenceKeptIff(w: World, a: Answer)
    requires Inv(w) && Genuine(w, a) && (a.outcome.Confirm? || a.outcome.Decline?)
    requires Released(w, a.attempt) && a.reference != ""
    ensures var (s, v) := (w.store, Alone(w, a).store);
            && |v.log| == |s.log| + 1 && v.row == s.row
            && var e := v.log[|s.log|];
               && e.kind.ConflictEvent? && e.attempt == Some(a.attempt) && InItsWords(e.code, a.outcome)
               && e.to == s.row.status && e.from == Some(s.row.status)
               && (e.digest == Some(a.reference) <==> s.row.status != a.from)
  {
    GuardedRecord(w, a, Record(a).t);
    AloneSettles(w, a, Record(a).t);
  }

  lemma RefusalAppends(w: World, e: Event)
    requires e.kind.ConflictEvent?
    ensures var s := Exec(w, Refuse(e)).store;
            s.row == w.store.row && s.log == w.store.log + [e.(from := Some(e.to))]
  {
  }

  lemma OwnerCalled(w: World, v: World, a: Answer)
    requires Inv(w) && Later(w, v) && Genuine(w, a) && !Internal(a.outcome)
    ensures a.attempt <= w.store.row.attempts <= v.store.row.attempts
  {
  }

  lemma AloneFiles(v: World, a: Answer)
    requires Inv(v) && Genuine(v, a) && !Internal(a.outcome) && Released(v, a.attempt)
    ensures var again := Alone(v, a).store;
            && again.row == v.store.row && v.store.log <= again.log
            && |again.log| == |v.store.log| +
                 (if Record(a).Guarded? && !a.outcome.Confirm? && !a.outcome.Decline? then 0 else 1)
            && (|again.log| > |v.store.log| ==>
                  var e := again.log[|v.store.log|];
                  e.kind.ConflictEvent? && e.attempt == Some(a.attempt) && InItsWords(e.code, a.outcome))
  {
    hide Inv, Exec, Genuine, Answered;
    match Record(a) {
      case Guarded(t) =>
        if a.outcome.Confirm? || a.outcome.Decline? {
          RefusalAppends(v, SupersededEvent(t, v.store.row.status));
        }
      case _ =>
    }
    RefusalAppends(v, LateAnswer(a, v.store.row.status));
  }

  /** Applying a recorded answer again, whatever has happened since, never changes the row. It files
      one conflict naming the attempt and what was said, except for a doubt or a failure of our own
      whose move found the booking gone. */
  lemma RepeatedApplyIsInert(w: World, a: Answer, since: seq<Action>)
    requires Inv(w) && Genuine(w, a) && !Internal(a.outcome)
    ensures var v := RunAll(Exec(w, Persist(a.attempt)), since);
            var again := Alone(v, a).store;
            && Genuine(v, a)
            && again.row == v.store.row && v.store.log <= again.log
            && |again.log| == |v.store.log| +
                 (if Record(a).Guarded? && !a.outcome.Confirm? && !a.outcome.Decline? then 0 else 1)
            && (|again.log| > |v.store.log| ==>
                  var e := again.log[|v.store.log|];
                  e.kind.ConflictEvent? && e.attempt == Some(a.attempt) && InItsWords(e.code, a.outcome))
  {
    var u := Exec(w, Persist(a.attempt));
    var v := RunAll(u, since);
    AfterRecord(w, a);
    ExecEvolves(w, Persist(a.attempt), None);
    RunsLater(u, since);
    LaterTransitive(w, u, v);
    GenuineStays(w, v, a);
    OwnerCalled(w, u, a);
    ReleasedStays(u, v, a.attempt);
    AloneFiles(v, a);
  }

  const PRE_AUTHORIZE_READS := 3

  /** An attempt that was over when its record was sent was over when it ran. */
  lemma ReleasedBefore(w: World, v: World, a: Answer)
    requires Inv(w) && Later(w, v) && Genuine(w, a) && !Internal(a.outcome)
    ensures Released(w, a.attempt) ==> Released(v, a.attempt)
  {
    if Released(w, a.attempt) {
      ReleasedStays(w, v, a.attempt);
    }
  }

  lemma VerdictIsExternal(wire: seq<Wire>, reply: NetReply)
    ensures !Internal(Verdict(wire, reply).outcome)
    ensures reply.BuildFailed? ==> Verdict(wire, reply) == Verdict([], reply)
  {
  }

  lemma OwnerExists(w: World)
    requires Inv(w)
    ensures w.store.row.marker.Some? ==> w.store.row.marker.value <= w.store.row.attempts
  {
  }

  /** A dispatch ends whichever attempt it found outstanding. */
  lemma ResolveReleases(was: World, seen: World, now: World)
    requires Inv(was) && Inv(seen) && Later(was, seen) && now == Exec(seen, Resolve)
    ensures was.store.row.marker.Some? ==> Released(now, was.store.row.marker.value)
    ensures was.store.row.attempts <= now.store.row.attempts
  {
  }

  /** A call's own steps touch no row and no run. */
  predicate CallGoesOn(w: World, v: World, k: nat, wire: seq<Wire>) {
    && v.store == w.store && v.runs == w.runs
    && InFlight(w, k) && 1 <= k <= |v.calls|
    && v.calls[k - 1].request == w.calls[k - 1].request && v.calls[k - 1].from == w.calls[k - 1].from
    && v.calls[k - 1].wire == wire
  }

  lemma OnTheWire(w: World, k: nat, e: Wire)
    requires InFlight(w, k) && (e.Request? ==> Connected in w.calls[k - 1].wire)
    ensures Enabled(w, OnWire(k, e)) && StatementOf(w, OnWire(k, e)).Select?
    ensures CallGoesOn(w, Exec(w, OnWire(k, e)), k, w.calls[k - 1].wire + [e])
    ensures InFlight(Exec(w, OnWire(k, e)), k)
  {
    assert w.store.log + [] == w.store.log;
  }

  lemma Returned(w: World, k: nat, reply: NetReply)
    requires InFlight(w, k) && (reply.BuildFailed? ==> w.calls[k - 1].wire == [])
    ensures Enabled(w, Return(k, reply)) && StatementOf(w, Return(k, reply)).Select?
    ensures CallGoesOn(w, Exec(w, Return(k, reply)), k, w.calls[k - 1].wire)
    ensures Answered(Exec(w, Return(k, reply)), k) && Exec(w, Return(k, reply)).calls[k - 1].reply == Some(reply)
  {
    assert w.store.log + [] == w.store.log;
  }

  /** Where the run stands once its attempt activity has answered. */
  predicate AfterAttempt(was: World, w: World, run: nat, a: Answer)
    requires run < |was.runs|
  {
    && run < |w.runs|
    && match a.outcome
       case AlreadySettled => Settled(w.store.row.status)
                              && (w.runs[run].phase == was.runs[run].phase || w.runs[run].phase.Done?)
       case Outstanding => w.runs[run].phase.Done?
       case BudgetSpent => w.runs[run].phase.Parking?
       case _ => was.runs[run].phase.Ready? && w.runs[run].phase == Waiting(was.runs[run].phase.turn, a.attempt)
  }

  /** What an attempt does when nobody interferes. */
  predicate Undisturbed(was: World, w: World, budget: int, a: Answer) {
    var row := was.store.row;
    if Settled(row.status) then a.outcome.AlreadySettled? && w.store == was.store
    else if row.marker.Some? then a.outcome.Outstanding? && w.store == was.store
    else if row.attempts >= budget then a.outcome.BudgetSpent? && w.store == was.store
    else
      && !Internal(a.outcome)
      && a.attempt == row.attempts + 1
      && w.store.row.marker == Some(a.attempt)
      && w.store.row.attempts == a.attempt
      && w.store.row.status == WritesFrom(row.status)
      && w.store.row.flagged == row.flagged && w.store.row.reference == row.reference
      && w.store.row.failure == row.failure
  }

  /** The call behind an answer went the way the network had it. */
  predicate CalledWith(w: World, k: nat, wire: seq<Wire>, reply: NetReply) {
    && Answered(w, k) && w.calls[k - 1].reply == Some(reply)
    && w.calls[k - 1].wire == if reply.BuildFailed? then [] else wire
  }

  /** What authorizing does to the booking and to its run, granted or not. */
  lemma AuthorizeMeans(w: World, run: nat, budget: int)
    requires Inv(w) && run < |w.runs| && w.runs[run].phase.Ready? && w.runs[run].budget == budget
    ensures var (row, v) := (w.store.row, Exec(w, AuthorizeFor(run)));
            && run < |v.runs|
            && (Grants(row, budget) <==> !Settled(row.status) && row.marker.None? && row.attempts < budget)
            && if Grants(row, budget) then
                 && InFlight(v, row.attempts + 1) && v.calls[row.attempts].wire == []
                 && v.calls[row.attempts].from == WritesFrom(row.status)
                 && v.calls[row.attempts].request == RequestFor(row.identity)
                 && v.runs[run].phase == Waiting(w.runs[run].phase.turn, row.attempts + 1)
                 && v.store.row.marker == Some(row.attempts + 1) && v.store.row.attempts == row.attempts + 1
                 && v.store.row.status == WritesFrom(row.status)
                 && v.store.row.flagged == row.flagged && v.store.row.reference == row.reference
                 && v.store.row.failure == row.failure
               else
                 && v.store == w.store
                 && match RefusalOf(row.status, row.marker, row.attempts, budget)
                    case RefusedBudget =>
                      v.runs[run].phase.Parking? && row.marker.None? && row.attempts >= budget && !Settled(row.status)
                    case RefusedOutstanding => v.runs[run].phase.Done? && row.marker.Some? && !Settled(row.status)
                    case RefusedSettled => v.runs[run].phase.Done? && Settled(row.status)
  {
  }

  /** The run is still where it was, about to attempt. */
  predicate StillReady(was: World, v: World, run: nat, budget: int) {
    && run < |was.runs| && run < |v.runs| && v.runs[run] == was.runs[run]
    && was.runs[run].phase.Ready? && was.runs[run].budget == budget
  }

  /** What Attempt promises of its answer. */
  predicate AttemptSays(was: World, now: World, run: nat, a: Answer) {
    run < |was.runs| && Genuine(now, a) && AfterAttempt(was, now, run, a)
  }

  function RefusedAs(refusal: Refusal): Outcome {
    match refusal
    case RefusedSettled => AlreadySettled
    case RefusedBudget => BudgetSpent
    case RefusedOutstanding => Outstanding
  }

  lemma SettledSays(was: World, now: World, run: nat, budget: int, a: Answer)
    requires StillReady(was, now, run, budget) && Settled(now.store.row.status) && a.outcome.AlreadySettled?
    ensures Internal(a.outcome)
    ensures AttemptSays(was, now, run, a)
    ensures now == was ==> Undisturbed(was, now, budget, a)
  {
  }

  lemma RefusedSays(was: World, seen: World, run: nat, budget: int, a: Answer)
    requires Inv(seen) && StillReady(was, seen, run, budget) && !Grants(seen.store.row, budget)
    requires var row := seen.store.row;
             a.outcome == RefusedAs(RefusalOf(row.status, row.marker, row.attempts, budget))
    ensures Internal(a.outcome)
    ensures AttemptSays(was, Exec(seen, AuthorizeFor(run)), run, a)
    ensures seen == was ==> Undisturbed(was, Exec(seen, AuthorizeFor(run)), budget, a)
  {
    hide Inv, Exec, Grants, RefusalOf;
    AuthorizeMeans(seen, run, budget);
  }

  lemma GrantedSays(was: World, seen: World, now: World, run: nat, budget: int, x: (seq<Wire>, NetReply), a: Answer)
    requires Inv(seen) && StillReady(was, seen, run, budget) && Grants(seen.store.row, budget)
    requires var (k, v) := (seen.store.row.attempts + 1, Exec(seen, AuthorizeFor(run)));
             && now.store == v.store && now.runs == v.runs && k <= |v.calls|
             && CalledWith(now, k, x.0, x.1) && now.calls[k - 1].from == v.calls[k - 1].from
             && var verdict := Verdict(now.calls[k - 1].wire, x.1);
                && !Internal(verdict.outcome)
                && a == Answer(verdict.outcome, verdict.reference, verdict.reason, k, WritesFrom(seen.store.row.status))
    ensures AttemptSays(was, now, run, a)
    ensures seen == was ==> Undisturbed(was, now, budget, a)
  {
    hide Inv, Exec, Grants, RefusalOf, Verdict;
    AuthorizeMeans(seen, run, budget);
  }

  /** The first n round trips all came to nothing. */
  predicate ReadsFailed(tape: seq<Slot>, n: nat) {
    forall i: nat | i < n :: !At(tape, i).fault.Clean?
  }

  lemma OneReadFailed(tape: seq<Slot>, n: nat)
    ensures ReadsFailed(tape, 0)
    ensures ReadsFailed(tape, n) && !At(tape, n).fault.Clean? ==> ReadsFailed(tape, n + 1)
    ensures At(Rest(tape, n), 0) == At(tape, n) && Rest(Rest(tape, n), 1) == Rest(tape, n + 1)
    ensures Rest(tape, 0) == tape
  {
  }

  lemma RequestIs(i: Identity)
    ensures RequestFor(i) == BookRequest(i.id, SupplierKey.IdempotencyKey(i.id), i.stay)
  {
  }

  lemma AuthorizeIssues(w: World, run: nat)
    requires run < |w.runs| && w.runs[run].phase.Ready?
    ensures Issues(w, AuthorizeFor(run), Statement.Authorize(w.runs[run].budget, KeyOf(w)), Some(run))
  {
  }

  /** A run that parks keeps parking, so its park activity may run late and repeatedly. */
  lemma ParkingIssues(w: World, v: World, run: nat)
    requires run < |w.runs| && w.runs[run].phase.Parking? && Later(w, v)
    ensures run < |v.runs| && v.runs[run].phase.Parking?
    ensures Issues(v, CallUnreachable(run), Guarded(UNREACHABLE_MOVE), None)
  {
  }

  /** What parking comes to when nobody interferes. */
  function ParkAlone(w: World, run: nat): (World, bool) {
    var row := w.store.row;
    if row.marker.Some? then (w, false)
    else if row.status.Pending? then (Exec(w, CallUnreachable(run)), false)
    else (Exec(w, ParkDoubt), row.status.Unknown?)
  }

  lemma ParkedWhen(w: World, run: nat)
    ensures ParkAlone(w, run).1 == (w.store.row.status.Unknown? && w.store.row.marker.None?)
  {
  }

  lemma UnreachableMeans(w: World, run: nat)
    requires Inv(w) && run < |w.runs| && w.runs[run].phase.Parking?
    ensures !Moves(UNREACHABLE_MOVE, w.store.row) ==> Exec(w, CallUnreachable(run)) == w
    ensures Moves(UNREACHABLE_MOVE, w.store.row) ==> ParkAlone(w, run) == (Exec(w, CallUnreachable(run)), false)
    ensures !Moves(UNREACHABLE_MOVE, w.store.row) && w.store.row.status.Pending? ==> ParkAlone(w, run) == (w, false)
  {
  }

  lemma ParkDoubtMeans(w: World)
    requires Inv(w)
    ensures Exec(w, ParkDoubt).store.row.flagged == (w.store.row.flagged || Parks(w.store.row))
    ensures !Parks(w.store.row) ==> Exec(w, ParkDoubt) == w
    ensures w.store.row.marker.Some? || w.store.row.status.Pending? ==> !Parks(w.store.row)
  {
  }

  lemma ParkDoubtAlone(w: World, run: nat)
    requires Inv(w) && !w.store.row.status.Pending?
    ensures ParkAlone(w, run) == (Exec(w, ParkDoubt), Parks(w.store.row))
  {
    ParkDoubtMeans(w);
  }

  class Worker {
    const repo: Repo
    const db: Db

    constructor (repo: Repo)
      ensures this.repo == repo && this.db == repo.db
    {
      this.repo := repo;
      this.db := repo.db;
    }

    ghost predicate Valid()
      reads this, db
    {
      db == repo.db && db.Valid()
    }

    /** The first thing every run does: an abandoned attempt becomes the doubt it represents. */
    method Dispatch() returns (r: Try<Status>)
      requires Valid()
      modifies db
      ensures db.known && r.Err? ==> Faults(db.tape) < Faults(old(db.tape))
      ensures Valid() && db.Keeps(old(db.world), old(db.tape), old(db.trace))
      ensures old(Faultless(db.tape)) && db.known ==> r.Ok?
      ensures r.Ok? ==> db.known && r.value == db.world.store.row.status
      ensures r.Ok? && old(db.world).store.row.marker.Some? ==>
                Released(db.world, old(db.world).store.row.marker.value)
      ensures old(Quiet(db.tape)) ==>
                db.world == Exec(old(db.world), Resolve) || (r.Err? && db.world == old(db.world))
    {
      hide Inv, Later, Evolved, Exec, Others, At, Rest, RunAll, Actions, OwnWrites, OwnEntries, OwnSends, Solo;
      hide Faultless, Faults, Quiet, NoWorse, Db.Traced;
      QuietIsSolo(db.tape);
      ghost var seen;
      var resolved;
      resolved, seen := repo.ResolveStaleMarker();
      ghost var (between, tried) := (db.world, db.tape);
      var _ :- resolved;
      if db.known {
        EvolvedIsLater(old(db.world), seen, db.me);
        ResolveReleases(old(db.world), seen, between);
      }
      var read;
      read, seen := repo.GetByID();
      EvolvedTransitive(old(db.world), between, db.world, db.me);
      NoWorseTransitive(old(db.tape), tried, db.tape);
      var b :- read;
      if old(db.world).store.row.marker.Some? {
        OwnerExists(old(db.world));
        EvolvedIsLater(old(db.world), between, db.me);
        EvolvedIsLater(between, db.world, db.me);
        ReleasedStays(between, db.world, old(db.world).store.row.marker.value);
      }
      r := Ok(b.status);
    }

    /** Files an answer whose write would no longer fit the row, together with the reference it came
        with. The status it is filed under is the one just read. */
    method Superseded(a: Answer) returns (r: Try<AttemptResult>)
      requires Valid() && !Internal(a.outcome)
      modifies db
      ensures db.known && r.Err? ==> Faults(db.tape) < Faults(old(db.tape))
      ensures Valid() && db.Keeps(old(db.world), old(db.tape), old(db.trace))
      ensures old(Faultless(db.tape)) && db.known ==> r.Ok?
      ensures r.Ok? ==> r.value.outcome.SawSettled? && db.known && FiledLate(db.world.store.log, a)
      ensures r.Ok? && old(Solo(db.tape)) ==>
                db.world == Exec(old(db.world), Refuse(LateAnswer(a, old(db.world).store.row.status)))
      ensures old(Quiet(db.tape)) && r.Err? ==> db.world == old(db.world)
      ensures db.Writes() <= old(db.Writes()) && db.Entries() <= old(db.Entries()) + 1
    {
      hide Inv, Later, Evolved, Exec, Others, At, Rest, RunAll, Actions, OwnWrites, OwnEntries, OwnSends, Solo;
      hide Faultless, Faults, Quiet, NoWorse, Db.Traced, OutcomeText;
      QuietIsSolo(db.tape);
      ghost var seen;
      var read;
      read, seen := repo.GetByID();
      ghost var (between, tried) := (db.world, db.tape);
      var b :- read;
      var recorded := repo.AppendRefusal(LateAnswer(a, b.status));
      EvolvedTransitive(old(db.world), between, db.world, db.me);
      NoWorseTransitive(old(db.tape), tried, db.tape);
      var _ :- recorded;
      TextsDiffer(a.outcome, a.outcome);
      assert LateAnswer(a, b.status).(from := Some(b.status)) in db.world.store.log;
      r := Ok(AttemptResult(SawSettled, a.attempt));
    }

    /** A supplier's definitive answer: it becomes the outcome, or it is kept as a conflict. */
    method Settle(a: Answer, t: Transition) returns (r: Try<AttemptResult>)
      requires Valid() && (a.outcome.Confirm? || a.outcome.Decline?) && Record(a) == Guarded(t)
      requires db.known ==> Genuine(db.world, a)
      modifies db
      ensures db.known && r.Err? ==> Faults(db.tape) < Faults(old(db.tape))
      ensures Valid() && db.Keeps(old(db.world), old(db.tape), old(db.trace))
      ensures old(Faultless(db.tape)) && db.known ==> r.Ok?
      ensures r.Ok? ==> db.known && (r.value.outcome == Told(a) || r.value.outcome.SawSettled?)
                        && Released(db.world, a.attempt) && Recorded(db.world.store, a)
      // landed or late, the supplier's own word is on record for its attempt
      ensures r.Ok? ==>
                exists e | e in db.world.store.log ::
                  && (e.kind.ResponseEvent? || e.kind.ConflictEvent?) && e.attempt == Some(a.attempt)
                  && (e.code == Some("CONFIRMED") <==> a.outcome.Confirm?)
                  && (e.code == Some("REJECTED") <==> a.outcome.Decline?)
      ensures db.known && old(Quiet(db.tape)) && r.Ok? ==>
                && db.world == Alone(old(db.world), a)
                && r.value.outcome == (if Released(old(db.world), a.attempt) then SawSettled else Told(a))
      ensures old(Quiet(db.tape)) && r.Err? ==> db.world == old(db.world)
      ensures db.known && Released(old(db.world), a.attempt) ==>
                db.Writes() <= old(db.Writes()) && db.Entries() <= old(db.Entries()) + 1
    {
      hide Inv, Later, Evolved, Exec, Alone, Record, Genuine, Others, At, Rest, RunAll, Actions, OwnWrites;
      hide OwnEntries, OwnSends, Solo, Faultless, Faults, Quiet, NoWorse, Db.Traced, OutcomeText, IsOutcome, Recorded;
      hide FiledLate;
      QuietIsSolo(db.tape);
      if db.known {
        AfterRecord(db.world, a);
        GuardedRecord(db.world, a, t);
        AloneSettles(db.world, a, t);
      }
      ghost var seen;
      var verdict;
      verdict, seen := repo.Apply(t, Persist(a.attempt));
      ghost var (between, tried) := (db.world, db.tape);
      if db.known {
        EvolvedIsLater(old(db.world), seen, db.me);
        GenuineStays(old(db.world), seen, a);
        GuardedRecord(seen, a, t);
        ReleasedBefore(old(db.world), seen, a);
      }
      match verdict {
        case Took(_) =>
          LandedIsRecorded(db.world.store, a);
          RecordCloses(old(db.world), seen, between, a);
          r := Ok(AttemptResult(Told(a), a.attempt));
        case WasSuperseded(found) =>
          SupersededIsRecorded(db.world.store, t, a, found);
          RecordCloses(old(db.world), seen, between, a);
          r := Ok(AttemptResult(SawSettled, a.attempt));
        case LostRace(_) =>
          RecordCloses(old(db.world), seen, between, a);
          r := Superseded(a);
          EvolvedTransitive(old(db.world), between, db.world, db.me);
          NoWorseTransitive(old(db.tape), tried, db.tape);
          if r.Ok? {
            LateIsRecorded(db.world.store, a);
            EvolvedIsLater(between, db.world, db.me);
            RecordCloses(old(db.world), seen, db.world, a);
          }
        case Broke(error) =>
          r := Err(error);
      }
      if r.Ok? {
        RecordedInWords(db.world.store, a);
      }
    }

    /** Records an answer after which the booking stays where it is: one that was provably not sent,
        or any but a definitive one about a booking already in doubt. */
    method Clear(a: Answer, kind: EventKind) returns (r: Try<AttemptResult>)
      requires Valid() && !Internal(a.outcome) && Record(a) == Statement.ClearMarker(a.attempt, kind, Some(a.reason))
      requires db.known ==> Genuine(db.world, a)
      modifies db
      ensures db.known && r.Err? ==> Faults(db.tape) < Faults(old(db.tape))
      ensures Valid() && db.Keeps(old(db.world), old(db.tape), old(db.trace))
      ensures old(Faultless(db.tape)) && db.known ==> r.Ok?
      ensures r.Ok? ==> db.known && Released(db.world, a.attempt)
                        && (r.value.outcome == Told(a) || r.value.outcome.SawSettled?)
      ensures r.Ok? && r.value.outcome != Told(a) ==> FiledLate(db.world.store.log, a)
      ensures db.known && old(Quiet(db.tape)) && r.Ok? ==>
                && db.world == Alone(old(db.world), a)
                && r.value.outcome == (if Released(old(db.world), a.attempt) then SawSettled else Told(a))
      ensures old(Quiet(db.tape)) && r.Err? ==> db.world == old(db.world)
      ensures db.known && Released(old(db.world), a.attempt) ==>
                db.Writes() <= old(db.Writes()) && db.Entries() <= old(db.Entries()) + 1
      ensures db.known && old(Solo(db.tape)) && At(old(db.tape), 0).fault.NoReply?
              && !Released(old(db.world), a.attempt) ==>
                r.Err? && db.world == Exec(old(db.world), Persist(a.attempt)) && db.tape == Rest(old(db.tape), 1)
    {
      hide Inv, Later, Evolved, Exec, Alone, Record, Genuine, Others, At, Rest, RunAll, Actions, OwnWrites;
      hide OwnEntries, OwnSends, Solo, Faultless, Faults, Quiet, NoWorse, Db.Traced;
      QuietIsSolo(db.tape);
      if db.known {
        AfterRecord(db.world, a);
        AloneClears(db.world, a);
      }
      ghost var seen;
      var done;
      done, seen := repo.ClearMarker(a.attempt, kind, a.reason, Persist(a.attempt));
      ghost var (between, tried) := (db.world, db.tape);
      if db.known {
        EvolvedIsLater(old(db.world), seen, db.me);
        ReleasedBefore(old(db.world), seen, a);
        GenuineStays(old(db.world), seen, a);
      }
      var cleared :- done;
      if cleared {
        RecordCloses(old(db.world), seen, between, a);
        return Ok(AttemptResult(Told(a), a.attempt));
      }
      r := Superseded(a);
      EvolvedTransitive(old(db.world), between, db.world, db.me);
      NoWorseTransitive(old(db.tape), tried, db.tape);
      if r.Ok? {
        EvolvedIsLater(between, db.world, db.me);
        RecordCloses(old(db.world), seen, db.world, a);
      }
    }

    /** An answer that moves a Pending booking into doubt or to our own failure. Losing the race
        changes nothing about what the run is told. */
    method Move(a: Answer, t: Transition) returns (r: Try<AttemptResult>)
      requires Valid() && (a.outcome.Ambiguous? || a.outcome.PreSendFailure?) && Record(a) == Guarded(t)
      requires db.known ==> Genuine(db.world, a)
      modifies db
      ensures db.known && r.Err? ==> Faults(db.tape) < Faults(old(db.tape))
      ensures Valid() && db.Keeps(old(db.world), old(db.tape), old(db.trace))
      ensures old(Faultless(db.tape)) && db.known ==> r.Ok?
      ensures r.Ok? ==> db.known && r.value.outcome == Told(a) && Released(db.world, a.attempt)
      ensures db.known && old(Quiet(db.tape)) && r.Ok? ==> db.world == Alone(old(db.world), a)
      ensures old(Quiet(db.tape)) && r.Err? ==> db.world == old(db.world)
      ensures db.known && Released(old(db.world), a.attempt) ==>
                db.Writes() <= old(db.Writes()) && db.Entries() <= old(db.Entries()) + 1
    {
      hide Inv, Later, Evolved, Exec, Others, At, Rest, RunAll, Actions, OwnWrites, OwnEntries, OwnSends, Solo;
      hide Faultless, Faults, Quiet, NoWorse, Db.Traced;
      QuietIsSolo(db.tape);
      if db.known {
        AfterRecord(db.world, a);
        GuardedRecord(db.world, a, t);
      }
      ghost var seen;
      var verdict;
      verdict, seen := repo.Apply(t, Persist(a.attempt));
      if db.known {
        EvolvedIsLater(old(db.world), seen, db.me);
        GenuineStays(old(db.world), seen, a);
        ReleasedBefore(old(db.world), seen, a);
        GuardedRecord(seen, a, t);
        if verdict.WasSuperseded? {
          Guarantees.SupersededOnlyFromDoubt(seen, a.attempt);
          assert false;
        }
        if !verdict.Broke? {
          RecordCloses(old(db.world), seen, db.world, a);
        }
      }
      r := if verdict.Broke? then Err(verdict.error) else Ok(AttemptResult(Told(a), a.attempt));
    }

    /** Persists an answer. Safe to repeat, and safe to run late. */
    method Apply(a: Answer) returns (r: Try<AttemptResult>)
      requires Valid() && (db.known ==> Genuine(db.world, a))
      modifies db
      ensures db.known && r.Err? ==> Faults(db.tape) < Faults(old(db.tape))
      ensures Valid() && db.Keeps(old(db.world), old(db.tape), old(db.trace))
      ensures Internal(a.outcome) ==>
                r.Ok? && r.value.outcome == Told(a) && db.world == old(db.world) && db.tape == old(db.tape)
      ensures old(Faultless(db.tape)) && db.known ==> r.Ok?
      ensures r.Ok? && !Internal(a.outcome) ==>
                && db.known
                && (r.value.outcome == Told(a) || r.value.outcome.SawSettled?)
                && Released(db.world, a.attempt)
                && (a.outcome.Confirm? || a.outcome.Decline? ==> Recorded(db.world.store, a))
                && (ClearsOnly(a) && r.value.outcome.SawSettled? ==> FiledLate(db.world.store.log, a))
      ensures r.Ok? ==> SaidPlainly(r.value.outcome, a)
      ensures db.known && old(Quiet(db.tape)) && r.Ok? ==>
                && db.world == Alone(old(db.world), a)
                && (!Internal(a.outcome) && !Released(old(db.world), a.attempt) ==> r.value.outcome == Told(a))
                && (ClearsOnly(a) && Released(old(db.world), a.attempt) ==> r.value.outcome.SawSettled?)
      ensures old(Quiet(db.tape)) && r.Err? ==> db.world == old(db.world)
      ensures db.known && (Internal(a.outcome) || Released(old(db.world), a.attempt)) ==>
                db.Writes() <= old(db.Writes()) && db.Entries() <= old(db.Entries()) + 1
      ensures db.known && ClearsOnly(a) && old(Solo(db.tape)) && At(old(db.tape), 0).fault.NoReply?
              && !Released(old(db.world), a.attempt) ==>
                r.Err? && db.world == Exec(old(db.world), Persist(a.attempt)) && db.tape == Rest(old(db.tape), 1)
    {
      hide Inv, Later, Evolved, Exec, Genuine, Recorded, Others, At, Rest, RunAll, Actions, OwnWrites;
      hide OwnEntries, OwnSends, Solo, Faultless, Faults, Quiet, NoWorse, Db.Traced;
      EvolvedSame(db.world, db.me);
      NoWorseSame(db.tape);
      match a.outcome {
        case AlreadySettled => r := Ok(AttemptResult(SawSettled, 0));
        case Outstanding => r := Ok(AttemptResult(SawExit, 0));
        case BudgetSpent => r := Ok(AttemptResult(SawBudgetSpent, 0));
        case Confirm => r := Settle(a, SettleMove(a, Confirmed, NonEmpty(a.reference), None));
        case Decline => r := Settle(a, SettleMove(a, Rejected, None, Some(a.reason)));
        case NotSent => r := Clear(a, RequestEvent);
        case PreSendFailure =>
          if a.from.Unknown? {
            r := Clear(a, TransitionEvent);
          } else {
            r := Move(a, BuildFailureMove(a));
          }
        case Ambiguous =>
          if a.from.Unknown? {
            r := Clear(a, TimeoutEvent);
          } else {
            r := Move(a, DoubtMove(a));
          }
      }
    }

    method ReadBeforeAuthorizing() returns (r: Try<Booking>)
      requires Valid()
      modifies db
      ensures Valid() && db.Keeps(old(db.world), old(db.tape), old(db.trace)) && db.Sends() == old(db.Sends())
      ensures old(Solo(db.tape)) || !db.known ==> db.world == old(db.world)
      ensures old(Faultless(db.tape)) && db.known ==> r.Ok?
      ensures r.Ok? ==> db.known && r.value == db.world.store.row
      // three reads have to fail before it does
      ensures db.known && r.Err? ==> ReadsFailed(old(db.tape), 3)
    {
      hide Inv, Later, Evolved, Exec, Others, At, Rest, RunAll, Actions, OwnWrites, OwnEntries, OwnSends, Solo;
      hide Faultless, Faults, Quiet, NoWorse, Db.Traced, ReadsFailed;
      OneReadFailed(db.tape, 0);
      ghost var seen;
      r, seen := repo.GetByID();
      for read := 1 to PRE_AUTHORIZE_READS
        invariant Valid() && db.Keeps(old(db.world), old(db.tape), old(db.trace)) && db.Sends() == old(db.Sends())
        invariant old(Solo(db.tape)) || !db.known ==> db.world == old(db.world)
        invariant old(Faultless(db.tape)) && db.known ==> r.Ok?
        invariant r.Ok? ==> db.known && r.value == db.world.store.row
        invariant r.Err? && r.error.NotFound? ==> !db.known
        invariant db.known && r.Err? ==> db.tape == Rest(old(db.tape), read) && ReadsFailed(old(db.tape), read)
      {
        if r.Ok? || r.error.NotFound? {
          return;
        }
        ghost var (before, tried) := (db.world, db.tape);
        OneReadFailed(old(db.tape), read);
        r, seen := repo.GetByID();
        EvolvedTransitive(old(db.world), before, db.world, db.me);
        NoWorseTransitive(old(db.tape), tried, db.tape);
      }
    }

    /** The supplier call itself, step by step on the wire, for the attempt just authorized. */
    method Call(k: nat, request: BookRequest, wire: seq<Wire>, reply: NetReply) returns (result: Result)
      requires Valid() && InFlight(db.world, k) && db.world.calls[k - 1].wire == [] && Possible(wire)
      requires request == db.world.calls[k - 1].request
      modifies db`world, db`trace
      ensures Valid() && Later(old(db.world), db.world) && old(db.trace) <= db.trace
      ensures db.world.store == old(db.world).store && db.world.runs == old(db.world).runs
      ensures CalledWith(db.world, k, wire, reply)
      ensures result == Verdict(db.world.calls[k - 1].wire, reply) && !Internal(result.outcome)
      ensures db.world.calls[k - 1].from == old(db.world).calls[k - 1].from
      ensures db.Sends() == old(db.Sends()) + if reply.BuildFailed? then 0 else |wire|
    {
      hide Inv, Later, Exec, Enabled, StatementOf, RunAll, Actions, OwnWrites, OwnEntries, OwnSends, Verdict, Internal;
      LaterSame(db.world);
      if !reply.BuildFailed? {
        for i := 0 to |wire|
          invariant Valid() && Later(old(db.world), db.world) && old(db.trace) <= db.trace
          invariant CallGoesOn(old(db.world), db.world, k, wire[..i]) && InFlight(db.world, k)
          invariant db.Sends() == old(db.Sends()) + i
        {
          ghost var before := db.world;
          OnTheWire(before, k, wire[i]);
          db.Note(OnWire(k, wire[i]));
          LaterTransitive(old(db.world), before, db.world);
        }
        assert wire[..|wire|] == wire;
      }
      ghost var before := db.world;
      Returned(before, k, reply);
      db.Note(Return(k, reply));
      LaterTransitive(old(db.world), before, db.world);
      VerdictIsExternal(wire, reply);
      var posted;
      result, posted := Book(request, wire, reply);
    }

    /** A turn's attempt. Nothing happens on any wire unless its own authorization was granted and
        acknowledged; otherwise the answer says which of three reasons stopped it. */
    method Attempt(bookingID: string, run: nat, budget: int, wire: seq<Wire>, reply: NetReply) returns (r: Try<Answer>)
      requires Valid() && db.me == Some(run) && Possible(wire)
      requires bookingID == db.id
      requires db.known ==> db.world.runs[run].phase.Ready? && budget == db.world.runs[run].budget
      modifies db
      ensures Valid() && Later(old(db.world), db.world) && old(db.trace) <= db.trace
      ensures NoWorse(old(db.tape), db.tape)
      ensures old(Faultless(db.tape)) && db.known ==> r.Ok?
      ensures r.Err? || Internal(r.value.outcome) ==> db.Sends() == old(db.Sends())
      ensures r.Ok? && !Internal(r.value.outcome) ==> CalledWith(db.world, r.value.attempt, wire, reply)
      ensures r.Ok? ==> db.known && AttemptSays(old(db.world), db.world, run, r.value)
      ensures db.known && old(Solo(db.tape)) && r.Ok? ==> Undisturbed(old(db.world), db.world, budget, r.value)
    {
      hide Inv, Exec, Later, StatementOf, Enabled, Grants, RefusalOf, SupplierKey.IdempotencyKey, Verdict, Internal;
      hide Evolved, Others, At, Rest, RunAll, Actions, OwnWrites, OwnEntries, OwnSends, Solo, Faultless, Faults;
      hide Quiet, NoWorse, Db.Traced;
      hide AttemptSays, Undisturbed, WritesFrom, CalledWith, RequestFor, Possible, Settled, RefusedAs, InFlight;
      hide CallGoesOn, Answered, AnswerTo, Released;
      LaterSame(db.world);
      var read := ReadBeforeAuthorizing();
      ghost var (before, tried) := (db.world, db.tape);
      EvolvedIsLater(old(db.world), before, db.me);
      var b :- read;
      if Settled(b.status) {
        r := Ok(Answer(AlreadySettled, "", "", 0, b.status));
        SettledSays(old(db.world), before, run, budget, r.value);
        return;
      }
      AuthorizeIssues(db.world, run);
      ghost var seen;
      var granted;
      granted, seen := repo.Authorize(budget, SupplierKey.IdempotencyKey(bookingID), run);
      ghost var authorized := db.world;
      LaterTransitive(old(db.world), before, authorized);
      NoWorseTransitive(old(db.tape), tried, db.tape);
      var auth :- granted;
      EvolvedIsLater(before, seen, db.me);
      if auth.attempt.None? {
        r := Ok(Answer(RefusedAs(auth.refusal.value), "", "", 0, auth.previous));
        RefusedSays(old(db.world), seen, run, budget, r.value);
        return;
      }
      SameIdentity(before, seen);
      AuthorizeMeans(seen, run, budget);
      RequestIs(seen.store.row.identity);
      var request := BookRequest(bookingID, SupplierKey.IdempotencyKey(bookingID), b.identity.stay);
      var result := Call(auth.attempt.value, request, wire, reply);
      LaterTransitive(old(db.world), authorized, db.world);
      r := Ok(Answer(result.outcome, result.reference, result.reason, auth.attempt.value, WritesFrom(auth.previous)));
      GrantedSays(old(db.world), seen, db.world, run, budget, (wire, reply), r.value);
    }

    /** Ends a run that may not attempt again: `ParkAlone` when nobody interferes, and otherwise one
        of the same two writes against whatever the row has become. */
    method Park(run: nat) returns (r: Try<bool>)
      requires Valid()
      requires db.known ==> run < |db.world.runs| && db.world.runs[run].phase.Parking?
      modifies db
      ensures db.known && r.Err? ==> Faults(db.tape) < Faults(old(db.tape))
      ensures Valid() && db.Keeps(old(db.world), old(db.tape), old(db.trace))
      ensures old(Faultless(db.tape)) && db.known ==> r.Ok?
      ensures r.Ok? ==> db.known
      ensures r == Ok(true) ==> db.world.store.row.flagged || Settled(db.world.store.row.status)
      ensures old(Quiet(db.tape)) && r.Err? ==> db.world == old(db.world)
      ensures old(Quiet(db.tape)) && r.Ok? ==> (db.world, r.value) == ParkAlone(old(db.world), run)
      ensures var row := old(db.world).store.row;
              old(Quiet(db.tape)) && r.Ok? ==> r.value == (row.status.Unknown? && row.marker.None?)
    {
      hide Inv, Exec, Later, Evolved, StatementOf, Enabled, Moves, Parks, ParkAlone, RowAfter;
      hide Others, At, Rest, RunAll, Actions, OwnWrites, OwnEntries, OwnSends, Solo, Faultless, Faults, Quiet;
      hide NoWorse, Db.Traced;
      QuietIsSolo(db.tape);
      ParkedWhen(db.world, run);
      ghost var seen;
      var read;
      read, seen := repo.GetByID();
      ghost var (between, tried) := (db.world, db.tape);
      var b :- read;
      EvolvedIsLater(old(db.world), between, db.me);
      ParkingIssues(old(db.world), between, run);
      ParkDoubtMeans(between);
      if b.status.Pending? {
        var ruling;
        ruling, seen := repo.Apply(UNREACHABLE_MOVE, CallUnreachable(run));
        EvolvedIsLater(between, seen, db.me);
        ParkingIssues(between, seen, run);
        UnreachableMeans(seen, run);
        EvolvedTransitive(old(db.world), between, db.world, db.me);
        NoWorseTransitive(old(db.tape), tried, db.tape);
        between, tried := db.world, db.tape;
        if ruling.Broke? {
          return Err(ruling.error);
        }
        if ruling.Took? {
          return Ok(false);
        }
        // The write found another status or a marker. Short of a settled row, flagging is still due.
        if Settled(ruling.found) {
          return Ok(false);
        }
      } else {
        ParkDoubtAlone(between, run);
      }
      r, seen := repo.ParkIfUnknown();
      EvolvedTransitive(old(db.world), between, db.world, db.me);
      NoWorseTransitive(old(db.tape), tried, db.tape);
      if r.Ok? {
        EvolvedIsLater(between, seen, db.me);
        ParkDoubtMeans(seen);
      }
    }
  }
}

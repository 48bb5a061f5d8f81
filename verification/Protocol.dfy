/** The booking protocol: one booking's row and lineage, and everything that acts on them.

    Actors are not modelled as programs here but as the steps they may take. A run is a workflow
    execution; any number may exist at once, started by a create or by the sweep, and each may
    stop anywhere. A call is one authorized attempt. Once a call has been answered, its outcome
    may be persisted by anyone, any number of times and at any later moment, because activities
    are delivered at least once and a timed-out one may still be executing. */
module Protocol {
  import opened Statuses
  import opened Bookings
  import opened Statements
  import opened Supplier
  import SupplierKey

  // What the attempt activity hands to the persisting one.
  datatype Answer = Answer(outcome: Outcome, reference: string, reason: string, attempt: nat, from: Status)

  /** One authorized attempt: what it sends, the status its outcome writes from, when it was
      authorized, what its transport did, how it ended, and whether its process is still alive. */
  datatype Call = Call(
    request: BookRequest, from: Status, at: int, wire: seq<Wire>, reply: Option<NetReply>, live: bool)

  datatype Phase =
    | Entering                         // about to dispatch
    | Ready(turn: nat)                 // about to attempt, for the turn-th time in this run
    | Waiting(turn: nat, attempt: nat) // its attempt is authorized
    | Persisting(turn: nat, attempt: nat)
    | Parking
    | Done

  datatype Run = Run(budget: int, phase: Phase)

  datatype World = World(now: int, store: Store, calls: seq<Call>, runs: seq<Run>)

  /** What a callback asserts. */
  datatype Assertion = Assertion(reference: string, status: string, declineReason: string)

  datatype Action =
    | Idle
    | Tick(elapsed: nat)
    | Start(budget: int)
    | Resolve                              // a dispatch clears an abandoned marker
    | Enter(run: nat, sawSettled: bool)    // and its run acts on the status it read
    | AuthorizeFor(run: nat)
    | OnWire(attempt: nat, event: Wire)
    | Return(attempt: nat, reply: NetReply)
    | Die(attempt: nat)
    | Deliver(run: nat)                    // the answer reaches the run
    | Persist(attempt: nat)                // the write that records an answer
    | Acknowledge(run: nat, superseded: bool)
    | Leave(run: nat)                      // a run ends early: an error, a crash, nothing to do
    | CallUnreachable(run: nat)            // Park's settling write
    | ParkDoubt                            // Park's flagging write
    | CallbackWrite(from: Status, said: Assertion)
    | Refuse(e: Event)
    | RaiseFlag

  datatype Refusal = RefusedBudget | RefusedOutstanding | RefusedSettled

  const UNREACHABLE := "supplier_unreachable"
  const DECLINED := "supplier_declined"
  const BUILD_FAILED := "request_build_failed"

  function OutcomeText(o: Outcome): string {
    match o
    case Confirm => "CONFIRMED"
    case Decline => "REJECTED"
    case Ambiguous => "AMBIGUOUS"
    case NotSent => "NOT_SENT"
    case PreSendFailure => "PRE_SEND_FAILURE"
    case AlreadySettled => "ALREADY_SETTLED"
    case BudgetSpent => "BUDGET_SPENT"
    case Outstanding => "ATTEMPT_OUTSTANDING"
  }

  function NonEmpty(s: string): Option<string> {
    if s == "" then None else Some(s)
  }

  // ----- the writes production code issues -----

  function SettleMove(a: Answer, to: Status, reference: Option<string>, failure: Option<string>): Transition {
    Transition(a.from, to, Owned, Some(a.attempt), ResponseEvent, reference, failure, true,
               Some(OutcomeText(a.outcome)), None, None)
  }

  function DoubtMove(a: Answer): Transition {
    Transition(Pending, Unknown, Owned, Some(a.attempt), TimeoutEvent, None, None, false, None, Some(a.reason), None)
  }

  function BuildFailureMove(a: Answer): Transition {
    Transition(Pending, Failed, Owned, Some(a.attempt), TransitionEvent, None, Some(BUILD_FAILED), false,
               None, Some(a.reason), None)
  }

  const UNREACHABLE_MOVE :=
    Transition(Pending, Failed, Clear, None, TransitionEvent, None, Some(UNREACHABLE), false, None, None, None)

  /** The write by which the persisting activity records an answer. */
  function Record(a: Answer): Statement {
    match a.outcome
    case Confirm => Guarded(SettleMove(a, Confirmed, NonEmpty(a.reference), None))
    case Decline => Guarded(SettleMove(a, Rejected, None, Some(a.reason)))
    case NotSent => ClearMarker(a.attempt, RequestEvent, Some(a.reason))
    case PreSendFailure =>
      if a.from.Unknown? then ClearMarker(a.attempt, TransitionEvent, Some(a.reason)) else Guarded(BuildFailureMove(a))
    case Ambiguous =>
      if a.from.Unknown? then ClearMarker(a.attempt, TimeoutEvent, Some(a.reason)) else Guarded(DoubtMove(a))
    case _ => Select
  }

  /** Which statuses a callback may assert. Anything else is outside this version's vocabulary. */
  function Target(status: string): Option<Status> {
    if status == "CONFIRMED" then Some(Confirmed)
    else if status == "REJECTED" then Some(Rejected)
    else None
  }

  /** The reference and failure reason a callback writes. */
  function OutcomeDetail(target: Status, said: Assertion): (Option<string>, Option<string>) {
    if target.Rejected?
    then (None, Some(if said.declineReason == "" then DECLINED else said.declineReason))
    else (NonEmpty(said.reference), None)
  }

  function CallbackMove(from: Status, target: Status, said: Assertion): Transition {
    var (reference, failure) := OutcomeDetail(target, said);
    Transition(from, target, Supersede, None, CallbackEvent, reference, failure, true, Some(said.status), None, None)
  }

  function KeyOf(w: World): string {
    SupplierKey.IdempotencyKey(w.store.row.identity.id)
  }

  /** What every attempt of a booking asks the supplier for. The key is computed from the id each
      time; the stored one is never read back. */
  function RequestFor(i: Identity): BookRequest {
    BookRequest(i.id, SupplierKey.IdempotencyKey(i.id), i.stay)
  }

  // ----- what a step does -----

  function AnswerOf(c: Call, attempt: nat): Answer
    requires c.reply.Some?
  {
    var v := Verdict(c.wire, c.reply.value);
    Answer(v.outcome, v.reference, v.reason, attempt, c.from)
  }

  predicate Answered(w: World, attempt: nat) {
    1 <= attempt <= |w.calls| && w.calls[attempt - 1].reply.Some?
  }

  function AnswerTo(w: World, attempt: nat): Answer
    requires Answered(w, attempt)
  {
    AnswerOf(w.calls[attempt - 1], attempt)
  }

  predicate InFlight(w: World, attempt: nat) {
    1 <= attempt <= |w.calls| && w.calls[attempt - 1].live
  }

  /** When a step can be taken at all; a step that cannot is no step. */
  predicate Enabled(w: World, a: Action) {
    match a
    case Enter(r, sawSettled) =>
      r < |w.runs| && w.runs[r].phase.Entering? && (sawSettled ==> Settled(w.store.row.status))
    case AuthorizeFor(r) => r < |w.runs| && w.runs[r].phase.Ready?
    case OnWire(k, e) => InFlight(w, k) && (e.Request? ==> Connected in w.calls[k - 1].wire)
    case Return(k, reply) => InFlight(w, k) && (reply.BuildFailed? ==> w.calls[k - 1].wire == [])
    case Die(k) => InFlight(w, k)
    case Deliver(r) => r < |w.runs| && w.runs[r].phase.Waiting? && Answered(w, w.runs[r].phase.attempt)
    case Persist(k) => Answered(w, k)
    case Acknowledge(r, _) => r < |w.runs| && w.runs[r].phase.Persisting? && Answered(w, w.runs[r].phase.attempt)
    case Leave(r) => r < |w.runs| && !w.runs[r].phase.Parking?
    case CallUnreachable(r) => r < |w.runs| && w.runs[r].phase.Parking?
    case CallbackWrite(from, said) => Target(said.status).Some? && Allowed(from, Target(said.status).value)
    case Refuse(e) => e.kind.ConflictEvent? || e.kind.CallbackRejectedEvent?
    case _ => true
  }

  /** The statement a step sends to the database. */
  function StatementOf(w: World, a: Action): Statement
    requires Enabled(w, a)
  {
    match a
    case Resolve => ResolveStale
    case AuthorizeFor(r) => Authorize(w.runs[r].budget, KeyOf(w))
    case Persist(k) => Record(AnswerTo(w, k))
    case CallUnreachable(_) => Guarded(UNREACHABLE_MOVE)
    case ParkDoubt => ParkIfUnknown
    case CallbackWrite(from, said) => Guarded(CallbackMove(from, Target(said.status).value, said))
    case Refuse(e) => AppendRefusal(e)
    case RaiseFlag => Flag
    case _ => Select
  }

  /** The status a booking has once it is authorized, given the one before: where its answer's write
      expects to find it. */
  function WritesFrom(previous: Status): Status {
    if previous.Received? then Pending else previous
  }

  function NextCalls(w: World, a: Action): seq<Call>
    requires Enabled(w, a)
  {
    match a
    case AuthorizeFor(r) =>
      if Grants(w.store.row, w.runs[r].budget)
      then w.calls + [Call(RequestFor(w.store.row.identity), WritesFrom(w.store.row.status), w.now, [], None, true)]
      else w.calls
    case OnWire(k, e) => w.calls[k - 1 := w.calls[k - 1].(wire := w.calls[k - 1].wire + [e])]
    case Return(k, reply) => w.calls[k - 1 := w.calls[k - 1].(reply := Some(reply), live := false)]
    case Die(k) => w.calls[k - 1 := w.calls[k - 1].(live := false)]
    case _ => w.calls
  }

  /** Why nothing was granted, in the order the reasons are ruled out. */
  function RefusalOf(previous: Status, held: Option<nat>, soFar: nat, budget: int): Refusal {
    if Settled(previous) then RefusedSettled
    else if held.Some? then RefusedOutstanding
    else if soFar < budget then RefusedSettled
    else RefusedBudget
  }

  /** Where the loop goes when its turn-th attempt settled nothing. */
  function AfterTurn(budget: int, turn: nat): Phase {
    if turn < budget then Ready(turn + 1) else Parking
  }

  function AfterAnswer(budget: int, turn: nat, a: Answer, superseded: bool): Phase {
    if superseded then Done else
      match a.outcome
      case NotSent => AfterTurn(budget, turn)
      case Ambiguous => AfterTurn(budget, turn)
      case PreSendFailure => if a.from.Unknown? then Parking else Done
      case _ => Done
  }

  function NextPhase(w: World, a: Action, r: nat): Phase
    requires Enabled(w, a) && r < |w.runs|
  {
    var row, budget, phase := w.store.row, w.runs[r].budget, w.runs[r].phase;
    match a
    case Enter(r', sawSettled) => if r' != r then phase else if sawSettled then Done else AfterTurn(budget, 0)
    case AuthorizeFor(r') =>
      if r' != r then phase
      else if Grants(row, budget) then Waiting(phase.turn, row.attempts + 1)
      else if RefusalOf(row.status, row.marker, row.attempts, budget).RefusedBudget? then Parking
      else Done
    case Deliver(r') => if r' != r then phase else Persisting(phase.turn, phase.attempt)
    case Acknowledge(r', superseded) =>
      if r' != r then phase else AfterAnswer(budget, phase.turn, AnswerTo(w, phase.attempt), superseded)
    case Leave(r') => if r' != r then phase else Done
    case _ => phase
  }

  function NextRuns(w: World, a: Action): (runs: seq<Run>)
    requires Enabled(w, a)
  {
    seq(|w.runs|, r requires 0 <= r < |w.runs| => w.runs[r].(phase := NextPhase(w, a, r)))
    + if a.Start? then [Run(a.budget, Entering)] else []
  }

  function Exec(w: World, a: Action): World {
    if !Enabled(w, a) then w else
      World(if a.Tick? then w.now + a.elapsed else w.now,
            Effect(w.store, w.now, StatementOf(w, a)),
            NextCalls(w, a),
            NextRuns(w, a))
  }

  /** Any interleaving is some sequence of steps. */
  function RunAll(w: World, actions: seq<Action>): World {
    if actions == [] then w else Exec(RunAll(w, actions[..|actions| - 1]), actions[|actions| - 1])
  }

  /** A schedule is one part after another. */
  lemma {:induction false} RunAllSplits(w: World, first: seq<Action>, second: seq<Action>)
    ensures RunAll(w, first + second) == RunAll(RunAll(w, first), second)
  {
    if second == [] {
      assert first + second == first;
    } else {
      RunAllSplits(w, first, second[..|second| - 1]);
      assert (first + second)[..|first + second| - 1] == first + second[..|second| - 1];
    }
  }

  lemma RunAllOne(w: World, actions: seq<Action>, a: Action)
    ensures RunAll(w, actions + [a]) == Exec(RunAll(w, actions), a)
  {
    assert (actions + [a])[..|actions + [a]| - 1] == actions;
  }

  function Init(identity: Identity, now: int): World {
    World(now, Inserted(identity, now), [], [])
  }

  function MaxBudget(runs: seq<Run>): nat {
    if runs == [] then 0 else
      var rest, b := MaxBudget(runs[..|runs| - 1]), runs[|runs| - 1].budget;
      if b > rest then b else rest
  }

  lemma {:induction false} MaxBudgetIsMax(runs: seq<Run>, r: nat)
    requires r < |runs|
    ensures runs[r].budget <= MaxBudget(runs)
  {
    if r < |runs| - 1 {
      MaxBudgetIsMax(runs[..|runs| - 1], r);
    }
  }

  /** And it is some run's, if any run has one. */
  lemma {:induction false} MaxBudgetIsSome(runs: seq<Run>)
    ensures MaxBudget(runs) > 0 ==> exists r | 0 <= r < |runs| :: runs[r].budget == MaxBudget(runs)
  {
    if runs != [] {
      var init := runs[..|runs| - 1];
      MaxBudgetIsSome(init);
      if MaxBudget(runs) > 0 && runs[|runs| - 1].budget != MaxBudget(runs) {
        var r :| 0 <= r < |init| && init[r].budget == MaxBudget(init);
        assert runs[r] == init[r];
      }
    }
  }

  lemma {:induction false} MaxBudgetKept(runs: seq<Run>, more: seq<Run>)
    requires |runs| == |more| && forall r | 0 <= r < |runs| :: runs[r].budget == more[r].budget
    ensures MaxBudget(runs) == MaxBudget(more)
  {
    if runs != [] {
      MaxBudgetKept(runs[..|runs| - 1], more[..|runs| - 1]);
    }
  }
}

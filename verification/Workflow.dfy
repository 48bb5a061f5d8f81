/** The run (internal/workflow/workflow.go): dispatch, attempt until the budget is spent, park. */
module Workflow {
  import opened Statuses
  import opened Bookings
  import opened Supplier
  import opened Protocol
  import opened Invariant
  import opened Evolution
  import opened Database
  import opened Repository
  import opened Activities
  import Guarantees

  /** What the network does with one call. */
  datatype Exchange = Exchange(wire: seq<Wire>, reply: NetReply)

  const READ_ATTEMPTS := 5

  /** The two places a finished run may leave a booking: settled, or parked for recovery. */
  predicate Converged(row: Booking) {
    Settled(row.status) || (row.status.Unknown? && row.flagged && row.marker.None?)
  }

  /** What an undisturbed run finds at the top of its loop. */
  predicate BetweenTurns(row: Booking) {
    !Settled(row.status) && row.marker.None?
  }

  /** What a run does to a booking, told without any of its machinery: the part of the row it is
      about, one reply at a time. */
  datatype Brief = Brief(
    status: Status, attempts: nat, flagged: bool, reference: Option<string>, failure: Option<string>)

  function BriefOf(row: Booking): Brief {
    Brief(row.status, row.attempts, row.flagged, row.reference, row.failure)
  }

  /** One more attempt, and what its reply makes of the booking. */
  function AfterReply(b: Brief, x: Exchange): Brief {
    var sent := b.(attempts := b.attempts + 1, status := if b.status.Received? then Pending else b.status);
    if Confirms(x.reply) then
      sent.(status := Confirmed, reference := Some(x.reply.body.reference), flagged := false)
    else if Declines(x.reply) then
      sent.(status := Rejected, failure := Some(x.reply.body.declineCode), flagged := false)
    else if x.reply.BuildFailed? then
      if sent.status.Pending? then sent.(status := Failed, failure := Some("request_build_failed")) else sent
    else if x.reply.Broken? && LooksUnsent(x.wire) then sent
    else sent.(status := Unknown)
  }

  /** Where a run that may not attempt again leaves a booking. */
  function AtRest(b: Brief): Brief {
    match b.status
    case Pending => b.(status := Failed, failure := Some("supplier_unreachable"))
    case Unknown => b.(flagged := true)
    case _ => b
  }

  /** Attempts go on until one settles the booking, the budget is spent, or a request cannot be built
      for a booking already in doubt. Doubt alone is no reason to stop. */
  function RunFrom(b: Brief, budget: int, network: nat -> Exchange, turn: nat): Brief
    decreases budget - turn
  {
    if turn > budget || b.attempts >= budget then AtRest(b)
    else
      var next := AfterReply(b, network(turn));
      if Settled(next.status) then next
      else if network(turn).reply.BuildFailed? then AtRest(next)
      else if turn == budget then AtRest(next)
      else RunFrom(next, budget, network, turn + 1)
  }

  /** The whole run: a dispatch first makes doubt of whatever was left outstanding. */
  function RunAlone(row: Booking, budget: int, network: nat -> Exchange): Brief {
    var b := BriefOf(row);
    if Settled(row.status) then b
    else RunFrom(if row.marker.Some? then b.(status := Unknown) else b, budget, network, 1)
  }

  lemma DoubtStays(b: Brief, x: Exchange)
    ensures var next := AfterReply(b, x);
            && next.attempts == b.attempts + 1 && !next.status.Received?
            && (b.status.Unknown? ==> next.status.Unknown? || next.status.Confirmed? || next.status.Rejected?)
  {
  }

  /** A booking left in doubt has had the whole budget, unless a request could not be built. */
  lemma {:induction false} DoubtSpendsTheBudget(b: Brief, budget: int, network: nat -> Exchange, turn: nat)
    requires !Settled(b.status) && b.attempts + 1 >= turn >= 1 && turn <= budget
    requires forall n :: !network(n).reply.BuildFailed?
    ensures var left := RunFrom(b, budget, network, turn);
            && left.attempts >= b.attempts
            && (left.status.Unknown? ==> left.attempts >= budget && left.flagged)
            && (left.status.Failed? ==> b.status.Received? || b.status.Pending?)
    decreases budget - turn
  {
    if b.attempts < budget {
      var next := AfterReply(b, network(turn));
      DoubtStays(b, network(turn));
      if !Settled(next.status) && turn < budget {
        DoubtSpendsTheBudget(next, budget, network, turn + 1);
      }
    }
  }

  /** A request that cannot be built ends the run there and then. */
  lemma BrokenBuildEnds(b: Brief, budget: int, network: nat -> Exchange, turn: nat)
    requires turn <= budget && b.attempts < budget && network(turn).reply.BuildFailed?
    ensures var left := RunFrom(b, budget, network, turn);
            && left.attempts == b.attempts + 1
            && (b.status.Received? || b.status.Pending? ==>
                  left.status.Failed? && left.failure == Some("request_build_failed"))
            && (b.status.Unknown? ==> left.status.Unknown? && left.flagged)
  {
  }

  lemma ResolveTwice(w: World)
    requires Inv(w)
    ensures Exec(Exec(w, Resolve), Resolve) == Exec(w, Resolve)
  {
  }

  lemma ResolveFrees(w: World)
    requires Inv(w)
    ensures var row := Exec(w, Resolve).store.row;
            && (if Settled(w.store.row.status) then Settled(row.status) else BetweenTurns(row))
            && row.attempts == w.store.row.attempts
            && BriefOf(row) == (if w.store.row.marker.Some? then BriefOf(w.store.row).(status := Unknown)
                                else BriefOf(w.store.row))
  {
  }

  /** Parking converges, from wherever the loop gives up. */
  lemma ParkConverges(w: World, run: nat)
    requires Inv(w) && run < |w.runs| && w.runs[run].phase.Parking?
    requires BetweenTurns(w.store.row)
    ensures BriefOf(ParkAlone(w, run).0.store.row) == AtRest(BriefOf(w.store.row))
    ensures w.runs[run].budget >= 1 ==> Converged(ParkAlone(w, run).0.store.row)
  {
  }

  /** What the run is told of a reply agrees with what the reply did. */
  predicate ToldOf(told: RunOutcome, row: Booking, reply: NetReply) {
    if Settled(row.status) then told.SawConfirmed? || told.SawRejected? || told.SawFailed?
    else if reply.BuildFailed? then told.SawInDoubt?
    else told.SawAmbiguous? || told.SawNotSent?
  }

  lemma OwnerUnsettled(w: World)
    requires Inv(w) && w.store.row.marker.Some?
    ensures w.store.row.status.Pending? || w.store.row.status.Unknown?
  {
  }

  /** One answer recorded without interference does what the reply says, and the run is told so. */
  lemma TurnConverges(w: World, k: nat)
    requires Inv(w) && w.store.row.marker == Some(k) && Answered(w, k)
    ensures var (row, c) := (Exec(w, Persist(k)).store.row, w.calls[k - 1]);
            && row == Guarantees.RowOnReply(w.store.row, w.now, c.wire, c.reply.value)
            && row.marker.None? && row.attempts == w.store.row.attempts
            && ToldOf(Told(AnswerTo(w, k)), row, c.reply.value)
  {
    Guarantees.OwnershipFreezesStatus(w, k);
    OwnerUnsettled(w);
    var (row, c) := (w.store.row, w.calls[k - 1]);
    hide Inv, Exec, Verdict, LooksUnsent, Confirms, Declines;
    VerdictMeans(c.wire, c.reply.value);
  }

  lemma ClearMeans(w: World, a: Answer)
    requires Inv(w) && Genuine(w, a) && ClearsOnly(a) && !Released(w, a.attempt)
    ensures var row := Exec(w, Persist(a.attempt)).store.row;
            row.marker.None? && row.status == w.store.row.status && (row.status.Pending? || row.status.Unknown?)
  {
  }

  /** A marker clear whose acknowledgement is lost: the retry finds the marker gone and reports the
      attempt superseded, so the run ends with the booking between turns. */
  lemma LostClearLeavesBetweenTurns(w: World, a: Answer)
    requires Inv(w) && Genuine(w, a) && ClearsOnly(a) && !Released(w, a.attempt)
    ensures var cleared := Exec(w, Persist(a.attempt));
            && Inv(cleared) && Genuine(cleared, a) && Released(cleared, a.attempt)
            && BetweenTurns(cleared.store.row) && BetweenTurns(Alone(cleared, a).store.row)
            && (w.store.row.status.Pending? ==> !Converged(Alone(cleared, a).store.row))
  {
    hide Record;
    AfterRecord(w, a);
    ExecEvolves(w, Persist(a.attempt), None);
    GenuineStays(w, Exec(w, Persist(a.attempt)), a);
    ClearMeans(w, a);
    AloneFiles(Exec(w, Persist(a.attempt)), a);
  }

  lemma BudgetKept(w: World, v: World, run: nat)
    requires run < |w.runs| && Later(w, v)
    ensures run < |v.runs| && v.runs[run].budget == w.runs[run].budget
  {
  }

  lemma AloneOwned(w: World, a: Answer)
    requires !Internal(a.outcome) && !Released(w, a.attempt)
    ensures Alone(w, a) == Exec(w, Persist(a.attempt))
  {
  }

  /** With nobody else at work, the answer only clears the marker, and that is the statement whose
      acknowledgement gets lost. */
  predicate LosesClear(w: World, tape: seq<Slot>, a: Answer) {
    && Genuine(w, a) && ClearsOnly(a) && !Released(w, a.attempt)
    && Solo(tape) && At(tape, 0).fault.NoReply? && Faultless(Rest(tape, 1))
  }

  lemma RestOfLoss(w: World, tape: seq<Slot>, a: Answer)
    requires LosesClear(w, tape, a)
    ensures ClearsOnly(a) && !Internal(a.outcome) && !Released(w, a.attempt) && Genuine(w, a)
    ensures Solo(tape) && At(tape, 0).fault.NoReply? && !Quiet(tape) && !Faultless(tape)
    ensures Quiet(Rest(tape, 1)) && Faultless(Rest(tape, 1))
    ensures !a.outcome.Confirm? && !a.outcome.Decline?
  {
  }

  /** The run is about to take the given turn, or to park if it has none left. */
  predicate ComesTo(w: World, run: nat, budget: int, turn: nat) {
    && turn >= 1 && run < |w.runs|
    && w.runs[run] == Run(budget, if turn <= budget then Ready(turn) else Parking)
  }

  /** What is left of the run ends where the whole run should. */
  predicate Abreast(row: Booking, budget: int, network: nat -> Exchange, turn: nat, goal: Brief) {
    BetweenTurns(row) && RunFrom(BriefOf(row), budget, network, turn) == goal
  }

  /** Parking the booking now ends the run where the whole run should. */
  predicate Resting(row: Booking, goal: Brief) {
    BetweenTurns(row) && AtRest(BriefOf(row)) == goal
  }

  /** Where a turn leaves its run. */
  predicate StandsAt(w: World, run: nat, budget: int, turn: nat, told: RunOutcome) {
    && run < |w.runs|
    && match told
       case SawInDoubt => w.runs[run] == Run(budget, Parking)
       case SawBudgetSpent => w.runs[run] == Run(budget, Parking)
       case SawAmbiguous => ComesTo(w, run, budget, turn + 1)
       case SawNotSent => ComesTo(w, run, budget, turn + 1)
       case SawSettled => w.runs[run] == Run(budget, Done) || w.runs[run] == Run(budget, Ready(turn))
       case _ => w.runs[run] == Run(budget, Done)
  }

  /** Where a turn leaves the booking when nobody interferes. */
  predicate TurnedWell(was: Booking, row: Booking, budget: int, x: Exchange, told: RunOutcome) {
    && row.marker.None?
    && if was.attempts >= budget then told.SawBudgetSpent? && BriefOf(row) == BriefOf(was)
       else BriefOf(row) == AfterReply(BriefOf(was), x) && ToldOf(told, row, x.reply)
  }

  lemma TurnGoesOn(w: World, run: nat, budget: int, network: nat -> Exchange, turn: nat, was: Booking, goal: Brief,
                   told: RunOutcome)
    requires StandsAt(w, run, budget, turn, told) && turn <= budget
    ensures told.SawInDoubt? || told.SawBudgetSpent? ==> run < |w.runs| && w.runs[run] == Run(budget, Parking)
    ensures told.SawAmbiguous? || told.SawNotSent? ==> ComesTo(w, run, budget, turn + 1)
    ensures Abreast(was, budget, network, turn, goal) && TurnedWell(was, w.store.row, budget, network(turn), told) ==>
              if told.SawInDoubt? || told.SawBudgetSpent? then Resting(w.store.row, goal)
              else if told.SawAmbiguous? || told.SawNotSent? then Abreast(w.store.row, budget, network, turn + 1, goal)
              else BriefOf(w.store.row) == goal && Settled(w.store.row.status)
  {
    hide AfterReply, AtRest;
  }

  /** A run with no turns left parks where it stands. */
  lemma TurnsAreOver(w: World, run: nat, budget: int, network: nat -> Exchange, turn: nat, goal: Brief)
    requires ComesTo(w, run, budget, turn)
    ensures turn <= budget ==> w.runs[run] == Run(budget, Ready(turn))
    ensures turn > budget ==> w.runs[run] == Run(budget, Parking)
    ensures turn > budget && Abreast(w.store.row, budget, network, turn, goal) ==> Resting(w.store.row, goal)
  {
  }

  lemma RunMeans(row: Booking, budget: int, network: nat -> Exchange)
    ensures (forall n :: !network(n).reply.BuildFailed?) && budget >= 1 ==>
              var left := RunAlone(row, budget, network);
              left.status.Unknown? ==> left.attempts >= budget && left.flagged
  {
    if (forall n :: !network(n).reply.BuildFailed?) && budget >= 1 && !Settled(row.status) {
      var b := if row.marker.Some? then BriefOf(row).(status := Unknown) else BriefOf(row);
      DoubtSpendsTheBudget(b, budget, network, 1);
    }
  }

  lemma {:induction false} AttemptsOnlyGrow(b: Brief, budget: int, network: nat -> Exchange, turn: nat)
    ensures RunFrom(b, budget, network, turn).attempts >= b.attempts
    ensures turn <= budget && b.attempts < budget ==> RunFrom(b, budget, network, turn).attempts > b.attempts
    decreases budget - turn
  {
    if turn < budget && b.attempts < budget {
      AttemptsOnlyGrow(AfterReply(b, network(turn)), budget, network, turn + 1);
    }
  }

  lemma AttemptsAreMade(row: Booking, budget: int, network: nat -> Exchange)
    requires !Settled(row.status) && row.attempts < budget
    ensures RunAlone(row, budget, network).attempts > row.attempts
  {
    AttemptsOnlyGrow(if row.marker.Some? then BriefOf(row).(status := Unknown) else BriefOf(row), budget, network, 1);
  }

  lemma RunStarts(w: World, budget: int, network: nat -> Exchange)
    requires Inv(w)
    ensures var (row, goal) := (Exec(w, Resolve).store.row, RunAlone(w.store.row, budget, network));
            if Settled(row.status) then BriefOf(row) == goal && Settled(w.store.row.status)
            else Abreast(row, budget, network, 1, goal) && !Settled(w.store.row.status)
  {
    hide RunFrom;
    ResolveFrees(w);
  }

  lemma AbreastMeans(row: Booking, budget: int, network: nat -> Exchange, turn: nat, goal: Brief)
    ensures Abreast(row, budget, network, turn, goal) ==> BetweenTurns(row)
  {
  }

  lemma RestingMeans(row: Booking, goal: Brief)
    ensures Resting(row, goal) ==> BetweenTurns(row) && AtRest(BriefOf(row)) == goal
  {
  }

  /** What a run that went its way leaves behind. */
  lemma RunEnds(was: Booking, row: Booking, budget: int, network: nat -> Exchange)
    ensures BriefOf(row) == RunAlone(was, budget, network) ==>
              && (Settled(row.status) ==> Converged(row))
              && (budget >= 1 && (forall n :: !network(n).reply.BuildFailed?) && row.status.Unknown? ==>
                    row.attempts >= budget)
              && (!Settled(was.status) && was.attempts < budget ==> row.attempts > was.attempts)
  {
    hide RunAlone;
    RunMeans(was, budget, network);
    if !Settled(was.status) && was.attempts < budget {
      AttemptsAreMade(was, budget, network);
    }
  }

  lemma EnterMeans(w: World, run: nat, sawSettled: bool)
    requires run < |w.runs| && w.runs[run].phase.Entering? && (sawSettled ==> Settled(w.store.row.status))
    ensures Enabled(w, Enter(run, sawSettled)) && StatementOf(w, Enter(run, sawSettled)).Select?
    ensures var (v, budget) := (Exec(w, Enter(run, sawSettled)), w.runs[run].budget);
            && run < |v.runs|
            && if sawSettled then v.runs[run] == Run(budget, Done) else ComesTo(v, run, budget, 1)
  {
  }

  lemma DeliverMeans(w: World, run: nat, a: Answer)
    requires Inv(w) && run < |w.runs| && w.runs[run].phase.Waiting? && w.runs[run].phase.attempt == a.attempt
    requires Genuine(w, a) && !Internal(a.outcome)
    ensures Enabled(w, Deliver(run)) && StatementOf(w, Deliver(run)).Select?
    ensures var v := Exec(w, Deliver(run));
            && run < |v.runs|
            && v.runs[run] == Run(w.runs[run].budget, Persisting(w.runs[run].phase.turn, a.attempt))
            && Answered(v, a.attempt) && AnswerTo(v, a.attempt) == a && Genuine(v, a)
  {
  }

  /** What the attempt's answer means for the rest of the turn. */
  lemma AttemptLeaves(was: World, w: World, run: nat, budget: int, turn: nat, a: Answer)
    requires Inv(w) && Later(was, w) && run < |was.runs| && was.runs[run] == Run(budget, Ready(turn))
    requires AttemptSays(was, w, run, a)
    ensures Genuine(w, a)
    ensures Internal(a.outcome) ==> StandsAt(w, run, budget, turn, Told(a))
    ensures Internal(a.outcome) && Undisturbed(was, w, budget, a) && BetweenTurns(was.store.row) ==>
              was.store.row.attempts >= budget && w.store == was.store && Told(a).SawBudgetSpent?
    ensures !Internal(a.outcome) ==>
              && Enabled(w, Deliver(run)) && StatementOf(w, Deliver(run)).Select?
              && var v := Exec(w, Deliver(run));
                 && run < |v.runs| && v.runs[run] == Run(budget, Persisting(turn, a.attempt)) && Genuine(v, a)
  {
    hide Inv, Exec, Later;
    BudgetKept(was, w, run);
    if !Internal(a.outcome) {
      DeliverMeans(w, run, a);
    }
  }

  /** Recording the answer of an undisturbed attempt does the turn's work. */
  lemma TurnTold(was: World, answered: World, w: World, budget: int, x: Exchange, a: Answer)
    requires Inv(w) && Genuine(w, a) && !Internal(a.outcome) && w.store == answered.store
    requires CalledWith(w, a.attempt, x.wire, x.reply)
    ensures Undisturbed(was, answered, budget, a) && BetweenTurns(was.store.row) ==>
              && !Released(w, a.attempt)
              && TurnedWell(was.store.row, Exec(w, Persist(a.attempt)).store.row, budget, x, Told(a))
  {
    hide Inv, Exec, Confirms, Declines, LooksUnsent;
    if Undisturbed(was, answered, budget, a) && BetweenTurns(was.store.row) {
      TurnConverges(w, a.attempt);
    }
  }

  lemma BudgetWasSpent(row: Booking, budget: int, x: Exchange, told: RunOutcome)
    requires row.attempts >= budget && BetweenTurns(row) && told.SawBudgetSpent?
    ensures TurnedWell(row, row, budget, x, told)
  {
  }

  lemma DeliveredWith(w: World, run: nat, k: nat, x: Exchange)
    requires CalledWith(w, k, x.wire, x.reply)
    ensures CalledWith(Exec(w, Deliver(run)), k, x.wire, x.reply)
  {
  }

  lemma AcknowledgeMeans(w: World, v: World, run: nat, turn: nat, budget: int, a: Answer, told: RunOutcome)
    requires run < |w.runs| && w.runs[run] == Run(budget, Persisting(turn, a.attempt))
    requires Genuine(w, a) && !Internal(a.outcome) && (told == Told(a) || told.SawSettled?)
    requires Later(w, v) && v.runs[run] == w.runs[run]
    ensures Enabled(v, Acknowledge(run, told.SawSettled?)) && StatementOf(v, Acknowledge(run, told.SawSettled?)).Select?
    ensures StandsAt(Exec(v, Acknowledge(run, told.SawSettled?)), run, budget, turn, told)
  {
  }

  class BookingWorkflow {
    const worker: Worker
    const db: Db
    const run: nat
    const bookingID: string

    constructor (worker: Worker, run: nat, bookingID: string)
      ensures this.worker == worker && this.db == worker.db && this.run == run && this.bookingID == bookingID
    {
      this.worker, this.db, this.run, this.bookingID := worker, worker.db, run, bookingID;
    }

    ghost predicate Valid()
      reads this, worker, db
    {
      db == worker.db && worker.Valid() && db.me == Some(run) && bookingID == db.id
    }

    /** A read is retried a fixed number of times and may then be given up. */
    method DispatchActivity() returns (r: Try<Status>)
      requires Valid()
      modifies db
      ensures db.known && r.Err? ==> Faults(old(db.tape)) >= 5
      ensures Valid() && db.Keeps(old(db.world), old(db.tape), old(db.trace))
      ensures old(Faultless(db.tape)) && db.known ==> r.Ok?
      ensures r.Ok? ==> db.known && r.value == db.world.store.row.status
      ensures old(Quiet(db.tape)) && r.Ok? ==> db.world == Exec(old(db.world), Resolve)
    {
      hide Inv, Exec, Later, Evolved, Others, At, Rest, RunAll, Actions, OwnWrites, OwnEntries, OwnSends;
      hide Solo, Faultless, Faults, Quiet, NoWorse, Db.Traced;
      ResolveTwice(db.world);
      r := worker.Dispatch();
      for attempt := 1 to READ_ATTEMPTS
        invariant db.known && r.Err? ==> Faults(db.tape) + attempt <= Faults(old(db.tape))
        invariant Valid() && db.Keeps(old(db.world), old(db.tape), old(db.trace))
        invariant old(Faultless(db.tape)) && db.known ==> r.Ok?
        invariant r.Ok? ==> db.known && r.value == db.world.store.row.status
        invariant old(Quiet(db.tape)) ==>
                    db.world == Exec(old(db.world), Resolve) || (r.Err? && db.world == old(db.world))
      {
        if r.Ok? {
          return;
        }
        ghost var (before, tried) := (db.world, db.tape);
        r := worker.Dispatch();
        EvolvedTransitive(old(db.world), before, db.world, db.me);
        NoWorseTransitive(old(db.tape), tried, db.tape);
      }
    }

    /** Every answer is persisted through here, and retried for as long as the window lasts: it may
        be one the supplier already gave. */
    method ApplyActivity(a: Answer, window: nat) returns (r: Try<AttemptResult>)
      requires Valid() && (db.known ==> Genuine(db.world, a))
      modifies db
      ensures db.known && r.Err? ==> Faults(old(db.tape)) > window
      ensures Valid() && db.Keeps(old(db.world), old(db.tape), old(db.trace))
      ensures old(Faultless(db.tape)) && db.known ==> r.Ok?
      ensures Internal(a.outcome) ==>
                r.Ok? && r.value.outcome == Told(a) && db.world == old(db.world) && db.tape == old(db.tape)
      ensures r.Ok? && !Internal(a.outcome) ==>
                db.known && (r.value.outcome == Told(a) || r.value.outcome.SawSettled?)
      ensures r.Ok? && (a.outcome.Confirm? || a.outcome.Decline?) ==> Recorded(db.world.store, a)
      ensures db.known && old(Quiet(db.tape)) && r.Ok? && !Internal(a.outcome)
              && !Released(old(db.world), a.attempt) ==>
                r.value.outcome == Told(a) && db.world == Exec(old(db.world), Persist(a.attempt))
      // a lost acknowledgement that ends a run early
      ensures db.known && LosesClear(old(db.world), old(db.tape), a) && window >= 1 ==>
                && r.Ok? && r.value.outcome.SawSettled?
                && db.world == Alone(Exec(old(db.world), Persist(a.attempt)), a)
                && BetweenTurns(db.world.store.row)
    {
      hide Inv, Exec, Later, Evolved, Others, At, Rest, RunAll, Actions, OwnWrites, OwnEntries, OwnSends;
      hide Solo, Faultless, Faults, Quiet, NoWorse, Db.Traced, Genuine, Told, Recorded, ClearsOnly, Alone;
      ghost var loses := db.known && LosesClear(db.world, db.tape, a);
      ghost var cleared := Exec(db.world, Persist(a.attempt));
      if loses {
        LostClearLeavesBetweenTurns(db.world, a);
        RestOfLoss(db.world, db.tape, a);
      }
      if db.known && !Internal(a.outcome) && !Released(db.world, a.attempt) {
        AloneOwned(db.world, a);
      }
      r := worker.Apply(a);
      for attempt := 0 to window
        invariant db.known && r.Err? ==> Faults(db.tape) + attempt + 1 <= Faults(old(db.tape))
        invariant Valid() && db.Keeps(old(db.world), old(db.tape), old(db.trace))
        invariant old(Faultless(db.tape)) && db.known ==> r.Ok?
        invariant Internal(a.outcome) ==>
                    r.Ok? && r.value.outcome == Told(a) && db.world == old(db.world) && db.tape == old(db.tape)
        invariant r.Ok? && !Internal(a.outcome) ==>
                    db.known && (r.value.outcome == Told(a) || r.value.outcome.SawSettled?)
        invariant r.Ok? && (a.outcome.Confirm? || a.outcome.Decline?) ==> Recorded(db.world.store, a)
        invariant old(Quiet(db.tape)) && r.Err? ==> db.world == old(db.world)
        invariant db.known && old(Quiet(db.tape)) && r.Ok? && !Internal(a.outcome)
                  && !Released(old(db.world), a.attempt) ==>
                    r.value.outcome == Told(a) && db.world == Alone(old(db.world), a)
        invariant loses ==>
                    || (attempt == 0 && r.Err? && db.world == cleared && db.tape == Rest(old(db.tape), 1))
                    || (r.Ok? && r.value.outcome.SawSettled? && db.world == Alone(cleared, a))
      {
        if r.Ok? {
          return;
        }
        ghost var (before, tried) := (db.world, db.tape);
        if db.known {
          EvolvedIsLater(old(db.world), before, db.me);
          GenuineStays(old(db.world), before, a);
        }
        r := worker.Apply(a);
        EvolvedTransitive(old(db.world), before, db.world, db.me);
        NoWorseTransitive(old(db.tape), tried, db.tape);
      }
    }

    /** Parks, for as long as the window lasts. What the parked run then waits for, a signal or a
        timer, ends it either way. */
    method Park(window: nat) returns (r: Try<()>)
      requires Valid() && (db.known ==> db.world.runs[run].phase.Parking?)
      modifies db
      ensures db.known && r.Err? ==> Faults(old(db.tape)) > window
      ensures Valid() && db.Keeps(old(db.world), old(db.tape), old(db.trace))
      ensures old(Faultless(db.tape)) && db.known ==> r.Ok?
      ensures r.Ok? ==> db.known
      ensures old(Quiet(db.tape)) && r.Ok? && BetweenTurns(old(db.world).store.row) ==>
                && BriefOf(db.world.store.row) == AtRest(BriefOf(old(db.world).store.row))
                && (old(db.world).runs[run].budget >= 1 ==> Converged(db.world.store.row))
    {
      hide Inv, Exec, Later, Evolved, Others, At, Rest, RunAll, Actions, OwnWrites, OwnEntries, OwnSends;
      hide Solo, Faultless, Faults, Quiet, NoWorse, Db.Traced, ParkAlone, Converged, BetweenTurns, BriefOf, AtRest;
      if db.known && BetweenTurns(db.world.store.row) {
        ParkConverges(db.world, run);
      }
      var parked := worker.Park(run);
      for attempt := 0 to window
        invariant db.known && parked.Err? ==> Faults(db.tape) + attempt + 1 <= Faults(old(db.tape))
        invariant Valid() && db.Keeps(old(db.world), old(db.tape), old(db.trace))
        invariant old(Faultless(db.tape)) && db.known ==> parked.Ok?
        invariant parked.Ok? ==> db.known
        invariant old(Quiet(db.tape)) && parked.Err? ==> db.world == old(db.world)
        invariant old(Quiet(db.tape)) && parked.Ok? ==> db.world == ParkAlone(old(db.world), run).0
      {
        if parked.Ok? {
          break;
        }
        ghost var (before, tried) := (db.world, db.tape);
        EvolvedIsLater(old(db.world), before, db.me);
        parked := worker.Park(run);
        EvolvedTransitive(old(db.world), before, db.world, db.me);
        NoWorseTransitive(old(db.tape), tried, db.tape);
      }
      r := if parked.Ok? then Ok(()) else Err(parked.error);
    }

    /** One turn of the loop: an attempt, its answer delivered, and the answer recorded. */
    method Turn(turn: nat, budget: int, x: Exchange, window: nat) returns (r: Try<RunOutcome>)
      requires Valid() && Possible(x.wire)
      requires db.known ==> db.world.runs[run] == Run(budget, Ready(turn))
      modifies db
      ensures Valid() && Later(old(db.world), db.world) && old(db.trace) <= db.trace
      ensures NoWorse(old(db.tape), db.tape)
      ensures old(Faultless(db.tape)) && db.known ==> r.Ok?
      ensures r.Ok? ==> db.known && StandsAt(db.world, run, budget, turn, r.value)
      ensures old(Quiet(db.tape)) && r.Ok? && BetweenTurns(old(db.world).store.row) ==>
                TurnedWell(old(db.world).store.row, db.world.store.row, budget, x, r.value)
    {
      hide Inv, Exec, Later, Evolved, Others, At, Rest, RunAll, Actions, OwnWrites, OwnEntries, OwnSends;
      hide Solo, Faultless, Faults, Quiet, NoWorse, Db.Traced, Enabled, StatementOf, Genuine, Recorded, Possible, Told;
      hide AttemptSays, Undisturbed;
      hide StandsAt, TurnedWell, AfterAnswer, Released, Answered;
      QuietIsSolo(db.tape);
      var attempted := worker.Attempt(bookingID, run, budget, x.wire, x.reply);
      ghost var (answered, tried) := (db.world, db.tape);
      var a :- attempted;
      AttemptLeaves(old(db.world), answered, run, budget, turn, a);
      if !Internal(a.outcome) {
        DeliveredWith(answered, run, a.attempt, x);
        db.Note(Deliver(run));
        LaterTransitive(old(db.world), answered, db.world);
      }
      ghost var delivered := db.world;
      var applied := ApplyActivity(a, window);
      ghost var persisted := db.world;
      EvolvedIsLater(delivered, persisted, db.me);
      LaterTransitive(old(db.world), delivered, persisted);
      NoWorseTransitive(old(db.tape), tried, db.tape);
      var told :- applied;
      if Internal(a.outcome) && BetweenTurns(old(db.world).store.row) && told.outcome.SawBudgetSpent?
         && old(db.world).store.row.attempts >= budget {
        BudgetWasSpent(old(db.world).store.row, budget, x, told.outcome);
      }
      if !Internal(a.outcome) {
        TurnTold(old(db.world), answered, delivered, budget, x, a);
        AcknowledgeMeans(delivered, persisted, run, turn, budget, a, told.outcome);
        db.Note(Acknowledge(run, told.outcome.SawSettled?));
        LaterTransitive(old(db.world), persisted, db.world);
      }
      r := Ok(told.outcome);
    }

    /** A run, over whatever the network does with each call. Its loop counter is all it remembers; the
        rest is asked of the row. With nobody else at work and no acknowledgement lost, a run that
        ends without an error leaves what `RunAlone` says, whatever statements never arrived. So the
        booking is at rest; left in doubt, it has had the whole budget unless a request could not be
        built; and one that could still attempt has attempted, flagged or not. */
    method Execute(budget: int, network: nat -> Exchange, window: nat) returns (r: Try<()>)
      requires Valid() && (forall n :: Possible(network(n).wire))
      requires db.known ==> db.world.runs[run] == Run(budget, Entering)
      modifies db
      ensures Valid() && Later(old(db.world), db.world) && old(db.trace) <= db.trace
      ensures old(Faultless(db.tape)) && db.known ==> r.Ok?
      ensures r.Ok? ==> db.known
      ensures old(Quiet(db.tape)) && r.Ok? ==>
                var (was, row) := (old(db.world).store.row, db.world.store.row);
                && BriefOf(row) == RunAlone(was, budget, network)
                && (budget >= 1 ==> Converged(row))
                && (budget >= 1 && (forall n :: !network(n).reply.BuildFailed?) && row.status.Unknown? ==>
                      row.attempts >= budget)
                && (!Settled(was.status) && was.attempts < budget ==> row.attempts > was.attempts)
    {
      hide Inv, Exec, Later, Evolved, Others, At, Rest, RunAll, Actions, OwnWrites, OwnEntries, OwnSends;
      hide Solo, Faultless, Faults, Quiet, NoWorse, Db.Traced, Enabled, StatementOf, Possible, Converged;
      hide BetweenTurns, StandsAt;
      hide TurnedWell, RunAlone, BriefOf, AtRest, ComesTo, Abreast, Resting, AfterAnswer, Settled;
      hide RunFrom, AfterReply, ToldOf, Told, Genuine, Recorded, AfterTurn, ParkAlone, Alone, Verdict, LooksUnsent;
      ghost var goal := RunAlone(db.world.store.row, budget, network);
      if db.known {
        RunStarts(db.world, budget, network);
      }
      var dispatched := DispatchActivity();
      ghost var (before, tried) := (db.world, db.tape);
      EvolvedIsLater(old(db.world), before, db.me);
      var status :- dispatched;
      EnterMeans(db.world, run, Settled(status));
      db.Note(Enter(run, Settled(status)));
      LaterTransitive(old(db.world), before, db.world);
      if Settled(status) {
        RunEnds(old(db.world).store.row, db.world.store.row, budget, network);
        return Ok(());
      }
      var attempt := 1;
      while attempt <= budget
        invariant Valid() && Later(old(db.world), db.world) && old(db.trace) <= db.trace
        invariant db.known && NoWorse(old(db.tape), db.tape)
        invariant attempt >= 1 && ComesTo(db.world, run, budget, attempt)
        invariant old(Quiet(db.tape)) ==> Abreast(db.world.store.row, budget, network, attempt, goal)
        decreases budget - attempt
      {
        before, tried := db.world, db.tape;
        TurnsAreOver(db.world, run, budget, network, attempt, goal);
        AbreastMeans(db.world.store.row, budget, network, attempt, goal);
        var turned := Turn(attempt, budget, network(attempt), window);
        LaterTransitive(old(db.world), before, db.world);
        NoWorseTransitive(old(db.tape), tried, db.tape);
        var outcome :- turned;
        TurnGoesOn(db.world, run, budget, network, attempt, before.store.row, goal, outcome);
        match outcome {
          case SawInDoubt | SawBudgetSpent =>
            break;
          case SawAmbiguous | SawNotSent =>
          case _ =>
            RunEnds(old(db.world).store.row, db.world.store.row, budget, network);
            return Ok(());
        }
        attempt := attempt + 1;
      }
      if attempt > budget {
        TurnsAreOver(db.world, run, budget, network, attempt, goal);
      }
      before, tried := db.world, db.tape;
      RestingMeans(db.world.store.row, goal);
      r := Park(window);
      EvolvedIsLater(before, db.world, db.me);
      LaterTransitive(old(db.world), before, db.world);
      NoWorseTransitive(old(db.tape), tried, db.tape);
      RunEnds(old(db.world).store.row, db.world.store.row, budget, network);
    }
  }
}

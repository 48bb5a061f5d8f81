/** What every step of the protocol keeps, for any number of runs, crashes, late or repeated
    activities, sweeps and callbacks. */
module Invariant {
  import opened Statuses
  import opened Bookings
  import opened Statements
  import opened Supplier
  import opened Protocol

  /** The marker names the last authorized attempt; a settled booking holds none; a reference
      and a failure reason belong to the outcome. */
  predicate RowShape(row: Booking) {
    && (row.marker.Some? ==>
          && row.marker.value == row.attempts >= 1
          && (row.status.Pending? || row.status.Unknown?))
    && (row.status.Received? <==> row.attempts == 0)
    && !row.status.Cancelled?
    && (row.reference.Some? ==> row.status.Confirmed?)
    && (row.failure.Some? <==> row.status.Rejected? || row.status.Failed?)
  }

  /** One call per authorized attempt, and the marker freezes the status its answer writes from. */
  predicate Shape(w: World) {
    var row := w.store.row;
    && RowShape(row)
    && |w.calls| == row.attempts
    && (row.marker.Some? ==> w.calls[row.attempts - 1].from == row.status)
  }

  /** What the calls themselves look like, and that doubt is never withdrawn. */
  predicate CallShape(w: World) {
    && forall i | 0 <= i < |w.calls| ::
         && Possible(w.calls[i].wire)
         && (w.calls[i].live ==> w.calls[i].reply.None?)
         && (w.calls[i].reply.Some? && w.calls[i].reply.value.BuildFailed? ==> w.calls[i].wire == [])
         && (w.calls[i].from.Pending? || w.calls[i].from.Unknown?)
         && (w.calls[i].from.Unknown? ==> !w.store.row.status.Received? && !w.store.row.status.Pending?)
  }

  predicate AnsweredUnsent(c: Call) {
    c.reply.Some? && ProvesUnsent(Verdict(c.wire, c.reply.value).outcome)
  }

  predicate AnsweredNotSent(c: Call) {
    c.reply.Some? && Verdict(c.wire, c.reply.value).outcome.NotSent?
  }

  /** While Pending, every attempt but the marked one is proven not sent; once Failed, all are. */
  predicate Honest(w: World) {
    && (w.store.row.status.Pending? ==>
          forall i | 0 <= i < |w.calls| && w.store.row.marker != Some(i + 1) :: AnsweredNotSent(w.calls[i]))
    && (w.store.row.status.Failed? ==>
          forall i | 0 <= i < |w.calls| :: AnsweredUnsent(w.calls[i]))
  }

  /** This call's answer is the row's outcome, with the reference or the reason it gave. */
  predicate AnswerIs(c: Call, row: Booking) {
    && c.reply.Some?
    && var v := Verdict(c.wire, c.reply.value);
       match row.status
       case Confirmed => v.outcome.Confirm? && row.reference == NonEmpty(v.reference)
       case Rejected => v.outcome.Decline? && row.failure == Some(v.reason)
       case _ => false
  }

  predicate CallbackSays(e: Event, status: Status) {
    && e.kind.CallbackEvent? && e.to == status
    && e.code == Some(if status.Confirmed? then "CONFIRMED" else "REJECTED")
  }

  /** Who said so: some attempt's answer, or a callback whose lineage row says the same. */
  predicate SaidBy(w: World, row: Booking) {
    || (exists i | 0 <= i < |w.calls| :: AnswerIs(w.calls[i], row))
    || (exists e | e in w.store.log :: CallbackSays(e, row.status))
  }

  predicate Vouched(w: World) {
    w.store.row.status.Confirmed? || w.store.row.status.Rejected? ==> SaidBy(w, w.store.row)
  }

  predicate Lineage(w: World) {
    Replay(w.store.log) == Column(w.store.row)
  }

  /** The lifetime budget and the key, which every authorization shares. */
  predicate Budgeted(w: World) {
    && w.store.row.attempts <= MaxBudget(w.runs)
    && (forall i | 0 <= i < |w.calls| :: w.calls[i].request == RequestFor(w.store.row.identity))
    && w.store.row.supplierKey == if w.store.row.attempts == 0 then None else Some(KeyOf(w))
  }

  predicate Clocked(w: World) {
    var row := w.store.row;
    && row.updatedAt <= w.now
    && (row.marker.Some? ==> 1 <= row.marker.value <= |w.calls| && w.calls[row.marker.value - 1].at <= row.updatedAt)
  }

  /** An attempt out of doubt whose request could not be built. */
  predicate BuildBroke(c: Call) {
    c.from.Unknown? && c.reply.Some? && c.reply.value.BuildFailed?
  }

  /** A run parks with its whole budget authorized, or because a build broke out of doubt. */
  predicate Exhausted(row: Booking, calls: seq<Call>, budget: int) {
    row.attempts >= budget || exists i | 0 <= i < |calls| :: BuildBroke(calls[i])
  }

  predicate DrivenAt(row: Booking, calls: seq<Call>, run: Run) {
    match run.phase
    case Ready(turn) => 1 <= turn <= run.budget && turn - 1 <= row.attempts
    case Waiting(turn, k) => 1 <= turn <= k <= row.attempts && turn <= run.budget
    case Persisting(turn, k) => 1 <= turn <= k <= row.attempts && turn <= run.budget
    case Parking => Exhausted(row, calls, run.budget)
    case _ => true
  }

  predicate Driven(w: World) {
    forall r | 0 <= r < |w.runs| :: DrivenAt(w.store.row, w.calls, w.runs[r])
  }

  predicate Inv(w: World) {
    Shape(w) && CallShape(w) && Honest(w) && Vouched(w) && Lineage(w) && Budgeted(w) && Clocked(w) && Driven(w)
  }

  lemma InitInv(identity: Identity, now: int)
    ensures Inv(Init(identity, now))
  {
  }

  /** Settled means final: outcome, reference, reason and attempts are fixed. */
  predicate Final(row: Booking, later: Booking) {
    Settled(row.status) ==>
      && later.status == row.status
      && later.attempts == row.attempts
      && later.marker.None?
      && later.reference == row.reference
      && later.failure == row.failure
  }

  predicate RowLater(row: Booking, later: Booking) {
    && row.identity == later.identity
    && row.attempts <= later.attempts
    && row.version <= later.version
    && Path(row.status, later.status)
    && Final(row, later)
    // a raised flag is lowered only by settling on the supplier's word
    && (row.flagged ==> later.flagged || (!Settled(row.status) && (later.status.Confirmed? || later.status.Rejected?)))
    // a marker that appears later belongs to a later attempt
    && (later.marker.Some? ==> later.marker == row.marker || later.marker.value > row.attempts)
    && (row.supplierKey.Some? ==> later.supplierKey == row.supplierKey)
    // nothing moved and no attempt was authorized unless the version says so
    && (row.version == later.version ==> row == later)
  }

  /** What every statement production code issues respects, whatever the row holds by then. */
  predicate Lawful(row: Booking, q: Statement) {
    q.Guarded? && Moves(q.t, row) ==>
      && !Settled(row.status)
      && row.status != q.t.to && Path(row.status, q.t.to) && !q.t.to.Pending?
      && (q.t.reference.Some? ==> q.t.to.Confirmed?)
      && (q.t.failure.Some? <==> q.t.to.Rejected? || q.t.to.Failed?)
      && (q.t.to.Unknown? ==> q.t.rule.Owned?)
      && (q.t.clearFlag ==> q.t.to.Confirmed? || q.t.to.Rejected?)
      && !row.status.Received?
  }

  lemma StatementKeepsRow(row: Booking, now: int, q: Statement)
    requires RowShape(row) && Lawful(row, q)
    ensures RowShape(RowAfter(row, now, q))
    ensures RowLater(row, RowAfter(row, now, q))
  {
  }

  lemma StepLawful(w: World, a: Action)
    requires CallShape(w) && Enabled(w, a)
    ensures Lawful(w.store.row, StatementOf(w, a))
  {
  }

  lemma StepKeepsRow(w: World, a: Action)
    requires Shape(w) && CallShape(w)
    ensures RowShape(Exec(w, a).store.row)
    ensures RowLater(w.store.row, Exec(w, a).store.row)
  {
    if Enabled(w, a) {
      StepLawful(w, a);
      StatementKeepsRow(w.store.row, w.now, StatementOf(w, a));
    }
  }

  /** A statement that leaves an attempt marked either has just marked it or changed nothing. */
  lemma MarkerStays(row: Booking, now: int, q: Statement)
    requires RowShape(row) && Lawful(row, q)
    ensures var later := RowAfter(row, now, q);
            && (q.Authorize? && Grants(row, q.budget) ==>
                  later.attempts == row.attempts + 1 && later.status == WritesFrom(row.status))
            && (!(q.Authorize? && Grants(row, q.budget)) ==>
                  && later.attempts == row.attempts
                  && (later.marker.Some? ==> later.status == row.status && later.marker == row.marker))
  {
  }

  lemma ShapeKept(w: World, a: Action)
    requires Shape(w) && CallShape(w)
    ensures Shape(Exec(w, a))
  {
    StepKeepsRow(w, a);
    if Enabled(w, a) {
      StepLawful(w, a);
      MarkerStays(w.store.row, w.now, StatementOf(w, a));
    }
  }

  lemma WireKept(wire: seq<Wire>, e: Wire)
    requires Possible(wire) && (e.Request? ==> Connected in wire)
    ensures Possible(wire + [e])
  {
    assert forall i | 0 <= i <= |wire| :: (wire + [e])[..i] == wire[..i];
    assert wire[..|wire|] == wire;
  }

  lemma NothingOnTheWire()
    ensures Possible([])
  {
  }

  lemma CallShapeKept(w: World, a: Action)
    requires Shape(w) && CallShape(w)
    ensures CallShape(Exec(w, a))
  {
    hide Possible, RowAfter, RowShape, Lawful, EventsOf;
    StepKeepsRow(w, a);
    NothingOnTheWire();
    if Enabled(w, a) {
      if a.OnWire? {
        WireKept(w.calls[a.attempt - 1].wire, a.event);
      } else if a.AuthorizeFor? {
        StepLawful(w, a);
        MarkerStays(w.store.row, w.now, StatementOf(w, a));
      }
    }
  }

  lemma HonestAfterPersist(w: World, k: nat)
    requires Shape(w) && CallShape(w) && Honest(w) && Answered(w, k)
    ensures Honest(Exec(w, Persist(k)))
  {
  }

  /** A statement that is no attempt's record neither clears a marker in place nor fails a booking
      with an attempt outstanding. */
  lemma HonestRow(w: World, a: Action)
    requires Shape(w) && Enabled(w, a) && !a.Persist? && !a.AuthorizeFor?
    ensures var (row, later) := (w.store.row, RowAfter(w.store.row, w.now, StatementOf(w, a)));
            && (later.status.Pending? ==> row.status.Pending? && later.marker == row.marker)
            && (later.status.Failed? ==> row.status.Failed? || (row.status.Pending? && row.marker.None?))
  {
  }

  lemma AnswersKept(w: World, a: Action)
    requires CallShape(w)
    ensures |w.calls| <= |Exec(w, a).calls|
    ensures forall i | 0 <= i < |w.calls| && w.calls[i].reply.Some? :: Exec(w, a).calls[i] == w.calls[i]
    ensures !a.AuthorizeFor? ==> |w.calls| == |Exec(w, a).calls|
  {
  }

  lemma HonestAfterAuthorize(w: World, r: nat)
    requires Shape(w) && CallShape(w) && Honest(w)
    ensures Honest(Exec(w, AuthorizeFor(r)))
  {
  }

  lemma HonestKept(w: World, a: Action)
    requires Shape(w) && CallShape(w) && Honest(w)
    ensures Honest(Exec(w, a))
  {
    if Enabled(w, a) {
      hide RowAfter;
      if a.Persist? {
        HonestAfterPersist(w, a.attempt);
      } else if a.AuthorizeFor? {
        HonestAfterAuthorize(w, a.run);
      } else {
        HonestRow(w, a);
        AnswersKept(w, a);
      }
    }
  }

  lemma AnswerGiven(c: Call, row: Booking)
    requires AnswerIs(c, row)
    ensures c.reply.Some?
  {
  }

  lemma LogKept(w: World, a: Action)
    ensures w.store.log <= Exec(w, a).store.log
  {
  }

  lemma SaidByKept(w: World, a: Action, row: Booking)
    requires CallShape(w) && SaidBy(w, row)
    ensures SaidBy(Exec(w, a), row)
  {
    hide AnswerIs;
    var v := Exec(w, a);
    AnswersKept(w, a);
    if i :| 0 <= i < |w.calls| && AnswerIs(w.calls[i], row) {
      AnswerGiven(w.calls[i], row);
      assert v.calls[i] == w.calls[i];
    } else {
      var e :| e in w.store.log && CallbackSays(e, row.status);
      LogKept(w, a);
      assert e in v.store.log;
    }
  }

  /** A settled outcome is looked up by status, reference and reason alone. */
  lemma SameOutcome(w: World, row: Booking, later: Booking)
    requires SaidBy(w, row)
    requires later.status == row.status && later.reference == row.reference && later.failure == row.failure
    ensures SaidBy(w, later)
  {
    if i :| 0 <= i < |w.calls| && AnswerIs(w.calls[i], row) {
      assert AnswerIs(w.calls[i], later);
    }
  }

  /** The two writes that settle on the supplier's word. */
  lemma SettledByRecord(w: World, k: nat)
    requires Shape(w) && CallShape(w) && Answered(w, k)
    ensures var (was, row) := (w.store.row, Exec(w, Persist(k)).store.row);
            was.status != row.status && (row.status.Confirmed? || row.status.Rejected?) ==>
              AnswerIs(w.calls[k - 1], row)
  {
  }

  lemma SettledByCallback(w: World, a: Action)
    requires CallShape(w) && Enabled(w, a) && !a.Persist?
    ensures var (was, v) := (w.store.row, Exec(w, a).store);
            was.status != v.row.status && (v.row.status.Confirmed? || v.row.status.Rejected?) ==>
              |v.log| == |w.store.log| + 1 && CallbackSays(v.log[|w.store.log|], v.row.status)
  {
  }

  /** A booking settles as confirmed or rejected only on the supplier's word. */
  lemma VouchedKept(w: World, a: Action)
    requires Shape(w) && CallShape(w) && Vouched(w)
    ensures Vouched(Exec(w, a))
  {
    hide AnswerIs, RowAfter, EventsOf, StatementOf;
    var (v, was) := (Exec(w, a), w.store.row);
    var row := v.store.row;
    if row.status.Confirmed? || row.status.Rejected? {
      if row.status == was.status {
        StepKeepsRow(w, a);
        SaidByKept(w, a, was);
        SameOutcome(v, was, row);
      } else if a.Persist? && Enabled(w, a) {
        SettledByRecord(w, a.attempt);
        AnswersKept(w, a);
        assert v.calls[a.attempt - 1] == w.calls[a.attempt - 1];
      } else if Enabled(w, a) {
        SettledByCallback(w, a);
        assert v.store.log[|w.store.log|] in v.store.log;
      }
    }
  }

  /** The kinds production code files each statement's lineage row under. */
  predicate FiledProperly(q: Statement) {
    match q
    case Guarded(t) => t.kind.TransitionEvent? || t.kind.ResponseEvent? || t.kind.TimeoutEvent? || t.kind.CallbackEvent?
    case ClearMarker(_, kind, reason) =>
      kind.TransitionEvent? || kind.TimeoutEvent? || (kind.RequestEvent? && reason.Some?)
    case AppendRefusal(e) => e.kind.ConflictEvent? || e.kind.CallbackRejectedEvent?
    case _ => true
  }

  /** A statement that appends nothing leaves the audited columns alone. */
  lemma SilentKeepsColumn(row: Booking, now: int, q: Statement)
    requires EventsOf(row, q) == []
    ensures Column(RowAfter(row, now, q)) == Column(row)
  {
  }

  lemma GuardedReadsBack(row: Booking, now: int, t: Transition)
    requires FiledProperly(Guarded(t)) && Moves(t, row)
    ensures Read(Column(row), EventsOf(row, Guarded(t))[0]) == Column(RowAfter(row, now, Guarded(t)))
  {
  }

  lemma ClearReadsBack(row: Booking, now: int, attempt: nat, kind: EventKind, reason: Option<string>)
    requires FiledProperly(ClearMarker(attempt, kind, reason)) && row.marker == Some(attempt)
    ensures var q := ClearMarker(attempt, kind, reason);
            Read(Column(row), EventsOf(row, q)[0]) == Column(RowAfter(row, now, q))
  {
  }

  lemma AuthorizeReadsBack(row: Booking, now: int, budget: int, key: string)
    requires Grants(row, budget)
    ensures var q := Authorize(budget, key);
            Read(Column(row), EventsOf(row, q)[0]) == Column(RowAfter(row, now, q))
  {
  }

  lemma ResolveReadsBack(row: Booking, now: int)
    requires Resolves(row)
    ensures Read(Column(row), EventsOf(row, ResolveStale)[0]) == Column(RowAfter(row, now, ResolveStale))
  {
  }

  lemma NeutralReadsBack(row: Booking, now: int, q: Statement)
    requires (q.AppendRefusal? && FiledProperly(q)) || (q.ParkIfUnknown? && EventsOf(row, q) != [])
    ensures Read(Column(row), EventsOf(row, q)[0]) == Column(RowAfter(row, now, q))
  {
  }

  /** What a statement appends, and when. */
  lemma AppendsWhen(row: Booking, q: Statement)
    ensures |EventsOf(row, q)| <= 1
    ensures EventsOf(row, q) != [] ==>
              match q
              case Guarded(t) => Moves(t, row)
              case ClearMarker(attempt, _, _) => row.marker == Some(attempt)
              case AppendRefusal(_) => true
              case ResolveStale => Resolves(row)
              case Authorize(budget, _) => Grants(row, budget)
              case ParkIfUnknown => true
              case _ => false
  {
  }

  lemma StatementReadsBack(s: Store, now: int, q: Statement)
    requires FiledProperly(q) && Replay(s.log) == Column(s.row)
    ensures Replay(Effect(s, now, q).log) == Column(RowAfter(s.row, now, q))
  {
    hide RowAfter, EventsOf, Read, FiledProperly, Column, Grants, Resolves, Moves;
    AppendsWhen(s.row, q);
    var events := EventsOf(s.row, q);
    if events == [] {
      SilentKeepsColumn(s.row, now, q);
      assert s.log + events == s.log;
    } else {
      match q {
        case Guarded(t) => GuardedReadsBack(s.row, now, t);
        case ClearMarker(attempt, kind, reason) => ClearReadsBack(s.row, now, attempt, kind, reason);
        case Authorize(budget, key) => AuthorizeReadsBack(s.row, now, budget, key);
        case ResolveStale => ResolveReadsBack(s.row, now);
        case _ => NeutralReadsBack(s.row, now, q);
      }
      assert events == [events[0]];
      ReplayAppend(s.log, events[0]);
    }
  }

  lemma LineageKept(w: World, a: Action)
    requires Lineage(w)
    ensures Lineage(Exec(w, a))
  {
    if Enabled(w, a) {
      StatementReadsBack(w.store, w.now, StatementOf(w, a));
    }
  }

  lemma MaxBudgetGrows(w: World, a: Action)
    ensures MaxBudget(w.runs) <= MaxBudget(Exec(w, a).runs)
  {
    var v := Exec(w, a);
    if a.Start? {
      MaxBudgetKept(w.runs, v.runs[..|w.runs|]);
    } else {
      MaxBudgetKept(w.runs, v.runs);
    }
  }

  lemma KeyStays(row: Booking, now: int, q: Statement)
    ensures !q.Authorize? ==> RowAfter(row, now, q).supplierKey == row.supplierKey
    ensures RowAfter(row, now, q).identity == row.identity
  {
  }

  lemma BudgetedKept(w: World, a: Action)
    requires Shape(w) && CallShape(w) && Budgeted(w)
    ensures Budgeted(Exec(w, a))
  {
    MaxBudgetGrows(w, a);
    if Enabled(w, a) {
      StepLawful(w, a);
      MarkerStays(w.store.row, w.now, StatementOf(w, a));
      KeyStays(w.store.row, w.now, StatementOf(w, a));
      if a.AuthorizeFor? {
        MaxBudgetIsMax(w.runs, a.run);
      }
    }
  }

  lemma ClockedKept(w: World, a: Action)
    requires Shape(w) && Clocked(w)
    ensures Clocked(Exec(w, a))
  {
  }

  lemma ExhaustedStays(w: World, a: Action, budget: int)
    requires Shape(w) && CallShape(w) && Exhausted(w.store.row, w.calls, budget)
    ensures Exhausted(Exec(w, a).store.row, Exec(w, a).calls, budget)
  {
    hide RowAfter, RowShape, EventsOf;
    StepKeepsRow(w, a);
    AnswersKept(w, a);
    if w.store.row.attempts < budget {
      var i :| 0 <= i < |w.calls| && BuildBroke(w.calls[i]);
      assert BuildBroke(Exec(w, a).calls[i]);
    }
  }

  lemma DrivenStays(w: World, a: Action, run: Run)
    requires Shape(w) && CallShape(w) && DrivenAt(w.store.row, w.calls, run)
    ensures DrivenAt(Exec(w, a).store.row, Exec(w, a).calls, run)
  {
    StepKeepsRow(w, a);
    if run.phase.Parking? {
      ExhaustedStays(w, a, run.budget);
    }
  }

  /** The one road into parking that spends no budget. */
  lemma BrokenBuildParks(w: World, k: nat)
    requires Answered(w, k) && AnswerTo(w, k).outcome.PreSendFailure? && AnswerTo(w, k).from.Unknown?
    ensures BuildBroke(w.calls[k - 1])
  {
    VerdictMeans(w.calls[k - 1].wire, w.calls[k - 1].reply.value);
  }

  lemma PhaseDriven(w: World, a: Action, r: nat)
    requires Shape(w) && CallShape(w) && Driven(w) && Enabled(w, a) && r < |w.runs|
    ensures DrivenAt(Exec(w, a).store.row, Exec(w, a).calls, w.runs[r].(phase := NextPhase(w, a, r)))
  {
    StepKeepsRow(w, a);
    var run := w.runs[r];
    assert DrivenAt(w.store.row, w.calls, run);
    if NextPhase(w, a, r) == run.phase {
      DrivenStays(w, a, run);
    } else if a.Acknowledge? {
      var k := run.phase.attempt;
      if AnswerTo(w, k).outcome.PreSendFailure? && AnswerTo(w, k).from.Unknown? {
        BrokenBuildParks(w, k);
        ExhaustedStays(w, a, run.budget);
      }
    }
  }

  lemma DrivenKept(w: World, a: Action)
    requires Shape(w) && CallShape(w) && Driven(w)
    ensures Driven(Exec(w, a))
  {
    if Enabled(w, a) {
      forall r | 0 <= r < |w.runs|
        ensures DrivenAt(Exec(w, a).store.row, Exec(w, a).calls, NextRuns(w, a)[r])
      {
        PhaseDriven(w, a, r);
      }
    }
  }

  lemma StepInv(w: World, a: Action)
    requires Inv(w)
    ensures Inv(Exec(w, a))
  {
    ShapeKept(w, a);
    CallShapeKept(w, a);
    HonestKept(w, a);
    VouchedKept(w, a);
    LineageKept(w, a);
    BudgetedKept(w, a);
    ClockedKept(w, a);
    DrivenKept(w, a);
  }
}

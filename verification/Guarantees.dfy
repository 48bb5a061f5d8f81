/** The promises, for every booking and every interleaving of steps. */
module Guarantees {
  import opened Statuses
  import opened Bookings
  import opened Statements
  import opened Supplier
  import opened Protocol
  import opened Invariant
  import opened Evolution

  function Reached(identity: Identity, now: int, actions: seq<Action>): World {
    RunAll(Init(identity, now), actions)
  }

  lemma Always(identity: Identity, now: int, actions: seq<Action>)
    ensures Inv(Reached(identity, now, actions))
  {
    InitInv(identity, now);
    RunsLater(Init(identity, now), actions);
  }

  // ----- honest endings -----

  /** A failed booking was never at the supplier: every authorized attempt has ended, was
      answered not-sent or failed before sending, and put request bytes on a socket exactly when
      the transport opened another connection after them, as following a redirect does. */
  lemma HonestFailure(identity: Identity, now: int, actions: seq<Action>)
    ensures var w := Reached(identity, now, actions);
            w.store.row.status.Failed? ==>
              && |w.calls| == w.store.row.attempts
              && forall i | 0 <= i < |w.calls| ::
                   && !w.calls[i].live && w.calls[i].reply.Some?
                   && (|| (w.calls[i].reply.value.BuildFailed? && w.calls[i].wire == [])
                       || (w.calls[i].reply.value.Broken? && Silent(w.calls[i].wire)))
                   && (RequestBytes(w.calls[i].wire) == 0 <==> NeverReconnects(w.calls[i].wire))
  {
    Always(identity, now, actions);
    var w := Reached(identity, now, actions);
    if w.store.row.status.Failed? {
      forall i | 0 <= i < |w.calls|
        ensures !w.calls[i].live && w.calls[i].reply.Some?
        ensures || (w.calls[i].reply.value.BuildFailed? && w.calls[i].wire == [])
                || (w.calls[i].reply.value.Broken? && Silent(w.calls[i].wire))
        ensures RequestBytes(w.calls[i].wire) == 0 <==> NeverReconnects(w.calls[i].wire)
      {
        assert AnsweredUnsent(w.calls[i]);
        VerdictMeans(w.calls[i].wire, w.calls[i].reply.value);
        if w.calls[i].reply.value.Broken? {
          UnsentMeans(w.calls[i].wire);
        }
      }
    }
  }

  lemma PersistReleases(w: World, k: nat)
    requires Shape(w) && CallShape(w) && Answered(w, k)
    ensures Exec(w, Persist(k)).store.row.marker != Some(k)
  {
  }

  lemma ReleasedIsInert(v: World, k: nat)
    requires Answered(v, k) && v.store.row.marker != Some(k)
    ensures Exec(v, Persist(k)).store == v.store
  {
  }

  /** Once its activity has persisted an answer, that answer never changes the booking again,
      however often it is applied and whatever has happened since. */
  lemma StaleAnswersAreInert(w: World, k: nat, since: seq<Action>)
    requires Inv(w) && Answered(w, k)
    ensures var v := RunAll(Exec(w, Persist(k)), since);
            Answered(v, k) && AnswerTo(v, k) == AnswerTo(w, k) && Exec(v, Persist(k)).store == v.store
  {
    var u := Exec(w, Persist(k));
    StepInv(w, Persist(k));
    StepCallsLater(w, Persist(k));
    assert CallLater(w.calls[k - 1], u.calls[k - 1]);
    RunsLater(u, since);
    var v := RunAll(u, since);
    assert CallLater(u.calls[k - 1], v.calls[k - 1]);
    PersistReleases(w, k);
    ReleasedIsInert(v, k);
  }

  /** What an attempt's reply makes of a booking it is outstanding on. */
  function RowOnReply(row: Booking, now: int, wire: seq<Wire>, reply: NetReply): Booking {
    var ended := row.(marker := None, version := row.version + 1, updatedAt := now);
    if Confirms(reply) then
      ended.(status := Confirmed, reference := Some(reply.body.reference), flagged := false)
    else if Declines(reply) then
      ended.(status := Rejected, failure := Some(reply.body.declineCode), flagged := false)
    else if reply.BuildFailed? then
      if row.status.Pending? then ended.(status := Failed, failure := Some("request_build_failed")) else ended
    else if reply.Broken? && LooksUnsent(wire) then ended
    else ended.(status := Unknown)
  }

  /** And how it is filed: which kind of event, and under which of the supplier's words. */
  predicate FiledOnReply(row: Booking, wire: seq<Wire>, reply: NetReply, k: nat, e: Event) {
    && e.from == Some(row.status) && e.attempt == Some(k) && e.digest.None?
    && if Confirms(reply) then
         e.kind.ResponseEvent? && e.to.Confirmed? && e.code == Some("CONFIRMED") && e.reason.None?
       else if Declines(reply) then
         e.kind.ResponseEvent? && e.to.Rejected? && e.code == Some("REJECTED") && e.reason.None?
       else if reply.BuildFailed? then
         && e.kind.TransitionEvent? && e.to == (if row.status.Pending? then Failed else Unknown)
         && e.code.None? && e.reason == Some(reply.why)
       else if reply.Broken? && LooksUnsent(wire) then
         e.kind.RequestEvent? && e.to == row.status && e.code.None? && e.reason == Some(reply.why)
       else e.kind.TimeoutEvent? && e.to.Unknown? && e.code.None? && e.reason.Some?
  }

  lemma BuildWhy(wire: seq<Wire>, reply: NetReply)
    ensures reply.BuildFailed? || reply.Broken? ==> Verdict(wire, reply).reason == reply.why
  {
  }

  /** The owner's record, by what it says: it lands, and the row and its event are these. */
  predicate Lands(w: World, k: nat, row: Booking, e: Event) {
    && Exec(w, Persist(k)).store.row == row.(marker := None, version := row.version + 1, updatedAt := w.now)
    && Exec(w, Persist(k)).store.log == w.store.log + [e]
  }

  predicate Owns(w: World, k: nat) {
    && Shape(w) && Answered(w, k) && w.store.row.marker == Some(k)
    && (w.store.row.status.Pending? || w.store.row.status.Unknown?)
  }

  lemma OwnerStands(w: World, k: nat)
    requires Inv(w) && w.store.row.marker == Some(k) && Answered(w, k)
    ensures Owns(w, k) && w.calls[k - 1].from == w.store.row.status
    ensures w.store.row.failure.None? && w.store.row.reference.None?
  {
  }

  lemma ConfirmedHasReference(reply: NetReply)
    ensures Confirms(reply) ==> reply.body.reference != ""
  {
  }

  lemma SettlingLands(w: World, k: nat)
    requires Owns(w, k)
    ensures var (row, a) := (w.store.row, AnswerTo(w, k));
            && (a.outcome.Confirm? ==>
                  Lands(w, k, row.(status := Confirmed, failure := None, flagged := false,
                                   reference := if a.reference == "" then None else Some(a.reference)),
                        Event(ResponseEvent, Some(row.status), Confirmed, Some(k), Some("CONFIRMED"), None, None)))
            && (a.outcome.Decline? ==>
                  Lands(w, k, row.(status := Rejected, failure := Some(a.reason), flagged := false),
                        Event(ResponseEvent, Some(row.status), Rejected, Some(k), Some("REJECTED"), None, None)))
  {
    hide Verdict;
  }

  lemma BrokenBuildLands(w: World, k: nat)
    requires Owns(w, k) && AnswerTo(w, k).outcome.PreSendFailure?
    ensures var (row, a) := (w.store.row, AnswerTo(w, k));
            if row.status.Pending? then
              Lands(w, k, row.(status := Failed, failure := Some("request_build_failed")),
                    Event(TransitionEvent, Some(Pending), Failed, Some(k), None, Some(a.reason), None))
            else
              Lands(w, k, row, Event(TransitionEvent, Some(Unknown), Unknown, Some(k), None, Some(a.reason), None))
  {
    hide Verdict;
  }

  lemma NotSentLands(w: World, k: nat)
    requires Owns(w, k) && AnswerTo(w, k).outcome.NotSent?
    ensures var (row, a) := (w.store.row, AnswerTo(w, k));
            Lands(w, k, row, Event(RequestEvent, Some(row.status), row.status, Some(k), None, Some(a.reason), None))
  {
    hide Verdict;
  }

  lemma DoubtfulLands(w: World, k: nat)
    requires Owns(w, k) && AnswerTo(w, k).outcome.Ambiguous?
    requires w.store.row.failure.None?
    ensures var (row, a) := (w.store.row, AnswerTo(w, k));
            Lands(w, k, row.(status := Unknown),
                  Event(TimeoutEvent, Some(row.status), Unknown, Some(k), None, Some(a.reason), None))
  {
    hide Verdict;
  }

  /** While an attempt holds the marker the row sits where that attempt's outcome writes from, so
      the first write for its answer always lands, always ends the attempt, and leaves exactly what
      the reply says. */
  lemma OwnershipFreezesStatus(w: World, k: nat)
    requires Inv(w) && w.store.row.marker == Some(k) && Answered(w, k)
    ensures var (v, c) := (Exec(w, Persist(k)), w.calls[k - 1]);
            && c.from == w.store.row.status
            && v.store.row == RowOnReply(w.store.row, w.now, c.wire, c.reply.value)
            && |v.store.log| == |w.store.log| + 1 && w.store.log <= v.store.log
            && FiledOnReply(w.store.row, c.wire, c.reply.value, k, v.store.log[|w.store.log|])
  {
    OwnerStands(w, k);
    var (row, c) := (w.store.row, w.calls[k - 1]);
    hide Inv, Shape, Exec, Verdict, LooksUnsent, Confirms, Declines, Silent;
    VerdictMeans(c.wire, c.reply.value);
    SilentIff(c.wire);
    BuildWhy(c.wire, c.reply.value);
    SettlingLands(w, k);
    match AnswerTo(w, k).outcome {
      case Confirm => ConfirmedHasReference(c.reply.value);
      case Decline =>
      case PreSendFailure => BrokenBuildLands(w, k);
      case NotSent => NotSentLands(w, k);
      case _ => DoubtfulLands(w, k);
    }
  }

  /** When the status still matches but the marker does not, the attempt was superseded. That
      takes doubt: from Pending it cannot happen to any answer that was more than not-sent. */
  lemma SupersededOnlyFromDoubt(w: World, k: nat)
    requires Inv(w) && Answered(w, k) && AnswerTo(w, k).from == w.store.row.status && w.store.row.marker != Some(k)
    ensures AnswerTo(w, k).from.Unknown? || AnswerTo(w, k).outcome.NotSent?
  {
  }

  /** A reply that says what the row says. */
  predicate ReplySays(c: Call, row: Booking) {
    && c.reply.Some?
    && match row.status
       case Confirmed => Confirms(c.reply.value) && row.reference == Some(c.reply.value.body.reference)
       case Rejected => Declines(c.reply.value) && row.failure == Some(c.reply.value.body.declineCode)
       case _ => false
  }

  lemma AnswerIsReply(c: Call, row: Booking)
    requires AnswerIs(c, row)
    ensures ReplySays(c, row)
  {
    VerdictMeans(c.wire, c.reply.value);
  }

  /** Confirmed and Rejected are only ever the supplier's own word, never a guess: the body of some
      attempt's reply says so, with the very reference or decline code on the row, or a callback that
      used the word is on record. */
  lemma OutcomeIsSuppliersWord(identity: Identity, now: int, actions: seq<Action>)
    ensures var w := Reached(identity, now, actions);
            w.store.row.status.Confirmed? || w.store.row.status.Rejected? ==>
              || (exists i | 0 <= i < |w.calls| :: ReplySays(w.calls[i], w.store.row))
              || (exists e | e in w.store.log :: CallbackSays(e, w.store.row.status))
  {
    hide AnswerIs, ReplySays;
    Always(identity, now, actions);
    var w := Reached(identity, now, actions);
    if w.store.row.status.Confirmed? || w.store.row.status.Rejected? {
      if i :| 0 <= i < |w.calls| && AnswerIs(w.calls[i], w.store.row) {
        AnswerIsReply(w.calls[i], w.store.row);
      }
    }
  }

  // ----- the lineage -----

  /** The lineage is the booking: folding it rebuilds status, attempts and marker. */
  lemma LineageRebuildsTheRow(identity: Identity, now: int, actions: seq<Action>)
    ensures var s := Reached(identity, now, actions).store;
            Replay(s.log) == Audit(s.row.status, s.row.attempts, s.row.marker)
  {
    Always(identity, now, actions);
  }

  lemma StatementMoves(row: Booking, now: int, q: Statement)
    requires RowShape(row) && Lawful(row, q)
    ensures var later := RowAfter(row, now, q);
            && (later.status != row.status ==> Allowed(row.status, later.status))
            && (later.status != row.status && row.status.Received? ==> later.status.Pending?)
            && |EventsOf(row, q)| <= 1
            && (Column(later) != Column(row) ==>
                  && EventsOf(row, q) != []
                  && EventsOf(row, q)[0].from == Some(row.status) && EventsOf(row, q)[0].to == later.status)
  {
  }

  /** Which attempt a move's lineage row names: the one it opened or ended. */
  lemma StatementNames(row: Booking, now: int, q: Statement)
    requires RowShape(row) && Lawful(row, q) && Column(RowAfter(row, now, q)) != Column(row)
    ensures var (later, e) := (RowAfter(row, now, q), EventsOf(row, q)[0]);
            && EventsOf(row, q) != []
            && (q.Guarded? ==>
                  e.attempt == q.t.attempt && (q.t.rule.Owned? ==> q.t.attempt == row.marker) && later.marker.None?)
            && (!q.Guarded? ==> e.attempt == if later.marker.Some? then later.marker else row.marker)
  {
  }

  lemma StepNames(w: World, a: Action)
    requires Enabled(w, a) && StatementOf(w, a).Guarded?
    ensures var t := StatementOf(w, a).t;
            if a.CallbackWrite? || a.CallUnreachable? then t.attempt.None? else t.rule.Owned?
  {
  }

  lemma CallbacksAreGuarded(w: World, a: Action)
    requires Enabled(w, a)
    ensures a.CallbackWrite? || a.CallUnreachable? ==> StatementOf(w, a).Guarded?
  {
  }

  lemma InvShape(w: World)
    requires Inv(w)
    ensures Shape(w) && CallShape(w)
  {
  }

  /** Every move is an edge of the table, including the two that SQL writes without consulting
      it; doubt resolves only to a supplier's answer; and each move appends exactly one lineage
      row, which names where the booking was, where it went and which attempt that opened or
      ended. A callback and a park end no attempt of their own and name none. */
  lemma EveryMoveIsAnEdge(w: World, a: Action)
    requires Inv(w)
    ensures var v := Exec(w, a);
            var (was, became) := (w.store.row.status, v.store.row.status);
            && (became != was ==> Allowed(was, became))
            && (became != was ==>
                  || (was.Received? && became.Pending?)
                  || (was.Pending? && (became.Unknown? || became.Confirmed? || became.Rejected? || became.Failed?))
                  || (was.Unknown? && (became.Confirmed? || became.Rejected?)))
            && |v.store.log| <= |w.store.log| + 1
            && (Column(v.store.row) != Column(w.store.row) ==>
                  && |v.store.log| == |w.store.log| + 1
                  && v.store.log[|w.store.log|].from == Some(was)
                  && v.store.log[|w.store.log|].to == became
                  && v.store.log[|w.store.log|].attempt ==
                       if a.CallbackWrite? || a.CallUnreachable? then None
                       else if v.store.row.marker.Some? then v.store.row.marker
                       else w.store.row.marker)
  {
    hide RowAfter, EventsOf, StatementOf, Lawful, NextCalls, NextRuns, Inv, Column;
    InvShape(w);
    if Enabled(w, a) {
      StepLawful(w, a);
      StepKeepsRow(w, a);
      StatementMoves(w.store.row, w.now, StatementOf(w, a));
      if StatementOf(w, a).Guarded? {
        StepNames(w, a);
      }
      if Column(Exec(w, a).store.row) != Column(w.store.row) {
        StatementNames(w.store.row, w.now, StatementOf(w, a));
        CallbacksAreGuarded(w, a);
      }
    }
  }

  /** Settled is final, and a flag raised on a settled booking stays raised. */
  lemma {:induction false} SettledIsFinal(w: World, actions: seq<Action>)
    requires Inv(w) && Settled(w.store.row.status)
    ensures var (row, later) := (w.store.row, RunAll(w, actions).store.row);
            && later.status == row.status
            && later.attempts == row.attempts
            && later.marker.None? && row.marker.None?
            && later.reference == row.reference
            && later.failure == row.failure
            && (row.flagged ==> later.flagged)
            && (row.reference.Some? ==> row.status.Confirmed?)
            && (row.failure.Some? <==> row.status.Rejected? || row.status.Failed?)
  {
    RunsLater(w, actions);
  }

  // ----- budgets -----

  /** However many runs, restarts and sweeps there are, the supplier is called at most once per
      authorized attempt and never more often than the largest budget any run carried; and every
      call asks for the booking's own stay under the key stored at the first authorization. */
  lemma SendCap(identity: Identity, now: int, actions: seq<Action>)
    ensures var w := Reached(identity, now, actions);
            && |w.calls| == w.store.row.attempts <= MaxBudget(w.runs)
            && forall i | 0 <= i < |w.calls| ::
                 && Some(w.calls[i].request.key) == w.store.row.supplierKey
                 && w.calls[i].request.booking == identity.id
                 && w.calls[i].request.stay == identity.stay
  {
    Always(identity, now, actions);
    InitInv(identity, now);
    RunsLater(Init(identity, now), actions);
  }

  /** The step at index i of a schedule authorized an attempt. */
  predicate GrantsAt(w: World, actions: seq<Action>, i: nat) {
    && i < |actions| && actions[i].AuthorizeFor?
    && var before := RunAll(w, actions[..i]);
       Enabled(before, actions[i]) && Grants(before.store.row, before.runs[actions[i].run].budget)
  }

  /** The number it was given. */
  function NumberAt(w: World, actions: seq<Action>, i: nat): nat
    requires i < |actions|
  {
    RunAll(w, actions[..i]).store.row.attempts + 1
  }

  /** No attempt number is ever granted twice, to whichever runs: later grants are higher. */
  lemma GrantsAreDistinct(w: World, actions: seq<Action>, i: nat, j: nat)
    requires Inv(w) && i < j && GrantsAt(w, actions, i) && GrantsAt(w, actions, j)
    ensures NumberAt(w, actions, i) < NumberAt(w, actions, j)
  {
    var (first, second) := (actions[..i + 1], actions[i + 1..j]);
    RunsLater(w, actions[..i]);
    var granted := RunAll(w, first);
    assert first[..i] == actions[..i];
    StepInv(RunAll(w, actions[..i]), actions[i]);
    assert granted.store.row.attempts == NumberAt(w, actions, i);
    assert first + second == actions[..j];
    RunAllSplits(w, first, second);
    RunsLater(granted, second);
  }

  /** Refusals look alike in the row, and each is given exactly when it is the reason: a spent
      budget is never reported while a marker is set. */
  lemma RefusalIsExact(row: Booking, budget: int)
    requires !Grants(row, budget)
    ensures var refusal := RefusalOf(row.status, row.marker, row.attempts, budget);
            && (refusal.RefusedSettled? <==> Settled(row.status))
            && (refusal.RefusedOutstanding? <==> !Settled(row.status) && row.marker.Some?)
            && (refusal.RefusedBudget? <==> !Settled(row.status) && row.marker.None? && row.attempts >= budget)
  {
  }

  /** When Park calls a booking unreachable, at least the run's whole budget was authorized. */
  lemma UnreachableIsExact(identity: Identity, now: int, actions: seq<Action>, r: nat)
    requires var w := Reached(identity, now, actions);
             Enabled(w, CallUnreachable(r)) && Exec(w, CallUnreachable(r)).store != w.store
    ensures var w := Reached(identity, now, actions);
            var v := Exec(w, CallUnreachable(r));
            && w.store.row.status.Pending? && w.store.row.marker.None?
            && v.store.row.status.Failed? && v.store.row.failure == Some("supplier_unreachable")
            && w.store.row.attempts >= w.runs[r].budget
            && (forall i | 0 <= i < |w.calls| ::
                  w.calls[i].reply.Some? && w.calls[i].reply.value.Broken? && Silent(w.calls[i].wire))
  {
    Always(identity, now, actions);
    var w := Reached(identity, now, actions);
    assert DrivenAt(w.store.row, w.calls, w.runs[r]);
    forall i | 0 <= i < |w.calls|
      ensures w.calls[i].reply.Some? && w.calls[i].reply.value.Broken? && Silent(w.calls[i].wire)
    {
      assert AnsweredNotSent(w.calls[i]);
      VerdictMeans(w.calls[i].wire, w.calls[i].reply.value);
    }
    assert w.store.log + [] == w.store.log;
  }

  /** Under any interleaving a run that has come to park has its whole budget authorized, or some
      attempt out of doubt ended because its request could not be built. */
  lemma ParkingIsEarned(identity: Identity, now: int, actions: seq<Action>, r: nat)
    requires var w := Reached(identity, now, actions); r < |w.runs| && w.runs[r].phase.Parking?
    ensures var w := Reached(identity, now, actions);
            || w.store.row.attempts >= w.runs[r].budget
            || exists i | 0 <= i < |w.calls| ::
                 w.calls[i].from.Unknown? && w.calls[i].reply.Some? && w.calls[i].reply.value.BuildFailed?
  {
    Always(identity, now, actions);
    var w := Reached(identity, now, actions);
    assert DrivenAt(w.store.row, w.calls, w.runs[r]);
    if w.store.row.attempts < w.runs[r].budget {
      var i :| 0 <= i < |w.calls| && BuildBroke(w.calls[i]);
      assert w.calls[i].from.Unknown? && w.calls[i].reply.Some? && w.calls[i].reply.value.BuildFailed?;
    }
  }

  // ----- how much can ever happen to a booking -----

  /** Steps of a schedule that changed status, attempts or marker. */
  function Writes(w: World, actions: seq<Action>): nat {
    if actions == [] then 0 else
      Writes(w, actions[..|actions| - 1])
      + if Column(RunAll(w, actions).store.row) != Column(RunAll(w, actions[..|actions| - 1]).store.row) then 1 else 0
  }

  function Potential(row: Booking, budget: int): int {
    2 * (budget - row.attempts) + (if row.marker.Some? then 1 else 0) + (if Settled(row.status) then 0 else 1)
  }

  lemma StatementSpends(row: Booking, now: int, q: Statement, budget: int)
    requires RowShape(row) && Lawful(row, q)
    ensures var later := RowAfter(row, now, q);
            && Potential(later, budget) <= Potential(row, budget)
            && (Column(later) != Column(row) ==> Potential(later, budget) < Potential(row, budget))
  {
  }

  lemma {:induction false} WritesSpend(w: World, actions: seq<Action>, budget: int)
    requires Inv(w)
    ensures Writes(w, actions) + Potential(RunAll(w, actions).store.row, budget) <= Potential(w.store.row, budget)
  {
    if actions != [] {
      var before, a := RunAll(w, actions[..|actions| - 1]), actions[|actions| - 1];
      WritesSpend(w, actions[..|actions| - 1], budget);
      RunsLater(w, actions[..|actions| - 1]);
      if Enabled(before, a) {
        StepLawful(before, a);
        StatementSpends(before.store.row, before.now, StatementOf(before, a), budget);
      }
    }
  }

  /** A booking's whole life holds at most 2b + 1 writes to its status, attempts or marker, where
      b is the largest budget of any run that ever touched it. */
  lemma LifetimeWriteBound(identity: Identity, now: int, actions: seq<Action>)
    ensures Writes(Init(identity, now), actions) <= 2 * MaxBudget(Reached(identity, now, actions).runs) + 1
  {
    InitInv(identity, now);
    WritesSpend(Init(identity, now), actions, MaxBudget(Reached(identity, now, actions).runs));
    Always(identity, now, actions);
  }

  lemma RunAllOneMore(w: World, actions: seq<Action>, a: Action)
    ensures RunAll(w, actions + [a]) == Exec(RunAll(w, actions), a)
    ensures Writes(w, actions + [a]) == Writes(w, actions) +
              if Column(Exec(RunAll(w, actions), a).store.row) != Column(RunAll(w, actions).store.row) then 1 else 0
  {
  }

  /** Between turns: n attempts spent, none outstanding, the loop about to go on or to park. */
  predicate AfterTurns(w: World, budget: int, n: nat) {
    && w.runs == [Run(budget, AfterTurn(budget, n))]
    && |w.calls| == n == w.store.row.attempts && w.store.row.marker.None?
    && w.store.row.status == (if n == 0 then Received else Pending)
  }

  /** Inside a turn: the n-th attempt is authorized, and perhaps answered. */
  predicate MidTurn(w: World, budget: int, n: nat, phase: Phase, wire: seq<Wire>) {
    && w.runs == [Run(budget, phase)]
    && 1 <= n == |w.calls| == w.store.row.attempts
    && w.store.row.status.Pending? && w.store.row.marker == Some(n)
    && w.calls[n - 1].from.Pending? && w.calls[n - 1].wire == wire
  }

  lemma TurnOpens(w: World, budget: int, n: nat)
    requires 1 <= n <= budget && AfterTurns(w, budget, n - 1)
    ensures var v := Exec(w, AuthorizeFor(0));
            MidTurn(v, budget, n, Waiting(n, n), []) && v.calls[n - 1].live
  {
  }

  lemma TurnSends(w: World, budget: int, n: nat, wire: seq<Wire>, e: Wire)
    requires MidTurn(w, budget, n, Waiting(n, n), wire) && w.calls[n - 1].live
    requires e.Request? ==> Connected in wire
    ensures var v := Exec(w, OnWire(n, e));
            MidTurn(v, budget, n, Waiting(n, n), wire + [e]) && v.calls[n - 1].live
  {
  }

  lemma TurnAnswered(w: World, budget: int, n: nat, wire: seq<Wire>, reply: NetReply)
    requires MidTurn(w, budget, n, Waiting(n, n), wire) && w.calls[n - 1].live
    requires reply.Broken? && LooksUnsent(wire)
    ensures var u := Exec(w, Return(n, reply));
            var v := Exec(u, Deliver(0));
            && MidTurn(v, budget, n, Persisting(n, n), wire) && AnsweredNotSent(v.calls[n - 1])
            && u.store.row == w.store.row && v.store.row == w.store.row
  {
  }

  lemma TurnCloses(w: World, budget: int, n: nat, wire: seq<Wire>)
    requires n <= budget && MidTurn(w, budget, n, Persisting(n, n), wire) && AnsweredNotSent(w.calls[n - 1])
    ensures var u := Exec(w, Persist(n));
            var v := Exec(u, Acknowledge(0, false));
            && AfterTurns(v, budget, n) && u.store.row.marker.None? && v.store.row == u.store.row
            && v.calls == w.calls
  {
  }

  /** From the answer to the end of the turn. */
  function Ending(n: nat, reply: NetReply, before: seq<Action>): seq<Action> {
    before + [Return(n, reply)] + [Deliver(0)] + [Persist(n)] + [Acknowledge(0, false)]
  }

  lemma TurnEnds(i: World, before: seq<Action>, budget: int, n: nat, wire: seq<Wire>, reply: NetReply)
    requires MidTurn(RunAll(i, before), budget, n, Waiting(n, n), wire) && RunAll(i, before).calls[n - 1].live
    requires n <= budget && reply.Broken? && LooksUnsent(wire)
    ensures var w := RunAll(i, Ending(n, reply, before));
            && AfterTurns(w, budget, n) && w.calls[n - 1].wire == wire
            && Writes(i, Ending(n, reply, before)) == Writes(i, before) + 1
  {
    TurnAnswered(RunAll(i, before), budget, n, wire, reply);
    RunAllOneMore(i, before, Return(n, reply));
    var s1 := before + [Return(n, reply)];
    RunAllOneMore(i, s1, Deliver(0));
    var s2 := s1 + [Deliver(0)];
    TurnCloses(RunAll(i, s2), budget, n, wire);
    RunAllOneMore(i, s2, Persist(n));
    RunAllOneMore(i, s2 + [Persist(n)], Acknowledge(0, false));
  }

  lemma RunOpens(i: World, budget: int)
    requires 1 <= budget && i.runs == [] && i.calls == []
    requires i.store.row.attempts == 0 && i.store.row.marker.None? && i.store.row.status.Received?
    ensures var u := Exec(i, Start(budget));
            AfterTurns(Exec(u, Enter(0, false)), budget, 0) && u.store.row == i.store.row
  {
  }

  lemma Opening(i: World, budget: int) returns (actions: seq<Action>)
    requires 1 <= budget && i.runs == [] && i.calls == []
    requires i.store.row.attempts == 0 && i.store.row.marker.None? && i.store.row.status.Received?
    ensures AfterTurns(RunAll(i, actions), budget, 0) && Writes(i, actions) == 0 && RunAll(i, actions).now == i.now
  {
    RunOpens(i, budget);
    var none: seq<Action> := [];
    assert RunAll(i, none) == i && Writes(i, none) == 0;
    RunAllOneMore(i, none, Start(budget));
    RunAllOneMore(i, none + [Start(budget)], Enter(0, false));
    actions := none + [Start(budget)] + [Enter(0, false)];
  }

  lemma OneTurn(i: World, before: seq<Action>, budget: int, n: nat)
    requires 1 <= n <= budget && AfterTurns(RunAll(i, before), budget, n - 1)
    ensures var after := Ending(n, Broken("no route"), before + [AuthorizeFor(0)]);
            AfterTurns(RunAll(i, after), budget, n) && Writes(i, after) == Writes(i, before) + 2
  {
    TurnOpens(RunAll(i, before), budget, n);
    RunAllOneMore(i, before, AuthorizeFor(0));
    TurnEnds(i, before + [AuthorizeFor(0)], budget, n, [], Broken("no route"));
  }

  /** A single run whose first n attempts are all answered not-sent. */
  lemma {:induction false} NotSentTurns(i: World, budget: int, n: nat) returns (actions: seq<Action>)
    requires n <= budget && 1 <= budget && i.runs == [] && i.calls == []
    requires i.store.row.attempts == 0 && i.store.row.marker.None? && i.store.row.status.Received?
    ensures AfterTurns(RunAll(i, actions), budget, n) && Writes(i, actions) == 2 * n
  {
    if n == 0 {
      actions := Opening(i, budget);
    } else {
      var before := NotSentTurns(i, budget, n - 1);
      OneTurn(i, before, budget, n);
      actions := Ending(n, Broken("no route"), before + [AuthorizeFor(0)]);
    }
  }

  /** Parking after the last turn settles the booking, and changes no budget. */
  lemma ParkingSettles(w: World, budget: int)
    requires 1 <= budget && AfterTurns(w, budget, budget)
    ensures var v := Exec(w, CallUnreachable(0));
            && MaxBudget(v.runs) == budget && Column(v.store.row) != Column(w.store.row)
            && v.store.row.status.Failed? && v.calls == w.calls
  {
  }

  /** The bound is exact: every budget has a schedule that uses all of it. */
  lemma LifetimeWriteBoundIsReached(identity: Identity, now: int, budget: int)
    requires 1 <= budget
    ensures exists actions ::
              && MaxBudget(Reached(identity, now, actions).runs) == budget
              && Writes(Init(identity, now), actions) == 2 * budget + 1
  {
    var i := Init(identity, now);
    var actions := NotSentTurns(i, budget, budget);
    ParkingSettles(RunAll(i, actions), budget);
    RunAllOneMore(i, actions, CallUnreachable(0));
    assert Writes(Init(identity, now), actions + [CallUnreachable(0)]) == 2 * budget + 1;
  }

  /** The request leaves, the supplier redirects, and a second connection comes up. */
  lemma Redirected(i: World, budget: int, before: seq<Action>) returns (actions: seq<Action>)
    requires 1 <= budget && AfterTurns(RunAll(i, before), budget, 0)
    ensures var w := RunAll(i, actions);
            MidTurn(w, budget, 1, Waiting(1, 1), [Connected, Request(1), Connected]) && w.calls[0].live
  {
    TurnOpens(RunAll(i, before), budget, 1);
    RunAllOneMore(i, before, AuthorizeFor(0));
    var s1 := before + [AuthorizeFor(0)];
    TurnSends(RunAll(i, s1), budget, 1, [], Connected);
    RunAllOneMore(i, s1, OnWire(1, Connected));
    var s2 := s1 + [OnWire(1, Connected)];
    TurnSends(RunAll(i, s2), budget, 1, [Connected], Request(1));
    RunAllOneMore(i, s2, OnWire(1, Request(1)));
    var s3 := s2 + [OnWire(1, Request(1))];
    TurnSends(RunAll(i, s3), budget, 1, [Connected, Request(1)], Connected);
    RunAllOneMore(i, s3, OnWire(1, Connected));
    actions := s3 + [OnWire(1, Connected)];
  }

  lemma InitIsFresh(identity: Identity, now: int)
    ensures var i := Init(identity, now);
            && i.runs == [] && i.calls == []
            && i.store.row.attempts == 0 && i.store.row.marker.None? && i.store.row.status.Received?
  {
  }

  lemma RedirectLooksUnsent()
    ensures var wire := [Connected, Request(1), Connected];
            RequestBytes(wire) == 1 && LooksUnsent(wire)
  {
    var wire := [Connected, Request(1), Connected];
    assert wire[..2] == [Connected, Request(1)] && wire[..1] == [Connected];
    assert [Connected, Request(1)][..1] == [Connected] && [Connected][..0] == [];
  }

  /** The transport behaviour HonestFailure sets aside does break the promise: the attempt reads
      as not sent, and a run with a budget of one settles the booking Failed. */
  lemma RedirectBreaksHonesty(identity: Identity, now: int)
    ensures exists actions ::
              var w := Reached(identity, now, actions);
              && w.store.row.status.Failed? && |w.calls| == 1
              && w.calls[0].wire == [Connected, Request(1), Connected]
              && RequestBytes(w.calls[0].wire) == 1
  {
    var i := Init(identity, now);
    InitIsFresh(identity, now);
    var wire := [Connected, Request(1), Connected];
    hide RequestBytes, LooksUnsent, Exec, RunAll;
    RedirectLooksUnsent();
    var start := Opening(i, 1);
    var sent := Redirected(i, 1, start);
    TurnEnds(i, sent, 1, 1, wire, Broken("reset"));
    var actions := Ending(1, Broken("reset"), sent);
    ParkingSettles(RunAll(i, actions), 1);
    RunAllOneMore(i, actions, CallUnreachable(0));
    assert Reached(identity, now, actions + [CallUnreachable(0)]).calls[0].wire == wire;
  }
}

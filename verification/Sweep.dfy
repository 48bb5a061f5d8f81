/** Which bookings the sweep restarts, and the configuration that keeps it off live ones
    (internal/repository/booking/repository.go FindStale, config/config.go). Times and durations
    are whole nanoseconds; the query truncates its thresholds to milliseconds. */
module Sweep {
  import opened Dates
  import opened Bookings
  import opened Protocol
  import opened Invariant
  import opened Guarantees
  import Workflow

  const MILLISECOND := 1_000_000

  /** How long since its last write a booking must be, by what state it is in. */
  datatype Thresholds = Thresholds(marker: nat, received: nat, idle: nat)

  function Truncated(d: nat): nat {
    d / MILLISECOND * MILLISECOND
  }

  predicate Quiet(row: Booking, now: int, age: nat) {
    row.updatedAt < now - Truncated(age)
  }

  /** FindStale's WHERE clause. */
  predicate Eligible(row: Booking, now: int, t: Thresholds) {
    && (row.status.Received? || row.status.Pending? || row.status.Unknown?)
    && !(row.flagged && row.status.Unknown? && row.marker.None?)
    && (|| (row.marker.Some? && Quiet(row, now, t.marker))
        || (row.status.Received? && Quiet(row, now, t.received))
        || (!row.status.Received? && row.marker.None? && Quiet(row, now, t.idle)))
  }

  /** How long a booking in need of attention waits for it: by its marker if it holds one, and short
      of a whole millisecond. */
  function Wait(row: Booking, t: Thresholds): nat {
    var age := if row.marker.Some? then t.marker else if row.status.Received? then t.received else t.idle;
    age - age % 1_000_000
  }

  /** Coverage: every booking becomes eligible once its wait since its last write is over, except
      exactly those a finished run may leave behind, which never do. */
  lemma SweepCoverage(row: Booking, t: Thresholds)
    requires RowShape(row)
    ensures if Workflow.Converged(row)
            then forall now :: !Eligible(row, now, t)
            else forall now :: Eligible(row, now, t) <==> now > row.updatedAt + Wait(row, t)
  {
  }

  /** No reachable booking is swept while its marker is younger than `hold`. */
  ghost predicate NeverSweptEarly(t: Thresholds, hold: nat) {
    forall identity, now, actions ::
      var w := Reached(identity, now, actions);
      w.store.row.marker.Some? && 1 <= w.store.row.marker.value <= |w.calls|
      && w.now < w.calls[w.store.row.marker.value - 1].at + hold
      ==> !Eligible(w.store.row, w.now, t)
  }

  /** A run that has just authorized its first attempt, and then waits. */
  lemma Waiting(identity: Identity, now: int, wait: nat) returns (actions: seq<Action>)
    ensures var w := Reached(identity, now, actions);
            && w.store.row.marker == Some(1) && |w.calls| == 1 && w.store.row.status.Pending?
            && w.now == now + wait && w.calls[0].at == now && w.store.row.updatedAt == now
  {
    var i := Init(identity, now);
    var start := Opening(i, 1);
    TurnOpens(RunAll(i, start), 1, 1);
    RunAllOneMore(i, start, AuthorizeFor(0));
    RunAllOneMore(i, start + [AuthorizeFor(0)], Tick(wait));
    actions := start + [AuthorizeFor(0)] + [Tick(wait)];
  }

  /** Restraint, exactly: the truncated threshold must cover the hold. */
  lemma NeverSweptEarlyIff(t: Thresholds, hold: nat)
    requires hold >= 1
    ensures NeverSweptEarly(t, hold) <==> Truncated(t.marker) >= hold - 1
  {
    if Truncated(t.marker) >= hold - 1 {
      forall identity, now, actions
        ensures var w := Reached(identity, now, actions);
                w.store.row.marker.Some? && 1 <= w.store.row.marker.value <= |w.calls|
                && w.now < w.calls[w.store.row.marker.value - 1].at + hold
                ==> !Eligible(w.store.row, w.now, t)
      {
        Always(identity, now, actions);
      }
    } else {
      var identity := Identity("", "", "", "", "", Stay("", "", Date(0, 1, 1), Date(0, 1, 1), "", ""));
      var actions := Waiting(identity, 0, hold - 1);
      assert Eligible(Reached(identity, 0, actions).store.row, hold - 1, t);
    }
  }

  // ----- configuration -----

  datatype Config = Config(
    supplierDeadline: int, parkTimeout: int, createRetryDelay: int, sweepInterval: int,
    markerThreshold: int, receivedThreshold: int, idleThreshold: int,
    shutdownTimeout: int, persistWindow: int, workerRetryInterval: int,
    createAttempts: int)

  const BACKSTOP := 15_000_000_000

  /** The longest an attempt activity may take, the supplier's deadline included. */
  function ActivityStartToClose(c: Config): int {
    c.supplierDeadline + BACKSTOP
  }

  function Durations(c: Config): seq<int> {
    [c.supplierDeadline, c.parkTimeout, c.createRetryDelay, c.sweepInterval, c.markerThreshold,
     c.receivedThreshold, c.idleThreshold, c.shutdownTimeout, c.persistWindow, c.workerRetryInterval]
  }

  /** How long a live attempt may legitimately hold its marker, with the sweep's own margin. */
  function Hold(c: Config): int {
    ActivityStartToClose(c) + c.persistWindow + 5 * c.sweepInterval
  }

  /** What the process demands of its configuration, in nanoseconds. */
  predicate Usable(c: Config) {
    && c.supplierDeadline > 0 && c.parkTimeout > 0 && c.createRetryDelay > 0 && c.sweepInterval > 0
    && c.markerThreshold > 0 && c.receivedThreshold > 0 && c.idleThreshold > 0
    && c.shutdownTimeout > 0 && c.persistWindow > 0 && c.workerRetryInterval > 0
    && c.createAttempts >= 1
    && c.shutdownTimeout > c.supplierDeadline
    && c.persistWindow > c.supplierDeadline + 15_000_000_000
    && c.markerThreshold > c.supplierDeadline + 15_000_000_000 + c.persistWindow + 5 * c.sweepInterval
  }

  lemma DurationsAre(c: Config)
    ensures (forall i | 0 <= i < |Durations(c)| :: Durations(c)[i] > 0) <==>
              && c.supplierDeadline > 0 && c.parkTimeout > 0 && c.createRetryDelay > 0 && c.sweepInterval > 0
              && c.markerThreshold > 0 && c.receivedThreshold > 0 && c.idleThreshold > 0
              && c.shutdownTimeout > 0 && c.persistWindow > 0 && c.workerRetryInterval > 0
  {
    var d := Durations(c);
    if forall i | 0 <= i < |d| :: d[i] > 0 {
      assert d[0] > 0 && d[1] > 0 && d[2] > 0 && d[3] > 0 && d[4] > 0;
      assert d[5] > 0 && d[6] > 0 && d[7] > 0 && d[8] > 0 && d[9] > 0;
    }
  }

  /** Counts what would be reported at startup. */
  method Validate(c: Config) returns (errors: nat)
    ensures errors == 0 <==> Usable(c)
  {
    var positive := Durations(c);
    DurationsAre(c);
    errors := 0;
    for i := 0 to |positive|
      invariant errors == 0 <==> forall k | 0 <= k < i :: positive[k] > 0
    {
      if positive[i] <= 0 {
        errors := errors + 1;
      }
    }
    if c.createAttempts < 1 {
      errors := errors + 1;
    }
    if c.shutdownTimeout <= c.supplierDeadline {
      errors := errors + 1;
    }
    if c.persistWindow <= ActivityStartToClose(c) {
      errors := errors + 1;
    }
    if c.markerThreshold <= Hold(c) {
      errors := errors + 1;
    }
  }

  function ThresholdsOf(c: Config): Thresholds
    requires Usable(c)
  {
    Thresholds(c.markerThreshold, c.receivedThreshold, c.idleThreshold)
  }

  /** The owner of a marker set at `at` may still be calling, or persisting what it was told: its
      activity has its own limit, then the persist waits `latency` in the queue, then retries. */
  predicate OwnerMayBeAlive(c: Config, at: int, now: int, latency: nat) {
    now <= at + ActivityStartToClose(c) + latency + c.persistWindow
  }

  predicate WholeMilliseconds(d: int) {
    d % MILLISECOND == 0
  }

  /** A configuration the process accepts, in whole milliseconds, never sweeps a live attempt as
      long as the queue's latency stays under five sweep intervals. */
  lemma LiveAttemptsAreNotSwept(c: Config, identity: Identity, now: int, actions: seq<Action>, latency: nat)
    requires Usable(c) && WholeMilliseconds(c.markerThreshold) && latency < 5 * c.sweepInterval
    requires var w := Reached(identity, now, actions);
             && w.store.row.marker.Some? && 1 <= w.store.row.marker.value <= |w.calls|
             && OwnerMayBeAlive(c, w.calls[w.store.row.marker.value - 1].at, w.now, latency)
    ensures !Eligible(Reached(identity, now, actions).store.row, Reached(identity, now, actions).now, ThresholdsOf(c))
  {
    Always(identity, now, actions);
    assert Truncated(c.markerThreshold) == c.markerThreshold;
  }

  /** Finer than a millisecond, an accepted configuration can sweep a live attempt: the startup
      check compares nanoseconds and the query truncates them. */
  lemma SubMillisecondsAreNotCovered()
    ensures exists c: Config :: Usable(c) && Hold(c) >= 1 && !NeverSweptEarly(ThresholdsOf(c), Hold(c))
  {
    var c := Config(1, 1, 1, 1, 31_000_999_999, 1, 1, 2, 16_000_999_992, 1, 1);
    assert Usable(c) && Hold(c) == 31_000_999_998;
    NeverSweptEarlyIff(ThresholdsOf(c), Hold(c));
  }
}

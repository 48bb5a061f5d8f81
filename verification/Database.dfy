/** The database as one actor sees it while every other actor is at work.

    An actor handles one booking. Each round trip first lets the others take any steps they like,
    then runs the actor's statement, and may fail on the way there or on the way back. The tape
    says what happens, and nothing is assumed about it: a contract that holds for every tape holds
    for every interleaving and every pattern of failures. An empty tape is an undisturbed actor. */
module Database {
  import opened Bookings
  import opened Statements
  import opened Protocol
  import opened Invariant
  import opened Evolution
  import Guarantees

  datatype Fault =
    | Clean
    | NeverArrived // the statement did not run
    | NoReply      // it ran, and its acknowledgement was lost

  datatype Slot = Slot(others: seq<Action>, fault: Fault)

  /** What the i-th round trip from here meets. */
  function At(tape: seq<Slot>, i: nat): Slot {
    if i < |tape| then tape[i] else Slot([], Clean)
  }

  function Rest(tape: seq<Slot>, n: nat): (rest: seq<Slot>)
    ensures forall i: nat :: At(rest, i) == At(tape, n + i)
  {
    if n <= |tape| then tape[n..] else []
  }

  predicate Faultless(tape: seq<Slot>) {
    forall i | 0 <= i < |tape| :: tape[i].fault.Clean?
  }

  /** Nobody else acts. */
  predicate Solo(tape: seq<Slot>) {
    forall i | 0 <= i < |tape| :: tape[i].others == []
  }

  /** Nobody else acts, and a statement that runs is acknowledged. Statements may still not run. */
  predicate Quiet(tape: seq<Slot>) {
    Solo(tape) && forall i | 0 <= i < |tape| :: !tape[i].fault.NoReply?
  }

  /** How many round trips still have to fail. */
  function Faults(tape: seq<Slot>): nat {
    if tape == [] then 0 else (if tape[0].fault.Clean? then 0 else 1) + Faults(tape[1..])
  }

  /** Going on along a tape brings nothing worse than the tape had. */
  predicate NoWorse(was: seq<Slot>, tape: seq<Slot>) {
    && (Faultless(was) ==> Faultless(tape)) && (Solo(was) ==> Solo(tape)) && (Quiet(was) ==> Quiet(tape))
    && Faults(tape) <= Faults(was)
  }

  lemma QuietIsSolo(tape: seq<Slot>)
    ensures Quiet(tape) ==> Solo(tape)
  {
  }

  lemma RestIsNoWorse(tape: seq<Slot>)
    ensures NoWorse(tape, Rest(tape, 1))
    ensures !At(tape, 0).fault.Clean? ==> Faults(Rest(tape, 1)) < Faults(tape)
    ensures Faultless(tape) ==> At(tape, 0).fault.Clean?
    ensures Solo(tape) ==> At(tape, 0).others == []
    ensures Quiet(tape) ==> At(tape, 0).others == [] && !At(tape, 0).fault.NoReply?
  {
  }

  /** The steps only a run's own workflow takes. Its activities may also run late elsewhere. */
  predicate Drives(a: Action, me: Option<nat>) {
    match a
    case Enter(r, _) => me == Some(r)
    case AuthorizeFor(r) => me == Some(r)
    case Deliver(r) => me == Some(r)
    case Acknowledge(r, _) => me == Some(r)
    case Leave(r) => me == Some(r)
    case _ => false
  }

  /** The steps of a schedule that are others' to take. */
  function Foreign(me: Option<nat>, actions: seq<Action>): seq<Action> {
    if actions == [] then [] else
      Foreign(me, actions[..|actions| - 1])
      + if Drives(actions[|actions| - 1], me) then [] else [actions[|actions| - 1]]
  }

  function Others(w: World, me: Option<nat>, actions: seq<Action>): World {
    RunAll(w, Foreign(me, actions))
  }

  /** Only the steps that are this actor's own are kept from the others. */
  lemma {:induction false} OthersTakeTheirSteps(me: Option<nat>, actions: seq<Action>)
    requires forall a | a in actions ::
               a.Enter? || a.AuthorizeFor? || a.Deliver? || a.Acknowledge? || a.Leave? ==> me != Some(a.run)
    ensures Foreign(me, actions) == actions
  {
    if actions != [] {
      var init, a := actions[..|actions| - 1], actions[|actions| - 1];
      OthersTakeTheirSteps(me, init);
      assert !Drives(a, me);
      assert Foreign(me, actions) == init + [a] == actions;
    }
  }

  lemma NobodyActs(w: World, me: Option<nat>)
    ensures Others(w, me, []) == w
  {
  }

  /** What an actor may rely on across a round trip. */
  predicate Evolved(w: World, v: World, me: Option<nat>) {
    && Inv(v)
    && Later(w, v)
    && (me.Some? && me.value < |w.runs| ==> me.value < |v.runs| && v.runs[me.value] == w.runs[me.value])
  }

  lemma EvolvedTransitive(u: World, v: World, w: World, me: Option<nat>)
    requires Evolved(u, v, me) && Evolved(v, w, me)
    ensures Evolved(u, w, me)
  {
  }

  lemma EvolvedIsLater(w: World, v: World, me: Option<nat>)
    requires Evolved(w, v, me)
    ensures Inv(v) && Later(w, v)
    ensures me.Some? && me.value < |w.runs| ==> me.value < |v.runs| && v.runs[me.value] == w.runs[me.value]
  {
  }

  lemma PhaseIsOwn(w: World, a: Action, r: nat)
    requires r < |w.runs| && !Drives(a, Some(r))
    ensures Exec(w, a).runs[r] == w.runs[r]
  {
  }

  lemma ExecEvolves(w: World, a: Action, me: Option<nat>)
    requires Inv(w)
    ensures Inv(Exec(w, a)) && Later(w, Exec(w, a))
    ensures !Drives(a, me) ==> Evolved(w, Exec(w, a), me)
  {
    StepInv(w, a);
    StepLater(w, a);
    if me.Some? && me.value < |w.runs| && !Drives(a, me) {
      PhaseIsOwn(w, a, me.value);
    }
  }

  lemma {:induction false} OthersEvolve(w: World, me: Option<nat>, actions: seq<Action>)
    requires Inv(w)
    ensures Evolved(w, Others(w, me, actions), me)
  {
    if actions == [] {
      LaterSame(w);
    } else {
      var init, a := actions[..|actions| - 1], actions[|actions| - 1];
      OthersEvolve(w, me, init);
      if !Drives(a, me) {
        var before := Others(w, me, init);
        RunAllOne(w, Foreign(me, init), a);
        ExecEvolves(before, a, me);
        EvolvedTransitive(w, before, Exec(before, a), me);
      } else {
        assert Foreign(me, actions) == Foreign(me, init);
      }
    }
  }

  /** The steps an actor takes by sending a statement. */
  predicate Issuable(a: Action, me: Option<nat>) {
    match a
    case Idle => true
    case Resolve => true
    case AuthorizeFor(r) => me == Some(r)
    case Persist(_) => true
    case CallUnreachable(_) => true
    case ParkDoubt => true
    case CallbackWrite(_, _) => true
    case Refuse(_) => true
    case RaiseFlag => true
    case _ => false
  }

  predicate Issues(w: World, a: Action, q: Statement, me: Option<nat>) {
    Issuable(a, me) && Enabled(w, a) && StatementOf(w, a) == q
  }

  /** A statement an actor was entitled to send stays the right one whatever others did first. */
  lemma IssuesStays(w: World, v: World, a: Action, q: Statement, me: Option<nat>)
    requires Evolved(w, v, me) && Issues(w, a, q, me)
    ensures Issues(v, a, q, me)
  {
  }

  lemma SameIdentity(w: World, v: World)
    requires Later(w, v)
    ensures v.store.row.identity == w.store.row.identity && |w.runs| <= |v.runs|
  {
  }

  lemma RoundTrip(w: World, seen: World, a: Action, q: Statement, me: Option<nat>, actions: seq<Action>)
    requires Inv(w) && Issues(w, a, q, me) && seen == Others(w, me, actions)
    requires me.Some? ==> me.value < |w.runs|
    ensures Evolved(w, seen, me) && Issues(seen, a, q, me)
    ensures Inv(Exec(seen, a)) && Later(seen, seen) && Later(seen, Exec(seen, a)) && Later(w, Exec(seen, a))
    ensures !Drives(a, me) ==> Evolved(w, Exec(seen, a), me)
    ensures me.Some? ==> me.value < |seen.runs| <= |Exec(seen, a).runs|
    ensures w.store.row.identity == seen.store.row.identity == Exec(seen, a).store.row.identity
  {
    OthersEvolve(w, me, actions);
    IssuesStays(w, seen, a, q, me);
    LaterSame(seen);
    ExecEvolves(seen, a, me);
    LaterTransitive(w, seen, Exec(seen, a));
    SameIdentity(w, seen);
    SameIdentity(seen, Exec(seen, a));
  }

  // ----- the trace an actor leaves -----

  /** One step of the protocol, and whether it was this actor's. */
  datatype Mark = Mark(action: Action, mine: bool)

  function Actions(trace: seq<Mark>): (actions: seq<Action>)
    ensures |actions| == |trace| && forall i | 0 <= i < |trace| :: actions[i] == trace[i].action
  {
    seq(|trace|, i requires 0 <= i < |trace| => trace[i].action)
  }

  function Theirs(actions: seq<Action>): (trace: seq<Mark>)
    ensures |actions| == |trace| && forall i | 0 <= i < |trace| :: trace[i] == Mark(actions[i], false)
  {
    seq(|actions|, i requires 0 <= i < |actions| => Mark(actions[i], false))
  }

  function StoreAfter(origin: World, trace: seq<Mark>): Store {
    RunAll(origin, Actions(trace)).store
  }

  /** How many of this actor's own steps changed the row. */
  function OwnWrites(origin: World, trace: seq<Mark>): nat {
    if trace == [] then 0 else
      var before := trace[..|trace| - 1];
      OwnWrites(origin, before)
      + if trace[|trace| - 1].mine && StoreAfter(origin, trace).row != StoreAfter(origin, before).row then 1 else 0
  }

  /** How many of this actor's own steps appended to the lineage. */
  function OwnEntries(origin: World, trace: seq<Mark>): nat {
    if trace == [] then 0 else
      var before := trace[..|trace| - 1];
      OwnEntries(origin, before)
      + if trace[|trace| - 1].mine && StoreAfter(origin, trace).log != StoreAfter(origin, before).log then 1 else 0
  }

  /** How many of this actor's own steps were something happening on a supplier call's wire. */
  function OwnSends(trace: seq<Mark>): nat {
    if trace == [] then 0 else
      OwnSends(trace[..|trace| - 1])
      + if trace[|trace| - 1].mine && trace[|trace| - 1].action.OnWire? then 1 else 0
  }

  lemma {:induction false} TheirsAreNotOwn(origin: World, trace: seq<Mark>, actions: seq<Action>)
    ensures RunAll(origin, Actions(trace + Theirs(actions))) == RunAll(RunAll(origin, Actions(trace)), actions)
    ensures OwnWrites(origin, trace + Theirs(actions)) == OwnWrites(origin, trace)
    ensures OwnEntries(origin, trace + Theirs(actions)) == OwnEntries(origin, trace)
    ensures OwnSends(trace + Theirs(actions)) == OwnSends(trace)
  {
    hide RunAll;
    var longer := trace + Theirs(actions);
    assert Actions(longer) == Actions(trace) + actions;
    RunAllSplits(origin, Actions(trace), actions);
    if actions == [] {
      assert longer == trace;
    } else {
      TheirsAreNotOwn(origin, trace, actions[..|actions| - 1]);
      assert longer[..|longer| - 1] == trace + Theirs(actions[..|actions| - 1]);
    }
  }

  lemma TheirSteps(origin: World, trace: seq<Mark>, w: World, me: Option<nat>, others: seq<Action>)
    requires w == RunAll(origin, Actions(trace))
    ensures var longer := trace + Theirs(Foreign(me, others));
            && RunAll(origin, Actions(longer)) == Others(w, me, others)
            && OwnWrites(origin, longer) == OwnWrites(origin, trace)
            && OwnEntries(origin, longer) == OwnEntries(origin, trace)
            && OwnSends(longer) == OwnSends(trace)
  {
    TheirsAreNotOwn(origin, trace, Foreign(me, others));
  }

  lemma OneMoreOwn(origin: World, trace: seq<Mark>, a: Action)
    ensures var w := RunAll(origin, Actions(trace));
            var (v, longer) := (Exec(w, a), trace + [Mark(a, true)]);
            && RunAll(origin, Actions(longer)) == v
            && OwnWrites(origin, longer) == OwnWrites(origin, trace) + (if v.store.row != w.store.row then 1 else 0)
            && OwnEntries(origin, longer) == OwnEntries(origin, trace) + (if v.store.log != w.store.log then 1 else 0)
            && OwnSends(longer) == OwnSends(trace) + (if a.OnWire? then 1 else 0)
  {
    var longer := trace + [Mark(a, true)];
    assert longer[..|longer| - 1] == trace;
    assert Actions(longer) == Actions(trace) + [a];
    RunAllOne(origin, Actions(trace), a);
  }

  lemma NoStatementIsOnTheWire(a: Action, me: Option<nat>)
    ensures Issuable(a, me) ==> !a.OnWire?
  {
  }

  class Db {
    const me: Option<nat>  // the run this actor is the workflow of, if it is one
    const id: string       // the booking it was given
    const known: bool      // whether a booking with that id exists
    var world: World
    var tape: seq<Slot>
    ghost const origin: World
    ghost var trace: seq<Mark> // every step since the origin, this actor's marked

    /** The booking is where the protocol's steps took it. */
    ghost predicate Traced()
      reads this
    {
      Inv(origin) && world == RunAll(origin, Actions(trace))
    }

    ghost predicate Valid()
      reads this
    {
      && Inv(world)
      && (me.Some? ==> me.value < |world.runs|)
      && (known ==> world.store.row.identity.id == id)
      && Traced()
    }

    ghost function Writes(): nat
      reads this
    {
      OwnWrites(origin, trace)
    }

    ghost function Entries(): nat
      reads this
    {
      OwnEntries(origin, trace)
    }

    ghost function Sends(): nat
      reads this
    {
      OwnSends(trace)
    }

    /** The booking went on from an earlier state the way this actor may rely on. */
    ghost predicate Keeps(was: World, tapeWas: seq<Slot>, traceWas: seq<Mark>)
      reads this
    {
      && Valid()
      && Evolved(was, world, me)
      && NoWorse(tapeWas, tape)
      && traceWas <= trace
    }

    constructor (me: Option<nat>, id: string, known: bool, world: World, tape: seq<Slot>,
                 ghost origin: World, ghost trace: seq<Mark>)
      requires Inv(world) && (me.Some? ==> me.value < |world.runs|)
      requires known ==> world.store.row.identity.id == id
      requires Inv(origin) && world == RunAll(origin, Actions(trace))
      ensures Valid() && this.me == me && this.id == id && this.known == known && this.world == world
      ensures this.tape == tape && this.origin == origin && this.trace == trace
    {
      this.me, this.id, this.known, this.world, this.tape := me, id, known, world, tape;
      this.origin, this.trace := origin, trace;
    }

    /** One round trip. `seen` is the booking at the moment the statement ran. */
    method Query(q: Statement, a: Action) returns (r: Reply, ghost seen: World)
      requires Valid()
      requires known ==> Issues(world, a, q, me)
      modifies this
      ensures Valid() && old(trace) <= trace
      ensures tape == Rest(old(tape), 1) && NoWorse(old(tape), tape)
      ensures old(Faultless(tape)) ==> !r.Lost?
      ensures r.Lost? ==> Faults(tape) < Faults(old(tape))
      ensures old(Solo(tape)) ==> seen == old(world)
      ensures old(Quiet(tape)) && r.Lost? ==> world == old(world)
      ensures !known ==> world == old(world) && (r.NoRow? || r.Lost?)
      ensures !known ==> Writes() <= old(Writes()) && Entries() <= old(Entries())
      ensures Sends() == old(Sends())
      ensures known ==>
                var slot := At(old(tape), 0);
                && seen == Others(old(world), me, slot.others)
                && world == (if slot.fault.NeverArrived? then seen else Exec(seen, a))
                && (r.Lost? <==> !slot.fault.Clean?)
                && (!r.Lost? ==> r == ReplyTo(seen.store.row, q) && world == Exec(seen, a))
                && Writes() == old(Writes()) + (if world.store.row != seen.store.row then 1 else 0)
                && Entries() == old(Entries()) + (if world.store.log != seen.store.log then 1 else 0)
      ensures known ==>
                && Evolved(old(world), seen, me)
                && Issues(seen, a, q, me)
                && Later(old(world), world) && Later(seen, world)
                && (!Drives(a, me) ==> Evolved(old(world), world, me))
    {
      hide Inv, Later, Evolved, Exec, Issues, RunAll, Others, Foreign, Actions, Theirs, OwnWrites, OwnEntries, OwnSends;
      hide Faultless, Solo, Quiet, NoWorse, Rest, At, ReplyTo, Drives;
      RestIsNoWorse(tape);
      NobodyActs(world, me);
      var slot := At(tape, 0);
      tape := Rest(tape, 1);
      seen := world;
      if !known {
        return if slot.fault.Clean? then NoRow else Lost, seen;
      }
      seen := Others(world, me, slot.others);
      RoundTrip(world, seen, a, q, me, slot.others);
      TheirSteps(origin, trace, world, me, slot.others);
      world, trace := Others(world, me, slot.others), trace + Theirs(Foreign(me, slot.others));
      if slot.fault.NeverArrived? {
        return Lost, seen;
      }
      OneMoreOwn(origin, trace, a);
      NoStatementIsOnTheWire(a, me);
      r := ReplyTo(world.store.row, q);
      world, trace := Exec(world, a), trace + [Mark(a, true)];
      if slot.fault.NoReply? {
        r := Lost;
      }
    }

    /** A step of this actor's that sends nothing to the database. */
    method Note(a: Action)
      requires Valid()
      requires Enabled(world, a) && StatementOf(world, a).Select?
      modifies this`world, this`trace
      ensures Valid() && world == Exec(old(world), a) && Later(old(world), world)
      ensures world.store == old(world).store && old(trace) <= trace
      ensures Sends() == old(Sends()) + (if a.OnWire? then 1 else 0)
    {
      hide Inv, RunAll, OwnSends, OwnWrites, OwnEntries;
      ExecEvolves(world, a, me);
      SameIdentity(world, Exec(world, a));
      assert world.store.log + [] == world.store.log;
      OneMoreOwn(origin, trace, a);
      world, trace := Exec(world, a), trace + [Mark(a, true)];
    }
  }

  /** What is proved of every schedule holds of whatever an actor took part in: every method here and
      above only ever extends the trace, and the trace leads to the booking it leaves. */
  lemma LifetimeOfTrace(db: Db, identity: Identity, now: int)
    requires db.Valid() && db.origin == Init(identity, now)
    ensures Guarantees.Writes(db.origin, Actions(db.trace)) <= 2 * MaxBudget(db.world.runs) + 1
    ensures db.world == Guarantees.Reached(identity, now, Actions(db.trace))
  {
    Guarantees.LifetimeWriteBound(identity, now, Actions(db.trace));
  }
}

/** Creating bookings (internal/service/booking/service.go, Create and replay; InsertOrLoad in
    internal/repository/booking/repository.go) over the whole bookings table. */
module Create {
  import opened Statuses
  import opened Bookings
  import opened Protocol
  import opened Invariant
  import opened Evolution
  import opened Database
  import opened Repository
  import opened Fingerprint
  import opened Ambiguity
  import SupplierKey

  /** Every booking in the table, by id, with all that acts on it. */
  type Table = map<string, World>

  datatype TableAction = On(id: string, action: Action) | Insert(identity: Identity, now: int)

  function KeyFor(i: Identity): (string, string) {
    (i.distributor, i.key)
  }

  function IdentityOf(w: World): Identity {
    w.store.row.identity
  }

  predicate Holds(t: Table, id: string, key: (string, string)) {
    id in t && KeyFor(IdentityOf(t[id])) == key
  }

  /** UNIQUE (distributor_id, idempotency_key). */
  predicate KeyTaken(t: Table, key: (string, string)) {
    exists id | id in t :: Holds(t, id, key)
  }

  function StayOf(r: CreateRequest): Stay {
    Stay(r.property, r.room, r.checkIn, r.checkOut, r.firstName, r.lastName)
  }

  /** The request a booking was made by. */
  function RequestOf(i: Identity): CreateRequest {
    CreateRequest(i.distributor, i.key, i.stay.property, i.stay.room, i.stay.checkIn, i.stay.checkOut,
                  i.stay.firstName, i.stay.lastName)
  }

  /** A booking carries the fingerprint of its own fields. */
  predicate Made(i: Identity) {
    i.fingerprint == Canonical(RequestOf(i))
  }

  /** The insert lands unless it conflicts: on the key, where it does nothing, or on the id, where
      the statement fails. Only bookings that carry their own fingerprint are ever inserted. */
  predicate Inserts(t: Table, i: Identity) {
    SupplierKey.Canonical(i.id) && Made(i) && i.id !in t && !KeyTaken(t, KeyFor(i))
  }

  function TableExec(t: Table, a: TableAction): Table {
    match a
    case On(id, action) => if id in t then t[id := Exec(t[id], action)] else t
    case Insert(i, now) => if Inserts(t, i) then t[i.id := Init(i, now)] else t
  }

  function TableRun(t: Table, actions: seq<TableAction>): Table {
    if actions == [] then t else TableExec(TableRun(t, actions[..|actions| - 1]), actions[|actions| - 1])
  }

  ghost predicate Unique(t: Table) {
    forall a, b, key :: Holds(t, a, key) && Holds(t, b, key) ==> a == b
  }

  predicate Sound(t: Table) {
    forall id | id in t ::
      Inv(t[id]) && IdentityOf(t[id]).id == id && SupplierKey.Canonical(id) && Made(IdentityOf(t[id]))
  }

  ghost predicate TableInv(t: Table) {
    Unique(t) && Sound(t)
  }

  /** Rows are never deleted, keep their identity, and evolve as the protocol says. */
  predicate TableLater(t: Table, u: Table) {
    forall id | id in t :: id in u && Later(t[id], u[id])
  }

  lemma IdentityKept(w: World, v: World)
    requires Later(w, v)
    ensures IdentityOf(v) == IdentityOf(w)
  {
  }

  lemma UniqueKept(t: Table, u: Table, a: TableAction)
    requires Unique(t) && u == TableExec(t, a)
    requires forall id | id in t :: id in u && IdentityOf(u[id]) == IdentityOf(t[id])
    ensures Unique(u)
  {
    forall x, y, key | Holds(u, x, key) && Holds(u, y, key)
      ensures x == y
    {
      assert x in t ==> Holds(t, x, key);
      assert y in t ==> Holds(t, y, key);
    }
  }

  lemma TableStep(t: Table, a: TableAction)
    requires TableInv(t)
    ensures TableInv(TableExec(t, a)) && TableLater(t, TableExec(t, a))
  {
    hide Inv, Later, Exec, Made, SupplierKey.Canonical;
    var u := TableExec(t, a);
    forall id | id in t
      ensures id in u && Later(t[id], u[id])
    {
      LaterSame(t[id]);
      if a.On? && a.id == id {
        StepLater(t[id], a.action);
      }
    }
    forall id | id in u
      ensures Inv(u[id]) && IdentityOf(u[id]).id == id && SupplierKey.Canonical(id) && Made(IdentityOf(u[id]))
      ensures id in t ==> IdentityOf(u[id]) == IdentityOf(t[id])
    {
      if id in t {
        IdentityKept(t[id], u[id]);
      }
      if a.On? && a.id == id {
        StepInv(t[id], a.action);
      } else if a.Insert? && a.identity.id == id && id !in t {
        InitInv(a.identity, a.now);
      }
    }
    UniqueKept(t, u, a);
  }

  lemma TableLaterSame(t: Table)
    requires TableInv(t)
    ensures TableLater(t, t)
  {
    hide Inv, Later, Made, SupplierKey.Canonical;
    forall id | id in t
      ensures Later(t[id], t[id])
    {
      LaterSame(t[id]);
    }
  }

  lemma TableLaterTransitive(t: Table, u: Table, v: Table)
    requires TableLater(t, u) && TableLater(u, v)
    ensures TableLater(t, v)
  {
  }

  lemma {:induction false} TableRuns(t: Table, actions: seq<TableAction>)
    requires TableInv(t)
    ensures TableInv(TableRun(t, actions)) && TableLater(t, TableRun(t, actions))
  {
    if actions == [] {
      TableLaterSame(t);
    } else {
      var before := TableRun(t, actions[..|actions| - 1]);
      TableRuns(t, actions[..|actions| - 1]);
      TableStep(before, actions[|actions| - 1]);
      TableLaterTransitive(t, before, TableRun(t, actions));
    }
  }

  // ----- first write wins -----

  /** A create claims its key unless the key, or by ill luck the fresh id, is already claimed. */
  predicate Claims(claimed: map<(string, string), string>, i: Identity) {
    SupplierKey.Canonical(i.id) && Made(i) && KeyFor(i) !in claimed && i.id !in claimed.Values
  }

  /** The specification: a map from (distributor, key) to the id that claimed it first. */
  function FirstWins(actions: seq<TableAction>): map<(string, string), string> {
    if actions == [] then map[] else
      var claimed, a := FirstWins(actions[..|actions| - 1]), actions[|actions| - 1];
      if a.Insert? && Claims(claimed, a.identity)
      then claimed[KeyFor(a.identity) := a.identity.id]
      else claimed
  }

  predicate Agrees(t: Table, claimed: map<(string, string), string>) {
    && (forall key | key in claimed :: Holds(t, claimed[key], key))
    && (forall id | id in t :: KeyFor(IdentityOf(t[id])) in claimed && claimed[KeyFor(IdentityOf(t[id]))] == id)
  }

  lemma AgreesStep(t: Table, claimed: map<(string, string), string>, a: TableAction)
    requires TableInv(t) && Agrees(t, claimed)
    ensures a.Insert? ==> (Inserts(t, a.identity) <==> Claims(claimed, a.identity))
    ensures Agrees(TableExec(t, a),
                   if a.Insert? && Inserts(t, a.identity)
                   then claimed[KeyFor(a.identity) := a.identity.id] else claimed)
  {
    hide Inv, Later, Exec, SupplierKey.Canonical, Made;
    if a.Insert? {
      var i := a.identity;
      if i.id in t {
        assert claimed[KeyFor(IdentityOf(t[i.id]))] == i.id;
      }
      if KeyFor(i) in claimed {
        assert Holds(t, claimed[KeyFor(i)], KeyFor(i));
      }
      if i.id in claimed.Values {
        var key :| key in claimed && claimed[key] == i.id;
        assert Holds(t, claimed[key], key);
      }
    } else if a.id in t {
      StepLater(t[a.id], a.action);
      IdentityKept(t[a.id], Exec(t[a.id], a.action));
      var u := TableExec(t, a);
      assert forall id | id in t :: IdentityOf(u[id]) == IdentityOf(t[id]);
      forall key | key in claimed
        ensures Holds(u, claimed[key], key)
      {
        assert Holds(t, claimed[key], key);
      }
    }
  }

  /** The table is a first-write-wins map, whatever else happens to its rows in between. */
  lemma {:induction false} CreateIsFirstWriteWins(actions: seq<TableAction>)
    ensures TableInv(TableRun(map[], actions))
    ensures Agrees(TableRun(map[], actions), FirstWins(actions))
  {
    if actions != [] {
      var init, a := actions[..|actions| - 1], actions[|actions| - 1];
      CreateIsFirstWriteWins(init);
      TableStep(TableRun(map[], init), a);
      AgreesStep(TableRun(map[], init), FirstWins(init), a);
    }
  }

  /** The i-th step was a create that made a new booking. */
  predicate Creates(actions: seq<TableAction>, i: nat) {
    i < |actions| && actions[i].Insert? && Inserts(TableRun(map[], actions[..i]), actions[i].identity)
  }

  lemma {:induction false} RunSplits(t: Table, first: seq<TableAction>, second: seq<TableAction>)
    ensures TableRun(t, first + second) == TableRun(TableRun(t, first), second)
  {
    hide TableExec;
    if second == [] {
      assert first + second == first;
    } else {
      RunSplits(t, first, second[..|second| - 1]);
      assert (first + second)[..|first + second| - 1] == first + second[..|second| - 1];
    }
  }

  /** Of all the creates that ever carry one key, at most one makes a booking. */
  lemma CreatedOnce(actions: seq<TableAction>, i: nat, j: nat)
    requires i < j && Creates(actions, i) && Creates(actions, j)
    ensures KeyFor(actions[i].identity) != KeyFor(actions[j].identity)
  {
    hide Inv, Later, Made, SupplierKey.Canonical;
    var before := TableRun(map[], actions[..j]);
    var id := actions[i].identity.id;
    CreateIsFirstWriteWins(actions[..i + 1]);
    assert actions[..i + 1][..i] == actions[..i];
    var after := TableRun(map[], actions[..i + 1]);
    assert Holds(after, id, KeyFor(actions[i].identity));
    RunSplits(map[], actions[..i + 1], actions[i + 1..j]);
    assert actions[..i + 1] + actions[i + 1..j] == actions[..j];
    TableRuns(after, actions[i + 1..j]);
    IdentityKept(after[id], before[id]);
    assert Holds(before, id, KeyFor(actions[i].identity));
  }

  /** No two bookings ever store the same supplier key, so the unique index on it never fires and
      the supplier can never take two bookings for one. */
  lemma SupplierKeysAreUnique(actions: seq<TableAction>, a: string, b: string)
    requires var t := TableRun(map[], actions);
             a in t && b in t && a != b && t[a].store.row.supplierKey.Some?
    ensures var t := TableRun(map[], actions);
            t[a].store.row.supplierKey != t[b].store.row.supplierKey
  {
    CreateIsFirstWriteWins(actions);
    var t := TableRun(map[], actions);
    assert Inv(t[a]) && Inv(t[b]);
    SupplierKey.KeysDiffer(a, b);
  }

  // ----- the create path, while others create and drive bookings -----

  datatype TableSlot = TableSlot(others: seq<TableAction>, fault: Fault)

  /** The next round trip goes wrong, on its way there or on its way back. */
  predicate Fails(tape: seq<TableSlot>) {
    tape != [] && !tape[0].fault.Clean?
  }

  datatype Stored = Stored(row: Booking, created: bool)

  datatype CreateResult =
    | NewBooking(row: Booking)
    | Replayed(row: Booking)
    | KeyReused
    | CreateFailed(error: Error)

  /** The row is in the table, possibly in a later state than it was read. */
  predicate Present(t: Table, row: Booking) {
    row.identity.id in t && IdentityOf(t[row.identity.id]) == row.identity
  }

  lemma PresentIsMade(t: Table, row: Booking)
    requires TableInv(t) && Present(t, row)
    ensures Made(row.identity)
  {
  }

  lemma MadeByItsRequest(r: CreateRequest, id: string, supplier: string)
    ensures Made(Identity(id, r.distributor, r.key, Canonical(r), supplier, StayOf(r)))
  {
    assert RequestOf(Identity(id, r.distributor, r.key, Canonical(r), supplier, StayOf(r))) == r;
  }

  /** What comparing a request's fingerprint with a stored one tells about the booking's own request,
      and about every other that would have stored the same. */
  lemma StoredTells(r: CreateRequest, i: Identity)
    requires Made(i)
    ensures i.fingerprint == Canonical(r) && OnlyReading(r) ==>
              && SameRequest(r, RequestOf(i))
              && forall q | i.fingerprint == Canonical(q) :: SameRequest(r, q)
    ensures i.fingerprint != Canonical(r) ==>
              && !SameRequest(r, RequestOf(i))
              && forall q | i.fingerprint == Canonical(q) :: !SameRequest(r, q)
  {
    hide OnlyReading, SameRequest, Canonical;
    forall q: CreateRequest
      ensures SameRequest(r, q) ==> Canonical(r) == Canonical(q)
      ensures OnlyReading(r) && Canonical(r) == Canonical(q) ==> SameRequest(r, q)
    {
      SameRequestSameText(r, q);
      if OnlyReading(r) {
        FingerprintIsExact(r, q);
      }
    }
  }

  lemma KeyStaysTaken(t: Table, u: Table, key: (string, string))
    requires TableLater(t, u) && KeyTaken(t, key)
    ensures KeyTaken(u, key)
  {
  }

  lemma IdStaysTaken(t: Table, u: Table, id: string)
    requires TableLater(t, u) && id in t
    ensures id in u
  {
  }

  /** A row as the insert makes it: waiting, with nothing attempted, promised or flagged. */
  predicate NeverSent(row: Booking) {
    && row.status == Received && row.attempts == 0 && row.marker == None && !row.flagged
    && row.reference == None && row.failure == None && row.supplierKey == None && row.version == 0
  }

  lemma InsertedIs(i: Identity, now: int)
    ensures var s := Inserted(i, now);
            && NeverSent(s.row) && s.row.identity == i && s.row.updatedAt == now
            && s.log == [Event(CreatedEvent, None, Received, None, None, None, None)]
    ensures Init(i, now).store == Inserted(i, now)
  {
  }

  /** Whoever held the key holds it still. */
  lemma HolderStays(t: Table, u: Table, held: string, row: Booking, key: (string, string))
    requires TableInv(u) && TableLater(t, u) && Holds(t, held, key) && Present(u, row) && KeyFor(row.identity) == key
    ensures row.identity == IdentityOf(t[held])
  {
    hide Inv, Later, Made, SupplierKey.Canonical;
    IdentityKept(t[held], u[held]);
    assert Holds(u, held, key) && Holds(u, row.identity.id, key);
  }

  class Creator {
    var table: Table
    var tape: seq<TableSlot>

    ghost predicate Valid()
      reads this
    {
      TableInv(table)
    }

    constructor (table: Table, tape: seq<TableSlot>)
      requires TableInv(table)
      ensures Valid() && this.table == table && this.tape == tape
    {
      this.table, this.tape := table, tape;
    }

    /** Others go first, then the statement; the tape says how the round trip ends. */
    method Arrive() returns (fault: Fault)
      requires Valid()
      modifies this
      ensures Valid() && TableLater(old(table), table)
      ensures old(tape) == [] ==> tape == [] && table == old(table) && fault.Clean?
      ensures old(tape) != [] ==> fault == old(tape)[0].fault
    {
      hide TableInv, TableLater;
      TableLaterSame(table);
      if tape == [] {
        return Clean;
      }
      TableRuns(table, tape[0].others);
      table := TableRun(table, tape[0].others);
      fault := tape[0].fault;
      tape := tape[1..];
    }

    method GetByKey(key: (string, string)) returns (r: Try<Booking>)
      requires Valid()
      modifies this
      ensures Valid() && TableLater(old(table), table)
      ensures r.Ok? ==> Present(table, r.value) && KeyFor(r.value.identity) == key
      ensures r.Err? ==> r.error.Infrastructure? || (r.error.NotFound? && !KeyTaken(table, key))
      ensures Fails(old(tape)) ==> r == Err(Infrastructure)
      ensures old(tape) == [] ==> tape == [] && table == old(table) && r != Err(Infrastructure)
    {
      hide TableLater;
      var fault := Arrive();
      if !fault.Clean? {
        return Err(Infrastructure);
      }
      if !KeyTaken(table, key) {
        return Err(NotFound);
      }
      var id :| id in table && Holds(table, id, key);
      r := Ok(table[id].store.row);
    }

    /** Of two creates with one key the table keeps the first; the other is handed that booking. */
    method InsertOrLoad(i: Identity, now: int) returns (r: Try<Stored>)
      requires Valid() && Made(i)
      modifies this
      ensures Valid() && TableLater(old(table), table)
      ensures r.Ok? ==> Present(table, r.value.row) && KeyFor(r.value.row.identity) == KeyFor(i)
      ensures r.Ok? && r.value.created ==>
                && r.value.row == Inserted(i, now).row && i.id !in old(table) && !KeyTaken(old(table), KeyFor(i))
                && table[i.id].store == Inserted(i, now)
      ensures r.Err? ==> r.error.Infrastructure?
      ensures Fails(old(tape)) ==> r.Err?
      ensures old(tape) == [] && SupplierKey.Canonical(i.id) && i.id !in old(table) ==>
                r.Ok? && (r.value.created <==> !KeyTaken(old(table), KeyFor(i)))
    {
      hide TableInv, TableLater, Inv, Later, Made, SupplierKey.Canonical;
      var fault := Arrive();
      ghost var arrived := table;
      if KeyTaken(old(table), KeyFor(i)) {
        KeyStaysTaken(old(table), arrived, KeyFor(i));
      }
      if i.id in old(table) {
        IdStaysTaken(old(table), arrived, i.id);
      }
      if fault.NeverArrived? {
        return Err(Infrastructure);
      }
      if Inserts(table, i) {
        TableStep(table, Insert(i, now));
        TableLaterTransitive(old(table), table, TableExec(table, Insert(i, now)));
        table := TableExec(table, Insert(i, now));
        return if fault.Clean? then Ok(Stored(table[i.id].store.row, true)) else Err(Infrastructure);
      }
      // A taken id is a primary-key violation; only a taken key is a conflict to read past.
      if !fault.Clean? || !KeyTaken(table, KeyFor(i)) {
        return Err(Infrastructure);
      }
      var existing := GetByKey(KeyFor(i));
      TableLaterTransitive(old(table), arrived, table);
      KeyStaysTaken(arrived, table, KeyFor(i));
      r := if existing.Ok? then Ok(Stored(existing.value, false)) else Err(existing.error);
    }

    /** Idempotent per (distributor, key): the first create makes the booking, a replay of it gets
        that booking back, and a different request under the same key is refused. The supplier
        client and the id generator are the caller's. */
    method Create(r: CreateRequest, id: string, supplier: string, now: int) returns (result: CreateResult)
      requires Valid()
      modifies this
      ensures Valid() && TableLater(old(table), table)
      ensures match result
              case NewBooking(row) =>
                && Present(table, row) && !KeyTaken(old(table), (r.distributor, r.key))
                && NeverSent(row) && row.updatedAt == now
                && table[row.identity.id].store.log == [Event(CreatedEvent, None, Received, None, None, None, None)]
                && row.identity == Identity(id, r.distributor, r.key, Canonical(r), supplier,
                                            Stay(r.property, r.room, r.checkIn, r.checkOut, r.firstName, r.lastName))
              case Replayed(row) =>
                && Present(table, row) && KeyFor(row.identity) == (r.distributor, r.key)
                && (OnlyReading(r) ==> SameRequest(r, RequestOf(row.identity)))
                && forall q | row.identity.fingerprint == Canonical(q) && OnlyReading(r) :: SameRequest(r, q)
              case KeyReused =>
                exists first: Booking ::
                  && Present(table, first) && KeyFor(first.identity) == (r.distributor, r.key)
                  && !SameRequest(r, RequestOf(first.identity))
                  && forall q | first.identity.fingerprint == Canonical(q) :: !SameRequest(r, q)
              case CreateFailed(error) => error.Infrastructure?
      ensures Fails(old(tape)) ==> result.CreateFailed?
      // blanks at the ends of a field are no reason to refuse a replay
      ensures forall held | Holds(old(table), held, (r.distributor, r.key))
                            && SameRequest(r, RequestOf(IdentityOf(old(table)[held]))) ::
                result.CreateFailed? || (result.Replayed? && result.row.identity == IdentityOf(old(table)[held]))
      ensures old(tape) == [] && SupplierKey.Canonical(id) && id !in old(table) ==>
                && !result.CreateFailed?
                && (result.NewBooking? <==> !KeyTaken(old(table), (r.distributor, r.key)))
    {
      hide TableInv, TableLater, SameRequest, OnlyReading, Canonical, SupplierKey.Canonical;
      var fingerprint := Compute(r);
      MadeByItsRequest(r, id, supplier);
      var inserted := InsertOrLoad(Identity(id, r.distributor, r.key, fingerprint, supplier, StayOf(r)), now);
      if inserted.Err? {
        return CreateFailed(inserted.error);
      }
      var stored := inserted.value;
      PresentIsMade(table, stored.row);
      if stored.created {
        InsertedIs(stored.row.identity, now);
        return NewBooking(stored.row);
      }
      StoredTells(r, stored.row.identity);
      forall held | Holds(old(table), held, (r.distributor, r.key))
        ensures stored.row.identity == IdentityOf(old(table)[held])
      {
        HolderStays(old(table), table, held, stored.row, (r.distributor, r.key));
      }
      if stored.row.identity.fingerprint != fingerprint {
        return KeyReused;
      }
      result := Replayed(stored.row);
    }
  }
}

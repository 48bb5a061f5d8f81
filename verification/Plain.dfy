/** What each step does, told from the row it finds and from nothing else: the independent account
    the SQL, the answers and the callback vocabulary are held against. */
module Plain {
  import opened Statuses
  import opened Bookings
  import opened Supplier
  import opened Protocol
  import opened Invariant
  import opened Guarantees
  import SupplierKey

  /** One write: the row it leaves, stamped, and the events it appends. */
  predicate Leaves(w: World, v: World, row: Booking, events: seq<Event>) {
    && v.store.row == row.(version := w.store.row.version + 1, updatedAt := w.now)
    && v.store.log == w.store.log + events
  }

  predicate Nothing(w: World, v: World) {
    v.store == w.store
  }

  /** A dispatch makes doubt of whatever attempt is outstanding. */
  lemma DispatchIs(w: World)
    requires Inv(w)
    ensures var (row, v) := (w.store.row, Exec(w, Resolve));
            if row.marker.Some? then
              Leaves(w, v, row.(status := Unknown, marker := None),
                     [Event(TimeoutEvent, Some(row.status), Unknown, row.marker, None,
                            Some("attempt_abandoned"), None)])
            else Nothing(w, v)
  {
    assert w.store.log + [] == w.store.log;
  }

  /** An authorization numbers the next attempt, marks it, and fixes the key with the first. */
  lemma AuthorizationIs(w: World, r: nat)
    requires Inv(w) && r < |w.runs| && w.runs[r].phase.Ready?
    ensures var (row, v) := (w.store.row, Exec(w, AuthorizeFor(r)));
            if !Settled(row.status) && row.marker.None? && row.attempts < w.runs[r].budget then
              var became := if row.attempts == 0 then Pending else row.status;
              && Leaves(w, v, row.(status := became, attempts := row.attempts + 1, marker := Some(row.attempts + 1),
                                   supplierKey := Some(SupplierKey.IdempotencyKey(row.identity.id))),
                        [Event(RequestEvent, Some(row.status), became, Some(row.attempts + 1), None, None, None)])
              && |v.calls| == |w.calls| + 1
              && v.calls[|w.calls|].request.booking == row.identity.id
              && v.calls[|w.calls|].request.key == SupplierKey.IdempotencyKey(row.identity.id)
              && v.calls[|w.calls|].request.stay == row.identity.stay
              && v.calls[|w.calls|].from == became && v.calls[|w.calls|].at == w.now
            else Nothing(w, v) && v.calls == w.calls
  {
    assert w.store.log + [] == w.store.log;
  }

  /** Recording an answer does what the reply says while the attempt is outstanding, and from then on
      nothing. */
  lemma RecordingIs(w: World, k: nat)
    requires Inv(w) && Answered(w, k)
    ensures var (row, v, c) := (w.store.row, Exec(w, Persist(k)), w.calls[k - 1]);
            if row.marker == Some(k) then
              && v.store.row == RowOnReply(row, w.now, c.wire, c.reply.value)
              && |v.store.log| == |w.store.log| + 1
              && FiledOnReply(row, c.wire, c.reply.value, k, v.store.log[|w.store.log|])
            else Nothing(w, v)
  {
    if w.store.row.marker == Some(k) {
      OwnershipFreezesStatus(w, k);
    } else {
      ReleasedIsInert(w, k);
    }
  }

  /** Parking's two writes. */
  lemma UnreachableIs(w: World, r: nat)
    requires Inv(w) && r < |w.runs| && w.runs[r].phase.Parking?
    ensures var (row, v) := (w.store.row, Exec(w, CallUnreachable(r)));
            if row.status.Pending? && row.marker.None? then
              Leaves(w, v, row.(status := Failed, failure := Some("supplier_unreachable")),
                     [Event(TransitionEvent, Some(Pending), Failed, None, None, None, None)])
            else Nothing(w, v)
  {
    hide Honest, Vouched, Lineage, Budgeted, Clocked, Driven;
    assert w.store.log + [] == w.store.log;
  }

  lemma ParkingIs(w: World)
    ensures var (row, v) := (w.store.row, Exec(w, ParkDoubt));
            if row.status.Unknown? && row.marker.None? then
              Leaves(w, v, row.(flagged := true),
                     if row.flagged then []
                     else [Event(ParkedEvent, Some(Unknown), Unknown, Some(row.attempts), None, None, None)])
            else Nothing(w, v)
  {
    assert w.store.log + [] == w.store.log;
  }

  /** A flag is raised once: raising it again does not even move the clock. */
  lemma FlaggingIs(w: World)
    ensures var (row, v) := (w.store.row, Exec(w, RaiseFlag));
            if row.flagged then Nothing(w, v) else Leaves(w, v, row.(flagged := true), [])
  {
    assert w.store.log + [] == w.store.log;
  }

  /** A callback's write takes the supplier at its word. */
  lemma CallbackIs(w: World, from: Status, said: Assertion)
    requires Inv(w) && (from.Pending? || from.Unknown?)
    ensures var (row, v) := (w.store.row, Exec(w, CallbackWrite(from, said)));
            if row.status == from && said.status == "CONFIRMED" then
              Leaves(w, v, row.(status := Confirmed, marker := None, flagged := false,
                                reference := if said.reference == "" then None else Some(said.reference)),
                     [Event(CallbackEvent, Some(from), Confirmed, None, Some("CONFIRMED"), None, None)])
            else if row.status == from && said.status == "REJECTED" then
              Leaves(w, v, row.(status := Rejected, marker := None, flagged := false,
                                failure := Some(if said.declineReason == "" then "supplier_declined"
                                                else said.declineReason)),
                     [Event(CallbackEvent, Some(from), Rejected, None, Some("REJECTED"), None, None)])
            else Nothing(w, v)
  {
    assert w.store.log + [] == w.store.log;
  }

  /** What a call in flight may do at any moment: put bytes on the wire, the request's only over a
      connection; come back with any reply, of which one says nothing was ever built; or die. */
  lemma CallIs(w: World, k: nat, e: Wire, reply: NetReply)
    requires 1 <= k <= |w.calls| && w.calls[k - 1].live
    ensures var c := w.calls[k - 1];
            && (!e.Request? || Connected in c.wire ==>
                  Exec(w, OnWire(k, e)).calls == w.calls[k - 1 := c.(wire := c.wire + [e])])
            && (!reply.BuildFailed? || c.wire == [] ==>
                  Exec(w, Return(k, reply)).calls == w.calls[k - 1 := c.(reply := Some(reply), live := false)])
            && Exec(w, Die(k)).calls == w.calls[k - 1 := c.(live := false)]
  {
  }

  /** Runs come and go: any number are started, each with its own budget, and one that is not parking
      may stop anywhere. */
  lemma RunsComeAndGo(w: World, budget: int, r: nat)
    ensures Exec(w, Start(budget)).runs == w.runs + [Run(budget, Entering)]
    ensures r < |w.runs| && !w.runs[r].phase.Parking? ==>
              Exec(w, Leave(r)).runs == w.runs[r := Run(w.runs[r].budget, Done)]
  {
  }

  /** Nothing else writes. A refusal files one event and leaves the row alone. */
  lemma TheRestIs(w: World, a: Action)
    requires !a.Resolve? && !a.AuthorizeFor? && !a.Persist? && !a.CallUnreachable? && !a.ParkDoubt?
    requires !a.RaiseFlag? && !a.CallbackWrite?
    ensures var v := Exec(w, a);
            if a.Refuse? && (a.e.kind.ConflictEvent? || a.e.kind.CallbackRejectedEvent?) then
              v.store.row == w.store.row && v.store.log == w.store.log + [a.e.(from := Some(a.e.to))]
            else Nothing(w, v)
  {
    assert w.store.log + [] == w.store.log;
  }
}

/** What can be said of any later state of the same booking: the relation every interleaving
    stays inside. */
module Evolution {
  import opened Protocol
  import opened Invariant

  predicate CallLater(c: Call, d: Call) {
    && c.request == d.request && c.from == d.from && c.at == d.at && c.wire <= d.wire
    && (c.reply.Some? || !c.live ==> d == c)
  }

  predicate RunLater(r: Run, s: Run) {
    && r.budget == s.budget
    && (r.phase.Parking? ==> s.phase.Parking?)
  }

  predicate Later(w: World, v: World) {
    && w.now <= v.now
    && RowLater(w.store.row, v.store.row)
    && w.store.log <= v.store.log
    && |w.calls| <= |v.calls| && (forall i | 0 <= i < |w.calls| :: CallLater(w.calls[i], v.calls[i]))
    && |w.runs| <= |v.runs| && (forall r | 0 <= r < |w.runs| :: RunLater(w.runs[r], v.runs[r]))
  }

  lemma LaterSame(w: World)
    requires Inv(w)
    ensures Later(w, w)
  {
  }

  lemma LaterTransitive(u: World, v: World, w: World)
    requires Later(u, v) && Later(v, w)
    ensures Later(u, w)
  {
  }

  lemma StepCallsLater(w: World, a: Action)
    requires CallShape(w)
    ensures var v := Exec(w, a);
            |w.calls| <= |v.calls| && forall i | 0 <= i < |w.calls| :: CallLater(w.calls[i], v.calls[i])
  {
  }

  lemma StepRunsLater(w: World, a: Action)
    ensures var v := Exec(w, a);
            |w.runs| <= |v.runs| && forall r | 0 <= r < |w.runs| :: RunLater(w.runs[r], v.runs[r])
  {
  }

  lemma StepLater(w: World, a: Action)
    requires Inv(w)
    ensures Later(w, Exec(w, a))
  {
    StepKeepsRow(w, a);
    StepCallsLater(w, a);
    StepRunsLater(w, a);
  }

  lemma {:induction false} RunsLater(w: World, actions: seq<Action>)
    requires Inv(w)
    ensures Inv(RunAll(w, actions)) && Later(w, RunAll(w, actions))
  {
    if actions == [] {
      LaterSame(w);
    } else {
      var before := RunAll(w, actions[..|actions| - 1]);
      RunsLater(w, actions[..|actions| - 1]);
      StepInv(before, actions[|actions| - 1]);
      StepLater(before, actions[|actions| - 1]);
      LaterTransitive(w, before, RunAll(w, actions));
    }
  }
}

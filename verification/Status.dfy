/** The booking state machine as data (internal/model/status.go). */
module Statuses {

  datatype Status = Received | Pending | Unknown | Confirmed | Rejected | Failed | Cancelled

  predicate Settled(s: Status) {
    s.Confirmed? || s.Rejected? || s.Failed? || s.Cancelled?
  }

  /** The transition table that Go code consults before it issues a guarded write. */
  predicate Allowed(from: Status, to: Status) {
    match from
    case Received => to.Pending? || to.Failed?
    case Pending => to.Confirmed? || to.Rejected? || to.Unknown? || to.Failed?
    case Unknown => to.Confirmed? || to.Rejected? || to.Failed?
    case _ => false
  }

  /** Where a booking can be once some writes have happened, none of them an operator's.
      Doubt (Unknown) leads only to a supplier's own word. */
  predicate Path(from: Status, to: Status) {
    || from == to
    || match from
       case Received => !to.Cancelled?
       case Pending => !to.Received? && !to.Cancelled?
       case Unknown => to.Confirmed? || to.Rejected?
       case _ => false
  }

  /** The table by what may come before each status. Nothing enters Received or Cancelled, and there
      is no way back from doubt to Pending. */
  lemma WhatMayPrecede(s: Status)
    ensures !Allowed(s, Received) && !Allowed(s, Cancelled)
    ensures Allowed(s, Pending) <==> s == Received
    ensures Allowed(s, Unknown) <==> s == Pending
    ensures Allowed(s, Confirmed) <==> s == Pending || s == Unknown
    ensures Allowed(s, Rejected) <==> s == Pending || s == Unknown
    ensures Allowed(s, Failed) <==> s == Received || s == Pending || s == Unknown
  {
  }

  lemma SettledIffNoExit(s: Status)
    ensures Settled(s) <==> forall t :: !Allowed(s, t)
  {
    if !Settled(s) {
      assert Allowed(s, Failed);
    }
  }
}

/** What every disciplined step keeps, whatever truncations do to the numbering of prompts. */
module Invariant {
  import opened Protocol
  import opened Ownership
  import opened Ledger

  ghost predicate Inv(s: State) {
    OwnInv(s) && StoreInv(s)
  }

  lemma InvStep(s: State, ev: Event)
    requires Inv(s) && Enabled(s, ev) && Disciplined(s, ev)
    ensures Inv(Next(s, ev))
  {
    OwnStep(s, ev);
    StoreInvStep(s, ev);
  }

  lemma {:induction false} InvRun(s: State, evs: seq<Event>)
    requires Inv(s) && Valid(s, evs)
    ensures Inv(Run(s, evs))
    decreases |evs|
  {
    if evs != [] {
      InvStep(s, evs[0]);
      InvRun(Next(s, evs[0]), evs[1..]);
    }
  }

  lemma InvIdle()
    ensures Inv(IDLE)
  {
  }
}

/** Each applied script of a worker renews its lease: a worker that is never slower than the lease time keeps the
    lease until it gives it up, whatever the others do. */
module Renewals {
  import opened Wrappers
  import opened ConversationStore
  import opened SendProtocol
  import opened ConversationRuns

  /** A script of the worker, applied at the store, that asks for the lease to go on. */
  predicate Extends(e: Event, w: nat) {
    Actor(e) == Some(w) && (e.Begin? || e.Plan? || e.Speak?) && e.fault != NotApplied
  }

  /** A script of the worker, applied at the store, that gives the lease up. */
  predicate GivesUp(e: Event, w: nat) {
    && Actor(e) == Some(w)
    && (((e.Stumble? || e.Finish?) && e.fault != NotApplied) || (e.Cleanup? && e.reached))
  }

  /** The worker's token is in the lease cell, until the deadline at least. */
  ghost predicate HoldsUntil(sys: Sys, w: nat, deadline: int) {
    && w in sys.workers && sys.workers[w].began && HoldsLease(sys.store, sys.workers[w].token)
    && sys.store.lease.deadline >= deadline
  }

  lemma OthersLeaveTheLease(sys: Sys, e: Event, w: nat, deadline: int)
    requires Inv(sys) && Enabled(sys, e) && Actor(e) != Some(w) && HoldsUntil(sys, w, deadline)
    requires Step(sys, e).store.clock < deadline
    ensures HoldsUntil(Step(sys, e), w, deadline)
  {
    OthersKeepWorker(sys, e, w);
    assert WorkerAt(sys, w);
    if Actor(e).Some? && Actor(e).value in sys.workers {
      assert ApartAt(sys, w, Actor(e).value) && WorkerAt(sys, Actor(e).value);
    }
  }

  // The worker's own script renews the lease of its holder; without having been applied it leaves the lease.
  lemma OwnStepsRenew(sys: Sys, e: Event, w: nat, deadline: int)
    requires Enabled(sys, e) && Actor(e) == Some(w) && !GivesUp(e, w) && HoldsUntil(sys, w, deadline)
    requires deadline <= sys.store.clock + 45_000
    ensures HoldsUntil(Step(sys, e), w, if Extends(e, w) then sys.store.clock + 45_000 else deadline)
    ensures Step(sys, e).store.clock == sys.store.clock
  {
  }

  lemma StartingHolds(sys: Sys, e: Event, w: nat)
    requires Enabled(sys, e) && e.Begin? && e.worker == w && Step(sys, e).workers[w].began
    ensures HoldsUntil(Step(sys, e), w, sys.store.clock + 45_000) && Step(sys, e).store.clock == sys.store.clock
  {
  }

  lemma HeldForOneMoreStep(sys: Sys, e: Event, w: nat, deadline: int)
    requires Inv(sys) && Enabled(sys, e) && HoldsUntil(sys, w, deadline) && !GivesUp(e, w)
    requires Step(sys, e).store.clock < deadline <= sys.store.clock + 45_000
    ensures HoldsUntil(Step(sys, e), w, deadline)
  {
    if Actor(e) == Some(w) {
      OwnStepsRenew(sys, e, w, deadline);
    } else {
      OthersLeaveTheLease(sys, e, w, deadline);
    }
  }

  lemma ExtendingHolds(sys: Sys, e: Event, w: nat)
    requires Enabled(sys, e) && Extends(e, w) && w in Step(sys, e).workers && Step(sys, e).workers[w].began
    requires e.Begin? || HoldsUntil(sys, w, sys.store.clock)
    ensures HoldsUntil(Step(sys, e), w, sys.store.clock + 45_000)
  {
    if e.Begin? {
      StartingHolds(sys, e, w);
    } else {
      OwnStepsRenew(sys, e, w, sys.store.clock);
    }
  }

  ghost predicate NeverGivesUp(events: seq<Event>, i: nat, j: nat, w: nat) {
    j <= |events| && forall n :: i <= n < j ==> !GivesUp(events[n], w)
  }

  lemma HeldForOneMoreEvent(states: seq<Sys>, events: seq<Event>, n: nat, w: nat, deadline: int)
    requires IsRun(states, events) && n < |events| && HoldsUntil(states[n], w, deadline) && !GivesUp(events[n], w)
    requires states[n + 1].store.clock < deadline <= states[n].store.clock + 45_000
    ensures HoldsUntil(states[n + 1], w, deadline)
  {
    RunInv(states, events, n);
    HeldForOneMoreStep(states[n], events[n], w, deadline);
  }

  lemma {:induction false} HeldUntilTheDeadline(states: seq<Sys>, events: seq<Event>, i: nat, j: nat, w: nat,
      deadline: int)
    requires IsRun(states, events) && i <= j < |states| && HoldsUntil(states[i], w, deadline)
    requires NeverGivesUp(events, i, j, w)
    requires states[j].store.clock < deadline <= states[i].store.clock + 45_000
    ensures HoldsUntil(states[j], w, deadline)
  {
    if i < j {
      ClockOnlyAdvances(states, events, i, j - 1);
      ClockOnlyAdvances(states, events, j - 1, j);
      assert NeverGivesUp(events, i, j - 1, w) && !GivesUp(events[j - 1], w);
      HeldUntilTheDeadline(states, events, i, j - 1, w, deadline);
      HeldForOneMoreEvent(states, events, j - 1, w, deadline);
    }
  }

  ghost predicate Started(sys: Sys, w: nat, token: string) {
    w in sys.workers && sys.workers[w].began && sys.workers[w].token == token
  }

  /** Extended at m and not given up since, the lease is held until the lease time has passed. */
  lemma ExtendedLeaseLasts(states: seq<Sys>, events: seq<Event>, m: nat, j: nat, w: nat, token: string)
    requires IsRun(states, events) && m < j < |states| && Extends(events[m], w) && Started(states[m + 1], w, token)
    requires events[m].Begin? || HoldsUntil(states[m], w, states[m].store.clock)
    requires NeverGivesUp(events, m + 1, j, w)
    requires states[j].store.clock < states[m].store.clock + 45_000
    ensures HoldsUntil(states[j], w, states[m].store.clock + 45_000)
  {
    ExtendingHolds(states[m], events[m], w);
    ClockOnlyAdvances(states, events, m, m + 1);
    HeldUntilTheDeadline(states, events, m + 1, j, w, states[m].store.clock + 45_000);
  }

  lemma {:induction false} ClockOnlyAdvances(states: seq<Sys>, events: seq<Event>, i: nat, j: nat)
    requires IsRun(states, events) && i <= j < |states|
    ensures states[i].store.clock <= states[j].store.clock
  {
    if i < j {
      ClockOnlyAdvances(states, events, i, j - 1);
      StepMovesLease(states[j - 1], events[j - 1]);
    }
  }

  /** The worker had a script applied less than the lease time before n. */
  ghost predicate TimelyAt(states: seq<Sys>, events: seq<Event>, w: nat, b: nat, n: nat)
    requires n < |states| == |events| + 1
  {
    exists m :: b <= m < n && Extends(events[m], w) && states[n].store.clock < states[m].store.clock + 45_000
  }

  ghost predicate Timely(states: seq<Sys>, events: seq<Event>, w: nat, b: nat, j: nat)
    requires j < |states| == |events| + 1
  {
    forall n :: b < n <= j ==> TimelyAt(states, events, w, b, n)
  }

  lemma LastExtension(states: seq<Sys>, events: seq<Event>, w: nat, b: nat, j: nat) returns (m: nat)
    requires b < j < |states| == |events| + 1 && Timely(states, events, w, b, j) && NeverGivesUp(events, b + 1, j, w)
    ensures b <= m < j && Extends(events[m], w) && states[j].store.clock < states[m].store.clock + 45_000
    ensures Timely(states, events, w, b, m)
    ensures NeverGivesUp(events, b + 1, m, w) && NeverGivesUp(events, m + 1, j, w)
  {
    assert TimelyAt(states, events, w, b, j);
    m :| b <= m < j && Extends(events[m], w) && states[j].store.clock < states[m].store.clock + 45_000;
  }

  /** A worker that began its batch at b and has not given up its lease holds it as long as it is timely; none of its
      scripts is then told that the lease is lost. */
  lemma {:induction false} TimelyWorkersKeepTheirLease(states: seq<Sys>, events: seq<Event>, b: nat, j: nat, w: nat,
      token: string)
    requires IsRun(states, events) && b < j < |states|
    requires events[b].Begin? && Actor(events[b]) == Some(w) && Started(states[b + 1], w, token)
    requires NeverGivesUp(events, b + 1, j, w) && Timely(states, events, w, b, j)
    ensures Started(states[j], w, token) && HoldsLease(states[j].store, token)
    ensures NotTurnedAway(states[j], w)
    ensures j < |events| && Actor(events[j]) == Some(w) ==> NotTurnedAway(states[j + 1], w)
  {
    var m := LastExtension(states, events, w, b, j);
    StartedWorkersStay(states, events, b + 1, m + 1, w, token);
    StartedWorkersStay(states, events, b + 1, j, w, token);
    if b < m {
      TimelyWorkersKeepTheirLease(states, events, b, m, w, token);
    }
    ExtendedLeaseLasts(states, events, m, j, w, token);
    HoldersAreServed(states, events, j, w);
  }

  ghost predicate NotTurnedAway(sys: Sys, w: nat) {
    w in sys.workers && sys.workers[w].phase !in {Unwinding(LeaseLost), Raised(LeaseLost)}
  }

  lemma HoldersAreServed(states: seq<Sys>, events: seq<Event>, j: nat, w: nat)
    requires IsRun(states, events) && j < |states| && HoldsUntil(states[j], w, states[j].store.clock)
    ensures NotTurnedAway(states[j], w)
    ensures j < |events| && Actor(events[j]) == Some(w) ==> NotTurnedAway(states[j + 1], w)
  {
    RunInv(states, events, j);
    HoldersAreNotTurnedAway(states[j], w);
    if j < |events| && Actor(events[j]) == Some(w) {
      HoldersScriptsAreApplied(states[j], events[j], w);
    }
  }

  lemma HoldersAreNotTurnedAway(sys: Sys, w: nat)
    requires Inv(sys) && HoldsUntil(sys, w, sys.store.clock)
    ensures NotTurnedAway(sys, w)
  {
    assert WorkerAt(sys, w);
  }

  lemma HoldersScriptsAreApplied(sys: Sys, e: Event, w: nat)
    requires Inv(sys) && Enabled(sys, e) && Actor(e) == Some(w) && HoldsUntil(sys, w, sys.store.clock)
    ensures NotTurnedAway(Step(sys, e), w)
  {
    assert WorkerAt(sys, w);
  }

  lemma {:induction false} StartedWorkersStay(states: seq<Sys>, events: seq<Event>, i: nat, j: nat, w: nat,
      token: string)
    requires IsRun(states, events) && i <= j < |states| && Started(states[i], w, token)
    ensures Started(states[j], w, token)
  {
    if i < j {
      StartedWorkersStay(states, events, i, j - 1, w, token);
      WorkersKeepTheirToken(states[j - 1], events[j - 1], w);
    }
  }
}

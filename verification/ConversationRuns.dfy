/** What holds over whole runs of one scope: any number of workers, retries, faults, crashes, lease
    expiries, clears and legacy merges, interleaved in any order. */
module ConversationRuns {
  import opened Wrappers
  import opened ConversationStore
  import opened SendProtocol
  import opened LeaseInvariant
  import opened LogContiguity

  lemma InitHolds(c: string)
    ensures Inv(Init(c)) && LogInv(Init(c))
  {
    forall w ensures WorkerAt(Init(c), w) && LastAt(Init(c), w) {
    }
  }

  lemma {:induction false} RunInv(states: seq<Sys>, events: seq<Event>, i: nat)
    requires IsRun(states, events) && i < |states|
    ensures Inv(states[i]) && LogInv(states[i])
  {
    if i == 0 {
      var c :| states[0] == Init(c);
      InitHolds(c);
    } else {
      RunInv(states, events, i - 1);
      StepKeepsInv(states[i - 1], events[i - 1]);
      StepKeepsLogs(states[i - 1], events[i - 1]);
    }
  }

  lemma {:induction false} RunEvolves(states: seq<Sys>, events: seq<Event>, i: nat, j: nat)
    requires IsRun(states, events) && i <= j < |states|
    ensures LedgerEvolves(states[i].store, states[j].store)
    ensures states[i].issued <= states[j].issued
  {
    if i < j {
      RunEvolves(states, events, i, j - 1);
      RunInv(states, events, j - 1);
      StepKeepsInv(states[j - 1], events[j - 1]);
      LedgerEvolvesIsTransitive(states[i].store, states[j - 1].store, states[j].store);
    } else {
      forall k ensures EvolvesAt(states[i].store, states[i].store, k) {
      }
    }
  }

  // ---- Ledger snapshots ----

  /** Once complete, partial or failed, a snapshot never changes again; before that it only grows. */
  lemma TerminalSnapshotsAreFrozen(states: seq<Sys>, events: seq<Event>, i: nat, j: nat, k: RequestKey)
    requires IsRun(states, events) && i <= j < |states| && k in states[i].store.requests
    ensures k in states[j].store.requests
    ensures var (b, c) := (states[i].store.requests[k], states[j].store.requests[k]);
      && (b.status != Generating ==> c == b)
      && c.batchId == b.batchId && c.user == b.user && b.characters <= c.characters
  {
    RunEvolves(states, events, i, j);
    assert EvolvesAt(states[i].store, states[j].store, k);
  }

  /** In every reachable state, every snapshot's speakers follow its plan and its status tells how far they got. */
  lemma SnapshotsAreWellFormed(states: seq<Sys>, events: seq<Event>, i: nat, k: RequestKey)
    requires IsRun(states, events) && i < |states| && k in states[i].store.requests
    ensures var b := states[i].store.requests[k];
      && |b.characters| <= |b.planned|
      && (forall j :: 0 <= j < |b.characters| ==> b.characters[j].speakerId == b.planned[j])
      && (b.status == Complete ==> |b.characters| == |b.planned| > 0)
      && (b.status == Partial ==> |b.characters| > 0)
      && (b.status == Failed ==> b.characters == [])
      && (b.interruption == INTERRUPTED <==> b.status == Partial || b.status == Failed)
      && (b.interruption == "" <==> b.status == Complete || b.status == Generating)
  {
    RunInv(states, events, i);
    assert EntryAt(states[i].store, states[i].issued, k);
  }

  /** A batch that `Send` started and returned without error is the ledger's entry from then on, settled, its lease
      gone. */
  lemma ReturnedBatchIsTheLedgerEntry(states: seq<Sys>, events: seq<Event>, i: nat, w: nat)
    requires IsRun(states, events) && i < |states| && w in states[i].workers
    requires states[i].workers[w].began && states[i].workers[w].phase.Returned?
    ensures var worker := states[i].workers[w];
      && KeyOf(worker.batch) in states[i].store.requests
      && states[i].store.requests[KeyOf(worker.batch)] == worker.batch
      && worker.batch.status != Generating
      && !HoldsLease(states[i].store, worker.token)
  {
    RunInv(states, events, i);
    assert WorkerAt(states[i], w);
  }

  /** `c` is the end of `b` when its generation stopped for good. */
  ghost predicate Ended(b: Batch, c: Batch) {
    && c == b.(status := c.status, interruption := c.interruption)
    && c.status == (if |b.characters| > 0 then Partial else Failed) && c.interruption == "generation_interrupted"
  }

  /** A clean-up that reaches the store while its worker holds the lease ends the generation: cell and ledger hold the
      same settled batch, the lease is free, and nothing else changes. */
  lemma ReachedCleanupsSettle(states: seq<Sys>, events: seq<Event>, i: nat)
    requires IsRun(states, events) && i < |events| && events[i].Cleanup? && events[i].reached
    requires events[i].worker in states[i].workers
    requires HoldsLease(states[i].store, states[i].workers[events[i].worker].token)
    ensures var (s, t, b) := (states[i].store, states[i + 1].store, states[i].workers[events[i].worker].batch);
      && KeyOf(b) in s.requests && s.requests[KeyOf(b)].status == Generating
      && KeyOf(b) in t.requests && Ended(s.requests[KeyOf(b)].(updatedAt := events[i].now), t.requests[KeyOf(b)])
      && t == s.(lease := Free, requests := s.requests[KeyOf(b) := t.requests[KeyOf(b)]],
                 batches := s.batches[b.batchId := t.requests[KeyOf(b)]])
  {
    RunInv(states, events, i);
    assert WorkerAt(states[i], events[i].worker);
  }

  // ---- Fencing ----

  function Actor(e: Event): Option<nat> {
    match e
    case Refuse(w, _, _) => Some(w)
    case Begin(w, _, _, _, _, _, _, _) => Some(w)
    case Plan(w, _, _, _) => Some(w)
    case Speak(w, _, _, _, _, _, _) => Some(w)
    case Stumble(w, _, _) => Some(w)
    case Finish(w, _, _) => Some(w)
    case Cleanup(w, _, _) => Some(w)
    case Crash(w) => Some(w)
    case _ => None
  }

  // The identifiers an event draws.
  function Draws(e: Event): set<string> {
    match e
    case Begin(_, _, _, _, batchId, turnId, token, _) => {batchId, turnId, token}
    case Speak(_, _, _, _, turnId, _, _) => {turnId}
    case AddTurn(turn) => {turn.turnId}
    case _ => {}
  }

  lemma OthersKeepWorker(sys: Sys, e: Event, w: nat)
    requires Enabled(sys, e) && Actor(e) != Some(w)
    ensures Get(Step(sys, e).workers, w) == Get(sys.workers, w)
    ensures Step(sys, e).issued <= sys.issued + Draws(e)
  {
  }

  /** A worker whose token is not in the lease cell changes nothing in the store. */
  lemma FencedStepWritesNothing(sys: Sys, e: Event, w: nat)
    requires Enabled(sys, e) && Actor(e) == Some(w) && w in sys.workers
    requires !HoldsLease(sys.store, sys.workers[w].token)
    ensures Step(sys, e).store == sys.store
  {
  }

  // The lease cell only ever gains a token never drawn before.
  lemma LostLeaseStaysLost(sys: Sys, e: Event, token: string)
    requires Inv(sys) && Enabled(sys, e) && token in sys.issued && !HoldsLease(sys.store, token)
    ensures !HoldsLease(Step(sys, e).store, token)
  {
  }

  ghost predicate Fenced(sys: Sys, w: nat, token: string) {
    w in sys.workers && sys.workers[w].began && sys.workers[w].token == token && !HoldsLease(sys.store, token)
  }

  lemma StaysFenced(sys: Sys, e: Event, w: nat, token: string)
    requires Inv(sys) && Enabled(sys, e) && Fenced(sys, w, token)
    ensures Fenced(Step(sys, e), w, token)
  {
    assert WorkerAt(sys, w);
    LostLeaseStaysLost(sys, e, token);
    WorkersKeepTheirToken(sys, e, w);
  }

  /** Once a worker's token has left the lease cell it never comes back, and no later step of the worker writes. */
  lemma {:induction false} FencedForever(states: seq<Sys>, events: seq<Event>, i: nat, j: nat, w: nat)
    requires IsRun(states, events) && i <= j < |states| && w in states[i].workers
    requires Fenced(states[i], w, states[i].workers[w].token)
    ensures Fenced(states[j], w, states[i].workers[w].token)
    ensures j < |events| && Actor(events[j]) == Some(w) ==> states[j + 1].store == states[j].store
  {
    if i < j {
      FencedForever(states, events, i, j - 1, w);
      RunInv(states, events, j - 1);
      StaysFenced(states[j - 1], events[j - 1], w, states[i].workers[w].token);
    }
    if j < |events| && Actor(events[j]) == Some(w) {
      FencedStepWritesNothing(states[j], events[j], w);
    }
  }

  lemma WorkersKeepTheirToken(sys: Sys, e: Event, w: nat)
    requires Enabled(sys, e) && w in sys.workers
    ensures w in Step(sys, e).workers
    ensures Step(sys, e).workers[w].token == sys.workers[w].token
    ensures Step(sys, e).workers[w].began == sys.workers[w].began
  {
  }

  /** The lease cell never outlives its last writer by more than the lease time. */
  lemma {:induction false} LeaseIsBounded(states: seq<Sys>, events: seq<Event>, i: nat)
    requires IsRun(states, events) && i < |states|
    ensures states[i].store.lease.Held? ==> states[i].store.lease.deadline <= states[i].store.clock + 45_000
  {
    if i > 0 {
      LeaseIsBounded(states, events, i - 1);
      LeaseBoundStep(states[i - 1], events[i - 1]);
    }
  }

  lemma LeaseBoundStep(sys: Sys, e: Event)
    requires Enabled(sys, e)
    requires sys.store.lease.Held? ==> sys.store.lease.deadline <= sys.store.clock + 45_000
    ensures var t := Step(sys, e).store; t.lease.Held? ==> t.lease.deadline <= t.clock + 45_000
  {
    StepMovesLease(sys, e);
  }

  // A lease is kept, given up, or runs from now on.
  lemma StepMovesLease(sys: Sys, e: Event)
    requires Enabled(sys, e)
    ensures var (s, t) := (sys.store, Step(sys, e).store);
      t.clock >= s.clock && (t.lease == s.lease || t.lease.Free?
        || (t.lease.Held? && t.lease.deadline == t.clock + 45_000))
  {
  }

  /** A scope abandoned for the lease time accepts every new request. */
  lemma AbandonedScopeReopens(states: seq<Sys>, events: seq<Event>, i: nat, ms: nat, today: int, batch: Batch,
      token: string)
    requires IsRun(states, events) && i < |states| && ms >= 45_000
    ensures var reply := BeginScript(Elapse(states[i].store, ms), today, batch, token).1;
      reply.Started? <==> forall day :: day in {today - 1, today} ==>
                            RequestKey(day, batch.clientRequestId) !in states[i].store.requests
  {
    LeaseIsBounded(states, events, i);
  }
}

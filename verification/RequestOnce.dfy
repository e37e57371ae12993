/** A client request id starts at most one batch in any two adjacent Beijing days, and a retry is told how it ended. */
module RequestOnce {
  import opened BeijingClock
  import opened ConversationStore
  import opened SendProtocol
  import opened ConversationRuns
  import opened LogRuns

  function ReplyTo(sys: Sys, e: Event): BeginReply
    requires e.Begin?
  {
    var batch := NewBatch(sys.store.conversationId, e.requestId, e.content, e.batchId, e.turnId, e.now);
    BeginScript(sys.store, DayOf(e.now), batch, e.token).1
  }

  /** The clocks of successive BeginBatch calls never go back across a Beijing midnight. */
  ghost predicate BeginDaysNeverGoBack(events: seq<Event>) {
    forall i, j :: 0 <= i < j < |events| && events[i].Begin? && events[j].Begin? ==>
      DayOf(events[i].now) <= DayOf(events[j].now)
  }

  ghost predicate BegunBefore(events: seq<Event>, i: nat, day: int) {
    exists j :: 0 <= j < i && j < |events| && events[j].Begin? && DayOf(events[j].now) == day
  }

  lemma BegunEarlier(events: seq<Event>, i: nat, day: int)
    requires BegunBefore(events, i, day)
    ensures BegunBefore(events, i + 1, day)
  {
  }

  // A key that a step adds was begun by it.
  lemma NewRequestIsBegun(sys: Sys, e: Event, k: RequestKey)
    requires Inv(sys) && Enabled(sys, e) && k in Step(sys, e).store.requests && k !in sys.store.requests
    ensures e.Begin? && DayOf(e.now) == k.day
  {
    OnlyBeginAddsRequests(sys, e, k);
  }

  /** Every request on a ledger was begun on that ledger's day. */
  lemma {:induction false} RequestsWereBegun(states: seq<Sys>, events: seq<Event>, i: nat, k: RequestKey)
    requires IsRun(states, events) && i < |states| && k in states[i].store.requests
    ensures BegunBefore(events, i, k.day)
  {
    if i > 0 {
      if k in states[i - 1].store.requests {
        RequestsWereBegun(states, events, i - 1, k);
        BegunEarlier(events, i - 1, k.day);
      } else {
        RunInv(states, events, i - 1);
        NewRequestIsBegun(states[i - 1], events[i - 1], k);
      }
    }
  }

  ghost predicate OnOneDay(s: Store, id: string, day: int) {
    RequestKey(day, id) in s.requests ==> RequestKey(day + 1, id) !in s.requests
  }

  /** When the day never goes back, no request is on the ledgers of two adjacent days. */
  lemma {:induction false} NoRequestOnAdjacentDays(states: seq<Sys>, events: seq<Event>, i: nat, id: string, day: int)
    requires IsRun(states, events) && i < |states| && BeginDaysNeverGoBack(events)
    ensures OnOneDay(states[i].store, id, day)
  {
    if i > 0 {
      NoRequestOnAdjacentDays(states, events, i - 1, id, day);
      var (sys, e) := (states[i - 1], events[i - 1]);
      RunInv(states, events, i - 1);
      OnlyBeginAddsRequests(sys, e, RequestKey(day, id));
      OnlyBeginAddsRequests(sys, e, RequestKey(day + 1, id));
      if RequestKey(day + 1, id) in sys.store.requests {
        RequestsWereBegun(states, events, i - 1, RequestKey(day + 1, id));
      }
    }
  }

  /** Whatever happens in between, a retry on the same or the following day starts nothing and is given the
      first batch, under its own batch id. */
  lemma RetryReturnsTheFirstBatch(states: seq<Sys>, events: seq<Event>, i: nat, j: nat)
    requires IsRun(states, events) && BeginDaysNeverGoBack(events) && i < j < |events|
    requires events[i].Begin? && !events[i].fault.NotApplied? && ReplyTo(states[i], events[i]).Started?
    requires events[j].Begin? && events[j].requestId == events[i].requestId
    requires DayOf(events[j].now) <= DayOf(events[i].now) + 1
    ensures var reply := ReplyTo(states[j], events[j]);
      && reply.Existing? && reply.batch.batchId == events[i].batchId
      && reply.batch.user.content == events[i].content
  {
    var key := RequestKey(DayOf(events[i].now), events[i].requestId);
    assert key in states[i + 1].store.requests;
    RunEvolves(states, events, i + 1, j);
    assert EvolvesAt(states[i + 1].store, states[j].store, key);
    NoRequestOnAdjacentDays(states, events, j, events[i].requestId, key.day);
  }

  // ---- What a retry is told ----

  /** The script of a begin is applied and finds its request: on today's ledger, or else on yesterday's. */
  ghost predicate Finds(s: Store, e: Event, k: RequestKey) {
    && e.Begin? && !e.fault.NotApplied? && k.id == e.requestId && k in s.requests
    && (k.day == DayOf(e.now) || (k.day == DayOf(e.now) - 1 && RequestKey(DayOf(e.now), k.id) !in s.requests))
  }

  /** In every run, a begin that finds its request starts nothing and is told what the ledger holds afterwards. That
      is the entry as it was, while a lease is held or once the entry is settled; an abandoned generation is ended by
      this very begin, keeping its id and messages. Nothing else in the store changes. */
  lemma RetriesAreToldTheEnd(states: seq<Sys>, events: seq<Event>, i: nat, k: RequestKey)
    requires IsRun(states, events) && i < |events| && Finds(states[i].store, events[i], k)
    ensures k in states[i + 1].store.requests && events[i].worker in states[i + 1].workers
    ensures var (before, after) := (states[i].store.requests[k], states[i + 1].store.requests[k]);
      var worker := states[i + 1].workers[events[i].worker];
      && worker.batch == after && !worker.began
      && worker.phase == (if events[i].fault.Fine? then Returned else Raised(Other))
      && (if before.status == Generating && !LeaseHeld(states[i].store) then Ended(before, after) else after == before)
      && (!LeaseHeld(states[i].store) ==> after.status != Generating)
      && states[i + 1].store == states[i].store.(requests := states[i].store.requests[k := after])
  {
    RunInv(states, events, i);
    assert EntryAt(states[i].store, states[i].issued, k);
  }

  /** Once a begin found its request while no lease was held, that batch is settled for good: in every later state the
      ledger holds it unchanged, and every later begin that finds it is told the same. */
  lemma EndsAreFinal(states: seq<Sys>, events: seq<Event>, i: nat, j: nat, k: RequestKey)
    requires IsRun(states, events) && i < j < |events|
    requires Finds(states[i].store, events[i], k) && !LeaseHeld(states[i].store)
    ensures k in states[j].store.requests
    ensures states[j].store.requests[k] == states[i + 1].workers[events[i].worker].batch
    ensures Finds(states[j].store, events[j], k) ==>
      && states[j + 1].workers[events[j].worker].batch == states[i + 1].workers[events[i].worker].batch
      && states[j + 1].store.requests == states[j].store.requests
  {
    RetriesAreToldTheEnd(states, events, i, k);
    RunEvolves(states, events, i + 1, j);
    assert EvolvesAt(states[i + 1].store, states[j].store, k);
    if Finds(states[j].store, events[j], k) {
      RetriesAreToldTheEnd(states, events, j, k);
    }
  }
}

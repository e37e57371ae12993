/** Any number of `Send` calls on one scope. Each call is a worker whose local batch travels through
    the store's scripts; between two scripts anything else may happen to the store. */
module SendProtocol {
  import opened Wrappers
  import opened BeijingClock
  import opened ConversationStore

  datatype Failure =
    | InvalidRequest
    | MessageTooLarge
    | ConversationNotFound
    | NotStarted
    | ConversationBusy
    | LeaseLost
    | Other

  datatype Phase = Planning | Speaking | Unwinding(failure: Failure) | Returned | Raised(cause: Failure) | Crashed

  // `began` records that BeginBatch stored this worker's batch; `batch` is the worker's own copy.
  datatype Worker = Worker(requestId: string, began: bool, token: string, batch: Batch, phase: Phase)

  datatype Event =
    | Refuse(worker: nat, requestId: string, cause: Failure)
    | Begin(worker: nat, requestId: string, content: string, now: int,
            batchId: string, turnId: string, token: string, fault: Fault)
    | Plan(worker: nat, plan: seq<string>, now: int, fault: Fault)
    | Speak(worker: nat, displayName: string, avatarUrl: string, text: string, turnId: string, now: int, fault: Fault)
    | Stumble(worker: nat, now: int, fault: Fault)
    | Finish(worker: nat, now: int, fault: Fault)
    | Cleanup(worker: nat, now: int, reached: bool)
    | Crash(worker: nat)
    | Migrate(day: int)
    | Clear(day: int)
    | AddTurn(turn: Turn)
    | LegacyClear(day: int)
    | Tick(ms: nat)

  // `issued` remembers every identifier ever drawn.
  datatype Sys = Sys(store: Store, workers: map<nat, Worker>, issued: set<string>)

  predicate IsBatchId(id: string) {
    |id| >= 6 && id[..6] == "batch-"
  }

  predicate InPhase(sys: Sys, w: nat, phase: Phase) {
    w in sys.workers && sys.workers[w].phase == phase
  }

  predicate Enabled(sys: Sys, e: Event) {
    match e
    case Refuse(w, _, cause) =>
      && w !in sys.workers
      && cause in {InvalidRequest, MessageTooLarge, ConversationNotFound, NotStarted, Other}
    case Begin(w, _, _, _, batchId, turnId, token, _) =>
      && w !in sys.workers
      && IsBatchId(batchId) && {batchId, turnId, token} !! sys.issued
      && batchId != turnId && batchId != token && turnId != token
    case Plan(w, plan, _, _) => InPhase(sys, w, Planning) && plan != []
    case Speak(w, _, _, text, turnId, _, _) =>
      && InPhase(sys, w, Speaking) && |sys.workers[w].batch.characters| < |sys.workers[w].batch.planned|
      && text != "" && turnId !in sys.issued
    case Stumble(w, _, _) =>
      && InPhase(sys, w, Speaking)
      && |sys.workers[w].batch.characters| < |sys.workers[w].batch.planned|
    case Finish(w, _, _) =>
      && InPhase(sys, w, Speaking)
      && |sys.workers[w].batch.characters| == |sys.workers[w].batch.planned|
    case Cleanup(w, _, _) => w in sys.workers && sys.workers[w].phase.Unwinding?
    case Crash(w) =>
      && w in sys.workers
      && (sys.workers[w].phase in {Planning, Speaking} || sys.workers[w].phase.Unwinding?)
    case AddTurn(turn) =>
      && turn.turnId !in sys.issued
      && turn == LegacyTurn(turn.turnId, turn.role, turn.content, turn.createdAt)
    case _ => true
  }

  // What a worker makes of one script call: `done` is its state after an acknowledged success.
  function Call(sys: Sys, w: nat, fault: Fault, after: Store, accepted: bool, done: Worker): Sys
    requires w in sys.workers
  {
    var worker := sys.workers[w];
    match fault
    case NotApplied => sys.(workers := sys.workers[w := worker.(phase := Unwinding(Other))])
    case ReplyLost => sys.(store := after, workers := sys.workers[w := worker.(phase := Unwinding(Other))])
    case Fine => sys.(store := after,
                      workers := sys.workers[w := if accepted then done else worker.(phase := Unwinding(LeaseLost))])
  }

  function Save(sys: Sys, w: nat, batch: Batch, release: bool, next: Phase, fault: Fault): Sys
    requires w in sys.workers
  {
    var worker := sys.workers[w];
    var (after, saved) := SaveScript(sys.store, DayOf(batch.createdAt), batch, worker.token, release);
    Call(sys, w, fault, after, saved, worker.(batch := batch, phase := next))
  }

  function StepBegin(sys: Sys, e: Event): Sys
    requires e.Begin?
  {
    var batch := NewBatch(sys.store.conversationId, e.requestId, e.content, e.batchId, e.turnId, e.now);
    var (after, reply) := BeginScript(sys.store, DayOf(e.now), batch, e.token);
    var issued := sys.issued + {e.batchId, e.turnId, e.token};
    var blank := Worker(e.requestId, false, "", batch, Raised(Other));
    if e.fault.NotApplied? then
      sys.(workers := sys.workers[e.worker := blank], issued := issued)
    else
      var heard := match reply
        case Existing(b) => Worker(e.requestId, false, "", b, Returned)
        case Busy => blank.(phase := Raised(ConversationBusy))
        case Started(b) => Worker(e.requestId, true, e.token, b, Planning);
      Sys(after, sys.workers[e.worker := if e.fault.Fine? then heard else heard.(phase := Raised(Other))], issued)
  }

  function StepSpeak(sys: Sys, e: Event): Sys
    requires e.Speak? && Enabled(sys, e)
  {
    var worker := sys.workers[e.worker];
    var b := worker.batch;
    var message := NewMessage(b, sys.store.conversationId, b.planned[|b.characters|], e.displayName, e.avatarUrl,
      e.text, e.turnId, e.now);
    var (after, reply) :=
      AppendScript(sys.store, DayOf(b.createdAt), message, WithMessage(b, message, e.now), worker.token);
    Call(sys, e.worker, e.fault, after, reply.Some?, worker.(batch := if reply.Some? then reply.value else b))
      .(issued := sys.issued + {e.turnId})
  }

  function StepCleanup(sys: Sys, e: Event): Sys
    requires e.Cleanup? && Enabled(sys, e)
  {
    var worker := sys.workers[e.worker];
    var b := worker.batch;
    var after := InterruptScript(sys.store, DayOf(b.createdAt), b.batchId, b.clientRequestId, worker.token, e.now).0;
    sys.(store := if e.reached then after else sys.store,
         workers := sys.workers[e.worker := worker.(phase := Raised(worker.phase.failure))])
  }

  function Step(sys: Sys, e: Event): Sys
    requires Enabled(sys, e)
  {
    match e
    case Refuse(w, requestId, cause) =>
      var batch := NewBatch(sys.store.conversationId, requestId, "", "", "", 0);
      sys.(workers := sys.workers[w := Worker(requestId, false, "", batch, Raised(cause))])
    case Begin(_, _, _, _, _, _, _, _) => StepBegin(sys, e)
    case Plan(w, plan, now, fault) =>
      Save(sys, w, sys.workers[w].batch.(planned := plan, updatedAt := now), false, Speaking, fault)
    case Speak(_, _, _, _, _, _, _) => StepSpeak(sys, e)
    case Stumble(w, now, fault) =>
      Save(sys, w, Converged(sys.workers[w].batch).(updatedAt := now), true, Returned, fault)
    case Finish(w, now, fault) =>
      Save(sys, w, sys.workers[w].batch.(status := Complete, updatedAt := now), true, Returned, fault)
    case Cleanup(_, _, _) => StepCleanup(sys, e)
    case Crash(w) => sys.(workers := sys.workers[w := sys.workers[w].(phase := Crashed)])
    case Migrate(day) => sys.(store := MigrateScript(sys.store, day))
    case Clear(day) => sys.(store := ClearScript(sys.store, day))
    case AddTurn(turn) =>
      sys.(store := AddTurnScript(sys.store, DayOf(turn.createdAt), turn), issued := sys.issued + {turn.turnId})
    case LegacyClear(day) => sys.(store := LegacyClearScript(sys.store, day))
    case Tick(ms) => sys.(store := Elapse(sys.store, ms))
  }

  // ---- Histories ----

  function Init(conversationId: string): Sys {
    Sys(EmptyStore(conversationId), map[], {})
  }

  /** The states visited by a history, each event enabled where it happens. */
  ghost predicate IsRun(states: seq<Sys>, events: seq<Event>) {
    && |states| == |events| + 1
    && (exists c :: states[0] == Init(c))
    && forall i {:trigger events[i]} :: 0 <= i < |events| ==>
      Enabled(states[i], events[i]) && states[i + 1] == Step(states[i], events[i])
  }

  // ---- The lease invariant ----

  /** Speakers follow the plan, and the status says how far they got. */
  ghost predicate WellFormed(b: Batch) {
    && |b.characters| <= |b.planned|
    && (forall j :: 0 <= j < |b.characters| ==> b.characters[j].speakerId == b.planned[j])
    && (b.interruption == if b.status in {Partial, Failed} then INTERRUPTED else "")
    && (b.status.Complete? ==> b.characters != [] && |b.characters| == |b.planned|)
    && (b.status.Partial? ==> b.characters != [])
    && (b.status.Failed? ==> b.characters == [])
  }

  ghost predicate EntryOk(key: RequestKey, b: Batch, issued: set<string>) {
    && KeyOf(b) == key
    && b.batchId in issued && IsBatchId(b.batchId)
    && b.user.role == USER && b.user.batchId == b.batchId
    && (forall j :: 0 <= j < |b.characters| ==>
      b.characters[j].role == ASSISTANT && b.characters[j].batchId == b.batchId)
    && WellFormed(b)
  }

  ghost predicate EntryAt(s: Store, issued: set<string>, k: RequestKey) {
    k in s.requests ==> EntryOk(k, s.requests[k], issued)
  }

  ghost predicate DistinctAt(s: Store, k: RequestKey, l: RequestKey) {
    k in s.requests && l in s.requests && k != l ==> s.requests[k].batchId != s.requests[l].batchId
  }

  ghost predicate EntriesOk(s: Store, issued: set<string>) {
    && (forall k :: EntryAt(s, issued, k))
    && (forall k, l :: DistinctAt(s, k, l))
    && (s.lease.Held? ==> s.lease.token in issued)
  }

  ghost predicate InFlight(w: Worker) {
    w.phase in {Planning, Speaking}
  }

  ghost predicate Terminal(b: Batch) {
    !b.status.Generating?
  }

  /** How a request's snapshot may change: it keeps its identity, only grows, and freezes once terminal. */
  ghost predicate Evolves(b: Batch, c: Batch) {
    && c.batchId == b.batchId && c.clientRequestId == b.clientRequestId
    && c.createdAt == b.createdAt && c.user == b.user
    && b.characters <= c.characters
    && (Terminal(b) ==> c == b)
  }

  ghost predicate EvolvesAt(s: Store, t: Store, k: RequestKey) {
    k in s.requests ==> k in t.requests && Evolves(s.requests[k], t.requests[k])
  }

  ghost predicate LedgerEvolves(s: Store, t: Store) {
    forall k :: EvolvesAt(s, t, k)
  }

  /** While a worker's token is in the lease cell its batch is generating, and ledger, cell and local copy agree. */
  ghost predicate Leased(s: Store, w: Worker)
    requires KeyOf(w.batch) in s.requests
  {
    var entry := s.requests[KeyOf(w.batch)];
    && entry.status.Generating?
    && entry.batchId in s.batches && s.batches[entry.batchId] == entry
    && !w.phase.Returned?
    && (InFlight(w) ==> entry == w.batch)
  }

  ghost predicate WorkerOk(s: Store, issued: set<string>, w: Worker) {
    && w.batch.clientRequestId == w.requestId
    && (w.began ==>
          && w.token in issued
          && KeyOf(w.batch) in s.requests && s.requests[KeyOf(w.batch)].batchId == w.batch.batchId
          && (InFlight(w) ==> w.batch.status.Generating? && EntryOk(KeyOf(w.batch), w.batch, issued))
          && (w.phase.Planning? ==> w.batch.characters == [])
          && (w.phase.Speaking? ==> w.batch.planned != [])
          && (HoldsLease(s, w.token) ==> Leased(s, w))
          && (w.phase.Returned? ==> Terminal(w.batch) && s.requests[KeyOf(w.batch)] == w.batch)
          && (w.phase.Raised? ==> w.phase.cause in {LeaseLost, Other})
          && (w.phase.Unwinding? ==> w.phase.failure in {LeaseLost, Other})
          && (w.phase in {Unwinding(LeaseLost), Raised(LeaseLost)} ==> !HoldsLease(s, w.token)))
    && (!w.began ==>
          && (w.phase.Returned? || w.phase.Raised?)
          && (w.phase.Returned? ==> KeyOf(w.batch) in s.requests && Evolves(w.batch, s.requests[KeyOf(w.batch)])))
  }

  ghost predicate WorkerAt(sys: Sys, w: nat) {
    w in sys.workers ==> WorkerOk(sys.store, sys.issued, sys.workers[w])
  }

  /** No two workers share a token or a request. */
  ghost predicate ApartAt(sys: Sys, v: nat, w: nat) {
    v in sys.workers && w in sys.workers && v != w && sys.workers[v].began && sys.workers[w].began ==>
      && sys.workers[v].token != sys.workers[w].token
      && KeyOf(sys.workers[v].batch) != KeyOf(sys.workers[w].batch)
  }

  ghost predicate StartedBy(sys: Sys, w: nat, k: RequestKey) {
    w in sys.workers && sys.workers[w].began && KeyOf(sys.workers[w].batch) == k
  }

  ghost predicate AttributedAt(sys: Sys, k: RequestKey) {
    k in sys.store.requests ==> exists w :: StartedBy(sys, w, k)
  }

  ghost predicate Inv(sys: Sys) {
    && EntriesOk(sys.store, sys.issued)
    && (forall w :: WorkerAt(sys, w))
    && (forall v, w :: ApartAt(sys, v, w))
    && (forall k :: AttributedAt(sys, k))
  }
}

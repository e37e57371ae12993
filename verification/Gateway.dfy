/** The gateway's send handlers of one ordinary user: reserve quota, call the agent, settle. Both ledgers
    move under any interleaving of handlers, agent workers, retries, crashes and lost connections. */
module Gateway {
  import opened Wrappers
  import opened BeijingClock
  import opened DailyQuota
  import opened QuotaManager
  import C = ConversationStore
  import P = SendProtocol
  import opened LeaseInvariant

  // Lost: the connection or the gateway went away; the reservation stays as it is.
  datatype HandlerPhase = Turned | Waiting | Lost | Answered(outcome: Outcome)

  datatype Handler = Handler(conversationId: string, requestId: string, key: LedgerKey, phase: HandlerPhase)

  // `scopes` are the conversations the agent knows; worker ids in them are the ids of the handlers that called.
  datatype World = World(limit: nat, user: string, book: Book, scopes: map<string, P.Sys>, handlers: map<nat, Handler>)

  // A reservation whose reply is lost is a `Reserve` and a `Lose` of a handler that no worker ever serves.
  datatype Move =
    | Reserve(handler: nat, conversationId: string, requestId: string, now: int)
    | Agent(conversationId: string, event: P.Event)
    | Answer(handler: nat, now: int)
    | Reject(handler: nat, now: int)
    | Lose(handler: nat)

  function ScopedId(conversationId: string, requestId: string): string {
    conversationId + "\0" + requestId
  }

  // Client request ids are validated as UUIDs, so they hold no NUL.
  predicate NulFree(requestId: string) {
    forall i :: 0 <= i < |requestId| ==> requestId[i] != '\0'
  }

  /** The scoped request id tells the conversation and the client's id apart. */
  lemma ScopedIdIsInjective(c: string, r: string, d: string, q: string)
    requires NulFree(r) && NulFree(q)
    ensures ScopedId(c, r) == ScopedId(d, q) <==> c == d && r == q
  {
    LastNul(c, r);
    LastNul(d, q);
    if ScopedId(c, r) == ScopedId(d, q) {
      assert |c| == |d|;
      assert ScopedId(c, r)[..|c|] == c && ScopedId(d, q)[..|d|] == d;
      assert ScopedId(c, r)[|c| + 1..] == r && ScopedId(d, q)[|d| + 1..] == q;
    }
  }

  lemma LastNul(c: string, r: string)
    requires NulFree(r)
    ensures ScopedId(c, r)[|c|] == '\0'
    ensures forall i :: |c| < i < |ScopedId(c, r)| ==> ScopedId(c, r)[i] != '\0'
  {
  }

  function FieldOf(h: Handler): string {
    RequestField(ScopedId(h.conversationId, h.requestId))
  }

  function QuotaOutcome(b: C.Batch): Outcome {
    if b.characters != [] then AsDelivered
    else if b.status.Generating? then Pending
    else AsFailed
  }

  // The status codes orchestrationStatus maps a failure to, and the gateway's reading of them.
  predicate DefinitiveFailure(cause: P.Failure) {
    !cause.Other?
  }

  predicate Done(worker: P.Worker) {
    worker.phase.Returned? || worker.phase.Raised?
  }

  function OutcomeOf(worker: P.Worker): Outcome
    requires Done(worker)
  {
    if worker.phase.Returned? then QuotaOutcome(worker.batch)
    else if DefinitiveFailure(worker.phase.cause) then AsFailed
    else Pending
  }

  function WorkerOf(g: World, h: nat): Option<P.Worker>
    requires h in g.handlers
  {
    if g.handlers[h].conversationId in g.scopes then Get(g.scopes[g.handlers[h].conversationId].workers, h) else None
  }

  // The agent starts a worker only for a call a handler made.
  predicate Called(g: World, conversationId: string, w: nat, requestId: string) {
    && w in g.handlers && (g.handlers[w].phase.Waiting? || g.handlers[w].phase.Lost?)
    && g.handlers[w].conversationId == conversationId && g.handlers[w].requestId == requestId
  }

  predicate CanMove(g: World, m: Move) {
    match m
    case Reserve(h, _, requestId, _) => h !in g.handlers && NulFree(requestId)
    case Agent(c, e) =>
      && c in g.scopes && P.Enabled(g.scopes[c], e)
      && (e.Begin? || e.Refuse? ==> Called(g, c, e.worker, e.requestId))
    case Answer(h, now) =>
      && h in g.handlers && g.handlers[h].phase.Waiting? && WorkerOf(g, h).Some? && Done(WorkerOf(g, h).value)
      && now < StartOf(g.handlers[h].key.day + 2)
    case Reject(h, now) =>
      && h in g.handlers && g.handlers[h].phase.Waiting? && WorkerOf(g, h).None?
      && now < StartOf(g.handlers[h].key.day + 2)
    case Lose(h) => h in g.handlers && g.handlers[h].phase.Waiting?
  }

  function Settle(g: World, h: nat, outcome: Outcome, now: int): World
    requires h in g.handlers
  {
    var handler := g.handlers[h];
    g.(book := SettleOn(g.book, handler.key, FieldOf(handler), outcome, StartOf(handler.key.day + 2), now),
       handlers := g.handlers[h := handler.(phase := Answered(outcome))])
  }

  function MoveTo(g: World, m: Move): World
    requires CanMove(g, m)
  {
    match m
    case Reserve(h, c, requestId, now) =>
      var (book, reply) := ReserveOn(g.book, g.limit, g.user, ScopedId(c, requestId), now);
      var handler := Handler(c, requestId, ReservedKey(g.user, now, reply.source),
                             if reply.accepted then Waiting else Turned);
      g.(book := book, handlers := g.handlers[h := handler])
    case Agent(c, e) => g.(scopes := g.scopes[c := P.Step(g.scopes[c], e)])
    case Answer(h, now) => Settle(g, h, OutcomeOf(WorkerOf(g, h).value), now)
    case Reject(h, now) => Settle(g, h, AsFailed, now)
    case Lose(h) => g.(handlers := g.handlers[h := g.handlers[h].(phase := Lost)])
  }

  // ---- What every reachable world keeps ----

  ghost predicate ScopeAt(g: World, c: string) {
    c in g.scopes ==> P.Inv(g.scopes[c])
  }

  /** A worker serves the handler of the same id. */
  ghost predicate ServedAt(g: World, c: string, w: nat) {
    c in g.scopes && w in g.scopes[c].workers ==>
      && w in g.handlers && g.handlers[w].conversationId == c
      && g.handlers[w].requestId == g.scopes[c].workers[w].requestId
      && g.handlers[w].phase != Turned
  }

  ghost predicate Replied(g: World, c: string, k: C.RequestKey) {
    c in g.scopes && k in g.scopes[c].store.requests && g.scopes[c].store.requests[k].characters != []
  }

  ghost predicate HasReply(g: World, c: string, requestId: string) {
    exists day :: Replied(g, c, C.RequestKey(day, requestId))
  }

  ghost predicate Delivers(g: World, key: LedgerKey, field: string) {
    key in g.book && field in g.book[key].fields && g.book[key].fields[field] == Text(Delivered)
  }

  /** A request is delivered in quota only if its conversation batch has a character message. */
  ghost predicate EarnedAt(g: World, key: LedgerKey, c: string, requestId: string) {
    NulFree(requestId) && Delivers(g, key, RequestField(ScopedId(c, requestId))) ==> HasReply(g, c, requestId)
  }

  ghost predicate Sound(g: World) {
    && BookOk(g.book, g.limit)
    && (forall c :: ScopeAt(g, c))
    && (forall c, w :: ServedAt(g, c, w))
    && (forall h :: h in g.handlers ==> NulFree(g.handlers[h].requestId))
    && (forall key, c, requestId :: EarnedAt(g, key, c, requestId))
  }

  lemma ReplyPersists(g: World, g': World, c: string, e: P.Event, d: string, requestId: string)
    requires Sound(g) && CanMove(g, Agent(c, e)) && g' == MoveTo(g, Agent(c, e)) && HasReply(g, d, requestId)
    ensures HasReply(g', d, requestId)
  {
    assert ScopeAt(g, c);
    StepKeepsInv(g.scopes[c], e);
    var day :| Replied(g, d, C.RequestKey(day, requestId));
    assert P.EvolvesAt(g.scopes[c].store, g'.scopes[c].store, C.RequestKey(day, requestId));
    assert Replied(g', d, C.RequestKey(day, requestId));
  }

  lemma AgentKeepsSound(g: World, c: string, e: P.Event)
    requires Sound(g) && CanMove(g, Agent(c, e))
    ensures Sound(MoveTo(g, Agent(c, e)))
  {
    var g' := MoveTo(g, Agent(c, e));
    assert ScopeAt(g, c);
    StepKeepsInv(g.scopes[c], e);
    forall d ensures ScopeAt(g', d) {
      assert ScopeAt(g, d);
    }
    forall d, w ensures ServedAt(g', d, w) {
      assert ServedAt(g, d, w);
      if w in g'.scopes[c].workers {
        StepKeepsRequestIds(g.scopes[c], e, w);
      }
    }
    forall key, d, requestId ensures EarnedAt(g', key, d, requestId) {
      assert EarnedAt(g, key, d, requestId);
      if HasReply(g, d, requestId) {
        ReplyPersists(g, g', c, e, d, requestId);
      }
    }
  }

  lemma StepKeepsRequestIds(sys: P.Sys, e: P.Event, w: nat)
    requires P.Enabled(sys, e) && w in P.Step(sys, e).workers
    ensures w in sys.workers ==> P.Step(sys, e).workers[w].requestId == sys.workers[w].requestId
    ensures w !in sys.workers ==>
      (e.Begin? || e.Refuse?) && e.worker == w && P.Step(sys, e).workers[w].requestId == e.requestId
  {
  }

  // A reservation delivers nothing.
  lemma ReserveDeliversNothing(g: World, m: Move, key: LedgerKey, field: string)
    requires m.Reserve? && CanMove(g, m) && IsRequestField(field) && Delivers(MoveTo(g, m), key, field)
    ensures Delivers(g, key, field)
  {
    RequestFieldsAreNotCounters(field);
    RequestFieldIsInjective(ScopedId(m.conversationId, m.requestId), "");
  }

  lemma ReserveKeepsSound(g: World, m: Move)
    requires Sound(g) && m.Reserve? && CanMove(g, m)
    ensures Sound(MoveTo(g, m))
  {
    var g' := MoveTo(g, m);
    ReserveOnKeepsOk(g.book, g.limit, g.user, ScopedId(m.conversationId, m.requestId), m.now);
    forall c ensures ScopeAt(g', c) {
      assert ScopeAt(g, c);
    }
    forall c, w ensures ServedAt(g', c, w) {
      assert ServedAt(g, c, w);
    }
    forall key, c, requestId ensures EarnedAt(g', key, c, requestId) {
      assert EarnedAt(g, key, c, requestId);
      RequestFieldIsInjective(ScopedId(c, requestId), "");
      if Delivers(g', key, RequestField(ScopedId(c, requestId))) {
        ReserveDeliversNothing(g, m, key, RequestField(ScopedId(c, requestId)));
      }
      if HasReply(g, c, requestId) {
        SameScopesSameReplies(g, g', c, requestId);
      }
    }
  }

  lemma SameScopesSameReplies(g: World, g': World, c: string, requestId: string)
    requires g'.scopes == g.scopes && HasReply(g, c, requestId)
    ensures HasReply(g', c, requestId)
  {
    var day :| Replied(g, c, C.RequestKey(day, requestId));
    assert Replied(g', c, C.RequestKey(day, requestId));
  }

  lemma SettleDelivers(g: World, h: nat, outcome: Outcome, now: int, key: LedgerKey, field: string)
    requires h in g.handlers && IsRequestField(field) && Delivers(Settle(g, h, outcome, now), key, field)
    ensures Delivers(g, key, field) || (outcome.AsDelivered? && field == FieldOf(g.handlers[h]))
  {
    RequestFieldsAreNotCounters(field);
    RequestFieldIsInjective(ScopedId(g.handlers[h].conversationId, g.handlers[h].requestId), "");
  }

  lemma AnswerIsEarned(g: World, h: nat)
    requires Sound(g) && h in g.handlers && WorkerOf(g, h).Some? && Done(WorkerOf(g, h).value)
    requires OutcomeOf(WorkerOf(g, h).value).AsDelivered?
    ensures HasReply(g, g.handlers[h].conversationId, g.handlers[h].requestId)
  {
    var c := g.handlers[h].conversationId;
    var worker := WorkerOf(g, h).value;
    assert ScopeAt(g, c) && ServedAt(g, c, h) && P.WorkerAt(g.scopes[c], h);
    assert Replied(g, c, C.RequestKey(C.KeyOf(worker.batch).day, g.handlers[h].requestId));
  }

  lemma SettleKeepsSound(g: World, h: nat, outcome: Outcome, now: int)
    requires Sound(g) && h in g.handlers && g.handlers[h].phase.Waiting?
    requires outcome.AsDelivered? ==> HasReply(g, g.handlers[h].conversationId, g.handlers[h].requestId)
    ensures Sound(Settle(g, h, outcome, now))
  {
    var g' := Settle(g, h, outcome, now);
    var handler := g.handlers[h];
    RequestFieldIsInjective(ScopedId(handler.conversationId, handler.requestId), "");
    SettleOnKeepsOk(g.book, g.limit, handler.key, FieldOf(handler), outcome, now);
    forall c ensures ScopeAt(g', c) {
      assert ScopeAt(g, c);
    }
    forall c, w ensures ServedAt(g', c, w) {
      assert ServedAt(g, c, w);
    }
    forall key, c, requestId ensures EarnedAt(g', key, c, requestId) {
      assert EarnedAt(g, key, c, requestId);
      RequestFieldIsInjective(ScopedId(c, requestId), ScopedId(handler.conversationId, handler.requestId));
      if NulFree(requestId) && Delivers(g', key, RequestField(ScopedId(c, requestId))) {
        SettleDelivers(g, h, outcome, now, key, RequestField(ScopedId(c, requestId)));
        ScopedIdIsInjective(c, requestId, handler.conversationId, handler.requestId);
        SameScopesSameReplies(g, g', c, requestId);
      }
    }
  }

  lemma MoveKeepsSound(g: World, m: Move)
    requires Sound(g) && CanMove(g, m)
    ensures Sound(MoveTo(g, m))
  {
    match m
    case Reserve(_, _, _, _) => ReserveKeepsSound(g, m);
    case Agent(c, e) => AgentKeepsSound(g, c, e);
    case Answer(h, now) =>
      if OutcomeOf(WorkerOf(g, h).value).AsDelivered? {
        AnswerIsEarned(g, h);
      }
      SettleKeepsSound(g, h, OutcomeOf(WorkerOf(g, h).value), now);
    case Reject(h, now) => SettleKeepsSound(g, h, AsFailed, now);
    case Lose(h) => LoseKeepsSound(g, h);
  }

  lemma LoseKeepsSound(g: World, h: nat)
    requires Sound(g) && CanMove(g, Lose(h))
    ensures Sound(MoveTo(g, Lose(h)))
  {
    var g' := MoveTo(g, Lose(h));
    forall c ensures ScopeAt(g', c) {
      assert ScopeAt(g, c);
    }
    forall c, w ensures ServedAt(g', c, w) {
      assert ServedAt(g, c, w);
    }
    forall key, c, requestId ensures EarnedAt(g', key, c, requestId) {
      assert EarnedAt(g, key, c, requestId);
      if HasReply(g, c, requestId) {
        SameScopesSameReplies(g, g', c, requestId);
      }
    }
  }

  // ---- Runs ----

  /** A day without history: any set of conversations, no handler, no quota used. */
  ghost predicate Fresh(g: World) {
    && g.book == map[] && g.handlers == map[]
    && forall c :: c in g.scopes ==> g.scopes[c] == P.Init(c)
  }

  ghost predicate IsRun(worlds: seq<World>, moves: seq<Move>) {
    && |worlds| == |moves| + 1 && Fresh(worlds[0])
    && forall i :: 0 <= i < |moves| ==> CanMove(worlds[i], moves[i]) && worlds[i + 1] == MoveTo(worlds[i], moves[i])
  }

  lemma FreshIsSound(g: World)
    requires Fresh(g)
    ensures Sound(g)
  {
    forall c ensures ScopeAt(g, c) {
      if c in g.scopes {
        forall w ensures P.WorkerAt(g.scopes[c], w) {
        }
      }
    }
  }

  lemma {:induction false} RunIsSound(worlds: seq<World>, moves: seq<Move>, i: nat)
    requires IsRun(worlds, moves) && i < |worlds|
    ensures Sound(worlds[i])
  {
    if i == 0 {
      FreshIsSound(worlds[0]);
    } else {
      RunIsSound(worlds, moves, i - 1);
      MoveKeepsSound(worlds[i - 1], moves[i - 1]);
    }
  }

  /** In every reachable world, a request charged as delivered has a character message in its conversation. */
  lemma DeliveredMeansReplied(worlds: seq<World>, moves: seq<Move>, i: nat, key: LedgerKey, c: string,
      requestId: string)
    requires IsRun(worlds, moves) && i < |worlds| && NulFree(requestId)
    requires Delivers(worlds[i], key, RequestField(ScopedId(c, requestId)))
    ensures exists day :: Replied(worlds[i], c, C.RequestKey(day, requestId))
  {
    RunIsSound(worlds, moves, i);
    assert EarnedAt(worlds[i], key, c, requestId);
  }

  // ---- Answers ----

  /** The call came to a batch with a character message. */
  predicate Fruitful(worker: Option<P.Worker>) {
    worker.Some? && worker.value.phase.Returned? && worker.value.batch.characters != []
  }

  /** The call came to nothing: no worker, a settled batch without a message, or a failure that is final. */
  predicate Fruitless(worker: Option<P.Worker>) {
    || worker.None?
    || (worker.value.phase.Returned? && worker.value.batch.characters == []
        && worker.value.batch.status in {C.Complete, C.Partial, C.Failed})
    || (worker.value.phase.Raised? && worker.value.phase.cause in {P.InvalidRequest, P.MessageTooLarge,
                                                                   P.ConversationNotFound, P.NotStarted,
                                                                   P.ConversationBusy, P.LeaseLost})
  }

  // The outcome a handler reads off its worker.
  lemma OutcomesTell(worker: P.Worker)
    requires Done(worker)
    ensures OutcomeOf(worker) ==
      if Fruitful(Some(worker)) then AsDelivered else if Fruitless(Some(worker)) then AsFailed else Pending
  {
  }

  /** An answer says what its call came to, and a handler answered without a worker never gets one. */
  ghost predicate AnsweredAt(g: World, h: nat) {
    h in g.handlers && g.handlers[h].phase.Answered? ==>
      var outcome := g.handlers[h].phase.outcome;
      && (WorkerOf(g, h).Some? ==> Done(WorkerOf(g, h).value))
      && (outcome.AsDelivered? <==> Fruitful(WorkerOf(g, h)))
      && (outcome.AsFailed? <==> Fruitless(WorkerOf(g, h)))
  }

  lemma MoveKeepsAnswers(g: World, m: Move, h: nat)
    requires CanMove(g, m) && AnsweredAt(g, h)
    ensures AnsweredAt(MoveTo(g, m), h)
  {
    if m.Answer? && m.handler == h {
      OutcomesTell(WorkerOf(g, h).value);
    } else if m.Agent? && h in g.handlers {
      AnsweredWorkersAreStill(g, m.conversationId, m.event, h);
    }
  }

  lemma AnsweredWorkersAreStill(g: World, c: string, e: P.Event, h: nat)
    requires CanMove(g, Agent(c, e)) && h in g.handlers && g.handlers[h].phase.Answered?
      ==> WorkerOf(g, h).None? || Done(WorkerOf(g, h).value)
    requires CanMove(g, Agent(c, e)) && h in g.handlers
    ensures g.handlers[h].phase.Answered? ==> WorkerOf(MoveTo(g, Agent(c, e)), h) == WorkerOf(g, h)
  {
  }

  lemma {:induction false} RunAnswers(worlds: seq<World>, moves: seq<Move>, i: nat, h: nat)
    requires IsRun(worlds, moves) && i < |worlds|
    ensures AnsweredAt(worlds[i], h)
  {
    if i > 0 {
      RunAnswers(worlds, moves, i - 1, h);
      MoveKeepsAnswers(worlds[i - 1], moves[i - 1], h);
    }
  }
}

/** Which replies are charged, when every request is submitted once. */
module Charging {
  import opened Wrappers
  import opened BeijingClock
  import opened DailyQuota
  import opened QuotaManager
  import C = ConversationStore
  import P = SendProtocol
  import opened Gateway

  /** No two handlers submitted the same request to the same conversation. */
  ghost predicate Once(g: World) {
    forall h, i :: h in g.handlers && i in g.handlers && h != i ==>
      g.handlers[h].conversationId != g.handlers[i].conversationId || g.handlers[h].requestId != g.handlers[i].requestId
  }

  /** These handlers submitted different requests. */
  ghost predicate Apart(g: World, handlers: set<nat>) {
    forall h, i :: h in handlers && i in handlers && h != i && h in g.handlers && i in g.handlers ==>
      g.handlers[h].conversationId != g.handlers[i].conversationId || g.handlers[h].requestId != g.handlers[i].requestId
  }

  ghost predicate Charged(g: World, h: nat)
    requires h in g.handlers
  {
    Holds(g.book, g.handlers[h].key, FieldOf(g.handlers[h]))
  }

  ghost predicate Reserves(g: World, h: nat, key: LedgerKey, field: string) {
    h in g.handlers && g.handlers[h].phase != Turned && g.handlers[h].key == key && FieldOf(g.handlers[h]) == field
  }

  ghost predicate OwnedAt(g: World, key: LedgerKey, field: string) {
    IsRequestField(field) && Holds(g.book, key, field) ==> exists h :: Reserves(g, h, key, field)
  }

  function OwnState(g: World, h: nat): Option<Cell>
    requires h in g.handlers
  {
    StateOf(g.book, g.handlers[h].key, FieldOf(g.handlers[h]))
  }

  /** What an answer makes of a reservation. */
  function Settled(outcome: Outcome): Option<Cell> {
    match outcome
    case Pending => Some(Text(Reserved))
    case AsDelivered => Some(Text(Delivered))
    case AsFailed => None
  }

  /** An unanswered handler's request is reserved, an answered one's is as it was settled. */
  ghost predicate KeptAt(g: World, h: nat) {
    h in g.handlers ==>
      match g.handlers[h].phase
      case Turned => true
      case Answered(outcome) => OwnState(g, h) == Settled(outcome)
      case Waiting => OwnState(g, h) == Some(Text(Reserved))
      case Lost => OwnState(g, h) == Some(Text(Reserved))
  }

  ghost predicate Ledgered(g: World) {
    && (forall key, field :: OwnedAt(g, key, field))
    && (forall h :: KeptAt(g, h))
  }

  lemma SameField(g: World, h: nat, i: nat)
    requires Sound(g) && h in g.handlers && i in g.handlers
    requires g.handlers[h].conversationId != g.handlers[i].conversationId
      || g.handlers[h].requestId != g.handlers[i].requestId
    ensures FieldOf(g.handlers[h]) != FieldOf(g.handlers[i])
  {
    var a, b := g.handlers[h], g.handlers[i];
    ScopedIdIsInjective(a.conversationId, a.requestId, b.conversationId, b.requestId);
    RequestFieldIsInjective(ScopedId(a.conversationId, a.requestId), ScopedId(b.conversationId, b.requestId));
  }

  // ---- Reserve ----

  // A first submission finds its request on no ledger.
  lemma FirstSubmissionIsNew(g: World, m: Move, key: LedgerKey)
    requires Sound(g) && Ledgered(g) && m.Reserve? && CanMove(g, m) && Once(MoveTo(g, m))
    ensures !Holds(g.book, key, RequestField(ScopedId(m.conversationId, m.requestId)))
  {
    var field := RequestField(ScopedId(m.conversationId, m.requestId));
    RequestFieldIsInjective(ScopedId(m.conversationId, m.requestId), "");
    assert OwnedAt(g, key, field);
    forall i | i in g.handlers ensures FieldOf(g.handlers[i]) != field {
      FieldsDifferFromNewcomer(g, m, i);
    }
  }

  // A reservation of a new request either stores it, reserved, on the current ledger or changes no field.
  lemma NewRequestIsStored(book: Book, limit: int, user: string, requestId: string, now: int, key: LedgerKey,
      field: string)
    requires BookOk(book, limit) && IsRequestField(field)
    requires !Holds(book, LedgerKey(user, DayOf(now)), RequestField(requestId))
    requires !Holds(book, LedgerKey(user, DayOf(now) - 1), RequestField(requestId))
    ensures var (after, reply) := ReserveOn(book, limit, user, requestId, now);
      && !reply.source.Previous?
      && StateOf(after, key, field) ==
           if reply.accepted && key == LedgerKey(user, DayOf(now)) && field == RequestField(requestId)
           then Some(Text(Reserved))
           else StateOf(book, key, field)
  {
    PreviousWindowIsAlive(user, now);
    RequestFieldsAreNotCounters(field);
    RequestFieldIsInjective(requestId, "");
    RequestFieldsAreNotCounters(RequestField(requestId));
  }

  // What a first submission does to one field of one ledger.
  lemma FirstSubmissionReserves(g: World, m: Move, key: LedgerKey, field: string)
    requires Sound(g) && Ledgered(g) && m.Reserve? && CanMove(g, m) && Once(MoveTo(g, m)) && IsRequestField(field)
    ensures var (g', own) := (MoveTo(g, m), RequestField(ScopedId(m.conversationId, m.requestId)));
      var handler := g'.handlers[m.handler];
      StateOf(g'.book, key, field) ==
        if handler.phase.Waiting? && key == handler.key && field == own then Some(Text(Reserved))
        else StateOf(g.book, key, field)
  {
    FirstSubmissionIsNew(g, m, LedgerKey(g.user, DayOf(m.now)));
    FirstSubmissionIsNew(g, m, LedgerKey(g.user, DayOf(m.now) - 1));
    NewRequestIsStored(g.book, g.limit, g.user, ScopedId(m.conversationId, m.requestId), m.now, key, field);
  }

  lemma ReserveKeepsLedgered(g: World, m: Move)
    requires Sound(g) && Ledgered(g) && m.Reserve? && CanMove(g, m) && Once(MoveTo(g, m))
    ensures Ledgered(MoveTo(g, m))
  {
    var g' := MoveTo(g, m);
    forall key, field ensures OwnedAt(g', key, field) {
      if IsRequestField(field) {
        assert OwnedAt(g, key, field);
        FirstSubmissionReserves(g, m, key, field);
        if Holds(g.book, key, field) {
          var h :| Reserves(g, h, key, field);
          assert Reserves(g', h, key, field);
        } else if Holds(g'.book, key, field) {
          assert Reserves(g', m.handler, key, field);
        }
      }
    }
    forall h ensures KeptAt(g', h) {
      assert KeptAt(g, h);
      if h in g.handlers {
        var handler := g.handlers[h];
        RequestFieldIsInjective(ScopedId(handler.conversationId, handler.requestId), "");
        FirstSubmissionReserves(g, m, handler.key, FieldOf(handler));
        FieldsDifferFromNewcomer(g, m, h);
      } else if h == m.handler {
        RequestFieldIsInjective(ScopedId(m.conversationId, m.requestId), "");
        FirstSubmissionReserves(g, m, g'.handlers[h].key, FieldOf(g'.handlers[h]));
      }
    }
  }

  lemma FieldsDifferFromNewcomer(g: World, m: Move, h: nat)
    requires Sound(g) && m.Reserve? && CanMove(g, m) && Once(MoveTo(g, m)) && h in g.handlers
    ensures FieldOf(g.handlers[h]) != RequestField(ScopedId(m.conversationId, m.requestId))
  {
    ReserveKeepsSound(g, m);
    SameField(MoveTo(g, m), h, m.handler);
  }

  // ---- Settle ----

  // What a settlement does to one field of one ledger.
  lemma SettleTouchesItsField(g: World, h: nat, outcome: Outcome, now: int, key: LedgerKey, field: string)
    requires Sound(g) && KeptAt(g, h) && h in g.handlers && g.handlers[h].phase.Waiting? && IsRequestField(field)
    requires now < StartOf(g.handlers[h].key.day + 2)
    ensures var (g', own) := (Settle(g, h, outcome, now), FieldOf(g.handlers[h]));
      StateOf(g'.book, key, field) ==
        if key == g.handlers[h].key && field == own then Settled(outcome) else StateOf(g.book, key, field)
  {
    RequestFieldsAreNotCounters(field);
    RequestFieldIsInjective(ScopedId(g.handlers[h].conversationId, g.handlers[h].requestId), "");
    RequestFieldsAreNotCounters(FieldOf(g.handlers[h]));
  }

  lemma SettleKeepsLedgered(g: World, h: nat, outcome: Outcome, now: int)
    requires Sound(g) && Ledgered(g) && Once(g) && h in g.handlers && g.handlers[h].phase.Waiting?
    requires now < StartOf(g.handlers[h].key.day + 2)
    ensures Ledgered(Settle(g, h, outcome, now))
  {
    var g' := Settle(g, h, outcome, now);
    assert KeptAt(g, h);
    forall key, field ensures OwnedAt(g', key, field) {
      if IsRequestField(field) {
        assert OwnedAt(g, key, field);
        SettleTouchesItsField(g, h, outcome, now, key, field);
        if Holds(g.book, key, field) {
          var i :| Reserves(g, i, key, field);
          assert Reserves(g', i, key, field);
        }
      }
    }
    forall i ensures KeptAt(g', i) {
      assert KeptAt(g, i);
      if i in g.handlers {
        var handler := g.handlers[i];
        RequestFieldIsInjective(ScopedId(handler.conversationId, handler.requestId), "");
        SettleTouchesItsField(g, h, outcome, now, handler.key, FieldOf(handler));
        if i != h {
          SameField(g, h, i);
        }
      }
    }
  }

  // ---- The agent ----

  lemma AgentKeepsLedgered(g: World, c: string, e: P.Event)
    requires Ledgered(g) && CanMove(g, Agent(c, e))
    ensures Ledgered(MoveTo(g, Agent(c, e)))
  {
    var g' := MoveTo(g, Agent(c, e));
    forall key, field ensures OwnedAt(g', key, field) {
      assert OwnedAt(g, key, field);
      if IsRequestField(field) && Holds(g.book, key, field) {
        var i :| Reserves(g, i, key, field);
        assert Reserves(g', i, key, field);
      }
    }
    forall h ensures KeptAt(g', h) {
      assert KeptAt(g, h);
    }
  }

  lemma LoseKeepsLedgered(g: World, h: nat)
    requires Ledgered(g) && CanMove(g, Lose(h))
    ensures Ledgered(MoveTo(g, Lose(h)))
  {
    var g' := MoveTo(g, Lose(h));
    forall key, field ensures OwnedAt(g', key, field) {
      assert OwnedAt(g, key, field);
      if IsRequestField(field) && Holds(g.book, key, field) {
        var i :| Reserves(g, i, key, field);
        assert Reserves(g', i, key, field);
      }
    }
    forall i ensures KeptAt(g', i) {
      assert KeptAt(g, i);
    }
  }

  lemma MoveKeepsLedgered(g: World, m: Move)
    requires Sound(g) && Ledgered(g) && CanMove(g, m) && Once(MoveTo(g, m))
    ensures Ledgered(MoveTo(g, m))
  {
    OnceBefore(g, m);
    match m
    case Reserve(_, _, _, _) => ReserveKeepsLedgered(g, m);
    case Agent(c, e) => AgentKeepsLedgered(g, c, e);
    case Answer(h, now) => SettleKeepsLedgered(g, h, OutcomeOf(WorkerOf(g, h).value), now);
    case Reject(h, now) => SettleKeepsLedgered(g, h, AsFailed, now);
    case Lose(h) => LoseKeepsLedgered(g, h);
  }

  lemma OnceBefore(g: World, m: Move)
    requires CanMove(g, m) && Once(MoveTo(g, m))
    ensures Once(g)
  {
    var g' := MoveTo(g, m);
    forall h, i | h in g.handlers && i in g.handlers && h != i
      ensures g.handlers[h].conversationId != g.handlers[i].conversationId
        || g.handlers[h].requestId != g.handlers[i].requestId
    {
      assert h in g'.handlers && i in g'.handlers;
      assert g'.handlers[h].conversationId == g.handlers[h].conversationId
        && g'.handlers[i].conversationId == g.handlers[i].conversationId;
    }
  }

  lemma {:induction false} RunIsLedgered(worlds: seq<World>, moves: seq<Move>, i: nat)
    requires IsRun(worlds, moves) && i < |worlds| && Once(worlds[i])
    ensures Ledgered(worlds[i])
  {
    if i > 0 {
      OnceBefore(worlds[i - 1], moves[i - 1]);
      RunIsLedgered(worlds, moves, i - 1);
      RunIsSound(worlds, moves, i - 1);
      MoveKeepsLedgered(worlds[i - 1], moves[i - 1]);
    }
  }

  // ---- Results ----

  /** With every request submitted once, an answered request is delivered exactly when its call came to a message,
      off its ledger exactly when the call came to nothing, and reserved otherwise. */
  lemma AnswersAreSettled(worlds: seq<World>, moves: seq<Move>, i: nat, h: nat)
    requires IsRun(worlds, moves) && i < |worlds| && Once(worlds[i])
    requires h in worlds[i].handlers && worlds[i].handlers[h].phase.Answered?
    ensures OwnState(worlds[i], h) ==
      if Fruitful(WorkerOf(worlds[i], h)) then Some(Text(Delivered))
      else if Fruitless(WorkerOf(worlds[i], h)) then None
      else Some(Text(Reserved))
  {
    RunIsLedgered(worlds, moves, i);
    RunAnswers(worlds, moves, i, h);
    assert KeptAt(worlds[i], h);
  }

  /** The guard of the one way out: the handler was answered after its worker had lost the lease. */
  predicate AnsweredLeaseLost(g: World, h: nat) {
    && h in g.handlers && g.handlers[h].phase.Answered?
    && WorkerOf(g, h).Some? && WorkerOf(g, h).value.phase == P.Raised(P.LeaseLost)
  }

  ghost predicate Serves(g: World, h: nat, c: string, k: C.RequestKey) {
    && h in g.handlers && g.handlers[h].conversationId == c && g.handlers[h].requestId == k.id
    && g.handlers[h].phase != Turned
    && WorkerOf(g, h).Some? && WorkerOf(g, h).value.began && C.KeyOf(WorkerOf(g, h).value.batch) == k
  }

  lemma EveryReplyHasAHandler(g: World, c: string, k: C.RequestKey)
    requires Sound(g) && Replied(g, c, k)
    ensures exists h :: Serves(g, h, c, k)
  {
    assert ScopeAt(g, c);
    var sys := g.scopes[c];
    assert P.AttributedAt(sys, k);
    var w :| P.StartedBy(sys, w, k);
    assert ServedAt(g, c, w) && P.WorkerAt(sys, w);
    assert Serves(g, w, c, k);
  }

  lemma ChargedUnlessLeaseLost(g: World, h: nat, c: string, k: C.RequestKey)
    requires Sound(g) && Ledgered(g) && AnsweredAt(g, h) && Replied(g, c, k) && Serves(g, h, c, k)
    ensures !Charged(g, h) <==> AnsweredLeaseLost(g, h)
  {
    assert ScopeAt(g, c) && P.WorkerAt(g.scopes[c], h);
    assert KeptAt(g, h);
  }

  /** With every request submitted once, each batch with a character message has a handler, and its request is
      on the quota ledger of that handler's reservation unless the handler was told that the lease was lost:
      exactly then the reply is free. */
  lemma RepliesAreChargedUnlessTheLeaseWasLost(worlds: seq<World>, moves: seq<Move>, i: nat, c: string, k: C.RequestKey)
    requires IsRun(worlds, moves) && i < |worlds| && Once(worlds[i]) && Replied(worlds[i], c, k)
    ensures exists h :: Serves(worlds[i], h, c, k) && (!Charged(worlds[i], h) <==> AnsweredLeaseLost(worlds[i], h))
  {
    RunIsSound(worlds, moves, i);
    RunIsLedgered(worlds, moves, i);
    EveryReplyHasAHandler(worlds[i], c, k);
    var h :| Serves(worlds[i], h, c, k);
    RunAnswers(worlds, moves, i, h);
    ChargedUnlessLeaseLost(worlds[i], h, c, k);
  }

  lemma {:induction false} FieldsCountHandlers(g: World, handlers: set<nat>)
    requires Sound(g) && Apart(g, handlers) && forall h :: h in handlers ==> h in g.handlers
    ensures |set h | h in handlers :: FieldOf(g.handlers[h])| == |handlers|
  {
    if handlers != {} {
      var h :| h in handlers;
      var rest := handlers - {h};
      FieldsCountHandlers(g, rest);
      var fields := set i | i in rest :: FieldOf(g.handlers[i]);
      forall i | i in rest ensures FieldOf(g.handlers[i]) != FieldOf(g.handlers[h]) {
        SameField(g, i, h);
      }
      assert (set i | i in handlers :: FieldOf(g.handlers[i])) == fields + {FieldOf(g.handlers[h])};
    }
  }

  /** At most `limit` replied batches are reserved on one quota ledger, the lost leases aside. */
  lemma RepliesFitTheLimit(worlds: seq<World>, moves: seq<Move>, i: nat, key: LedgerKey, handlers: set<nat>)
    requires IsRun(worlds, moves) && i < |worlds| && Once(worlds[i])
    requires forall h :: h in handlers ==>
      && h in worlds[i].handlers && worlds[i].handlers[h].key == key && !AnsweredLeaseLost(worlds[i], h)
      && exists c, k :: Serves(worlds[i], h, c, k) && Replied(worlds[i], c, k)
    ensures |handlers| <= worlds[i].limit
  {
    var g := worlds[i];
    RunIsSound(worlds, moves, i);
    RunIsLedgered(worlds, moves, i);
    forall h | h in handlers ensures Charged(g, h) {
      var c, k :| Serves(g, h, c, k) && Replied(g, c, k);
      RunAnswers(worlds, moves, i, h);
      ChargedUnlessLeaseLost(g, h, c, k);
    }
    ChargedHandlersFitTheLimit(g, key, handlers);
  }

  lemma ChargedHandlersFitTheLimit(g: World, key: LedgerKey, handlers: set<nat>)
    requires Sound(g) && Apart(g, handlers)
    requires forall h :: h in handlers ==> h in g.handlers && g.handlers[h].key == key && Charged(g, h)
    ensures |handlers| <= g.limit
  {
    if handlers != {} {
      var some :| some in handlers;
      assert Holds(g.book, key, FieldOf(g.handlers[some]));
      var fields := set h | h in handlers :: FieldOf(g.handlers[h]);
      FieldsCountHandlers(g, handlers);
      forall h | h in handlers ensures FieldOf(g.handlers[h]) in Requests(g.book[key].fields) {
        RequestFieldIsInjective(ScopedId(g.handlers[h].conversationId, g.handlers[h].requestId), "");
        RequestFieldsAreNotCounters(FieldOf(g.handlers[h]));
      }
      UsedCountsRequests(g.book[key].fields, g.limit);
      SubsetIsSmaller(fields, Requests(g.book[key].fields).Keys);
    }
  }

  lemma {:induction false} SubsetIsSmaller<T>(a: set<T>, b: set<T>)
    requires a <= b
    ensures |a| <= |b|
  {
    if a != {} {
      var x :| x in a;
      SubsetIsSmaller(a - {x}, b - {x});
    }
  }
}

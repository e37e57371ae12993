/** Which replies are charged when requests are submitted again: what is on a quota ledger is exactly what was
    accepted there and not released since. */
module Resubmission {
  import opened Wrappers
  import opened BeijingClock
  import opened DailyQuota
  import opened QuotaManager
  import C = ConversationStore
  import P = SendProtocol
  import opened Gateway
  import opened Charging

  // ---- The life of one request on one ledger ----

  /** What a move means to one request on one ledger. */
  datatype Touch = Nothing | Accepted | AnsweredDelivered | AnsweredFailed

  function Advance(state: Option<Cell>, touch: Touch): Option<Cell> {
    match touch
    case Nothing => state
    case Accepted => if state.None? then Some(Text(Reserved)) else state
    case AnsweredDelivered => if state == Some(Text(Reserved)) then Some(Text(Delivered)) else state
    case AnsweredFailed => if state == Some(Text(Reserved)) then None else state
  }

  function Fate(trace: seq<Touch>): Option<Cell> {
    if trace == [] then None else Advance(Fate(trace[..|trace| - 1]), trace[|trace| - 1])
  }

  /** Between j and i the request was answered as delivered. */
  ghost predicate DeliveredBetween(trace: seq<Touch>, j: nat, i: nat) {
    exists m: nat :: j < m < i <= |trace| && trace[m] == AnsweredDelivered
  }

  /** Move n releases what was accepted at j: it answers as failed what was not delivered in between. */
  ghost predicate ReleasedBy(trace: seq<Touch>, j: nat, n: nat) {
    j < n < |trace| && trace[n] == AnsweredFailed && !DeliveredBetween(trace, j, n)
  }

  /** Accepted at j, and not released since. */
  ghost predicate Stands(trace: seq<Touch>, j: nat) {
    j < |trace| && trace[j] == Accepted && forall n: nat :: !ReleasedBy(trace, j, n)
  }

  ghost predicate Explained(trace: seq<Touch>) {
    match Fate(trace)
    case None => forall j: nat :: !Stands(trace, j)
    case Some(cell) =>
      if cell == Text(Delivered) then exists j: nat :: Stands(trace, j) && DeliveredBetween(trace, j, |trace|)
      else && cell == Text(Reserved) && (exists j: nat :: Stands(trace, j))
           && forall j: nat :: Stands(trace, j) ==> !DeliveredBetween(trace, j, |trace|)
  }

  lemma DeliveredEarlier(trace: seq<Touch>, j: nat, i: nat)
    requires trace != [] && i < |trace|
    ensures DeliveredBetween(trace, j, i) <==> DeliveredBetween(trace[..|trace| - 1], j, i)
  {
    var before := trace[..|trace| - 1];
    if DeliveredBetween(trace, j, i) {
      var m: nat :| j < m < i && trace[m] == AnsweredDelivered;
      assert before[m] == AnsweredDelivered;
    }
  }

  lemma StandsEarlier(trace: seq<Touch>, j: nat)
    requires trace != [] && j < |trace| - 1
    ensures var (before, n) := (trace[..|trace| - 1], |trace| - 1);
      && (Stands(trace, j) <==> Stands(before, j) && !ReleasedBy(trace, j, n))
      && (ReleasedBy(trace, j, n) <==> trace[n] == AnsweredFailed && !DeliveredBetween(before, j, n))
      && (DeliveredBetween(trace, j, |trace|) <==> DeliveredBetween(before, j, n) || trace[n] == AnsweredDelivered)
  {
    var before := trace[..|trace| - 1];
    forall n: nat | n < |trace| - 1 ensures ReleasedBy(trace, j, n) <==> ReleasedBy(before, j, n) {
      DeliveredEarlier(trace, j, n);
    }
    DeliveredEarlier(trace, j, |trace| - 1);
    if DeliveredBetween(trace, j, |trace|) && trace[|trace| - 1] != AnsweredDelivered {
      var m: nat :| j < m < |trace| && trace[m] == AnsweredDelivered;
      assert before[m] == AnsweredDelivered;
    }
  }

  lemma NewestStands(trace: seq<Touch>)
    requires trace != [] && trace[|trace| - 1] == Accepted
    ensures Stands(trace, |trace| - 1) && !DeliveredBetween(trace, |trace| - 1, |trace|)
  {
  }

  lemma {:induction false} EveryTraceIsExplained(trace: seq<Touch>)
    ensures Explained(trace)
  {
    if trace != [] {
      var before, n := trace[..|trace| - 1], |trace| - 1;
      EveryTraceIsExplained(before);
      forall j: nat | j < n
        ensures Stands(trace, j) <==>
          Stands(before, j) && !(trace[n] == AnsweredFailed && !DeliveredBetween(before, j, n))
        ensures DeliveredBetween(trace, j, |trace|) <==> DeliveredBetween(before, j, n) || trace[n] == AnsweredDelivered
      {
        StandsEarlier(trace, j);
      }
      if trace[n] == Accepted {
        NewestStands(trace);
      }
    }
  }

  // ---- Runs ----

  function TouchOf(g: World, m: Move, key: LedgerKey, field: string): Touch
    requires CanMove(g, m)
  {
    match m
    case Reserve(h, _, _, _) =>
      var handler := MoveTo(g, m).handlers[h];
      if handler.phase.Waiting? && handler.key == key && FieldOf(handler) == field then Accepted else Nothing
    case Answer(h, _) => AnswerTouch(g.handlers[h], key, field, OutcomeOf(WorkerOf(g, h).value))
    case Reject(h, _) => AnswerTouch(g.handlers[h], key, field, AsFailed)
    case _ => Nothing
  }

  function AnswerTouch(handler: Handler, key: LedgerKey, field: string, outcome: Outcome): Touch {
    if handler.key != key || FieldOf(handler) != field then Nothing
    else match outcome
      case Pending => Nothing
      case AsDelivered => AnsweredDelivered
      case AsFailed => AnsweredFailed
  }

  /** The moves of a run as they touch one request on one ledger. */
  ghost function Trace(worlds: seq<World>, moves: seq<Move>, n: nat, key: LedgerKey, field: string): seq<Touch>
    requires IsRun(worlds, moves) && n <= |moves|
  {
    seq(n, i requires 0 <= i < n => TouchOf(worlds[i], moves[i], key, field))
  }

  lemma ReserveMovesState(g: World, m: Move, key: LedgerKey, field: string)
    requires Sound(g) && CanMove(g, m) && m.Reserve? && IsRequestField(field)
    ensures StateOf(MoveTo(g, m).book, key, field) == Advance(StateOf(g.book, key, field), TouchOf(g, m, key, field))
  {
    PreviousWindowIsAlive(g.user, m.now);
    RequestFieldsAreNotCounters(field);
    RequestFieldIsInjective(ScopedId(m.conversationId, m.requestId), "");
    RequestFieldsAreNotCounters(RequestField(ScopedId(m.conversationId, m.requestId)));
  }

  // A settlement on a live ledger, field by field.
  lemma SettleMovesState(g: World, h: nat, outcome: Outcome, now: int, key: LedgerKey, field: string)
    requires Sound(g) && h in g.handlers && IsRequestField(field) && now < StartOf(g.handlers[h].key.day + 2)
    ensures StateOf(Settle(g, h, outcome, now).book, key, field)
      == Advance(StateOf(g.book, key, field), AnswerTouch(g.handlers[h], key, field, outcome))
  {
    var handler := g.handlers[h];
    RequestFieldsAreNotCounters(field);
    RequestFieldIsInjective(ScopedId(handler.conversationId, handler.requestId), "");
    RequestFieldsAreNotCounters(FieldOf(handler));
  }

  lemma MoveMovesState(g: World, m: Move, key: LedgerKey, field: string)
    requires Sound(g) && CanMove(g, m) && IsRequestField(field)
    ensures StateOf(MoveTo(g, m).book, key, field) == Advance(StateOf(g.book, key, field), TouchOf(g, m, key, field))
  {
    match m
    case Reserve(_, _, _, _) => ReserveMovesState(g, m, key, field);
    case Answer(h, now) => SettleMovesState(g, h, OutcomeOf(WorkerOf(g, h).value), now, key, field);
    case Reject(h, now) => SettleMovesState(g, h, AsFailed, now, key, field);
    case _ =>
  }

  lemma {:induction false} BookFollowsTrace(worlds: seq<World>, moves: seq<Move>, i: nat, key: LedgerKey, field: string)
    requires IsRun(worlds, moves) && i < |worlds| && IsRequestField(field)
    ensures StateOf(worlds[i].book, key, field) == Fate(Trace(worlds, moves, i, key, field))
  {
    if i > 0 {
      BookFollowsTrace(worlds, moves, i - 1, key, field);
      RunIsSound(worlds, moves, i - 1);
      MoveMovesState(worlds[i - 1], moves[i - 1], key, field);
      var trace := Trace(worlds, moves, i, key, field);
      assert trace[..|trace| - 1] == Trace(worlds, moves, i - 1, key, field);
    }
  }

  /** In every run, with requests submitted as often as one likes: a request is on a quota ledger exactly when it
      was accepted there and not released since, an answer as failed releasing what was not delivered before. */
  lemma HeldExactlyWhileItStands(worlds: seq<World>, moves: seq<Move>, i: nat, key: LedgerKey, field: string)
    requires IsRun(worlds, moves) && i < |worlds| && IsRequestField(field)
    ensures Holds(worlds[i].book, key, field) <==> exists j: nat :: Stands(Trace(worlds, moves, i, key, field), j)
  {
    BookFollowsTrace(worlds, moves, i, key, field);
    EveryTraceIsExplained(Trace(worlds, moves, i, key, field));
  }

  /** An answer moves a reservation alone: to delivered if its call came to a message, off the ledger if the call came
      to nothing. */
  ghost predicate MovedBy(g: World, g': World, h: nat)
    requires h in g.handlers && h in g'.handlers
  {
    OwnState(g', h) ==
      if OwnState(g, h) != Some(Text(Reserved)) then OwnState(g, h)
      else if Fruitful(WorkerOf(g, h)) then Some(Text(Delivered))
      else if Fruitless(WorkerOf(g, h)) then None
      else Some(Text(Reserved))
  }

  lemma SettleMovesOwn(g: World, h: nat, outcome: Outcome, now: int)
    requires Sound(g) && h in g.handlers && now < StartOf(g.handlers[h].key.day + 2)
    ensures h in Settle(g, h, outcome, now).handlers
    ensures OwnState(Settle(g, h, outcome, now), h) ==
      if OwnState(g, h) == Some(Text(Reserved)) then Settled(outcome) else OwnState(g, h)
  {
    var handler := g.handlers[h];
    RequestFieldIsInjective(ScopedId(handler.conversationId, handler.requestId), "");
    SettleMovesState(g, h, outcome, now, handler.key, FieldOf(handler));
  }

  lemma AnswerMoves(g: World, m: Move)
    requires Sound(g) && CanMove(g, m) && (m.Answer? || m.Reject?)
    ensures m.handler in MoveTo(g, m).handlers && MovedBy(g, MoveTo(g, m), m.handler)
  {
    if m.Reject? {
      SettleMovesOwn(g, m.handler, AsFailed, m.now);
    } else {
      OutcomesTell(WorkerOf(g, m.handler).value);
      SettleMovesOwn(g, m.handler, OutcomeOf(WorkerOf(g, m.handler).value), m.now);
    }
  }

  lemma WhatAnAnswerMoves(worlds: seq<World>, moves: seq<Move>, n: nat)
    requires IsRun(worlds, moves) && n < |moves| && (moves[n].Answer? || moves[n].Reject?)
    ensures moves[n].handler in worlds[n].handlers && moves[n].handler in worlds[n + 1].handlers
    ensures MovedBy(worlds[n], worlds[n + 1], moves[n].handler)
  {
    RunIsSound(worlds, moves, n);
    AnswerMoves(worlds[n], moves[n]);
  }

  /** In every run, an answer releases an earlier acceptance of its request exactly if its call came to nothing and no
      delivery was answered in between. */
  lemma WhatAnAnswerReleases(worlds: seq<World>, moves: seq<Move>, n: nat, i: nat, j: nat)
    requires IsRun(worlds, moves) && n < i < |worlds| && (moves[n].Answer? || moves[n].Reject?)
    ensures var handler := worlds[n].handlers[moves[n].handler];
      var trace := Trace(worlds, moves, i, handler.key, FieldOf(handler));
      ReleasedBy(trace, j, n) <==>
        j < n && Fruitless(WorkerOf(worlds[n], moves[n].handler)) && !DeliveredBetween(trace, j, n)
  {
  }

  // ---- Replies ----

  /** Another handler of the same request on the same ledger. */
  predicate Alike(g: World, h: nat, i: nat) {
    h in g.handlers && i in g.handlers && g.handlers[i].key == g.handlers[h].key
      && FieldOf(g.handlers[i]) == FieldOf(g.handlers[h])
  }

  predicate AnsweredFailedAt(g: World, h: nat) {
    h in g.handlers && g.handlers[h].phase == Answered(AsFailed)
  }

  lemma {:induction false} HandlersWereAccepted(worlds: seq<World>, moves: seq<Move>, i: nat, h: nat)
    requires IsRun(worlds, moves) && i < |worlds| && h in worlds[i].handlers && worlds[i].handlers[h].phase != Turned
    ensures var handler := worlds[i].handlers[h];
      exists j: nat :: j < i && Trace(worlds, moves, i, handler.key, FieldOf(handler))[j] == Accepted
  {
    var handler, g, m := worlds[i].handlers[h], worlds[i - 1], moves[i - 1];
    if m.Reserve? && m.handler == h {
      assert Trace(worlds, moves, i, handler.key, FieldOf(handler))[i - 1] == Accepted;
    } else {
      assert h in g.handlers && g.handlers[h].key == handler.key && FieldOf(g.handlers[h]) == FieldOf(handler);
      HandlersWereAccepted(worlds, moves, i - 1, h);
      var j: nat :| j < i - 1 && Trace(worlds, moves, i - 1, handler.key, FieldOf(handler))[j] == Accepted;
      assert Trace(worlds, moves, i, handler.key, FieldOf(handler))[j] == Accepted;
    }
  }

  lemma AnswersStay(g: World, m: Move, h: nat)
    requires CanMove(g, m) && h in g.handlers && g.handlers[h].phase.Answered?
    ensures h in MoveTo(g, m).handlers && MoveTo(g, m).handlers[h] == g.handlers[h]
  {
  }

  lemma {:induction false} FailedAnswersStay(worlds: seq<World>, moves: seq<Move>, i: nat, n: nat, key: LedgerKey,
      field: string)
    requires IsRun(worlds, moves) && n < i < |worlds| && Trace(worlds, moves, i, key, field)[n] == AnsweredFailed
    ensures exists h ::
      && AnsweredFailedAt(worlds[i], h) && worlds[i].handlers[h].key == key
      && FieldOf(worlds[i].handlers[h]) == field
  {
    if n == i - 1 {
      assert AnsweredFailedAt(worlds[i], moves[n].handler);
    } else {
      assert Trace(worlds, moves, i - 1, key, field)[n] == AnsweredFailed;
      FailedAnswersStay(worlds, moves, i - 1, n, key, field);
      var h :| AnsweredFailedAt(worlds[i - 1], h) && worlds[i - 1].handlers[h].key == key
        && FieldOf(worlds[i - 1].handlers[h]) == field;
      AnswersStay(worlds[i - 1], moves[i - 1], h);
      assert AnsweredFailedAt(worlds[i], h);
    }
  }

  /** A reply was accepted on the ledger of the handler it serves, and is free exactly when every acceptance of
      its request there was released by an answer as failed. */
  lemma ReplyIsFreeExactlyWhenReleased(worlds: seq<World>, moves: seq<Move>, i: nat, h: nat, c: string, k: C.RequestKey)
    requires IsRun(worlds, moves) && i < |worlds| && Replied(worlds[i], c, k) && Serves(worlds[i], h, c, k)
    ensures var trace := Trace(worlds, moves, i, worlds[i].handlers[h].key, FieldOf(worlds[i].handlers[h]));
      && (exists j: nat :: j < i && trace[j] == Accepted)
      && (!Charged(worlds[i], h) <==>
            forall j: nat :: j < i && trace[j] == Accepted ==> exists n: nat :: ReleasedBy(trace, j, n))
  {
    var handler := worlds[i].handlers[h];
    var trace := Trace(worlds, moves, i, handler.key, FieldOf(handler));
    HandlersWereAccepted(worlds, moves, i, h);
    RequestFieldIsInjective(ScopedId(handler.conversationId, handler.requestId), "");
    HeldExactlyWhileItStands(worlds, moves, i, handler.key, FieldOf(handler));
    forall j: nat
      ensures Stands(trace, j) <==> j < i && trace[j] == Accepted && !exists n: nat :: ReleasedBy(trace, j, n)
    {
    }
  }

  /** What an answer as failed can mean for a request that has a reply: the agent was not reached, its worker
      failed for good, or it returned the batch of another day. */
  predicate FailedFor(g: World, h: nat, k: C.RequestKey)
    requires h in g.handlers
  {
    match WorkerOf(g, h)
    case None => true
    case Some(worker) =>
      if worker.phase.Raised? then worker.phase.cause != P.Other else C.KeyOf(worker.batch) != k
  }

  /** A free reply needs a handler of the same request, on the same ledger, that was answered as failed. */
  lemma FreeReplyNeedsAFailedAnswer(worlds: seq<World>, moves: seq<Move>, i: nat, h: nat, c: string, k: C.RequestKey)
    requires IsRun(worlds, moves) && i < |worlds| && Replied(worlds[i], c, k) && Serves(worlds[i], h, c, k)
    requires !Charged(worlds[i], h)
    ensures exists other ::
      Alike(worlds[i], h, other) && AnsweredFailedAt(worlds[i], other) && FailedFor(worlds[i], other, k)
  {
    var g := worlds[i];
    var key, field := g.handlers[h].key, FieldOf(g.handlers[h]);
    var trace := Trace(worlds, moves, i, key, field);
    ReplyIsFreeExactlyWhenReleased(worlds, moves, i, h, c, k);
    var j: nat :| j < i && trace[j] == Accepted;
    var n: nat :| ReleasedBy(trace, j, n);
    FailedAnswersStay(worlds, moves, i, n, key, field);
    var other :| AnsweredFailedAt(g, other) && g.handlers[other].key == key && FieldOf(g.handlers[other]) == field;
    RunIsSound(worlds, moves, i);
    RunAnswers(worlds, moves, i, other);
    FailedMeans(g, h, other, c, k);
  }

  lemma FailedMeans(g: World, h: nat, other: nat, c: string, k: C.RequestKey)
    requires Sound(g) && Replied(g, c, k) && Serves(g, h, c, k) && Alike(g, h, other)
    requires AnsweredFailedAt(g, other) && AnsweredAt(g, other)
    ensures FailedFor(g, other, k)
  {
    var a, b := g.handlers[h], g.handlers[other];
    ScopedIdIsInjective(a.conversationId, a.requestId, b.conversationId, b.requestId);
    RequestFieldIsInjective(ScopedId(a.conversationId, a.requestId), ScopedId(b.conversationId, b.requestId));
    assert ScopeAt(g, c) && P.WorkerAt(g.scopes[c], other);
  }

  /** Without a failed answer to its request, every reply is charged: whatever is submitted how often. */
  lemma UnfailedRepliesAreCharged(worlds: seq<World>, moves: seq<Move>, i: nat, h: nat, c: string, k: C.RequestKey)
    requires IsRun(worlds, moves) && i < |worlds| && Replied(worlds[i], c, k) && Serves(worlds[i], h, c, k)
    requires forall other :: Alike(worlds[i], h, other) ==> !AnsweredFailedAt(worlds[i], other)
    ensures Charged(worlds[i], h)
  {
    if !Charged(worlds[i], h) {
      FreeReplyNeedsAFailedAnswer(worlds, moves, i, h, c, k);
    }
  }

  /** At most `limit` different requests with a reply and without a failed answer are on one quota ledger. */
  lemma UnfailedRepliesFitTheLimit(worlds: seq<World>, moves: seq<Move>, i: nat, key: LedgerKey, handlers: set<nat>)
    requires IsRun(worlds, moves) && i < |worlds| && Apart(worlds[i], handlers)
    requires forall h :: h in handlers ==>
      && h in worlds[i].handlers && worlds[i].handlers[h].key == key
      && (exists c, k :: Serves(worlds[i], h, c, k) && Replied(worlds[i], c, k))
      && forall other :: Alike(worlds[i], h, other) ==> !AnsweredFailedAt(worlds[i], other)
    ensures |handlers| <= worlds[i].limit
  {
    RunIsSound(worlds, moves, i);
    forall h | h in handlers ensures Charged(worlds[i], h) {
      var c, k :| Serves(worlds[i], h, c, k) && Replied(worlds[i], c, k);
      UnfailedRepliesAreCharged(worlds, moves, i, h, c, k);
    }
    ChargedHandlersFitTheLimit(worlds[i], key, handlers);
  }
}

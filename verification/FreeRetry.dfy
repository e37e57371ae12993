/** A run in which a reply is free although no lease was lost: the request is submitted twice, the second
    submission finds the conversation busy and releases the reservation both share, and the first one is served. */
module FreeRetry {
  import opened Wrappers
  import opened BeijingClock
  import opened DailyQuota
  import opened QuotaManager
  import opened Submissions
  import C = ConversationStore
  import P = SendProtocol
  import opened Gateway
  import opened Resubmission
  import opened FreeReply

  // ---- The conversation while it is busy ----

  function FailingPlan(now: int): P.Event {
    P.Plan(1, ["haruhi"], now, NotApplied)
  }

  function ItsCleanup(now: int): P.Event {
    P.Cleanup(1, now, true)
  }

  // The other request generates.
  ghost predicate Occupied(sys: P.Sys, other: Draw, now: int) {
    && 1 in sys.workers && sys.workers[1].phase == P.Planning && sys.workers[1].token == other.token
    && sys.workers[1].batch.batchId == other.batch && C.KeyOf(sys.workers[1].batch) == KeyFor(other, now)
    && sys.store.lease == C.Held(other.token, sys.store.clock + C.LEASE_MS)
    && sys.store.requests.Keys == {KeyFor(other, now)}
    && other.batch in sys.store.batches && sys.store.batches[other.batch].status.Generating?
  }

  lemma OtherBegins(other: Draw, now: int)
    requires Drawn(other)
    ensures P.Enabled(P.Init(GROUP), BeginOf(1, other, now))
    ensures var sys := P.Step(P.Init(GROUP), BeginOf(1, other, now));
      Occupied(sys, other, now) && sys.workers.Keys == {1} && sys.issued <= Ids(other)
  {
  }

  lemma SecondIsBusy(sys: P.Sys, again: Draw, other: Draw, now: int)
    requires Occupied(sys, other, now) && sys.workers.Keys == {1} && sys.issued <= Ids(other)
    requires Drawn(again) && Ids(again) !! Ids(other) && other.request != again.request
    ensures P.Enabled(sys, BeginOf(2, again, now))
    ensures var next := P.Step(sys, BeginOf(2, again, now));
      && Occupied(next, other, now) && next.workers.Keys == {1, 2} && next.issued <= Ids(other) + Ids(again)
      && next.workers[2].phase == P.Raised(P.ConversationBusy)
  {
  }

  lemma OtherEnds(sys: P.Sys, other: Draw, now: int)
    requires Occupied(sys, other, now) && sys.workers.Keys == {1, 2}
    requires sys.workers[2].phase == P.Raised(P.ConversationBusy)
    ensures P.Enabled(sys, FailingPlan(now)) && P.Enabled(P.Step(sys, FailingPlan(now)), ItsCleanup(now))
    ensures var next := P.Step(P.Step(sys, FailingPlan(now)), ItsCleanup(now));
      && next.store.lease.Free? && next.store.requests.Keys == {KeyFor(other, now)} && next.issued == sys.issued
      && next.workers.Keys == {1, 2} && next.workers[1].phase == P.Raised(P.Other) && next.workers[2] == sys.workers[2]
  {
  }

  // ---- The world around it ----

  lemma AllAreAccepted(d: Draw, again: Draw, other: Draw, limit: nat, user: string, now: int)
    returns (worlds: seq<World>, moves: seq<Move>)
    requires Separate(d, again, other) && limit >= 2
    ensures IsRun(worlds, moves) && worlds[0] == Start(limit, user)
    ensures moves == [Move.Reserve(0, GROUP, d.request, now), Move.Reserve(2, GROUP, d.request, now),
      Move.Reserve(1, GROUP, other.request, now)]
    ensures forall n :: 0 <= n < 3 ==>
      moves[n].handler in worlds[n + 1].handlers
        && worlds[n + 1].handlers[moves[n].handler].key == LedgerKey(user, DayOf(now))
    ensures worlds[3] == Start(limit, user).(book := worlds[3].book, handlers := Handlers(d, other, user, now))
  {
    worlds, moves := Submit([Start(limit, user)], [], 0, d, now, 2);
    worlds, moves := Submit(worlds, moves, 2, d, now, 1);
    worlds, moves := Submit(worlds, moves, 1, other, now, 1);
  }

  function Handlers(d: Draw, other: Draw, user: string, now: int): map<nat, Handler> {
    map[0 := Serving(d, user, now, Waiting),
        2 := Serving(d, user, now, Waiting),
        1 := Serving(other, user, now, Waiting)]
  }

  lemma OtherIsInTheWay(worlds: seq<World>, moves: seq<Move>, d: Draw, again: Draw, other: Draw, now: int)
    returns (worlds': seq<World>, moves': seq<Move>, sys: P.Sys)
    requires Separate(d, again, other) && IsRun(worlds, moves) && worlds[|moves|].scopes == map[GROUP := P.Init(GROUP)]
    requires worlds[|moves|].handlers == Handlers(d, other, worlds[|moves|].user, now)
    ensures IsRun(worlds', moves') && worlds <= worlds'
    ensures moves' == moves + [Agent(GROUP, BeginOf(1, other, now)), Agent(GROUP, BeginOf(2, again, now))]
    ensures worlds'[|moves'|] == worlds[|moves|].(scopes := map[GROUP := sys])
    ensures Occupied(sys, other, now) && sys.workers.Keys == {1, 2} && sys.issued <= Ids(other) + Ids(again)
    ensures sys.workers[2].phase == P.Raised(P.ConversationBusy)
  {
    OtherBegins(other, now);
    worlds', moves', sys := Act(worlds, moves, P.Init(GROUP), BeginOf(1, other, now));
    SecondIsBusy(sys, again, other, now);
    worlds', moves', sys := Act(worlds', moves', sys, BeginOf(2, again, now));
  }

  lemma OtherGoesAway(worlds: seq<World>, moves: seq<Move>, sys: P.Sys, other: Draw, now: int)
    returns (worlds': seq<World>, moves': seq<Move>, sys': P.Sys)
    requires IsRun(worlds, moves) && worlds[|moves|].scopes == map[GROUP := sys]
    requires Occupied(sys, other, now) && sys.workers.Keys == {1, 2}
    requires sys.workers[2].phase == P.Raised(P.ConversationBusy)
    ensures IsRun(worlds', moves') && worlds <= worlds'
    ensures moves' == moves + [Agent(GROUP, FailingPlan(now)), Agent(GROUP, ItsCleanup(now))]
    ensures worlds'[|moves'|] == worlds[|moves|].(scopes := map[GROUP := sys'])
    ensures sys'.store.lease.Free? && sys'.store.requests.Keys == {KeyFor(other, now)} && sys'.issued == sys.issued
    ensures sys'.workers.Keys == {1, 2} && sys'.workers[1].phase == P.Raised(P.Other)
    ensures sys'.workers[2] == sys.workers[2]
  {
    OtherEnds(sys, other, now);
    worlds', moves', sys' := Act(worlds, moves, sys, FailingPlan(now));
    worlds', moves', sys' := Act(worlds', moves', sys', ItsCleanup(now));
  }

  // Nobody's lease was lost.
  ghost predicate NoLeaseLost(sys: P.Sys) {
    forall w :: w in sys.workers ==> sys.workers[w].phase != P.Raised(P.LeaseLost)
  }

  lemma Finishes(sys: P.Sys, d: Draw, now: int)
    requires Stage(sys, d, now, P.Speaking, 1, 1, true)
    ensures P.Enabled(sys, P.Finish(0, now, Fine))
    ensures var next := P.Step(sys, P.Finish(0, now, Fine));
      && Stage(next, d, now, P.Returned, 1, 1, false)
      && next.workers == sys.workers[0 := next.workers[0]]
  {
  }

  lemma FirstIsServed(worlds: seq<World>, moves: seq<Move>, sys: P.Sys, d: Draw, now: int)
    returns (worlds': seq<World>, moves': seq<Move>, sys': P.Sys)
    requires IsRun(worlds, moves) && worlds[|moves|].scopes == map[GROUP := sys]
    requires Called(worlds[|moves|], GROUP, 0, d.request)
    requires Drawn(d) && 0 !in sys.workers && NoLeaseLost(sys) && sys.store.lease.Free? && Ids(d) !! sys.issued
    requires KeyFor(d, now) !in sys.store.requests && C.RequestKey(DayOf(now) - 1, d.request) !in sys.store.requests
    ensures IsRun(worlds', moves') && worlds <= worlds' && |moves'| == |moves| + 4 && moves <= moves'
    ensures forall n :: |moves| <= n < |moves'| ==> moves'[n].Agent?
    ensures worlds'[|moves'|] == worlds[|moves|].(scopes := map[GROUP := sys'])
    ensures Stage(sys', d, now, P.Returned, 1, 1, false) && NoLeaseLost(sys')
  {
    worlds', moves', sys' := SpeaksOnce(worlds, moves, sys, d, now, ["haruhi"]);
    Finishes(sys', d, now);
    worlds', moves', sys' := Act(worlds', moves', sys', P.Finish(0, now, Fine));
  }

  lemma ServedAndAnswered(worlds: seq<World>, moves: seq<Move>, sys: P.Sys, d: Draw, user: string, now: int)
    returns (worlds': seq<World>, moves': seq<Move>)
    requires IsRun(worlds, moves) && worlds[|moves|].scopes == map[GROUP := sys]
    requires 0 in worlds[|moves|].handlers && worlds[|moves|].handlers[0] == Serving(d, user, now, Waiting)
    requires Drawn(d) && 0 !in sys.workers && NoLeaseLost(sys) && sys.store.lease.Free? && Ids(d) !! sys.issued
    requires KeyFor(d, now) !in sys.store.requests && C.RequestKey(DayOf(now) - 1, d.request) !in sys.store.requests
    ensures IsRun(worlds', moves') && worlds <= worlds' && moves <= moves' && |moves'| > |moves|
    ensures forall n :: |moves| <= n < |moves'| ==> moves'[n].Agent? || moves'[n].Answer?
    ensures Replied(worlds'[|moves'|], GROUP, KeyFor(d, now))
    ensures 0 in worlds'[|moves'|].handlers && worlds'[|moves'|].handlers[0].phase == Answered(AsDelivered)
    ensures GROUP in worlds'[|moves'|].scopes && NoLeaseLost(worlds'[|moves'|].scopes[GROUP])
  {
    var sys' := sys;
    worlds', moves', sys' := FirstIsServed(worlds, moves, sys, d, now);
    DayIsInterval(now, DayOf(now));
    worlds', moves' := Extend(worlds', moves', Answer(0, now));
  }

  // Up to the answer that releases it, both submissions are on today's ledger.
  ghost predicate Releases(worlds: seq<World>, moves: seq<Move>, k: nat, d: Draw, user: string, now: int) {
    && k < |moves| && |worlds| == |moves| + 1 && moves[k] == Answer(2, now)
    && (forall n :: 0 <= n < k ==> moves[n].Reserve? || moves[n].Agent?)
    && (forall n :: 0 <= n < k && moves[n].Reserve? ==>
          moves[n].handler in worlds[n + 1].handlers
          && worlds[n + 1].handlers[moves[n].handler].key == LedgerKey(user, DayOf(now)))
    && 2 in worlds[k].handlers && worlds[k].handlers[2] == Serving(d, user, now, Waiting)
    && WorkerOf(worlds[k], 2).Some? && Done(WorkerOf(worlds[k], 2).value)
    && OutcomeOf(WorkerOf(worlds[k], 2).value) == AsFailed
  }

  // What was accepted before move k is released by it, and nothing is accepted after it.
  lemma ReleasedForGood(worlds: seq<World>, moves: seq<Move>, k: nat, d: Draw, user: string, now: int)
    requires IsRun(worlds, moves) && Releases(worlds, moves, k, d, user, now)
    requires forall n :: k < n < |moves| ==> !moves[n].Reserve?
    ensures forall key :: !Holds(worlds[|moves|].book, key, OwnField(d))
  {
    forall key ensures !Holds(worlds[|moves|].book, key, OwnField(d)) {
      var trace := Trace(worlds, moves, |moves|, key, OwnField(d));
      OwnFieldIsARequest(d);
      HeldExactlyWhileItStands(worlds, moves, |moves|, key, OwnField(d));
      forall j: nat ensures !Stands(trace, j) {
        if j < |trace| && trace[j] == Accepted {
          assert trace[j] == TouchOf(worlds[j], moves[j], key, OwnField(d));
          assert moves[j].Reserve? && key == LedgerKey(user, DayOf(now));
          assert trace[k] == TouchOf(worlds[k], moves[k], key, OwnField(d)) == AnsweredFailed;
          forall m: nat | j < m < k ensures trace[m] != AnsweredDelivered {
            assert trace[m] == TouchOf(worlds[m], moves[m], key, OwnField(d));
          }
          assert ReleasedBy(trace, j, k);
        }
      }
    }
  }

  // Up to the answer that releases the reservation, and the way clear for the first submission.
  lemma SecondIsAnswered(d: Draw, again: Draw, other: Draw, limit: nat, user: string, now: int)
    returns (worlds: seq<World>, moves: seq<Move>, sys: P.Sys)
    requires Separate(d, again, other) && limit >= 2
    ensures IsRun(worlds, moves) && worlds[0] == Start(limit, user) && |moves| == 6 && moves[5] == Answer(2, now)
    ensures forall n :: 0 <= n < 5 ==> if n < 3 then moves[n].Reserve? else moves[n].Agent?
    ensures forall n :: 0 <= n < 3 ==>
      moves[n].handler in worlds[n + 1].handlers
      && worlds[n + 1].handlers[moves[n].handler].key == LedgerKey(user, DayOf(now))
    ensures worlds[5].handlers == Handlers(d, other, user, now) && WorkerOf(worlds[5], 2).Some?
    ensures Done(WorkerOf(worlds[5], 2).value)
    ensures OutcomeOf(WorkerOf(worlds[5], 2).value) == AsFailed
    ensures worlds[6].handlers == Handlers(d, other, user, now)[2 := Serving(d, user, now, Answered(AsFailed))]
    ensures worlds[6].scopes == map[GROUP := sys]
    ensures Occupied(sys, other, now) && sys.workers.Keys == {1, 2} && sys.issued <= Ids(other) + Ids(again)
    ensures sys.workers[2].phase == P.Raised(P.ConversationBusy)
  {
    worlds, moves := AllAreAccepted(d, again, other, limit, user, now);
    worlds, moves, sys := OtherIsInTheWay(worlds, moves, d, again, other, now);
    DayIsInterval(now, DayOf(now));
    worlds, moves := Extend(worlds, moves, Answer(2, now));
  }

  // From there the first submission is served and answered.
  lemma FirstIsAnswered(worlds: seq<World>, moves: seq<Move>, sys: P.Sys, d: Draw, again: Draw, other: Draw,
      user: string, now: int)
    returns (worlds': seq<World>, moves': seq<Move>)
    requires Separate(d, again, other) && IsRun(worlds, moves) && worlds[|moves|].scopes == map[GROUP := sys]
    requires worlds[|moves|].handlers == Handlers(d, other, user, now)[2 := Serving(d, user, now, Answered(AsFailed))]
    requires Occupied(sys, other, now) && sys.workers.Keys == {1, 2} && sys.issued <= Ids(other) + Ids(again)
    requires sys.workers[2].phase == P.Raised(P.ConversationBusy)
    ensures IsRun(worlds', moves') && worlds <= worlds' && moves <= moves'
    ensures forall n :: |moves| <= n < |moves'| ==> moves'[n].Agent? || moves'[n].Answer?
    ensures Replied(worlds'[|moves'|], GROUP, KeyFor(d, now))
    ensures 0 in worlds'[|moves'|].handlers && worlds'[|moves'|].handlers[0].phase == Answered(AsDelivered)
    ensures GROUP in worlds'[|moves'|].scopes && NoLeaseLost(worlds'[|moves'|].scopes[GROUP])
  {
    var sys' := sys;
    worlds', moves', sys' := OtherGoesAway(worlds, moves, sys, other, now);
    worlds', moves' := ServedAndAnswered(worlds', moves', sys', d, user, now);
  }

  lemma StillReleases(before: seq<World>, beforeMoves: seq<Move>, worlds: seq<World>, moves: seq<Move>, k: nat,
      d: Draw, user: string, now: int)
    requires Releases(before, beforeMoves, k, d, user, now) && |worlds| == |moves| + 1
    requires before <= worlds && beforeMoves <= moves
    ensures Releases(worlds, moves, k, d, user, now)
  {
    assert forall n :: 0 <= n <= k ==> moves[n] == beforeMoves[n] && worlds[n] == before[n];
    assert worlds[k + 1] == before[k + 1];
  }

  /** A reply can be free without a lost lease: for any user, moment and draws there is a run in which the first
      submission of a request is served and answered as delivered, and no ledger holds the request. */
  lemma AResubmissionCanFreeAReply(d: Draw, again: Draw, other: Draw, limit: nat, user: string, now: int)
    requires Separate(d, again, other) && limit >= 2
    ensures exists worlds: seq<World>, moves: seq<Move> ::
      && IsRun(worlds, moves) && worlds[0] == Start(limit, user)
      && Free(worlds[|moves|], d, now)
      && 0 in worlds[|moves|].handlers && worlds[|moves|].handlers[0].phase == Answered(AsDelivered)
      && GROUP in worlds[|moves|].scopes && NoLeaseLost(worlds[|moves|].scopes[GROUP])
  {
    var before, beforeMoves, sys := SecondIsAnswered(d, again, other, limit, user, now);
    var worlds, moves := FirstIsAnswered(before, beforeMoves, sys, d, again, other, user, now);
    StillReleases(before, beforeMoves, worlds, moves, 5, d, user, now);
    ReleasedForGood(worlds, moves, 5, d, user, now);
  }

  // ---- A second submission refused before it begins ----

  function BothServing(d: Draw, user: string, now: int): map<nat, Handler> {
    map[0 := Serving(d, user, now, Waiting), 2 := Serving(d, user, now, Waiting)]
  }

  function Refusal(d: Draw): P.Event {
    P.Refuse(2, d.request, P.NotStarted)
  }

  lemma BothAreAccepted(d: Draw, limit: nat, user: string, now: int)
    returns (worlds: seq<World>, moves: seq<Move>)
    requires Drawn(d) && limit > 0
    ensures IsRun(worlds, moves) && worlds[0] == Start(limit, user)
    ensures moves == [Move.Reserve(0, GROUP, d.request, now), Move.Reserve(2, GROUP, d.request, now)]
    ensures forall n :: 0 <= n < 2 ==>
      moves[n].handler in worlds[n + 1].handlers
      && worlds[n + 1].handlers[moves[n].handler].key == LedgerKey(user, DayOf(now))
    ensures worlds[2] == Start(limit, user).(book := worlds[2].book, handlers := BothServing(d, user, now))
  {
    worlds, moves := Submit([Start(limit, user)], [], 0, d, now, 1);
    worlds, moves := Submit(worlds, moves, 2, d, now, 0);
  }

  lemma SecondIsRefused(sys: P.Sys, d: Draw)
    requires sys.workers == map[] && sys.store.requests == map[]
    ensures P.Enabled(sys, Refusal(d))
    ensures var next := P.Step(sys, Refusal(d));
      && next.store == sys.store && next.issued == sys.issued && next.workers.Keys == {2}
      && next.workers[2].phase == P.Raised(P.NotStarted)
  {
  }

  lemma RefusedAndAnswered(d: Draw, limit: nat, user: string, now: int)
    returns (worlds: seq<World>, moves: seq<Move>, sys: P.Sys)
    requires Drawn(d) && limit > 0
    ensures IsRun(worlds, moves) && worlds[0] == Start(limit, user) && |moves| == 4 && moves[3] == Answer(2, now)
    ensures forall n :: 0 <= n < 3 ==> if n < 2 then moves[n].Reserve? else moves[n].Agent?
    ensures forall n :: 0 <= n < 2 ==>
      moves[n].handler in worlds[n + 1].handlers
      && worlds[n + 1].handlers[moves[n].handler].key == LedgerKey(user, DayOf(now))
    ensures worlds[3].handlers == BothServing(d, user, now) && WorkerOf(worlds[3], 2).Some?
    ensures Done(WorkerOf(worlds[3], 2).value) && OutcomeOf(WorkerOf(worlds[3], 2).value) == AsFailed
    ensures worlds[4].handlers == BothServing(d, user, now)[2 := Serving(d, user, now, Answered(AsFailed))]
    ensures worlds[4].scopes == map[GROUP := sys] && sys.store == C.EmptyStore(GROUP) && sys.issued == {}
    ensures sys.workers.Keys == {2} && sys.workers[2].phase == P.Raised(P.NotStarted)
  {
    worlds, moves := BothAreAccepted(d, limit, user, now);
    SecondIsRefused(P.Init(GROUP), d);
    worlds, moves, sys := Act(worlds, moves, P.Init(GROUP), Refusal(d));
    DayIsInterval(now, DayOf(now));
    worlds, moves := Extend(worlds, moves, Answer(2, now));
  }

  /** The same with one request only, and for every positive limit: the second submission fails to load the history
      and is refused before it begins. */
  lemma ARefusalCanFreeAReply(d: Draw, limit: nat, user: string, now: int)
    requires Drawn(d) && limit > 0
    ensures exists worlds: seq<World>, moves: seq<Move> ::
      && IsRun(worlds, moves) && worlds[0] == Start(limit, user)
      && Free(worlds[|moves|], d, now)
      && 0 in worlds[|moves|].handlers && worlds[|moves|].handlers[0].phase == Answered(AsDelivered)
      && GROUP in worlds[|moves|].scopes && NoLeaseLost(worlds[|moves|].scopes[GROUP])
  {
    var before, beforeMoves, sys := RefusedAndAnswered(d, limit, user, now);
    var worlds, moves := ServedAndAnswered(before, beforeMoves, sys, d, user, now);
    StillReleases(before, beforeMoves, worlds, moves, 3, d, user, now);
    ReleasedForGood(worlds, moves, 3, d, user, now);
  }
}

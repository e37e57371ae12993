/** Runs in which a delivered character message is never charged. Their identifiers are arbitrary ones of the
    shapes the program uses. */
module FreeReply {
  import opened Wrappers
  import opened BeijingClock
  import opened DailyQuota
  import opened QuotaManager
  import opened Identifiers
  import opened Submissions
  import C = ConversationStore
  import P = SendProtocol
  import opened LeaseInvariant
  import opened Gateway
  import opened Charging

  const GROUP := "sos-group"

  // One moment is enough for all of it.
  function KeyFor(d: Draw, now: int): C.RequestKey {
    C.RequestKey(DayOf(now), d.request)
  }

  function BeginOf(w: nat, d: Draw, now: int): P.Event {
    P.Begin(w, d.request, "hello", now, d.batch, d.turn, d.token, Fine)
  }

  function PlanOf(w: nat, plan: seq<string>, now: int): P.Event {
    P.Plan(w, plan, now, Fine)
  }

  function SpeakOf(d: Draw, now: int): P.Event {
    P.Speak(0, "", "", "a reply", d.reply, now, Fine)
  }

  // Where worker 0 stands: its phase, the number of speakers planned and heard, and its lease.
  ghost predicate Stage(sys: P.Sys, d: Draw, now: int, phase: P.Phase, planned: nat, heard: nat, held: bool) {
    && 0 in sys.workers && sys.workers[0].phase == phase && sys.workers[0].token == d.token
    && C.KeyOf(sys.workers[0].batch) == KeyFor(d, now)
    && |sys.workers[0].batch.planned| == planned && |sys.workers[0].batch.characters| == heard
    && KeyFor(d, now) in sys.store.requests && |sys.store.requests[KeyFor(d, now)].characters| == heard
    && (held ==> sys.store.lease == C.Held(d.token, sys.store.clock + C.LEASE_MS))
    && (!held ==> !C.HoldsLease(sys.store, d.token))
  }

  lemma BeginsFreely(sys: P.Sys, d: Draw, now: int)
    requires Drawn(d) && 0 !in sys.workers && sys.store.lease.Free? && Ids(d) !! sys.issued
    requires KeyFor(d, now) !in sys.store.requests && C.RequestKey(DayOf(now) - 1, d.request) !in sys.store.requests
    ensures P.Enabled(sys, BeginOf(0, d, now))
    ensures var next := P.Step(sys, BeginOf(0, d, now));
      Stage(next, d, now, P.Planning, 0, 0, true) && d.reply !in next.issued
        && next.workers == sys.workers[0 := next.workers[0]]
  {
  }

  lemma Plans(sys: P.Sys, d: Draw, now: int, plan: seq<string>)
    requires Stage(sys, d, now, P.Planning, 0, 0, true) && plan != []
    ensures P.Enabled(sys, PlanOf(0, plan, now))
    ensures var next := P.Step(sys, PlanOf(0, plan, now));
      Stage(next, d, now, P.Speaking, |plan|, 0, true) && next.issued == sys.issued
        && next.workers == sys.workers[0 := next.workers[0]]
  {
  }

  lemma Speaks(sys: P.Sys, d: Draw, now: int, planned: nat)
    requires Stage(sys, d, now, P.Speaking, planned, 0, true) && planned > 0 && d.reply !in sys.issued
    ensures P.Enabled(sys, SpeakOf(d, now))
    ensures var next := P.Step(sys, SpeakOf(d, now));
      Stage(next, d, now, P.Speaking, planned, 1, true) && next.workers == sys.workers[0 := next.workers[0]]
  {
    SpeakWrites(sys, SpeakOf(d, now));
  }

  // ---- Worlds ----

  function Start(limit: nat, user: string): World {
    World(limit, user, map[], map[GROUP := P.Init(GROUP)], map[])
  }

  function Serving(d: Draw, user: string, now: int, phase: HandlerPhase): Handler {
    Handler(GROUP, d.request, LedgerKey(user, DayOf(now)), phase)
  }

  function OwnField(d: Draw): string {
    RequestField(ScopedId(GROUP, d.request))
  }

  lemma OwnFieldIsARequest(d: Draw)
    ensures IsRequestField(OwnField(d)) && OwnField(d) !in COUNTERS
  {
    RequestFieldIsInjective(ScopedId(GROUP, d.request), "");
    RequestFieldsAreNotCounters(OwnField(d));
  }

  // A request that is on today's ledger, or finds room there with no ledger of yesterday, is accepted.
  lemma RequestIsAccepted(book: Book, limit: nat, user: string, requestId: string, now: int)
    requires LedgerKey(user, DayOf(now) - 1) !in book
    requires var live := Live(book, LedgerKey(user, DayOf(now)), now);
      RequestField(requestId) in live || Used(live) < limit
    ensures var (key, (after, reply)) := (LedgerKey(user, DayOf(now)), ReserveOn(book, limit, user, requestId, now));
      && reply.accepted && reply.source.Current? && LedgerKey(user, DayOf(now) - 1) !in after
      && RequestField(requestId) in Live(after, key, now)
      && Used(Live(after, key, now))
        == Used(Live(book, key, now)) + (if RequestField(requestId) in Live(book, key, now) then 0 else 1)
  {
    PreviousWindowIsAlive(user, now);
    RequestFieldIsInjective(requestId, "");
    RequestFieldsAreNotCounters(RequestField(requestId));
  }

  // The ledger of this moment has room for `free` more requests.
  ghost predicate Room(g: World, now: int, free: int) {
    && LedgerKey(g.user, DayOf(now) - 1) !in g.book
    && Used(Live(g.book, LedgerKey(g.user, DayOf(now)), now)) + free <= g.limit
  }

  predicate Listed(g: World, d: Draw, now: int) {
    OwnField(d) in Live(g.book, LedgerKey(g.user, DayOf(now)), now)
  }

  lemma IsAccepted(g: World, h: nat, d: Draw, now: int, free: int)
    requires IsUuid(d.request) && h !in g.handlers && Room(g, now, free)
    requires free > 0 || Listed(g, d, now)
    ensures var m := Move.Reserve(h, GROUP, d.request, now);
      && CanMove(g, m)
      && MoveTo(g, m) == g.(book := MoveTo(g, m).book, handlers := g.handlers[h := Serving(d, g.user, now, Waiting)])
      && Room(MoveTo(g, m), now, if Listed(g, d, now) then free else free - 1) && Listed(MoveTo(g, m), d, now)
  {
    UuidHasNoNul(d.request);
    RequestIsAccepted(g.book, g.limit, g.user, ScopedId(GROUP, d.request), now);
  }

  lemma AgentMoves(g: World, sys: P.Sys, e: P.Event)
    requires g.scopes == map[GROUP := sys] && P.Enabled(sys, e)
    requires e.Begin? || e.Refuse? ==> Called(g, GROUP, e.worker, e.requestId)
    ensures CanMove(g, Agent(GROUP, e))
    ensures MoveTo(g, Agent(GROUP, e)) == g.(scopes := map[GROUP := P.Step(sys, e)])
  {
  }

  lemma Extend(worlds: seq<World>, moves: seq<Move>, m: Move) returns (worlds': seq<World>, moves': seq<Move>)
    requires IsRun(worlds, moves) && CanMove(worlds[|moves|], m)
    ensures IsRun(worlds', moves') && worlds' == worlds + [MoveTo(worlds[|moves|], m)] && moves' == moves + [m]
  {
    worlds', moves' := worlds + [MoveTo(worlds[|moves|], m)], moves + [m];
    forall i | 0 <= i < |moves'|
      ensures CanMove(worlds'[i], moves'[i]) && worlds'[i + 1] == MoveTo(worlds'[i], moves'[i])
    {
      if i < |moves| {
        assert CanMove(worlds[i], moves[i]) && worlds[i + 1] == MoveTo(worlds[i], moves[i]);
      }
    }
  }

  // The run goes on with an accepted submission.
  lemma Submit(worlds: seq<World>, moves: seq<Move>, h: nat, d: Draw, now: int, free: int)
    returns (worlds': seq<World>, moves': seq<Move>)
    requires IsRun(worlds, moves) && IsUuid(d.request) && h !in worlds[|moves|].handlers
    requires Room(worlds[|moves|], now, free)
    requires free > 0 || Listed(worlds[|moves|], d, now)
    ensures IsRun(worlds', moves') && worlds <= worlds' && moves' == moves + [Move.Reserve(h, GROUP, d.request, now)]
    ensures var (g, after) := (worlds[|moves|], worlds'[|moves'|]);
      && after == g.(book := after.book, handlers := g.handlers[h := Serving(d, g.user, now, Waiting)])
      && Room(after, now, if Listed(g, d, now) then free else free - 1) && Listed(after, d, now)
  {
    IsAccepted(worlds[|moves|], h, d, now, free);
    worlds', moves' := Extend(worlds, moves, Move.Reserve(h, GROUP, d.request, now));
  }

  // The run goes on with an event of the group's agent.
  lemma Act(worlds: seq<World>, moves: seq<Move>, sys: P.Sys, e: P.Event)
    returns (worlds': seq<World>, moves': seq<Move>, sys': P.Sys)
    requires IsRun(worlds, moves) && worlds[|moves|].scopes == map[GROUP := sys] && P.Enabled(sys, e)
    requires e.Begin? || e.Refuse? ==> Called(worlds[|moves|], GROUP, e.worker, e.requestId)
    ensures IsRun(worlds', moves') && moves' == moves + [Agent(GROUP, e)] && sys' == P.Step(sys, e)
    ensures worlds'[|moves'|] == worlds[|moves|].(scopes := map[GROUP := sys'])
    ensures worlds <= worlds'
  {
    AgentMoves(worlds[|moves|], sys, e);
    worlds', moves' := Extend(worlds, moves, Agent(GROUP, e));
    sys' := P.Step(sys, e);
  }

  /** The user has a reply to this request, and no quota ledger holds the request. */
  ghost predicate Free(g: World, d: Draw, now: int) {
    Replied(g, GROUP, KeyFor(d, now)) && forall key :: !Holds(g.book, key, OwnField(d))
  }

  // ---- A lease lost between two speakers ----

  lemma Loses(sys: P.Sys, d: Draw, now: int)
    requires Stage(sys, d, now, P.Speaking, 2, 1, true)
    ensures P.Enabled(sys, P.Tick(C.LEASE_MS))
    ensures var expired := P.Step(sys, P.Tick(C.LEASE_MS));
      && P.Enabled(expired, P.Stumble(0, now, Fine))
      && var unwinding := P.Step(expired, P.Stumble(0, now, Fine));
        P.Enabled(unwinding, P.Cleanup(0, now, true))
        && Stage(P.Step(unwinding, P.Cleanup(0, now, true)), d, now, P.Raised(P.LeaseLost), 2, 1, false)
  {
    var expired := P.Step(sys, P.Tick(C.LEASE_MS));
    assert Stage(expired, d, now, P.Speaking, 2, 1, false);
    var unwinding := P.Step(expired, P.Stumble(0, now, Fine));
    assert Stage(unwinding, d, now, P.Unwinding(P.LeaseLost), 2, 1, false);
  }

  lemma BeginsOnce(worlds: seq<World>, moves: seq<Move>, sys: P.Sys, d: Draw, now: int)
    returns (worlds': seq<World>, moves': seq<Move>, sys': P.Sys)
    requires IsRun(worlds, moves) && worlds[|moves|].scopes == map[GROUP := sys]
    requires Called(worlds[|moves|], GROUP, 0, d.request)
    requires Drawn(d) && 0 !in sys.workers && sys.store.lease.Free? && Ids(d) !! sys.issued
    requires KeyFor(d, now) !in sys.store.requests && C.RequestKey(DayOf(now) - 1, d.request) !in sys.store.requests
    ensures IsRun(worlds', moves') && worlds <= worlds' && moves' == moves + [Agent(GROUP, BeginOf(0, d, now))]
    ensures worlds'[|moves'|] == worlds[|moves|].(scopes := map[GROUP := sys'])
    ensures Stage(sys', d, now, P.Planning, 0, 0, true) && d.reply !in sys'.issued
    ensures sys'.workers == sys.workers[0 := sys'.workers[0]]
  {
    BeginsFreely(sys, d, now);
    worlds', moves', sys' := Act(worlds, moves, sys, BeginOf(0, d, now));
  }

  lemma PlansOnce(worlds: seq<World>, moves: seq<Move>, sys: P.Sys, d: Draw, now: int, plan: seq<string>)
    returns (worlds': seq<World>, moves': seq<Move>, sys': P.Sys)
    requires IsRun(worlds, moves) && worlds[|moves|].scopes == map[GROUP := sys]
    requires Called(worlds[|moves|], GROUP, 0, d.request)
    requires Drawn(d) && 0 !in sys.workers && sys.store.lease.Free? && Ids(d) !! sys.issued && plan != []
    requires KeyFor(d, now) !in sys.store.requests && C.RequestKey(DayOf(now) - 1, d.request) !in sys.store.requests
    ensures IsRun(worlds', moves') && worlds <= worlds'
    ensures moves' == moves + [Agent(GROUP, BeginOf(0, d, now)), Agent(GROUP, PlanOf(0, plan, now))]
    ensures worlds'[|moves'|] == worlds[|moves|].(scopes := map[GROUP := sys'])
    ensures Stage(sys', d, now, P.Speaking, |plan|, 0, true) && d.reply !in sys'.issued
    ensures sys'.workers == sys.workers[0 := sys'.workers[0]]
  {
    worlds', moves', sys' := BeginsOnce(worlds, moves, sys, d, now);
    Plans(sys', d, now, plan);
    worlds', moves', sys' := Act(worlds', moves', sys', PlanOf(0, plan, now));
  }

  lemma SpeaksOnce(worlds: seq<World>, moves: seq<Move>, sys: P.Sys, d: Draw, now: int, plan: seq<string>)
    returns (worlds': seq<World>, moves': seq<Move>, sys': P.Sys)
    requires IsRun(worlds, moves) && worlds[|moves|].scopes == map[GROUP := sys]
    requires Called(worlds[|moves|], GROUP, 0, d.request)
    requires Drawn(d) && 0 !in sys.workers && sys.store.lease.Free? && Ids(d) !! sys.issued && plan != []
    requires KeyFor(d, now) !in sys.store.requests && C.RequestKey(DayOf(now) - 1, d.request) !in sys.store.requests
    ensures IsRun(worlds', moves') && worlds <= worlds'
    ensures moves' == moves + [Agent(GROUP, BeginOf(0, d, now)), Agent(GROUP, PlanOf(0, plan, now)),
      Agent(GROUP, SpeakOf(d, now))]
    ensures worlds'[|moves'|] == worlds[|moves|].(scopes := map[GROUP := sys'])
    ensures Stage(sys', d, now, P.Speaking, |plan|, 1, true) && sys'.workers == sys.workers[0 := sys'.workers[0]]
  {
    worlds', moves', sys' := PlansOnce(worlds, moves, sys, d, now, plan);
    Speaks(sys', d, now, |plan|);
    worlds', moves', sys' := Act(worlds', moves', sys', SpeakOf(d, now));
  }

  lemma LosesIt(worlds: seq<World>, moves: seq<Move>, sys: P.Sys, d: Draw, now: int)
    returns (worlds': seq<World>, moves': seq<Move>, sys': P.Sys)
    requires IsRun(worlds, moves) && worlds[|moves|].scopes == map[GROUP := sys]
    requires Stage(sys, d, now, P.Speaking, 2, 1, true)
    ensures IsRun(worlds', moves') && worlds <= worlds'
    ensures worlds'[|moves'|] == worlds[|moves|].(scopes := map[GROUP := sys'])
    ensures Stage(sys', d, now, P.Raised(P.LeaseLost), 2, 1, false)
  {
    Loses(sys, d, now);
    worlds', moves', sys' := Act(worlds, moves, sys, P.Tick(C.LEASE_MS));
    worlds', moves', sys' := Act(worlds', moves', sys', P.Stumble(0, now, Fine));
    worlds', moves', sys' := Act(worlds', moves', sys', P.Cleanup(0, now, true));
  }

  lemma OneIsAccepted(d: Draw, limit: nat, user: string, now: int) returns (worlds: seq<World>, moves: seq<Move>)
    requires Drawn(d) && limit > 0
    ensures IsRun(worlds, moves) && worlds[0] == Start(limit, user)
    ensures worlds[|moves|].handlers == map[0 := Serving(d, user, now, Waiting)]
    ensures worlds[|moves|].scopes == map[GROUP := P.Init(GROUP)] && worlds[|moves|].user == user
  {
    worlds, moves := Submit([Start(limit, user)], [], 0, d, now, 1);
  }

  /** Charging every reply fails: one request, submitted once and accepted, is answered as failed after its
      worker lost the lease between two speakers. */
  lemma AReplyCanBeFree(d: Draw, limit: nat, user: string, now: int)
    requires Drawn(d) && limit > 0
    ensures exists worlds: seq<World>, moves: seq<Move> ::
      && IsRun(worlds, moves) && worlds[0] == Start(limit, user)
      && Once(worlds[|moves|]) && AnsweredLeaseLost(worlds[|moves|], 0) && Free(worlds[|moves|], d, now)
  {
    var worlds, moves := OneIsAccepted(d, limit, user, now);
    var sys: P.Sys;
    worlds, moves, sys := SpeaksOnce(worlds, moves, P.Init(GROUP), d, now, ["haruhi", "kyon"]);
    worlds, moves, sys := LosesIt(worlds, moves, sys, d, now);
    FreeAfterFailure(worlds, moves, sys, d, now);
    worlds, moves := Extend(worlds, moves, Answer(0, now));
  }

  lemma FreeAfterFailure(worlds: seq<World>, moves: seq<Move>, sys: P.Sys, d: Draw, now: int)
    requires IsRun(worlds, moves) && worlds[|moves|].scopes == map[GROUP := sys]
    requires worlds[|moves|].handlers == map[0 := Serving(d, worlds[|moves|].user, now, Waiting)]
    requires Stage(sys, d, now, P.Raised(P.LeaseLost), 2, 1, false)
    ensures CanMove(worlds[|moves|], Answer(0, now))
    ensures var after := MoveTo(worlds[|moves|], Answer(0, now));
      Once(after) && AnsweredLeaseLost(after, 0) && Free(after, d, now)
  {
    DayIsInterval(now, DayOf(now));
    var worlds', moves' := Extend(worlds, moves, Answer(0, now));
    var g := worlds'[|moves'|];
    assert g.handlers[0].phase == Answered(AsFailed);
    RunIsLedgered(worlds', moves', |moves'|);
    OwnFieldIsARequest(d);
    forall key ensures !Holds(g.book, key, OwnField(d)) {
      assert OwnedAt(g, key, OwnField(d)) && KeptAt(g, 0);
    }
  }
}

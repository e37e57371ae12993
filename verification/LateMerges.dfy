/** What a legacy turn does that joins a day after its batches: the failures are reachable, and an archived day
    never recovers from it. */
module LateMerges {
  import opened Wrappers
  import opened BeijingClock
  import opened Identifiers
  import opened ConversationStore
  import opened SendProtocol
  import opened LeaseInvariant
  import opened LogRuns
  import opened HiddenDays
  import opened LegacyMerge
  import opened MessageView
  import opened Maintenance

  /** What is drawn for a batch and for a legacy turn. */
  datatype Draws = Draws(request: string, batch: string, turn: string, token: string, legacyTurn: string)

  predicate Drawn(d: Draws) {
    && IsUuid(d.request) && IsBatchDraw(d.batch) && IsTurnDraw(d.turn)
    && IsDrawn(d.token) && IsDrawn(d.legacyTurn) && d.token != d.legacyTurn
  }

  function Begun(d: Draws, now: int): Sys
    requires Drawn(d)
  {
    Step(Init(DEFAULT_CONVERSATION), Begin(0, d.request, "hello", now, d.batch, d.turn, d.token, Fine))
  }

  function LateTurn(d: Draws, now: int): Turn {
    LegacyTurn(d.legacyTurn, USER, "hello again", now)
  }

  // One message, the started batch's.
  lemma BegunLog(d: Draws, now: int)
    requires Drawn(d)
    ensures var s := Begun(d, now).store;
      && s.conversationId == DEFAULT_CONVERSATION && Legacy(s, DayOf(now)) == []
      && |Log(s, DayOf(now))| == 1 && Log(s, DayOf(now))[0].batchId == d.batch && Log(s, DayOf(now))[0].turnId == d.turn
      && Log(s, DayOf(now))[0].sequence == 1
    ensures Begun(d, now).issued == {d.batch, d.turn, d.token}
    ensures IsRun([Init(DEFAULT_CONVERSATION), Begun(d, now)],
      [Begin(0, d.request, "hello", now, d.batch, d.turn, d.token, Fine)])
  {
  }

  lemma LateTurnMerges(s: Store, day: int, turn: Turn)
    requires s.conversationId == DEFAULT_CONVERSATION && Legacy(s, day) == []
    ensures Log(MigrateScript(AddTurnScript(s, day, turn), day), day) == [turn] + Log(s, day)
  {
  }

  lemma DisplacedByOne(log: seq<Turn>, turn: Turn)
    requires |log| == 1 && log[0].batchId != "" && log[0].sequence == 1
    ensures !Positioned([turn] + log)
  {
    assert ([turn] + log)[1] == log[0];
  }

  /** A late merge displaces a stored sequence number: for any draws there is a run of three steps after which a
      batch's message does not stand where its number says. */
  lemma ALateMergeDisplaces(d: Draws, now: int)
    requires Drawn(d)
    ensures exists states: seq<Sys>, events: seq<Event> ::
      IsRun(states, events) && !Positioned(Log(states[|events|].store, DayOf(now)))
  {
    BegunLog(d, now);
    LateMergeFrom([Init(DEFAULT_CONVERSATION), Begun(d, now)],
      [Begin(0, d.request, "hello", now, d.batch, d.turn, d.token, Fine)],
                  DayOf(now), LateTurn(d, now));
  }

  lemma LateMergeFrom(states: seq<Sys>, events: seq<Event>, day: int, turn: Turn)
    requires IsRun(states, events) && Enabled(states[|events|], AddTurn(turn)) && DayOf(turn.createdAt) == day
    requires var s := states[|events|].store;
      && s.conversationId == DEFAULT_CONVERSATION && Legacy(s, day) == []
      && |Log(s, day)| == 1 && Log(s, day)[0].batchId != "" && Log(s, day)[0].sequence == 1
    ensures exists states': seq<Sys>, events': seq<Event> ::
      IsRun(states', events') && !Positioned(Log(states'[|events'|].store, day))
  {
    LateTurnMerges(states[|events|].store, day, turn);
    DisplacedByOne(Log(states[|events|].store, day), turn);
    GoesOn(states, events, AddTurn(turn));
    var states', events' := states + [Step(states[|events|], AddTurn(turn))], events + [AddTurn(turn)];
    GoesOn(states', events', Migrate(day));
  }

  lemma GoesOn(states: seq<Sys>, events: seq<Event>, e: Event)
    requires IsRun(states, events) && Enabled(states[|events|], e)
    ensures IsRun(states + [Step(states[|events|], e)], events + [e])
    ensures (states + [Step(states[|events|], e)])[|events| + 1] == Step(states[|events|], e)
  {
  }

  // ---- A day that cannot be archived any more ----

  /** Archived in full without the legacy turns that now precede the log. */
  ghost predicate Stuck(n: Night, day: int, legacy: seq<Turn>, log: seq<Turn>) {
    && legacy != [] && log != [] && DistinctTurns(legacy + log)
    && n.store.conversationId == DEFAULT_CONVERSATION && Kept(n, day) == legacy + log
    && ArchivedInFull(n.rows, View(log, DEFAULT_CONVERSATION))
  }

  lemma AttemptLeavesStuck(n: Night, day: int, legacy: seq<Turn>, log: seq<Turn>, luck: Luck)
    requires Stuck(n, day, legacy, log)
    ensures !Maintain(n, day, luck).1 && Stuck(Maintain(n, day, luck).0, day, legacy, log)
  {
    LateMergeBlocksArchivingIffNotEmpty(n.rows, legacy, log, DEFAULT_CONVERSATION);
    RefusedAttempt(n, day, luck);
    ReadShowsKept(n, day);
  }

  /** No number of further attempts, however lucky, archives or clears such a day. */
  lemma {:induction false} StuckForGood(n: Night, day: int, legacy: seq<Turn>, log: seq<Turn>, lucks: seq<Luck>,
      luck: Luck)
    requires Stuck(n, day, legacy, log)
    ensures Stuck(Attempts(n, day, lucks), day, legacy, log) && !Maintain(Attempts(n, day, lucks), day, luck).1
  {
    if lucks != [] {
      var before := lucks[..|lucks| - 1];
      StuckForGood(n, day, legacy, log, before, lucks[|lucks| - 1]);
      AttemptLeavesStuck(Attempts(n, day, before), day, legacy, log, lucks[|lucks| - 1]);
    }
    AttemptLeavesStuck(Attempts(n, day, lucks), day, legacy, log, luck);
  }

  /** A legacy turn that joins a nonempty archived day which is not cleared yet. */
  lemma LateTurnSticks(n: Night, day: int, turn: Turn)
    requires n.store.conversationId == DEFAULT_CONVERSATION && Legacy(n.store, day) == [] && Log(n.store, day) != []
    requires ArchivedInFull(n.rows, View(Log(n.store, day), DEFAULT_CONVERSATION))
    requires DistinctTurns([turn] + Log(n.store, day))
    ensures Stuck(n.(store := AddTurnScript(n.store, day, turn)), day, [turn], Log(n.store, day))
  {
    TurnIsKept(n, day, turn);
  }

  lemma TurnIsKept(n: Night, day: int, turn: Turn)
    requires n.store.conversationId == DEFAULT_CONVERSATION && Legacy(n.store, day) == []
    ensures Kept(n.(store := AddTurnScript(n.store, day, turn)), day) == [turn] + Log(n.store, day)
  {
    assert Legacy(AddTurnScript(n.store, day, turn), day) == [turn];
  }

  // The job reads and archives a day without legacy turns, and gets no summary.
  lemma ArchivedUnsummarised(n: Night, day: int, luck: Luck)
    requires luck.read.Fine? && luck.archive.Fine? && luck.summary.None? && n.rows == map[]
    requires Legacy(n.store, day) == [] && Log(n.store, day) != [] && DistinctTurns(Log(n.store, day))
    ensures var (after, view) := (Maintain(n, day, luck).0, View(Log(n.store, day), n.store.conversationId));
      after == n.(rows := after.rows) && ArchivedInFull(after.rows, view)
  {
    ViewIsNumbered(Log(n.store, day), n.store.conversationId);
    ArchivesInFull(map[], View(Log(n.store, day), n.store.conversationId));
    assert MigrateScript(n.store, day) == n.store;
  }

  /** An attempt on the state's day, and then a legacy turn, leave a stuck night. */
  ghost predicate SticksAfter(sys: Sys, d: Draws, now: int, luck: Luck) {
    var attempted := Maintain(Night(sys.store, map[], ""), DayOf(now), luck).0;
    && attempted.store == sys.store && Enabled(sys, AddTurn(LateTurn(d, now)))
    && Stuck(attempted.(store := Step(sys, AddTurn(LateTurn(d, now))).store), DayOf(now), [LateTurn(d, now)],
      Log(sys.store, DayOf(now)))
  }

  lemma SticksFrom(sys: Sys, d: Draws, now: int, luck: Luck)
    requires luck.read.Fine? && luck.archive.Fine? && luck.summary.None? && d.legacyTurn !in sys.issued
    requires var (s, day) := (sys.store, DayOf(now));
      && s.conversationId == DEFAULT_CONVERSATION && Legacy(s, day) == [] && Log(s, day) != []
      && DistinctTurns([LateTurn(d, now)] + Log(s, day)) && DistinctTurns(Log(s, day))
    ensures SticksAfter(sys, d, now, luck)
  {
    var n := Night(sys.store, map[], "");
    ArchivedUnsummarised(n, DayOf(now), luck);
    LateTurnSticks(Maintain(n, DayOf(now), luck).0, DayOf(now), LateTurn(d, now));
  }

  /** Such a day is reachable: the job archives it and gets no summary, and a legacy turn joins it. */
  lemma ADayCanGetStuck(d: Draws, now: int, luck: Luck)
    requires Drawn(d) && luck.read.Fine? && luck.archive.Fine? && luck.summary.None?
    ensures exists states: seq<Sys>, events: seq<Event> ::
      IsRun(states, events) && SticksAfter(states[|events|], d, now, luck)
  {
    BegunLog(d, now);
    SticksFrom(Begun(d, now), d, now, luck);
    StuckRun([Init(DEFAULT_CONVERSATION), Begun(d, now)],
      [Begin(0, d.request, "hello", now, d.batch, d.turn, d.token, Fine)], d, now, luck);
  }

  lemma StuckRun(states: seq<Sys>, events: seq<Event>, d: Draws, now: int, luck: Luck)
    requires IsRun(states, events) && SticksAfter(states[|events|], d, now, luck)
    ensures exists states': seq<Sys>, events': seq<Event> ::
      IsRun(states', events') && SticksAfter(states'[|events'|], d, now, luck)
  {
  }

  // ---- A day written again ----

  /** A day archived in full, cleared and written again is refused: the new numbering starts at one once more. */
  lemma RewrittenDayIsRefused(n: Night, day: int, all: seq<Turn>)
    requires all != [] && ArchivedInFull(n.rows, View(all, n.store.conversationId))
    requires Kept(n, day) != [] && Kept(n, day)[0].turnId !in n.rows && DistinctTurns(Kept(n, day))
    ensures Refused(n, day)
  {
    ViewAt(all, n.store.conversationId, 0);
    ViewAt(Kept(n, day), n.store.conversationId, 0);
    ViewIsNumbered(Kept(n, day), n.store.conversationId);
    FirstNumberIsTaken(n.rows, View(all, n.store.conversationId), View(Kept(n, day), n.store.conversationId));
  }

  lemma FirstNumberIsTaken(rows: Rows, archived: seq<Turn>, view: seq<Turn>)
    requires ArchivedInFull(rows, archived) && archived != [] && archived[0].sequence == 1
    requires Numbered(view) && view != [] && view[0].turnId !in rows
    ensures InsertAll(rows, view).None?
  {
    assert RowIs(rows, archived[0].turnId, archived, 0);
    assert !Placeable(rows, view, 0);
    ArchivingSucceedsIff(rows, view, |view|);
    assert view[..|view|] == view;
  }

  /** It happens to a batch that is still generating when the day is archived and cleared: its next message cannot be
      archived any more. */
  lemma SpeechAfterTheNightIsRefused(sys: Sys, e: Event, day: int, rows: Rows, summary: string)
    requires e.Speak? && e.fault.Fine? && Enabled(sys, e) && CanWrite(sys, e.worker, day)
    requires Log(sys.store, day) != [] && Legacy(sys.store, day) == [] && TurnIdsOk(sys, day)
    requires ArchivedInFull(rows, View(Log(sys.store, day), sys.store.conversationId))
    ensures Enabled(Step(sys, Clear(day)), e)
    ensures Refused(Night(Step(Step(sys, Clear(day)), e).store, rows, summary), day)
  {
    ClearDuringGenerationHidesTheRest(sys, e, day);
    NewTurnHasNoRow(sys, day, rows, e.turnId);
    SpokenAlone(sys, e, day);
    var next := Step(Step(sys, Clear(day)), e).store;
    RewrittenDayIsRefused(Night(next, rows, summary), day, Log(sys.store, day));
  }

  lemma NewTurnHasNoRow(sys: Sys, day: int, rows: Rows, turnId: string)
    requires TurnIdsOk(sys, day) && Legacy(sys.store, day) == [] && turnId !in sys.issued
    requires ArchivedInFull(rows, View(Log(sys.store, day), sys.store.conversationId))
    ensures turnId !in rows
  {
    var log := Log(sys.store, day);
    assert AllTurns(sys.store, day) == log;
    if turnId in rows {
      assert FaithfulAt(rows, View(log, sys.store.conversationId), turnId);
      var j :| RowIs(rows, turnId, View(log, sys.store.conversationId), j);
      ViewAt(log, sys.store.conversationId, j);
    }
  }

  // After a clear, what the lease holder says is all that is kept.
  lemma SpokenAlone(sys: Sys, e: Event, day: int)
    requires e.Speak? && e.fault.Fine? && Enabled(sys, e) && CanWrite(sys, e.worker, day)
    requires Legacy(sys.store, day) == [] && Enabled(Step(sys, Clear(day)), e)
    ensures var next := Step(Step(sys, Clear(day)), e).store;
      && next.conversationId == sys.store.conversationId && Legacy(next, day) == []
      && |Log(next, day)| == 1 && Log(next, day)[0].turnId == e.turnId
  {
    SpeakWrites(Step(sys, Clear(day)), e);
  }
}

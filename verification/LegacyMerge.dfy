/** Legacy migration, and what a reader of a reachable log is shown. */
module LegacyMerge {
  import opened BeijingClock
  import opened ConversationStore
  import opened SendProtocol
  import opened LeaseInvariant
  import opened LogContiguity
  import opened ConversationRuns
  import opened LogRuns
  import opened MessageView

  /** Migration moves the whole legacy list in front of the log, once: nothing is lost, doubled or reordered. */
  lemma MigrationMovesEverythingOnce(s: Store, day: int)
    requires CountedAt(s, day)
    ensures var t := MigrateScript(s, day);
      && Legacy(t, day) + Log(t, day) == Legacy(s, day) + Log(s, day)
      && (s.conversationId == "direct-haruhi" ==> Legacy(t, day) == [])
      && CountedAt(t, day)
      && MigrateScript(t, day) == t
      && t.requests == s.requests && t.lease == s.lease
      && forall other :: other != day ==> Log(t, other) == Log(s, other) && Legacy(t, other) == Legacy(s, other)
  {
  }

  /** Legacy turns stand in front of every batch: in no reachable log does one follow a batch's message. */
  ghost predicate LegacyFirst(log: seq<Turn>) {
    && (forall i, j :: 0 <= i < j < |log| && IsBatchId(log[i].batchId) ==> log[j].batchId != "")
    && (forall i :: 0 <= i < |log| ==> IsLegacy(log[i]) || IsBatchId(log[i].batchId))
  }

  ghost predicate KeepsLegacyFirst(sys: Sys, day: int) {
    LegacyFirst(Log(sys.store, day))
  }

  lemma LegacyFirstStep(sys: Sys, e: Event, day: int)
    requires Inv(sys) && LogInv(sys) && Enabled(sys, e) && KeepsLegacyFirst(sys, day)
    ensures KeepsLegacyFirst(Step(sys, e), day)
  {
    StepChangesLog(sys, e, day);
    forall i | 0 <= i < |Legacy(sys.store, day)| ensures IsLegacy(Legacy(sys.store, day)[i]) {
      assert LegacyAt(sys.store, day, i);
    }
  }

  lemma {:induction false} LegacyTurnsComeFirst(states: seq<Sys>, events: seq<Event>, i: nat, day: int)
    requires IsRun(states, events) && i < |states|
    ensures KeepsLegacyFirst(states[i], day)
  {
    if i > 0 {
      LegacyTurnsComeFirst(states, events, i - 1, day);
      RunInv(states, events, i - 1);
      LegacyFirstStep(states[i - 1], events[i - 1], day);
    }
  }

  /** A reader of a reachable log is shown every message numbered and in a batch, and exactly the stored
      batch's own messages under each stored batch id. */
  lemma ReadersSeeStoredBatches(states: seq<Sys>, events: seq<Event>, i: nat, day: int, j: nat, batchId: string)
    requires IsRun(states, events) && i < |states| && j < |Log(states[i].store, day)| && IsBatchId(batchId)
    ensures var log := Log(states[i].store, day);
      var m := View(log, states[i].store.conversationId)[j];
      && m.batchId != "" && m.sequence == j + 1
      && (m.batchId == batchId <==> log[j].batchId == batchId)
  {
    LegacyTurnsComeFirst(states, events, i, day);
    var log := Log(states[i].store, day);
    ViewIsFaithful(log, states[i].store.conversationId, j);
    ViewIsComplete(log, states[i].store.conversationId, j);
    if IsLegacy(log[j]) {
      ViewAt(log, states[i].store.conversationId, j);
      LegacyBatchesAreNamedApart(log[..j]);
    }
  }

  lemma FirstLetter(id: string)
    ensures IsBatchId(id) ==> id[0] == 'b'
  {
    assert |id| >= 6 ==> id[..6][0] == id[0];
  }

  // No legacy batch name is a stored batch id.
  lemma {:induction false} LegacyBatchesAreNamedApart(log: seq<Turn>)
    ensures !IsBatchId(LegacyBatchAfter(log))
    ensures forall turnId: string :: !IsBatchId(LEGACY_BATCH + turnId)
  {
    forall turnId: string ensures !IsBatchId(LEGACY_BATCH + turnId) {
      FirstLetter(LEGACY_BATCH + turnId);
      assert (LEGACY_BATCH + turnId)[0] == 'l';
    }
    if log != [] {
      LegacyBatchesAreNamedApart(log[..|log| - 1]);
    }
  }

  // ---- Turn ids ----

  /** All turns kept for a day, legacy list first. */
  function AllTurns(s: Store, day: int): seq<Turn> {
    Legacy(s, day) + Log(s, day)
  }

  ghost predicate TurnIdsOk(sys: Sys, day: int) {
    && DistinctTurns(AllTurns(sys.store, day))
    && forall i :: 0 <= i < |AllTurns(sys.store, day)| ==> AllTurns(sys.store, day)[i].turnId in sys.issued
  }

  ghost predicate JoinsAt(before: seq<Turn>, after: seq<Turn>, n: nat, turn: Turn) {
    n <= |before| && after == before[..n] + [turn] + before[n..]
  }

  ghost predicate CutAt(before: seq<Turn>, after: seq<Turn>, n: nat) {
    n <= |before| && (after == before[..n] || after == before[n..])
  }

  lemma JoinKeepsTurnIds(before: seq<Turn>, after: seq<Turn>, n: nat, turn: Turn, issued: set<string>)
    requires JoinsAt(before, after, n, turn) && DistinctTurns(before) && turn.turnId !in issued
    requires forall i :: 0 <= i < |before| ==> before[i].turnId in issued
    ensures DistinctTurns(after) && forall i :: 0 <= i < |after| ==> after[i].turnId in issued + {turn.turnId}
  {
    forall i | 0 <= i < |after|
      ensures after[i] == if i < n then before[i] else if i == n then turn else before[i - 1]
    {
    }
  }

  lemma CutKeepsTurnIds(before: seq<Turn>, after: seq<Turn>, n: nat, issued: set<string>)
    requires CutAt(before, after, n) && DistinctTurns(before)
    requires forall i :: 0 <= i < |before| ==> before[i].turnId in issued
    ensures DistinctTurns(after) && forall i :: 0 <= i < |after| ==> after[i].turnId in issued
  {
  }

  /** What a step does to the turns kept for a day: nothing, a new turn joins, or one end is cut off. */
  ghost predicate Moves(sys: Sys, next: Sys, day: int) {
    var before, after := AllTurns(sys.store, day), AllTurns(next.store, day);
    && sys.issued <= next.issued
    && (after == before || (exists n :: CutAt(before, after, n))
        || exists n, turn :: Joins(before, after, n, turn, sys.issued, next.issued))
  }

  ghost predicate Joins(before: seq<Turn>, after: seq<Turn>, n: nat, turn: Turn, issued: set<string>,
      issued': set<string>)
  {
    JoinsAt(before, after, n, turn) && turn.turnId !in issued && issued + {turn.turnId} <= issued'
  }

  lemma PushJoins(sys: Sys, next: Sys, day: int, turn: Turn)
    requires turn.turnId !in sys.issued && sys.issued + {turn.turnId} <= next.issued
    requires Legacy(next.store, day) == Legacy(sys.store, day) && Log(next.store, day) == Log(sys.store, day) + [turn]
    ensures Moves(sys, next, day)
  {
    var before, after := AllTurns(sys.store, day), AllTurns(next.store, day);
    assert after == before[..|before|] + [turn] + before[|before|..];
    assert Joins(before, after, |before|, turn, sys.issued, next.issued);
  }

  lemma SpeakMoves(sys: Sys, e: Event, day: int)
    requires Inv(sys) && e.Speak? && Enabled(sys, e)
    ensures Moves(sys, Step(sys, e), day)
  {
    if Log(Step(sys, e).store, day) != Log(sys.store, day) {
      SpeakWrites(sys, e);
      var c := Appended(sys, e);
      PushJoins(sys, Step(sys, e), day, c.characters[|c.characters| - 1]);
    }
  }

  lemma BeginMoves(sys: Sys, e: Event, day: int)
    requires e.Begin? && Enabled(sys, e)
    ensures Moves(sys, Step(sys, e), day)
  {
    BeginLogs(sys, e, day);
    if Log(Step(sys, e).store, day) != Log(sys.store, day) {
      PushJoins(sys, Step(sys, e), day, Log(Step(sys, e).store, day)[|Log(sys.store, day)|]);
    }
  }

  // A begin adds its user message, under the turn id it drew, or nothing.
  lemma BeginLogs(sys: Sys, e: Event, day: int)
    requires e.Begin? && Enabled(sys, e)
    ensures var (s, t) := (sys.store, Step(sys, e).store);
      && t.legacy == s.legacy && Step(sys, e).issued == sys.issued + {e.batchId, e.turnId, e.token}
      && (Log(t, day) == Log(s, day) ||
           (|Log(t, day)| == |Log(s, day)| + 1 && Log(t, day)[|Log(s, day)|].turnId == e.turnId
             && Log(t, day) == Log(s, day) + [Log(t, day)[|Log(s, day)|]]))
  {
  }

  lemma AddTurnMoves(sys: Sys, e: Event, day: int)
    requires e.AddTurn? && Enabled(sys, e)
    ensures Moves(sys, Step(sys, e), day)
  {
    if DayOf(e.turn.createdAt) == day {
      var before, after, n := AllTurns(sys.store, day), AllTurns(Step(sys, e).store, day), |Legacy(sys.store, day)|;
      assert before[..n] == Legacy(sys.store, day) && before[n..] == Log(sys.store, day);
      assert Joins(before, after, n, e.turn, sys.issued, Step(sys, e).issued);
    }
  }

  lemma ClearMoves(sys: Sys, e: Event, day: int)
    requires e.Clear? || e.LegacyClear?
    ensures Moves(sys, Step(sys, e), day)
  {
    if e.day == day {
      var before, n := AllTurns(sys.store, day), |Legacy(sys.store, day)|;
      assert before[..n] == Legacy(sys.store, day) && before[n..] == Log(sys.store, day);
      assert CutAt(before, AllTurns(Step(sys, e).store, day), n);
    }
  }

  lemma MigrateMoves(sys: Sys, e: Event, day: int)
    requires LogInv(sys) && e.Migrate?
    ensures Moves(sys, Step(sys, e), day)
  {
    assert CountedAt(sys.store, e.day);
    MigrationMovesEverythingOnce(sys.store, e.day);
    assert AllTurns(Step(sys, e).store, day) == AllTurns(sys.store, day);
  }

  lemma StepMovesTurns(sys: Sys, e: Event, day: int)
    requires Inv(sys) && LogInv(sys) && Enabled(sys, e)
    ensures Moves(sys, Step(sys, e), day)
  {
    match e
    case Begin(_, _, _, _, _, _, _, _) => BeginMoves(sys, e, day);
    case Speak(_, _, _, _, _, _, _) => SpeakMoves(sys, e, day);
    case AddTurn(_) => AddTurnMoves(sys, e, day);
    case Clear(_) => ClearMoves(sys, e, day);
    case LegacyClear(_) => ClearMoves(sys, e, day);
    case Migrate(_) => MigrateMoves(sys, e, day);
    case _ => OthersLogNothing(sys, e);
  }

  lemma MovesKeepTurnIds(sys: Sys, next: Sys, day: int)
    requires TurnIdsOk(sys, day) && Moves(sys, next, day)
    ensures TurnIdsOk(next, day)
  {
    var before, after := AllTurns(sys.store, day), AllTurns(next.store, day);
    if n :| CutAt(before, after, n) {
      CutKeepsTurnIds(before, after, n, sys.issued);
    } else if n, turn :| Joins(before, after, n, turn, sys.issued, next.issued) {
      JoinKeepsTurnIds(before, after, n, turn, sys.issued);
    }
  }

  /** No two turns kept for a day share a turn id. */
  lemma {:induction false} TurnIdsAreDistinct(states: seq<Sys>, events: seq<Event>, i: nat, day: int)
    requires IsRun(states, events) && i < |states|
    ensures TurnIdsOk(states[i], day)
  {
    if i > 0 {
      TurnIdsAreDistinct(states, events, i - 1, day);
      RunInv(states, events, i - 1);
      StepMovesTurns(states[i - 1], events[i - 1], day);
      MovesKeepTurnIds(states[i - 1], states[i], day);
    }
  }

  // ---- Order ----

  ghost predicate Has(turns: seq<Turn>, id: string) {
    exists p :: 0 <= p < |turns| && turns[p].turnId == id
  }

  /** Wherever the two turns are both kept, the first stands before the second. */
  ghost predicate Before(turns: seq<Turn>, first: string, second: string) {
    forall p, q :: 0 <= p < |turns| && 0 <= q < |turns| && turns[p].turnId == first && turns[q].turnId == second ==>
      p < q
  }

  lemma CutKeepsOrder(before: seq<Turn>, after: seq<Turn>, n: nat, first: string, second: string)
    requires CutAt(before, after, n) && Before(before, first, second)
    ensures Before(after, first, second)
  {
    var offset := if after == before[..n] then 0 else n;
    assert forall i :: 0 <= i < |after| ==> after[i] == before[i + offset];
  }

  lemma JoinKeepsOrder(before: seq<Turn>, after: seq<Turn>, n: nat, turn: Turn, first: string, second: string)
    requires JoinsAt(before, after, n, turn) && Before(before, first, second) && turn.turnId !in {first, second}
    ensures Before(after, first, second)
  {
    forall p, q | 0 <= p < |after| && 0 <= q < |after| && after[p].turnId == first && after[q].turnId == second
      ensures p < q
    {
      var i, j := if p < n then p else p - 1, if q < n then q else q - 1;
      assert before[i] == after[p] && before[j] == after[q];
    }
  }

  lemma MovesKeepOrder(sys: Sys, next: Sys, day: int, first: string, second: string)
    requires Moves(sys, next, day) && Before(AllTurns(sys.store, day), first, second)
    requires first in sys.issued && second in sys.issued
    ensures Before(AllTurns(next.store, day), first, second)
  {
    var before, after := AllTurns(sys.store, day), AllTurns(next.store, day);
    if n :| CutAt(before, after, n) {
      CutKeepsOrder(before, after, n, first, second);
    } else if n, turn :| Joins(before, after, n, turn, sys.issued, next.issued) {
      JoinKeepsOrder(before, after, n, turn, first, second);
    }
  }

  /** Order never changes: what stands before another turn of the day does so for ever. */
  lemma {:induction false} OrderIsForEver(states: seq<Sys>, events: seq<Event>, i: nat, j: nat, day: int,
      first: string, second: string)
    requires IsRun(states, events) && i <= j < |states|
    requires Before(AllTurns(states[i].store, day), first, second)
    requires first in states[i].issued && second in states[i].issued
    ensures Before(AllTurns(states[j].store, day), first, second)
  {
    if i < j {
      OrderIsForEver(states, events, i, j - 1, day, first, second);
      RunEvolves(states, events, i, j - 1);
      RunInv(states, events, j - 1);
      StepMovesTurns(states[j - 1], events[j - 1], day);
      MovesKeepOrder(states[j - 1], states[j], day, first, second);
    }
  }

  /** A legacy turn comes after those that were on the list and before everything merged or logged already: wherever
      two of them are later kept together, merged or not, they stand in that order. */
  lemma LegacyTurnsKeepTheirOrder(states: seq<Sys>, events: seq<Event>, i: nat, j: nat, other: string)
    requires IsRun(states, events) && i < j < |states| && events[i].AddTurn?
    ensures var (day, id) := (DayOf(events[i].turn.createdAt), events[i].turn.turnId);
      && (Has(Legacy(states[i].store, day), other) ==> Before(AllTurns(states[j].store, day), other, id))
      && (Has(Log(states[i].store, day), other) ==> Before(AllTurns(states[j].store, day), id, other))
  {
    var day, id := DayOf(events[i].turn.createdAt), events[i].turn.turnId;
    TurnIdsAreDistinct(states, events, i, day);
    AddedTurnStandsLast(states[i], events[i].turn, other);
    if Has(Legacy(states[i].store, day), other) {
      KeptTurnsAreIssued(states[i], day, other);
      OrderIsForEver(states, events, i + 1, j, day, other, id);
    }
    if Has(Log(states[i].store, day), other) {
      KeptTurnsAreIssued(states[i], day, other);
      OrderIsForEver(states, events, i + 1, j, day, id, other);
    }
  }

  lemma JoinedBetween(front: seq<Turn>, back: seq<Turn>, turn: Turn, other: string)
    requires DistinctTurns(front + back)
    requires forall i :: 0 <= i < |front + back| ==> (front + back)[i].turnId != turn.turnId
    ensures Has(front, other) ==> Before(front + [turn] + back, other, turn.turnId)
    ensures Has(back, other) ==> Before(front + [turn] + back, turn.turnId, other)
  {
    var both, all := front + back, front + [turn] + back;
    var ids := set i | 0 <= i < |both| :: both[i].turnId;
    assert JoinsAt(both, all, |front|, turn);
    JoinKeepsTurnIds(both, all, |front|, turn, ids);
    assert all[|front|] == turn;
    if p :| 0 <= p < |front| && front[p].turnId == other {
      PlacesOrder(all, p, |front|);
    }
    if p :| 0 <= p < |back| && back[p].turnId == other {
      assert all[|front| + 1 + p] == back[p];
      PlacesOrder(all, |front|, |front| + 1 + p);
    }
  }

  lemma PlacesOrder(turns: seq<Turn>, p: nat, q: nat)
    requires DistinctTurns(turns) && p < q < |turns|
    ensures Before(turns, turns[p].turnId, turns[q].turnId)
  {
  }

  lemma KeptTurnsAreIssued(sys: Sys, day: int, id: string)
    requires TurnIdsOk(sys, day) && (Has(Legacy(sys.store, day), id) || Has(Log(sys.store, day), id))
    ensures id in sys.issued
  {
    var legacy, log := Legacy(sys.store, day), Log(sys.store, day);
    if p :| 0 <= p < |legacy| && legacy[p].turnId == id {
      assert AllTurns(sys.store, day)[p].turnId == id;
    } else if p :| 0 <= p < |log| && log[p].turnId == id {
      assert AllTurns(sys.store, day)[|legacy| + p].turnId == id;
    }
  }

  lemma AddedTurnStandsLast(sys: Sys, turn: Turn, other: string)
    requires Enabled(sys, AddTurn(turn)) && TurnIdsOk(sys, DayOf(turn.createdAt))
    ensures var (day, next) := (DayOf(turn.createdAt), Step(sys, AddTurn(turn)));
      && (Has(Legacy(sys.store, day), other) ==> Before(AllTurns(next.store, day), other, turn.turnId))
      && (Has(Log(sys.store, day), other) ==> Before(AllTurns(next.store, day), turn.turnId, other))
      && next.issued == sys.issued + {turn.turnId}
  {
    var day := DayOf(turn.createdAt);
    var legacy, log := Legacy(sys.store, day), Log(sys.store, day);
    JoinedBetween(legacy, log, turn, other);
    assert AllTurns(Step(sys, AddTurn(turn)).store, day) == legacy + [turn] + log;
  }
}

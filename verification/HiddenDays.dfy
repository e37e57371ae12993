/** Which days the nightly job finds: when a clear leaves later messages where no list mentions them. */
module HiddenDays {
  import opened Wrappers
  import opened BeijingClock
  import opened Identifiers
  import opened ConversationStore
  import opened SendProtocol
  import opened LeaseInvariant
  import opened ConversationRuns
  import opened LogRuns

  /** The lists the nightly job reads name this scope; the legacy list stands for the default conversation. */
  predicate OnList(s: Store, day: int) {
    day in s.active || (s.conversationId == DEFAULT_CONVERSATION && day in s.legacyActive)
  }

  /** A day with messages is found. */
  predicate Visible(s: Store, day: int) {
    Log(s, day) != [] ==> OnList(s, day)
  }

  // ---- Days that were never cleared ----

  ghost predicate Listed(s: Store, day: int) {
    && (forall k :: k in s.requests && k.day == day ==> day in s.active)
    && (Legacy(s, day) != [] ==> day in s.legacyActive)
    && Visible(s, day)
  }

  // Every key of the next ledger keeps its day listed.
  lemma RequestDaysStayListed(sys: Sys, e: Event, k: RequestKey)
    requires Inv(sys) && Enabled(sys, e) && Listed(sys.store, k.day) && e != Clear(k.day)
    requires k in Step(sys, e).store.requests
    ensures k.day in Step(sys, e).store.active
  {
    if k !in sys.store.requests {
      OnlyBeginAddsRequests(sys, e, k);
    }
  }

  // Lists shrink by clearing only.
  lemma ListsOnlyGrow(sys: Sys, e: Event, day: int)
    requires Enabled(sys, e)
    ensures var (s, t) := (sys.store, Step(sys, e).store);
      && t.conversationId == s.conversationId
      && (e != Clear(day) && day in s.active ==> day in t.active)
      && (e != Clear(day) && e != LegacyClear(day) && day in s.legacyActive ==> day in t.legacyActive)
  {
    if LogsNothing(e) {
      OthersLogNothing(sys, e);
    }
  }

  // The legacy list grows by legacy turns only, and they list their day.
  lemma LegacyGrows(sys: Sys, e: Event, day: int)
    requires Enabled(sys, e)
    ensures var (s, t) := (sys.store, Step(sys, e).store);
      Legacy(t, day) != [] ==> Legacy(s, day) != [] || day in t.legacyActive
  {
  }

  // A log becomes nonempty by a message or a merge.
  lemma LogFills(sys: Sys, e: Event, day: int)
    requires Inv(sys) && Enabled(sys, e)
    ensures var (s, t) := (sys.store, Step(sys, e).store);
      Log(t, day) != [] ==>
        || Log(s, day) != [] || day in t.active
        || (e == Migrate(day) && s.conversationId == DEFAULT_CONVERSATION && Legacy(s, day) != [])
        || (e.Speak? && CanWrite(sys, e.worker, day))
  {
    if e.Begin? {
      BeginFills(sys, e, day);
    } else if e.Speak? {
      SpeakFills(sys, e, day);
    }
  }

  lemma BeginFills(sys: Sys, e: Event, day: int)
    requires e.Begin? && Enabled(sys, e)
    ensures Log(Step(sys, e).store, day) == Log(sys.store, day) || day in Step(sys, e).store.active
  {
  }

  lemma SpeakFills(sys: Sys, e: Event, day: int)
    requires e.Speak? && Enabled(sys, e) && Inv(sys)
    ensures Log(Step(sys, e).store, day) == Log(sys.store, day) || CanWrite(sys, e.worker, day)
  {
    assert WorkerAt(sys, e.worker);
    if HoldsLease(sys.store, sys.workers[e.worker].token) && !e.fault.NotApplied? {
      SpeakWrites(sys, e);
    }
  }

  lemma ListedStep(sys: Sys, e: Event, day: int)
    requires Inv(sys) && Enabled(sys, e) && Listed(sys.store, day) && e != Clear(day) && e != LegacyClear(day)
    ensures Listed(Step(sys, e).store, day)
  {
    forall k | k in Step(sys, e).store.requests && k.day == day ensures day in Step(sys, e).store.active {
      RequestDaysStayListed(sys, e, k);
    }
    ListsOnlyGrow(sys, e, day);
    LegacyGrows(sys, e, day);
    LogFills(sys, e, day);
    if e.Speak? {
      assert WorkerAt(sys, e.worker);
    }
  }

  /** Until the day is cleared, a day with messages or requests is on a list the nightly job reads. */
  lemma {:induction false} UnclearedDaysAreListed(states: seq<Sys>, events: seq<Event>, i: nat, day: int)
    requires IsRun(states, events) && i < |states|
    requires forall j :: 0 <= j < i ==> events[j] != Clear(day) && events[j] != LegacyClear(day)
    ensures Listed(states[i].store, day)
  {
    if i > 0 {
      UnclearedDaysAreListed(states, events, i - 1, day);
      RunInv(states, events, i - 1);
      ListedStep(states[i - 1], events[i - 1], day);
    }
  }

  // ---- Days that were cleared ----

  /** The worker holds the lease on a batch of this day, with something left to say. */
  predicate CanWrite(sys: Sys, w: nat, day: int) {
    && w in sys.workers && sys.workers[w].began && HoldsLease(sys.store, sys.workers[w].token)
    && var worker := sys.workers[w];
      && KeyOf(worker.batch).day == day
      && (worker.phase.Planning? || (worker.phase.Speaking? && |worker.batch.characters| < |worker.batch.planned|))
  }

  /** What a clear must find: nothing left to merge, and nobody about to write. */
  ghost predicate Harmless(sys: Sys, day: int) {
    && (sys.store.conversationId == DEFAULT_CONVERSATION ==> Legacy(sys.store, day) == [])
    && forall w :: !CanWrite(sys, w, day)
  }

  // A clear of either kind after which no message of the day can be missed.
  ghost predicate HarmlessIfClear(sys: Sys, e: Event, day: int) {
    && (e == Clear(day) ==> Harmless(sys, day))
    && (e == LegacyClear(day) && sys.store.conversationId == DEFAULT_CONVERSATION ==>
          Log(sys.store, day) == [] || day in sys.store.active)
  }

  ghost predicate WriterListed(sys: Sys, day: int, w: nat) {
    CanWrite(sys, w, day) ==> day in sys.store.active
  }

  /** Whatever can still reach the log of the day is on a list. */
  ghost predicate Watched(sys: Sys, day: int) {
    && Visible(sys.store, day)
    && (sys.store.conversationId == DEFAULT_CONVERSATION && Legacy(sys.store, day) != [] ==>
      day in sys.store.legacyActive)
    && forall w :: WriterListed(sys, day, w)
  }

  // A step makes no writer, except that a started batch has one.
  lemma WritersComeFromBegin(sys: Sys, e: Event, day: int, w: nat)
    requires Inv(sys) && Enabled(sys, e) && CanWrite(Step(sys, e), w, day)
    ensures CanWrite(sys, w, day) || (e.Begin? && day in Step(sys, e).store.active)
  {
    if w in sys.workers {
      assert WorkerAt(sys, w);
      OthersKeepTheirPlace(sys, e, w);
      if !HoldsLease(sys.store, sys.workers[w].token) && sys.workers[w].began {
        LostLeaseStaysLost(sys, e, sys.workers[w].token);
      }
    }
  }

  lemma SpeakersPlace(sys: Sys, e: Event)
    requires e.Speak? && Enabled(sys, e)
    ensures var (v, t) := (sys.workers[e.worker], StepSpeak(sys, e).workers[e.worker]);
      t.token == v.token && t.began == v.began && KeyOf(t.batch) == KeyOf(v.batch) && !t.phase.Planning?
  {
    if HoldsLease(sys.store, sys.workers[e.worker].token) && !e.fault.NotApplied? {
      SpeakWrites(sys, e);
    }
  }

  lemma OthersKeepTheirPlace(sys: Sys, e: Event, w: nat)
    requires Inv(sys) && Enabled(sys, e) && w in sys.workers
    ensures var (v, t) := (sys.workers[w], Step(sys, e).workers[w]);
      && t.token == v.token && t.began == v.began && KeyOf(t.batch) == KeyOf(v.batch)
      && (t.phase.Planning? ==> v.phase.Planning?)
      && (t.phase.Speaking? && |t.batch.characters| < |t.batch.planned| ==>
            v.phase.Planning? || (v.phase.Speaking? && |v.batch.characters| < |v.batch.planned|))
  {
    if Actor(e) != Some(w) {
      OthersKeepWorker(sys, e, w);
    } else if e.Speak? {
      SpeakersPlace(sys, e);
    }
  }

  lemma WatchedStep(sys: Sys, e: Event, day: int)
    requires Inv(sys) && Enabled(sys, e) && Watched(sys, day) && HarmlessIfClear(sys, e, day)
    ensures Watched(Step(sys, e), day)
  {
    var next := Step(sys, e);
    if e == Clear(day) {
      ClearWatches(sys, day);
    } else {
      ListsOnlyGrow(sys, e, day);
      LegacyGrows(sys, e, day);
      LogFills(sys, e, day);
      if e.Speak? {
        assert WriterListed(sys, day, e.worker);
      }
      forall w ensures WriterListed(next, day, w) {
        if CanWrite(next, w, day) {
          WritersComeFromBegin(sys, e, day, w);
          assert WriterListed(sys, day, w);
        }
      }
    }
  }

  lemma ClearWatches(sys: Sys, day: int)
    requires Harmless(sys, day)
    ensures Watched(Step(sys, Clear(day)), day)
  {
    forall w ensures WriterListed(Step(sys, Clear(day)), day, w) {
      assert CanWrite(Step(sys, Clear(day)), w, day) ==> CanWrite(sys, w, day);
    }
  }

  /** In every run in which each clear of the day found nothing to merge and nobody about to write, the day is
      found whenever it has messages. */
  lemma {:induction false} HarmlesslyClearedDaysAreFound(states: seq<Sys>, events: seq<Event>, i: nat, day: int)
    requires IsRun(states, events) && i < |states|
    requires forall j :: 0 <= j < i ==> HarmlessIfClear(states[j], events[j], day)
    ensures Watched(states[i], day)
  {
    if i > 0 {
      HarmlesslyClearedDaysAreFound(states, events, i - 1, day);
      RunInv(states, events, i - 1);
      WatchedStep(states[i - 1], events[i - 1], day);
    } else {
      forall w ensures WriterListed(states[0], day, w) {
      }
    }
  }

  // ---- The exact condition ----

  /** What can follow a state without another clear of the day. */
  ghost predicate Continues(start: Sys, states: seq<Sys>, events: seq<Event>, day: int) {
    && |states| == |events| + 1 && states[0] == start
    && forall i :: 0 <= i < |events| ==>
      && Enabled(states[i], events[i]) && states[i + 1] == Step(states[i], events[i])
      && events[i] != Clear(day) && events[i] != LegacyClear(day)
  }

  ghost predicate AlwaysFound(start: Sys, day: int) {
    forall states: seq<Sys>, events: seq<Event> :: Continues(start, states, events, day) ==>
      Visible(states[|events|].store, day)
  }

  /** After a clear, a day with messages is found however the scope goes on exactly when the clear found nothing
      to merge and no lease holder with something left to say. */
  lemma ClearedDayIsFoundIff(sys: Sys, day: int)
    requires Inv(sys)
    ensures AlwaysFound(Step(sys, Clear(day)), day) <==> Harmless(sys, day)
  {
    var cleared := Step(sys, Clear(day));
    if Harmless(sys, day) {
      ClearWatches(sys, day);
      StepKeepsInv(sys, Clear(day));
      forall states: seq<Sys>, events: seq<Event> | Continues(cleared, states, events, day)
        ensures Visible(states[|events|].store, day)
      {
        ContinuationIsWatched(cleared, states, events, day);
      }
    } else if sys.store.conversationId == DEFAULT_CONVERSATION && Legacy(sys.store, day) != [] {
      MergeHides(sys, day);
    } else {
      var w :| CanWrite(sys, w, day);
      WriterHides(sys, w, day);
    }
  }

  lemma {:induction false} ContinuationIsWatched(start: Sys, states: seq<Sys>, events: seq<Event>, day: int)
    requires Inv(start) && Watched(start, day) && Continues(start, states, events, day)
    ensures Inv(states[|events|]) && Watched(states[|events|], day)
  {
    if events != [] {
      var n := |events| - 1;
      ContinuationIsWatched(start, states[..n + 1], events[..n], day);
      StepKeepsInv(states[n], events[n]);
      WatchedStep(states[n], events[n], day);
    }
  }

  // A legacy list left behind is merged into a log that no list mentions.
  lemma MergeHides(sys: Sys, day: int)
    requires sys.store.conversationId == DEFAULT_CONVERSATION && Legacy(sys.store, day) != []
    ensures !AlwaysFound(Step(sys, Clear(day)), day)
  {
    var cleared := Step(sys, Clear(day));
    var merged := Step(cleared, Migrate(day));
    assert Continues(cleared, [cleared, merged], [Migrate(day)], day);
    assert !Visible(merged.store, day);
  }

  /** A clear that slips in while the day's batch is generating hides what is said afterwards: the next message
      is alone on a day that no list mentions. */
  lemma ClearDuringGenerationHidesTheRest(sys: Sys, e: Event, day: int)
    requires e.Speak? && e.fault.Fine? && Enabled(sys, e) && CanWrite(sys, e.worker, day)
    ensures var cleared := Step(sys, Clear(day));
      && Enabled(cleared, e) && |Log(Step(cleared, e).store, day)| == 1 && !OnList(Step(cleared, e).store, day)
  {
    SpeakWrites(Step(sys, Clear(day)), e);
  }

  // What the lease holder says next is logged on a day that no list mentions.
  lemma SpeechHides(sys: Sys, e: Event, day: int)
    requires e.Speak? && e.fault.Fine? && Enabled(sys, e) && CanWrite(sys, e.worker, day) && !OnList(sys.store, day)
    ensures !Visible(Step(sys, e).store, day)
  {
    SpeakWrites(sys, e);
  }

  lemma SpeakerHides(cleared: Sys, w: nat, day: int)
    requires CanWrite(cleared, w, day) && cleared.workers[w].phase.Speaking? && !OnList(cleared.store, day)
    ensures !AlwaysFound(cleared, day)
  {
    var turnId := FreshId("turn-", cleared.issued);
    var speak := Speak(w, "", "", "a reply", turnId, 0, Fine);
    SpeechHides(cleared, speak, day);
    assert Continues(cleared, [cleared, Step(cleared, speak)], [speak], day);
  }

  lemma PlannerHides(cleared: Sys, w: nat, day: int)
    requires CanWrite(cleared, w, day) && cleared.workers[w].phase.Planning?
    requires cleared.workers[w].batch.characters == []
    requires !OnList(cleared.store, day)
    ensures !AlwaysFound(cleared, day)
  {
    var plan := Plan(w, ["haruhi"], 0, Fine);
    var planned := Step(cleared, plan);
    SpeakerHides(planned, w, day);
    var states: seq<Sys>, events: seq<Event> :| Continues(planned, states, events, day)
      && !Visible(states[|events|].store, day);
    assert Continues(cleared, [cleared] + states, [plan] + events, day) by {
      forall i | 0 <= i < |[plan] + events|
        ensures Enabled(([cleared] + states)[i], ([plan] + events)[i])
        ensures ([cleared] + states)[i + 1] == Step(([cleared] + states)[i], ([plan] + events)[i])
        ensures ([plan] + events)[i] != Clear(day) && ([plan] + events)[i] != LegacyClear(day)
      {
        if i > 0 {
          assert ([plan] + events)[i] == events[i - 1] && ([cleared] + states)[i] == states[i - 1];
        }
      }
    }
    assert ([cleared] + states)[|[plan] + events|] == states[|events|];
  }

  lemma WriterHides(sys: Sys, w: nat, day: int)
    requires Inv(sys) && CanWrite(sys, w, day)
    ensures !AlwaysFound(Step(sys, Clear(day)), day)
  {
    assert WorkerAt(sys, w);
    if sys.workers[w].phase.Speaking? {
      SpeakerHides(Step(sys, Clear(day)), w, day);
    } else {
      PlannerHides(Step(sys, Clear(day)), w, day);
    }
  }

  // ---- Both failures are reachable ----

  /** A batch that started after a clear had checked the lease, or before a nightly clear. */
  lemma StartedBatchIsHarmful(c: string, requestId: string, content: string, now: int, batchId: string, turnId: string,
      token: string)
    requires IsBatchId(batchId) && batchId != turnId && batchId != token && turnId != token
    ensures exists states: seq<Sys>, events: seq<Event> ::
      IsRun(states, events) && CanWrite(states[|events|], 0, DayOf(now))
  {
    var begin := Begin(0, requestId, content, now, batchId, turnId, token, Fine);
    var states := [Init(c), Step(Init(c), begin)];
    assert IsRun(states, [begin]);
  }

  /** A legacy turn added after a clear had merged the list. */
  lemma AddedTurnIsHarmful(turnId: string, role: string, content: string, now: int)
    ensures exists states: seq<Sys>, events: seq<Event> ::
      IsRun(states, events) && states[|events|].store.conversationId == DEFAULT_CONVERSATION
        && Legacy(states[|events|].store, DayOf(now)) != []
  {
    var add := AddTurn(LegacyTurn(turnId, role, content, now));
    var states := [Init(DEFAULT_CONVERSATION), Step(Init(DEFAULT_CONVERSATION), add)];
    assert IsRun(states, [add]);
  }
}

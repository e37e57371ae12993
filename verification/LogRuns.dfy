/** The day logs over whole runs. */
module LogRuns {
  import opened BeijingClock
  import opened ConversationStore
  import opened SendProtocol
  import opened LeaseInvariant
  import opened LogContiguity
  import opened ConversationRuns

  /** What one step can do to one day's log. */
  datatype LogChange = Same | Push | Merge | Wipe

  function ChangeOf(s: Store, t: Store, e: Event, day: int): LogChange {
    if e == Clear(day) then Wipe
    else if e == Migrate(day) then (if MigrateScript(s, day) == s then Same else Merge)
    else if Log(t, day) == Log(s, day) then Same
    else Push
  }

  ghost predicate Changed(s: Store, t: Store, day: int, change: LogChange) {
    match change
    case Same => Log(t, day) == Log(s, day)
    case Push => exists turn ::
      Log(t, day) == Log(s, day) + [turn] && turn.sequence == CounterOf(s, day) + 1 && IsBatchId(turn.batchId)
    case Merge => Log(t, day) == Legacy(s, day) + Log(s, day) && Legacy(s, day) != []
    case Wipe => Log(t, day) == []
  }

  lemma SpeakChangesLog(sys: Sys, e: Event, day: int)
    requires Inv(sys) && Enabled(sys, e) && e.Speak? && Log(Step(sys, e).store, day) != Log(sys.store, day)
    ensures Changed(sys.store, Step(sys, e).store, day, Push)
  {
    SpeakWrites(sys, e);
    AppendedIsSound(sys, e);
    var c := Appended(sys, e);
    assert Log(Step(sys, e).store, day) == Log(sys.store, day) + [c.characters[|c.characters| - 1]];
  }

  lemma StepChangesLog(sys: Sys, e: Event, day: int)
    requires Inv(sys) && Enabled(sys, e)
    ensures Changed(sys.store, Step(sys, e).store, day, ChangeOf(sys.store, Step(sys, e).store, e, day))
  {
    var s, t := sys.store, Step(sys, e).store;
    if e.Speak? && Log(t, day) != Log(s, day) {
      SpeakChangesLog(sys, e, day);
    }
  }

  // ---- Contiguity ----

  /** In every reachable state, whatever was cleared or merged: what the log has of a batch is one block, equal
      to the end of its ledger snapshot, with none of its messages elsewhere. No logged message is without a
      snapshot, and the counter is the log's length. */
  lemma EveryBatchIsOneBlock(states: seq<Sys>, events: seq<Event>, i: nat)
    requires IsRun(states, events) && i < |states|
    ensures forall k :: PlacedAt(states[i].store, k)
    ensures forall day, j :: 0 <= j < |Log(states[i].store, day)| ==>
      IsLegacy(Log(states[i].store, day)[j]) || exists k :: Logs(states[i].store, k, day, Log(states[i].store, day)[j])
    ensures forall day :: CounterOf(states[i].store, day) == |Log(states[i].store, day)|
  {
    RunInv(states, events, i);
    forall day, j | 0 <= j < |Log(states[i].store, day)|
      ensures IsLegacy(Log(states[i].store, day)[j])
        || exists k :: Logs(states[i].store, k, day, Log(states[i].store, day)[j])
    {
      assert AccountedAt(states[i].store, day, j);
    }
    forall day ensures CounterOf(states[i].store, day) == |Log(states[i].store, day)| {
      assert CountedAt(states[i].store, day);
    }
  }

  ghost predicate UserLogged(s: Store, k: RequestKey) {
    k in s.requests ==> s.requests[k].user in Log(s, k.day)
  }

  lemma OnlyBeginAddsRequests(sys: Sys, e: Event, k: RequestKey)
    requires Inv(sys) && Enabled(sys, e)
    ensures var (s, t) := (sys.store, Step(sys, e).store);
      k in t.requests && k !in s.requests ==>
        && e.Begin? && k == RequestKey(DayOf(e.now), e.requestId)
        && Log(t, k.day) == Log(s, k.day) + [t.requests[k].user]
        && k.day in t.active
  {
    var actor := Actor(e);
    if actor.Some? && actor.value in sys.workers {
      assert WorkerAt(sys, actor.value);
    }
  }

  lemma UnclearedStep(sys: Sys, e: Event, k: RequestKey)
    requires Inv(sys) && Enabled(sys, e) && e != Clear(k.day) && UserLogged(sys.store, k)
    ensures UserLogged(Step(sys, e).store, k)
  {
    var s, t := sys.store, Step(sys, e).store;
    StepKeepsInv(sys, e);
    assert EvolvesAt(s, t, k);
    if k in s.requests {
      StepChangesLog(sys, e, k.day);
    } else if k in t.requests {
      OnlyBeginAddsRequests(sys, e, k);
    }
  }

  /** Without a clear of that day in the run, every batch of the day stands in its log as one block. */
  lemma {:induction false} UnclearedBatchesAreContiguous(states: seq<Sys>, events: seq<Event>, i: nat, k: RequestKey)
    requires IsRun(states, events) && i < |states| && k in states[i].store.requests
    requires forall j :: 0 <= j < i ==> events[j] != Clear(k.day)
    ensures Contiguous(Log(states[i].store, k.day), states[i].store.requests[k])
  {
    UserStaysLogged(states, events, i, k);
    RunInv(states, events, i);
    assert PlacedAt(states[i].store, k) && EntryAt(states[i].store, states[i].issued, k);
    var log, b := Log(states[i].store, k.day), states[i].store.requests[k];
    var m: nat, at :| RestAt(log, b, m, at);
    WholeWithItsUser(log, b, m, at);
    assert BlockAt(log, b, at);
  }

  // A rest with the user message in it is the whole batch.
  lemma WholeWithItsUser(log: seq<Turn>, b: Batch, m: nat, at: int)
    requires RestAt(log, b, m, at) && b.user in log && b.user.batchId == b.batchId && b.user.role == USER
    requires forall j :: 0 <= j < |b.characters| ==> b.characters[j].role == ASSISTANT
    ensures m == 0
  {
    var j :| 0 <= j < |log| && log[j] == b.user;
    assert log[j] == log[at..at + |Messages(b)| - m][j - at] == Messages(b)[m..][j - at] == Messages(b)[m + j - at];
  }

  lemma {:induction false} UserStaysLogged(states: seq<Sys>, events: seq<Event>, i: nat, k: RequestKey)
    requires IsRun(states, events) && i < |states|
    requires forall j :: 0 <= j < i ==> events[j] != Clear(k.day)
    ensures UserLogged(states[i].store, k)
  {
    if i > 0 {
      UserStaysLogged(states, events, i - 1, k);
      RunInv(states, events, i - 1);
      UnclearedStep(states[i - 1], events[i - 1], k);
    }
  }

  // ---- Sequence numbers ----

  /** Every message of a batch carries its one-based position as its stored sequence number. */
  ghost predicate Positioned(log: seq<Turn>) {
    forall j :: 0 <= j < |log| && log[j].batchId != "" ==> log[j].sequence == j + 1
  }

  /** The guard under which a legacy merge would displace messages already numbered. */
  ghost predicate MergesLate(s: Store, day: int) {
    && s.conversationId == DEFAULT_CONVERSATION && Legacy(s, day) != []
    && exists j :: 0 <= j < |Log(s, day)| && Log(s, day)[j].batchId != ""
  }

  /** A merge keeps stored sequence numbers equal to positions exactly when it is not late. */
  lemma MergeKeepsPositionsIffNotLate(sys: Sys, day: int)
    requires LogInv(sys) && Positioned(Log(sys.store, day))
    ensures Positioned(Log(MigrateScript(sys.store, day), day)) <==> !MergesLate(sys.store, day)
  {
    var s := sys.store;
    var head, log, merged := Legacy(s, day), Log(s, day), Log(MigrateScript(s, day), day);
    forall j | 0 <= j < |head| ensures IsLegacy(head[j]) {
      assert LegacyAt(s, day, j);
    }
    if MergesLate(s, day) {
      var j :| 0 <= j < |log| && log[j].batchId != "";
      assert merged[|head| + j] == log[j];
    }
  }

  lemma {:induction false} PositionsHoldAbsentLateMerges(states: seq<Sys>, events: seq<Event>, i: nat, day: int)
    requires IsRun(states, events) && i < |states|
    requires forall j :: 0 <= j < i && events[j] == Migrate(day) ==> !MergesLate(states[j].store, day)
    ensures Positioned(Log(states[i].store, day))
  {
    if i > 0 {
      PositionsHoldAbsentLateMerges(states, events, i - 1, day);
      RunInv(states, events, i - 1);
      assert CountedAt(states[i - 1].store, day);
      StepChangesLog(states[i - 1], events[i - 1], day);
      if events[i - 1] == Migrate(day) {
        MergeKeepsPositionsIffNotLate(states[i - 1], day);
      }
    }
  }

  lemma BlockIsNumbered(log: seq<Turn>, b: Batch, at: int)
    requires BlockAt(log, b, at) && Positioned(log) && b.batchId != "" && b.user.batchId == b.batchId
    requires forall j :: 0 <= j < |b.characters| ==> b.characters[j].batchId == b.batchId
    ensures at == b.user.sequence - 1
    ensures forall j :: 0 <= j < |b.characters| ==> b.characters[j].sequence == b.user.sequence + 1 + j
  {
    assert Messages(b)[0..] == Messages(b);
    assert log[at] == log[at..at + |Messages(b)|][0] == b.user;
    forall j | 0 <= j < |b.characters| ensures b.characters[j].sequence == b.user.sequence + 1 + j {
      assert log[at + 1 + j] == log[at..at + |Messages(b)|][1 + j] == b.characters[j];
    }
  }

  /** Absent clears and late merges of the day, a batch's block starts exactly where its numbers say. */
  lemma BlockStandsAtItsNumber(states: seq<Sys>, events: seq<Event>, i: nat, k: RequestKey)
    requires IsRun(states, events) && i < |states| && k in states[i].store.requests
    requires forall j :: 0 <= j < i ==> events[j] != Clear(k.day)
    requires forall j :: 0 <= j < i && events[j] == Migrate(k.day) ==> !MergesLate(states[j].store, k.day)
    ensures var b := states[i].store.requests[k];
      && BlockAt(Log(states[i].store, k.day), b, b.user.sequence - 1)
      && forall j :: 0 <= j < |b.characters| ==> b.characters[j].sequence == b.user.sequence + 1 + j
  {
    UnclearedBatchesAreContiguous(states, events, i, k);
    PositionsHoldAbsentLateMerges(states, events, i, k.day);
    RunInv(states, events, i);
    assert EntryAt(states[i].store, states[i].issued, k);
    var at :| BlockAt(Log(states[i].store, k.day), states[i].store.requests[k], at);
    BlockIsNumbered(Log(states[i].store, k.day), states[i].store.requests[k], at);
  }
}

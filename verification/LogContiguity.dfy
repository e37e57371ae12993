/** The day logs against the request ledger: contiguous batches, complete attribution, exact counters. */
module LogContiguity {
  import opened Wrappers
  import opened BeijingClock
  import opened ConversationStore
  import opened SendProtocol
  import opened LeaseInvariant

  function Messages(b: Batch): seq<Turn> {
    [b.user] + b.characters
  }

  /** From its message number `m` on, the batch stands at `i`; nothing of the batch stands anywhere else. */
  ghost predicate RestAt(log: seq<Turn>, b: Batch, m: nat, i: int) {
    && m <= |Messages(b)| && 0 <= i && i + |Messages(b)| - m <= |log|
    && log[i..i + |Messages(b)| - m] == Messages(b)[m..]
    && forall j :: 0 <= j < |log| && log[j].batchId == b.batchId ==> i <= j < i + |Messages(b)| - m
  }

  /** The batch stands at `i` as a whole, user first. */
  ghost predicate BlockAt(log: seq<Turn>, b: Batch, i: int) {
    RestAt(log, b, 0, i)
  }

  ghost predicate Contiguous(log: seq<Turn>, b: Batch) {
    exists i :: BlockAt(log, b, i)
  }

  /** All a log has of a batch is one block, equal to the end of the snapshot's messages. */
  ghost predicate Placed(log: seq<Turn>, b: Batch) {
    exists m: nat, i :: RestAt(log, b, m, i)
  }

  ghost predicate PlacedAt(s: Store, k: RequestKey) {
    k in s.requests ==> Placed(Log(s, k.day), s.requests[k])
  }

  ghost predicate Logs(s: Store, k: RequestKey, day: int, turn: Turn) {
    k in s.requests && k.day == day && turn in Messages(s.requests[k])
  }

  ghost predicate IsLegacy(turn: Turn) {
    turn.batchId == "" && turn.speakerId == "" && turn.sequence == 0
  }

  /** Every logged message is a legacy turn or a message of a snapshot on the same day's request ledger. */
  ghost predicate AccountedAt(s: Store, day: int, i: int) {
    0 <= i < |Log(s, day)| ==> IsLegacy(Log(s, day)[i]) || exists k :: Logs(s, k, day, Log(s, day)[i])
  }

  ghost predicate LegacyAt(s: Store, day: int, i: int) {
    0 <= i < |Legacy(s, day)| ==> IsLegacy(Legacy(s, day)[i])
  }

  // The batch's rest, from message number `m` on, ends the log.
  ghost predicate EndsFrom(log: seq<Turn>, b: Batch, m: nat) {
    RestAt(log, b, m, |log| - |Messages(b)| + m)
  }

  ghost predicate Ends(log: seq<Turn>, b: Batch) {
    exists m :: EndsFrom(log, b, m)
  }

  /** The lease holder's batch is the last one of its log. */
  ghost predicate LastAt(sys: Sys, w: nat) {
    w in sys.workers && sys.workers[w].began && HoldsLease(sys.store, sys.workers[w].token) ==>
      var key := KeyOf(sys.workers[w].batch);
      key in sys.store.requests && Ends(Log(sys.store, key.day), sys.store.requests[key])
  }

  ghost predicate CountedAt(s: Store, day: int) {
    CounterOf(s, day) == |Log(s, day)|
  }

  ghost predicate LogInv(sys: Sys) {
    && (forall k :: PlacedAt(sys.store, k))
    && (forall day, i :: AccountedAt(sys.store, day, i))
    && (forall day, i :: LegacyAt(sys.store, day, i))
    && (forall w :: LastAt(sys, w))
    && (forall day :: CountedAt(sys.store, day))
  }

  // ---- Logs that grow at either end ----

  lemma PushKeepsRest(log: seq<Turn>, b: Batch, m: nat, i: int, turn: Turn)
    requires RestAt(log, b, m, i) && turn.batchId != b.batchId
    ensures RestAt(log + [turn], b, m, i)
  {
    assert (log + [turn])[i..i + |Messages(b)| - m] == log[i..i + |Messages(b)| - m];
  }

  lemma PushExtendsRest(log: seq<Turn>, b: Batch, c: Batch, m: nat, turn: Turn)
    requires EndsFrom(log, b, m) && turn.batchId == b.batchId
    requires c.batchId == b.batchId && Messages(c) == Messages(b) + [turn]
    ensures EndsFrom(log + [turn], c, m)
  {
    var i := |log| - |Messages(b)| + m;
    assert log[i..] == Messages(b)[m..];
    assert (log + [turn])[i..] == Messages(c)[m..];
  }

  lemma PrependShiftsRest(head: seq<Turn>, log: seq<Turn>, b: Batch, m: nat, i: int)
    requires RestAt(log, b, m, i) && forall j :: 0 <= j < |head| ==> head[j].batchId != b.batchId
    ensures RestAt(head + log, b, m, |head| + i)
  {
    assert (head + log)[|head| + i..|head| + i + |Messages(b)| - m] == log[i..i + |Messages(b)| - m];
  }

  // What is cleared away is the whole beginning of the batch, up to its newest message.
  lemma NothingIsTheRest(b: Batch)
    ensures EndsFrom([], b, |Messages(b)|)
  {
  }

  ghost predicate SameMessages(b: Batch, c: Batch) {
    b.batchId == c.batchId && b.user == c.user && b.characters == c.characters
  }

  lemma SameMessagesSamePlace(log: seq<Turn>, b: Batch, c: Batch)
    requires SameMessages(b, c)
    ensures forall m: nat, i :: RestAt(log, b, m, i) ==> RestAt(log, c, m, i)
    ensures Ends(log, b) ==> Ends(log, c)
    ensures Placed(log, b) ==> Placed(log, c)
  {
    if m :| EndsFrom(log, b, m) {
      assert EndsFrom(log, c, m);
    }
  }

  // ---- Steps that leave every log alone ----

  ghost predicate QuietAt(s: Store, t: Store, k: RequestKey) {
    (k in s.requests <==> k in t.requests) && (k in s.requests ==> SameMessages(s.requests[k], t.requests[k]))
  }

  ghost predicate LeaseKept(sys: Sys, next: Sys, w: nat) {
    w in next.workers && next.workers[w].began && HoldsLease(next.store, next.workers[w].token) ==>
      && w in sys.workers && sys.workers[w].began && HoldsLease(sys.store, sys.workers[w].token)
      && KeyOf(sys.workers[w].batch) == KeyOf(next.workers[w].batch)
  }

  lemma QuietKeepsLogs(sys: Sys, next: Sys)
    requires LogInv(sys)
    requires forall day ::
      Log(next.store, day) == Log(sys.store, day) && CounterOf(next.store, day) == CounterOf(sys.store, day)
    requires forall day, i :: LegacyAt(next.store, day, i)
    requires forall k :: QuietAt(sys.store, next.store, k)
    requires forall w :: LeaseKept(sys, next, w)
    ensures LogInv(next)
  {
    forall k ensures PlacedAt(next.store, k) {
      assert QuietAt(sys.store, next.store, k) && PlacedAt(sys.store, k);
      if k in sys.store.requests {
        SameMessagesSamePlace(Log(sys.store, k.day), sys.store.requests[k], next.store.requests[k]);
      }
    }
    forall day, i ensures AccountedAt(next.store, day, i) {
      assert AccountedAt(sys.store, day, i);
      if 0 <= i < |Log(sys.store, day)| && !IsLegacy(Log(sys.store, day)[i]) {
        var k :| Logs(sys.store, k, day, Log(sys.store, day)[i]);
        assert QuietAt(sys.store, next.store, k);
        assert Logs(next.store, k, day, Log(next.store, day)[i]);
      }
    }
    forall w ensures LastAt(next, w) {
      assert LeaseKept(sys, next, w) && LastAt(sys, w);
      if w in next.workers && next.workers[w].began && HoldsLease(next.store, next.workers[w].token) {
        var key := KeyOf(next.workers[w].batch);
        assert QuietAt(sys.store, next.store, key);
        SameMessagesSamePlace(Log(sys.store, key.day), sys.store.requests[key], next.store.requests[key]);
      }
    }
    forall day ensures CountedAt(next.store, day) {
      assert CountedAt(sys.store, day);
    }
  }

  // ---- Steps that push one message ----

  // The snapshot at `key` gained `turn` as its last message, or started with it.
  ghost predicate Gained(s: Store, key: RequestKey, b: Batch, turn: Turn) {
    && turn.batchId == b.batchId
    && (if key in s.requests
        then s.requests[key].batchId == b.batchId && Messages(b) == Messages(s.requests[key]) + [turn]
        else Messages(b) == [turn])
  }

  /** The step pushed `turn` on the log of `key`'s day, together with that key's snapshot. */
  ghost predicate Pushed(s: Store, t: Store, key: RequestKey, turn: Turn) {
    && key in t.requests && Gained(s, key, t.requests[key], turn)
    && t.requests == s.requests[key := t.requests[key]]
    && t.legacy == s.legacy
    && t.logs == s.logs[key.day := Log(s, key.day) + [turn]]
    && t.counters == s.counters[key.day := CounterOf(s, key.day) + 1]
  }

  // The batch at `key`, if there is one yet, can only be continued at the end of its log.
  ghost predicate LastIfAny(s: Store, key: RequestKey) {
    key in s.requests ==> Ends(Log(s, key.day), s.requests[key])
  }

  // Nobody but the batch at `key` uses its batch id, in the ledger or in the log of its day.
  ghost predicate OwnsId(s: Store, key: RequestKey, batchId: string) {
    && (forall k :: k in s.requests && k != key ==> s.requests[k].batchId != batchId)
    && (key !in s.requests ==> forall j :: 0 <= j < |Log(s, key.day)| ==> Log(s, key.day)[j].batchId != batchId)
  }

  lemma PushStartsBlock(log: seq<Turn>, c: Batch, turn: Turn)
    requires Messages(c) == [turn] && turn.batchId == c.batchId
    requires forall j :: 0 <= j < |log| ==> log[j].batchId != c.batchId
    ensures EndsFrom(log + [turn], c, 0)
  {
    assert (log + [turn])[|log|..] == [turn];
  }

  lemma EndIsPlace(s: Store, key: RequestKey)
    requires LastIfAny(s, key)
    ensures PlacedAt(s, key)
  {
    if key in s.requests {
      var log, b := Log(s, key.day), s.requests[key];
      var m :| EndsFrom(log, b, m);
      assert RestAt(log, b, m, |log| - |Messages(b)| + m);
    }
  }

  lemma PushGrowsLog(s: Store, t: Store, key: RequestKey, turn: Turn)
    requires Pushed(s, t, key, turn)
    ensures key in t.requests && Log(t, key.day) == Log(s, key.day) + [turn] && Gained(s, key, t.requests[key], turn)
  {
  }

  lemma PushPlacesGained(log: seq<Turn>, prior: Option<Batch>, c: Batch, turn: Turn)
    requires turn.batchId == c.batchId
    requires prior.Some? ==>
      Ends(log, prior.value) && prior.value.batchId == c.batchId && Messages(c) == Messages(prior.value) + [turn]
    requires prior.None? ==> Messages(c) == [turn] && forall j :: 0 <= j < |log| ==> log[j].batchId != c.batchId
    ensures Ends(log + [turn], c)
  {
    if prior.Some? {
      var m :| EndsFrom(log, prior.value, m);
      PushExtendsRest(log, prior.value, c, m, turn);
    } else {
      PushStartsBlock(log, c, turn);
    }
  }

  lemma PushPlacesOwn(s: Store, t: Store, key: RequestKey, turn: Turn)
    requires Pushed(s, t, key, turn) && OwnsId(s, key, turn.batchId) && LastIfAny(s, key)
    ensures LastIfAny(t, key) && PlacedAt(t, key)
  {
    PushGrowsLog(s, t, key, turn);
    PushPlacesGained(Log(s, key.day), Get(s.requests, key), t.requests[key], turn);
    EndIsPlace(t, key);
  }

  lemma PushLeavesOthers(s: Store, t: Store, key: RequestKey, turn: Turn, k: RequestKey)
    requires Pushed(s, t, key, turn) && k != key
    ensures Get(t.requests, k) == Get(s.requests, k)
    ensures k.day != key.day ==> Log(t, k.day) == Log(s, k.day)
  {
  }

  lemma PushKeepsPlaced(log: seq<Turn>, b: Batch, turn: Turn)
    requires Placed(log, b) && turn.batchId != b.batchId
    ensures Placed(log + [turn], b)
  {
    var m: nat, i :| RestAt(log, b, m, i);
    PushKeepsRest(log, b, m, i, turn);
  }

  lemma PushPlacesOther(s: Store, t: Store, key: RequestKey, turn: Turn, k: RequestKey)
    requires Pushed(s, t, key, turn) && OwnsId(s, key, turn.batchId) && PlacedAt(s, k) && k != key
    ensures PlacedAt(t, k)
  {
    PushLeavesOthers(s, t, key, turn, k);
    if k in s.requests && k.day == key.day {
      PushGrowsLog(s, t, key, turn);
      PushKeepsPlaced(Log(s, key.day), s.requests[k], turn);
    }
  }

  lemma PushAccounts(s: Store, t: Store, key: RequestKey, turn: Turn, day: int, i: int)
    requires Pushed(s, t, key, turn) && AccountedAt(s, day, i)
    ensures AccountedAt(t, day, i)
  {
    var log := Log(s, day);
    if day == key.day && i == |log| {
      assert Logs(t, key, day, turn);
    } else if 0 <= i < |log| && !IsLegacy(log[i]) {
      var k :| Logs(s, k, day, log[i]);
      assert Logs(t, k, day, log[i]);
    }
  }

  lemma PushKeepsLogs(sys: Sys, next: Sys, key: RequestKey, turn: Turn)
    requires LogInv(sys) && Pushed(sys.store, next.store, key, turn)
    requires OwnsId(sys.store, key, turn.batchId) && LastIfAny(sys.store, key)
    requires forall w :: w in next.workers && next.workers[w].began && HoldsLease(next.store, next.workers[w].token) ==>
      KeyOf(next.workers[w].batch) == key
    ensures LogInv(next)
  {
    PushPlacesOwn(sys.store, next.store, key, turn);
    forall k ensures PlacedAt(next.store, k) {
      assert PlacedAt(sys.store, k);
      if k != key {
        PushPlacesOther(sys.store, next.store, key, turn, k);
      }
    }
    forall w ensures LastAt(next, w) {
    }
    forall day, i ensures AccountedAt(next.store, day, i) && LegacyAt(next.store, day, i) {
      assert AccountedAt(sys.store, day, i) && LegacyAt(sys.store, day, i);
      PushAccounts(sys.store, next.store, key, turn, day, i);
    }
    forall day ensures CountedAt(next.store, day) {
      assert CountedAt(sys.store, day);
    }
  }

  // A worker's batch shares its id with no other.
  lemma WorkerOwnsId(sys: Sys, w: nat)
    requires Inv(sys) && w in sys.workers && sys.workers[w].began
    ensures OwnsId(sys.store, KeyOf(sys.workers[w].batch), sys.workers[w].batch.batchId)
  {
    assert WorkerAt(sys, w);
    var key := KeyOf(sys.workers[w].batch);
    forall k | k in sys.store.requests && k != key
      ensures sys.store.requests[k].batchId != sys.workers[w].batch.batchId
    {
      assert DistinctAt(sys.store, k, key);
    }
  }

  // A message the lease holder appended.
  ghost predicate Appends(sys: Sys, e: Event) {
    e.Speak? && Enabled(sys, e) && !e.fault.NotApplied? && HoldsLease(sys.store, sys.workers[e.worker].token)
  }

  function LastOf(c: Batch): Turn
    requires c.characters != []
  {
    c.characters[|c.characters| - 1]
  }

  lemma AppendedGains(sys: Sys, e: Event)
    requires Inv(sys) && Appends(sys, e) && sys.workers[e.worker].began
    ensures var (c, key) := (Appended(sys, e), KeyOf(sys.workers[e.worker].batch));
      c.characters != [] && Gained(sys.store, key, c, LastOf(c))
  {
    assert WorkerAt(sys, e.worker);
    var b, c := sys.workers[e.worker].batch, Appended(sys, e);
    assert Messages(c) == Messages(b) + [LastOf(c)];
  }

  lemma SpeakPushes(sys: Sys, e: Event)
    requires Inv(sys) && Appends(sys, e) && sys.workers[e.worker].began
    ensures Appended(sys, e).characters != []
    ensures Pushed(sys.store, StepSpeak(sys, e).store, KeyOf(sys.workers[e.worker].batch), LastOf(Appended(sys, e)))
  {
    SpeakWrites(sys, e);
    AppendedGains(sys, e);
  }

  lemma HolderIsLast(sys: Sys, w: nat)
    requires LastAt(sys, w) && w in sys.workers && sys.workers[w].began && HoldsLease(sys.store, sys.workers[w].token)
    ensures LastIfAny(sys.store, KeyOf(sys.workers[w].batch))
  {
  }

  // Whoever holds the lease after an append is the one who appended.
  lemma OnlyTheSpeakerHolds(sys: Sys, e: Event, w: nat)
    requires Inv(sys) && Appends(sys, e) && sys.workers[e.worker].began
    ensures var next := StepSpeak(sys, e);
      w in next.workers && next.workers[w].began && HoldsLease(next.store, next.workers[w].token) ==>
        KeyOf(next.workers[w].batch) == KeyOf(sys.workers[e.worker].batch)
  {
    SpeakWrites(sys, e);
    assert ApartAt(sys, w, e.worker);
  }

  lemma SpeakKeepsLogs(sys: Sys, e: Event)
    requires Inv(sys) && LogInv(sys) && e.Speak? && Enabled(sys, e)
    ensures LogInv(StepSpeak(sys, e))
  {
    assert WorkerAt(sys, e.worker);
    if Appends(sys, e) {
      assert LastAt(sys, e.worker);
      HolderIsLast(sys, e.worker);
      SpeakPushes(sys, e);
      WorkerOwnsId(sys, e.worker);
      forall w { OnlyTheSpeakerHolds(sys, e, w); }
      PushKeepsLogs(sys, StepSpeak(sys, e), KeyOf(sys.workers[e.worker].batch), LastOf(Appended(sys, e)));
    } else {
      QuietStep(sys, StepSpeak(sys, e));
    }
  }

  // Logs, legacy lists and everyone's messages as before; leases only given up.
  lemma QuietStep(sys: Sys, next: Sys)
    requires LogInv(sys)
    requires next.store.logs == sys.store.logs && next.store.counters == sys.store.counters
    requires next.store.legacy == sys.store.legacy
    requires forall k :: QuietAt(sys.store, next.store, k)
    requires forall w :: LeaseKept(sys, next, w)
    ensures LogInv(next)
  {
    forall day, i ensures LegacyAt(next.store, day, i) {
      assert LegacyAt(sys.store, day, i);
    }
    QuietKeepsLogs(sys, next);
  }

  lemma SaveKeepsLogs(sys: Sys, w: nat, b: Batch, release: bool, phase: Phase, fault: Fault)
    requires Inv(sys) && LogInv(sys) && w in sys.workers && InFlight(sys.workers[w])
    requires SameMessages(sys.workers[w].batch, b) && KeyOf(b) == KeyOf(sys.workers[w].batch)
    ensures LogInv(Save(sys, w, b, release, phase, fault))
  {
    var next := Save(sys, w, b, release, phase, fault);
    assert WorkerAt(sys, w);
    QuietStep(sys, next);
  }

  lemma CleanupKeepsLogs(sys: Sys, e: Event)
    requires Inv(sys) && LogInv(sys) && e.Cleanup? && Enabled(sys, e)
    ensures LogInv(StepCleanup(sys, e))
  {
    assert WorkerAt(sys, e.worker);
    QuietStep(sys, StepCleanup(sys, e));
  }

  lemma BeginKeepsLogs(sys: Sys, e: Event)
    requires Inv(sys) && LogInv(sys) && e.Begin? && Enabled(sys, e)
    ensures LogInv(StepBegin(sys, e))
  {
    var next := StepBegin(sys, e);
    var batch := NewBatch(sys.store.conversationId, e.requestId, e.content, e.batchId, e.turnId, e.now);
    var (after, reply) := BeginScript(sys.store, DayOf(e.now), batch, e.token);
    if e.fault.NotApplied? || !reply.Started? {
      QuietStep(sys, next);
    } else {
      var key := RequestKey(DayOf(e.now), e.requestId);
      StartedKeepsEntries(sys, e);
      BatchIdIsFresh(sys, key, e.batchId);
      forall w | w in next.workers && next.workers[w].began && HoldsLease(next.store, next.workers[w].token)
        ensures KeyOf(next.workers[w].batch) == key
      {
        assert WorkerAt(sys, w);
      }
      PushKeepsLogs(sys, next, key, reply.batch.user);
    }
  }

  lemma BatchIdIsFresh(sys: Sys, key: RequestKey, batchId: string)
    requires Inv(sys) && LogInv(sys) && batchId !in sys.issued && batchId != ""
    ensures OwnsId(sys.store, key, batchId)
  {
    forall k | k in sys.store.requests ensures sys.store.requests[k].batchId != batchId {
      assert EntryAt(sys.store, sys.issued, k);
    }
    forall j | 0 <= j < |Log(sys.store, key.day)| ensures Log(sys.store, key.day)[j].batchId != batchId {
      var turn := Log(sys.store, key.day)[j];
      assert AccountedAt(sys.store, key.day, j);
      if !IsLegacy(turn) {
        var k :| Logs(sys.store, k, key.day, turn);
        assert EntryAt(sys.store, sys.issued, k);
      }
    }
  }

  // ---- Migration and clearing ----

  lemma PrependKeepsPlaced(head: seq<Turn>, log: seq<Turn>, b: Batch)
    requires b.batchId != "" && forall j :: 0 <= j < |head| ==> IsLegacy(head[j])
    ensures Placed(log, b) ==> Placed(head + log, b)
    ensures Ends(log, b) ==> Ends(head + log, b)
  {
    if Placed(log, b) {
      var m: nat, i :| RestAt(log, b, m, i);
      PrependShiftsRest(head, log, b, m, i);
    }
    if m :| EndsFrom(log, b, m) {
      PrependShiftsRest(head, log, b, m, |log| - |Messages(b)| + m);
      assert EndsFrom(head + log, b, m);
    }
  }

  // What a migration leaves of a batch on its own day.
  lemma MigratePlaces(sys: Sys, day: int, k: RequestKey)
    requires Inv(sys) && LogInv(sys) && k in sys.store.requests
    ensures var (log, b, after) :=
      (Log(sys.store, k.day), sys.store.requests[k], Log(MigrateScript(sys.store, day), k.day));
      (Placed(log, b) ==> Placed(after, b)) && (Ends(log, b) ==> Ends(after, b))
  {
    assert EntryAt(sys.store, sys.issued, k);
    if k.day == day {
      forall j | 0 <= j < |Legacy(sys.store, day)| ensures IsLegacy(Legacy(sys.store, day)[j]) {
        assert LegacyAt(sys.store, day, j);
      }
      PrependKeepsPlaced(Legacy(sys.store, day), Log(sys.store, day), sys.store.requests[k]);
    }
  }

  lemma MigrateAccounts(s: Store, day: int, d: int, i: int)
    requires forall j :: AccountedAt(s, d, j) && LegacyAt(s, d, j)
    ensures AccountedAt(MigrateScript(s, day), d, i) && LegacyAt(MigrateScript(s, day), d, i)
  {
    var t := MigrateScript(s, day);
    var n := |Log(t, d)| - |Log(s, d)|;
    assert LegacyAt(s, d, i) && AccountedAt(s, d, i - n);
    if n <= i < n + |Log(s, d)| && !IsLegacy(Log(s, d)[i - n]) {
      var k :| Logs(s, k, d, Log(s, d)[i - n]);
      assert Logs(t, k, d, Log(t, d)[i]);
    }
  }

  lemma MigrateKeepsLogs(sys: Sys, day: int)
    requires Inv(sys) && LogInv(sys)
    ensures LogInv(Step(sys, Migrate(day)))
  {
    var s, next := sys.store, Step(sys, Migrate(day));
    var t := next.store;
    if t != s {
      forall k ensures PlacedAt(t, k) {
        assert PlacedAt(s, k);
        if k in s.requests {
          MigratePlaces(sys, day, k);
        }
      }
      forall w ensures LastAt(next, w) {
        assert LastAt(sys, w);
        if w in sys.workers && KeyOf(sys.workers[w].batch) in s.requests {
          MigratePlaces(sys, day, KeyOf(sys.workers[w].batch));
        }
      }
      forall d ensures CountedAt(t, d) {
        assert CountedAt(s, d);
      }
      forall d, i ensures AccountedAt(t, d, i) && LegacyAt(t, d, i) {
        MigrateAccounts(s, day, d, i);
      }
    }
  }

  lemma ClearKeepsLogs(sys: Sys, day: int)
    requires Inv(sys) && LogInv(sys)
    ensures LogInv(Step(sys, Clear(day)))
  {
    var s, next := sys.store, Step(sys, Clear(day));
    var t := next.store;
    forall k ensures PlacedAt(t, k) {
      assert PlacedAt(s, k);
      if k in s.requests && k.day == day {
        NothingIsTheRest(s.requests[k]);
        assert RestAt(Log(t, day), s.requests[k], |Messages(s.requests[k])|, 0);
      }
    }
    forall w ensures LastAt(next, w) {
      assert LastAt(sys, w) && WorkerAt(sys, w);
      if w in sys.workers && sys.workers[w].began && KeyOf(sys.workers[w].batch).day == day {
        NothingIsTheRest(s.requests[KeyOf(sys.workers[w].batch)]);
      }
    }
    forall d ensures CountedAt(t, d) {
      assert CountedAt(s, d);
    }
    forall d, i ensures AccountedAt(t, d, i) && LegacyAt(t, d, i) {
      assert AccountedAt(s, d, i) && LegacyAt(s, d, i);
      if d != day && 0 <= i < |Log(s, d)| && !IsLegacy(Log(s, d)[i]) {
        var k :| Logs(s, k, d, Log(s, d)[i]);
        assert Logs(t, k, d, Log(t, d)[i]);
      }
    }
  }

  lemma LegacyStepKeepsLogs(sys: Sys, e: Event)
    requires LogInv(sys) && (e.AddTurn? || e.LegacyClear?) && Enabled(sys, e)
    ensures LogInv(Step(sys, e))
  {
    var next := Step(sys, e);
    forall day, i ensures LegacyAt(next.store, day, i) {
      assert LegacyAt(sys.store, day, i);
    }
    QuietKeepsLogs(sys, next);
  }

  /** Every step keeps the log invariant. */
  lemma StepKeepsLogs(sys: Sys, e: Event)
    requires Inv(sys) && LogInv(sys) && Enabled(sys, e)
    ensures LogInv(Step(sys, e))
  {
    match e
    case Begin(_, _, _, _, _, _, _, _) => BeginKeepsLogs(sys, e);
    case Plan(w, plan, now, fault) =>
      SaveKeepsLogs(sys, w, sys.workers[w].batch.(planned := plan, updatedAt := now), false, Speaking, fault);
    case Speak(_, _, _, _, _, _, _) => SpeakKeepsLogs(sys, e);
    case Stumble(w, now, fault) =>
      SaveKeepsLogs(sys, w, Converged(sys.workers[w].batch).(updatedAt := now), true, Returned, fault);
    case Finish(w, now, fault) =>
      SaveKeepsLogs(sys, w, sys.workers[w].batch.(status := Complete, updatedAt := now), true, Returned, fault);
    case Cleanup(_, _, _) => CleanupKeepsLogs(sys, e);
    case Migrate(day) => MigrateKeepsLogs(sys, day);
    case Clear(day) => ClearKeepsLogs(sys, day);
    case AddTurn(_) => LegacyStepKeepsLogs(sys, e);
    case LegacyClear(_) => LegacyStepKeepsLogs(sys, e);
    case _ => QuietStep(sys, Step(sys, e));
  }
}

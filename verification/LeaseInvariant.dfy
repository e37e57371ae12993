/** The lease invariant holds in every reachable state, and what follows from it over whole runs. */
module LeaseInvariant {
  import opened Wrappers
  import opened BeijingClock
  import opened ConversationStore
  import opened SendProtocol

  lemma LedgerEvolvesIsTransitive(r: Store, s: Store, t: Store)
    requires LedgerEvolves(r, s) && LedgerEvolves(s, t)
    ensures LedgerEvolves(r, t)
  {
    forall k ensures EvolvesAt(r, t, k) {
      assert EvolvesAt(r, s, k) && EvolvesAt(s, t, k);
    }
  }

  // A worker is undisturbed by a change that leaves its own leased entry alone.
  ghost predicate Spares(s: Store, t: Store, v: Worker) {
    v.began && HoldsLease(t, v.token) ==>
      && HoldsLease(s, v.token)
      && Get(t.requests, KeyOf(v.batch)) == Get(s.requests, KeyOf(v.batch))
      && Get(t.batches, v.batch.batchId) == Get(s.batches, v.batch.batchId)
  }

  lemma Bystander(s: Store, t: Store, issued: set<string>, issued': set<string>, v: Worker)
    requires WorkerOk(s, issued, v) && issued <= issued' && Spares(s, t, v) && EvolvesAt(s, t, KeyOf(v.batch))
    ensures WorkerOk(t, issued', v)
  {
  }

  // The stores a worker can leave behind by one acknowledged script on its own batch.
  ghost predicate Wrote(s: Store, t: Store, b: Batch) {
    && t.requests == s.requests[KeyOf(b) := b]
    && t.batches == s.batches[b.batchId := b]
    && (t.lease.Held? ==> s.lease.Held? && t.lease.token == s.lease.token)
    && t.clock == s.clock
  }

  lemma WriteKeepsEntries(s: Store, t: Store, issued: set<string>, issued': set<string>, b: Batch)
    requires EntriesOk(s, issued) && Wrote(s, t, b) && issued <= issued'
    requires KeyOf(b) in s.requests && Evolves(s.requests[KeyOf(b)], b) && EntryOk(KeyOf(b), b, issued')
    ensures EntriesOk(t, issued') && LedgerEvolves(s, t)
  {
    forall k ensures EntryAt(t, issued', k) && EvolvesAt(s, t, k) {
      assert EntryAt(s, issued, k);
    }
    forall k, l ensures DistinctAt(t, k, l) {
      assert DistinctAt(s, k, l);
    }
  }

  // `next` differs from `sys` in worker `w` only, who stays on the same batch.
  ghost predicate SameBatch(sys: Sys, next: Sys, w: nat) {
    && w in sys.workers && w in next.workers
    && next.workers == sys.workers[w := next.workers[w]]
    && next.workers[w].began == sys.workers[w].began && next.workers[w].token == sys.workers[w].token
    && KeyOf(next.workers[w].batch) == KeyOf(sys.workers[w].batch)
    && next.store.requests.Keys == sys.store.requests.Keys
    && sys.issued <= next.issued
  }

  lemma SameBatchKeepsPeers(sys: Sys, next: Sys, w: nat)
    requires SameBatch(sys, next, w)
    requires (forall u, v :: ApartAt(sys, u, v)) && (forall k :: AttributedAt(sys, k))
    ensures (forall u, v :: ApartAt(next, u, v)) && (forall k :: AttributedAt(next, k))
  {
    forall u, v ensures ApartAt(next, u, v) {
      assert ApartAt(sys, u, v);
    }
    forall k ensures AttributedAt(next, k) {
      assert AttributedAt(sys, k);
      if k in next.store.requests {
        var v :| StartedBy(sys, v, k);
        assert StartedBy(next, v, k);
      }
    }
  }

  /** A script by the lease holder on its own batch, and the worker's next state, keep the invariant. */
  lemma HolderWriteKeepsInv(sys: Sys, next: Sys, w: nat, b: Batch)
    requires Inv(sys) && SameBatch(sys, next, w) && sys.workers[w].began && HoldsLease(sys.store, sys.workers[w].token)
    requires Wrote(sys.store, next.store, b) && KeyOf(b) == KeyOf(sys.workers[w].batch)
    requires KeyOf(b) in sys.store.requests
    requires Evolves(sys.store.requests[KeyOf(b)], b) && EntryOk(KeyOf(b), b, next.issued)
    requires WorkerOk(next.store, next.issued, next.workers[w])
    ensures Inv(next) && LedgerEvolves(sys.store, next.store)
  {
    WriteKeepsEntries(sys.store, next.store, sys.issued, next.issued, b);
    SameBatchKeepsPeers(sys, next, w);
    forall v ensures WorkerAt(next, v) {
      if v in next.workers && v != w {
        assert WorkerAt(sys, v) && ApartAt(sys, v, w) && EvolvesAt(sys.store, next.store, KeyOf(sys.workers[v].batch));
        Bystander(sys.store, next.store, sys.issued, next.issued, sys.workers[v]);
      }
    }
  }

  lemma UnchangedLedger(s: Store, t: Store, issued: set<string>, issued': set<string>)
    requires EntriesOk(s, issued) && issued <= issued' && t.requests == s.requests
    requires (t.lease == s.lease || t.lease.Free?)
    ensures EntriesOk(t, issued') && LedgerEvolves(s, t)
  {
    forall k ensures EntryAt(t, issued', k) && EvolvesAt(s, t, k) {
      assert EntryAt(s, issued, k);
    }
    forall k, l ensures DistinctAt(t, k, l) {
      assert DistinctAt(s, k, l);
    }
  }

  /** A step that leaves the store alone and only changes one worker's phase keeps the invariant. */
  lemma WorkerOnlyKeepsInv(sys: Sys, next: Sys, w: nat)
    requires Inv(sys) && SameBatch(sys, next, w) && next.store == sys.store
    requires WorkerOk(next.store, next.issued, next.workers[w])
    ensures Inv(next) && LedgerEvolves(sys.store, next.store)
  {
    UnchangedLedger(sys.store, next.store, sys.issued, next.issued);
    SameBatchKeepsPeers(sys, next, w);
    forall v ensures WorkerAt(next, v) {
      if v in next.workers && v != w {
        assert WorkerAt(sys, v) && EvolvesAt(sys.store, next.store, KeyOf(sys.workers[v].batch));
        Bystander(sys.store, next.store, sys.issued, next.issued, sys.workers[v]);
      }
    }
  }

  lemma SaveKeepsInv(sys: Sys, w: nat, b: Batch, release: bool, next: Phase, fault: Fault)
    requires Inv(sys) && w in sys.workers && InFlight(sys.workers[w])
    requires Evolves(sys.workers[w].batch, b) && EntryOk(KeyOf(b), b, sys.issued)
    requires
      if release then Terminal(b) && next.Returned?
      else b.status.Generating? && next.Speaking? && b.planned != []
    ensures Inv(Save(sys, w, b, release, next, fault))
    ensures LedgerEvolves(sys.store, Save(sys, w, b, release, next, fault).store)
  {
    var after := Save(sys, w, b, release, next, fault);
    assert WorkerAt(sys, w);
    if fault.NotApplied? || !HoldsLease(sys.store, sys.workers[w].token) {
      WorkerOnlyKeepsInv(sys, after, w);
    } else {
      HolderWriteKeepsInv(sys, after, w, b);
    }
  }

  // Everything but requests, cells, the lease and workers stays.
  ghost predicate SameLogs(sys: Sys, next: Sys) {
    && next.store.logs == sys.store.logs && next.store.legacy == sys.store.legacy
    && next.store.counters == sys.store.counters
    && next.store.active == sys.store.active && next.store.legacyActive == sys.store.legacyActive
    && next.store.conversationId == sys.store.conversationId && next.issued == sys.issued
  }

  lemma SaveLogsNothing(sys: Sys, w: nat, batch: Batch, release: bool, next: Phase, fault: Fault)
    requires w in sys.workers
    ensures SameLogs(sys, Save(sys, w, batch, release, next, fault))
  {
  }

  // The steps of workers that do not log, and time.
  predicate LogsNothing(e: Event) {
    !e.Begin? && !e.Speak? && !e.AddTurn? && !e.Clear? && !e.LegacyClear? && !e.Migrate?
  }

  lemma OthersLogNothing(sys: Sys, e: Event)
    requires Enabled(sys, e) && LogsNothing(e)
    ensures SameLogs(sys, Step(sys, e))
  {
    match e
    case Plan(w, plan, now, fault) =>
      SaveLogsNothing(sys, w, sys.workers[w].batch.(planned := plan, updatedAt := now), false, Speaking, fault);
    case Stumble(w, now, fault) =>
      SaveLogsNothing(sys, w, Converged(sys.workers[w].batch).(updatedAt := now), true, Returned, fault);
    case Finish(w, now, fault) =>
      SaveLogsNothing(sys, w, sys.workers[w].batch.(status := Complete, updatedAt := now), true, Returned, fault);
    case _ =>
  }

  // The entry and cell a successful append writes, and the batch the worker then holds.
  function Appended(sys: Sys, e: Event): Batch
    requires e.Speak? && Enabled(sys, e)
  {
    var b := sys.workers[e.worker].batch;
    var message := NewMessage(b, sys.store.conversationId, b.planned[|b.characters|], e.displayName, e.avatarUrl,
      e.text, e.turnId, e.now);
    var day := DayOf(b.createdAt);
    b.(characters := b.characters + [message.(sequence := CounterOf(sys.store, day) + 1)], updatedAt := e.now)
  }

  lemma SpeakWrites(sys: Sys, e: Event)
    requires e.Speak? && Enabled(sys, e) && HoldsLease(sys.store, sys.workers[e.worker].token) && !e.fault.NotApplied?
    ensures var (b, worker, next) := (Appended(sys, e), sys.workers[e.worker], StepSpeak(sys, e));
      && Wrote(sys.store, next.store, b)
      && next.workers ==
           sys.workers[e.worker := if e.fault.Fine? then worker.(batch := b) else worker.(phase := Unwinding(Other))]
      && next.store.logs ==
           sys.store.logs[KeyOf(b).day := Log(sys.store, KeyOf(b).day) + [b.characters[|b.characters| - 1]]]
  {
    var b := sys.workers[e.worker].batch;
    var message := NewMessage(b, sys.store.conversationId, b.planned[|b.characters|], e.displayName, e.avatarUrl,
      e.text, e.turnId, e.now);
    var sent := WithMessage(b, message, e.now);
    var sequence := CounterOf(sys.store, DayOf(b.createdAt)) + 1;
    assert sent.characters[|b.characters| := message.(sequence := sequence)] == Appended(sys, e).characters;
  }

  lemma AppendedIsSound(sys: Sys, e: Event)
    requires Inv(sys) && e.Speak? && Enabled(sys, e)
    ensures var (b, c) := (sys.workers[e.worker].batch, Appended(sys, e));
      && Evolves(b, c) && EntryOk(KeyOf(b), c, sys.issued + {e.turnId}) && c.status.Generating?
  {
    assert WorkerAt(sys, e.worker);
    var b, c := sys.workers[e.worker].batch, Appended(sys, e);
    assert c.characters[..|b.characters|] == b.characters;
  }

  lemma SpeakKeepsInv(sys: Sys, e: Event)
    requires Inv(sys) && e.Speak? && Enabled(sys, e)
    ensures Inv(StepSpeak(sys, e)) && LedgerEvolves(sys.store, StepSpeak(sys, e).store)
  {
    assert WorkerAt(sys, e.worker);
    var next := StepSpeak(sys, e);
    if e.fault.NotApplied? || !HoldsLease(sys.store, sys.workers[e.worker].token) {
      WorkerOnlyKeepsInv(sys, next, e.worker);
    } else {
      SpeakWrites(sys, e);
      AppendedIsSound(sys, e);
      HolderWriteKeepsInv(sys, next, e.worker, Appended(sys, e));
    }
  }

  lemma CleanupKeepsInv(sys: Sys, e: Event)
    requires Inv(sys) && e.Cleanup? && Enabled(sys, e)
    ensures Inv(StepCleanup(sys, e)) && LedgerEvolves(sys.store, StepCleanup(sys, e).store)
  {
    var worker := sys.workers[e.worker];
    var next := StepCleanup(sys, e);
    assert WorkerAt(sys, e.worker) && EntryAt(sys.store, sys.issued, KeyOf(worker.batch));
    if !e.reached || !HoldsLease(sys.store, worker.token) {
      WorkerOnlyKeepsInv(sys, next, e.worker);
    } else {
      HolderWriteKeepsInv(sys, next, e.worker, next.store.requests[KeyOf(worker.batch)]);
    }
  }

  /** A step that leaves requests, cells and workers alone and sets no lease keeps the invariant. */
  lemma AsideKeepsInv(sys: Sys, next: Sys)
    requires Inv(sys) && next.workers == sys.workers && sys.issued <= next.issued
    requires next.store.requests == sys.store.requests && next.store.batches == sys.store.batches
    requires next.store.lease == sys.store.lease && next.store.clock >= sys.store.clock
    ensures Inv(next) && LedgerEvolves(sys.store, next.store)
  {
    UnchangedLedger(sys.store, next.store, sys.issued, next.issued);
    forall w ensures WorkerAt(next, w) {
      if w in next.workers {
        assert WorkerAt(sys, w) && EvolvesAt(sys.store, next.store, KeyOf(sys.workers[w].batch));
        Bystander(sys.store, next.store, sys.issued, next.issued, sys.workers[w]);
      }
    }
    forall u, v ensures ApartAt(next, u, v) {
      assert ApartAt(sys, u, v);
    }
    forall k ensures AttributedAt(next, k) {
      assert AttributedAt(sys, k);
      if k in next.store.requests {
        var v :| StartedBy(sys, v, k);
        assert StartedBy(next, v, k);
      }
    }
  }

  /** A worker that joins, and whose first script disturbs nobody, keeps the invariant. */
  lemma JoinKeepsInv(sys: Sys, next: Sys, w: nat)
    requires Inv(sys) && w !in sys.workers && sys.issued <= next.issued
    requires w in next.workers && next.workers == sys.workers[w := next.workers[w]]
    requires EntriesOk(next.store, next.issued) && LedgerEvolves(sys.store, next.store)
    requires forall k :: k in next.store.requests ==> k in sys.store.requests || StartedBy(next, w, k)
    requires WorkerOk(next.store, next.issued, next.workers[w])
    requires next.workers[w].began ==>
      next.workers[w].token !in sys.issued && KeyOf(next.workers[w].batch) !in sys.store.requests
    requires forall v :: v in sys.workers ==> Spares(sys.store, next.store, sys.workers[v])
    ensures Inv(next)
  {
    forall v ensures WorkerAt(next, v) {
      if v in sys.workers {
        assert WorkerAt(sys, v) && EvolvesAt(sys.store, next.store, KeyOf(sys.workers[v].batch));
        Bystander(sys.store, next.store, sys.issued, next.issued, sys.workers[v]);
      }
    }
    forall u, v ensures ApartAt(next, u, v) {
      assert ApartAt(sys, u, v) && WorkerAt(sys, u) && WorkerAt(sys, v);
    }
    forall k ensures AttributedAt(next, k) {
      assert AttributedAt(sys, k);
      if k in sys.store.requests {
        var v :| StartedBy(sys, v, k);
        assert StartedBy(next, v, k);
      }
    }
  }

  // Reading an existing request rewrites one entry at most, and only when nobody holds the lease.
  lemma ExistingKeepsEntries(sys: Sys, e: Event)
    requires Inv(sys) && e.Begin? && Enabled(sys, e)
    requires BeginScript(sys.store, DayOf(e.now),
      NewBatch(sys.store.conversationId, e.requestId, e.content, e.batchId, e.turnId, e.now), e.token).1.Existing?
    ensures var batch := NewBatch(sys.store.conversationId, e.requestId, e.content, e.batchId, e.turnId, e.now);
      var (after, reply) := BeginScript(sys.store, DayOf(e.now), batch, e.token);
      && EntriesOk(after, sys.issued + {e.batchId, e.turnId, e.token}) && LedgerEvolves(sys.store, after)
      && after.requests.Keys == sys.store.requests.Keys
      && KeyOf(reply.batch) in after.requests && after.requests[KeyOf(reply.batch)] == reply.batch
      && reply.batch.clientRequestId == e.requestId
      && forall v :: v in sys.workers ==> Spares(sys.store, after, sys.workers[v])
  {
    var batch := NewBatch(sys.store.conversationId, e.requestId, e.content, e.batchId, e.turnId, e.now);
    var after := BeginScript(sys.store, DayOf(e.now), batch, e.token).0;
    var issued := sys.issued + {e.batchId, e.turnId, e.token};
    var current, previous := RequestKey(DayOf(e.now), e.requestId), RequestKey(DayOf(e.now) - 1, e.requestId);
    var key := if current in sys.store.requests then current else previous;
    assert EntryAt(sys.store, sys.issued, key);
    forall k ensures EntryAt(after, issued, k) && EvolvesAt(sys.store, after, k) {
      assert EntryAt(sys.store, sys.issued, k);
    }
    forall k, l ensures DistinctAt(after, k, l) {
      assert DistinctAt(sys.store, k, l);
    }
  }

  lemma StartedKeepsEntries(sys: Sys, e: Event)
    requires Inv(sys) && e.Begin? && Enabled(sys, e)
    requires BeginScript(sys.store, DayOf(e.now),
      NewBatch(sys.store.conversationId, e.requestId, e.content, e.batchId, e.turnId, e.now), e.token).1.Started?
    ensures var batch := NewBatch(sys.store.conversationId, e.requestId, e.content, e.batchId, e.turnId, e.now);
      var (after, reply) := BeginScript(sys.store, DayOf(e.now), batch, e.token);
      var key := RequestKey(DayOf(e.now), e.requestId);
      && EntriesOk(after, sys.issued + {e.batchId, e.turnId, e.token}) && LedgerEvolves(sys.store, after)
      && key !in sys.store.requests && KeyOf(reply.batch) == key
      && after.requests == sys.store.requests[key := reply.batch]
      && EntryOk(key, reply.batch, sys.issued + {e.batchId, e.turnId, e.token})
      && forall v :: v in sys.workers ==> Spares(sys.store, after, sys.workers[v])
  {
    var batch := NewBatch(sys.store.conversationId, e.requestId, e.content, e.batchId, e.turnId, e.now);
    var after := BeginScript(sys.store, DayOf(e.now), batch, e.token).0;
    var issued := sys.issued + {e.batchId, e.turnId, e.token};
    forall k ensures EntryAt(after, issued, k) && EvolvesAt(sys.store, after, k) {
      assert EntryAt(sys.store, sys.issued, k);
    }
    forall k, l ensures DistinctAt(after, k, l) {
      assert DistinctAt(sys.store, k, l) && EntryAt(sys.store, sys.issued, k) && EntryAt(sys.store, sys.issued, l);
    }
    forall v | v in sys.workers ensures Spares(sys.store, after, sys.workers[v]) {
      assert WorkerAt(sys, v);
    }
  }

  lemma BeginKeepsInv(sys: Sys, e: Event)
    requires Inv(sys) && e.Begin? && Enabled(sys, e)
    ensures Inv(StepBegin(sys, e)) && LedgerEvolves(sys.store, StepBegin(sys, e).store)
  {
    var next := StepBegin(sys, e);
    var batch := NewBatch(sys.store.conversationId, e.requestId, e.content, e.batchId, e.turnId, e.now);
    var reply := BeginScript(sys.store, DayOf(e.now), batch, e.token).1;
    if e.fault.NotApplied? || reply.Busy? {
      UnchangedLedger(sys.store, next.store, sys.issued, next.issued);
    } else if reply.Existing? {
      ExistingKeepsEntries(sys, e);
    } else {
      StartedKeepsEntries(sys, e);
    }
    JoinKeepsInv(sys, next, e.worker);
  }

  lemma RefuseKeepsInv(sys: Sys, e: Event)
    requires Inv(sys) && e.Refuse? && Enabled(sys, e)
    ensures Inv(Step(sys, e)) && LedgerEvolves(sys.store, Step(sys, e).store)
  {
    UnchangedLedger(sys.store, sys.store, sys.issued, sys.issued);
    JoinKeepsInv(sys, Step(sys, e), e.worker);
  }

  lemma StepKeepsInv(sys: Sys, e: Event)
    requires Inv(sys) && Enabled(sys, e)
    ensures Inv(Step(sys, e)) && LedgerEvolves(sys.store, Step(sys, e).store)
  {
    match e
    case Refuse(_, _, _) => RefuseKeepsInv(sys, e);
    case Begin(_, _, _, _, _, _, _, _) => BeginKeepsInv(sys, e);
    case Plan(w, plan, now, fault) =>
      assert WorkerAt(sys, w);
      SaveKeepsInv(sys, w, sys.workers[w].batch.(planned := plan, updatedAt := now), false, Speaking, fault);
    case Speak(_, _, _, _, _, _, _) => SpeakKeepsInv(sys, e);
    case Stumble(w, now, fault) =>
      assert WorkerAt(sys, w);
      SaveKeepsInv(sys, w, Converged(sys.workers[w].batch).(updatedAt := now), true, Returned, fault);
    case Finish(w, now, fault) =>
      assert WorkerAt(sys, w);
      SaveKeepsInv(sys, w, sys.workers[w].batch.(status := Complete, updatedAt := now), true, Returned, fault);
    case Cleanup(_, _, _) => CleanupKeepsInv(sys, e);
    case Crash(w) =>
      assert WorkerAt(sys, w);
      WorkerOnlyKeepsInv(sys, Step(sys, e), w);
    case _ => AsideKeepsInv(sys, Step(sys, e));
  }
}

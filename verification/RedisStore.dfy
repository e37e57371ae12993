/** The store object of one scope, its scripts written command by command. */
module RedisStore {
  import opened Wrappers
  import opened BeijingClock
  import opened ConversationStore
  import opened MessageView

  datatype StoreError = ConversationBusy | LeaseLost

  class ScopeStore {
    const conversationId: string
    var clock: int
    var lease: Lease
    var counters: map<int, nat>
    var logs: map<int, seq<Turn>>
    var requests: map<RequestKey, Batch>
    var batches: map<string, Batch>
    var legacy: map<int, seq<Turn>>
    var active: set<int>
    var legacyActive: set<int>

    ghost function State(): Store
      reads this
    {
      Store(conversationId, clock, lease, counters, logs, requests, batches, legacy, active, legacyActive)
    }

    constructor (conversationId: string)
      ensures State() == EmptyStore(conversationId)
    {
      this.conversationId := conversationId;
      clock, lease := 0, Free;
      counters, logs, requests, batches, legacy := map[], map[], map[], map[], map[];
      active, legacyActive := {}, {};
    }

    // EXISTS on the lease key.
    predicate LeaseExists()
      reads this
    {
      lease.Held? && clock < lease.deadline
    }

    // GET on the lease key compared with a token.
    predicate LeaseIs(token: string)
      reads this
    {
      LeaseExists() && lease.token == token
    }

    method Increment(day: int) returns (sequence: nat)
      modifies this`counters
      ensures sequence == CounterOf(old(State()), day) + 1 && counters == old(counters)[day := sequence]
    {
      sequence := (if day in counters then counters[day] else 0) + 1;
      counters := counters[day := sequence];
    }

    method Push(day: int, turn: Turn)
      modifies this`logs
      ensures logs == old(logs)[day := Log(old(State()), day) + [turn]]
    {
      logs := logs[day := (if day in logs then logs[day] else []) + [turn]];
    }

    method RunBegin(today: int, batch: Batch, token: string) returns (reply: BeginReply)
      modifies this
      ensures (State(), reply) == BeginScript(old(State()), today, batch, token)
    {
      var key := RequestKey(today, batch.clientRequestId);
      if key !in requests {
        key := RequestKey(today - 1, batch.clientRequestId);
      }
      if key in requests {
        var snapshot := requests[key];
        if snapshot.status == Generating && !LeaseExists() {
          snapshot := snapshot.(status := if snapshot.characters == [] then Failed else Partial);
          snapshot := snapshot.(interruption := INTERRUPTED);
        }
        requests := requests[key := snapshot];
        return Existing(snapshot);
      }
      if LeaseExists() {
        return Busy;
      }
      lease := Held(token, clock + LEASE_MS);
      var sequence := Increment(today);
      var started := batch.(user := batch.user.(sequence := sequence));
      Push(today, started.user);
      batches := batches[batch.batchId := started];
      requests := requests[RequestKey(today, batch.clientRequestId) := started];
      active := active + {today};
      return Started(started);
    }

    method RunAppend(day: int, message: Turn, batch: Batch, token: string) returns (reply: Option<Batch>)
      requires batch.characters != []
      modifies this
      ensures (State(), reply) == AppendScript(old(State()), day, message, batch, token)
    {
      if !LeaseIs(token) {
        return None;
      }
      var sequence := Increment(day);
      var last := |batch.characters| - 1;
      var numbered := batch.(characters := batch.characters[last := batch.characters[last].(sequence := sequence)]);
      Push(day, message.(sequence := sequence));
      batches := batches[batch.batchId := numbered];
      requests := requests[RequestKey(day, batch.clientRequestId) := numbered];
      lease := Held(lease.token, clock + LEASE_MS);
      return Some(numbered);
    }

    method RunSave(day: int, batch: Batch, token: string, release: bool) returns (saved: bool)
      modifies this
      ensures (State(), saved) == SaveScript(old(State()), day, batch, token, release)
    {
      if !LeaseIs(token) {
        return false;
      }
      batches := batches[batch.batchId := batch];
      requests := requests[RequestKey(day, batch.clientRequestId) := batch];
      lease := if release then Free else Held(lease.token, clock + LEASE_MS);
      return true;
    }

    method RunInterrupt(day: int, batchId: string, requestId: string, token: string, now: int)
        returns (reply: InterruptReply)
      modifies this
      ensures (State(), reply) == InterruptScript(old(State()), day, batchId, requestId, token, now)
    {
      if !LeaseIs(token) {
        return LeaseGone;
      }
      var encoded := Get(batches, batchId);
      if encoded.None? {
        encoded := Get(requests, RequestKey(day, requestId));
      }
      if encoded.None? {
        return Missing;
      }
      var batch := encoded.value;
      if batch.status == Generating {
        batch := batch.(status := if batch.characters == [] then Failed else Partial);
        batch := batch.(interruption := INTERRUPTED, updatedAt := now);
        batches := batches[batchId := batch];
        requests := requests[RequestKey(day, requestId) := batch];
      }
      lease := Free;
      return Settled(batch);
    }

    method RunMigrate(day: int)
      modifies this
      ensures State() == MigrateScript(old(State()), day)
    {
      if conversationId != DEFAULT_CONVERSATION || day !in legacy || legacy[day] == [] {
        return;
      }
      var oldTurns, current := legacy[day], if day in logs then logs[day] else [];
      var merged: seq<Turn> := [];
      for i := 0 to |oldTurns|
        invariant merged == oldTurns[..i]
      {
        merged := merged + [oldTurns[i]];
      }
      for i := 0 to |current|
        invariant merged == oldTurns + current[..i]
      {
        merged := merged + [current[i]];
      }
      assert current[..|current|] == current;
      logs := logs[day := merged];
      legacy := legacy - {day};
      counters := counters[day := |oldTurns| + |current|];
    }

    method AddTurn(turn: Turn)
      modifies this
      ensures State() == AddTurnScript(old(State()), DayOf(turn.createdAt), turn)
    {
      var day := DayOf(turn.createdAt);
      legacy := legacy[day := (if day in legacy then legacy[day] else []) + [turn]];
      legacyActive := legacyActive + {day};
    }

    // ---- The Go methods ----

    method BeginBatch(requestId: string, content: string, batchId: string, turnId: string, token: string,
        migratedAt: int, now: int)
      returns (r: Result<(Batch, string), StoreError>)
      modifies this
      ensures var batch := NewBatch(conversationId, requestId, content, batchId, turnId, now);
        var (after, reply) := BeginScript(MigrateScript(old(State()), DayOf(migratedAt)), DayOf(now), batch, token);
        State() == after
        && r == match reply {
             case Existing(b) => Ok((b, ""))
             case Busy => Err(ConversationBusy)
             case Started(b) => Ok((b, token))
           }
    {
      RunMigrate(DayOf(migratedAt));
      var reply := RunBegin(DayOf(now), NewBatch(conversationId, requestId, content, batchId, turnId, now), token);
      match reply
      case Existing(b) => return Ok((b, ""));
      case Busy => return Err(ConversationBusy);
      case Started(b) => return Ok((b, token));
    }

    /** `caller` is what the caller's batch has become: the message joins it before the script runs, and stays
        when the lease turns out lost. */
    method AppendCharacter(batch: Batch, token: string, speakerId: string, displayName: string, avatarUrl: string,
                           content: string, turnId: string, now: int)
      returns (r: Result<Turn, StoreError>, caller: Batch)
      modifies this
      ensures var message := NewMessage(batch, conversationId, speakerId, displayName, avatarUrl, content, turnId, now);
        var (after, reply) :=
          AppendScript(old(State()), DayOf(batch.createdAt), message, WithMessage(batch, message, now), token);
        && State() == after
        && caller == (if reply.Some? then reply.value else WithMessage(batch, message, now))
        && r == (if reply.Some?
                 then Ok(message.(sequence := CounterOf(State(), DayOf(batch.createdAt))))
                 else Err(LeaseLost))
        && (r.Ok? ==> caller.characters == batch.characters + [r.value])
    {
      var message := NewMessage(batch, conversationId, speakerId, displayName, avatarUrl, content, turnId, now);
      caller := WithMessage(batch, message, now);
      var reply := RunAppend(DayOf(batch.createdAt), message, caller, token);
      if reply.None? {
        return Err(LeaseLost), caller;
      }
      ghost var numbered := message.(sequence := CounterOf(State(), DayOf(batch.createdAt)));
      assert (batch.characters + [message])[|batch.characters| := numbered] == batch.characters + [numbered];
      caller := reply.value;
      return Ok(caller.characters[|batch.characters|]), caller;
    }

    /** The caller's batch is stamped in any case. */
    method SaveBatch(batch: Batch, token: string, release: bool, now: int)
        returns (r: Result<(), StoreError>, caller: Batch)
      modifies this
      ensures caller == batch.(updatedAt := now)
      ensures var (after, saved) := SaveScript(old(State()), DayOf(batch.createdAt), caller, token, release);
        State() == after && r == if saved then Ok(()) else Err(LeaseLost)
    {
      caller := batch.(updatedAt := now);
      var saved := RunSave(DayOf(batch.createdAt), caller, token, release);
      if !saved {
        return Err(LeaseLost), caller;
      }
      return Ok(()), caller;
    }

    method InterruptBatch(batchId: string, requestId: string, token: string, createdAt: int, now: int)
        returns (r: Result<Batch, StoreError>)
      modifies this
      ensures var (after, reply) := InterruptScript(old(State()), DayOf(createdAt), batchId, requestId, token, now);
        State() == after && r == if reply.Settled? then Ok(reply.batch) else Err(LeaseLost)
    {
      var reply := RunInterrupt(DayOf(createdAt), batchId, requestId, token, now);
      if !reply.Settled? {
        return Err(LeaseLost);
      }
      return Ok(reply.batch);
    }

    method MessagesForDate(now: int) returns (messages: seq<Turn>)
      modifies this
      ensures State() == MigrateScript(old(State()), DayOf(now))
      ensures messages == View(Log(State(), DayOf(now)), conversationId)
    {
      RunMigrate(DayOf(now));
      messages := ReadLog(if DayOf(now) in logs then logs[DayOf(now)] else [], conversationId);
    }

    method ClearScopeDate(now: int)
      modifies this
      ensures State() == ClearScript(MigrateScript(old(State()), DayOf(now)), DayOf(now))
    {
      var day := DayOf(now);
      RunMigrate(day);
      logs, counters := logs - {day}, counters - {day};
      active := active - {day};
      if conversationId == DEFAULT_CONVERSATION {
        legacyActive := legacyActive - {day};
      }
    }

    /** Undisturbed, a clear is refused exactly while a lease is held. Its check and its delete are two
        steps; `SendProtocol.Clear` is the delete on its own, at any moment. */
    method ClearScopeToday(now: int) returns (r: Result<(), StoreError>)
      modifies this
      ensures r == if LeaseHeld(old(State())) then Err(ConversationBusy) else Ok(())
      ensures State() ==
        if r.Ok? then ClearScript(MigrateScript(old(State()), DayOf(now)), DayOf(now)) else old(State())
    {
      if LeaseExists() {
        return Err(ConversationBusy);
      }
      ClearScopeDate(now);
      return Ok(());
    }
  }
}

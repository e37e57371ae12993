/** The Redis keys of one conversation scope and the scripts that change them, each atomically.
    Key expiry other than the lease's is not modelled. */
module ConversationStore {
  import opened Wrappers
  import opened BeijingClock

  const USER := "user"
  const ASSISTANT := "assistant"
  const CHARACTER := "character"
  const DEFAULT_CONVERSATION := "direct-haruhi"
  const INTERRUPTED := "generation_interrupted"
  const LEASE_MS := 45_000

  datatype Status = Generating | Complete | Partial | Failed

  datatype Turn = Turn(
    turnId: string, role: string, content: string, createdAt: int, conversationId: string,
    speakerKind: string, speakerId: string, batchId: string, sequence: nat, displayName: string, avatarUrl: string)

  datatype Batch = Batch(
    batchId: string, clientRequestId: string, conversationId: string, planned: seq<string>, user: Turn,
    characters: seq<Turn>, status: Status, interruption: string, createdAt: int, updatedAt: int)

  datatype Lease = Free | Held(token: string, deadline: int)
  datatype RequestKey = RequestKey(day: int, id: string)

  // `requests` holds the fields of every day's request ledger; `clock` is the server's own clock.
  datatype Store = Store(
    conversationId: string, clock: int, lease: Lease, counters: map<int, nat>, logs: map<int, seq<Turn>>,
    requests: map<RequestKey, Batch>, batches: map<string, Batch>, legacy: map<int, seq<Turn>>,
    active: set<int>, legacyActive: set<int>)

  datatype BeginReply = Existing(batch: Batch) | Busy | Started(batch: Batch)
  datatype InterruptReply = LeaseGone | Missing | Settled(batch: Batch)

  function CounterOf(s: Store, day: int): nat {
    if day in s.counters then s.counters[day] else 0
  }

  function Log(s: Store, day: int): seq<Turn> {
    if day in s.logs then s.logs[day] else []
  }

  function Legacy(s: Store, day: int): seq<Turn> {
    if day in s.legacy then s.legacy[day] else []
  }

  predicate LeaseHeld(s: Store) {
    s.lease.Held? && s.clock < s.lease.deadline
  }

  predicate HoldsLease(s: Store, token: string) {
    LeaseHeld(s) && s.lease.token == token
  }

  function Renewed(s: Store): Lease
    requires s.lease.Held?
  {
    Held(s.lease.token, s.clock + LEASE_MS)
  }

  function KeyOf(b: Batch): RequestKey {
    RequestKey(DayOf(b.createdAt), b.clientRequestId)
  }

  // What a batch whose generation stopped converges to.
  function Converged(b: Batch): Batch {
    b.(status := if b.characters == [] then Failed else Partial, interruption := INTERRUPTED)
  }

  // ---- BeginBatch ----

  function NewBatch(conversationId: string, requestId: string, content: string, batchId: string, turnId: string,
      now: int): Batch {
    Batch(batchId, requestId, conversationId, [],
          Turn(turnId, USER, content, now, conversationId, USER, USER, batchId, 0, "你", ""),
          [], Generating, "", now, now)
  }

  function BeginScript(s: Store, today: int, batch: Batch, token: string): (Store, BeginReply) {
    var current, previous := RequestKey(today, batch.clientRequestId), RequestKey(today - 1, batch.clientRequestId);
    if current in s.requests || previous in s.requests then
      var key := if current in s.requests then current else previous;
      var snapshot := s.requests[key];
      var reply := if snapshot.status.Generating? && !LeaseHeld(s) then Converged(snapshot) else snapshot;
      (s.(requests := s.requests[key := reply]), Existing(reply))
    else if LeaseHeld(s) then
      (s, Busy)
    else
      var sequence := CounterOf(s, today) + 1;
      var started := batch.(user := batch.user.(sequence := sequence));
      (s.(lease := Held(token, s.clock + LEASE_MS), counters := s.counters[today := sequence],
          logs := s.logs[today := Log(s, today) + [started.user]], batches := s.batches[batch.batchId := started],
          requests := s.requests[current := started], active := s.active + {today}),
       Started(started))
  }

  // ---- AppendCharacter ----

  function NewMessage(b: Batch, conversationId: string, speakerId: string, displayName: string, avatarUrl: string,
                      content: string, turnId: string, now: int): Turn
  {
    Turn(turnId, ASSISTANT, content, now, conversationId, CHARACTER, speakerId, b.batchId, 0, displayName, avatarUrl)
  }

  function WithMessage(b: Batch, message: Turn, now: int): Batch {
    b.(characters := b.characters + [message], updatedAt := now)
  }

  // The script is passed the message and the batch already carrying it, and numbers both copies.
  function AppendScript(s: Store, day: int, message: Turn, batch: Batch, token: string): (Store, Option<Batch>)
    requires batch.characters != []
  {
    if !HoldsLease(s, token) then
      (s, None)
    else
      var sequence := CounterOf(s, day) + 1;
      var last := |batch.characters| - 1;
      var numbered := batch.(characters := batch.characters[last := batch.characters[last].(sequence := sequence)]);
      (s.(lease := Renewed(s), counters := s.counters[day := sequence],
          logs := s.logs[day := Log(s, day) + [message.(sequence := sequence)]],
          batches := s.batches[batch.batchId := numbered],
          requests := s.requests[RequestKey(day, batch.clientRequestId) := numbered]),
       Some(numbered))
  }

  // ---- SaveBatch ----

  function SaveScript(s: Store, day: int, batch: Batch, token: string, release: bool): (Store, bool) {
    if !HoldsLease(s, token) then
      (s, false)
    else
      (s.(lease := if release then Free else Renewed(s), batches := s.batches[batch.batchId := batch],
          requests := s.requests[RequestKey(day, batch.clientRequestId) := batch]),
       true)
  }

  // ---- InterruptBatch ----

  function InterruptScript(s: Store, day: int, batchId: string, requestId: string, token: string, now: int)
    : (Store, InterruptReply)
  {
    var key := RequestKey(day, requestId);
    if !HoldsLease(s, token) then
      (s, LeaseGone)
    else if batchId !in s.batches && key !in s.requests then
      (s, Missing)
    else
      var read := if batchId in s.batches then s.batches[batchId] else s.requests[key];
      if read.status.Generating? then
        var settled := Converged(read).(updatedAt := now);
        (s.(lease := Free, batches := s.batches[batchId := settled], requests := s.requests[key := settled]),
          Settled(settled))
      else
        (s.(lease := Free), Settled(read))
  }

  // ---- Legacy list, clearing, time ----

  /** Only the default conversation has a legacy list; it is moved in front of the log. */
  function MigrateScript(s: Store, day: int): Store {
    if s.conversationId != DEFAULT_CONVERSATION || Legacy(s, day) == [] then s
    else
      var merged := Legacy(s, day) + Log(s, day);
      s.(logs := s.logs[day := merged], legacy := s.legacy - {day}, counters := s.counters[day := |merged|])
  }

  /** The delete transaction of ClearScopeDate: the request ledger survives it. */
  function ClearScript(s: Store, day: int): Store {
    s.(logs := s.logs - {day}, counters := s.counters - {day}, active := s.active - {day},
       legacyActive := if s.conversationId == DEFAULT_CONVERSATION then s.legacyActive - {day} else s.legacyActive)
  }

  // AddTurn and ClearDate of the legacy interface.
  function AddTurnScript(s: Store, day: int, turn: Turn): Store {
    s.(legacy := s.legacy[day := Legacy(s, day) + [turn]], legacyActive := s.legacyActive + {day})
  }

  function LegacyTurn(turnId: string, role: string, content: string, now: int): Turn {
    Turn(turnId, role, content, now, "", "", "", "", 0, "", "")
  }

  function LegacyClearScript(s: Store, day: int): Store {
    s.(legacy := s.legacy - {day}, legacyActive := s.legacyActive - {day})
  }

  function Elapse(s: Store, ms: nat): Store {
    s.(clock := s.clock + ms)
  }

  function EmptyStore(conversationId: string): Store {
    Store(conversationId, 0, Free, map[], map[], map[], map[], map[], {}, {})
  }
}

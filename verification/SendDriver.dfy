/** `Send` as it is written: a loop over the plan around the store's calls, with a deferred clean-up.
    Before each call any other workers, clears, merges and time act on the scope. */
module SendDriver {
  import opened Wrappers
  import opened GoText
  import opened BeijingClock
  import opened Identifiers
  import opened ConversationStore
  import opened SendProtocol
  import opened LeaseInvariant
  import opened LogContiguity
  import opened ConversationRuns
  import opened Renewals

  /** What the rest of the world contributes to one call: events of others, faults and instants by step
      number, the plan, and each speaker's text, absent when the model fails. */
  datatype World = World(others: nat -> seq<Event>, faults: nat -> Fault, clock: nat -> int, cleanup: bool,
                         plan: seq<string>, lines: seq<Option<string>>, lineIds: seq<string>,
                         face: string -> (string, string))

  const MAX_CONTENT := 4000

  /** What comes before the batch begins: whether the space exists, and how loading the history, reading the
      summaries and merging the legacy list go, each after events of others. */
  datatype Prelude = Prelude(known: bool, load: Fault, loadedAt: int, summaries: bool, merge: Fault, mergedAt: int,
                             others: seq<Event>, laterOthers: seq<Event>)

  ghost predicate ForeignEvents(events: seq<Event>, w: nat, mine: set<string>) {
    forall e :: e in events ==> Actor(e) != Some(w) && Draws(e) !! mine
  }

  predicate Faultless(prelude: Prelude) {
    prelude.load.Fine? && prelude.summaries && prelude.merge.Fine?
  }

  /** No store call of this worker fails; the others may do what they like. */
  ghost predicate AllFine(world: World) {
    forall n :: world.faults(n).Fine?
  }

  function Ticks(events: seq<Event>): nat {
    if events == [] then 0
    else
      var last := events[|events| - 1];
      Ticks(events[..|events| - 1]) + if last.Tick? then last.ms else 0
  }

  lemma {:induction false} TicksOfPrefix(events: seq<Event>, i: nat)
    requires i <= |events|
    ensures Ticks(events[..i]) <= Ticks(events)
  {
    if i == |events| {
      assert events[..i] == events;
    } else {
      TicksOfPrefix(events[..|events| - 1], i);
      assert events[..|events| - 1][..i] == events[..i];
    }
  }

  /** Between two store calls of this worker less than the lease time goes by at the server. */
  ghost predicate Brisk(world: World) {
    forall n :: Ticks(world.others(n)) < 45_000
  }

  /** The request is refused before anything is read or written. */
  function Refusal(requestId: string, content: string, prelude: Prelude): Option<Failure> {
    if !prelude.known then Some(ConversationNotFound)
    else if TrimSpace(content) == "" || !IsUuid(requestId) then Some(InvalidRequest)
    else if |TrimSpace(content)| > MAX_CONTENT then Some(MessageTooLarge)
    else None
  }

  /** Other workers are other workers, and identifiers drawn at random are never drawn twice. */
  ghost predicate Foreign(world: World, w: nat, mine: set<string>) {
    forall n: nat, e :: e in world.others(n) ==> Actor(e) != Some(w) && Draws(e) !! mine
  }

  predicate Silent(line: Option<string>) {
    line.None? || Blank(line.value)
  }

  ghost predicate Fresh(sys: Sys, batchId: string, turnId: string, token: string, lineIds: seq<string>) {
    && IsBatchId(batchId) && batchId != turnId && batchId != token && turnId != token
    && Distinct(lineIds)
    && (forall i :: 0 <= i < |lineIds| ==> lineIds[i] !in {batchId, turnId, token})
    && Own(batchId, turnId, token, lineIds) !! sys.issued
  }

  ghost function Own(batchId: string, turnId: string, token: string, lineIds: seq<string>): set<string> {
    {batchId, turnId, token} + Rest(lineIds)
  }

  ghost function Rest(ids: seq<string>): set<string> {
    set id | id in ids
  }

  /** What a batch opens with. */
  ghost predicate Opens(b: Batch, conversationId: string, requestId: string, content: string, batchId: string,
      turnId: string, now: int)
  {
    && b.batchId == batchId && b.clientRequestId == requestId
    && b.conversationId == conversationId && b.createdAt == now
    && b.user == Turn(turnId, "user", content, now, conversationId, "user", "user", batchId, b.user.sequence, "你", "")
  }

  /** The call goes on: same request, token and batch, with the same opening. */
  ghost predicate SameCall(v: Worker, w: Worker) {
    && w.began == v.began && w.token == v.token && w.requestId == v.requestId
    && w.batch.batchId == v.batch.batchId && w.batch.clientRequestId == v.batch.clientRequestId
    && w.batch.conversationId == v.batch.conversationId && w.batch.createdAt == v.batch.createdAt
    && w.batch.user == v.batch.user
  }

  /** Between the calls of this worker only workers act, and time. */
  ghost predicate OnlyWorkers(world: World) {
    forall n: nat, e :: e in world.others(n) ==> Actor(e).Some? || e.Tick?
  }

  ghost predicate GoesOn(s: Sys, t: Sys, w: nat, world: World) {
    && w in s.workers && w in t.workers && SameCall(s.workers[w], t.workers[w])
    && t.store.conversationId == s.store.conversationId && (OnlyWorkers(world) ==> t.store.legacy == s.store.legacy)
  }

  /** The default conversation has no legacy turns left for the day. */
  ghost predicate Merged(sys: Sys, day: int) {
    sys.store.conversationId == DEFAULT_CONVERSATION ==> Legacy(sys.store, day) == []
  }

  /** The speaker at j says the text at j. */
  ghost predicate ToldAt(b: Batch, world: World, j: nat)
    requires j < |b.characters| && j < |world.plan| && j < |world.lines| == |world.lineIds|
  {
    && !Silent(world.lines[j])
    && b.characters[j] == Turn(world.lineIds[j], "assistant", TrimSpace(world.lines[j].value), world.clock(2 + j),
      b.conversationId, "character", world.plan[j], b.batchId, b.characters[j].sequence,
      world.face(world.plan[j]).0, world.face(world.plan[j]).1)
  }

  /** What the batch of a started call says about the model's texts. */
  ghost predicate Told(b: Batch, world: World) {
    && b.planned == world.plan && |b.characters| <= |world.plan| <= |world.lines| == |world.lineIds|
    && forall j: nat :: j < |b.characters| ==> ToldAt(b, world, j)
  }

  /** A returned batch holds every text up to the first silence, and is complete exactly when there was none. */
  ghost predicate ToldAll(b: Batch, world: World) {
    && Told(b, world)
    && (b.status == Complete <==> |b.characters| == |world.plan|)
    && (b.status != Complete ==> Silent(world.lines[|b.characters|]))
    && b.updatedAt == world.clock(2 + |b.characters|)
  }

  // Between two speakers; `deadline` is how long an undisturbed and brisk call holds its lease at least.
  ghost predicate Spoken(sys: Sys, w: nat, i: nat, token: string, world: World, deadline: int) {
    && InPhase(sys, w, Speaking) && sys.workers[w].began && sys.workers[w].token == token
    && |sys.workers[w].batch.characters| == i && Told(sys.workers[w].batch, world)
    && sys.workers[w].batch.updatedAt == world.clock(1 + i)
    && sys.workers[w].batch.conversationId == sys.store.conversationId
    && (AllFine(world) && Brisk(world) ==> HoldsUntil(sys, w, deadline))
  }

  // Where the loop stands after `i` speakers.
  ghost predicate Progress(sys: Sys, w: nat, i: nat, token: string, world: World) {
    && w in sys.workers && sys.workers[w].began && sys.workers[w].token == token
    && var worker := sys.workers[w];
      match worker.phase
      case Speaking => Spoken(sys, w, i, token, world, sys.store.clock + 45_000)
      case Unwinding(failure) => AllFine(world) ==> failure == LeaseLost && !Brisk(world)
      case Returned => ToldAll(worker.batch, world)
      case _ => false
  }

  class Scope {
    var sys: Sys

    ghost predicate Valid()
      reads this
    {
      Inv(sys) && LogInv(sys)
    }

    constructor (conversationId: string)
      ensures Valid() && sys == Init(conversationId)
    {
      sys := Init(conversationId);
      new;
      InitHolds(conversationId);
    }

    method Act(e: Event)
      requires Valid() && Enabled(sys, e)
      modifies this
      ensures Valid() && sys == Step(old(sys), e)
      ensures sys.store.conversationId == old(sys.store.conversationId)
      ensures Actor(e).Some? || e.Tick? ==> sys.store.legacy == old(sys.store.legacy)
      ensures forall v :: v in old(sys.workers) ==> v in sys.workers && SameCall(old(sys.workers[v]), sys.workers[v])
    {
      forall v | v in sys.workers
        ensures v in Step(sys, e).workers && SameCall(sys.workers[v], Step(sys, e).workers[v])
      {
        StepKeepsCall(sys, e, v);
      }
      StepKeepsConversation(sys, e);
      if Actor(e).Some? {
        WorkersKeepLegacy(sys, e);
      }
      StepKeepsInv(sys, e);
      StepKeepsLogs(sys, e);
      sys := Step(sys, e);
    }

    method Disturb(events: seq<Event>, w: nat, ghost mine: set<string>)
      requires Valid() && sys.issued !! mine
      requires forall e :: e in events ==> Actor(e) != Some(w) && Draws(e) !! mine
      modifies this
      ensures Valid() && sys.issued !! mine && sys.store.conversationId == old(sys.store.conversationId)
      ensures Get(sys.workers, w) == old(Get(sys.workers, w))
      ensures (forall e :: e in events ==> Actor(e).Some? || e.Tick?) ==> sys.store.legacy == old(sys.store.legacy)
      ensures old(HoldsUntil(sys, w, sys.store.clock + 45_000)) && Ticks(events) < 45_000 ==>
        HoldsUntil(sys, w, sys.store.clock)
    {
      ghost var start := sys;
      for i := 0 to |events|
        invariant Valid() && sys.issued !! mine && sys.store.conversationId == start.store.conversationId
        invariant Get(sys.workers, w) == Get(start.workers, w)
        invariant (forall e :: e in events ==> Actor(e).Some? || e.Tick?) ==> sys.store.legacy == start.store.legacy
        invariant HoldsUntil(start, w, start.store.clock + 45_000) && Ticks(events) < 45_000 ==>
          HoldsUntil(sys, w, start.store.clock + 45_000)
        invariant start.store.clock <= sys.store.clock <= start.store.clock + Ticks(events[..i])
      {
        assert events[..i + 1][..i] == events[..i];
        TicksOfPrefix(events, i + 1);
        if Enabled(sys, events[i]) {
          assert events[i] in events;
          OthersKeepWorker(sys, events[i], w);
          EventsTakeTheirTicks(sys, events[i]);
          if HoldsUntil(sys, w, start.store.clock + 45_000) && Ticks(events) < 45_000 {
            OthersLeaveTheLease(sys, events[i], w, start.store.clock + 45_000);
          }
          Act(events[i]);
        }
      }
      assert events[..|events|] == events;
    }

    /** One turn of the loop over the plan. */
    method SpeakOne(w: nat, i: nat, ghost token: string, world: World)
      requires Valid() && Progress(sys, w, i, token, world) && sys.workers[w].phase.Speaking? && i < |world.plan|
      requires |world.lines| == |world.lineIds| == |world.plan|
      requires sys.issued !! Rest(world.lineIds[i..]) && Foreign(world, w, Rest(world.lineIds[i..]))
      requires Distinct(world.lineIds)
      modifies this
      ensures Valid() && Progress(sys, w, i + 1, token, world) && sys.issued !! Rest(world.lineIds[i + 1..])
      ensures GoesOn(old(sys), sys, w, world)
    {
      ghost var rest := Rest(world.lineIds[i..]);
      Disturb(world.others(2 + i), w, rest);
      assert world.lineIds[i] == world.lineIds[i..][0];
      assert Rest(world.lineIds[i + 1..]) <= rest - {world.lineIds[i]};
      if Silent(world.lines[i]) {
        StumbleProgress(sys, w, i, token, world, world.clock(2 + i), world.faults(2 + i));
        Act(Stumble(w, world.clock(2 + i), world.faults(2 + i)));
      } else {
        var (name, avatar) := world.face(world.plan[i]);
        var e := Speak(w, name, avatar, TrimSpace(world.lines[i].value), world.lineIds[i], world.clock(2 + i),
          world.faults(2 + i));
        SpeakProgress(sys, e, i, token, world);
        Act(e);
      }
    }

    /** The whole loop, from the saved plan on. */
    method SpeakAll(w: nat, ghost token: string, world: World) returns (steps: nat)
      requires Valid() && Progress(sys, w, 0, token, world)
      requires |world.lines| == |world.lineIds| == |world.plan|
      requires sys.issued !! Rest(world.lineIds) && Foreign(world, w, Rest(world.lineIds))
      requires Distinct(world.lineIds)
      modifies this
      ensures Valid() && steps <= |world.plan| && Progress(sys, w, steps, token, world)
      ensures GoesOn(old(sys), sys, w, world)
      ensures sys.workers[w].phase.Speaking? ==> steps == |world.plan|
    {
      steps := 0;
      assert world.lineIds[0..] == world.lineIds;
      while steps < |world.plan| && sys.workers[w].phase.Speaking?
        invariant Valid() && steps <= |world.plan| && Progress(sys, w, steps, token, world)
        invariant sys.issued !! Rest(world.lineIds[steps..])
        invariant GoesOn(old(sys), sys, w, world)
      {
        SpeakOne(w, steps, token, world);
        steps := steps + 1;
      }
    }

    method Refuse(w: nat, requestId: string, cause: Failure) returns (r: Result<Batch, Failure>)
      requires Valid() && w !in sys.workers
      requires cause in {InvalidRequest, MessageTooLarge, ConversationNotFound, NotStarted, Other}
      modifies this
      ensures Valid() && r == Err(cause) && sys == Step(old(sys), Event.Refuse(w, requestId, cause))
    {
      Act(Event.Refuse(w, requestId, cause));
      return Err(cause);
    }

    /** The merge of the legacy list that precedes every read and every begin; false when its reply is missing. */
    method Merge(w: nat, now: int, fault: Fault, others: seq<Event>, ghost mine: set<string>) returns (ok: bool)
      requires Valid() && w !in sys.workers && sys.issued !! mine && ForeignEvents(others, w, mine)
      modifies this
      ensures Valid() && w !in sys.workers && sys.issued !! mine && ok == fault.Fine?
      ensures sys.store.conversationId == old(sys.store.conversationId)
      ensures !fault.NotApplied? ==> Merged(sys, DayOf(now))
    {
      Disturb(others, w, mine);
      if !fault.NotApplied? {
        Act(Migrate(DayOf(now)));
      }
      return fault.Fine?;
    }

    /** The checks and the merges before the batch begins, with the failure they end in. */
    method Prepare(w: nat, requestId: string, content: string, prelude: Prelude, ghost mine: set<string>)
        returns (cause: Option<Failure>)
      requires Valid() && w !in sys.workers && sys.issued !! mine
      requires ForeignEvents(prelude.others + prelude.laterOthers, w, mine)
      modifies this
      ensures Valid() && w !in sys.workers && sys.issued !! mine
      ensures sys.store.conversationId == old(sys.store.conversationId)
      ensures cause.Some? ==>
        cause.value in {InvalidRequest, MessageTooLarge, ConversationNotFound, NotStarted, Other}
      ensures cause == Some(ConversationNotFound) <==> !prelude.known
      ensures cause == Some(InvalidRequest) <==> prelude.known && (TrimSpace(content) == "" || !IsUuid(requestId))
      ensures cause == Some(MessageTooLarge) <==>
        prelude.known && TrimSpace(content) != "" && IsUuid(requestId) && |TrimSpace(content)| > 4000
      ensures Refusal(requestId, content, prelude).Some? ==> sys == old(sys) && cause.Some?
      ensures Refusal(requestId, content, prelude).None? && (!prelude.load.Fine? || !prelude.summaries) ==>
        cause == Some(NotStarted) && (!prelude.load.NotApplied? ==> Merged(sys, DayOf(prelude.loadedAt)))
      ensures Refusal(requestId, content, prelude).None? && prelude.load.Fine? && prelude.summaries ==>
        if prelude.merge.Fine? then cause.None? && Merged(sys, DayOf(prelude.mergedAt)) else cause == Some(Other)
    {
      cause := Refusal(requestId, content, prelude);
      if cause.Some? {
        return;
      }
      assert forall e :: e in prelude.others || e in prelude.laterOthers ==> e in prelude.others + prelude.laterOthers;
      var loaded := Merge(w, prelude.loadedAt, prelude.load, prelude.others, mine);
      if !loaded || !prelude.summaries {
        return Some(NotStarted);
      }
      var merged := Merge(w, prelude.mergedAt, prelude.merge, prelude.laterOthers, mine);
      if !merged {
        return Some(Other);
      }
    }

    method Send(w: nat, requestId: string, content: string, batchId: string, turnId: string, token: string,
                prelude: Prelude, world: World)
      returns (r: Result<Batch, Failure>)
      requires Valid() && w !in sys.workers
      requires world.plan != [] && |world.lines| == |world.lineIds| == |world.plan|
      requires Fresh(sys, batchId, turnId, token, world.lineIds)
      requires Foreign(world, w, Own(batchId, turnId, token, world.lineIds))
      requires ForeignEvents(prelude.others + prelude.laterOthers, w, Own(batchId, turnId, token, world.lineIds))
      modifies this
      ensures Valid() && w in sys.workers
      ensures r.Ok? ==> sys.workers[w].phase.Returned? && sys.workers[w].batch == r.value
      ensures r.Err? ==> sys.workers[w].phase == Raised(r.error)
      ensures sys.workers[w].requestId == requestId && (r.Ok? ==> r.value.clientRequestId == requestId)
      ensures sys.workers[w].began ==>
        Opens(sys.workers[w].batch, sys.store.conversationId, requestId, TrimSpace(content), batchId, turnId,
          world.clock(0))
      ensures r.Ok? ==>
        && Get(sys.store.requests, KeyOf(r.value)) == Some(r.value)
        && (r.value.status == Generating ==> !sys.workers[w].began && LeaseHeld(sys.store))
      ensures sys.workers[w].began && r.Ok? ==> ToldAll(r.value, world) && !HoldsLease(sys.store, token)
      ensures sys.workers[w].began && r.Err? && world.faults(0).Fine? && world.cleanup ==> !HoldsLease(sys.store, token)
      ensures r == Err(LeaseLost) ==> sys.workers[w].began && !HoldsLease(sys.store, token)
      ensures r == Err(ConversationNotFound) <==> !prelude.known
      ensures r == Err(InvalidRequest) <==> prelude.known && (TrimSpace(content) == "" || !IsUuid(requestId))
      ensures r == Err(MessageTooLarge) <==>
        prelude.known && TrimSpace(content) != "" && IsUuid(requestId) && |TrimSpace(content)| > 4000
      ensures Refusal(requestId, content, prelude).Some? ==>
        r.Err? && sys == Step(old(sys), Event.Refuse(w, requestId, r.error))
      ensures Refusal(requestId, content, prelude).None? && (!prelude.load.Fine? || !prelude.summaries) ==>
        r == Err(NotStarted) && (!prelude.load.NotApplied? ==> Merged(sys, DayOf(prelude.loadedAt)))
      ensures Refusal(requestId, content, prelude).None? && prelude.load.Fine? && prelude.summaries ==>
        && (!prelude.merge.Fine? ==> r == Err(Other))
        && (prelude.merge.Fine? && OnlyWorkers(world) ==> Merged(sys, DayOf(prelude.mergedAt)))
      ensures Refusal(requestId, content, prelude).None? && Faultless(prelude) && AllFine(world) && r.Err? ==>
        && r.error == (if sys.workers[w].began then LeaseLost else ConversationBusy)
        && (sys.workers[w].began ==> !Brisk(world))
    {
      ghost var mine := Own(batchId, turnId, token, world.lineIds);
      var cause := Prepare(w, requestId, content, prelude, mine);
      if cause.Some? {
        r := Refuse(w, requestId, cause.value);
        return;
      }
      r := Start(w, requestId, TrimSpace(content), batchId, turnId, token, world);
    }

    /** From BeginBatch's script on. */
    method Start(w: nat, requestId: string, content: string, batchId: string, turnId: string, token: string,
        world: World)
      returns (r: Result<Batch, Failure>)
      requires Valid() && w !in sys.workers
      requires world.plan != [] && |world.lines| == |world.lineIds| == |world.plan|
      requires Fresh(sys, batchId, turnId, token, world.lineIds)
      requires Foreign(world, w, Own(batchId, turnId, token, world.lineIds))
      modifies this
      ensures Valid() && w in sys.workers
      ensures r.Ok? ==> sys.workers[w].phase.Returned? && sys.workers[w].batch == r.value
      ensures r.Err? ==> sys.workers[w].phase == Raised(r.error)
      ensures sys.workers[w].requestId == requestId && (r.Ok? ==> r.value.clientRequestId == requestId)
      ensures sys.workers[w].began ==>
        Opens(sys.workers[w].batch, sys.store.conversationId, requestId, content, batchId, turnId, world.clock(0))
      ensures r.Ok? ==>
        && Get(sys.store.requests, KeyOf(r.value)) == Some(r.value)
        && (r.value.status == Generating ==> !sys.workers[w].began && LeaseHeld(sys.store))
      ensures sys.workers[w].began && r.Ok? ==> ToldAll(r.value, world) && !HoldsLease(sys.store, token)
      ensures sys.workers[w].began && r.Err? && world.faults(0).Fine? && world.cleanup ==> !HoldsLease(sys.store, token)
      ensures r == Err(LeaseLost) ==> sys.workers[w].began && !HoldsLease(sys.store, token)
      ensures sys.store.conversationId == old(sys.store.conversationId)
      ensures OnlyWorkers(world) ==> sys.store.legacy == old(sys.store.legacy)
      ensures r.Err? ==> r.error in {ConversationBusy, LeaseLost, Other}
      ensures AllFine(world) && r.Err? ==>
        && r.error == (if sys.workers[w].began then LeaseLost else ConversationBusy)
        && (sys.workers[w].began ==> !Brisk(world))
    {
      Disturb(world.others(0), w, Own(batchId, turnId, token, world.lineIds));
      var begin := Begin(w, requestId, content, world.clock(0), batchId, turnId, token, world.faults(0));
      BeginLeaves(sys, begin);
      BeginReturnsTheEntry(sys, begin);
      Act(begin);
      if sys.workers[w].phase.Planning? {
        FewerIds(world, w, Own(batchId, turnId, token, world.lineIds), Rest(world.lineIds));
        Generate(w, token, world);
      }
      assert WorkerAt(sys, w);
      if sys.workers[w].phase.Returned? {
        return Ok(sys.workers[w].batch);
      }
      return Err(sys.workers[w].phase.cause);
    }

    /** Everything after a started BeginBatch. */
    method Generate(w: nat, ghost token: string, world: World)
      requires Valid() && w in sys.workers && sys.workers[w].began && sys.workers[w].token == token
      requires sys.workers[w].phase.Planning? && HoldsUntil(sys, w, sys.store.clock + 45_000)
      requires sys.workers[w].batch.conversationId == sys.store.conversationId
      requires world.plan != [] && |world.lines| == |world.lineIds| == |world.plan|
      requires sys.issued !! Rest(world.lineIds) && Foreign(world, w, Rest(world.lineIds))
      requires Distinct(world.lineIds)
      modifies this
      ensures GoesOn(old(sys), sys, w, world)
      ensures Valid() && w in sys.workers && sys.workers[w].began && sys.workers[w].token == token
      ensures sys.workers[w].phase.Returned? || sys.workers[w].phase.Raised?
      ensures sys.workers[w].phase.Returned? ==> ToldAll(sys.workers[w].batch, world)
      ensures sys.workers[w].phase.Raised? && world.cleanup ==> !HoldsLease(sys.store, token)
      ensures sys.workers[w].phase.Raised? && AllFine(world) ==>
        sys.workers[w].phase.cause == LeaseLost && !Brisk(world)
    {
      FewerIds(world, w, Rest(world.lineIds), {});
      SavePlan(w, token, world);
      var steps := SpeakAll(w, token, world);
      if sys.workers[w].phase.Speaking? {
        FinishAll(w, token, world);
      }
      CleanUp(w, token, world, 3 + steps);
    }

    // The save that stores the plan.
    method SavePlan(w: nat, ghost token: string, world: World)
      requires Valid() && w in sys.workers && sys.workers[w].began && sys.workers[w].token == token
      requires sys.workers[w].phase.Planning? && HoldsUntil(sys, w, sys.store.clock + 45_000)
      requires sys.workers[w].batch.conversationId == sys.store.conversationId
      requires world.plan != [] && |world.lines| == |world.lineIds| == |world.plan|
      requires sys.issued !! Rest(world.lineIds) && Foreign(world, w, Rest(world.lineIds))
      modifies this
      ensures Valid() && Progress(sys, w, 0, token, world) && sys.issued !! Rest(world.lineIds)
      ensures GoesOn(old(sys), sys, w, world)
    {
      Disturb(world.others(1), w, Rest(world.lineIds));
      PlanProgress(sys, w, token, world, world.clock(1), world.faults(1));
      Act(Plan(w, world.plan, world.clock(1), world.faults(1)));
    }

    // The save that completes the batch.
    method FinishAll(w: nat, ghost token: string, world: World)
      requires Valid() && Progress(sys, w, |world.plan|, token, world) && sys.workers[w].phase.Speaking?
      requires Foreign(world, w, {})
      modifies this
      ensures Valid() && Progress(sys, w, |world.plan| + 1, token, world) && !sys.workers[w].phase.Speaking?
      ensures GoesOn(old(sys), sys, w, world)
    {
      var step := 2 + |world.plan|;
      Disturb(world.others(step), w, {});
      FinishProgress(sys, w, token, world, world.clock(step), world.faults(step));
      Act(Finish(w, world.clock(step), world.faults(step)));
    }

    /** The deferred clean-up of an unsettled call. */
    method CleanUp(w: nat, ghost token: string, world: World, step: nat)
      requires Valid() && w in sys.workers && sys.workers[w].began && sys.workers[w].token == token
      requires Foreign(world, w, {})
      modifies this
      ensures Valid() && w in sys.workers && sys.workers[w].began
      ensures GoesOn(old(sys), sys, w, world)
      ensures !old(sys.workers[w]).phase.Unwinding? ==> sys == old(sys)
      ensures old(sys.workers[w]).phase.Unwinding? ==>
        && sys.workers[w] == old(sys.workers[w]).(phase := Raised(old(sys.workers[w]).phase.failure))
        && (world.cleanup ==> !HoldsLease(sys.store, token))
    {
      if sys.workers[w].phase.Unwinding? {
        Disturb(world.others(step), w, {});
        assert WorkerAt(sys, w);
        Act(Cleanup(w, world.clock(step), world.cleanup));
      }
    }
  }

  lemma FewerIds(world: World, w: nat, more: set<string>, fewer: set<string>)
    requires Foreign(world, w, more) && fewer <= more
    ensures Foreign(world, w, fewer)
  {
  }

  lemma StepKeepsCall(sys: Sys, e: Event, w: nat)
    requires Enabled(sys, e) && w in sys.workers
    ensures w in Step(sys, e).workers && SameCall(sys.workers[w], Step(sys, e).workers[w])
  {
    if Actor(e) != Some(w) {
      OthersKeepWorker(sys, e, w);
    } else if e.Speak? {
      SpeakLeaves(sys, e);
    } else {
      OwnStepsKeepCall(sys, e, w);
    }
  }

  lemma OwnStepsKeepCall(sys: Sys, e: Event, w: nat)
    requires Enabled(sys, e) && Actor(e) == Some(w) && w in sys.workers && !e.Speak?
    ensures w in Step(sys, e).workers && SameCall(sys.workers[w], Step(sys, e).workers[w])
  {
  }

  lemma StepKeepsConversation(sys: Sys, e: Event)
    requires Enabled(sys, e)
    ensures Step(sys, e).store.conversationId == sys.store.conversationId
  {
  }

  lemma ToldStays(b: Batch, c: Batch, world: World)
    requires Told(b, world) && c.planned == b.planned && c.characters == b.characters
    requires c.batchId == b.batchId && c.conversationId == b.conversationId
    ensures Told(c, world)
  {
    forall j: nat | j < |c.characters| ensures ToldAt(c, world, j) {
      assert ToldAt(b, world, j);
    }
  }

  lemma ToldGrows(b: Batch, c: Batch, world: World)
    requires Told(b, world) && c.planned == b.planned && |c.characters| == |b.characters| + 1 <= |world.plan|
    requires b.characters == c.characters[..|b.characters|] && ToldAt(c, world, |b.characters|)
    requires c.batchId == b.batchId && c.conversationId == b.conversationId
    ensures Told(c, world)
  {
    forall j: nat | j < |b.characters| ensures ToldAt(c, world, j) {
      assert ToldAt(b, world, j) && c.characters[j] == b.characters[j];
    }
  }

  lemma WorkersKeepLegacy(sys: Sys, e: Event)
    requires Enabled(sys, e) && Actor(e).Some?
    ensures Step(sys, e).store.legacy == sys.store.legacy
  {
  }

  lemma EventsTakeTheirTicks(sys: Sys, e: Event)
    requires Enabled(sys, e)
    ensures Step(sys, e).store.clock == sys.store.clock + if e.Tick? then e.ms else 0
  {
  }

  lemma BeginLeaves(sys: Sys, e: Event)
    requires e.Begin? && Enabled(sys, e)
    ensures var worker := StepBegin(sys, e).workers[e.worker];
      && worker.requestId == e.requestId
      && (worker.phase.Planning? ==> worker.began)
      && (worker.began ==> HoldsUntil(StepBegin(sys, e), e.worker, StepBegin(sys, e).store.clock + 45_000))
      && (worker.began ==>
            Opens(worker.batch, sys.store.conversationId, e.requestId, e.content, e.batchId, e.turnId, e.now))
      && (worker.began ==> worker.token == e.token && (worker.phase.Planning? || e.fault != Fine))
      && (worker.phase.Raised? ==> worker.phase.cause == if e.fault.Fine? then ConversationBusy else Other)
      && (worker.phase.Planning? || worker.phase.Returned? || worker.phase.Raised?)
    ensures StepBegin(sys, e).issued == sys.issued + Draws(e)
  {
    if StepBegin(sys, e).workers[e.worker].began {
      StartingHolds(sys, e, e.worker);
    }
  }

  lemma BeginReturnsTheEntry(sys: Sys, e: Event)
    requires Inv(sys) && e.Begin? && Enabled(sys, e)
    ensures var (worker, after) := (StepBegin(sys, e).workers[e.worker], StepBegin(sys, e).store);
      worker.phase.Returned? ==>
        && Get(after.requests, KeyOf(worker.batch)) == Some(worker.batch) && !worker.began
        && (worker.batch.status == Generating ==> LeaseHeld(after))
  {
    if StepBegin(sys, e).workers[e.worker].phase.Returned? {
      ExistingKeepsEntries(sys, e);
    }
  }

  lemma PlanProgress(sys: Sys, w: nat, token: string, world: World, now: int, fault: Fault)
    requires Inv(sys) && w in sys.workers && sys.workers[w].began && sys.workers[w].token == token
    requires sys.workers[w].phase.Planning? && world.plan != [] && |world.lines| == |world.lineIds| == |world.plan|
    requires sys.workers[w].batch.conversationId == sys.store.conversationId
    requires AllFine(world) && Brisk(world) ==> HoldsUntil(sys, w, sys.store.clock)
    requires now == world.clock(1) && (AllFine(world) ==> fault.Fine?)
    ensures Progress(Step(sys, Plan(w, world.plan, now, fault)), w, 0, token, world)
    ensures Step(sys, Plan(w, world.plan, now, fault)).issued == sys.issued
  {
    assert WorkerAt(sys, w);
  }

  lemma StumbleProgress(sys: Sys, w: nat, i: nat, token: string, world: World, now: int, fault: Fault)
    requires Spoken(sys, w, i, token, world, sys.store.clock) && i < |world.plan| && Silent(world.lines[i])
    requires now == world.clock(2 + i) && (AllFine(world) ==> fault.Fine?)
    ensures Progress(Step(sys, Stumble(w, now, fault)), w, i + 1, token, world)
    ensures Step(sys, Stumble(w, now, fault)).issued == sys.issued
  {
    var b := sys.workers[w].batch;
    ToldStays(b, Converged(b).(updatedAt := now), world);
  }

  lemma SpeakProgress(sys: Sys, e: Event, i: nat, token: string, world: World)
    requires e.Speak? && Enabled(sys, e) && Spoken(sys, e.worker, i, token, world, sys.store.clock) && i < |world.plan|
    requires !Silent(world.lines[i]) && e.text == TrimSpace(world.lines[i].value)
    requires e.turnId == world.lineIds[i] && e.now == world.clock(2 + i)
    requires (e.displayName, e.avatarUrl) == world.face(world.plan[i])
    requires AllFine(world) ==> e.fault.Fine?
    ensures Progress(StepSpeak(sys, e), e.worker, i + 1, token, world)
    ensures StepSpeak(sys, e).issued == sys.issued + {e.turnId}
  {
    SpeakLeaves(sys, e);
    if StepSpeak(sys, e).workers[e.worker].phase.Speaking? {
      ToldGrows(sys.workers[e.worker].batch, Appended(sys, e), world);
    }
  }

  lemma FinishProgress(sys: Sys, w: nat, token: string, world: World, now: int, fault: Fault)
    requires Spoken(sys, w, |world.plan|, token, world, sys.store.clock)
    requires now == world.clock(2 + |world.plan|) && (AllFine(world) ==> fault.Fine?)
    ensures Progress(Step(sys, Finish(w, now, fault)), w, |world.plan| + 1, token, world)
    ensures !Step(sys, Finish(w, now, fault)).workers[w].phase.Speaking?
  {
    var b := sys.workers[w].batch;
    ToldStays(b, b.(status := Complete, updatedAt := now), world);
  }

  // The worker after its own append.
  lemma SpeakLeaves(sys: Sys, e: Event)
    requires e.Speak? && Enabled(sys, e)
    ensures var (worker, next) := (sys.workers[e.worker], StepSpeak(sys, e).workers[e.worker]);
      && next.began == worker.began && next.token == worker.token
      && (next.phase.Speaking? ==> next.batch == Appended(sys, e))
      && (next.phase.Speaking? || next.phase.Unwinding?)
      && (next.phase.Unwinding? && e.fault.Fine? ==> next.phase.failure == LeaseLost)
  {
    if HoldsLease(sys.store, sys.workers[e.worker].token) && e.fault.Fine? {
      SpeakWrites(sys, e);
    }
  }
}

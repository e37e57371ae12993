/** The daily quota ledger: one flat Redis hash per user and Beijing day, holding three counters next to
    one field per request. SHA-256 is taken to be injective, so a request field carries its request id. */
module DailyQuota {

  datatype RequestState = Reserved | Delivered
  datatype Cell = Num(n: int) | Text(state: RequestState)
  datatype Outcome = Pending | AsDelivered | AsFailed
  datatype Source = Current | Previous | Exhausted
  datatype ReserveReply = ReserveReply(accepted: bool, used: int, source: Source, revision: int)
  datatype SettleReply = SettleReply(used: int, revision: int)

  type Fields = map<string, Cell>

  const RESERVED := "reserved"
  const COMMITTED := "committed"
  const REVISION := "revision"
  const COUNTERS: set<string> := {RESERVED, COMMITTED, REVISION}

  function RequestField(requestId: string): string {
    "request:" + requestId
  }

  predicate IsRequestField(field: string) {
    |field| >= 8 && field[..8] == "request:"
  }

  // HGET of a counter field, a missing one reading as zero.
  function Counter(h: Fields, name: string): int {
    if name in h && h[name].Num? then h[name].n else 0
  }

  // HINCRBY.
  function Bump(h: Fields, name: string, delta: int): Fields {
    h[name := Num(Counter(h, name) + delta)]
  }

  function Used(h: Fields): int {
    Counter(h, COMMITTED) + Counter(h, RESERVED)
  }

  function ReserveScript(current: Fields, previous: Fields, field: string, limit: int): (Fields, ReserveReply) {
    if field in current then
      (current, ReserveReply(true, Used(current), Current, Counter(current, REVISION)))
    else if field in previous then
      (current, ReserveReply(true, Used(current), Previous, Counter(current, REVISION)))
    else if Used(current) >= limit then
      (current, ReserveReply(false, Used(current), Exhausted, Counter(current, REVISION)))
    else
      var after := Bump(Bump(current[field := Text(Reserved)], RESERVED, 1), REVISION, 1);
      (after, ReserveReply(true, Used(after), Current, Counter(after, REVISION)))
  }

  function SettledFields(h: Fields, field: string, outcome: Outcome): Fields {
    if field in h && h[field] == Text(Reserved) && outcome.AsDelivered? then
      Bump(Bump(Bump(h, RESERVED, -1), COMMITTED, 1)[field := Text(Delivered)], REVISION, 1)
    else if field in h && h[field] == Text(Reserved) && outcome.AsFailed? then
      Bump(Bump(h, RESERVED, -1) - {field}, REVISION, 1)
    else
      h
  }

  function SettleScript(h: Fields, field: string, outcome: Outcome): (Fields, SettleReply) {
    var after := SettledFields(h, field, outcome);
    var reserved := if Counter(after, RESERVED) < 0 then 0 else Counter(after, RESERVED);
    (after, SettleReply(Counter(after, COMMITTED) + reserved, Counter(after, REVISION)))
  }

  // ---- The invariant of one hash ----

  function InState(h: Fields, state: RequestState): set<string> {
    set f | f in h && h[f] == Text(state)
  }

  /** Counter fields hold numbers, every other field is a request field holding a state. */
  ghost predicate Typed(h: Fields) {
    forall f :: f in h ==> if f in COUNTERS then h[f].Num? else h[f].Text? && IsRequestField(f)
  }

  ghost predicate Consistent(h: Fields, limit: int) {
    && Typed(h)
    && Counter(h, RESERVED) == |InState(h, Reserved)|
    && Counter(h, COMMITTED) == |InState(h, Delivered)|
    && Used(h) <= limit
  }

  // ---- The ledger the hash stands for ----

  function Requests(h: Fields): map<string, RequestState> {
    map f | f in h && h[f].Text? :: h[f].state
  }

  function LedgerReserve(m: map<string, RequestState>, previous: set<string>, field: string, limit: int)
    : map<string, RequestState>
  {
    if field in m || field in previous || |m| >= limit then m else m[field := Reserved]
  }

  function LedgerSettle(m: map<string, RequestState>, field: string, outcome: Outcome): map<string, RequestState> {
    if field !in m || m[field] != Reserved then m
    else match outcome
      case Pending => m
      case AsDelivered => m[field := Delivered]
      case AsFailed => m - {field}
  }

  lemma RequestFieldsAreNotCounters(field: string)
    requires IsRequestField(field)
    ensures field !in COUNTERS
  {
    assert field[2] == field[..8][2] == 'q';
    assert RESERVED[2] == 's' && COMMITTED[2] == 'm' && REVISION[2] == 'v';
  }

  lemma RequestFieldIsInjective(a: string, b: string)
    ensures RequestField(a) == RequestField(b) <==> a == b
    ensures IsRequestField(RequestField(a))
  {
    assert RequestField(a)[8..] == a && RequestField(b)[8..] == b;
  }

  /** The two counters together are the number of requests on the ledger. */
  lemma UsedCountsRequests(h: Fields, limit: int)
    requires Consistent(h, limit)
    ensures Used(h) == |Requests(h)| <= limit
  {
    var r, d := InState(h, Reserved), InState(h, Delivered);
    assert r !! d;
    forall f ensures f in Requests(h) <==> f in r + d {
      if f in h && h[f].Text? {
        match h[f].state
        case Reserved => assert f in InState(h, Reserved);
        case Delivered => assert f in InState(h, Delivered);
      }
    }
    assert Requests(h).Keys == r + d;
    assert |Requests(h)| == |Requests(h).Keys|;
  }

  lemma ReserveKeepsTyped(current: Fields, previous: Fields, field: string, limit: int)
    requires Typed(current) && IsRequestField(field)
    ensures Typed(ReserveScript(current, previous, field, limit).0)
  {
    RequestFieldsAreNotCounters(field);
  }

  lemma ReserveKeepsConsistent(current: Fields, previous: Fields, field: string, limit: int)
    requires Consistent(current, limit) && IsRequestField(field)
    ensures Consistent(ReserveScript(current, previous, field, limit).0, limit)
  {
    RequestFieldsAreNotCounters(field);
    var after := ReserveScript(current, previous, field, limit).0;
    if after != current {
      ReserveKeepsTyped(current, previous, field, limit);
      assert InState(after, Reserved) == InState(current, Reserved) + {field};
      assert InState(after, Delivered) == InState(current, Delivered);
    }
  }

  lemma ReservedRequests(current: Fields, previous: Fields, field: string, limit: int)
    requires Consistent(current, limit) && Typed(previous) && IsRequestField(field)
    ensures Requests(ReserveScript(current, previous, field, limit).0) ==
      LedgerReserve(Requests(current), Requests(previous).Keys, field, limit)
  {
    RequestFieldsAreNotCounters(field);
    UsedCountsRequests(current, limit);
  }

  /** Forward simulation: the flat script is the abstract reservation, and its reply reports the new ledger. */
  lemma ReserveRefines(current: Fields, previous: Fields, field: string, limit: int)
    requires Consistent(current, limit) && Typed(previous) && IsRequestField(field)
    ensures var (after, reply) := ReserveScript(current, previous, field, limit);
      && Requests(after) == LedgerReserve(Requests(current), Requests(previous).Keys, field, limit)
      && reply.used == |Requests(after)| <= limit
      && (reply.accepted <==> field in Requests(after) || field in Requests(previous))
      && (reply.source.Previous? <==> field !in Requests(current) && field in Requests(previous))
      && (reply.source.Exhausted? <==> !reply.accepted)
  {
    RequestFieldsAreNotCounters(field);
    UsedCountsRequests(current, limit);
    ReservedRequests(current, previous, field, limit);
    ReserveKeepsConsistent(current, previous, field, limit);
    var after := ReserveScript(current, previous, field, limit).0;
    UsedCountsRequests(after, limit);
    assert field in current <==> field in Requests(current);
    assert field in previous <==> field in Requests(previous);
  }

  lemma SettledStates(h: Fields, field: string, outcome: Outcome)
    requires Typed(h) && field in h && h[field] == Text(Reserved) && !outcome.Pending? && IsRequestField(field)
    ensures var after := SettledFields(h, field, outcome);
      && InState(after, Reserved) == InState(h, Reserved) - {field}
      && InState(after, Delivered) == InState(h, Delivered) + (if outcome.AsDelivered? then {field} else {})
  {
    RequestFieldsAreNotCounters(field);
  }

  lemma SettleKeepsTyped(h: Fields, field: string, outcome: Outcome)
    requires Typed(h) && IsRequestField(field)
    ensures Typed(SettledFields(h, field, outcome))
  {
    RequestFieldsAreNotCounters(field);
  }

  lemma SettleKeepsConsistent(h: Fields, field: string, outcome: Outcome, limit: int)
    requires Consistent(h, limit) && IsRequestField(field)
    ensures Consistent(SettledFields(h, field, outcome), limit)
  {
    RequestFieldsAreNotCounters(field);
    if field in h && h[field] == Text(Reserved) && !outcome.Pending? {
      SettledStates(h, field, outcome);
      var after := SettledFields(h, field, outcome);
      assert field in InState(h, Reserved) && field !in InState(h, Delivered);
      SettleKeepsTyped(h, field, outcome);
    }
  }

  lemma SettledRequests(h: Fields, field: string, outcome: Outcome)
    requires Typed(h) && IsRequestField(field)
    ensures Requests(SettledFields(h, field, outcome)) == LedgerSettle(Requests(h), field, outcome)
  {
    RequestFieldsAreNotCounters(field);
  }

  /** Forward simulation for settlement; the clamp on a negative `reserved` never fires. */
  lemma SettleRefines(h: Fields, field: string, outcome: Outcome, limit: int)
    requires Consistent(h, limit) && IsRequestField(field)
    ensures var (after, reply) := SettleScript(h, field, outcome);
      && Requests(after) == LedgerSettle(Requests(h), field, outcome)
      && Counter(after, RESERVED) >= 0
      && reply.used == |Requests(after)| <= limit
  {
    SettledRequests(h, field, outcome);
    SettleKeepsConsistent(h, field, outcome, limit);
    UsedCountsRequests(SettledFields(h, field, outcome), limit);
  }
}

/** The quota manager over all users and days: which hash a call reads, when a hash expires, and the
    Redis-backed manager object. A missing or expired key reads as an empty hash. */
module QuotaManager {
  import opened Wrappers
  import opened BeijingClock
  import opened DailyQuota
  import opened GoText

  datatype LedgerKey = LedgerKey(user: string, day: int)
  datatype Ledger = Ledger(fields: Fields, expiresAt: int)
  type Book = map<LedgerKey, Ledger>

  datatype Subject = Subject(userId: string, isAdmin: bool)
  datatype Snapshot = Unlimited | Limited(limit: int, used: int, remaining: int, resetAt: int, revision: int)
  datatype Reservation =
    | NoReservation
    | Boundless(subject: Subject)
    | OnLedger(subject: Subject, key: LedgerKey, field: string, expiresAt: int)
  datatype QuotaError = InvalidReservation | QuotaExhausted(snapshot: Snapshot)

  // window: the ledger of an instant, its reset and its expiry.
  function WindowOf(user: string, now: int): (LedgerKey, int, int) {
    var day := DayOf(now);
    (LedgerKey(user, day), StartOf(day + 1), StartOf(day + 2))
  }

  function Live(book: Book, key: LedgerKey, now: int): Fields {
    if key in book && now < book[key].expiresAt then book[key].fields else map[]
  }

  // HSET/EXPIREAT on a key; an expiry that is not in the future removes it.
  function Store(book: Book, key: LedgerKey, fields: Fields, expiresAt: int): Book {
    book[key := Ledger(fields, expiresAt)]
  }

  function LimitedSnapshot(limit: int, used: int, revision: int, resetAt: int): Snapshot {
    var shown := if used < 0 then 0 else used;
    var remaining := if limit - shown < 0 then 0 else limit - shown;
    Limited(limit, shown, remaining, resetAt, revision)
  }

  function ReserveOn(book: Book, limit: int, user: string, requestId: string, now: int): (Book, ReserveReply) {
    var (key, _, expiresAt) := WindowOf(user, now);
    var (previousKey, _, previousExpiresAt) := WindowOf(user, now - DAY_MS);
    var previous := Live(book, previousKey, now);
    var (after, reply) := ReserveScript(Live(book, key, now), previous, RequestField(requestId), limit);
    match reply.source
    case Current => (Store(book, key, after, expiresAt), reply)
    case Previous => (Store(book, previousKey, previous, previousExpiresAt), reply)
    case Exhausted => (book, reply)
  }

  function ReservedKey(user: string, now: int, source: Source): LedgerKey {
    WindowOf(user, if source.Previous? then now - DAY_MS else now).0
  }

  function SettleOn(book: Book, key: LedgerKey, field: string, outcome: Outcome, expiresAt: int, now: int): Book {
    var live := Live(book, key, now);
    if live == map[] then book else Store(book, key, SettledFields(live, field, outcome), expiresAt)
  }

  function CurrentSnapshot(book: Book, limit: int, user: string, now: int): Snapshot {
    var (key, resetAt, _) := WindowOf(user, now);
    LimitedSnapshot(limit, Used(Live(book, key, now)), Counter(Live(book, key, now), REVISION), resetAt)
  }

  /** Every stored ledger is consistent and lives exactly until the end of the following day. */
  ghost predicate BookOk(book: Book, limit: int) {
    forall key :: key in book ==> Consistent(book[key].fields, limit) && book[key].expiresAt == StartOf(key.day + 2)
  }

  ghost predicate UpTo(book: Book, day: int) {
    forall key :: key in book ==> key.day <= day
  }

  ghost predicate Holds(book: Book, key: LedgerKey, field: string) {
    key in book && field in book[key].fields
  }

  function StateOf(book: Book, key: LedgerKey, field: string): Option<Cell> {
    if key in book then Get(book[key].fields, field) else None
  }

  /** No request is on the ledgers of two adjacent days. */
  ghost predicate ChargedOnce(book: Book) {
    forall user, day, field :: IsRequestField(field) && Holds(book, LedgerKey(user, day), field) ==>
      !Holds(book, LedgerKey(user, day + 1), field)
  }

  /** The window one day back is the preceding Beijing day, and its ledger is never expired when it is consulted. */
  lemma PreviousWindowIsAlive(user: string, now: int)
    ensures WindowOf(user, now - DAY_MS).0 == LedgerKey(user, DayOf(now) - 1)
    ensures WindowOf(user, now - DAY_MS).2 == StartOf(DayOf(now) + 1) > now
    ensures WindowOf(user, now).2 > now
  {
    DayIsInterval(now, DayOf(now));
    DayIsInterval(now - DAY_MS, DayOf(now) - 1);
  }

  /** A ledger is reset at the first Beijing midnight, in the zone eight hours ahead, after the call. */
  lemma ResetIsTheNextMidnight(book: Book, limit: int, user: string, now: int)
    ensures var resetAt := CurrentSnapshot(book, limit, user, now).resetAt;
      && now < resetAt <= now + 86_400_000 && (resetAt + 28_800_000) % 86_400_000 == 0
      && (forall day :: now < StartOf(day) <==> resetAt <= StartOf(day))
      && WindowOf(user, now) == (LedgerKey(user, DayOf(resetAt) - 1), resetAt, resetAt + 86_400_000)
  {
    DayIsInterval(now, DayOf(now));
    DayIsInterval(StartOf(DayOf(now) + 1), DayOf(now) + 1);
  }

  lemma EmptyIsConsistent(limit: int)
    requires limit >= 0
    ensures Consistent(map[], limit)
  {
    assert InState(map[], Reserved) == {} && InState(map[], Delivered) == {};
  }

  lemma LiveIsConsistent(book: Book, limit: int, key: LedgerKey, now: int)
    requires BookOk(book, limit) && limit >= 0
    ensures Consistent(Live(book, key, now), limit)
  {
    EmptyIsConsistent(limit);
  }

  lemma ReserveOnKeepsOk(book: Book, limit: int, user: string, requestId: string, now: int)
    requires BookOk(book, limit) && limit >= 0
    ensures BookOk(ReserveOn(book, limit, user, requestId, now).0, limit)
  {
    var (key, _, _) := WindowOf(user, now);
    var (previousKey, _, _) := WindowOf(user, now - DAY_MS);
    PreviousWindowIsAlive(user, now);
    LiveIsConsistent(book, limit, key, now);
    LiveIsConsistent(book, limit, previousKey, now);
    RequestFieldIsInjective(requestId, requestId);
    ReserveKeepsConsistent(Live(book, key, now), Live(book, previousKey, now), RequestField(requestId), limit);
  }

  lemma SettleOnKeepsOk(book: Book, limit: int, key: LedgerKey, field: string, outcome: Outcome, now: int)
    requires BookOk(book, limit) && limit >= 0 && IsRequestField(field)
    ensures BookOk(SettleOn(book, key, field, outcome, StartOf(key.day + 2), now), limit)
  {
    LiveIsConsistent(book, limit, key, now);
    SettleKeepsConsistent(Live(book, key, now), field, outcome, limit);
  }

  // A reservation adds at most its own request, to the current ledger, when the previous one lacks it.
  lemma ReserveAddsOnlyItsRequest(book: Book, limit: int, user: string, requestId: string, now: int, key: LedgerKey,
      field: string)
    requires BookOk(book, limit) && IsRequestField(field)
    requires Holds(ReserveOn(book, limit, user, requestId, now).0, key, field) && !Holds(book, key, field)
    ensures key == LedgerKey(user, DayOf(now)) && field == RequestField(requestId)
    ensures !Holds(book, LedgerKey(user, DayOf(now) - 1), field)
  {
    PreviousWindowIsAlive(user, now);
    RequestFieldsAreNotCounters(field);
  }

  lemma ReserveOnKeepsChargedOnce(book: Book, limit: int, user: string, requestId: string, now: int)
    requires BookOk(book, limit) && limit >= 0 && ChargedOnce(book) && UpTo(book, DayOf(now))
    ensures var after := ReserveOn(book, limit, user, requestId, now).0;
      ChargedOnce(after) && UpTo(after, DayOf(now))
  {
    PreviousWindowIsAlive(user, now);
    var after := ReserveOn(book, limit, user, requestId, now).0;
    forall u, day, field | IsRequestField(field) && Holds(after, LedgerKey(u, day), field)
      ensures !Holds(after, LedgerKey(u, day + 1), field)
    {
      if Holds(after, LedgerKey(u, day + 1), field) {
        if !Holds(book, LedgerKey(u, day), field) {
          ReserveAddsOnlyItsRequest(book, limit, user, requestId, now, LedgerKey(u, day), field);
        }
        if !Holds(book, LedgerKey(u, day + 1), field) {
          ReserveAddsOnlyItsRequest(book, limit, user, requestId, now, LedgerKey(u, day + 1), field);
        }
      }
    }
  }

  lemma SettleAddsNothing(book: Book, key: LedgerKey, settled: string, outcome: Outcome, now: int, other: LedgerKey,
      field: string)
    requires IsRequestField(settled) && IsRequestField(field)
    requires Holds(SettleOn(book, key, settled, outcome, StartOf(key.day + 2), now), other, field)
    ensures Holds(book, other, field)
  {
    RequestFieldsAreNotCounters(field);
  }

  lemma SettleOnKeepsChargedOnce(book: Book, key: LedgerKey, settled: string, outcome: Outcome, now: int)
    requires ChargedOnce(book) && UpTo(book, DayOf(now)) && IsRequestField(settled)
    ensures var after := SettleOn(book, key, settled, outcome, StartOf(key.day + 2), now);
      ChargedOnce(after) && UpTo(after, DayOf(now))
  {
    var after := SettleOn(book, key, settled, outcome, StartOf(key.day + 2), now);
    forall u, day, field | IsRequestField(field) && Holds(after, LedgerKey(u, day), field)
      ensures !Holds(after, LedgerKey(u, day + 1), field)
    {
      SettleAddsNothing(book, key, settled, outcome, now, LedgerKey(u, day), field);
      if Holds(after, LedgerKey(u, day + 1), field) {
        SettleAddsNothing(book, key, settled, outcome, now, LedgerKey(u, day + 1), field);
      }
    }
  }

  /** What a settlement replies about the current day's ledger is a snapshot of it. */
  lemma SettleReplyIsSnapshot(book: Book, limit: int, user: string, field: string, outcome: Outcome, now: int)
    requires BookOk(book, limit) && limit >= 0 && IsRequestField(field)
    ensures var (key, resetAt, expiresAt) := WindowOf(user, now);
      var reply := SettleScript(Live(book, key, now), field, outcome).1;
      LimitedSnapshot(limit, reply.used, reply.revision, resetAt)
        == CurrentSnapshot(SettleOn(book, key, field, outcome, expiresAt, now), limit, user, now)
  {
    var key := WindowOf(user, now).0;
    LiveIsConsistent(book, limit, key, now);
    SettleRefines(Live(book, key, now), field, outcome, limit);
    DayIsInterval(now, DayOf(now));
  }

  // ---- Histories of calls ----

  /** A settlement names any ledger and any request: more than the reservations handed out allow. */
  datatype Call = ReserveCall(user: string, requestId: string, now: int)
    | SettleCall(key: LedgerKey, settled: string, outcome: Outcome, now: int)

  function Perform(book: Book, call: Call, limit: int): Book {
    match call
    case ReserveCall(user, requestId, now) => ReserveOn(book, limit, user, requestId, now).0
    case SettleCall(key, id, outcome, now) => SettleOn(book, key, RequestField(id), outcome, StartOf(key.day + 2), now)
  }

  function BookAfter(calls: seq<Call>, limit: int): Book {
    if calls == [] then map[] else Perform(BookAfter(calls[..|calls| - 1], limit), calls[|calls| - 1], limit)
  }

  ghost predicate CallDaysNeverGoBack(calls: seq<Call>) {
    forall i, j :: 0 <= i < j < |calls| ==> DayOf(calls[i].now) <= DayOf(calls[j].now)
  }

  lemma PerformKeepsOk(book: Book, call: Call, limit: int)
    requires BookOk(book, limit) && limit >= 0
    ensures BookOk(Perform(book, call, limit), limit)
  {
    match call
    case ReserveCall(user, id, now) => ReserveOnKeepsOk(book, limit, user, id, now);
    case SettleCall(key, id, outcome, now) =>
      RequestFieldIsInjective(id, id);
      SettleOnKeepsOk(book, limit, key, RequestField(id), outcome, now);
  }

  /** Safety over every history of calls by every user, in any order of instants. */
  lemma {:induction false} EveryBookIsOk(calls: seq<Call>, limit: int)
    requires limit >= 0
    ensures BookOk(BookAfter(calls, limit), limit)
  {
    if calls != [] {
      var before := calls[..|calls| - 1];
      EveryBookIsOk(before, limit);
      PerformKeepsOk(BookAfter(before, limit), calls[|calls| - 1], limit);
    }
  }

  lemma PerformKeepsChargedOnce(book: Book, call: Call, limit: int)
    requires BookOk(book, limit) && limit >= 0 && ChargedOnce(book) && UpTo(book, DayOf(call.now))
    ensures ChargedOnce(Perform(book, call, limit)) && UpTo(Perform(book, call, limit), DayOf(call.now))
  {
    match call
    case ReserveCall(user, id, now) => ReserveOnKeepsChargedOnce(book, limit, user, id, now);
    case SettleCall(key, id, outcome, now) =>
      RequestFieldIsInjective(id, id);
      SettleOnKeepsChargedOnce(book, key, RequestField(id), outcome, now);
  }

  /** When the Beijing day never goes back, no request is ever on two adjacent days' ledgers. */
  lemma {:induction false} NeverChargedTwiceAcrossMidnight(calls: seq<Call>, limit: int)
    requires limit >= 0 && CallDaysNeverGoBack(calls)
    ensures ChargedOnce(BookAfter(calls, limit))
    ensures calls != [] ==> UpTo(BookAfter(calls, limit), DayOf(calls[|calls| - 1].now))
  {
    if calls != [] {
      var before := calls[..|calls| - 1];
      var call := calls[|calls| - 1];
      NeverChargedTwiceAcrossMidnight(before, limit);
      EveryBookIsOk(before, limit);
      var book := BookAfter(before, limit);
      assert UpTo(book, DayOf(call.now)) by {
        if before != [] {
          assert DayOf(calls[|before| - 1].now) <= DayOf(call.now);
        }
      }
      PerformKeepsChargedOnce(book, call, limit);
    }
  }

  /** A snapshot balances: it shows the number of requests on the current ledger, and nothing is clamped. */
  lemma SnapshotBalances(book: Book, limit: int, user: string, now: int)
    requires BookOk(book, limit) && limit >= 0
    ensures var s := CurrentSnapshot(book, limit, user, now);
      && s.used == |Requests(Live(book, LedgerKey(user, DayOf(now)), now))|
      && s.used + s.remaining == limit
      && s.resetAt > now && s.limit == limit
      && s.revision == Counter(Live(book, LedgerKey(user, DayOf(now)), now), "revision")
  {
    var key := LedgerKey(user, DayOf(now));
    LiveIsConsistent(book, limit, key, now);
    UsedCountsRequests(Live(book, key, now), limit);
    DayIsInterval(now, DayOf(now));
  }

  // ---- The manager ----

  /** NewRedis refuses a missing client, a blank prefix and a limit that is not positive. */
  method NewRedis(client: bool, prefix: string, limit: int) returns (r: Redis?)
    ensures r != null <==> client && !Blank(prefix) && limit > 0
    ensures r != null ==> fresh(r) && r.Valid() && r.limit == limit && r.book == map[]
  {
    if !client || Blank(prefix) || limit <= 0 {
      return null;
    }
    r := new Redis(limit);
  }

  /** The outcomes a settlement may name. */
  function Named(outcome: string): Option<Outcome> {
    if outcome == "pending" then Some(Pending)
    else if outcome == "delivered" then Some(AsDelivered)
    else if outcome == "failed" then Some(AsFailed)
    else None
  }

  class Redis {
    const limit: int
    var book: Book

    ghost predicate Valid()
      reads this
    {
      limit > 0 && BookOk(book, limit)
    }

    constructor (limit: int)
      requires limit > 0
      ensures Valid() && this.limit == limit && book == map[]
    {
      this.limit := limit;
      book := map[];
    }

    // The reserve script, command by command.
    method RunReserve(key: LedgerKey, previousKey: LedgerKey, field: string, expiresAt: int, previousExpiresAt: int,
        now: int)
      returns (reply: ReserveReply)
      modifies this
      ensures var (after, result) :=
        ReserveScript(old(Live(book, key, now)), old(Live(book, previousKey, now)), field, limit);
        && reply == result
        && book == match result.source {
             case Current => Store(old(book), key, after, expiresAt)
             case Previous => Store(old(book), previousKey, old(Live(book, previousKey, now)), previousExpiresAt)
             case Exhausted => old(book)
           }
    {
      var h, previous := Live(book, key, now), Live(book, previousKey, now);
      var committed, reserved, revision := Counter(h, COMMITTED), Counter(h, RESERVED), Counter(h, REVISION);
      if field in h {
        book := Store(book, key, h, expiresAt);
        return ReserveReply(true, committed + reserved, Current, revision);
      }
      if field in previous {
        book := Store(book, previousKey, previous, previousExpiresAt);
        return ReserveReply(true, committed + reserved, Previous, revision);
      }
      if committed + reserved >= limit {
        return ReserveReply(false, committed + reserved, Exhausted, revision);
      }
      h := h[field := Text(Reserved)];
      h := Bump(h, RESERVED, 1);
      reserved := Counter(h, RESERVED);
      h := Bump(h, REVISION, 1);
      revision := Counter(h, REVISION);
      book := Store(book, key, h, expiresAt);
      return ReserveReply(true, Counter(h, COMMITTED) + reserved, Current, revision);
    }

    // The settle script, command by command.
    method RunSettle(key: LedgerKey, field: string, outcome: Outcome, expiresAt: int, now: int)
        returns (reply: SettleReply)
      requires IsRequestField(field)
      modifies this
      ensures book == SettleOn(old(book), key, field, outcome, expiresAt, now)
      ensures reply == SettleScript(old(Live(book, key, now)), field, outcome).1
    {
      RequestFieldsAreNotCounters(field);
      var h := Live(book, key, now);
      var state := Get(h, field);
      var committed, reserved, revision := Counter(h, COMMITTED), Counter(h, RESERVED), Counter(h, REVISION);
      if state == Some(Text(Reserved)) && outcome == AsDelivered {
        h := Bump(h, RESERVED, -1);
        reserved := Counter(h, RESERVED);
        h := Bump(h, COMMITTED, 1);
        committed := Counter(h, COMMITTED);
        h := h[field := Text(Delivered)];
        h := Bump(h, REVISION, 1);
        revision := Counter(h, REVISION);
      } else if state == Some(Text(Reserved)) && outcome == AsFailed {
        h := Bump(h, RESERVED, -1);
        reserved := Counter(h, RESERVED);
        h := h - {field};
        h := Bump(h, REVISION, 1);
        revision := Counter(h, REVISION);
      }
      if h != map[] {
        book := Store(book, key, h, expiresAt);
      }
      if reserved < 0 {
        reserved := 0;
      }
      return SettleReply(committed + reserved, revision);
    }

    method Reserve(subject: Subject, requestId: string, now: int)
        returns (r: Result<(Reservation, Snapshot), QuotaError>)
      requires Valid()
      modifies this
      ensures Valid()
      ensures subject.isAdmin ==> r == Ok((Boundless(subject), Unlimited)) && book == old(book)
      ensures !subject.isAdmin && (Blank(subject.userId) || Blank(requestId)) ==>
        r == Err(InvalidReservation) && book == old(book)
      ensures !subject.isAdmin && !Blank(subject.userId) && !Blank(requestId) ==>
        var (after, reply) := ReserveOn(old(book), limit, subject.userId, requestId, now);
        var snapshot := CurrentSnapshot(after, limit, subject.userId, now);
        var key := ReservedKey(subject.userId, now, reply.source);
        && book == after
        && r == (if reply.accepted
                 then Ok((OnLedger(subject, key, RequestField(requestId), StartOf(key.day + 2)), snapshot))
                 else Err(QuotaExhausted(snapshot)))
        && (reply.accepted ==> RequestField(requestId) in Live(book, key, now))
    {
      if subject.isAdmin {
        return Ok((Boundless(subject), Unlimited));
      }
      if Blank(subject.userId) || Blank(requestId) {
        return Err(InvalidReservation);
      }
      ReserveOnKeepsOk(book, limit, subject.userId, requestId, now);
      PreviousWindowIsAlive(subject.userId, now);
      var (key, resetAt, expiresAt) := WindowOf(subject.userId, now);
      var (previousKey, _, previousExpiresAt) := WindowOf(subject.userId, now - DAY_MS);
      var field := RequestField(requestId);
      var reply := RunReserve(key, previousKey, field, expiresAt, previousExpiresAt, now);
      var snapshot := LimitedSnapshot(limit, reply.used, reply.revision, resetAt);
      if !reply.accepted {
        return Err(QuotaExhausted(snapshot));
      }
      var (reservationKey, reservationExpiry) := (key, expiresAt);
      if reply.source.Previous? {
        reservationKey, reservationExpiry := previousKey, previousExpiresAt;
      }
      return Ok((OnLedger(subject, reservationKey, field, reservationExpiry), snapshot));
    }

    /** Settlement reports the ledger of the current day, also when the reservation belongs to an earlier one. */
    method Settle(reservation: Reservation, outcome: string, now: int) returns (r: Result<Snapshot, QuotaError>)
      requires Valid()
      requires reservation.OnLedger? && !reservation.subject.isAdmin ==>
        && reservation.key.user == reservation.subject.userId
        && IsRequestField(reservation.field) && reservation.expiresAt == StartOf(reservation.key.day + 2)
      modifies this
      ensures Valid()
      ensures reservation.NoReservation? ==> r == Err(InvalidReservation) && book == old(book)
      ensures !reservation.NoReservation? && (reservation.Boundless? || reservation.subject.isAdmin) ==>
        r == Ok(Unlimited) && book == old(book)
      ensures reservation.OnLedger? && !reservation.subject.isAdmin && Named(outcome).None? ==>
        r == Err(InvalidReservation) && book == old(book)
      ensures reservation.OnLedger? && !reservation.subject.isAdmin && Named(outcome).Some? ==>
        && book == SettleOn(old(book), reservation.key, reservation.field, Named(outcome).value,
                            reservation.expiresAt, now)
        && r == Ok(CurrentSnapshot(book, limit, reservation.subject.userId, now))
    {
      if reservation.NoReservation? {
        return Err(InvalidReservation);
      }
      if reservation.Boundless? || reservation.subject.isAdmin {
        return Ok(Unlimited);
      }
      if outcome != "pending" && outcome != "delivered" && outcome != "failed" {
        return Err(InvalidReservation);
      }
      var known := Named(outcome).value;
      SettleOnKeepsOk(book, limit, reservation.key, reservation.field, known, now);
      SettleReplyIsSnapshot(book, limit, reservation.subject.userId, reservation.field, known, now);
      var reply := RunSettle(reservation.key, reservation.field, known, reservation.expiresAt, now);
      var (currentKey, resetAt, _) := WindowOf(reservation.subject.userId, now);
      if currentKey != reservation.key {
        return Ok(CurrentSnapshot(book, limit, reservation.subject.userId, now));
      }
      return Ok(LimitedSnapshot(limit, reply.used, reply.revision, resetAt));
    }
  }
}

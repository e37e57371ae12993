/** The WeChat access token: every manager keeps a local copy on top of one cache shared by all. */
module AccessToken {
  import opened Wrappers

  const SECOND := 1000
  const DEDUCTION_SECONDS := 60
  const COPY_MS := 60 * SECOND

  /** A token as issued: WeChat honours it until `validUntil`. */
  datatype Token = Token(value: string, validUntil: int)

  // A token kept until an instant; a manager's own fields or the cache key.
  datatype Cell = Cell(token: Token, expires: int)

  /** The token endpoint's answer, and what goes wrong at the cache. */
  datatype Answer = Failed | Issued(value: string, expiresIn: int)
  datatype Faults = Faults(get: bool, set_: bool, delete: bool)

  datatype World = World(locals: map<nat, Cell>, cache: Option<Cell>)

  function Live(cell: Option<Cell>, now: int): Option<Token> {
    if cell.Some? && now < cell.value.expires then Some(cell.value.token) else None
  }

  function Fetch(w: World, m: nat, answer: Answer, faults: Faults, now: int): (World, Option<Token>) {
    if answer.Failed? || answer.value == "" then (w, None)
    else
      var token := Token(answer.value, now + answer.expiresIn * SECOND);
      var ttl := (answer.expiresIn - DEDUCTION_SECONDS) * SECOND;
      var cell := Cell(token, now + ttl);
      (World(w.locals[m := cell], if ttl > 0 && !faults.set_ then Some(cell) else w.cache), Some(token))
  }

  function GetStep(w: World, m: nat, answer: Answer, faults: Faults, now: int): (World, Option<Token>) {
    var local := Live(Get(w.locals, m), now);
    var shared := if faults.get then None else Live(w.cache, now);
    if local.Some? then (w, local)
    else if shared.Some? then (w.(locals := w.locals[m := Cell(shared.value, now + COPY_MS)]), shared)
    else Fetch(w, m, answer, faults, now)
  }

  function RefreshStep(w: World, m: nat, answer: Answer, faults: Faults, now: int): (World, Option<Token>) {
    Fetch(World(w.locals - {m}, if faults.delete then w.cache else None), m, answer, faults, now)
  }

  // ---- Safety ----

  /** A local copy never outlives its token; the shared copy ends at least one local copy's time before it. */
  ghost predicate Honest(w: World) {
    && (forall m :: m in w.locals ==> w.locals[m].expires <= w.locals[m].token.validUntil)
    && (w.cache.Some? ==> w.cache.value.expires + COPY_MS <= w.cache.value.token.validUntil)
  }

  datatype Call =
    | GetCall(m: nat, answer: Answer, faults: Faults, now: int)
    | RefreshCall(m: nat, answer: Answer, faults: Faults, now: int)

  function Perform(w: World, c: Call): (World, Option<Token>) {
    match c
    case GetCall(m, answer, faults, now) => GetStep(w, m, answer, faults, now)
    case RefreshCall(m, answer, faults, now) => RefreshStep(w, m, answer, faults, now)
  }

  // The answer is a token that is over when it is issued.
  predicate IssuedDead(c: Call) {
    c.answer.Issued? && c.answer.expiresIn <= 0
  }

  lemma CallsStayHonest(w: World, c: Call)
    requires Honest(w)
    ensures Honest(Perform(w, c).0)
    ensures Perform(w, c).1.Some? ==>
      var token := Perform(w, c).1.value;
      c.now < token.validUntil || (IssuedDead(c) && token == Token(c.answer.value, c.now + c.answer.expiresIn * SECOND))
  {
  }

  function After(calls: seq<Call>): World {
    if calls == [] then World(map[], None) else Perform(After(calls[..|calls| - 1]), calls[|calls| - 1]).0
  }

  /** Over any history of any number of managers sharing the cache, faults of the cache and dead tokens
      included, the only token ever returned when it is no longer valid is one this very call was issued dead. */
  lemma {:induction false} NoStaleToken(calls: seq<Call>, next: Call)
    ensures Honest(After(calls))
    ensures Perform(After(calls), next).1.Some? ==>
      var token := Perform(After(calls), next).1.value;
      next.now < token.validUntil
        || (IssuedDead(next) && token == Token(next.answer.value, next.now + next.answer.expiresIn * SECOND))
  {
    if calls != [] {
      NoStaleToken(calls[..|calls| - 1], calls[|calls| - 1]);
      CallsStayHonest(After(calls[..|calls| - 1]), calls[|calls| - 1]);
    }
    CallsStayHonest(After(calls), next);
  }

  /** The deduction pays for the copy exactly: a copy taken at the cache's last instant is served one
      millisecond before the token ends, and not at its end. */
  lemma DeductionPaysExactly(expiresIn: int, value: string, other: Answer)
    requires expiresIn > DEDUCTION_SECONDS && value != ""
    ensures var none := Faults(false, false, false);
      var end := expiresIn * SECOND;
      var token := Token(value, end);
      var copied := After([GetCall(0, Issued(value, expiresIn), none, 0), GetCall(1, Failed, none, end - COPY_MS - 1)]);
      && Perform(copied, GetCall(1, Failed, none, end - 2)).1 == Some(token)
      && Perform(copied, GetCall(1, Failed, none, end)).1 == None
  {
    var none := Faults(false, false, false);
    var first := GetCall(0, Issued(value, expiresIn), none, 0);
    var second := GetCall(1, Failed, none, expiresIn * SECOND - COPY_MS - 1);
    assert [first, second][..1] == [first] && [first][..0] == [];
    var cell := Cell(Token(value, expiresIn * SECOND), (expiresIn - DEDUCTION_SECONDS) * SECOND);
    assert After([]) == World(map[], None);
    assert After([first]) == World(map[0 := cell], Some(cell));
  }

  /** A refresh serves no copy: it returns the token this very call was issued, or none. The cache is left with that
      token for its time less a minute, if there is any left, and otherwise with nothing, short of a fault. */
  lemma RefreshReturnsTheIssued(w: World, c: Call)
    requires c.RefreshCall?
    ensures if c.answer.Issued? && c.answer.value != ""
      then Perform(w, c).1 == Some(Token(c.answer.value, c.now + c.answer.expiresIn * 1000))
      else Perform(w, c).1 == None
    ensures Perform(w, c).0.cache ==
      if Perform(w, c).1.Some? && c.answer.expiresIn > 60 && !c.faults.set_
      then Some(Cell(Perform(w, c).1.value, c.now + (c.answer.expiresIn - 60) * 1000))
      else if c.faults.delete then w.cache else None
  {
  }

  /** The call is answered with this token. */
  predicate Issues(c: Call, token: Token) {
    c.answer.Issued? && token == Token(c.answer.value, c.now + c.answer.expiresIn * 1000)
  }

  ghost predicate IssuedSince(calls: seq<Call>, i: nat, token: Token) {
    exists j :: i <= j < |calls| && Issues(calls[j], token)
  }

  lemma IssuedByTheLast(calls: seq<Call>, i: nat, token: Token)
    requires i < |calls| && Issues(calls[|calls| - 1], token)
    ensures IssuedSince(calls, i, token)
  {
  }

  lemma IssuedEarlier(calls: seq<Call>, i: nat, token: Token)
    requires calls != [] && IssuedSince(calls[..|calls| - 1], i, token)
    ensures IssuedSince(calls, i, token)
  {
    var before := calls[..|calls| - 1];
    var j :| i <= j < |before| && Issues(before[j], token);
    assert calls[j] == before[j];
  }

  /** The token is the manager's own, the cache's, or issued by the call. */
  predicate Copied(w: World, c: Call, m: nat, token: Token) {
    || Issues(c, token)
    || (m in w.locals && w.locals[m].token == token)
    || (w.cache.Some? && w.cache.value.token == token)
  }

  // What one call leaves in the cache and with a manager is what was there or what it was issued.
  lemma CellsAreKeptOrIssued(w: World, c: Call, m: nat)
    ensures var (after, token) := Perform(w, c);
      && (after.cache.Some? ==> after.cache == w.cache || Issues(c, after.cache.value.token))
      && (m in after.locals ==> Copied(w, c, m, after.locals[m].token))
      && (token.Some? ==> Copied(w, c, c.m, token.value))
      && (c.RefreshCall? && !c.faults.delete ==>
            && (after.cache.Some? ==> Issues(c, after.cache.value.token))
            && (c.m in after.locals ==> Issues(c, after.locals[c.m].token))
            && (token.Some? ==> Issues(c, token.value)))
  {
  }

  /** After a refresh whose delete reached the cache, over any further history: the cache, the manager that refreshed,
      and everything that manager returns hold only tokens issued by the refresh or since. */
  lemma {:induction false} NothingOlderAfterARefresh(calls: seq<Call>, i: nat, m: nat)
    requires i < |calls| && calls[i].RefreshCall? && !calls[i].faults.delete && calls[i].m == m
    ensures After(calls).cache.Some? ==> IssuedSince(calls, i, After(calls).cache.value.token)
    ensures m in After(calls).locals ==> IssuedSince(calls, i, After(calls).locals[m].token)
    ensures var (before, last) := (After(calls[..|calls| - 1]), calls[|calls| - 1]);
      last.m == m && Perform(before, last).1.Some? ==> IssuedSince(calls, i, Perform(before, last).1.value)
  {
    var before, last := calls[..|calls| - 1], calls[|calls| - 1];
    CellsAreKeptOrIssued(After(before), last, m);
    forall token | Issues(last, token) ensures IssuedSince(calls, i, token) {
      IssuedByTheLast(calls, i, token);
    }
    if i < |before| {
      NothingOlderAfterARefresh(before, i, m);
      forall token | IssuedSince(before, i, token) ensures IssuedSince(calls, i, token) {
        IssuedEarlier(calls, i, token);
      }
    }
  }

  // ---- The objects ----

  /** The key in Redis that all managers share. */
  class TokenCache {
    var cell: Option<Cell>

    constructor ()
      ensures cell == None
    {
      cell := None;
    }

    method Read(fault: bool, now: int) returns (token: Option<Token>)
      ensures token == if fault then None else Live(cell, now)
    {
      if fault || cell.None? || now >= cell.value.expires {
        return None;
      }
      return Some(cell.value.token);
    }

    method Set(token: Token, ttl: int, fault: bool, now: int)
      modifies this
      ensures cell == if fault then old(cell) else Some(Cell(token, now + ttl))
    {
      if !fault {
        cell := Some(Cell(token, now + ttl));
      }
    }

    method Delete(fault: bool)
      modifies this
      ensures cell == if fault then old(cell) else None
    {
      if !fault {
        cell := None;
      }
    }
  }

  class TokenManager {
    const cache: TokenCache
    var token: Option<Token>
    var expires: int

    constructor (cache: TokenCache)
      ensures this.cache == cache && token == None
    {
      this.cache, token, expires := cache, None, 0;
    }

    // The part of the world this manager sees, itself being manager 0.
    ghost function Seen(): World
      reads this, cache
    {
      World(if token.Some? then map[0 := Cell(token.value, expires)] else map[], cache.cell)
    }

    method GetToken(answer: Answer, faults: Faults, now: int) returns (r: Option<Token>)
      modifies this, cache
      ensures (Seen(), r) == GetStep(old(Seen()), 0, answer, faults, now)
    {
      if token.Some? && now < expires {
        return token;
      }
      var shared := cache.Read(faults.get, now);
      if shared.Some? {
        token := shared;
        expires := now + COPY_MS;
        assert Seen().locals == old(Seen()).locals[0 := Cell(shared.value, expires)];
        return token;
      }
      r := FetchLocked(answer, faults, now);
    }

    method Refresh(answer: Answer, faults: Faults, now: int) returns (r: Option<Token>)
      modifies this, cache
      ensures (Seen(), r) == RefreshStep(old(Seen()), 0, answer, faults, now)
    {
      token := None;
      expires := 0;
      cache.Delete(faults.delete);
      assert Seen().locals == old(Seen()).locals - {0};
      r := FetchLocked(answer, faults, now);
    }

    method FetchLocked(answer: Answer, faults: Faults, now: int) returns (r: Option<Token>)
      modifies this, cache
      ensures (Seen(), r) == Fetch(old(Seen()), 0, answer, faults, now)
    {
      if answer.Failed? || answer.value == "" {
        return None;
      }
      var ttl := (answer.expiresIn - DEDUCTION_SECONDS) * SECOND;
      token := Some(Token(answer.value, now + answer.expiresIn * SECOND));
      expires := now + ttl;
      if ttl > 0 {
        cache.Set(token.value, ttl, faults.set_, now);
      }
      assert Seen().locals == old(Seen()).locals[0 := Cell(token.value, expires)];
      return token;
    }
  }
}

/** Login sessions: one key per token, and per user a set of those keys that revocation works from.
    Digests of tokens are taken to be injective, so a token stands for its session key. */
module Sessions {
  import opened Wrappers

  datatype Session = Session(user: string, expiresAt: int)
  datatype Index = Index(keys: set<string>, expiresAt: int)
  datatype Store = Store(sessions: map<string, Session>, index: map<string, Index>)

  // GET of a session key.
  function SessionOf(st: Store, key: string, now: int): Option<string> {
    if key in st.sessions && now < st.sessions[key].expiresAt then Some(st.sessions[key].user) else None
  }

  // SMEMBERS of a user's set; an expired set is empty.
  function Members(st: Store, user: string, now: int): set<string> {
    if user in st.index && now < st.index[user].expiresAt then st.index[user].keys else {}
  }

  // MULTI: SET the session, SADD its key, EXPIRE the set.
  function PutSession(st: Store, user: string, key: string, now: int, ttl: int): Store {
    Store(st.sessions[key := Session(user, now + ttl)],
      st.index[user := Index(Members(st, user, now) + {key}, now + ttl)])
  }

  // MULTI: DEL the session and, when its owner was found, SREM its key; a set left empty disappears.
  function DropSession(st: Store, key: string, owner: Option<string>): Store {
    var kept := if owner.Some? && owner.value in st.index then st.index[owner.value].keys - {key} else {};
    Store(st.sessions - {key},
          if owner.None? || owner.value !in st.index then st.index
          else if kept == {} then st.index - {owner.value}
          else st.index[owner.value := st.index[owner.value].(keys := kept)])
  }

  // DEL of the listed sessions and of the user's set.
  function EraseSessions(st: Store, user: string, keys: set<string>): Store {
    Store(st.sessions - keys, st.index - {user})
  }

  /** What one request does to the store. */
  datatype Change =
    | Put(user: string, key: string, now: int)
    | Drop(key: string, owner: Option<string>)
    | EraseAll(user: string, keys: set<string>)

  function ChangeTo(st: Store, change: Change, ttl: int): Store {
    match change
    case Put(user, key, now) => PutSession(st, user, key, now, ttl)
    case Drop(key, owner) => DropSession(st, key, owner)
    case EraseAll(user, keys) => EraseSessions(st, user, keys)
  }

  function Changed(st: Store, changes: seq<Change>, ttl: int): Store {
    if changes == [] then st
    else ChangeTo(Changed(st, changes[..|changes| - 1], ttl), changes[|changes| - 1], ttl)
  }

  // ---- Concurrent requests ----

  /** What a revocation has read: `overtaken` records whether its user has logged in since. */
  datatype Reading = Reading(user: string, keys: set<string>, overtaken: bool)
  datatype System = System(store: Store, readings: map<nat, Reading>)

  /** `Drop` is the second half of a logout, with whatever owner its lookup returned; `Read` and `Erase` are the
      halves of revocation `w`; `Aside` is a step that touches no session. */
  datatype Event =
    | Create(user: string, key: string)
    | Drop(key: string, owner: Option<string>)
    | Read(w: nat, user: string)
    | Erase(w: nat)
    | Aside

  datatype Timed = At(now: int, event: Event)

  function Overtake(readings: map<nat, Reading>, user: string): map<nat, Reading> {
    map w | w in readings :: if readings[w].user == user then readings[w].(overtaken := true) else readings[w]
  }

  function Step(s: System, t: Timed, ttl: int): System {
    match t.event
    case Create(user, key) => System(PutSession(s.store, user, key, t.now, ttl), Overtake(s.readings, user))
    case Drop(key, owner) => s.(store := DropSession(s.store, key, owner))
    case Read(w, user) => s.(readings := s.readings[w := Reading(user, Members(s.store, user, t.now), false)])
    case Erase(w) =>
      if w !in s.readings then s
      else System(EraseSessions(s.store, s.readings[w].user, s.readings[w].keys), s.readings - {w})
    case Aside => s
  }

  function After(run: seq<Timed>, ttl: int): System {
    if run == [] then System(Store(map[], map[]), map[]) else Step(After(run[..|run| - 1], ttl), run[|run| - 1], ttl)
  }

  ghost predicate InOrder(run: seq<Timed>) {
    forall i, j :: 0 <= i < j < |run| ==> run[i].now <= run[j].now
  }

  // The step erases for `user` although the user logged in after the sessions were read.
  predicate ErasesLate(s: System, e: Event, user: string) {
    e.Erase? && e.w in s.readings && s.readings[e.w].user == user && s.readings[e.w].overtaken
  }

  /** No revocation for `user` is overtaken by a login of that user. */
  ghost predicate Unraced(run: seq<Timed>, ttl: int, user: string) {
    forall i :: 0 <= i < |run| ==> !ErasesLate(After(run[..i], ttl), run[i].event, user)
  }

  // ---- The index is complete ----

  predicate Indexed(st: Store, user: string, key: string, now: int) {
    SessionOf(st, key, now) == Some(user) ==>
      user in st.index && key in st.index[user].keys && st.sessions[key].expiresAt <= st.index[user].expiresAt
  }

  /** Every live session of the user is in the user's set, and the set lives at least as long. */
  ghost predicate Complete(st: Store, user: string, now: int) {
    forall key :: Indexed(st, user, key, now)
  }

  ghost predicate TtlBounded(st: Store, now: int, ttl: int) {
    forall key :: key in st.sessions ==> st.sessions[key].expiresAt <= now + ttl
  }

  ghost predicate Covers(st: Store, reading: Reading, user: string, now: int) {
    reading.user == user && !reading.overtaken ==>
      forall key :: SessionOf(st, key, now) == Some(user) ==> key in reading.keys
  }

  ghost predicate Inv(s: System, user: string, now: int, ttl: int) {
    && Complete(s.store, user, now)
    && TtlBounded(s.store, now, ttl)
    && forall w :: w in s.readings ==> Covers(s.store, s.readings[w], user, now)
  }

  lemma TimePasses(s: System, user: string, now: int, later: int, ttl: int)
    requires Inv(s, user, now, ttl) && now <= later
    ensures Inv(s, user, later, ttl)
  {
    forall key
      ensures Indexed(s.store, user, key, later)
    {
      assert Indexed(s.store, user, key, now);
    }
    forall w | w in s.readings
      ensures Covers(s.store, s.readings[w], user, later)
    {
      assert Covers(s.store, s.readings[w], user, now);
    }
  }

  lemma PutKeepsComplete(st: Store, u: string, key: string, now: int, ttl: int, user: string)
    requires Complete(st, user, now) && TtlBounded(st, now, ttl)
    ensures Complete(PutSession(st, u, key, now, ttl), user, now)
  {
    forall k
      ensures Indexed(PutSession(st, u, key, now, ttl), user, k, now)
    {
      assert Indexed(st, user, k, now);
    }
  }

  lemma DropKeepsComplete(st: Store, key: string, owner: Option<string>, user: string, now: int)
    requires Complete(st, user, now)
    ensures Complete(DropSession(st, key, owner), user, now)
  {
    forall k
      ensures Indexed(DropSession(st, key, owner), user, k, now)
    {
      assert Indexed(st, user, k, now);
    }
  }

  /** Deleting what a revocation read leaves a complete index exactly when no live session of its user lies outside. */
  lemma EraseKeepsCompleteIff(st: Store, u: string, keys: set<string>, now: int)
    ensures Complete(EraseSessions(st, u, keys), u, now) <==>
      (forall key :: SessionOf(st, key, now) == Some(u) ==> key in keys)
    ensures forall user :: user != u && Complete(st, user, now) ==> Complete(EraseSessions(st, u, keys), user, now)
  {
    var after := EraseSessions(st, u, keys);
    if Complete(after, u, now) {
      forall key | SessionOf(st, key, now) == Some(u)
        ensures key in keys
      {
        assert Indexed(after, u, key, now);
      }
    }
    forall user | user != u && Complete(st, user, now)
      ensures Complete(after, user, now)
    {
      forall key
        ensures Indexed(after, user, key, now)
      {
        assert Indexed(st, user, key, now);
      }
    }
  }

  lemma StepKeepsInv(s: System, t: Timed, ttl: int, user: string)
    requires Inv(s, user, t.now, ttl) && !ErasesLate(s, t.event, user)
    ensures Inv(Step(s, t, ttl), user, t.now, ttl)
  {
    match t.event
    case Create(u, key) =>
      PutKeepsComplete(s.store, u, key, t.now, ttl, user);
    case Drop(key, owner) =>
      DropKeepsComplete(s.store, key, owner, user, t.now);
    case Read(w, u) =>
      forall key | u == user && SessionOf(s.store, key, t.now) == Some(user)
        ensures key in Members(s.store, user, t.now)
      {
        assert Indexed(s.store, user, key, t.now);
      }
    case Erase(w) =>
      if w in s.readings {
        assert Covers(s.store, s.readings[w], user, t.now);
        EraseKeepsCompleteIff(s.store, s.readings[w].user, s.readings[w].keys, t.now);
      }
    case Aside =>
  }

  /** However requests of all users interleave, the index of a user none of whose revocations was overtaken
      holds every live session of the user, and expires no earlier than any of them. */
  lemma {:induction false} IndexIsComplete(run: seq<Timed>, ttl: int, user: string, now: int)
    requires InOrder(run) && Unraced(run, ttl, user) && (run == [] || run[|run| - 1].now <= now)
    ensures Inv(After(run, ttl), user, now, ttl)
  {
    if run != [] {
      var before, last := run[..|run| - 1], run[|run| - 1];
      forall i | 0 <= i < |before|
        ensures !ErasesLate(After(before[..i], ttl), before[i].event, user)
      {
        assert before[..i] == run[..i];
      }
      IndexIsComplete(before, ttl, user, last.now);
      StepKeepsInv(After(before, ttl), last, ttl, user);
      TimePasses(After(run, ttl), user, last.now, now, ttl);
    }
  }

  // ---- Revocation ----

  // Run `run` revoked the sessions of `user` at step i, not overtaken.
  ghost predicate RevokedAt(run: seq<Timed>, ttl: int, user: string, i: nat) {
    && i < |run| && run[i].event.Erase?
    && run[i].event.w in After(run[..i], ttl).readings
    && After(run[..i], ttl).readings[run[i].event.w].user == user
    && Unraced(run[..i + 1], ttl, user)
  }

  /** After a revocation that no login overtook, whatever else was interleaved with it and whatever follows, a
      token authenticates its user only when a later login issued it. */
  lemma {:induction false} RevokedTokensStayDead(run: seq<Timed>, ttl: int, user: string, i: nat, key: string, now: int)
    requires InOrder(run) && RevokedAt(run, ttl, user, i) && run[|run| - 1].now <= now
    ensures SessionOf(After(run, ttl).store, key, now) == Some(user) ==>
      exists j :: i < j < |run| && run[j].event == Create(user, key)
  {
    var before, last := run[..|run| - 1], run[|run| - 1];
    if i == |run| - 1 {
      RevocationEndsAll(run, ttl, user, key, now);
    } else {
      assert before[..i] == run[..i] && before[..i + 1] == run[..i + 1];
      RevokedTokensStayDead(before, ttl, user, i, key, last.now);
      if SessionOf(After(run, ttl).store, key, now) == Some(user) && last.event != Create(user, key) {
        assert SessionOf(After(before, ttl).store, key, last.now) == Some(user);
        var j :| i < j < |before| && before[j].event == Create(user, key);
        assert run[j].event == Create(user, key);
      }
    }
  }

  lemma RevocationEndsAll(run: seq<Timed>, ttl: int, user: string, key: string, now: int)
    requires InOrder(run) && run != [] && RevokedAt(run, ttl, user, |run| - 1) && run[|run| - 1].now <= now
    ensures SessionOf(After(run, ttl).store, key, now) != Some(user)
  {
    var before, last := run[..|run| - 1], run[|run| - 1];
    assert run[..|run|] == run;
    forall j | 0 <= j < |before|
      ensures !ErasesLate(After(before[..j], ttl), before[j].event, user)
    {
      assert before[..j] == run[..j];
    }
    IndexIsComplete(before, ttl, user, last.now);
    assert !ErasesLate(After(before, ttl), last.event, user);
    ErasedAreDead(After(before, ttl), last, ttl, user, key, now);
  }

  lemma ErasedAreDead(s: System, t: Timed, ttl: int, user: string, key: string, now: int)
    requires Inv(s, user, t.now, ttl) && t.event.Erase? && t.event.w in s.readings && t.now <= now
    requires s.readings[t.event.w].user == user && !s.readings[t.event.w].overtaken
    ensures SessionOf(Step(s, t, ttl).store, key, now) != Some(user)
  {
    assert Covers(s.store, s.readings[t.event.w], user, t.now);
  }

  /** After a logout's second half, whatever owner its lookup had found, a token authenticates only if a later
      login issued it. */
  lemma {:induction false} LoggedOutTokensStayOut(run: seq<Timed>, ttl: int, i: nat, key: string, now: int)
    requires InOrder(run) && i < |run| && run[i].event.Drop? && run[i].event.key == key && run[|run| - 1].now <= now
    ensures SessionOf(After(run, ttl).store, key, now).Some? ==>
      exists j :: i < j < |run| && run[j].event.Create? && run[j].event.key == key
  {
    var before, last := run[..|run| - 1], run[|run| - 1];
    if i < |run| - 1 {
      LoggedOutTokensStayOut(before, ttl, i, key, last.now);
      if SessionOf(After(run, ttl).store, key, now).Some? && !(last.event.Create? && last.event.key == key) {
        var j :| i < j < |before| && before[j].event.Create? && before[j].event.key == key;
        assert run[j].event.key == key;
      }
    }
  }

  /** After a password reset not overtaken by another login, the session it returns is the user's only live one. */
  lemma ResetLeavesOneSession(run: seq<Timed>, ttl: int, user: string, i: nat, token: string, now: int, key: string)
    requires InOrder(run) && RevokedAt(run, ttl, user, i) && ttl > 0
    requires run[|run| - 1] == At(now, Create(user, token))
    requires forall j :: i < j < |run| - 1 ==> !(run[j].event.Create? && run[j].event.user == user)
    ensures SessionOf(After(run, ttl).store, key, now) == Some(user) <==> key == token
  {
    RevokedTokensStayDead(run, ttl, user, i, key, now);
  }

  ghost predicate Listed(st: Store, user: string, key: string) {
    user in st.index && key in st.index[user].keys
  }

  /** Since this login no logout has removed the key from its user's set. */
  ghost predicate ListedBy(run: seq<Timed>, i: nat, user: string, key: string) {
    && i < |run| && run[i].event == Create(user, key)
    && forall j :: i < j < |run| ==> run[j].event != Event.Drop(key, Some(user))
  }

  /** In every run, a user's set holds only keys of that user's logins, none of them logged out since by a logout that
      found the owner. */
  lemma {:induction false} MembersAreNotLoggedOut(run: seq<Timed>, ttl: int, user: string, key: string)
    requires Listed(After(run, ttl).store, user, key)
    ensures exists i: nat :: ListedBy(run, i, user, key)
  {
    var before, last := run[..|run| - 1], run[|run| - 1];
    if last.event == Create(user, key) {
      assert ListedBy(run, |run| - 1, user, key);
    } else {
      MembersAreNotLoggedOut(before, ttl, user, key);
      var i: nat :| ListedBy(before, i, user, key);
      forall j | i < j < |run| ensures run[j].event != Event.Drop(key, Some(user)) {
        assert j < |before| ==> run[j] == before[j];
      }
      assert ListedBy(run, i, user, key);
    }
  }

  ghost predicate LastLogin(run: seq<Timed>, i: nat, user: string) {
    && i < |run| && run[i].event.Create? && run[i].event.user == user
    && forall j :: i < j < |run| ==> !(run[j].event.Create? && run[j].event.user == user)
  }

  /** A user's set expires one session time after the user's last login. */
  lemma {:induction false} IndexExpiresAfterTheLastLogin(run: seq<Timed>, ttl: int, user: string)
    requires user in After(run, ttl).store.index
    ensures exists i: nat :: LastLogin(run, i, user) && After(run, ttl).store.index[user].expiresAt == run[i].now + ttl
  {
    var before, last := run[..|run| - 1], run[|run| - 1];
    if last.event.Create? && last.event.user == user {
      assert LastLogin(run, |run| - 1, user);
    } else {
      IndexExpiresAfterTheLastLogin(before, ttl, user);
      var i: nat :| LastLogin(before, i, user) && After(before, ttl).store.index[user].expiresAt == before[i].now + ttl;
      assert forall j :: i <= j < |before| ==> run[j] == before[j];
      assert LastLogin(run, i, user);
    }
  }

  // ---- The race ----

  /** A live session no set and no reading knows of. */
  ghost predicate Orphan(s: System, key: string, user: string, now: int) {
    && SessionOf(s.store, key, now) == Some(user)
    && (forall u :: u in s.store.index ==> key !in s.store.index[u].keys)
    && (forall w :: w in s.readings ==> key !in s.readings[w].keys)
  }

  function Continue(s: System, run: seq<Timed>, ttl: int): System {
    if run == [] then s else Step(Continue(s, run[..|run| - 1], ttl), run[|run| - 1], ttl)
  }

  predicate Touches(e: Event, key: string) {
    (e.Create? || e.Drop?) && e.key == key
  }

  /** No revocation ever ends an orphan: unless that very token logs out or is issued again, it authenticates
      until its own expiry. */
  lemma {:induction false} OrphansOutliveRevocations(s: System, run: seq<Timed>, ttl: int, key: string, user: string,
      now: int)
    requires Orphan(s, key, user, now)
    requires forall i :: 0 <= i < |run| ==> !Touches(run[i].event, key)
    ensures Orphan(Continue(s, run, ttl), key, user, now)
    ensures Continue(s, run, ttl).store.sessions[key] == s.store.sessions[key]
  {
    if run != [] {
      var before, last := run[..|run| - 1], run[|run| - 1];
      OrphansOutliveRevocations(s, before, ttl, key, user, now);
      assert !Touches(last.event, key);
    }
  }

  /** A login between the two halves of a revocation leaves an orphan. */
  lemma ALoginCanSlipThrough(user: string, key: string, ttl: int)
    requires ttl > 0
    ensures exists run :: InOrder(run) && Orphan(After(run, ttl), key, user, 0)
  {
    var run := [At(0, Read(0, user)), At(0, Create(user, key)), At(0, Erase(0))];
    assert run[..2] == [At(0, Read(0, user)), At(0, Create(user, key))] && run[..2][..1] == [At(0, Read(0, user))];
    var read := After([At(0, Read(0, user))], ttl);
    assert After([], ttl) == System(Store(map[], map[]), map[]);
    assert read == System(Store(map[], map[]), map[0 := Reading(user, {}, false)]);
    var created := Step(read, run[1], ttl);
    assert After(run[..2], ttl) == created;
    assert After(run, ttl) == Step(created, run[2], ttl);
    assert Orphan(After(run, ttl), key, user, 0);
  }

  // ---- The service ----

  /** What can fail in a password reset after its code was accepted. */
  datatype Faults = Faults(hash: bool, update: Fault, read: bool, erase: Fault, create: Fault)
  // A reset gets as far as updating the password, and as far as erasing the sessions.
  predicate Reaches(codeAccepted: bool, account: Option<string>, faults: Faults) {
    codeAccepted && !faults.hash && account.Some?
  }

  predicate Erases(faults: Faults) {
    faults.update.Fine? && !faults.read && !faults.erase.NotApplied?
  }

  datatype ResetOutcome = InvalidCode | Failed | Reset(token: string)

  class Service {
    const ttl: int
    var sessions: map<string, Session>
    var index: map<string, Index>
    var passwords: map<string, string>

    constructor (ttl: int)
      ensures this.ttl == ttl && State() == Store(map[], map[])
    {
      this.ttl, sessions, index, passwords := ttl, map[], map[], map[];
    }

    function State(): Store
      reads this
    {
      Store(sessions, index)
    }

    method CreateSession(user: string, token: string, fault: Fault, now: int) returns (ok: bool)
      modifies this`sessions, this`index
      ensures ok == fault.Fine?
      ensures State() == if fault.NotApplied? then old(State()) else PutSession(old(State()), user, token, now, ttl)
    {
      if fault.NotApplied? {
        return false;
      }
      var keys := if user in index && now < index[user].expiresAt then index[user].keys else {};
      sessions := sessions[token := Session(user, now + ttl)];
      index := index[user := Index(keys + {token}, now + ttl)];
      return fault.Fine?;
    }

    /** The user a token stands for; `known` are the users in the database. */
    method CurrentUser(token: string, known: set<string>, now: int) returns (user: Option<string>)
      ensures user.Some? <==>
        token != "" && SessionOf(State(), token, now).Some? && SessionOf(State(), token, now).value in known
      ensures user.Some? ==> user == SessionOf(State(), token, now)
    {
      if token == "" || token !in sessions || sessions[token].expiresAt <= now || sessions[token].user !in known {
        return None;
      }
      return Some(sessions[token].user);
    }

    /** What other requests do to the sessions in the meantime. */
    method Disturb(changes: seq<Change>)
      modifies this`sessions, this`index
      ensures State() == Changed(old(State()), changes, ttl)
    {
      for i := 0 to |changes|
        invariant State() == Changed(old(State()), changes[..i], ttl)
      {
        assert changes[..i + 1][..i] == changes[..i];
        var next := ChangeTo(State(), changes[i], ttl);
        sessions, index := next.sessions, next.index;
      }
      assert changes[..|changes|] == changes;
    }

    /** The lookup of the owner and the delete are two calls; others act in between. */
    method Logout(token: string, others: seq<Change>, now: int)
      modifies this`sessions, this`index
      ensures State() ==
        if token == "" then old(State())
        else DropSession(Changed(old(State()), others, ttl), token, SessionOf(old(State()), token, now))
    {
      if token == "" {
        return;
      }
      var owner := SessionOf(State(), token, now);
      Disturb(others);
      sessions := sessions - {token};
      if owner.Some? && owner.value in index {
        var kept := index[owner.value].keys - {token};
        if kept == {} {
          index := index - {owner.value};
        } else {
          index := index[owner.value := index[owner.value].(keys := kept)];
        }
      }
    }

    method RevokeAllSessions(user: string, readFault: bool, erase: Fault, now: int) returns (ok: bool)
      modifies this`sessions, this`index
      ensures ok == (!readFault && erase.Fine?)
      ensures State() ==
        if readFault || erase.NotApplied? then old(State())
        else EraseSessions(old(State()), user, Members(old(State()), user, now))
      ensures !readFault && !erase.NotApplied? && Complete(old(State()), user, now) ==>
        forall key :: SessionOf(State(), key, now) != Some(user)
    {
      if readFault || erase.NotApplied? {
        return false;
      }
      var keys := Members(State(), user, now);
      sessions := sessions - keys;
      index := index - {user};
      ok := erase.Fine?;
      forall key | Complete(old(State()), user, now) && SessionOf(old(State()), key, now) == Some(user)
        ensures key in keys
      {
        assert Indexed(old(State()), user, key, now);
      }
    }

    /** `account` is the user of the address, if there is one; the token is a fresh one. A failure after the
        update leaves the new password with whatever sessions were not yet revoked. */
    method ResetPassword(codeAccepted: bool, account: Option<string>, hash: string, token: string, faults: Faults,
        now: int)
      returns (outcome: ResetOutcome)
      requires ttl > 0
      modifies this
      ensures outcome.InvalidCode? <==> !codeAccepted || (!faults.hash && account.None?)
      ensures outcome.Reset? ==> outcome.token == token && account.Some?
      ensures outcome.Reset? <==> codeAccepted && account.Some? && faults == Faults(false, Fine, false, Fine, Fine)
      ensures passwords ==
        if Reaches(codeAccepted, account, faults) && !faults.update.NotApplied?
        then old(passwords)[account.value := hash]
        else old(passwords)
      ensures Reaches(codeAccepted, account, faults) && Erases(faults) ==>
        var revoked := EraseSessions(old(State()), account.value, Members(old(State()), account.value, now));
        State() ==
          if faults.erase.Fine? && !faults.create.NotApplied? then PutSession(revoked, account.value, token, now, ttl)
          else revoked
      ensures !Reaches(codeAccepted, account, faults) || !Erases(faults) ==> State() == old(State())
      ensures outcome.Reset? && Complete(old(State()), account.value, now) ==>
        forall key :: SessionOf(State(), key, now) == Some(account.value) <==> key == token
    {
      if !codeAccepted {
        return InvalidCode;
      }
      if faults.hash {
        return Failed;
      }
      if account.None? {
        return InvalidCode;
      }
      var user := account.value;
      if !faults.update.NotApplied? {
        passwords := passwords[user := hash];
      }
      if !faults.update.Fine? {
        return Failed;
      }
      var revoked := RevokeAllSessions(user, faults.read, faults.erase, now);
      if !revoked {
        return Failed;
      }
      ghost var clean := State();
      var created := CreateSession(user, token, faults.create, now);
      if !created {
        return Failed;
      }
      forall key
        ensures key != token ==> SessionOf(State(), key, now) == SessionOf(clean, key, now)
      {
      }
      return Reset(token);
    }
  }
}

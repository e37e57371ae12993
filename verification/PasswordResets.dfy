/** Password checks, password changes and sessions together: exactly when a password checked before a reset still
    opens a session after it. A stored password is represented by the text it verifies. */
module PasswordResets {
  import opened Identifiers
  import opened Wrappers
  import opened Sessions
  import opened SessionRaces

  /** A login checks a password and, later, issues a session; a reset changes the password and then revokes. All
      other session steps, the session a reset or a registration issues included, are `Plain`. */
  datatype Deed =
    | Check(login: nat, user: string, password: string)
    | Issue(login: nat, key: string)
    | Change(user: string, password: string)
    | Plain(event: Event)

  // The stored password of each user.
  type Stored = map<string, string>

  datatype Moment = Moment(now: int, deed: Deed)

  // The passwords before step n.
  function Passwords(initial: Stored, run: seq<Moment>, n: nat): Stored
    requires n <= |run|
  {
    if n == 0 then initial
    else match run[n - 1].deed
      case Change(user, password) => Passwords(initial, run, n - 1)[user := password]
      case _ => Passwords(initial, run, n - 1)
  }

  predicate Passes(initial: Stored, run: seq<Moment>, n: nat) {
    && n < |run| && run[n].deed.Check?
    && Get(Passwords(initial, run, n), run[n].deed.user) == Some(run[n].deed.password)
  }

  /** The step at which the login passed its check, if it has passed it before step n and issued nothing since. */
  function Ticket(initial: Stored, run: seq<Moment>, n: nat, login: nat): (c: Option<nat>)
    requires n <= |run|
    ensures c.Some? ==> c.value < n && Passes(initial, run, c.value) && run[c.value].deed.login == login
  {
    if n == 0 then None
    else match run[n - 1].deed
      case Check(l, _, _) =>
        if l != login then Ticket(initial, run, n - 1, login)
        else if Passes(initial, run, n - 1) then Some(n - 1) else None
      case Issue(l, _) => if l == login then None else Ticket(initial, run, n - 1, login)
      case _ => Ticket(initial, run, n - 1, login)
  }

  function EventAt(initial: Stored, run: seq<Moment>, n: nat): Event
    requires n < |run|
  {
    match run[n].deed
    case Plain(event) => event
    case Issue(login, key) =>
      var ticket := Ticket(initial, run, n, login);
      if ticket.Some? then Create(run[ticket.value].deed.user, key) else Aside
    case _ => Aside
  }

  /** What the run does to the sessions, step by step. */
  function OnSessions(initial: Stored, run: seq<Moment>): (events: seq<Timed>)
    ensures |events| == |run|
    ensures forall n :: 0 <= n < |run| ==> events[n] == At(run[n].now, EventAt(initial, run, n))
  {
    seq(|run|, n requires 0 <= n < |run| => At(run[n].now, EventAt(initial, run, n)))
  }

  // ---- Which sessions are live ----

  /** Step n ends the session: it logs the key out, or erases what a revocation had read, the key among it. */
  ghost predicate EndsAt(run: seq<Timed>, ttl: int, n: nat, key: string) {
    && n < |run|
    && match run[n].event {
         case Drop(dropped, _) => dropped == key
         case Erase(w) =>
           w in After(run[..n], ttl).readings && key in After(run[..n], ttl).readings[w].keys
         case _ => false
       }
  }

  /** The session issued at step j has not expired, been logged out, or been in what an erase had read. */
  ghost predicate Survives(run: seq<Timed>, ttl: int, j: nat, now: int) {
    && j < |run| && run[j].event.Create? && now < run[j].now + ttl
    && forall n: nat :: j < n ==> !EndsAt(run, ttl, n, run[j].event.key)
  }

  ghost predicate Unended(run: seq<Timed>, ttl: int, j: nat, m: nat, key: string) {
    forall n: nat :: j < n < m ==> !EndsAt(run, ttl, n, key)
  }

  lemma StepKeepsOrEnds(s: System, t: Timed, ttl: int, key: string)
    requires !(t.event.Create? && t.event.key == key)
    ensures var ends := match t.event {
        case Drop(dropped, _) => dropped == key
        case Erase(w) => w in s.readings && key in s.readings[w].keys
        case _ => false
      };
      Get(Step(s, t, ttl).store.sessions, key) == if ends then None else Get(s.store.sessions, key)
  {
  }

  lemma {:induction false} SessionStaysUnlessEnded(run: seq<Timed>, ttl: int, j: nat, m: nat)
    requires FreshKeys(run) && j < m <= |run| && run[j].event.Create?
    ensures var (user, key) := (run[j].event.user, run[j].event.key);
      Get(After(run[..m], ttl).store.sessions, key) ==
        if Unended(run, ttl, j, m, key) then Some(Session(user, run[j].now + ttl)) else None
  {
    if m == j + 1 {
      AfterNext(run, j, ttl);
    } else {
      SessionStaysUnlessEnded(run, ttl, j, m - 1);
      StaysOneMore(run, ttl, j, m - 1, run[j].event.key);
    }
  }

  lemma StaysOneMore(run: seq<Timed>, ttl: int, j: nat, m: nat, key: string)
    requires j < m < |run| && !(run[m].event.Create? && run[m].event.key == key)
    ensures Unended(run, ttl, j, m + 1, key) <==> Unended(run, ttl, j, m, key) && !EndsAt(run, ttl, m, key)
    ensures Get(After(run[..m + 1], ttl).store.sessions, key) ==
      if EndsAt(run, ttl, m, key) then None else Get(After(run[..m], ttl).store.sessions, key)
  {
    AfterNext(run, m, ttl);
    StepKeepsOrEnds(After(run[..m], ttl), run[m], ttl, key);
  }

  /** A session is live exactly while it survives. */
  lemma LiveExactlyWhileItSurvives(run: seq<Timed>, ttl: int, j: nat, now: int)
    requires FreshKeys(run) && j < |run| && run[j].event.Create?
    ensures SessionOf(After(run, ttl).store, run[j].event.key, now) == Some(run[j].event.user) <==>
      Survives(run, ttl, j, now)
  {
    assert run[..|run|] == run;
    SessionStaysUnlessEnded(run, ttl, j, |run|);
    assert Unended(run, ttl, j, |run|, run[j].event.key) <==>
      forall n: nat :: j < n ==> !EndsAt(run, ttl, n, run[j].event.key);
  }

  /** After a revocation that read a complete index at r and erased at i, whatever interleaves with it and whatever
      follows, every live session of the user was issued after the read. */
  lemma {:induction false} LiveWasIssuedAfterTheRead(
      run: seq<Timed>, ttl: int, r: nat, i: nat, m: nat, w: nat, user: string, key: string, now: int)
    requires InOrder(run) && i < m <= |run| && ReadAt(run, r, i, w, user) && run[i].event == Erase(w)
    requires Complete(After(run[..r], ttl).store, user, run[r].now) && run[m - 1].now <= now
    requires SessionOf(After(run[..m], ttl).store, key, now) == Some(user)
    ensures exists j :: r < j < m && run[j].event == Create(user, key)
  {
    if m == i + 1 {
      AfterNext(run, i, ttl);
      ReadingIsKept(run, r, i, w, user, ttl);
      assert run[i - 1].now <= run[i].now;
      LiveWasReadOrIssued(run, r, i, w, user, ttl, key, now);
    } else {
      LiveBeforeOrIssued(run, m, user, ttl, key, now);
      if run[m - 1].event != Create(user, key) {
        assert run[m - 2].now <= run[m - 1].now;
        LiveWasIssuedAfterTheRead(run, ttl, r, i, m - 1, w, user, key, run[m - 1].now);
      }
    }
  }

  // ---- Old passwords ----

  /** Step j issues a session of the user to a login that passed its check before step p. */
  predicate OldIssue(initial: Stored, run: seq<Moment>, p: nat, user: string, j: nat) {
    && j < |run| && run[j].deed.Issue?
    && var ticket := Ticket(initial, run, j, run[j].deed.login);
      ticket.Some? && ticket.value < p && run[ticket.value].deed.user == user
  }

  ghost predicate OldLive(initial: Stored, run: seq<Moment>, ttl: int, p: nat, user: string, j: nat, now: int) {
    && OldIssue(initial, run, p, user, j)
    && SessionOf(After(OnSessions(initial, run), ttl).store, run[j].deed.key, now) == Some(user)
  }

  /** A reset of the user: it changes the password at p, reads the sessions at r and erases them at i. */
  ghost predicate ResetAt(initial: Stored, run: seq<Moment>, p: nat, r: nat, i: nat, w: nat, user: string) {
    && p < r < i < |run| && run[p].deed.Change? && run[p].deed.user == user
    && ReadAt(OnSessions(initial, run), r, i, w, user) && OnSessions(initial, run)[i].event == Erase(w)
  }

  /** The index of the user is complete when the reset reads it. */
  ghost predicate CompleteAt(initial: Stored, run: seq<Moment>, ttl: int, r: nat, user: string)
    requires r < |run|
  {
    Complete(After(OnSessions(initial, run)[..r], ttl).store, user, run[r].now)
  }

  ghost predicate ProperRun(initial: Stored, run: seq<Moment>) {
    InOrder(OnSessions(initial, run)) && FreshKeys(OnSessions(initial, run))
  }

  /** Over every interleaving, a password checked before a reset has a live session after it if and only if a login
      that had passed its check before the change issues a session after the reset has read the index, before or after
      the erase, and that session survives. */
  lemma OldPasswordLivesIff(
      initial: Stored, run: seq<Moment>, ttl: int, p: nat, r: nat, i: nat, w: nat, user: string, now: int)
    requires ProperRun(initial, run) && ResetAt(initial, run, p, r, i, w, user)
    requires CompleteAt(initial, run, ttl, r, user)
    requires run[|run| - 1].now <= now
    ensures (exists j: nat :: OldLive(initial, run, ttl, p, user, j, now)) <==>
      exists j: nat :: r < j && OldIssue(initial, run, p, user, j) && Survives(OnSessions(initial, run), ttl, j, now)
  {
    var events := OnSessions(initial, run);
    assert events[..|run|] == events;
    forall j: nat | OldIssue(initial, run, p, user, j)
      ensures OldLive(initial, run, ttl, p, user, j, now) <==> r < j && Survives(events, ttl, j, now)
    {
      LiveExactlyWhileItSurvives(events, ttl, j, now);
      if OldLive(initial, run, ttl, p, user, j, now) {
        LiveWasIssuedAfterTheRead(events, ttl, r, i, |run|, w, user, run[j].deed.key, now);
        var l :| r < l < |run| && events[l].event == Create(user, run[j].deed.key);
        assert l == j;
      }
    }
  }

  // ---- Shutting old passwords out for good ----

  function Now(run: seq<Moment>): int
    requires run != []
  {
    run[|run| - 1].now
  }

  /** A login that has passed its check before step p and may still issue its session. */
  predicate Pending(initial: Stored, run: seq<Moment>, p: nat, user: string, login: nat) {
    var ticket := Ticket(initial, run, |run|, login);
    ticket.Some? && ticket.value < p && run[ticket.value].deed.user == user
  }

  ghost predicate Continues(initial: Stored, run: seq<Moment>, all: seq<Moment>) {
    run <= all && ProperRun(initial, all)
  }

  /** However the run goes on, no password checked before step p has a live session. */
  ghost predicate ShutOut(initial: Stored, run: seq<Moment>, ttl: int, p: nat, user: string)
    requires run != []
  {
    forall all: seq<Moment>, j: nat, now: int ::
      Continues(initial, run, all) && Now(all) <= now ==> !OldLive(initial, all, ttl, p, user, j, now)
  }

  lemma {:induction false} SamePast(initial: Stored, run: seq<Moment>, all: seq<Moment>, n: nat)
    requires run <= all && n <= |run|
    ensures Passwords(initial, all, n) == Passwords(initial, run, n)
    ensures forall login :: Ticket(initial, all, n, login) == Ticket(initial, run, n, login)
  {
    if n > 0 {
      SamePast(initial, run, all, n - 1);
      assert all[n - 1] == run[n - 1];
    }
  }

  lemma SameEvents(initial: Stored, run: seq<Moment>, all: seq<Moment>)
    requires run <= all
    ensures OnSessions(initial, run) <= OnSessions(initial, all)
  {
    forall n | 0 <= n < |run| ensures OnSessions(initial, all)[n] == OnSessions(initial, run)[n] {
      SamePast(initial, run, all, n);
      assert all[n] == run[n];
    }
  }

  lemma {:induction false} TicketIsOlder(
      initial: Stored, run: seq<Moment>, k: nat, m: nat, login: nat)
    requires k <= m <= |run| && Ticket(initial, run, m, login).Some? && Ticket(initial, run, m, login).value < k
    ensures Ticket(initial, run, k, login) == Ticket(initial, run, m, login)
  {
    if k < m {
      TicketIsOlder(initial, run, k, m - 1, login);
    }
  }

  lemma SurvivedBefore(events: seq<Timed>, all: seq<Timed>, ttl: int, j: nat, now: int, later: int)
    requires events <= all && j < |events| && now <= later && Survives(all, ttl, j, later)
    ensures Survives(events, ttl, j, now)
  {
    assert all[j] == events[j];
    forall n: nat | j < n < |events| ensures !EndsAt(events, ttl, n, events[j].event.key) {
      assert all[..n] == events[..n] && all[n] == events[n];
      assert !EndsAt(all, ttl, n, all[j].event.key);
    }
  }

  lemma OldWasLiveOrPending(
      initial: Stored, run: seq<Moment>, all: seq<Moment>, ttl: int, p: nat, user: string, j: nat, now: int)
    requires run != [] && p <= |run| && ProperRun(initial, run) && Continues(initial, run, all)
    requires Now(all) <= now && OldLive(initial, all, ttl, p, user, j, now)
    ensures if j < |run| then OldLive(initial, run, ttl, p, user, j, Now(run))
      else Pending(initial, run, p, user, all[j].deed.login)
  {
    var events, more := OnSessions(initial, run), OnSessions(initial, all);
    SameEvents(initial, run, all);
    if j < |run| {
      SamePast(initial, run, all, j);
      assert all[j] == run[j];
      assert more[|run| - 1].now <= more[|all| - 1].now;
      LiveExactlyWhileItSurvives(more, ttl, j, now);
      SurvivedBefore(events, more, ttl, j, Now(run), now);
      LiveExactlyWhileItSurvives(events, ttl, j, Now(run));
    } else {
      TicketIsOlder(initial, all, |run|, j, all[j].deed.login);
      SamePast(initial, run, all, |run|);
    }
  }

  function IssuedNext(run: seq<Moment>, login: nat, key: string): seq<Moment>
    requires run != []
  {
    run + [Moment(Now(run), Issue(login, key))]
  }

  // What it does when a login with an old check issues its session next.
  lemma OldIssuesNext(initial: Stored, run: seq<Moment>, p: nat, user: string, login: nat, key: string)
    requires run != [] && p <= |run| && Pending(initial, run, p, user, login)
    ensures var all := IssuedNext(run, login, key);
      && OnSessions(initial, all) == OnSessions(initial, run) + [At(Now(run), Create(user, key))]
      && OldIssue(initial, all, p, user, |run|) && |all| == |run| + 1 && run <= all && Now(all) == Now(run)
  {
    var all := IssuedNext(run, login, key);
    SamePast(initial, run, all, |run|);
    SameEvents(initial, run, all);
    assert OnSessions(initial, all)[|run|] == At(Now(run), Create(user, key));
  }

  lemma UnusedKey(events: seq<Timed>) returns (key: string)
    ensures forall e :: e in events && e.event.Create? ==> e.event.key != key
  {
    var keys := set e | e in events && e.event.Create? :: e.event.key;
    key := FreshId("", keys);
    forall e | e in events && e.event.Create? ensures e.event.key != key {
      assert e.event.key in keys;
    }
  }

  lemma IssuedNextIsProper(initial: Stored, run: seq<Moment>, p: nat, user: string, login: nat, key: string)
    requires run != [] && p <= |run| && ProperRun(initial, run) && Pending(initial, run, p, user, login)
    requires forall e :: e in OnSessions(initial, run) && e.event.Create? ==> e.event.key != key
    ensures Continues(initial, run, IssuedNext(run, login, key))
  {
    OldIssuesNext(initial, run, p, user, login, key);
    ProperWithOneMore(OnSessions(initial, run), At(Now(run), Create(user, key)));
  }

  lemma PendingWillLive(initial: Stored, run: seq<Moment>, ttl: int, p: nat, user: string, login: nat)
    requires run != [] && p <= |run| && ttl > 0 && ProperRun(initial, run) && Pending(initial, run, p, user, login)
    ensures !ShutOut(initial, run, ttl, p, user)
  {
    var key := UnusedKey(OnSessions(initial, run));
    var all := IssuedNext(run, login, key);
    OldIssuesNext(initial, run, p, user, login, key);
    IssuedNextIsProper(initial, run, p, user, login, key);
    LiveAtOnce(initial, all, ttl, p, user, Now(run));
    NotShutOut(initial, run, all, ttl, p, user, |run|, Now(run));
  }

  lemma NotShutOut(
      initial: Stored, run: seq<Moment>, all: seq<Moment>, ttl: int, p: nat, user: string, j: nat, now: int)
    requires run != [] && Continues(initial, run, all) && Now(all) <= now && OldLive(initial, all, ttl, p, user, j, now)
    ensures !ShutOut(initial, run, ttl, p, user)
  {
  }

  lemma ProperWithOneMore(events: seq<Timed>, t: Timed)
    requires InOrder(events) && FreshKeys(events) && t.event.Create?
    requires forall e :: e in events && e.event.Create? ==> e.event.key != t.event.key
    requires events != [] ==> events[|events| - 1].now <= t.now
    ensures InOrder(events + [t]) && FreshKeys(events + [t])
  {
    forall n | 0 <= n < |events| ensures (events + [t])[n] in events && (events + [t])[n].now <= t.now {
      assert events[n].now <= events[|events| - 1].now;
    }
  }

  // What the last step issues to an old login is live at that moment.
  lemma LiveAtOnce(initial: Stored, all: seq<Moment>, ttl: int, p: nat, user: string, now: int)
    requires all != [] && ProperRun(initial, all) && ttl > 0 && Now(all) == now
    requires OldIssue(initial, all, p, user, |all| - 1)
    ensures OldLive(initial, all, ttl, p, user, |all| - 1, now)
  {
    var events := OnSessions(initial, all);
    assert Survives(events, ttl, |all| - 1, now);
    LiveExactlyWhileItSurvives(events, ttl, |all| - 1, now);
  }

  /** At any moment: no continuation ever opens a session to a password checked before step p if and only if none is
      live now and no login that passed its check before is still to issue its session. */
  lemma ShutOutIff(initial: Stored, run: seq<Moment>, ttl: int, p: nat, user: string)
    requires run != [] && p <= |run| && ttl > 0 && ProperRun(initial, run)
    ensures ShutOut(initial, run, ttl, p, user) <==>
      (forall j: nat :: !OldLive(initial, run, ttl, p, user, j, Now(run)))
      && forall login :: !Pending(initial, run, p, user, login)
  {
    if login :| Pending(initial, run, p, user, login) {
      PendingWillLive(initial, run, ttl, p, user, login);
    } else if j: nat :| OldLive(initial, run, ttl, p, user, j, Now(run)) {
      NotShutOut(initial, run, run, ttl, p, user, j, Now(run));
    } else {
      forall all: seq<Moment>, j: nat, now: int | Continues(initial, run, all) && Now(all) <= now
        ensures !OldLive(initial, all, ttl, p, user, j, now)
      {
        if OldLive(initial, all, ttl, p, user, j, now) {
          OldWasLiveOrPending(initial, run, all, ttl, p, user, j, now);
        }
      }
    }
  }

  /** A login checked before the change has issued a session since the read, and the session survived the erase. */
  ghost predicate SlippedThrough(
      initial: Stored, run: seq<Moment>, ttl: int, p: nat, r: nat, i: nat, user: string, j: nat)
    requires run != []
  {
    r < j < i && OldIssue(initial, run, p, user, j) && Survives(OnSessions(initial, run), ttl, j, Now(run))
  }

  lemma LiveSlippedThrough(
      initial: Stored, run: seq<Moment>, ttl: int, p: nat, r: nat, i: nat, w: nat, user: string)
    requires ProperRun(initial, run) && ResetAt(initial, run, p, r, i, w, user) && |run| == i + 1
    requires CompleteAt(initial, run, ttl, r, user)
    ensures (exists j: nat :: OldLive(initial, run, ttl, p, user, j, Now(run))) <==>
      exists j: nat :: SlippedThrough(initial, run, ttl, p, r, i, user, j)
  {
    OldPasswordLivesIff(initial, run, ttl, p, r, i, w, user, Now(run));
    forall j: nat
      ensures r < j && OldIssue(initial, run, p, user, j) && Survives(OnSessions(initial, run), ttl, j, Now(run)) <==>
        SlippedThrough(initial, run, ttl, p, r, i, user, j)
    {
      if j == i {
        assert OnSessions(initial, run)[i].event == EventAt(initial, run, i);
      }
    }
  }

  /** A reset shuts the old passwords out for good if and only if, when it has erased the sessions, no session of a
      login checked before the change has slipped through, and no such login is still to issue its session. */
  lemma ResetShutsOutIff(
      initial: Stored, run: seq<Moment>, ttl: int, p: nat, r: nat, i: nat, w: nat, user: string)
    requires ProperRun(initial, run) && ResetAt(initial, run, p, r, i, w, user) && |run| == i + 1 && ttl > 0
    requires CompleteAt(initial, run, ttl, r, user)
    ensures ShutOut(initial, run, ttl, p, user) <==>
      (forall j: nat :: !SlippedThrough(initial, run, ttl, p, r, i, user, j))
      && forall login :: !Pending(initial, run, p, user, login)
  {
    ShutOutIff(initial, run, ttl, p, user);
    LiveSlippedThrough(initial, run, ttl, p, r, i, w, user);
  }

  // ---- Both gaps ----

  /** The run of a login that passes its check, and of a reset, around the login's session. */
  function Around(user: string, password: string, other: string, key: string, early: bool): seq<Moment> {
    var issue, erase := Moment(0, Issue(1, key)), Moment(0, Plain(Erase(0)));
    [Moment(0, Check(1, user, password)), Moment(0, Change(user, other)), Moment(0, Plain(Read(0, user)))]
      + if early then [issue, erase] else [erase, issue]
  }

  lemma AroundEvents(user: string, password: string, other: string, key: string, early: bool)
    ensures var initial, run := map[user := password], Around(user, password, other, key, early);
      && OnSessions(initial, run) == [At(0, Aside), At(0, Aside), At(0, Read(0, user))]
           + (if early then [At(0, Create(user, key)), At(0, Erase(0))]
              else [At(0, Erase(0)), At(0, Create(user, key))])
      && Passwords(initial, run, 5) == map[user := other]
      && OldIssue(initial, run, 1, user, if early then 3 else 4)
  {
    var initial, run := map[user := password], Around(user, password, other, key, early);
    assert Passes(initial, run, 0);
    assert Ticket(initial, run, 1, 1) == Some(0);
    assert Ticket(initial, run, 2, 1) == Some(0);
    assert Ticket(initial, run, 3, 1) == Some(0);
    assert Passwords(initial, run, 2) == map[user := other];
    assert Passwords(initial, run, 4) == map[user := other];
    if !early {
      assert Ticket(initial, run, 4, 1) == Some(0);
    }
  }

  /** Both happen, before the erase and after it: the login checks the old password, the reset changes it, reads and
      erases, and the old password's session is live although the stored password is another one. */
  lemma AnOldPasswordCanLive(user: string, password: string, other: string, key: string, ttl: int, early: bool)
    requires ttl > 0 && password != other
    ensures var initial, run := map[user := password], Around(user, password, other, key, early);
      && ProperRun(initial, run) && ResetAt(initial, run, 1, 2, if early then 4 else 3, 0, user)
      && CompleteAt(initial, run, ttl, 2, user)
      && Get(Passwords(initial, run, |run|), user) == Some(other)
      && OldLive(initial, run, ttl, 1, user, if early then 3 else 4, 0)
  {
    var initial, run := map[user := password], Around(user, password, other, key, early);
    var events := OnSessions(initial, run);
    AroundEvents(user, password, other, key, early);
    AroundSurvives(events, user, key, ttl, early);
    LiveExactlyWhileItSurvives(events, ttl, if early then 3 else 4, 0);
  }

  lemma AroundSurvives(events: seq<Timed>, user: string, key: string, ttl: int, early: bool)
    requires ttl > 0
    requires events == [At(0, Aside), At(0, Aside), At(0, Read(0, user))]
      + (if early then [At(0, Create(user, key)), At(0, Erase(0))]
         else [At(0, Erase(0)), At(0, Create(user, key))])
    ensures InOrder(events) && FreshKeys(events) && ReadAt(events, 2, if early then 4 else 3, 0, user)
    ensures After(events[..2], ttl) == System(Store(map[], map[]), map[])
    ensures Survives(events, ttl, if early then 3 else 4, 0)
  {
    AfterNext(events, 0, ttl);
    AfterNext(events, 1, ttl);
    var i, j := if early then 4 else 3, if early then 3 else 4;
    assert ReadAt(events, 2, i, 0, user);
    ReadingIsKept(events, 2, i, 0, user, ttl);
    forall n: nat | j < n ensures !EndsAt(events, ttl, n, key) {
    }
  }
}

/** Exactly which logins break the index of a user's sessions: those between the two halves of a revocation whose
    session is still live when the second half runs. */
module SessionRaces {
  import opened Wrappers
  import opened Sessions

  /** Revocation `w` of the user read at r, and has neither read again nor erased before i. */
  ghost predicate ReadAt(run: seq<Timed>, r: nat, i: nat, w: nat, user: string) {
    && r < i <= |run| && run[r].event == Read(w, user)
    && forall n :: r < n < i ==> !Resets(run[n].event, w)
  }

  ghost predicate IssuedBetween(run: seq<Timed>, r: nat, i: nat, user: string, key: string) {
    exists j :: r < j < i && j < |run| && run[j].event == Create(user, key)
  }

  /** Tokens are random: no login issues one a second time. */
  ghost predicate FreshKeys(run: seq<Timed>) {
    forall i, j :: 0 <= i < j < |run| && run[i].event.Create? && run[j].event.Create? ==>
      run[i].event.key != run[j].event.key
  }

  /** When the revocation that read at r erases at i, no session issued in between is live. */
  ghost predicate Clean(run: seq<Timed>, ttl: int, r: nat, i: nat, user: string)
    requires i < |run|
  {
    forall key :: IssuedBetween(run, r, i, user, key) ==>
      SessionOf(After(run[..i], ttl).store, key, run[i].now) != Some(user)
  }

  lemma AfterNext(run: seq<Timed>, n: nat, ttl: int)
    requires n < |run|
    ensures After(run[..n + 1], ttl) == Step(After(run[..n], ttl), run[n], ttl)
  {
    assert run[..n + 1][..n] == run[..n];
  }

  predicate HasReading(s: System, w: nat, user: string, keys: set<string>) {
    w in s.readings && s.readings[w].user == user && s.readings[w].keys == keys
  }

  predicate Resets(e: Event, w: nat) {
    (e.Read? || e.Erase?) && e.w == w
  }

  lemma ReadingsStay(s: System, t: Timed, ttl: int, w: nat, user: string, keys: set<string>)
    requires !Resets(t.event, w)
    ensures HasReading(Step(s, t, ttl), w, user, keys) <==> HasReading(s, w, user, keys)
  {
  }

  lemma ReadingStarts(s: System, t: Timed, ttl: int, w: nat, user: string, keys: set<string>)
    requires Resets(t.event, w)
    ensures HasReading(Step(s, t, ttl), w, user, keys) <==>
      t.event == Read(w, user) && keys == Members(s.store, user, t.now)
  {
  }

  lemma {:induction false} ReadingIsKept(run: seq<Timed>, r: nat, i: nat, w: nat, user: string, ttl: int)
    requires ReadAt(run, r, i, w, user)
    ensures HasReading(After(run[..i], ttl), w, user, Members(After(run[..r], ttl).store, user, run[r].now))
  {
    var keys := Members(After(run[..r], ttl).store, user, run[r].now);
    if i == r + 1 {
      AfterNext(run, r, ttl);
      ReadingStarts(After(run[..r], ttl), run[r], ttl, w, user, keys);
    } else {
      StillRead(run, r, i, w, user);
      ReadingIsKept(run, r, i - 1, w, user, ttl);
      ReadingGoesOn(run, i - 1, w, user, keys, ttl);
    }
  }

  lemma StillRead(run: seq<Timed>, r: nat, i: nat, w: nat, user: string)
    requires ReadAt(run, r, i, w, user) && i > r + 1
    ensures ReadAt(run, r, i - 1, w, user) && !Resets(run[i - 1].event, w)
  {
  }

  lemma ReadingGoesOn(run: seq<Timed>, n: nat, w: nat, user: string, keys: set<string>, ttl: int)
    requires n < |run| && !Resets(run[n].event, w) && HasReading(After(run[..n], ttl), w, user, keys)
    ensures HasReading(After(run[..n + 1], ttl), w, user, keys)
  {
    AfterNext(run, n, ttl);
    ReadingsStay(After(run[..n], ttl), run[n], ttl, w, user, keys);
  }

  lemma {:induction false} ReadingsWereRead(run: seq<Timed>, i: nat, w: nat, user: string, keys: set<string>, ttl: int)
    requires i <= |run| && HasReading(After(run[..i], ttl), w, user, keys)
    ensures exists r :: ReadAt(run, r, i, w, user)
  {
    if i > 0 {
      AfterNext(run, i - 1, ttl);
      if Resets(run[i - 1].event, w) {
        ReadingStarts(After(run[..i - 1], ttl), run[i - 1], ttl, w, user, keys);
        assert ReadAt(run, i - 1, i, w, user);
      } else {
        ReadingsStay(After(run[..i - 1], ttl), run[i - 1], ttl, w, user, keys);
        ReadingsWereRead(run, i - 1, w, user, keys, ttl);
        var r :| ReadAt(run, r, i - 1, w, user);
        assert ReadAt(run, r, i, w, user);
      }
    }
  }

  // A live session was live before the step, or issued by it.
  lemma SessionsComeFromLogins(s: System, t: Timed, ttl: int, key: string, user: string, now: int, later: int)
    requires now <= later && SessionOf(Step(s, t, ttl).store, key, later) == Some(user)
    ensures SessionOf(s.store, key, now) == Some(user) || t.event == Create(user, key)
  {
  }

  lemma LiveBeforeOrIssued(run: seq<Timed>, i: nat, user: string, ttl: int, key: string, now: int)
    requires 0 < i <= |run| && run[i - 1].now <= now && SessionOf(After(run[..i], ttl).store, key, now) == Some(user)
    ensures SessionOf(After(run[..i - 1], ttl).store, key, run[i - 1].now) == Some(user)
      || run[i - 1].event == Create(user, key)
  {
    AfterNext(run, i - 1, ttl);
    SessionsComeFromLogins(After(run[..i - 1], ttl), run[i - 1], ttl, key, user, run[i - 1].now, now);
  }

  lemma LiveIsMember(st: Store, user: string, key: string, now: int)
    requires Complete(st, user, now)
    ensures SessionOf(st, key, now) == Some(user) ==> key in Members(st, user, now)
  {
    assert Indexed(st, user, key, now);
  }

  lemma {:induction false} LiveWasReadOrIssued(run: seq<Timed>, r: nat, i: nat, w: nat, user: string, ttl: int,
      key: string, now: int)
    requires InOrder(run) && ReadAt(run, r, i, w, user) && Complete(After(run[..r], ttl).store, user, run[r].now)
    requires run[i - 1].now <= now && SessionOf(After(run[..i], ttl).store, key, now) == Some(user)
    ensures key in Members(After(run[..r], ttl).store, user, run[r].now) || IssuedBetween(run, r, i, user, key)
  {
    LiveBeforeOrIssued(run, i, user, ttl, key, now);
    if i == r + 1 {
      LiveIsMember(After(run[..r], ttl).store, user, key, run[r].now);
    } else if run[i - 1].event != Create(user, key) {
      assert run[i - 2].now <= run[i - 1].now;
      LiveWasReadOrIssued(run, r, i - 1, w, user, ttl, key, run[i - 1].now);
      if IssuedBetween(run, r, i - 1, user, key) {
        var j :| r < j < i - 1 && run[j].event == Create(user, key);
        assert IssuedBetween(run, r, i, user, key);
      }
    }
  }

  ghost predicate WasIssued(run: seq<Timed>, i: nat, key: string) {
    exists j :: 0 <= j < i && j < |run| && run[j].event.Create? && run[j].event.key == key
  }

  lemma {:induction false} IndexedWereIssued(run: seq<Timed>, i: nat, ttl: int, user: string, key: string)
    requires i <= |run| && user in After(run[..i], ttl).store.index
    requires key in After(run[..i], ttl).store.index[user].keys
    ensures WasIssued(run, i, key)
  {
    AfterNext(run, i - 1, ttl);
    var before := After(run[..i - 1], ttl).store;
    if user in before.index && key in before.index[user].keys {
      IndexedWereIssued(run, i - 1, ttl, user, key);
      var j :| 0 <= j < i - 1 && run[j].event.Create? && run[j].event.key == key;
      assert WasIssued(run, i, key);
    } else {
      assert run[i - 1].event.Create? && run[i - 1].event.key == key;
    }
  }

  /** A revocation of a complete index leaves it complete exactly when no session its user was issued between its
      two halves is still live at the second. */
  lemma RevocationIsCompleteIff(run: seq<Timed>, ttl: int, r: nat, i: nat, w: nat, user: string)
    requires InOrder(run) && FreshKeys(run) && i < |run| && run[i].event == Erase(w) && ReadAt(run, r, i, w, user)
    requires Complete(After(run[..r], ttl).store, user, run[r].now)
    ensures Complete(After(run[..i + 1], ttl).store, user, run[i].now) <==> Clean(run, ttl, r, i, user)
  {
    var before := After(run[..i], ttl);
    var keys := Members(After(run[..r], ttl).store, user, run[r].now);
    ReadingIsKept(run, r, i, w, user, ttl);
    AfterNext(run, i, ttl);
    EraseKeepsCompleteIff(before.store, user, keys, run[i].now);
    forall key | SessionOf(before.store, key, run[i].now) == Some(user)
      ensures key in keys <==> !IssuedBetween(run, r, i, user, key)
    {
      assert run[i - 1].now <= run[i].now;
      LiveWasReadOrIssued(run, r, i, w, user, ttl, key, run[i].now);
      if key in keys {
        IndexedWereIssued(run, r, ttl, user, key);
      }
    }
  }

  // ---- Whole runs ----

  ghost predicate CompleteAfter(run: seq<Timed>, ttl: int, user: string, n: nat) {
    0 < n <= |run| ==> Complete(After(run[..n], ttl).store, user, run[n - 1].now)
  }

  ghost predicate AlwaysComplete(run: seq<Timed>, ttl: int, user: string) {
    forall n: nat :: CompleteAfter(run, ttl, user, n)
  }

  ghost predicate CleanRevocation(run: seq<Timed>, ttl: int, user: string, r: nat, i: nat, w: nat) {
    i < |run| && run[i].event == Erase(w) && ReadAt(run, r, i, w, user) ==> Clean(run, ttl, r, i, user)
  }

  ghost predicate CleanRevocations(run: seq<Timed>, ttl: int, user: string) {
    forall r: nat, i: nat, w: nat :: CleanRevocation(run, ttl, user, r, i, w)
  }

  lemma CompleteLater(st: Store, user: string, now: int, later: int)
    requires Complete(st, user, now) && now <= later
    ensures Complete(st, user, later)
  {
    forall key ensures Indexed(st, user, key, later) {
      assert Indexed(st, user, key, now);
    }
  }

  lemma CompleteBefore(run: seq<Timed>, ttl: int, user: string, n: nat)
    requires InOrder(run) && n < |run| && CompleteAfter(run, ttl, user, n)
    ensures Complete(After(run[..n], ttl).store, user, run[n].now)
  {
    if n > 0 {
      assert run[n - 1].now <= run[n].now;
      CompleteLater(After(run[..n], ttl).store, user, run[n - 1].now, run[n].now);
    }
  }

  lemma {:induction false} SessionsEndInTime(run: seq<Timed>, ttl: int, n: nat)
    requires InOrder(run) && n < |run|
    ensures TtlBounded(After(run[..n], ttl).store, run[n].now, ttl)
  {
    if n > 0 {
      assert run[n - 1].now <= run[n].now;
      SessionsEndInTime(run, ttl, n - 1);
      AfterNext(run, n - 1, ttl);
    }
  }

  lemma {:induction false} CleanRunsStayComplete(run: seq<Timed>, ttl: int, user: string, n: nat)
    requires InOrder(run) && FreshKeys(run) && CleanRevocations(run, ttl, user) && n <= |run|
    ensures forall m: nat :: m <= n ==> CompleteAfter(run, ttl, user, m)
  {
    if n > 0 {
      var t, s := run[n - 1], After(run[..n - 1], ttl);
      CleanRunsStayComplete(run, ttl, user, n - 1);
      CompleteBefore(run, ttl, user, n - 1);
      SessionsEndInTime(run, ttl, n - 1);
      AfterNext(run, n - 1, ttl);
      match t.event
      case Create(u, key) => PutKeepsComplete(s.store, u, key, t.now, ttl, user);
      case Drop(key, owner) => DropKeepsComplete(s.store, key, owner, user, t.now);
      case Read(_, _) =>
      case Aside =>
      case Erase(w) => CleanEraseStaysComplete(run, ttl, user, n - 1, w);
      assert CompleteAfter(run, ttl, user, n);
    }
  }

  lemma CleanEraseStaysComplete(run: seq<Timed>, ttl: int, user: string, i: nat, w: nat)
    requires InOrder(run) && FreshKeys(run) && CleanRevocations(run, ttl, user) && i < |run| && run[i].event == Erase(w)
    requires forall m: nat :: m <= i ==> CompleteAfter(run, ttl, user, m)
    ensures Complete(After(run[..i + 1], ttl).store, user, run[i].now)
  {
    var s := After(run[..i], ttl);
    CompleteBefore(run, ttl, user, i);
    AfterNext(run, i, ttl);
    if w in s.readings {
      ReadingsWereRead(run, i, w, s.readings[w].user, s.readings[w].keys, ttl);
      var r :| ReadAt(run, r, i, w, s.readings[w].user);
      if s.readings[w].user == user {
        assert CleanRevocation(run, ttl, user, r, i, w);
        assert CompleteAfter(run, ttl, user, r);
        CompleteBefore(run, ttl, user, r);
        RevocationIsCompleteIff(run, ttl, r, i, w, user);
      } else {
        EraseKeepsCompleteIff(s.store, s.readings[w].user, s.readings[w].keys, run[i].now);
      }
    }
  }

  /** In every run, whatever is interleaved: the index of a user is complete after every step if and only if no
      revocation of the user ever erased while a session issued between its halves was live. */
  lemma IndexStaysCompleteIff(run: seq<Timed>, ttl: int, user: string)
    requires InOrder(run) && FreshKeys(run)
    ensures AlwaysComplete(run, ttl, user) <==> CleanRevocations(run, ttl, user)
  {
    if AlwaysComplete(run, ttl, user) {
      forall r: nat, i: nat, w: nat ensures CleanRevocation(run, ttl, user, r, i, w) {
        if i < |run| && run[i].event == Erase(w) && ReadAt(run, r, i, w, user) {
          assert CompleteAfter(run, ttl, user, r) && CompleteAfter(run, ttl, user, i + 1);
          CompleteBefore(run, ttl, user, r);
          RevocationIsCompleteIff(run, ttl, r, i, w, user);
        }
      }
    }
    if CleanRevocations(run, ttl, user) {
      CleanRunsStayComplete(run, ttl, user, |run|);
      forall n: nat ensures CompleteAfter(run, ttl, user, n) {
      }
    }
  }
}

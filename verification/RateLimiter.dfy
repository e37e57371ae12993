/** The fixed-window limiter: one counter per caller, given an expiry one window ahead on its first increment. */
module RateLimiter {
  import opened Wrappers

  // A key without an expiry would live for ever.
  datatype Cell = Cell(count: nat, expiresAt: Option<int>)

  predicate Live(cell: Option<Cell>, now: int) {
    cell.Some? && (cell.value.expiresAt.None? || now < cell.value.expiresAt.value)
  }

  // INCR keeps a live key's expiry and creates a missing key without one.
  function Increment(cell: Option<Cell>, now: int): Cell {
    if Live(cell, now) then cell.value.(count := cell.value.count + 1) else Cell(1, None)
  }

  // The script: INCR, and PEXPIRE when it returns one.
  function Hit(cell: Option<Cell>, now: int, window: int): Cell {
    var current := Increment(cell, now);
    if current.count == 1 then current.(expiresAt := Some(now + window)) else current
  }

  class FixedWindowLimiter {
    const limit: int
    const window: int
    var cells: map<string, Cell>

    constructor (limit: int, window: int)
      ensures this.limit == limit && this.window == window && cells == map[]
    {
      this.limit, this.window, cells := limit, window, map[];
    }

    method Allow(id: string, now: int) returns (allowed: bool)
      modifies this
      ensures id == "" ==> allowed && cells == old(cells)
      ensures id != "" ==>
        var hit := Hit(Get(old(cells), id), now, window);
        cells == old(cells)[id := hit] && allowed == (hit.count <= limit)
    {
      if id == "" {
        return true;
      }
      cells := cells[id := Increment(Get(cells, id), now)];
      var current := cells[id].count;
      if current == 1 {
        cells := cells[id := cells[id].(expiresAt := Some(now + window))];
      }
      return current <= limit;
    }
  }

  // ---- One caller's history ----

  // The counter after calls at the given instants, oldest first.
  function CellAfter(calls: seq<int>, window: int): Option<Cell> {
    if calls == [] then None else Some(Hit(CellAfter(calls[..|calls| - 1], window), calls[|calls| - 1], window))
  }

  function LastAllowed(calls: seq<int>, limit: int, window: int): bool
    requires calls != []
  {
    CellAfter(calls, window).value.count <= limit
  }

  /** Calls allowed at instants in [from, from + window). */
  function AllowedIn(calls: seq<int>, limit: int, window: int, from: int): nat {
    if calls == [] then 0
    else
      var last := calls[|calls| - 1];
      AllowedIn(calls[..|calls| - 1], limit, window, from)
        + if from <= last < from + window && LastAllowed(calls, limit, window) then 1 else 0
  }

  ghost predicate InOrder(calls: seq<int>) {
    forall i, j :: 0 <= i < j < |calls| ==> calls[i] <= calls[j]
  }

  // What the current key lifetime, begun at `start`, says about the calls allowed from `from` on.
  ghost predicate Bounded(calls: seq<int>, limit: int, window: int, from: int) {
    calls != [] ==>
      var cell := CellAfter(calls, window).value;
      cell.expiresAt.Some? &&
      var start := cell.expiresAt.value - window;
      var allowed := if cell.count <= limit then cell.count else limit;
      var n := AllowedIn(calls, limit, window, from);
      && cell.count >= 1 && start <= calls[|calls| - 1] < start + window
      && (calls[|calls| - 1] < from ==> n == 0)
      && (start < from ==> n <= allowed - 1)
      && (from <= start < from + window ==> n <= limit - 1 + allowed)
      && (start >= from + window ==> n <= 2 * limit - 1)
  }

  /** After any history the key has an expiry, at most a window after the last call. */
  lemma {:induction false} TheKeyAlwaysExpires(calls: seq<int>, window: int)
    requires InOrder(calls) && calls != [] && window >= 1
    ensures var cell := CellAfter(calls, window).value;
      cell.count >= 1 && cell.expiresAt.Some?
        && calls[|calls| - 1] < cell.expiresAt.value <= calls[|calls| - 1] + window
  {
    var before := calls[..|calls| - 1];
    if before != [] {
      TheKeyAlwaysExpires(before, window);
      assert calls[|before| - 1] <= calls[|before|];
    }
  }

  lemma {:induction false} EveryHistoryIsBounded(calls: seq<int>, limit: int, window: int, from: int)
    requires InOrder(calls) && limit >= 1 && window >= 1
    ensures Bounded(calls, limit, window, from)
  {
    if calls != [] {
      var before := calls[..|calls| - 1];
      EveryHistoryIsBounded(before, limit, window, from);
      if before != [] {
        assert calls[|before| - 1] <= calls[|before|];
      }
    }
  }

  /** No half-open interval as long as the window holds 2 * limit allowed calls of one caller. */
  lemma FewerThanTwoLimitsPerWindow(calls: seq<int>, limit: int, window: int, from: int)
    requires InOrder(calls) && limit >= 1 && window >= 1
    ensures AllowedIn(calls, limit, window, from) <= 2 * limit - 1
  {
    EveryHistoryIsBounded(calls, limit, window, from);
  }

  // n calls at one instant.
  function Burst(n: nat, at: int): seq<int> {
    seq(n, _ => at)
  }

  lemma {:induction false} BurstFills(calls: seq<int>, n: nat, at: int, limit: int, window: int, from: int)
    requires calls != [] && CellAfter(calls, window).value.expiresAt.Some?
    requires CellAfter(calls, window).value.expiresAt.value > at
    requires from <= at < from + window && CellAfter(calls, window).value.count + n <= limit
    ensures CellAfter(calls + Burst(n, at), window).value
      == CellAfter(calls, window).value.(count := CellAfter(calls, window).value.count + n)
    ensures AllowedIn(calls + Burst(n, at), limit, window, from) == AllowedIn(calls, limit, window, from) + n
  {
    if n == 0 {
      assert calls + Burst(0, at) == calls;
    } else {
      var all := calls + Burst(n, at);
      assert all[..|all| - 1] == calls + Burst(n - 1, at);
      BurstFills(calls, n - 1, at, limit, window, from);
    }
  }

  /** The bound is reached: one call opens a window, the rest of its limit comes just before it closes, and a
      whole limit follows at once. */
  lemma TheBoundIsReached(limit: nat, window: int)
    requires limit >= 1 && window >= 2
    ensures exists calls, from :: InOrder(calls) && AllowedIn(calls, limit, window, from) == 2 * limit - 1
  {
    var opening := [0];
    assert opening[..0] == [];
    assert CellAfter(opening, window) == Some(Cell(1, Some(window)));
    assert AllowedIn(opening, limit, window, window - 1) == 0;
    BurstFills(opening, limit - 1, window - 1, limit, window, window - 1);
    var first := opening + Burst(limit - 1, window - 1);
    var next := first + [window];
    assert next[..|next| - 1] == first;
    assert CellAfter(next, window) == Some(Cell(1, Some(2 * window)));
    BurstFills(next, limit - 1, window, limit, window, window - 1);
    var all := next + Burst(limit - 1, window);
    assert InOrder(all) && AllowedIn(all, limit, window, window - 1) == 2 * limit - 1;
  }

  /** A key lifetime: the first call finds no live counter, the others come before the window is over. */
  ghost predicate Lifetime(before: seq<int>, during: seq<int>, window: int) {
    && during != []
    && !Live(CellAfter(before, window), during[0])
    && forall i :: 0 <= i < |during| ==> during[0] <= during[i] < during[0] + window
  }

  /** Of each key lifetime exactly the first `limit` calls are allowed. */
  lemma {:induction false} LifetimeAllowsExactlyTheLimit(before: seq<int>, during: seq<int>, i: nat, limit: int,
      window: int)
    requires Lifetime(before, during, window) && i < |during|
    ensures CellAfter(before + during[..i + 1], window) == Some(Cell(i + 1, Some(during[0] + window)))
    ensures LastAllowed(before + during[..i + 1], limit, window) <==> i < limit
  {
    var calls := before + during[..i + 1];
    assert calls[..|calls| - 1] == before + during[..i];
    if i == 0 {
      assert before + during[..0] == before;
    } else {
      LifetimeAllowsExactlyTheLimit(before, during, i - 1, limit, window);
    }
  }
}

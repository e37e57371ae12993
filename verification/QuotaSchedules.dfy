/** What one day's ledger does not owe to scheduling: the ceiling, commuting settlements, the revision. */
module QuotaSchedules {
  import opened DailyQuota
  import opened Wrappers

  datatype LedgerEvent = Reserve(field: string, previous: Fields) | Settle(field: string, outcome: Outcome)

  function Apply(h: Fields, event: LedgerEvent, limit: int): Fields {
    match event
    case Reserve(field, previous) => ReserveScript(h, previous, field, limit).0
    case Settle(field, outcome) => SettledFields(h, field, outcome)
  }

  // The hash after a history of scripts, oldest first, starting from no hash at all.
  function After(events: seq<LedgerEvent>, limit: int): Fields {
    if events == [] then map[] else Apply(After(events[..|events| - 1], limit), events[|events| - 1], limit)
  }

  function Release(h: Fields, event: LedgerEvent): nat {
    if event.Settle? && event.outcome.AsFailed? && event.field in h && h[event.field] == Text(Reserved) then 1 else 0
  }

  function Releases(events: seq<LedgerEvent>, limit: int): nat {
    if events == [] then 0
    else
      var before := events[..|events| - 1];
      Releases(before, limit) + Release(After(before, limit), events[|events| - 1])
  }

  ghost predicate ForRequests(events: seq<LedgerEvent>) {
    forall e :: e in events ==> IsRequestField(e.field)
  }

  ghost predicate Accounted(h: Fields, releases: nat, limit: int) {
    && Consistent(h, limit)
    && Counter(h, REVISION) == Counter(h, RESERVED) + 2 * Counter(h, COMMITTED) + 2 * releases
  }

  lemma ReserveAccounts(h: Fields, releases: nat, field: string, previous: Fields, limit: int)
    requires Accounted(h, releases, limit) && IsRequestField(field)
    ensures var after := ReserveScript(h, previous, field, limit).0;
      && Accounted(after, releases, limit)
      && (after == h || Counter(after, REVISION) == Counter(h, REVISION) + 1)
  {
    RequestFieldsAreNotCounters(field);
    ReserveKeepsConsistent(h, previous, field, limit);
  }

  lemma SettleAccounts(h: Fields, releases: nat, field: string, outcome: Outcome, limit: int)
    requires Accounted(h, releases, limit) && IsRequestField(field)
    ensures var after := SettledFields(h, field, outcome);
      && Accounted(after, releases + Release(h, Settle(field, outcome)), limit)
      && (after == h || Counter(after, REVISION) == Counter(h, REVISION) + 1)
  {
    RequestFieldsAreNotCounters(field);
    SettleKeepsConsistent(h, field, outcome, limit);
  }

  lemma ApplyAccounts(h: Fields, releases: nat, event: LedgerEvent, limit: int)
    requires Accounted(h, releases, limit) && IsRequestField(event.field)
    ensures Accounted(Apply(h, event, limit), releases + Release(h, event), limit)
    ensures Counter(Apply(h, event, limit), REVISION) >= Counter(h, REVISION)
    ensures Counter(Apply(h, event, limit), REVISION) == Counter(h, REVISION) ==> Apply(h, event, limit) == h
  {
    match event
    case Reserve(field, previous) => ReserveAccounts(h, releases, field, previous, limit);
    case Settle(field, outcome) => SettleAccounts(h, releases, field, outcome, limit);
  }

  /** Every history keeps the counters exact, the ceiling, and the revision formula. */
  lemma {:induction false} EveryHistoryIsAccounted(events: seq<LedgerEvent>, limit: int)
    requires limit >= 0 && ForRequests(events)
    ensures Accounted(After(events, limit), Releases(events, limit), limit)
  {
    if events == [] {
      assert InState(map[], Reserved) == {} && InState(map[], Delivered) == {};
    } else {
      var before := events[..|events| - 1];
      EveryHistoryIsAccounted(before, limit);
      ApplyAccounts(After(before, limit), Releases(before, limit), events[|events| - 1], limit);
    }
  }

  /** Revisions never go back, and two moments of one ledger with the same revision hold the same hash. */
  lemma {:induction false} EqualRevisionsEqualLedgers(events: seq<LedgerEvent>, i: nat, limit: int)
    requires limit >= 0 && ForRequests(events) && i <= |events|
    ensures Counter(After(events[..i], limit), REVISION) <= Counter(After(events, limit), REVISION)
    ensures Counter(After(events[..i], limit), REVISION) == Counter(After(events, limit), REVISION)
      ==> After(events[..i], limit) == After(events, limit)
  {
    if i == |events| {
      assert events[..i] == events;
    } else {
      var before := events[..|events| - 1];
      assert before[..i] == events[..i];
      EqualRevisionsEqualLedgers(before, i, limit);
      EveryHistoryIsAccounted(before, limit);
      ApplyAccounts(After(before, limit), Releases(before, limit), events[|events| - 1], limit);
    }
  }

  // ---- Racing reservations ----

  function ReserveAll(h: Fields, previous: Fields, fields: seq<string>, limit: int): (Fields, nat)
    decreases |fields|
  {
    if fields == [] then (h, 0)
    else
      var (next, reply) := ReserveScript(h, previous, fields[0], limit);
      var (final, accepted) := ReserveAll(next, previous, fields[1..], limit);
      (final, accepted + if reply.accepted then 1 else 0)
  }

  ghost predicate Fresh(h: Fields, previous: Fields, fields: seq<string>) {
    && (forall i, j :: 0 <= i < j < |fields| ==> fields[i] != fields[j])
    && (forall i :: 0 <= i < |fields| ==> IsRequestField(fields[i]) && fields[i] !in h && fields[i] !in previous)
  }

  /** However racing reservations of new requests are ordered, exactly the free places are taken. */
  lemma {:induction false} RaceFillsExactlyTheFreePlaces(h: Fields, previous: Fields, fields: seq<string>, limit: int)
    requires Consistent(h, limit) && Typed(previous) && Fresh(h, previous, fields)
    decreases |fields|
    ensures var (final, accepted) := ReserveAll(h, previous, fields, limit);
      var free := limit - |Requests(h)|;
      && accepted == (if |fields| <= free then |fields| else free)
      && Consistent(final, limit)
      && |Requests(final)| == |Requests(h)| + accepted
  {
    UsedCountsRequests(h, limit);
    if fields != [] {
      var next := ReserveScript(h, previous, fields[0], limit).0;
      RequestFieldsAreNotCounters(fields[0]);
      ReserveKeepsConsistent(h, previous, fields[0], limit);
      ReserveRefines(h, previous, fields[0], limit);
      forall i | 0 <= i < |fields[1..]| ensures fields[1..][i] !in next {
        RequestFieldsAreNotCounters(fields[i + 1]);
      }
      RaceFillsExactlyTheFreePlaces(next, previous, fields[1..], limit);
    }
  }

  // ---- Settlements ----

  // What a settlement leaves in one field.
  function SettledCell(h: Fields, f: string, outcome: Outcome, g: string): Option<Cell> {
    if g == RESERVED then Some(Num(Counter(h, RESERVED) - 1))
    else if g == REVISION then Some(Num(Counter(h, REVISION) + 1))
    else if g == COMMITTED && outcome.AsDelivered? then Some(Num(Counter(h, COMMITTED) + 1))
    else if g == f then (if outcome.AsDelivered? then Some(Text(Delivered)) else None)
    else Get(h, g)
  }

  lemma SettleCellByCell(h: Fields, f: string, outcome: Outcome, g: string)
    requires f in h && h[f] == Text(Reserved) && !outcome.Pending? && f !in COUNTERS
    ensures Get(SettledFields(h, f, outcome), g) == SettledCell(h, f, outcome, g)
  {
  }

  lemma SettlementsCommuteAt(h: Fields, f: string, g: string, a: Outcome, b: Outcome, k: string)
    requires f in h && h[f] == Text(Reserved) && g in h && h[g] == Text(Reserved) && f != g
    requires f !in COUNTERS && g !in COUNTERS && !a.Pending? && !b.Pending?
    ensures Get(SettledFields(SettledFields(h, f, a), g, b), k) == Get(SettledFields(SettledFields(h, g, b), f, a), k)
  {
    var hf, hg := SettledFields(h, f, a), SettledFields(h, g, b);
    SettleCellByCell(h, f, a, g);
    SettleCellByCell(h, g, b, f);
    SettleCellByCell(h, f, a, k);
    SettleCellByCell(h, g, b, k);
    SettleCellByCell(hf, g, b, k);
    SettleCellByCell(hg, f, a, k);
  }

  /** Settlements of different requests commute on the flat hash, counters and revision included. */
  lemma SettlementsCommute(h: Fields, f: string, g: string, a: Outcome, b: Outcome)
    requires IsRequestField(f) && IsRequestField(g) && f != g
    ensures SettledFields(SettledFields(h, f, a), g, b) == SettledFields(SettledFields(h, g, b), f, a)
  {
    RequestFieldsAreNotCounters(f);
    RequestFieldsAreNotCounters(g);
    if a.Pending? || f !in h || h[f] != Text(Reserved) {
      SettleLeavesOthers(h, g, b, f);
    } else if b.Pending? || g !in h || h[g] != Text(Reserved) {
      SettleLeavesOthers(h, f, a, g);
    } else {
      var left := SettledFields(SettledFields(h, f, a), g, b);
      var right := SettledFields(SettledFields(h, g, b), f, a);
      forall k ensures (k in left <==> k in right) && (k in left ==> left[k] == right[k]) {
        SettlementsCommuteAt(h, f, g, a, b, k);
      }
    }
  }

  lemma SettleLeavesOthers(h: Fields, f: string, outcome: Outcome, g: string)
    requires g != f && g !in COUNTERS
    ensures Get(SettledFields(h, f, outcome), g) == Get(h, g)
  {
  }

  /** Repeating a settlement, whatever its second outcome, changes nothing. */
  lemma SecondSettlementIsANoOp(h: Fields, f: string, first: Outcome, second: Outcome)
    requires IsRequestField(f) && !first.Pending?
    ensures SettledFields(SettledFields(h, f, first), f, second) == SettledFields(h, f, first)
  {
    RequestFieldsAreNotCounters(f);
  }
}

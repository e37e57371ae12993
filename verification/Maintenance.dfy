/** The nightly job: archive the day's messages, summarise, archive the summary, and only then clear. */
module Maintenance {
  import opened Wrappers
  import opened GoText
  import opened ConversationStore
  import opened MessageView
  import opened LegacyMerge

  // ---- The archive ----

  datatype Row = Row(turnId: string, role: string, content: string, createdAt: int,
                     speakerKind: string, speakerId: string, batchId: string, sequence: nat)

  /** The messages table of one scope and day, by turn id: its first unique key. */
  type Rows = map<string, Row>

  function RowOf(m: Turn): Row {
    Row(m.turnId, m.role, m.content, m.createdAt, m.speakerKind, m.speakerId, m.batchId, m.sequence)
  }

  /** The second unique key: positive sequence numbers. */
  predicate Clashes(rows: Rows, row: Row) {
    row.sequence > 0 && exists id :: id in rows && rows[id].sequence == row.sequence
  }

  // INSERT that ignores a conflict on the turn id only.
  function Insert(rows: Rows, row: Row): Option<Rows> {
    if row.turnId in rows then Some(rows)
    else if Clashes(rows, row) then None
    else Some(rows[row.turnId := row])
  }

  function InsertAll(rows: Rows, messages: seq<Turn>): Option<Rows> {
    if messages == [] then Some(rows)
    else match InsertAll(rows, messages[..|messages| - 1])
      case None => None
      case Some(some) => Insert(some, RowOf(messages[|messages| - 1]))
  }

  /** The row holds the message, column by column. */
  ghost predicate Tells(row: Row, m: Turn) {
    && row.turnId == m.turnId && row.role == m.role && row.content == m.content && row.createdAt == m.createdAt
    && row.speakerKind == m.speakerKind && row.speakerId == m.speakerId && row.batchId == m.batchId
    && row.sequence == m.sequence
  }

  ghost predicate RowIs(rows: Rows, id: string, view: seq<Turn>, j: int) {
    0 <= j < |view| && view[j].turnId == id && id in rows && Tells(rows[id], view[j])
  }

  ghost predicate FaithfulAt(rows: Rows, view: seq<Turn>, id: string) {
    id in rows ==> exists j :: RowIs(rows, id, view, j)
  }

  /** Every row is the archived form of the message with its turn id. */
  ghost predicate Faithful(rows: Rows, view: seq<Turn>) {
    forall id :: FaithfulAt(rows, view, id)
  }

  /** One row for each message, and no other row. */
  ghost predicate ArchivedInFull(rows: Rows, view: seq<Turn>) {
    Faithful(rows, view) && forall j :: 0 <= j < |view| ==> RowIs(rows, view[j].turnId, view, j)
  }

  ghost predicate Numbered(view: seq<Turn>) {
    DistinctTurns(view) && forall j :: 0 <= j < |view| ==> view[j].sequence == j + 1
  }

  lemma InsertCompletes(rows: Rows, view: seq<Turn>, j: nat)
    requires Faithful(rows, view) && Numbered(view) && j < |view|
    ensures var result := Insert(rows, RowOf(view[j]));
      && result.Some? && Faithful(result.value, view) && view[j].turnId in result.value
      && forall id :: id in rows ==> id in result.value
  {
    if view[j].turnId !in rows {
      forall id | id in rows ensures rows[id].sequence != view[j].sequence {
        assert FaithfulAt(rows, view, id);
      }
      var longer := rows[view[j].turnId := RowOf(view[j])];
      forall id ensures FaithfulAt(longer, view, id) {
        assert FaithfulAt(rows, view, id);
        if id == view[j].turnId {
          assert RowIs(longer, id, view, j);
        } else if id in rows {
          var i :| RowIs(rows, id, view, i);
          assert RowIs(longer, id, view, i);
        }
      }
    }
  }

  /** A view is archived completely over whatever part of it is archived already, without a sequence clash. */
  lemma {:induction false} ArchivingCompletes(rows: Rows, view: seq<Turn>, n: nat)
    requires Faithful(rows, view) && Numbered(view) && n <= |view|
    ensures var result := InsertAll(rows, view[..n]);
      result.Some? && Faithful(result.value, view) && forall j :: 0 <= j < n ==> view[j].turnId in result.value
  {
    if n > 0 {
      assert view[..n][..n - 1] == view[..n - 1];
      ArchivingCompletes(rows, view, n - 1);
      InsertCompletes(InsertAll(rows, view[..n - 1]).value, view, n - 1);
    }
  }

  lemma ArchivesInFull(rows: Rows, view: seq<Turn>)
    requires Faithful(rows, view) && Numbered(view)
    ensures InsertAll(rows, view).Some? && ArchivedInFull(InsertAll(rows, view).value, view)
  {
    ArchivingCompletes(rows, view, |view|);
    assert view[..|view|] == view;
    var after := InsertAll(rows, view).value;
    forall j | 0 <= j < |view| ensures RowIs(after, view[j].turnId, view, j) {
      assert FaithfulAt(after, view, view[j].turnId);
    }
  }

  /** The message is archived already, or its number is not taken. */
  predicate Placeable(rows: Rows, view: seq<Turn>, j: nat)
    requires j < |view|
  {
    view[j].turnId in rows || !Clashes(rows, RowOf(view[j]))
  }

  ghost predicate IsFirst(view: seq<Turn>, n: nat, id: string) {
    exists j: nat :: j < n && j < |view| && view[j].turnId == id
  }

  // `after` is `rows` and, for each of the first n messages without a row, its row.
  ghost predicate Added(rows: Rows, after: Rows, view: seq<Turn>, n: nat) {
    && (forall id :: id in after <==> id in rows || IsFirst(view, n, id))
    && (forall id :: id in rows ==> after[id] == rows[id])
    && forall j: nat :: j < n && j < |view| && view[j].turnId !in rows ==> RowIs(after, view[j].turnId, view, j)
  }

  // What the first messages have added takes no number of the next one.
  lemma NextIsPlaceableIff(rows: Rows, after: Rows, view: seq<Turn>, n: nat)
    requires Numbered(view) && n < |view| && Added(rows, after, view, n)
    ensures Insert(after, RowOf(view[n])).Some? <==> Placeable(rows, view, n)
  {
    assert !IsFirst(view, n, view[n].turnId);
    if view[n].turnId !in rows {
      forall id | id in after && id !in rows ensures after[id].sequence != view[n].sequence {
        var j: nat :| j < n && view[j].turnId == id;
        assert RowIs(after, id, view, j);
      }
      if Clashes(rows, RowOf(view[n])) {
        var id :| id in rows && rows[id].sequence == view[n].sequence;
        assert id in after;
      }
    }
  }

  lemma NextIsAdded(rows: Rows, after: Rows, view: seq<Turn>, n: nat)
    requires Numbered(view) && n < |view| && Added(rows, after, view, n) && Insert(after, RowOf(view[n])).Some?
    ensures Added(rows, Insert(after, RowOf(view[n])).value, view, n + 1)
  {
    var more := Insert(after, RowOf(view[n])).value;
    assert !IsFirst(view, n, view[n].turnId);
    forall id ensures IsFirst(view, n + 1, id) <==> IsFirst(view, n, id) || id == view[n].turnId {
      if IsFirst(view, n, id) {
        var j: nat :| j < n && view[j].turnId == id;
        assert j < n + 1;
      }
    }
    forall j: nat | j < n + 1 && view[j].turnId !in rows ensures RowIs(more, view[j].turnId, view, j) {
      if j < n {
        assert RowIs(after, view[j].turnId, view, j);
      }
    }
  }

  /** Over any rows at all, the insertion succeeds if and only if each message is archived already or finds its number
      free. */
  lemma {:induction false} ArchivingSucceedsIff(rows: Rows, view: seq<Turn>, n: nat)
    requires Numbered(view) && n <= |view|
    ensures InsertAll(rows, view[..n]).Some? <==> forall j: nat :: j < n ==> Placeable(rows, view, j)
    ensures InsertAll(rows, view[..n]).Some? ==> Added(rows, InsertAll(rows, view[..n]).value, view, n)
  {
    if n > 0 {
      assert view[..n][..n - 1] == view[..n - 1];
      ArchivingSucceedsIff(rows, view, n - 1);
      var before := InsertAll(rows, view[..n - 1]);
      if before.Some? {
        NextIsPlaceableIff(rows, before.value, view, n - 1);
        if Insert(before.value, RowOf(view[n - 1])).Some? {
          NextIsAdded(rows, before.value, view, n - 1);
        }
      }
    }
  }

  /** A log once archived in full can be archived again after a further legacy merge exactly if the merge was
      empty: the first merged turn takes the sequence number of the first archived one. */
  lemma LateMergeBlocksArchivingIffNotEmpty(rows: Rows, legacy: seq<Turn>, log: seq<Turn>, conversationId: string)
    requires log != [] && DistinctTurns(legacy + log) && ArchivedInFull(rows, View(log, conversationId))
    ensures InsertAll(rows, View(legacy + log, conversationId)).Some? <==> legacy == []
  {
    if legacy == [] {
      assert legacy + log == log;
      ViewIsNumbered(log, conversationId);
      ArchivesInFull(rows, View(log, conversationId));
    } else {
      MergedHeadClashes(rows, legacy, log, conversationId);
      RefusedPrefixRefusesAll(rows, View(legacy + log, conversationId), 1);
    }
  }

  lemma MergedHeadClashes(rows: Rows, legacy: seq<Turn>, log: seq<Turn>, conversationId: string)
    requires log != [] && legacy != [] && DistinctTurns(legacy + log) && ArchivedInFull(rows, View(log, conversationId))
    ensures InsertAll(rows, View(legacy + log, conversationId)[..1]).None?
  {
    var view, whole := View(log, conversationId), View(legacy + log, conversationId);
    ViewAt(log, conversationId, 0);
    ViewAt(legacy + log, conversationId, 0);
    assert whole[0].turnId == legacy[0].turnId && whole[0].sequence == 1;
    assert RowIs(rows, log[0].turnId, view, 0) && rows[log[0].turnId].sequence == 1;
    assert FaithfulAt(rows, view, legacy[0].turnId);
    forall j | 0 <= j < |view| ensures view[j].turnId != legacy[0].turnId {
      ViewAt(log, conversationId, j);
      assert (legacy + log)[|legacy| + j] == log[j] && (legacy + log)[0] == legacy[0];
    }
    assert Clashes(rows, RowOf(whole[0]));
    assert whole[..1] == [whole[0]] && whole[..1][..0] == [];
  }

  lemma {:induction false} RefusedPrefixRefusesAll(rows: Rows, messages: seq<Turn>, n: nat)
    requires n <= |messages| && InsertAll(rows, messages[..n]).None?
    ensures InsertAll(rows, messages).None?
  {
    if n == |messages| {
      assert messages[..n] == messages;
    } else {
      var before := messages[..|messages| - 1];
      assert before[..n] == messages[..n];
      RefusedPrefixRefusesAll(rows, before, n);
    }
  }

  // ---- One scope, one attempt ----

  // What the outside contributes to an attempt: a fault at each server, and the model's summary.
  datatype Luck = Luck(read: Fault, archive: Fault, summary: Option<string>, archiveSummary: Fault, clear: Fault)

  /** A scope at night: its store and what the archive holds for the day; an empty summary is none. */
  datatype Night = Night(store: Store, rows: Rows, summary: string)

  function ClearScope(n: Night, day: int, fault: Fault): (r: (Night, bool))
    ensures r.0.store.conversationId == n.store.conversationId
  {
    if fault.NotApplied? then (n, false)
    else (n.(store := ClearScript(MigrateScript(n.store, day), day)), fault.Fine?)
  }

  // From the archived messages on: summarise, archive the summary, clear.
  function Conclude(archived: Night, day: int, luck: Luck): (r: (Night, bool))
    ensures r.0.store.conversationId == archived.store.conversationId
  {
    if luck.summary.None? || Blank(luck.summary.value) || luck.archiveSummary.NotApplied? then (archived, false)
    else
      var told := archived.(summary := TrimSpace(luck.summary.value));
      if !luck.archiveSummary.Fine? then (told, false) else ClearScope(told, day, luck.clear)
  }

  // From the messages read on.
  function ArchiveDay(read: Night, day: int, luck: Luck): (r: (Night, bool))
    ensures r.0.store.conversationId == read.store.conversationId
  {
    var inserted := InsertAll(read.rows, View(Log(read.store, day), read.store.conversationId));
    if luck.archive.NotApplied? || inserted.None? then (read, false)
    else
      var archived := read.(rows := inserted.value);
      if !luck.archive.Fine? then (archived, false) else Conclude(archived, day, luck)
  }

  /** MaintainDay's treatment of one scope: the night afterwards and whether it counts as processed. */
  function Maintain(n: Night, day: int, luck: Luck): (r: (Night, bool))
    ensures r.0.store.conversationId == n.store.conversationId
  {
    var read := if luck.read.NotApplied? then n else n.(store := MigrateScript(n.store, day));
    if !luck.read.Fine? then (read, false)
    else if Log(read.store, day) == [] then ClearScope(read, day, luck.clear)
    else ArchiveDay(read, day, luck)
  }

  /** Everything kept for the day in Redis. */
  function Kept(n: Night, day: int): seq<Turn> {
    if n.store.conversationId == DEFAULT_CONVERSATION then AllTurns(n.store, day) else Log(n.store, day)
  }

  /** Nothing of `all` is lost: it is still in Redis, with a faithful archive of part of it; or it is archived
      turn for turn in order, summarised, and only then cleared. */
  ghost predicate Safe(n: Night, day: int, all: seq<Turn>) {
    var view := View(all, n.store.conversationId);
    || (Kept(n, day) == all && Faithful(n.rows, view))
    || (Kept(n, day) == [] && ArchivedInFull(n.rows, view) && !Blank(n.summary))
  }

  lemma TrimmedIsNotBlank(s: string)
    requires !Blank(s)
    ensures !Blank(TrimSpace(s))
  {
    TrimLeftStops(s);
    TrimRightStops(TrimLeft(s));
    TrimRightKeepsHead(TrimLeft(s));
  }

  lemma {:induction false} TrimLeftStops(s: string)
    ensures TrimLeft(s) == "" || !IsSpace(TrimLeft(s)[0])
  {
    if s != [] && IsSpace(s[0]) {
      TrimLeftStops(s[1..]);
    }
  }

  lemma {:induction false} TrimRightStops(s: string)
    ensures TrimRight(s) == "" || !IsSpace(TrimRight(s)[|TrimRight(s)| - 1])
  {
    if s != [] && IsSpace(s[|s| - 1]) {
      TrimRightStops(s[..|s| - 1]);
    }
  }

  lemma {:induction false} TrimRightKeepsHead(s: string)
    ensures TrimRight(s) != "" ==> s != "" && TrimRight(s)[0] == s[0]
  {
    if s != [] && IsSpace(s[|s| - 1]) {
      TrimRightKeepsHead(s[..|s| - 1]);
    }
  }

  lemma ViewIsNumbered(all: seq<Turn>, conversationId: string)
    requires DistinctTurns(all)
    ensures Numbered(View(all, conversationId))
  {
    forall j | 0 <= j < |all|
      ensures View(all, conversationId)[j].sequence == j + 1 && View(all, conversationId)[j].turnId == all[j].turnId
    {
      ViewAt(all, conversationId, j);
    }
  }

  /** After a read, an uncleared scope shows exactly what was kept. */
  lemma ReadShowsKept(n: Night, day: int)
    ensures var read := n.(store := MigrateScript(n.store, day));
      Log(read.store, day) == Kept(n, day) && Kept(read, day) == Kept(n, day)
  {
  }

  ghost predicate Done(n: Night, day: int, all: seq<Turn>) {
    Kept(n, day) == [] && ArchivedInFull(n.rows, View(all, n.store.conversationId)) && !Blank(n.summary)
  }

  /** One attempt, failing anywhere or nowhere, loses nothing; a processed scope with messages is archived in full. */
  lemma AttemptIsSafe(n: Night, day: int, luck: Luck, all: seq<Turn>)
    requires Safe(n, day, all) && DistinctTurns(all)
    ensures Safe(Maintain(n, day, luck).0, day, all)
    ensures Maintain(n, day, luck).1 && all != [] ==> Done(Maintain(n, day, luck).0, day, all)
    ensures Maintain(n, day, luck).1 && Kept(n, day) != [] ==>
      luck.summary.Some? && Maintain(n, day, luck).0.summary == TrimSpace(luck.summary.value)
  {
    ReadShowsKept(n, day);
    if Kept(n, day) == [] {
      EmptyAttempt(n, day, luck);
    } else if luck.read.Fine? {
      ViewIsNumbered(all, n.store.conversationId);
      ArchivesInFull(n.rows, View(all, n.store.conversationId));
      if luck.summary.Some? && !Blank(luck.summary.value) {
        TrimmedIsNotBlank(luck.summary.value);
      }
      ArchiveDayIsSafe(n.(store := MigrateScript(n.store, day)), day, luck, all);
    }
  }

  /** The day is off both lists the nightly job reads, without log, counter or legacy list; its requests and everything
      of other days stay. */
  ghost predicate Cleans(s: Store, t: Store, day: int) {
    && day !in t.active && day !in t.logs && day !in t.counters
    && (s.conversationId == DEFAULT_CONVERSATION ==> day !in t.legacyActive && Legacy(t, day) == [])
    && t.requests == s.requests && t.batches == s.batches && t.lease == s.lease
    && forall other :: other != day ==> SameDay(s, t, other)
  }

  ghost predicate SameDay(s: Store, t: Store, day: int) {
    && Log(t, day) == Log(s, day) && Legacy(t, day) == Legacy(s, day)
    && (day in t.active <==> day in s.active) && (day in t.legacyActive <==> day in s.legacyActive)
  }

  lemma ClearScopeCleans(n: Night, day: int, fault: Fault)
    ensures ClearScope(n, day, fault).1 ==> Cleans(n.store, ClearScope(n, day, fault).0.store, day)
  {
  }

  lemma ProcessedDaysAreCleaned(n: Night, day: int, luck: Luck)
    ensures Maintain(n, day, luck).1 ==> Cleans(n.store, Maintain(n, day, luck).0.store, day)
  {
    if Maintain(n, day, luck).1 {
      ClearScopeCleans(Maintain(n, day, luck).0.(store := n.store), day, luck.clear);
      MergingTwice(n.store, day);
    }
  }

  lemma MergingTwice(s: Store, day: int)
    ensures MigrateScript(MigrateScript(s, day), day) == MigrateScript(s, day)
  {
  }

  // With nothing left in Redis an attempt archives nothing.
  lemma EmptyAttempt(n: Night, day: int, luck: Luck)
    requires Kept(n, day) == []
    ensures var after := Maintain(n, day, luck).0;
      Kept(after, day) == [] && after.rows == n.rows && after.summary == n.summary
        && after.store.conversationId == n.store.conversationId
  {
    ReadShowsKept(n, day);
  }

  lemma ConcludeIsSafe(archived: Night, day: int, luck: Luck, all: seq<Turn>)
    requires Kept(archived, day) == all && ArchivedInFull(archived.rows, View(all, archived.store.conversationId))
    requires luck.summary.Some? && !Blank(luck.summary.value) ==> !Blank(TrimSpace(luck.summary.value))
    ensures Safe(Conclude(archived, day, luck).0, day, all)
    ensures Conclude(archived, day, luck).1 ==> Done(Conclude(archived, day, luck).0, day, all)
  {
  }

  lemma ArchiveDayIsSafe(read: Night, day: int, luck: Luck, all: seq<Turn>)
    requires Kept(read, day) == Log(read.store, day) == all && Faithful(read.rows, View(all, read.store.conversationId))
    requires InsertAll(read.rows, View(all, read.store.conversationId)).Some?
    requires ArchivedInFull(InsertAll(read.rows, View(all, read.store.conversationId)).value,
      View(all, read.store.conversationId))
    requires luck.summary.Some? && !Blank(luck.summary.value) ==> !Blank(TrimSpace(luck.summary.value))
    ensures Safe(ArchiveDay(read, day, luck).0, day, all)
    ensures ArchiveDay(read, day, luck).1 ==> Done(ArchiveDay(read, day, luck).0, day, all)
  {
    ConcludeIsSafe(read.(rows := InsertAll(read.rows, View(all, read.store.conversationId)).value), day, luck, all);
  }

  function Attempts(n: Night, day: int, lucks: seq<Luck>): Night {
    if lucks == [] then n else Maintain(Attempts(n, day, lucks[..|lucks| - 1]), day, lucks[|lucks| - 1]).0
  }

  /** Any number of failed attempts, however they failed, followed by a processed one: Redis is empty for the
      day, and the archive holds one row per turn, in log order, and a summary. */
  lemma {:induction false} NothingIsLostOverNights(n: Night, day: int, lucks: seq<Luck>)
    requires n.rows == map[] && DistinctTurns(Kept(n, day))
    ensures Safe(Attempts(n, day, lucks), day, Kept(n, day))
    ensures Attempts(n, day, lucks).store.conversationId == n.store.conversationId
    ensures lucks != [] && Kept(n, day) != [] ==>
      (Maintain(Attempts(n, day, lucks[..|lucks| - 1]), day, lucks[|lucks| - 1]).1 ==>
        Done(Attempts(n, day, lucks), day, Kept(n, day)))
  {
    if lucks != [] {
      var before := lucks[..|lucks| - 1];
      NothingIsLostOverNights(n, day, before);
      AttemptIsSafe(Attempts(n, day, before), day, lucks[|lucks| - 1], Kept(n, day));
    }
  }

  // ---- When a day can be processed at all ----

  ghost predicate AllPlaceable(n: Night, day: int) {
    var view := View(Kept(n, day), n.store.conversationId);
    forall j: nat :: j < |view| ==> Placeable(n.rows, view, j)
  }

  function BestLuck(): Luck {
    Luck(Fine, Fine, Some("a summary"), Fine, Fine)
  }

  lemma BestLuckIsNotBlank()
    ensures !Blank(BestLuck().summary.value)
  {
    assert !IsSpace("a summary"[0]) && !IsSpace("a summary"[8]);
  }

  /** Something is kept that cannot be archived. */
  ghost predicate Refused(n: Night, day: int) {
    Kept(n, day) != [] && InsertAll(n.rows, View(Kept(n, day), n.store.conversationId)).None?
  }

  lemma RefusedAttempt(n: Night, day: int, luck: Luck)
    requires Refused(n, day)
    ensures var (after, processed) := Maintain(n, day, luck);
      !processed && Refused(after, day) && (after == n || after == n.(store := MigrateScript(n.store, day)))
  {
    ReadShowsKept(n, day);
  }

  lemma RefusedIff(n: Night, day: int)
    requires DistinctTurns(Kept(n, day))
    ensures Refused(n, day) <==> Kept(n, day) != [] && !AllPlaceable(n, day)
  {
    var view := View(Kept(n, day), n.store.conversationId);
    ViewIsNumbered(Kept(n, day), n.store.conversationId);
    ArchivingSucceedsIff(n.rows, view, |view|);
    assert view[..|view|] == view;
  }

  lemma BestAttemptProcesses(n: Night, day: int)
    requires !Refused(n, day)
    ensures Maintain(n, day, BestLuck()).1
  {
    ReadShowsKept(n, day);
    BestLuckIsNotBlank();
  }

  /** Some attempt processes the day if and only if nothing is kept or each message is archived already or finds its
      number free. */
  lemma DayCanBeProcessedIff(n: Night, day: int)
    requires DistinctTurns(Kept(n, day))
    ensures (exists luck :: Maintain(n, day, luck).1) <==> Kept(n, day) == [] || AllPlaceable(n, day)
  {
    RefusedIff(n, day);
    if Refused(n, day) {
      forall luck ensures !Maintain(n, day, luck).1 {
        RefusedAttempt(n, day, luck);
      }
    } else {
      BestAttemptProcesses(n, day);
    }
  }

  /** No number of further attempts, however lucky, archives or clears a refused day. */
  lemma {:induction false} RefusedForGood(n: Night, day: int, lucks: seq<Luck>, luck: Luck)
    requires Refused(n, day)
    ensures Refused(Attempts(n, day, lucks), day) && !Maintain(Attempts(n, day, lucks), day, luck).1
  {
    if lucks != [] {
      var before := lucks[..|lucks| - 1];
      RefusedForGood(n, day, before, lucks[|lucks| - 1]);
      RefusedAttempt(Attempts(n, day, before), day, lucks[|lucks| - 1]);
    }
    RefusedAttempt(Attempts(n, day, lucks), day, luck);
  }
}

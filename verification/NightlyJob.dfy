/** MaintainDay and the archive transaction as they are written: loops with early exits. */
module NightlyJob {
  import opened Wrappers
  import opened GoText
  import opened ConversationStore
  import opened MessageView
  import opened Maintenance

  datatype ScopeId = ScopeId(channel: string, owner: string, conversationId: string)

  type Nights = map<ScopeId, Night>

  // What a job leaves: the nights, the number processed, and the owners to greet.
  datatype Report = Report(nights: Nights, processed: nat, greet: set<string>)

  function GreetedFor(n: Night, id: ScopeId, day: int, processed: bool): set<string> {
    if processed && Kept(n, day) != [] && id.channel == "wechat" then {id.owner} else {}
  }

  // The scopes in turn, each from the night the ones before have left.
  function After(start: Nights, scopes: seq<ScopeId>, day: int, luck: ScopeId -> Luck): (r: Report)
    requires forall i :: 0 <= i < |scopes| ==> scopes[i] in start
    ensures r.nights.Keys == start.Keys
  {
    if scopes == [] then Report(start, 0, {})
    else
      var before := After(start, scopes[..|scopes| - 1], day, luck);
      var id := scopes[|scopes| - 1];
      var (night, processed) := Maintain(before.nights[id], day, luck(id));
      Report(before.nights[id := night], before.processed + if processed then 1 else 0,
             before.greet + GreetedFor(before.nights[id], id, day, processed))
  }

  lemma AfterNext(start: Nights, scopes: seq<ScopeId>, i: nat, day: int, luck: ScopeId -> Luck)
    requires i < |scopes| && forall j :: 0 <= j < |scopes| ==> scopes[j] in start
    ensures var (before, id) := (After(start, scopes[..i], day, luck), scopes[i]);
      var (night, processed) := Maintain(before.nights[id], day, luck(id));
      After(start, scopes[..i + 1], day, luck) ==
        Report(before.nights[id := night], before.processed + if processed then 1 else 0,
               before.greet + GreetedFor(before.nights[id], id, day, processed))
  {
    assert scopes[..i + 1][..i] == scopes[..i];
  }

  /** Every listed scope is treated once, as if it were the only one; the others are left alone. */
  lemma {:induction false} ScopesAreIndependent(start: Nights, scopes: seq<ScopeId>, day: int, luck: ScopeId -> Luck,
      id: ScopeId)
    requires Distinct(scopes) && forall i :: 0 <= i < |scopes| ==> scopes[i] in start
    requires id in start
    ensures After(start, scopes, day, luck).nights[id] ==
      if id in scopes then Maintain(start[id], day, luck(id)).0 else start[id]
  {
    if scopes != [] {
      var before, last := scopes[..|scopes| - 1], scopes[|scopes| - 1];
      assert scopes == before + [last];
      ScopesAreIndependent(start, before, day, luck, id);
      ScopesAreIndependent(start, before, day, luck, last);
    }
  }

  predicate Processes(start: Nights, id: ScopeId, day: int, luck: ScopeId -> Luck) {
    id in start && Maintain(start[id], day, luck(id)).1
  }

  // A WeChat scope whose nonempty day this run clears.
  ghost predicate Greets(start: Nights, id: ScopeId, day: int, luck: ScopeId -> Luck) {
    Processes(start, id, day, luck) && id.channel == "wechat" && Kept(start[id], day) != []
  }

  // What the last scope adds to the report.
  lemma LastScopeAdds(start: Nights, scopes: seq<ScopeId>, day: int, luck: ScopeId -> Luck)
    requires Distinct(scopes) && scopes != [] && forall i :: 0 <= i < |scopes| ==> scopes[i] in start
    ensures var (before, last) := (scopes[..|scopes| - 1], scopes[|scopes| - 1]);
      var (report, after) := (After(start, before, day, luck), After(start, scopes, day, luck));
      && last !in before
      && after.processed == report.processed + (if Processes(start, last, day, luck) then 1 else 0)
      && after.greet == report.greet + (if Greets(start, last, day, luck) then {last.owner} else {})
  {
    var before, last := scopes[..|scopes| - 1], scopes[|scopes| - 1];
    ScopesAreIndependent(start, before, day, luck, last);
  }

  /** The processed scopes are counted, each from its own night. */
  lemma {:induction false} ProcessedAreCounted(start: Nights, scopes: seq<ScopeId>, day: int, luck: ScopeId -> Luck)
    requires Distinct(scopes) && forall i :: 0 <= i < |scopes| ==> scopes[i] in start
    ensures After(start, scopes, day, luck).processed == |Processed(start, scopes, day, luck)|
  {
    if scopes != [] {
      ProcessedAreCounted(start, scopes[..|scopes| - 1], day, luck);
      LastIsCounted(start, scopes, day, luck);
    }
  }

  lemma LastIsCounted(start: Nights, scopes: seq<ScopeId>, day: int, luck: ScopeId -> Luck)
    requires Distinct(scopes) && scopes != [] && forall i :: 0 <= i < |scopes| ==> scopes[i] in start
    ensures var before := scopes[..|scopes| - 1];
      After(start, scopes, day, luck).processed - |Processed(start, scopes, day, luck)|
        == After(start, before, day, luck).processed - |Processed(start, before, day, luck)|
  {
    var before, last := scopes[..|scopes| - 1], scopes[|scopes| - 1];
    LastScopeAdds(start, scopes, day, luck);
    OneMoreProcessed(start, before, last, day, luck);
    assert scopes == before + [last];
  }

  ghost function Processed(start: Nights, scopes: seq<ScopeId>, day: int, luck: ScopeId -> Luck): set<ScopeId> {
    set id | id in scopes && Processes(start, id, day, luck)
  }

  lemma OneMoreProcessed(start: Nights, before: seq<ScopeId>, last: ScopeId, day: int, luck: ScopeId -> Luck)
    requires last !in before
    ensures |Processed(start, before + [last], day, luck)|
      == |Processed(start, before, day, luck)| + (if Processes(start, last, day, luck) then 1 else 0)
  {
    var more := Processed(start, before + [last], day, luck);
    if Processes(start, last, day, luck) {
      assert more == Processed(start, before, day, luck) + {last};
    } else {
      assert more == Processed(start, before, day, luck);
    }
  }

  /** Exactly the owners of such scopes are greeted. */
  lemma {:induction false} GreetsExactlyTheCleared(start: Nights, scopes: seq<ScopeId>, day: int, luck: ScopeId -> Luck,
      owner: string)
    requires Distinct(scopes) && forall i :: 0 <= i < |scopes| ==> scopes[i] in start
    ensures owner in After(start, scopes, day, luck).greet <==> OwnsGreeted(start, scopes, day, luck, owner)
  {
    if scopes != [] {
      var before, last := scopes[..|scopes| - 1], scopes[|scopes| - 1];
      GreetsExactlyTheCleared(start, before, day, luck, owner);
      LastScopeGreets(start, scopes, day, luck, owner);
      OneMoreGreeted(start, before, last, day, luck, owner);
      assert scopes == before + [last];
    }
  }

  lemma LastScopeGreets(start: Nights, scopes: seq<ScopeId>, day: int, luck: ScopeId -> Luck, owner: string)
    requires Distinct(scopes) && scopes != [] && forall i :: 0 <= i < |scopes| ==> scopes[i] in start
    ensures var (before, last) := (scopes[..|scopes| - 1], scopes[|scopes| - 1]);
      owner in After(start, scopes, day, luck).greet <==>
        owner in After(start, before, day, luck).greet || (owner == last.owner && Greets(start, last, day, luck))
  {
    LastScopeAdds(start, scopes, day, luck);
  }

  ghost predicate OwnsGreeted(start: Nights, scopes: seq<ScopeId>, day: int, luck: ScopeId -> Luck, owner: string) {
    exists id :: id in scopes && id.owner == owner && Greets(start, id, day, luck)
  }

  lemma OneMoreGreeted(start: Nights, before: seq<ScopeId>, last: ScopeId, day: int, luck: ScopeId -> Luck,
      owner: string)
    ensures OwnsGreeted(start, before + [last], day, luck, owner) <==>
      OwnsGreeted(start, before, day, luck, owner) || (owner == last.owner && Greets(start, last, day, luck))
  {
    var all := before + [last];
    assert last in all && forall id :: id in all <==> id in before || id == last;
  }

  /** The archive tables of one scope and day. */
  class Repo {
    var rows: Rows
    var summary: string

    constructor (rows: Rows, summary: string)
      ensures this.rows == rows && this.summary == summary
    {
      this.rows, this.summary := rows, summary;
    }

    /** One transaction: every message and the summary, or nothing. */
    method ArchiveDailyConversation(messages: seq<Turn>, text: string, fault: Fault) returns (ok: bool)
      modifies this
      ensures var inserted := InsertAll(old(rows), messages);
        var committed := !fault.NotApplied? && inserted.Some?;
        && rows == (if committed then inserted.value else old(rows))
        && summary == (if committed && text != "" then text else old(summary))
        && ok == (committed && fault.Fine?)
    {
      if fault.NotApplied? {
        return false;
      }
      var inserted := rows;
      for i := 0 to |messages|
        invariant InsertAll(rows, messages[..i]) == Some(inserted)
        invariant rows == old(rows) && summary == old(summary)
      {
        var row := RowOf(messages[i]);
        assert messages[..i + 1][..i] == messages[..i];
        if row.turnId !in inserted {
          if Clashes(inserted, row) {
            RefusedPrefixRefusesAll(rows, messages, i + 1);
            return false;
          }
          inserted := inserted[row.turnId := row];
        }
      }
      assert messages[..|messages|] == messages;
      rows := inserted;
      if text != "" {
        summary := text;
      }
      return fault.Fine?;
    }
  }

  class Job {
    var nights: Nights

    constructor (nights: Nights)
      ensures this.nights == nights
    {
      this.nights := nights;
    }

    method MaintainScope(n: Night, day: int, luck: Luck) returns (after: Night, processed: bool, greets: bool)
      ensures (after, processed) == Maintain(n, day, luck)
      ensures greets == (processed && Kept(n, day) != [])
    {
      ReadShowsKept(n, day);
      after := if luck.read.NotApplied? then n else n.(store := MigrateScript(n.store, day));
      if luck.read != Fine {
        return after, false, false;
      }
      var messages := ReadLog(Log(after.store, day), after.store.conversationId);
      if |messages| == 0 {
        if luck.clear != NotApplied {
          after := after.(store := ClearScript(MigrateScript(after.store, day), day));
        }
        return after, luck.clear == Fine, false;
      }
      var repo := new Repo(after.rows, after.summary);
      var ok := repo.ArchiveDailyConversation(messages, "", luck.archive);
      after := after.(rows := repo.rows, summary := repo.summary);
      if !ok {
        return after, false, false;
      }
      if luck.summary.None? || Blank(luck.summary.value) {
        return after, false, false;
      }
      ok := repo.ArchiveDailyConversation([], TrimSpace(luck.summary.value), luck.archiveSummary);
      after := after.(rows := repo.rows, summary := repo.summary);
      if !ok {
        return after, false, false;
      }
      if luck.clear != NotApplied {
        after := after.(store := ClearScript(MigrateScript(after.store, day), day));
      }
      processed := luck.clear == Fine;
      greets := processed;
    }

    /** `listed` are the scopes found, absent when there is no archive or the listing fails; `purged` says
        that the old summaries could be deleted afterwards. */
    method MaintainDay(listed: Option<seq<ScopeId>>, day: int, luck: ScopeId -> Luck, purged: bool)
      returns (started: bool, processed: nat, failed: nat, greet: set<string>)
      requires listed.Some? ==> forall i :: 0 <= i < |listed.value| ==> listed.value[i] in nights
      modifies this
      ensures started == listed.Some?
      ensures !started ==> nights == old(nights) && processed == failed == 0 && greet == {}
      ensures started ==>
        && Report(nights, processed, greet) == After(old(nights), listed.value, day, luck)
        && processed + failed == |listed.value| + (if purged then 0 else 1)
    {
      started := listed.Some?;
      processed, failed, greet := 0, 0, {};
      if !started {
        return;
      }
      var scopes := listed.value;
      ghost var start := nights;
      for i := 0 to |scopes|
        invariant Report(nights, processed, greet) == After(start, scopes[..i], day, luck)
        invariant processed + failed == i
      {
        var id := scopes[i];
        AfterNext(start, scopes, i, day, luck);
        var after, ok, greets := MaintainScope(nights[id], day, luck(id));
        nights := nights[id := after];
        if ok {
          processed := processed + 1;
        } else {
          failed := failed + 1;
        }
        if greets && id.channel == "wechat" {
          greet := greet + {id.owner};
        }
      }
      assert scopes[..|scopes|] == scopes;
      if !purged {
        failed := failed + 1;
      }
    }
  }
}

/** What becomes of the day of an owner that holds a bar. */
module BarredOwners {
  import opened Wrappers
  import opened ConversationStore
  import opened MessageView
  import opened Maintenance
  import opened NightlyJob
  import opened ScopeKeys

  /** The night the job sees under the scope it was given: the owner's own keys, as another conversation. */
  function SeenAs(store: Store, other: ScopeId, rows: Rows, summary: string): Night {
    Night(store.(conversationId := other.conversationId), rows, summary)
  }

  lemma OtherConversationsKeepLegacy(n: Night, day: int, luck: Luck)
    requires n.store.conversationId != DEFAULT_CONVERSATION
    ensures Legacy(Maintain(n, day, luck).0.store, day) == Legacy(n.store, day)
  {
  }

  /** The job is given the scope of another owner. When it processes it, the log of the barred owner is archived in
      full for that other owner and cleared; a legacy list stays where it is. */
  lemma DayIsArchivedForAnother(
      id: ScopeId, head: string, more: string, store: Store, rows: Rows, summary: string, day: int, luck: Luck)
    requires Served(id) && id.owner == head + "|" + more && '|' !in head && head != ""
    requires DistinctTurns(Log(store, day)) && Log(store, day) != []
    requires Faithful(rows, View(Log(store, day), more + "|" + id.conversationId))
    ensures var other := ScopeId(id.channel, head, more + "|" + id.conversationId);
      var (after, processed) := Maintain(SeenAs(store, other, rows, summary), day, luck);
      && Parse(Member(id)) == Some(other) && other.owner != id.owner
      && (processed ==>
            Log(after.store, day) == [] && ArchivedInFull(after.rows, View(Log(store, day), other.conversationId)))
      && Legacy(after.store, day) == Legacy(store, day)
  {
    var other := ScopeId(id.channel, head, more + "|" + id.conversationId);
    BarredOwnerIsReadAsAnother(id, head, more, "", Item.Lease);
    assert other.conversationId[|more|] == '|';
    NoBarInDefault();
    var n := SeenAs(store, other, rows, summary);
    AttemptIsSafe(n, day, luck, Log(store, day));
    OtherConversationsKeepLegacy(n, day, luck);
  }

  lemma NoBarInDefault()
    ensures '|' !in DEFAULT_CONVERSATION
  {
  }
}

/** History selection over reachable logs: a stored batch is given to a character whole or not at all. */
module WholeBatches {
  import opened ConversationStore
  import opened SendProtocol
  import opened LogContiguity
  import opened ConversationRuns
  import opened MessageView
  import opened LegacyMerge
  import opened History

  // Cleaning texts for the model leaves the batch of every message alone.
  ghost predicate SameBatches(history: seq<Turn>, view: seq<Turn>) {
    |history| == |view| && forall i :: 0 <= i < |view| ==> history[i].batchId == view[i].batchId
  }

  /** For every reachable state, every batch or cleared batch's remains in the log, and every budget: the cut is
      not inside them. */
  lemma BatchesAreKeptOrDroppedWhole(states: seq<Sys>, events: seq<Event>, n: nat, k: RequestKey, m: nat, at: nat,
      history: seq<Turn>, budget: int, first: nat)
    requires IsRun(states, events) && n < |states| && k in states[n].store.requests
    requires RestAt(Log(states[n].store, k.day), states[n].store.requests[k], m, at)
    requires SameBatches(history, View(Log(states[n].store, k.day), states[n].store.conversationId))
    requires IsSelection(history, budget, first)
    ensures var b := states[n].store.requests[k];
      first <= at || first >= at + |Messages(b)| - m
  {
    RunInv(states, events, n);
    assert EntryAt(states[n].store, states[n].issued, k);
    var log, b := Log(states[n].store, k.day), states[n].store.requests[k];
    var end := at + |Messages(b)| - m;
    forall j: nat | at <= j < end ensures history[j].batchId == b.batchId {
      assert log[j] == log[at..end][j - at] == Messages(b)[m..][j - at];
      ReadersSeeStoredBatches(states, events, n, k.day, j, b.batchId);
    }
  }
}

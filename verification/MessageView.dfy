/** Reading a day's log: messages are renumbered by position, and turns of the legacy list, which carry
    neither speaker nor batch, are given both. */
module MessageView {
  import opened ConversationStore

  const HARUHI := "haruhi"
  const HARUHI_NAME := "凉宫春日"
  const HARUHI_AVATAR := "/app/assets/avatars/haruhi.svg"
  const LEGACY_BATCH := "legacy-batch-"

  // The legacy batch current after one more message.
  function NextLegacyBatch(legacyBatch: string, m: Turn): string {
    if m.role == USER then (if m.batchId == "" then LEGACY_BATCH + m.turnId else legacyBatch)
    else if m.speakerId == "" && m.batchId == "" && legacyBatch == "" then LEGACY_BATCH + m.turnId
    else legacyBatch
  }

  function Shown(m: Turn, conversationId: string, position: nat, legacyBatch: string): Turn {
    var n := m.(conversationId := if m.conversationId == "" then conversationId else m.conversationId,
                sequence := position);
    var batchId := if m.batchId == "" then NextLegacyBatch(legacyBatch, m) else m.batchId;
    if m.role == USER then
      n.(speakerKind := USER, speakerId := USER, displayName := "你", batchId := batchId)
    else if m.speakerId == "" then
      n.(speakerKind := CHARACTER, speakerId := HARUHI, displayName := HARUHI_NAME, avatarUrl := HARUHI_AVATAR,
         batchId := batchId)
    else
      n
  }

  function LegacyBatchAfter(log: seq<Turn>): string {
    if log == [] then "" else NextLegacyBatch(LegacyBatchAfter(log[..|log| - 1]), log[|log| - 1])
  }

  /** The messages shown for a log. */
  function View(log: seq<Turn>, conversationId: string): (view: seq<Turn>)
    ensures |view| == |log|
  {
    if log == [] then []
    else
      var before := log[..|log| - 1];
      View(before, conversationId) + [Shown(log[|log| - 1], conversationId, |log|, LegacyBatchAfter(before))]
  }

  /** The view of a prefix is the prefix of the view: appending never renumbers what was shown. */
  lemma {:induction false} ViewIsPrefixStable(log: seq<Turn>, conversationId: string, n: nat)
    requires n <= |log|
    ensures View(log[..n], conversationId) == View(log, conversationId)[..n]
  {
    if n == |log| {
      assert log[..n] == log;
    } else {
      var before := log[..|log| - 1];
      ViewIsPrefixStable(before, conversationId, n);
      assert before[..n] == log[..n];
    }
  }

  lemma ViewAt(log: seq<Turn>, conversationId: string, i: nat)
    requires i < |log|
    ensures View(log, conversationId)[i] == Shown(log[i], conversationId, i + 1, LegacyBatchAfter(log[..i]))
  {
    ViewIsPrefixStable(log, conversationId, i + 1);
    assert log[..i + 1][..i] == log[..i];
  }

  /** A log as the store keeps it: a message without a batch has no speaker either. */
  ghost predicate WellKept(log: seq<Turn>) {
    forall i :: 0 <= i < |log| && log[i].batchId == "" ==> log[i].speakerId == ""
  }

  /** Who is shown to speak: the user of a user's message, Haruhi of a legacy answer, and otherwise who is stored. */
  ghost predicate SpokenBy(m: Turn, shown: Turn) {
    if m.role == "user" then
      && shown.speakerKind == "user" && shown.speakerId == "user" && shown.displayName == "你"
      && shown.avatarUrl == m.avatarUrl
    else if m.speakerId == "" then
      && shown.speakerKind == "character" && shown.speakerId == "haruhi" && shown.displayName == "凉宫春日"
      && shown.avatarUrl == "/app/assets/avatars/haruhi.svg"
    else
      && shown.speakerKind == m.speakerKind && shown.speakerId == m.speakerId && shown.displayName == m.displayName
      && shown.avatarUrl == m.avatarUrl
  }

  /** Every message shown has its position, its own text, and its speaker. */
  lemma ViewIsFaithful(log: seq<Turn>, conversationId: string, i: nat)
    requires i < |log|
    ensures var m := View(log, conversationId)[i];
      && m.sequence == i + 1 && m.turnId == log[i].turnId && m.role == log[i].role && m.content == log[i].content
      && m.createdAt == log[i].createdAt && SpokenBy(log[i], m)
      && m.conversationId == (if log[i].conversationId == "" then conversationId else log[i].conversationId)
      && (log[i].batchId != "" ==> m.batchId == log[i].batchId)
  {
    ViewAt(log, conversationId, i);
  }

  /** In a log the store keeps, every message is shown in a batch. */
  lemma ViewIsComplete(log: seq<Turn>, conversationId: string, i: nat)
    requires i < |log| && WellKept(log)
    ensures View(log, conversationId)[i].batchId != ""
  {
    ViewAt(log, conversationId, i);
    if log[i].batchId == "" {
      NextLegacyBatchIsNamed(LegacyBatchAfter(log[..i]), log[i]);
    }
  }

  lemma NextLegacyBatchIsNamed(legacyBatch: string, m: Turn)
    requires m.batchId == "" && m.speakerId == ""
    ensures NextLegacyBatch(legacyBatch, m) != ""
  {
    assert |LEGACY_BATCH + m.turnId| > 0;
  }

  lemma ShownTwice(m: Turn, conversationId: string, position: nat, a: string, b: string)
    requires conversationId != "" && Shown(m, conversationId, position, a).batchId != ""
    requires (m.batchId == "" ==> m.speakerId == "")
    ensures Shown(Shown(m, conversationId, position, a), conversationId, position, b)
      == Shown(m, conversationId, position, a)
  {
  }

  /** Viewing a view changes nothing. */
  lemma ViewIsIdempotent(log: seq<Turn>, conversationId: string)
    requires WellKept(log) && conversationId != ""
    ensures View(View(log, conversationId), conversationId) == View(log, conversationId)
  {
    var view := View(log, conversationId);
    forall i | 0 <= i < |log| ensures View(view, conversationId)[i] == view[i] {
      ViewIsFaithful(log, conversationId, i);
      ViewIsComplete(log, conversationId, i);
      ViewAt(log, conversationId, i);
      ViewAt(view, conversationId, i);
      ShownTwice(log[i], conversationId, i + 1, LegacyBatchAfter(log[..i]), LegacyBatchAfter(view[..i]));
    }
  }

  // ---- Legacy turns in groups ----

  ghost predicate LegacyOnly(log: seq<Turn>) {
    forall i :: 0 <= i < |log| ==> log[i].batchId == "" && log[i].speakerId == ""
  }

  /** Where a legacy group begins: at the head and at every user turn. */
  predicate GroupStart(log: seq<Turn>, i: nat) {
    i < |log| && (i == 0 || log[i].role == USER)
  }

  ghost predicate SameGroup(log: seq<Turn>, i: nat, j: nat) {
    i <= j < |log| && forall k :: i < k <= j ==> !GroupStart(log, k)
  }

  ghost predicate DistinctTurns(log: seq<Turn>) {
    forall i, j :: 0 <= i < j < |log| ==> log[i].turnId != log[j].turnId
  }

  // The turn at which the group of position i begins.
  function Leader(log: seq<Turn>, i: nat): (l: nat)
    requires i < |log|
    ensures l <= i && GroupStart(log, l) && SameGroup(log, l, i)
  {
    if GroupStart(log, i) then i else Leader(log, i - 1)
  }

  lemma {:induction false} LegacyBatchIsLeaders(log: seq<Turn>, i: nat)
    requires i < |log| && LegacyOnly(log)
    ensures LegacyBatchAfter(log[..i + 1]) == LEGACY_BATCH + log[Leader(log, i)].turnId
  {
    assert log[..i + 1][..i] == log[..i];
    if i > 0 {
      LegacyBatchIsLeaders(log, i - 1);
    }
  }

  /** A legacy turn at the head of a log is shown in a batch named after the turn its group starts with; two are shown
      in one batch exactly when no group starts between them. */
  lemma LegacyGroupsAreBlocks(whole: seq<Turn>, conversationId: string, n: nat, i: nat, j: nat)
    requires i <= j < n <= |whole| && LegacyOnly(whole[..n]) && DistinctTurns(whole[..n])
    ensures View(whole, conversationId)[i].batchId == View(whole, conversationId)[j].batchId <==>
      SameGroup(whole[..n], i, j)
    ensures View(whole, conversationId)[i].batchId == "legacy-batch-" + whole[Leader(whole[..n], i)].turnId
  {
    var log := whole[..n];
    ViewIsPrefixStable(whole, conversationId, n);
    assert View(log, conversationId)[i] == View(whole, conversationId)[i];
    assert View(log, conversationId)[j] == View(whole, conversationId)[j];
    LegacyViewIsLeaders(log, conversationId, i);
    LegacyViewIsLeaders(log, conversationId, j);
    var a, b := Leader(log, i), Leader(log, j);
    assert (LEGACY_BATCH + log[a].turnId)[|LEGACY_BATCH|..] == log[a].turnId;
    assert (LEGACY_BATCH + log[b].turnId)[|LEGACY_BATCH|..] == log[b].turnId;
    if SameGroup(log, i, j) {
      SameGroupSameLeader(log, i, j);
    } else {
      var k :| i < k <= j && GroupStart(log, k);
      assert b >= k;
    }
  }

  lemma {:induction false} SameGroupSameLeader(log: seq<Turn>, i: nat, j: nat)
    requires SameGroup(log, i, j)
    ensures Leader(log, i) == Leader(log, j)
  {
    if i < j {
      SameGroupSameLeader(log, i, j - 1);
    }
  }

  lemma LegacyViewIsLeaders(log: seq<Turn>, conversationId: string, i: nat)
    requires i < |log| && LegacyOnly(log)
    ensures View(log, conversationId)[i].batchId == "legacy-batch-" + log[Leader(log, i)].turnId
  {
    ViewAt(log, conversationId, i);
    LegacyBatchIsLeaders(log, i);
    assert log[..i + 1][..i] == log[..i];
  }

  /** The loop that reads a log. */
  method ReadLog(log: seq<Turn>, conversationId: string) returns (messages: seq<Turn>)
    ensures messages == View(log, conversationId)
  {
    messages := [];
    var legacyBatch := "";
    for i := 0 to |log|
      invariant messages == View(log[..i], conversationId)
      invariant legacyBatch == LegacyBatchAfter(log[..i])
    {
      var message := log[i];
      if message.conversationId == "" {
        message := message.(conversationId := conversationId);
      }
      message := message.(sequence := i + 1);
      if message.role == USER {
        message := message.(speakerKind := USER, speakerId := USER, displayName := "你");
        if message.batchId == "" {
          legacyBatch := LEGACY_BATCH + message.turnId;
          message := message.(batchId := legacyBatch);
        }
      } else if message.speakerId == "" {
        message := message.(speakerKind := CHARACTER, speakerId := HARUHI, displayName := HARUHI_NAME,
                            avatarUrl := HARUHI_AVATAR);
        if message.batchId == "" {
          if legacyBatch == "" {
            legacyBatch := LEGACY_BATCH + message.turnId;
          }
          message := message.(batchId := legacyBatch);
        }
      }
      messages := messages + [message];
      assert log[..i + 1][..i] == log[..i];
    }
    assert log[..|log|] == log;
  }
}

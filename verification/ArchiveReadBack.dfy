/** What the nightly job has taken out of Redis can be read back from the archive, turn by turn. */
module ArchiveReadBack {
  import opened ConversationStore
  import opened MessageView
  import opened Maintenance

  /** The row holds the turn at j as it was kept, under its number and with the speaker and batch it is shown with. */
  ghost predicate Keeps(row: Row, all: seq<Turn>, j: nat, conversationId: string)
    requires j < |all|
  {
    var shown := View(all, conversationId)[j];
    && row.turnId == all[j].turnId && row.role == all[j].role && row.content == all[j].content
    && row.createdAt == all[j].createdAt && row.sequence == j + 1
    && row.speakerKind == shown.speakerKind && row.speakerId == shown.speakerId && SpokenBy(all[j], shown)
    && row.batchId == shown.batchId && (all[j].batchId != "" ==> row.batchId == all[j].batchId)
  }

  ghost predicate KeepsAll(rows: Rows, all: seq<Turn>, conversationId: string) {
    forall j: nat :: j < |all| ==> all[j].turnId in rows && Keeps(rows[all[j].turnId], all, j, conversationId)
  }

  lemma FullArchiveKeepsAll(rows: Rows, all: seq<Turn>, conversationId: string)
    requires ArchivedInFull(rows, View(all, conversationId))
    ensures KeepsAll(rows, all, conversationId)
    ensures forall id :: id in rows ==> exists j: nat :: j < |all| && all[j].turnId == id
  {
    var view := View(all, conversationId);
    forall j: nat | j < |all| ensures all[j].turnId in rows && Keeps(rows[all[j].turnId], all, j, conversationId) {
      ViewIsFaithful(all, conversationId, j);
      assert RowIs(rows, view[j].turnId, view, j);
    }
    forall id | id in rows ensures exists j: nat :: j < |all| && all[j].turnId == id {
      assert FaithfulAt(rows, view, id);
      var j :| RowIs(rows, id, view, j);
      ViewIsFaithful(all, conversationId, j);
      assert all[j].turnId == id;
    }
  }

  ghost predicate IsListed(listed: seq<Row>, id: string) {
    exists i :: 0 <= i < |listed| && listed[i].turnId == id
  }

  /** All rows, once each, ordered by number. */
  ghost predicate InOrder(rows: Rows, listed: seq<Row>) {
    && (forall i :: 0 <= i < |listed| ==> listed[i].turnId in rows && rows[listed[i].turnId] == listed[i])
    && (forall id :: id in rows ==> IsListed(listed, id))
    && forall i, j :: 0 <= i < j < |listed| ==> listed[i].sequence < listed[j].sequence
  }

  /** The rows recount the day: turn by turn, in the order it was kept in. */
  ghost predicate Recounts(listed: seq<Row>, all: seq<Turn>, conversationId: string) {
    |listed| == |all| && forall j: nat :: j < |all| ==> Keeps(listed[j], all, j, conversationId)
  }

  ghost predicate NumberedAt(rows: Rows, ids: seq<string>, j: nat)
    requires j < |ids|
  {
    ids[j] in rows && rows[ids[j]].turnId == ids[j] && rows[ids[j]].sequence == j + 1
  }

  /** The rows are those of the ids, numbered from one. */
  ghost predicate Enumerates(rows: Rows, ids: seq<string>) {
    && (forall j: nat :: j < |ids| ==> NumberedAt(rows, ids, j))
    && forall id :: id in rows ==> id in ids
  }

  // In a listing the row numbered j + 1 stands at j.
  lemma {:induction false} ListedAtItsNumber(rows: Rows, ids: seq<string>, listed: seq<Row>, j: nat)
    requires Enumerates(rows, ids) && InOrder(rows, listed) && j < |ids|
    ensures NumberedAt(rows, ids, j) && j < |listed| && listed[j] == rows[ids[j]]
  {
    assert NumberedAt(rows, ids, j) && IsListed(listed, ids[j]);
    var i :| 0 <= i < |listed| && listed[i].turnId == ids[j];
    if j > 0 {
      ListedAtItsNumber(rows, ids, listed, j - 1);
    }
    var k: nat :| k < |ids| && ids[k] == listed[j].turnId;
    assert NumberedAt(rows, ids, k);
  }

  lemma ListingsAreComplete(rows: Rows, ids: seq<string>, listed: seq<Row>)
    requires Enumerates(rows, ids) && InOrder(rows, listed)
    ensures |listed| == |ids| && forall j: nat :: j < |ids| ==> ids[j] in rows && listed[j] == rows[ids[j]]
  {
    forall j: nat | j < |ids| ensures j < |listed| && ids[j] in rows && listed[j] == rows[ids[j]] {
      ListedAtItsNumber(rows, ids, listed, j);
    }
    if |ids| > 0 {
      ListedAtItsNumber(rows, ids, listed, |ids| - 1);
    }
    forall m: nat | m < |listed| ensures listed[m].sequence == m + 1 <= |ids| {
      assert listed[m].turnId in rows && listed[m].turnId in ids;
      var k: nat :| k < |ids| && ids[k] == listed[m].turnId;
      ListedAtItsNumber(rows, ids, listed, k);
    }
    assert listed != [] ==> listed[|listed| - 1].sequence <= |ids|;
  }

  lemma ListingsExist(rows: Rows, ids: seq<string>)
    requires Enumerates(rows, ids)
    ensures exists listed :: InOrder(rows, listed)
  {
    forall j: nat | j < |ids|
      ensures ids[j] in rows && rows[ids[j]].turnId == ids[j] && rows[ids[j]].sequence == j + 1
    {
      assert NumberedAt(rows, ids, j);
    }
    var listed := seq(|ids|, j requires 0 <= j < |ids| => rows[ids[j]]);
    forall id | id in rows ensures IsListed(listed, id) {
      var j: nat :| j < |ids| && ids[j] == id;
      assert listed[j].turnId == id;
    }
    assert InOrder(rows, listed);
  }

  function TurnIds(all: seq<Turn>): (ids: seq<string>)
    ensures |ids| == |all| && forall j: nat :: j < |all| ==> ids[j] == all[j].turnId
  {
    seq(|all|, j requires 0 <= j < |all| => all[j].turnId)
  }

  lemma FullArchiveIsEnumerated(rows: Rows, all: seq<Turn>, conversationId: string)
    requires ArchivedInFull(rows, View(all, conversationId))
    ensures Enumerates(rows, TurnIds(all)) && KeepsAll(rows, all, conversationId)
  {
    FullArchiveKeepsAll(rows, all, conversationId);
    forall j: nat | j < |all| ensures NumberedAt(rows, TurnIds(all), j) {
      assert Keeps(rows[all[j].turnId], all, j, conversationId);
    }
    forall id | id in rows ensures id in TurnIds(all) {
      var j: nat :| j < |all| && all[j].turnId == id;
      assert TurnIds(all)[j] == id;
    }
  }

  lemma OrderedRowsRecount(rows: Rows, all: seq<Turn>, conversationId: string, listed: seq<Row>)
    requires Enumerates(rows, TurnIds(all)) && KeepsAll(rows, all, conversationId) && InOrder(rows, listed)
    ensures Recounts(listed, all, conversationId)
  {
    ListingsAreComplete(rows, TurnIds(all), listed);
    forall j: nat | j < |all| ensures Keeps(listed[j], all, j, conversationId) {
      assert listed[j] == rows[TurnIds(all)[j]];
    }
  }

  /** A day that any number of failed attempts and a processed one have taken out of Redis can be read back from its
      archive: ordered by number, the rows recount every turn kept before the first attempt, in order. */
  lemma TheDayReadsBack(n: Night, day: int, lucks: seq<Luck>, last: Luck)
    requires n.rows == map[] && DistinctTurns(Kept(n, day)) && Kept(n, day) != []
    requires Maintain(Attempts(n, day, lucks), day, last).1
    ensures var (all, after) := (Kept(n, day), Maintain(Attempts(n, day, lucks), day, last).0);
      && Kept(after, day) == []
      && KeepsAll(after.rows, all, n.store.conversationId)
      && (exists listed :: InOrder(after.rows, listed))
      && forall listed :: InOrder(after.rows, listed) ==> Recounts(listed, all, n.store.conversationId)
  {
    var all, after := Kept(n, day), Maintain(Attempts(n, day, lucks), day, last).0;
    NothingIsLostOverNights(n, day, lucks);
    AttemptIsSafe(Attempts(n, day, lucks), day, last, all);
    assert ArchivedInFull(after.rows, View(all, n.store.conversationId));
    FullArchiveIsEnumerated(after.rows, all, n.store.conversationId);
    ListingsExist(after.rows, TurnIds(all));
    forall listed | InOrder(after.rows, listed) ensures Recounts(listed, all, n.store.conversationId) {
      OrderedRowsRecount(after.rows, all, n.store.conversationId, listed);
    }
  }
}

/** What is drawn when a request is submitted. */
module Submissions {
  import opened Identifiers

  /** What is drawn for one submission: the client's id, and the store's for the batch, its messages and its lease. */
  datatype Draw = Draw(request: string, batch: string, turn: string, reply: string, token: string)

  predicate Drawn(d: Draw) {
    && IsUuid(d.request) && IsBatchDraw(d.batch) && IsTurnDraw(d.turn) && IsTurnDraw(d.reply) && IsDrawn(d.token)
    && d.turn != d.reply
  }

  function Ids(d: Draw): set<string> {
    {d.batch, d.turn, d.reply, d.token}
  }

  /** The draws of the request served (by handler 0), of its second submission, and of the request in the way. */
  predicate Separate(d: Draw, again: Draw, other: Draw) {
    && Drawn(d) && Drawn(again) && Drawn(other)
    && again.request == d.request && other.request != d.request
    && Ids(d) !! Ids(again) && Ids(d) !! Ids(other) && Ids(again) !! Ids(other)
  }

  /** Draws of these shapes exist. */
  lemma SuchDrawsExist()
    ensures exists d, again, other :: Separate(d, again, other)
  {
    var d, again, other := Example('1', '2', '3'), Example('1', '4', '5'), Example('6', '7', '8');
    assert d.request[0] != other.request[0];
    IdsDiffer(d, again);
    IdsDiffer(d, other);
    IdsDiffer(again, other);
    assert Separate(d, again, other);
  }

  // Identifiers of different kinds have different lengths.
  lemma IdsDiffer(a: Draw, b: Draw)
    requires Drawn(a) && Drawn(b) && a.batch[6] != b.batch[6] && a.token[0] != b.token[0]
    requires a.turn[5] != b.turn[5] && a.turn[5] != b.reply[5] && a.reply[5] != b.turn[5] && a.reply[5] != b.reply[5]
    ensures Ids(a) !! Ids(b)
  {
    forall x, y | x in Ids(a) && y in Ids(b) ensures x != y {
      var first := if |x| == 38 then 6 else if |x| == 37 then 5 else 0;
      assert |x| == |y| ==> x[first] != y[first];
    }
  }

  function Example(request: char, one: char, two: char): (d: Draw)
    requires Hex(request) && Hex(one) && Hex(two) && one != two
    ensures Drawn(d) && d.request == Repeated(request)
    ensures d.batch[6] == one && d.turn[5] == one && d.reply[5] == two && d.token[0] == one
    ensures |d.batch| == 38 && |d.turn| == |d.reply| == 37 && |d.token| == 32
  {
    PrefixedAreDrawn(request);
    PrefixedAreDrawn(one);
    PrefixedAreDrawn(two);
    var d := Draw(Repeated(request), "batch-" + Repeated(one), "turn-" + Repeated(one), "turn-" + Repeated(two),
      Repeated(one));
    assert d.turn[5] != d.reply[5];
    d
  }
}

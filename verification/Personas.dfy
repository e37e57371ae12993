/** The character registry and the order in which a text addresses its characters. */
module Personas {
  import opened Wrappers

  datatype Character = Character(id: string, aliases: seq<string>)
  datatype Mention = Mention(id: string, index: nat, order: nat)

  const HARUHI := "haruhi"
  const REGISTRY: seq<Character> := [
    Character(HARUHI, ["春日", "凉宫", "凉宫春日", "团长"]),
    Character("kyon", ["阿虚"]),
    Character("yuki", ["有希", "长门", "长门有希"]),
    Character("mikuru", ["实玖瑠", "朝比奈", "朝比奈实玖瑠"]),
    Character("koizumi", ["古泉", "古泉一树"])]

  predicate OccursAt(text: string, alias: string, i: nat) {
    i + |alias| <= |text| && text[i..i + |alias|] == alias
  }

  // strings.Index; offsets count characters, which orders matches as byte offsets do.
  method Index(text: string, alias: string) returns (found: Option<nat>)
    ensures found.None? ==> forall i: nat :: !OccursAt(text, alias, i)
    ensures found.Some? ==> OccursAt(text, alias, found.value)
    ensures found.Some? ==> forall i: nat :: i < found.value ==> !OccursAt(text, alias, i)
  {
    var i: nat := 0;
    while i + |alias| <= |text|
      invariant forall j: nat :: j < i ==> !OccursAt(text, alias, j)
      decreases |text| - i
    {
      if text[i..i + |alias|] == alias {
        return Some(i);
      }
      i := i + 1;
    }
    return None;
  }

  /** One of the first `n` aliases is used at `i`. */
  ghost predicate MentionedAt(text: string, aliases: seq<string>, n: nat, i: nat) {
    exists a :: 0 <= a < n && a < |aliases| && OccursAt(text, aliases[a], i)
  }

  /** `found` is where a text first uses any of the first `n` aliases. */
  ghost predicate FirstMention(text: string, aliases: seq<string>, n: nat, found: Option<nat>) {
    match found
    case None => forall i: nat :: !MentionedAt(text, aliases, n, i)
    case Some(first) =>
      MentionedAt(text, aliases, n, first) && forall i: nat :: i < first ==> !MentionedAt(text, aliases, n, i)
  }

  method FindFirst(text: string, aliases: seq<string>) returns (first: Option<nat>)
    ensures FirstMention(text, aliases, |aliases|, first)
  {
    first := None;
    for a := 0 to |aliases|
      invariant FirstMention(text, aliases, a, first)
    {
      var index := Index(text, aliases[a]);
      OneMoreAlias(text, aliases, a, a + 1);
      if index.Some? && (first.None? || index.value < first.value) {
        first := index;
      }
    }
  }

  lemma OneMoreAlias(text: string, aliases: seq<string>, a: nat, b: nat)
    requires a < |aliases| && b == a + 1
    ensures forall i: nat :: MentionedAt(text, aliases, b, i) <==>
      MentionedAt(text, aliases, a, i) || OccursAt(text, aliases[a], i)
  {
  }

  predicate Before(m: Mention, n: Mention) {
    m.index < n.index || (m.index == n.index && m.order < n.order)
  }

  /** Mentions of distinct characters, each at its first use. */
  ghost predicate Genuine(text: string, m: Mention) {
    m.order < |REGISTRY| && REGISTRY[m.order].id == m.id
      && FirstMention(text, REGISTRY[m.order].aliases, |REGISTRY[m.order].aliases|, Some(m.index))
  }

  ghost predicate Ordered(mentions: seq<Mention>) {
    forall i, j :: 0 <= i < j < |mentions| ==> Before(mentions[i], mentions[j])
  }

  /** Character `c` of the registry is mentioned at `i`. */
  ghost predicate Mentioned(text: string, c: nat, i: nat)
    requires c < |REGISTRY|
  {
    MentionedAt(text, REGISTRY[c].aliases, |REGISTRY[c].aliases|, i)
  }

  ghost predicate Addressed(text: string, c: nat)
    requires c < |REGISTRY|
  {
    exists i: nat :: Mentioned(text, c, i)
  }

  ghost predicate Recorded(found: seq<Mention>, c: nat) {
    exists m :: m in found && m.order == c
  }

  lemma InsertedIsOrdered(sorted: seq<Mention>, at: nat, m: Mention)
    requires Ordered(sorted) && at <= |sorted|
    requires forall j :: 0 <= j < at ==> Before(sorted[j], m)
    requires forall j :: at <= j < |sorted| ==> Before(m, sorted[j])
    ensures Ordered(sorted[..at] + [m] + sorted[at..])
  {
    var longer := sorted[..at] + [m] + sorted[at..];
    assert forall i :: 0 <= i < |longer| ==>
      longer[i] == if i < at then sorted[i] else if i == at then m else sorted[i - 1];
  }

  method InsertMention(sorted: seq<Mention>, m: Mention) returns (longer: seq<Mention>)
    requires Ordered(sorted) && forall i :: 0 <= i < |sorted| ==> sorted[i].order != m.order
    ensures Ordered(longer) && |longer| == |sorted| + 1
    ensures forall n :: n in longer <==> n in sorted || n == m
  {
    var at := |sorted|;
    while at > 0 && Before(m, sorted[at - 1])
      invariant 0 <= at <= |sorted|
      invariant forall j :: at <= j < |sorted| ==> Before(m, sorted[j])
    {
      at := at - 1;
    }
    assert forall j :: 0 <= j < at ==> Before(sorted[j], m) by {
      if at > 0 {
        assert sorted[at - 1].order != m.order;
      }
    }
    InsertedIsOrdered(sorted, at, m);
    assert sorted == sorted[..at] + sorted[at..];
    longer := sorted[..at] + [m] + sorted[at..];
  }

  // sort.SliceStable on the mentions.
  method SortMentions(mentions: seq<Mention>) returns (sorted: seq<Mention>)
    requires forall i, j :: 0 <= i < j < |mentions| ==> mentions[i].order != mentions[j].order
    ensures Ordered(sorted)
    ensures |sorted| == |mentions|
    ensures forall m :: m in sorted <==> m in mentions
  {
    sorted := [];
    for i := 0 to |mentions|
      invariant |sorted| == i && Ordered(sorted)
      invariant forall m :: m in sorted <==> m in mentions[..i]
    {
      forall j | 0 <= j < |sorted| ensures sorted[j].order != mentions[i].order {
        assert sorted[j] in mentions[..i];
      }
      sorted := InsertMention(sorted, mentions[i]);
      assert mentions[..i + 1] == mentions[..i] + [mentions[i]];
    }
    assert mentions[..|mentions|] == mentions;
  }

  // One mention of every addressed character, in registry order.
  method FindMentions(text: string) returns (found: seq<Mention>)
    ensures forall m :: m in found ==> Genuine(text, m)
    ensures forall i, j :: 0 <= i < j < |found| ==> found[i].order < found[j].order
    ensures forall c :: 0 <= c < |REGISTRY| ==> (Recorded(found, c) <==> Addressed(text, c))
  {
    found := [];
    for order := 0 to |REGISTRY|
      invariant forall m :: m in found ==> Genuine(text, m) && m.order < order
      invariant forall i, j :: 0 <= i < j < |found| ==> found[i].order < found[j].order
      invariant forall c :: 0 <= c < order ==> (Recorded(found, c) <==> Addressed(text, c))
    {
      var first := FindFirst(text, REGISTRY[order].aliases);
      if first.Some? {
        var mention := Mention(REGISTRY[order].id, first.value, order);
        assert Mentioned(text, order, mention.index);
        assert forall c :: Recorded(found + [mention], c) <==> Recorded(found, c) || c == order by {
          assert mention in found + [mention];
        }
        found := found + [mention];
      }
    }
  }

  /** The ids are exactly the characters a text mentions, earliest first mention first. */
  ghost predicate Resolves(text: string, ids: seq<string>, mentions: seq<Mention>) {
    && |ids| == |mentions| && Ordered(mentions)
    && (forall i :: 0 <= i < |ids| ==> ids[i] == mentions[i].id && Genuine(text, mentions[i]))
    && forall c :: 0 <= c < |REGISTRY| ==> (REGISTRY[c].id in ids <==> Addressed(text, c))
  }

  method ResolveAliases(text: string) returns (ids: seq<string>, ghost mentions: seq<Mention>)
    ensures Resolves(text, ids, mentions)
    ensures forall c :: 0 <= c < |REGISTRY| ==> (REGISTRY[c].id in ids <==> Addressed(text, c))
  {
    var found := FindMentions(text);
    var sorted := SortMentions(found);
    ids := [];
    for i := 0 to |sorted|
      invariant |ids| == i && forall j :: 0 <= j < i ==> ids[j] == sorted[j].id
    {
      ids := ids + [sorted[i].id];
    }
    mentions := sorted;
  }
}

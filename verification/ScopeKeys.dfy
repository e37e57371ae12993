/** How a scope is written into Redis keys and into the nightly list, and when it is read back. */
module ScopeKeys {
  import opened Wrappers
  import opened Identifiers
  import opened GoText
  import opened ConversationStore
  import opened NightlyJob

  /** The member of the active set that stands for a scope. */
  function Member(id: ScopeId): string {
    id.channel + "|" + id.owner + "|" + id.conversationId
  }

  // The position of the first bar, if any.
  function Bar(s: string): (r: Option<nat>)
    ensures r.Some? ==> r.value < |s| && s[r.value] == '|' && '|' !in s[..r.value]
    ensures r.None? ==> '|' !in s
  {
    if s == [] then None
    else if s[0] == '|' then Some(0)
    else
      var rest := Bar(s[1..]);
      if rest.None? then None
      else
        assert s[..rest.value + 1] == [s[0]] + s[1..][..rest.value];
        Some(rest.value + 1)
  }

  // Cut at the first two bars; a part that is missing or empty refuses the member.
  function Parse(member: string): Option<ScopeId> {
    var first := Bar(member);
    if first.None? then None
    else
      var rest := member[first.value + 1..];
      var second := Bar(rest);
      if second.None? then None
      else
        var id := ScopeId(member[..first.value], rest[..second.value], rest[second.value + 1..]);
        if id.channel == "" || id.owner == "" || id.conversationId == "" then None else Some(id)
  }

  /** Bars are allowed in the conversation only. */
  predicate Readable(id: ScopeId) {
    && id.channel != "" && '|' !in id.channel
    && id.owner != "" && '|' !in id.owner
    && id.conversationId != ""
  }

  lemma BarIsFirst(head: string, tail: string)
    requires '|' !in head
    ensures Bar(head + "|" + tail) == Some(|head|)
  {
    var s := head + "|" + tail;
    assert s[|head|] == '|';
    assert forall i :: 0 <= i < |head| ==> s[i] == head[i];
    assert forall n :: |head| < n <= |s| ==> s[..n][|head|] == '|';
  }

  lemma CutAtBar(s: string)
    ensures Bar(s).Some? ==> s == s[..Bar(s).value] + "|" + s[Bar(s).value + 1..]
  {
  }

  lemma BarsAssociate(id: ScopeId)
    ensures Member(id) == id.channel + "|" + (id.owner + "|" + id.conversationId)
  {
  }

  /** What the nightly job reads from the active set is written back as the same member. */
  lemma ParsedIsWritten(member: string)
    ensures Parse(member).Some? ==> Member(Parse(member).value) == member && Readable(Parse(member).value)
  {
    if Parse(member).Some? {
      var id := Parse(member).value;
      var rest := member[Bar(member).value + 1..];
      CutAtBar(member);
      CutAtBar(rest);
      BarsAssociate(id);
    }
  }

  /** A scope is read back exactly when its parts are nonempty and neither channel nor owner holds a bar. */
  lemma ReadBackIff(id: ScopeId)
    ensures Parse(Member(id)) == Some(id) <==> Readable(id)
  {
    ParsedIsWritten(Member(id));
    if Readable(id) {
      var rest := id.owner + "|" + id.conversationId;
      assert Member(id) == id.channel + "|" + rest;
      BarIsFirst(id.channel, rest);
      BarIsFirst(id.owner, id.conversationId);
      assert Member(id)[..|id.channel|] == id.channel && Member(id)[|id.channel| + 1..] == rest;
      assert rest[..|id.owner|] == id.owner && rest[|id.owner| + 1..] == id.conversationId;
    }
  }

  // ---- Scopes the program serves ----

  const CHANNELS: set<string> := {"api", "wechat"}
  const MAX_OWNER := 128

  predicate IsSpaceId(id: string) {
    || id == "sos-group" || id == "direct-haruhi" || id == "direct-kyon"
    || id == "direct-yuki" || id == "direct-mikuru" || id == "direct-koizumi"
  }

  /** validateIdentity and FindSpace accept the scope. */
  predicate Served(id: ScopeId) {
    id.channel in CHANNELS && 0 < ByteLength(id.owner) <= MAX_OWNER && IsSpaceId(id.conversationId)
  }

  /** No bar outside the owner. */
  predicate Enclosed(id: ScopeId) {
    '|' !in id.channel && '|' !in id.conversationId
  }

  lemma ServedAreEnclosed(id: ScopeId)
    requires Served(id)
    ensures Enclosed(id) && id.channel != "" && id.owner != "" && id.conversationId != ""
  {
  }

  /** Of the scopes the program serves, exactly those are read back whose owner holds no bar. */
  lemma ServedIsReadBackIff(id: ScopeId)
    requires Served(id)
    ensures Parse(Member(id)) == Some(id) <==> '|' !in id.owner
  {
    ServedAreEnclosed(id);
    ReadBackIff(id);
  }

  /** A served scope whose owner holds a bar: what the nightly job reads instead is no scope of the program, belongs
      to another owner, and has the very same keys, so the owner's day is archived for somebody else and cleared. An
      owner that begins with the bar is passed over. */
  lemma BarredOwnerIsReadAsAnother(id: ScopeId, head: string, more: string, prefix: string, item: Item)
    requires Served(id) && id.owner == head + "|" + more && '|' !in head
    ensures var other := ScopeId(id.channel, head, more + "|" + id.conversationId);
      && Parse(Member(id)) == (if head == "" then None else Some(other))
      && other.owner != id.owner && !Served(other)
      && Member(other) == Member(id) && Key(prefix, other, item) == Key(prefix, id, item)
  {
    ServedAreEnclosed(id);
    var other := ScopeId(id.channel, head, more + "|" + id.conversationId);
    assert other.conversationId[|more|] == '|';
    assert '|' in other.conversationId;
    if Served(other) {
      ServedAreEnclosed(other);
    }
    assert Member(other) == Member(id);
    if head == "" {
      EmptyOwnerIsRefused(other);
    } else {
      ReadBackIff(other);
    }
  }

  lemma EmptyOwnerIsRefused(id: ScopeId)
    requires '|' !in id.channel && id.owner == ""
    ensures Parse(Member(id)).None?
  {
    var rest := "|" + id.conversationId;
    assert Member(id) == id.channel + "|" + rest;
    BarIsFirst(id.channel, rest);
    assert Member(id)[|id.channel| + 1..] == rest;
  }

  /** Such owners are served. */
  lemma BarredOwnersAreServed()
    ensures Served(ScopeId("api", "a|b", "direct-haruhi"))
  {
    assert ByteLength("|b") == 1 + ByteLength("b");
  }

  // ---- The nightly list ----

  // parseActiveMember: a legacy member is cut at its first bar, and stands for the default conversation.
  function ParseLegacy(member: string): Option<ScopeId> {
    var first := Bar(member);
    if first.None? || member[..first.value] == "" || member[first.value + 1..] == "" then None
    else Some(ScopeId(member[..first.value], member[first.value + 1..], DEFAULT_CONVERSATION))
  }

  /** The member of the legacy active set that stands for an owner. */
  function LegacyMember(channel: string, owner: string): string {
    channel + "|" + owner
  }

  lemma LegacyIsReadBackIff(channel: string, owner: string)
    ensures ParseLegacy(LegacyMember(channel, owner)) == Some(ScopeId(channel, owner, DEFAULT_CONVERSATION))
      <==> channel != "" && '|' !in channel && owner != ""
  {
    var member := LegacyMember(channel, owner);
    CutAtBar(member);
    if '|' !in channel {
      BarIsFirst(channel, owner);
      assert member[..|channel|] == channel && member[|channel| + 1..] == owner;
    }
  }

  ghost predicate ListedAs(id: ScopeId, members: seq<string>, legacy: seq<string>) {
    || Member(id) in members
    || exists m :: m in legacy && ParseLegacy(m).Some? && Member(ParseLegacy(m).value) == Member(id)
  }

  /** Each readable scope that is listed, or whose owner's default conversation is listed as legacy, once, in any
      order. */
  method ActiveScopes(members: seq<string>, legacy: seq<string>) returns (scopes: seq<ScopeId>)
    ensures Distinct(scopes)
    ensures forall id :: id in scopes <==> Readable(id) && ListedAs(id, members, legacy)
  {
    var joined := members;
    for n := 0 to |legacy|
      invariant forall member :: member in joined <==>
        || member in members
        || exists m :: m in legacy[..n] && ParseLegacy(m).Some? && Member(ParseLegacy(m).value) == member
    {
      assert legacy[..n + 1] == legacy[..n] + [legacy[n]];
      var identity := ParseLegacy(legacy[n]);
      if identity.Some? {
        joined := joined + [Member(identity.value)];
      }
    }
    assert legacy[..|legacy|] == legacy;
    scopes := ParseMembers(joined);
  }

  // The scopes are those of the members seen.
  ghost predicate ScopesOf(scopes: seq<ScopeId>, seen: set<string>) {
    forall id :: id in scopes <==> Member(id) in seen && Readable(id)
  }

  lemma ScopeIsAdded(scopes: seq<ScopeId>, seen: set<string>, member: string)
    requires ScopesOf(scopes, seen) && Distinct(scopes) && member !in seen
    ensures Parse(member).None? ==> ScopesOf(scopes, seen + {member})
    ensures Parse(member).Some? ==>
      ScopesOf(scopes + [Parse(member).value], seen + {member}) && Distinct(scopes + [Parse(member).value])
  {
    ParsedIsWritten(member);
    forall id | Member(id) == member ensures Readable(id) <==> Parse(member) == Some(id) {
      ReadBackIff(id);
    }
  }

  method ParseMembers(members: seq<string>) returns (scopes: seq<ScopeId>)
    ensures Distinct(scopes)
    ensures forall id :: id in scopes <==> Readable(id) && Member(id) in members
  {
    var seen: set<string> := {};
    scopes := [];
    for n := 0 to |members|
      invariant forall member :: member in seen <==> member in members[..n]
      invariant ScopesOf(scopes, seen) && Distinct(scopes)
    {
      var member := members[n];
      assert members[..n + 1] == members[..n] + [member];
      if member !in seen {
        ScopeIsAdded(scopes, seen, member);
        seen := seen + {member};
        var id := Parse(member);
        if id.Some? {
          scopes := scopes + [id.value];
        }
      }
    }
    assert members[..|members|] == members;
  }

  // ---- Keys ----

  /** The data of a scope; `date` is a civil date of ten characters. */
  datatype Item =
    | Messages(date: string)
    | Sequence(date: string)
    | Requests(date: string)
    | Lease
    | Cell(batchId: string)

  // Batch ids are as drawn; dates are always written with ten characters.
  predicate Proper(item: Item) {
    match item
    case Lease => true
    case Cell(batchId) => IsBatchDraw(batchId)
    case _ => |item.date| == 10
  }

  function Suffix(item: Item): string {
    match item
    case Messages(date) => ":" + date + ":messages"
    case Sequence(date) => ":" + date + ":sequence"
    case Requests(date) => ":" + date + ":requests"
    case Lease => ":lease"
    case Cell(batchId) => ":batch:" + batchId
  }

  function Key(prefix: string, id: ScopeId, item: Item): string {
    prefix + "conversation:v2:" + "{" + Member(id) + "}" + Suffix(item)
  }

  lemma EndsAlike(a: string, b: string, x: string, y: string)
    requires a + x == b + y && |x| <= |y|
    ensures y[|y| - |x|..] == x
    ensures |x| == |y| ==> a == b && x == y
  {
    assert (a + x)[|a + x| - |x|..] == x && (b + y)[|b + y| - |x|..] == y[|y| - |x|..];
    if |x| == |y| {
      assert (a + x)[..|a|] == a && (b + y)[..|b|] == b;
    }
  }

  // The last characters tell the kinds apart.
  lemma KindsDiffer(item: Item)
    requires Proper(item)
    ensures |Suffix(item)| == if item.Lease? then 6 else if item.Cell? then 45 else 20
    ensures var n := |Suffix(item)|;
      var fifth, second := Suffix(item)[n - 5], Suffix(item)[n - 2];
      match item
      case Messages(_) => fifth == 's'
      case Sequence(_) => fifth == 'u' && second == 'c'
      case Requests(_) => fifth == 'u' && second == 't'
      case Lease => fifth == 'l'
      case Cell(_) => Hex(fifth)
    ensures item.Cell? ==> Suffix(item)[7..] == item.batchId
    ensures !item.Cell? && !item.Lease? ==> Suffix(item)[1..11] == item.date
  {
    if item.Cell? {
      assert Suffix(item)[40] == item.batchId[33] == item.batchId[6..][27];
    }
  }

  lemma SuffixesDiffer(x: Item, y: Item)
    requires Proper(x) && Proper(y) && |Suffix(x)| <= |Suffix(y)|
    requires Suffix(y)[|Suffix(y)| - |Suffix(x)|..] == Suffix(x)
    ensures x == y
  {
    KindsDiffer(x);
    KindsDiffer(y);
    var n, m := |Suffix(x)|, |Suffix(y)|;
    assert Suffix(x)[n - 5] == Suffix(y)[m - 5] && Suffix(x)[n - 2] == Suffix(y)[m - 2];
    assert x.Cell? <==> y.Cell?;
    assert x.Lease? <==> y.Lease?;
    assert n == m && Suffix(x) == Suffix(y);
  }

  lemma BarIsLast(a: string, u: string, b: string, v: string)
    requires a + "|" + u == b + "|" + v && '|' !in u && '|' !in v
    ensures a == b && u == v
  {
    var s := a + "|" + u;
    assert s[|a|] == '|' && s[|b|] == '|';
    assert forall i :: |a| < i < |s| ==> s[i] == u[i - |a| - 1];
    assert forall i :: |b| < i < |s| ==> s[i] == v[i - |b| - 1];
    assert a == s[..|a|] && b == s[..|b|];
    assert u == s[|a| + 1..] && v == s[|b| + 1..];
  }

  /** The member determines the scope, among scopes with bars in the owner only, and among readable ones. */
  lemma MemberIsInjective(a: ScopeId, b: ScopeId)
    requires (Enclosed(a) && Enclosed(b)) || (Readable(a) && Readable(b))
    ensures Member(a) == Member(b) <==> a == b
  {
    if Member(a) == Member(b) {
      if Readable(a) && Readable(b) {
        ReadBackIff(a);
        ReadBackIff(b);
      } else {
        BarsAssociate(a);
        BarsAssociate(b);
        var rest, more := a.owner + "|" + a.conversationId, b.owner + "|" + b.conversationId;
        BarIsFirst(a.channel, rest);
        BarIsFirst(b.channel, more);
        assert a.channel == Member(a)[..|a.channel|] && rest == Member(a)[|a.channel| + 1..];
        assert b.channel == Member(b)[..|b.channel|] && more == Member(b)[|b.channel| + 1..];
        BarIsLast(a.owner, a.conversationId, b.owner, b.conversationId);
      }
    }
  }

  /** Different data never share a key: the data of each scope the program serves, whatever its owner is called, and
      of each readable scope, whatever its conversation is called, can be treated on their own. */
  lemma KeysAreSeparate(prefix: string, a: ScopeId, x: Item, b: ScopeId, y: Item)
    requires (Enclosed(a) && Enclosed(b)) || (Readable(a) && Readable(b))
    requires Proper(x) && Proper(y)
    ensures Key(prefix, a, x) == Key(prefix, b, y) ==> a == b && x == y
  {
    var head := prefix + "conversation:v2:" + "{";
    var c, d := head + Member(a) + "}", head + Member(b) + "}";
    assert Key(prefix, a, x) == c + Suffix(x) && Key(prefix, b, y) == d + Suffix(y);
    if Key(prefix, a, x) == Key(prefix, b, y) {
      SameEndSameItem(c, x, d, y);
      EndsAlike(c, d, Suffix(x), Suffix(y));
      assert Member(a) == c[|head|..|c| - 1] && Member(b) == d[|head|..|d| - 1];
      MemberIsInjective(a, b);
    }
  }

  lemma SameEndSameItem(c: string, x: Item, d: string, y: Item)
    requires Proper(x) && Proper(y) && c + Suffix(x) == d + Suffix(y)
    ensures x == y
  {
    if |Suffix(x)| <= |Suffix(y)| {
      EndsAlike(c, d, Suffix(x), Suffix(y));
      SuffixesDiffer(x, y);
    } else {
      EndsAlike(d, c, Suffix(y), Suffix(x));
      SuffixesDiffer(y, x);
    }
  }
}

/** Who speaks: the planner's answer cleaned against the space's participants, with a fallback. */
module Planning {
  import opened Wrappers
  import opened Personas

  const MAX_SPEAKERS := 5

  /** The allowed ids of a list, each at its first occurrence. */
  function FirstOccurrences(ids: seq<string>, allowed: set<string>): seq<string> {
    if ids == [] then []
    else
      var rest := FirstOccurrences(ids[..|ids| - 1], allowed);
      var last := ids[|ids| - 1];
      if last in allowed && last !in rest then rest + [last] else rest
  }

  // The first position of an id that occurs.
  function FirstIndex(ids: seq<string>, id: string): (i: nat)
    requires id in ids
    ensures i < |ids| && ids[i] == id && forall j :: 0 <= j < i ==> ids[j] != id
  {
    if ids[0] == id then 0 else 1 + FirstIndex(ids[1..], id)
  }

  /** Exactly the allowed ids that occur, without repetition, in order of first occurrence. */
  lemma {:induction false} FirstOccurrencesAreExact(ids: seq<string>, allowed: set<string>)
    ensures var clean := FirstOccurrences(ids, allowed);
      && Distinct(clean)
      && (forall id :: id in clean <==> id in ids && id in allowed)
      && forall i, j :: 0 <= i < j < |clean| ==> FirstIndex(ids, clean[i]) < FirstIndex(ids, clean[j])
  {
    if ids != [] {
      var before := ids[..|ids| - 1];
      var last := ids[|ids| - 1];
      FirstOccurrencesAreExact(before, allowed);
      var rest, clean := FirstOccurrences(before, allowed), FirstOccurrences(ids, allowed);
      forall id ensures id in ids <==> id in before || id == last {
        assert ids == before + [last];
      }
      forall i, j | 0 <= i < j < |clean| ensures FirstIndex(ids, clean[i]) < FirstIndex(ids, clean[j]) {
        EarlierIndexStays(before, last, clean[i]);
        if j < |rest| {
          EarlierIndexStays(before, last, clean[j]);
        }
        assert ids == before + [last];
      }
    }
  }

  lemma EarlierIndexStays(before: seq<string>, last: string, id: string)
    requires id in before
    ensures id in before + [last] && FirstIndex(before + [last], id) == FirstIndex(before, id)
  {
    var i, j := FirstIndex(before, id), FirstIndex(before + [last], id);
    assert (before + [last])[i] == id;
  }

  // Distinct members of a set are no more than the set.
  lemma {:induction false} Pigeonhole(ids: seq<string>, allowed: set<string>)
    requires Distinct(ids) && forall id :: id in ids ==> id in allowed
    ensures |ids| <= |allowed|
  {
    if ids != [] {
      var last := ids[|ids| - 1];
      forall id | id in ids[..|ids| - 1] ensures id in allowed - {last} {
      }
      Pigeonhole(ids[..|ids| - 1], allowed - {last});
    }
  }

  /** The earliest-mentioned participant, or Haruhi. */
  ghost predicate IsFallback(text: string, allowed: set<string>, id: string) {
    (exists c: nat, m: nat ::
       && c < |REGISTRY| && REGISTRY[c].id == id && id in allowed && IsFirst(text, c, m)
       && forall d: nat, n: nat :: d < |REGISTRY| && REGISTRY[d].id in allowed && IsFirst(text, d, n) && d != c ==>
         m < n || (m == n && c < d))
    || (id == "haruhi" && forall c: nat :: c < |REGISTRY| && REGISTRY[c].id in allowed ==> !Addressed(text, c))
  }

  /** Character `c` is first mentioned at `m`. */
  ghost predicate IsFirst(text: string, c: nat, m: nat)
    requires c < |REGISTRY|
  {
    Mentioned(text, c, m) && forall i: nat :: i < m ==> !Mentioned(text, c, i)
  }

  function Capped(ids: seq<string>): seq<string> {
    if |ids| <= MAX_SPEAKERS then ids else ids[..MAX_SPEAKERS]
  }

  function Participants(participants: seq<string>): set<string> {
    set p | p in participants
  }

  /** In a space of at most five participants the cap drops none of them. */
  lemma CapDropsNone(planned: seq<string>, participants: seq<string>)
    requires |participants| <= 5
    ensures Capped(FirstOccurrences(planned, Participants(participants)))
      == FirstOccurrences(planned, Participants(participants))
  {
    FirstOccurrencesAreExact(planned, Participants(participants));
    Pigeonhole(FirstOccurrences(planned, Participants(participants)), Participants(participants));
    FewerParticipants(participants);
  }

  /** The ids of all characters: the participants of the group space. */
  const GROUP: seq<string> := seq(|REGISTRY|, i requires 0 <= i < |REGISTRY| => REGISTRY[i].id)

  /** In the group space everyone the planner names speaks, once, and all of the characters can. */
  lemma TheGroupIsNeverCut(planned: seq<string>)
    ensures var plan := Capped(FirstOccurrences(planned, Participants(GROUP)));
      && Distinct(plan) && (forall id :: id in plan <==> id in planned && id in GROUP)
      && ((forall id :: id in GROUP ==> id in planned) ==> |plan| == |GROUP| == 5)
  {
    var plan := FirstOccurrences(planned, Participants(GROUP));
    CapDropsNone(planned, GROUP);
    FirstOccurrencesAreExact(planned, Participants(GROUP));
    if forall id :: id in GROUP ==> id in planned {
      forall i, j | 0 <= i < j < |GROUP| ensures GROUP[i] != GROUP[j] {
        RegistryIdsDiffer(i, j);
      }
      forall id | id in GROUP ensures id in Participants(plan) {
      }
      Pigeonhole(GROUP, Participants(plan));
      FewerParticipants(plan);
    }
  }

  lemma {:induction false} FewerParticipants(participants: seq<string>)
    ensures |Participants(participants)| <= |participants|
  {
    if participants != [] {
      var before, last := participants[..|participants| - 1], participants[|participants| - 1];
      FewerParticipants(before);
      assert participants == before + [last];
      assert Participants(participants) == Participants(before) + {last};
    }
  }

  /** Total and exact: the planner's first occurrences of participants up to the cap, or the fallback; never
      empty, never repeating. A failed planner counts as an empty answer. */
  method PlanSpeakers(content: string, planned: seq<string>, participants: seq<string>) returns (plan: seq<string>)
    ensures Distinct(plan) && 1 <= |plan| <= 5
    ensures var allowed := Participants(participants);
      var clean := FirstOccurrences(planned, allowed);
      if clean != [] then plan == Capped(clean) else |plan| == 1 && IsFallback(content, allowed, plan[0])
  {
    var addressed, mentions := ResolveAliases(content);
    var allowed := Allowed(participants);
    FirstOccurrencesAreExact(planned, allowed);
    var clean := Clean(planned, allowed);
    if |clean| > 0 {
      return clean;
    }
    var id := Fallback(content, addressed, mentions, allowed);
    return [id];
  }

  method Allowed(participants: seq<string>) returns (allowed: set<string>)
    ensures allowed == Participants(participants)
  {
    allowed := {};
    for i := 0 to |participants|
      invariant allowed == Participants(participants[..i])
    {
      assert participants[..i + 1] == participants[..i] + [participants[i]];
      allowed := allowed + {participants[i]};
    }
    assert participants[..|participants|] == participants;
  }

  // The first addressed participant, or Haruhi.
  method Fallback(content: string, addressed: seq<string>, ghost mentions: seq<Mention>, allowed: set<string>)
    returns (id: string)
    requires Resolves(content, addressed, mentions)
    ensures IsFallback(content, allowed, id)
  {
    for i := 0 to |addressed|
      invariant forall j :: 0 <= j < i ==> addressed[j] !in allowed
    {
      if addressed[i] in allowed {
        EarliestIsFallback(content, addressed, mentions, allowed, i);
        return addressed[i];
      }
    }
    return HARUHI;
  }

  method Clean(planned: seq<string>, allowed: set<string>) returns (clean: seq<string>)
    ensures clean == Capped(FirstOccurrences(planned, allowed))
  {
    var seen: set<string> := {};
    clean := [];
    for i := 0 to |planned|
      invariant clean == FirstOccurrences(planned[..i], allowed) && seen == (set id | id in clean)
      invariant |clean| <= MAX_SPEAKERS
    {
      if |clean| == MAX_SPEAKERS {
        FirstOccurrencesGrow(planned, allowed, i);
        return;
      }
      assert planned[..i + 1][..i] == planned[..i];
      var id := planned[i];
      if id in allowed && id !in seen {
        seen := seen + {id};
        clean := clean + [id];
      }
    }
    assert planned[..|planned|] == planned;
  }

  // More planned ids only add first occurrences behind those found.
  lemma {:induction false} FirstOccurrencesGrow(planned: seq<string>, allowed: set<string>, i: nat)
    requires i <= |planned|
    ensures FirstOccurrences(planned[..i], allowed) <= FirstOccurrences(planned, allowed)
    decreases |planned| - i
  {
    if i == |planned| {
      assert planned[..i] == planned;
    } else {
      assert planned[..i + 1][..i] == planned[..i];
      FirstOccurrencesGrow(planned, allowed, i + 1);
    }
  }

  lemma EarliestIsFallback(text: string, addressed: seq<string>, mentions: seq<Mention>, allowed: set<string>, at: nat)
    requires Resolves(text, addressed, mentions) && at < |addressed| && addressed[at] in allowed
    requires forall j :: 0 <= j < at ==> addressed[j] !in allowed
    ensures IsFallback(text, allowed, addressed[at])
  {
    var c, m := mentions[at].order, mentions[at].index;
    assert IsFirst(text, c, m);
    forall d: nat, n: nat | d < |REGISTRY| && REGISTRY[d].id in allowed && IsFirst(text, d, n) && d != c
      ensures m < n || (m == n && c < d)
    {
      assert Addressed(text, d);
      var j :| 0 <= j < |addressed| && addressed[j] == REGISTRY[d].id;
      RegistryIdsDiffer(mentions[j].order, d);
      assert Genuine(text, mentions[j]) && Mentioned(text, d, mentions[j].index);
    }
  }

  lemma RegistryIdsDiffer(c: nat, d: nat)
    requires c < |REGISTRY| && d < |REGISTRY|
    ensures REGISTRY[c].id == REGISTRY[d].id ==> c == d
  {
  }
}

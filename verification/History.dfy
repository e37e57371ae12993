/** Choosing how much history a character is given: whole runs of one batch, newest first, within a token budget. */
module History {
  import opened GoText
  import opened ConversationStore

  const CONTEXT_TOKENS := 6000
  const RESERVED_TOKENS := 1200

  // ---- Token estimates ----

  predicate IsAscii(c: char) {
    c <= '\U{007F}'
  }

  predicate IsWordChar(c: char) {
    '0' <= c <= '9' || 'A' <= c <= 'Z' || 'a' <= c <= 'z'
  }

  /** A word starts at an ASCII letter or digit not preceded by one. */
  predicate WordStart(s: string, i: nat)
    requires i < |s|
  {
    IsWordChar(s[i]) && (i == 0 || !IsWordChar(s[i - 1]))
  }

  function WordStarts(s: string): set<nat> {
    set i | 0 <= i < |s| && WordStart(s, i)
  }

  function NonAscii(s: string): set<nat> {
    set i | 0 <= i < |s| && !IsAscii(s[i])
  }

  /** One token for each non-ASCII character, each ASCII word, and each 16 bytes of the trimmed text. */
  function EstimateOf(s: string): nat {
    |NonAscii(s)| + |WordStarts(s)| + ByteLength(TrimSpace(s)) / 16
  }

  function OthersBefore(value: string, i: nat): set<nat>
    requires i <= |value|
  {
    set j: nat | j < i && !IsAscii(value[j])
  }

  function WordsBefore(value: string, i: nat): set<nat>
    requires i <= |value|
  {
    set j: nat | j < i && WordStart(value, j)
  }

  lemma CountOther(value: string, i: nat)
    requires i < |value|
    ensures |OthersBefore(value, i + 1)| == |OthersBefore(value, i)| + (if IsAscii(value[i]) then 0 else 1)
  {
    if IsAscii(value[i]) {
      assert OthersBefore(value, i + 1) == OthersBefore(value, i);
    } else {
      assert OthersBefore(value, i + 1) == OthersBefore(value, i) + {i};
    }
  }

  lemma CountWord(value: string, i: nat)
    requires i < |value|
    ensures |WordsBefore(value, i + 1)| == |WordsBefore(value, i)| + (if WordStart(value, i) then 1 else 0)
  {
    if WordStart(value, i) {
      assert WordsBefore(value, i + 1) == WordsBefore(value, i) + {i};
    } else {
      assert WordsBefore(value, i + 1) == WordsBefore(value, i);
    }
  }

  method EstimateTokens(value: string) returns (tokens: nat)
    ensures tokens == EstimateOf(value)
  {
    var nonAscii, asciiWords, inWord := 0, 0, false;
    for i := 0 to |value|
      invariant nonAscii == |OthersBefore(value, i)|
      invariant asciiWords == |WordsBefore(value, i)|
      invariant inWord <==> i > 0 && IsWordChar(value[i - 1])
    {
      CountOther(value, i);
      CountWord(value, i);
      var r := value[i];
      if !IsAscii(r) {
        nonAscii := nonAscii + 1;
        inWord := false;
      } else if IsWordChar(r) {
        if !inWord {
          asciiWords := asciiWords + 1;
          inWord := true;
        }
      } else {
        inWord := false;
      }
    }
    assert OthersBefore(value, |value|) == NonAscii(value);
    assert WordsBefore(value, |value|) == WordStarts(value);
    tokens := nonAscii + asciiWords + ByteLength(TrimSpace(value)) / 16;
  }

  /** Characters that take as many bytes each and are not spaces. */
  predicate Uniform(s: string, width: nat) {
    forall i :: 0 <= i < |s| ==> Utf8Width(s[i]) == width && !IsSpace(s[i])
  }

  lemma {:induction false} UniformBytes(s: string, width: nat)
    requires Uniform(s, width)
    ensures ByteLength(s) == width * |s| && TrimSpace(s) == s
  {
    if s != [] {
      UniformBytes(s[1..], width);
      assert width * |s| == width + width * |s[1..]|;
    }
  }

  lemma {:induction false} AllOthers(s: string, i: nat)
    requires Uniform(s, 3) && i <= |s|
    ensures |OthersBefore(s, i)| == i
  {
    if i > 0 {
      AllOthers(s, i - 1);
      CountOther(s, i - 1);
    }
  }

  /** A text of n characters of three bytes, as in Chinese, is estimated at n + 3n / 16 tokens, and one word of n ASCII
      letters and digits at 1 + n / 16. */
  lemma EstimatesOfPlainTexts(s: string)
    ensures Uniform(s, 3) ==> EstimateOf(s) == |s| + 3 * |s| / 16
    ensures s != [] && (forall i :: 0 <= i < |s| ==> IsWordChar(s[i])) ==> EstimateOf(s) == 1 + |s| / 16
  {
    if Uniform(s, 3) {
      UniformBytes(s, 3);
      AllOthers(s, |s|);
      assert NonAscii(s) == OthersBefore(s, |s|) && WordStarts(s) == {};
    } else if s != [] && (forall i :: 0 <= i < |s| ==> IsWordChar(s[i])) {
      UniformBytes(s, 1);
      assert NonAscii(s) == {} && WordStarts(s) == {0};
    }
  }

  function MessageCost(m: Turn): (tokens: nat)
    ensures tokens >= 8
  {
    8 + EstimateOf(m.displayName) + EstimateOf(m.speakerId) + EstimateOf(m.content)
  }

  method EstimateMessageTokens(m: Turn) returns (tokens: nat)
    ensures tokens == MessageCost(m)
  {
    var name := EstimateTokens(m.displayName);
    var speaker := EstimateTokens(m.speakerId);
    var content := EstimateTokens(m.content);
    tokens := 8 + name + speaker + content;
  }

  // ---- Runs ----

  function Cost(messages: seq<Turn>): nat {
    if messages == [] then 0 else MessageCost(messages[0]) + Cost(messages[1..])
  }

  function TextCost(texts: seq<string>): nat {
    if texts == [] then 0 else EstimateOf(texts[0]) + TextCost(texts[1..])
  }

  function Budget(prompt: string, user: string, prefix: seq<Turn>, summaries: seq<string>): int {
    CONTEXT_TOKENS - RESERVED_TOKENS - EstimateOf(prompt) - EstimateOf(user) - TextCost(summaries) - Cost(prefix)
  }

  /** A cut between two runs: not between two neighbours of the same named batch. */
  predicate Boundary(history: seq<Turn>, i: nat) {
    i == 0 || i == |history|
      || (i < |history| && (history[i].batchId == "" || history[i - 1].batchId != history[i].batchId))
  }

  predicate Fits(history: seq<Turn>, i: nat, budget: int)
    requires i <= |history|
  {
    Cost(history[i..]) <= budget
  }

  /** The longest suffix that starts between runs and fits. */
  ghost predicate IsSelection(history: seq<Turn>, budget: int, first: nat) {
    && first <= |history| && Boundary(history, first)
    && (first < |history| ==> Fits(history, first, budget))
    && forall i: nat :: i < first && Boundary(history, i) ==> !Fits(history, i, budget)
  }

  lemma {:induction false} CostSplits(a: seq<Turn>, b: seq<Turn>)
    ensures Cost(a + b) == Cost(a) + Cost(b)
  {
    if a == [] {
      assert a + b == b;
    } else {
      assert (a + b)[1..] == a[1..] + b;
      CostSplits(a[1..], b);
    }
  }

  lemma CostFrom(history: seq<Turn>, i: nat, j: nat)
    requires i <= j <= |history|
    ensures Cost(history[i..]) == Cost(history[i..j]) + Cost(history[j..])
  {
    assert history[i..] == history[i..j] + history[j..];
    CostSplits(history[i..j], history[j..]);
  }

  lemma CostGrows(history: seq<Turn>, i: nat, j: nat)
    requires i <= j < |history|
    ensures Cost(history[i..j + 1]) == Cost(history[i..j]) + MessageCost(history[j])
  {
    var last := [history[j]];
    assert history[i..j + 1] == history[i..j] + last;
    CostSplits(history[i..j], last);
    assert last[1..] == [];
  }

  datatype Run = Run(start: nat, end: nat, tokens: nat)

  ghost predicate IsRunOf(history: seq<Turn>, run: Run) {
    && run.start < run.end <= |history| && run.tokens == Cost(history[run.start..run.end])
    && Boundary(history, run.start) && Boundary(history, run.end)
    && forall i: nat :: run.start < i < run.end ==> !Boundary(history, i)
  }

  // The runs found so far cover the history up to `end`, in order and without gaps.
  ghost predicate Covers(history: seq<Turn>, runs: seq<Run>, end: nat) {
    && (forall i :: 0 <= i < |runs| ==> IsRunOf(history, runs[i]))
    && (forall i :: 0 < i < |runs| ==> runs[i].start == runs[i - 1].end)
    && (if runs == [] then end == 0 else runs[0].start == 0 && runs[|runs| - 1].end == end)
  }

  method FindRun(history: seq<Turn>, start: nat) returns (run: Run)
    requires start < |history| && Boundary(history, start)
    ensures IsRunOf(history, run) && run.start == start
  {
    var end := start + 1;
    var batchId := history[start].batchId;
    while end < |history| && batchId != "" && history[end].batchId == batchId
      invariant start < end <= |history|
      invariant batchId == "" ==> end == start + 1
      invariant forall i :: start <= i < end ==> history[i].batchId == batchId
    {
      end := end + 1;
    }
    var tokens := RunTokens(history, start, end);
    run := Run(start, end, tokens);
  }

  method RunTokens(history: seq<Turn>, start: nat, end: nat) returns (tokens: nat)
    requires start <= end <= |history|
    ensures tokens == Cost(history[start..end])
  {
    tokens := 0;
    for i := start to end
      invariant tokens == Cost(history[start..i])
    {
      var cost := EstimateMessageTokens(history[i]);
      tokens := tokens + cost;
      CostGrows(history, start, i);
    }
  }

  /** Boundaries of a covered history are starts of runs. */
  lemma {:induction false} BoundariesAreStarts(history: seq<Turn>, runs: seq<Run>, end: nat, i: nat)
    requires Covers(history, runs, end) && i < end && Boundary(history, i)
    ensures exists n :: 0 <= n < |runs| && runs[n].start == i
  {
    var last := runs[|runs| - 1];
    if i < last.start {
      BoundariesAreStarts(history, runs[..|runs| - 1], last.start, i);
      var n :| 0 <= n < |runs[..|runs| - 1]| && runs[..|runs| - 1][n].start == i;
      assert runs[n].start == i;
    } else {
      assert i == last.start;
    }
  }

  method SelectHistoryBatches(history: seq<Turn>, prompt: string, user: string, prefix: seq<Turn>,
      summaries: seq<string>)
    returns (selected: seq<Turn>)
    ensures |selected| <= |history| && selected == history[|history| - |selected|..]
    ensures IsSelection(history, Budget(prompt, user, prefix, summaries), |history| - |selected|)
  {
    var promptTokens := EstimateTokens(prompt);
    var userTokens := EstimateTokens(user);
    var remaining := CONTEXT_TOKENS - RESERVED_TOKENS - promptTokens - userTokens;
    for i := 0 to |summaries|
      invariant remaining - TextCost(summaries[i..])
        == CONTEXT_TOKENS - RESERVED_TOKENS - EstimateOf(prompt) - EstimateOf(user) - TextCost(summaries)
    {
      var tokens := EstimateTokens(summaries[i]);
      remaining := remaining - tokens;
    }
    for i := 0 to |prefix|
      invariant remaining - Cost(prefix[i..]) == Budget(prompt, user, prefix, summaries)
    {
      var tokens := EstimateMessageTokens(prefix[i]);
      remaining := remaining - tokens;
    }
    ghost var budget := Budget(prompt, user, prefix, summaries);
    if remaining <= 0 || |history| == 0 {
      NothingFits(history, budget);
      return [];
    }
    var runs := SplitRuns(history);
    var cut := KeepNewest(history, runs, remaining);
    return history[cut..];
  }

  lemma CoversMore(history: seq<Turn>, runs: seq<Run>, run: Run)
    requires Covers(history, runs, run.start) && IsRunOf(history, run)
    ensures Covers(history, runs + [run], run.end)
  {
    var more := runs + [run];
    forall i | 0 <= i < |more| ensures IsRunOf(history, more[i]) && (i > 0 ==> more[i].start == more[i - 1].end) {
      if i < |runs| {
        assert more[i] == runs[i];
      }
    }
  }

  method SplitRuns(history: seq<Turn>) returns (runs: seq<Run>)
    ensures Covers(history, runs, |history|)
  {
    runs := [];
    var start: nat := 0;
    while start < |history|
      invariant start <= |history| && Boundary(history, start) && Covers(history, runs, start)
    {
      var run := FindRun(history, start);
      CoversMore(history, runs, run);
      runs := runs + [run];
      start := run.end;
    }
  }

  // With no budget only the empty suffix fits.
  lemma NothingFits(history: seq<Turn>, budget: int)
    requires budget <= 0 || history == []
    ensures IsSelection(history, budget, |history|)
  {
    forall i: nat | i < |history| ensures !Fits(history, i, budget) {
      assert history[i..] != [];
    }
  }

  // Where the part of the history that is kept begins while run i is looked at.
  function CutAfter(history: seq<Turn>, runs: seq<Run>, i: int): nat
    requires -1 <= i < |runs|
  {
    if i == |runs| - 1 then |history| else runs[i + 1].start
  }

  lemma RunMeetsCut(history: seq<Turn>, runs: seq<Run>, i: nat)
    requires Covers(history, runs, |history|) && i < |runs|
    ensures IsRunOf(history, runs[i]) && runs[i].end == CutAfter(history, runs, i)
    ensures Cost(history[runs[i].start..]) == runs[i].tokens + Cost(history[CutAfter(history, runs, i)..])
  {
    CostFrom(history, runs[i].start, runs[i].end);
  }

  lemma CutIsSelection(history: seq<Turn>, runs: seq<Run>, budget: int, i: nat)
    requires Covers(history, runs, |history|) && i < |runs| && !Fits(history, runs[i].start, budget)
    requires Cost(history[CutAfter(history, runs, i)..]) <= budget
    ensures IsSelection(history, budget, CutAfter(history, runs, i))
  {
    RunMeetsCut(history, runs, i);
    OlderRunsOverflow(history, runs, budget, i);
  }

  lemma WholeHistoryIsSelection(history: seq<Turn>, budget: int)
    requires Cost(history) <= budget
    ensures IsSelection(history, budget, 0)
  {
    assert history[0..] == history;
  }

  method KeepNewest(history: seq<Turn>, runs: seq<Run>, budget: int) returns (first: nat)
    requires budget > 0 && Covers(history, runs, |history|)
    ensures first <= |history| && IsSelection(history, budget, first)
  {
    var remaining := budget;
    first := |history|;
    var i := |runs| - 1;
    while i >= 0
      invariant -1 <= i < |runs| && first == CutAfter(history, runs, i)
      invariant first <= |history| && remaining == budget - Cost(history[first..]) && remaining >= 0
    {
      RunMeetsCut(history, runs, i);
      if runs[i].tokens > remaining {
        CutIsSelection(history, runs, budget, i);
        return;
      }
      remaining := remaining - runs[i].tokens;
      first := runs[i].start;
      i := i - 1;
    }
    assert first == 0 && history[0..] == history;
    WholeHistoryIsSelection(history, budget);
  }

  // When the run before the cut overflows the budget, so does every longer suffix.
  lemma OlderRunsOverflow(history: seq<Turn>, runs: seq<Run>, budget: int, i: nat)
    requires Covers(history, runs, |history|) && i < |runs| && !Fits(history, runs[i].start, budget)
    ensures forall j: nat :: j < runs[i].end && Boundary(history, j) ==> !Fits(history, j, budget)
  {
    forall j: nat | j < runs[i].end && Boundary(history, j) ensures !Fits(history, j, budget) {
      assert IsRunOf(history, runs[i]);
      CostFrom(history, j, runs[i].start);
    }
  }

  // ---- What a selection means ----

  function Contents(messages: seq<Turn>): seq<string> {
    seq(|messages|, i requires 0 <= i < |messages| => messages[i].content)
  }

  function Speakers(messages: seq<Turn>): seq<string> {
    seq(|messages|, i requires 0 <= i < |messages| => messages[i].speakerId)
  }

  function Names(messages: seq<Turn>): seq<string> {
    seq(|messages|, i requires 0 <= i < |messages| => messages[i].displayName)
  }

  /** Everything a message is charged for: its text, its speaker, its name, and eight tokens. */
  lemma {:induction false} CostIsTexts(messages: seq<Turn>)
    ensures Cost(messages) ==
      TextCost(Contents(messages)) + TextCost(Speakers(messages)) + TextCost(Names(messages)) + 8 * |messages|
  {
    if messages != [] {
      CostIsTexts(messages[1..]);
      assert Contents(messages)[1..] == Contents(messages[1..]);
      assert Speakers(messages)[1..] == Speakers(messages[1..]);
      assert Names(messages)[1..] == Names(messages[1..]);
    }
  }

  /** The estimates of all that the model is sent, when the history is cut at `first`. */
  function Sent(history: seq<Turn>, prompt: string, user: string, prefix: seq<Turn>, summaries: seq<string>,
      first: nat): nat
    requires first <= |history|
  {
    var messages := prefix + history[first..];
    EstimateOf(prompt) + EstimateOf(user) + TextCost(summaries) + TextCost(Contents(messages))
      + TextCost(Speakers(messages)) + TextCost(Names(messages)) + 8 * |messages|
  }

  /** What is sent fits 4800 tokens as soon as any history is sent, and with one more batch it would not. */
  lemma SelectionFitsTheWindow(history: seq<Turn>, prompt: string, user: string, prefix: seq<Turn>,
      summaries: seq<string>, first: nat)
    requires IsSelection(history, Budget(prompt, user, prefix, summaries), first)
    ensures first < |history| ==> Sent(history, prompt, user, prefix, summaries, first) <= 4800
    ensures forall i: nat :: i < first && Boundary(history, i) ==>
      Sent(history, prompt, user, prefix, summaries, i) > 4800
  {
    forall i: nat | i <= |history|
      ensures Sent(history, prompt, user, prefix, summaries, i) <= 4800 <==>
        Fits(history, i, Budget(prompt, user, prefix, summaries))
    {
      CostSplits(prefix, history[i..]);
      CostIsTexts(prefix + history[i..]);
    }
  }

  /** The selection is determined by the history and the budget. */
  lemma SelectionIsUnique(history: seq<Turn>, budget: int, f: nat, g: nat)
    requires IsSelection(history, budget, f) && IsSelection(history, budget, g)
    ensures f == g
  {
  }

  /** A larger budget never keeps less. */
  lemma MoreBudgetMoreHistory(history: seq<Turn>, budget: int, more: int, f: nat, g: nat)
    requires budget <= more && IsSelection(history, budget, f) && IsSelection(history, more, g)
    ensures g <= f
  {
  }
}

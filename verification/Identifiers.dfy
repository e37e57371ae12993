/** The shapes of identifiers: UUIDs from clients, and what the store draws at random. */
module Identifiers {
  predicate Hex(c: char) {
    '0' <= c <= '9' || 'a' <= c <= 'f'
  }

  predicate HexDigit(c: char) {
    Hex(c) || 'A' <= c <= 'F'
  }

  // newTurnID.
  predicate IsDrawn(s: string) {
    |s| == 32 && forall i :: 0 <= i < 32 ==> Hex(s[i])
  }

  predicate IsTurnDraw(s: string) {
    |s| == 37 && s[..5] == "turn-" && IsDrawn(s[5..])
  }

  predicate IsBatchDraw(s: string) {
    |s| == 38 && s[..6] == "batch-" && IsDrawn(s[6..])
  }

  predicate IsDash(i: int) {
    i == 8 || i == 13 || i == 18 || i == 23
  }

  predicate IsCanonical(s: string) {
    |s| == 36 && forall i :: 0 <= i < 36 ==> if IsDash(i) then s[i] == '-' else HexDigit(s[i])
  }

  predicate EqualFold(s: string, lower: string) {
    |s| == |lower| && forall i :: 0 <= i < |s| ==>
      s[i] == lower[i] || ('A' <= s[i] <= 'Z' && s[i] as int + 32 == lower[i] as int)
  }

  /** uuid.Validate: the canonical form, as a URN, in braces, or without dashes. */
  predicate IsUuid(s: string) {
    || IsCanonical(s)
    || (|s| == 45 && EqualFold(s[..9], "urn:uuid:") && IsCanonical(s[9..]))
    || (|s| == 38 && s[0] == '{' && s[37] == '}' && IsCanonical(s[1..37]))
    || (|s| == 32 && forall i :: 0 <= i < 32 ==> HexDigit(s[i]))
  }

  lemma UuidHasNoNul(s: string)
    requires IsUuid(s)
    ensures forall i :: 0 <= i < |s| ==> s[i] != '\0'
  {
    forall i | 0 <= i < |s| ensures s[i] != '\0' {
      if |s| == 45 {
        assert i < 9 ==> s[..9][i] == s[i];
        assert i >= 9 ==> s[9..][i - 9] == s[i];
      } else if |s| == 38 {
        assert 0 < i < 37 ==> s[1..37][i - 1] == s[i];
      }
    }
  }

  // An identifier longer than all drawn before is fresh.
  lemma FreshId(prefix: string, issued: set<string>) returns (id: string)
    ensures id !in issued
  {
    var n: nat := 0;
    var rest := issued;
    while rest != {}
      invariant rest <= issued && forall drawn :: drawn in issued && drawn !in rest ==> |drawn| < n
      decreases rest
    {
      var drawn :| drawn in rest;
      n := if n <= |drawn| then |drawn| + 1 else n;
      rest := rest - {drawn};
    }
    id := prefix + seq(n, _ => 'f');
  }

  // ---- Examples of every shape ----

  function Repeated(c: char): (s: string)
    requires Hex(c)
    ensures IsDrawn(s) && s[0] == c
  {
    seq(32, _ => c)
  }

  lemma PrefixedAreDrawn(c: char)
    requires Hex(c)
    ensures IsTurnDraw("turn-" + Repeated(c)) && IsBatchDraw("batch-" + Repeated(c))
    ensures IsUuid(Repeated(c))
  {
    assert ("turn-" + Repeated(c))[5..] == Repeated(c);
    assert ("batch-" + Repeated(c))[6..] == Repeated(c);
  }
}

/**
The suite's output mask: every configured secret in a line is replaced by asterisks, after the line has
been percent-decoded and its tokens have been redacted. What decoding and redaction do to a line is left
open; the last step must hide the secrets whatever they produce.
*/
module OutputMask {
  const MASK := "***"

  predicate OccursAt(text: string, s: string, i: nat) {
    i + |s| <= |text| && text[i..i + |s|] == s
  }

  predicate Contains(text: string, s: string) {
    exists i: nat :: i <= |text| && OccursAt(text, s, i)
  }

  /** str.replace: leftmost, non-overlapping occurrences. */
  function ReplaceAll(text: string, secret: string): string
    requires secret != ""
    decreases |text|
  {
    if |text| < |secret| then text
    else if secret <= text then MASK + ReplaceAll(text[|secret|..], secret)
    else [text[0]] + ReplaceAll(text[1..], secret)
  }

  function MaskAll(line: string, secrets: seq<string>): string
    requires "" !in secrets
  {
    if secrets == [] then line
    else ReplaceAll(MaskAll(line, secrets[..|secrets| - 1]), secrets[|secrets| - 1])
  }

  function NonEmpty(secrets: seq<string>): (r: seq<string>)
    ensures forall s :: s in r <==> s in secrets && s != ""
  {
    if secrets == [] then [] else (if secrets[0] == "" then [] else [secrets[0]]) + NonEmpty(secrets[1..])
  }

  /** Decoding goes on until it changes nothing, three times at most. */
  function Decoded(unquote: string -> string, line: string, times: nat): string
    decreases times
  {
    if times == 0 || unquote(line) == line then line else Decoded(unquote, unquote(line), times - 1)
  }

  /** All that happens to a line. */
  function Masked(unquote: string -> string, redact: string -> string, line: string, secrets: seq<string>): string
    requires "" !in secrets
  {
    MaskAll(redact(Decoded(unquote, line, 3)), secrets)
  }

  class Mask {
    const secrets: seq<string>

    constructor (configured: seq<string>)
      ensures secrets == NonEmpty(configured)
    {
      secrets := NonEmpty(configured);
    }

    method Apply(unquote: string -> string, redact: string -> string, line: string) returns (masked: string)
      requires "" !in secrets
      ensures masked == Masked(unquote, redact, line, secrets)
    {
      var decoded := line;
      for i := 0 to 3
        invariant Decoded(unquote, line, 3) == Decoded(unquote, decoded, 3 - i)
      {
        var next := unquote(decoded);
        if next == decoded {
          break;
        }
        decoded := next;
      }
      masked := redact(decoded);
      ghost var start := masked;
      for i := 0 to |secrets|
        invariant masked == MaskAll(start, secrets[..i])
      {
        assert secrets[..i + 1][..i] == secrets[..i];
        masked := ReplaceAll(masked, secrets[i]);
      }
      assert secrets[..|secrets|] == secrets;
    }
  }

  /** The mask itself cannot be, or help to form, a part of the secret. */
  predicate IsMaskable(secret: string) {
    secret != "" && secret[0] != '*' && secret[|secret| - 1] != '*' && !Contains(secret, MASK)
  }

  lemma OccursBehind(text: string, s: string, i: nat, k: nat)
    requires k <= |text|
    ensures OccursAt(text[k..], s, i) <==> OccursAt(text, s, i + k)
  {
    if i + k + |s| <= |text| {
      assert text[k..][i..i + |s|] == text[i + k..i + k + |s|];
    }
  }

  lemma AStartOfAMaskIsNotMaskable(u: string, rest: string)
    requires u != "" && u <= MASK + rest
    ensures u[0] == '*' && (u[|u| - 1] == '*' || Contains(u, MASK))
  {
    assert u[0] == (MASK + rest)[0];
    if |u| < 3 {
      assert u[|u| - 1] == (MASK + rest)[|u| - 1];
    } else {
      assert u[0..3] == (MASK + rest)[0..3];
      assert OccursAt(u, MASK, 0);
    }
  }

  // A start of the replaced text that cannot overlap a mask is the start of the text itself.
  lemma {:induction false} APrefixWithoutMaskIsOriginal(text: string, secret: string, u: string)
    requires secret != "" && u <= ReplaceAll(text, secret)
    requires u != "" ==> u[|u| - 1] != '*'
    requires !Contains(u, MASK)
    ensures u <= text
    decreases |text|
  {
    if u != "" && |text| >= |secret| {
      if secret <= text {
        AStartOfAMaskIsNotMaskable(u, ReplaceAll(text[|secret|..], secret));
      } else {
        var rest := u[1..];
        forall i: nat | i <= |rest|
          ensures !OccursAt(rest, MASK, i)
        {
          OccursBehind(u, MASK, i, 1);
        }
        assert ReplaceAll(text, secret)[1..] == ReplaceAll(text[1..], secret);
        APrefixWithoutMaskIsOriginal(text[1..], secret, rest);
        assert u == [u[0]] + rest && text == [text[0]] + text[1..];
      }
    }
  }

  // Where a maskable string occurs in a replaced text, it occurs behind the first piece or at its start.
  lemma AnOccurrenceIsBehindAMask(rest: string, s: string, i: nat)
    requires IsMaskable(s) && OccursAt(MASK + rest, s, i)
    ensures i >= 3 && OccursAt(rest, s, i - 3)
  {
    var r := MASK + rest;
    assert s[0] == r[i..i + |s|][0] == r[i];
    assert r[3..] == rest;
    if i >= 3 {
      OccursBehind(r, s, i - 3, 3);
    }
  }

  lemma AnOccurrenceIsBehindOrFirst(text: string, secret: string, s: string, i: nat)
    requires secret != "" && IsMaskable(s) && |text| >= |secret| && OccursAt(ReplaceAll(text, secret), s, i)
    ensures secret <= text ==> i >= 3 && OccursAt(ReplaceAll(text[|secret|..], secret), s, i - 3)
    ensures !(secret <= text) && i > 0 ==> OccursAt(ReplaceAll(text[1..], secret), s, i - 1)
    ensures !(secret <= text) && i == 0 ==> s <= text
  {
    var r := ReplaceAll(text, secret);
    if secret <= text {
      AnOccurrenceIsBehindAMask(ReplaceAll(text[|secret|..], secret), s, i);
    } else if i > 0 {
      assert r[1..] == ReplaceAll(text[1..], secret);
      OccursBehind(r, s, i - 1, 1);
    } else {
      assert s <= r;
      APrefixWithoutMaskIsOriginal(text, secret, s);
    }
  }

  /** Replacing any secret never makes a maskable one appear that was not there. */
  lemma {:induction false} ReplacingCreatesNothing(text: string, secret: string, s: string)
    requires secret != "" && IsMaskable(s) && Contains(ReplaceAll(text, secret), s)
    ensures Contains(text, s)
    decreases |text|
  {
    if |text| >= |secret| {
      var i: nat :| OccursAt(ReplaceAll(text, secret), s, i);
      AnOccurrenceIsBehindOrFirst(text, secret, s, i);
      if i == 0 {
        assert OccursAt(text, s, 0);
      } else {
        var k := if secret <= text then |secret| else 1;
        ReplacingCreatesNothing(text[k..], secret, s);
        var n: nat :| n <= |text[k..]| && OccursAt(text[k..], s, n);
        OccursBehind(text, s, n, k);
        assert OccursAt(text, s, n + k);
      }
    }
  }

  /** Replacing a maskable secret leaves no occurrence of it. */
  lemma {:induction false} ReplacingRemovesTheSecret(text: string, secret: string)
    requires IsMaskable(secret)
    ensures !Contains(ReplaceAll(text, secret), secret)
    decreases |text|
  {
    if |text| >= |secret| {
      var k := if secret <= text then |secret| else 1;
      ReplacingRemovesTheSecret(text[k..], secret);
      forall i: nat | i <= |ReplaceAll(text, secret)|
        ensures !OccursAt(ReplaceAll(text, secret), secret, i)
      {
        if OccursAt(ReplaceAll(text, secret), secret, i) {
          AnOccurrenceIsBehindOrFirst(text, secret, secret, i);
        }
      }
    }
  }

  /** A masked line contains none of the secrets, whatever the line was and in whatever order they are
      replaced. */
  lemma {:induction false} NoSecretSurvives(line: string, secrets: seq<string>, s: string)
    requires "" !in secrets && (forall secret <- secrets :: IsMaskable(secret)) && s in secrets
    ensures !Contains(MaskAll(line, secrets), s)
    decreases |secrets|
  {
    var n := |secrets| - 1;
    var before, last := MaskAll(line, secrets[..n]), secrets[n];
    if s == last {
      ReplacingRemovesTheSecret(before, last);
    } else {
      assert s in secrets[..n];
      NoSecretSurvives(line, secrets[..n], s);
      if Contains(MaskAll(line, secrets), s) {
        ReplacingCreatesNothing(before, last, s);
      }
    }
  }

  // ----- a secret that is not maskable shows in some line -----

  ghost predicate IsFirstMatch(text: string, s: string, j: nat) {
    OccursAt(text, s, j) && forall i: nat :: i < j ==> !OccursAt(text, s, i)
  }

  lemma ThereIsAFirstMatch(text: string, s: string) returns (j: nat)
    requires Contains(text, s)
    ensures IsFirstMatch(text, s, j)
  {
    var i: nat :| i <= |text| && OccursAt(text, s, i);
    j := 0;
    while !OccursAt(text, s, j)
      invariant j <= i && forall k: nat :: k < j ==> !OccursAt(text, s, k)
      decreases i - j
    {
      j := j + 1;
    }
  }

  lemma AFirstMatchBehind(text: string, s: string, j: nat)
    requires s != "" && j > 0 && IsFirstMatch(text, s, j)
    ensures IsFirstMatch(text[1..], s, j - 1) && !(s <= text)
  {
    assert !OccursAt(text, s, 0);
    OccursBehind(text, s, j - 1, 1);
    forall i: nat | i < j - 1
      ensures !OccursAt(text[1..], s, i)
    {
      OccursBehind(text, s, i, 1);
    }
  }

  lemma TheScanAdvances(text: string, secret: string, j: nat, rest: string)
    requires secret != "" && |text| >= |secret| && !(secret <= text) && 0 < j <= |text|
    requires ReplaceAll(text[1..], secret) == text[1..j] + rest
    ensures ReplaceAll(text, secret) == text[..j] + rest
  {
    var first, middle := text[0], text[1..j];
    assert text[..j] == [first] + middle;
    Regroup([first], middle, rest);
  }

  lemma Regroup(a: string, b: string, c: string)
    ensures a + (b + c) == (a + b) + c
  {
  }

  lemma {:induction false} TheFirstMatchIsReplaced(text: string, secret: string, j: nat)
    requires secret != "" && IsFirstMatch(text, secret, j)
    ensures ReplaceAll(text, secret) == text[..j] + (MASK + ReplaceAll(text[j + |secret|..], secret))
    decreases j
  {
    if j == 0 {
      assert text[..|secret|] == secret && text[..0] == "";
    } else {
      AFirstMatchBehind(text, secret, j);
      TheFirstMatchIsReplaced(text[1..], secret, j - 1);
      assert text[1..][j - 1 + |secret|..] == text[j + |secret|..];
      assert text[1..][..j - 1] == text[1..j];
      TheScanAdvances(text, secret, j, MASK + ReplaceAll(text[j + |secret|..], secret));
    }
  }

  // A secret that starts with an asterisk: the mask before the rest of the secret completes it.
  lemma AStarInFrontShows(secret: string)
    requires secret != "" && secret[0] == '*'
    ensures Contains(ReplaceAll(secret + secret[1..], secret), secret)
  {
    var text := secret + secret[1..];
    assert OccursAt(text, secret, 0);
    TheFirstMatchIsReplaced(text, secret, 0);
    assert text[|secret|..] == secret[1..];
    var r := ReplaceAll(text, secret);
    assert r == MASK + secret[1..];
    assert r[2..2 + |secret|] == secret;
    assert OccursAt(r, secret, 2);
  }

  lemma AnEarlierMatchOfTheEnd(secret: string, j: nat)
    requires j < |secret| - 1 && OccursAt(secret[..|secret| - 1] + secret, secret, j)
    ensures secret[0] == secret[|secret| - 1]
  {
    var n := |secret| - 1;
    var text := secret[..n] + secret;
    assert text[j..j + |secret|][0] == text[j] == secret[j];
    assert text[j..j + |secret|][n] == text[j + n] == secret[j];
  }

  lemma TheEndMatchesFirst(secret: string)
    requires secret != "" && secret[|secret| - 1] == '*' && secret[0] != '*'
    ensures IsFirstMatch(secret[..|secret| - 1] + secret, secret, |secret| - 1)
  {
    var n := |secret| - 1;
    var text := secret[..n] + secret;
    assert text[n..n + |secret|] == secret;
    forall j: nat | j < n
      ensures !OccursAt(text, secret, j)
    {
      if OccursAt(text, secret, j) {
        AnEarlierMatchOfTheEnd(secret, j);
      }
    }
  }

  // A secret that ends with one: all but its end, before the mask, is the secret again.
  lemma AStarAtTheEndShows(secret: string)
    requires secret != "" && secret[|secret| - 1] == '*' && secret[0] != '*'
    ensures Contains(ReplaceAll(secret[..|secret| - 1] + secret, secret), secret)
  {
    var n := |secret| - 1;
    var text := secret[..n] + secret;
    TheEndMatchesFirst(secret);
    TheFirstMatchIsReplaced(text, secret, n);
    assert text[n + |secret|..] == "" && text[..n] == secret[..n];
    assert ReplaceAll("", secret) == "";
    AMaskCompletesTheEnd(secret);
  }

  lemma AMaskCompletesTheEnd(secret: string)
    requires secret != "" && secret[|secret| - 1] == '*'
    ensures Contains(secret[..|secret| - 1] + (MASK + ""), secret)
  {
    var r := secret[..|secret| - 1] + (MASK + "");
    assert r[0..|secret|] == secret;
    assert OccursAt(r, secret, 0);
  }

  lemma AnEarlierMatchOfTheMask(before: string, secret: string, after: string, j: nat)
    requires before <= secret && j < |before| && OccursAt(before + secret + after, secret, j)
    requires OccursAt(secret, MASK, |before|)
    ensures OccursAt(secret, MASK, j)
  {
    var text, i := before + secret + after, |before|;
    assert secret[i..i + 3] == text[j..j + |secret|][i..i + 3] == text[j + i..j + i + 3];
    assert text[j + i..j + i + 3] == secret[j..j + 3];
  }

  // A secret around a mask: its first part, itself and its last part in a row become the secret.
  lemma AMaskInsideShows(secret: string, i: nat)
    requires secret != "" && IsFirstMatch(secret, MASK, i)
    ensures Contains(ReplaceAll(secret[..i] + secret + secret[i + 3..], secret), secret)
  {
    var before, after := secret[..i], secret[i + 3..];
    var text := before + secret + after;
    assert text[i..i + |secret|] == secret;
    assert OccursAt(text, secret, i);
    forall j: nat | j < i
      ensures !OccursAt(text, secret, j)
    {
      if OccursAt(text, secret, j) {
        AnEarlierMatchOfTheMask(before, secret, after, j);
      }
    }
    TheFirstMatchIsReplaced(text, secret, i);
    assert text[i + |secret|..] == after && text[..i] == before;
    assert ReplaceAll(after, secret) == after;
    assert secret[i..i + 3] == MASK;
    Around(secret, i);
    assert OccursAt(secret, secret, 0);
  }

  lemma Around(secret: string, i: nat)
    requires i + 3 <= |secret|
    ensures secret[..i] + (secret[i..i + 3] + secret[i + 3..]) == secret
  {
  }

  predicate Hides(secret: string, line: string)
    requires secret != ""
  {
    !Contains(MaskAll(line, [secret]), secret)
  }

  /** For a single secret being maskable is exactly what the last step takes. */
  lemma OneSecretIsHiddenIffMaskable(secret: string)
    requires secret != ""
    ensures (forall line: string :: Hides(secret, line)) <==> IsMaskable(secret)
  {
    if IsMaskable(secret) {
      forall line: string
        ensures Hides(secret, line)
      {
        MaskAllOfOne(line, secret);
        ReplacingRemovesTheSecret(line, secret);
      }
    } else {
      var line := ALineThatShows(secret);
      MaskAllOfOne(line, secret);
      assert !Hides(secret, line);
    }
  }

  lemma MaskAllOfOne(line: string, secret: string)
    requires secret != ""
    ensures MaskAll(line, [secret]) == ReplaceAll(line, secret)
  {
    assert [secret][..0] == [];
  }

  lemma ALineThatShows(secret: string) returns (line: string)
    requires secret != "" && !IsMaskable(secret)
    ensures Contains(ReplaceAll(line, secret), secret)
  {
    if secret[0] == '*' {
      line := secret + secret[1..];
      AStarInFrontShows(secret);
    } else if secret[|secret| - 1] == '*' {
      line := secret[..|secret| - 1] + secret;
      AStarAtTheEndShows(secret);
    } else {
      var i := ThereIsAFirstMatch(secret, MASK);
      line := secret[..i] + secret + secret[i + 3..];
      AMaskInsideShows(secret, i);
    }
  }

  // ----- the whole of it -----

  predicate HidesThroughout(secret: string, unquote: string -> string, redact: string -> string, line: string)
    requires secret != ""
  {
    !Contains(Masked(unquote, redact, line, [secret]), secret)
  }

  /** A secret that is not maskable shows in a line of output that decoding and redaction leave alone. */
  lemma AnOutputLineThatShows(unquote: string -> string, redact: string -> string, secret: string)
    returns (line: string)
    requires secret != "" && !IsMaskable(secret)
    ensures unquote(line) == line && redact(line) == line ==> !HidesThroughout(secret, unquote, redact, line)
  {
    line := ALineThatShows(secret);
    MaskAllOfOne(line, secret);
  }

  /** Being maskable is exactly what it takes for a secret to be hidden in every line, whatever decoding and
      redaction do to it. */
  lemma OneSecretIsHiddenThroughoutIffMaskable(secret: string)
    requires secret != ""
    ensures (forall unquote: string -> string, redact: string -> string, line: string ::
               HidesThroughout(secret, unquote, redact, line))
            <==> IsMaskable(secret)
  {
    if IsMaskable(secret) {
      forall unquote: string -> string, redact: string -> string, line: string
        ensures HidesThroughout(secret, unquote, redact, line)
      {
        NoSecretSurvives(redact(Decoded(unquote, line, 3)), [secret], secret);
      }
    } else {
      var same: string -> string := s => s;
      var line := AnOutputLineThatShows(same, same, secret);
      assert !HidesThroughout(secret, same, same, line);
    }
  }
}

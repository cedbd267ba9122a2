/** Outbound secret redaction. */
module Redaction {
  import opened Wrappers
  import opened Text

  const REDACTION_PLACEHOLDER := "***REDACTED***"
  const MIN_REDACTABLE_LENGTH := 8

  // ----- Global replacement of a literal

  /** Leftmost, non-overlapping replacement. */
  function ReplaceAll(text: string, secret: string, mask: string): string
    requires secret != ""
    decreases |text|
  {
    if |text| < |secret| then text
    else if secret <= text then mask + ReplaceAll(text[|secret|..], secret, mask)
    else [text[0]] + ReplaceAll(text[1..], secret, mask)
  }

  predicate OccursAt(secret: string, text: string, i: int) {
    0 <= i <= |text| - |secret| && text[i..i + |secret|] == secret
  }

  predicate Occurs(secret: string, text: string) {
    exists i | 0 <= i <= |text| - |secret| :: OccursAt(secret, text, i)
  }

  /** Laid over the mask with its first character at mask position `i`, the secret agrees wherever the two overlap. */
  predicate Agrees(secret: string, mask: string, i: int) {
    forall k | 0 <= k < |secret| && 0 <= i + k < |mask| :: secret[k] == mask[i + k]
  }

  /** Some overlap of at least one character fits: the mask could take part in spelling the secret. */
  predicate Collides(secret: string, mask: string) {
    exists i | -|secret| < i < |mask| :: Agrees(secret, mask, i)
  }

  // ----- Replacement cannot create a secret that does not collide with the mask

  /** A tail of the secret found at the front of the output was at the front of the input. */
  lemma {:induction false} TailComesFromInput(text: string, replaced: string, mask: string, secret: string, k: int)
    requires replaced != "" && mask != "" && 0 <= k < |secret| && !Collides(secret, mask)
    requires secret[k..] <= ReplaceAll(text, replaced, mask)
    ensures secret[k..] <= text
    decreases |text|
  {
    hide Collides;
    if |text| >= |replaced| {
      var output := ReplaceAll(text, replaced, mask);
      if replaced <= text {
        forall j | 0 <= j < |secret| && 0 <= j - k < |mask|
          ensures secret[j] == mask[-k + j]
        {
          assert secret[k..][j - k] == output[j - k];
        }
        AgreementCollides(secret, mask, -k);
      } else {
        assert secret[k..][0] == output[0] == text[0];
        if k + 1 < |secret| {
          assert secret[k..][1..] == secret[k + 1..];
          assert output[1..] == ReplaceAll(text[1..], replaced, mask);
          TailComesFromInput(text[1..], replaced, mask, secret, k + 1);
          assert secret[k..] == [text[0]] + secret[k + 1..];
        } else {
          assert secret[k..] == [text[0]];
        }
      }
    }
  }

  lemma AgreementCollides(secret: string, mask: string, i: int)
    requires -|secret| < i < |mask| && Agrees(secret, mask, i)
    ensures Collides(secret, mask)
  {
  }

  /** Any occurrence in the output was already in the input, and is not of the secret just replaced. */
  lemma {:induction false} OccurrenceComesFromInput(text: string, replaced: string, mask: string, secret: string,
                                                    i: nat)
    requires replaced != "" && mask != "" && secret != "" && !Collides(secret, mask)
    requires OccursAt(secret, ReplaceAll(text, replaced, mask), i)
    ensures Occurs(secret, text) && secret != replaced
    decreases |text|
  {
    hide Collides, Occurs;
    var output := ReplaceAll(text, replaced, mask);
    if |text| < |replaced| {
      FoundAt(secret, text, i);
    } else if replaced <= text {
      var rest := ReplaceAll(text[|replaced|..], replaced, mask);
      if i < |mask| {
        forall k | 0 <= k < |secret| && 0 <= i + k < |mask|
          ensures secret[k] == mask[i + k]
        {
          assert output[i..i + |secret|][k] == output[i + k];
        }
        AgreementCollides(secret, mask, i);
      } else {
        assert output[i..i + |secret|] == rest[i - |mask|..i - |mask| + |secret|];
        OccurrenceComesFromInput(text[|replaced|..], replaced, mask, secret, i - |mask|);
        OccursInSuffix(secret, text, |replaced|);
      }
    } else if i == 0 {
      assert output[0..|secret|] == output[..|secret|];
      assert secret[0..] == secret;
      TailComesFromInput(text, replaced, mask, secret, 0);
      FoundAt(secret, text, 0);
    } else {
      assert output[i..i + |secret|] == ReplaceAll(text[1..], replaced, mask)[i - 1..i - 1 + |secret|];
      OccurrenceComesFromInput(text[1..], replaced, mask, secret, i - 1);
      OccursInSuffix(secret, text, 1);
    }
  }

  lemma FoundAt(secret: string, text: string, i: nat)
    requires i + |secret| <= |text| && text[i..i + |secret|] == secret
    ensures Occurs(secret, text)
  {
    assert OccursAt(secret, text, i);
  }

  lemma OccursInSuffix(secret: string, text: string, from: nat)
    requires from <= |text| && Occurs(secret, text[from..])
    ensures Occurs(secret, text)
  {
    var i :| 0 <= i <= |text[from..]| - |secret| && OccursAt(secret, text[from..], i);
    assert text[from..][i..i + |secret|] == text[from + i..from + i + |secret|];
    FoundAt(secret, text, from + i);
  }

  /** Where the secret does not occur, replacement changes nothing. */
  lemma {:induction false} NothingToReplace(text: string, secret: string, mask: string)
    requires secret != "" && !Occurs(secret, text)
    ensures ReplaceAll(text, secret, mask) == text
    decreases |text|
  {
    hide Occurs;
    if |text| >= |secret| {
      if secret <= text {
        assert text[0..|secret|] == text[..|secret|];
        FoundAt(secret, text, 0);
      } else {
        if Occurs(secret, text[1..]) {
          OccursInSuffix(secret, text, 1);
        }
        NothingToReplace(text[1..], secret, mask);
      }
    }
  }

  // ----- A whole list of secrets

  predicate NonEmpty(secrets: seq<string>) {
    forall i | 0 <= i < |secrets| :: secrets[i] != ""
  }

  function RedactWith(text: string, secrets: seq<string>, mask: string): string
    requires NonEmpty(secrets)
  {
    if secrets == [] then text
    else ReplaceAll(RedactWith(text, secrets[..|secrets| - 1], mask), secrets[|secrets| - 1], mask)
  }

  /** A secret that does not collide is gone, whatever the text, whatever the others are and whatever their order. */
  lemma {:induction false} NoSecretSurvives(text: string, secrets: seq<string>, mask: string, i: nat)
    requires mask != "" && NonEmpty(secrets) && i < |secrets| && !Collides(secrets[i], mask)
    ensures !Occurs(secrets[i], RedactWith(text, secrets, mask))
    decreases |secrets|
  {
    hide Collides;
    var init, last := secrets[..|secrets| - 1], secrets[|secrets| - 1];
    var before := RedactWith(text, init, mask);
    if Occurs(secrets[i], ReplaceAll(before, last, mask)) {
      var at :| 0 <= at <= |ReplaceAll(before, last, mask)| - |secrets[i]|
        && OccursAt(secrets[i], ReplaceAll(before, last, mask), at);
      OccurrenceComesFromInput(before, last, mask, secrets[i], at);
      if i < |secrets| - 1 {
        NoSecretSurvives(text, init, mask, i);
      }
    }
  }

  lemma {:induction false} CleanTextIsKept(text: string, secrets: seq<string>, mask: string)
    requires NonEmpty(secrets) && forall i | 0 <= i < |secrets| :: !Occurs(secrets[i], text)
    ensures RedactWith(text, secrets, mask) == text
  {
    hide Occurs;
    if secrets != [] {
      CleanTextIsKept(text, secrets[..|secrets| - 1], mask);
      NothingToReplace(text, secrets[|secrets| - 1], mask);
    }
  }

  lemma OccursWithin(inner: string, outer: string, text: string)
    requires Occurs(inner, outer) && Occurs(outer, text)
    ensures Occurs(inner, text)
  {
    var i :| 0 <= i <= |outer| - |inner| && OccursAt(inner, outer, i);
    var j :| 0 <= j <= |text| - |outer| && OccursAt(outer, text, j);
    var found := text[j + i..j + i + |inner|];
    assert forall k | 0 <= k < |inner| ::
        found[k] == text[j..j + |outer|][i + k] && outer[i..i + |inner|][k] == outer[i + k];
    FoundAt(inner, text, j + i);
  }

  /** A secret is one of those that do not collide, or contains one. */
  predicate ContainsApart(secret: string, secrets: seq<string>, mask: string) {
    exists j | 0 <= j < |secrets| :: Occurs(secrets[j], secret) && !Collides(secrets[j], mask)
  }

  predicate Covered(secrets: seq<string>, mask: string) {
    forall i | 0 <= i < |secrets| :: ContainsApart(secrets[i], secrets, mask)
  }

  lemma ApartIsCovered(secrets: seq<string>, mask: string)
    requires forall i | 0 <= i < |secrets| :: !Collides(secrets[i], mask)
    ensures Covered(secrets, mask)
  {
    hide Collides, Occurs;
    forall i | 0 <= i < |secrets|
      ensures ContainsApart(secrets[i], secrets, mask)
    {
      assert secrets[i][0..|secrets[i]|] == secrets[i];
      FoundAt(secrets[i], secrets[i], 0);
      assert Occurs(secrets[i], secrets[i]) && !Collides(secrets[i], mask);
    }
  }

  /** So a secret that collides is gone as well if it contains one that does not. */
  lemma CoveredSecretsAreGone(text: string, secrets: seq<string>, mask: string, i: nat)
    requires mask != "" && NonEmpty(secrets) && Covered(secrets, mask) && i < |secrets|
    ensures !Occurs(secrets[i], RedactWith(text, secrets, mask))
  {
    hide Occurs, Collides, RedactWith;
    assert ContainsApart(secrets[i], secrets, mask);
    var j :| 0 <= j < |secrets| && Occurs(secrets[j], secrets[i]) && !Collides(secrets[j], mask);
    NoSecretSurvives(text, secrets, mask, j);
    if Occurs(secrets[i], RedactWith(text, secrets, mask)) {
      OccursWithin(secrets[j], secrets[i], RedactWith(text, secrets, mask));
    }
  }

  /** Redacting again changes nothing. */
  lemma RedactionIsIdempotent(text: string, secrets: seq<string>, mask: string)
    requires mask != "" && NonEmpty(secrets) && Covered(secrets, mask)
    ensures RedactWith(RedactWith(text, secrets, mask), secrets, mask) == RedactWith(text, secrets, mask)
  {
    hide Covered, Occurs;
    var once := RedactWith(text, secrets, mask);
    forall i | 0 <= i < |secrets|
      ensures !Occurs(secrets[i], once)
    {
      CoveredSecretsAreGone(text, secrets, mask, i);
    }
    CleanTextIsKept(once, secrets, mask);
  }

  // ----- Replacing another secret

  /** A tail of the secret at the front of the text stays there, if the other secret overlaps none of it. */
  lemma {:induction false} TailIsSpared(text: string, other: string, mask: string, secret: string, k: int)
    requires other != "" && 0 <= k <= |secret| && !Collides(secret, other) && secret[k..] <= text
    ensures secret[k..] <= ReplaceAll(text, other, mask)
    decreases |text|
  {
    hide Collides;
    if k < |secret| && |text| >= |other| {
      if other <= text {
        forall j | 0 <= j < |secret| && 0 <= j - k < |other|
          ensures secret[j] == other[-k + j]
        {
          assert secret[k..][j - k] == text[j - k];
        }
        AgreementCollides(secret, other, -k);
      } else {
        assert secret[k..] == [text[0]] + secret[k + 1..];
        assert secret[k + 1..] <= text[1..];
        TailIsSpared(text[1..], other, mask, secret, k + 1);
      }
    }
  }

  lemma {:induction false} OccurrenceIsSpared(text: string, other: string, mask: string, secret: string, i: nat)
    requires other != "" && secret != "" && !Collides(secret, other) && OccursAt(secret, text, i)
    ensures Occurs(secret, ReplaceAll(text, other, mask))
    decreases |text|
  {
    hide Collides, Occurs;
    var output := ReplaceAll(text, other, mask);
    if i == 0 {
      assert text[0..|secret|] == text[..|secret|] && secret[0..] == secret;
      TailIsSpared(text, other, mask, secret, 0);
      assert output[0..|secret|] == secret;
      FoundAt(secret, output, 0);
    } else if |text| < |other| {
      FoundAt(secret, text, i);
    } else if other <= text {
      if i < |other| {
        forall k | 0 <= k < |secret| && 0 <= i + k < |other|
          ensures secret[k] == other[i + k]
        {
          assert text[i..i + |secret|][k] == text[i + k];
        }
        AgreementCollides(secret, other, i);
      }
      assert text[|other|..][i - |other|..i - |other| + |secret|] == text[i..i + |secret|];
      OccurrenceIsSpared(text[|other|..], other, mask, secret, i - |other|);
      assert output[|mask|..] == ReplaceAll(text[|other|..], other, mask);
      OccursInSuffix(secret, output, |mask|);
    } else {
      assert text[1..][i - 1..i - 1 + |secret|] == text[i..i + |secret|];
      OccurrenceIsSpared(text[1..], other, mask, secret, i - 1);
      assert output[1..] == ReplaceAll(text[1..], other, mask);
      OccursInSuffix(secret, output, 1);
    }
  }

  /** The text is the secret between two pieces of itself. */
  ghost predicate MadeOf(text: string, secret: string) {
    exists front, back :: MadeWith(text, secret, front, back)
  }

  predicate MadeWith(text: string, secret: string, front: string, back: string) {
    text == front + secret + back && Occurs(front, secret) && Occurs(back, secret)
  }

  lemma PieceCollides(secret: string, piece: string, other: string)
    requires other != "" && Occurs(other, piece) && Occurs(piece, secret)
    ensures Collides(secret, other)
  {
    OccursWithin(other, piece, secret);
    var q :| 0 <= q <= |secret| - |other| && OccursAt(other, secret, q);
    forall k | 0 <= k < |secret| && 0 <= -q + k < |other|
      ensures secret[k] == other[-q + k]
    {
      assert secret[q..q + |other|][-q + k] == secret[k];
    }
    AgreementCollides(secret, other, -q);
  }

  /** A secret that does not overlap another does not occur in a text made of it. */
  lemma OthersDoNotOccur(text: string, secret: string, other: string)
    requires MadeOf(text, secret) && secret != "" && other != "" && !Collides(secret, other)
    ensures !Occurs(other, text)
  {
    hide Occurs, Collides, MadeOf;
    if Occurs(other, text) {
      var front, back, p := AnOccurrence(text, secret, other);
      if p + |other| <= |front| {
        assert front[p..p + |other|] == text[p..p + |other|];
        FoundAt(other, front, p);
        PieceCollides(secret, front, other);
      } else if p >= |front| + |secret| {
        var from := p - |front| - |secret|;
        assert back[from..from + |other|] == text[p..p + |other|];
        FoundAt(other, back, from);
        PieceCollides(secret, back, other);
      } else {
        var i := |front| - p;
        forall k | 0 <= k < |secret| && 0 <= i + k < |other|
          ensures secret[k] == other[i + k]
        {
          assert text[p..p + |other|][i + k] == text[|front| + k] == secret[k];
        }
        AgreementCollides(secret, other, i);
      }
    }
  }

  lemma AnOccurrence(text: string, secret: string, other: string) returns (front: string, back: string, p: nat)
    requires MadeOf(text, secret) && Occurs(other, text)
    ensures MadeWith(text, secret, front, back) && OccursAt(other, text, p)
  {
    front, back :| MadeWith(text, secret, front, back);
    p :| 0 <= p <= |text| - |other| && OccursAt(other, text, p);
  }

  // ----- Exactly when one secret can survive

  lemma {:induction false} ReplaceAtFirst(front: string, secret: string, back: string, mask: string)
    requires secret != ""
    requires forall j | 0 <= j < |front| :: !OccursAt(secret, front + secret + back, j)
    ensures ReplaceAll(front + secret + back, secret, mask) == front + mask + ReplaceAll(back, secret, mask)
    decreases |front|
  {
    hide OccursAt, ReplaceAll;
    var text := front + secret + back;
    if front == "" {
      assert text == secret + back && text[|secret|..] == back;
      ReplacesFirst(text, secret, mask);
      assert "" + mask + ReplaceAll(back, secret, mask) == mask + ReplaceAll(back, secret, mask);
    } else {
      assert !OccursAt(secret, text, 0);
      PrefixOccurs(secret, text);
      var rest := front[1..] + secret + back;
      assert text == [front[0]] + rest;
      forall j | 0 <= j < |front[1..]|
        ensures !OccursAt(secret, rest, j)
      {
        assert !OccursAt(secret, text, j + 1);
        ShiftedOccurrence(secret, front[0], rest, j);
      }
      ReplaceAtFirst(front[1..], secret, back, mask);
      assert text[1..] == rest && |text| >= |secret|;
      ReplacesFirst(text, secret, mask);
      assert [front[0]] + (front[1..] + mask + ReplaceAll(back, secret, mask))
           == front + mask + ReplaceAll(back, secret, mask);
    }
  }

  lemma ReplacesFirst(text: string, secret: string, mask: string)
    requires secret != "" && |text| >= |secret|
    ensures ReplaceAll(text, secret, mask)
         == if secret <= text then mask + ReplaceAll(text[|secret|..], secret, mask)
            else [text[0]] + ReplaceAll(text[1..], secret, mask)
  {
  }

  lemma PrefixOccurs(secret: string, text: string)
    ensures secret <= text ==> OccursAt(secret, text, 0)
  {
    if secret <= text {
      assert text[0..|secret|] == text[..|secret|];
    }
  }

  lemma ShiftedOccurrence(secret: string, c: char, rest: string, j: nat)
    ensures OccursAt(secret, rest, j) ==> OccursAt(secret, [c] + rest, j + 1)
  {
    if OccursAt(secret, rest, j) {
      assert ([c] + rest)[j + 1..j + 1 + |secret|] == rest[j..j + |secret|];
    }
  }

  /** A text in which redacting the secret leaves, or makes, a copy of it. */
  predicate Survives(secret: string, text: string, mask: string) {
    secret != "" && Occurs(secret, ReplaceAll(text, secret, mask))
  }

  lemma SpelledByTail(secret: string, mask: string, i: nat, shared: nat)
    requires i < |mask| && Agrees(secret, mask, i)
    requires shared == if i + |secret| <= |mask| then |secret| else |mask| - i
    ensures i + |secret| <= |mask + secret[shared..]| && (mask + secret[shared..])[i..i + |secret|] == secret
  {
    var output := mask + secret[shared..];
    forall k | 0 <= k < |secret|
      ensures output[i..i + |secret|][k] == secret[k]
    {
      if k < shared {
        assert secret[k] == mask[i + k];
      }
    }
  }

  lemma PiecesOf(secret: string, front: string, back: string, i: nat, j: nat)
    requires i + |front| <= |secret| && front == secret[i..i + |front|] && j + |back| <= |secret|
    requires back == secret[j..j + |back|]
    ensures MadeOf(front + secret + back, secret)
  {
    FoundAt(front, secret, i);
    FoundAt(back, secret, j);
    hide Occurs;
    assert MadeWith(front + secret + back, secret, front, back);
  }

  /** The secret fits over the end of the mask: the mask, followed by the rest of the secret, spells it. */
  lemma CollidesFromInside(secret: string, mask: string, i: nat) returns (text: string)
    requires secret != "" && i < |mask| && Agrees(secret, mask, i)
    ensures Survives(secret, text, mask) && MadeOf(text, secret)
  {
    var shared := if i + |secret| <= |mask| then |secret| else |mask| - i;
    var rest := secret[shared..];
    text := secret + rest;
    assert "" + secret + rest == text;
    assert MadeOf(text, secret) by { PiecesOf(secret, "", rest, 0, shared); }
    ReplaceAtFirst("", secret, rest, mask);
    var output := mask + rest;
    assert ReplaceAll(rest, secret, mask) == rest;
    assert "" + mask + rest == output;
    hide Agrees, Occurs, ReplaceAll;
    SpelledByTail(secret, mask, i, shared);
    FoundAt(secret, output, i);
  }

  /** An earlier copy of the secret in `secret[..m] + secret + ...` makes it periodic, so that it begins as the mask
      does. */
  lemma EarlierCopyForcesStart(secret: string, m: nat, back: string, j: nat)
    requires 0 < m < |secret| && j < m && OccursAt(secret, secret[..m] + secret + back, j)
    ensures secret[m] == secret[0]
  {
    var text := secret[..m] + secret + back;
    var d := m - j;
    assert text[j..j + |secret|][0] == text[j] == secret[j];
    assert text[j..j + |secret|][m] == text[j + m];
    assert text[j + m] == secret[j];
  }

  /** The secret fits over the front of the mask: its own beginning, followed by the mask, spells it. */
  lemma CollidesFromOutside(secret: string, mask: string, m: int) returns (text: string)
    requires 0 < m < |secret| && mask != "" && Agrees(secret, mask, -m)
    requires secret[0] != mask[0]
    ensures Survives(secret, text, mask) && MadeOf(text, secret)
  {
    var front := secret[..m];
    var back := if m + |mask| < |secret| then secret[m + |mask|..] else "";
    text := front + secret + back;
    assert MadeOf(text, secret) by {
      PiecesOf(secret, front, back, 0, if m + |mask| < |secret| then m + |mask| else |secret|);
    }
    assert secret[m] == mask[0];
    forall j | 0 <= j < |front|
      ensures !OccursAt(secret, text, j)
    {
      if OccursAt(secret, text, j) {
        EarlierCopyForcesStart(secret, m, back, j);
      }
    }
    ReplaceAtFirst(front, secret, back, mask);
    assert ReplaceAll(back, secret, mask) == back;
    var output := front + mask + back;
    SpelledOut(secret, mask, m, back);
    FoundAt(secret, output, 0);
  }

  lemma SpelledOut(secret: string, mask: string, m: int, back: string)
    requires 0 < m < |secret| && Agrees(secret, mask, -m)
    requires back == if m + |mask| < |secret| then secret[m + |mask|..] else ""
    ensures |secret| <= |secret[..m] + mask + back| && (secret[..m] + mask + back)[0..|secret|] == secret
  {
    var output := secret[..m] + mask + back;
    forall k | 0 <= k < |secret|
      ensures output[k] == secret[k]
    {
      if m <= k < m + |mask| {
        assert secret[k] == mask[-m + k];
      }
    }
  }

  lemma SurvivalOf(secret: string, mask: string) returns (text: string)
    requires secret != "" && mask != "" && mask[0] == mask[|mask| - 1] && Collides(secret, mask)
    ensures Survives(secret, text, mask) && MadeOf(text, secret)
  {
    hide Survives, MadeOf;
    var i :| -|secret| < i < |mask| && Agrees(secret, mask, i);
    if i >= 0 {
      text := CollidesFromInside(secret, mask, i);
    } else if secret[0] == mask[0] {
      assert Agrees(secret, mask, |mask| - 1);
      text := CollidesFromInside(secret, mask, |mask| - 1);
    } else {
      text := CollidesFromOutside(secret, mask, -i);
    }
  }

  /** For one secret: it can be made to survive by some text exactly when it collides with the mask. The mask begins and
      ends alike, as the placeholder does. */
  lemma SurvivesIffCollides(secret: string, mask: string)
    requires secret != "" && mask != "" && mask[0] == mask[|mask| - 1]
    ensures Collides(secret, mask) <==> exists text :: Survives(secret, text, mask)
  {
    if Collides(secret, mask) {
      var text := SurvivalOf(secret, mask);
    } else if text :| Survives(secret, text, mask) {
      var at :| 0 <= at <= |ReplaceAll(text, secret, mask)| - |secret|
        && OccursAt(secret, ReplaceAll(text, secret, mask), at);
      OccurrenceComesFromInput(text, secret, mask, secret, at);
    }
  }

  /** The secret overlaps none of the others. */
  predicate Alone(secrets: seq<string>, i: nat)
    requires i < |secrets|
  {
    forall j | 0 <= j < |secrets| && j != i :: !Collides(secrets[i], secrets[j])
  }

  lemma {:induction false} SurvivesTheOthers(text: string, secrets: seq<string>, mask: string, i: nat)
    requires NonEmpty(secrets) && i < |secrets| && Alone(secrets, i)
    requires MadeOf(text, secrets[i]) && Survives(secrets[i], text, mask)
    ensures Occurs(secrets[i], RedactWith(text, secrets, mask))
    decreases |secrets|
  {
    hide Occurs, Collides, MadeOf, ReplaceAll;
    var init, last := secrets[..|secrets| - 1], secrets[|secrets| - 1];
    if i == |secrets| - 1 {
      forall j | 0 <= j < |init|
        ensures !Occurs(init[j], text)
      {
        OthersDoNotOccur(text, secrets[i], secrets[j]);
      }
      CleanTextIsKept(text, init, mask);
    } else {
      SurvivesTheOthers(text, init, mask, i);
      var before := RedactWith(text, init, mask);
      var at := Found(secrets[i], before);
      OccurrenceIsSpared(before, last, mask, secrets[i], at);
    }
  }

  lemma Found(secret: string, text: string) returns (at: nat)
    requires Occurs(secret, text)
    ensures OccursAt(secret, text, at)
  {
    at :| 0 <= at <= |text| - |secret| && OccursAt(secret, text, at);
  }

  /** Among others that it does not overlap, just the same: it survives some text exactly when it collides with the
      mask. */
  lemma SurvivesIffCollidesAmongOthers(secrets: seq<string>, mask: string, i: nat)
    requires NonEmpty(secrets) && i < |secrets| && Alone(secrets, i) && mask != "" && mask[0] == mask[|mask| - 1]
    ensures Collides(secrets[i], mask) <==> exists text :: Occurs(secrets[i], RedactWith(text, secrets, mask))
  {
    hide Occurs, Collides, MadeOf, RedactWith, Alone, Survives;
    if Collides(secrets[i], mask) {
      var text := SurvivalOf(secrets[i], mask);
      SurvivesTheOthers(text, secrets, mask, i);
    } else if text :| Occurs(secrets[i], RedactWith(text, secrets, mask)) {
      NoSecretSurvives(text, secrets, mask, i);
    }
  }

  // ----- Which occurrences are replaced

  /** A text cut into what is kept and the secrets that are hidden in it. */
  datatype Cutting = End(raw: string) | Cut(raw: string, secret: string, rest: Cutting)

  function Plain(c: Cutting): string {
    match c
    case End(raw) => raw
    case Cut(raw, secret, rest) => raw + secret + Plain(rest)
  }

  function Masked(c: Cutting, mask: string): string {
    match c
    case End(raw) => raw
    case Cut(raw, _, rest) => raw + mask + Masked(rest, mask)
  }

  /** The secret is hidden at this place of the text. */
  predicate HiddenAt(c: Cutting, place: int, secret: string) {
    && c.Cut?
    && ((place == |c.raw| && secret == c.secret) || HiddenAt(c.rest, place - |c.raw| - |c.secret|, secret))
  }

  predicate OnlyHides(c: Cutting, secrets: seq<string>) {
    c.Cut? ==> c.secret in secrets && OnlyHides(c.rest, secrets)
  }

  /** A hidden secret at least as long overlaps the place. */
  ghost predicate CoveredBy(c: Cutting, place: int, length: nat) {
    exists q, x :: HiddenAt(c, q, x) && |x| >= length && q < place + length && place < q + |x|
  }

  /** Wherever the secret occurs in the text, it is hidden, or one at least as long that overlaps it is. */
  ghost predicate Yields(c: Cutting, secret: string) {
    forall p | OccursAt(secret, Plain(c), p) :: CoveredBy(c, p, |secret|)
  }

  /** The pieces after hiding the secret's leftmost, non-overlapping occurrences in a text that had none hidden. */
  function HideIn(text: string, secret: string): Cutting
    requires secret != ""
    decreases |text|
  {
    if |text| < |secret| then End(text)
    else if secret <= text then Cut("", secret, HideIn(text[|secret|..], secret))
    else Prepend(text[0], HideIn(text[1..], secret))
  }

  function Prepend(c: char, cutting: Cutting): Cutting {
    cutting.(raw := [c] + cutting.raw)
  }

  function Splice(c: Cutting, secret: string, rest: Cutting): Cutting {
    match c
    case End(raw) => Cut(raw, secret, rest)
    case Cut(raw, x, more) => Cut(raw, x, Splice(more, secret, rest))
  }

  function Hide(c: Cutting, secret: string): Cutting
    requires secret != ""
  {
    match c
    case End(raw) => HideIn(raw, secret)
    case Cut(raw, x, rest) => Splice(HideIn(raw, secret), x, Hide(rest, secret))
  }

  lemma {:induction false} HideInKeepsText(text: string, secret: string)
    requires secret != ""
    ensures Plain(HideIn(text, secret)) == text
    decreases |text|
  {
    hide Prepend;
    if |text| >= |secret| {
      if secret <= text {
        HideInKeepsText(text[|secret|..], secret);
        assert text == "" + secret + text[|secret|..];
      } else {
        HideInKeepsText(text[1..], secret);
        PrependPieces(text[0], HideIn(text[1..], secret), "");
        assert text == [text[0]] + text[1..];
      }
    }
  }

  lemma {:induction false} HideInIsReplaceAll(text: string, secret: string, mask: string)
    requires secret != ""
    ensures Masked(HideIn(text, secret), mask) == ReplaceAll(text, secret, mask)
    decreases |text|
  {
    hide ReplaceAll, Prepend;
    if |text| < |secret| {
      ReplacesNothing(text, secret, mask);
    } else {
      ReplacesFirst(text, secret, mask);
      if secret <= text {
        HideInIsReplaceAll(text[|secret|..], secret, mask);
        NoFront(mask, ReplaceAll(text[|secret|..], secret, mask));
      } else {
        HideInIsReplaceAll(text[1..], secret, mask);
        PrependPieces(text[0], HideIn(text[1..], secret), mask);
      }
    }
  }

  lemma NoFront(a: string, b: string)
    ensures "" + a + b == a + b
  {
  }

  lemma {:induction false} HideInOnlyHides(text: string, secret: string, secrets: seq<string>)
    requires secret != "" && secret in secrets
    ensures OnlyHides(HideIn(text, secret), secrets)
    decreases |text|
  {
    if |text| >= |secret| {
      HideInOnlyHides(if secret <= text then text[|secret|..] else text[1..], secret, secrets);
    }
  }

  lemma PrependPieces(c: char, cutting: Cutting, mask: string)
    ensures Plain(Prepend(c, cutting)) == [c] + Plain(cutting)
    ensures Masked(Prepend(c, cutting), mask) == [c] + Masked(cutting, mask)
  {
    if cutting.Cut? {
      assert [c] + (cutting.raw + cutting.secret + Plain(cutting.rest))
           == [c] + cutting.raw + cutting.secret + Plain(cutting.rest);
      assert [c] + (cutting.raw + mask + Masked(cutting.rest, mask))
           == [c] + cutting.raw + mask + Masked(cutting.rest, mask);
    }
  }

  lemma {:induction false} SplicePieces(c: Cutting, secret: string, rest: Cutting, mask: string)
    ensures Plain(Splice(c, secret, rest)) == Plain(c) + secret + Plain(rest)
    ensures Masked(Splice(c, secret, rest), mask) == Masked(c, mask) + mask + Masked(rest, mask)
  {
    if c.Cut? {
      SplicePieces(c.rest, secret, rest, mask);
      assert c.raw + c.secret + (Plain(c.rest) + secret + Plain(rest))
           == c.raw + c.secret + Plain(c.rest) + secret + Plain(rest);
      assert c.raw + mask + (Masked(c.rest, mask) + mask + Masked(rest, mask))
          == c.raw + mask + Masked(c.rest, mask) + mask + Masked(rest, mask);
    }
  }

  lemma {:induction false} SpliceHides(c: Cutting, secret: string, rest: Cutting, place: int, x: string)
    ensures HiddenAt(Splice(c, secret, rest), place, x)
       <==> || HiddenAt(c, place, x)
            || (place == |Plain(c)| && x == secret)
            || HiddenAt(rest, place - |Plain(c)| - |secret|, x)
  {
    if c.Cut? {
      SpliceHides(c.rest, secret, rest, place - |c.raw| - |c.secret|, x);
    }
  }

  /** A secret that does not collide is replaced on both sides of a mask alike. */
  lemma {:induction false} ReplacesAround(a: string, b: string, secret: string, mask: string)
    requires secret != "" && mask != "" && !Collides(secret, mask)
    ensures ReplaceAll(a + mask + b, secret, mask) == ReplaceAll(a, secret, mask) + mask + ReplaceAll(b, secret, mask)
    decreases |a|
  {
    hide Collides, ReplaceAll;
    var text := a + mask + b;
    if a == "" {
      assert text == mask[0..] + b;
      ReplacesBehind(mask, 0, b, secret);
      ReplacesNothing("", secret, mask);
    } else if |a| < |secret| && |text| < |secret| {
      ReplacesNothing(text, secret, mask);
      ReplacesNothing(a, secret, mask);
      ReplacesNothing(b, secret, mask);
    } else {
      ReplacesFirst(text, secret, mask);
      if |a| < |secret| {
        if secret <= text {
          PrefixWouldCollide(a, b, secret, mask);
        }
        ReplacesNothing(a, secret, mask);
        ReplacesNothing(a[1..], secret, mask);
        ReplacesAround(a[1..], b, secret, mask);
        CutFront(a, 1, mask, b);
        Rejoin([a[0]], a[1..], mask, ReplaceAll(b, secret, mask));
        assert [a[0]] + a[1..] == a;
      } else {
        ReplacesFirst(a, secret, mask);
        PrefixOfFront(secret, a, mask + b);
        assert a + (mask + b) == text;
        var cut := if secret <= a then |secret| else 1;
        CutFront(a, cut, mask, b);
        ReplacesAround(a[cut..], b, secret, mask);
        Rejoin(if secret <= a then mask else [a[0]], ReplaceAll(a[cut..], secret, mask), mask,
               ReplaceAll(b, secret, mask));
      }
    }
  }

  lemma CutFront(a: string, cut: nat, mask: string, b: string)
    requires cut <= |a| && a != ""
    ensures (a + mask + b)[cut..] == a[cut..] + mask + b && (a + mask + b)[0] == a[0]
  {
  }

  lemma Rejoin(head: string, rest: string, mask: string, back: string)
    ensures head + (rest + mask + back) == head + rest + mask + back
  {
  }

  lemma PrefixOfFront(secret: string, a: string, b: string)
    requires |secret| <= |a|
    ensures secret <= a + b <==> secret <= a
  {
    assert (a + b)[..|secret|] == a[..|secret|];
  }

  lemma ReplacesNothing(text: string, secret: string, mask: string)
    requires |text| < |secret|
    ensures ReplaceAll(text, secret, mask) == text
  {
  }

  lemma PrefixWouldCollide(a: string, b: string, secret: string, mask: string)
    requires a != "" && |a| < |secret| && mask != "" && secret <= a + mask + b
    ensures Collides(secret, mask)
  {
    var text := a + mask + b;
    forall k | 0 <= k < |secret| && 0 <= -|a| + k < |mask|
      ensures secret[k] == mask[-|a| + k]
    {
      assert text[k] == mask[k - |a|];
    }
    AgreementCollides(secret, mask, -|a|);
  }

  /** Nothing of the mask itself is replaced. */
  lemma {:induction false} ReplacesBehind(mask: string, i: nat, b: string, secret: string)
    requires i <= |mask| && secret != "" && mask != "" && !Collides(secret, mask)
    ensures ReplaceAll(mask[i..] + b, secret, mask) == mask[i..] + ReplaceAll(b, secret, mask)
    decreases |mask| - i
  {
    hide Collides, ReplaceAll;
    var text := mask[i..] + b;
    if i == |mask| {
      assert text == b;
    } else if |text| < |secret| {
      ReplacesNothing(text, secret, mask);
      ReplacesNothing(b, secret, mask);
    } else {
      if secret <= text {
        InsideWouldCollide(mask, i, b, secret);
      }
      ReplacesFirst(text, secret, mask);
      assert text[1..] == mask[i + 1..] + b;
      ReplacesBehind(mask, i + 1, b, secret);
      TakeOne(mask, i, ReplaceAll(b, secret, mask));
    }
  }

  lemma InsideWouldCollide(mask: string, i: nat, b: string, secret: string)
    requires i < |mask| && secret != "" && secret <= mask[i..] + b
    ensures Collides(secret, mask)
  {
    forall k | 0 <= k < |secret| && 0 <= i + k < |mask|
      ensures secret[k] == mask[i + k]
    {
      assert (mask[i..] + b)[k] == mask[i..][k];
    }
    AgreementCollides(secret, mask, i);
  }

  lemma TakeOne(mask: string, i: nat, back: string)
    requires i < |mask|
    ensures [mask[i]] + (mask[i + 1..] + back) == mask[i..] + back
  {
  }

  /** Hiding one more secret is replacing it in what is shown. */
  lemma {:induction false} HideIsReplaceAll(c: Cutting, secret: string, mask: string)
    requires secret != "" && mask != "" && !Collides(secret, mask)
    ensures Plain(Hide(c, secret)) == Plain(c)
    ensures Masked(Hide(c, secret), mask) == ReplaceAll(Masked(c, mask), secret, mask)
  {
    hide Collides, ReplaceAll, HideIn, Splice;
    HideInKeepsText(c.raw, secret);
    HideInIsReplaceAll(c.raw, secret, mask);
    if c.Cut? {
      HideIsReplaceAll(c.rest, secret, mask);
      SplicePieces(HideIn(c.raw, secret), c.secret, Hide(c.rest, secret), mask);
      ReplacesAround(c.raw, Masked(c.rest, mask), secret, mask);
    }
  }

  /** What is hidden stays hidden, and what is newly hidden is the secret. */
  lemma {:induction false} HideHides(c: Cutting, secret: string, place: int, x: string)
    requires secret != ""
    ensures HiddenAt(c, place, x) ==> HiddenAt(Hide(c, secret), place, x)
  {
    hide HideIn, Splice;
    if c.Cut? {
      HideInKeepsText(c.raw, secret);
      HideHides(c.rest, secret, place - |c.raw| - |c.secret|, x);
      SpliceHides(HideIn(c.raw, secret), c.secret, Hide(c.rest, secret), place, x);
    }
  }

  lemma {:induction false} SpliceOnlyHides(c: Cutting, secret: string, rest: Cutting, secrets: seq<string>)
    requires OnlyHides(c, secrets) && OnlyHides(rest, secrets) && secret in secrets
    ensures OnlyHides(Splice(c, secret, rest), secrets)
  {
    if c.Cut? {
      SpliceOnlyHides(c.rest, secret, rest, secrets);
    }
  }

  lemma {:induction false} HidesFewer(c: Cutting, fewer: seq<string>, secrets: seq<string>)
    requires OnlyHides(c, fewer) && forall s | s in fewer :: s in secrets
    ensures OnlyHides(c, secrets)
  {
    if c.Cut? {
      HidesFewer(c.rest, fewer, secrets);
    }
  }

  lemma {:induction false} HideOnlyHides(c: Cutting, secret: string, secrets: seq<string>)
    requires secret != "" && OnlyHides(c, secrets)
    ensures OnlyHides(Hide(c, secret), secrets + [secret])
  {
    hide HideIn, Splice;
    HideInOnlyHides(c.raw, secret, secrets + [secret]);
    if c.Cut? {
      HidesFewer(c, secrets, secrets + [secret]);
      HideOnlyHides(c.rest, secret, secrets);
      SpliceOnlyHides(HideIn(c.raw, secret), c.secret, Hide(c.rest, secret), secrets + [secret]);
    }
  }

  /** Of the secret's occurrences in a text every one is hidden or overlapped by one that is. */
  lemma {:induction false} HideInYields(text: string, secret: string, p: int) returns (q: int)
    requires secret != "" && OccursAt(secret, text, p)
    ensures HiddenAt(HideIn(text, secret), q, secret) && q < p + |secret| && p < q + |secret|
    decreases |text|
  {
    if secret <= text {
      if p < |secret| {
        q := 0;
      } else {
        assert text[|secret|..][p - |secret|..p] == text[p..p + |secret|];
        q := HideInYields(text[|secret|..], secret, p - |secret|);
        q := q + |secret|;
      }
    } else {
      OccursAtFront(secret, text);
      assert text[1..][p - 1..p - 1 + |secret|] == text[p..p + |secret|];
      q := HideInYields(text[1..], secret, p - 1);
      q := q + 1;
    }
  }

  lemma OccursAtFront(secret: string, text: string)
    ensures OccursAt(secret, text, 0) ==> secret <= text
  {
    if OccursAt(secret, text, 0) {
      assert text[0..|secret|] == text[..|secret|];
    }
  }

  lemma {:induction false} HideYields(c: Cutting, secret: string, secrets: seq<string>, p: int)
    requires secret != "" && OnlyHides(c, secrets) && (forall s | s in secrets :: |s| >= |secret|)
    requires OccursAt(secret, Plain(c), p)
    ensures CoveredBy(Hide(c, secret), p, |secret|)
  {
    hide HideIn, Splice, OccursAt;
    HideInKeepsText(c.raw, secret);
    if c.End? {
      var q := HideInYields(c.raw, secret, p);
    } else if p + |secret| <= |c.raw| {
      assert c.raw + (c.secret + Plain(c.rest)) == Plain(c);
      OccursInside(secret, c.raw, c.secret + Plain(c.rest), p);
      var q := HideInYields(c.raw, secret, p);
      SpliceHides(HideIn(c.raw, secret), c.secret, Hide(c.rest, secret), q, secret);
    } else if p < |c.raw| + |c.secret| {
      SpliceHides(HideIn(c.raw, secret), c.secret, Hide(c.rest, secret), |c.raw|, c.secret);
    } else {
      var shift := |c.raw| + |c.secret|;
      OccursBehind(secret, c.raw + c.secret, Plain(c.rest), p);
      HideYields(c.rest, secret, secrets, p - shift);
      var q, x :| HiddenAt(Hide(c.rest, secret), q, x) && |x| >= |secret| && q < p - shift + |secret|
        && p - shift < q + |x|;
      SpliceHides(HideIn(c.raw, secret), c.secret, Hide(c.rest, secret), q + shift, x);
    }
  }

  lemma OccursInside(secret: string, front: string, back: string, p: int)
    requires OccursAt(secret, front + back, p) && p + |secret| <= |front|
    ensures OccursAt(secret, front, p)
  {
    assert (front + back)[p..p + |secret|] == front[p..p + |secret|];
  }

  lemma OccursBehind(secret: string, front: string, back: string, p: int)
    requires OccursAt(secret, front + back, p) && p >= |front|
    ensures OccursAt(secret, back, p - |front|)
  {
    assert (front + back)[p..p + |secret|] == back[p - |front|..p - |front| + |secret|];
  }

  predicate AllApart(secrets: seq<string>, mask: string) {
    forall i | 0 <= i < |secrets| :: secrets[i] != "" && !Collides(secrets[i], mask)
  }

  /** What redaction shows is the text with occurrences of the secrets masked and everything else kept; and an
      occurrence that is not masked whole is overlapped by one at least as long that is. */
  lemma {:induction false} RedactionCuts(text: string, secrets: seq<string>, mask: string) returns (c: Cutting)
    requires mask != "" && AllApart(secrets, mask) && ByLength(secrets)
    ensures NonEmpty(secrets) && Plain(c) == text && Masked(c, mask) == RedactWith(text, secrets, mask)
    ensures OnlyHides(c, secrets) && forall i | 0 <= i < |secrets| :: Yields(c, secrets[i])
    decreases |secrets|
  {
    hide Collides, ReplaceAll, Hide, OccursAt;
    if secrets == [] {
      c := End(text);
    } else {
      var init, last := secrets[..|secrets| - 1], secrets[|secrets| - 1];
      assert secrets == init + [last];
      var before := RedactionCuts(text, init, mask);
      c := Hide(before, last);
      HideIsReplaceAll(before, last, mask);
      HideOnlyHides(before, last, init);
      forall i, p | 0 <= i < |secrets| && OccursAt(secrets[i], Plain(c), p)
        ensures CoveredBy(c, p, |secrets[i]|)
      {
        if i < |init| {
          assert Yields(before, init[i]);
          StaysCovered(before, last, p, |secrets[i]|);
        } else {
          HideYields(before, last, init, p);
        }
      }
    }
  }

  lemma StaysCovered(c: Cutting, secret: string, p: int, length: nat)
    requires secret != "" && CoveredBy(c, p, length)
    ensures CoveredBy(Hide(c, secret), p, length)
  {
    hide Hide, HiddenAt;
    var q, x :| HiddenAt(c, q, x) && |x| >= length && q < p + length && p < q + |x|;
    HideHides(c, secret, q, x);
  }

  // ----- A secret is masked whole

  /** Only the secret itself, at its own place, is as long and overlaps it. */
  ghost predicate Prevails(secret: string, secrets: seq<string>, text: string, place: int) {
    forall x, q | x in secrets && OccursAt(x, text, q) && |x| >= |secret| && q < place + |secret| && place < q + |x| ::
      x == secret && q == place
  }

  /** Where a hidden secret cuts the text, the mask cuts what is shown. */
  lemma {:induction false} CutsThere(c: Cutting, place: int, secret: string, secrets: seq<string>, mask: string)
    returns (left: Cutting, right: Cutting)
    requires HiddenAt(c, place, secret) && OnlyHides(c, secrets)
    ensures |Plain(left)| == place && Plain(c) == Plain(left) + secret + Plain(right)
    ensures Masked(c, mask) == Masked(left, mask) + mask + Masked(right, mask)
    ensures secret in secrets && OnlyHides(left, secrets) && OnlyHides(right, secrets)
  {
    if place == |c.raw| && secret == c.secret {
      left, right := End(c.raw), c.rest;
    } else {
      var l, rr := CutsThere(c.rest, place - |c.raw| - |c.secret|, secret, secrets, mask);
      left, right := Cut(c.raw, c.secret, l), rr;
      Regroup(c.raw, c.secret, Plain(l), secret, Plain(rr));
      Regroup(c.raw, mask, Masked(l, mask), mask, Masked(rr, mask));
    }
  }

  lemma Regroup(a: string, b: string, c: string, d: string, e: string)
    ensures a + b + (c + d + e) == (a + b + c) + d + e
  {
  }

  /** Longest first: a secret that no other as long overlaps gives way to the mask as a whole, between what is shown
      of the text before it and of the text after it. */
  lemma SecretIsMaskedWhole(front: string, secret: string, back: string, secrets: seq<string>, mask: string)
    returns (left: Cutting, right: Cutting)
    requires mask != "" && AllApart(secrets, mask) && ByLength(secrets) && secret in secrets
    requires Prevails(secret, secrets, front + secret + back, |front|)
    ensures NonEmpty(secrets) && Plain(left) == front && Plain(right) == back
    ensures OnlyHides(left, secrets) && OnlyHides(right, secrets)
    ensures RedactWith(front + secret + back, secrets, mask) == Masked(left, mask) + mask + Masked(right, mask)
  {
    hide RedactWith, Masked, OnlyHides, HiddenAt, Collides, Plain;
    var text := front + secret + back;
    var c := RedactionCuts(text, secrets, mask);
    assert text[|front|..|front| + |secret|] == secret;
    assert OccursAt(secret, text, |front|);
    var i :| 0 <= i < |secrets| && secrets[i] == secret;
    assert Yields(c, secrets[i]);
    var q, x :| HiddenAt(c, q, x) && |x| >= |secret| && q < |front| + |secret| && |front| < q + |x|;
    left, right := CutsThere(c, q, x, secrets, mask);
    assert text[q..q + |x|] == x;
    assert OccursAt(x, text, q);
    assert x == secret && q == |front|;
    SameSplit(front, back, Plain(left), Plain(right), secret, text);
  }

  lemma SameSplit(front: string, back: string, left: string, right: string, middle: string, text: string)
    requires text == front + middle + back && text == left + middle + right && |left| == |front|
    ensures left == front && right == back
  {
    assert text[..|front|] == front && text[..|left|] == left;
    assert text[|front| + |middle|..] == back && text[|left| + |middle|..] == right;
  }

  lemma NothingIsCut(c: Cutting, secrets: seq<string>, mask: string)
    requires Plain(c) == "" && OnlyHides(c, secrets) && NonEmpty(secrets)
    ensures Masked(c, mask) == ""
  {
  }

  /** A secret alone in a text leaves nothing but the mask, whatever shorter ones are part of it. */
  lemma SecretBecomesMask(secret: string, secrets: seq<string>, mask: string)
    requires mask != "" && AllApart(secrets, mask) && ByLength(secrets) && secret in secrets
    ensures NonEmpty(secrets) && RedactWith(secret, secrets, mask) == mask
  {
    hide RedactWith, Masked, OnlyHides, Collides, Plain;
    assert "" + secret + "" == secret;
    forall x, q | x in secrets && OccursAt(x, secret, q) && |x| >= |secret|
      ensures x == secret && q == 0
    {
      assert secret[0..|secret|] == secret;
    }
    var left, right := SecretIsMaskedWhole("", secret, "", secrets, mask);
    NothingIsCut(left, secrets, mask);
    NothingIsCut(right, secrets, mask);
  }

  // ----- The placeholder

  predicate StarFree(s: string) {
    forall i | 0 <= i < |s| :: s[i] != '*'
  }

  /** Secrets without stars collide with the placeholder only by being its interior. This is where the minimum length
      meets the eight letters between the stars. */
  lemma StarFreeSecretsAreApart(secret: string)
    requires |secret| >= MIN_REDACTABLE_LENGTH && StarFree(secret)
    ensures Collides(secret, REDACTION_PLACEHOLDER) <==> secret == "REDACTED"
  {
    var mask := REDACTION_PLACEHOLDER;
    if i :| -|secret| < i < |mask| && Agrees(secret, mask, i) {
      if i <= 0 {
        NoStarUnder(secret, mask, i, 0);
      } else if i + |secret| > 13 {
        NoStarUnder(secret, mask, i, 13);
      } else if i <= 2 {
        NoStarUnder(secret, mask, i, 2);
      } else if i + |secret| > 11 {
        NoStarUnder(secret, mask, i, 11);
      } else {
        assert |secret| == 8 && i == 3;
        assert secret == mask[3..11] == "REDACTED";
      }
    }
    if secret == "REDACTED" {
      assert Agrees(secret, mask, 3);
    }
  }

  /** A star before a token makes it collide; kept beside the token itself, both are gone from every text. */
  lemma StarredTokenIsCovered(text: string, token: string)
    requires |token| >= MIN_REDACTABLE_LENGTH && StarFree(token) && token != "REDACTED"
    ensures Collides("*" + token, REDACTION_PLACEHOLDER)
    ensures !Occurs("*" + token, RedactWith(text, ["*" + token, token], REDACTION_PLACEHOLDER))
    ensures !Occurs(token, RedactWith(text, ["*" + token, token], REDACTION_PLACEHOLDER))
  {
    StarFreeSecretsAreApart(token);
    StarredCollides(token);
    assert ("*" + token)[1..1 + |token|] == token;
    FoundAt(token, "*" + token, 1);
    assert token[0..|token|] == token;
    FoundAt(token, token, 0);
    hide *;
    PairIsCovered("*" + token, token, REDACTION_PLACEHOLDER);
    CoveredSecretsAreGone(text, ["*" + token, token], REDACTION_PLACEHOLDER, 0);
    CoveredSecretsAreGone(text, ["*" + token, token], REDACTION_PLACEHOLDER, 1);
  }

  lemma StarredCollides(token: string)
    ensures Collides("*" + token, REDACTION_PLACEHOLDER)
  {
    assert REDACTION_PLACEHOLDER[13] == '*';
    assert Agrees("*" + token, REDACTION_PLACEHOLDER, 13);
  }

  lemma PairIsCovered(outer: string, inner: string, mask: string)
    requires inner != "" && outer != "" && Occurs(inner, outer) && Occurs(inner, inner) && !Collides(inner, mask)
    ensures Covered([outer, inner], mask) && NonEmpty([outer, inner])
  {
    hide Occurs, Collides;
    assert [outer, inner][1] == inner;
  }

  lemma NoStarUnder(secret: string, mask: string, i: int, position: nat)
    requires StarFree(secret) && Agrees(secret, mask, i)
    requires 0 <= position - i < |secret| && position < |mask|
    ensures mask[position] != '*'
  {
    assert secret[position - i] == mask[i + (position - i)];
  }

  // ----- The program's functions

  function KeptValue(candidate: Option<string>): Option<string> {
    if candidate.None? then None
    else
      var value := Trim(candidate.value);
      if value != "" && |value| >= MIN_REDACTABLE_LENGTH then Some(value) else None
  }

  /** The distinct values worth redacting, in order of first mention. */
  function Unique(candidates: seq<Option<string>>): seq<string> {
    if candidates == [] then []
    else
      var earlier, value := Unique(candidates[..|candidates| - 1]), KeptValue(candidates[|candidates| - 1]);
      if value.None? || value.value in earlier then earlier else earlier + [value.value]
  }

  function InsertByLength(s: string, sorted: seq<string>): seq<string> {
    if sorted == [] then [s]
    else if |s| >= |sorted[0]| then [s] + sorted
    else [sorted[0]] + InsertByLength(s, sorted[1..])
  }

  function LongestFirst(secrets: seq<string>): seq<string> {
    if secrets == [] then [] else InsertByLength(secrets[0], LongestFirst(secrets[1..]))
  }

  method RedactableSecrets(candidates: seq<Option<string>>) returns (secrets: seq<string>)
    ensures secrets == LongestFirst(Unique(candidates))
  {
    var unique: seq<string> := [];
    for i := 0 to |candidates|
      invariant unique == Unique(candidates[..i])
    {
      assert candidates[..i + 1][..i] == candidates[..i];
      var value := KeptValue(candidates[i]);
      if value.Some? && value.value !in unique {
        unique := unique + [value.value];
      }
    }
    assert candidates[..|candidates|] == candidates;
    return LongestFirst(unique);
  }

  lemma {:induction false} UniqueMembers(candidates: seq<Option<string>>, s: string)
    ensures s in Unique(candidates) <==> exists i | 0 <= i < |candidates| :: KeptValue(candidates[i]) == Some(s)
  {
    hide KeptValue;
    if candidates != [] {
      UniqueMembers(candidates[..|candidates| - 1], s);
    }
  }

  lemma {:induction false} InsertMembers(s: string, sorted: seq<string>, x: string)
    ensures x in InsertByLength(s, sorted) <==> x == s || x in sorted
  {
    if sorted != [] && |s| < |sorted[0]| {
      InsertMembers(s, sorted[1..], x);
      assert sorted == [sorted[0]] + sorted[1..];
    }
  }

  lemma {:induction false} SortMembers(secrets: seq<string>, x: string)
    ensures x in LongestFirst(secrets) <==> x in secrets
  {
    if secrets != [] {
      SortMembers(secrets[1..], x);
      InsertMembers(secrets[0], LongestFirst(secrets[1..]), x);
      assert secrets == [secrets[0]] + secrets[1..];
    }
  }

  predicate ByLength(secrets: seq<string>) {
    forall i, j | 0 <= i < j < |secrets| :: |secrets[i]| >= |secrets[j]|
  }

  lemma {:induction false} InsertSorts(s: string, sorted: seq<string>)
    requires ByLength(sorted)
    ensures ByLength(InsertByLength(s, sorted)) && |InsertByLength(s, sorted)| == |sorted| + 1
    ensures forall i | 0 <= i < |sorted| + 1 ::
        InsertByLength(s, sorted)[i] == s || InsertByLength(s, sorted)[i] in sorted
  {
    if sorted != [] && |s| < |sorted[0]| {
      InsertSorts(s, sorted[1..]);
    }
  }

  lemma {:induction false} LongestComeFirst(secrets: seq<string>)
    ensures ByLength(LongestFirst(secrets)) && |LongestFirst(secrets)| == |secrets|
  {
    if secrets != [] {
      LongestComeFirst(secrets[1..]);
      InsertSorts(secrets[0], LongestFirst(secrets[1..]));
    }
  }

  function OfLength(secrets: seq<string>, length: nat): seq<string> {
    if secrets == [] then []
    else (if |secrets[0]| == length then [secrets[0]] else []) + OfLength(secrets[1..], length)
  }

  lemma {:induction false} InsertBeforeEquals(s: string, sorted: seq<string>, length: nat)
    ensures OfLength(InsertByLength(s, sorted), length)
         == (if |s| == length then [s] else []) + OfLength(sorted, length)
  {
    if sorted != [] {
      assert ([s] + sorted)[1..] == sorted;
      if |s| < |sorted[0]| {
        InsertBeforeEquals(s, sorted[1..], length);
        assert ([sorted[0]] + InsertByLength(s, sorted[1..]))[1..] == InsertByLength(s, sorted[1..]);
      }
    } else {
      assert OfLength([s][1..], length) == [];
    }
  }

  /** The sort is stable: secrets of one length stay in the order they came in. */
  lemma {:induction false} TiesKeepOrder(secrets: seq<string>, length: nat)
    ensures OfLength(LongestFirst(secrets), length) == OfLength(secrets, length)
  {
    hide InsertByLength;
    if secrets != [] {
      TiesKeepOrder(secrets[1..], length);
      InsertBeforeEquals(secrets[0], LongestFirst(secrets[1..]), length);
    }
  }

  /** They come in by first mention: a further candidate adds its value at the end, if it is new. */
  lemma MentionedFirst(candidates: seq<Option<string>>, candidate: Option<string>)
    ensures var earlier, all := Unique(candidates), Unique(candidates + [candidate]);
      earlier <= all && |all| <= |earlier| + 1 && forall s | s in all
        && s !in earlier :: KeptValue(candidate) == Some(s)
  {
    hide KeptValue;
    assert (candidates + [candidate])[..|candidates|] == candidates;
  }

  /** A value is redacted exactly when some candidate trims to it and it is long enough. */
  lemma KeptSecrets(candidates: seq<Option<string>>, s: string)
    ensures s in LongestFirst(Unique(candidates)) <==>
        exists i | 0 <= i < |candidates| :: candidates[i].Some? && Trim(candidates[i].value) == s && |s| >= 8
  {
    hide Trim;
    UniqueMembers(candidates, s);
    SortMembers(Unique(candidates), s);
    assert forall i | 0 <= i < |candidates| ::
        KeptValue(candidates[i]) == Some(s) <==> candidates[i].Some? && Trim(candidates[i].value) == s && |s| >= 8;
  }

  lemma SecretsAreLong(candidates: seq<Option<string>>)
    ensures NonEmpty(LongestFirst(Unique(candidates)))
  {
    var secrets := LongestFirst(Unique(candidates));
    forall i | 0 <= i < |secrets|
      ensures secrets[i] != ""
    {
      KeptSecrets(candidates, secrets[i]);
    }
  }

  function SecretsOf(candidates: seq<Option<string>>): (secrets: seq<string>)
    ensures NonEmpty(secrets)
  {
    SecretsAreLong(candidates);
    LongestFirst(Unique(candidates))
  }

  function RedactText(text: Option<string>, candidates: seq<Option<string>>): Option<string> {
    if text.None? || text.value == "" then text
    else Some(RedactWith(text.value, SecretsOf(candidates), REDACTION_PLACEHOLDER))
  }

  /** The loop of `redact`; null passes through. */
  method Redact(text: Option<string>, candidates: seq<Option<string>>) returns (result: Option<string>)
    ensures result == RedactText(text, candidates)
  {
    if text.None? || text.value == "" {
      return text;
    }
    var output := text.value;
    var secrets := RedactableSecrets(candidates);
    assert secrets == SecretsOf(candidates);
    hide ReplaceAll;
    for i := 0 to |secrets|
      invariant output == RedactWith(text.value, secrets[..i], REDACTION_PLACEHOLDER)
    {
      assert secrets[..i + 1][..i] == secrets[..i];
      output := ReplaceAll(output, secrets[i], REDACTION_PLACEHOLDER);
    }
    assert secrets[..|secrets|] == secrets;
    return Some(output);
  }

  /** The promise: when every kept secret is one that does not collide, or contains one, none occurs in what `redact`
      returns, for any text; and redacting again changes nothing. */
  lemma CoveredOutputIsClean(text: string, candidates: seq<Option<string>>)
    requires Covered(SecretsOf(candidates), REDACTION_PLACEHOLDER)
    ensures var once := RedactText(Some(text), candidates).value;
      && (forall s | s in SecretsOf(candidates) :: !Occurs(s, once))
      && RedactText(Some(once), candidates) == Some(once)
  {
    var secrets, mask := SecretsOf(candidates), REDACTION_PLACEHOLDER;
    hide Covered, Occurs, ReplaceAll;
    var once := RedactText(Some(text), candidates).value;
    if text == "" {
      EmptyTextHasNoSecret(candidates);
    } else {
      forall s | s in secrets
        ensures !Occurs(s, once)
      {
        var i :| 0 <= i < |secrets| && secrets[i] == s;
        CoveredSecretsAreGone(text, secrets, mask, i);
      }
      RedactionIsIdempotent(text, secrets, mask);
    }
  }

  /** So it is for secrets without stars other than the word REDACTED. */
  lemma RedactedOutputIsClean(text: string, candidates: seq<Option<string>>)
    requires forall s | s in SecretsOf(candidates) :: StarFree(s) && s != "REDACTED"
    ensures var once := RedactText(Some(text), candidates).value;
      && (forall s | s in SecretsOf(candidates) :: !Occurs(s, once))
      && RedactText(Some(once), candidates) == Some(once)
  {
    SecretsAreApart(candidates);
    hide *;
    CoveredOutputIsClean(text, candidates);
  }

  lemma EmptyTextHasNoSecret(candidates: seq<Option<string>>)
    ensures forall s | s in SecretsOf(candidates) :: !Occurs(s, "")
  {
  }

  lemma SecretsAreApart(candidates: seq<Option<string>>)
    requires forall s | s in SecretsOf(candidates) :: StarFree(s) && s != "REDACTED"
    ensures Covered(SecretsOf(candidates), REDACTION_PLACEHOLDER)
    ensures AllApart(SecretsOf(candidates), REDACTION_PLACEHOLDER)
  {
    hide Collides, StarFree, Occurs;
    var secrets := SecretsOf(candidates);
    forall i | 0 <= i < |secrets|
      ensures secrets[i] != "" && !Collides(secrets[i], REDACTION_PLACEHOLDER)
    {
      assert secrets[i] in secrets;
      KeptSecrets(candidates, secrets[i]);
      StarFreeSecretsAreApart(secrets[i]);
    }
    ApartIsCovered(secrets, REDACTION_PLACEHOLDER);
  }

  lemma SecretsAreSorted(candidates: seq<Option<string>>)
    ensures ByLength(SecretsOf(candidates)) && REDACTION_PLACEHOLDER != ""
  {
    LongestComeFirst(Unique(candidates));
  }

  /** What `redact` returns is the text with some occurrences of kept secrets masked and all the rest unchanged, an
      occurrence being left unmasked only where one at least as long that overlaps it is masked. */
  lemma RedactedTextIsCut(text: string, candidates: seq<Option<string>>) returns (c: Cutting)
    requires forall s | s in SecretsOf(candidates) :: StarFree(s) && s != "REDACTED"
    ensures Plain(c) == text && RedactText(Some(text), candidates) == Some(Masked(c, REDACTION_PLACEHOLDER))
    ensures OnlyHides(c, SecretsOf(candidates)) && forall s | s in SecretsOf(candidates) :: Yields(c, s)
  {
    hide *;
    SecretsAreApart(candidates);
    SecretsAreSorted(candidates);
    c := RedactionCuts(text, SecretsOf(candidates), REDACTION_PLACEHOLDER);
    RedactTextIs(text, candidates);
  }

  lemma RedactTextIs(text: string, candidates: seq<Option<string>>)
    ensures RedactText(Some(text), candidates) == Some(RedactWith(text, SecretsOf(candidates), REDACTION_PLACEHOLDER))
  {
    if text == "" {
      EmptyTextHasNoSecret(candidates);
      hide SecretsOf;
      CleanTextIsKept(text, SecretsOf(candidates), REDACTION_PLACEHOLDER);
    }
  }

  /** A kept secret that no other kept one as long overlaps is masked from end to end; what comes before it and after
      it is cut in the same way. */
  lemma KeptSecretIsMaskedWhole(front: string, secret: string, back: string, candidates: seq<Option<string>>)
    returns (left: Cutting, right: Cutting)
    requires forall s | s in SecretsOf(candidates) :: StarFree(s) && s != "REDACTED"
    requires secret in SecretsOf(candidates) && Prevails(secret, SecretsOf(candidates), front + secret + back, |front|)
    ensures Plain(left) == front && Plain(right) == back
    ensures OnlyHides(left, SecretsOf(candidates)) && OnlyHides(right, SecretsOf(candidates))
    ensures RedactText(Some(front + secret + back), candidates)
         == Some(Masked(left, REDACTION_PLACEHOLDER) + REDACTION_PLACEHOLDER + Masked(right, REDACTION_PLACEHOLDER))
  {
    hide *;
    SecretsAreApart(candidates);
    SecretsAreSorted(candidates);
    left, right := SecretIsMaskedWhole(front, secret, back, SecretsOf(candidates), REDACTION_PLACEHOLDER);
    RedactTextIs(front + secret + back, candidates);
  }

  /** A kept secret alone becomes the placeholder, nothing more and nothing less, whatever shorter ones are part of
      it. */
  lemma KeptSecretBecomesPlaceholder(secret: string, candidates: seq<Option<string>>)
    requires forall s | s in SecretsOf(candidates) :: StarFree(s) && s != "REDACTED"
    requires secret in SecretsOf(candidates)
    ensures RedactText(Some(secret), candidates) == Some(REDACTION_PLACEHOLDER)
  {
    hide *;
    SecretsAreApart(candidates);
    SecretsAreSorted(candidates);
    SecretBecomesMask(secret, SecretsOf(candidates), REDACTION_PLACEHOLDER);
    RedactTextIs(secret, candidates);
  }

  /** Wherever something is replaced, the mask appears. */
  lemma {:induction false} ReplacementLeavesMask(text: string, secret: string, mask: string)
    requires secret != "" && Occurs(secret, text)
    ensures Occurs(mask, ReplaceAll(text, secret, mask))
    decreases |text|
  {
    var i :| 0 <= i <= |text| - |secret| && OccursAt(secret, text, i);
    hide Occurs;
    var output := ReplaceAll(text, secret, mask);
    if secret <= text {
      assert output[0..|mask|] == mask;
      FoundAt(mask, output, 0);
    } else {
      assert i > 0 by {
        assert text[0..|secret|] == text[..|secret|];
      }
      assert text[1..][i - 1..i - 1 + |secret|] == text[i..i + |secret|];
      FoundAt(secret, text[1..], i - 1);
      ReplacementLeavesMask(text[1..], secret, mask);
      assert output[1..] == ReplaceAll(text[1..], secret, mask);
      OccursInSuffix(mask, output, 1);
    }
  }

  /** A word that is part of the mask can never be redacted away. */
  lemma {:induction false} MaskWordsSurvive(text: string, secrets: seq<string>, mask: string, word: string)
    requires NonEmpty(secrets) && Occurs(word, mask) && Occurs(word, text)
    ensures Occurs(word, RedactWith(text, secrets, mask))
  {
    hide Occurs, ReplaceAll;
    if secrets != [] {
      var before, last := RedactWith(text, secrets[..|secrets| - 1], mask), secrets[|secrets| - 1];
      MaskWordsSurvive(text, secrets[..|secrets| - 1], mask, word);
      if Occurs(last, before) {
        ReplacementLeavesMask(before, last, mask);
        OccursWithin(word, mask, ReplaceAll(before, last, mask));
      } else {
        NothingToReplace(before, last, mask);
      }
    }
  }

  /** Exactly when star-free secrets are all redacted from every text: when the word REDACTED is not among them. */
  lemma CleanIffWordNotKept(candidates: seq<Option<string>>)
    requires forall s | s in SecretsOf(candidates) :: StarFree(s)
    ensures "REDACTED" !in SecretsOf(candidates)
       <==> forall text, s | s in SecretsOf(candidates) :: !Occurs(s, RedactText(Some(text), candidates).value)
  {
    hide Occurs, RedactWith, StarFree;
    if "REDACTED" in SecretsOf(candidates) {
      WordIsInMask();
      MaskWordsSurvive("REDACTED", SecretsOf(candidates), REDACTION_PLACEHOLDER, "REDACTED");
      assert Occurs("REDACTED", RedactText(Some("REDACTED"), candidates).value);
    } else {
      forall text, s | s in SecretsOf(candidates)
        ensures !Occurs(s, RedactText(Some(text), candidates).value)
      {
        RedactedOutputIsClean(text, candidates);
      }
    }
  }

  lemma WordIsInMask()
    ensures Occurs("REDACTED", REDACTION_PLACEHOLDER) && Occurs("REDACTED", "REDACTED")
  {
    assert REDACTION_PLACEHOLDER[3..11] == "REDACTED";
    FoundAt("REDACTED", REDACTION_PLACEHOLDER, 3);
    assert "REDACTED"[0..8] == "REDACTED";
    FoundAt("REDACTED", "REDACTED", 0);
  }
}

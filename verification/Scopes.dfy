/** The capability scope grammar, `<actions>:res://<ownerId>/<glob>`, and the server's matcher. */
module Scopes {
  import opened Wrappers
  import opened Text
  import opened ResourceUris

  const MAX_SCOPE_LENGTH := 512

  datatype Action = Read | Write

  datatype ParsedScope = ParsedScope(actions: seq<Action>, ownerId: string, glob: string)

  function ActionName(a: Action): string {
    match a
    case Read => "read"
    case Write => "write"
  }

  function KnownAction(s: string): Option<Action> {
    if s == "read" then Some(Read) else if s == "write" then Some(Write) else None
  }

  /** Every token, trimmed, names an action; repeated actions are kept once, in order of first mention. */
  function ActionsOf(tokens: seq<string>): Option<seq<Action>> {
    if tokens == [] then Some([])
    else
      var earlier, action := ActionsOf(tokens[..|tokens| - 1]), KnownAction(Trim(tokens[|tokens| - 1]));
      if earlier.None? || action.None? then None
      else if action.value in earlier.value then earlier
      else Some(earlier.value + [action.value])
  }

  lemma {:induction false} UnknownTokenSpoils(tokens: seq<string>, i: nat)
    requires i < |tokens| && KnownAction(Trim(tokens[i])).None?
    ensures ActionsOf(tokens).None?
  {
    if i < |tokens| - 1 {
      UnknownTokenSpoils(tokens[..|tokens| - 1], i);
    }
  }

  /** The loop over the comma-separated tokens. */
  method ParseActions(input: string) returns (result: Option<seq<Action>>)
    ensures result == ActionsOf(Split(input, ','))
  {
    var tokens := Split(input, ',');
    var actions: seq<Action> := [];
    for i := 0 to |tokens|
      invariant ActionsOf(tokens[..i]) == Some(actions)
    {
      var action := KnownAction(Trim(tokens[i]));
      assert tokens[..i + 1][..i] == tokens[..i];
      if action.None? {
        UnknownTokenSpoils(tokens, i);
        return None;
      }
      if action.value !in actions {
        actions := actions + [action.value];
      }
    }
    assert tokens[..|tokens|] == tokens;
    return Some(actions);
  }

  predicate IsGlobSegment(s: string) {
    && 1 <= |s| <= 64
    && (IsAlphanumeric(s[0]) || s[0] == '*')
    && forall i | 0 <= i < |s| :: IsAlphanumeric(s[i]) || s[i] in "._*-"
  }

  predicate ValidGlob(glob: string) {
    && glob != "" && !HasForbiddenCharacter(glob) && glob[0] != '/' && glob[|glob| - 1] != '/'
    && forall segment | segment in Split(glob, '/') :: IsGlobSegment(segment) && segment != "." && segment != ".."
  }

  function ParsePattern(actions: seq<Action>, pattern: string): Option<ParsedScope> {
    if !(RESOURCE_SCHEME <= pattern) then None
    else
      var rest := pattern[|RESOURCE_SCHEME|..];
      var slash := IndexOf(rest, '/');
      if slash <= 0 then None
      else
        var ownerId, glob := rest[..slash], rest[slash + 1..];
        if !IsOwner(ownerId) || !ValidGlob(glob) then None else Some(ParsedScope(actions, ownerId, glob))
  }

  function ParseScope(input: string): Option<ParsedScope> {
    if input == "" || |input| > MAX_SCOPE_LENGTH then None
    else
      var separator := IndexOf(input, ':');
      if separator <= 0 then None
      else
        var actions := ActionsOf(Split(input[..separator], ','));
        if actions.None? then None else ParsePattern(actions.value, input[separator + 1..])
  }

  // ----- Matching

  /** A regular expression's dot: anything but a line terminator. */
  predicate Dot(c: char) {
    c != '\n' && c != '\r' && c as int != 0x2028 && c as int != 0x2029
  }

  predicate AllDots(s: string) {
    forall i | 0 <= i < |s| :: Dot(s[i])
  }

  /** `^p0.*p1.* ... pn$`: the text is the parts in order with runs of dots between them. */
  predicate MatchesParts(parts: seq<string>, text: string)
    requires parts != []
    decreases |parts|
  {
    if |parts| == 1 then text == parts[0]
    else
      && parts[0] <= text
      && exists k | |parts[0]| <= k <= |text| :: AllDots(text[|parts[0]|..k]) && MatchesParts(parts[1..], text[k..])
  }

  predicate RegExpTest(pattern: string, text: string) {
    MatchesParts(Split(pattern, '*'), text)
  }

  /** The documented meaning of a pattern: `*` stands for any run of characters, everything else for itself. */
  predicate Glob(pattern: string, text: string)
    decreases |pattern|, |text|
  {
    if pattern == "" then text == ""
    else if pattern[0] == '*' then Glob(pattern[1..], text) || (text != "" && Dot(text[0]) && Glob(pattern, text[1..]))
    else text != "" && text[0] == pattern[0] && Glob(pattern[1..], text[1..])
  }

  predicate ScopeAllows(scope: string, action: string, resource: string) {
    var parsed, known, target := ParseScope(scope), KnownAction(action), ParseResourceUri(resource);
    && parsed.Some? && known.Some? && known.value in parsed.value.actions
    && target.Some? && target.value.ownerId == parsed.value.ownerId
    && RegExpTest(parsed.value.glob, target.value.name)
  }

  predicate ScopeAllowsAction(scope: string, action: string) {
    var parsed, known := ParseScope(scope), KnownAction(action);
    parsed.Some? && known.Some? && known.value in parsed.value.actions
  }

  function DefaultRunScope(ownerId: string): string {
    "read:" + RESOURCE_SCHEME + ownerId + "/*"
  }

  function ExpectedScopeForOwner(ownerId: string): string {
    "owner:" + ownerId
  }

  /** The owner a scope is bound to, in either grammar. */
  function CapabilityOwner(scope: string): Option<string> {
    var parsed := ParseScope(scope);
    if parsed.Some? then Some(parsed.value.ownerId)
    else if "owner:" <= scope && IsOwner(scope[|"owner:"|..]) then Some(scope[|"owner:"|..])
    else None
  }

  // ----- The regular expression means what the documentation says

  lemma LiteralHead(c: char, pattern: string)
    requires c != '*'
    ensures var parts := Split(pattern, '*'); Split([c] + pattern, '*') == [[c] + parts[0]] + parts[1..]
  {
    hide Split, IndexOf;
    var s, i := [c] + pattern, IndexOf(pattern, '*');
    SplitAtFirst(pattern, '*');
    SplitAtFirst(s, '*');
    if i >= 0 {
      assert s == ([c] + pattern[..i]) + "*" + pattern[i + 1..];
      FirstSeparator([c] + pattern[..i], '*', pattern[i + 1..]);
      assert s[..i + 1] == [c] + pattern[..i] && s[i + 2..] == pattern[i + 1..];
    } else {
      assert '*' !in s;
    }
  }

  lemma StarHead(pattern: string)
    ensures Split("*" + pattern, '*') == [""] + Split(pattern, '*')
  {
    SplitPrefixed("", '*', pattern);
    assert "" + ['*'] + pattern == "*" + pattern;
  }

  lemma MatchesLiteralHead(c: char, parts: seq<string>, text: string)
    requires parts != []
    ensures MatchesParts([[c] + parts[0]] + parts[1..], text)
       <==> text != "" && text[0] == c && MatchesParts(parts, text[1..])
  {
    var longer := [[c] + parts[0]] + parts[1..];
    assert longer[1..] == parts[1..];
    if |parts| > 1 && text != "" && text[0] == c {
      assert [c] + parts[0] <= text <==> parts[0] <= text[1..];
      forall k | 1 + |parts[0]| <= k <= |text|
        ensures text[1 + |parts[0]|..k] == text[1..][|parts[0]|..k - 1] && text[k..] == text[1..][k - 1..]
      {
      }
      if MatchesParts(parts, text[1..]) {
        var k :| |parts[0]| <= k <= |text[1..]| && AllDots(text[1..][|parts[0]|..k])
          && MatchesParts(parts[1..], text[1..][k..]);
        assert AllDots(text[1 + |parts[0]|..k + 1]) && MatchesParts(parts[1..], text[k + 1..]);
      }
    } else if text != "" && text[0] != c {
      assert !([c] + parts[0] <= text);
    }
  }

  lemma MatchesStarHead(parts: seq<string>, text: string)
    requires parts != []
    ensures MatchesParts([""] + parts, text)
       <==> MatchesParts(parts, text) || (text != "" && Dot(text[0]) && MatchesParts([""] + parts, text[1..]))
  {
    var star := [""] + parts;
    assert star[1..] == parts;
    if MatchesParts(star, text) {
      var k :| 0 <= k <= |text| && AllDots(text[0..k]) && MatchesParts(parts, text[k..]);
      if k == 0 {
        assert text[k..] == text;
      } else {
        assert text[1..][0..k - 1] == text[1..k] && text[1..][k - 1..] == text[k..];
        assert text[0..k][0] == text[0];
        assert AllDots(text[1..][0..k - 1]);
      }
    }
    if MatchesParts(parts, text) {
      assert text[0..] == text && AllDots(text[0..0]);
    }
    if text != "" && Dot(text[0]) && MatchesParts(star, text[1..]) {
      var k :| 0 <= k <= |text[1..]| && AllDots(text[1..][0..k]) && MatchesParts(parts, text[1..][k..]);
      assert text[0..k + 1] == [text[0]] + text[1..][0..k] && text[k + 1..] == text[1..][k..];
      assert AllDots(text[0..k + 1]);
    }
  }

  /** The escaped regular expression and the documented glob accept the same texts. */
  lemma {:induction false} RegExpIsGlob(pattern: string, text: string)
    ensures RegExpTest(pattern, text) <==> Glob(pattern, text)
    decreases |pattern|, |text|
  {
    hide Split, MatchesParts;
    if pattern == "" {
      SplitAtFirst("", '*');
      OnePart("", text);
    } else {
      var rest := pattern[1..];
      assert pattern == [pattern[0]] + rest;
      RegExpIsGlob(rest, if pattern[0] != '*' && text != "" then text[1..] else text);
      if pattern[0] == '*' {
        StarHead(rest);
        MatchesStarHead(Split(rest, '*'), text);
        if text != "" {
          RegExpIsGlob(pattern, text[1..]);
        }
      } else {
        LiteralHead(pattern[0], rest);
        MatchesLiteralHead(pattern[0], Split(rest, '*'), text);
      }
    }
  }

  lemma OnePart(part: string, text: string)
    ensures MatchesParts([part], text) <==> text == part
  {
  }

  lemma {:induction false} GlobWithLiteralPrefix(prefix: string, pattern: string, text: string)
    requires '*' !in prefix
    ensures Glob(prefix + pattern, text) <==> prefix <= text && Glob(pattern, text[|prefix|..])
  {
    if prefix == "" {
      assert prefix + pattern == pattern && text[0..] == text;
    } else {
      assert (prefix + pattern)[1..] == prefix[1..] + pattern;
      if text != "" {
        GlobWithLiteralPrefix(prefix[1..], pattern, text[1..]);
        assert prefix == [prefix[0]] + prefix[1..];
        assert prefix <= text <==> prefix[0] == text[0] && prefix[1..] <= text[1..];
        if prefix <= text {
          assert text[1..][|prefix| - 1..] == text[|prefix|..];
        }
      }
    }
  }
}

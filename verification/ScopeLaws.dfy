/** Laws of the scope grammar: canonical form, ownership, and agreement with the browser's matcher. */
module ScopeLaws {
  import opened Wrappers
  import opened Text
  import opened Rooms
  import opened ResourceUris
  import opened Scopes

  // ----- The shape of accepted scopes

  function PatternOf(ownerId: string, glob: string): string {
    RESOURCE_SCHEME + ownerId + "/" + glob
  }

  lemma PatternParts(actions: seq<Action>, pattern: string)
    ensures var p := ParsePattern(actions, pattern);
      p.Some? ==> && p.value.actions == actions && IsOwner(p.value.ownerId) && ValidGlob(p.value.glob)
                  && pattern == PatternOf(p.value.ownerId, p.value.glob)
  {
    hide ValidGlob, IsOwner, IndexOf;
    if RESOURCE_SCHEME <= pattern {
      var rest := pattern[|RESOURCE_SCHEME|..];
      var slash := IndexOf(rest, '/');
      assert pattern == RESOURCE_SCHEME + rest;
      if slash > 0 {
        FoundAt(rest, '/');
        CutAt(rest, slash, '/');
        assert pattern == RESOURCE_SCHEME + rest[..slash] + "/" + rest[slash + 1..];
      }
    }
  }

  lemma FoundAt(s: string, c: char)
    requires IndexOf(s, c) >= 0
    ensures s[IndexOf(s, c)] == c && c !in s[..IndexOf(s, c)]
  {
  }

  lemma PatternReparses(actions: seq<Action>, ownerId: string, glob: string)
    requires IsOwner(ownerId) && ValidGlob(glob)
    ensures ParsePattern(actions, PatternOf(ownerId, glob)) == Some(ParsedScope(actions, ownerId, glob))
  {
    OwnerCharacters(ownerId);
    PrintedParts(ownerId, glob);
    assert PatternOf(ownerId, glob) == PrintUri(ownerId, glob);
    hide ValidGlob, IndexOf;
  }

  lemma ScopeParts(scope: string)
    requires ParseScope(scope).Some?
    ensures var p, separator := ParseScope(scope).value, IndexOf(scope, ':');
      && separator > 0 && ':' !in scope[..separator]
      && ActionsOf(Split(scope[..separator], ',')) == Some(p.actions)
      && scope[separator + 1..] == PatternOf(p.ownerId, p.glob)
      && scope == scope[..separator] + ":" + PatternOf(p.ownerId, p.glob)
      && IsOwner(p.ownerId) && ValidGlob(p.glob) && |scope| <= MAX_SCOPE_LENGTH
  {
    var separator := IndexOf(scope, ':');
    FoundAt(scope, ':');
    CutAt(scope, separator, ':');
    PatternParts(ActionsOf(Split(scope[..separator], ',')).value, scope[separator + 1..]);
    hide ParsePattern, ActionsOf, ValidGlob, IsOwner, IndexOf, Split;
  }

  /** A scope assembled from an action list and a pattern parses to its parts. */
  lemma ScopeReparses(head: string, actions: seq<Action>, ownerId: string, glob: string)
    requires head != "" && ':' !in head && ActionsOf(Split(head, ',')) == Some(actions)
    requires IsOwner(ownerId) && ValidGlob(glob) && |head + ":" + PatternOf(ownerId, glob)| <= MAX_SCOPE_LENGTH
    ensures ParseScope(head + ":" + PatternOf(ownerId, glob)) == Some(ParsedScope(actions, ownerId, glob))
    ensures IndexOf(head + ":" + PatternOf(ownerId, glob), ':') == |head|
    ensures (head + ":" + PatternOf(ownerId, glob))[..|head|] == head
  {
    var pattern := PatternOf(ownerId, glob);
    var scope := head + ":" + pattern;
    FirstSeparator(head, ':', pattern);
    assert scope[..|head|] == head && scope[|head| + 1..] == pattern;
    PatternReparses(actions, ownerId, glob);
    hide PatternOf, Split, ActionsOf, ParsePattern, IndexOf;
  }

  // ----- Canonical form

  function Names(actions: seq<Action>): (names: seq<string>)
    ensures |names| == |actions|
  {
    seq(|actions|, i requires 0 <= i < |actions| => ActionName(actions[i]))
  }

  predicate Distinct(actions: seq<Action>) {
    forall i, j | 0 <= i < j < |actions| :: actions[i] != actions[j]
  }

  function PrintScope(p: ParsedScope): string
    requires p.actions != []
  {
    Join(Names(p.actions), ',') + ":" + PatternOf(p.ownerId, p.glob)
  }

  lemma {:induction false} ActionsAreDistinct(tokens: seq<string>)
    requires ActionsOf(tokens).Some?
    ensures Distinct(ActionsOf(tokens).value)
    ensures tokens != [] ==> ActionsOf(tokens).value != []
  {
    if tokens != [] {
      ActionsAreDistinct(tokens[..|tokens| - 1]);
    }
  }

  lemma {:induction false} NamesReparse(actions: seq<Action>)
    requires Distinct(actions)
    ensures ActionsOf(Names(actions)) == Some(actions)
  {
    if actions != [] {
      var init, last := actions[..|actions| - 1], actions[|actions| - 1];
      NamesReparse(init);
      assert Names(actions)[..|actions| - 1] == Names(init);
      assert actions == init + [last];
      NameIsKnown(last);
      assert last !in init;
    }
  }

  lemma NameIsKnown(a: Action)
    ensures KnownAction(Trim(ActionName(a))) == Some(a)
    ensures ',' !in ActionName(a) && ':' !in ActionName(a)
  {
    TrimmedIsKept(ActionName(a));
  }

  lemma {:induction false} JoinedNamesCharacters(actions: seq<Action>)
    requires actions != []
    ensures ':' !in Join(Names(actions), ',')
  {
    NameIsKnown(actions[0]);
    if |actions| > 1 {
      JoinedNamesCharacters(actions[1..]);
      assert Names(actions)[1..] == Names(actions[1..]);
    }
  }

  /** Trimming and dropping repeats only ever shortens the action list. */
  lemma {:induction false} NamesAreShorter(tokens: seq<string>)
    requires tokens != [] && ActionsOf(tokens).Some?
    ensures ActionsOf(tokens).value != []
    ensures |Join(Names(ActionsOf(tokens).value), ',')| <= |Join(tokens, ',')|
  {
    hide Join;
    var init, last := tokens[..|tokens| - 1], tokens[|tokens| - 1];
    assert tokens == init + [last];
    var actions := ActionsOf(tokens).value;
    var action := KnownAction(Trim(last)).value;
    assert |ActionName(action)| <= |last|;
    if init == [] {
      assert tokens == [last] && actions == [action];
      assert Names(actions) == [ActionName(action)];
      SingleJoin(ActionName(action), ',');
      SingleJoin(last, ',');
    } else {
      NamesAreShorter(init);
      JoinSnoc(init, last, ',');
      var earlier := ActionsOf(init).value;
      if action !in earlier {
        assert Names(actions) == Names(earlier) + [ActionName(action)];
        JoinSnoc(Names(earlier), ActionName(action), ',');
      }
    }
  }

  lemma {:induction false} NamesAreNotEmpty(actions: seq<Action>)
    requires actions != []
    ensures Join(Names(actions), ',') != ""
  {
    assert Names(actions)[0] == ActionName(actions[0]) != "";
  }

  /** The canonical print of an accepted scope is no longer than the scope and parses to the same value. */
  lemma CanonicalScope(scope: string)
    requires ParseScope(scope).Some?
    ensures var p := ParseScope(scope).value;
      p.actions != [] && |PrintScope(p)| <= |scope| && ParseScope(PrintScope(p)) == Some(p)
  {
    hide *;
    var p, separator := ParseScope(scope).value, IndexOf(scope, ':');
    ScopeParts(scope);
    var tokens := Split(scope[..separator], ',');
    SplitIsNotEmpty(scope[..separator], ',');
    JoinOfSplit(scope[..separator], ',');
    NamesAreShorter(tokens);
    ActionsAreDistinct(tokens);
    PrintIsShorter(p, scope, separator);
    CanonicalReparses(p, scope);
  }

  lemma SplitIsNotEmpty(s: string, c: char)
    ensures Split(s, c) != []
  {
  }

  lemma PrintIsShorter(p: ParsedScope, scope: string, separator: nat)
    requires p.actions != [] && separator <= |scope|
    requires scope == scope[..separator] + ":" + PatternOf(p.ownerId, p.glob)
    requires |Join(Names(p.actions), ',')| <= separator
    ensures |PrintScope(p)| <= |scope|
  {
    hide PatternOf, Join, Names;
  }

  lemma CanonicalReparses(p: ParsedScope, scope: string)
    requires p.actions != [] && Distinct(p.actions) && IsOwner(p.ownerId) && ValidGlob(p.glob)
    requires |PrintScope(p)| <= |scope| <= MAX_SCOPE_LENGTH
    ensures ParseScope(PrintScope(p)) == Some(p)
  {
    hide *;
    var names := Names(p.actions);
    NamesHaveNoComma(p.actions);
    SplitOfJoin(names, ',');
    NamesReparse(p.actions);
    NamesAreNotEmpty(p.actions);
    JoinedNamesCharacters(p.actions);
    PrintUnfolds(p);
    ScopeReparses(Join(names, ','), p.actions, p.ownerId, p.glob);
  }

  lemma PrintUnfolds(p: ParsedScope)
    requires p.actions != []
    ensures Names(p.actions) != [] && PrintScope(p) == Join(Names(p.actions), ',') + ":" + PatternOf(p.ownerId, p.glob)
  {
  }

  lemma NamesHaveNoComma(actions: seq<Action>)
    ensures forall n | n in Names(actions) :: ',' !in n
  {
    forall n | n in Names(actions)
      ensures ',' !in n
    {
      var i :| 0 <= i < |actions| && Names(actions)[i] == n;
      NameIsKnown(actions[i]);
    }
  }

  // ----- What a scope grants

  /** The scope spelled out: action words set apart by commas, white space around them, then the pattern of one
      owner. */
  ghost predicate Spells(scope: string, words: seq<string>, ownerId: string, glob: string) {
    && words != [] && (forall w | w in words :: ',' !in w && ':' !in w && (Trim(w) == "read" || Trim(w) == "write"))
    && IsOwner(ownerId) && ValidGlob(glob)
    && scope == Join(words, ',') + ":" + PatternOf(ownerId, glob) && |scope| <= 512
  }

  predicate Mentions(words: seq<string>, action: string) {
    exists i | 0 <= i < |words| :: Trim(words[i]) == action
  }

  /** One of its words is the action. */
  ghost predicate GrantsAction(scope: string, action: string) {
    exists words, ownerId, glob :: Spells(scope, words, ownerId, glob) && Mentions(words, action)
  }

  ghost predicate GrantsWith(scope: string, action: string, uri: string, words: seq<string>, ownerId: string,
                             glob: string, name: string) {
    && Spells(scope, words, ownerId, glob) && Mentions(words, action)
    && IsName(name) && uri == PrintUri(ownerId, name) && |uri| <= 512 && Glob(glob, name)
  }

  /** One of its words is the action, and the URI is that of the same owner and of a name the glob describes. */
  ghost predicate Grants(scope: string, action: string, uri: string) {
    exists words, ownerId, glob, name :: GrantsWith(scope, action, uri, words, ownerId, glob, name)
  }

  /** The actions parsed from a list of words are those its words name; a word that names none spoils the list. */
  lemma {:induction false} ActionsAreMentioned(words: seq<string>)
    ensures ActionsOf(words).Some? <==> forall w | w in words :: Trim(w) == "read" || Trim(w) == "write"
    ensures ActionsOf(words).Some? ==> forall a :: a in ActionsOf(words).value <==> Mentions(words, ActionName(a))
  {
    hide Trim;
    if words != [] {
      var init, last := words[..|words| - 1], words[|words| - 1];
      assert words == init + [last];
      ActionsAreMentioned(init);
      forall a: Action
        ensures Mentions(words, ActionName(a)) <==> Mentions(init, ActionName(a)) || Trim(last) == ActionName(a)
      {
        MentionsOneMore(init, last, ActionName(a));
      }
    }
  }

  lemma MentionsOneMore(words: seq<string>, last: string, action: string)
    ensures Mentions(words + [last], action) <==> Mentions(words, action) || Trim(last) == action
  {
    hide Trim;
    var all := words + [last];
    assert all[|words|] == last;
    if Mentions(words, action) {
      var i :| 0 <= i < |words| && Trim(words[i]) == action;
      assert all[i] == words[i];
    }
  }

  /** What is spelled out parses to its parts. */
  lemma SpelledParses(scope: string, words: seq<string>, ownerId: string, glob: string)
    requires Spells(scope, words, ownerId, glob)
    ensures ActionsOf(words).Some? && ParseScope(scope) == Some(ParsedScope(ActionsOf(words).value, ownerId, glob))
  {
    hide IsOwner, ValidGlob, ParseScope, PatternOf, Trim, Join, ActionsOf, Split;
    ActionsAreMentioned(words);
    SplitOfJoin(words, ',');
    JoinedWords(words);
    ScopeReparses(Join(words, ','), ActionsOf(words).value, ownerId, glob);
  }

  lemma {:induction false} JoinedWords(words: seq<string>)
    requires words != [] && forall w | w in words :: ':' !in w && w != ""
    ensures ':' !in Join(words, ',') && Join(words, ',') != ""
  {
    assert words[0] in words;
    if |words| > 1 {
      assert forall w | w in words[1..] :: w in words;
      JoinedWords(words[1..]);
    }
  }

  /** What parses is spelled out by its own words. */
  lemma ParsedIsSpelled(scope: string) returns (words: seq<string>)
    requires ParseScope(scope).Some?
    ensures var p := ParseScope(scope).value;
      Spells(scope, words, p.ownerId, p.glob) && ActionsOf(words) == Some(p.actions)
  {
    hide IsOwner, ValidGlob, ParseScope, PatternOf, Trim, Join, ActionsOf, Split, IndexOf;
    var separator := IndexOf(scope, ':');
    ScopeParts(scope);
    words := Split(scope[..separator], ',');
    SplitIsNotEmpty(scope[..separator], ',');
    JoinOfSplit(scope[..separator], ',');
    ActionsAreMentioned(words);
    PartsHaveNone(scope[..separator], ',', ':');
  }

  lemma KnownIsNamed(action: string)
    ensures KnownAction(action).Some? <==> action == "read" || action == "write"
    ensures KnownAction(action).Some? ==> ActionName(KnownAction(action).value) == action
  {
  }

  lemma MentionedIsKnown(words: seq<string>, action: string)
    requires ActionsOf(words).Some?
    ensures Mentions(words, action)
       <==> KnownAction(action).Some? && KnownAction(action).value in ActionsOf(words).value
  {
    hide ActionsOf, Trim;
    ActionsAreMentioned(words);
    KnownIsNamed(action);
    if Mentions(words, action) {
      var i :| 0 <= i < |words| && Trim(words[i]) == action;
      assert words[i] in words;
    }
  }

  /** The scope's action test, for every string as scope and as action. */
  lemma AllowsActionIffGranted(scope: string, action: string)
    ensures ScopeAllowsAction(scope, action) <==> GrantsAction(scope, action)
  {
    hide ParseScope, Spells, Mentions, ActionsOf, KnownAction;
    if ParseScope(scope).Some? {
      var p := ParseScope(scope).value;
      var words := ParsedIsSpelled(scope);
      MentionedIsKnown(words, action);
    }
    if GrantsAction(scope, action) {
      var words, ownerId, glob :| Spells(scope, words, ownerId, glob) && Mentions(words, action);
      SpelledParses(scope, words, ownerId, glob);
      MentionedIsKnown(words, action);
    }
  }

  /** The scope's whole test, for every string as scope, as action and as resource. */
  lemma AllowsIffGranted(scope: string, action: string, uri: string)
    ensures ScopeAllows(scope, action, uri) <==> Grants(scope, action, uri)
  {
    hide ParseScope, Spells, Mentions, ActionsOf, KnownAction, ParseResourceUri, RegExpTest, Glob, IsName, PrintUri;
    if ScopeAllows(scope, action, uri) {
      var p, target := ParseScope(scope).value, ParseResourceUri(uri).value;
      var words := ParsedIsSpelled(scope);
      MentionedIsKnown(words, action);
      AcceptedIsCanonical(uri);
      RegExpIsGlob(p.glob, target.name);
      assert GrantsWith(scope, action, uri, words, p.ownerId, p.glob, target.name);
    }
    if Grants(scope, action, uri) {
      var words, ownerId, glob, name :| GrantsWith(scope, action, uri, words, ownerId, glob, name);
      SpelledParses(scope, words, ownerId, glob);
      MentionedIsKnown(words, action);
      SpelledOwner(scope, words, ownerId, glob);
      ParseInvertsPrint(ownerId, name);
      RegExpIsGlob(glob, name);
    }
  }

  lemma SpelledOwner(scope: string, words: seq<string>, ownerId: string, glob: string)
    requires Spells(scope, words, ownerId, glob)
    ensures IsOwner(ownerId)
  {
  }

  /** An assembled scope allows exactly its actions, on exactly its owner's resources that its glob describes. */
  lemma AssembledScopeAllows(head: string, actions: seq<Action>, ownerId: string, glob: string, x: Action,
                             other: string, name: string)
    requires head != "" && ':' !in head && ActionsOf(Split(head, ',')) == Some(actions)
    requires IsOwner(ownerId) && ValidGlob(glob) && |head + ":" + PatternOf(ownerId, glob)| <= MAX_SCOPE_LENGTH
    requires IsOwner(other) && IsName(name) && |PrintUri(other, name)| <= MAX_URI_LENGTH
    ensures var scope := head + ":" + PatternOf(ownerId, glob);
      && (ScopeAllowsAction(scope, ActionName(x)) <==> x in actions)
      && (ScopeAllows(scope, ActionName(x), PrintUri(other, name)) <==>
            x in actions && other == ownerId && Glob(glob, name))
  {
    hide ParseScope, ParseResourceUri, RegExpTest, Glob, IsName, IsOwner, ValidGlob, PrintUri, PatternOf, ActionsOf,
         Split;
    ScopeReparses(head, actions, ownerId, glob);
    ParseInvertsPrint(other, name);
    RegExpIsGlob(glob, name);
  }

  /** The owner of a capability's scope: the one it is spelled with, in either grammar. */
  lemma OwnerIsSpelled(scope: string, ownerId: string)
    ensures CapabilityOwner(scope) == Some(ownerId) <==>
      || (exists words, glob :: Spells(scope, words, ownerId, glob))
      || (IsOwner(ownerId) && scope == ExpectedScopeForOwner(ownerId))
  {
    hide ParseScope, Spells, IsOwner, ActionsOf;
    if ParseScope(scope).Some? {
      var words := ParsedIsSpelled(scope);
    }
    if exists words, glob :: Spells(scope, words, ownerId, glob) {
      var words, glob :| Spells(scope, words, ownerId, glob);
      SpelledParses(scope, words, ownerId, glob);
    }
    GrammarsAreDisjoint(ownerId);
    assert ExpectedScopeForOwner(ownerId)[|"owner:"|..] == ownerId;
    if "owner:" <= scope && scope[|"owner:"|..] == ownerId {
      assert scope == ExpectedScopeForOwner(ownerId);
    }
  }

  // ----- Ownership

  lemma OwnerKeywordIsNoAction()
    ensures ActionsOf(["owner"]).None?
  {
    TrimmedIsKept("owner");
    assert KnownAction(Trim(["owner"][0])).None?;
    UnknownTokenSpoils(["owner"], 0);
  }

  /** The two scope grammars are disjoint. */
  lemma GrammarsAreDisjoint(ownerId: string)
    ensures ParseScope(ExpectedScopeForOwner(ownerId)).None?
  {
    var scope := ExpectedScopeForOwner(ownerId);
    OwnerScopeParts(scope, ownerId);
    OwnerKeywordIsNoAction();
    hide IndexOf, Split, ActionsOf, ParsePattern;
  }

  lemma OwnerScopeParts(scope: string, ownerId: string)
    requires scope == "owner:" + ownerId
    ensures IndexOf(scope, ':') == 5 && Split(scope[..5], ',') == ["owner"]
  {
    hide IndexOf, Split;
    assert scope == "owner" + ":" + ownerId;
    FirstSeparator("owner", ':', ownerId);
    assert scope[..5] == "owner";
    SplitAtFirst("owner", ',');
  }

  /** `capabilityOwner` inverts the execution scope, for exactly the valid owner ids. */
  lemma OwnerOfExpectedScope(ownerId: string)
    ensures CapabilityOwner(ExpectedScopeForOwner(ownerId)) == if IsOwner(ownerId) then Some(ownerId) else None
  {
    GrammarsAreDisjoint(ownerId);
    hide ParseScope, IsOwner;
    assert ExpectedScopeForOwner(ownerId)[|"owner:"|..] == ownerId;
  }

  lemma ReadTokenParses()
    ensures ActionsOf(Split("read", ',')) == Some([Read])
  {
    hide Split, ActionsOf, Trim, IndexOf;
    NameIsKnown(Read);
    SplitAtFirst("read", ',');
    OneToken("read", Read);
  }

  lemma StarIsAGlob()
    ensures ValidGlob("*")
  {
    SplitAtFirst("*", '/');
    assert IsGlobSegment("*");
  }

  lemma DefaultScopeParses(ownerId: string)
    requires IsOwner(ownerId)
    ensures ParseScope(DefaultRunScope(ownerId)) == Some(ParsedScope([Read], ownerId, "*"))
  {
    hide *;
    ReadTokenParses();
    StarIsAGlob();
    DefaultScopeUnfolds(ownerId);
    ScopeReparses("read", [Read], ownerId, "*");
  }

  lemma DefaultScopeUnfolds(ownerId: string)
    requires IsOwner(ownerId)
    ensures DefaultRunScope(ownerId) == "read" + ":" + PatternOf(ownerId, "*")
    ensures |DefaultRunScope(ownerId)| <= MAX_SCOPE_LENGTH && "read" != "" && ':' !in "read"
  {
  }

  lemma OwnersOfScopesAreValid(scope: string)
    ensures CapabilityOwner(scope).Some? ==> IsOwner(CapabilityOwner(scope).value)
  {
    hide ParseScope;
    if ParseScope(scope).Some? {
      ScopeParts(scope);
    }
  }

  /** `capabilityOwner` inverts the namespace-wide read scope, for exactly the valid owner ids. */
  lemma OwnerOfDefaultScope(ownerId: string)
    ensures CapabilityOwner(DefaultRunScope(ownerId)) == Some(ownerId) <==> IsOwner(ownerId)
  {
    OwnersOfScopesAreValid(DefaultRunScope(ownerId));
    hide IsOwner, ParseScope;
    if IsOwner(ownerId) {
      DefaultScopeParses(ownerId);
    }
  }

  // ----- The browser's matcher

  /** Whether the browser draws a room with this URI as opened by the scope. */
  predicate RoomMatches(scope: string, uri: string) {
    var separator := IndexOf(scope, ':');
    separator > 0 && "read" in Split(scope[..separator], ',') && RegExpTest(scope[separator + 1..], uri)
  }

  function RoomsFor(scope: string, rooms: seq<FileRoom>): seq<FileRoom> {
    if rooms == [] then []
    else if
      && rooms[0].resourceUri.Some? && rooms[0].resourceUri.value != ""
      && RoomMatches(scope, rooms[0].resourceUri.value)
    then [rooms[0]] + RoomsFor(scope, rooms[1..])
    else RoomsFor(scope, rooms[1..])
  }

  function RoomsForScope(scope: string): seq<FileRoom> {
    RoomsFor(scope, FILE_ROOMS)
  }

  /** The action list names `read` with no spaces around it. */
  predicate NamesReadExactly(scope: string) {
    var separator := IndexOf(scope, ':');
    separator > 0 && "read" in Split(scope[..separator], ',')
  }

  /** Matching the whole URI against the whole pattern is matching the owner and the name separately. */
  lemma WholePatternMatch(ownerId: string, glob: string, uri: string)
    requires IsOwner(ownerId) && ParseResourceUri(uri).Some?
    ensures RegExpTest(PatternOf(ownerId, glob), uri)
       <==> ParseResourceUri(uri).value.ownerId == ownerId && RegExpTest(glob, ParseResourceUri(uri).value.name)
  {
    var target, prefix := ParseResourceUri(uri).value, RESOURCE_SCHEME + ownerId + "/";
    AcceptedIsCanonical(uri);
    OwnerCharacters(ownerId);
    OwnerCharacters(target.ownerId);
    PrefixDecidesOwner(ownerId, target.ownerId, target.name, uri);
    hide *;
    assert '*' !in prefix by { PrefixHasNoStar(ownerId); }
    RegExpIsGlob(PatternOf(ownerId, glob), uri);
    GlobWithLiteralPrefix(prefix, glob, uri);
    assert PatternOf(ownerId, glob) == prefix + glob by { PatternUnfolds(ownerId, glob); }
    RegExpIsGlob(glob, target.name);
  }

  lemma PatternUnfolds(ownerId: string, glob: string)
    ensures PatternOf(ownerId, glob) == (RESOURCE_SCHEME + ownerId + "/") + glob
  {
  }

  lemma PrefixHasNoStar(ownerId: string)
    requires '*' !in ownerId
    ensures '*' !in RESOURCE_SCHEME + ownerId + "/"
  {
  }

  /** The owner's prefix fits exactly the owner's own URIs: a URI cannot begin with another owner's prefix. */
  lemma PrefixDecidesOwner(ownerId: string, other: string, name: string, uri: string)
    requires '/' !in ownerId && '/' !in other && uri == PrintUri(other, name)
    ensures var prefix := RESOURCE_SCHEME + ownerId + "/";
      (prefix <= uri <==> other == ownerId) && (prefix <= uri ==> uri[|prefix|..] == name)
  {
    var prefix := RESOURCE_SCHEME + ownerId + "/";
    if other == ownerId {
      assert uri == prefix + name;
    }
    if prefix <= uri {
      var rest := uri[|prefix|..];
      assert uri == RESOURCE_SCHEME + (ownerId + "/" + rest);
      assert uri == RESOURCE_SCHEME + (other + "/" + name);
      SamePrefix(RESOURCE_SCHEME, ownerId + "/" + rest, other + "/" + name, uri);
      OwnerPrefixIsUnique(ownerId, other, rest, name);
    }
  }

  lemma SamePrefix(prefix: string, a: string, b: string, whole: string)
    requires whole == prefix + a && whole == prefix + b
    ensures a == b
  {
    assert whole[|prefix|..] == a;
  }

  lemma {:induction false} ReadTokenIsRead(tokens: seq<string>)
    requires "read" in tokens && ActionsOf(tokens).Some?
    ensures Read in ActionsOf(tokens).value
  {
    TrimmedIsKept("read");
    var init := tokens[..|tokens| - 1];
    assert tokens == init + [tokens[|tokens| - 1]];
    if "read" in init {
      ReadTokenIsRead(init);
    }
  }

  /** Agreement of the two matchers, for every scope the store can hold and every well-formed URI: the browser opens a
      room exactly when the server allows the read and the scope spells `read` without surrounding spaces. */
  lemma MatchersAgree(scope: string, uri: string)
    requires CapabilityOwner(scope).Some? && ParseResourceUri(uri).Some?
    ensures RoomMatches(scope, uri) <==> ScopeAllows(scope, "read", uri) && NamesReadExactly(scope)
  {
    hide IsOwner, ParseScope, ParseResourceUri, RegExpTest, ActionsOf, Split, IndexOf;
    if ParseScope(scope).Some? {
      var p, separator := ParseScope(scope).value, IndexOf(scope, ':');
      ScopeParts(scope);
      WholePatternMatch(p.ownerId, p.glob, uri);
      if NamesReadExactly(scope) {
        ReadTokenIsRead(Split(scope[..separator], ','));
      }
    } else {
      OwnerScopeNamesNoRead(scope);
    }
  }

  lemma {:induction false} OpenedRoomsAreRooms(scope: string, rooms: seq<FileRoom>, room: FileRoom)
    ensures room in RoomsFor(scope, rooms)
       <==> && room in rooms && room.resourceUri.Some? && room.resourceUri.value != ""
            && RoomMatches(scope, room.resourceUri.value)
  {
    hide RoomMatches;
    if rooms != [] {
      OpenedRoomsAreRooms(scope, rooms[1..], room);
      assert rooms == [rooms[0]] + rooms[1..];
    }
  }

  /** So the rooms drawn as opened are those of the map whose file the server allows to be read, for every scope the
      store can hold that spells `read` without spaces; for any other, none is. */
  lemma OpenedRoomsAreAllowed(scope: string, room: FileRoom)
    requires CapabilityOwner(scope).Some?
    ensures room in RoomsForScope(scope) <==>
        && room in FILE_ROOMS && room.resourceUri.Some? && NamesReadExactly(scope)
        && ScopeAllows(scope, "read", room.resourceUri.value)
  {
    hide *;
    RoomsForScopeAre(scope);
    OpenedRoomsAreRooms(scope, FILE_ROOMS, room);
    if room in FILE_ROOMS && room.resourceUri.Some? {
      RoomUrisParse(room);
      MatchersAgree(scope, room.resourceUri.value);
    }
  }

  lemma RoomsForScopeAre(scope: string)
    ensures RoomsForScope(scope) == RoomsFor(scope, FILE_ROOMS)
  {
    hide RoomsFor, FILE_ROOMS;
  }

  lemma RoomUrisParse(room: FileRoom)
    requires room in FILE_ROOMS && room.resourceUri.Some?
    ensures room.resourceUri.value != "" && ParseResourceUri(room.resourceUri.value).Some?
  {
    hide ParseResourceUri, PrintUri, IsSegment, IsOwner;
    FileNames();
    FileUri("user-a", "notes.md");
    FileUri("user-a", "secret-recipe.txt");
    FileUri("user-b", "notes.md");
    FileUri("user-b", "tax-return.txt");
    FileUri("user-a", "analytics-summary.md");
    NotesUris();
    TextUris();
    AnalyticsUri();
  }

  lemma NotesUris()
    ensures PrintUri("user-a", "notes.md") == "res://user-a/notes.md"
    ensures PrintUri("user-b", "notes.md") == "res://user-b/notes.md"
  {
  }

  lemma TextUris()
    ensures PrintUri("user-a", "secret-recipe.txt") == "res://user-a/secret-recipe.txt"
    ensures PrintUri("user-b", "tax-return.txt") == "res://user-b/tax-return.txt"
  {
  }

  lemma AnalyticsUri()
    ensures PrintUri("user-a", "analytics-summary.md") == "res://user-a/analytics-summary.md"
  {
  }

  lemma FileNames()
    ensures IsOwner("user-a") && IsOwner("user-b")
    ensures IsSegment("notes.md") && IsSegment("secret-recipe.txt") && IsSegment("tax-return.txt")
    ensures IsSegment("analytics-summary.md")
  {
  }

  lemma FileUri(ownerId: string, name: string)
    requires IsOwner(ownerId) && IsSegment(name)
    ensures ParseResourceUri(PrintUri(ownerId, name)).Some?
  {
    assert Join([name], '/') == name;
    assert IsName(name);
    hide IsOwner, IsSegment;
    ParseInvertsPrint(ownerId, name);
  }

  lemma OwnerScopeNamesNoRead(scope: string)
    requires "owner:" <= scope
    ensures !NamesReadExactly(scope)
  {
    hide Split, IndexOf;
    OwnerScopeParts(scope, scope[6..]);
  }

  /** The matchers differ on a scope with a space before `read`, whatever the owner and the room: the server trims it,
      the browser does not. */
  lemma SpacedScopeDiffers(ownerId: string, name: string)
    requires IsOwner(ownerId) && IsName(name) && |PrintUri(ownerId, name)| <= MAX_URI_LENGTH
    ensures var scope, uri := " read:" + PatternOf(ownerId, "*"), PrintUri(ownerId, name);
      CapabilityOwner(scope) == Some(ownerId) && ScopeAllows(scope, "read", uri) && !RoomMatches(scope, uri)
  {
    hide *;
    SpacedReadIsRead();
    StarIsAGlob();
    NamesAreDots(name);
    SpacedScopeUnfolds(ownerId);
    ParseInvertsPrint(ownerId, name);
    ScopeReparses(" read", [Read], ownerId, "*");
    AnyNameMatchesStar(name);
    SpacedDecision(" read:" + PatternOf(ownerId, "*"), ownerId, name);
  }

  lemma SpacedScopeUnfolds(ownerId: string)
    requires IsOwner(ownerId)
    ensures " read:" + PatternOf(ownerId, "*") == " read" + ":" + PatternOf(ownerId, "*")
    ensures |" read" + ":" + PatternOf(ownerId, "*")| <= MAX_SCOPE_LENGTH && " read" != ""
  {
  }

  lemma SpacedDecision(scope: string, ownerId: string, name: string)
    requires ParseScope(scope) == Some(ParsedScope([Read], ownerId, "*"))
    requires IndexOf(scope, ':') == 5 && Split(scope[..5], ',') == [" read"]
    requires ParseResourceUri(PrintUri(ownerId, name)) == Some(ResourceUri(ownerId, name, PrintUri(ownerId, name)))
    requires RegExpTest("*", name)
    ensures CapabilityOwner(scope) == Some(ownerId)
    ensures ScopeAllows(scope, "read", PrintUri(ownerId, name)) && !RoomMatches(scope, PrintUri(ownerId, name))
  {
    hide ParseScope, ParseResourceUri, RegExpTest, IndexOf, Split, PrintUri, IsOwner;
  }

  lemma OneToken(token: string, action: Action)
    requires KnownAction(Trim(token)) == Some(action)
    ensures ActionsOf([token]) == Some([action])
  {
    var tokens := [token];
    assert tokens[..|tokens| - 1] == [];
    assert ActionsOf(tokens[..|tokens| - 1]) == Some([]);
    assert [] + [action] == [action];
  }

  lemma SpacedReadIsRead()
    ensures Split(" read", ',') == [" read"] && ActionsOf([" read"]) == Some([Read]) && ':' !in " read"
  {
    SplitAtFirst(" read", ',');
    assert " read"[1..] == "read";
    assert TrimStart("read") == "read";
    assert TrimStart(" read") == "read";
    assert TrimEnd("read") == "read";
    hide Split, ActionsOf;
    OneToken(" read", Read);
  }

  lemma NamesAreDots(name: string)
    requires IsName(name)
    ensures AllDots(name)
  {
    var segments: seq<string> :|
      segments != [] && (forall s | s in segments :: IsSegment(s)) && name == Join(segments, '/');
    JoinedDots(segments);
  }

  lemma {:induction false} JoinedDots(segments: seq<string>)
    requires segments != [] && forall s | s in segments :: IsSegment(s)
    ensures AllDots(Join(segments, '/'))
  {
    assert IsSegment(segments[0]);
    if |segments| > 1 {
      JoinedDots(segments[1..]);
    }
  }

  lemma {:induction false} AnyNameMatchesStar(name: string)
    requires AllDots(name)
    ensures RegExpTest("*", name)
  {
    RegExpIsGlob("*", name);
    StarMatchesDots(name);
  }

  lemma {:induction false} StarMatchesDots(text: string)
    requires AllDots(text)
    ensures Glob("*", text)
  {
    assert "*"[1..] == "";
    if text != "" {
      StarMatchesDots(text[1..]);
    }
  }
}

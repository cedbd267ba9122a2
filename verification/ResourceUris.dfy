/** The grammar of resource URIs: `res://<ownerId>/<name>`. */
module ResourceUris {
  import opened Wrappers
  import opened Text

  const RESOURCE_SCHEME := "res://"
  const MAX_URI_LENGTH := 512

  datatype ResourceUri = ResourceUri(ownerId: string, name: string, uri: string)

  predicate IsLowerOrDigit(c: char) {
    'a' <= c <= 'z' || '0' <= c <= '9'
  }

  predicate IsAlphanumeric(c: char) {
    IsLowerOrDigit(c) || 'A' <= c <= 'Z'
  }

  predicate IsOwner(s: string) {
    && 1 <= |s| <= 32
    && IsLowerOrDigit(s[0])
    && forall i | 0 <= i < |s| :: IsLowerOrDigit(s[i]) || s[i] == '-'
  }

  predicate IsSegment(s: string) {
    && 1 <= |s| <= 64
    && IsAlphanumeric(s[0])
    && forall i | 0 <= i < |s| :: IsAlphanumeric(s[i]) || s[i] in "._-"
  }

  predicate HasForbiddenCharacter(input: string) {
    '%' in input || '\0' in input || '\\' in input
  }

  /** The checks on the part after the owner: non-empty segments of allowed characters, no dot segments. */
  predicate ValidName(name: string) {
    && name != "" && name[0] != '/' && name[|name| - 1] != '/'
    && forall segment | segment in Split(name, '/') :: IsSegment(segment) && segment != "." && segment != ".."
  }

  function ParseResourceUri(input: string): Option<ResourceUri> {
    if input == "" || |input| > MAX_URI_LENGTH then None
    else if HasForbiddenCharacter(input) then None
    else if !(RESOURCE_SCHEME <= input) then None
    else
      var rest := input[|RESOURCE_SCHEME|..];
      var slash := IndexOf(rest, '/');
      if slash <= 0 then None
      else
        var ownerId, name := rest[..slash], rest[slash + 1..];
        if !IsOwner(ownerId) || !ValidName(name) then None
        else Some(ResourceUri(ownerId, name, RESOURCE_SCHEME + ownerId + "/" + name))
  }

  // ----- The same language, defined by what it prints

  /** One or more valid segments joined by slashes. */
  ghost predicate IsName(name: string) {
    exists segments: seq<string> ::
        segments != [] && (forall s | s in segments :: IsSegment(s)) && name == Join(segments, '/')
  }

  function PrintUri(ownerId: string, name: string): string {
    RESOURCE_SCHEME + ownerId + "/" + name
  }

  lemma OwnerCharacters(ownerId: string)
    requires IsOwner(ownerId)
    ensures '/' !in ownerId && '*' !in ownerId && ':' !in ownerId && '%' !in ownerId && '\0' !in ownerId
    ensures '\\' !in ownerId
    ensures '.' !in ownerId
  {
  }

  lemma SegmentCharacters(s: string)
    requires IsSegment(s)
    ensures '/' !in s && '%' !in s && '\0' !in s && '\\' !in s && s != "." && s != ".."
    ensures s[0] != '/' && s[|s| - 1] != '/'
  {
  }

  lemma NameSegments(name: string)
    requires IsName(name)
    ensures forall s | s in Split(name, '/') :: IsSegment(s)
  {
    var segments: seq<string> :|
      segments != [] && (forall s | s in segments :: IsSegment(s)) && name == Join(segments, '/');
    forall s | s in segments
      ensures '/' !in s
    {
      SegmentCharacters(s);
    }
    SplitOfJoin(segments, '/');
  }

  lemma SegmentsMakeAName(name: string)
    requires forall s | s in Split(name, '/') :: IsSegment(s)
    ensures IsName(name)
  {
    JoinOfSplit(name, '/');
  }

  lemma {:induction false} JoinedCharacters(segments: seq<string>, c: char)
    requires segments != [] && (forall s | s in segments :: IsSegment(s)) && (c == '%' || c == '\0' || c == '\\')
    ensures c !in Join(segments, '/')
    ensures var name := Join(segments, '/'); name != "" && name[0] != '/' && name[|name| - 1] != '/'
  {
    SegmentCharacters(segments[0]);
    if |segments| > 1 {
      JoinedCharacters(segments[1..], c);
    }
  }

  lemma ValidNames(name: string)
    ensures ValidName(name) <==> IsName(name)
    ensures IsName(name) ==> !HasForbiddenCharacter(name)
  {
    if ValidName(name) {
      SegmentsMakeAName(name);
    }
    if IsName(name) {
      NameSegments(name);
      JoinOfSplit(name, '/');
      JoinedCharacters(Split(name, '/'), '%');
      JoinedCharacters(Split(name, '/'), '\0');
      JoinedCharacters(Split(name, '/'), '\\');
      forall s | s in Split(name, '/')
        ensures IsSegment(s) && s != "." && s != ".."
      {
        SegmentCharacters(s);
      }
    }
  }

  lemma PrintedParts(ownerId: string, name: string)
    requires '/' !in ownerId
    ensures RESOURCE_SCHEME <= PrintUri(ownerId, name)
    ensures var rest := PrintUri(ownerId, name)[|RESOURCE_SCHEME|..];
      IndexOf(rest, '/') == |ownerId| && rest[..|ownerId|] == ownerId && rest[|ownerId| + 1..] == name
  {
    var rest := ownerId + "/" + name;
    assert PrintUri(ownerId, name) == RESOURCE_SCHEME + rest;
    assert PrintUri(ownerId, name)[|RESOURCE_SCHEME|..] == rest;
    FirstSeparator(ownerId, '/', name);
    assert rest[..|ownerId|] == ownerId && rest[|ownerId| + 1..] == name;
  }

  lemma PrintedCharacters(ownerId: string, name: string)
    requires IsOwner(ownerId) && !HasForbiddenCharacter(name)
    ensures !HasForbiddenCharacter(PrintUri(ownerId, name))
  {
    OwnerCharacters(ownerId);
    hide IsOwner;
  }

  /** Printing an owner and a name and parsing the result gives them back, up to the length limit. */
  lemma ParseInvertsPrint(ownerId: string, name: string)
    requires IsOwner(ownerId) && IsName(name)
    ensures ParseResourceUri(PrintUri(ownerId, name))
         == if |PrintUri(ownerId, name)| <= MAX_URI_LENGTH
            then Some(ResourceUri(ownerId, name, PrintUri(ownerId, name))) else None
  {
    OwnerCharacters(ownerId);
    ValidNames(name);
    PrintedCharacters(ownerId, name);
    PrintedParts(ownerId, name);
    hide HasForbiddenCharacter, ValidName, IsName, IndexOf;
    var input := PrintUri(ownerId, name);
    assert |input| > 0;
  }

  /** Accepted input is already canonical, and names a valid owner and name. */
  lemma AcceptedIsCanonical(input: string)
    requires ParseResourceUri(input).Some?
    ensures var p := ParseResourceUri(input).value;
      && p.uri == input && input == PrintUri(p.ownerId, p.name) && IsOwner(p.ownerId) && IsName(p.name)
      && |input| <= MAX_URI_LENGTH
  {
    hide ValidName, IsName, IsOwner, HasForbiddenCharacter;
    var rest := input[|RESOURCE_SCHEME|..];
    var slash := IndexOf(rest, '/');
    var ownerId, name := rest[..slash], rest[slash + 1..];
    CutAt(rest, slash, '/');
    assert input == RESOURCE_SCHEME + rest;
    assert input == RESOURCE_SCHEME + ownerId + "/" + name;
    ValidNames(name);
  }

  /** The accepted language, exactly. */
  lemma AcceptedLanguage(input: string)
    ensures ParseResourceUri(input).Some? <==>
      && |input| <= 512
      && exists ownerId, name :: IsOwner(ownerId) && IsName(name) && input == PrintUri(ownerId, name)
  {
    if ParseResourceUri(input).Some? {
      AcceptedIsCanonical(input);
    }
    if ownerId, name :| IsOwner(ownerId) && IsName(name) && input == PrintUri(ownerId, name) {
      ParseInvertsPrint(ownerId, name);
    }
  }

  /** A URI cannot be read as belonging to two owners: the first slash after the scheme ends the owner. */
  lemma OwnerPrefixIsUnique(a: string, b: string, rest: string, name: string)
    requires '/' !in a && '/' !in b
    requires a + "/" + rest == b + "/" + name
    ensures a == b && rest == name
  {
    FirstSeparator(a, '/', rest);
    FirstSeparator(b, '/', name);
    var s := a + "/" + rest;
    assert s[..|a|] == a && s[..|b|] == b;
    assert s[|a| + 1..] == rest && s[|b| + 1..] == name;
  }
}

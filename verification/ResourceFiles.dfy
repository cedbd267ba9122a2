/** Where resources live on disk: path resolution, containment, and the effect of a write. */
module ResourceFiles {
  import opened Wrappers
  import opened Text
  import opened ResourceUris

  /** One step of path normalisation. */
  function Enter(path: seq<string>, segment: string): seq<string> {
    if segment == "" || segment == "." then path
    else if segment == ".." then (if path == [] then [] else path[..|path| - 1])
    else path + [segment]
  }

  function Normalize(path: seq<string>, segments: seq<string>): seq<string> {
    if segments == [] then path else Enter(Normalize(path, segments[..|segments| - 1]), segments[|segments| - 1])
  }

  /** `path.resolve(base, relative)` for a normalised absolute base and a relative path that does not begin with a
      slash. */
  function Resolve(base: seq<string>, relative: string): seq<string> {
    Normalize(base, Split(relative, '/'))
  }

  function ToPath(segments: seq<string>): string {
    if segments == [] then "/" else "/" + Join(segments, '/')
  }

  /** Ordinary segments: what a normalised absolute path is made of. */
  predicate Clean(segments: seq<string>) {
    forall i | 0 <= i < |segments| :: Ordinary(segments[i])
  }

  predicate Ordinary(s: string) {
    s != "" && s != "." && s != ".." && '/' !in s
  }

  datatype ResourceRef = ResourceRef(uri: string, ownerId: string, name: string)

  /** Syntax and known-owner validation. */
  function ParseRef(owners: set<string>, uri: string): Option<ResourceRef> {
    var parsed := ParseResourceUri(uri);
    if parsed.None? || parsed.value.ownerId !in owners then None
    else Some(ResourceRef(parsed.value.uri, parsed.value.ownerId, parsed.value.name))
  }

  /** The file of a resource, or None where the containment check throws. */
  function FilePath(root: seq<string>, ref: ResourceRef): Option<string> {
    var ownerRoot := ToPath(Resolve(root, ref.ownerId));
    var resolved := ToPath(Normalize(Resolve(root, ref.ownerId), Split(ref.name, '/')));
    if resolved != ownerRoot && !(ownerRoot + "/" <= resolved) then None else Some(resolved)
  }

  /** Where a permitted file is staged, or None where the containment check throws. */
  function StagedPath(workspace: seq<string>, ref: ResourceRef): Option<string> {
    var inbox := Resolve(workspace, "inbox");
    var target := ToPath(Normalize(inbox, Split(ref.name, '/')));
    if !(ToPath(inbox) + "/" <= target) then None else Some(target)
  }

  predicate Accepted(ref: ResourceRef) {
    ParseResourceUri(ref.uri) == Some(ResourceUri(ref.ownerId, ref.name, ref.uri))
  }

  lemma ParsedIsAccepted(owners: set<string>, uri: string)
    requires ParseRef(owners, uri).Some?
    ensures Accepted(ParseRef(owners, uri).value) && ParseRef(owners, uri).value.uri == uri
  {
    AcceptedIsCanonical(uri);
    hide ParseResourceUri, IsName, IsOwner, PrintUri;
  }

  // ----- Normalisation does nothing to accepted names

  lemma {:induction false} CleanIsKept(base: seq<string>, segments: seq<string>)
    requires Clean(segments)
    ensures Normalize(base, segments) == base + segments
  {
    if segments != [] {
      CleanIsKept(base, segments[..|segments| - 1]);
      assert segments == segments[..|segments| - 1] + [segments[|segments| - 1]];
      assert Ordinary(segments[|segments| - 1]);
    } else {
      assert base + segments == base;
    }
  }

  lemma OwnerIsASegment(ownerId: string)
    requires IsOwner(ownerId)
    ensures Split(ownerId, '/') == [ownerId] && Clean([ownerId])
  {
    OwnerCharacters(ownerId);
    assert ownerId != "." && ownerId != ".." by { assert ownerId[0] != '.'; }
    hide IsOwner, IndexOf, Split;
    SplitAtFirst(ownerId, '/');
  }

  lemma AcceptedSegments(ref: ResourceRef)
    requires Accepted(ref)
    ensures IsOwner(ref.ownerId) && Clean(Split(ref.name, '/')) && Split(ref.name, '/') != []
    ensures ref.uri == PrintUri(ref.ownerId, ref.name)
  {
    AcceptedIsCanonical(ref.uri);
    hide ParseResourceUri, IsOwner, PrintUri, IsSegment;
    NameSegments(ref.name);
    var parts := Split(ref.name, '/');
    forall i | 0 <= i < |parts|
      ensures Ordinary(parts[i])
    {
      SegmentIsOrdinary(parts[i]);
    }
  }

  lemma SegmentIsOrdinary(s: string)
    requires IsSegment(s)
    ensures Ordinary(s)
  {
    SegmentCharacters(s);
  }

  lemma {:induction false} JoinOfConcat(a: seq<string>, b: seq<string>)
    requires a != [] && b != []
    ensures Join(a + b, '/') == Join(a, '/') + "/" + Join(b, '/')
  {
    if |a| == 1 {
      assert a + b == [a[0]] + b;
      JoinCons(a[0], b, '/');
    } else {
      assert a + b == [a[0]] + (a[1..] + b);
      JoinOfConcat(a[1..], b);
      JoinCons(a[0], a[1..] + b, '/');
      JoinCons(a[0], a[1..], '/');
      assert a == [a[0]] + a[1..];
    }
  }

  lemma PathBelow(base: seq<string>, segments: seq<string>)
    requires base != [] && segments != []
    ensures ToPath(base + segments) == ToPath(base) + "/" + Join(segments, '/')
    ensures ToPath(base) + "/" <= ToPath(base + segments)
  {
    hide Join;
    JoinOfConcat(base, segments);
    assert base + segments != [];
    var tail := Join(segments, '/');
    assert ToPath(base) + "/" + tail == (ToPath(base) + "/") + tail;
  }

  /** For every accepted resource the path is its root, owner and segments as written: the escape check never throws. */
  lemma FilePathIsContained(root: seq<string>, ref: ResourceRef)
    requires Accepted(ref)
    ensures FilePath(root, ref) == Some(ToPath(root + [ref.ownerId] + Split(ref.name, '/')))
    ensures ToPath(root + [ref.ownerId]) + "/" <= FilePath(root, ref).value
  {
    hide *;
    AcceptedSegments(ref);
    OwnerIsASegment(ref.ownerId);
    CleanIsKept(root, [ref.ownerId]);
    CleanIsKept(root + [ref.ownerId], Split(ref.name, '/'));
    PathBelow(root + [ref.ownerId], Split(ref.name, '/'));
    FilePathUnfolds(root, ref);
  }

  lemma FilePathUnfolds(root: seq<string>, ref: ResourceRef)
    requires Normalize(root, Split(ref.ownerId, '/')) == root + [ref.ownerId]
    requires Normalize(root + [ref.ownerId], Split(ref.name, '/')) == root + [ref.ownerId] + Split(ref.name, '/')
    requires ToPath(root + [ref.ownerId]) + "/" <= ToPath(root + [ref.ownerId] + Split(ref.name, '/'))
    ensures FilePath(root, ref) == Some(ToPath(root + [ref.ownerId] + Split(ref.name, '/')))
  {
    hide Normalize, ToPath, Split;
  }

  lemma InboxIsASegment()
    ensures Split("inbox", '/') == ["inbox"] && Clean(["inbox"])
  {
    hide IndexOf, Split;
    assert '/' !in "inbox";
    SplitAtFirst("inbox", '/');
  }

  /** Staging never refuses an accepted resource, and stays under the inbox. */
  lemma StagedPathIsContained(workspace: seq<string>, ref: ResourceRef)
    requires Accepted(ref)
    ensures StagedPath(workspace, ref) == Some(ToPath(workspace + ["inbox"] + Split(ref.name, '/')))
    ensures ToPath(workspace + ["inbox"]) + "/" <= StagedPath(workspace, ref).value
  {
    hide *;
    AcceptedSegments(ref);
    InboxIsASegment();
    CleanIsKept(workspace, ["inbox"]);
    CleanIsKept(workspace + ["inbox"], Split(ref.name, '/'));
    PathBelow(workspace + ["inbox"], Split(ref.name, '/'));
    StagedPathUnfolds(workspace, ref);
  }

  lemma StagedPathUnfolds(workspace: seq<string>, ref: ResourceRef)
    requires Normalize(workspace, Split("inbox", '/')) == workspace + ["inbox"]
    requires Normalize(workspace + ["inbox"], Split(ref.name, '/')) == workspace + ["inbox"] + Split(ref.name, '/')
    requires ToPath(workspace + ["inbox"]) + "/" <= ToPath(workspace + ["inbox"] + Split(ref.name, '/'))
    ensures StagedPath(workspace, ref) == Some(ToPath(workspace + ["inbox"] + Split(ref.name, '/')))
  {
    hide Normalize, ToPath, Split;
  }

  lemma NoSlashes(segments: seq<string>)
    requires Clean(segments)
    ensures forall s | s in segments :: '/' !in s
  {
    forall s | s in segments
      ensures '/' !in s
    {
      var i :| 0 <= i < |segments| && segments[i] == s;
      assert Ordinary(segments[i]);
    }
  }

  // ----- Distinct resources have distinct files

  lemma PathsAreInjective(a: seq<string>, b: seq<string>)
    requires Clean(a) && Clean(b) && a != [] && b != [] && ToPath(a) == ToPath(b)
    ensures a == b
  {
    NoSlashes(a);
    NoSlashes(b);
    SplitOfJoin(a, '/');
    SplitOfJoin(b, '/');
    hide Join, Split;
    assert ToPath(a)[1..] == Join(a, '/') && ToPath(b)[1..] == Join(b, '/');
  }

  lemma DistinctFiles(root: seq<string>, a: ResourceRef, b: ResourceRef)
    requires Clean(root) && Accepted(a) && Accepted(b)
    ensures FilePath(root, a) == FilePath(root, b) <==> a == b
  {
    hide *;
    FilePathIsContained(root, a);
    FilePathIsContained(root, b);
    AcceptedSegments(a);
    AcceptedSegments(b);
    if FilePath(root, a) == FilePath(root, b) {
      SegmentsOf(root, a);
      SegmentsOf(root, b);
      PathsAreInjective(root + [a.ownerId] + Split(a.name, '/'), root + [b.ownerId] + Split(b.name, '/'));
      SameTail(root, a.ownerId, Split(a.name, '/'), b.ownerId, Split(b.name, '/'));
      JoinOfSplit(a.name, '/');
      JoinOfSplit(b.name, '/');
    }
  }

  lemma SegmentsOf(root: seq<string>, ref: ResourceRef)
    requires Clean(root) && Accepted(ref)
    ensures Clean(root + [ref.ownerId] + Split(ref.name, '/'))
  {
    hide Split, Accepted, IsOwner;
    AcceptedSegments(ref);
    OwnerIsASegment(ref.ownerId);
    CleanConcat(root, [ref.ownerId]);
    CleanConcat(root + [ref.ownerId], Split(ref.name, '/'));
  }

  lemma SameTail(root: seq<string>, a: string, rest: seq<string>, b: string, tail: seq<string>)
    requires root + [a] + rest == root + [b] + tail
    ensures a == b && rest == tail
  {
    var whole := root + [a] + rest;
    assert whole[|root|] == a;
    assert whole[|root| + 1..] == rest;
    assert (root + [b] + tail)[|root|] == b;
    assert (root + [b] + tail)[|root| + 1..] == tail;
  }

  lemma DistinctStagedFiles(workspace: seq<string>, a: ResourceRef, b: ResourceRef)
    requires Clean(workspace) && Accepted(a) && Accepted(b)
    ensures StagedPath(workspace, a) == StagedPath(workspace, b) <==> a.name == b.name
  {
    hide *;
    StagedPathIsContained(workspace, a);
    StagedPathIsContained(workspace, b);
    if StagedPath(workspace, a) == StagedPath(workspace, b) {
      StagedSegments(workspace, a);
      StagedSegments(workspace, b);
      PathsAreInjective(workspace + ["inbox"] + Split(a.name, '/'), workspace + ["inbox"] + Split(b.name, '/'));
      SameTail(workspace, "inbox", Split(a.name, '/'), "inbox", Split(b.name, '/'));
      JoinOfSplit(a.name, '/');
      JoinOfSplit(b.name, '/');
    }
  }

  lemma StagedSegments(workspace: seq<string>, ref: ResourceRef)
    requires Clean(workspace) && Accepted(ref)
    ensures Clean(workspace + ["inbox"] + Split(ref.name, '/')) && workspace + ["inbox"] + Split(ref.name, '/') != []
  {
    hide Split, Accepted, IsOwner;
    AcceptedSegments(ref);
    InboxIsASegment();
    CleanConcat(workspace, ["inbox"]);
    CleanConcat(workspace + ["inbox"], Split(ref.name, '/'));
  }

  lemma CleanConcat(a: seq<string>, b: seq<string>)
    requires Clean(a) && Clean(b)
    ensures Clean(a + b)
  {
  }

  // ----- Writing

  /** Writes the temporary file, then renames it over the target. */
  function WriteFile(files: map<string, string>, path: string, content: string): map<string, string> {
    var withTemporary := files[path + ".tmp" := content];
    (withTemporary - {path + ".tmp"})[path := content]
  }

  function ReadFile(files: map<string, string>, root: seq<string>, ref: ResourceRef): Option<string> {
    var path := FilePath(root, ref);
    if path.None? || path.value !in files then None else Some(files[path.value])
  }

  lemma TemporaryPath(segments: seq<string>)
    requires segments != []
    ensures var last := |segments| - 1; ToPath(segments) + ".tmp" == ToPath(segments[last := segments[last] + ".tmp"])
  {
    var last := |segments| - 1;
    var longer := segments[last := segments[last] + ".tmp"];
    if last == 0 {
      assert segments == [segments[0]] && longer == [segments[0] + ".tmp"];
    } else {
      assert segments == segments[..last] + [segments[last]] && longer == segments[..last] + [segments[last] + ".tmp"];
      JoinSnoc(segments[..last], segments[last], '/');
      JoinSnoc(segments[..last], segments[last] + ".tmp", '/');
      hide Join;
    }
  }

  lemma LastSegmentGrows(name: string)
    ensures var parts := Split(name, '/'); var last := |parts| - 1;
      Join(parts[last := parts[last] + ".tmp"], '/') == name + ".tmp"
  {
    var parts := Split(name, '/');
    var last := |parts| - 1;
    JoinOfSplit(name, '/');
    hide Split, Join;
    if last == 0 {
      assert parts == [parts[0]] && parts[last := parts[last] + ".tmp"] == [parts[0] + ".tmp"];
      SingleJoin(parts[0], '/');
      SingleJoin(parts[0] + ".tmp", '/');
    } else {
      assert parts == parts[..last] + [parts[last]];
      assert parts[last := parts[last] + ".tmp"] == parts[..last] + [parts[last] + ".tmp"];
      JoinSnoc(parts[..last], parts[last], '/');
      JoinSnoc(parts[..last], parts[last] + ".tmp", '/');
    }
  }

  /** The temporary file of one resource is the file of another exactly when the other is its `.tmp` sibling. */
  lemma TemporaryOf(root: seq<string>, a: ResourceRef, path: string, b: ResourceRef)
    requires Clean(root) && Accepted(a) && Accepted(b) && FilePath(root, a) == Some(path)
    ensures FilePath(root, b) == Some(path + ".tmp") <==> b.ownerId == a.ownerId && b.name == a.name + ".tmp"
  {
    hide *;
    FilePathIsContained(root, a);
    FilePathIsContained(root, b);
    AcceptedSegments(a);
    AcceptedSegments(b);
    SegmentsOf(root, a);
    SegmentsOf(root, b);
    var parts := Split(a.name, '/');
    var last := |parts| - 1;
    var grown := parts[last := parts[last] + ".tmp"];
    var whole := root + [a.ownerId] + parts;
    TemporaryPath(whole);
    assert whole[|whole| - 1 := whole[|whole| - 1] + ".tmp"] == root + [a.ownerId] + grown;
    GrownIsClean(whole);
    LastSegmentGrows(a.name);
    if FilePath(root, b) == Some(path + ".tmp") {
      PathsAreInjective(root + [b.ownerId] + Split(b.name, '/'), root + [a.ownerId] + grown);
      SameTail(root, b.ownerId, Split(b.name, '/'), a.ownerId, grown);
      JoinOfSplit(b.name, '/');
    }
    if b.ownerId == a.ownerId && b.name == a.name + ".tmp" {
      CleanHasNoSlash(whole[|whole| - 1 := whole[|whole| - 1] + ".tmp"], grown);
      SplitOfJoin(grown, '/');
    }
  }

  lemma GrownIsClean(segments: seq<string>)
    requires Clean(segments) && segments != []
    ensures Clean(segments[|segments| - 1 := segments[|segments| - 1] + ".tmp"])
  {
    var last := segments[|segments| - 1];
    var grown := last + ".tmp";
    assert Ordinary(last);
    assert '/' !in ".tmp";
    assert |grown| > 4;
    assert Ordinary(grown);
  }

  lemma CleanHasNoSlash(whole: seq<string>, tail: seq<string>)
    requires Clean(whole) && forall s | s in tail :: s in whole
    ensures forall s | s in tail :: '/' !in s
  {
    NoSlashes(whole);
  }

  lemma WriteEffect(files: map<string, string>, path: string, content: string, other: string)
    ensures var after := WriteFile(files, path, content);
      if other == path then other in after && after[other] == content
      else if other == path + ".tmp" then other !in after
      else (other in after <==> other in files) && (other in files ==> after[other] == files[other])
  {
    LongerIsDifferent(path);
  }

  /** A write changes its own resource, removes its `.tmp` sibling if there is one, and touches nothing else. */
  lemma WriteTouchesOnly(files: map<string, string>, root: seq<string>, written: ResourceRef, path: string,
                         content: string, other: ResourceRef)
    requires Clean(root) && Accepted(written) && Accepted(other) && FilePath(root, written) == Some(path)
    ensures ReadFile(WriteFile(files, path, content), root, other)
         == if other == written then Some(content)
            else if other.ownerId == written.ownerId && other.name == written.name + ".tmp" then None
            else ReadFile(files, root, other)
  {
    FilePathIsContained(root, other);
    DistinctFiles(root, written, other);
    TemporaryOf(root, written, path, other);
    hide FilePath, Accepted, Split, ToPath, WriteFile;
    WriteEffect(files, path, content, FilePath(root, other).value);
  }

  lemma LongerIsDifferent(s: string)
    ensures s + ".tmp" != s
  {
    assert |s + ".tmp"| == |s| + 4;
  }
}

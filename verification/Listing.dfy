/** The bounded depth-first listing of resource namespaces. */
module Listing {
  import opened Text
  import opened ResourceUris
  import opened ResourceFiles

  const MAX_LIST_DEPTH := 8
  const MAX_LIST_RESOURCES := 500

  /** A directory's entries, in the order the disk gives them. Other stands for symbolic links and the like. */
  datatype Entry = File(name: string) | Directory(name: string, entries: seq<Entry>) | Other(name: string)

  /** The arrays a walk pushes into. */
  datatype Found = Found(resources: seq<ResourceRef>, skipped: seq<string>)

  function Relative(prefix: string, name: string): string {
    if prefix == "" then name else prefix + "/" + name
  }

  predicate IsFull(found: Found) {
    |found.resources| >= MAX_LIST_RESOURCES
  }

  /** One regular file: listed if its URI is accepted, reported as skipped if not. */
  function Visit(owners: set<string>, owner: string, relative: string, found: Found): Found {
    var ref := ParseRef(owners, RESOURCE_SCHEME + owner + "/" + relative);
    if ref.Some? then found.(resources := found.resources + [ref.value])
    else found.(skipped := found.skipped + [owner + "/" + relative])
  }

  // ----- Sorting by name

  /** `localeCompare` never puts its second argument first. */
  type Order = (string, string) -> bool

  ghost predicate IsOrder(order: Order) {
    && (forall a, b :: order(a, b) || order(b, a))
    && (forall a, b, c :: order(a, b) && order(b, c) ==> order(a, c))
  }

  function Insert(order: Order, entry: Entry, sorted: seq<Entry>): (longer: seq<Entry>)
    ensures |longer| == |sorted| + 1
  {
    if sorted == [] then [entry]
    else if order(entry.name, sorted[0].name) then [entry] + sorted
    else [sorted[0]] + Insert(order, entry, sorted[1..])
  }

  /** One directory, sorted. */
  function SortByName(order: Order, entries: seq<Entry>): (sorted: seq<Entry>)
    ensures |sorted| == |entries|
  {
    if entries == [] then [] else Insert(order, entries[0], SortByName(order, entries[1..]))
  }

  /** The whole tree with every directory sorted: what the walk goes through. */
  function Arrange(order: Order, entries: seq<Entry>): seq<Entry>
    decreases entries
  {
    if entries == [] then [] else Insert(order, ArrangeEntry(order, entries[0]), Arrange(order, entries[1..]))
  }

  function ArrangeEntry(order: Order, entry: Entry): (arranged: Entry)
    ensures arranged.name == entry.name
    decreases entry
  {
    match entry
    case Directory(name, below) => Directory(name, Arrange(order, below))
    case _ => entry
  }

  function ArrangeEach(order: Order, entries: seq<Entry>): (arranged: seq<Entry>)
    ensures |arranged| == |entries| && forall i | 0 <= i < |entries| :: arranged[i] == ArrangeEntry(order, entries[i])
  {
    seq(|entries|, i requires 0 <= i < |entries| => ArrangeEntry(order, entries[i]))
  }

  lemma {:induction false} InsertArranged(order: Order, entry: Entry, sorted: seq<Entry>)
    ensures Insert(order, ArrangeEntry(order, entry), ArrangeEach(order, sorted))
         == ArrangeEach(order, Insert(order, entry, sorted))
  {
    hide ArrangeEntry;
    if sorted != [] && !order(entry.name, sorted[0].name) {
      InsertArranged(order, entry, sorted[1..]);
      assert ArrangeEach(order, sorted)[1..] == ArrangeEach(order, sorted[1..]);
    }
  }

  /** Sorting each directory when it is visited goes through the arranged tree. */
  lemma {:induction false} ArrangedIsSorted(order: Order, entries: seq<Entry>)
    ensures Arrange(order, entries) == ArrangeEach(order, SortByName(order, entries))
  {
    hide ArrangeEntry;
    if entries != [] {
      ArrangedIsSorted(order, entries[1..]);
      InsertArranged(order, entries[0], SortByName(order, entries[1..]));
    }
  }

  lemma {:induction false} InsertMembers(order: Order, entry: Entry, sorted: seq<Entry>, e: Entry)
    ensures e in Insert(order, entry, sorted) <==> e == entry || e in sorted
  {
    if sorted != [] {
      InsertMembers(order, entry, sorted[1..], e);
      assert sorted == [sorted[0]] + sorted[1..];
    }
  }

  lemma {:induction false} SortMembers(order: Order, entries: seq<Entry>, e: Entry)
    ensures e in SortByName(order, entries) <==> e in entries
  {
    if entries != [] {
      SortMembers(order, entries[1..], e);
      InsertMembers(order, entries[0], SortByName(order, entries[1..]), e);
      assert entries == [entries[0]] + entries[1..];
    }
  }

  predicate InOrder(order: Order, entries: seq<Entry>) {
    forall i, j | 0 <= i < j < |entries| :: order(entries[i].name, entries[j].name)
  }

  lemma {:induction false} InsertSorts(order: Order, entry: Entry, sorted: seq<Entry>)
    requires IsOrder(order) && InOrder(order, sorted)
    ensures InOrder(order, Insert(order, entry, sorted))
  {
    if sorted != [] && !order(entry.name, sorted[0].name) {
      InsertSorts(order, entry, sorted[1..]);
      var rest := Insert(order, entry, sorted[1..]);
      forall j | 0 <= j < |rest|
        ensures order(sorted[0].name, rest[j].name)
      {
        assert rest[j] in rest;
        InsertMembers(order, entry, sorted[1..], rest[j]);
      }
    }
  }

  /** A directory is sorted by name, whatever the collation, and keeps its entries. */
  lemma {:induction false} SortingSorts(order: Order, entries: seq<Entry>)
    requires IsOrder(order)
    ensures InOrder(order, SortByName(order, entries)) && multiset(SortByName(order, entries)) == multiset(entries)
  {
    if entries != [] {
      SortingSorts(order, entries[1..]);
      InsertSorts(order, entries[0], SortByName(order, entries[1..]));
      InsertKeeps(order, entries[0], SortByName(order, entries[1..]));
      assert entries == [entries[0]] + entries[1..];
    }
  }

  lemma {:induction false} InsertKeeps(order: Order, entry: Entry, sorted: seq<Entry>)
    ensures multiset(Insert(order, entry, sorted)) == multiset(sorted) + multiset{entry}
  {
    if sorted != [] && !order(entry.name, sorted[0].name) {
      InsertKeeps(order, entry, sorted[1..]);
      assert sorted == [sorted[0]] + sorted[1..];
    }
  }

  // ----- The walk

  method Walk(order: Order, owners: set<string>, owner: string, prefix: string, depth: nat, entries: seq<Entry>,
              found0: Found)
    returns (found: Found)
    ensures found == VisitAll(owners, FilesUnder(owner, prefix, depth, Arrange(order, entries)), found0)
    decreases MAX_LIST_DEPTH + 1 - depth
  {
    found := found0;
    hide VisitAll, Visit, FilesOf, FilesOfEntry, Arrange;
    ghost var arranged := Arrange(order, entries);
    if depth > MAX_LIST_DEPTH || IsFull(found) {
      FullStops(owners, FilesUnder(owner, prefix, depth, arranged), found);
      return;
    }
    NoFiles(owner, prefix, depth);
    VisitNone(owners, found0);
    var sorted := SortByName(order, entries);
    ArrangedIsSorted(order, entries);
    hide SortByName;
    for i := 0 to |sorted|
      invariant found == VisitAll(owners, FilesOf(owner, prefix, depth, arranged[..i]), found0)
    {
      ghost var before := FilesOf(owner, prefix, depth, arranged[..i]);
      ghost var after := FilesOf(owner, prefix, depth, arranged[i..]);
      if IsFull(found) {
        assert arranged == arranged[..i] + arranged[i..];
        FilesOfConcat(owner, prefix, depth, arranged[..i], arranged[i..]);
        VisitInTwo(owners, before, after, found0);
        FullStops(owners, after, found);
        return;
      }
      FilesOfSnoc(owner, prefix, depth, arranged, i);
      VisitInTwo(owners, before, FilesOfEntry(owner, prefix, depth, arranged[i]), found0);
      EntryFiles(owner, prefix, depth, arranged[i]);
      match sorted[i]
      case Directory(name, below) =>
        found := Walk(order, owners, owner, Relative(prefix, name), depth + 1, below, found);
      case File(name) =>
        VisitOne(owners, Listed(owner, Relative(prefix, name)), found);
        found := Visit(owners, owner, Relative(prefix, name), found);
      case Other(_) => VisitNone(owners, found);
    }
    assert arranged[..|arranged|] == arranged;
  }

  lemma NoFiles(owner: string, prefix: string, depth: nat)
    ensures FilesOf(owner, prefix, depth, []) == []
  {
  }

  lemma EntryFiles(owner: string, prefix: string, depth: nat, entry: Entry)
    ensures FilesOfEntry(owner, prefix, depth, entry) ==
      match entry
      case File(name) => [Listed(owner, Relative(prefix, name))]
      case Directory(name, below) => FilesUnder(owner, Relative(prefix, name), depth + 1, below)
      case Other(_) => []
  {
  }

  /** Every owner's tree, arranged. */
  function ArrangeAll(order: Order, roots: map<string, seq<Entry>>): map<string, seq<Entry>> {
    map owner | owner in roots :: Arrange(order, roots[owner])
  }

  /** The listing of one owner, or of every known owner. */
  method ListDetailed(order: Order, owners: set<string>, roots: map<string, seq<Entry>>, targets: seq<string>)
    returns (found: Found)
    ensures found == VisitAll(owners, AllFiles(owners, ArrangeAll(order, roots), targets), Found([], []))
  {
    found := Found([], []);
    VisitNone(owners, found);
    ghost var arranged := ArrangeAll(order, roots);
    for i := 0 to |targets|
      invariant found == VisitAll(owners, AllFiles(owners, arranged, targets[..i]), Found([], []))
    {
      hide VisitAll, FilesUnder, Arrange;
      assert targets[..i + 1][..i] == targets[..i];
      VisitInTwo(owners, AllFiles(owners, arranged, targets[..i]), OwnerFiles(owners, arranged, targets[i]),
                 Found([], []));
      VisitNone(owners, found);
      if targets[i] !in owners || targets[i] !in roots {
        continue;
      }
      found := Walk(order, owners, targets[i], "", 0, roots[targets[i]], found);
    }
    assert targets[..|targets|] == targets;
  }

  // ----- The full listing the walk truncates

  datatype ListedFile = Listed(owner: string, relative: string)

  /** Every regular file below at most eight nested directories, depth first in sorted order. */
  function FilesUnder(owner: string, prefix: string, depth: nat, entries: seq<Entry>): seq<ListedFile>
    decreases entries, 1
  {
    if depth > MAX_LIST_DEPTH then [] else FilesOf(owner, prefix, depth, entries)
  }

  function FilesOf(owner: string, prefix: string, depth: nat, entries: seq<Entry>): seq<ListedFile>
    decreases entries, 0
  {
    if entries == [] then []
    else FilesOfEntry(owner, prefix, depth, entries[0]) + FilesOf(owner, prefix, depth, entries[1..])
  }

  function FilesOfEntry(owner: string, prefix: string, depth: nat, entry: Entry): seq<ListedFile>
    decreases entry
  {
    match entry
    case File(name) => [Listed(owner, Relative(prefix, name))]
    case Directory(name, below) => FilesUnder(owner, Relative(prefix, name), depth + 1, below)
    case Other(_) => []
  }

  function OwnerFiles(owners: set<string>, roots: map<string, seq<Entry>>, owner: string): seq<ListedFile> {
    if owner in owners && owner in roots then FilesUnder(owner, "", 0, roots[owner]) else []
  }

  function AllFiles(owners: set<string>, roots: map<string, seq<Entry>>, targets: seq<string>): seq<ListedFile> {
    if targets == [] then []
    else AllFiles(owners, roots, targets[..|targets| - 1]) + OwnerFiles(owners, roots, targets[|targets| - 1])
  }

  /** Visiting stops for good once the listing is full. */
  function VisitAll(owners: set<string>, files: seq<ListedFile>, found: Found): Found {
    if files == [] || IsFull(found) then found
    else VisitAll(owners, files[1..], Visit(owners, files[0].owner, files[0].relative, found))
  }

  lemma FullStops(owners: set<string>, files: seq<ListedFile>, found: Found)
    ensures IsFull(found) || files == [] ==> VisitAll(owners, files, found) == found
  {
  }

  lemma VisitNone(owners: set<string>, found: Found)
    ensures VisitAll(owners, [], found) == found
  {
  }

  lemma VisitOne(owners: set<string>, file: ListedFile, found: Found)
    requires !IsFull(found)
    ensures VisitAll(owners, [file], found) == Visit(owners, file.owner, file.relative, found)
  {
    var files := [file];
    assert files[1..] == [];
    VisitNone(owners, Visit(owners, file.owner, file.relative, found));
  }

  lemma {:induction false} VisitInTwo(owners: set<string>, a: seq<ListedFile>, b: seq<ListedFile>, found: Found)
    ensures VisitAll(owners, a + b, found) == VisitAll(owners, b, VisitAll(owners, a, found))
  {
    hide Visit;
    if a == [] {
      assert a + b == b;
    } else if !IsFull(found) {
      assert (a + b)[1..] == a[1..] + b;
      VisitInTwo(owners, a[1..], b, Visit(owners, a[0].owner, a[0].relative, found));
    } else {
      FullStops(owners, b, found);
    }
  }

  lemma {:induction false} FilesOfConcat(owner: string, prefix: string, depth: nat, a: seq<Entry>, b: seq<Entry>)
    ensures FilesOf(owner, prefix, depth, a + b) == FilesOf(owner, prefix, depth, a) + FilesOf(owner, prefix, depth, b)
  {
    if a == [] {
      assert a + b == b;
    } else {
      assert (a + b)[1..] == a[1..] + b && (a + b)[0] == a[0];
      FilesOfConcat(owner, prefix, depth, a[1..], b);
      hide FilesOfEntry;
    }
  }

  lemma FilesOfSnoc(owner: string, prefix: string, depth: nat, entries: seq<Entry>, i: nat)
    requires i < |entries|
    ensures FilesOf(owner, prefix, depth, entries[..i + 1])
         == FilesOf(owner, prefix, depth, entries[..i]) + FilesOfEntry(owner, prefix, depth, entries[i])
  {
    assert entries[..i + 1] == entries[..i] + [entries[i]];
    FilesOfConcat(owner, prefix, depth, entries[..i], [entries[i]]);
    var one := [entries[i]];
    assert one[1..] == [];
    assert FilesOf(owner, prefix, depth, one)
         == FilesOfEntry(owner, prefix, depth, entries[i]) + FilesOf(owner, prefix, depth, one[1..]);
  }

  lemma DirectoryFiles(owner: string, prefix: string, depth: nat, name: string, below: seq<Entry>)
    ensures FilesOfEntry(owner, prefix, depth, Directory(name, below))
         == if depth + 1 > MAX_LIST_DEPTH then [] else FilesOf(owner, Relative(prefix, name), depth + 1, below)
  {
  }

  // ----- Truncation

  /** The accepted files of a listing, and the refused ones. */
  function Accepts(owners: set<string>, files: seq<ListedFile>): seq<ResourceRef> {
    if files == [] then []
    else
      var ref := ParseRef(owners, RESOURCE_SCHEME + files[0].owner + "/" + files[0].relative);
      (if ref.Some? then [ref.value] else []) + Accepts(owners, files[1..])
  }

  function Refusals(owners: set<string>, files: seq<ListedFile>): seq<string> {
    if files == [] then []
    else
      var ref := ParseRef(owners, RESOURCE_SCHEME + files[0].owner + "/" + files[0].relative);
      (if ref.Some? then [] else [files[0].owner + "/" + files[0].relative]) + Refusals(owners, files[1..])
  }

  /** How many files are visited before the listing, `room` short of full, is full. */
  function Cutoff(owners: set<string>, files: seq<ListedFile>, room: int): (count: nat)
    ensures count <= |files|
  {
    if files == [] || room <= 0 then 0
    else
      var ref := ParseRef(owners, RESOURCE_SCHEME + files[0].owner + "/" + files[0].relative);
      1 + Cutoff(owners, files[1..], if ref.Some? then room - 1 else room)
  }

  lemma {:induction false} VisitsUpToCutoff(owners: set<string>, files: seq<ListedFile>, found: Found)
    ensures var cut := Cutoff(owners, files, MAX_LIST_RESOURCES - |found.resources|);
      VisitAll(owners, files, found) == Found(found.resources + Accepts(owners, files[..cut]),
                                              found.skipped + Refusals(owners, files[..cut]))
  {
    hide ParseRef;
    var cut := Cutoff(owners, files, MAX_LIST_RESOURCES - |found.resources|);
    if files == [] || IsFull(found) {
      assert files[..0] == [];
      assert found.resources + [] == found.resources && found.skipped + [] == found.skipped;
    } else {
      var next := Visit(owners, files[0].owner, files[0].relative, found);
      VisitsUpToCutoff(owners, files[1..], next);
      assert files[..cut][1..] == files[1..][..cut - 1];
    }
  }

  lemma {:induction false} CutoffIsExact(owners: set<string>, files: seq<ListedFile>, room: nat)
    ensures var cut, all := Cutoff(owners, files, room), Accepts(owners, files);
      && Accepts(owners, files[..cut]) == (if |all| <= room then all else all[..room])
      && (cut < |files| ==> |Accepts(owners, files[..cut])| == room)
  {
    hide ParseRef;
    var cut := Cutoff(owners, files, room);
    if files == [] {
      assert files[..cut] == files;
    } else if room == 0 {
      assert files[..cut] == [];
    } else {
      var ref := ParseRef(owners, RESOURCE_SCHEME + files[0].owner + "/" + files[0].relative);
      CutoffIsExact(owners, files[1..], if ref.Some? then room - 1 else room);
      assert files[..cut][1..] == files[1..][..cut - 1];
    }
  }

  /** The listing is exactly the first 500 accepted files of the full depth-first order, across all owners together, and
      every refused file visited before the cutoff is reported. */
  lemma ListingIsPrefix(owners: set<string>, roots: map<string, seq<Entry>>, targets: seq<string>)
    ensures var files := AllFiles(owners, roots, targets);
      var found, all := VisitAll(owners, files, Found([], [])), Accepts(owners, files);
      var cut := Cutoff(owners, files, 500);
      && found.resources == (if |all| <= 500 then all else all[..500])
      && found.skipped == Refusals(owners, files[..cut])
      && (cut < |files| ==> |found.resources| == 500)
  {
    var files := AllFiles(owners, roots, targets);
    VisitsUpToCutoff(owners, files, Found([], []));
    CutoffIsExact(owners, files, MAX_LIST_RESOURCES);
    var cut := Cutoff(owners, files, MAX_LIST_RESOURCES);
    hide AllFiles, Accepts, Refusals, Cutoff, VisitAll;
    assert [] + Accepts(owners, files[..cut]) == Accepts(owners, files[..cut]);
    assert [] + Refusals(owners, files[..cut]) == Refusals(owners, files[..cut]);
  }

  // ----- No duplicates

  /** A file system's directory: names without slashes, each once. */
  predicate Orderly(entries: seq<Entry>) {
    && (forall i | 0 <= i < |entries| :: entries[i].name != "" && '/' !in entries[i].name)
    && (forall i, j | 0 <= i < j < |entries| :: entries[i].name != entries[j].name)
    && (forall i | 0 <= i < |entries| && entries[i].Directory? :: Orderly(entries[i].entries))
  }

  /** `path` begins with the entry's name, as a whole segment, below `prefix`. */
  predicate Through(prefix: string, name: string, path: string) {
    path == Relative(prefix, name) || Relative(prefix, name) + "/" <= path
  }

  predicate AllThrough(owner: string, prefix: string, name: string, files: seq<ListedFile>) {
    forall i | 0 <= i < |files| :: files[i].owner == owner && Through(prefix, name, files[i].relative)
  }

  lemma ThroughDeeper(prefix: string, name: string, below: string, path: string)
    requires name != "" && Through(Relative(prefix, name), below, path)
    ensures Through(prefix, name, path)
  {
    var base := Relative(prefix, name);
    assert base != "";
    assert Relative(base, below) == base + "/" + below;
    var longer := base + "/" + below;
    assert base + "/" <= longer;
    if longer + "/" <= path {
      assert base + "/" <= longer <= path;
    }
  }

  lemma {:induction false} EntryFilesGoThrough(owner: string, prefix: string, depth: nat, entry: Entry)
    requires entry.name != "" && (entry.Directory? ==> Orderly(entry.entries))
    ensures AllThrough(owner, prefix, entry.name, FilesOfEntry(owner, prefix, depth, entry))
    decreases entry, 0
  {
    if entry.Directory? {
      FilesGoThrough(owner, prefix, depth, entry.name, entry.entries);
    }
  }

  lemma {:induction false} FilesGoThrough(owner: string, prefix: string, depth: nat, name: string, entries: seq<Entry>)
    requires name != "" && Orderly(entries)
    ensures AllThrough(owner, prefix, name, FilesOf(owner, Relative(prefix, name), depth + 1, entries))
    decreases entries
  {
    hide Through, Relative;
    if entries != [] {
      OrderlyTail(entries);
      FilesGoThrough(owner, prefix, depth, name, entries[1..]);
      EntryFilesGoThrough(owner, Relative(prefix, name), depth + 1, entries[0]);
      var files := FilesOfEntry(owner, Relative(prefix, name), depth + 1, entries[0]);
      forall i | 0 <= i < |files|
        ensures files[i].owner == owner && Through(prefix, name, files[i].relative)
      {
        ThroughDeeper(prefix, name, entries[0].name, files[i].relative);
      }
    }
  }

  lemma OrderlyTail(entries: seq<Entry>)
    requires Orderly(entries) && entries != []
    ensures Orderly(entries[1..])
  {
  }

  /** Two different names lead to different paths. */
  lemma PathsPart(prefix: string, a: string, b: string, path: string)
    requires '/' !in a && '/' !in b && Through(prefix, a, path) && Through(prefix, b, path)
    ensures a == b
  {
    var root := if prefix == "" then "" else prefix + "/";
    assert Relative(prefix, a) == root + a && Relative(prefix, b) == root + b;
    var rest := path[|root|..];
    assert path == root + rest;
    SegmentOf(root, a, path);
    SegmentOf(root, b, path);
  }

  lemma SegmentOf(root: string, name: string, path: string)
    requires '/' !in name && (path == root + name || root + name + "/" <= path) && |root| <= |path|
    ensures var rest, i := path[|root|..], IndexOf(path[|root|..], '/'); name == if i < 0 then rest else rest[..i]
  {
    var rest := path[|root|..];
    if path == root + name {
      assert rest == name;
    } else {
      var tail := path[|root| + |name| + 1..];
      assert path == root + name + "/" + tail;
      assert rest == name + "/" + tail;
      FirstSeparator(name, '/', tail);
      assert rest[..|name|] == name;
    }
  }

  predicate Distinct(files: seq<ListedFile>) {
    forall i, j | 0 <= i < j < |files| :: files[i] != files[j]
  }

  predicate NoneThrough(prefix: string, name: string, files: seq<ListedFile>) {
    forall i | 0 <= i < |files| :: !Through(prefix, name, files[i].relative)
  }

  lemma {:induction false} OthersGoElsewhere(owner: string, prefix: string, depth: nat, name: string,
                                             entries: seq<Entry>)
    requires Orderly(entries) && '/' !in name && forall i | 0 <= i < |entries| :: entries[i].name != name
    ensures NoneThrough(prefix, name, FilesOf(owner, prefix, depth, entries))
  {
    hide Through;
    if entries != [] {
      OrderlyTail(entries);
      OthersGoElsewhere(owner, prefix, depth, name, entries[1..]);
      EntryFilesGoThrough(owner, prefix, depth, entries[0]);
      var files := FilesOfEntry(owner, prefix, depth, entries[0]);
      forall i | 0 <= i < |files|
        ensures !Through(prefix, name, files[i].relative)
      {
        if Through(prefix, name, files[i].relative) {
          PathsPart(prefix, entries[0].name, name, files[i].relative);
        }
      }
    }
  }

  lemma {:induction false} FilesAreDistinct(owner: string, prefix: string, depth: nat, entries: seq<Entry>)
    requires Orderly(entries)
    ensures Distinct(FilesOf(owner, prefix, depth, entries))
    decreases entries
  {
    hide Through, Relative;
    if entries != [] {
      var first := entries[0];
      OrderlyTail(entries);
      FilesAreDistinct(owner, prefix, depth, entries[1..]);
      if first.Directory? {
        FilesAreDistinct(owner, Relative(prefix, first.name), depth + 1, first.entries);
        assert Distinct(FilesUnder(owner, Relative(prefix, first.name), depth + 1, first.entries));
      }
      assert Distinct(FilesOfEntry(owner, prefix, depth, first));
      EntryFilesGoThrough(owner, prefix, depth, first);
      OthersGoElsewhere(owner, prefix, depth, first.name, entries[1..]);
      DistinctConcat(owner, prefix, first.name, FilesOfEntry(owner, prefix, depth, first),
                     FilesOf(owner, prefix, depth, entries[1..]));
    }
  }

  lemma DistinctConcat(owner: string, prefix: string, name: string, a: seq<ListedFile>, b: seq<ListedFile>)
    requires Distinct(a) && Distinct(b) && AllThrough(owner, prefix, name, a) && NoneThrough(prefix, name, b)
    ensures Distinct(a + b)
  {
    hide Through;
    forall i, j | 0 <= i < j < |a + b|
      ensures (a + b)[i] != (a + b)[j]
    {
      if i < |a| <= j {
        assert Through(prefix, name, a[i].relative) && !Through(prefix, name, b[j - |a|].relative);
      }
    }
  }

  /** One owner's full listing names no file twice. */
  lemma ListingHasNoDuplicates(owner: string, entries: seq<Entry>)
    requires Orderly(entries)
    ensures Distinct(FilesUnder(owner, "", 0, entries))
  {
    FilesAreDistinct(owner, "", 0, entries);
  }

  lemma {:induction false} FilesHaveOwner(owner: string, prefix: string, depth: nat, entries: seq<Entry>, i: nat)
    requires i < |FilesOf(owner, prefix, depth, entries)|
    ensures FilesOf(owner, prefix, depth, entries)[i].owner == owner
    decreases entries
  {
    var first := FilesOfEntry(owner, prefix, depth, entries[0]);
    if i >= |first| {
      FilesHaveOwner(owner, prefix, depth, entries[1..], i - |first|);
    } else if entries[0].Directory? {
      DirectoryFiles(owner, prefix, depth, entries[0].name, entries[0].entries);
      FilesHaveOwner(owner, Relative(prefix, entries[0].name), depth + 1, entries[0].entries, i);
    }
  }

  predicate OwnedBy(files: seq<ListedFile>, owners: seq<string>) {
    forall i | 0 <= i < |files| :: files[i].owner in owners
  }

  lemma OwnerFilesFacts(owners: set<string>, roots: map<string, seq<Entry>>, owner: string)
    requires owner in roots ==> Orderly(roots[owner])
    ensures var files := OwnerFiles(owners, roots, owner);
      Distinct(files) && forall i | 0 <= i < |files| :: files[i].owner == owner
  {
    hide FilesOf, Orderly;
    if owner in owners && owner in roots {
      ListingHasNoDuplicates(owner, roots[owner]);
      var files := FilesOf(owner, "", 0, roots[owner]);
      forall i | 0 <= i < |files|
        ensures files[i].owner == owner
      {
        FilesHaveOwner(owner, "", 0, roots[owner], i);
      }
    }
  }

  /** Nor does the listing of several distinct owners together. */
  lemma {:induction false} AllFilesAreDistinct(owners: set<string>, roots: map<string, seq<Entry>>,
                                               targets: seq<string>)
    requires forall i, j | 0 <= i < j < |targets| :: targets[i] != targets[j]
    requires forall owner | owner in roots :: Orderly(roots[owner])
    ensures Distinct(AllFiles(owners, roots, targets)) && OwnedBy(AllFiles(owners, roots, targets), targets)
  {
    hide Orderly, OwnerFiles;
    if targets != [] {
      var init, last := targets[..|targets| - 1], targets[|targets| - 1];
      AllFilesAreDistinct(owners, roots, init);
      OwnerFilesFacts(owners, roots, last);
      assert targets == init + [last];
      assert last !in init;
    }
  }

  lemma {:induction false} AcceptsComeFrom(owners: set<string>, files: seq<ListedFile>, ref: ResourceRef)
    requires ref in Accepts(owners, files) && files != []
    ensures exists i | 0 <= i < |files| :: ref.uri == RESOURCE_SCHEME + files[i].owner + "/" + files[i].relative
  {
    hide *;
    FirstAccept(owners, files);
    var first := ParseRef(owners, RESOURCE_SCHEME + files[0].owner + "/" + files[0].relative);
    if !(first.Some? && ref == first.value) {
      FirstAccept(owners, files[1..]);
      AcceptsComeFrom(owners, files[1..], ref);
      var i :| 0 <= i < |files[1..]| && ref.uri == RESOURCE_SCHEME + files[1..][i].owner + "/" + files[1..][i].relative;
      assert files[i + 1] == files[1..][i];
    }
  }

  /** Listed resources are pairwise distinct. */
  lemma {:induction false} AcceptsAreDistinct(owners: set<string>, files: seq<ListedFile>, i: nat, j: nat)
    requires Distinct(files) && forall k | 0 <= k < |files| :: '/' !in files[k].owner
    requires i < j < |Accepts(owners, files)|
    ensures Accepts(owners, files)[i] != Accepts(owners, files)[j]
  {
    hide *;
    FirstAccept(owners, files);
    DistinctTail(files);
    var first := ParseRef(owners, RESOURCE_SCHEME + files[0].owner + "/" + files[0].relative);
    if first.None? {
      AcceptsAreDistinct(owners, files[1..], i, j);
    } else if i > 0 {
      AcceptsAreDistinct(owners, files[1..], i - 1, j - 1);
    } else {
      var other := Accepts(owners, files[1..])[j - 1];
      FirstAccept(owners, files[1..]);
      AcceptsComeFrom(owners, files[1..], other);
      var k :|
        0 <= k < |files[1..]| && other.uri == RESOURCE_SCHEME + files[1..][k].owner + "/" + files[1..][k].relative;
      assert files[1..][k] == files[k + 1] && files[0] != files[k + 1];
      if other == first.value {
        SameUriSameFile(files[0], files[k + 1]);
      }
    }
  }

  /** Arranging a tree changes no name. */
  lemma {:induction false} ArrangedIsOrderly(order: Order, entries: seq<Entry>)
    requires Orderly(entries)
    ensures Orderly(Arrange(order, entries))
    decreases entries
  {
    if entries != [] {
      var first := ArrangeEntry(order, entries[0]);
      OrderlyTail(entries);
      ArrangedIsOrderly(order, entries[1..]);
      if entries[0].Directory? {
        ArrangedIsOrderly(order, entries[0].entries);
      }
      ArrangedNames(order, entries[1..], entries[0].name);
      InsertIsOrderly(order, first, Arrange(order, entries[1..]));
    }
  }

  lemma {:induction false} ArrangedNames(order: Order, entries: seq<Entry>, name: string)
    requires forall i | 0 <= i < |entries| :: entries[i].name != name
    ensures forall i | 0 <= i < |Arrange(order, entries)| :: Arrange(order, entries)[i].name != name
  {
    if entries != [] {
      ArrangedNames(order, entries[1..], name);
      var first, rest := ArrangeEntry(order, entries[0]), Arrange(order, entries[1..]);
      forall i | 0 <= i < |Insert(order, first, rest)|
        ensures Insert(order, first, rest)[i].name != name
      {
        var e := Insert(order, first, rest)[i];
        InsertMembers(order, first, rest, e);
      }
      hide ArrangeEntry;
    }
  }

  lemma {:induction false} InsertIsOrderly(order: Order, entry: Entry, sorted: seq<Entry>)
    requires Orderly(sorted) && entry.name != "" && '/' !in entry.name && (entry.Directory? ==> Orderly(entry.entries))
    requires forall i | 0 <= i < |sorted| :: sorted[i].name != entry.name
    ensures Orderly(Insert(order, entry, sorted))
  {
    if sorted != [] && !order(entry.name, sorted[0].name) {
      OrderlyTail(sorted);
      InsertIsOrderly(order, entry, sorted[1..]);
      var rest := Insert(order, entry, sorted[1..]);
      forall i | 0 <= i < |rest|
        ensures rest[i].name != sorted[0].name
      {
        InsertMembers(order, entry, sorted[1..], rest[i]);
      }
    }
  }

  /** No resource is listed twice, across all the requested owners. */
  lemma NothingIsListedTwice(order: Order, owners: set<string>, roots: map<string, seq<Entry>>, targets: seq<string>)
    requires forall i, j | 0 <= i < j < |targets| :: targets[i] != targets[j]
    requires forall i | 0 <= i < |targets| :: '/' !in targets[i]
    requires forall owner | owner in roots :: Orderly(roots[owner])
    ensures var files := AllFiles(owners, ArrangeAll(order, roots), targets);
      var listed := VisitAll(owners, files, Found([], [])).resources;
      forall i, j | 0 <= i < j < |listed| :: listed[i] != listed[j]
  {
    var arranged := ArrangeAll(order, roots);
    forall owner | owner in arranged
      ensures Orderly(arranged[owner])
    {
      ArrangedIsOrderly(order, roots[owner]);
    }
    hide *;
    AllFilesAreDistinct(owners, arranged, targets);
    ListingIsPrefix(owners, arranged, targets);
    var files := AllFiles(owners, arranged, targets);
    OwnersAreSlashFree(files, targets);
    var all := Accepts(owners, files);
    forall i, j | 0 <= i < j < |all|
      ensures all[i] != all[j]
    {
      AcceptsAreDistinct(owners, files, i, j);
    }
  }

  lemma OwnersAreSlashFree(files: seq<ListedFile>, targets: seq<string>)
    requires OwnedBy(files, targets) && forall i | 0 <= i < |targets| :: '/' !in targets[i]
    ensures forall k | 0 <= k < |files| :: '/' !in files[k].owner
  {
  }

  lemma DistinctTail(files: seq<ListedFile>)
    requires files != [] && Distinct(files)
    ensures Distinct(files[1..]) && forall k | 1 <= k < |files| :: files[0] != files[k]
  {
  }

  lemma FirstAccept(owners: set<string>, files: seq<ListedFile>)
    ensures files == [] ==> Accepts(owners, files) == []
    ensures files != [] ==>
      var ref := ParseRef(owners, RESOURCE_SCHEME + files[0].owner + "/" + files[0].relative);
      && Accepts(owners, files) == (if ref.Some? then [ref.value] else []) + Accepts(owners, files[1..])
      && (ref.Some? ==> ref.value.uri == RESOURCE_SCHEME + files[0].owner + "/" + files[0].relative)
  {
    if files != [] {
      var uri := RESOURCE_SCHEME + files[0].owner + "/" + files[0].relative;
      hide ParseRef, Accepted;
      if ParseRef(owners, uri).Some? {
        ParsedIsAccepted(owners, uri);
      }
    }
  }

  lemma SameUriSameFile(a: ListedFile, b: ListedFile)
    requires '/' !in a.owner && '/' !in b.owner
    requires RESOURCE_SCHEME + a.owner + "/" + a.relative == RESOURCE_SCHEME + b.owner + "/" + b.relative
    ensures a == b
  {
    var whole := RESOURCE_SCHEME + a.owner + "/" + a.relative;
    assert whole == RESOURCE_SCHEME + (a.owner + "/" + a.relative)
      && whole == RESOURCE_SCHEME + (b.owner + "/" + b.relative);
    assert whole[|RESOURCE_SCHEME|..] == a.owner + "/" + a.relative;
    OwnerPrefixIsUnique(a.owner, b.owner, a.relative, b.relative);
  }

  // ----- What the full listing contains

  /** The tree has a regular file at this path of names. */
  predicate ContainsFile(entries: seq<Entry>, path: seq<string>)
    decreases |path|
  {
    && path != []
    && exists i | 0 <= i < |entries| ::
         if |path| == 1 then entries[i] == File(path[0])
         else entries[i].Directory? && entries[i].name == path[0] && ContainsFile(entries[i].entries, path[1..])
  }

  function PathBelowPrefix(prefix: string, path: seq<string>): string
    requires path != []
    decreases |path|
  {
    if |path| == 1 then Relative(prefix, path[0]) else PathBelowPrefix(Relative(prefix, path[0]), path[1..])
  }

  lemma {:induction false} EntryIsListed(owner: string, prefix: string, depth: nat, entries: seq<Entry>, i: nat,
                                         file: ListedFile)
    requires i < |entries| && file in FilesOfEntry(owner, prefix, depth, entries[i])
    ensures file in FilesOf(owner, prefix, depth, entries)
  {
    hide FilesOfEntry;
    if i > 0 {
      EntryIsListed(owner, prefix, depth, entries[1..], i - 1, file);
    }
  }

  /** Every regular file below at most eight nested directories is in the full listing. */
  lemma {:induction false} ListingIsComplete(owner: string, prefix: string, depth: nat, entries: seq<Entry>,
                                             path: seq<string>)
    requires ContainsFile(entries, path) && depth + |path| <= MAX_LIST_DEPTH + 1
    ensures Listed(owner, PathBelowPrefix(prefix, path)) in FilesOf(owner, prefix, depth, entries)
    decreases |path|
  {
    hide FilesOf, Relative;
    var file := Listed(owner, PathBelowPrefix(prefix, path));
    var i :| 0 <= i < |entries| &&
      if |path| == 1 then entries[i] == File(path[0])
      else entries[i].Directory? && entries[i].name == path[0] && ContainsFile(entries[i].entries, path[1..]);
    if |path| > 1 {
      ListingIsComplete(owner, Relative(prefix, path[0]), depth + 1, entries[i].entries, path[1..]);
    }
    EntryIsListed(owner, prefix, depth, entries, i, file);
  }

  /** And nothing else is. */
  lemma {:induction false} ListingIsSound(owner: string, prefix: string, depth: nat, entries: seq<Entry>,
                                          file: ListedFile) returns (path: seq<string>)
    requires depth <= MAX_LIST_DEPTH && file in FilesOf(owner, prefix, depth, entries)
    ensures ContainsFile(entries, path) && depth + |path| <= MAX_LIST_DEPTH + 1
    ensures file == Listed(owner, PathBelowPrefix(prefix, path))
    decreases entries
  {
    hide Relative;
    var first := FilesOfEntry(owner, prefix, depth, entries[0]);
    if file in first {
      match entries[0]
      case File(name) => path := [name];
      case Directory(name, below) =>
        DirectoryFiles(owner, prefix, depth, name, below);
        var rest := ListingIsSound(owner, Relative(prefix, name), depth + 1, below, file);
        path := [name] + rest;
        assert path[1..] == rest;
        assert ContainsFile(entries[0].entries, path[1..]);
    } else {
      path := ListingIsSound(owner, prefix, depth, entries[1..], file);
      FoundFurtherOn(entries, path);
    }
  }

  lemma FoundFurtherOn(entries: seq<Entry>, path: seq<string>)
    requires entries != [] && ContainsFile(entries[1..], path)
    ensures ContainsFile(entries, path)
  {
    var i :| 0 <= i < |entries[1..]| &&
      if |path| == 1 then entries[1..][i] == File(path[0])
      else && entries[1..][i].Directory? && entries[1..][i].name == path[0]
           && ContainsFile(entries[1..][i].entries, path[1..]);
    assert entries[1..][i] == entries[i + 1];
  }

  /** Arranging a tree adds no file and loses none. */
  lemma {:induction false} ArrangedContains(order: Order, entries: seq<Entry>, path: seq<string>)
    ensures ContainsFile(Arrange(order, entries), path) <==> ContainsFile(entries, path)
    decreases |path|
  {
    if path != [] {
      ArrangedIsSorted(order, entries);
      var sorted := SortByName(order, entries);
      forall i | 0 <= i < |entries|
        ensures HasFile(ArrangeEntry(order, entries[i]), path) <==> HasFile(entries[i], path)
      {
        if |path| > 1 && entries[i].Directory? {
          ArrangedContains(order, entries[i].entries, path[1..]);
        }
      }
      ContainsByEntry(entries, path);
      ContainsByEntry(Arrange(order, entries), path);
      hide Arrange, ArrangeEntry, ContainsFile, HasFile, SortByName;
      SameFiles(order, entries, sorted, path);
    }
  }

  /** The entry is, or holds, the file at this path. */
  predicate HasFile(entry: Entry, path: seq<string>)
    requires path != []
  {
    if |path| == 1 then entry == File(path[0])
    else entry.Directory? && entry.name == path[0] && ContainsFile(entry.entries, path[1..])
  }

  lemma ContainsByEntry(entries: seq<Entry>, path: seq<string>)
    requires path != []
    ensures ContainsFile(entries, path) <==> exists i | 0 <= i < |entries| :: HasFile(entries[i], path)
  {
    hide Insert;
    if ContainsFile(entries, path) {
      var i :| 0 <= i < |entries| &&
        if |path| == 1 then entries[i] == File(path[0])
        else entries[i].Directory? && entries[i].name == path[0] && ContainsFile(entries[i].entries, path[1..]);
      assert HasFile(entries[i], path);
    }
  }

  lemma SameFiles(order: Order, entries: seq<Entry>, sorted: seq<Entry>, path: seq<string>)
    requires path != [] && sorted == SortByName(order, entries)
    requires forall i | 0 <= i < |entries| ::
        HasFile(ArrangeEntry(order, entries[i]), path) <==> HasFile(entries[i], path)
    ensures (exists i | 0 <= i < |sorted| :: HasFile(ArrangeEach(order, sorted)[i], path))
       <==> exists i | 0 <= i < |entries| :: HasFile(entries[i], path)
  {
    hide HasFile, ArrangeEntry, SortByName;
    var arranged := ArrangeEach(order, sorted);
    if i :| 0 <= i < |sorted| && HasFile(arranged[i], path) {
      SortMembers(order, entries, sorted[i]);
      var j :| 0 <= j < |entries| && entries[j] == sorted[i];
      assert HasFile(entries[j], path);
    }
    if j :| 0 <= j < |entries| && HasFile(entries[j], path) {
      SortMembers(order, entries, entries[j]);
      var i :| 0 <= i < |sorted| && sorted[i] == entries[j];
      assert HasFile(arranged[i], path);
    }
  }

  /** What an owner's full listing contains: exactly the regular files on disk below at most eight nested
      directories. */
  lemma DiskIsListed(order: Order, owner: string, entries: seq<Entry>, file: ListedFile)
    ensures file in FilesUnder(owner, "", 0, Arrange(order, entries)) <==>
        exists path: seq<string> ::
            && path != [] && |path| <= 8 + 1 && ContainsFile(entries, path)
            && file == Listed(owner, PathBelowPrefix("", path))
  {
    hide FilesOf, ContainsFile, Arrange, PathBelowPrefix;
    var arranged := Arrange(order, entries);
    if file in FilesUnder(owner, "", 0, arranged) {
      var path := ListingIsSound(owner, "", 0, arranged, file);
      ArrangedContains(order, entries, path);
      PathsAreNotEmpty(arranged, path);
    }
    if path: seq<string> :|
      && path != [] && |path| <= MAX_LIST_DEPTH + 1 && ContainsFile(entries, path)
      && file == Listed(owner, PathBelowPrefix("", path))
    {
      ArrangedContains(order, entries, path);
      ListingIsComplete(owner, "", 0, arranged, path);
    }
  }

  lemma PathsAreNotEmpty(entries: seq<Entry>, path: seq<string>)
    requires ContainsFile(entries, path)
    ensures path != []
  {
  }
}

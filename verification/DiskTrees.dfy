// Output trees on disk, and what collecting one yields (pliego-artifact, lib.rs).
module DiskTrees {
  import opened Prelude
  import opened Text
  import opened Namespaces
  import opened Receipts

  datatype Node =
    | File(content: Bytes, links: nat)
    | Directory(entries: seq<Dirent>)
    | Symlink
    | Special

  // A directory entry; utf8 says whether its name is text at all.
  datatype Dirent = Dirent(name: string, utf8: bool, node: Node)

  // What every file system guarantees: names are not empty, hold no '/', and differ within a directory.
  predicate FileSystem(entries: seq<Dirent>)
    decreases entries
  {
    && (forall i, j :: 0 <= i < j < |entries| ==> entries[i].name != entries[j].name)
    && forall i :: 0 <= i < |entries| ==> EntryWellNamed(entries[i])
  }

  predicate EntryWellNamed(e: Dirent)
    decreases e
  {
    && e.name != "" && '/' !in e.name
    && (e.node.Directory? ==> FileSystem(e.node.entries))
  }

  // ---- Collecting ------------------------------------------------------------------------------------

  // The layout: paths found, entries seen, components and bytes accounted for, and whether all was well.
  datatype Listing = Listing(
    files: set<string>, directories: set<string>, entries: nat, components: nat, pathBytes: nat, ok: bool)

  const EMPTY_LISTING := Listing({}, {}, 0, 0, 0, true)

  function Merge(a: Listing, b: Listing): Listing {
    Listing(
      a.files + b.files, a.directories + b.directories,
      a.entries + b.entries, a.components + b.components, a.pathBytes + b.pathBytes,
      a.ok && b.ok && a.files !! b.files && a.directories !! b.directories)
  }

  lemma MergeAssociative(a: Listing, b: Listing, c: Listing)
    ensures Merge(Merge(a, b), c) == Merge(a, Merge(b, c))
  {
    assert (a.files + b.files) + c.files == a.files + (b.files + c.files);
    assert (a.directories + b.directories) + c.directories == a.directories + (b.directories + c.directories);
  }

  lemma MergeNothing(a: Listing)
    ensures Merge(a, EMPTY_LISTING) == a && Merge(EMPTY_LISTING, a) == a
  {
  }

  predicate WithinLimits(l: Listing) {
    l.entries <= MAX_ARTIFACT_FILES && l.components <= MAX_NAMESPACE_COMPONENTS && l.pathBytes <= MAX_NAMESPACE_PREFIX_BYTES
  }

  predicate Fine(l: Listing) {
    l.ok && WithinLimits(l)
  }

  const BAD_LISTING := Listing({}, {}, 1, 0, 0, false)

  function OneFile(path: string): Listing {
    if path == BUILD_LEDGER_NAME then Listing({}, {}, 1, 0, 0, true)
    else Listing({path}, {}, 1, |Split(path)|, |path|, true)
  }

  function OneDirectory(path: string): Listing {
    Listing({}, {path}, 1, |Split(path)|, |path|, true)
  }

  // at: the components of the directory that holds the entries.
  function List(parse: Parser, at: seq<string>, entries: seq<Dirent>): Listing
    decreases entries
  {
    if entries == [] then EMPTY_LISTING
    else Merge(ListEntry(parse, at, entries[0]), List(parse, at, entries[1..]))
  }

  function ListEntry(parse: Parser, at: seq<string>, e: Dirent): Listing
    decreases e
  {
    var path := Join(at + [e.name]);
    if !e.utf8 || !Canonical(parse, path) then BAD_LISTING
    else
      match e.node
      case File(_, _) => OneFile(path)
      case Directory(entries) => Merge(OneDirectory(path), List(parse, at + [e.name], entries))
      case _ => BAD_LISTING
  }

  // ---- Looking up ------------------------------------------------------------------------------------

  // Opens one component after the other; None where that fails.
  function Lookup(entries: seq<Dirent>, parts: seq<string>): Option<Dirent>
    requires parts != []
    decreases entries
  {
    if entries == [] then None
    else if entries[0].name == parts[0] then LookupIn(entries[0], parts)
    else Lookup(entries[1..], parts)
  }

  function LookupIn(e: Dirent, parts: seq<string>): Option<Dirent>
    requires parts != []
    decreases e
  {
    if |parts| == 1 then Some(e)
    else if e.node.Directory? then Lookup(e.node.entries, parts[1..])
    else None
  }

  predicate Names(parts: seq<string>) {
    forall i :: 0 <= i < |parts| ==> parts[i] != "" && '/' !in parts[i]
  }

  lemma NamesAppend(at: seq<string>, parts: seq<string>)
    requires Names(at) && Names(parts)
    ensures Names(at + parts)
  {
  }

  lemma SplitPath(at: seq<string>, parts: seq<string>)
    requires Names(at) && Names(parts) && parts != []
    ensures Split(Join(at + parts)) == at + parts && Split(Join(at + parts))[|at|..] == parts
  {
    SplitJoin(at + parts);
  }

  lemma {:induction false} FoundName(entries: seq<Dirent>, parts: seq<string>)
    requires parts != [] && FileSystem(entries) && Lookup(entries, parts).Some?
    ensures Names(parts)
    ensures exists i :: 0 <= i < |entries| && entries[i].name == parts[0]
    decreases entries, 1
  {
    var e := entries[0];
    if e.name == parts[0] {
      assert EntryWellNamed(e);
      if |parts| > 1 {
        FoundName(e.node.entries, parts[1..]);
      }
    } else {
      RestIsFileSystem(entries);
      FoundName(entries[1..], parts);
      var i :| 0 <= i < |entries[1..]| && entries[1..][i].name == parts[0];
      assert entries[i + 1].name == parts[0];
    }
  }

  lemma RestIsFileSystem(entries: seq<Dirent>)
    requires FileSystem(entries) && entries != []
    ensures FileSystem(entries[1..]) && EntryWellNamed(entries[0])
    ensures forall parts :: parts != [] && Lookup(entries[1..], parts).Some? ==> parts[0] != entries[0].name
    decreases entries, 0
  {
    var rest := entries[1..];
    forall i | 0 <= i < |rest| ensures EntryWellNamed(rest[i]) && rest[i].name != entries[0].name {
      assert rest[i] == entries[i + 1];
    }
    forall i, j | 0 <= i < j < |rest| ensures rest[i].name != rest[j].name {
      assert rest[i] == entries[i + 1] && rest[j] == entries[j + 1];
    }
    forall parts | parts != [] && Lookup(rest, parts).Some? ensures parts[0] != entries[0].name {
      FoundName(rest, parts);
    }
  }

  // ---- What is listed is what can be looked up -------------------------------------------------------

  predicate Kind(node: Node, file: bool) {
    if file then node.File? else node.Directory?
  }

  function Listed(l: Listing, file: bool): set<string> {
    if file then l.files else l.directories
  }

  // A listed path can be looked up, and is of its kind.
  lemma {:induction false} ListedIsFound(parse: Parser, at: seq<string>, entries: seq<Dirent>, path: string, file: bool)
    returns (parts: seq<string>)
    requires FileSystem(entries) && path in Listed(List(parse, at, entries), file)
    ensures parts != [] && path == Join(at + parts) && (file ==> path != BUILD_LEDGER_NAME)
    ensures Lookup(entries, parts).Some? && Kind(Lookup(entries, parts).value.node, file)
    decreases entries
  {
    RestIsFileSystem(entries);
    if path in Listed(ListEntry(parse, at, entries[0]), file) {
      parts := EntryIsFound(parse, at, entries[0], path, file);
    } else {
      parts := ListedIsFound(parse, at, entries[1..], path, file);
    }
  }

  lemma {:induction false} EntryIsFound(parse: Parser, at: seq<string>, e: Dirent, path: string, file: bool)
    returns (parts: seq<string>)
    requires EntryWellNamed(e) && path in Listed(ListEntry(parse, at, e), file)
    ensures parts != [] && parts[0] == e.name && path == Join(at + parts) && (file ==> path != BUILD_LEDGER_NAME)
    ensures LookupIn(e, parts).Some? && Kind(LookupIn(e, parts).value.node, file)
    decreases e
  {
    var here := Join(at + [e.name]);
    if e.node.File? || (!file && path == here) {
      parts := [e.name];
    } else {
      var below := ListedIsFound(parse, at + [e.name], e.node.entries, path, file);
      parts := [e.name] + below;
      assert at + [e.name] + below == at + parts && parts[1..] == below;
    }
  }

  // In a good listing everything that can be looked up is listed, and is a canonical file or directory.
  predicate Regular(parse: Parser, path: string, e: Dirent) {
    e.utf8 && Canonical(parse, path) && (e.node.File? || e.node.Directory?)
  }

  predicate Present(l: Listing, path: string, e: Dirent) {
    && (e.node.File? && path != BUILD_LEDGER_NAME ==> path in l.files)
    && (e.node.Directory? ==> path in l.directories)
  }

  lemma {:induction false} FoundIsListed(parse: Parser, at: seq<string>, entries: seq<Dirent>, parts: seq<string>)
    requires List(parse, at, entries).ok && parts != [] && Lookup(entries, parts).Some?
    ensures Regular(parse, Join(at + parts), Lookup(entries, parts).value)
    ensures Present(List(parse, at, entries), Join(at + parts), Lookup(entries, parts).value)
    decreases entries
  {
    if entries[0].name == parts[0] {
      FoundInEntry(parse, at, entries[0], parts);
    } else {
      FoundIsListed(parse, at, entries[1..], parts);
    }
  }

  lemma {:induction false} FoundInEntry(parse: Parser, at: seq<string>, e: Dirent, parts: seq<string>)
    requires ListEntry(parse, at, e).ok && parts != [] && parts[0] == e.name && LookupIn(e, parts).Some?
    ensures Regular(parse, Join(at + parts), LookupIn(e, parts).value)
    ensures Present(ListEntry(parse, at, e), Join(at + parts), LookupIn(e, parts).value)
    decreases e
  {
    if |parts| == 1 {
      assert parts == [e.name];
      ListsItself(parse, at, e);
    } else {
      var here, below := at + [e.name], parts[1..];
      assert here + below == at + parts;
      FoundIsListed(parse, here, e.node.entries, below);
      ListsBelow(parse, at, e, Join(here + below));
    }
  }

  lemma ListsItself(parse: Parser, at: seq<string>, e: Dirent)
    requires ListEntry(parse, at, e).ok
    ensures Regular(parse, Join(at + [e.name]), e)
    ensures Present(ListEntry(parse, at, e), Join(at + [e.name]), e)
  {
  }

  lemma ListsBelow(parse: Parser, at: seq<string>, e: Dirent, path: string)
    requires ListEntry(parse, at, e).ok && e.node.Directory?
    ensures List(parse, at + [e.name], e.node.entries).ok
    ensures path in List(parse, at + [e.name], e.node.entries).files ==> path in ListEntry(parse, at, e).files
    ensures path in List(parse, at + [e.name], e.node.entries).directories ==> path in ListEntry(parse, at, e).directories
  {
  }

  ghost predicate AllRegular(parse: Parser, at: seq<string>, entries: seq<Dirent>) {
    forall parts :: parts != [] && Lookup(entries, parts).Some? ==>
      Regular(parse, Join(at + parts), Lookup(entries, parts).value)
  }

  ghost predicate EntryRegular(parse: Parser, at: seq<string>, e: Dirent) {
    forall parts :: parts != [] && parts[0] == e.name && LookupIn(e, parts).Some? ==>
      Regular(parse, Join(at + parts), LookupIn(e, parts).value)
  }

  // The listing is good exactly when every entry of the tree is a canonical file or directory.
  lemma {:induction false} ListOkIff(parse: Parser, at: seq<string>, entries: seq<Dirent>)
    requires FileSystem(entries) && Names(at)
    ensures List(parse, at, entries).ok <==> AllRegular(parse, at, entries)
    decreases entries
  {
    if List(parse, at, entries).ok {
      forall parts | parts != [] && Lookup(entries, parts).Some?
        ensures Regular(parse, Join(at + parts), Lookup(entries, parts).value)
      {
        FoundIsListed(parse, at, entries, parts);
      }
    }
    if AllRegular(parse, at, entries) && entries != [] {
      RestIsFileSystem(entries);
      RegularRest(parse, at, entries);
      ListOkIff(parse, at, entries[1..]);
      EntryOk(parse, at, entries[0]);
      Disjoint(parse, at, entries);
    }
  }

  lemma RegularRest(parse: Parser, at: seq<string>, entries: seq<Dirent>)
    requires FileSystem(entries) && entries != [] && AllRegular(parse, at, entries)
    ensures AllRegular(parse, at, entries[1..]) && EntryRegular(parse, at, entries[0])
  {
    RestIsFileSystem(entries);
    forall parts | parts != [] && Lookup(entries[1..], parts).Some?
      ensures Regular(parse, Join(at + parts), Lookup(entries[1..], parts).value)
    {
      assert Lookup(entries, parts) == Lookup(entries[1..], parts);
    }
    forall parts | parts != [] && parts[0] == entries[0].name && LookupIn(entries[0], parts).Some?
      ensures Regular(parse, Join(at + parts), LookupIn(entries[0], parts).value)
    {
      assert Lookup(entries, parts) == LookupIn(entries[0], parts);
    }
  }

  lemma {:induction false} EntryOk(parse: Parser, at: seq<string>, e: Dirent)
    requires EntryWellNamed(e) && Names(at) && EntryRegular(parse, at, e)
    ensures ListEntry(parse, at, e).ok
    decreases e
  {
    var here := at + [e.name];
    assert LookupIn(e, [e.name]) == Some(e);
    if e.node.Directory? {
      forall parts | parts != [] && Lookup(e.node.entries, parts).Some?
        ensures Regular(parse, Join(here + parts), Lookup(e.node.entries, parts).value)
      {
        assert ([e.name] + parts)[1..] == parts && at + ([e.name] + parts) == here + parts;
        assert LookupIn(e, [e.name] + parts) == Lookup(e.node.entries, parts);
      }
      NamesAppend(at, [e.name]);
      ListOkIff(parse, here, e.node.entries);
      DirectoryIsNew(parse, at, e);
    }
  }

  // A directory is not listed again below itself.
  lemma DirectoryIsNew(parse: Parser, at: seq<string>, e: Dirent)
    requires EntryWellNamed(e) && Names(at) && e.node.Directory?
    ensures Join(at + [e.name]) !in List(parse, at + [e.name], e.node.entries).directories
  {
    var here := at + [e.name];
    if Join(here) in List(parse, here, e.node.entries).directories {
      var parts := ListedIsFound(parse, here, e.node.entries, Join(here), false);
      FoundName(e.node.entries, parts);
      NamesAppend(at, [e.name]);
      SplitPath(here, parts);
      SplitPath(at, [e.name]);
      assert false;
    }
  }

  // Different entries of a directory list different paths.
  lemma Disjoint(parse: Parser, at: seq<string>, entries: seq<Dirent>)
    requires FileSystem(entries) && entries != [] && Names(at)
    ensures ListEntry(parse, at, entries[0]).files !! List(parse, at, entries[1..]).files
    ensures ListEntry(parse, at, entries[0]).directories !! List(parse, at, entries[1..]).directories
  {
    var one, rest := ListEntry(parse, at, entries[0]), List(parse, at, entries[1..]);
    forall path | path in one.files ensures path !in rest.files {
      ListedOnce(parse, at, entries, path, true);
    }
    forall path | path in one.directories ensures path !in rest.directories {
      ListedOnce(parse, at, entries, path, false);
    }
  }

  lemma ListedOnce(parse: Parser, at: seq<string>, entries: seq<Dirent>, path: string, file: bool)
    requires FileSystem(entries) && entries != [] && Names(at)
    requires path in Listed(ListEntry(parse, at, entries[0]), file)
    ensures path !in Listed(List(parse, at, entries[1..]), file)
  {
    RestIsFileSystem(entries);
    var a := EntryIsFound(parse, at, entries[0], path, file);
    assert Lookup(entries, a) == LookupIn(entries[0], a);
    FoundName(entries, a);
    SplitPath(at, a);
    if path in Listed(List(parse, at, entries[1..]), file) {
      var b := ListedIsFound(parse, at, entries[1..], path, file);
      FoundName(entries[1..], b);
      SplitPath(at, b);
      assert false;
    }
  }

  // ---- The root --------------------------------------------------------------------------------------

  predicate IsFile(entries: seq<Dirent>, path: string) {
    Lookup(entries, Split(path)).Some? && Lookup(entries, Split(path)).value.node.File?
  }

  predicate IsDirectory(entries: seq<Dirent>, path: string) {
    Lookup(entries, Split(path)).Some? && Lookup(entries, Split(path)).value.node.Directory?
  }

  lemma ListedAtRoot(parse: Parser, entries: seq<Dirent>, path: string, file: bool)
    requires FileSystem(entries) && List(parse, [], entries).ok
    ensures path in Listed(List(parse, [], entries), file) <==>
      if file then IsFile(entries, path) && path != BUILD_LEDGER_NAME else IsDirectory(entries, path)
  {
    var l := List(parse, [], entries);
    if path in Listed(l, file) {
      var parts := ListedIsFound(parse, [], entries, path, file);
      FoundName(entries, parts);
      SplitPath([], parts);
      assert [] + parts == parts;
    }
    if Lookup(entries, Split(path)).Some? {
      FoundIsListed(parse, [], entries, Split(path));
      assert [] + Split(path) == Split(path);
      JoinSplit(path);
    }
  }

  // Whatever is found lies in directories that are found.
  lemma {:induction false} AncestorIsDirectory(entries: seq<Dirent>, parts: seq<string>, n: nat)
    requires parts != [] && Lookup(entries, parts).Some? && 0 < n < |parts|
    ensures Lookup(entries, parts[..n]).Some? && Lookup(entries, parts[..n]).value.node.Directory?
    decreases entries
  {
    var e := entries[0];
    if e.name != parts[0] {
      AncestorIsDirectory(entries[1..], parts, n);
    } else if n > 1 {
      AncestorIsDirectory(e.node.entries, parts[1..], n - 1);
      assert parts[..n][1..] == parts[1..][..n - 1];
    }
  }
}

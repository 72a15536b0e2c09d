// The namespace check on a collected layout (pliego-artifact, lib.rs).
module DiskNamespaces {
  import opened Prelude
  import opened Text
  import opened Namespaces
  import opened Receipts

  // ---- Sets in some order ----------------------------------------------------------------------------

  ghost predicate Distinct<T(!new)>(s: seq<T>) {
    forall x :: Count(s, x) <= 1
  }

  // The iteration order of a set is left open: order is any enumeration of it.
  ghost predicate Enumerates(order: seq<string>, paths: set<string>) {
    Distinct(order) && forall path :: path in order <==> path in paths
  }

  lemma EnumerateNext(order: seq<string>, paths: set<string>, next: string)
    requires Enumerates(order, paths) && next !in paths
    ensures Enumerates(order + [next], paths + {next})
  {
    forall x ensures Count(order + [next], x) <= 1 {
      CountOne(order, next, x);
      CountMember(order, x);
    }
  }

  lemma {:induction false} Enumerate(order: seq<string>, paths: set<string>, rest: set<string>) returns (more: seq<string>)
    requires Enumerates(order, paths) && paths !! rest
    ensures Enumerates(order + more, paths + rest)
    decreases rest
  {
    if rest == {} {
      more := [];
      assert order + more == order && paths + rest == paths;
    } else {
      var next :| next in rest;
      EnumerateNext(order, paths, next);
      var tail := Enumerate(order + [next], paths + {next}, rest - {next});
      more := [next] + tail;
      assert order + more == order + [next] + tail && paths + rest == paths + {next} + (rest - {next});
    }
  }

  lemma SameElementsPermuted<T(!new)>(a: seq<T>, b: seq<T>)
    requires Distinct(a) && Distinct(b) && forall x :: x in a <==> x in b
    ensures Permuted(a, b)
  {
    forall x ensures Count(a, x) == Count(b, x) {
      CountMember(a, x);
      CountMember(b, x);
    }
  }

  // ---- The entries of a set of paths -----------------------------------------------------------------

  predicate AllCanonical(parse: Parser, order: seq<string>) {
    forall i :: 0 <= i < |order| ==> Canonical(parse, order[i])
  }

  function DiskEntry(parse: Parser, path: string): Entry
    requires parse(path).Ok?
  {
    Entry(parse(path).value, "disk output")
  }

  function DiskEntries(parse: Parser, order: seq<string>): (entries: seq<Entry>)
    requires AllCanonical(parse, order)
    ensures |entries| == |order|
    ensures forall i :: 0 <= i < |order| ==> entries[i] == DiskEntry(parse, order[i])
  {
    seq(|order|, i requires 0 <= i < |order| => DiskEntry(parse, order[i]))
  }

  lemma {:induction false} CountEntries(parse: Parser, order: seq<string>, path: string)
    requires AllCanonical(parse, order) && Canonical(parse, path)
    ensures Count(DiskEntries(parse, order), DiskEntry(parse, path)) == Count(order, path)
  {
    if order != [] {
      var n := |order| - 1;
      CountEntries(parse, order[..n], path);
      assert DiskEntries(parse, order)[..n] == DiskEntries(parse, order[..n]);
    }
  }

  lemma EntriesDistinct(parse: Parser, order: seq<string>)
    requires AllCanonical(parse, order) && Distinct(order)
    ensures Distinct(DiskEntries(parse, order))
  {
    var entries := DiskEntries(parse, order);
    forall e ensures Count(entries, e) <= 1 {
      CountMember(entries, e);
      if e in entries {
        var i :| 0 <= i < |order| && e == DiskEntry(parse, order[i]);
        CountEntries(parse, order, order[i]);
      }
    }
  }

  lemma EntryMembers(parse: Parser, a: seq<string>, b: seq<string>)
    requires AllCanonical(parse, a) && AllCanonical(parse, b) && forall x :: x in a ==> x in b
    ensures forall e :: e in DiskEntries(parse, a) ==> e in DiskEntries(parse, b)
  {
    forall e | e in DiskEntries(parse, a) ensures e in DiskEntries(parse, b) {
      var i :| 0 <= i < |a| && e == DiskEntry(parse, a[i]);
      assert a[i] in b;
      var j :| 0 <= j < |b| && b[j] == a[i];
      assert DiskEntries(parse, b)[j] == e;
    }
  }

  lemma AnyOrderFits(parse: Parser, a: seq<string>, b: seq<string>, paths: set<string>)
    requires Enumerates(a, paths) && Enumerates(b, paths) && AllCanonical(parse, a) && AllCanonical(parse, b)
    requires Fits(DiskEntries(parse, a))
    ensures Fits(DiskEntries(parse, b))
  {
    EntriesDistinct(parse, a);
    EntriesDistinct(parse, b);
    EntryMembers(parse, a, b);
    EntryMembers(parse, b, a);
    SameElementsPermuted(DiskEntries(parse, a), DiskEntries(parse, b));
    FitsPermuted(DiskEntries(parse, a), DiskEntries(parse, b));
  }

  // ---- What the check accepts ------------------------------------------------------------------------

  ghost predicate FilesFit(parse: Parser, files: set<string>) {
    exists order :: Enumerates(order, files) && AllCanonical(parse, order) && Fits(DiskEntries(parse, order))
  }

  // The directory collides with no file, and is spelled like every directory a file implies.
  ghost predicate DirectoryFits(parse: Parser, files: set<string>, directory: string)
    requires forall f :: f in files ==> Canonical(parse, f)
  {
    && parse(directory).Ok?
    && forall f :: f in files ==> Canonical(parse, f) && DirectoryAgrees(parse(directory).value, parse(f).value)
  }

  predicate DirectoryAgrees(d: PortablePath, f: PortablePath) {
    && d.collisionKey != f.collisionKey
    && SpellingAgrees(d, f)
  }

  predicate SpellingAgrees(d: PortablePath, f: PortablePath) {
    forall i :: 1 <= i < Length(f) && DirKey(f, i) == d.collisionKey ==> DirSpelling(f, i) == d.value
  }

  ghost predicate KeysDiffer(parse: Parser, directories: set<string>) {
    forall d, e :: d in directories && e in directories && d != e && parse(d).Ok? && parse(e).Ok? ==>
      parse(d).value.collisionKey != parse(e).value.collisionKey
  }

  ghost predicate LayoutFits(parse: Parser, files: set<string>, directories: set<string>)
    requires forall f :: f in files ==> Canonical(parse, f)
  {
    FilesFit(parse, files) && ExplicitDirectoriesFit(parse, files, directories)
  }

  ghost predicate ExplicitDirectoriesFit(parse: Parser, files: set<string>, directories: set<string>)
    requires forall f :: f in files ==> Canonical(parse, f)
  {
    (forall d :: d in directories ==> DirectoryFits(parse, files, d)) && KeysDiffer(parse, directories)
  }

  // ---- The check -------------------------------------------------------------------------------------

  method InsertDisk(parse: Parser, ns: OutputNamespace, ghost order: seq<string>, path: string)
    returns (r: Result<PortablePath, ArtifactError>)
    requires AllCanonical(parse, order) && Canonical(parse, path)
    requires Fits(DiskEntries(parse, order)) && Represents(ns.View(), DiskEntries(parse, order))
    modifies ns
    ensures r.Ok? <==> Fits(DiskEntries(parse, order + [path]))
    ensures r.Ok? ==> Represents(ns.View(), DiskEntries(parse, order + [path]))
  {
    InsertSpec(ns.View(), DiskEntries(parse, order), DiskEntry(parse, path));
    assert DiskEntries(parse, order + [path]) == DiskEntries(parse, order) + [DiskEntry(parse, path)];
    r := ns.InsertStr(parse, path, "disk output");
  }

  lemma CanonicalParts(parse: Parser, order: seq<string>, more: seq<string>)
    requires AllCanonical(parse, order + more)
    ensures AllCanonical(parse, order) && AllCanonical(parse, more)
  {
    var all := order + more;
    forall i | 0 <= i < |order| ensures Canonical(parse, order[i]) {
      assert all[i] == order[i];
    }
    forall i | 0 <= i < |more| ensures Canonical(parse, more[i]) {
      assert all[|order| + i] == more[i];
    }
  }

  lemma EntriesConcat(parse: Parser, order: seq<string>, more: seq<string>)
    requires AllCanonical(parse, order) && AllCanonical(parse, more) && AllCanonical(parse, order + more)
    ensures DiskEntries(parse, order + more) == DiskEntries(parse, order) + DiskEntries(parse, more)
  {
  }

  lemma EntriesPrefix(parse: Parser, order: seq<string>, more: seq<string>)
    requires AllCanonical(parse, order + more) && Fits(DiskEntries(parse, order + more))
    ensures AllCanonical(parse, order) && Fits(DiskEntries(parse, order))
  {
    CanonicalParts(parse, order, more);
    EntriesConcat(parse, order, more);
    FitsPrefix(DiskEntries(parse, order), DiskEntries(parse, more));
  }

  lemma MembersCanonical(parse: Parser, order: seq<string>, files: set<string>)
    requires Enumerates(order, files) && forall f :: f in files ==> Canonical(parse, f)
    ensures AllCanonical(parse, order)
  {
    forall i | 0 <= i < |order| ensures Canonical(parse, order[i]) {
      assert order[i] in order;
    }
  }

  // If some order goes through, so does every beginning of every order.
  lemma EveryBeginningFits(parse: Parser, order: seq<string>, done: set<string>, files: set<string>)
    requires Enumerates(order, done) && done <= files
    requires (forall f :: f in files ==> Canonical(parse, f)) && FilesFit(parse, files)
    ensures AllCanonical(parse, order) && Fits(DiskEntries(parse, order))
  {
    var b :| Enumerates(b, files) && AllCanonical(parse, b) && Fits(DiskEntries(parse, b));
    var more := Enumerate(order, done, files - done);
    assert done + (files - done) == files;
    MembersCanonical(parse, order + more, files);
    AnyOrderFits(parse, b, order + more, files);
    EntriesPrefix(parse, order, more);
  }

  method InsertFiles(parse: Parser, files: set<string>, ns: OutputNamespace)
    returns (error: Option<ArtifactError>, ghost order: seq<string>)
    requires (forall f :: f in files ==> Canonical(parse, f)) && ns.View() == EMPTY_NAMESPACE
    modifies ns
    ensures error.None? <==> FilesFit(parse, files)
    ensures error.None? ==> Enumerates(order, files) && AllCanonical(parse, order)
    ensures error.None? ==> Represents(ns.View(), DiskEntries(parse, order))
  {
    var rest := files;
    order := [];
    EmptyRepresents();
    NothingFits();
    assert DiskEntries(parse, []) == [];
    while rest != {}
      invariant rest <= files && Enumerates(order, files - rest) && AllCanonical(parse, order)
      invariant Fits(DiskEntries(parse, order)) && Represents(ns.View(), DiskEntries(parse, order))
      decreases rest
    {
      var path :| path in rest;
      EnumerateNext(order, files - rest, path);
      assert files - rest + {path} == files - (rest - {path});
      var portable := InsertDisk(parse, ns, order, path);
      order, rest := order + [path], rest - {path};
      if portable.Err? {
        if FilesFit(parse, files) {
          EveryBeginningFits(parse, order, files - rest, files);
        }
        return Some(portable.error), order;
      }
    }
    assert files - rest == files;
    return None, order;
  }

  // The lookups in the index, against the files themselves.
  lemma DirectoryTest(parse: Parser, ns: Namespace, order: seq<string>, files: set<string>, d: PortablePath)
    requires Enumerates(order, files) && AllCanonical(parse, order) && Represents(ns, DiskEntries(parse, order))
    ensures (d.collisionKey !in ns.files
             && (d.collisionKey in ns.directories ==> ns.directories[d.collisionKey] == d.value))
      <==> forall i :: 0 <= i < |order| ==> DirectoryAgrees(d, parse(order[i]).value)
  {
    var done := DiskEntries(parse, order);
    if d.collisionKey in ns.files {
      assert Holds(done, d.collisionKey);
      var i :| 0 <= i < |done| && done[i].path.collisionKey == d.collisionKey;
      assert !DirectoryAgrees(d, parse(order[i]).value);
    } else {
      forall i | 0 <= i < |order| ensures d.collisionKey != parse(order[i]).value.collisionKey {
        assert done[i].path.collisionKey == parse(order[i]).value.collisionKey;
        assert d.collisionKey == parse(order[i]).value.collisionKey ==> Holds(done, d.collisionKey);
      }
      DirectorySpelling(parse, ns, order, d);
    }
  }

  lemma DirectorySpelling(parse: Parser, ns: Namespace, order: seq<string>, d: PortablePath)
    requires AllCanonical(parse, order) && Represents(ns, DiskEntries(parse, order))
    ensures (d.collisionKey in ns.directories ==> ns.directories[d.collisionKey] == d.value)
      <==> forall i :: 0 <= i < |order| ==> SpellingAgrees(d, parse(order[i]).value)
  {
    var done := DiskEntries(parse, order);
    forall i, k | 0 <= i < |order| && 1 <= k < Length(parse(order[i]).value)
      && DirKey(parse(order[i]).value, k) == d.collisionKey
      ensures d.collisionKey in ns.directories
      ensures ns.directories[d.collisionKey] == DirSpelling(parse(order[i]).value, k)
    {
      SpellingHeld(ns, done, i, k);
    }
    if d.collisionKey in ns.directories && ns.directories[d.collisionKey] != d.value {
      DirectoryHeld(ns, done, d.collisionKey);
      var i :| 0 <= i < |done| && IsDirectoryOf(d.collisionKey, done[i].path);
      var k :| 1 <= k < Length(done[i].path) && d.collisionKey == DirKey(done[i].path, k);
      assert done[i].path == parse(order[i]).value;
    }
  }

  lemma DirectoryFitsIff(parse: Parser, order: seq<string>, files: set<string>, directory: string)
    requires Enumerates(order, files) && AllCanonical(parse, order) && parse(directory).Ok?
    requires forall f :: f in files ==> Canonical(parse, f)
    ensures DirectoryFits(parse, files, directory)
      <==> forall i :: 0 <= i < |order| ==> DirectoryAgrees(parse(directory).value, parse(order[i]).value)
  {
    forall f | f in files ensures exists i :: 0 <= i < |order| && order[i] == f {
      assert f in order;
    }
    forall i | 0 <= i < |order| ensures order[i] in files {
      assert order[i] in order;
    }
  }

  // keys: what directory_keys holds after the directories in done.
  ghost predicate KeysOf(parse: Parser, keys: set<string>, done: set<string>) {
    forall key :: key in keys <==> exists d :: d in done && parse(d).Ok? && parse(d).value.collisionKey == key
  }

  method CheckDirectory(
    parse: Parser, ns: OutputNamespace, ghost order: seq<string>, ghost files: set<string>, keys: set<string>, directory: string)
    returns (error: Option<ArtifactError>, next: set<string>)
    requires Enumerates(order, files) && AllCanonical(parse, order) && Represents(ns.View(), DiskEntries(parse, order))
    requires forall f :: f in files ==> Canonical(parse, f)
    ensures error.None? <==>
      DirectoryFits(parse, files, directory) && parse(directory).value.collisionKey !in keys
    ensures error.None? ==> next == keys + {parse(directory).value.collisionKey}
  {
    next := keys;
    var portable := parse(directory);
    if portable.Err? {
      return Some(portable.error), next;
    }
    DirectoryFitsIff(parse, order, files, directory);
    DirectoryTest(parse, ns.View(), order, files, portable.value);
    var key := portable.value.collisionKey;
    if key in keys {
      return Some(NamespaceCollision(portable.value.value, portable.value.value)), next;
    }
    next := keys + {key};
    if key in ns.files {
      return Some(NamespaceCollision(portable.value.value, ns.files[key].0)), next;
    }
    if key in ns.directories && ns.directories[key] != portable.value.value {
      return Some(NamespaceCollision(portable.value.value, ns.directories[key])), next;
    }
    return None, next;
  }

  method ValidateOutputLayoutNamespace(parse: Parser, files: set<string>, directories: set<string>)
    returns (error: Option<ArtifactError>)
    requires forall f :: f in files ==> Canonical(parse, f)
    ensures error.None? <==> LayoutFits(parse, files, directories)
  {
    var ns := new OutputNamespace();
    ghost var order;
    error, order := InsertFiles(parse, files, ns);
    if error.Some? {
      return;
    }
    error := ValidateDirectories(parse, ns, order, files, directories);
  }

  method ValidateDirectories(
    parse: Parser, ns: OutputNamespace, ghost order: seq<string>, ghost files: set<string>, directories: set<string>)
    returns (error: Option<ArtifactError>)
    requires Enumerates(order, files) && AllCanonical(parse, order) && Represents(ns.View(), DiskEntries(parse, order))
    requires forall f :: f in files ==> Canonical(parse, f)
    ensures error.None? <==> ExplicitDirectoriesFit(parse, files, directories)
  {
    var rest, keys := directories, {};
    while rest != {}
      invariant rest <= directories && ExplicitDirectoriesFit(parse, files, directories - rest)
      invariant KeysOf(parse, keys, directories - rest)
      decreases rest
    {
      var directory :| directory in rest;
      ghost var done := directories - rest;
      ghost var before := keys;
      error, keys := CheckDirectory(parse, ns, order, files, keys, directory);
      if error.Some? {
        DirectoryRejected(parse, files, before, done, directories, directory);
        return;
      }
      DirectoryAdded(parse, files, before, done, directory);
      rest := rest - {directory};
      assert directories - rest == done + {directory};
    }
    assert directories - rest == directories;
    return None;
  }

  lemma DirectoryRejected(
    parse: Parser, files: set<string>, keys: set<string>, done: set<string>, directories: set<string>, directory: string)
    requires forall f :: f in files ==> Canonical(parse, f)
    requires KeysOf(parse, keys, done) && done <= directories && directory in directories - done
    requires !DirectoryFits(parse, files, directory) || parse(directory).value.collisionKey in keys
    ensures !ExplicitDirectoriesFit(parse, files, directories)
  {
    if DirectoryFits(parse, files, directory) {
      var d :| d in done && parse(d).Ok? && parse(d).value.collisionKey == parse(directory).value.collisionKey;
    }
  }

  lemma DirectoryAdded(parse: Parser, files: set<string>, keys: set<string>, done: set<string>, directory: string)
    requires forall f :: f in files ==> Canonical(parse, f)
    requires KeysOf(parse, keys, done) && ExplicitDirectoriesFit(parse, files, done) && DirectoryFits(parse, files, directory)
    requires parse(directory).value.collisionKey !in keys
    ensures KeysOf(parse, keys + {parse(directory).value.collisionKey}, done + {directory})
    ensures ExplicitDirectoriesFit(parse, files, done + {directory})
  {
  }
}

// The layout of an output tree: collecting it, and checking its namespace (pliego-artifact, lib.rs).
module DiskLayouts {
  import opened Prelude
  import opened Text
  import opened Namespaces
  import opened Receipts
  import opened DiskTrees

  function JoinPortable(prefix: string, name: string): string {
    if prefix == "" then name else prefix + "/" + name
  }

  lemma JoinPortablePath(at: seq<string>, name: string)
    requires Names(at)
    ensures JoinPortable(Join(at), name) == Join(at + [name])
  {
    if at == [] {
      assert at + [name] == [name];
    } else {
      JoinNonEmpty(at);
      assert (at + [name])[..|at|] == at;
    }
  }

  lemma JoinNonEmpty(at: seq<string>)
    requires Names(at) && at != []
    ensures Join(at) != ""
  {
    assert at[|at| - 1] != "";
  }

  // ---- Collecting ------------------------------------------------------------------------------------

  class OutputLayout {
    var files: set<string>
    var directories: set<string>
    var entries: nat
    var components: nat
    var pathBytes: nat

    constructor ()
      ensures View() == EMPTY_LISTING
    {
      files, directories, entries, components, pathBytes := {}, {}, 0, 0, 0;
    }

    function View(): Listing
      reads this
    {
      Listing(files, directories, entries, components, pathBytes, true)
    }

    method AccountStoredPath(relative: string) returns (error: Option<ArtifactError>)
      modifies this`components, this`pathBytes
      ensures error.None? <==>
        && old(components) + |Split(relative)| <= MAX_NAMESPACE_COMPONENTS
        && old(pathBytes) + |relative| <= MAX_NAMESPACE_PREFIX_BYTES
      ensures error.None? ==>
        && components == old(components) + |Split(relative)|
        && pathBytes == old(pathBytes) + |relative|
    {
      var count := components + |Split(relative)|;
      if count > MAX_NAMESPACE_COMPONENTS {
        return Some(InvalidReceipt);
      }
      components := count;
      var bytes := pathBytes + |relative|;
      if bytes > MAX_NAMESPACE_PREFIX_BYTES {
        return Some(InvalidReceipt);
      }
      pathBytes := bytes;
      return None;
    }

    method AddDirectory(relative: string) returns (error: Option<ArtifactError>)
      modifies this
      requires WithinLimits(View())
      ensures error.None? <==> Fine(Merge(old(View()).(entries := 0), OneDirectory(relative).(entries := 0)))
      ensures error.None? ==> View() == Merge(old(View()), OneDirectory(relative).(entries := 0))
    {
      error := AccountStoredPath(relative);
      if error.Some? {
        return;
      }
      if relative in directories {
        return Some(NamespaceCollision(relative, relative));
      }
      directories := directories + {relative};
    }

    method AddFile(relative: string) returns (error: Option<ArtifactError>)
      modifies this
      requires WithinLimits(View())
      ensures error.None? <==> Fine(Merge(old(View()).(entries := 0), OneFile(relative).(entries := 0)))
      ensures error.None? ==> View() == Merge(old(View()), OneFile(relative).(entries := 0))
    {
      if relative == BUILD_LEDGER_NAME {
        return None;
      }
      error := AccountStoredPath(relative);
      if error.Some? {
        return;
      }
      if relative in files {
        return Some(NamespaceCollision(relative, relative));
      }
      files := files + {relative};
    }

    // One round of the loop over a directory.
    method CollectEntry(parse: Parser, ghost at: seq<string>, prefix: string, e: Dirent)
      returns (error: Option<ArtifactError>)
      requires EntryWellNamed(e) && Names(at) && prefix == Join(at) && WithinLimits(View())
      modifies this
      ensures error.None? <==> Fine(Merge(old(View()), ListEntry(parse, at, e)))
      ensures error.None? ==> View() == Merge(old(View()), ListEntry(parse, at, e))
      decreases e
    {
      entries := entries + 1;
      if entries > MAX_ARTIFACT_FILES {
        CountsAtLeastItself(parse, at, e);
        return Some(InvalidReceipt);
      }
      if !e.utf8 {
        return Some(InvalidPath(prefix));
      }
      var relative := JoinPortable(prefix, e.name);
      JoinPortablePath(at, e.name);
      var portable := parse(relative);
      if portable.Err? {
        return Some(portable.error);
      }
      if portable.value.value != relative {
        return Some(InvalidPath(relative));
      }
      match e.node
      case File(_, _) =>
        error := AddFile(relative);
      case Directory(below) =>
        ghost var was := old(View());
        error := AddDirectory(relative);
        MergeAssociative(was, OneDirectory(relative), List(parse, at + [e.name], below));
        if error.Some? {
          return;
        }
        NamesAppend(at, [e.name]);
        error := CollectDirectory(parse, at + [e.name], relative, below);
      case Symlink =>
        return Some(InvalidPath(relative));
      case Special =>
        return Some(InvalidPath(relative));
    }

    method CollectDirectory(parse: Parser, ghost at: seq<string>, prefix: string, children: seq<Dirent>)
      returns (error: Option<ArtifactError>)
      requires FileSystem(children) && Names(at) && prefix == Join(at) && WithinLimits(View())
      modifies this
      ensures error.None? <==> Fine(Merge(old(View()), List(parse, at, children)))
      ensures error.None? ==> View() == Merge(old(View()), List(parse, at, children))
      decreases children
    {
      ghost var all := Merge(View(), List(parse, at, children));
      for i := 0 to |children|
        invariant WithinLimits(View())
        invariant Merge(View(), List(parse, at, children[i..])) == all
      {
        var e, rest := children[i], children[i + 1..];
        assert children[i..][0] == e && children[i..][1..] == rest;
        assert EntryWellNamed(e);
        MergeAssociative(View(), ListEntry(parse, at, e), List(parse, at, rest));
        error := CollectEntry(parse, at, prefix, e);
        if error.Some? {
          return;
        }
      }
      assert children[|children|..] == [];
      MergeNothing(View());
      return None;
    }
  }

  lemma CountsAtLeastItself(parse: Parser, at: seq<string>, e: Dirent)
    ensures ListEntry(parse, at, e).entries >= 1
  {
  }
}

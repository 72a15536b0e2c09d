// What the counters of a collected tree come to, in terms of the paths it lists.
module DiskCounts {
  import opened Prelude
  import opened Sums
  import opened Text
  import opened Namespaces
  import opened Receipts
  import opened DiskTrees

  function ComponentsOf(): string -> nat {
    (path: string) => |Split(path)|
  }

  function SizeOf(): string -> nat {
    (path: string) => |path|
  }

  // How many entries are the ledger, which is counted as an entry and not listed.
  function Ledgers(at: seq<string>, entries: seq<Dirent>): nat
    decreases entries
  {
    if entries == [] then 0 else LedgersIn(at, entries[0]) + Ledgers(at, entries[1..])
  }

  function LedgersIn(at: seq<string>, e: Dirent): nat
    decreases e
  {
    match e.node
    case File(_, _) => if Join(at + [e.name]) == BUILD_LEDGER_NAME then 1 else 0
    case Directory(entries) => Ledgers(at + [e.name], entries)
    case _ => 0
  }

  ghost predicate Counted(l: Listing, ledgers: nat) {
    && l.entries == |l.files| + |l.directories| + ledgers
    && l.components == Sum(l.files, ComponentsOf()) + Sum(l.directories, ComponentsOf())
    && l.pathBytes == Sum(l.files, SizeOf()) + Sum(l.directories, SizeOf())
  }

  lemma DisjointSize<T>(a: set<T>, b: set<T>)
    requires a !! b
    ensures |a + b| == |a| + |b|
  {
    assert a * b == {};
  }

  lemma MergeCounted(a: Listing, k: nat, b: Listing, m: nat)
    requires Counted(a, k) && Counted(b, m) && Merge(a, b).ok
    ensures Counted(Merge(a, b), k + m)
  {
    DisjointSize(a.files, b.files);
    DisjointSize(a.directories, b.directories);
    SumUnion(a.files, b.files, ComponentsOf());
    SumUnion(a.directories, b.directories, ComponentsOf());
    SumUnion(a.files, b.files, SizeOf());
    SumUnion(a.directories, b.directories, SizeOf());
  }

  lemma OneCounted(path: string)
    ensures Counted(OneDirectory(path), 0)
    ensures Counted(OneFile(path), if path == BUILD_LEDGER_NAME then 1 else 0)
  {
    SumAdd({}, ComponentsOf(), path);
    SumAdd({}, SizeOf(), path);
    assert {} + {path} == {path};
  }

  lemma MergeOk(a: Listing, b: Listing)
    requires Merge(a, b).ok
    ensures a.ok && b.ok
  {
  }

  lemma {:induction false} ListCounted(parse: Parser, at: seq<string>, entries: seq<Dirent>)
    requires List(parse, at, entries).ok
    ensures Counted(List(parse, at, entries), Ledgers(at, entries))
    decreases entries
  {
    if entries == [] {
      NothingCounted();
    } else {
      hide Counted, Merge, ListEntry, LedgersIn;
      var first, rest := ListEntry(parse, at, entries[0]), List(parse, at, entries[1..]);
      MergeOk(first, rest);
      EntryCounted(parse, at, entries[0]);
      ListCounted(parse, at, entries[1..]);
      MergeCounted(first, LedgersIn(at, entries[0]), rest, Ledgers(at, entries[1..]));
    }
  }

  lemma NothingCounted()
    ensures Counted(EMPTY_LISTING, 0)
  {
  }

  lemma {:induction false} EntryCounted(parse: Parser, at: seq<string>, e: Dirent)
    requires ListEntry(parse, at, e).ok
    ensures Counted(ListEntry(parse, at, e), LedgersIn(at, e))
    decreases e
  {
    hide Counted, Merge, List, Ledgers, Join, Canonical, OneFile, OneDirectory;
    var path := Join(at + [e.name]);
    OneCounted(path);
    if e.node.Directory? {
      var below := List(parse, at + [e.name], e.node.entries);
      assert ListEntry(parse, at, e) == Merge(OneDirectory(path), below);
      MergeOk(OneDirectory(path), below);
      ListCounted(parse, at + [e.name], e.node.entries);
      MergeCounted(OneDirectory(path), 0, below, Ledgers(at + [e.name], e.node.entries));
    }
  }

  // ---- The ledger is there once ----------------------------------------------------------------------

  lemma DeepPathIsNoLedger(at: seq<string>, name: string)
    requires Names(at) && at != [] && name != "" && '/' !in name
    ensures Join(at + [name]) != BUILD_LEDGER_NAME
  {
    NamesAppend(at, [name]);
    SplitJoin(at + [name]);
    SplitOne(BUILD_LEDGER_NAME);
    assert |at + [name]| >= 2;
  }

  lemma {:induction false} NoLedgerBelow(at: seq<string>, entries: seq<Dirent>)
    requires Names(at) && at != [] && FileSystem(entries)
    ensures Ledgers(at, entries) == 0
    decreases entries
  {
    if entries != [] {
      RestIsFileSystem(entries);
      NoLedgerIn(at, entries[0]);
      NoLedgerBelow(at, entries[1..]);
    }
  }

  lemma {:induction false} NoLedgerIn(at: seq<string>, e: Dirent)
    requires Names(at) && at != [] && EntryWellNamed(e)
    ensures LedgersIn(at, e) == 0
    decreases e
  {
    DeepPathIsNoLedger(at, e.name);
    if e.node.Directory? {
      NamesAppend(at, [e.name]);
      NoLedgerBelow(at + [e.name], e.node.entries);
    }
  }

  // An entry at the root is the ledger exactly when it is a file of that name.
  lemma LedgerAtRoot(e: Dirent)
    requires EntryWellNamed(e)
    ensures LedgersIn([], e) == if e.node.File? && e.name == BUILD_LEDGER_NAME then 1 else 0
  {
    assert [] + [e.name] == [e.name];
    if e.node.Directory? {
      NoLedgerBelow([e.name], e.node.entries);
    }
  }

  lemma {:induction false} LedgersAtRoot(entries: seq<Dirent>)
    requires FileSystem(entries)
    ensures var found := Lookup(entries, [BUILD_LEDGER_NAME]);
      Ledgers([], entries) == if found.Some? && found.value.node.File? then 1 else 0
  {
    if entries != [] {
      RestIsFileSystem(entries);
      LedgerAtRoot(entries[0]);
      LedgersAtRoot(entries[1..]);
    }
  }
}

// Portable paths and the output namespace (pliego-artifact, lib.rs).
//
// Unicode normalisation and case folding are uninterpreted: a Unicode value carries them as functions.
module Namespaces {
  import opened Prelude
  import opened Text
  import opened Sums

  const MAX_PORTABLE_PATH_BYTES: nat := 4096
  const MAX_COMPONENT_BYTES: nat := 255
  const MAX_PATH_COMPONENTS: nat := 128
  const MAX_NAMESPACE_COMPONENTS: nat := 262144
  const MAX_NAMESPACE_PREFIX_BYTES: nat := 16777216

  datatype Unicode = Unicode(
    nfc: string -> string,
    nfkc: string -> string,
    caseFold: string -> string,
    blank: string -> bool)

  datatype ArtifactError =
    | InvalidPath(path: string)
    | NamespaceCollision(path: string, existing: string)
    | InvalidReceipt
    | InvalidJson
    | Missing(path: string)
    | Extra(path: string)
    | Modified(path: string)
    | Io(path: string)

  // ---- Portable paths --------------------------------------------------------------------------------

  datatype PathParts = PathParts(value: string, collisionKey: string, componentKeys: seq<string>)

  // What the private fields of PortablePath guarantee: one key per component, joined.
  predicate WellFormed(p: PathParts) {
    && |p.componentKeys| == |Split(p.value)|
    && p.collisionKey == Join(p.componentKeys)
  }

  type PortablePath = p: PathParts | WellFormed(p) witness PathParts("", "", [""])

  function PortableCaseKey(u: Unicode, value: string): string {
    u.nfkc(u.caseFold(u.nfkc(value)))
  }

  // char::is_control on the encoded bytes: U+0000-U+001F, U+007F, and U+0080-U+009F as C2 80 - C2 9F.
  predicate HasControl(s: string) {
    exists i :: 0 <= i < |s| &&
      (s[i] < ' ' || s[i] == 0x7F as char
       || (i + 1 < |s| && s[i] == 0xC2 as char && 0x80 as char <= s[i + 1] <= 0x9F as char))
  }

  predicate HasForbidden(s: string) {
    exists i :: 0 <= i < |s| && s[i] in {'<', '>', ':', '\"', '|', '?', '*'}
  }

  // The part of a component before its first dot.
  function Stem(component: string): string {
    if component == "" || component[0] == '.' then "" else [component[0]] + Stem(component[1..])
  }

  predicate ReservedStem(key: string) {
    || key in {"con", "prn", "aux", "nul"}
    || (|key| == 4 && key[..3] in {"com", "lpt"} && '1' <= key[3] <= '9')
  }

  predicate ValidComponent(u: Unicode, component: string) {
    && component != "" && component != "." && component != ".."
    && |component| <= MAX_COMPONENT_BYTES
    && component[|component| - 1] != '.' && component[|component| - 1] != ' '
    && !HasControl(component) && !HasForbidden(component)
    && !ReservedStem(PortableCaseKey(u, Stem(component)))
  }

  function ComponentKeys(u: Unicode, components: seq<string>): (keys: seq<string>)
    ensures |keys| == |components|
    ensures forall i :: 0 <= i < |keys| ==> keys[i] == PortableCaseKey(u, components[i])
  {
    if components == [] then [] else [PortableCaseKey(u, components[0])] + ComponentKeys(u, components[1..])
  }

  function Parse(u: Unicode, value: string): Result<PortablePath, ArtifactError> {
    if value == "" || |value| > MAX_PORTABLE_PATH_BYTES || value[0] == '/' || value[|value| - 1] == '/' || '\\' in value
    then Err(InvalidPath(value))
    else
      var normalized := u.nfc(value);
      var components := Split(normalized);
      if |normalized| > MAX_PORTABLE_PATH_BYTES
         || |components| > MAX_PATH_COMPONENTS
         || exists i :: 0 <= i < |components| && !ValidComponent(u, components[i])
      then Err(InvalidPath(value))
      else
        var keys := ComponentKeys(u, components);
        Ok(PathParts(normalized, Join(keys), keys))
  }

  // The fields of a parsed path: its normal form, and one key for each component of it.  The text it was parsed
  // from is relative, and no component of it climbs or is empty.
  lemma ParseFields(u: Unicode, value: string)
    ensures match Parse(u, value)
      case Ok(p) =>
        var parts := Split(u.nfc(value));
        && p.value == u.nfc(value) && |p.componentKeys| == |parts| <= MAX_PATH_COMPONENTS
        && (forall i :: 0 <= i < |parts| ==> p.componentKeys[i] == u.nfkc(u.caseFold(u.nfkc(parts[i]))))
        && p.collisionKey == Join(p.componentKeys)
        && (forall i :: 0 <= i < |parts| ==> parts[i] !in {"", ".", ".."} && |parts[i]| <= MAX_COMPONENT_BYTES)
        && value != "" && value[0] != '/' && '\\' !in value
      case Err(error) => error == InvalidPath(value)
  {
    JoinSplit(u.nfc(value));
    hide Split, Join, HasControl, HasForbidden, ReservedStem, Stem;
  }

  // An ancestor of a path: its spelling is the front of the path's own, up to a separator, and its key the
  // front of the path's key.
  lemma AncestorText(p: PortablePath, i: nat)
    requires 1 <= i < Length(p)
    ensures DirSpelling(p, i) + "/" <= p.value && |Split(DirSpelling(p, i))| == i
    ensures DirKey(p, i) + "/" <= p.collisionKey
  {
    SplitHasNoSlash(p.value);
    JoinSplit(p.value);
    SplitJoin(Split(p.value)[..i]);
    JoinFrontOf(Split(p.value), i);
    JoinFrontOf(p.componentKeys, i);
  }

  // The rest of the artifact code only calls the parser, so its model holds for every one.
  type Parser = string -> Result<PortablePath, ArtifactError>

  function PortableParser(u: Unicode): Parser {
    (value: string) => Parse(u, value)
  }

  // ---- The namespace ---------------------------------------------------------------------------------

  datatype Namespace = Namespace(
    files: map<string, (string, string)>,
    directories: map<string, string>,
    components: nat,
    prefixBytes: nat)

  const EMPTY_NAMESPACE := Namespace(map[], map[], 0, 0)

  function Length(p: PortablePath): (n: nat)
    ensures n == |p.componentKeys| == |Split(p.value)| && n >= 1
  {
    |p.componentKeys|
  }

  // The key and the spelling of the directory made of the first i components.
  function DirKey(p: PortablePath, i: nat): string
    requires i <= Length(p)
  {
    Join(p.componentKeys[..i])
  }

  function DirSpelling(p: PortablePath, i: nat): string
    requires i <= Length(p)
  {
    Join(Split(p.value)[..i])
  }

  // insert from directory level i on: register the ancestors, stop at the first conflict.
  function InsertDirectories(ns: Namespace, p: PortablePath, i: nat): (Namespace, Option<ArtifactError>)
    requires 1 <= i <= Length(p)
    decreases Length(p) - i
  {
    if i == Length(p) then (ns, None)
    else
      var key, spelling := DirKey(p, i), DirSpelling(p, i);
      if key in ns.files then (ns, Some(NamespaceCollision(p.value, ns.files[key].0)))
      else if key in ns.directories then
        if ns.directories[key] != spelling then (ns, Some(NamespaceCollision(p.value, ns.directories[key])))
        else InsertDirectories(ns, p, i + 1)
      else
        var bytes := ns.prefixBytes + |key| + |spelling|;
        if bytes > MAX_NAMESPACE_PREFIX_BYTES then (ns, Some(InvalidReceipt))
        else InsertDirectories(ns.(directories := ns.directories[key := spelling], prefixBytes := bytes), p, i + 1)
  }

  // insert.  A failed insert may leave ancestors of the path behind.
  function InsertOne(ns: Namespace, p: PortablePath, owner: string): (Namespace, Option<ArtifactError>) {
    if ns.components + Length(p) > MAX_NAMESPACE_COMPONENTS then (ns, Some(InvalidReceipt))
    else if p.collisionKey in ns.files then (ns, Some(NamespaceCollision(p.value, ns.files[p.collisionKey].0)))
    else
      var (t, error) := InsertDirectories(ns, p, 1);
      if error.Some? then (t, error)
      else if p.collisionKey in t.directories then
        (t, Some(NamespaceCollision(p.value, t.directories[p.collisionKey])))
      else
        (t.(files := t.files[p.collisionKey := (p.value, owner)], components := ns.components + Length(p)), None)
  }

  datatype Entry = Entry(path: PortablePath, owner: string)

  // A sequence of inserts up to the first failure.
  function InsertAll(ns: Namespace, entries: seq<Entry>): (Namespace, Option<ArtifactError>)
    decreases |entries|
  {
    if entries == [] then (ns, None)
    else
      var (t, error) := InsertOne(ns, entries[0].path, entries[0].owner);
      if error.Some? then (t, error) else InsertAll(t, entries[1..])
  }

  predicate Accepts(entries: seq<Entry>) {
    InsertAll(EMPTY_NAMESPACE, entries).1.None?
  }

  lemma {:induction false} InsertAllAppend(ns: Namespace, entries: seq<Entry>, e: Entry)
    ensures var (t, error) := InsertAll(ns, entries);
      InsertAll(ns, entries + [e]) == if error.Some? then (t, error) else InsertOne(t, e.path, e.owner)
    decreases |entries|
  {
    var all := entries + [e];
    if entries == [] {
      assert all == [e] && all[1..] == [];
    } else {
      var (t, error) := InsertOne(ns, entries[0].path, entries[0].owner);
      assert all[0] == entries[0] && all[1..] == entries[1..] + [e];
      InsertAllAppend(t, entries[1..], e);
    }
  }

  // ---- The pairwise oracle ---------------------------------------------------------------------------

  // Ancestors of a path as pairs of key and spelling.
  function Directories(p: PortablePath): set<(string, string)> {
    set i | 1 <= i < Length(p) :: (DirKey(p, i), DirSpelling(p, i))
  }

  predicate IsDirectoryOf(key: string, p: PortablePath) {
    exists i :: 1 <= i < Length(p) && key == DirKey(p, i)
  }

  predicate PairOk(p: PortablePath, q: PortablePath) {
    && p.collisionKey != q.collisionKey
    && !IsDirectoryOf(p.collisionKey, q)
    && !IsDirectoryOf(q.collisionKey, p)
    && (forall i, j :: 1 <= i < Length(p) && 1 <= j < Length(q) && DirKey(p, i) == DirKey(q, j) ==>
          DirSpelling(p, i) == DirSpelling(q, j))
  }

  ghost predicate Compatible(entries: seq<Entry>) {
    forall i, j :: 0 <= i < j < |entries| ==> PairOk(entries[i].path, entries[j].path)
  }

  function TotalComponents(entries: seq<Entry>): nat {
    if entries == [] then 0 else TotalComponents(entries[..|entries| - 1]) + Length(entries[|entries| - 1].path)
  }

  ghost function AllDirectories(entries: seq<Entry>): set<(string, string)> {
    set i, d | 0 <= i < |entries| && d in Directories(entries[i].path) :: d
  }

  function PairBytes(d: (string, string)): nat {
    |d.0| + |d.1|
  }

  ghost predicate Fits(entries: seq<Entry>) {
    && Compatible(entries)
    && TotalComponents(entries) <= MAX_NAMESPACE_COMPONENTS
    && Sum(AllDirectories(entries), PairBytes) <= MAX_NAMESPACE_PREFIX_BYTES
  }

  function Pairs(m: map<string, string>): set<(string, string)> {
    set key | key in m :: (key, m[key])
  }

  // ---- The index represents what has been inserted ---------------------------------------------------

  ghost predicate Holds(done: seq<Entry>, key: string) {
    exists i :: 0 <= i < |done| && done[i].path.collisionKey == key
  }

  ghost predicate Represents(ns: Namespace, done: seq<Entry>) {
    && (forall key :: key in ns.files <==> Holds(done, key))
    && Pairs(ns.directories) == AllDirectories(done)
    && ns.components == TotalComponents(done)
    && ns.prefixBytes == Sum(Pairs(ns.directories), PairBytes)
  }

  lemma EmptyRepresents()
    ensures Represents(EMPTY_NAMESPACE, [])
  {
    assert AllDirectories([]) == {};
  }

  ghost predicate LevelFree(ns: Namespace, p: PortablePath, j: nat)
    requires j <= Length(p)
  {
    && DirKey(p, j) !in ns.files
    && (DirKey(p, j) in ns.directories ==> ns.directories[DirKey(p, j)] == DirSpelling(p, j))
  }

  // Levels i and up of p do not conflict with what ns holds.
  ghost predicate LevelsFree(ns: Namespace, p: PortablePath, i: nat) {
    forall j :: i <= j < Length(p) ==> LevelFree(ns, p, j)
  }

  function DirectoriesFrom(p: PortablePath, i: nat): set<(string, string)>
    requires i >= 1
  {
    set j | i <= j < Length(p) :: (DirKey(p, j), DirSpelling(p, j))
  }

  lemma DirKeysDiffer(p: PortablePath, i: nat, j: nat)
    requires 1 <= i < j <= Length(p)
    ensures DirKey(p, i) != DirKey(p, j)
  {
    JoinGrows(p.componentKeys, i, j);
  }

  lemma FileIsNoDirectoryOfItself(p: PortablePath)
    ensures !IsDirectoryOf(p.collisionKey, p)
  {
    forall i | 1 <= i < Length(p) ensures p.collisionKey != DirKey(p, i) {
      DirKeysDiffer(p, i, Length(p));
      assert p.componentKeys[..Length(p)] == p.componentKeys;
    }
  }

  lemma PairsUpdate(m: map<string, string>, key: string, value: string)
    requires key !in m
    ensures Pairs(m[key := value]) == Pairs(m) + {(key, value)}
  {
    var n := m[key := value];
    forall d | d in Pairs(m) + {(key, value)} ensures d in Pairs(n) {
      assert d.0 in n && n[d.0] == d.1;
    }
  }

  // What InsertDirectories is to answer from level i on.
  ghost predicate DirectoriesFit(ns: Namespace, p: PortablePath, i: nat)
    requires i >= 1
  {
    && LevelsFree(ns, p, i)
    && Sum(Pairs(ns.directories) + DirectoriesFrom(p, i), PairBytes) <= MAX_NAMESPACE_PREFIX_BYTES
  }

  ghost predicate DirectoriesAdded(ns: Namespace, t: Namespace, p: PortablePath, i: nat)
    requires i >= 1
  {
    && t.files == ns.files && t.components == ns.components
    && Pairs(t.directories) == Pairs(ns.directories) + DirectoriesFrom(p, i)
    && t.prefixBytes == Sum(Pairs(t.directories), PairBytes)
  }

  ghost predicate BytesCounted(ns: Namespace) {
    ns.prefixBytes == Sum(Pairs(ns.directories), PairBytes) <= MAX_NAMESPACE_PREFIX_BYTES
  }

  lemma DirectoriesFromStep(p: PortablePath, i: nat)
    requires 1 <= i < Length(p)
    ensures DirectoriesFrom(p, i) == {(DirKey(p, i), DirSpelling(p, i))} + DirectoriesFrom(p, i + 1)
  {
  }

  lemma {:induction false} InsertDirectoriesSpec(ns: Namespace, p: PortablePath, i: nat)
    requires 1 <= i <= Length(p) && BytesCounted(ns)
    ensures var (t, error) := InsertDirectories(ns, p, i);
      (error.None? <==> DirectoriesFit(ns, p, i)) && (error.None? ==> DirectoriesAdded(ns, t, p, i))
    decreases Length(p) - i
  {
    if i == Length(p) {
      assert DirectoriesFrom(p, i) == {};
      assert Pairs(ns.directories) + DirectoriesFrom(p, i) == Pairs(ns.directories);
    } else {
      var key, spelling := DirKey(p, i), DirSpelling(p, i);
      if key in ns.files || (key in ns.directories && ns.directories[key] != spelling) {
        assert !LevelFree(ns, p, i);
      } else if key in ns.directories {
        KnownLevel(ns, p, i);
        InsertDirectoriesSpec(ns, p, i + 1);
      } else if ns.prefixBytes + |key| + |spelling| > MAX_NAMESPACE_PREFIX_BYTES {
        TooManyBytes(ns, p, i);
      } else {
        NewLevel(ns, p, i);
        InsertDirectoriesSpec(WithLevel(ns, p, i), p, i + 1);
      }
    }
  }

  function WithLevel(ns: Namespace, p: PortablePath, i: nat): Namespace
    requires 1 <= i < Length(p)
  {
    var key, spelling := DirKey(p, i), DirSpelling(p, i);
    ns.(directories := ns.directories[key := spelling], prefixBytes := ns.prefixBytes + |key| + |spelling|)
  }

  lemma KnownLevel(ns: Namespace, p: PortablePath, i: nat)
    requires 1 <= i < Length(p)
    requires LevelFree(ns, p, i) && DirKey(p, i) in ns.directories
    ensures DirectoriesFit(ns, p, i) <==> DirectoriesFit(ns, p, i + 1)
    ensures Pairs(ns.directories) + DirectoriesFrom(p, i) == Pairs(ns.directories) + DirectoriesFrom(p, i + 1)
  {
    var d := (DirKey(p, i), DirSpelling(p, i));
    DirectoriesFromStep(p, i);
    assert d in Pairs(ns.directories);
    assert Pairs(ns.directories) + DirectoriesFrom(p, i) == Pairs(ns.directories) + DirectoriesFrom(p, i + 1);
  }

  lemma LevelAdded(ns: Namespace, p: PortablePath, i: nat)
    requires 1 <= i < Length(p) && BytesCounted(ns) && DirKey(p, i) !in ns.directories
    ensures Pairs(WithLevel(ns, p, i).directories) == Pairs(ns.directories) + {(DirKey(p, i), DirSpelling(p, i))}
    ensures Sum(Pairs(WithLevel(ns, p, i).directories), PairBytes) == WithLevel(ns, p, i).prefixBytes
    ensures Pairs(ns.directories) + DirectoriesFrom(p, i)
      == Pairs(WithLevel(ns, p, i).directories) + DirectoriesFrom(p, i + 1)
  {
    var d := (DirKey(p, i), DirSpelling(p, i));
    PairsUpdate(ns.directories, d.0, d.1);
    assert d !in Pairs(ns.directories);
    SumAdd(Pairs(ns.directories), PairBytes, d);
    DirectoriesFromStep(p, i);
    assert Pairs(ns.directories) + ({d} + DirectoriesFrom(p, i + 1)) == Pairs(ns.directories) + {d} + DirectoriesFrom(p, i + 1);
  }

  lemma TooManyBytes(ns: Namespace, p: PortablePath, i: nat)
    requires 1 <= i < Length(p) && BytesCounted(ns) && DirKey(p, i) !in ns.directories
    requires WithLevel(ns, p, i).prefixBytes > MAX_NAMESPACE_PREFIX_BYTES
    ensures !DirectoriesFit(ns, p, i)
  {
    LevelAdded(ns, p, i);
    SumSubset(Pairs(WithLevel(ns, p, i).directories), Pairs(ns.directories) + DirectoriesFrom(p, i), PairBytes);
  }

  lemma NewLevel(ns: Namespace, p: PortablePath, i: nat)
    requires 1 <= i < Length(p) && BytesCounted(ns) && LevelFree(ns, p, i) && DirKey(p, i) !in ns.directories
    requires WithLevel(ns, p, i).prefixBytes <= MAX_NAMESPACE_PREFIX_BYTES
    ensures BytesCounted(WithLevel(ns, p, i))
    ensures DirectoriesFit(ns, p, i) <==> DirectoriesFit(WithLevel(ns, p, i), p, i + 1)
    ensures Pairs(ns.directories) + DirectoriesFrom(p, i)
      == Pairs(WithLevel(ns, p, i).directories) + DirectoriesFrom(p, i + 1)
  {
    LevelAdded(ns, p, i);
    LevelsFreeNext(ns, p, i);
  }

  // Registering level i changes nothing for the deeper levels.
  lemma LevelsFreeNext(ns: Namespace, p: PortablePath, i: nat)
    requires 1 <= i < Length(p) && LevelFree(ns, p, i)
    ensures LevelsFree(WithLevel(ns, p, i), p, i + 1) <==> LevelsFree(ns, p, i)
  {
    var next := WithLevel(ns, p, i);
    forall j | i < j < Length(p) ensures LevelFree(next, p, j) <==> LevelFree(ns, p, j) {
      DirKeysDiffer(p, i, j);
    }
  }

  // ---- One insert against the oracle -----------------------------------------------------------------

  lemma DirectoryHeld(ns: Namespace, done: seq<Entry>, key: string)
    requires Represents(ns, done)
    ensures key in ns.directories <==> exists i :: 0 <= i < |done| && IsDirectoryOf(key, done[i].path)
  {
    if key in ns.directories {
      assert (key, ns.directories[key]) in Pairs(ns.directories);
      var i :| 0 <= i < |done| && (key, ns.directories[key]) in Directories(done[i].path);
      assert IsDirectoryOf(key, done[i].path);
    }
    if i :| 0 <= i < |done| && IsDirectoryOf(key, done[i].path) {
      var k :| 1 <= k < Length(done[i].path) && key == DirKey(done[i].path, k);
      assert (key, DirSpelling(done[i].path, k)) in Directories(done[i].path);
      assert (key, DirSpelling(done[i].path, k)) in Pairs(ns.directories);
    }
  }

  lemma SpellingHeld(ns: Namespace, done: seq<Entry>, i: nat, k: nat)
    requires Represents(ns, done) && i < |done| && 1 <= k < Length(done[i].path)
    ensures DirKey(done[i].path, k) in ns.directories
    ensures ns.directories[DirKey(done[i].path, k)] == DirSpelling(done[i].path, k)
  {
    assert (DirKey(done[i].path, k), DirSpelling(done[i].path, k)) in Directories(done[i].path);
    assert (DirKey(done[i].path, k), DirSpelling(done[i].path, k)) in Pairs(ns.directories);
  }

  ghost predicate CompatibleWith(done: seq<Entry>, p: PortablePath) {
    forall i :: 0 <= i < |done| ==> PairOk(done[i].path, p)
  }

  // The three tests of insert are the pairwise test against everything inserted before.
  lemma IndexIsOracle(ns: Namespace, done: seq<Entry>, p: PortablePath)
    requires Represents(ns, done)
    ensures (p.collisionKey !in ns.files && LevelsFree(ns, p, 1) && p.collisionKey !in ns.directories)
      <==> CompatibleWith(done, p)
  {
    DirectoryHeld(ns, done, p.collisionKey);
    if p.collisionKey !in ns.files && LevelsFree(ns, p, 1) && p.collisionKey !in ns.directories {
      forall i | 0 <= i < |done| ensures PairOk(done[i].path, p) {
        FreeImpliesPairOk(ns, done, p, i);
      }
    }
    if CompatibleWith(done, p) {
      forall j | 1 <= j < Length(p) ensures LevelFree(ns, p, j) {
        PairOkImpliesFree(ns, done, p, j);
      }
    }
  }

  lemma FreeImpliesPairOk(ns: Namespace, done: seq<Entry>, p: PortablePath, i: nat)
    requires Represents(ns, done) && i < |done|
    requires p.collisionKey !in ns.files && LevelsFree(ns, p, 1) && p.collisionKey !in ns.directories
    ensures PairOk(done[i].path, p)
  {
    var q := done[i].path;
    assert q.collisionKey in ns.files;
    DirectoryHeld(ns, done, p.collisionKey);
    forall j | 1 <= j < Length(p) ensures q.collisionKey != DirKey(p, j) {
      assert LevelFree(ns, p, j);
    }
    forall k, j | 1 <= k < Length(q) && 1 <= j < Length(p) && DirKey(q, k) == DirKey(p, j)
      ensures DirSpelling(q, k) == DirSpelling(p, j)
    {
      assert LevelFree(ns, p, j);
      SpellingHeld(ns, done, i, k);
    }
  }

  lemma PairOkImpliesFree(ns: Namespace, done: seq<Entry>, p: PortablePath, j: nat)
    requires Represents(ns, done) && CompatibleWith(done, p) && 1 <= j < Length(p)
    ensures LevelFree(ns, p, j)
  {
    var key := DirKey(p, j);
    assert IsDirectoryOf(key, p);
    assert forall i :: 0 <= i < |done| ==> done[i].path.collisionKey != key;
    if key in ns.directories {
      assert (key, ns.directories[key]) in Pairs(ns.directories);
      var i :| 0 <= i < |done| && (key, ns.directories[key]) in Directories(done[i].path);
      var q := done[i].path;
      var k :| 1 <= k < Length(q) && (key, ns.directories[key]) == (DirKey(q, k), DirSpelling(q, k));
      assert PairOk(q, p);
    }
  }

  lemma AllDirectoriesAppend(done: seq<Entry>, e: Entry)
    ensures AllDirectories(done + [e]) == AllDirectories(done) + Directories(e.path)
    ensures TotalComponents(done + [e]) == TotalComponents(done) + Length(e.path)
  {
    var all := done + [e];
    assert all[..|done|] == done;
    forall d | d in AllDirectories(done) + Directories(e.path) ensures d in AllDirectories(all) {
      if d in AllDirectories(done) {
        var i :| 0 <= i < |done| && d in Directories(done[i].path);
        assert all[i] == done[i];
      } else {
        assert all[|done|] == e;
      }
    }
  }

  lemma CompatibleAppend(done: seq<Entry>, e: Entry)
    requires Compatible(done)
    ensures Compatible(done + [e]) <==> CompatibleWith(done, e.path)
  {
    var all := done + [e];
    if Compatible(all) {
      forall i | 0 <= i < |done| ensures PairOk(done[i].path, e.path) {
        assert PairOk(all[i].path, all[|done|].path);
      }
    }
  }

  lemma InsertSpec(ns: Namespace, done: seq<Entry>, e: Entry)
    requires Represents(ns, done) && Fits(done)
    ensures var (t, error) := InsertOne(ns, e.path, e.owner);
      && (error.None? <==> Fits(done + [e]))
      && (error.None? ==> Represents(t, done + [e]))
  {
    var p := e.path;
    AllDirectoriesAppend(done, e);
    CompatibleAppend(done, e);
    IndexIsOracle(ns, done, p);
    InsertDirectoriesSpec(ns, p, 1);
    assert DirectoriesFrom(p, 1) == Directories(p);
    FileIsNoDirectoryOfItself(p);
    var (t, error) := InsertDirectories(ns, p, 1);
    if error.None? {
      FileKeyAmongDirectories(ns, t, p);
      InsertedFiles(ns, done, e);
    }
  }

  lemma FileKeyAmongDirectories(ns: Namespace, t: Namespace, p: PortablePath)
    requires Pairs(t.directories) == Pairs(ns.directories) + Directories(p)
    ensures p.collisionKey in t.directories <==> p.collisionKey in ns.directories
  {
    FileIsNoDirectoryOfItself(p);
    if p.collisionKey in t.directories {
      assert (p.collisionKey, t.directories[p.collisionKey]) in Pairs(t.directories);
    }
    if p.collisionKey in ns.directories {
      assert (p.collisionKey, ns.directories[p.collisionKey]) in Pairs(t.directories);
    }
  }

  lemma InsertedFiles(ns: Namespace, done: seq<Entry>, e: Entry)
    requires forall key :: key in ns.files <==> Holds(done, key)
    ensures forall key :: (key == e.path.collisionKey || key in ns.files) <==> Holds(done + [e], key)
  {
    var all := done + [e];
    forall key | key == e.path.collisionKey || key in ns.files
      ensures Holds(all, key)
    {
      if key in ns.files {
        var i :| 0 <= i < |done| && done[i].path.collisionKey == key;
        assert all[i].path.collisionKey == key;
      } else {
        assert all[|done|].path.collisionKey == key;
      }
    }
  }

  // ---- Whole sequences of inserts --------------------------------------------------------------------

  // What fits keeps fitting when entries are dropped from the end.
  lemma FitsPrefix(done: seq<Entry>, rest: seq<Entry>)
    requires Fits(done + rest)
    ensures Fits(done)
  {
    var all := done + rest;
    forall i, j | 0 <= i < j < |done| ensures PairOk(done[i].path, done[j].path) {
      assert PairOk(all[i].path, all[j].path);
    }
    TotalComponentsConcat(done, rest);
    forall d | d in AllDirectories(done) ensures d in AllDirectories(all) {
      var i :| 0 <= i < |done| && d in Directories(done[i].path);
      assert d in Directories(all[i].path);
    }
    SumSubset(AllDirectories(done), AllDirectories(all), PairBytes);
  }

  lemma {:induction false} TotalComponentsConcat(done: seq<Entry>, rest: seq<Entry>)
    ensures TotalComponents(done + rest) == TotalComponents(done) + TotalComponents(rest)
  {
    if rest == [] {
      assert done + rest == done;
    } else {
      TotalComponentsConcat(done, rest[..|rest| - 1]);
      assert (done + rest)[..|done + rest| - 1] == done + rest[..|rest| - 1];
    }
  }

  // The outcome of inserting everything in all, ending in r.
  ghost predicate Outcome(r: (Namespace, Option<ArtifactError>), all: seq<Entry>) {
    (r.1.None? <==> Fits(all)) && (r.1.None? ==> Represents(r.0, all))
  }

  lemma Misfit(done: seq<Entry>, rest: seq<Entry>)
    requires !Fits(done)
    ensures !Fits(done + rest)
  {
    if Fits(done + rest) {
      FitsPrefix(done, rest);
    }
  }

  lemma {:induction false} InsertAllSpec(ns: Namespace, done: seq<Entry>, entries: seq<Entry>)
    requires Represents(ns, done) && Fits(done)
    ensures Outcome(InsertAll(ns, entries), done + entries)
    decreases |entries|
  {
    if entries == [] {
      assert done + entries == done;
    } else {
      InsertAllStep(ns, done, entries[0], entries[1..]);
      assert done + entries == done + [entries[0]] + entries[1..];
      var (t, error) := InsertOne(ns, entries[0].path, entries[0].owner);
      if error.None? {
        InsertAllSpec(t, done + [entries[0]], entries[1..]);
      }
    }
  }

  lemma InsertAllStep(ns: Namespace, done: seq<Entry>, e: Entry, rest: seq<Entry>)
    requires Represents(ns, done) && Fits(done)
    ensures var (t, error) := InsertOne(ns, e.path, e.owner);
      if error.None? then Represents(t, done + [e]) && Fits(done + [e]) else !Fits(done + [e] + rest)
  {
    InsertSpec(ns, done, e);
    if !Fits(done + [e]) {
      Misfit(done + [e], rest);
    }
  }

  lemma NothingFits()
    ensures Fits([])
  {
    assert AllDirectories([]) == {};
  }

  // The index accepts a sequence of paths exactly when the paths are pairwise compatible and within the limits.
  lemma AcceptedIff(entries: seq<Entry>)
    ensures Accepts(entries) <==> Fits(entries)
    ensures Accepts(entries) ==> Represents(InsertAll(EMPTY_NAMESPACE, entries).0, entries)
  {
    EmptyRepresents();
    NothingFits();
    InsertAllSpec(EMPTY_NAMESPACE, [], entries);
    assert [] + entries == entries;
  }

  // A rejected sequence stops at its first misfit, with what one insert leaves there.
  lemma RejectedAtFirstMisfit(entries: seq<Entry>) returns (n: nat)
    requires !Accepts(entries)
    ensures n < |entries| && Fits(entries[..n]) && !Fits(entries[..n + 1])
    ensures var ns := InsertAll(EMPTY_NAMESPACE, entries[..n]).0;
      && Represents(ns, entries[..n])
      && InsertOne(ns, entries[n].path, entries[n].owner).1.Some?
      && InsertAll(EMPTY_NAMESPACE, entries) == InsertOne(ns, entries[n].path, entries[n].owner)
  {
    n := FirstRejected(entries);
    AcceptedIff(entries[..n]);
    AcceptedIff(entries[..n + 1]);
  }

  lemma {:induction false} FirstRejected(entries: seq<Entry>) returns (n: nat)
    requires !Accepts(entries)
    ensures n < |entries| && Accepts(entries[..n]) && !Accepts(entries[..n + 1])
    ensures var ns := InsertAll(EMPTY_NAMESPACE, entries[..n]).0;
      && InsertOne(ns, entries[n].path, entries[n].owner).1.Some?
      && InsertAll(EMPTY_NAMESPACE, entries) == InsertOne(ns, entries[n].path, entries[n].owner)
    decreases |entries|
  {
    var last := |entries| - 1;
    var front := entries[..last];
    assert entries == front + [entries[last]] && entries[..last + 1] == entries;
    InsertAllAppend(EMPTY_NAMESPACE, front, entries[last]);
    if Accepts(front) {
      n := last;
    } else {
      n := FirstRejected(front);
      assert front[..n] == entries[..n] && front[..n + 1] == entries[..n + 1];
    }
  }

  // The index holds every accepted path under its key, with its own spelling and its own owner.
  lemma {:induction false} FilesRecordEntries(entries: seq<Entry>, i: nat)
    requires Accepts(entries) && i < |entries|
    ensures var files, e := InsertAll(EMPTY_NAMESPACE, entries).0.files, entries[i];
      e.path.collisionKey in files && files[e.path.collisionKey] == (e.path.value, e.owner)
    decreases |entries|
  {
    var last := |entries| - 1;
    var front := entries[..last];
    assert entries == front + [entries[last]];
    InsertAllAppend(EMPTY_NAMESPACE, front, entries[last]);
    DirectoriesLeft(InsertAll(EMPTY_NAMESPACE, front).0, entries[last].path, 1);
    if i < last {
      FilesRecordEntries(front, i);
    }
  }

  // ---- What a rejection says -------------------------------------------------------------------------

  // The spelling `existing`, of an inserted path or of one of its ancestors, is in the way of p.
  ghost predicate InTheWay(q: PortablePath, p: PortablePath, existing: string) {
    || (existing == q.value && (q.collisionKey == p.collisionKey || IsDirectoryOf(q.collisionKey, p)))
    || exists k :: 1 <= k < Length(q) && existing == DirSpelling(q, k) && DirectoryInTheWay(DirKey(q, k), p, existing)
  }

  predicate DirectoryInTheWay(key: string, p: PortablePath, existing: string) {
    key == p.collisionKey || exists j :: 1 <= j < Length(p) && DirKey(p, j) == key && DirSpelling(p, j) != existing
  }

  ghost predicate PrefixesTooLong(done: seq<Entry>, p: PortablePath) {
    Sum(AllDirectories(done) + Directories(p), PairBytes) > MAX_NAMESPACE_PREFIX_BYTES
  }

  // A level of p that is taken: by a file, or by a directory with another spelling.
  predicate LevelTaken(ns: Namespace, p: PortablePath, j: nat, existing: string)
    requires j <= Length(p)
  {
    || (DirKey(p, j) in ns.files && existing == ns.files[DirKey(p, j)].0)
    || (DirKey(p, j) in ns.directories && existing == ns.directories[DirKey(p, j)] != DirSpelling(p, j))
  }

  ghost predicate SomeLevelTaken(ns: Namespace, p: PortablePath, i: nat, existing: string) {
    exists j :: i <= j < Length(p) && LevelTaken(ns, p, j, existing)
  }

  lemma {:induction false} DirectoriesError(ns: Namespace, p: PortablePath, i: nat)
    requires 1 <= i <= Length(p) && BytesCounted(ns) && InsertDirectories(ns, p, i).1.Some?
    ensures match InsertDirectories(ns, p, i).1.value
      case NamespaceCollision(path, existing) => path == p.value && SomeLevelTaken(ns, p, i, existing)
      case InvalidReceipt => Sum(Pairs(ns.directories) + DirectoriesFrom(p, i), PairBytes) > MAX_NAMESPACE_PREFIX_BYTES
      case _ => false
    decreases Length(p) - i
  {
    var key, spelling := DirKey(p, i), DirSpelling(p, i);
    if key in ns.files {
      assert LevelTaken(ns, p, i, ns.files[key].0);
    } else if key in ns.directories && ns.directories[key] != spelling {
      assert LevelTaken(ns, p, i, ns.directories[key]);
    } else if key in ns.directories {
      KnownLevel(ns, p, i);
      DirectoriesError(ns, p, i + 1);
    } else if ns.prefixBytes + |key| + |spelling| > MAX_NAMESPACE_PREFIX_BYTES {
      LevelAdded(ns, p, i);
      SumSubset(Pairs(WithLevel(ns, p, i).directories), Pairs(ns.directories) + DirectoriesFrom(p, i), PairBytes);
    } else {
      LevelAdded(ns, p, i);
      DirectoriesError(WithLevel(ns, p, i), p, i + 1);
      LaterLevelTaken(ns, p, i);
    }
  }

  lemma LaterLevelTaken(ns: Namespace, p: PortablePath, i: nat)
    requires 1 <= i < Length(p)
    ensures forall existing :: SomeLevelTaken(WithLevel(ns, p, i), p, i + 1, existing) ==> SomeLevelTaken(ns, p, i, existing)
  {
    forall existing, j | i < j < Length(p) && LevelTaken(WithLevel(ns, p, i), p, j, existing)
      ensures SomeLevelTaken(ns, p, i, existing)
    {
      DirKeysDiffer(p, i, j);
      assert LevelTaken(ns, p, j, existing);
    }
  }

  // A file of the namespace that has the key of p or of one of its ancestors.
  lemma FileInTheWay(done: seq<Entry>, p: PortablePath, key: string)
    requires Accepts(done) && key in InsertAll(EMPTY_NAMESPACE, done).0.files
    requires key == p.collisionKey || IsDirectoryOf(key, p)
    ensures exists i :: 0 <= i < |done| && InTheWay(done[i].path, p, InsertAll(EMPTY_NAMESPACE, done).0.files[key].0)
  {
    AcceptedIff(done);
    assert Holds(done, key);
    var i :| 0 <= i < |done| && done[i].path.collisionKey == key;
    FilesRecordEntries(done, i);
    assert InTheWay(done[i].path, p, done[i].path.value);
  }

  lemma DirectoryOfSome(ns: Namespace, done: seq<Entry>, p: PortablePath, key: string)
    requires Represents(ns, done) && key in ns.directories && DirectoryInTheWay(key, p, ns.directories[key])
    ensures exists i :: 0 <= i < |done| && InTheWay(done[i].path, p, ns.directories[key])
  {
    assert (key, ns.directories[key]) in Pairs(ns.directories);
    var i :| 0 <= i < |done| && (key, ns.directories[key]) in Directories(done[i].path);
    var q := done[i].path;
    var k :| 1 <= k < Length(q) && (key, ns.directories[key]) == (DirKey(q, k), DirSpelling(q, k));
    assert InTheWay(q, p, ns.directories[key]);
  }

  lemma LevelInTheWay(done: seq<Entry>, p: PortablePath, existing: string)
    requires Accepts(done) && SomeLevelTaken(InsertAll(EMPTY_NAMESPACE, done).0, p, 1, existing)
    ensures exists i :: 0 <= i < |done| && InTheWay(done[i].path, p, existing)
  {
    var ns := InsertAll(EMPTY_NAMESPACE, done).0;
    AcceptedIff(done);
    var j :| 1 <= j < Length(p) && LevelTaken(ns, p, j, existing);
    var key := DirKey(p, j);
    if key in ns.files && existing == ns.files[key].0 {
      FileInTheWay(done, p, key);
    } else {
      DirectoryOfSome(ns, done, p, key);
    }
  }

  // The first path that is rejected is rejected for what is the case: a collision names the path, and the
  // spelling of something inserted before that is in its way; otherwise one of the two budgets is exceeded.
  lemma RejectionIsReal(done: seq<Entry>, e: Entry)
    requires Accepts(done) && !Accepts(done + [e])
    ensures InsertAll(EMPTY_NAMESPACE, done + [e]).1.Some?
    ensures match InsertAll(EMPTY_NAMESPACE, done + [e]).1.value
      case NamespaceCollision(path, existing) =>
        path == e.path.value && exists i :: 0 <= i < |done| && InTheWay(done[i].path, e.path, existing)
      case InvalidReceipt =>
        TotalComponents(done) + Length(e.path) > MAX_NAMESPACE_COMPONENTS || PrefixesTooLong(done, e.path)
      case _ => false
  {
    var ns, p := InsertAll(EMPTY_NAMESPACE, done).0, e.path;
    AcceptedIff(done);
    InsertAllAppend(EMPTY_NAMESPACE, done, e);
    if ns.components + Length(p) <= MAX_NAMESPACE_COMPONENTS {
      RejectionOfPath(done, e);
    }
  }

  lemma RejectionOfPath(done: seq<Entry>, e: Entry)
    requires Accepts(done) && InsertOne(InsertAll(EMPTY_NAMESPACE, done).0, e.path, e.owner).1.Some?
    requires InsertAll(EMPTY_NAMESPACE, done).0.components + Length(e.path) <= MAX_NAMESPACE_COMPONENTS
    ensures match InsertOne(InsertAll(EMPTY_NAMESPACE, done).0, e.path, e.owner).1.value
      case NamespaceCollision(path, existing) =>
        path == e.path.value && exists i :: 0 <= i < |done| && InTheWay(done[i].path, e.path, existing)
      case InvalidReceipt => PrefixesTooLong(done, e.path)
      case _ => false
  {
    var ns, p := InsertAll(EMPTY_NAMESPACE, done).0, e.path;
    if p.collisionKey in ns.files {
      FileInTheWay(done, p, p.collisionKey);
    } else if InsertDirectories(ns, p, 1).1.Some? {
      RejectionOfAncestors(done, p);
    } else {
      RejectionAsDirectory(done, p);
    }
    hide InTheWay, PrefixesTooLong, InsertAll, InsertDirectories, Accepts;
  }

  lemma RejectionOfAncestors(done: seq<Entry>, p: PortablePath)
    requires Accepts(done) && InsertDirectories(InsertAll(EMPTY_NAMESPACE, done).0, p, 1).1.Some?
    ensures match InsertDirectories(InsertAll(EMPTY_NAMESPACE, done).0, p, 1).1.value
      case NamespaceCollision(path, existing) => path == p.value && exists i :: 0 <= i < |done| && InTheWay(done[i].path, p, existing)
      case InvalidReceipt => PrefixesTooLong(done, p)
      case _ => false
  {
    var ns := InsertAll(EMPTY_NAMESPACE, done).0;
    AcceptedIff(done);
    assert DirectoriesFrom(p, 1) == Directories(p);
    DirectoriesError(ns, p, 1);
    hide InTheWay, InsertAll, InsertDirectories, SomeLevelTaken, Accepts;
    var error := InsertDirectories(ns, p, 1).1.value;
    if error.NamespaceCollision? {
      LevelInTheWay(done, p, error.existing);
    }
  }

  // A key among the directories that is not an ancestor of the path was there before, with its spelling.
  lemma DirectoryWasThere(ns: Namespace, p: PortablePath)
    requires BytesCounted(ns) && InsertDirectories(ns, p, 1).1.None?
    requires p.collisionKey in InsertDirectories(ns, p, 1).0.directories
    ensures p.collisionKey in ns.directories
    ensures InsertDirectories(ns, p, 1).0.directories[p.collisionKey] == ns.directories[p.collisionKey]
  {
    var t := InsertDirectories(ns, p, 1).0;
    InsertDirectoriesSpec(ns, p, 1);
    assert DirectoriesFrom(p, 1) == Directories(p);
    hide InsertDirectories, DirectoriesFit;
    FileKeyAmongDirectories(ns, t, p);
    KeptSpelling(ns, t, p);
  }

  lemma RejectionAsDirectory(done: seq<Entry>, p: PortablePath)
    requires Accepts(done)
    requires var (t, error) := InsertDirectories(InsertAll(EMPTY_NAMESPACE, done).0, p, 1);
      error.None? && p.collisionKey in t.directories
    ensures var t := InsertDirectories(InsertAll(EMPTY_NAMESPACE, done).0, p, 1).0;
      exists i :: 0 <= i < |done| && InTheWay(done[i].path, p, t.directories[p.collisionKey])
  {
    hide InTheWay, InsertAll, InsertDirectories, DirKey, DirSpelling;
    var ns := InsertAll(EMPTY_NAMESPACE, done).0;
    AcceptedIff(done);
    DirectoryWasThere(ns, p);
    DirectoryOfSome(ns, done, p, p.collisionKey);
  }

  lemma KeptSpelling(ns: Namespace, t: Namespace, p: PortablePath)
    requires Pairs(t.directories) == Pairs(ns.directories) + Directories(p) && p.collisionKey in ns.directories
    ensures p.collisionKey in t.directories && t.directories[p.collisionKey] == ns.directories[p.collisionKey]
  {
    assert (p.collisionKey, ns.directories[p.collisionKey]) in Pairs(t.directories);
  }

  // ---- The order of insertion does not matter --------------------------------------------------------

  lemma {:induction false} TotalComponentsPermuted(a: seq<Entry>, b: seq<Entry>)
    requires Permuted(a, b)
    ensures TotalComponents(a) == TotalComponents(b)
    decreases |a|
  {
    if a == [] {
      PermutedEmpty(b);
    } else {
      var n := |a| - 1;
      var i := FindPermuted(a, b, n);
      RemoveBoth(a, b, n, i);
      assert RemoveAt(a, n) == a[..n];
      TotalComponentsPermuted(RemoveAt(a, n), RemoveAt(b, i));
      TotalComponentsRemove(b, i);
    }
  }

  lemma TotalComponentsRemove(b: seq<Entry>, i: nat)
    requires i < |b|
    ensures TotalComponents(b) == TotalComponents(RemoveAt(b, i)) + Length(b[i].path)
  {
    SplitAround(b, i);
    TotalComponentsMiddle(b[..i], b[i], b[i + 1..]);
  }

  lemma TotalComponentsMiddle(front: seq<Entry>, e: Entry, rest: seq<Entry>)
    ensures TotalComponents(front + ([e] + rest)) == TotalComponents(front + rest) + Length(e.path)
  {
    TotalComponentsConcat(front, [e] + rest);
    TotalComponentsConcat([e], rest);
    TotalComponentsConcat(front, rest);
    TotalComponentsOne(e);
  }

  lemma TotalComponentsOne(e: Entry)
    ensures TotalComponents([e]) == Length(e.path)
  {
    assert [e][..0] == [];
  }

  lemma PairOkSymmetric(p: PortablePath, q: PortablePath)
    ensures PairOk(p, q) <==> PairOk(q, p)
  {
  }

  lemma CompatiblePermuted(a: seq<Entry>, b: seq<Entry>)
    requires Permuted(a, b) && Compatible(a)
    ensures Compatible(b)
  {
    forall i, j | 0 <= i < j < |b| ensures PairOk(b[i].path, b[j].path) {
      var k, l := FindTwoPermuted(b, a, i, j);
      PairOkSymmetric(a[k].path, a[l].path);
    }
  }

  lemma FitsPermuted(a: seq<Entry>, b: seq<Entry>)
    requires Permuted(a, b) && Fits(a)
    ensures Fits(b)
  {
    CompatiblePermuted(a, b);
    TotalComponentsPermuted(a, b);
    PermutedMembers(a, b);
    assert AllDirectories(a) == AllDirectories(b) by {
      forall d | d in AllDirectories(a) ensures d in AllDirectories(b) {
        var i :| 0 <= i < |a| && d in Directories(a[i].path);
        assert a[i] in b;
      }
      forall d | d in AllDirectories(b) ensures d in AllDirectories(a) {
        var i :| 0 <= i < |b| && d in Directories(b[i].path);
        assert b[i] in a;
      }
    }
  }

  lemma OrderIndependent(a: seq<Entry>, b: seq<Entry>)
    requires Permuted(a, b)
    ensures Accepts(a) <==> Accepts(b)
  {
    AcceptedIff(a);
    AcceptedIff(b);
    if Fits(a) {
      FitsPermuted(a, b);
    }
    if Fits(b) {
      FitsPermuted(b, a);
    }
  }

  // ---- After a failed insert -------------------------------------------------------------------------

  // What a failed or unfinished insert leaves: the files as they were, and levels i to n of its path added.
  ghost predicate Leaves(ns: Namespace, t: Namespace, p: PortablePath, i: nat, n: nat)
    requires 1 <= i
  {
    && i <= n <= Length(p)
    && t.files == ns.files && t.components == ns.components
    && Pairs(t.directories) == Pairs(ns.directories) + DirectoriesBetween(p, i, n)
  }

  // However far the loop over the ancestors gets, it registers a first few of them and nothing else.
  lemma {:induction false} DirectoriesLeft(ns: Namespace, p: PortablePath, i: nat)
    requires 1 <= i <= Length(p)
    ensures exists n :: Leaves(ns, InsertDirectories(ns, p, i).0, p, i, n)
    decreases Length(p) - i
  {
    var t := InsertDirectories(ns, p, i).0;
    if t == ns {
      LeavesNothing(ns, p, i);
    } else if DirKey(p, i) in ns.directories {
      DirectoriesLeft(ns, p, i + 1);
      var n :| Leaves(ns, t, p, i + 1, n);
      LeavesKnown(ns, t, p, i, n);
    } else {
      DirectoriesLeft(WithLevel(ns, p, i), p, i + 1);
      var n :| Leaves(WithLevel(ns, p, i), t, p, i + 1, n);
      LeavesNew(ns, t, p, i, n);
    }
  }

  // A failed insert keeps files and component count, and leaves at most the first few ancestors of its path.
  lemma FailedInsertKeeps(ns: Namespace, p: PortablePath, owner: string)
    requires InsertOne(ns, p, owner).1.Some?
    ensures exists n :: Leaves(ns, InsertOne(ns, p, owner).0, p, 1, n)
  {
    LeavesNothing(ns, p, 1);
    DirectoriesLeft(ns, p, 1);
  }

  predicate LevelRegistered(ns: Namespace, p: PortablePath, j: nat)
    requires j <= Length(p)
  {
    && DirKey(p, j) !in ns.files
    && DirKey(p, j) in ns.directories && ns.directories[DirKey(p, j)] == DirSpelling(p, j)
  }

  // Level k is the first ancestor from level i on that is not registered; it is free and its bytes fit.
  predicate RegistersFirst(ns: Namespace, p: PortablePath, i: nat, k: nat) {
    && i <= k < Length(p)
    && (forall j :: i <= j < k ==> LevelRegistered(ns, p, j))
    && DirKey(p, k) !in ns.files && DirKey(p, k) !in ns.directories
    && ns.prefixBytes + |DirKey(p, k)| + |DirSpelling(p, k)| <= MAX_NAMESPACE_PREFIX_BYTES
  }

  ghost predicate RegistersSome(ns: Namespace, p: PortablePath, i: nat) {
    exists k: nat :: RegistersFirst(ns, p, i, k)
  }

  lemma {:induction false} DirectoriesGrow(ns: Namespace, p: PortablePath, i: nat)
    requires 1 <= i <= Length(p)
    ensures ns.directories.Keys <= InsertDirectories(ns, p, i).0.directories.Keys
    decreases Length(p) - i
  {
    if i < Length(p) {
      DirectoriesGrow(ns, p, i + 1);
      DirectoriesGrow(WithLevel(ns, p, i), p, i + 1);
    }
  }

  lemma {:induction false} NothingRegisteredIff(ns: Namespace, p: PortablePath, i: nat)
    requires 1 <= i <= Length(p)
    ensures InsertDirectories(ns, p, i).0 == ns <==> !RegistersSome(ns, p, i)
    decreases Length(p) - i
  {
    if i < Length(p) {
      if LevelRegistered(ns, p, i) {
        NothingRegisteredIff(ns, p, i + 1);
        SkipRegistered(ns, p, i);
      } else if RegistersFirst(ns, p, i, i) {
        assert RegistersSome(ns, p, i);
        DirectoriesGrow(WithLevel(ns, p, i), p, i + 1);
        assert DirKey(p, i) in WithLevel(ns, p, i).directories.Keys;
      } else {
        NoneLater(ns, p, i);
      }
    }
  }

  lemma SkipRegistered(ns: Namespace, p: PortablePath, i: nat)
    requires 1 <= i < Length(p) && LevelRegistered(ns, p, i)
    ensures RegistersSome(ns, p, i) <==> RegistersSome(ns, p, i + 1)
  {
    if RegistersSome(ns, p, i) {
      var k: nat :| RegistersFirst(ns, p, i, k);
      assert RegistersFirst(ns, p, i + 1, k);
    }
    if RegistersSome(ns, p, i + 1) {
      var k: nat :| RegistersFirst(ns, p, i + 1, k);
      assert RegistersFirst(ns, p, i, k);
    }
  }

  lemma NoneLater(ns: Namespace, p: PortablePath, i: nat)
    requires 1 <= i < Length(p) && !LevelRegistered(ns, p, i) && !RegistersFirst(ns, p, i, i)
    ensures !RegistersSome(ns, p, i)
  {
  }

  // Exactly when a failed insert leaves the namespace as it was, read off the maps before the call: it fails
  // before the ancestors, or no ancestor is both the first unregistered one and one that can be registered.
  lemma FailedInsertChangesNothingIff(ns: Namespace, p: PortablePath, owner: string)
    requires InsertOne(ns, p, owner).1.Some?
    ensures InsertOne(ns, p, owner).0 == ns <==>
      || ns.components + Length(p) > MAX_NAMESPACE_COMPONENTS
      || p.collisionKey in ns.files
      || !RegistersSome(ns, p, 1)
  {
    NothingRegisteredIff(ns, p, 1);
  }

  lemma LeavesNothing(ns: Namespace, p: PortablePath, i: nat)
    requires 1 <= i <= Length(p)
    ensures Leaves(ns, ns, p, i, i)
  {
    assert DirectoriesBetween(p, i, i) == {};
  }

  lemma LeavesKnown(ns: Namespace, t: Namespace, p: PortablePath, i: nat, n: nat)
    requires 1 <= i < Length(p) && Leaves(ns, t, p, i + 1, n)
    requires DirKey(p, i) in ns.directories && ns.directories[DirKey(p, i)] == DirSpelling(p, i)
    ensures Leaves(ns, t, p, i, n)
  {
    var d := (DirKey(p, i), DirSpelling(p, i));
    assert d in Pairs(ns.directories);
    DirectoriesBetweenStep(p, i, n);
    assert Pairs(ns.directories) + DirectoriesBetween(p, i, n) == Pairs(ns.directories) + DirectoriesBetween(p, i + 1, n);
  }

  lemma LeavesNew(ns: Namespace, t: Namespace, p: PortablePath, i: nat, n: nat)
    requires 1 <= i < Length(p) && DirKey(p, i) !in ns.directories
    requires Leaves(WithLevel(ns, p, i), t, p, i + 1, n)
    ensures Leaves(ns, t, p, i, n)
  {
    PairsUpdate(ns.directories, DirKey(p, i), DirSpelling(p, i));
    DirectoriesBetweenStep(p, i, n);
  }

  function DirectoriesBetween(p: PortablePath, i: nat, n: nat): set<(string, string)>
    requires 1 <= i <= n <= Length(p)
  {
    set j | i <= j < n :: (DirKey(p, j), DirSpelling(p, j))
  }

  lemma DirectoriesBetweenStep(p: PortablePath, i: nat, n: nat)
    requires 1 <= i < n <= Length(p)
    ensures DirectoriesBetween(p, i, n) == {(DirKey(p, i), DirSpelling(p, i))} + DirectoriesBetween(p, i + 1, n)
  {
  }

  // The bytes of x, U+FF0F (fullwidth solidus), y: one component, whose key holds '/' after NFKC.
  const SOLIDUS_NAME: string := ['x', 0xEF as char, 0xBC as char, 0x8F as char, 'y']

  function SolidusNfkc(s: string): string {
    if s == SOLIDUS_NAME then "x/y" else s
  }

  // Normalisation and folding as far as the paths below need them.
  function SolidusUnicode(): Unicode {
    Unicode((s: string) => s, SolidusNfkc, (s: string) => s, (s: string) => s == "")
  }

  lemma {:induction false} StemWhole(s: string)
    requires '.' !in s
    ensures Stem(s) == s
  {
    if s != "" {
      assert s[0] in s && forall c :: c in s[1..] ==> c in s;
      StemWhole(s[1..]);
      assert [s[0]] + s[1..] == s;
    }
  }

  predicate PlainChar(c: char) {
    c in {'x', 'y', 'z', 0xEF as char, 0xBC as char, 0x8F as char}
  }

  predicate PlainName(s: string) {
    1 <= |s| <= 5 && forall i :: 0 <= i < |s| ==> PlainChar(s[i])
  }

  lemma PlainShape(s: string)
    requires PlainName(s)
    ensures Stem(s) == s && Split(s) == [s] && s != "." && s != ".."
    ensures s[|s| - 1] != '.' && s[|s| - 1] != ' '
  {
    assert PlainChar(s[0]) && PlainChar(s[|s| - 1]);
    StemWhole(s);
    SplitOne(s);
  }

  lemma PlainChars(s: string)
    requires PlainName(s)
    ensures !HasControl(s) && !HasForbidden(s)
  {
  }

  lemma PlainKey(s: string)
    ensures PortableCaseKey(SolidusUnicode(), s) == SolidusNfkc(s)
  {
    var u := SolidusUnicode();
    assert u.nfkc(u.caseFold(u.nfkc(s))) == SolidusNfkc(SolidusNfkc(s));
    assert |"x/y"| == 3 && |SOLIDUS_NAME| == 5;
  }

  lemma PlainComponentValid(s: string)
    requires PlainName(s)
    ensures ValidComponent(SolidusUnicode(), s) && PortableCaseKey(SolidusUnicode(), s) == SolidusNfkc(s)
    ensures Split(s) == [s]
  {
    PlainShape(s);
    PlainChars(s);
    PlainKey(s);
    NotReserved(s);
  }

  lemma NotReserved(s: string)
    requires s != "" && PlainChar(s[0])
    ensures !ReservedStem(SolidusNfkc(s))
  {
    var key := SolidusNfkc(s);
    assert s == SOLIDUS_NAME ==> key[0] == 'x';
    assert key[0] != 'c' && key[0] != 'p' && key[0] != 'a' && key[0] != 'n' && key[0] != 'l';
  }

  function SlashKey(): PortablePath {
    SplitOne(SOLIDUS_NAME);
    PathParts(SOLIDUS_NAME, "x/y", ["x/y"])
  }

  lemma NestedParts()
    ensures Split("x/y/z") == ["x", "y", "z"] && Join(["x", "y", "z"]) == "x/y/z"
  {
    SplitOne("z");
    SplitFirst("y", "z");
    SplitFirst("x", "y/z");
    assert "x" + "/" + "y/z" == "x/y/z" && "y" + "/" + "z" == "y/z";
    JoinSplit("x/y/z");
  }

  function Nested(): (p: PortablePath)
    ensures p.value == "x/y/z" && p.componentKeys == ["x", "y", "z"] && Split(p.value) == ["x", "y", "z"]
  {
    NestedParts();
    PathParts("x/y/z", "x/y/z", ["x", "y", "z"])
  }

  function Plain(): PortablePath {
    PathParts("x", "x", ["x"])
  }

  // A text in normal form with valid components parses to itself.
  lemma NormalParses(u: Unicode, value: string)
    requires value != "" && |value| <= MAX_PORTABLE_PATH_BYTES && value[0] != '/' && value[|value| - 1] != '/'
    requires '\\' !in value && u.nfc(value) == value && |Split(value)| <= MAX_PATH_COMPONENTS
    requires forall i :: 0 <= i < |Split(value)| ==> ValidComponent(u, Split(value)[i])
    ensures var keys := ComponentKeys(u, Split(value)); Parse(u, value) == Ok(PathParts(value, Join(keys), keys))
  {
  }

  predicate PlainPath(value: string) {
    && value != "" && |value| <= 5 && value[0] != '/' && value[|value| - 1] != '/' && '\\' !in value
    && |Split(value)| <= 5
    && forall i :: 0 <= i < |Split(value)| ==> PlainName(Split(value)[i])
  }

  lemma PlainParses(value: string)
    requires PlainPath(value)
    ensures var keys := ComponentKeys(SolidusUnicode(), Split(value));
      Parse(SolidusUnicode(), value) == Ok(PathParts(value, Join(keys), keys))
  {
    var u, parts := SolidusUnicode(), Split(value);
    forall i | 0 <= i < |parts| ensures ValidComponent(u, parts[i]) {
      PlainComponentValid(parts[i]);
    }
    assert u.nfc(value) == value;
    NormalParses(u, value);
  }

  lemma SolidusParses()
    ensures Parse(SolidusUnicode(), SOLIDUS_NAME) == Ok(SlashKey())
    ensures Parse(SolidusUnicode(), "x") == Ok(Plain())
  {
    PlainComponentValid(SOLIDUS_NAME);
    PlainComponentValid("x");
    PlainParses(SOLIDUS_NAME);
    PlainParses("x");
    assert ComponentKeys(SolidusUnicode(), [SOLIDUS_NAME]) == ["x/y"];
    assert ComponentKeys(SolidusUnicode(), ["x"]) == ["x"];
  }

  lemma NestedParses()
    ensures Parse(SolidusUnicode(), "x/y/z") == Ok(Nested())
  {
    var value, parts := Nested().value, Nested().componentKeys;
    assert |value| == 5 && value[0] == 'x' && value[4] == 'z' && '\\' !in value;
    assert forall i :: 0 <= i < |parts| ==> |parts[i]| == 1 && PlainChar(parts[i][0]);
    PlainParses(value);
    LetterKeys(parts);
  }

  lemma LetterKeys(parts: seq<string>)
    requires forall i :: 0 <= i < |parts| ==> |parts[i]| == 1
    ensures ComponentKeys(SolidusUnicode(), parts) == parts
  {
    forall i | 0 <= i < |parts| ensures PortableCaseKey(SolidusUnicode(), parts[i]) == parts[i] {
      PlainKey(parts[i]);
    }
  }

  // A path of one component whose key reads like two.
  lemma RejectedPathLeavesDirectory(slash: PortablePath)
    requires slash.componentKeys == ["x/y"]
    ensures var one := InsertOne(EMPTY_NAMESPACE, slash, "a");
      var two := InsertOne(one.0, Nested(), "b");
      var three := InsertOne(two.0, Plain(), "c");
      && one.1.None? && two.1.Some? && two.0.directories == map["x" := "x"] && three.1.Some?
  {
    var one := InsertOne(EMPTY_NAMESPACE, slash, "a").0;
    assert one == Namespace(map["x/y" := (slash.value, "a")], map[], 1, 0);
    var p := Nested();
    assert p.componentKeys[..1] == ["x"] && p.componentKeys[..2] == ["x", "y"] && ["x", "y"][..1] == ["x"];
    assert DirKey(p, 1) == "x" && DirSpelling(p, 1) == "x" && DirKey(p, 2) == "x/y";
    var next := Namespace(map["x/y" := (slash.value, "a")], map["x" := "x"], 1, 2);
    assert InsertDirectories(next, p, 2) == (next, Some(NamespaceCollision(p.value, slash.value)));
    assert InsertDirectories(one, p, 1) == InsertDirectories(next, p, 2);
  }

  lemma BothFit(slash: PortablePath, plain: PortablePath)
    requires slash.componentKeys == ["x/y"] && plain.componentKeys == ["x"]
    ensures Accepts([Entry(slash, "a"), Entry(plain, "c")])
  {
    var both := [Entry(slash, "a"), Entry(plain, "c")];
    var one := InsertOne(EMPTY_NAMESPACE, slash, "a").0;
    assert one.files == map["x/y" := (slash.value, "a")] && one.directories == map[] && one.components == 1;
    assert "x" != "x/y" by { assert |"x"| != |"x/y"|; }
    assert InsertOne(one, plain, "c").1.None?;
    assert both[1..] == [Entry(plain, "c")] && both[1..][1..] == [];
    assert InsertAll(EMPTY_NAMESPACE, both) == InsertAll(one, both[1..]);
  }

  // Three paths that parse.  The rejected second one leaves the directory "x" behind, so a third that agrees
  // with the only accepted one is rejected too: acceptance theorems are about runs up to the first failure.
  lemma FailedInsertMayLeaveDirectories() returns (slash: PortablePath, nested: PortablePath, plain: PortablePath)
    ensures Parse(SolidusUnicode(), SOLIDUS_NAME) == Ok(slash)
    ensures Parse(SolidusUnicode(), "x/y/z") == Ok(nested)
    ensures Parse(SolidusUnicode(), "x") == Ok(plain)
    ensures var one := InsertOne(EMPTY_NAMESPACE, slash, "a");
      var two := InsertOne(one.0, nested, "b");
      var three := InsertOne(two.0, plain, "c");
      && one.1.None? && two.1.Some? && two.0.directories == map["x" := "x"] && three.1.Some?
    ensures Accepts([Entry(slash, "a"), Entry(plain, "c")])
  {
    slash, nested, plain := SlashKey(), Nested(), Plain();
    SolidusParses();
    NestedParses();
    RejectedPathLeavesDirectory(slash);
    BothFit(slash, plain);
  }

  // ---- The index as the code keeps it ----------------------------------------------------------------

  class OutputNamespace {
    var files: map<string, (string, string)>
    var directories: map<string, string>
    var components: nat
    var prefixBytes: nat

    function View(): Namespace
      reads this
    {
      Namespace(files, directories, components, prefixBytes)
    }

    constructor ()
      ensures View() == EMPTY_NAMESPACE
    {
      files, directories, components, prefixBytes := map[], map[], 0, 0;
    }

    method Insert(path: PortablePath, owner: string) returns (error: Option<ArtifactError>)
      modifies this
      ensures (View(), error) == InsertOne(old(View()), path, owner)
    {
      var budget := components + |path.componentKeys|;
      if budget > MAX_NAMESPACE_COMPONENTS {
        return Some(InvalidReceipt);
      }
      if path.collisionKey in files {
        return Some(NamespaceCollision(path.value, files[path.collisionKey].0));
      }
      error := RegisterDirectories(path);
      if error.Some? {
        return;
      }
      if path.collisionKey in directories {
        return Some(NamespaceCollision(path.value, directories[path.collisionKey]));
      }
      files := files[path.collisionKey := (path.value, owner)];
      components := budget;
    }

    // The loop over the strict ancestors.
    method RegisterDirectories(path: PortablePath) returns (error: Option<ArtifactError>)
      modifies this
      ensures (View(), error) == InsertDirectories(old(View()), path, 1)
    {
      hide Split, Join;
      NoComponents();
      var parts := Split(path.value);
      var keyPrefix, spellingPrefix, index := "", "", 0;
      while index < |parts| - 1
        invariant 0 <= index < |parts|
        invariant keyPrefix == Join(path.componentKeys[..index]) && spellingPrefix == Join(parts[..index])
        invariant InsertDirectories(View(), path, index + 1) == InsertDirectories(old(View()), path, 1)
      {
        if index > 0 {
          keyPrefix, spellingPrefix := keyPrefix + "/", spellingPrefix + "/";
        }
        keyPrefix, spellingPrefix := keyPrefix + path.componentKeys[index], spellingPrefix + parts[index];
        PrefixGrows(path.componentKeys, index);
        PrefixGrows(parts, index);
        assert keyPrefix == DirKey(path, index + 1) && spellingPrefix == DirSpelling(path, index + 1);
        if keyPrefix in files {
          return Some(NamespaceCollision(path.value, files[keyPrefix].0));
        }
        if keyPrefix in directories {
          if directories[keyPrefix] != spellingPrefix {
            return Some(NamespaceCollision(path.value, directories[keyPrefix]));
          }
        } else {
          var bytes := prefixBytes + |keyPrefix| + |spellingPrefix|;
          if bytes > MAX_NAMESPACE_PREFIX_BYTES {
            return Some(InvalidReceipt);
          }
          prefixBytes := bytes;
          directories := directories[keyPrefix := spellingPrefix];
        }
        index := index + 1;
      }
      return None;
    }

    method InsertStr(parse: Parser, value: string, owner: string) returns (r: Result<PortablePath, ArtifactError>)
      modifies this
      ensures parse(value).Err? ==> r == parse(value) && View() == old(View())
      ensures parse(value).Ok? ==>
        View() == InsertOne(old(View()), parse(value).value, owner).0
      ensures parse(value).Ok? ==>
        r == WithPath(InsertOne(old(View()), parse(value).value, owner).1, parse(value).value)
    {
      var parsed := parse(value);
      if parsed.Err? {
        return parsed;
      }
      var error := Insert(parsed.value, owner);
      r := WithPath(error, parsed.value);
    }
  }

  function WithPath(error: Option<ArtifactError>, path: PortablePath): Result<PortablePath, ArtifactError> {
    if error.Some? then Err(error.value) else Ok(path)
  }

  lemma NoComponents()
    ensures Join([]) == ""
  {
  }

  lemma PrefixGrows(parts: seq<string>, index: nat)
    requires index < |parts|
    ensures Join(parts[..index + 1])
      == (if index > 0 then Join(parts[..index]) + "/" else Join(parts[..index])) + parts[index]
  {
    if index > 0 {
      JoinExtend(parts, index);
    } else {
      assert parts[..1] == [parts[0]];
    }
  }
}

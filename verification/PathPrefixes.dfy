// The directories above a canonical path are canonical paths themselves (pliego-artifact, lib.rs).
module PathPrefixes {
  import opened Prelude
  import opened Text
  import opened Namespaces
  import opened Receipts

  function NfcParts(u: Unicode, parts: seq<string>): (r: seq<string>)
    ensures |r| == |parts|
    ensures forall i :: 0 <= i < |parts| ==> r[i] == u.nfc(parts[i])
  {
    seq(|parts|, i requires 0 <= i < |parts| => u.nfc(parts[i]))
  }

  // Normalisation form C works component by component: '/' neither composes with a neighbour nor results
  // from a canonical mapping (sections 1.2 and 1.3 of UAX #15).
  ghost predicate NfcByComponent(u: Unicode) {
    forall s :: Split(u.nfc(s)) == NfcParts(u, Split(s))
  }

  lemma ComponentIsNormal(u: Unicode, path: string, i: nat)
    requires NfcByComponent(u) && Canonical(PortableParser(u), path) && i < |Split(path)|
    ensures u.nfc(Split(path)[i]) == Split(path)[i]
  {
    assert Parse(u, path).value.value == u.nfc(path);
    assert NfcParts(u, Split(path))[i] == u.nfc(Split(path)[i]);
  }

  lemma PrefixIsNormal(u: Unicode, path: string, n: nat)
    requires NfcByComponent(u) && Canonical(PortableParser(u), path) && 1 <= n <= |Split(path)|
    ensures Split(Join(Split(path)[..n])) == Split(path)[..n]
    ensures u.nfc(Join(Split(path)[..n])) == Join(Split(path)[..n])
  {
    SplitHasNoSlash(path);
    SplitJoin(Split(path)[..n]);
    forall i | 0 <= i < n ensures u.nfc(Split(path)[..n][i]) == Split(path)[..n][i] {
      ComponentIsNormal(u, path, i);
    }
    NormalComponents(u, Join(Split(path)[..n]), Split(path)[..n]);
  }

  lemma NormalComponents(u: Unicode, value: string, parts: seq<string>)
    requires NfcByComponent(u) && Split(value) == parts && forall i :: 0 <= i < |parts| ==> u.nfc(parts[i]) == parts[i]
    ensures u.nfc(value) == value
  {
    assert NfcParts(u, parts) == parts;
    assert Split(u.nfc(value)) == NfcParts(u, Split(value));
    JoinSplit(u.nfc(value));
    JoinSplit(value);
  }

  // The joined front of a path is a prefix of the path.
  lemma {:induction false} JoinIsPrefix(parts: seq<string>, n: nat)
    requires 1 <= n <= |parts|
    ensures Join(parts[..n]) <= Join(parts)
    decreases |parts|
  {
    if n < |parts| {
      var front := parts[..|parts| - 1];
      JoinIsPrefix(front, n);
      assert front[..n] == parts[..n];
    } else {
      assert parts[..n] == parts;
    }
  }

  lemma JoinLast(parts: seq<string>)
    requires parts != [] && parts[|parts| - 1] != ""
    ensures Join(parts) != "" && Join(parts)[|Join(parts)| - 1] == parts[|parts| - 1][|parts[|parts| - 1]| - 1]
  {
  }

  lemma {:induction false} ComponentKeysPrefix(u: Unicode, parts: seq<string>, n: nat)
    requires n <= |parts|
    ensures ComponentKeys(u, parts[..n]) == ComponentKeys(u, parts)[..n]
  {
  }

  // What parsing a canonical path established.
  lemma CanonicalParse(u: Unicode, path: string)
    requires Canonical(PortableParser(u), path)
    ensures Parse(u, path).Ok? && Parse(u, path).value.value == path
    ensures Parse(u, path).value.componentKeys == ComponentKeys(u, Split(path))
    ensures |Split(path)| <= MAX_PATH_COMPONENTS
    ensures forall i :: 0 <= i < |Split(path)| ==> ValidComponent(u, Split(path)[i])
  {
    assert Parse(u, path).value.value == u.nfc(path);
  }

  lemma ShortPath(u: Unicode, path: string)
    requires Parse(u, path).Ok?
    ensures path != "" && |path| <= MAX_PORTABLE_PATH_BYTES && path[0] != '/' && '\\' !in path
  {
  }

  // What a front of a canonical path looks like to the first checks of the parser.
  lemma PrefixShape(u: Unicode, path: string, n: nat)
    requires NfcByComponent(u) && Canonical(PortableParser(u), path) && 1 <= n <= |Split(path)|
    ensures var prefix := Join(Split(path)[..n]);
      prefix != "" && |prefix| <= MAX_PORTABLE_PATH_BYTES && prefix[0] != '/' && prefix[|prefix| - 1] != '/' && '\\' !in prefix
  {
    var parts := Split(path);
    var prefix := Join(parts[..n]);
    CanonicalParse(u, path);
    ShortPath(u, path);
    assert ValidComponent(u, parts[n - 1]);
    SplitHasNoSlash(path);
    JoinLast(parts[..n]);
    var last := parts[n - 1];
    assert last[|last| - 1] in last;
    JoinSplit(path);
    JoinIsPrefix(parts, n);
    assert prefix <= path;
    assert forall c :: c in prefix ==> c in path;
  }

  // Its front parses, to itself, with the front of its keys.
  lemma PrefixParses(u: Unicode, path: string, n: nat)
    requires NfcByComponent(u) && Canonical(PortableParser(u), path) && 1 <= n <= |Split(path)|
    ensures var p := PortableParser(u)(path).value;
      PortableParser(u)(DirSpelling(p, n)) == Ok(PathParts(DirSpelling(p, n), DirKey(p, n), p.componentKeys[..n]))
  {
    CanonicalParse(u, path);
    PrefixShape(u, path, n);
    PrefixIsNormal(u, path, n);
    FrontValid(u, Split(path), n);
    ComponentKeysPrefix(u, Split(path), n);
    ParseNormal(u, Join(Split(path)[..n]), Split(path)[..n]);
  }

  lemma FrontValid(u: Unicode, parts: seq<string>, n: nat)
    requires n <= |parts| && forall i :: 0 <= i < |parts| ==> ValidComponent(u, parts[i])
    ensures forall i :: 0 <= i < n ==> ValidComponent(u, parts[..n][i])
  {
    forall i | 0 <= i < n ensures ValidComponent(u, parts[..n][i]) {
      assert ValidComponent(u, parts[i]);
    }
  }

  lemma ParseNormal(u: Unicode, value: string, parts: seq<string>)
    requires value != "" && |value| <= MAX_PORTABLE_PATH_BYTES && value[0] != '/' && value[|value| - 1] != '/'
    requires '\\' !in value && u.nfc(value) == value && Split(value) == parts && |parts| <= MAX_PATH_COMPONENTS
    requires forall i :: 0 <= i < |parts| ==> ValidComponent(u, parts[i])
    ensures Parse(u, value) == Ok(PathParts(value, Join(ComponentKeys(u, parts)), ComponentKeys(u, parts)))
  {
  }

  // What the verification of a tree needs of a parser: the directories above a canonical path parse to
  // themselves, with the front of its keys.
  predicate FrontParses(parse: Parser, path: string, n: nat) {
    Canonical(parse, path) && 1 <= n <= |Split(path)| ==>
      var p := parse(path).value;
      parse(DirSpelling(p, n)) == Ok(PathParts(DirSpelling(p, n), DirKey(p, n), p.componentKeys[..n]))
  }

  ghost predicate PrefixStable(parse: Parser) {
    forall path: string, n: nat :: FrontParses(parse, path, n)
  }

  lemma PortableIsStable(u: Unicode)
    requires NfcByComponent(u)
    ensures PrefixStable(PortableParser(u))
  {
    forall path: string, n: nat ensures FrontParses(PortableParser(u), path, n) {
      if Canonical(PortableParser(u), path) && 1 <= n <= |Split(path)| {
        PrefixParses(u, path, n);
      }
    }
  }

  // ---- The assumptions can be met --------------------------------------------------------------------

  // Text on which normalisation and folding do nothing, such as lower-case ASCII.
  function Ascii(): Unicode {
    Unicode((s: string) => s, (s: string) => s, (s: string) => s, (s: string) => s == "")
  }

  lemma AsciiMeetsAssumptions()
    ensures NfcByComponent(Ascii()) && Canonical(PortableParser(Ascii()), BUILD_LEDGER_NAME)
  {
    var u := Ascii();
    forall s ensures Split(u.nfc(s)) == NfcParts(u, Split(s)) {
      assert NfcParts(u, Split(s)) == Split(s);
    }
    LedgerComponent(u);
    SplitOne(BUILD_LEDGER_NAME);
    ParseNormal(u, BUILD_LEDGER_NAME, [BUILD_LEDGER_NAME]);
  }

  lemma LedgerComponent(u: Unicode)
    requires u == Ascii()
    ensures '/' !in BUILD_LEDGER_NAME && '\\' !in BUILD_LEDGER_NAME && ValidComponent(u, BUILD_LEDGER_NAME)
  {
    LedgerText();
    LedgerStem();
    NotReserved("pliego");
  }

  lemma NotReserved(key: string)
    requires |key| > 4
    ensures !ReservedStem(key)
  {
  }

  lemma LedgerText()
    ensures forall i :: 0 <= i < |BUILD_LEDGER_NAME| ==>
      BUILD_LEDGER_NAME[i] in {'p', 'l', 'i', 'e', 'g', 'o', '.', 'b', 'u', 'd', 'j', 's', 'n'}
    ensures !HasControl(BUILD_LEDGER_NAME) && !HasForbidden(BUILD_LEDGER_NAME)
  {
    assert BUILD_LEDGER_NAME == "pliego.build.json";
  }

  lemma {:induction false} StemBefore(a: string, rest: string)
    requires '.' !in a
    ensures Stem(a + ("." + rest)) == a
  {
    var s := a + ("." + rest);
    if a == "" {
      assert s[0] == '.';
    } else {
      assert a[0] in a && forall c :: c in a[1..] ==> c in a;
      StemBefore(a[1..], rest);
      assert s[1..] == a[1..] + ("." + rest) && s[0] == a[0];
    }
  }

  lemma LedgerStem()
    ensures Stem(BUILD_LEDGER_NAME) == "pliego"
  {
    StemBefore("pliego", "build.json");
    assert "pliego" + ("." + "build.json") == BUILD_LEDGER_NAME;
  }
}

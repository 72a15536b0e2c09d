// Strings as the artifact code sees them.
//
// A Rust String is modelled by its UTF-8 encoding, one char per byte: |s| is len(), comparing chars is
// comparing bytes, so Less is Ord on str, and '/' never occurs inside a multi-byte character.
module Text {
  import opened Prelude

  // ---- Components ------------------------------------------------------------------------------------

  // str::split('/').
  function Split(s: string): (parts: seq<string>)
    ensures |parts| >= 1
  {
    if s == "" then [""]
    else
      var rest := Split(s[1..]);
      if s[0] == '/' then [""] + rest else [[s[0]] + rest[0]] + rest[1..]
  }

  // join("/").
  function Join(parts: seq<string>): string {
    if parts == [] then ""
    else if |parts| == 1 then parts[0]
    else Join(parts[..|parts| - 1]) + "/" + parts[|parts| - 1]
  }

  lemma {:induction false} SplitHasNoSlash(s: string)
    ensures forall i :: 0 <= i < |Split(s)| ==> '/' !in Split(s)[i]
  {
    if s != "" {
      SplitHasNoSlash(s[1..]);
    }
  }

  lemma {:induction false} JoinFront(parts: seq<string>)
    requires |parts| >= 2
    ensures Join(parts) == parts[0] + "/" + Join(parts[1..])
  {
    var n := |parts| - 1;
    if n > 1 {
      JoinFront(parts[..n]);
      assert parts[..n][1..] == parts[1..][..n - 1];
      assert Join(parts[1..]) == Join(parts[1..][..n - 1]) + "/" + parts[n];
    } else {
      assert parts[..n] == [parts[0]] && parts[1..] == [parts[1]];
    }
  }

  lemma JoinCons(head: string, tail: seq<string>)
    requires tail != []
    ensures Join([head] + tail) == head + ("/" + Join(tail))
  {
    JoinFront([head] + tail);
    assert ([head] + tail)[1..] == tail;
    assert head + "/" + Join(tail) == head + ("/" + Join(tail));
  }

  // Prepending a character to the first part prepends it to the joined text.
  lemma JoinPrepend(c: char, rest: seq<string>)
    requires rest != []
    ensures Join([[c] + rest[0]] + rest[1..]) == [c] + Join(rest)
  {
    var first, tail := [c] + rest[0], rest[1..];
    assert rest == [rest[0]] + tail;
    if tail == [] {
      assert [first] + tail == [first];
    } else {
      JoinCons(first, tail);
      JoinCons(rest[0], tail);
      ConcatShift(c, rest[0], "/" + Join(tail));
    }
  }

  lemma ConcatShift(c: char, a: string, b: string)
    ensures ([c] + a) + b == [c] + (a + b)
  {
  }

  lemma {:induction false} JoinSplit(s: string)
    ensures Join(Split(s)) == s
  {
    if s != "" {
      JoinSplit(s[1..]);
      var rest := Split(s[1..]);
      assert s == [s[0]] + s[1..];
      if s[0] == '/' {
        JoinFront([""] + rest);
        assert ([""] + rest)[1..] == rest;
        assert "" + "/" + s[1..] == [s[0]] + s[1..];
      } else {
        JoinPrepend(s[0], rest);
      }
    }
  }

  lemma {:induction false} SplitOne(a: string)
    requires '/' !in a
    ensures Split(a) == [a]
  {
    if a != "" {
      assert a[0] in a && forall c :: c in a[1..] ==> c in a;
      SplitOne(a[1..]);
      assert [a[0]] + a[1..] == a;
    }
  }

  lemma {:induction false} SplitFirst(a: string, rest: string)
    requires '/' !in a
    ensures Split(a + "/" + rest) == [a] + Split(rest)
  {
    var s := a + "/" + rest;
    if a == "" {
      assert s[1..] == rest;
    } else {
      assert a[0] in a && forall c :: c in a[1..] ==> c in a;
      SplitFirst(a[1..], rest);
      assert s[1..] == a[1..] + "/" + rest;
      assert s[0] == a[0] && [a[0]] + a[1..] == a;
      assert ([a[1..]] + Split(rest))[1..] == Split(rest);
    }
  }

  lemma {:induction false} SplitJoin(parts: seq<string>)
    requires |parts| >= 1 && forall i :: 0 <= i < |parts| ==> '/' !in parts[i]
    ensures Split(Join(parts)) == parts
  {
    if |parts| == 1 {
      SplitOne(parts[0]);
    } else {
      JoinFront(parts);
      SplitFirst(parts[0], Join(parts[1..]));
      SplitJoin(parts[1..]);
    }
  }

  lemma JoinExtend(parts: seq<string>, i: nat)
    requires 1 <= i < |parts|
    ensures Join(parts[..i + 1]) == Join(parts[..i]) + "/" + parts[i]
  {
    assert parts[..i + 1][..i] == parts[..i];
  }

  lemma {:induction false} JoinGrows(parts: seq<string>, i: nat, j: nat)
    requires 1 <= i < j <= |parts|
    ensures |Join(parts[..i])| < |Join(parts[..j])|
    decreases j - i
  {
    JoinExtend(parts, j - 1);
    if i < j - 1 {
      JoinGrows(parts, i, j - 1);
    }
  }

  lemma {:induction false} JoinFrontOf(parts: seq<string>, i: nat)
    requires 1 <= i < |parts|
    ensures Join(parts[..i]) + "/" <= Join(parts)
  {
    var n := |parts| - 1;
    if i < n {
      JoinFrontOf(parts[..n], i);
      assert parts[..n][..i] == parts[..i];
    }
    assert Join(parts) == Join(parts[..n]) + "/" + parts[n];
  }

  // ---- Order -----------------------------------------------------------------------------------------

  // Ord on str: byte-wise lexicographic.
  predicate Less(a: string, b: string) {
    b != "" && (a == "" || a[0] < b[0] || (a[0] == b[0] && Less(a[1..], b[1..])))
  }

  lemma {:induction false} LessTotal(a: string, b: string)
    ensures Less(a, b) || Less(b, a) || a == b
    ensures !(Less(a, b) && Less(b, a)) && !Less(a, a)
  {
    if a != "" {
      LessTotal(a[1..], a[1..]);
      if b != "" {
        LessTotal(a[1..], b[1..]);
        assert a == [a[0]] + a[1..] && b == [b[0]] + b[1..];
      }
    }
  }

  // The two strings agree up to position k, where a ends or has the smaller byte.
  predicate LessAt(a: string, b: string, k: nat) {
    k <= |a| && k < |b| && a[..k] == b[..k] && (k == |a| || a[k] < b[k])
  }

  lemma {:induction false} LessIff(a: string, b: string)
    ensures Less(a, b) <==> exists k: nat :: LessAt(a, b, k)
  {
    if a == "" || b == "" || a[0] != b[0] {
      assert Less(a, b) ==> LessAt(a, b, 0);
    } else {
      LessIff(a[1..], b[1..]);
      if k: nat :| LessAt(a[1..], b[1..], k) {
        assert a[..k + 1] == [a[0]] + a[1..][..k] && b[..k + 1] == [b[0]] + b[1..][..k];
        assert LessAt(a, b, k + 1);
      }
      if k: nat :| LessAt(a, b, k) {
        assert a[1..][..k - 1] == a[..k][1..] && b[1..][..k - 1] == b[..k][1..];
        assert LessAt(a[1..], b[1..], k - 1);
      }
    }
  }

  lemma {:induction false} LessTransitive(a: string, b: string, c: string)
    requires Less(a, b) && Less(b, c)
    ensures Less(a, c)
  {
    if a != "" && a[0] == b[0] == c[0] {
      LessTransitive(a[1..], b[1..], c[1..]);
    }
  }
}

// Shared result types and the few facts about sequences and finite sums that several components need.
module Prelude {

  datatype Option<+T> = None | Some(value: T)

  datatype Result<+T, +E> = Ok(value: T) | Err(error: E)

  const TWO_TO_THE_64: nat := 0x1_0000_0000_0000_0000
  const TWO_TO_THE_32: nat := 0x1_0000_0000

  type Bytes = seq<bv8>

  type u64 = n: nat | n < TWO_TO_THE_64
  type u32 = n: nat | n < TWO_TO_THE_32

  function Reverse<T>(s: seq<T>): (r: seq<T>)
    ensures |r| == |s|
    ensures forall i :: 0 <= i < |s| ==> r[i] == s[|s| - 1 - i]
  {
    if s == [] then [] else Reverse(s[1..]) + [s[0]]
  }

  // How often x occurs in s.
  function Count<T(==)>(s: seq<T>, x: T): nat {
    if s == [] then 0 else Count(s[..|s| - 1], x) + (if s[|s| - 1] == x then 1 else 0)
  }

  lemma {:induction false} CountConcat<T>(a: seq<T>, b: seq<T>, x: T)
    ensures Count(a + b, x) == Count(a, x) + Count(b, x)
  {
    if b == [] {
      assert a + b == a;
    } else {
      CountConcat(a, b[..|b| - 1], x);
      assert (a + b)[..|a + b| - 1] == a + b[..|b| - 1];
    }
  }

  lemma CountOne<T>(a: seq<T>, y: T, x: T)
    ensures Count(a + [y], x) == Count(a, x) + (if y == x then 1 else 0)
  {
    assert (a + [y])[..|a|] == a;
  }

  lemma {:induction false} CountReverse<T>(s: seq<T>, x: T)
    ensures Count(Reverse(s), x) == Count(s, x)
  {
    if s != [] {
      CountReverse(s[1..], x);
      CountOne(Reverse(s[1..]), s[0], x);
      CountConcat([s[0]], s[1..], x);
      CountOne([], s[0], x);
      assert [s[0]] + s[1..] == s && [] + [s[0]] == [s[0]];
    }
  }

  lemma CountPrefix<T>(prefix: seq<T>, s: seq<T>, x: T)
    requires prefix <= s
    ensures Count(prefix, x) <= Count(s, x)
  {
    CountConcat(prefix, s[|prefix|..], x);
    assert s == prefix + s[|prefix|..];
  }

  lemma {:induction false} CountMember<T>(s: seq<T>, x: T)
    ensures 0 < Count(s, x) <==> x in s
  {
    if s != [] {
      CountMember(s[..|s| - 1], x);
      assert s == s[..|s| - 1] + [s[|s| - 1]];
    }
  }

  // ---- Permutations ----------------------------------------------------------------------------------

  ghost predicate Permuted<T(!new)>(a: seq<T>, b: seq<T>) {
    forall x :: Count(a, x) == Count(b, x)
  }

  function RemoveAt<T>(s: seq<T>, i: nat): seq<T>
    requires i < |s|
  {
    s[..i] + s[i + 1..]
  }

  lemma SplitAround<T>(s: seq<T>, i: nat)
    requires i < |s|
    ensures s == s[..i] + ([s[i]] + s[i + 1..])
  {
  }

  lemma CountRemove<T>(s: seq<T>, i: nat, x: T)
    requires i < |s|
    ensures Count(s, x) == Count(RemoveAt(s, i), x) + (if s[i] == x then 1 else 0)
  {
    SplitAround(s, i);
    CountMiddle(s[..i], s[i], s[i + 1..], x);
  }

  lemma CountMiddle<T>(front: seq<T>, y: T, rest: seq<T>, x: T)
    ensures Count(front + ([y] + rest), x) == Count(front + rest, x) + (if y == x then 1 else 0)
  {
    CountConcat(front, [y] + rest, x);
    CountConcat([y], rest, x);
    CountConcat(front, rest, x);
    CountOne([], y, x);
    assert [] + [y] == [y];
  }

  lemma PermutedMembers<T(!new)>(a: seq<T>, b: seq<T>)
    requires Permuted(a, b)
    ensures forall x :: x in a <==> x in b
  {
    forall x ensures x in a <==> x in b {
      CountMember(a, x);
      CountMember(b, x);
    }
  }

  lemma PermutedEmpty<T(!new)>(b: seq<T>)
    requires Permuted([], b)
    ensures b == []
  {
    if b != [] {
      CountMember(b, b[0]);
    }
  }

  // Where element n of a stands in b.
  lemma FindPermuted<T(!new)>(a: seq<T>, b: seq<T>, n: nat) returns (i: nat)
    requires Permuted(a, b) && n < |a|
    ensures i < |b| && b[i] == a[n]
  {
    PermutedMembers(a, b);
    assert a[n] in b;
    i :| 0 <= i < |b| && b[i] == a[n];
  }

  lemma RemoveBoth<T(!new)>(a: seq<T>, b: seq<T>, i: nat, j: nat)
    requires Permuted(a, b) && i < |a| && j < |b| && a[i] == b[j]
    ensures Permuted(RemoveAt(a, i), RemoveAt(b, j))
  {
    forall x ensures Count(RemoveAt(a, i), x) == Count(RemoveAt(b, j), x) {
      CountRemove(a, i, x);
      CountRemove(b, j, x);
    }
  }

  // Two positions of a have two different positions in b holding the same elements.
  lemma FindTwoPermuted<T(!new)>(a: seq<T>, b: seq<T>, m: nat, n: nat) returns (i: nat, j: nat)
    requires Permuted(a, b) && m < n < |a|
    ensures i < |b| && j < |b| && i != j && b[i] == a[m] && b[j] == a[n]
  {
    i := FindPermuted(a, b, m);
    RemoveBoth(a, b, m, i);
    assert RemoveAt(a, m)[n - 1] == a[n];
    var k := FindPermuted(RemoveAt(a, m), RemoveAt(b, i), n - 1);
    j := if k < i then k else k + 1;
    assert RemoveAt(b, i)[k] == b[j];
  }
}

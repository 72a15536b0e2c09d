// slice::sort_by with a string key, and why a strictly ordered result is canonical.
module Sorting {
  import opened Prelude
  import opened Text

  // x keeps its place before elements with an equal key: the sort is stable.
  function Place<T>(x: T, s: seq<T>, key: T -> string): (r: seq<T>)
    ensures |r| == |s| + 1
  {
    if s == [] || !Less(key(s[0]), key(x)) then [x] + s else [s[0]] + Place(x, s[1..], key)
  }

  function SortBy<T>(s: seq<T>, key: T -> string): (r: seq<T>)
    ensures |r| == |s|
  {
    if s == [] then [] else Place(s[0], SortBy(s[1..], key), key)
  }

  // The test of the validators: every one of the first n elements against the one before it.
  predicate StrictTo<T>(s: seq<T>, key: T -> string, n: nat)
    requires n <= |s|
  {
    forall i, j :: 0 <= i < n && 0 <= j < n && j - i == 1 ==> Less(key(s[i]), key(s[j]))
  }

  predicate StrictlyOrdered<T>(s: seq<T>, key: T -> string) {
    StrictTo(s, key, |s|)
  }

  ghost predicate Ordered<T>(s: seq<T>, key: T -> string) {
    forall i, j :: 0 <= i < j < |s| && j - i == 1 ==> !Less(key(s[j]), key(s[i]))
  }

  lemma {:induction false} StrictPairs<T>(s: seq<T>, key: T -> string, i: nat, j: nat)
    requires StrictlyOrdered(s, key) && i < j < |s|
    ensures Less(key(s[i]), key(s[j]))
    decreases j - i
  {
    if i + 1 < j {
      StrictPairs(s, key, i, j - 1);
      LessTransitive(key(s[i]), key(s[j - 1]), key(s[j]));
    }
  }

  lemma StrictDistinct<T>(s: seq<T>, key: T -> string, i: nat, j: nat)
    requires StrictlyOrdered(s, key) && i < |s| && j < |s| && key(s[i]) == key(s[j])
    ensures i == j
  {
    LessTotal(key(s[i]), key(s[j]));
    if i < j {
      StrictPairs(s, key, i, j);
    } else if j < i {
      StrictPairs(s, key, j, i);
    }
  }

  lemma {:induction false} OrderedPairs<T>(s: seq<T>, key: T -> string, i: nat, j: nat)
    requires Ordered(s, key) && i < j < |s|
    ensures !Less(key(s[j]), key(s[i]))
    decreases j - i
  {
    if i + 1 < j {
      OrderedPairs(s, key, i, j - 1);
      LessTotal(key(s[j]), key(s[j - 1]));
      if Less(key(s[j]), key(s[i])) {
        LessTotal(key(s[i]), key(s[j - 1]));
        if key(s[i]) != key(s[j - 1]) {
          LessTransitive(key(s[j]), key(s[i]), key(s[j - 1]));
        }
      }
    }
  }

  lemma {:induction false} PlacePermutes<T(!new)>(x: T, s: seq<T>, key: T -> string, y: T)
    ensures Count(Place(x, s, key), y) == Count(s, y) + (if x == y then 1 else 0)
  {
    if s == [] || !Less(key(s[0]), key(x)) {
      CountConcat([x], s, y);
      CountOne([], x, y);
      assert [] + [x] == [x];
    } else {
      PlacePermutes(x, s[1..], key, y);
      CountConcat([s[0]], s[1..], y);
      CountConcat([s[0]], Place(x, s[1..], key), y);
      assert s == [s[0]] + s[1..];
    }
  }

  lemma {:induction false} SortCounts<T(!new)>(s: seq<T>, key: T -> string, y: T)
    ensures Count(SortBy(s, key), y) == Count(s, y)
  {
    if s != [] {
      SortCounts(s[1..], key, y);
      PlacePermutes(s[0], SortBy(s[1..], key), key, y);
      CountConcat([s[0]], s[1..], y);
      CountOne([], s[0], y);
      assert [] + [s[0]] == [s[0]] && s == [s[0]] + s[1..];
    }
  }

  lemma SortPermutes<T(!new)>(s: seq<T>, key: T -> string)
    ensures Permuted(SortBy(s, key), s)
  {
    forall y ensures Count(SortBy(s, key), y) == Count(s, y) {
      SortCounts(s, key, y);
    }
  }

  lemma {:induction false} PlaceOrdered<T>(x: T, s: seq<T>, key: T -> string)
    requires Ordered(s, key)
    ensures Ordered(Place(x, s, key), key)
  {
    if s != [] && Less(key(s[0]), key(x)) {
      assert Ordered(s[1..], key);
      PlaceOrdered(x, s[1..], key);
      var r := Place(x, s[1..], key);
      assert r[0] == x || (|s| > 1 && r[0] == s[1]);
      LessTotal(key(s[0]), key(x));
      assert Ordered([s[0]] + r, key);
    }
  }

  lemma {:induction false} SortOrders<T>(s: seq<T>, key: T -> string)
    ensures Ordered(SortBy(s, key), key)
  {
    if s != [] {
      SortOrders(s[1..], key);
      PlaceOrdered(s[0], SortBy(s[1..], key), key);
    }
  }

  // Of two arrangements of the same elements, one strictly ordered and one ordered, the first elements agree.
  lemma HeadsEqual<T(!new)>(a: seq<T>, b: seq<T>, key: T -> string)
    requires StrictlyOrdered(a, key) && Ordered(b, key) && Permuted(a, b) && a != [] && b != []
    ensures a[0] == b[0]
  {
    hide StrictlyOrdered, StrictTo, Ordered, Less;
    var i := FindPermuted(b, a, 0);
    var j := FindPermuted(a, b, 0);
    hide Permuted;
    if i > 0 && j > 0 {
      StrictPairs(a, key, 0, i);
      OrderedPairs(b, key, 0, j);
    }
  }

  lemma TailsOrdered<T(!new)>(a: seq<T>, b: seq<T>, key: T -> string)
    requires StrictlyOrdered(a, key) && Ordered(b, key) && a != [] && b != []
    ensures StrictlyOrdered(a[1..], key) && Ordered(b[1..], key)
  {
    hide Less;
  }

  lemma TailsPermuted<T(!new)>(a: seq<T>, b: seq<T>)
    requires Permuted(a, b) && a != [] && b != [] && a[0] == b[0]
    ensures Permuted(a[1..], b[1..])
  {
    hide Permuted;
    RemoveBoth(a, b, 0, 0);
    assert RemoveAt(a, 0) == a[1..] && RemoveAt(b, 0) == b[1..];
  }

  // Among the permutations of a strictly ordered sequence only itself is ordered.
  lemma {:induction false} StrictIsUnique<T(!new)>(a: seq<T>, b: seq<T>, key: T -> string)
    requires StrictlyOrdered(a, key) && Ordered(b, key) && Permuted(a, b)
    ensures a == b
    decreases |a|
  {
    hide StrictlyOrdered, StrictTo, Ordered, Permuted;
    if a == [] {
      PermutedEmpty(b);
    } else {
      PermutedNonEmpty(a, b);
      HeadsEqual(a, b, key);
      TailsOrdered(a, b, key);
      TailsPermuted(a, b);
      StrictIsUnique(a[1..], b[1..], key);
      assert a == [a[0]] + a[1..] && b == [b[0]] + b[1..];
    }
  }

  lemma PermutedNonEmpty<T(!new)>(a: seq<T>, b: seq<T>)
    requires Permuted(a, b) && a != []
    ensures b != []
  {
    var i := FindPermuted(a, b, 0);
  }

  // If the sorted form of one arrangement is strictly ordered, every arrangement sorts to it.
  lemma SortIsCanonical<T(!new)>(a: seq<T>, b: seq<T>, key: T -> string)
    requires StrictlyOrdered(SortBy(a, key), key)
    ensures Permuted(a, b) <==> SortBy(a, key) == SortBy(b, key)
  {
    SortPermutes(a, key);
    SortPermutes(b, key);
    if Permuted(a, b) {
      SortOrders(b, key);
      assert Permuted(SortBy(a, key), SortBy(b, key)) by {
        forall x ensures Count(SortBy(a, key), x) == Count(SortBy(b, key), x) {
          assert Count(a, x) == Count(b, x);
        }
      }
      StrictIsUnique(SortBy(a, key), SortBy(b, key), key);
    }
    if SortBy(a, key) == SortBy(b, key) {
      forall x ensures Count(a, x) == Count(b, x) {
        assert Count(SortBy(a, key), x) == Count(a, x);
        assert Count(SortBy(b, key), x) == Count(b, x);
      }
    }
  }

  lemma SortOfStrict<T(!new)>(a: seq<T>, key: T -> string)
    requires StrictlyOrdered(a, key)
    ensures SortBy(a, key) == a
  {
    SortPermutes(a, key);
    SortOrders(a, key);
    StrictIsUnique(a, SortBy(a, key), key);
  }
}

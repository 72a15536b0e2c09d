// Finite sums over sets: the order in which the elements are added does not matter.
module Sums {

  ghost function Sum<T>(s: set<T>, f: T -> nat): nat {
    if s == {} then 0
    else
      var x :| x in s;
      f(x) + Sum(s - {x}, f)
  }

  // The positions of the first n elements of a sequence.
  function Positions(n: nat): (positions: set<int>)
    ensures forall i :: i in positions <==> 0 <= i < n
  {
    if n == 0 then {} else Positions(n - 1) + {n - 1}
  }

  lemma {:induction false} SumRemove<T>(s: set<T>, f: T -> nat, x: T)
    requires x in s
    ensures Sum(s, f) == f(x) + Sum(s - {x}, f)
    decreases |s|
  {
    var y :| y in s && Sum(s, f) == f(y) + Sum(s - {y}, f);
    if y != x {
      SumRemove(s - {y}, f, x);
      SumRemove(s - {x}, f, y);
      assert s - {y} - {x} == s - {x} - {y};
    }
  }

  lemma SumAdd<T>(s: set<T>, f: T -> nat, x: T)
    requires x !in s
    ensures Sum(s + {x}, f) == f(x) + Sum(s, f)
  {
    SumRemove(s + {x}, f, x);
    assert s + {x} - {x} == s;
  }

  lemma {:induction false} SumSubset<T>(s: set<T>, t: set<T>, f: T -> nat)
    requires s <= t
    ensures Sum(s, f) <= Sum(t, f)
    decreases |s|
  {
    if s != {} {
      var x :| x in s;
      SumRemove(s, f, x);
      SumRemove(t, f, x);
      SumSubset(s - {x}, t - {x}, f);
    }
  }

  lemma {:induction false} SumPointwise<T>(s: set<T>, f: T -> nat, g: T -> nat)
    requires forall x :: x in s ==> f(x) <= g(x)
    ensures Sum(s, f) <= Sum(s, g)
    decreases |s|
  {
    if s != {} {
      var x :| x in s;
      SumRemove(s, f, x);
      SumRemove(s, g, x);
      SumPointwise(s - {x}, f, g);
    }
  }

  // A sum does not exceed another one its elements map into one to one.
  lemma {:induction false} SumInjective<T, U>(s: set<T>, t: set<U>, f: T -> nat, g: U -> nat, h: T -> U)
    requires forall x :: x in s ==> h(x) in t && f(x) <= g(h(x))
    requires forall x, y :: x in s && y in s && h(x) == h(y) ==> x == y
    ensures Sum(s, f) <= Sum(t, g)
    decreases |s|
  {
    if s != {} {
      var x :| x in s;
      SumRemove(s, f, x);
      SumRemove(t, g, h(x));
      SumInjective(s - {x}, t - {h(x)}, f, g, h);
    }
  }

  lemma {:induction false} SumUnion<T>(s: set<T>, t: set<T>, f: T -> nat)
    requires s !! t
    ensures Sum(s + t, f) == Sum(s, f) + Sum(t, f)
    decreases |s|
  {
    if s == {} {
      assert s + t == t;
    } else {
      var x :| x in s;
      SumRemove(s, f, x);
      SumRemove(s + t, f, x);
      assert s + t - {x} == (s - {x}) + t;
      SumUnion(s - {x}, t, f);
    }
  }
}

/** Finite sums over sets, and the counting facts built on them. */
module Sums {

  ghost function Sum<T(!new)>(s: set<T>, f: T -> nat): nat {
    if s == {} then 0 else var x :| x in s; f(x) + Sum(s - {x}, f)
  }

  /** The sum does not depend on the order in which elements are taken. */
  lemma {:induction false} SumRemove<T(!new)>(s: set<T>, x: T, f: T -> nat)
    requires x in s
    ensures Sum(s, f) == f(x) + Sum(s - {x}, f)
    decreases |s|
  {
    var y :| y in s && Sum(s, f) == f(y) + Sum(s - {y}, f);
    if y != x {
      SumRemove(s - {y}, x, f);
      SumRemove(s - {x}, y, f);
      assert s - {y} - {x} == s - {x} - {y};
    }
  }

  lemma {:induction false} SumAdd<T(!new)>(s: set<T>, x: T, f: T -> nat)
    requires x !in s
    ensures Sum(s + {x}, f) == f(x) + Sum(s, f)
  {
    SumRemove(s + {x}, x, f);
    assert s + {x} - {x} == s;
  }

  lemma {:induction false} SumUnion<T(!new)>(a: set<T>, b: set<T>, f: T -> nat)
    requires a !! b
    ensures Sum(a + b, f) == Sum(a, f) + Sum(b, f)
    decreases |b|
  {
    if b == {} {
      assert a + b == a;
    } else {
      var x :| x in b;
      SumUnion(a, b - {x}, f);
      assert a + b == (a + (b - {x})) + {x};
      SumAdd(a + (b - {x}), x, f);
      SumRemove(b, x, f);
    }
  }

  /** Pointwise larger summands give a larger sum; equal sums force equal summands. */
  lemma {:induction false} SumMonotone<T(!new)>(s: set<T>, f: T -> nat, g: T -> nat)
    requires forall x :: x in s ==> f(x) <= g(x)
    ensures Sum(s, f) <= Sum(s, g)
    ensures Sum(s, f) == Sum(s, g) <==> forall x :: x in s ==> f(x) == g(x)
    decreases |s|
  {
    if s != {} {
      var x :| x in s;
      SumMonotone(s - {x}, f, g);
      SumRemove(s, x, f);
      SumRemove(s, x, g);
      assert forall y :: y in s ==> y == x || y in s - {x};
    }
  }

  /** Re-indexing a sum along an injective map. */
  lemma {:induction false} SumImage<T(!new), U(!new)>(s: set<T>, image: set<U>, h: T -> U, f: T -> nat, g: U -> nat)
    requires forall x :: x in s ==> h(x) in image && f(x) == g(h(x))
    requires forall y :: y in image ==> exists x :: x in s && h(x) == y
    requires forall x, y :: x in s && y in s && h(x) == h(y) ==> x == y
    ensures Sum(s, f) == Sum(image, g)
    decreases |s|
  {
    if s == {} {
      assert image == {};
    } else {
      var x :| x in s;
      SumImage(s - {x}, image - {h(x)}, h, f, g);
      SumRemove(s, x, f);
      SumRemove(image, h(x), g);
    }
  }

  /** Summing ones counts. */
  /** A positive sum has a positive part. */
  lemma {:induction false} SumPositive<T(!new)>(s: set<T>, f: T -> nat)
    requires Sum(s, f) > 0
    ensures exists x :: x in s && f(x) > 0
    decreases |s|
  {
    if s != {} {
      var x :| x in s;
      SumRemove(s, x, f);
      if f(x) == 0 {
        SumPositive(s - {x}, f);
      }
    }
  }

  lemma {:induction false} SumOnes<T(!new)>(s: set<T>, f: T -> nat)
    requires forall x :: x in s ==> f(x) == 1
    ensures Sum(s, f) == |s|
    decreases |s|
  {
    if s != {} {
      var x :| x in s;
      SumOnes(s - {x}, f);
      SumRemove(s, x, f);
    }
  }

  lemma SumSame<T(!new)>(s: set<T>, f: T -> nat, g: T -> nat)
    requires forall x :: x in s ==> f(x) == g(x)
    ensures Sum(s, f) == Sum(s, g)
  {
    SumMonotone(s, f, g);
  }

  lemma {:induction false} SumZero<T(!new)>(s: set<T>, f: T -> nat)
    requires forall x :: x in s ==> f(x) == 0
    ensures Sum(s, f) == 0
    decreases |s|
  {
    if s != {} {
      var x :| x in s;
      SumRemove(s, x, f);
      SumZero(s - {x}, f);
    }
  }

  /** A row of pairs with the given second parts. */
  function InRow(g: nat, js: set<nat>): set<(nat, nat)> {
    set j | j in js :: (g, j)
  }

  lemma {:induction false} RowSize(g: nat, js: set<nat>)
    ensures |InRow(g, js)| == |js|
    decreases |js|
  {
    if js != {} {
      var j :| j in js;
      RowSize(g, js - {j});
      assert InRow(g, js) == InRow(g, js - {j}) + {(g, j)};
    } else {
      assert InRow(g, js) == {};
    }
  }
}

/** Lists with some elements deleted. */
module Sublists {
  /** `a` can be obtained from `b` by deleting elements. */
  predicate Sublist<T(==)>(a: seq<T>, b: seq<T>) {
    a == [] ||
    (b != [] && ((a[|a| - 1] == b[|b| - 1] && Sublist(a[..|a| - 1], b[..|b| - 1])) || Sublist(a, b[..|b| - 1])))
  }

  lemma {:induction false} SublistRefl<T>(a: seq<T>)
    ensures Sublist(a, a)
  {
    if a != [] { SublistRefl(a[..|a| - 1]); }
  }

  lemma {:induction false} SublistOfNothing<T>(a: seq<T>)
    ensures Sublist([], a) && (Sublist(a, []) ==> a == [])
  {
  }

  lemma {:induction false} SublistAppend<T>(a: seq<T>, b: seq<T>, x: seq<T>, y: seq<T>)
    requires Sublist(a, b) && Sublist(x, y)
    ensures Sublist(a + x, b + y)
  {
    if y == [] {
      assert a + x == a && b + y == b;
    } else if x == [] {
      SublistAppend(a, b, [], y[..|y| - 1]);
      assert a + x == a && a + [] == a && (b + y)[..|b + y| - 1] == b + y[..|y| - 1];
    } else {
      assert (a + x)[..|a + x| - 1] == a + x[..|x| - 1] && (b + y)[..|b + y| - 1] == b + y[..|y| - 1];
      if x[|x| - 1] == y[|y| - 1] && Sublist(x[..|x| - 1], y[..|y| - 1]) {
        SublistAppend(a, b, x[..|x| - 1], y[..|y| - 1]);
      } else {
        SublistAppend(a, b, x, y[..|y| - 1]);
      }
    }
  }

  lemma {:induction false} SublistMembers<T>(a: seq<T>, b: seq<T>)
    requires Sublist(a, b)
    ensures forall x | x in a :: x in b
  {
    if a != [] {
      if a[|a| - 1] == b[|b| - 1] && Sublist(a[..|a| - 1], b[..|b| - 1]) {
        SublistMembers(a[..|a| - 1], b[..|b| - 1]);
        assert a == a[..|a| - 1] + [a[|a| - 1]];
      } else {
        SublistMembers(a, b[..|b| - 1]);
      }
      assert b == b[..|b| - 1] + [b[|b| - 1]];
    }
  }

  lemma {:induction false} SublistTrans<T>(a: seq<T>, b: seq<T>, c: seq<T>)
    requires Sublist(a, b) && Sublist(b, c)
    ensures Sublist(a, c)
  {
    if a != [] {
      if b[|b| - 1] == c[|c| - 1] && Sublist(b[..|b| - 1], c[..|c| - 1]) {
        if a[|a| - 1] == b[|b| - 1] && Sublist(a[..|a| - 1], b[..|b| - 1]) {
          SublistTrans(a[..|a| - 1], b[..|b| - 1], c[..|c| - 1]);
        } else {
          SublistTrans(a, b[..|b| - 1], c[..|c| - 1]);
        }
      } else {
        SublistTrans(a, b, c[..|c| - 1]);
      }
    }
  }
}

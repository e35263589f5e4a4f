/** Cardinalities of finite sets. */
module Counting {

  /** A set that maps one-to-one into another is no larger. */
  lemma {:induction false} InjectiveInto<A, B>(s: set<A>, f: A -> B, t: set<B>)
    requires forall x | x in s :: f(x) in t
    requires forall x, y | x in s && y in s && f(x) == f(y) :: x == y
    ensures |s| <= |t|
  {
    if s != {} {
      var x :| x in s;
      InjectiveInto(s - {x}, f, t - {f(x)});
    }
  }

  ghost predicate Hits<A(!new)>(s: set<A>, f: A -> int, n: int) {
    exists x :: x in s && f(x) == n
  }

  /** A set numbered one-to-one by exactly the numbers lo, lo + 1, ..., hi - 1. */
  lemma {:induction false} NumberedSize<A(!new)>(s: set<A>, f: A -> int, lo: int, hi: int)
    requires lo <= hi
    requires forall x | x in s :: lo <= f(x) < hi
    requires forall x, y | x in s && y in s && f(x) == f(y) :: x == y
    requires forall n | lo <= n < hi :: Hits(s, f, n)
    ensures |s| == hi - lo
    decreases hi - lo
  {
    if lo < hi {
      assert Hits(s, f, hi - 1);
      var x :| x in s && f(x) == hi - 1;
      forall n | lo <= n < hi - 1
        ensures Hits(s - {x}, f, n)
      {
        assert Hits(s, f, n);
        var y :| y in s && f(y) == n;
        assert y in s - {x};
      }
      NumberedSize(s - {x}, f, lo, hi - 1);
    } else {
      assert s == {};
    }
  }

  lemma {:induction false} SubsetSize<A>(s: set<A>, t: set<A>)
    requires s <= t
    ensures |s| <= |t|
  {
    if s != {} {
      var x :| x in s;
      SubsetSize(s - {x}, t - {x});
    }
  }

  /** A nonempty finite set has an element of greatest value. */
  lemma {:induction false} Greatest<A>(s: set<A>, f: A -> int) returns (x: A)
    requires s != {}
    ensures x in s && forall y | y in s :: f(y) <= f(x)
  {
    var z :| z in s;
    if s == {z} {
      x := z;
    } else {
      var w := Greatest(s - {z}, f);
      x := if f(w) < f(z) then z else w;
      forall y | y in s
        ensures f(y) <= f(x)
      {
        assert y == z || y in s - {z};
      }
    }
  }

  lemma MaxExists(s: set<int>)
    requires s != {}
    ensures exists m :: m in s && forall x | x in s :: x <= m
  {
    var m := Greatest(s, x => x);
  }

  ghost function Max(s: set<int>): (m: int)
    requires s != {}
    ensures m in s && forall x | x in s :: x <= m
  {
    MaxExists(s);
    var m :| m in s && forall x | x in s :: x <= m;
    m
  }
}

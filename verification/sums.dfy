/** Sums of an integer-valued function over a finite set of account ids. */
module Sums {
  /** The sum of f over ids, taking the members in an arbitrary order. */
  ghost function SumOver(ids: set<string>, f: string -> int): int
    decreases ids
  {
    if ids == {} then 0
    else
      var x :| x in ids;
      f(x) + SumOver(ids - {x}, f)
  }

  /** Any member of the set can be the one split off first. */
  lemma {:induction false} SumSplit(ids: set<string>, f: string -> int, x: string)
    requires x in ids
    ensures SumOver(ids, f) == f(x) + SumOver(ids - {x}, f)
    decreases ids
  {
    var y :| y in ids && SumOver(ids, f) == f(y) + SumOver(ids - {y}, f);
    if y != x {
      SumSplit(ids - {y}, f, x);
      SumSplit(ids - {x}, f, y);
      assert ids - {y} - {x} == ids - {x} - {y};
    }
  }

  /** Functions that agree on the set have the same sum over it. */
  lemma {:induction false} SumAgree(ids: set<string>, f: string -> int, g: string -> int)
    requires forall y | y in ids :: f(y) == g(y)
    ensures SumOver(ids, f) == SumOver(ids, g)
    decreases ids
  {
    if ids != {} {
      var x :| x in ids;
      SumSplit(ids, f, x);
      SumSplit(ids, g, x);
      SumAgree(ids - {x}, f, g);
    }
  }
}

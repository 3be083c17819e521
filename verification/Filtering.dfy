/** Keeping the elements of a sequence that have a property. */
module Filtering {
  function Keep<T>(p: T -> bool, xs: seq<T>): seq<T> {
    if xs == [] then []
    else Keep(p, xs[..|xs| - 1]) + (if p(xs[|xs| - 1]) then [xs[|xs| - 1]] else [])
  }

  lemma {:induction false} KeepMembers<T>(p: T -> bool, xs: seq<T>, x: T)
    ensures x in Keep(p, xs) <==> x in xs && p(x)
  {
    if xs != [] {
      KeepMembers(p, xs[..|xs| - 1], x);
      assert xs == xs[..|xs| - 1] + [xs[|xs| - 1]];
    }
  }

  lemma {:induction false} KeepAll<T>(p: T -> bool, xs: seq<T>)
    requires forall x | x in xs :: p(x)
    ensures Keep(p, xs) == xs
  {
    if xs != [] {
      var front, last := xs[..|xs| - 1], xs[|xs| - 1];
      assert forall x | x in front :: x in xs;
      KeepAll(p, front);
      assert p(last) && front + [last] == xs;
    }
  }

  lemma {:induction false} KeepLength<T>(p: T -> bool, xs: seq<T>)
    ensures |Keep(p, xs)| <= |xs|
    ensures |Keep(p, xs)| == |xs| <==> forall i | 0 <= i < |xs| :: p(xs[i])
  {
    if xs != [] {
      KeepLength(p, xs[..|xs| - 1]);
    }
  }

  /** Keeping commutes with concatenation, so the kept elements stay in order. */
  lemma {:induction false} KeepConcat<T>(p: T -> bool, xs: seq<T>, ys: seq<T>)
    ensures Keep(p, xs + ys) == Keep(p, xs) + Keep(p, ys)
  {
    if ys == [] {
      assert xs + ys == xs;
    } else {
      var zs := xs + ys;
      KeepConcat(p, xs, ys[..|ys| - 1]);
      assert zs[..|zs| - 1] == xs + ys[..|ys| - 1] && zs[|zs| - 1] == ys[|ys| - 1];
    }
  }
}

/** Arrangements of lists, and folding a list with an operation that is only commutative and associative up to sameness. */
module Folding {
  function Remove<T>(xs: seq<T>, i: nat): seq<T>
    requires i < |xs|
  {
    xs[..i] + xs[i + 1..]
  }

  lemma RemoveBag<T>(xs: seq<T>, i: nat)
    requires i < |xs|
    ensures multiset(Remove(xs, i)) == multiset(xs) - multiset{xs[i]}
  {
    assert xs == xs[..i] + [xs[i]] + xs[i + 1..];
  }

  function Map<T, U>(xs: seq<T>, f: T -> U): seq<U> {
    seq(|xs|, i requires 0 <= i < |xs| => f(xs[i]))
  }

  /** Images of two arrangements are two arrangements of the images. */
  lemma {:induction false} MapBag<T, U>(xs: seq<T>, ys: seq<T>, f: T -> U)
    requires multiset(xs) == multiset(ys)
    ensures multiset(Map(xs, f)) == multiset(Map(ys, f))
    decreases |xs|
  {
    assert |xs| == |multiset(xs)| == |multiset(ys)| == |ys|;
    if xs != [] {
      var x := xs[0];
      assert x in multiset(ys);
      var j :| 0 <= j < |ys| && ys[j] == x;
      RemoveBag(xs, 0);
      RemoveBag(ys, j);
      MapBag(Remove(xs, 0), Remove(ys, j), f);
      MapSplit(xs, 0, f);
      MapSplit(ys, j, f);
    }
  }

  lemma MapSplit<T, U>(xs: seq<T>, i: nat, f: T -> U)
    requires i < |xs|
    ensures multiset(Map(xs, f)) == multiset(Map(Remove(xs, i), f)) + multiset{f(xs[i])}
  {
    var m := Map(xs, f);
    assert Map(Remove(xs, i), f) == m[..i] + m[i + 1..];
    assert m == m[..i] + [m[i]] + m[i + 1..];
  }

  lemma SameMembers<T>(xs: seq<T>, ys: seq<T>)
    requires multiset(xs) == multiset(ys)
    ensures |xs| == |ys| && forall x :: x in xs <==> x in ys
  {
    assert |xs| == |multiset(xs)| == |multiset(ys)| == |ys|;
    forall x ensures x in xs <==> x in ys {
      assert x in xs <==> x in multiset(xs);
      assert x in ys <==> x in multiset(ys);
    }
  }

  // ------------------------------------------------------------------ folding

  /** An operation, a sameness of results, and the values for which the laws hold. */
  datatype Algebra<!T> = Algebra(op: (T, T) -> T, same: (T, T) -> bool, good: T -> bool)

  /** Names the operands at which a law is used. */
  ghost predicate At<T>(x: T, y: T, z: T) { true }

  ghost predicate Closed<T(!new)>(a: Algebra<T>) {
    forall x, y {:trigger a.op(x, y)} :: a.good(x) && a.good(y) ==> a.good(a.op(x, y))
  }

  ghost predicate Transitive<T(!new)>(a: Algebra<T>) {
    forall x, y, z {:trigger At(x, y, z)} :: a.same(x, y) && a.same(y, z) ==> a.same(x, z)
  }

  ghost predicate Reflexive<T(!new)>(a: Algebra<T>) {
    forall x :: a.same(x, x)
  }

  ghost predicate Commutes<T(!new)>(a: Algebra<T>) {
    forall x, y {:trigger At(x, y, y)} :: a.good(x) && a.good(y) ==> a.same(a.op(x, y), a.op(y, x))
  }

  ghost predicate Congruent<T(!new)>(a: Algebra<T>) {
    forall x, x', y {:trigger At(x, x', y)} ::
      a.good(x) && a.good(x') && a.good(y) && a.same(x, x') ==> a.same(a.op(x, y), a.op(x', y))
  }

  ghost predicate Associates<T(!new)>(a: Algebra<T>) {
    forall x, y, z {:trigger At(x, y, z)} ::
      a.good(x) && a.good(y) && a.good(z) ==>
        a.same(a.op(a.op(x, y), z), a.op(x, a.op(y, z))) && a.same(a.op(x, a.op(y, z)), a.op(a.op(x, y), z))
  }

  ghost predicate Lawful<T(!new)>(a: Algebra<T>) {
    Closed(a) && Transitive(a) && Reflexive(a) && Commutes(a) && Congruent(a) && Associates(a)
  }

  lemma Through<T(!new)>(a: Algebra<T>, x: T, y: T, z: T)
    requires Lawful(a) && a.same(x, y) && a.same(y, z)
    ensures a.same(x, z)
  {
    assert At(x, y, z);
  }

  lemma Exchange<T(!new)>(a: Algebra<T>, x: T, y: T)
    requires Lawful(a) && a.good(x) && a.good(y)
    ensures a.same(a.op(x, y), a.op(y, x)) && a.good(a.op(x, y))
  {
    assert At(x, y, y);
  }

  lemma Left<T(!new)>(a: Algebra<T>, x: T, x': T, y: T)
    requires Lawful(a) && a.good(x) && a.good(x') && a.good(y) && a.same(x, x')
    ensures a.same(a.op(x, y), a.op(x', y))
  {
    assert At(x, x', y);
  }

  lemma Right<T(!new)>(a: Algebra<T>, x: T, y: T, y': T)
    requires Lawful(a) && a.good(x) && a.good(y) && a.good(y') && a.same(y, y')
    ensures a.same(a.op(x, y), a.op(x, y'))
  {
    Exchange(a, x, y);
    Left(a, y, y', x);
    Exchange(a, y', x);
    Through(a, a.op(x, y), a.op(y, x), a.op(y', x));
    Through(a, a.op(x, y), a.op(y', x), a.op(x, y'));
  }

  lemma Regroup<T(!new)>(a: Algebra<T>, x: T, y: T, z: T)
    requires Lawful(a) && a.good(x) && a.good(y) && a.good(z)
    ensures a.same(a.op(a.op(x, y), z), a.op(x, a.op(y, z))) && a.same(a.op(x, a.op(y, z)), a.op(a.op(x, y), z))
  {
    assert At(x, y, z);
  }

  predicate AllGood<T>(a: Algebra<T>, xs: seq<T>) { forall i :: 0 <= i < |xs| ==> a.good(xs[i]) }

  function Fold<T>(a: Algebra<T>, xs: seq<T>): T
    requires xs != []
  {
    if |xs| == 1 then xs[0] else a.op(Fold(a, xs[..|xs| - 1]), xs[|xs| - 1])
  }

  lemma {:induction false} FoldGood<T(!new)>(a: Algebra<T>, xs: seq<T>)
    requires Closed(a) && xs != [] && AllGood(a, xs)
    ensures a.good(Fold(a, xs))
    decreases |xs|
  {
    if |xs| > 1 { FoldGood(a, xs[..|xs| - 1]); }
  }

  /** The last two operands may change places. */
  lemma Swap<T(!new)>(a: Algebra<T>, x: T, y: T, z: T)
    requires Lawful(a) && a.good(x) && a.good(y) && a.good(z)
    ensures a.same(a.op(a.op(x, y), z), a.op(a.op(x, z), y))
  {
    Exchange(a, y, z);
    Exchange(a, z, y);
    var (l, r) := (a.op(x, a.op(y, z)), a.op(x, a.op(z, y)));
    Right(a, x, a.op(y, z), a.op(z, y));
    Regroup(a, x, y, z);
    Regroup(a, x, z, y);
    Through(a, a.op(a.op(x, y), z), l, r);
    Through(a, a.op(a.op(x, y), z), r, a.op(a.op(x, z), y));
  }

  /** all is rest with x last; then another operand z may come before x. */
  lemma MoveOut<T(!new)>(a: Algebra<T>, all: T, rest: T, x: T, z: T)
    requires Lawful(a) && a.good(all) && a.good(rest) && a.good(x) && a.good(z) && a.same(all, a.op(rest, x))
    ensures a.same(a.op(all, z), a.op(a.op(rest, z), x))
  {
    Exchange(a, rest, x);
    Left(a, all, a.op(rest, x), z);
    Swap(a, rest, x, z);
    Through(a, a.op(all, z), a.op(a.op(rest, x), z), a.op(a.op(rest, z), x));
  }

  lemma FoldOne<T>(a: Algebra<T>, xs: seq<T>, x: T)
    requires xs != []
    ensures Fold(a, xs + [x]) == a.op(Fold(a, xs), x)
  {
    assert (xs + [x])[..|xs|] == xs;
  }

  /** Any operand may as well have come last. */
  lemma {:induction false} LastOfMany<T(!new)>(a: Algebra<T>, xs: seq<T>, i: nat)
    requires Lawful(a) && AllGood(a, xs) && i < |xs| && |xs| >= 2
    ensures a.same(Fold(a, xs), a.op(Fold(a, Remove(xs, i)), xs[i]))
    decreases |xs|
  {
    var n := |xs|;
    var (ys, z) := (xs[..n - 1], xs[n - 1]);
    if i == n - 1 {
      assert Remove(xs, i) == ys;
    } else if n == 2 {
      assert Remove(xs, i) == [z] && ys == [xs[0]];
      Exchange(a, xs[0], z);
    } else {
      var rest := Remove(ys, i);
      LastOfMany(a, ys, i);
      FoldGood(a, ys);
      FoldGood(a, rest);
      MoveOut(a, Fold(a, ys), Fold(a, rest), xs[i], z);
      FoldOne(a, rest, z);
      assert Remove(xs, i) == rest + [z];
    }
  }

  /** Two arrangements of the same operands fold to the same result. */
  lemma {:induction false} FoldIgnoresOrder<T(!new)>(a: Algebra<T>, xs: seq<T>, ys: seq<T>)
    requires Lawful(a) && xs != [] && AllGood(a, xs) && multiset(xs) == multiset(ys)
    ensures ys != [] && a.same(Fold(a, xs), Fold(a, ys))
    decreases |xs|
  {
    SameMembers(xs, ys);
    var y := ys[|ys| - 1];
    assert y in ys;
    var i :| 0 <= i < |xs| && xs[i] == y;
    if |xs| >= 2 {
      var (rest, front) := (Remove(xs, i), ys[..|ys| - 1]);
      RemoveBag(xs, i);
      RemoveBag(ys, |ys| - 1);
      assert Remove(ys, |ys| - 1) == front;
      assert AllGood(a, rest);
      LastOfMany(a, xs, i);
      FoldIgnoresOrder(a, rest, front);
      SameMembers(rest, front);
      assert AllGood(a, front) by { forall j | 0 <= j < |front| ensures a.good(front[j]) { assert front[j] in rest; } }
      FoldGood(a, rest);
      FoldGood(a, front);
      Left(a, Fold(a, rest), Fold(a, front), y);
      Through(a, Fold(a, xs), a.op(Fold(a, rest), y), a.op(Fold(a, front), y));
    } else {
      assert xs == [y] && ys == [y];
    }
  }
}

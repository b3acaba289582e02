/**
 Maps, filters and sums over sequences, with the laws the other modules share.
 */
module Sequences {

  ghost predicate NoDuplicates<T>(s: seq<T>) {
    forall i, j | 0 <= i < j < |s| :: s[i] != s[j]
  }

  // The first occurrence of each element.
  function Deduplicated<T(==, !new)>(xs: seq<T>): (r: seq<T>)
    ensures forall x :: x in r <==> x in xs
  {
    if xs == [] then []
    else
      var front, last := Deduplicated(xs[..|xs| - 1]), xs[|xs| - 1];
      if last in front then front else front + [last]
  }

  lemma {:induction false} DeduplicatedIsDistinct<T(!new)>(xs: seq<T>)
    ensures NoDuplicates(Deduplicated(xs))
  {
    if xs != [] {
      DeduplicatedIsDistinct(xs[..|xs| - 1]);
      var front, r := Deduplicated(xs[..|xs| - 1]), Deduplicated(xs);
      assert forall i | 0 <= i < |front| :: r[i] == front[i] && front[i] in front;
    }
  }

  lemma {:induction false} DistinctIsKept<T(!new)>(xs: seq<T>)
    requires NoDuplicates(xs)
    ensures Deduplicated(xs) == xs
  {
    if xs != [] {
      DistinctIsKept(xs[..|xs| - 1]);
      assert xs == xs[..|xs| - 1] + [xs[|xs| - 1]];
    }
  }

  // Every element is replaced by a (possibly empty) sequence of elements.
  function FlatMap<T, U>(f: T -> seq<U>, xs: seq<T>): seq<U> {
    if xs == [] then [] else f(xs[0]) + FlatMap(f, xs[1..])
  }

  lemma {:induction false} FlatMapConcat<T, U>(f: T -> seq<U>, a: seq<T>, b: seq<T>)
    ensures FlatMap(f, a + b) == FlatMap(f, a) + FlatMap(f, b)
  {
    if a == [] {
      assert a + b == b;
    } else {
      FlatMapConcat(f, a[1..], b);
      var head, front, back := f(a[0]), FlatMap(f, a[1..]), FlatMap(f, b);
      assert FlatMap(f, a + b) == head + (front + back) by {
        assert (a + b)[1..] == a[1..] + b && (a + b)[0] == a[0];
      }
      assert head + (front + back) == (head + front) + back;
    }
  }

  lemma FlatMapCons<T, U>(f: T -> seq<U>, x: T, xs: seq<T>)
    ensures FlatMap(f, [x] + xs) == f(x) + FlatMap(f, xs)
  {
    assert ([x] + xs)[1..] == xs;
  }

  lemma FlatMapSingle<T, U>(f: T -> seq<U>, x: T)
    ensures FlatMap(f, [x]) == f(x)
  {
    assert [x][1..] == [];
  }

  // One more element at the end.
  lemma FlatMapSnoc<T, U>(f: T -> seq<U>, xs: seq<T>, x: T)
    ensures FlatMap(f, xs + [x]) == FlatMap(f, xs) + f(x)
  {
    FlatMapConcat(f, xs, [x]);
    FlatMapSingle(f, x);
  }

  // The step of a loop that appends f of the next element.
  lemma FlatMapStep<T, U>(f: T -> seq<U>, xs: seq<T>, i: nat)
    requires i < |xs|
    ensures FlatMap(f, xs[..i + 1]) == FlatMap(f, xs[..i]) + f(xs[i])
  {
    assert xs[..i + 1] == xs[..i] + [xs[i]];
    FlatMapSnoc(f, xs[..i], xs[i]);
  }

  lemma FlatMapStepAfter<T, U>(front: seq<U>, f: T -> seq<U>, xs: seq<T>, i: nat)
    requires i < |xs|
    ensures front + FlatMap(f, xs[..i + 1]) == (front + FlatMap(f, xs[..i])) + f(xs[i])
  {
    FlatMapStep(f, xs, i);
    hide FlatMap;
    assert front + (FlatMap(f, xs[..i]) + f(xs[i])) == (front + FlatMap(f, xs[..i])) + f(xs[i]);
  }

  lemma {:induction false} FlatMapMembers<T, U>(f: T -> seq<U>, xs: seq<T>)
    ensures forall y :: y in FlatMap(f, xs) <==> exists x :: x in xs && y in f(x)
  {
    if xs != [] {
      FlatMapMembers(f, xs[1..]);
      var head, tl := f(xs[0]), FlatMap(f, xs[1..]);
      forall y ensures y in FlatMap(f, xs) <==> exists x :: x in xs && y in f(x) {
        assert y in FlatMap(f, xs) <==> y in head || y in tl;
        if y in tl {
          var x :| x in xs[1..] && y in f(x);
          assert x in xs;
        }
        if z :| z in xs && y in f(z) {
          assert z == xs[0] || z in xs[1..];
        }
      }
    }
  }

  lemma {:induction false} FlatMapIdentity<T>(f: T -> seq<T>, xs: seq<T>)
    requires forall x | x in xs :: f(x) == [x]
    ensures FlatMap(f, xs) == xs
  {
    if xs != [] {
      assert xs[0] in xs && forall x | x in xs[1..] :: x in xs;
      FlatMapIdentity(f, xs[1..]);
    }
  }

  lemma {:induction false} FlatMapEmpty<T, U>(f: T -> seq<U>, xs: seq<T>)
    requires forall x | x in xs :: f(x) == []
    ensures FlatMap(f, xs) == []
  {
    if xs != [] {
      assert xs[0] in xs && forall x | x in xs[1..] :: x in xs;
      FlatMapEmpty(f, xs[1..]);
    }
  }

  // Two maps that agree position by position.
  lemma {:induction false} FlatMapPointwise<T, U, V>(f: T -> seq<V>, xs: seq<T>, g: U -> seq<V>, ys: seq<U>)
    requires |xs| == |ys|
    requires forall i | 0 <= i < |xs| :: f(xs[i]) == g(ys[i])
    ensures FlatMap(f, xs) == FlatMap(g, ys)
  {
    if xs != [] {
      FlatMapPointwise(f, xs[1..], g, ys[1..]);
    }
  }

  // The indices from lo up to, not including, hi.
  function Range(lo: nat, hi: nat): (r: seq<nat>)
    requires lo <= hi
    ensures |r| == hi - lo && forall i | 0 <= i < hi - lo :: r[i] == lo + i
  {
    seq(hi - lo, i requires 0 <= i => lo + i)
  }

  // Two passes that amount to one, element by element.
  lemma {:induction false} FlatMapCompose<T, U, V>(f: U -> seq<V>, g: T -> seq<U>, h: T -> seq<V>, xs: seq<T>)
    requires forall x | x in xs :: FlatMap(f, g(x)) == h(x)
    ensures FlatMap(f, FlatMap(g, xs)) == FlatMap(h, xs)
  {
    if xs != [] {
      assert xs[0] in xs && forall x | x in xs[1..] :: x in xs;
      FlatMapCompose(f, g, h, xs[1..]);
      FlatMapConcat(f, g(xs[0]), FlatMap(g, xs[1..]));
    }
  }

  function SumBy<T>(weight: T -> nat, xs: seq<T>): nat {
    if xs == [] then 0 else weight(xs[0]) + SumBy(weight, xs[1..])
  }

  lemma {:induction false} SumByConcat<T>(weight: T -> nat, a: seq<T>, b: seq<T>)
    ensures SumBy(weight, a + b) == SumBy(weight, a) + SumBy(weight, b)
  {
    if a == [] {
      assert a + b == b;
    } else {
      assert (a + b)[1..] == a[1..] + b;
      SumByConcat(weight, a[1..], b);
    }
  }

  lemma SumBySingle<T>(weight: T -> nat, x: T)
    ensures SumBy(weight, [x]) == weight(x)
  {
    assert [x][1..] == [];
  }

  lemma SumBySnoc<T>(weight: T -> nat, xs: seq<T>, x: T)
    ensures SumBy(weight, xs + [x]) == SumBy(weight, xs) + weight(x)
  {
    SumByConcat(weight, xs, [x]);
    SumBySingle(weight, x);
  }

  lemma SumByStep<T>(weight: T -> nat, xs: seq<T>, i: nat)
    requires i < |xs|
    ensures SumBy(weight, xs[..i + 1]) == SumBy(weight, xs[..i]) + weight(xs[i])
  {
    assert xs[..i + 1] == xs[..i] + [xs[i]];
    SumBySnoc(weight, xs[..i], xs[i]);
  }

  // Replacing one element changes the sum by the difference in weight.
  lemma {:induction false} SumByUpdate<T>(weight: T -> nat, xs: seq<T>, i: nat, x: T)
    requires i < |xs|
    ensures SumBy(weight, xs[i := x]) + weight(xs[i]) == SumBy(weight, xs) + weight(x)
  {
    var front, back := xs[..i], xs[i + 1..];
    SumByAt(weight, front, xs[i], back);
    SumByAt(weight, front, x, back);
    assert xs == front + [xs[i]] + back && xs[i := x] == front + [x] + back;
  }

  lemma {:induction false} SumByAt<T>(weight: T -> nat, front: seq<T>, x: T, back: seq<T>)
    ensures SumBy(weight, front + [x] + back) == SumBy(weight, front) + weight(x) + SumBy(weight, back)
  {
    SumByConcat(weight, front + [x], back);
    SumBySnoc(weight, front, x);
  }

  lemma {:induction false} SumByZeroIff<T>(weight: T -> nat, xs: seq<T>)
    ensures SumBy(weight, xs) == 0 <==> forall i | 0 <= i < |xs| :: weight(xs[i]) == 0
  {
    if xs != [] {
      SumByZeroIff(weight, xs[1..]);
      assert forall i | 0 < i < |xs| :: xs[i] == xs[1..][i - 1];
    }
  }

  // Two elements weigh no more than all of them.
  lemma {:induction false} SumByPair<T>(weight: T -> nat, xs: seq<T>, i: nat, j: nat)
    requires i < j < |xs|
    ensures weight(xs[i]) + weight(xs[j]) <= SumBy(weight, xs)
  {
    SumByAt(weight, xs[..j], xs[j], xs[j + 1..]);
    assert xs == xs[..j] + [xs[j]] + xs[j + 1..];
    SumByAt(weight, xs[..j][..i], xs[i], xs[..j][i + 1..]);
    assert xs[..j] == xs[..j][..i] + [xs[i]] + xs[..j][i + 1..];
  }

  // A map that gives one element each time keeps positions.
  lemma {:induction false} FlatMapOneEach<T, U>(f: T -> seq<U>, xs: seq<T>)
    requires forall x | x in xs :: |f(x)| == 1
    ensures |FlatMap(f, xs)| == |xs| && forall k | 0 <= k < |xs| :: FlatMap(f, xs)[k] == f(xs[k])[0]
  {
    if xs != [] {
      FlatMapOneEach(f, xs[1..]);
      assert xs[0] in xs && |f(xs[0])| == 1;
      assert forall k | 0 < k < |xs| :: xs[k] == xs[1..][k - 1];
    }
  }

  // A map that makes no element heavier makes no sequence heavier.
  lemma {:induction false} FlatMapLighter<T>(weight: T -> nat, f: T -> seq<T>, xs: seq<T>)
    requires forall x :: SumBy(weight, f(x)) <= weight(x)
    ensures SumBy(weight, FlatMap(f, xs)) <= SumBy(weight, xs)
  {
    if xs != [] {
      FlatMapLighter(weight, f, xs[1..]);
      SumByConcat(weight, f(xs[0]), FlatMap(f, xs[1..]));
    }
  }

  // Moving the split point of a sequence one element to the front.
  lemma SplitStep<T>(xs: seq<T>, i: nat)
    requires 0 < i <= |xs|
    ensures xs[i - 1..] == [xs[i - 1]] + xs[i..]
    ensures xs[..i] == xs[..i - 1] + [xs[i - 1]]
  {}

  function Reversed<T>(xs: seq<T>): (r: seq<T>)
    ensures |r| == |xs|
  {
    if xs == [] then [] else Reversed(xs[1..]) + [xs[0]]
  }

  lemma ReversedCons<T>(x: T, xs: seq<T>)
    ensures Reversed([x] + xs) == Reversed(xs) + [x]
  {
    assert ([x] + xs)[1..] == xs;
  }

  lemma {:induction false} ReversedSnoc<T>(xs: seq<T>, x: T)
    ensures Reversed(xs + [x]) == [x] + Reversed(xs)
  {
    if xs == [] {
      assert xs + [x] == [x];
    } else {
      assert (xs + [x])[1..] == xs[1..] + [x];
      ReversedSnoc(xs[1..], x);
    }
  }

  lemma {:induction false} ReversedTwice<T>(xs: seq<T>)
    ensures Reversed(Reversed(xs)) == xs
  {
    if xs != [] {
      ReversedTwice(xs[1..]);
      ReversedSnoc(Reversed(xs[1..]), xs[0]);
    }
  }

  /* ----- without one element ----- */

  function Removed<T(==, !new)>(xs: seq<T>, x: T): (r: seq<T>)
    ensures forall y :: y in r <==> y in xs && y != x
    ensures x !in xs ==> r == xs
  {
    if xs == [] then []
    else if xs[0] == x then Removed(xs[1..], x)
    else [xs[0]] + Removed(xs[1..], x)
  }

  lemma {:induction false} RemovedIsDistinct<T(!new)>(xs: seq<T>, x: T)
    requires NoDuplicates(xs)
    ensures NoDuplicates(Removed(xs, x))
  {
    if xs != [] {
      RemovedIsDistinct(xs[1..], x);
      if xs[0] != x {
        assert xs[0] !in xs[1..];
        PrependedIsDistinct(xs[0], Removed(xs[1..], x));
      }
    }
  }

  lemma PrependedIsDistinct<T>(x: T, xs: seq<T>)
    requires NoDuplicates(xs) && x !in xs
    ensures NoDuplicates([x] + xs)
  {}

  // The others stay, as often as they were and in their order.
  lemma {:induction false} RemovedKeepsOthers<T(!new)>(xs: seq<T>, x: T, y: T)
    ensures IsSubsequence(Removed(xs, x), xs)
    ensures multiset(Removed(xs, x))[y] == if y == x then 0 else multiset(xs)[y]
  {
    if xs != [] {
      RemovedKeepsOthers(xs[1..], x, y);
      assert xs == [xs[0]] + xs[1..];
      if xs[0] != x { assert Removed(xs, x)[1..] == Removed(xs[1..], x); }
    }
  }

  // Of equal elements the first one stays, and their order too.
  lemma {:induction false} DeduplicatedKeepsOrder<T(!new)>(xs: seq<T>, i: nat, j: nat)
    requires i < j < |Deduplicated(xs)|
    ensures exists k: nat :: k < |xs| && xs[k] == Deduplicated(xs)[i] && Deduplicated(xs)[j] !in xs[..k + 1]
  {
    var n := |xs| - 1;
    var front, last := Deduplicated(xs[..n]), xs[n];
    if j < |front| {
      DeduplicatedKeepsOrder(xs[..n], i, j);
      var k: nat :| k < n && xs[..n][k] == front[i] && front[j] !in xs[..n][..k + 1];
      assert xs[..n][..k + 1] == xs[..k + 1];
    } else {
      assert front[i] in xs[..n];
      var k :| 0 <= k < n && xs[..n][k] == front[i];
      assert last !in xs[..n];
      assert forall z | z in xs[..k + 1] :: z in xs[..n];
    }
  }

  /* ----- filtering ----- */

  // The elements of a in their order, among others.
  predicate IsSubsequence<T(==)>(a: seq<T>, b: seq<T>)
    decreases |b|
  {
    a == [] || (b != [] && ((a[0] == b[0] && IsSubsequence(a[1..], b[1..])) || IsSubsequence(a, b[1..])))
  }

  // A map that keeps or drops each element keeps their order.
  lemma {:induction false} FilterKeepsOrder<T>(f: T -> seq<T>, xs: seq<T>)
    requires forall x | x in xs :: f(x) == [x] || f(x) == []
    ensures IsSubsequence(FlatMap(f, xs), xs)
  {
    if xs != [] {
      FilterKeepsOrder(f, xs[1..]);
      var tl := FlatMap(f, xs[1..]);
      if f(xs[0]) == [] {
        assert FlatMap(f, xs) == tl;
      } else {
        assert FlatMap(f, xs) == [xs[0]] + tl && ([xs[0]] + tl)[1..] == tl;
      }
    }
  }

  // An element that is kept, and that nothing else turns into, is there as often as before.
  lemma {:induction false} FlatMapKeepsCount<T>(f: T -> seq<T>, xs: seq<T>, y: T)
    requires f(y) == [y] && forall x | x in xs && x != y :: y !in f(x)
    ensures multiset(FlatMap(f, xs))[y] == multiset(xs)[y]
  {
    if xs != [] {
      FlatMapKeepsCount(f, xs[1..], y);
      assert xs == [xs[0]] + xs[1..];
      if xs[0] != y { assert y !in f(xs[0]) && multiset(f(xs[0]))[y] == 0; }
    }
  }

  lemma {:induction false} FlatMapDrops<T>(f: T -> seq<T>, xs: seq<T>, y: T)
    requires forall x | x in xs :: y !in f(x)
    ensures multiset(FlatMap(f, xs))[y] == 0
  {
    FlatMapMembers(f, xs);
    assert y !in FlatMap(f, xs);
  }
}

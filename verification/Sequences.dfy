/** Vocabulary about sequences shared by the gateway's components. */
module Sequences {

  ghost predicate Distinct<T>(xs: seq<T>) {
    forall i, j :: 0 <= i < j < |xs| ==> xs[i] != xs[j]
  }

  /** The elements of xs outside `drop`, in their order. */
  ghost function Without<T>(xs: seq<T>, drop: set<T>): seq<T> {
    if xs == [] then []
    else (if xs[0] in drop then [] else [xs[0]]) + Without(xs[1..], drop)
  }

  /** xs with its first occurrence of x removed. */
  function Erase<T(==)>(xs: seq<T>, x: T): seq<T> {
    if xs == [] then []
    else if xs[0] == x then xs[1..]
    else [xs[0]] + Erase(xs[1..], x)
  }

  function Flatten<T>(xss: seq<seq<T>>): seq<T> {
    if xss == [] then [] else xss[0] + Flatten(xss[1..])
  }

  function Sum(xs: seq<int>): int {
    if xs == [] then 0 else Sum(xs[..|xs| - 1]) + xs[|xs| - 1]
  }

  lemma ConcatAssociates<T>(a: seq<T>, b: seq<T>, c: seq<T>)
    ensures (a + b) + c == a + (b + c)
  {
  }

  lemma {:induction false} WithoutConcat<T>(xs: seq<T>, ys: seq<T>, drop: set<T>)
    ensures Without(xs + ys, drop) == Without(xs, drop) + Without(ys, drop)
  {
    if xs == [] {
      assert xs + ys == ys;
    } else {
      WithoutConcat(xs[1..], ys, drop);
      assert (xs + ys)[0] == xs[0] && (xs + ys)[1..] == xs[1..] + ys;
      ConcatAssociates(if xs[0] in drop then [] else [xs[0]], Without(xs[1..], drop), Without(ys, drop));
    }
  }

  lemma WithoutCons<T>(x: T, xs: seq<T>, drop: set<T>)
    ensures Without([x] + xs, drop) == if x in drop then Without(xs, drop) else [x] + Without(xs, drop)
  {
    assert ([x] + xs)[1..] == xs;
    if x in drop {
      var none: seq<T> := [];
      assert none + Without(xs, drop) == Without(xs, drop);
    }
  }

  lemma {:induction false} WithoutMember<T>(xs: seq<T>, drop: set<T>, x: T)
    ensures x in Without(xs, drop) <==> x in xs && x !in drop
  {
    if xs != [] {
      WithoutMember(xs[1..], drop, x);
      assert xs == [xs[0]] + xs[1..];
    }
  }

  /** Dropping a set nothing of which occurs changes nothing. */
  lemma {:induction false} WithoutNothing<T>(xs: seq<T>, drop: set<T>)
    requires forall x :: x in xs ==> x !in drop
    ensures Without(xs, drop) == xs
  {
    if xs != [] {
      WithoutNothing(xs[1..], drop);
    }
  }

  lemma {:induction false} WithoutTwice<T>(xs: seq<T>, a: set<T>, b: set<T>)
    ensures Without(xs, a + b) == Without(Without(xs, a), b)
  {
    if xs != [] {
      WithoutTwice(xs[1..], a, b);
      var head := if xs[0] in a then [] else [xs[0]];
      WithoutConcat(head, Without(xs[1..], a), b);
      assert Without(head, b) == if xs[0] in a + b then [] else [xs[0]];
    }
  }

  lemma {:induction false} WithoutDistinct<T>(xs: seq<T>, drop: set<T>)
    requires Distinct(xs)
    ensures Distinct(Without(xs, drop))
  {
    if xs != [] {
      WithoutDistinct(xs[1..], drop);
      WithoutMember(xs[1..], drop, xs[0]);
    }
  }

  /** Erasing from a duplicate-free sequence is dropping the element. */
  lemma {:induction false} EraseIsWithout<T>(xs: seq<T>, x: T)
    requires Distinct(xs)
    ensures Erase(xs, x) == Without(xs, {x})
  {
    if xs != [] {
      if xs[0] == x {
        WithoutNothing(xs[1..], {x});
      } else {
        EraseIsWithout(xs[1..], x);
      }
    }
  }

  lemma {:induction false} ErasePosition<T>(xs: seq<T>, x: T, k: nat)
    requires k < |xs| && xs[k] == x && x !in xs[..k]
    ensures Erase(xs, x) == xs[..k] + xs[k + 1..]
  {
    if k > 0 {
      assert x !in xs[1..][..k - 1] by {
        assert xs[1..][..k - 1] == xs[..k][1..];
      }
      ErasePosition(xs[1..], x, k - 1);
      assert xs[0] in xs[..k];
      assert xs[..k] + xs[k + 1..] == [xs[0]] + (xs[1..][..k - 1] + xs[1..][k..]);
    }
  }

  /** A duplicate-free sequence holds everything at most once. */
  lemma {:induction false} AtMostOnce<T>(xs: seq<T>, x: T)
    requires Distinct(xs)
    ensures multiset(xs)[x] <= 1
  {
    if xs != [] {
      AtMostOnce(xs[1..], x);
      assert xs == [xs[0]] + xs[1..];
      assert multiset(xs)[x] == multiset([xs[0]])[x] + multiset(xs[1..])[x];
    }
  }

  lemma AtLeastTwice<T>(xs: seq<T>, i: nat, j: nat)
    requires i < j < |xs| && xs[i] == xs[j]
    ensures multiset(xs)[xs[i]] >= 2
  {
    assert xs == xs[..j] + [xs[j]] + xs[j + 1..];
    assert xs[..j][i] == xs[i];
    assert xs[i] in multiset(xs[..j]);
  }
}

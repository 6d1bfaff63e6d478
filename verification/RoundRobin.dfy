/**
 Round-robin routing: an atomically incremented 64-bit cursor picks where the
 rotation of the candidates starts. Both the cursor and the sum `start + i` wrap
 around at 2^64, and the theorems say exactly what that costs.
 */
module RoundRobin {
  import opened Sequences

  /** The number of values of the cursor's type. */
  const W: nat := 0x1_0000_0000_0000_0000

  function Index(start: nat, i: nat, n: nat): (k: nat)
    requires n > 0
    ensures k < n
  {
    ((start + i) % W) % n
  }

  function Rotation(cs: seq<nat>, start: nat): seq<nat> {
    seq(|cs|, i requires 0 <= i < |cs| => cs[Index(start, i, |cs|)])
  }

  class Policy {
    var cursor: nat

    ghost predicate Valid()
      reads this
    {
      cursor < W
    }

    constructor ()
      ensures Valid() && cursor == 0
    {
      cursor := 0;
    }

    method Order(candidates: seq<nat>) returns (order: seq<nat>)
      requires Valid()
      modifies this
      ensures Valid() && order == Rotation(candidates, old(cursor))
      ensures cursor == if candidates == [] then old(cursor) else (old(cursor) + 1) % W
    {
      order := [];
      var n := |candidates|;
      if n == 0 {
        return;
      }
      var start := cursor;
      cursor := (cursor + 1) % W;
      for i := 0 to n
        invariant order == Rotation(candidates, start)[..i]
      {
        order := order + [candidates[Index(start, i, n)]];
      }
    }
  }

  // ---------------------------------------------------------------- remainders

  lemma Multiples(d: int, n: int)
    requires n > 0
    ensures d >= 1 ==> d * n >= n
    ensures d <= -1 ==> d * n <= -n
  {
    assert d * n == n + (d - 1) * n;
    assert d * n == -n + (d + 1) * n;
  }

  lemma RemainderIs(a: nat, n: nat, q: int, r: nat)
    requires n > 0 && a == q * n + r && r < n
    ensures a % n == r
  {
    var q', r' := a / n, a % n;
    assert a == q' * n + r' && 0 <= r' < n;
    assert (q - q') * n == q * n - q' * n == r' - r;
    Multiples(q - q', n);
  }

  /** Where a short step from a lands. */
  lemma ShortStep(a: nat, i: nat, n: nat)
    requires n > 0 && i <= n
    ensures (a + i) % n == if a % n + i < n then a % n + i else a % n + i - n
  {
    var q, k := a / n, a % n;
    assert a == q * n + k;
    if k + i < n {
      RemainderIs(a + i, n, q, k + i);
    } else {
      assert (q + 1) * n == q * n + n;
      RemainderIs(a + i, n, q + 1, k + i - n);
    }
  }

  // ------------------------------------------------------------- permutations

  /** The rotation that starts at the cursor's residue. */
  function Turned(cs: seq<nat>, start: nat): seq<nat>
    requires cs != []
  {
    var k := start % |cs|;
    cs[k..] + cs[..k]
  }

  lemma IndexOf(start: nat, i: nat, n: nat)
    requires start < W && 0 < n <= W && i < n
    requires start + n <= W || W % n == 0
    ensures Index(start, i, n) == (start + i) % n
  {
    if start + i < W {
      RemainderIs(start + i, W, 0, start + i);
    } else {
      var m := W / n;
      assert W == m * n;
      RemainderIs(start + i, W, 1, start + i - W);
      var x := start + i - W;
      assert x == (x / n) * n + x % n;
      assert (x / n + m) * n == (x / n) * n + m * n;
      RemainderIs(start + i, n, x / n + m, x % n);
    }
  }

  lemma RotationTurns(cs: seq<nat>, start: nat)
    requires cs != [] && start < W && |cs| <= W
    requires start + |cs| <= W || W % |cs| == 0
    ensures Rotation(cs, start) == Turned(cs, start)
  {
    forall i | 0 <= i < |cs| ensures Rotation(cs, start)[i] == Turned(cs, start)[i] {
      IndexOf(start, i, |cs|);
      ShortStep(start, i, |cs|);
    }
  }

  /** Past the wrap the indices start again from zero. */
  lemma IndexPastWrap(start: nat, j: nat, n: nat)
    requires start < W < start + n && n <= W && j < n
    ensures start + j >= W ==> Index(start, j, n) == start + j - W
    ensures start + j < W ==> Index(start, j, n) == (start + j) % n
  {
    if start + j >= W {
      RemainderIs(start + j, W, 1, start + j - W);
      RemainderIs(start + j - W, n, 0, start + j - W);
    } else {
      RemainderIs(start + j, W, 0, start + j);
    }
  }

  /** Just before the wrap, d steps short of it. */
  lemma BeforeWrap(d: nat, n: nat)
    requires 0 < n <= W && d <= W % n
    ensures (W - d) % n == W % n - d
  {
    var q := W / n;
    assert W == q * n + W % n;
    RemainderIs(W - d, n, q, W % n - d);
  }

  lemma DuplicateBreaks(order: seq<nat>, cs: seq<nat>)
    requires Distinct(cs) && !Distinct(order)
    ensures multiset(order) != multiset(cs)
  {
    var i, j :| 0 <= i < j < |order| && order[i] == order[j];
    AtLeastTwice(order, i, j);
    AtMostOnce(cs, order[i]);
  }

  lemma MissingBreaks(order: seq<nat>, cs: seq<nat>, c: nat)
    requires c in cs && c !in order
    ensures multiset(order) != multiset(cs)
  {
    assert c in multiset(cs) && c !in multiset(order);
  }

  /** A rotation that runs over the end of the counter lists a candidate twice or leaves one out. */
  lemma WrapBreaks(cs: seq<nat>, start: nat)
    requires Distinct(cs) && cs != [] && start < W && |cs| <= W
    requires start + |cs| > W && W % |cs| != 0
    ensures !Distinct(Rotation(cs, start)) || exists c :: c in cs && c !in Rotation(cs, start)
  {
    var n, order := |cs|, Rotation(cs, start);
    var wrap, r := W - start, W % n;
    IndexPastWrap(start, wrap, n);
    if wrap > r {
      IndexPastWrap(start, wrap - r, n);
      BeforeWrap(r, n);
      assert order[wrap - r] == order[wrap];
    } else {
      forall j | 0 <= j < n ensures Index(start, j, n) != n - 1 {
        IndexPastWrap(start, j, n);
        if j < wrap {
          BeforeWrap(wrap - j, n);
        }
      }
      assert cs[n - 1] in cs && cs[n - 1] !in order;
    }
  }

  /**
   An order is a permutation of the candidates exactly when the rotation does not
   run over the end of the counter, or the number of candidates divides 2^64.
   */
  lemma PermutationIffNoWrap(cs: seq<nat>, start: nat)
    requires Distinct(cs) && cs != [] && start < W && |cs| <= W
    ensures multiset(Rotation(cs, start)) == multiset(cs) <==> start + |cs| <= W || W % |cs| == 0
  {
    if start + |cs| <= W || W % |cs| == 0 {
      RotationTurns(cs, start);
      var k := start % |cs|;
      assert cs == cs[..k] + cs[k..];
    } else {
      WrapBreaks(cs, start);
      if Distinct(Rotation(cs, start)) {
        var c :| c in cs && c !in Rotation(cs, start);
        MissingBreaks(Rotation(cs, start), cs, c);
      } else {
        DuplicateBreaks(Rotation(cs, start), cs);
      }
    }
  }

  /** With three candidates and the cursor at its last value, the first is listed twice and the last is left out. */
  lemma WrapRepeatsOne()
    ensures Rotation([0, 1, 2], W - 1) == [0, 0, 1]
  {
    assert Index(W - 1, 0, 3) == 0 && Index(W - 1, 1, 3) == 0 && Index(W - 1, 2, 3) == 1;
  }

  // ----------------------------------------------------------------- fairness

  /** How often c heads the order in `calls` successive calls. */
  ghost function Heads(cs: seq<nat>, start: nat, calls: nat, c: nat): nat
    requires cs != []
  {
    if calls == 0 then 0
    else Heads(cs, start, calls - 1, c) + if Rotation(cs, start + (calls - 1))[0] == c then 1 else 0
  }

  lemma HeadOfCall(cs: seq<nat>, start: nat)
    requires cs != [] && start < W
    ensures Rotation(cs, start)[0] == cs[start % |cs|]
  {
    RemainderIs(start, W, 0, start);
  }

  /** The number of calls after which position a comes up. */
  function Distance(start: nat, a: nat, n: nat): (d: nat)
    requires a < n
    ensures d < n
  {
    if a >= start % n then a - start % n else a - start % n + n
  }

  /** Within one round a candidate heads the order once, when its turn has come. */
  lemma {:induction false} WithinRound(cs: seq<nat>, start: nat, calls: nat, a: nat)
    requires Distinct(cs) && a < |cs| && calls <= |cs| && start + calls <= W
    ensures Heads(cs, start, calls, cs[a]) == if Distance(start, a, |cs|) < calls then 1 else 0
  {
    if calls > 0 {
      WithinRound(cs, start, calls - 1, a);
      HeadOfCall(cs, start + (calls - 1));
      ShortStep(start, calls - 1, |cs|);
    }
  }

  lemma {:induction false} HeadsSplit(cs: seq<nat>, start: nat, first: nat, more: nat, c: nat)
    requires cs != []
    ensures Heads(cs, start, first + more, c) == Heads(cs, start, first, c) + Heads(cs, start + first, more, c)
  {
    if more > 0 {
      HeadsSplit(cs, start, first, more - 1, c);
      assert start + (first + more - 1) == start + first + (more - 1);
    }
  }

  /** Any |cs| consecutive calls head every candidate exactly once. */
  lemma EveryRoundServesAll(cs: seq<nat>, start: nat, a: nat)
    requires Distinct(cs) && a < |cs| && start + |cs| <= W
    ensures Heads(cs, start, |cs|, cs[a]) == 1
  {
    WithinRound(cs, start, |cs|, a);
  }

  /** Over any number of calls before the cursor wraps, two candidates' turns differ by at most one. */
  lemma {:induction false} Fairness(cs: seq<nat>, start: nat, calls: nat, a: nat, b: nat)
    requires Distinct(cs) && a < |cs| && b < |cs| && start + calls <= W
    ensures -1 <= Heads(cs, start, calls, cs[a]) - Heads(cs, start, calls, cs[b]) <= 1
    decreases calls
  {
    var n := |cs|;
    if calls < n {
      WithinRound(cs, start, calls, a);
      WithinRound(cs, start, calls, b);
    } else {
      EveryRoundServesAll(cs, start, a);
      EveryRoundServesAll(cs, start, b);
      HeadsSplit(cs, start, n, calls - n, cs[a]);
      HeadsSplit(cs, start, n, calls - n, cs[b]);
      Fairness(cs, start + n, calls - n, a, b);
    }
  }
}

/**
 Prefix-affinity routing: rendezvous (highest random weight) ranking of the
 candidates for a key, then the load guard. XXH64 is an uninterpreted function:
 everything here holds for every assignment of scores to backends.
 */
module PrefixAffinity {
  import opened Sequences

  datatype Candidate = Candidate(id: nat, active: int, cap: int)

  datatype RouteOrder = RouteOrder(order: seq<nat>, spills: nat)

  /** The scores of the backend ids under one affinity key. */
  type Scores = nat -> int

  // --------------------------------------------------------------- ranking

  /** The ranking: higher score first, ties by id. */
  predicate Before(score: Scores, a: nat, b: nat) {
    score(a) > score(b) || (score(a) == score(b) && a <= b)
  }

  ghost predicate Ranked(score: Scores, xs: seq<nat>) {
    forall i, j :: 0 <= i < j < |xs| ==> Before(score, xs[i], xs[j])
  }

  function Insert(score: Scores, x: nat, xs: seq<nat>): seq<nat> {
    if xs == [] || Before(score, x, xs[0]) then [x] + xs else [xs[0]] + Insert(score, x, xs[1..])
  }

  /** The reference ranking of a list of ids. */
  function Rank(score: Scores, ids: seq<nat>): seq<nat> {
    if ids == [] then [] else Insert(score, ids[0], Rank(score, ids[1..]))
  }

  lemma {:induction false} InsertAdds(score: Scores, x: nat, xs: seq<nat>)
    ensures multiset(Insert(score, x, xs)) == multiset{x} + multiset(xs)
    ensures forall y :: y in Insert(score, x, xs) <==> y == x || y in xs
  {
    if xs != [] && !Before(score, x, xs[0]) {
      InsertAdds(score, x, xs[1..]);
      assert xs == [xs[0]] + xs[1..];
    }
  }

  lemma {:induction false} InsertRanks(score: Scores, x: nat, xs: seq<nat>)
    requires Ranked(score, xs)
    ensures Ranked(score, Insert(score, x, xs))
  {
    if xs != [] && !Before(score, x, xs[0]) {
      InsertRanks(score, x, xs[1..]);
      InsertAdds(score, x, xs[1..]);
      var rest := Insert(score, x, xs[1..]);
      forall k | 0 <= k < |rest| ensures Before(score, xs[0], rest[k]) {
        assert rest[k] in rest;
        assert rest[k] == x || rest[k] in xs[1..];
      }
    }
  }

  lemma {:induction false} RankRanks(score: Scores, ids: seq<nat>)
    ensures Ranked(score, Rank(score, ids))
    ensures multiset(Rank(score, ids)) == multiset(ids)
  {
    if ids != [] {
      RankRanks(score, ids[1..]);
      InsertRanks(score, ids[0], Rank(score, ids[1..]));
      InsertAdds(score, ids[0], Rank(score, ids[1..]));
      assert ids == [ids[0]] + ids[1..];
    }
  }

  lemma SameElements(xs: seq<nat>, ys: seq<nat>)
    requires multiset(xs) == multiset(ys)
    ensures |xs| == |ys|
    ensures forall x :: x in xs <==> x in ys
  {
    assert |xs| == |multiset(xs)| && |ys| == |multiset(ys)|;
    forall x ensures x in xs <==> x in ys {
      assert x in multiset(xs) <==> x in multiset(ys);
    }
  }

  lemma SameHead(score: Scores, xs: seq<nat>, ys: seq<nat>)
    requires Ranked(score, xs) && Ranked(score, ys) && xs != [] && ys != []
    requires xs[0] in ys && ys[0] in xs
    ensures xs[0] == ys[0]
  {
    var i :| 0 <= i < |ys| && ys[i] == xs[0];
    var j :| 0 <= j < |xs| && xs[j] == ys[0];
  }

  lemma MultisetTail(xs: seq<nat>)
    requires xs != []
    ensures multiset(xs[1..]) == multiset(xs) - multiset{xs[0]}
  {
    assert xs == [xs[0]] + xs[1..];
  }

  /** There is only one ranked arrangement of the same ids. */
  lemma {:induction false} RankedIsUnique(score: Scores, xs: seq<nat>, ys: seq<nat>)
    requires Ranked(score, xs) && Ranked(score, ys) && multiset(xs) == multiset(ys)
    ensures xs == ys
  {
    SameElements(xs, ys);
    if xs != [] {
      SameHead(score, xs, ys);
      MultisetTail(xs);
      MultisetTail(ys);
      RankedIsUnique(score, xs[1..], ys[1..]);
      assert xs == [xs[0]] + xs[1..] && ys == [ys[0]] + ys[1..];
    }
  }

  /** The ranking does not depend on the order in which candidates are listed. */
  lemma RankIgnoresInputOrder(score: Scores, a: seq<nat>, b: seq<nat>)
    requires multiset(a) == multiset(b)
    ensures Rank(score, a) == Rank(score, b)
  {
    RankRanks(score, a);
    RankRanks(score, b);
    RankedIsUnique(score, Rank(score, a), Rank(score, b));
  }

  lemma InsertFirst(score: Scores, x: nat, xs: seq<nat>)
    requires forall y :: y in xs ==> Before(score, x, y)
    ensures Insert(score, x, xs) == [x] + xs
  {
    assert xs == [] || xs[0] in xs;
  }

  lemma InsertLater(score: Scores, x: nat, y: nat, ys: seq<nat>)
    requires !Before(score, x, y)
    ensures Insert(score, x, [y] + ys) == [y] + Insert(score, x, ys)
  {
    assert ([y] + ys)[1..] == ys;
  }

  /** Inserting into a ranking and dropping backends commute. */
  lemma {:induction false} InsertWithout(score: Scores, x: nat, xs: seq<nat>, drop: set<nat>)
    requires Ranked(score, xs)
    ensures Without(Insert(score, x, xs), drop) ==
            if x in drop then Without(xs, drop) else Insert(score, x, Without(xs, drop))
  {
    if xs == [] || Before(score, x, xs[0]) {
      WithoutCons(x, xs, drop);
      forall y | y in Without(xs, drop) ensures Before(score, x, y) {
        WithoutMember(xs, drop, y);
      }
      InsertFirst(score, x, Without(xs, drop));
    } else {
      var y, ys := xs[0], xs[1..];
      assert xs == [y] + ys;
      InsertWithout(score, x, ys, drop);
      WithoutCons(y, ys, drop);
      WithoutCons(y, Insert(score, x, ys), drop);
      InsertLater(score, x, y, Without(ys, drop));
    }
  }

  /** The restriction law: dropping backends from the pool and ranking is ranking and then dropping them. */
  lemma {:induction false} RestrictionLaw(score: Scores, ids: seq<nat>, drop: set<nat>)
    ensures Rank(score, Without(ids, drop)) == Without(Rank(score, ids), drop)
  {
    if ids != [] {
      var x, rest := ids[0], ids[1..];
      assert ids == [x] + rest;
      RankRanks(score, rest);
      RestrictionLaw(score, rest, drop);
      InsertWithout(score, x, Rank(score, rest), drop);
      WithoutCons(x, rest, drop);
      assert x !in drop ==> ([x] + Without(rest, drop))[1..] == Without(rest, drop);
    }
  }

  // ------------------------------------------------------------ the load guard

  /** How many leaders of the ranking the guard skips. */
  function Skipped(busy: nat -> bool, rank: seq<nat>): (k: nat)
    ensures k <= |rank|
    ensures forall i :: 0 <= i < k ==> busy(rank[i])
    ensures k < |rank| ==> !busy(rank[k])
  {
    if rank == [] || !busy(rank[0]) then 0 else 1 + Skipped(busy, rank[1..])
  }

  /** xs with its element at k moved to the front. */
  function Promoted(xs: seq<nat>, k: nat): seq<nat>
    requires k < |xs|
  {
    [xs[k]] + xs[..k] + xs[k + 1..]
  }

  /** The guard's rearrangement of a ranking. */
  function Guarded(busy: nat -> bool, rank: seq<nat>): RouteOrder {
    var head := Skipped(busy, rank);
    if head == |rank| then RouteOrder(rank, head)
    else RouteOrder(Promoted(rank, head), head)
  }

  /** The best id that is not busy. */
  ghost predicate BestFree(score: Scores, busy: nat -> bool, ids: seq<nat>, h: nat) {
    h in ids && !busy(h) && forall x :: x in ids && !busy(x) ==> Before(score, h, x)
  }

  /** The best id of all, when every one is busy. */
  ghost predicate BestOfBusy(score: Scores, busy: nat -> bool, ids: seq<nat>, h: nat) {
    h in ids && forall x :: x in ids ==> busy(x) && Before(score, h, x)
  }

  /** Independent description of the head: the best backend below the threshold, or the best of all if none is. */
  ghost predicate IsHead(score: Scores, busy: nat -> bool, ids: seq<nat>, h: nat) {
    BestFree(score, busy, ids, h) || BestOfBusy(score, busy, ids, h)
  }

  /** The guarded ranking starts with the head the independent description names. */
  lemma GuardedHead(score: Scores, busy: nat -> bool, rank: seq<nat>)
    requires rank != [] && Ranked(score, rank)
    ensures Guarded(busy, rank).order != []
    ensures IsHead(score, busy, rank, Guarded(busy, rank).order[0])
  {
    var k := Skipped(busy, rank);
    if k == |rank| {
      assert forall x :: x in rank ==> busy(x);
      assert BestOfBusy(score, busy, rank, rank[0]);
    } else {
      assert BestFree(score, busy, rank, rank[k]);
    }
  }

  lemma HeadIsUnique(score: Scores, busy: nat -> bool, ids: seq<nat>, g: nat, h: nat)
    requires IsHead(score, busy, ids, g) && IsHead(score, busy, ids, h)
    ensures g == h
  {
  }

  /** Being the head is a matter of which ids there are and which of them are busy. */
  lemma HeadOfFewer(score: Scores, busy: nat -> bool, ids: seq<nat>, busy': nat -> bool, ids': seq<nat>, h: nat)
    requires IsHead(score, busy, ids, h) && h in ids'
    requires forall x :: x in ids' ==> x in ids && busy'(x) == busy(x)
    ensures IsHead(score, busy', ids', h)
  {
    if BestFree(score, busy, ids, h) {
      assert BestFree(score, busy', ids', h);
    } else {
      assert BestOfBusy(score, busy', ids', h);
    }
  }

  /** Moving one element to the front is a permutation. */
  lemma MovedToFront(xs: seq<nat>, k: nat)
    requires k < |xs|
    ensures multiset(Promoted(xs, k)) == multiset(xs)
  {
    assert xs == xs[..k] + [xs[k]] + xs[k + 1..];
  }

  lemma StillRanked(score: Scores, xs: seq<nat>, k: nat)
    requires k < |xs| && Ranked(score, xs)
    ensures Ranked(score, Promoted(xs, k)[1..])
  {
    assert Promoted(xs, k)[1..] == xs[..k] + xs[k + 1..];
  }

  /** The guarded ranking is a permutation of the ranking whose tail keeps its order. */
  lemma GuardedIsPermutation(score: Scores, busy: nat -> bool, rank: seq<nat>)
    requires Ranked(score, rank)
    ensures var o := Guarded(busy, rank).order;
            multiset(o) == multiset(rank) && (o != [] ==> Ranked(score, o[1..]))
  {
    var k := Skipped(busy, rank);
    if k < |rank| {
      MovedToFront(rank, k);
      StillRanked(score, rank, k);
    }
  }

  // -------------------------------------------------------------- the policy

  function Ids(cs: seq<Candidate>): seq<nat> {
    if cs == [] then [] else [cs[0].id] + Ids(cs[1..])
  }

  /** The load the guard reads for an id: its first entry, or an idle backend of capacity one. */
  function LoadOf(cs: seq<Candidate>, id: nat): (int, int) {
    if cs == [] then (0, 1) else if cs[0].id == id then (cs[0].active, cs[0].cap) else LoadOf(cs[1..], id)
  }

  predicate AtThreshold(threshold: real, active: int, cap: int) {
    active as real >= threshold * (cap as real)
  }

  predicate Overloaded(threshold: real, cs: seq<Candidate>, id: nat) {
    AtThreshold(threshold, LoadOf(cs, id).0, LoadOf(cs, id).1)
  }

  function Busy(threshold: real, cs: seq<Candidate>): nat -> bool {
    (id: nat) => Overloaded(threshold, cs, id)
  }

  /** The route order of a candidate set. */
  function Order(score: Scores, threshold: real, cs: seq<Candidate>): RouteOrder {
    Guarded(Busy(threshold, cs), Rank(score, Ids(cs)))
  }

  ghost predicate HeadOf(score: Scores, threshold: real, cs: seq<Candidate>, h: nat) {
    IsHead(score, Busy(threshold, cs), Ids(cs), h)
  }

  /** The order starts with the best candidate below the threshold, or with the best of all if none is. */
  lemma HeadIsBest(score: Scores, threshold: real, cs: seq<Candidate>)
    requires cs != []
    ensures Order(score, threshold, cs).order != []
    ensures HeadOf(score, threshold, cs, Order(score, threshold, cs).order[0])
  {
    var busy, ids := Busy(threshold, cs), Ids(cs);
    var rank := Rank(score, ids);
    RankRanks(score, ids);
    SameElements(rank, ids);
    GuardedHead(score, busy, rank);
    HeadOfFewer(score, busy, rank, busy, ids, Guarded(busy, rank).order[0]);
  }

  /** The order is a permutation of the candidates whose tail keeps the ranking. */
  lemma OrderIsPermutation(score: Scores, threshold: real, cs: seq<Candidate>)
    ensures var o := Order(score, threshold, cs).order;
            && multiset(o) == multiset(Ids(cs))
            && (o != [] ==> Ranked(score, o[1..]))
  {
    RankRanks(score, Ids(cs));
    GuardedIsPermutation(score, Busy(threshold, cs), Rank(score, Ids(cs)));
  }

  /** a is ranked strictly ahead of b: a higher score, or the same score and a smaller id. */
  predicate Outranks(score: Scores, a: nat, b: nat) {
    score(a) > score(b) || (score(a) == score(b) && a < b)
  }

  lemma {:induction false} LoadIsOwn(cs: seq<Candidate>, k: nat)
    requires k < |cs| && Distinct(Ids(cs))
    ensures LoadOf(cs, cs[k].id) == (cs[k].active, cs[k].cap) && cs[k].id in Ids(cs)
  {
    assert Ids(cs)[1..] == Ids(cs[1..]);
    if k > 0 {
      LoadIsOwn(cs[1..], k - 1);
      var j :| 0 <= j < |Ids(cs[1..])| && Ids(cs[1..])[j] == cs[k].id;
      assert Ids(cs)[0] != Ids(cs)[j + 1];
    }
  }

  lemma {:induction false} IdsOfCandidates(cs: seq<Candidate>, id: nat) returns (k: nat)
    requires id in Ids(cs)
    ensures k < |cs| && cs[k].id == id
  {
    if cs[0].id == id {
      k := 0;
    } else {
      assert id in Ids(cs[1..]);
      k := IdsOfCandidates(cs[1..], id);
      k := k + 1;
    }
  }

  /** The load guard holds this candidate off. */
  predicate HeldOff(threshold: real, c: Candidate) {
    c.active as real >= threshold * (c.cap as real)
  }

  lemma HeldOffIsBusy(threshold: real, cs: seq<Candidate>, k: nat)
    requires k < |cs| && Distinct(Ids(cs))
    ensures cs[k].id in Ids(cs) && (Busy(threshold, cs)(cs[k].id) <==> HeldOff(threshold, cs[k]))
  {
    LoadIsOwn(cs, k);
  }

  /**
   The load guard, over the candidates' own loads and scores. Everyone ranked ahead of
   the chosen backend is at or above the threshold. The chosen one is below it, unless
   everyone is at or above it; then the chosen one is the best of all.
   */
  lemma GuardLaw(score: Scores, threshold: real, cs: seq<Candidate>) returns (k: nat)
    requires cs != [] && Distinct(Ids(cs))
    ensures Order(score, threshold, cs).order != [] && k < |cs| && cs[k].id == Order(score, threshold, cs).order[0]
    ensures forall i :: 0 <= i < |cs| && Outranks(score, cs[i].id, cs[k].id) ==>
              cs[i].active as real >= threshold * (cs[i].cap as real)
    ensures if forall i :: 0 <= i < |cs| ==> cs[i].active as real >= threshold * (cs[i].cap as real)
            then forall i :: 0 <= i < |cs| && i != k ==> Outranks(score, cs[k].id, cs[i].id)
            else (cs[k].active as real) < threshold * (cs[k].cap as real)
  {
    var h := Order(score, threshold, cs).order[0];
    HeadIsBest(score, threshold, cs);
    k := IdsOfCandidates(cs, h);
    HeldOffIsBusy(threshold, cs, k);
    forall i | 0 <= i < |cs|
      ensures cs[i].id in Ids(cs) && (Busy(threshold, cs)(cs[i].id) <==> HeldOff(threshold, cs[i]))
      ensures i != k ==> cs[i].id != h
    {
      HeldOffIsBusy(threshold, cs, i);
      if i != k {
        IdsAreApart(cs, i, k);
      }
    }
  }

  lemma {:induction false} IdsAt(cs: seq<Candidate>, k: nat)
    requires k < |cs|
    ensures |Ids(cs)| == |cs| && Ids(cs)[k] == cs[k].id
  {
    if k > 0 {
      IdsAt(cs[1..], k - 1);
    } else if |cs| > 1 {
      IdsAt(cs[1..], 0);
    } else {
      assert Ids(cs[1..]) == [];
    }
  }

  lemma IdsAreApart(cs: seq<Candidate>, i: nat, j: nat)
    requires i < |cs| && j < |cs| && i != j && Distinct(Ids(cs))
    ensures cs[i].id != cs[j].id
  {
    IdsAt(cs, i);
    IdsAt(cs, j);
  }

  // ------------------------------------------------------------------ spills

  ghost function Ahead(score: Scores, ids: seq<nat>, h: nat): set<nat> {
    set x | x in ids && Outranks(score, x, h)
  }

  ghost function Elements(xs: seq<nat>): set<nat> {
    set x | x in xs
  }

  lemma RankedDistinct(ids: seq<nat>, rank: seq<nat>)
    requires Distinct(ids) && multiset(rank) == multiset(ids)
    ensures Distinct(rank)
  {
    forall i, j | 0 <= i < j < |rank| ensures rank[i] != rank[j] {
      AtMostOnce(ids, rank[i]);
      if rank[i] == rank[j] {
        AtLeastTwice(rank, i, j);
      }
    }
  }

  /** Behind its head, the order lists the candidates from the highest score to the lowest, ties by id. */
  lemma TailIsRanked(score: Scores, threshold: real, cs: seq<Candidate>, i: nat, j: nat)
    requires Distinct(Ids(cs)) && 1 <= i < j < |Order(score, threshold, cs).order|
    ensures var o := Order(score, threshold, cs).order; Outranks(score, o[i], o[j])
  {
    var o := Order(score, threshold, cs).order;
    OrderIsPermutation(score, threshold, cs);
    RankedDistinct(Ids(cs), o);
    assert o[1..][i - 1] == o[i] && o[1..][j - 1] == o[j];
  }

  lemma LeadersAre(score: Scores, ids: seq<nat>, rank: seq<nat>, k: nat)
    requires Distinct(rank) && Ranked(score, rank) && k < |rank|
    requires forall x :: x in rank <==> x in ids
    ensures Ahead(score, ids, rank[k]) == Elements(rank[..k])
  {
    forall x | x in ids ensures Outranks(score, x, rank[k]) <==> x in rank[..k] {
      assert x in rank;
      var j :| 0 <= j < |rank| && rank[j] == x;
      assert j < k ==> rank[..k][j] == x;
    }
    forall x | x in rank[..k] ensures x in ids {
      assert x in rank;
    }
  }

  lemma {:induction false} DistinctCount(xs: seq<nat>)
    requires Distinct(xs)
    ensures |Elements(xs)| == |xs|
  {
    if xs != [] {
      DistinctCount(xs[1..]);
      assert xs == [xs[0]] + xs[1..];
      assert Elements(xs) == {xs[0]} + Elements(xs[1..]);
      assert xs[0] !in Elements(xs[1..]);
    } else {
      assert Elements(xs) == {};
    }
  }

  /** Spills count the leaders passed over: those ranked ahead of the head, or everyone if all are overloaded. */
  lemma SpillsCountSkippedLeaders(score: Scores, threshold: real, cs: seq<Candidate>)
    requires cs != [] && Distinct(Ids(cs))
    ensures var o := Order(score, threshold, cs);
            && o.order != []
            && o.spills == if Overloaded(threshold, cs, o.order[0]) then |Ids(cs)| else |Ahead(score, Ids(cs), o.order[0])|
  {
    var ids := Ids(cs);
    var rank := Rank(score, ids);
    var k := Skipped(Busy(threshold, cs), rank);
    RankRanks(score, ids);
    SameElements(rank, ids);
    if k < |rank| {
      RankedDistinct(ids, rank);
      LeadersAre(score, ids, rank, k);
      DistinctCount(rank[..k]);
      assert !Overloaded(threshold, cs, rank[k]);
    }
  }

  /** Two overloaded backends count as two spills, although the better one is chosen and nobody is passed over. */
  lemma EveryoneBusyCountsEveryone(score: Scores)
    ensures var cs := [Candidate(0, 1, 1), Candidate(1, 1, 1)];
            var o := Order(score, 0.5, cs);
            && o.order != [] && o.spills == 2
            && Ahead(score, Ids(cs), o.order[0]) == {}
  {
    var cs := [Candidate(0, 1, 1), Candidate(1, 1, 1)];
    assert cs[1..] == [Candidate(1, 1, 1)] && cs[1..][1..] == [];
    assert Ids(cs) == [0, 1];
    HeadIsBest(score, 0.5, cs);
    SpillsCountSkippedLeaders(score, 0.5, cs);
  }

  // -------------------------------------------------------- minimal disruption

  /** The candidate set after a backend left it. */
  function Remove(cs: seq<Candidate>, id: nat): seq<Candidate> {
    if cs == [] then [] else (if cs[0].id == id then [] else [cs[0]]) + Remove(cs[1..], id)
  }

  lemma {:induction false} RemoveEffect(cs: seq<Candidate>, gone: nat, id: nat)
    ensures id in Ids(Remove(cs, gone)) <==> id in Ids(cs) && id != gone
    ensures id != gone ==> LoadOf(Remove(cs, gone), id) == LoadOf(cs, id)
  {
    if cs != [] {
      RemoveEffect(cs[1..], gone, id);
      if cs[0].id != gone {
        assert Remove(cs, gone)[1..] == Remove(cs[1..], gone);
      } else {
        assert Remove(cs, gone) == Remove(cs[1..], gone);
      }
    }
  }

  lemma RemovedHead(score: Scores, threshold: real, cs: seq<Candidate>, gone: nat, h: nat)
    requires HeadOf(score, threshold, cs, h) && h != gone
    ensures HeadOf(score, threshold, Remove(cs, gone), h)
  {
    var rest := Remove(cs, gone);
    RemoveEffect(cs, gone, h);
    forall x | x in Ids(rest) ensures x in Ids(cs) && Busy(threshold, rest)(x) == Busy(threshold, cs)(x) {
      RemoveEffect(cs, gone, x);
    }
    HeadOfFewer(score, Busy(threshold, cs), Ids(cs), Busy(threshold, rest), Ids(rest), h);
  }

  /** Removing any backend other than the head keeps the head, load guard included. */
  lemma RemovalKeepsHead(score: Scores, threshold: real, cs: seq<Candidate>, gone: nat)
    requires Order(score, threshold, cs).order != []
    requires gone != Order(score, threshold, cs).order[0]
    ensures Order(score, threshold, Remove(cs, gone)).order != []
    ensures Order(score, threshold, Remove(cs, gone)).order[0] == Order(score, threshold, cs).order[0]
  {
    var h, rest := Order(score, threshold, cs).order[0], Remove(cs, gone);
    HeadIsBest(score, threshold, cs);
    RemovedHead(score, threshold, cs, gone, h);
    HeadIsBest(score, threshold, rest);
    HeadIsUnique(score, Busy(threshold, rest), Ids(rest), h, Order(score, threshold, rest).order[0]);
  }

  /** Adding a backend leaves the head where it was or moves it to the newcomer. */
  lemma AdditionMovesOnlyToNewcomer(score: Scores, threshold: real, cs: seq<Candidate>, added: nat)
    requires Remove(cs, added) != []
    ensures Order(score, threshold, cs).order != [] && Order(score, threshold, Remove(cs, added)).order != []
    ensures var h := Order(score, threshold, cs).order[0];
            h == added || h == Order(score, threshold, Remove(cs, added)).order[0]
  {
    HeadIsBest(score, threshold, cs);
    HeadIsBest(score, threshold, Remove(cs, added));
    if Order(score, threshold, cs).order[0] != added {
      RemovalKeepsHead(score, threshold, cs, added);
    }
  }

  lemma FullIsAtThreshold(threshold: real, active: int, cap: int)
    requires threshold <= 1.0 && active >= cap >= 0
    ensures AtThreshold(threshold, active, cap)
  {
    assert threshold * (cap as real) <= cap as real;
  }

  /** A head at capacity means that every candidate is at or above the threshold. */
  lemma FullHeadMeansAllOverloaded(score: Scores, threshold: real, cs: seq<Candidate>)
    requires threshold <= 1.0 && Order(score, threshold, cs).order != []
    requires var h := Order(score, threshold, cs).order[0]; LoadOf(cs, h).0 >= LoadOf(cs, h).1 >= 0
    ensures forall id :: id in Ids(cs) ==> Overloaded(threshold, cs, id)
  {
    var h := Order(score, threshold, cs).order[0];
    HeadIsBest(score, threshold, cs);
    FullIsAtThreshold(threshold, LoadOf(cs, h).0, LoadOf(cs, h).1);
    assert Busy(threshold, cs)(h);
    forall id | id in Ids(cs) ensures Overloaded(threshold, cs, id) {
      assert Busy(threshold, cs)(id);
    }
  }

  // ------------------------------------------------------- the policy's loops

  datatype Scored = Scored(id: nat, score: int)

  /** The comparator handed to the sort. */
  predicate Wins(a: Scored, b: Scored) {
    if a.score != b.score then a.score > b.score else a.id < b.id
  }

  function IdsOf(xs: seq<Scored>): seq<nat> {
    seq(|xs|, i requires 0 <= i < |xs| => xs[i].id)
  }

  lemma {:induction false} InsertAt(score: Scores, x: nat, xs: seq<nat>, p: nat)
    requires p <= |xs|
    requires forall k :: 0 <= k < p ==> !Before(score, x, xs[k])
    requires p < |xs| ==> Before(score, x, xs[p])
    ensures Insert(score, x, xs) == xs[..p] + [x] + xs[p..]
  {
    if p > 0 {
      InsertAt(score, x, xs[1..], p - 1);
      assert xs[..p] + [x] + xs[p..] == [xs[0]] + (xs[1..][..p - 1] + [x] + xs[1..][p - 1..]);
    }
  }

  lemma {:induction false} IdsFrom(cs: seq<Candidate>, i: nat)
    requires i < |cs|
    ensures Ids(cs[i..]) == [cs[i].id] + Ids(cs[i + 1..])
  {
    assert cs[i..][1..] == cs[i + 1..];
  }

  ghost predicate ScoredBy(score: Scores, xs: seq<Scored>) {
    forall k :: 0 <= k < |xs| ==> xs[k].score == score(xs[k].id)
  }

  /** Inserts behind everything that wins against x. */
  method InsertScored(score: Scores, x: Scored, xs: seq<Scored>) returns (out: seq<Scored>)
    requires ScoredBy(score, xs) && x.score == score(x.id)
    ensures ScoredBy(score, out) && IdsOf(out) == Insert(score, x.id, IdsOf(xs))
  {
    var p := 0;
    while p < |xs| && Wins(xs[p], x)
      invariant 0 <= p <= |xs|
      invariant forall k :: 0 <= k < p ==> Wins(xs[k], x)
    {
      p := p + 1;
    }
    InsertAt(score, x.id, IdsOf(xs), p);
    out := xs[..p] + [x] + xs[p..];
    assert IdsOf(out) == IdsOf(xs)[..p] + [x.id] + IdsOf(xs)[p..];
  }

  /** `hrw_rank`: scores the candidates, sorts them by the comparator, and returns their ids. */
  method HrwRank(score: Scores, candidates: seq<Candidate>) returns (out: seq<nat>)
    ensures out == Rank(score, Ids(candidates))
  {
    var scored: seq<Scored> := [];
    for i := 0 to |candidates|
      invariant |scored| == i
      invariant forall k :: 0 <= k < i ==> scored[k] == Scored(candidates[k].id, score(candidates[k].id))
    {
      scored := scored + [Scored(candidates[i].id, score(candidates[i].id))];
    }
    var sorted: seq<Scored> := [];
    var i := |scored|;
    assert candidates[i..] == [];
    while i > 0
      invariant 0 <= i <= |scored| && ScoredBy(score, sorted)
      invariant IdsOf(sorted) == Rank(score, Ids(candidates[i..]))
    {
      i := i - 1;
      IdsFrom(candidates, i);
      assert ([candidates[i].id] + Ids(candidates[i + 1..]))[1..] == Ids(candidates[i + 1..]);
      sorted := InsertScored(score, scored[i], sorted);
    }
    assert candidates[0..] == candidates;
    out := IdsOf(sorted);
  }

  lemma SkippedIs(busy: nat -> bool, rank: seq<nat>, k: nat)
    requires k <= |rank|
    requires forall i :: 0 <= i < k ==> busy(rank[i])
    requires k < |rank| ==> !busy(rank[k])
    ensures Skipped(busy, rank) == k
  {
  }

  /** The load-guard cascade: the first leader that is not overloaded, and the spills before it. */
  method SkipLeaders(threshold: real, candidates: seq<Candidate>, rank: seq<nat>) returns (head: nat, spills: nat)
    ensures head == spills == Skipped(Busy(threshold, candidates), rank)
  {
    head, spills := 0, 0;
    while head < |rank|
      invariant 0 <= head <= |rank| && spills == head
      invariant forall i :: 0 <= i < head ==> Busy(threshold, candidates)(rank[i])
    {
      var load := LoadOf(candidates, rank[head]);
      if !AtThreshold(threshold, load.0, load.1) {
        break;
      }
      spills := spills + 1;
      head := head + 1;
    }
    SkippedIs(Busy(threshold, candidates), rank, head);
  }

  /** The chosen head first, then the rest of the ranking. */
  method HeadFirst(rank: seq<nat>, head: nat) returns (order: seq<nat>)
    requires head < |rank|
    ensures order == Promoted(rank, head)
  {
    order := [rank[head]];
    for i := 0 to |rank|
      invariant i <= head ==> order == [rank[head]] + rank[..i]
      invariant i > head ==> order == [rank[head]] + rank[..head] + rank[head + 1..i]
    {
      if i == head {
        continue;
      }
      order := order + [rank[i]];
    }
    assert rank[head + 1..|rank|] == rank[head + 1..];
  }

  /** `PrefixAffinity::order`. */
  method OrderCandidates(score: Scores, threshold: real, candidates: seq<Candidate>) returns (out: RouteOrder)
    ensures out == Order(score, threshold, candidates)
  {
    if candidates == [] {
      return RouteOrder([], 0);
    }
    var rank := HrwRank(score, candidates);
    var head, spills := SkipLeaders(threshold, candidates, rank);
    if head >= |rank| {
      return RouteOrder(rank, spills);
    }
    var order := HeadFirst(rank, head);
    return RouteOrder(order, spills);
  }
}

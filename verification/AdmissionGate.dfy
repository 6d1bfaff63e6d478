/**
 The global admission gate: an asynchronous FIFO semaphore with a bounded, timed
 wait queue.

 `acquire` is a coroutine that may suspend once, so it appears as two atomic
 segments, `Enter` (up to the suspension on the waiter's timer) and `Resume`
 (after it). The timer is an input: it may fire at any moment, and in particular
 before a `release` hands the already expired waiter a slot.

 `Core` holds what the gate itself stores. `Ledger` adds the history of a whole
 run, which the theorems are about.
 */
module AdmissionGate {
  import opened Sequences

  datatype Limits = Limits(maxConcurrent: nat, queueDepth: nat)

  datatype Entry = FastPath | Queued | Full

  /** `granted` are the waiters that were handed a slot and have not resumed yet. */
  datatype Core<W> = Core(inFlight: int, waiters: seq<W>, granted: set<W>)

  function Enter<W>(lim: Limits, g: Core<W>, w: W): (Core<W>, Entry) {
    if g.inFlight < lim.maxConcurrent && g.waiters == [] then
      (g.(inFlight := g.inFlight + 1), FastPath)
    else if |g.waiters| >= lim.queueDepth then
      (g, Full)
    else
      (g.(waiters := g.waiters + [w]), Queued)
  }

  /** The second result says whether the caller was admitted. */
  function Resume<W(==)>(g: Core<W>, w: W): (Core<W>, bool) {
    if w in g.granted then
      (g.(granted := g.granted - {w}), true)
    else
      (g.(waiters := Erase(g.waiters, w)), false)
  }

  function Release<W(==)>(g: Core<W>): Core<W> {
    if g.waiters != [] then
      g.(waiters := g.waiters[1..], granted := g.granted + {g.waiters[0]})
    else
      g.(inFlight := g.inFlight - 1)
  }

  // ---------------------------------------------------------------- runs

  datatype Event<W> = Arrive(w: W) | Expire(w: W) | Wake(w: W) | Leave(w: W)

  /**
   The gate with the history of its run: who holds a ticket, whose timer fired,
   in which order callers arrived (and were not turned away), in which order they
   were given slots, and who gave up.
   */
  datatype Ledger<W> = Ledger(
    core: Core<W>,
    holders: set<W>,
    expired: set<W>,
    arrived: seq<W>,
    served: seq<W>,
    lapsed: set<W>)

  ghost function Fresh<W>(): Ledger<W> {
    Ledger(Core(0, [], {}), {}, {}, [], [], {})
  }

  /**
   What the executor and the gate's clients can do: a caller arrives once, a
   pending timer fires, a waiter whose timer fired or was cancelled resumes, and
   a ticket holder releases once.
   */
  ghost predicate Enabled<W>(l: Ledger<W>, e: Event<W>) {
    match e
    case Arrive(w) => w !in l.arrived
    case Expire(w) => w in l.core.waiters
    case Wake(w) => w in l.core.granted || (w in l.core.waiters && w in l.expired)
    case Leave(w) => w in l.holders
  }

  ghost function Step<W>(lim: Limits, l: Ledger<W>, e: Event<W>): Ledger<W> {
    match e
    case Arrive(w) =>
      var (core, entry) := Enter(lim, l.core, w);
      (match entry
       case FastPath => l.(core := core, holders := l.holders + {w}, arrived := l.arrived + [w], served := l.served + [w])
       case Queued => l.(core := core, arrived := l.arrived + [w])
       case Full => l)
    case Expire(w) => l.(expired := l.expired + {w})
    case Wake(w) =>
      var (core, admitted) := Resume(l.core, w);
      if admitted then l.(core := core, holders := l.holders + {w})
      else l.(core := core, lapsed := l.lapsed + {w})
    case Leave(w) =>
      l.(core := Release(l.core),
         holders := l.holders - {w},
         served := l.served + l.core.waiters[..if l.core.waiters == [] then 0 else 1])
  }

  ghost predicate ValidRun<W>(lim: Limits, l: Ledger<W>, es: seq<Event<W>>)
    decreases |es|
  {
    es != [] ==> Enabled(l, es[0]) && ValidRun(lim, Step(lim, l, es[0]), es[1..])
  }

  ghost function Run<W>(lim: Limits, l: Ledger<W>, es: seq<Event<W>>): Ledger<W>
    decreases |es|
  {
    if es == [] then l else Run(lim, Step(lim, l, es[0]), es[1..])
  }

  ghost function Releases<W>(es: seq<Event<W>>): nat {
    if es == [] then 0 else (if es[0].Leave? then 1 else 0) + Releases(es[1..])
  }

  // ---------------------------------------------------------- invariant

  /** Slots: every counted slot is a live ticket or a grant on its way to its waiter. */
  ghost predicate SlotsConserved<W>(lim: Limits, l: Ledger<W>) {
    && l.core.inFlight == |l.holders| + |l.core.granted|
    && l.core.inFlight <= lim.maxConcurrent
    && l.holders !! l.core.granted
  }

  /** Queue: bounded, and nobody waits while a slot is free. */
  ghost predicate QueueSound<W>(lim: Limits, l: Ledger<W>) {
    && |l.core.waiters| <= lim.queueDepth
    && (l.core.waiters != [] ==> l.core.inFlight == lim.maxConcurrent)
  }

  /** Order: service is arrival order, skipping exactly those who gave up after their timer fired. */
  ghost predicate FirstComeFirstServed<W>(l: Ledger<W>) {
    && Distinct(l.arrived)
    && Without(l.arrived, l.lapsed) == l.served + l.core.waiters
    && (forall w :: w in l.holders + l.core.granted ==> w in l.served)
    && (forall w :: w in l.lapsed ==> w in l.expired)
    && (forall w :: w in l.expired ==> w in l.arrived)
  }

  ghost predicate Inv<W>(lim: Limits, l: Ledger<W>) {
    SlotsConserved(lim, l) && QueueSound(lim, l) && FirstComeFirstServed(l)
  }

  /** Waiters are distinct, hold nothing and have been granted nothing. */
  lemma WaitersApart<W>(l: Ledger<W>)
    requires FirstComeFirstServed(l)
    ensures Distinct(l.core.waiters)
    ensures forall w :: w in l.core.waiters ==> w !in l.served && w !in l.holders && w !in l.core.granted
  {
    WithoutDistinct(l.arrived, l.lapsed);
    var line := l.served + l.core.waiters;
    assert forall k :: 0 <= k < |l.core.waiters| ==> line[|l.served| + k] == l.core.waiters[k];
    assert forall k :: 0 <= k < |l.served| ==> line[k] == l.served[k];
    forall w | w in l.core.waiters
      ensures w !in l.served
      ensures w !in l.holders + l.core.granted
    {
      var k :| 0 <= k < |l.core.waiters| && l.core.waiters[k] == w;
      assert line[|l.served| + k] == w;
    }
  }

  lemma InLineArrived<W>(l: Ledger<W>, w: W)
    requires FirstComeFirstServed(l)
    requires w in l.served || w in l.core.waiters
    ensures w in l.arrived && w !in l.lapsed
  {
    WithoutMember(l.arrived, l.lapsed, w);
    assert w in l.served + l.core.waiters;
  }

  lemma ArriveKeeps<W>(lim: Limits, l: Ledger<W>, w: W)
    requires Inv(lim, l) && Enabled(l, Arrive(w))
    ensures Inv(lim, Step(lim, l, Arrive(w)))
  {
    var n := Step(lim, l, Arrive(w));
    if n != l {
      assert w !in l.served && w !in l.core.waiters by {
        if w in l.served || w in l.core.waiters {
          InLineArrived(l, w);
        }
      }
      assert w !in l.lapsed;
      WithoutConcat(l.arrived, [w], l.lapsed);
      assert Without([w], l.lapsed) == [w];
      if Enter(lim, l.core, w).1.FastPath? {
        assert l.core.waiters == [];
        assert n.served + n.core.waiters == (l.served + l.core.waiters) + [w];
      } else {
        assert n.served + n.core.waiters == (l.served + l.core.waiters) + [w];
      }
    }
  }

  lemma WakeKeeps<W>(lim: Limits, l: Ledger<W>, w: W)
    requires Inv(lim, l) && Enabled(l, Wake(w))
    ensures Inv(lim, Step(lim, l, Wake(w)))
  {
    var n := Step(lim, l, Wake(w));
    if w in l.core.granted {
      assert l.core.granted == n.core.granted + {w};
    } else {
      WaitersApart(l);
      EraseIsWithout(l.core.waiters, w);
      WithoutTwice(l.arrived, l.lapsed, {w});
      WithoutConcat(l.served, l.core.waiters, {w});
      WithoutNothing(l.served, {w});
      EraseShorter(l.core.waiters, w);
    }
  }

  lemma {:induction false} EraseShorter<T>(xs: seq<T>, x: T)
    ensures |Erase(xs, x)| <= |xs|
    ensures xs == [] ==> Erase(xs, x) == []
  {
    if xs != [] {
      EraseShorter(xs[1..], x);
    }
  }

  lemma LeaveKeeps<W>(lim: Limits, l: Ledger<W>, w: W)
    requires Inv(lim, l) && Enabled(l, Leave(w))
    ensures Inv(lim, Step(lim, l, Leave(w)))
  {
    var n := Step(lim, l, Leave(w));
    WaitersApart(l);
    assert l.holders == n.holders + {w};
    if l.core.waiters != [] {
      assert l.core.waiters[0] in l.core.waiters;
      assert n.served + n.core.waiters == l.served + l.core.waiters;
      assert n.served[|l.served|] == l.core.waiters[0];
      assert forall u :: u in l.served ==> u in n.served;
    } else {
      assert n.served == l.served;
    }
  }

  lemma StepKeeps<W>(lim: Limits, l: Ledger<W>, e: Event<W>)
    requires Inv(lim, l) && Enabled(l, e)
    ensures Inv(lim, Step(lim, l, e))
  {
    match e
    case Arrive(w) => ArriveKeeps(lim, l, w);
    case Expire(w) => InLineArrived(l, w);
    case Wake(w) => WakeKeeps(lim, l, w);
    case Leave(w) => LeaveKeeps(lim, l, w);
  }

  // ------------------------------------------------------------ theorems

  /** Slot conservation, no lost wakeup, the queue bound and FIFO service hold throughout every run. */
  lemma {:induction false} EveryRunKeeps<W>(lim: Limits, l: Ledger<W>, es: seq<Event<W>>)
    requires Inv(lim, l) && ValidRun(lim, l, es)
    ensures Inv(lim, Run(lim, l, es))
    decreases |es|
  {
    if es != [] {
      StepKeeps(lim, l, es[0]);
      EveryRunKeeps(lim, Step(lim, l, es[0]), es[1..]);
    }
  }

  lemma ReachableIsSound<W>(lim: Limits, es: seq<Event<W>>)
    requires ValidRun(lim, Fresh(), es)
    ensures Inv(lim, Run(lim, Fresh(), es))
  {
    EveryRunKeeps(lim, Fresh<W>(), es);
  }

  lemma {:induction false} WithoutKeepsOrder<T>(xs: seq<T>, drop: set<T>, i: nat, j: nat) returns (p: nat, q: nat)
    requires i < j < |xs| && xs[i] !in drop && xs[j] !in drop
    ensures p < q < |Without(xs, drop)|
    ensures Without(xs, drop)[p] == xs[i] && Without(xs, drop)[q] == xs[j]
  {
    var head := if xs[0] in drop then [] else [xs[0]];
    if i > 0 {
      p, q := WithoutKeepsOrder(xs[1..], drop, i - 1, j - 1);
      p, q := p + |head|, q + |head|;
    } else {
      WithoutMember(xs[1..], drop, xs[j]);
      assert xs[1..][j - 1] == xs[j];
      var k :| 0 <= k < |Without(xs[1..], drop)| && Without(xs[1..], drop)[k] == xs[j];
      p, q := 0, k + 1;
    }
  }

  /**
   How an arrival is answered, in every state a run can reach: it is turned away if
   and only if every slot is taken and the queue is full; while a slot is free it gets
   a ticket; otherwise it stands last in the queue.
   */
  lemma ArrivalIsAnswered<W>(lim: Limits, l: Ledger<W>, w: W)
    requires Inv(lim, l) && Enabled(l, Arrive(w))
    ensures var g, n := l.core, Step(lim, l, Arrive(w));
            && (n.arrived == l.arrived <==> g.inFlight == lim.maxConcurrent && |g.waiters| == lim.queueDepth)
            && (n.arrived == l.arrived ==> n == l)
            && (n.arrived != l.arrived ==> n.arrived == l.arrived + [w])
            && (g.inFlight < lim.maxConcurrent ==>
                  && w in n.holders && n.served == l.served + [w]
                  && n.core == g.(inFlight := g.inFlight + 1))
            && (g.inFlight == lim.maxConcurrent && |g.waiters| < lim.queueDepth ==>
                  && w !in n.holders && n.served == l.served
                  && n.core == g.(waiters := g.waiters + [w]))
  {
    if w in l.holders {
      InLineArrived(l, w);
    }
  }

  /** Nobody is served ahead of an earlier arrival that did not give up. */
  lemma NoOvertaking<W>(lim: Limits, l: Ledger<W>, i: nat, j: nat) returns (p: nat, q: nat)
    requires Inv(lim, l)
    requires i < j < |l.arrived|
    requires l.arrived[j] in l.served && l.arrived[i] !in l.lapsed
    ensures p < q < |l.served| && l.served[p] == l.arrived[i] && l.served[q] == l.arrived[j]
  {
    InLineArrived(l, l.arrived[j]);
    p, q := WithoutKeepsOrder(l.arrived, l.lapsed, i, j);
    WithoutDistinct(l.arrived, l.lapsed);
    var line := l.served + l.core.waiters;
    var m :| 0 <= m < |l.served| && l.served[m] == l.arrived[j];
    assert line[m] == l.arrived[j] == line[q];
    assert m == q;
    assert line[p] == l.served[p];
  }

  /** Being served and giving up are final. */
  lemma {:induction false} OutcomesAreFinal<W>(lim: Limits, l: Ledger<W>, es: seq<Event<W>>, w: W)
    ensures w in l.served ==> w in Run(lim, l, es).served
    ensures w in l.lapsed ==> w in Run(lim, l, es).lapsed
    decreases |es|
  {
    if es != [] {
      OutcomesAreFinal(lim, Step(lim, l, es[0]), es[1..], w);
    }
  }

  /**
   Every release moves a waiter one place forward: after any continuation of the
   run the waiter at position k has been served, has given up, or stands at least
   as many places ahead as there were releases.
   */
  lemma {:induction false} WaitersAdvance<W>(lim: Limits, l: Ledger<W>, es: seq<Event<W>>, k: nat)
    requires Inv(lim, l) && ValidRun(lim, l, es)
    requires k < |l.core.waiters|
    ensures var n, w := Run(lim, l, es), l.core.waiters[k];
            || w in n.served
            || w in n.lapsed
            || exists j :: 0 <= j < |n.core.waiters| && n.core.waiters[j] == w && j + Releases(es) <= k
    decreases |es|
  {
    if es != [] {
      var w, m := l.core.waiters[k], Step(lim, l, es[0]);
      var j := StepAdvances(lim, l, es[0], k);
      if w in m.served || w in m.lapsed {
        OutcomesAreFinal(lim, m, es[1..], w);
      } else {
        StepKeeps(lim, l, es[0]);
        WaitersAdvance(lim, m, es[1..], j);
        assert Releases(es) == (if es[0].Leave? then 1 else 0) + Releases(es[1..]);
      }
    }
  }

  lemma StepAdvances<W>(lim: Limits, l: Ledger<W>, e: Event<W>, k: nat) returns (j: nat)
    requires Inv(lim, l) && Enabled(l, e)
    requires k < |l.core.waiters|
    ensures var n, w := Step(lim, l, e), l.core.waiters[k];
            || w in n.served
            || w in n.lapsed
            || (j < |n.core.waiters| && n.core.waiters[j] == w && j + (if e.Leave? then 1 else 0) <= k)
  {
    var n, w := Step(lim, l, e), l.core.waiters[k];
    j := k;
    match e {
      case Arrive(_) =>
      case Expire(_) =>
      case Wake(u) =>
        if u in l.core.granted {
        } else if u != w {
          WaitersApart(l);
          var i :| 0 <= i < |l.core.waiters| && l.core.waiters[i] == u;
          ErasePosition(l.core.waiters, u, i);
          j := if k < i then k else k - 1;
        }
      case Leave(_) =>
        if k == 0 {
          assert n.served[|l.served|] == w;
        } else {
          j := k - 1;
        }
    }
  }

  /** A waiter at position k that does not give up has its slot after k + 1 releases. */
  lemma ServedWithinReleases<W>(lim: Limits, l: Ledger<W>, es: seq<Event<W>>, k: nat)
    requires Inv(lim, l) && ValidRun(lim, l, es)
    requires k < |l.core.waiters| && Releases(es) >= k + 1
    ensures l.core.waiters[k] in Run(lim, l, es).served || l.core.waiters[k] in Run(lim, l, es).lapsed
  {
    WaitersAdvance(lim, l, es, k);
  }

  // ------------------------------------------------- who is where after a step

  /** Everyone suspended in `acquire`. */
  ghost function Seated<W>(g: Core<W>): set<W> {
    (set w | w in g.waiters) + g.granted
  }

  lemma SeatedAfterEnter<W>(lim: Limits, g: Core<W>, w: W)
    ensures Seated(Enter(lim, g, w).0) == Seated(g) + if Enter(lim, g, w).1.Queued? then {w} else {}
  {
  }

  lemma SeatedAfterResume<W>(g: Core<W>, w: W)
    requires Distinct(g.waiters)
    requires w in g.granted ==> w !in g.waiters
    ensures Seated(Resume(g, w).0) == Seated(g) - {w}
  {
    if w !in g.granted {
      var rest := Erase(g.waiters, w);
      EraseIsWithout(g.waiters, w);
      forall u | u in Seated(g) + Seated(Resume(g, w).0)
        ensures u in rest <==> u in g.waiters && u != w
      {
        WithoutMember(g.waiters, {w}, u);
      }
    }
  }

  lemma SeatedAfterRelease<W>(g: Core<W>)
    ensures Seated(Release(g)) == Seated(g)
  {
    if g.waiters != [] {
      assert g.waiters == [g.waiters[0]] + g.waiters[1..];
    }
  }

  // -------------------------------------------------------- the gate itself

  class Waiter {
    var granted: bool

    constructor ()
      ensures !granted
    {
      granted := false;
    }
  }

  class GlobalGate {
    const limits: Limits
    var inFlight: int
    var waiters: seq<Waiter>
    ghost var handed: set<Waiter>

    ghost predicate Valid()
      reads this, waiters, handed
    {
      && Distinct(waiters)
      && (forall w :: w in waiters ==> !w.granted)
      && (forall w :: w in handed ==> w.granted)
    }

    ghost function Snapshot(): Core<Waiter>
      reads this
    {
      Core(inFlight, waiters, handed)
    }

    constructor (limits: Limits)
      ensures Valid() && this.limits == limits
      ensures Snapshot() == Core(0, [], {})
    {
      this.limits := limits;
      inFlight, waiters, handed := 0, [], {};
    }

    /** `acquire` up to its suspension. A queued caller resumes through the returned waiter. */
    method AcquireEnter() returns (entry: Entry, waiter: Waiter)
      requires Valid()
      modifies this
      ensures Valid() && fresh(waiter)
      ensures (Snapshot(), entry) == Enter(limits, old(Snapshot()), waiter)
      ensures entry.FastPath? <==> old(inFlight) < limits.maxConcurrent && old(waiters) == []
      ensures entry.Full? <==> !entry.FastPath? && |old(waiters)| >= limits.queueDepth
      ensures inFlight == old(inFlight) + if entry.FastPath? then 1 else 0
      ensures waiters == old(waiters) + if entry.Queued? then [waiter] else []
    {
      waiter := new Waiter();
      if inFlight < limits.maxConcurrent && waiters == [] {
        inFlight := inFlight + 1;
        return FastPath, waiter;
      }
      if |waiters| >= limits.queueDepth {
        return Full, waiter;
      }
      waiters := waiters + [waiter];
      return Queued, waiter;
    }

    /** `acquire` from its resumption, whether the timer fired or was cancelled. */
    method AcquireResume(waiter: Waiter) returns (admitted: bool)
      requires Valid()
      requires waiter in waiters || waiter in handed
      modifies this
      ensures Valid()
      ensures (Snapshot(), admitted) == Resume(old(Snapshot()), waiter)
    {
      if waiter.granted {
        handed := handed - {waiter};
        return true;
      }
      var i := 0;
      while i < |waiters|
        invariant 0 <= i <= |waiters|
        invariant waiter !in waiters[..i]
        invariant waiters == old(waiters) && handed == old(handed) && inFlight == old(inFlight)
      {
        if waiters[i] == waiter {
          ErasePosition(waiters, waiter, i);
          waiters := waiters[..i] + waiters[i + 1..];
          break;
        }
        i := i + 1;
      }
      return false;
    }

    /** A ticket's destructor: hands the slot to the oldest waiter, or frees it. */
    method ReleaseSlot()
      requires Valid()
      modifies this, waiters
      ensures Valid()
      ensures Snapshot() == Release(old(Snapshot()))
      ensures forall w :: w in old(waiters) ==> (w.granted <==> w == old(waiters)[0])
    {
      if waiters != [] {
        var waiter := waiters[0];
        waiters := waiters[1..];
        waiter.granted := true;
        handed := handed + {waiter};
        return;
      }
      inFlight := inFlight - 1;
    }
  }
}

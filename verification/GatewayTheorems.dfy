/** What holds in every reachable state of the gateway, for any number of requests and any interleaving. */
module GatewayTheorems {
  import opened Sequences
  import opened Failover
  import opened FailoverWalk
  import opened GatewayProtocol
  import CB = CircuitBreaker
  import Gate = AdmissionGate
  import opened GatewayInvariant
  import PA = PrefixAffinity
  import RR = RoundRobin

  // ------------------------------------------------------- reachable states

  ghost function Reached(cfg: Config, es: seq<Event>): State
    requires ValidRun(cfg, Initial(cfg), es)
  {
    Run(cfg, Initial(cfg), es)
  }

  lemma ReachedInv(cfg: Config, es: seq<Event>)
    requires ValidRun(cfg, Initial(cfg), es)
    ensures Inv(cfg, Reached(cfg, es))
  {
    InitialInv(cfg);
    EveryRunKeeps(cfg, Initial(cfg), es);
  }

  lemma {:induction false} RunSnoc(cfg: Config, s: State, es: seq<Event>, e: Event)
    requires ValidRun(cfg, s, es) && Steady(cfg, Run(cfg, s, es)) && Enabled(cfg, Run(cfg, s, es), e)
    ensures ValidRun(cfg, s, es + [e]) && Run(cfg, s, es + [e]) == Step(cfg, Run(cfg, s, es), e)
    decreases |es|
  {
    if es == [] {
      assert es + [e] == [e] && [e][1..] == [];
    } else {
      RunSnoc(cfg, Step(cfg, s, es[0]), es[1..], e);
      assert (es + [e])[1..] == es[1..] + [e];
    }
  }

  /** One more event of a run. */
  lemma Then(cfg: Config, es: seq<Event>, e: Event) returns (s: State, n: State)
    requires ValidRun(cfg, Initial(cfg), es) && Enabled(cfg, Reached(cfg, es), e)
    ensures ValidRun(cfg, Initial(cfg), es + [e])
    ensures s == Reached(cfg, es) && Steady(cfg, s) && n == Reached(cfg, es + [e]) == Step(cfg, s, e)
  {
    InitialInv(cfg);
    EveryRunKeeps(cfg, Initial(cfg), es);
    RunSnoc(cfg, Initial(cfg), es, e);
    s, n := Reached(cfg, es), Reached(cfg, es + [e]);
  }

  /** The requests holding a slot at one of the first k backends. */
  ghost function SlotHolders(reqs: map<Id, Request>, k: nat): set<Id> {
    set id | id in reqs && exists b :: b in Slots(reqs[id]) && b < k
  }

  /** A request holds at most one slot, so the holders at different backends are apart. */
  lemma OneMoreBackend(reqs: map<Id, Request>, k: nat)
    ensures SlotHolders(reqs, k + 1) == SlotHolders(reqs, k) + Those(reqs, SlotAt(k))
    ensures SlotHolders(reqs, k) !! Those(reqs, SlotAt(k))
  {
  }

  lemma {:induction false} SlotsAddUp(cfg: Config, s: State, k: nat)
    requires SlotBooks(cfg, s) && k <= |cfg.backends|
    ensures Sum(s.fleet.active[..k]) == |SlotHolders(s.reqs, k)|
  {
    if k == 0 {
      assert SlotHolders(s.reqs, 0) == {};
    } else {
      SlotsAddUp(cfg, s, k - 1);
      OneMoreBackend(s.reqs, k - 1);
      assert s.fleet.active[..k][..k - 1] == s.fleet.active[..k - 1];
    }
  }

  lemma SlotHoldersHaveTickets(cfg: Config, s: State)
    requires RequestsOk(cfg, s)
    ensures SlotHolders(s.reqs, |cfg.backends|) <= Those(s.reqs, Ticket)
  {
    forall id | id in SlotHolders(s.reqs, |cfg.backends|) ensures id in Those(s.reqs, Ticket) {
      assert RequestOk(cfg.backends, s.reqs[id]);
    }
  }

  lemma SubsetIsSmaller(a: set<Id>, b: set<Id>)
    requires a <= b
    ensures |a| <= |b|
  {
    assert b == a + (b - a);
  }

  /**
   Slot conservation in every interleaving: the gate counts live tickets and
   grants under way, each limiter counts the requests dispatched to its backend,
   and all limiters together never exceed the gate, nor the gate its ceiling.
   */
  lemma SlotConservation(cfg: Config, es: seq<Event>)
    requires ValidRun(cfg, Initial(cfg), es)
    ensures var s := Reached(cfg, es);
            && |s.fleet.active| == |cfg.backends|
            && s.gate.core.inFlight == |Those(s.reqs, Ticket)| + |s.gate.core.granted|
            && Sum(s.fleet.active) <= s.gate.core.inFlight <= cfg.gate.maxConcurrent
            && forall b :: 0 <= b < |cfg.backends| ==>
                 0 <= s.fleet.active[b] == |Those(s.reqs, SlotAt(b))| <= cfg.backends[b].maxInFlight
  {
    var s := Reached(cfg, es);
    ReachedInv(cfg, es);
    SlotsAddUp(cfg, s, |cfg.backends|);
    assert s.fleet.active[..|cfg.backends|] == s.fleet.active;
    SlotHoldersHaveTickets(cfg, s);
    SubsetIsSmaller(SlotHolders(s.reqs, |cfg.backends|), Those(s.reqs, Ticket));
  }

  /** Nobody waits while the gateway has a free slot, and the queue stays within its depth. */
  lemma NoLostWakeup(cfg: Config, es: seq<Event>)
    requires ValidRun(cfg, Initial(cfg), es)
    ensures var s := Reached(cfg, es);
            && (s.gate.core.waiters != [] ==> s.gate.core.inFlight == cfg.gate.maxConcurrent)
            && |s.gate.core.waiters| <= cfg.gate.queueDepth
  {
    ReachedInv(cfg, es);
  }

  lemma ServedBySomebody(bs: seq<Backend>, model: string)
    ensures Served(bs, model) <==> !(forall b :: 0 <= b < |bs| ==> model !in bs[b].models)
  {
    forall b | 0 <= b < |bs| ensures Serves(bs, b, model) <==> model in bs[b].models {
    }
  }

  /**
   How a request is received while the gateway is not draining: 404 if nobody serves
   the model; otherwise a ticket while the gate has a free slot, the last place of the
   queue while that has room, and 429 if and only if both are full.
   */
  lemma Reception(cfg: Config, s: State, id: Id, model: string, streaming: bool)
    requires Inv(cfg, s) && Steady(cfg, s) && Enabled(cfg, s, Arrive(id, model, streaming)) && !s.draining
    ensures var g, n := s.gate.core, Step(cfg, s, Arrive(id, model, streaming));
            && n.fleet == s.fleet && n.handlers == s.handlers + 1
            && id in n.reqs && n.reqs[id].model == model && n.reqs[id].streaming == streaming
            && var phase := n.reqs[id].phase;
               if forall b :: 0 <= b < |cfg.backends| ==> model !in cfg.backends[b].models then
                 phase == Writing(Reply(404), NoSlot, false) && n.gate == s.gate
               else if g.inFlight < cfg.gate.maxConcurrent then
                 phase == Admitted && id in n.gate.holders
               else if |g.waiters| < cfg.gate.queueDepth then
                 phase == Waiting && n.gate.core.waiters == g.waiters + [id]
               else
                 phase == Writing(Reply(429), NoSlot, false) && n.gate == s.gate
  {
    assert id !in s.gate.arrived;
    Gate.ArrivalIsAnswered(cfg.gate, s.gate, id);
    ServedBySomebody(cfg.backends, model);
  }

  /** A queued request that resumes is admitted if and only if it was served; otherwise its timer fired and it is told 429. */
  lemma Resumption(cfg: Config, s: State, id: Id)
    requires Gate.FirstComeFirstServed(s.gate) && GateBooks(s) && Steady(cfg, s) && Gate.Enabled(s.gate, Gate.Wake(id))
    ensures var n := Step(cfg, s, Wake(id));
            && id in n.reqs
            && if id in s.gate.served then
                 n.reqs[id].phase == Admitted && id in n.gate.holders
               else
                 n.reqs[id].phase == Writing(Reply(429), NoSlot, false) && id in s.gate.expired && id in n.gate.lapsed
  {
    Gate.WaitersApart(s.gate);
    assert id in Gate.Seated(s.gate.core);
  }

  // ------------------------------------------------------------------ draining

  lemma {:induction false} DrainNeverRises(cfg: Config, s: State, es: seq<Event>)
    requires s.draining && ValidRun(cfg, s, es)
    ensures Run(cfg, s, es).draining && Run(cfg, s, es).handlers <= s.handlers
    decreases |es|
  {
    if es != [] {
      DrainNeverRises(cfg, Step(cfg, s, es[0]), es[1..]);
    }
  }

  lemma NoHandlersNoShares(reqs: map<Id, Request>)
    requires Those(reqs, Handler) == {}
    ensures Those(reqs, Ticket) == {} && Those(reqs, Place) == {}
    ensures forall b :: Those(reqs, SlotAt(b)) == {}
  {
    assert forall id :: id in reqs ==> id !in Those(reqs, Handler);
  }

  lemma SeatedCovers(g: Gate.Core<Id>)
    ensures g.granted <= Gate.Seated(g)
    ensures g.waiters != [] ==> g.waiters[0] in Gate.Seated(g)
  {
  }

  /** When the handler count reads zero, nothing is held or awaited anywhere. */
  lemma DrainedIsIdle(cfg: Config, es: seq<Event>)
    requires ValidRun(cfg, Initial(cfg), es) && Reached(cfg, es).handlers == 0
    ensures var s := Reached(cfg, es);
            && s.gate.core == Gate.Core(0, [], {}) && s.gate.holders == {}
            && |s.fleet.active| == |cfg.backends|
            && forall b :: 0 <= b < |cfg.backends| ==> s.fleet.active[b] == 0
  {
    var s := Reached(cfg, es);
    ReachedInv(cfg, es);
    NoHandlersNoShares(s.reqs);
    SeatedCovers(s.gate.core);
  }

  // ------------------------------------------------------------------ the walk

  /** What failover may do for one request. */
  ghost predicate Disciplined(bs: seq<Backend>, r: Request) {
    && |r.attempts| <= 2
    && (forall i :: 0 <= i < |r.attempts| ==>
          Serves(bs, r.attempts[i].backend, r.model) && r.attempts[i].backend in r.healthy)
    && (|r.attempts| == 2 ==>
          && (Distinct(r.order) ==> r.attempts[0].backend != r.attempts[1].backend)
          && r.attempts[0].fate == Told(Failed) && !r.attempts[0].bytesSent)
    && |r.heads| <= 1
    && (r.phase.Done? && !r.lost ==> |r.heads| == 1)
    && (r.heads == [Json] ==> forall i :: 0 <= i < |r.attempts| ==> !r.attempts[i].bytesSent)
    && (r.heads == [Sse] && !r.lost ==> r.attempts != [] && r.attempts[|r.attempts| - 1].bytesSent)
  }

  lemma OkIsDisciplined(bs: seq<Backend>, r: Request)
    requires RequestOk(bs, r)
    ensures Disciplined(bs, r)
  {
    forall i | 0 <= i < |r.attempts| ensures r.attempts[i].backend in r.order {
      var upto := if r.phase.Calling? then r.phase.pos + 1 else |r.order|;
      assert r.attempts[i].backend in r.order[..upto];
    }
  }

  /**
   Failover discipline of every request in every run: at most two dispatches, to
   backends that were healthy and serve the model, and not to the same one twice
   unless the order repeats it; a second one only after the first was reported failed
   with nothing sent; never more than one response head, and exactly one once a
   client that never refused a write is served: a JSON head only if no attempt had
   sent anything, an event stream head only if the last attempt had.
   */
  lemma WalkDiscipline(cfg: Config, es: seq<Event>, id: Id)
    requires ValidRun(cfg, Initial(cfg), es) && id in Reached(cfg, es).reqs
    ensures Disciplined(cfg.backends, Reached(cfg, es).reqs[id])
  {
    ReachedInv(cfg, es);
    assert RequestOk(cfg.backends, Reached(cfg, es).reqs[id]);
    OkIsDisciplined(cfg.backends, Reached(cfg, es).reqs[id]);
  }

  /** The request walked on from this position of its order: to the first backend that takes it, or to a 503. */
  ghost predicate WalkedOn(bs: seq<Backend>, f: Fleet, r: Request, pos: nat, now: int, n: Request)
    requires Fits(bs, f) && InRange(bs, r.order)
  {
    if NoTaker(bs, f, r.order, pos, now) then n == r.(phase := Writing(Reply(503), NoSlot, true))
    else
      && n.phase.Calling? && FirstTaker(bs, f, r.order, pos, now, n.phase.pos)
      && var b := r.order[n.phase.pos];
         n == r.(phase := n.phase, attempts := r.attempts + [Attempt(b, Decision(bs, f, b, now).isProbe, Pending, false)])
  }

  lemma WalkOnWalksOn(cfg: Config, f: Fleet, r: Request, pos: nat, now: int)
    requires Fits(cfg.backends, f) && InRange(cfg.backends, r.order) && |r.attempts| < MaxAttempts
    ensures WalkedOn(cfg.backends, f, r, pos, now, WalkOn(cfg, f, r, pos, now).req)
  {
    WalkFindsFirstTaker(cfg.backends, f, r.order, pos, |r.attempts|, now);
  }

  /** An admitted request goes to the first backend of its order that takes it, or is answered 503 if none does. */
  lemma FirstDispatch(cfg: Config, s: State, id: Id, healthy: set<nat>, order: seq<nat>)
    requires RequestsOk(cfg, s) && Steady(cfg, s) && Enabled(cfg, s, Begin(id, healthy, order))
    ensures InRange(cfg.backends, order)
    ensures WalkedOn(cfg.backends, s.fleet, s.reqs[id].(healthy := healthy, order := order), 0, s.now,
                     Step(cfg, s, Begin(id, healthy, order)).reqs[id])
  {
    var r := s.reqs[id].(healthy := healthy, order := order);
    assert RequestOk(cfg.backends, s.reqs[id]);
    WalkOnWalksOn(cfg, s.fleet, r, 0, s.now);
  }

  /** The attempt failed before anything reached the client. */
  predicate FailedSilently(o: Outcome) {
    match o
    case Streamed(s) => !s.headerStarted && (s.status >= 400 || !s.connected || s.timedOut || s.aborted)
    case Unary(u) => !u.connected || u.status >= 500
  }

  /** What the client is told about it when nobody is left to ask. */
  function FailureStatus(o: Outcome): int {
    match o
    case Streamed(s) => if s.status >= 400 then s.status else if s.timedOut then 504 else 502
    case Unary(u) => if !u.connected then 503 else u.status
  }

  lemma SilentFailuresAreJudged(o: Outcome, mayRetry: bool)
    ensures Judge(o, mayRetry).next.TryNext? <==> FailedSilently(o) && (mayRetry || (o.Unary? && !o.u.connected))
    ensures FailedSilently(o) && !Judge(o, mayRetry).next.TryNext? ==> Judge(o, mayRetry).next == Reply(FailureStatus(o))
  {
  }

  /** How a request stands after its attempt completed. */
  ghost predicate FailedOver(cfg: Config, s: State, id: Id, outcome: Outcome, n: Request)
    requires Ready(cfg, s, id)
  {
    var r := s.reqs[id];
    if |r.attempts| == 1 && FailedSilently(outcome) && r.phase.pos + 1 < |r.order| then
      WalkedOn(cfg.backends, GivenUp(s, id), Judged(r, outcome, Failed), r.phase.pos + 1, s.now, n)
    else
      && !n.phase.Calling? && |n.attempts| == |r.attempts|
      && (FailedSilently(outcome) ==> n.phase.Writing? && n.phase.next == Reply(FailureStatus(outcome)))
  }

  lemma RetryFailsOver(cfg: Config, s: State, id: Id, outcome: Outcome)
    requires Ready(cfg, s, id) && 1 <= |s.reqs[id].attempts| <= 2 && Ruling(s, id, outcome).next.TryNext?
    ensures FailedOver(cfg, s, id, outcome, Completed(cfg, s, id, outcome).req)
  {
    var r := s.reqs[id];
    SilentFailuresAreJudged(outcome, MayRetry(r));
    CompletedByRetry(cfg, s, id, outcome);
    if |r.attempts| == 1 {
      WalkOnWalksOn(cfg, GivenUp(s, id), Judged(r, outcome, Failed), r.phase.pos + 1, s.now);
    }
  }

  lemma ReplyFailsOver(cfg: Config, s: State, id: Id, outcome: Outcome)
    requires Ready(cfg, s, id) && 1 <= |s.reqs[id].attempts| <= 2 && !Ruling(s, id, outcome).next.TryNext?
    ensures FailedOver(cfg, s, id, outcome, Completed(cfg, s, id, outcome).req)
  {
    SilentFailuresAreJudged(outcome, MayRetry(s.reqs[id]));
    if Ruling(s, id, outcome).next.HangUp? {
      CompletedByHangUp(cfg, s, id, outcome);
    } else {
      CompletedByReply(cfg, s, id, outcome);
    }
  }

  /**
   Failover. A first attempt that failed with nothing sent is followed by a second one
   at the first later backend of the order that takes the request, in the state in
   which the failure has been reported and the slot given back. If there is no later
   position the client is told of the failure; if there is one but nobody takes the
   request, it is told 503. Any other first attempt, and any second one, is the last.
   */
  lemma FailoverLaw(cfg: Config, s: State, id: Id, outcome: Outcome)
    requires RequestsOk(cfg, s) && Steady(cfg, s) && Enabled(cfg, s, Complete(id, outcome))
    ensures Ready(cfg, s, id) && FailedOver(cfg, s, id, outcome, Step(cfg, s, Complete(id, outcome)).reqs[id])
  {
    assert RequestOk(cfg.backends, s.reqs[id]);
    if Ruling(s, id, outcome).next.TryNext? {
      RetryFailsOver(cfg, s, id, outcome);
    } else {
      ReplyFailsOver(cfg, s, id, outcome);
    }
  }

  // -------------------------------------------------------------- the breakers

  /** A breaker heard of as many failures and successes as attempts at its backend ended so: each exactly once. */
  lemma VerdictsAreReportedOnce(cfg: Config, es: seq<Event>, b: nat, v: Verdict)
    requires ValidRun(cfg, Initial(cfg), es) && b < |cfg.backends|
    ensures b < |Reached(cfg, es).fleet.calls|
    ensures Answers(Reached(cfg, es).fleet.calls[b], v) == Tellings(Reached(cfg, es).reqs, b, v)
  {
    ReachedInv(cfg, es);
  }

  /** However requests interleave, one backend's probes are at least an open window apart. */
  lemma GatewaySpacesProbes(cfg: Config, es: seq<Event>, b: nat, i: nat, j: nat)
    requires ValidRun(cfg, Initial(cfg), es) && b < |cfg.backends| && i < j
    requires b < |Reached(cfg, es).fleet.calls|
    requires CB.ProbeAdmitted(cfg.backends[b].breaker, Reached(cfg, es).fleet.calls[b], i)
    requires CB.ProbeAdmitted(cfg.backends[b].breaker, Reached(cfg, es).fleet.calls[b], j)
    ensures var h := Reached(cfg, es).fleet.calls[b];
            h[j].now - h[i].now >= cfg.backends[b].breaker.window
  {
    ReachedInv(cfg, es);
    assert Sound(cfg.backends[b].breaker, Reached(cfg, es).fleet.calls[b], Reached(cfg, es).now);
    CB.ProbesAreSpaced(cfg.backends[b].breaker, Reached(cfg, es).fleet.calls[b], i, j);
  }

  // ------------------------------------------------------------- fair admission

  ghost function GateRun(cfg: Config, s: State, es: seq<Event>): seq<Gate.Event<Id>>
    requires ValidRun(cfg, s, es)
    decreases |es|
  {
    if es == [] then [] else AtGate(cfg, s, es[0]) + GateRun(cfg, Step(cfg, s, es[0]), es[1..])
  }

  lemma {:induction false} GateRunsCompose(lim: Gate.Limits, l: Gate.Ledger<Id>, a: seq<Gate.Event<Id>>, b: seq<Gate.Event<Id>>)
    requires Gate.ValidRun(lim, l, a) && Gate.ValidRun(lim, Gate.Run(lim, l, a), b)
    ensures Gate.ValidRun(lim, l, a + b) && Gate.Run(lim, l, a + b) == Gate.Run(lim, Gate.Run(lim, l, a), b)
    decreases |a|
  {
    if a == [] {
      assert a + b == b;
    } else {
      GateRunsCompose(lim, Gate.Step(lim, l, a[0]), a[1..], b);
      assert (a + b)[1..] == a[1..] + b;
    }
  }

  /** Seen from the gate, every run of the gateway is a run of the gate. */
  lemma {:induction false} GatewayRunsTheGate(cfg: Config, s: State, es: seq<Event>)
    requires Inv(cfg, s) && ValidRun(cfg, s, es)
    ensures Gate.ValidRun(cfg.gate, s.gate, GateRun(cfg, s, es))
    ensures Run(cfg, s, es).gate == Gate.Run(cfg.gate, s.gate, GateRun(cfg, s, es))
    decreases |es|
  {
    if es != [] {
      GateStep(cfg, s, es[0]);
      StepKeeps(cfg, s, es[0]);
      GatewayRunsTheGate(cfg, Step(cfg, s, es[0]), es[1..]);
      GateRunsCompose(cfg.gate, s.gate, AtGate(cfg, s, es[0]), GateRun(cfg, Step(cfg, s, es[0]), es[1..]));
    }
  }

  /** A request waiting at position k has its slot after k + 1 tickets were given back, unless it timed out first. */
  lemma QueuedRequestIsServed(cfg: Config, s: State, es: seq<Event>, k: nat)
    requires Inv(cfg, s) && ValidRun(cfg, s, es)
    requires k < |s.gate.core.waiters| && Gate.Releases(GateRun(cfg, s, es)) >= k + 1
    ensures var n, id := Run(cfg, s, es), s.gate.core.waiters[k];
            id in n.gate.served || id in n.gate.lapsed
  {
    GatewayRunsTheGate(cfg, s, es);
    Gate.ServedWithinReleases(cfg.gate, s.gate, GateRun(cfg, s, es), k);
  }

  // ------------------------------------------------------------------- routing

  lemma PermutationRoutes(bs: seq<Backend>, model: string, healthy: set<nat>, ids: seq<nat>, order: seq<nat>)
    requires Routes(bs, model, healthy, ids) && multiset(order) == multiset(ids)
    ensures Routes(bs, model, healthy, order)
  {
    PA.SameElements(order, ids);
    PA.RankedDistinct(ids, order);
  }

  /** Prefix affinity always returns each eligible backend once. */
  lemma AffinityRoutes(bs: seq<Backend>, model: string, healthy: set<nat>, score: PA.Scores, threshold: real, cs: seq<PA.Candidate>)
    requires Routes(bs, model, healthy, PA.Ids(cs))
    ensures Routes(bs, model, healthy, PA.Order(score, threshold, cs).order)
    ensures Offers(bs, model, healthy, PA.Order(score, threshold, cs).order)
  {
    PA.OrderIsPermutation(score, threshold, cs);
    PermutationRoutes(bs, model, healthy, PA.Ids(cs), PA.Order(score, threshold, cs).order);
  }

  /**
   So does round-robin, exactly as long as its counter does not wrap inside the order;
   wrapped or not, its order is one the walk accepts.
   */
  lemma RoundRobinRoutes(bs: seq<Backend>, model: string, healthy: set<nat>, ids: seq<nat>, start: nat)
    requires Routes(bs, model, healthy, ids) && ids != [] && start < RR.W && |ids| <= RR.W
    ensures Offers(bs, model, healthy, RR.Rotation(ids, start))
    ensures Routes(bs, model, healthy, RR.Rotation(ids, start)) <==> start + |ids| <= RR.W || RR.W % |ids| == 0
  {
    if start + |ids| <= RR.W || RR.W % |ids| == 0 {
      RR.PermutationIffNoWrap(ids, start);
      PermutationRoutes(bs, model, healthy, ids, RR.Rotation(ids, start));
    } else {
      RR.WrapBreaks(ids, start);
    }
  }

  // ------------------------------------------------------------ a wrapped order

  /** Three backends that serve the same model and trip at their second failure, behind a gate of one. */
  const Trio := Config(Gate.Limits(1, 0), [Member, Member, Member])
  const Member := Backend(["m"], 1, CB.Params(2, 10))

  /** A walk that finds its next backend willing and idle dispatches to it. */
  lemma Dispatches(f: Fleet, r: Request, pos: nat, b: nat)
    requires Fits(Trio.backends, f) && InRange(Trio.backends, r.order) && |r.attempts| < MaxAttempts
    requires pos < |r.order| && r.order[pos] == b < |Trio.backends|
    requires Decision(Trio.backends, f, b, 0) == CB.Decision(true, false) && f.active[b] == 0
    ensures WalkOn(Trio, f, r, pos, 0) ==
            Turn(Report(f, b, CB.Allow(0)).(active := f.active[b := 1]),
                 r.(phase := Calling(pos), attempts := r.attempts + [Attempt(b, false, Pending, false)]))
  {
    assert r.order[pos] in r.order;
    WalkOnce(Trio.backends, f, r.order, pos, |r.attempts|, 0);
  }

  /** The first walk over the wrapped order dispatches to backend 0. */
  lemma FirstTry(f: Fleet, r: Request)
    requires f == Fleet([[], [], []], [0, 0, 0]) && r.order == [0, 0, 1] && r.attempts == []
    ensures WalkOn(Trio, f, r, 0, 0) ==
            Turn(Fleet([[CB.Allow(0)], [], []], [1, 0, 0]),
                 r.(phase := Calling(0), attempts := [Attempt(0, false, Pending, false)]))
  {
    Dispatches(f, r, 0, 0);
    assert f.calls[0] + [CB.Allow(0)] == [CB.Allow(0)];
    assert Report(f, 0, CB.Allow(0)).calls == [[CB.Allow(0)], [], []];
    assert f.active[0 := 1] == [1, 0, 0];
    assert r.attempts + [Attempt(0, false, Pending, false)] == [Attempt(0, false, Pending, false)];
  }

  lemma OneFailureIsForgiven(h: CB.History)
    requires h == [CB.Allow(0), CB.Failure(false, 0)]
    ensures CB.Replay(Member.breaker, h) == CB.State(CB.Closed, 1, 0)
  {
    assert h[..1] == [CB.Allow(0)] && h[..1][..0] == [];
    CB.ReplayStep(Member.breaker, h, 0);
    CB.ReplayStep(Member.breaker, h, 1);
    assert h[..2] == h && h[..0] == [];
  }

  /** One failure does not trip the breaker, so the second walk dispatches to backend 0 again. */
  lemma SecondTry(f: Fleet, r: Request)
    requires f == Fleet([[CB.Allow(0), CB.Failure(false, 0)], [], []], [0, 0, 0])
    requires r.order == [0, 0, 1] && |r.attempts| == 1
    ensures WalkOn(Trio, f, r, 1, 0).req == r.(phase := Calling(1), attempts := r.attempts + [Attempt(0, false, Pending, false)])
  {
    OneFailureIsForgiven(f.calls[0]);
    Dispatches(f, r, 1, 0);
  }

  lemma RefusedOnce(s: State)
    requires s.fleet == Fleet([[CB.Allow(0)], [], []], [1, 0, 0]) && s.now == 0 && 0 in s.reqs
    requires s.reqs[0].attempts == [Attempt(0, false, Pending, false)]
    ensures GivenUp(s, 0) == Fleet([[CB.Allow(0), CB.Failure(false, 0)], [], []], [0, 0, 0])
  {
    assert [CB.Allow(0)] + [CB.Failure(false, 0)] == [CB.Allow(0), CB.Failure(false, 0)];
  }

  /** The run leads to a state where request 0 stands so, and the fleet is this. */
  ghost predicate Stands(es: seq<Event>, f: Fleet, r: Request) {
    && ValidRun(Trio, Initial(Trio), es)
    && var s := Reached(Trio, es); s.fleet == f && s.now == 0 && 0 in s.reqs && s.reqs[0] == r
  }

  lemma ArrivesFirst() returns (es: seq<Event>)
    ensures Stands(es, Fleet([[], [], []], [0, 0, 0]), Newcomer("m", true, Admitted))
  {
    assert Serves(Trio.backends, 0, "m");
    es := [] + [Arrive(0, "m", true)];
    var s, t := Then(Trio, [], Arrive(0, "m", true));
    assert s.fleet == Fleet([[], [], []], [0, 0, 0]);
  }

  lemma CallsFirst(es: seq<Event>) returns (n: seq<Event>)
    requires Stands(es, Fleet([[], [], []], [0, 0, 0]), Newcomer("m", true, Admitted))
    ensures Stands(n, Fleet([[CB.Allow(0)], [], []], [1, 0, 0]),
                   Request("m", true, Calling(0), {0, 1, 2}, [0, 0, 1], [Attempt(0, false, Pending, false)], [], false))
  {
    assert Serves(Trio.backends, 0, "m") && Serves(Trio.backends, 1, "m");
    var s, t := Then(Trio, es, Begin(0, {0, 1, 2}, [0, 0, 1]));
    n := es + [Begin(0, {0, 1, 2}, [0, 0, 1])];
    FirstTry(s.fleet, s.reqs[0].(healthy := {0, 1, 2}, order := [0, 0, 1]));
  }

  /** The order of a wrapped round-robin makes the failover retry the backend that has just failed. */
  lemma WrapRetriesSameBackend() returns (es: seq<Event>)
    ensures ValidRun(Trio, Initial(Trio), es) && 0 in Reached(Trio, es).reqs
    ensures var r := Reached(Trio, es).reqs[0];
            && r.order == RR.Rotation([0, 1, 2], RR.W - 1)
            && |r.attempts| == 2 && r.attempts[0].backend == r.attempts[1].backend == 0
  {
    RR.WrapRepeatsOne();
    es := ArrivesFirst();
    es := CallsFirst(es);
    var fail := Complete(0, Streamed(StreamOutcome(false, 0, false, false, false, false)));
    var s, t := Then(Trio, es, fail);
    es := es + [fail];
    RefusedOnce(s);
    CompletedByRetry(Trio, s, 0, fail.outcome);
    SecondTry(GivenUp(s, 0), Judged(s.reqs[0], fail.outcome, Failed));
  }
}

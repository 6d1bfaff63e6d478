/**
 Every step of every run keeps the gateway's books. A step changes one request; the
 lemmas show that what the step does to the gate, the limiters and the breakers is
 exactly what that request took, gave back, opened and answered.
 */
module GatewayInvariant {
  import opened Sequences
  import opened Failover
  import opened FailoverWalk
  import opened GatewayProtocol
  import CB = CircuitBreaker
  import Gate = AdmissionGate

  // ------------------------------------------------------- changing one request

  lemma ThoseChange(reqs: map<Id, Request>, id: Id, r: Request, c: Share)
    ensures Those(reqs[id := r], c) == if Has(r, c) then Those(reqs, c) + {id} else Those(reqs, c) - {id}
    ensures id in Those(reqs, c) <==> id in reqs && Has(reqs[id], c)
  {
  }

  lemma OneInOrOut(ids: set<Id>, id: Id)
    ensures |ids + {id}| == |ids| + 1 - Bit(id in ids) && |ids - {id}| == |ids| - Bit(id in ids)
  {
    if id in ids {
      assert ids + {id} == ids;
    } else {
      assert ids - {id} == ids;
    }
  }

  lemma ThoseUpdate(reqs: map<Id, Request>, id: Id, r: Request, c: Share)
    ensures var was := id in reqs && Has(reqs[id], c);
            && Those(reqs[id := r], c) == (if Has(r, c) then Those(reqs, c) + {id} else Those(reqs, c) - {id})
            && |Those(reqs[id := r], c)| == |Those(reqs, c)| + Bit(Has(r, c)) - Bit(was)
  {
    ThoseChange(reqs, id, r, c);
    OneInOrOut(Those(reqs, c), id);
  }

  /** The limiters moved by exactly what the request took and gave back, within their caps. */
  ghost predicate SlotsMatch(cfg: Config, s: State, id: Id, t: Turn) {
    && Fits(cfg.backends, s.fleet) && Fits(cfg.backends, t.fleet)
    && forall b :: 0 <= b < |cfg.backends| ==>
         && t.fleet.active[b] == s.fleet.active[b] + Bit(b in Slots(t.req)) - Bit(id in s.reqs && b in Slots(s.reqs[id]))
         && t.fleet.active[b] <= cfg.backends[b].maxInFlight
  }

  /** The breakers' open decisions moved by exactly what the request opened and answered. */
  ghost predicate DecisionsMatch(cfg: Config, s: State, id: Id, t: Turn) {
    && Fits(cfg.backends, s.fleet) && Fits(cfg.backends, t.fleet)
    && forall b, probe :: 0 <= b < |cfg.backends| ==>
         Open(cfg.backends, t.fleet, b, probe) ==
         Open(cfg.backends, s.fleet, b, probe)
         + Bit((b, probe) in Owing(t.req.attempts)) - Bit(id in s.reqs && (b, probe) in Owing(s.reqs[id].attempts))
  }

  lemma SlotsFollow(cfg: Config, s: State, id: Id, t: Turn, n: State)
    requires SlotBooks(cfg, s) && SlotsMatch(cfg, s, id, t)
    requires n.fleet == t.fleet && n.reqs == s.reqs[id := t.req]
    ensures SlotBooks(cfg, n)
  {
    forall b | 0 <= b < |cfg.backends|
      ensures n.fleet.active[b] == |Those(n.reqs, SlotAt(b))| <= cfg.backends[b].maxInFlight
    {
      ThoseUpdate(s.reqs, id, t.req, SlotAt(b));
    }
  }

  lemma DecisionsFollow(cfg: Config, s: State, id: Id, t: Turn, n: State)
    requires DecisionBooks(cfg, s) && DecisionsMatch(cfg, s, id, t)
    requires n.fleet == t.fleet && n.reqs == s.reqs[id := t.req]
    ensures DecisionBooks(cfg, n)
  {
    forall b, probe | 0 <= b < |cfg.backends|
      ensures Open(cfg.backends, n.fleet, b, probe) == |Those(n.reqs, OpenAt(b, probe))|
    {
      ThoseUpdate(s.reqs, id, t.req, OpenAt(b, probe));
    }
  }

  lemma RequestsFollow(cfg: Config, s: State, id: Id, r: Request, n: State)
    requires RequestsOk(cfg, s) && RequestOk(cfg.backends, r)
    requires n.reqs == s.reqs[id := r]
    ensures RequestsOk(cfg, n)
  {
  }

  lemma HandlersFollow(s: State, id: Id, r: Request, n: State)
    requires HandlerBooks(s) && n.reqs == s.reqs[id := r]
    requires n.handlers == s.handlers + Bit(!r.phase.Done?) - Bit(id in s.reqs && !s.reqs[id].phase.Done?)
    ensures HandlerBooks(n)
  {
    ThoseUpdate(s.reqs, id, r, Handler);
  }

  /** A turn of one request that keeps its own books keeps the gateway's. */
  ghost predicate TurnOk(cfg: Config, s: State, id: Id, t: Turn) {
    && SlotsMatch(cfg, s, id, t) && DecisionsMatch(cfg, s, id, t)
    && AllSound(cfg.backends, t.fleet, s.now) && RequestOk(cfg.backends, t.req)
  }

  lemma PutKeeps(cfg: Config, s: State, id: Id, t: Turn, n: State)
    requires FleetBooks(cfg, s) && TurnOk(cfg, s, id, t)
    requires n.fleet == t.fleet && n.reqs == s.reqs[id := t.req] && n.now == s.now
    requires n.handlers == s.handlers + Bit(!t.req.phase.Done?) - Bit(id in s.reqs && !s.reqs[id].phase.Done?)
    ensures FleetBooks(cfg, n)
  {
    HandlersFollow(s, id, t.req, n);
    SlotsFollow(cfg, s, id, t, n);
    DecisionsFollow(cfg, s, id, t, n);
    RequestsFollow(cfg, s, id, t.req, n);
  }

  /** A request in good order can have only its last attempt unanswered. */
  lemma OnlyLastIsOpen(r: Request, upto: nat)
    requires AttemptsOk(r, upto)
    ensures Owing(r.attempts) == if r.attempts != [] && IsOpen(Current(r)) then {(Current(r).backend, Current(r).isProbe)} else {}
  {
    assert forall i :: 0 <= i < |r.attempts| - 1 ==> !IsOpen(r.attempts[i]);
  }

  // -------------------------------------------------------- steps at the gate

  ghost function Toggle(ids: set<Id>, id: Id, present: bool): set<Id> {
    if present then ids + {id} else ids - {id}
  }

  /** The gate's books follow when its holders and waiters change as the request does. */
  lemma GateFollows(s: State, id: Id, r: Request, n: State)
    requires GateBooks(s) && n.reqs == s.reqs[id := r]
    requires n.gate.holders == Toggle(s.gate.holders, id, Ticketed(r))
    requires Gate.Seated(n.gate.core) == Toggle(Gate.Seated(s.gate.core), id, r.phase.Waiting?)
    requires forall u :: u in n.gate.arrived ==> u in s.gate.arrived || u == id
    ensures GateBooks(n)
  {
    ThoseUpdate(s.reqs, id, r, Ticket);
    ThoseUpdate(s.reqs, id, r, Place);
  }

  /** A request that gives back its ticket on its way out. */
  lemma LeavesGate(cfg: Config, s: State, id: Id, r: Request, n: State)
    requires GateBooks(s)
    requires id in s.reqs && Ticketed(s.reqs[id]) && r.phase.Done?
    requires n.gate == Gate.Step(cfg.gate, s.gate, Gate.Leave(id)) && n.reqs == s.reqs[id := r]
    ensures GateBooks(n)
  {
    Gate.SeatedAfterRelease(s.gate.core);
    assert id !in Those(s.reqs, Place);
    assert Gate.Seated(s.gate.core) == Gate.Seated(s.gate.core) - {id};
    GateFollows(s, id, r, n);
  }

  lemma ArrivesAtGate(cfg: Config, s: State, id: Id, r: Request, n: State)
    requires GateBooks(s) && id !in s.reqs
    requires n.gate == Gate.Step(cfg.gate, s.gate, Gate.Arrive(id)) && n.reqs == s.reqs[id := r]
    requires var entry := Gate.Enter(cfg.gate, s.gate.core, id).1;
             Ticketed(r) == entry.FastPath? && r.phase.Waiting? == entry.Queued?
    ensures GateBooks(n)
  {
    Gate.SeatedAfterEnter(cfg.gate, s.gate.core, id);
    assert id !in Those(s.reqs, Ticket) && id !in Those(s.reqs, Place);
    GateFollows(s, id, r, n);
  }

  lemma WakesAtGate(cfg: Config, s: State, id: Id, r: Request, n: State)
    requires GateBooks(s) && Gate.FirstComeFirstServed(s.gate) && Gate.Enabled(s.gate, Gate.Wake(id))
    requires id in s.gate.core.granted || id !in s.gate.holders
    requires n.gate == Gate.Step(cfg.gate, s.gate, Gate.Wake(id)) && n.reqs == s.reqs[id := r]
    requires Ticketed(r) == (id in s.gate.core.granted) && !r.phase.Waiting?
    ensures GateBooks(n)
  {
    Gate.WaitersApart(s.gate);
    Gate.SeatedAfterResume(s.gate.core, id);
    GateFollows(s, id, r, n);
  }

  // ------------------------------------------------------ admission steps

  /** A request without attempts takes no slot and opens no decision. */
  lemma IdleTurn(cfg: Config, s: State, id: Id, r: Request)
    requires SlotBooks(cfg, s) && AllSound(cfg.backends, s.fleet, s.now)
    requires id in s.reqs ==> s.reqs[id].attempts == [] && Slots(s.reqs[id]) == {}
    requires r.attempts == [] && Slots(r) == {} && RequestOk(cfg.backends, r)
    ensures TurnOk(cfg, s, id, Turn(s.fleet, r))
  {
    assert Owing(r.attempts) == {};
    assert id in s.reqs ==> Owing(s.reqs[id].attempts) == {};
  }

  lemma IdlePut(cfg: Config, s: State, id: Id, r: Request, n: State)
    requires FleetBooks(cfg, s)
    requires id in s.reqs ==> s.reqs[id].attempts == [] && (s.reqs[id].phase.Waiting? || s.reqs[id].phase.Admitted?)
    requires r.attempts == [] && RequestOk(cfg.backends, r)
    requires r.phase.Waiting? || r.phase.Admitted? || (r.phase.Writing? && r.phase.slot.NoSlot?)
    requires n.fleet == s.fleet && n.reqs == s.reqs[id := r] && n.now == s.now
    requires n.handlers == s.handlers + if id in s.reqs then 0 else 1
    ensures FleetBooks(cfg, n)
  {
    IdleTurn(cfg, s, id, r);
    PutKeeps(cfg, s, id, Turn(s.fleet, r), n);
  }

  lemma ArriveKeeps(cfg: Config, s: State, id: Id, model: string, streaming: bool)
    requires GateBooks(s) && FleetBooks(cfg, s) && id !in s.reqs
    ensures var n := Arriving(cfg, s, id, model, streaming);
            GateBooks(n) && FleetBooks(cfg, n)
  {
    var n := Arriving(cfg, s, id, model, streaming);
    var r := Newcomer(model, streaming, Entering(cfg, s, id, model));
    if Served(cfg.backends, model) {
      ArrivesAtGate(cfg, s, id, r, n);
    } else {
      assert id !in Those(s.reqs, Ticket) && id !in Those(s.reqs, Place);
      GateFollows(s, id, r, n);
    }
    IdlePut(cfg, s, id, r, n);
  }

  lemma WakeKeeps(cfg: Config, s: State, id: Id)
    requires Gate.FirstComeFirstServed(s.gate) && GateBooks(s) && FleetBooks(cfg, s)
    requires Gate.Enabled(s.gate, Gate.Wake(id)) && id in s.reqs && s.reqs[id].phase.Waiting?
    ensures var n := Waking(cfg, s, id);
            GateBooks(n) && FleetBooks(cfg, n)
  {
    var n := Waking(cfg, s, id);
    var r := n.reqs[id];
    Gate.WaitersApart(s.gate);
    WakesAtGate(cfg, s, id, r, n);
    assert RequestOk(cfg.backends, s.reqs[id]);
    IdlePut(cfg, s, id, r, n);
  }

  // ------------------------------------------------------------- walking steps

  /** A request between attempts: every attempt so far failed without sending anything. */
  ghost predicate BetweenAttempts(bs: seq<Backend>, r: Request, pos: nat) {
    && RouteOk(bs, r) && InRange(bs, r.order)
    && AttemptsOk(r, pos) && r.heads == []
    && forall i :: 0 <= i < |r.attempts| ==> r.attempts[i].fate == Told(Failed) && !r.attempts[i].bytesSent
  }

  /** From fleet f to t, exactly what the request of t now holds was added. */
  ghost predicate Gained(bs: seq<Backend>, f: Fleet, t: Turn) {
    && Fits(bs, f) && Fits(bs, t.fleet)
    && (forall b :: 0 <= b < |bs| ==>
          && t.fleet.active[b] == f.active[b] + Bit(b in Slots(t.req))
          && (b in Slots(t.req) ==> t.fleet.active[b] <= bs[b].maxInFlight))
    && (forall b, probe :: 0 <= b < |bs| ==>
          Open(bs, t.fleet, b, probe) == Open(bs, f, b, probe) + Bit((b, probe) in Owing(t.req.attempts)))
  }

  lemma DispatchedRequest(bs: seq<Backend>, r: Request, pos: nat, at: nat, isProbe: bool)
    requires BetweenAttempts(bs, r, pos) && pos <= at < |r.order| && |r.attempts| < MaxAttempts
    ensures var b := r.order[at];
            var n := r.(phase := Calling(at), attempts := r.attempts + [Attempt(b, isProbe, Pending, false)]);
            RequestOk(bs, n) && Slots(n) == {b} && Owing(n.attempts) == {(b, isProbe)}
  {
    var b := r.order[at];
    var n := r.(phase := Calling(at), attempts := r.attempts + [Attempt(b, isProbe, Pending, false)]);
    forall i | 0 <= i < |r.attempts|
      ensures r.attempts[i].backend in r.order[..at] && r.attempts[i].backend in r.order[..at + 1]
      ensures Distinct(r.order) ==> r.attempts[i].backend != b
    {
      assert r.attempts[i].backend in r.order[..pos];
      var k :| 0 <= k < pos && r.order[..pos][k] == r.attempts[i].backend;
      assert r.order[..at][k] == r.order[k] == r.order[..at + 1][k];
    }
    assert r.order[..at + 1][at] == b;
    assert AttemptsOk(n, at + 1);
    OnlyLastIsOpen(n, at + 1);
  }

  lemma ExhaustedRequest(bs: seq<Backend>, r: Request, pos: nat)
    requires BetweenAttempts(bs, r, pos)
    ensures var n := r.(phase := Writing(Reply(503), NoSlot, true));
            RequestOk(bs, n) && Slots(n) == {} && Owing(n.attempts) == {}
  {
    forall i | 0 <= i < |r.attempts| ensures r.attempts[i].backend in r.order[..|r.order|] {
      assert r.attempts[i].backend in r.order[..pos];
    }
  }

  /** What the fleet gained at one backend is what the request holds there. */
  lemma GainedAt(bs: seq<Backend>, f: Fleet, t: Turn, at: nat, isProbe: bool, held: int)
    requires Fits(bs, f) && Fits(bs, t.fleet) && at < |bs|
    requires held == 1 ==> f.active[at] < bs[at].maxInFlight
    requires Moved(bs, f, t.fleet, at, isProbe, held, held)
    requires Slots(t.req) == (if held == 1 then {at} else {})
    requires Owing(t.req.attempts) == if held == 1 then {(at, isProbe)} else {}
    requires held == 0 || held == 1
    ensures Gained(bs, f, t)
  {
  }

  /** A walk leaves the request in good order, holding exactly what the fleet gained. */
  lemma WalkTurn(cfg: Config, f: Fleet, r: Request, pos: nat, now: int)
    requires AllSound(cfg.backends, f, now) && BetweenAttempts(cfg.backends, r, pos) && r.order != []
    ensures var t := WalkOn(cfg, f, r, pos, now);
            && AllSound(cfg.backends, t.fleet, now) && RequestOk(cfg.backends, t.req)
            && Gained(cfg.backends, f, t)
            && Ticketed(t.req) && !t.req.phase.Done? && !t.req.phase.Waiting?
  {
    var bs, t := cfg.backends, WalkOn(cfg, f, r, pos, now);
    var p := Walk(bs, f, r.order, pos, |r.attempts|, now);
    WalkEffect(bs, f, r.order, pos, |r.attempts|, now);
    match p.stop {
      case Exhausted =>
        ExhaustedRequest(bs, r, pos);
        assert r.order[0] in r.order;
        GainedAt(bs, f, t, 0, false, 0);
      case Dispatched(at, isProbe) =>
        DispatchedRequest(bs, r, pos, at, isProbe);
        assert r.order[at] in r.order;
        GainedAt(bs, f, t, r.order[at], isProbe, 1);
    }
  }

  lemma BeginsWalk(cfg: Config, s: State, id: Id, healthy: set<nat>, order: seq<nat>)
    requires FleetBooks(cfg, s)
    requires id in s.reqs && s.reqs[id].phase.Admitted? && InRange(cfg.backends, order)
    requires Offers(cfg.backends, s.reqs[id].model, healthy, order)
    ensures var n := Beginning(cfg, s, id, healthy, order);
            && FleetBooks(cfg, n)
            && id in n.reqs && Ticketed(n.reqs[id]) && !n.reqs[id].phase.Waiting?
  {
    var n := Beginning(cfg, s, id, healthy, order);
    var r := s.reqs[id].(healthy := healthy, order := order);
    assert RequestOk(cfg.backends, s.reqs[id]);
    if order == [] {
      IdlePut(cfg, s, id, n.reqs[id], n);
    } else {
      var t := WalkOn(cfg, s.fleet, r, 0, s.now);
      WalkTurn(cfg, s.fleet, r, 0, s.now);
      FreshTurn(cfg, s, id, t);
      PutKeeps(cfg, s, id, t, n);
    }
  }

  lemma BeginsAtGate(cfg: Config, s: State, id: Id, healthy: set<nat>, order: seq<nat>)
    requires GateBooks(s) && Fits(cfg.backends, s.fleet) && InRange(cfg.backends, order)
    requires id in s.reqs && s.reqs[id].phase.Admitted?
    requires var r := Beginning(cfg, s, id, healthy, order).reqs[id]; Ticketed(r) && !r.phase.Waiting?
    ensures GateBooks(Beginning(cfg, s, id, healthy, order))
  {
    var n := Beginning(cfg, s, id, healthy, order);
    SameAtGate(s, id, n.reqs[id], n);
  }

  /** A step of a ticket holder that leaves the gate alone. */
  lemma SameAtGate(s: State, id: Id, r: Request, n: State)
    requires GateBooks(s) && id in s.reqs && Ticketed(s.reqs[id]) && !s.reqs[id].phase.Waiting?
    requires Ticketed(r) && !r.phase.Waiting?
    requires n.gate == s.gate && n.reqs == s.reqs[id := r]
    ensures GateBooks(n)
  {
    assert id in Those(s.reqs, Ticket) && id !in Those(s.reqs, Place);
    GateFollows(s, id, r, n);
  }

  /** A request that held no slot and owed no answer keeps the books by gaining exactly what it now holds. */
  lemma FreshTurn(cfg: Config, s: State, id: Id, t: Turn)
    requires SlotBooks(cfg, s) && id in s.reqs && s.reqs[id].phase.Admitted? && s.reqs[id].attempts == []
    requires Gained(cfg.backends, s.fleet, t)
    requires AllSound(cfg.backends, t.fleet, s.now) && RequestOk(cfg.backends, t.req)
    ensures TurnOk(cfg, s, id, t)
  {
    assert Owing(s.reqs[id].attempts) == {};
  }

  // --------------------------------------------------------- completing steps

  /** A request suspended on its upstream call holds one slot and owes one answer, at the same backend. */
  ghost predicate HoldsOnly(r: Request, b: nat, probe: bool, slot: bool, owes: bool) {
    && Slots(r) == (if slot then {b} else {})
    && Owing(r.attempts) == if owes then {(b, probe)} else {}
  }

  lemma CallHolds(cfg: Config, s: State, id: Id)
    requires SlotBooks(cfg, s) && DecisionBooks(cfg, s)
    requires id in s.reqs && s.reqs[id].phase.Calling? && RequestOk(cfg.backends, s.reqs[id])
    ensures var r := s.reqs[id];
            var a := Current(r);
            && Ready(cfg, s, id) && HoldsOnly(r, a.backend, a.isProbe, true, true)
            && Open(cfg.backends, s.fleet, a.backend, a.isProbe) > 0
  {
    var r := s.reqs[id];
    var a := Current(r);
    assert r.order[r.phase.pos] in r.order;
    OnlyLastIsOpen(r, r.phase.pos + 1);
    assert id in Those(s.reqs, OpenAt(a.backend, a.isProbe));
  }

  lemma AnswerEffect(bs: seq<Backend>, f: Fleet, a: Attempt, v: Verdict, now: int)
    requires AllSound(bs, f, now) && a.backend < |bs| && Open(bs, f, a.backend, a.isProbe) > 0
    ensures var g := Reported(f, a, v, now);
            && AllSound(bs, g, now)
            && Moved(bs, f, g, a.backend, a.isProbe, if v.Unresolved? then 0 else -1, 0)
  {
    match v
    case Failed => ReportEffect(bs, f, a.backend, CB.Failure(a.isProbe, now));
    case Succeeded => ReportEffect(bs, f, a.backend, CB.Success(a.isProbe, now));
    case Unresolved =>
  }

  lemma FreeEffect(bs: seq<Backend>, f: Fleet, g: Fleet, b: nat, probe: bool, answered: int, now: int)
    requires AllSound(bs, g, now) && Fits(bs, f) && b < |bs| && Moved(bs, f, g, b, probe, answered, 0)
    ensures AllSound(bs, FreeSlot(g, b), now) && Moved(bs, f, FreeSlot(g, b), b, probe, answered, -1)
  {
  }

  /** Giving back at one backend, then gaining what the request holds next. */
  lemma ExchangeTurn(cfg: Config, s: State, id: Id, f: Fleet, b: nat, probe: bool, t: Turn)
    requires SlotBooks(cfg, s) && id in s.reqs && b < |cfg.backends|
    requires HoldsOnly(s.reqs[id], b, probe, true, true)
    requires Fits(cfg.backends, f) && Moved(cfg.backends, s.fleet, f, b, probe, -1, -1)
    requires Gained(cfg.backends, f, t)
    requires AllSound(cfg.backends, t.fleet, s.now) && RequestOk(cfg.backends, t.req)
    ensures TurnOk(cfg, s, id, t)
  {
  }

  /** Giving back, at one backend, what the request no longer holds there. */
  lemma ReturnTurn(cfg: Config, s: State, id: Id, b: nat, probe: bool, slot: bool, owes: bool, t: Turn)
    requires SlotBooks(cfg, s) && id in s.reqs && b < |cfg.backends|
    requires HoldsOnly(s.reqs[id], b, probe, true, true) && HoldsOnly(t.req, b, probe, slot, owes)
    requires Fits(cfg.backends, t.fleet)
    requires Moved(cfg.backends, s.fleet, t.fleet, b, probe, if owes then 0 else -1, if slot then 0 else -1)
    requires AllSound(cfg.backends, t.fleet, s.now) && RequestOk(cfg.backends, t.req)
    ensures TurnOk(cfg, s, id, t)
  {
  }

  /** The request's own books once its attempt has been judged. */
  lemma JudgedAttempts(r: Request, outcome: Outcome, v: Verdict)
    requires PhaseOk(r) && r.phase.Calling?
    ensures var d := Judged(r, outcome, v);
            && AttemptsOk(d, r.phase.pos + 1) && AttemptsOk(d, |r.order|)
            && (forall i :: 0 <= i < |d.attempts| - 1 ==> d.attempts[i].fate == Told(Failed))
            && d.attempts != [] && d.attempts[|d.attempts| - 1].fate == Told(v)
  {
    var d := Judged(r, outcome, v);
    forall i | 0 <= i < |d.attempts|
      ensures d.attempts[i].backend == r.attempts[i].backend
      ensures d.attempts[i].backend in d.order[..r.phase.pos + 1] && d.attempts[i].backend in d.order[..|d.order|]
    {
      assert r.attempts[i].backend in r.order[..r.phase.pos + 1];
    }
  }

  ghost predicate Answerable(s: State, id: Id, outcome: Outcome) {
    && id in s.reqs && s.reqs[id].phase.Calling?
    && outcome.Streamed? == s.reqs[id].streaming
    && (outcome.Streamed? ==> Feasible(outcome.s))
  }

  /** Only a failure with nothing sent lets the walk go on. */
  lemma RetryRequest(bs: seq<Backend>, r: Request, outcome: Outcome, mayRetry: bool)
    requires RequestOk(bs, r) && r.phase.Calling? && Judge(outcome, mayRetry).next.TryNext?
    ensures Judge(outcome, mayRetry).verdict == Failed
    ensures BetweenAttempts(bs, Judged(r, outcome, Failed), r.phase.pos + 1)
  {
    JudgedAttempts(r, outcome, Failed);
  }

  lemma HangUpRequest(bs: seq<Backend>, r: Request, outcome: Outcome, mayRetry: bool)
    requires RequestOk(bs, r) && r.phase.Calling? && Judge(outcome, mayRetry).next.HangUp?
    ensures Judge(outcome, mayRetry).verdict == Unresolved
    ensures RequestOk(bs, Judged(r, outcome, Unresolved).(phase := Done))
  {
    JudgedAttempts(r, outcome, Unresolved);
    var d := Judged(r, outcome, Unresolved).(phase := Done);
    assert d.heads == [Sse] && d.heads[0] == Sse;
  }

  lemma HangUpHolds(r: Request, outcome: Outcome)
    requires PhaseOk(r) && r.phase.Calling?
    ensures var d, a := Judged(r, outcome, Unresolved).(phase := Done), Current(r);
            HoldsOnly(d, a.backend, a.isProbe, false, true)
  {
    JudgedAttempts(r, outcome, Unresolved);
    OnlyLastIsOpen(Judged(r, outcome, Unresolved).(phase := Done), |r.order|);
  }

  /** The request once its attempt has been judged and its response decided. */
  ghost function Replying(r: Request, outcome: Outcome, j: Judgement): Request
    requires r.attempts != []
  {
    Judged(r, outcome, j.verdict).(phase := Writing(j.next, SlotOf(Current(r).backend), true))
  }

  /** What a reply may follow on. */
  lemma ReplyFits(outcome: Outcome, mayRetry: bool)
    requires outcome.Streamed? ==> Feasible(outcome.s)
    requires var next := Judge(outcome, mayRetry).next; !next.TryNext? && !next.HangUp?
    ensures var j, sent := Judge(outcome, mayRetry), outcome.Streamed? && outcome.s.headerStarted;
            && j.verdict != Unresolved
            && (if j.next.Reply? then !sent
                else if j.next.SseEmpty? then !sent && outcome.Streamed? && outcome.s.downstreamDead
                else sent)
  {
  }

  lemma ReplyRequest(bs: seq<Backend>, r: Request, outcome: Outcome, mayRetry: bool)
    requires RequestOk(bs, r) && r.phase.Calling? && (outcome.Streamed? ==> Feasible(outcome.s))
    requires var next := Judge(outcome, mayRetry).next; !next.TryNext? && !next.HangUp?
    ensures var j := Judge(outcome, mayRetry);
            j.verdict != Unresolved && RequestOk(bs, Replying(r, outcome, j))
  {
    var j := Judge(outcome, mayRetry);
    ReplyFits(outcome, mayRetry);
    JudgedAttempts(r, outcome, j.verdict);
    assert Current(r).backend in r.order;
  }

  lemma ReplyHolds(r: Request, outcome: Outcome, j: Judgement)
    requires PhaseOk(r) && r.phase.Calling? && j.verdict != Unresolved
    ensures HoldsOnly(Replying(r, outcome, j), Current(r).backend, Current(r).isProbe, true, false)
  {
    JudgedAttempts(r, outcome, j.verdict);
    OnlyLastIsOpen(Replying(r, outcome, j), |r.order|);
  }

  /** A request suspended on its upstream call holds what its current attempt took. */
  ghost predicate Engaged(cfg: Config, s: State, id: Id) {
    && SlotBooks(cfg, s) && AllSound(cfg.backends, s.fleet, s.now) && Ready(cfg, s, id)
    && var a := Current(s.reqs[id]);
       && HoldsOnly(s.reqs[id], a.backend, a.isProbe, true, true)
       && Open(cfg.backends, s.fleet, a.backend, a.isProbe) > 0
  }

  /** The fleet once the current attempt has been reported failed and its slot given back. */
  ghost function GivenUp(s: State, id: Id): Fleet
    requires id in s.reqs && s.reqs[id].attempts != []
    requires Current(s.reqs[id]).backend < |s.fleet.calls| == |s.fleet.active|
  {
    var a := Current(s.reqs[id]);
    FreeSlot(Reported(s.fleet, a, Failed, s.now), a.backend)
  }

  /** The walk goes on: the attempt failed with nothing sent, its slot is free again. */
  lemma RetryTurn(cfg: Config, s: State, id: Id, d: Request) returns (t: Turn)
    requires Engaged(cfg, s, id) && d.order == s.reqs[id].order
    requires BetweenAttempts(cfg.backends, d, s.reqs[id].phase.pos + 1)
    ensures t == WalkOn(cfg, GivenUp(s, id), d, s.reqs[id].phase.pos + 1, s.now)
    ensures TurnOk(cfg, s, id, t) && Ticketed(t.req) && !t.req.phase.Done? && !t.req.phase.Waiting?
  {
    var a, next := Current(s.reqs[id]), s.reqs[id].phase.pos + 1;
    AnswerEffect(cfg.backends, s.fleet, a, Failed, s.now);
    var f := Reported(s.fleet, a, Failed, s.now);
    FreeEffect(cfg.backends, s.fleet, f, a.backend, a.isProbe, -1, s.now);
    var g := FreeSlot(f, a.backend);
    WalkTurn(cfg, g, d, next, s.now);
    t := WalkOn(cfg, g, d, next, s.now);
    ExchangeTurn(cfg, s, id, g, a.backend, a.isProbe, t);
  }

  /** The client is gone mid-stream: the slot is given back, the breaker is never told. */
  lemma HangUpTurn(cfg: Config, s: State, id: Id, d: Request) returns (t: Turn)
    requires Engaged(cfg, s, id) && RequestOk(cfg.backends, d)
    requires var a := Current(s.reqs[id]); HoldsOnly(d, a.backend, a.isProbe, false, true)
    ensures t == Turn(FreeSlot(s.fleet, Current(s.reqs[id]).backend), d)
    ensures TurnOk(cfg, s, id, t)
  {
    var a := Current(s.reqs[id]);
    FreeEffect(cfg.backends, s.fleet, s.fleet, a.backend, a.isProbe, 0, s.now);
    t := Turn(FreeSlot(s.fleet, a.backend), d);
    ReturnTurn(cfg, s, id, a.backend, a.isProbe, false, true, t);
  }

  /** The response is decided: the breaker has its answer, the slot is kept until the last write. */
  lemma ReplyTurn(cfg: Config, s: State, id: Id, d: Request, v: Verdict) returns (t: Turn)
    requires Engaged(cfg, s, id) && RequestOk(cfg.backends, d) && v != Unresolved
    requires var a := Current(s.reqs[id]); HoldsOnly(d, a.backend, a.isProbe, true, false)
    ensures t == Turn(Reported(s.fleet, Current(s.reqs[id]), v, s.now), d)
    ensures TurnOk(cfg, s, id, t)
  {
    var a := Current(s.reqs[id]);
    AnswerEffect(cfg.backends, s.fleet, a, v, s.now);
    t := Turn(Reported(s.fleet, a, v, s.now), d);
    ReturnTurn(cfg, s, id, a.backend, a.isProbe, true, false, t);
  }

  lemma CompletedByRetry(cfg: Config, s: State, id: Id, outcome: Outcome)
    requires Ready(cfg, s, id) && Ruling(s, id, outcome).next.TryNext?
    ensures Completed(cfg, s, id, outcome) ==
            WalkOn(cfg, GivenUp(s, id), Judged(s.reqs[id], outcome, Failed), s.reqs[id].phase.pos + 1, s.now)
  {
  }

  lemma RetryCompletes(cfg: Config, s: State, id: Id, outcome: Outcome) returns (t: Turn)
    requires Engaged(cfg, s, id) && RequestOk(cfg.backends, s.reqs[id]) && Ruling(s, id, outcome).next.TryNext?
    ensures t == Completed(cfg, s, id, outcome) && TurnOk(cfg, s, id, t)
    ensures Ticketed(t.req) && !t.req.phase.Done? && !t.req.phase.Waiting?
  {
    RetryRequest(cfg.backends, s.reqs[id], outcome, MayRetry(s.reqs[id]));
    t := RetryTurn(cfg, s, id, Judged(s.reqs[id], outcome, Failed));
    CompletedByRetry(cfg, s, id, outcome);
  }

  lemma CompletedByHangUp(cfg: Config, s: State, id: Id, outcome: Outcome)
    requires Ready(cfg, s, id) && Ruling(s, id, outcome).next.HangUp?
    ensures Completed(cfg, s, id, outcome) ==
            Turn(FreeSlot(s.fleet, Current(s.reqs[id]).backend), Judged(s.reqs[id], outcome, Unresolved).(phase := Done))
  {
  }

  lemma HangUpCompletes(cfg: Config, s: State, id: Id, outcome: Outcome) returns (t: Turn)
    requires Engaged(cfg, s, id) && RequestOk(cfg.backends, s.reqs[id]) && Ruling(s, id, outcome).next.HangUp?
    ensures t == Completed(cfg, s, id, outcome) && TurnOk(cfg, s, id, t) && t.req.phase.Done?
  {
    HangUpRequest(cfg.backends, s.reqs[id], outcome, MayRetry(s.reqs[id]));
    HangUpHolds(s.reqs[id], outcome);
    t := HangUpTurn(cfg, s, id, Judged(s.reqs[id], outcome, Unresolved).(phase := Done));
    CompletedByHangUp(cfg, s, id, outcome);
  }

  lemma CompletedByReply(cfg: Config, s: State, id: Id, outcome: Outcome)
    requires Ready(cfg, s, id)
    requires var next := Ruling(s, id, outcome).next; !next.TryNext? && !next.HangUp?
    ensures var r, j := s.reqs[id], Ruling(s, id, outcome);
            Completed(cfg, s, id, outcome) == Turn(Reported(s.fleet, Current(r), j.verdict, s.now), Replying(r, outcome, j))
  {
  }

  lemma ReplyCompletes(cfg: Config, s: State, id: Id, outcome: Outcome) returns (t: Turn)
    requires Engaged(cfg, s, id) && RequestOk(cfg.backends, s.reqs[id]) && (outcome.Streamed? ==> Feasible(outcome.s))
    requires var next := Ruling(s, id, outcome).next; !next.TryNext? && !next.HangUp?
    ensures t == Completed(cfg, s, id, outcome) && TurnOk(cfg, s, id, t)
    ensures Ticketed(t.req) && !t.req.phase.Done? && !t.req.phase.Waiting?
  {
    var r, j := s.reqs[id], Ruling(s, id, outcome);
    ReplyRequest(cfg.backends, r, outcome, MayRetry(r));
    ReplyHolds(r, outcome, j);
    t := ReplyTurn(cfg, s, id, Replying(r, outcome, j), j.verdict);
    CompletedByReply(cfg, s, id, outcome);
  }

  /** However the attempt ended, the request's next state keeps its books. */
  lemma CompleteTurn(cfg: Config, s: State, id: Id, outcome: Outcome) returns (t: Turn)
    requires Engaged(cfg, s, id) && RequestOk(cfg.backends, s.reqs[id]) && (outcome.Streamed? ==> Feasible(outcome.s))
    ensures t == Completed(cfg, s, id, outcome) && TurnOk(cfg, s, id, t)
    ensures Ruling(s, id, outcome).next.HangUp? ==> t.req.phase.Done?
    ensures !Ruling(s, id, outcome).next.HangUp? ==> Ticketed(t.req) && !t.req.phase.Done? && !t.req.phase.Waiting?
  {
    match Ruling(s, id, outcome).next
    case TryNext => t := RetryCompletes(cfg, s, id, outcome);
    case HangUp => t := HangUpCompletes(cfg, s, id, outcome);
    case _ => t := ReplyCompletes(cfg, s, id, outcome);
  }

  lemma CompletesAtGate(cfg: Config, s: State, id: Id, outcome: Outcome)
    requires GateBooks(s) && Ready(cfg, s, id)
    requires var r := Completed(cfg, s, id, outcome).req;
             if Ruling(s, id, outcome).next.HangUp? then r.phase.Done? else Ticketed(r) && !r.phase.Waiting?
    ensures GateBooks(Completing(cfg, s, id, outcome))
  {
    var n, r := Completing(cfg, s, id, outcome), Completed(cfg, s, id, outcome).req;
    if Ruling(s, id, outcome).next.HangUp? {
      LeavesGate(cfg, s, id, r, n);
    } else {
      SameAtGate(s, id, r, n);
    }
  }

  lemma CompleteKeeps(cfg: Config, s: State, id: Id, outcome: Outcome)
    requires GateBooks(s) && FleetBooks(cfg, s) && Answerable(s, id, outcome) && Ready(cfg, s, id)
    ensures var n := Completing(cfg, s, id, outcome);
            GateBooks(n) && FleetBooks(cfg, n)
  {
    assert RequestOk(cfg.backends, s.reqs[id]);
    CallHolds(cfg, s, id);
    var t := CompleteTurn(cfg, s, id, outcome);
    CompletesAtGate(cfg, s, id, outcome);
    PutKeeps(cfg, s, id, t, Completing(cfg, s, id, outcome));
  }

  // ---------------------------------------------------------- finishing steps

  lemma EndedRequest(bs: seq<Backend>, r: Request, headSent: bool, ok: bool)
    requires RequestOk(bs, r) && r.phase.Writing? && (ok ==> headSent)
    ensures RequestOk(bs, Ended(r, headSent, ok)) && Owing(r.attempts) == {}
  {
    var n := Ended(r, headSent, ok);
    if r.phase.next.Reply? {
      assert n.heads == if headSent then [Json] else [];
    } else if r.phase.next.SseEmpty? {
      assert n.heads == if headSent then [Sse] else [];
    } else {
      assert n.heads == [Sse];
    }
    assert n.heads != [] ==> n.heads[0] == if r.phase.next.Reply? then Json else Sse;
  }

  lemma FinishTurn(cfg: Config, s: State, id: Id, headSent: bool, ok: bool)
    requires FleetBooks(cfg, s) && Closing(s, id) && (ok ==> headSent)
    ensures TurnOk(cfg, s, id, Finished(s, id, headSent, ok))
  {
    var r, t := s.reqs[id], Finished(s, id, headSent, ok);
    assert RequestOk(cfg.backends, r);
    EndedRequest(cfg.backends, r, headSent, ok);
  }

  lemma FinishKeeps(cfg: Config, s: State, id: Id, headSent: bool, ok: bool)
    requires GateBooks(s) && FleetBooks(cfg, s) && Closing(s, id) && (ok ==> headSent)
    ensures var n := Finishing(cfg, s, id, headSent, ok);
            GateBooks(n) && FleetBooks(cfg, n)
  {
    var n, t := Finishing(cfg, s, id, headSent, ok), Finished(s, id, headSent, ok);
    FinishTurn(cfg, s, id, headSent, ok);
    if s.reqs[id].phase.ticket {
      LeavesGate(cfg, s, id, t.req, n);
    } else {
      assert id !in Those(s.reqs, Ticket) && id !in Those(s.reqs, Place);
      GateFollows(s, id, t.req, n);
    }
    PutKeeps(cfg, s, id, t, n);
  }

  // ------------------------------------------------------------------- runs

  lemma InvIsSteady(cfg: Config, s: State)
    requires GateBooks(s) && SlotBooks(cfg, s) && RequestsOk(cfg, s)
    ensures Steady(cfg, s)
  {
    forall id | id in s.reqs ensures s.reqs[id].phase.Calling? ==> Ready(cfg, s, id) {
      var r := s.reqs[id];
      assert RequestOk(cfg.backends, r);
      if r.phase.Calling? {
        assert r.order[r.phase.pos] in r.order;
      }
    }
    forall id | id in s.reqs ensures s.reqs[id].phase.Writing? ==> Closing(s, id) {
      assert RequestOk(cfg.backends, s.reqs[id]);
    }
  }

  /** The books do not look at timers or at the drain flag. */
  lemma SameBooks(cfg: Config, s: State, n: State)
    requires GateBooks(s) && FleetBooks(cfg, s)
    requires n.fleet == s.fleet && n.reqs == s.reqs && n.handlers == s.handlers && n.now == s.now
    requires n.gate.core == s.gate.core && n.gate.holders == s.gate.holders && n.gate.arrived == s.gate.arrived
    ensures GateBooks(n) && FleetBooks(cfg, n)
  {
  }

  lemma TickKeeps(cfg: Config, s: State, now: int)
    requires FleetBooks(cfg, s) && s.now <= now
    ensures FleetBooks(cfg, s.(now := now))
  {
  }

  lemma RequestStepKeeps(cfg: Config, s: State, e: Event)
    requires Gate.FirstComeFirstServed(s.gate) && GateBooks(s) && FleetBooks(cfg, s)
    requires Steady(cfg, s) && Enabled(cfg, s, e)
    requires e.Begin? || e.Complete? || e.Finish?
    ensures GateBooks(Step(cfg, s, e)) && FleetBooks(cfg, Step(cfg, s, e))
  {
    match e
    case Begin(id, healthy, order) =>
      BeginsWalk(cfg, s, id, healthy, order);
      BeginsAtGate(cfg, s, id, healthy, order);
    case Complete(id, outcome) => CompleteKeeps(cfg, s, id, outcome);
    case Finish(id, headSent, ok) => FinishKeeps(cfg, s, id, headSent, ok);
  }

  lemma WakesWaiting(s: State, id: Id)
    requires GateBooks(s) && Gate.Enabled(s.gate, Gate.Wake(id))
    ensures id in s.reqs && s.reqs[id].phase.Waiting?
  {
    assert id in Gate.Seated(s.gate.core);
    assert id in Those(s.reqs, Place);
  }

  /** Steps that concern no request's progress. */
  lemma QuietStepKeeps(cfg: Config, s: State, e: Event)
    requires GateBooks(s) && FleetBooks(cfg, s) && Steady(cfg, s) && Enabled(cfg, s, e)
    requires e.Expire? || e.BeginDrain? || e.Tick?
    ensures GateBooks(Step(cfg, s, e)) && FleetBooks(cfg, Step(cfg, s, e))
  {
    if e.Tick? {
      TickKeeps(cfg, s, e.now);
    } else {
      SameBooks(cfg, s, Step(cfg, s, e));
    }
  }

  lemma AdmissionStepKeeps(cfg: Config, s: State, e: Event)
    requires Gate.FirstComeFirstServed(s.gate) && GateBooks(s) && FleetBooks(cfg, s)
    requires Steady(cfg, s) && Enabled(cfg, s, e)
    requires !e.Begin? && !e.Complete? && !e.Finish?
    ensures GateBooks(Step(cfg, s, e)) && FleetBooks(cfg, Step(cfg, s, e))
  {
    match e
    case Arrive(id, model, streaming) =>
      if !s.draining {
        ArriveKeeps(cfg, s, id, model, streaming);
      }
    case Wake(id) =>
      WakesWaiting(s, id);
      WakeKeeps(cfg, s, id);
    case _ => QuietStepKeeps(cfg, s, e);
  }

  // ----------------------------------------------------------- reported verdicts

  /** How many of the request's attempts ended with this verdict at this backend. */
  ghost function Tally(r: Request, b: nat, v: Verdict): int {
    Bit((0, b, v) in Verdicts(r.attempts)) + Bit((1, b, v) in Verdicts(r.attempts))
  }

  ghost predicate VerdictsMatch(cfg: Config, s: State, id: Id, t: Turn) {
    && Fits(cfg.backends, s.fleet) && Fits(cfg.backends, t.fleet)
    && forall b, v :: 0 <= b < |cfg.backends| ==>
         Answers(t.fleet.calls[b], v) ==
         Answers(s.fleet.calls[b], v) + Tally(t.req, b, v) - if id in s.reqs then Tally(s.reqs[id], b, v) else 0
  }

  lemma TellingsUpdate(reqs: map<Id, Request>, id: Id, r: Request, b: nat, v: Verdict)
    ensures Tellings(reqs[id := r], b, v) ==
            Tellings(reqs, b, v) + Tally(r, b, v) - if id in reqs then Tally(reqs[id], b, v) else 0
  {
    ThoseUpdate(reqs, id, r, ToldAt(0, b, v));
    ThoseUpdate(reqs, id, r, ToldAt(1, b, v));
  }

  lemma VerdictsFollow(cfg: Config, s: State, id: Id, t: Turn, n: State)
    requires VerdictBooks(cfg, s) && VerdictsMatch(cfg, s, id, t)
    requires n.fleet == t.fleet && n.reqs == s.reqs[id := t.req]
    ensures VerdictBooks(cfg, n)
  {
    forall b, v | 0 <= b < |cfg.backends| ensures Answers(n.fleet.calls[b], v) == Tellings(n.reqs, b, v) {
      TellingsUpdate(s.reqs, id, t.req, b, v);
    }
  }

  /** A step that reports nothing and ends no attempt. */
  lemma SameVerdicts(cfg: Config, s: State, id: Id, t: Turn, n: State)
    requires VerdictBooks(cfg, s) && Fits(cfg.backends, t.fleet) && SameAnswers(s.fleet, t.fleet)
    requires Verdicts(t.req.attempts) == if id in s.reqs then Verdicts(s.reqs[id].attempts) else {}
    requires n.fleet == t.fleet && n.reqs == s.reqs[id := t.req]
    ensures VerdictBooks(cfg, n)
  {
    VerdictsFollow(cfg, s, id, t, n);
  }

  lemma PendingHasNoVerdict(attempts: seq<Attempt>, a: Attempt)
    requires IsOpen(a)
    ensures Verdicts(attempts + [a]) == Verdicts(attempts)
  {
    var n := attempts + [a];
    forall p | p in Verdicts(attempts) ensures p in Verdicts(n) {
      var i :| 0 <= i < |attempts| && !IsOpen(attempts[i]) && p == (i, attempts[i].backend, attempts[i].fate.verdict);
      assert n[i] == attempts[i];
    }
  }

  /** Walking reports nothing, and a fresh attempt has no verdict yet. */
  lemma WalkVerdicts(cfg: Config, f: Fleet, r: Request, pos: nat, now: int)
    requires Fits(cfg.backends, f) && InRange(cfg.backends, r.order)
    ensures var t := WalkOn(cfg, f, r, pos, now);
            Fits(cfg.backends, t.fleet) && SameAnswers(f, t.fleet) && Verdicts(t.req.attempts) == Verdicts(r.attempts)
  {
    var p := Walk(cfg.backends, f, r.order, pos, |r.attempts|, now);
    WalkAnswersNobody(cfg.backends, f, r.order, pos, |r.attempts|, now);
    WalkFits(cfg.backends, f, r.order, pos, |r.attempts|, now);
    match p.stop {
      case Exhausted =>
      case Dispatched(at, isProbe) =>
        if at < |r.order| {
          PendingHasNoVerdict(r.attempts, Attempt(r.order[at], isProbe, Pending, false));
        }
    }
  }

  lemma {:induction false} WalkFits(bs: seq<Backend>, f: Fleet, order: seq<nat>, pos: nat, attempts: nat, now: int)
    requires Fits(bs, f) && InRange(bs, order)
    ensures Fits(bs, Walk(bs, f, order, pos, attempts, now).fleet)
    decreases |order| - pos
  {
    if pos < |order| && attempts < MaxAttempts {
      var b := order[pos];
      assert b in order;
      var dec, g := Decision(bs, f, b, now), Report(f, b, CB.Allow(now));
      WalkFits(bs, g, order, pos + 1, attempts, now);
      WalkFits(bs, Report(g, b, CB.Abort(dec.isProbe, now)), order, pos + 1, attempts, now);
    }
  }

  /** Judging the current attempt adds its verdict; it had none. */
  lemma JudgedVerdicts(r: Request, outcome: Outcome, v: Verdict)
    requires PhaseOk(r) && r.phase.Calling?
    ensures var n, b := |r.attempts| - 1, Current(r).backend;
            && (forall c, w :: (n, c, w) !in Verdicts(r.attempts))
            && Verdicts(Judged(r, outcome, v).attempts) == Verdicts(r.attempts) + if v.Unresolved? then {} else {(n, b, v)}
  {
    var d, n, b := Judged(r, outcome, v), |r.attempts| - 1, Current(r).backend;
    forall p ensures p in Verdicts(d.attempts) <==> p in Verdicts(r.attempts) || (!v.Unresolved? && p == (n, b, v)) {
      if p in Verdicts(r.attempts) {
        var i :| 0 <= i < |r.attempts| && !IsOpen(r.attempts[i]) && p == (i, r.attempts[i].backend, r.attempts[i].fate.verdict);
        assert i != n && d.attempts[i] == r.attempts[i];
      }
      if !v.Unresolved? && p == (n, b, v) {
        assert !IsOpen(d.attempts[n]);
      }
      if p in Verdicts(d.attempts) {
        var i :| 0 <= i < |d.attempts| && !IsOpen(d.attempts[i]) && p == (i, d.attempts[i].backend, d.attempts[i].fate.verdict);
        assert i != n ==> d.attempts[i] == r.attempts[i];
      }
    }
  }

  lemma ReportedAnswers(f: Fleet, a: Attempt, v: Verdict, now: int, d: nat, w: Verdict)
    requires a.backend < |f.calls| && d < |f.calls|
    ensures Answers(Reported(f, a, v, now).calls[d], w) ==
            Answers(f.calls[d], w) + Bit(d == a.backend && w == v && !v.Unresolved?)
  {
    match v
    case Failed => ReportAnswers(f, a.backend, CB.Failure(a.isProbe, now), d, w);
    case Succeeded => ReportAnswers(f, a.backend, CB.Success(a.isProbe, now), d, w);
    case Unresolved =>
  }

  /** After the report, completing an attempt tells the breakers nothing more. */
  lemma NothingMoreReported(cfg: Config, s: State, id: Id, outcome: Outcome) returns (f: Fleet, t: Turn)
    requires Ready(cfg, s, id)
    ensures f == Reported(s.fleet, Current(s.reqs[id]), Ruling(s, id, outcome).verdict, s.now)
    ensures t == Completed(cfg, s, id, outcome)
    ensures Fits(cfg.backends, t.fleet) && SameAnswers(f, t.fleet)
    ensures Verdicts(t.req.attempts) == Verdicts(Judged(s.reqs[id], outcome, Ruling(s, id, outcome).verdict).attempts)
  {
    var r, j := s.reqs[id], Ruling(s, id, outcome);
    f, t := Reported(s.fleet, Current(r), j.verdict, s.now), Completed(cfg, s, id, outcome);
    var d := Judged(r, outcome, j.verdict);
    if j.next.TryNext? {
      CompletedByRetry(cfg, s, id, outcome);
      WalkVerdicts(cfg, FreeSlot(f, Current(r).backend), d, r.phase.pos + 1, s.now);
    } else if j.next.HangUp? {
      CompletedByHangUp(cfg, s, id, outcome);
    } else {
      CompletedByReply(cfg, s, id, outcome);
    }
  }

  /** Completing an attempt reports exactly the verdict it ended with. */
  lemma CompleteVerdicts(cfg: Config, s: State, id: Id, outcome: Outcome) returns (t: Turn)
    requires Ready(cfg, s, id) && PhaseOk(s.reqs[id])
    ensures t == Completed(cfg, s, id, outcome) && VerdictsMatch(cfg, s, id, t)
  {
    var r, v := s.reqs[id], Ruling(s, id, outcome).verdict;
    var f;
    f, t := NothingMoreReported(cfg, s, id, outcome);
    JudgedVerdicts(r, outcome, v);
    forall b, w | 0 <= b < |cfg.backends|
      ensures Answers(t.fleet.calls[b], w) ==
              Answers(s.fleet.calls[b], w) + Tally(t.req, b, w) - Tally(s.reqs[id], b, w)
    {
      ReportedAnswers(s.fleet, Current(r), v, s.now, b, w);
    }
  }

  lemma CompletingVerdicts(cfg: Config, s: State, id: Id, outcome: Outcome)
    requires VerdictBooks(cfg, s) && Ready(cfg, s, id) && PhaseOk(s.reqs[id])
    ensures VerdictBooks(cfg, Completing(cfg, s, id, outcome))
  {
    var t := CompleteVerdicts(cfg, s, id, outcome);
    VerdictsFollow(cfg, s, id, t, Completing(cfg, s, id, outcome));
  }

  lemma BeginVerdicts(cfg: Config, s: State, id: Id, healthy: set<nat>, order: seq<nat>)
    requires VerdictBooks(cfg, s) && id in s.reqs && InRange(cfg.backends, order)
    ensures VerdictBooks(cfg, Beginning(cfg, s, id, healthy, order))
  {
    var n := Beginning(cfg, s, id, healthy, order);
    if order != [] {
      WalkVerdicts(cfg, s.fleet, s.reqs[id].(healthy := healthy, order := order), 0, s.now);
    }
    SameVerdicts(cfg, s, id, Turn(n.fleet, n.reqs[id]), n);
  }

  /** Steps that walk nowhere and end no attempt. */
  lemma QuietVerdicts(cfg: Config, s: State, e: Event)
    requires VerdictBooks(cfg, s) && Steady(cfg, s) && Enabled(cfg, s, e) && !e.Begin? && !e.Complete?
    ensures VerdictBooks(cfg, Step(cfg, s, e))
  {
    var n := Step(cfg, s, e);
    match e
    case Arrive(id, model, streaming) =>
      if !s.draining {
        assert Verdicts(n.reqs[id].attempts) == {};
        SameVerdicts(cfg, s, id, Turn(s.fleet, n.reqs[id]), n);
      }
    case Wake(id) => SameVerdicts(cfg, s, id, Turn(s.fleet, n.reqs[id]), n);
    case Finish(id, headSent, ok) => SameVerdicts(cfg, s, id, Turn(n.fleet, n.reqs[id]), n);
    case _ =>
  }

  lemma StepVerdicts(cfg: Config, s: State, e: Event)
    requires VerdictBooks(cfg, s) && RequestsOk(cfg, s) && Steady(cfg, s) && Enabled(cfg, s, e)
    ensures VerdictBooks(cfg, Step(cfg, s, e))
  {
    match e
    case Begin(id, healthy, order) => BeginVerdicts(cfg, s, id, healthy, order);
    case Complete(id, outcome) =>
      assert RequestOk(cfg.backends, s.reqs[id]);
      CompletingVerdicts(cfg, s, id, outcome);
    case _ => QuietVerdicts(cfg, s, e);
  }

  // ------------------------------------------------------------ the gate's view

  /** What a step does at the admission gate: nothing, or one of its events. */
  ghost function AtGate(cfg: Config, s: State, e: Event): seq<Gate.Event<Id>>
    requires Steady(cfg, s) && Enabled(cfg, s, e)
  {
    match e
    case Arrive(id, model, _) => if !s.draining && Served(cfg.backends, model) then [Gate.Arrive(id)] else []
    case Expire(id) => [Gate.Expire(id)]
    case Wake(id) => [Gate.Wake(id)]
    case Finish(id, _, _) => if s.reqs[id].phase.ticket then [Gate.Leave(id)] else []
    case Complete(id, outcome) => if Ruling(s, id, outcome).next.HangUp? then [Gate.Leave(id)] else []
    case _ => []
  }

  /** Every step of the gateway is a legal step of the gate. */
  lemma GateStep(cfg: Config, s: State, e: Event)
    requires GateBooks(s) && Steady(cfg, s) && Enabled(cfg, s, e)
    ensures Gate.ValidRun(cfg.gate, s.gate, AtGate(cfg, s, e))
    ensures Step(cfg, s, e).gate == Gate.Run(cfg.gate, s.gate, AtGate(cfg, s, e))
  {
    var ges := AtGate(cfg, s, e);
    if ges != [] {
      assert ges[1..] == [];
      match e
      case Arrive(id, _, _) => assert id !in s.gate.arrived;
      case Finish(id, _, _) => assert id in Those(s.reqs, Ticket);
      case Complete(id, _) => assert id in Those(s.reqs, Ticket);
      case _ =>
    }
  }

  lemma StepKeeps(cfg: Config, s: State, e: Event)
    requires Inv(cfg, s) && Enabled(cfg, s, e)
    ensures Steady(cfg, s) && Inv(cfg, Step(cfg, s, e))
  {
    InvIsSteady(cfg, s);
    GateStep(cfg, s, e);
    Gate.EveryRunKeeps(cfg.gate, s.gate, AtGate(cfg, s, e));
    StepVerdicts(cfg, s, e);
    if e.Begin? || e.Complete? || e.Finish? {
      RequestStepKeeps(cfg, s, e);
    } else {
      AdmissionStepKeeps(cfg, s, e);
    }
  }

  lemma NobodyYet(c: Share)
    ensures Those(map[], c) == {}
  {
  }

  lemma InitialFleet(cfg: Config)
    ensures FleetBooks(cfg, Initial(cfg)) && VerdictBooks(cfg, Initial(cfg))
  {
    forall c { NobodyYet(c); }
  }

  lemma InitialInv(cfg: Config)
    ensures Inv(cfg, Initial(cfg))
  {
    InitialFleet(cfg);
    NobodyYet(Ticket);
    NobodyYet(Place);
  }

  /** The books balance in every reachable state, whatever the interleaving, and any enabled step can follow. */
  lemma {:induction false} EveryRunKeeps(cfg: Config, s: State, es: seq<Event>)
    requires Inv(cfg, s) && ValidRun(cfg, s, es)
    ensures Inv(cfg, Run(cfg, s, es)) && Steady(cfg, Run(cfg, s, es))
    decreases |es|
  {
    if es == [] {
      InvIsSteady(cfg, s);
    } else {
      StepKeeps(cfg, s, es[0]);
      EveryRunKeeps(cfg, Step(cfg, s, es[0]), es[1..]);
    }
  }
}

/**
 What a run of the gateway makes of its breakers. A breaker decision is answered
 when its attempt completes, except that nobody answers when the client dies after
 the event stream header. The theorems count those completions, and say what they
 leave behind: a lost probe shuts its backend for good.
 */
module BreakerFates {
  import opened Failover
  import opened FailoverWalk
  import opened GatewayProtocol
  import opened GatewayInvariant
  import opened GatewayTheorems
  import CB = CircuitBreaker
  import Gate = AdmissionGate

  // ------------------------------------------------- decisions nobody answers

  /** The client died after the event stream header was written to it. */
  predicate LostMidStream(o: Outcome) {
    o.Streamed? && o.s.headerStarted && o.s.downstreamDead
  }

  /** The event completes a call at this backend, admitted with this flag. */
  ghost predicate CompletesAt(s: State, e: Event, b: nat, probe: bool) {
    e.Complete? && e.id in s.reqs && CallsAt(s.reqs[e.id], b, probe)
  }

  ghost predicate Abandons(s: State, e: Event, b: nat, probe: bool) {
    CompletesAt(s, e, b, probe) && LostMidStream(e.outcome)
  }

  /** How many completions of a run, at this backend and with this flag, lost their client mid-stream. */
  ghost function Abandoned(cfg: Config, s: State, es: seq<Event>, b: nat, probe: bool): nat
    requires ValidRun(cfg, s, es)
    decreases |es|
  {
    if es == [] then 0
    else Abandoned(cfg, Step(cfg, s, es[0]), es[1..], b, probe) + if Abandons(s, es[0], b, probe) then 1 else 0
  }

  ghost predicate NoneAbandoned(cfg: Config, s: State, es: seq<Event>, b: nat, probe: bool)
    requires ValidRun(cfg, s, es)
    decreases |es|
  {
    es != [] ==> !Abandons(s, es[0], b, probe) && NoneAbandoned(cfg, Step(cfg, s, es[0]), es[1..], b, probe)
  }

  lemma {:induction false} NoneIsZero(cfg: Config, s: State, es: seq<Event>, b: nat, probe: bool)
    requires ValidRun(cfg, s, es)
    ensures NoneAbandoned(cfg, s, es, b, probe) <==> Abandoned(cfg, s, es, b, probe) == 0
    decreases |es|
  {
    if es != [] {
      NoneIsZero(cfg, Step(cfg, s, es[0]), es[1..], b, probe);
    }
  }

  /** Judging the current attempt loses its decision or nothing. */
  lemma JudgedLost(r: Request, outcome: Outcome, v: Verdict)
    requires PhaseOk(r) && r.phase.Calling?
    ensures Lost(r.attempts) == {}
    ensures Lost(Judged(r, outcome, v).attempts) == if v.Unresolved? then {(Current(r).backend, Current(r).isProbe)} else {}
  {
    var d, n := Judged(r, outcome, v), |r.attempts| - 1;
    assert forall i :: 0 <= i < n ==> d.attempts[i] == r.attempts[i];
    assert d.attempts[n].fate == Told(v);
  }

  lemma PendingIsNotLost(attempts: seq<Attempt>, a: Attempt)
    requires a.fate == Pending
    ensures Lost(attempts + [a]) == Lost(attempts)
  {
    assert forall i :: 0 <= i < |attempts| ==> (attempts + [a])[i] == attempts[i];
    assert Lost(attempts) <= Lost(attempts + [a]);
  }

  lemma WalkLosesNothing(cfg: Config, f: Fleet, r: Request, pos: nat, now: int)
    requires Fits(cfg.backends, f) && InRange(cfg.backends, r.order)
    ensures Lost(WalkOn(cfg, f, r, pos, now).req.attempts) == Lost(r.attempts)
  {
    var p := Walk(cfg.backends, f, r.order, pos, |r.attempts|, now);
    match p.stop {
      case Exhausted =>
      case Dispatched(at, isProbe) =>
        if at < |r.order| {
          PendingIsNotLost(r.attempts, Attempt(r.order[at], isProbe, Pending, false));
        }
    }
  }

  /** What comes after the judgement loses nothing more. */
  lemma CompletedLoses(cfg: Config, s: State, id: Id, outcome: Outcome)
    requires Ready(cfg, s, id)
    ensures Lost(Completed(cfg, s, id, outcome).req.attempts) ==
            Lost(Judged(s.reqs[id], outcome, Ruling(s, id, outcome).verdict).attempts)
  {
    var r, j := s.reqs[id], Ruling(s, id, outcome);
    if j.next.TryNext? {
      CompletedByRetry(cfg, s, id, outcome);
      WalkLosesNothing(cfg, GivenUp(s, id), Judged(r, outcome, j.verdict), r.phase.pos + 1, s.now);
    } else if j.next.HangUp? {
      CompletedByHangUp(cfg, s, id, outcome);
    } else {
      CompletedByReply(cfg, s, id, outcome);
    }
  }

  lemma CompleteLoses(cfg: Config, s: State, id: Id, outcome: Outcome)
    requires Ready(cfg, s, id) && PhaseOk(s.reqs[id])
    ensures Lost(s.reqs[id].attempts) == {}
    ensures var a := Current(s.reqs[id]);
            Lost(Completed(cfg, s, id, outcome).req.attempts) == if LostMidStream(outcome) then {(a.backend, a.isProbe)} else {}
  {
    var j := Ruling(s, id, outcome);
    assert j.verdict.Unresolved? <==> LostMidStream(outcome);
    JudgedLost(s.reqs[id], outcome, j.verdict);
    CompletedLoses(cfg, s, id, outcome);
  }

  lemma BeginLoses(cfg: Config, s: State, id: Id, healthy: set<nat>, order: seq<nat>)
    requires id in s.reqs && Fits(cfg.backends, s.fleet) && InRange(cfg.backends, order)
    ensures id in Beginning(cfg, s, id, healthy, order).reqs
    ensures Lost(Beginning(cfg, s, id, healthy, order).reqs[id].attempts) == Lost(s.reqs[id].attempts)
  {
    if order != [] {
      WalkLosesNothing(cfg, s.fleet, s.reqs[id].(healthy := healthy, order := order), 0, s.now);
    }
  }

  /** A step that changes one request changes the lost decisions by that request's. */
  lemma TurnLoses(s: State, id: Id, r: Request, n: State, b: nat, probe: bool)
    requires n.reqs == s.reqs[id := r]
    requires id in s.reqs ==> Lost(s.reqs[id].attempts) <= Lost(r.attempts)
    ensures |Those(n.reqs, LostAt(b, probe))| == |Those(s.reqs, LostAt(b, probe))| +
              Bit((b, probe) in Lost(r.attempts) && (id in s.reqs ==> (b, probe) !in Lost(s.reqs[id].attempts)))
  {
    ThoseUpdate(s.reqs, id, r, LostAt(b, probe));
  }

  lemma CompletingLoses(cfg: Config, s: State, id: Id, outcome: Outcome, b: nat, probe: bool)
    requires Ready(cfg, s, id) && PhaseOk(s.reqs[id])
    ensures |Those(Completing(cfg, s, id, outcome).reqs, LostAt(b, probe))| ==
            |Those(s.reqs, LostAt(b, probe))| + Bit(Abandons(s, Complete(id, outcome), b, probe))
  {
    CompleteLoses(cfg, s, id, outcome);
    TurnLoses(s, id, Completed(cfg, s, id, outcome).req, Completing(cfg, s, id, outcome), b, probe);
  }

  lemma StepLoses(cfg: Config, s: State, e: Event, b: nat, probe: bool)
    requires RequestsOk(cfg, s) && Steady(cfg, s) && Enabled(cfg, s, e)
    ensures |Those(Step(cfg, s, e).reqs, LostAt(b, probe))| ==
            |Those(s.reqs, LostAt(b, probe))| + Bit(Abandons(s, e, b, probe))
  {
    var n := Step(cfg, s, e);
    match e
    case Arrive(id, _, _) =>
      if !s.draining {
        TurnLoses(s, id, n.reqs[id], n, b, probe);
      }
    case Wake(id) => TurnLoses(s, id, n.reqs[id], n, b, probe);
    case Begin(id, healthy, order) =>
      BeginLoses(cfg, s, id, healthy, order);
      TurnLoses(s, id, n.reqs[id], n, b, probe);
    case Complete(id, outcome) =>
      assert RequestOk(cfg.backends, s.reqs[id]);
      CompletingLoses(cfg, s, id, outcome, b, probe);
    case Finish(id, _, _) => TurnLoses(s, id, n.reqs[id], n, b, probe);
    case _ =>
  }

  lemma {:induction false} RunLoses(cfg: Config, s: State, es: seq<Event>, b: nat, probe: bool)
    requires Inv(cfg, s) && ValidRun(cfg, s, es)
    ensures |Those(Run(cfg, s, es).reqs, LostAt(b, probe))| ==
            |Those(s.reqs, LostAt(b, probe))| + Abandoned(cfg, s, es, b, probe)
    decreases |es|
  {
    if es != [] {
      StepLoses(cfg, s, es[0], b, probe);
      StepKeeps(cfg, s, es[0]);
      RunLoses(cfg, Step(cfg, s, es[0]), es[1..], b, probe);
    }
  }

  /** A request owes an answer for a call under way or for a client lost mid-stream, never both. */
  lemma OwesOneWay(r: Request, b: nat, probe: bool)
    requires PhaseOk(r)
    ensures Has(r, OpenAt(b, probe)) <==> Has(r, CallAt(b, probe)) || Has(r, LostAt(b, probe))
    ensures !(Has(r, CallAt(b, probe)) && Has(r, LostAt(b, probe)))
  {
    if r.phase.Calling? {
      OnlyLastIsOpen(r, r.phase.pos + 1);
      JudgedLost(r, Unary(UnaryOutcome(false, 0)), Failed);
    }
  }

  lemma OpenSplits(cfg: Config, s: State, b: nat, probe: bool)
    requires RequestsOk(cfg, s)
    ensures |Those(s.reqs, OpenAt(b, probe))| == |Those(s.reqs, CallAt(b, probe))| + |Those(s.reqs, LostAt(b, probe))|
  {
    var calls, lost := Those(s.reqs, CallAt(b, probe)), Those(s.reqs, LostAt(b, probe));
    forall id | id in s.reqs
      ensures Has(s.reqs[id], OpenAt(b, probe)) <==> id in calls || id in lost
      ensures !(id in calls && id in lost)
    {
      assert RequestOk(cfg.backends, s.reqs[id]);
      OwesOneWay(s.reqs[id], b, probe);
    }
    assert Those(s.reqs, OpenAt(b, probe)) == calls + lost;
    assert calls !! lost;
  }

  /**
   Every breaker decision is answered at most once, with its own probe flag. What is
   unanswered is one decision for each call under way, and one for each completion
   of the run that found its client dead after the event stream header.
   */
  lemma DecisionsAreAccountedFor(cfg: Config, es: seq<Event>, b: nat, probe: bool)
    requires ValidRun(cfg, Initial(cfg), es) && b < |cfg.backends|
    ensures var s := Reached(cfg, es);
            && Fits(cfg.backends, s.fleet)
            && CB.Matched(cfg.backends[b].breaker, s.fleet.calls[b])
            && CB.Outstanding(cfg.backends[b].breaker, s.fleet.calls[b], probe) ==
               |Those(s.reqs, CallAt(b, probe))| + Abandoned(cfg, Initial(cfg), es, b, probe)
  {
    var s := Reached(cfg, es);
    ReachedInv(cfg, es);
    InitialInv(cfg);
    RunLoses(cfg, Initial(cfg), es, b, probe);
    NobodyYet(LostAt(b, probe));
    OpenSplits(cfg, s, b, probe);
    assert Sound(cfg.backends[b].breaker, s.fleet.calls[b], s.now);
    assert Open(cfg.backends, s.fleet, b, probe) == |Those(s.reqs, OpenAt(b, probe))|;
  }

  /** Nobody is on a call at this backend. */
  ghost predicate QuietAt(s: State, b: nat) {
    forall id, probe :: id in s.reqs ==> !CallsAt(s.reqs[id], b, probe)
  }

  /** A gateway at rest owes a breaker nothing if and only if no client was lost mid-stream at its backend. */
  lemma QuietGatewayOwesNothing(cfg: Config, es: seq<Event>, b: nat, probe: bool)
    requires ValidRun(cfg, Initial(cfg), es) && b < |cfg.backends| && QuietAt(Reached(cfg, es), b)
    ensures Fits(cfg.backends, Reached(cfg, es).fleet)
    ensures CB.Outstanding(cfg.backends[b].breaker, Reached(cfg, es).fleet.calls[b], probe) == 0 <==>
            NoneAbandoned(cfg, Initial(cfg), es, b, probe)
  {
    DecisionsAreAccountedFor(cfg, es, b, probe);
    NoneIsZero(cfg, Initial(cfg), es, b, probe);
    assert Those(Reached(cfg, es).reqs, CallAt(b, probe)) == {};
  }

  // ------------------------------------------------- breakers that never trip

  /** The event completes a call at this backend that is judged a failure. */
  ghost predicate Condemns(s: State, e: Event, b: nat) {
    && e.Complete? && e.id in s.reqs && s.reqs[e.id].phase.Calling?
    && s.reqs[e.id].attempts != [] && Current(s.reqs[e.id]).backend == b
    && Ruling(s, e.id, e.outcome).verdict == Failed
  }

  /** How many completions of a run at this backend were judged failures. */
  ghost function Condemned(cfg: Config, s: State, es: seq<Event>, b: nat): nat
    requires ValidRun(cfg, s, es)
    decreases |es|
  {
    if es == [] then 0
    else Condemned(cfg, Step(cfg, s, es[0]), es[1..], b) + if Condemns(s, es[0], b) then 1 else 0
  }

  lemma StepCondemns(cfg: Config, s: State, e: Event, b: nat)
    requires Steady(cfg, s) && Enabled(cfg, s, e) && b < |cfg.backends|
    ensures Fits(cfg.backends, Step(cfg, s, e).fleet)
    ensures Answers(Step(cfg, s, e).fleet.calls[b], Failed) == Answers(s.fleet.calls[b], Failed) + Bit(Condemns(s, e, b))
  {
    match e
    case Begin(id, healthy, order) =>
      if order != [] {
        WalkVerdicts(cfg, s.fleet, s.reqs[id].(healthy := healthy, order := order), 0, s.now);
      }
    case Complete(id, outcome) =>
      var f, t := NothingMoreReported(cfg, s, id, outcome);
      ReportedAnswers(s.fleet, Current(s.reqs[id]), Ruling(s, id, outcome).verdict, s.now, b, Failed);
    case _ =>
  }

  lemma {:induction false} RunCondemns(cfg: Config, s: State, es: seq<Event>, b: nat)
    requires Inv(cfg, s) && ValidRun(cfg, s, es) && b < |cfg.backends|
    ensures Fits(cfg.backends, Run(cfg, s, es).fleet)
    ensures Answers(Run(cfg, s, es).fleet.calls[b], Failed) == Answers(s.fleet.calls[b], Failed) + Condemned(cfg, s, es, b)
    decreases |es|
  {
    if es != [] {
      StepCondemns(cfg, s, es[0], b);
      StepKeeps(cfg, s, es[0]);
      RunCondemns(cfg, Step(cfg, s, es[0]), es[1..], b);
    }
  }

  /** A breaker that hears of no failure is as new, whatever else it hears. */
  lemma {:induction false} UnfailedIsInitial(p: CB.Params, h: CB.History)
    requires CB.Matched(p, h) && Answers(h, Failed) == 0
    ensures CB.Replay(p, h) == CB.Initial && CB.Outstanding(p, h, true) == 0
  {
    if h != [] {
      var before := h[..|h| - 1];
      MatchedBefore(p, h);
      UnfailedIsInitial(p, before);
    }
  }

  /** Every completion of the run at this backend is that of a non-streaming upstream that went silent. */
  ghost predicate SilentAt(cfg: Config, s: State, es: seq<Event>, b: nat)
    requires ValidRun(cfg, s, es)
    decreases |es|
  {
    es != [] ==>
      && (forall probe :: CompletesAt(s, es[0], b, probe) ==> es[0].outcome == Unary(Collect(Silent)))
      && SilentAt(cfg, Step(cfg, s, es[0]), es[1..], b)
  }

  lemma {:induction false} SilenceIsNotCondemned(cfg: Config, s: State, es: seq<Event>, b: nat)
    requires ValidRun(cfg, s, es) && SilentAt(cfg, s, es, b)
    ensures Condemned(cfg, s, es, b) == 0
    decreases |es|
  {
    if es != [] {
      if Condemns(s, es[0], b) {
        assert CompletesAt(s, es[0], b, Current(s.reqs[es[0].id]).isProbe);
      }
      SilenceIsNotCondemned(cfg, Step(cfg, s, es[0]), es[1..], b);
    }
  }

  /**
   A backend that accepts every non-streaming call and then goes silent is never
   found out: in every run its breaker is as new and lets the next request through.
   */
  lemma SilentBackendStaysTrusted(cfg: Config, es: seq<Event>, b: nat, now: int)
    requires ValidRun(cfg, Initial(cfg), es) && b < |cfg.backends|
    requires SilentAt(cfg, Initial(cfg), es, b)
    ensures var s := Reached(cfg, es);
            && Fits(cfg.backends, s.fleet)
            && CB.Replay(cfg.backends[b].breaker, s.fleet.calls[b]) == CB.Initial
            && Decision(cfg.backends, s.fleet, b, now) == CB.Decision(true, false)
  {
    ReachedInv(cfg, es);
    InitialInv(cfg);
    RunCondemns(cfg, Initial(cfg), es, b);
    SilenceIsNotCondemned(cfg, Initial(cfg), es, b);
    var s := Reached(cfg, es);
    assert Sound(cfg.backends[b].breaker, s.fleet.calls[b], s.now);
    UnfailedIsInitial(cfg.backends[b].breaker, s.fleet.calls[b]);
  }

  // --------------------------------------------------------- shut for good

  ghost function ModeAt(bs: seq<Backend>, f: Fleet, b: nat): CB.Mode
    requires Fits(bs, f) && b < |bs|
  {
    CB.Replay(bs[b].breaker, f.calls[b]).mode
  }

  /** A walk leaves a half-open breaker as it is and does not dispatch to its backend. */
  lemma {:induction false} WalkShuns(bs: seq<Backend>, f: Fleet, order: seq<nat>, pos: nat, attempts: nat, now: int, b: nat)
    requires Fits(bs, f) && InRange(bs, order) && b < |bs| && ModeAt(bs, f, b) == CB.HalfOpen
    ensures var p := Walk(bs, f, order, pos, attempts, now);
            && Fits(bs, p.fleet) && ModeAt(bs, p.fleet, b) == CB.HalfOpen
            && (p.stop.Dispatched? && p.stop.pos < |order| ==> order[p.stop.pos] != b)
    decreases |order| - pos
  {
    if pos < |order| && attempts < MaxAttempts {
      var c := order[pos];
      assert c in order;
      var dec, g := Decision(bs, f, c, now), Report(f, c, CB.Allow(now));
      CB.AppendStep(bs[c].breaker, f.calls[c], CB.Allow(now));
      if !dec.allowed {
        WalkShuns(bs, g, order, pos + 1, attempts, now, b);
      } else if f.active[c] >= bs[c].maxInFlight {
        WalkShuns(bs, Report(g, c, CB.Abort(dec.isProbe, now)), order, pos + 1, attempts, now, b);
      }
    }
  }

  /** The breaker is half-open and no call is under way that could answer it. */
  ghost predicate Shut(cfg: Config, s: State, b: nat) {
    && b < |cfg.backends| && Fits(cfg.backends, s.fleet)
    && ModeAt(cfg.backends, s.fleet, b) == CB.HalfOpen
    && QuietAt(s, b)
  }

  /** What a request's step leaves of a shut backend: still half-open, not called, not tried anew. */
  ghost predicate Shuns(cfg: Config, b: nat, was: set<nat>, t: Turn) {
    && b < |cfg.backends| && Fits(cfg.backends, t.fleet)
    && ModeAt(cfg.backends, t.fleet, b) == CB.HalfOpen
    && (forall probe :: !CallsAt(t.req, b, probe))
    && (b in Tried(t.req.attempts) <==> b in was)
  }

  lemma TriedOneMore(attempts: seq<Attempt>, a: Attempt)
    ensures Tried(attempts + [a]) == Tried(attempts) + {a.backend}
  {
    var n := attempts + [a];
    assert n[|attempts|] == a;
    forall i | 0 <= i < |attempts| ensures attempts[i].backend in Tried(n) {
      assert n[i] == attempts[i];
    }
  }

  lemma WalkOnShuns(cfg: Config, f: Fleet, r: Request, pos: nat, now: int, b: nat)
    requires Fits(cfg.backends, f) && InRange(cfg.backends, r.order) && b < |cfg.backends|
    requires ModeAt(cfg.backends, f, b) == CB.HalfOpen && (forall probe :: !CallsAt(r, b, probe))
    ensures Shuns(cfg, b, Tried(r.attempts), WalkOn(cfg, f, r, pos, now))
  {
    var p := Walk(cfg.backends, f, r.order, pos, |r.attempts|, now);
    WalkShuns(cfg.backends, f, r.order, pos, |r.attempts|, now, b);
    match p.stop {
      case Exhausted =>
      case Dispatched(at, isProbe) =>
        if at < |r.order| {
          TriedOneMore(r.attempts, Attempt(r.order[at], isProbe, Pending, false));
        }
    }
  }

  lemma JudgedTried(r: Request, outcome: Outcome, v: Verdict)
    requires r.attempts != []
    ensures Tried(Judged(r, outcome, v).attempts) == Tried(r.attempts)
  {
    var d := Judged(r, outcome, v);
    assert forall i :: 0 <= i < |r.attempts| ==> d.attempts[i].backend == r.attempts[i].backend;
  }

  lemma ReportedElsewhere(f: Fleet, a: Attempt, v: Verdict, now: int, b: nat)
    requires a.backend < |f.calls| && b < |f.calls| && a.backend != b
    ensures |Reported(f, a, v, now).calls| == |f.calls| && Reported(f, a, v, now).calls[b] == f.calls[b]
    ensures Reported(f, a, v, now).active == f.active
  {
  }

  /** A completion after which the request does not walk on. */
  lemma CompletedElsewhere(cfg: Config, s: State, id: Id, outcome: Outcome, b: nat)
    requires Ready(cfg, s, id) && b < |cfg.backends| && Current(s.reqs[id]).backend != b
    requires !Ruling(s, id, outcome).next.TryNext?
    ensures var t := Completed(cfg, s, id, outcome);
            && Fits(cfg.backends, t.fleet) && t.fleet.calls[b] == s.fleet.calls[b]
            && !t.req.phase.Calling?
            && t.req.attempts == Judged(s.reqs[id], outcome, Ruling(s, id, outcome).verdict).attempts
  {
    if Ruling(s, id, outcome).next.HangUp? {
      CompletedByHangUp(cfg, s, id, outcome);
    } else {
      CompletedByReply(cfg, s, id, outcome);
      ReportedElsewhere(s.fleet, Current(s.reqs[id]), Ruling(s, id, outcome).verdict, s.now, b);
    }
  }

  lemma CompleteShuns(cfg: Config, s: State, id: Id, outcome: Outcome, b: nat)
    requires Ready(cfg, s, id) && Shut(cfg, s, b)
    ensures Shuns(cfg, b, Tried(s.reqs[id].attempts), Completed(cfg, s, id, outcome))
  {
    var r, j := s.reqs[id], Ruling(s, id, outcome);
    var a, d := Current(r), Judged(r, outcome, j.verdict);
    assert CallsAt(r, a.backend, a.isProbe);
    JudgedTried(r, outcome, j.verdict);
    if j.next.TryNext? {
      assert Current(d).backend == a.backend;
      ReportedElsewhere(s.fleet, a, Failed, s.now, b);
      CompletedByRetry(cfg, s, id, outcome);
      WalkOnShuns(cfg, GivenUp(s, id), d, r.phase.pos + 1, s.now, b);
    } else {
      CompletedElsewhere(cfg, s, id, outcome, b);
    }
  }

  lemma BeginShuns(cfg: Config, s: State, id: Id, healthy: set<nat>, order: seq<nat>, b: nat)
    requires id in s.reqs && s.reqs[id].phase.Admitted? && InRange(cfg.backends, order) && Shut(cfg, s, b)
    ensures var n := Beginning(cfg, s, id, healthy, order);
            id in n.reqs && Shuns(cfg, b, Tried(s.reqs[id].attempts), Turn(n.fleet, n.reqs[id]))
  {
    if order != [] {
      WalkOnShuns(cfg, s.fleet, s.reqs[id].(healthy := healthy, order := order), 0, s.now, b);
    }
  }

  /** A step that changes one request, and shuns a shut backend, leaves it shut. */
  lemma TurnShuns(cfg: Config, s: State, id: Id, t: Turn, n: State, b: nat)
    requires Shut(cfg, s, b) && Shuns(cfg, b, if id in s.reqs then Tried(s.reqs[id].attempts) else {}, t)
    requires n.fleet == t.fleet && n.reqs == s.reqs[id := t.req]
    ensures Shut(cfg, n, b) && Those(n.reqs, TriedAt(b)) == Those(s.reqs, TriedAt(b))
  {
  }

  lemma StepShuns(cfg: Config, s: State, e: Event, b: nat)
    requires Shut(cfg, s, b) && Steady(cfg, s) && Enabled(cfg, s, e)
    ensures Shut(cfg, Step(cfg, s, e), b)
    ensures Those(Step(cfg, s, e).reqs, TriedAt(b)) == Those(s.reqs, TriedAt(b))
  {
    var n := Step(cfg, s, e);
    match e
    case Arrive(id, _, _) =>
      if !s.draining {
        TurnShuns(cfg, s, id, Turn(n.fleet, n.reqs[id]), n, b);
      }
    case Wake(id) => TurnShuns(cfg, s, id, Turn(n.fleet, n.reqs[id]), n, b);
    case Begin(id, healthy, order) =>
      BeginShuns(cfg, s, id, healthy, order, b);
      TurnShuns(cfg, s, id, Turn(n.fleet, n.reqs[id]), n, b);
    case Complete(id, outcome) =>
      CompleteShuns(cfg, s, id, outcome, b);
      TurnShuns(cfg, s, id, Completed(cfg, s, id, outcome), n, b);
    case Finish(id, _, _) => TurnShuns(cfg, s, id, Turn(n.fleet, n.reqs[id]), n, b);
    case _ =>
  }

  /** A half-open breaker that no call under way can answer stays half-open, and its backend is never tried again. */
  lemma {:induction false} ShutForGood(cfg: Config, s: State, es: seq<Event>, b: nat)
    requires Shut(cfg, s, b) && ValidRun(cfg, s, es)
    ensures Shut(cfg, Run(cfg, s, es), b)
    ensures Those(Run(cfg, s, es).reqs, TriedAt(b)) == Those(s.reqs, TriedAt(b))
    decreases |es|
  {
    if es != [] {
      StepShuns(cfg, s, es[0], b);
      ShutForGood(cfg, Step(cfg, s, es[0]), es[1..], b);
    }
  }

  /**
   A lost probe shuts its backend. Where no ordinary completion met a half-open
   breaker and nobody is on a call, the backend is shut exactly when a probe of the
   run was lost mid-stream, and then nothing that follows will try it again.
   */
  lemma LostProbeShutsBackend(cfg: Config, es: seq<Event>, more: seq<Event>, b: nat)
    requires ValidRun(cfg, Initial(cfg), es) && ValidRun(cfg, Reached(cfg, es), more)
    requires b < |cfg.backends| && QuietAt(Reached(cfg, es), b)
    requires b < |Reached(cfg, es).fleet.calls| && CB.NoStray(cfg.backends[b].breaker, Reached(cfg, es).fleet.calls[b])
    ensures Shut(cfg, Reached(cfg, es), b) <==> !NoneAbandoned(cfg, Initial(cfg), es, b, true)
    ensures !NoneAbandoned(cfg, Initial(cfg), es, b, true) ==>
              && Shut(cfg, Run(cfg, Reached(cfg, es), more), b)
              && Those(Run(cfg, Reached(cfg, es), more).reqs, TriedAt(b)) == Those(Reached(cfg, es).reqs, TriedAt(b))
  {
    var s := Reached(cfg, es);
    var h := s.fleet.calls[b];
    DecisionsAreAccountedFor(cfg, es, b, true);
    QuietGatewayOwesNothing(cfg, es, b, true);
    CB.LoneProbeIffNoStray(cfg.backends[b].breaker, h);
    assert h[..|h|] == h;
    assert CB.LoneProbe(cfg.backends[b].breaker, h[..|h|]);
    if Shut(cfg, s, b) {
      ShutForGood(cfg, s, more, b);
    }
  }

  // ------------------------------------------------------- a run that loses one

  /** One backend that trips at its first failure and is probed after 10 ticks, behind a gate of one. */
  const Lone := Config(Gate.Limits(1, 0), [Backend(["m"], 1, CB.Params(1, 10))])

  /** The run leads to a state with this breaker history and nobody at the gate. */
  ghost predicate AtRest(es: seq<Event>, h: CB.History, now: int) {
    && ValidRun(Lone, Initial(Lone), es)
    && var s := Reached(Lone, es);
       && s.gate.core == Gate.Core(0, [], {}) && !s.draining && s.now == now
       && s.fleet == Fleet([h], [0])
  }

  /** The run leads to a state in which one request is on a call, and everybody else has left. */
  ghost predicate OnCall(es: seq<Event>, h: CB.History, now: int, id: Id, probe: bool) {
    && ValidRun(Lone, Initial(Lone), es)
    && var s := Reached(Lone, es);
       && s.gate.core == Gate.Core(1, [], {}) && !s.draining && s.now == now
       && s.fleet == Fleet([h], [1])
       && id in s.reqs
       && s.reqs[id] == Request("m", true, Calling(0), {0}, [0], [Attempt(0, probe, Pending, false)], [], false)
  }

  ghost function LoneDecision(h: CB.History, now: int): CB.Decision {
    CB.Decide(Lone.backends[0].breaker, CB.Replay(Lone.backends[0].breaker, h), now)
  }

  /** From the first run to the second, at most this request's entry changed. */
  ghost predicate OnlyChanged(es: seq<Event>, n: seq<Event>, id: Id) {
    && ValidRun(Lone, Initial(Lone), es) && ValidRun(Lone, Initial(Lone), n)
    && Reached(Lone, n).reqs.Keys == Reached(Lone, es).reqs.Keys + {id}
    && forall u :: u in Reached(Lone, es).reqs && u != id ==> Reached(Lone, n).reqs[u] == Reached(Lone, es).reqs[u]
  }

  /** A streaming request comes in and gets its slot at the gate. */
  lemma Enters(es: seq<Event>, h: CB.History, now: int, id: Id) returns (n: seq<Event>)
    requires AtRest(es, h, now) && id !in Reached(Lone, es).reqs
    ensures OnlyChanged(es, n, id)
    ensures var s := Reached(Lone, n);
            && s.gate.core == Gate.Core(1, [], {}) && !s.draining && s.now == now
            && s.fleet == Fleet([h], [0]) && s.reqs[id] == Newcomer("m", true, Admitted)
  {
    assert Serves(Lone.backends, 0, "m");
    var s, t := Then(Lone, es, Arrive(id, "m", true));
    n := es + [Arrive(id, "m", true)];
  }

  lemma LoneWalk(r: Request, h: CB.History, now: int)
    requires r.order == [0] && r.attempts == [] && LoneDecision(h, now).allowed
    ensures WalkOn(Lone, Fleet([h], [0]), r, 0, now) ==
            Turn(Fleet([h + [CB.Allow(now)]], [1]),
                 r.(phase := Calling(0), attempts := [Attempt(0, LoneDecision(h, now).isProbe, Pending, false)]))
  {
    var f := Fleet([h], [0]);
    assert Report(f, 0, CB.Allow(now)).calls == [h + [CB.Allow(now)]];
    assert f.active[0 := 1] == [1];
  }

  /** A streaming request comes in and is dispatched. */
  lemma Dispatch(es: seq<Event>, h: CB.History, now: int, id: Id) returns (n: seq<Event>)
    requires AtRest(es, h, now) && id !in Reached(Lone, es).reqs && LoneDecision(h, now).allowed
    ensures OnCall(n, h + [CB.Allow(now)], now, id, LoneDecision(h, now).isProbe) && OnlyChanged(es, n, id)
  {
    n := Enters(es, h, now, id);
    assert Serves(Lone.backends, 0, "m");
    var s, t := Then(Lone, n, Begin(id, {0}, [0]));
    n := n + [Begin(id, {0}, [0])];
    LoneWalk(s.reqs[id].(healthy := {0}, order := [0]), h, now);
  }

  /** The upstream cannot be reached: the request is answered 502 and the breaker hears of a failure. */
  lemma Refused(es: seq<Event>, h: CB.History, now: int, id: Id, probe: bool) returns (n: seq<Event>)
    requires OnCall(es, h, now, id, probe)
    ensures AtRest(n, h + [CB.Failure(probe, now)], now) && OnlyChanged(es, n, id)
    ensures Reached(Lone, n).reqs[id].phase.Done?
  {
    var fail := Complete(id, Streamed(StreamOutcome(false, 0, false, false, false, false)));
    var s, t := Then(Lone, es, fail);
    n := es + [fail];
    assert Ruling(s, id, fail.outcome) == Judgement(Failed, Reply(502));
    assert t.reqs[id].phase == Writing(Reply(502), SlotOf(0), true);
    assert t.fleet == Fleet([h + [CB.Failure(probe, now)]], [1]);
    s, t := Then(Lone, n, Finish(id, true, true));
    n := n + [Finish(id, true, true)];
  }

  /** The client dies after the header: nobody is told. */
  lemma HungUp(es: seq<Event>, h: CB.History, now: int, id: Id, probe: bool) returns (n: seq<Event>)
    requires OnCall(es, h, now, id, probe)
    ensures AtRest(n, h, now) && OnlyChanged(es, n, id)
    ensures Reached(Lone, n).reqs[id].phase.Done?
  {
    var lost := Complete(id, Streamed(StreamOutcome(true, 200, false, false, true, true)));
    var s, t := Then(Lone, es, lost);
    n := es + [lost];
    assert Ruling(s, id, lost.outcome) == Judgement(Unresolved, HangUp);
  }

  lemma WaitUntil(es: seq<Event>, h: CB.History, now: int, later: int) returns (n: seq<Event>)
    requires AtRest(es, h, now) && now <= later
    ensures AtRest(n, h, later) && Reached(Lone, n).reqs == Reached(Lone, es).reqs
  {
    var s, t := Then(Lone, es, Tick(later));
    n := es + [Tick(later)];
  }

  const Tripped: CB.History := [CB.Allow(0), CB.Failure(false, 0)]
  const Probed: CB.History := Tripped + [CB.Allow(10)]

  /** What the breaker of the run decides on its way. */
  lemma ProbedBreaker()
    ensures LoneDecision([], 0) == CB.Decision(true, false) && LoneDecision(Tripped, 10) == CB.Decision(true, true)
    ensures CB.Replay(Lone.backends[0].breaker, Probed).mode == CB.HalfOpen
    ensures CB.Outstanding(Lone.backends[0].breaker, Probed, true) == 1
  {
    var p := Lone.backends[0].breaker;
    CB.AppendStep(p, [], CB.Allow(0));
    assert [] + [CB.Allow(0)] == [CB.Allow(0)];
    CB.AppendStep(p, [CB.Allow(0)], CB.Failure(false, 0));
    assert [CB.Allow(0)] + [CB.Failure(false, 0)] == Tripped;
    assert CB.Replay(p, Tripped) == CB.State(CB.Open, 1, 0);
    CB.AppendStep(p, Tripped, CB.Allow(10));
  }

  lemma StartsAtRest()
    ensures AtRest([], [], 0) && Reached(Lone, []).reqs == map[]
  {
  }

  /** The first request trips the breaker. */
  lemma Trips() returns (es: seq<Event>)
    ensures AtRest(es, Tripped, 0)
    ensures Reached(Lone, es).reqs.Keys == {0} && Reached(Lone, es).reqs[0].phase.Done?
  {
    StartsAtRest();
    ProbedBreaker();
    es := Dispatch([], [], 0, 0);
    assert [] + [CB.Allow(0)] == [CB.Allow(0)] && [CB.Allow(0)] + [CB.Failure(false, 0)] == Tripped;
    es := Refused(es, [CB.Allow(0)], 0, 0, false);
  }

  /** It happens: a backend trips, is probed, and the probe's client dies mid-stream. All is quiet, and the backend shut. */
  lemma ProbeIsLost() returns (es: seq<Event>)
    ensures ValidRun(Lone, Initial(Lone), es)
    ensures forall id :: id in Reached(Lone, es).reqs ==> Reached(Lone, es).reqs[id].phase.Done?
    ensures Shut(Lone, Reached(Lone, es), 0)
    ensures CB.Outstanding(Lone.backends[0].breaker, Reached(Lone, es).fleet.calls[0], true) == 1
  {
    ProbedBreaker();
    es := Trips();
    es := WaitUntil(es, Tripped, 0, 10);
    es := Dispatch(es, Tripped, 10, 1);
    es := HungUp(es, Probed, 10, 1, true);
  }
}

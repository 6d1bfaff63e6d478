/**
 The gateway as a transition system of any number of concurrent chat requests.
 Each request is a coroutine on one executor; a step is what it does between two
 suspensions. Arrivals, timer expiries, backend health, the route order, upstream
 outcomes, failing client writes and the clock are inputs, so a run is any
 interleaving of any of them.
 */
module GatewayProtocol {
  import opened Sequences
  import opened Failover
  import opened FailoverWalk
  import CB = CircuitBreaker
  import Gate = AdmissionGate

  type Id = nat

  datatype Config = Config(gate: Gate.Limits, backends: seq<Backend>)

  /** What the breaker was told about an attempt. */
  datatype Fate = Pending | Told(verdict: Verdict)

  datatype Attempt = Attempt(backend: nat, isProbe: bool, fate: Fate, bytesSent: bool)

  datatype Slot = NoSlot | SlotOf(b: nat)

  datatype Head = Json | Sse

  /** Where a request is suspended. */
  datatype Phase =
    | Waiting                                              // on its timer in the admission queue
    | Admitted                                             // holding a ticket, about to route
    | Calling(pos: nat)                                    // on the upstream call of order[pos]
    | Writing(next: Next, slot: Slot, ticket: bool)        // on the last writes of its response
    | Done

  datatype Request = Request(
    model: string,
    streaming: bool,
    phase: Phase,
    healthy: set<nat>,
    order: seq<nat>,
    attempts: seq<Attempt>,
    heads: seq<Head>,
    lost: bool)

  datatype State = State(
    gate: Gate.Ledger<Id>,
    fleet: Fleet,
    reqs: map<Id, Request>,
    handlers: int,
    draining: bool,
    now: int)

  datatype Event =
    | Arrive(id: Id, model: string, streaming: bool)
    | Expire(id: Id)
    | Wake(id: Id)
    | Begin(id: Id, healthy: set<nat>, order: seq<nat>)
    | Complete(id: Id, outcome: Outcome)
    | Finish(id: Id, headSent: bool, ok: bool)
    | BeginDrain
    | Tick(now: int)

  // ------------------------------------------------------------ eligibility

  predicate Served(bs: seq<Backend>, model: string) {
    exists b :: 0 <= b < |bs| && Serves(bs, b, model)
  }

  /** A routing policy should return the healthy backends serving the model, each once, in some order. */
  ghost predicate Routes(bs: seq<Backend>, model: string, healthy: set<nat>, order: seq<nat>) {
    && Distinct(order)
    && forall b :: b in order <==> Serves(bs, b, model) && b in healthy
  }

  /** What every policy returns: nothing but healthy backends serving the model, and one at least if there are any. */
  ghost predicate Offers(bs: seq<Backend>, model: string, healthy: set<nat>, order: seq<nat>) {
    && (forall b :: b in order ==> Serves(bs, b, model) && b in healthy)
    && (order == [] ==> forall b :: b in healthy ==> !Serves(bs, b, model))
  }

  // ------------------------------------------------------------------ steps

  ghost predicate Enabled(cfg: Config, s: State, e: Event) {
    match e
    case Arrive(id, _, _) => id !in s.reqs
    case Expire(id) => id in s.gate.core.waiters
    case Wake(id) => Gate.Enabled(s.gate, Gate.Wake(id))
    case Begin(id, healthy, order) =>
      id in s.reqs && s.reqs[id].phase.Admitted? && Offers(cfg.backends, s.reqs[id].model, healthy, order)
    case Complete(id, outcome) =>
      && id in s.reqs && s.reqs[id].phase.Calling?
      && outcome.Streamed? == s.reqs[id].streaming
      && (outcome.Streamed? ==> Feasible(outcome.s))
    case Finish(id, headSent, ok) => id in s.reqs && s.reqs[id].phase.Writing? && (ok ==> headSent)
    case BeginDrain => true
    case Tick(now) => s.now <= now
  }

  /** There is budget and a candidate left. */
  ghost predicate MayRetry(r: Request) {
    r.phase.Calling? && |r.attempts| < MaxAttempts && r.phase.pos + 1 < |r.order|
  }

  /** How the outcome of the current attempt of a request is judged. */
  ghost function Ruling(s: State, id: Id, outcome: Outcome): Judgement
    requires id in s.reqs && s.reqs[id].phase.Calling?
  {
    Judge(outcome, MayRetry(s.reqs[id]))
  }

  datatype Turn = Turn(fleet: Fleet, req: Request)

  function Newcomer(model: string, streaming: bool, phase: Phase): Request {
    Request(model, streaming, phase, {}, [], [], [], false)
  }

  ghost function Entering(cfg: Config, s: State, id: Id, model: string): Phase {
    if !Served(cfg.backends, model) then Writing(Reply(404), NoSlot, false)
    else
      match Gate.Enter(cfg.gate, s.gate.core, id).1
      case FastPath => Admitted
      case Queued => Waiting
      case Full => Writing(Reply(429), NoSlot, false)
  }

  ghost function FreeSlot(f: Fleet, b: nat): Fleet
    requires b < |f.active|
  {
    f.(active := f.active[b := f.active[b] - 1])
  }

  /** The walk from a position of the order to the next suspension. */
  ghost function WalkOn(cfg: Config, f: Fleet, r: Request, pos: nat, now: int): Turn
    requires Fits(cfg.backends, f) && InRange(cfg.backends, r.order)
  {
    var p := Walk(cfg.backends, f, r.order, pos, |r.attempts|, now);
    match p.stop
    case Exhausted => Turn(p.fleet, r.(phase := Writing(Reply(503), NoSlot, true)))
    case Dispatched(at, isProbe) =>
      if at < |r.order| then
        Turn(p.fleet, r.(phase := Calling(at), attempts := r.attempts + [Attempt(r.order[at], isProbe, Pending, false)]))
      else Turn(p.fleet, r)
  }

  /** The request once its current attempt has been judged. */
  ghost function Judged(r: Request, outcome: Outcome, v: Verdict): Request
    requires r.attempts != []
  {
    var n := |r.attempts| - 1;
    var sent := outcome.Streamed? && outcome.s.headerStarted;
    r.(attempts := r.attempts[n := r.attempts[n].(fate := Told(v), bytesSent := sent)],
       heads := if sent then r.heads + [Sse] else r.heads,
       lost := r.lost || (outcome.Streamed? && outcome.s.downstreamDead))
  }

  ghost function Reported(f: Fleet, a: Attempt, v: Verdict, now: int): Fleet
    requires a.backend < |f.calls|
  {
    match v
    case Failed => Report(f, a.backend, CB.Failure(a.isProbe, now))
    case Succeeded => Report(f, a.backend, CB.Success(a.isProbe, now))
    case Unresolved => f
  }

  ghost function Completed(cfg: Config, s: State, id: Id, outcome: Outcome): Turn
    requires Ready(cfg, s, id)
  {
    var r := s.reqs[id];
    var b, j := r.order[r.phase.pos], Ruling(s, id, outcome);
    var done := Judged(r, outcome, j.verdict);
    var f := Reported(s.fleet, r.attempts[|r.attempts| - 1], j.verdict, s.now);
    match j.next
    case TryNext => WalkOn(cfg, FreeSlot(f, b), done, r.phase.pos + 1, s.now)
    case HangUp => Turn(FreeSlot(f, b), done.(phase := Done))
    case _ => Turn(f, done.(phase := Writing(j.next, SlotOf(b), true)))
  }

  /** The shape of a request suspended on an upstream call. */
  ghost predicate Ready(cfg: Config, s: State, id: Id) {
    && Fits(cfg.backends, s.fleet)
    && id in s.reqs && s.reqs[id].phase.Calling?
    && var r := s.reqs[id];
       && InRange(cfg.backends, r.order)
       && r.phase.pos < |r.order| && r.order[r.phase.pos] < |cfg.backends| && r.attempts != []
       && r.attempts[|r.attempts| - 1].backend == r.order[r.phase.pos]
  }

  ghost predicate Closing(s: State, id: Id) {
    && id in s.reqs && s.reqs[id].phase.Writing?
    && (s.reqs[id].phase.slot.SlotOf? ==> s.reqs[id].phase.slot.b < |s.fleet.active|)
  }

  /** A request after its last writes. */
  ghost function Ended(r: Request, headSent: bool, ok: bool): Request
    requires r.phase.Writing?
  {
    var head := if !headSent then [] else if r.phase.next.Reply? then [Json] else if r.phase.next.SseEmpty? then [Sse] else [];
    r.(phase := Done, heads := r.heads + head, lost := r.lost || !ok)
  }

  ghost function Finished(s: State, id: Id, headSent: bool, ok: bool): Turn
    requires Closing(s, id)
  {
    var r := s.reqs[id];
    Turn(if r.phase.slot.SlotOf? then FreeSlot(s.fleet, r.phase.slot.b) else s.fleet, Ended(r, headSent, ok))
  }

  ghost function Put(s: State, id: Id, t: Turn): State {
    s.(fleet := t.fleet, reqs := s.reqs[id := t.req])
  }

  ghost function Arriving(cfg: Config, s: State, id: Id, model: string, streaming: bool): State {
    var r := Newcomer(model, streaming, Entering(cfg, s, id, model));
    s.(gate := if Served(cfg.backends, model) then Gate.Step(cfg.gate, s.gate, Gate.Arrive(id)) else s.gate,
       reqs := s.reqs[id := r],
       handlers := s.handlers + 1)
  }

  ghost function Waking(cfg: Config, s: State, id: Id): State
    requires id in s.reqs
  {
    var phase := if id in s.gate.core.granted then Admitted else Writing(Reply(429), NoSlot, false);
    s.(gate := Gate.Step(cfg.gate, s.gate, Gate.Wake(id)), reqs := s.reqs[id := s.reqs[id].(phase := phase)])
  }

  ghost function Beginning(cfg: Config, s: State, id: Id, healthy: set<nat>, order: seq<nat>): State
    requires id in s.reqs && Fits(cfg.backends, s.fleet) && InRange(cfg.backends, order)
  {
    var r := s.reqs[id].(healthy := healthy, order := order);
    if order == [] then s.(reqs := s.reqs[id := r.(phase := Writing(Reply(503), NoSlot, true))])
    else Put(s, id, WalkOn(cfg, s.fleet, r, 0, s.now))
  }

  ghost function Completing(cfg: Config, s: State, id: Id, outcome: Outcome): State
    requires Ready(cfg, s, id)
  {
    var n := Put(s, id, Completed(cfg, s, id, outcome));
    if Ruling(s, id, outcome).next.HangUp? then
      n.(gate := Gate.Step(cfg.gate, s.gate, Gate.Leave(id)), handlers := s.handlers - 1)
    else n
  }

  ghost function Finishing(cfg: Config, s: State, id: Id, headSent: bool, ok: bool): State
    requires Closing(s, id)
  {
    Put(s, id, Finished(s, id, headSent, ok)).(
      gate := if s.reqs[id].phase.ticket then Gate.Step(cfg.gate, s.gate, Gate.Leave(id)) else s.gate,
      handlers := s.handlers - 1)
  }

  ghost function Step(cfg: Config, s: State, e: Event): State
    requires Steady(cfg, s) && Enabled(cfg, s, e)
  {
    match e
    case Arrive(id, model, streaming) => if s.draining then s else Arriving(cfg, s, id, model, streaming)
    case Expire(id) => s.(gate := Gate.Step(cfg.gate, s.gate, Gate.Expire(id)))
    case Wake(id) => Waking(cfg, s, id)
    case Begin(id, healthy, order) => Beginning(cfg, s, id, healthy, order)
    case Complete(id, outcome) => Completing(cfg, s, id, outcome)
    case Finish(id, headSent, ok) => Finishing(cfg, s, id, headSent, ok)
    case BeginDrain => s.(draining := true)
    case Tick(now) => s.(now := now)
  }

  /** Enough to take a step; part of the invariant. */
  ghost predicate Steady(cfg: Config, s: State) {
    && Fits(cfg.backends, s.fleet)
    && (forall id :: id in Gate.Seated(s.gate.core) ==> id in s.reqs)
    && (forall id :: id in s.reqs && s.reqs[id].phase.Calling? ==> Ready(cfg, s, id))
    && (forall id :: id in s.reqs && s.reqs[id].phase.Writing? ==> Closing(s, id))
  }

  // ------------------------------------------------------------------- runs

  ghost function Initial(cfg: Config): State {
    State(Gate.Fresh(),
          Fleet(seq(|cfg.backends|, i => []), seq(|cfg.backends|, i => 0)),
          map[], 0, false, 0)
  }

  ghost predicate ValidRun(cfg: Config, s: State, es: seq<Event>)
    decreases |es|
  {
    es != [] ==> Steady(cfg, s) && Enabled(cfg, s, es[0]) && ValidRun(cfg, Step(cfg, s, es[0]), es[1..])
  }

  ghost function Run(cfg: Config, s: State, es: seq<Event>): State
    requires ValidRun(cfg, s, es)
    decreases |es|
  {
    if es == [] then s else Run(cfg, Step(cfg, s, es[0]), es[1..])
  }

  // -------------------------------------------------------------- accounting

  /** What a request may hold. */
  datatype Share =
    | Ticket
    | SlotAt(b: nat)
    | OpenAt(b: nat, probe: bool)      // a breaker decision nobody has answered
    | CallAt(b: nat, probe: bool)      // an upstream call under way
    | LostAt(b: nat, probe: bool)      // an attempt whose client was lost mid-stream
    | TriedAt(b: nat)                  // any attempt
    | ToldAt(i: nat, b: nat, verdict: Verdict) // an i-th attempt whose verdict was reported
    | Handler
    | Place                            // in the admission queue, or granted and not resumed

  predicate IsOpen(a: Attempt) {
    a.fate == Pending || a.fate == Told(Unresolved)
  }

  /** The backends where the request holds an in-flight slot. */
  ghost function Slots(r: Request): set<nat> {
    if r.phase.Calling? && r.phase.pos < |r.order| then {r.order[r.phase.pos]}
    else if r.phase.Writing? && r.phase.slot.SlotOf? then {r.phase.slot.b}
    else {}
  }

  /** The breaker decisions, by backend and probe flag, that the request has not answered. */
  ghost function Owing(attempts: seq<Attempt>): set<(nat, bool)> {
    set i | 0 <= i < |attempts| && IsOpen(attempts[i]) :: (attempts[i].backend, attempts[i].isProbe)
  }

  /** The verdicts, by attempt and backend, that the request's attempts ended with and that were reported. */
  ghost function Verdicts(attempts: seq<Attempt>): set<(nat, nat, Verdict)> {
    set i | 0 <= i < |attempts| && !IsOpen(attempts[i]) :: (i, attempts[i].backend, attempts[i].fate.verdict)
  }

  ghost function Current(r: Request): Attempt
    requires r.attempts != []
  {
    r.attempts[|r.attempts| - 1]
  }

  /** The decisions that will never be answered: the client was lost mid-stream. */
  ghost function Lost(attempts: seq<Attempt>): set<(nat, bool)> {
    set i | 0 <= i < |attempts| && attempts[i].fate == Told(Unresolved) :: (attempts[i].backend, attempts[i].isProbe)
  }

  /** The backends the request was dispatched to. */
  ghost function Tried(attempts: seq<Attempt>): set<nat> {
    set i | 0 <= i < |attempts| :: attempts[i].backend
  }

  ghost predicate CallsAt(r: Request, b: nat, probe: bool) {
    r.phase.Calling? && r.attempts != [] && Current(r).backend == b && Current(r).isProbe == probe
  }

  ghost predicate Ticketed(r: Request) {
    r.phase.Admitted? || r.phase.Calling? || (r.phase.Writing? && r.phase.ticket)
  }

  ghost predicate Has(r: Request, c: Share) {
    match c
    case Ticket => Ticketed(r)
    case SlotAt(b) => b in Slots(r)
    case OpenAt(b, probe) => (b, probe) in Owing(r.attempts)
    case CallAt(b, probe) => CallsAt(r, b, probe)
    case LostAt(b, probe) => (b, probe) in Lost(r.attempts)
    case TriedAt(b) => b in Tried(r.attempts)
    case ToldAt(i, b, v) => (i, b, v) in Verdicts(r.attempts)
    case Handler => !r.phase.Done?
    case Place => r.phase.Waiting?
  }

  ghost function Those(reqs: map<Id, Request>, c: Share): set<Id> {
    set id | id in reqs && Has(reqs[id], c)
  }

  /** How many attempts, first ones and second ones, ended with this verdict at this backend. */
  ghost function Tellings(reqs: map<Id, Request>, b: nat, v: Verdict): nat {
    |Those(reqs, ToldAt(0, b, v))| + |Those(reqs, ToldAt(1, b, v))|
  }

  ghost function Bit(b: bool): int { if b then 1 else 0 }

  // -------------------------------------------------------- one request's state

  /**
   Attempts: at most two, at backends of the order, distinct if the order has no
   repetition, and all but the last failed with nothing sent.
   */
  ghost predicate AttemptsOk(r: Request, upto: nat) {
    && upto <= |r.order|
    && |r.attempts| <= MaxAttempts
    && (forall i :: 0 <= i < |r.attempts| ==> r.attempts[i].backend in r.order[..upto])
    && (Distinct(r.order) ==> forall i, j :: 0 <= i < j < |r.attempts| ==> r.attempts[i].backend != r.attempts[j].backend)
    && (forall i :: 0 <= i < |r.attempts| - 1 ==> r.attempts[i].fate == Told(Failed) && !r.attempts[i].bytesSent)
  }

  ghost predicate RouteOk(bs: seq<Backend>, r: Request) {
    forall b :: b in r.order ==> Serves(bs, b, r.model) && b in r.healthy
  }

  ghost predicate NothingSent(r: Request) {
    forall i :: 0 <= i < |r.attempts| ==> !r.attempts[i].bytesSent
  }

  ghost predicate LastSent(r: Request) {
    r.attempts != [] && Current(r).bytesSent
  }

  /** How far each phase has got. */
  ghost predicate PhaseOk(r: Request) {
    match r.phase
    case Waiting => r.attempts == [] && r.heads == [] && !r.lost && r.order == []
    case Admitted => r.attempts == [] && r.heads == [] && !r.lost && r.order == []
    case Calling(pos) =>
      && pos < |r.order| && AttemptsOk(r, pos + 1) && r.attempts != [] && r.heads == []
      && var a := r.attempts[|r.attempts| - 1];
         && a.backend == r.order[pos] && a.fate == Pending && !a.bytesSent
         && forall i :: 0 <= i < |r.attempts| - 1 ==> r.attempts[i].backend in r.order[..pos]
    case Writing(next, slot, ticket) =>
      && AttemptsOk(r, |r.order|)
      && (forall i :: 0 <= i < |r.attempts| ==> r.attempts[i].fate == Told(Failed) || r.attempts[i].fate == Told(Succeeded))
      && (slot.SlotOf? ==> ticket && slot.b in r.order)
      && !next.TryNext? && !next.HangUp?
      && (next.Reply? ==> r.heads == [] && NothingSent(r))
      && (next.SseEmpty? ==> r.heads == [] && r.lost && NothingSent(r))
      && (next.SseError? || next.SseEnd? ==> r.heads == [Sse] && LastSent(r))
    case Done =>
      && AttemptsOk(r, |r.order|)
      && |r.heads| <= 1
      && (!r.lost ==> |r.heads| == 1)
      && (r.heads == [Json] ==> NothingSent(r))
      && (r.heads == [Sse] && !r.lost ==> LastSent(r))
      && (forall i :: 0 <= i < |r.attempts| ==>
            r.attempts[i].fate.Told? && (r.attempts[i].fate == Told(Unresolved) ==> r.lost && r.heads == [Sse]))
  }

  ghost predicate RequestOk(bs: seq<Backend>, r: Request) {
    RouteOk(bs, r) && PhaseOk(r)
  }

  // --------------------------------------------------------------- invariant

  /** The gate's books agree with what the requests hold. */
  ghost predicate GateBooks(s: State) {
    && (forall id :: id in s.gate.arrived ==> id in s.reqs)
    && s.gate.holders == Those(s.reqs, Ticket)
    && Gate.Seated(s.gate.core) == Those(s.reqs, Place)
  }

  ghost predicate HandlerBooks(s: State) {
    s.handlers == |Those(s.reqs, Handler)|
  }

  /** Each limiter counts the requests dispatched to its backend, and never more than its cap. */
  ghost predicate SlotBooks(cfg: Config, s: State) {
    && Fits(cfg.backends, s.fleet)
    && forall b :: 0 <= b < |cfg.backends| ==>
         s.fleet.active[b] == |Those(s.reqs, SlotAt(b))| <= cfg.backends[b].maxInFlight
  }

  /** Each breaker's unanswered admissions are the requests that owe it an answer. */
  ghost predicate DecisionBooks(cfg: Config, s: State) {
    && Fits(cfg.backends, s.fleet)
    && forall b, probe :: 0 <= b < |cfg.backends| ==>
         Open(cfg.backends, s.fleet, b, probe) == |Those(s.reqs, OpenAt(b, probe))|
  }

  /** Each breaker was told of a failure or a success once for every attempt that ended so, and never else. */
  ghost predicate VerdictBooks(cfg: Config, s: State) {
    && Fits(cfg.backends, s.fleet)
    && forall b, v :: 0 <= b < |cfg.backends| ==> Answers(s.fleet.calls[b], v) == Tellings(s.reqs, b, v)
  }

  ghost predicate RequestsOk(cfg: Config, s: State) {
    forall id :: id in s.reqs ==> RequestOk(cfg.backends, s.reqs[id])
  }

  ghost predicate FleetBooks(cfg: Config, s: State) {
    && HandlerBooks(s)
    && SlotBooks(cfg, s)
    && DecisionBooks(cfg, s)
    && AllSound(cfg.backends, s.fleet, s.now)
    && RequestsOk(cfg, s)
  }

  ghost predicate Inv(cfg: Config, s: State) {
    Gate.Inv(cfg.gate, s.gate) && GateBooks(s) && FleetBooks(cfg, s) && VerdictBooks(cfg, s)
  }
}

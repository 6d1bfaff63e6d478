/**
 The failover walk between two suspensions: starting at some position of the
 route order, skip backends whose breaker denies the request or whose in-flight
 slots are taken, until one is dispatched to or the order is exhausted. There is
 no suspension inside, so this is one atomic step of the gateway.
 */
module FailoverWalk {
  import opened Failover
  import CB = CircuitBreaker

  datatype Backend = Backend(models: seq<string>, maxInFlight: nat, breaker: CB.Params)

  predicate Serves(bs: seq<Backend>, b: nat, model: string) {
    b < |bs| && model in bs[b].models
  }

  /** Every breaker's call history, and every limiter's active count. */
  datatype Fleet = Fleet(calls: seq<CB.History>, active: seq<int>)

  datatype Stop = Dispatched(pos: nat, isProbe: bool) | Exhausted

  datatype Progress = Progress(fleet: Fleet, stop: Stop)

  ghost predicate Fits(bs: seq<Backend>, f: Fleet) {
    |f.calls| == |f.active| == |bs|
  }

  ghost predicate InRange(bs: seq<Backend>, order: seq<nat>) {
    forall b :: b in order ==> b < |bs|
  }

  ghost function Report(f: Fleet, b: nat, c: CB.Call): Fleet
    requires b < |f.calls|
  {
    f.(calls := f.calls[b := f.calls[b] + [c]])
  }

  ghost function Decision(bs: seq<Backend>, f: Fleet, b: nat, now: int): CB.Decision
    requires Fits(bs, f) && b < |bs|
  {
    CB.Decide(bs[b].breaker, CB.Replay(bs[b].breaker, f.calls[b]), now)
  }

  ghost function Walk(bs: seq<Backend>, f: Fleet, order: seq<nat>, pos: nat, attempts: nat, now: int): Progress
    requires Fits(bs, f) && InRange(bs, order)
    decreases |order| - pos
  {
    if pos >= |order| || attempts >= MaxAttempts then Progress(f, Exhausted)
    else
      var b := order[pos];
      assert b in order;
      var dec := Decision(bs, f, b, now);
      var g := Report(f, b, CB.Allow(now));
      if !dec.allowed then
        Walk(bs, g, order, pos + 1, attempts, now)
      else if f.active[b] >= bs[b].maxInFlight then
        Walk(bs, Report(g, b, CB.Abort(dec.isProbe, now)), order, pos + 1, attempts, now)
      else
        Progress(g.(active := f.active[b := f.active[b] + 1]), Dispatched(pos, dec.isProbe))
  }

  /** The backend is asked, allows the request, and has room for it. */
  ghost predicate Takes(bs: seq<Backend>, f: Fleet, b: nat, now: int)
    requires Fits(bs, f) && b < |bs|
  {
    Decision(bs, f, b, now).allowed && f.active[b] < bs[b].maxInFlight
  }

  /** The fleet once a backend has been asked, and its decision taken up or taken back. */
  ghost function Visited(bs: seq<Backend>, f: Fleet, b: nat, now: int): Fleet
    requires Fits(bs, f) && b < |bs|
  {
    var dec, g := Decision(bs, f, b, now), Report(f, b, CB.Allow(now));
    if !dec.allowed then g
    else if Takes(bs, f, b, now) then g.(active := f.active[b := f.active[b] + 1])
    else Report(g, b, CB.Abort(dec.isProbe, now))
  }

  /** A backend that does not take the request leaves everybody's willingness as it was, its own included. */
  lemma UnwillingVisit(bs: seq<Backend>, f: Fleet, b: nat, now: int, c: nat)
    requires Fits(bs, f) && b < |bs| && c < |bs| && !Takes(bs, f, b, now)
    ensures Fits(bs, Visited(bs, f, b, now))
    ensures Takes(bs, Visited(bs, f, b, now), c, now) <==> Takes(bs, f, c, now)
    ensures c != b ==> Decision(bs, Visited(bs, f, b, now), c, now) == Decision(bs, f, c, now)
  {
    CB.AppendStep(bs[b].breaker, f.calls[b], CB.Allow(now));
  }

  /** Position k is the first from `pos` on whose backend takes the request. */
  ghost predicate FirstTaker(bs: seq<Backend>, f: Fleet, order: seq<nat>, pos: nat, now: int, k: nat)
    requires Fits(bs, f) && InRange(bs, order)
  {
    && pos <= k < |order| && order[k] in order && Takes(bs, f, order[k], now)
    && forall i :: pos <= i < k && order[i] in order ==> !Takes(bs, f, order[i], now)
  }

  ghost predicate NoTaker(bs: seq<Backend>, f: Fleet, order: seq<nat>, pos: nat, now: int)
    requires Fits(bs, f) && InRange(bs, order)
  {
    forall i :: pos <= i < |order| && order[i] in order ==> !Takes(bs, f, order[i], now)
  }

  /**
   A walk with budget left dispatches to the first backend, from its position on, that
   allows the request and has room, with that backend's probe flag; it gives up if and
   only if there is none.
   */
  lemma {:induction false} WalkFindsFirstTaker(bs: seq<Backend>, f: Fleet, order: seq<nat>, pos: nat, attempts: nat, now: int)
    requires Fits(bs, f) && InRange(bs, order) && attempts < MaxAttempts
    ensures var stop := Walk(bs, f, order, pos, attempts, now).stop;
            && (stop.Exhausted? <==> NoTaker(bs, f, order, pos, now))
            && (stop.Dispatched? ==>
                  && FirstTaker(bs, f, order, pos, now, stop.pos)
                  && stop.isProbe == Decision(bs, f, order[stop.pos], now).isProbe)
    decreases |order| - pos
  {
    if pos < |order| {
      var b := order[pos];
      assert b in order;
      WalkOnce(bs, f, order, pos, attempts, now);
      if !Takes(bs, f, b, now) {
        var g := Visited(bs, f, b, now);
        forall c | 0 <= c < |bs|
          ensures Takes(bs, g, c, now) <==> Takes(bs, f, c, now)
          ensures c != b ==> Decision(bs, g, c, now) == Decision(bs, f, c, now)
        {
          UnwillingVisit(bs, f, b, now, c);
        }
        WalkFindsFirstTaker(bs, g, order, pos + 1, attempts, now);
      }
    }
  }

  /** A walk is one visit, and then a dispatch or the rest of the walk. */
  lemma WalkOnce(bs: seq<Backend>, f: Fleet, order: seq<nat>, pos: nat, attempts: nat, now: int)
    requires Fits(bs, f) && InRange(bs, order) && pos < |order| && order[pos] in order && attempts < MaxAttempts
    ensures var b := order[pos];
            Walk(bs, f, order, pos, attempts, now) ==
            if Takes(bs, f, b, now) then Progress(Visited(bs, f, b, now), Dispatched(pos, Decision(bs, f, b, now).isProbe))
            else Walk(bs, Visited(bs, f, b, now), order, pos + 1, attempts, now)
  {
  }

  // ------------------------------------------------------ what a walk does

  /** A breaker's history is in clock order up to `now`, and its completions answer its admissions. */
  ghost predicate Sound(p: CB.Params, h: CB.History, now: int) {
    && CB.Timed(h) && CB.Matched(p, h)
    && (h != [] ==> h[|h| - 1].now <= now)
  }

  ghost predicate AllSound(bs: seq<Backend>, f: Fleet, now: int) {
    Fits(bs, f) && forall b :: 0 <= b < |bs| ==> Sound(bs[b].breaker, f.calls[b], now)
  }

  ghost function Open(bs: seq<Backend>, f: Fleet, b: nat, probe: bool): int
    requires Fits(bs, f) && b < |bs|
  {
    CB.Outstanding(bs[b].breaker, f.calls[b], probe)
  }

  /** One report changes the open decisions of its own breaker only. */
  lemma ReportEffect(bs: seq<Backend>, f: Fleet, b: nat, c: CB.Call)
    requires AllSound(bs, f, c.now) && b < |bs|
    requires c.Allow? || Open(bs, f, b, c.isProbe) > 0
    ensures AllSound(bs, Report(f, b, c), c.now) && Report(f, b, c).active == f.active
    ensures forall d, probe :: 0 <= d < |bs| ==>
              Open(bs, Report(f, b, c), d, probe) ==
              Open(bs, f, d, probe) + if d == b then CB.Change(bs[b].breaker, f.calls[b], c, probe) else 0
  {
    CB.AppendCall(bs[b].breaker, f.calls[b], c);
  }

  /** From f to g, `gained` slots and `added` decisions with flag `isProbe` were added at backend b, and nothing else. */
  ghost predicate Moved(bs: seq<Backend>, f: Fleet, g: Fleet, b: nat, isProbe: bool, added: int, gained: int)
    requires Fits(bs, f) && Fits(bs, g)
  {
    && (forall d, probe :: 0 <= d < |bs| ==>
          Open(bs, g, d, probe) == Open(bs, f, d, probe) + if d == b && probe == isProbe then added else 0)
    && (forall d :: 0 <= d < |bs| ==> g.active[d] == f.active[d] + if d == b then gained else 0)
  }

  /** What a walk from f may have done when it stops. */
  ghost predicate Walked(bs: seq<Backend>, f: Fleet, order: seq<nat>, pos: nat, attempts: nat, r: Progress)
    requires Fits(bs, f) && InRange(bs, order)
  {
    && Fits(bs, r.fleet)
    && match r.stop
       case Exhausted => Moved(bs, f, r.fleet, 0, false, 0, 0)
       case Dispatched(at, isProbe) =>
         && attempts < MaxAttempts
         && pos <= at < |order| && order[at] in order
         && f.active[order[at]] < bs[order[at]].maxInFlight
         && Moved(bs, f, r.fleet, order[at], isProbe, 1, 1)
  }

  /** A breaker that denies gains no open decision. */
  lemma AllowEffect(bs: seq<Backend>, f: Fleet, b: nat, now: int)
    requires AllSound(bs, f, now) && b < |bs|
    ensures var dec, g := Decision(bs, f, b, now), Report(f, b, CB.Allow(now));
            && AllSound(bs, g, now)
            && Moved(bs, f, g, b, dec.isProbe, if dec.allowed then 1 else 0, 0)
  {
    ReportEffect(bs, f, b, CB.Allow(now));
  }

  /** A capacity skip takes back the decision it was just given. */
  lemma AbortEffect(bs: seq<Backend>, f: Fleet, b: nat, now: int)
    requires AllSound(bs, f, now) && b < |bs| && Decision(bs, f, b, now).allowed
    ensures var dec, g := Decision(bs, f, b, now), Report(f, b, CB.Allow(now));
            var h := Report(g, b, CB.Abort(dec.isProbe, now));
            AllSound(bs, h, now) && Moved(bs, f, h, 0, false, 0, 0)
  {
    var dec, g := Decision(bs, f, b, now), Report(f, b, CB.Allow(now));
    AllowEffect(bs, f, b, now);
    OutstandingIsNatural(bs[b].breaker, f.calls[b], dec.isProbe);
    ReportEffect(bs, g, b, CB.Abort(dec.isProbe, now));
  }

  lemma WalkedFrom(bs: seq<Backend>, f: Fleet, g: Fleet, order: seq<nat>, pos: nat, attempts: nat, r: Progress)
    requires Fits(bs, f) && Fits(bs, g) && InRange(bs, order)
    requires forall d, probe :: 0 <= d < |bs| ==> Open(bs, g, d, probe) == Open(bs, f, d, probe)
    requires g.active == f.active
    requires Walked(bs, g, order, pos + 1, attempts, r)
    ensures Walked(bs, f, order, pos, attempts, r)
  {
  }

  lemma MatchedBefore(p: CB.Params, h: CB.History)
    requires CB.Matched(p, h) && h != []
    ensures CB.Matched(p, h[..|h| - 1])
  {
    var before := h[..|h| - 1];
    forall i | 0 <= i < |before| && !before[i].Allow?
      ensures CB.Outstanding(p, before[..i], before[i].isProbe) > 0
    {
      assert before[..i] == h[..i] && before[i] == h[i];
    }
  }

  lemma {:induction false} OutstandingIsNatural(p: CB.Params, h: CB.History, probe: bool)
    requires CB.Matched(p, h)
    ensures CB.Outstanding(p, h, probe) >= 0
  {
    if h != [] {
      MatchedBefore(p, h);
      OutstandingIsNatural(p, h[..|h| - 1], probe);
    }
  }

  /**
   A walk opens exactly one decision and takes exactly one slot, at the backend it
   dispatches to, which had a slot free; everything it skips it leaves as it was.
   */
  lemma {:induction false} WalkEffect(bs: seq<Backend>, f: Fleet, order: seq<nat>, pos: nat, attempts: nat, now: int)
    requires AllSound(bs, f, now) && InRange(bs, order)
    ensures var r := Walk(bs, f, order, pos, attempts, now);
            AllSound(bs, r.fleet, now) && Walked(bs, f, order, pos, attempts, r)
    decreases |order| - pos
  {
    if pos < |order| && attempts < MaxAttempts {
      var b, r := order[pos], Walk(bs, f, order, pos, attempts, now);
      assert b in order;
      var dec := Decision(bs, f, b, now);
      var g := Report(f, b, CB.Allow(now));
      AllowEffect(bs, f, b, now);
      if !dec.allowed {
        WalkEffect(bs, g, order, pos + 1, attempts, now);
        WalkedFrom(bs, f, g, order, pos, attempts, r);
      } else if f.active[b] >= bs[b].maxInFlight {
        AbortEffect(bs, f, b, now);
        var h := Report(g, b, CB.Abort(dec.isProbe, now));
        WalkEffect(bs, h, order, pos + 1, attempts, now);
        WalkedFrom(bs, f, h, order, pos, attempts, r);
      }
    }
  }

  // --------------------------------------------------------- outcomes reported

  /** The call that reports a verdict. */
  predicate Tells(c: CB.Call, v: Verdict) {
    (v.Failed? && c.Failure?) || (v.Succeeded? && c.Success?)
  }

  /** How often a breaker was told this verdict. */
  ghost function Answers(h: CB.History, v: Verdict): nat {
    if h == [] then 0 else Answers(h[..|h| - 1], v) + if Tells(h[|h| - 1], v) then 1 else 0
  }

  ghost predicate SameAnswers(f: Fleet, g: Fleet) {
    && |g.calls| == |f.calls|
    && forall d, v :: 0 <= d < |f.calls| ==> Answers(g.calls[d], v) == Answers(f.calls[d], v)
  }

  lemma ReportAnswers(f: Fleet, b: nat, c: CB.Call, d: nat, v: Verdict)
    requires b < |f.calls| && d < |f.calls|
    ensures Answers(Report(f, b, c).calls[d], v) == Answers(f.calls[d], v) + if d == b && Tells(c, v) then 1 else 0
  {
    assert (f.calls[b] + [c])[..|f.calls[b]|] == f.calls[b];
  }

  lemma SilentReport(f: Fleet, b: nat, c: CB.Call)
    requires b < |f.calls| && (c.Allow? || c.Abort?)
    ensures SameAnswers(f, Report(f, b, c))
  {
    forall d, v | 0 <= d < |f.calls| ensures Answers(Report(f, b, c).calls[d], v) == Answers(f.calls[d], v) {
      ReportAnswers(f, b, c, d, v);
    }
  }

  /** A walk tells no breaker of a success or a failure: skipping a full backend is neither. */
  lemma {:induction false} WalkAnswersNobody(bs: seq<Backend>, f: Fleet, order: seq<nat>, pos: nat, attempts: nat, now: int)
    requires Fits(bs, f) && InRange(bs, order)
    ensures SameAnswers(f, Walk(bs, f, order, pos, attempts, now).fleet)
    decreases |order| - pos
  {
    if pos < |order| && attempts < MaxAttempts {
      var b := order[pos];
      assert b in order;
      var dec, g := Decision(bs, f, b, now), Report(f, b, CB.Allow(now));
      SilentReport(f, b, CB.Allow(now));
      if !dec.allowed {
        WalkAnswersNobody(bs, g, order, pos + 1, attempts, now);
      } else if f.active[b] >= bs[b].maxInFlight {
        SilentReport(g, b, CB.Abort(dec.isProbe, now));
        WalkAnswersNobody(bs, Report(g, b, CB.Abort(dec.isProbe, now)), order, pos + 1, attempts, now);
      }
    }
  }
}

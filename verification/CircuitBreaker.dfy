/**
 The per-backend circuit breaker. A history is the sequence of calls made on one
 breaker, each with the reading of the steady clock; `Replay` is the state the
 calls leave behind. Completions may be late or stale: nothing below assumes that
 `is_probe` flags or completions arrive in any particular order unless it says so.
 */
module CircuitBreaker {

  datatype Mode = Closed | Open | HalfOpen

  /** failure_threshold and open_window; the loader admits thresholds from 1. */
  datatype Params = Params(threshold: int, window: int)

  datatype State = State(mode: Mode, failures: int, openedAt: int)

  datatype Decision = Decision(allowed: bool, isProbe: bool)

  datatype Call =
    | Allow(now: int)
    | Success(isProbe: bool, now: int)
    | Failure(isProbe: bool, now: int)
    | Abort(isProbe: bool, now: int)

  const Initial := State(Closed, 0, 0)

  function Decide(p: Params, s: State, now: int): Decision {
    match s.mode
    case Closed => Decision(true, false)
    case Open => if now - s.openedAt >= p.window then Decision(true, true) else Decision(false, false)
    case HalfOpen => Decision(false, false)
  }

  function Apply(p: Params, s: State, c: Call): State {
    match c
    case Allow(now) => if Decide(p, s, now).isProbe then s.(mode := HalfOpen) else s
    case Success(_, _) => s.(mode := Closed, failures := 0)
    case Abort(isProbe, now) => if isProbe then s.(mode := Open, openedAt := now) else s
    case Failure(isProbe, now) =>
      if isProbe then s.(mode := Open, openedAt := now)
      else if s.mode == Open then s
      else if s.failures + 1 >= p.threshold then State(Open, s.failures + 1, now)
      else s.(failures := s.failures + 1)
  }

  // ----------------------------------------------------------- histories

  type History = seq<Call>

  function Replay(p: Params, h: History): State {
    if h == [] then Initial else Apply(p, Replay(p, h[..|h| - 1]), h[|h| - 1])
  }

  /** The steady clock never runs backwards. */
  ghost predicate Timed(h: History) {
    forall i, j :: 0 <= i < j < |h| ==> h[i].now <= h[j].now
  }

  /** What the i-th call, an allow_request, decided. */
  ghost predicate ProbeAdmitted(p: Params, h: History, i: nat) {
    i < |h| && h[i].Allow? && Decide(p, Replay(p, h[..i]), h[i].now).isProbe
  }

  ghost predicate Admitted(p: Params, h: History, i: nat) {
    i < |h| && h[i].Allow? && Decide(p, Replay(p, h[..i]), h[i].now).allowed
  }

  lemma ReplayStep(p: Params, h: History, k: nat)
    requires k < |h|
    ensures Replay(p, h[..k + 1]) == Apply(p, Replay(p, h[..k]), h[k])
  {
    assert h[..k + 1][..k] == h[..k];
  }

  // ------------------------------------------------------- probe spacing

  /** Once a probe was admitted, every opening of the breaker lies after it. */
  lemma {:induction false} OpenedAfterProbe(p: Params, h: History, i: nat, k: nat)
    requires Timed(h) && ProbeAdmitted(p, h, i)
    requires i < k <= |h|
    ensures Replay(p, h[..k]).mode == Open ==> Replay(p, h[..k]).openedAt >= h[i].now
    decreases k
  {
    ReplayStep(p, h, k - 1);
    if k > i + 1 {
      OpenedAfterProbe(p, h, i, k - 1);
    }
  }

  /** Any two probe admissions of a run, late and stale completions included, are an open window apart. */
  lemma ProbesAreSpaced(p: Params, h: History, i: nat, j: nat)
    requires Timed(h)
    requires i < j && ProbeAdmitted(p, h, i) && ProbeAdmitted(p, h, j)
    ensures h[j].now - h[i].now >= p.window
  {
    OpenedAfterProbe(p, h, i, j);
  }

  /** The i-th call opens the breaker, or restarts its window. */
  ghost predicate Opens(p: Params, h: History, i: nat) {
    && i < |h|
    && !h[i].Allow?
    && Replay(p, h[..i + 1]).mode == Open
    && ((!h[i].Success? && h[i].isProbe) || Replay(p, h[..i]).mode != Open)
  }

  lemma {:induction false} StaysOpen(p: Params, h: History, i: nat, k: nat, deadline: int)
    requires Timed(h) && Opens(p, h, i)
    requires i < k <= |h|
    requires forall m :: i < m < k ==> !h[m].Success? && h[m].now < deadline
    requires deadline <= h[i].now + p.window
    ensures Replay(p, h[..k]).mode == Open && Replay(p, h[..k]).openedAt >= h[i].now
    decreases k
  {
    ReplayStep(p, h, k - 1);
    if k > i + 1 {
      StaysOpen(p, h, i, k - 1, deadline);
    }
  }

  /** Unless a success closes it, an opened breaker admits nobody before its window has elapsed. */
  lemma OpenWindowIsRespected(p: Params, h: History, i: nat, j: nat)
    requires Timed(h) && Opens(p, h, i)
    requires i < j && Admitted(p, h, j)
    ensures (exists m :: i < m < j && h[m].Success?) || h[j].now >= h[i].now + p.window
  {
    if (forall m :: i < m < j ==> !h[m].Success?) && h[j].now < h[i].now + p.window {
      StaysOpen(p, h, i, j, h[i].now + p.window);
    }
  }

  /** From an opening until a success, a probe or another opening, the breaker is open since that opening. */
  lemma {:induction false} OpenSince(p: Params, h: History, i: nat, k: nat)
    requires Opens(p, h, i) && i < k <= |h|
    requires forall m :: i < m < k ==> !h[m].Success? && !ProbeAdmitted(p, h, m) && !Opens(p, h, m)
    ensures Replay(p, h[..k]).mode == Open && Replay(p, h[..k]).openedAt == h[i].now
    decreases k
  {
    ReplayStep(p, h, k - 1);
    if k > i + 1 {
      OpenSince(p, h, i, k - 1);
      assert !Opens(p, h, k - 1) && !ProbeAdmitted(p, h, k - 1);
    }
  }

  /** An open breaker counts its window from its last opening: late ordinary failures do not restart it. */
  lemma {:induction false} OpenedAtLastOpening(p: Params, h: History, k: nat) returns (i: nat)
    requires k <= |h| && Replay(p, h[..k]).mode == Open
    ensures i < k && Opens(p, h, i) && Replay(p, h[..k]).openedAt == h[i].now
    ensures forall m :: i < m < k ==> !Opens(p, h, m)
    decreases k
  {
    ReplayStep(p, h, k - 1);
    if Opens(p, h, k - 1) {
      i := k - 1;
    } else {
      i := OpenedAtLastOpening(p, h, k - 1);
    }
  }

  /**
   When a tripped backend is tried again: after an opening with no success, probe or
   further opening since, a request is admitted as the probe if and only if the open
   window has elapsed.
   */
  lemma WindowDecidesProbe(p: Params, h: History, i: nat, j: nat)
    requires Opens(p, h, i) && i < j < |h| && h[j].Allow?
    requires forall m :: i < m < j ==> !h[m].Success? && !ProbeAdmitted(p, h, m) && !Opens(p, h, m)
    ensures ProbeAdmitted(p, h, j) <==> h[j].now >= h[i].now + p.window
    ensures Admitted(p, h, j) <==> h[j].now >= h[i].now + p.window
  {
    OpenSince(p, h, i, j);
  }

  // ---------------------------------------------------------- lone probe

  /** Admissions with the given flag, less the completions reported for it. */
  ghost function Outstanding(p: Params, h: History, probe: bool): int {
    if h == [] then 0
    else
      Outstanding(p, h[..|h| - 1], probe) + Change(p, h[..|h| - 1], h[|h| - 1], probe)
  }

  ghost function Change(p: Params, before: History, c: Call, probe: bool): int {
    match c
    case Allow(now) => if Decide(p, Replay(p, before), now) == Decision(true, probe) then 1 else 0
    case _ => if c.isProbe == probe then -1 else 0
  }

  /** Every completion answers an admission that had the same flag and was not answered before. */
  ghost predicate Matched(p: Params, h: History) {
    forall i :: 0 <= i < |h| && !h[i].Allow? ==> Outstanding(p, h[..i], h[i].isProbe) > 0
  }

  /** HalfOpen exactly when one probe is outstanding, and never a second one. */
  ghost predicate LoneProbe(p: Params, h: History) {
    Outstanding(p, h, true) == if Replay(p, h).mode == HalfOpen then 1 else 0
  }

  ghost predicate LoneProbeThroughout(p: Params, h: History) {
    forall k {:trigger h[..k]} :: 0 <= k <= |h| ==> LoneProbe(p, h[..k])
  }

  /** The i-th call reports a request admitted as an ordinary one, while a probe is out. */
  ghost predicate Stray(p: Params, h: History, i: nat) {
    && i < |h|
    && (h[i].Success? || h[i].Failure?)
    && !h[i].isProbe
    && Replay(p, h[..i]).mode == HalfOpen
  }

  ghost predicate NoStray(p: Params, h: History) {
    forall i :: 0 <= i < |h| ==> !Stray(p, h, i)
  }

  lemma OutstandingStep(p: Params, h: History, k: nat, probe: bool)
    requires k < |h|
    ensures Outstanding(p, h[..k + 1], probe) == Outstanding(p, h[..k], probe) + Change(p, h[..k], h[k], probe)
  {
    assert h[..k + 1][..k] == h[..k];
  }

  /** What a call that is no stray keeps, of a state and its number of outstanding probes. */
  ghost predicate Clean(p: Params, s: State, probes: int) {
    && probes == (if s.mode == HalfOpen then 1 else 0)
    && (s.mode != Closed ==> s.failures >= p.threshold)
  }

  lemma CleanStep(p: Params, s: State, probes: int, c: Call)
    requires Clean(p, s, probes)
    requires !c.Allow? && c.isProbe ==> probes > 0
    requires !((c.Success? || c.Failure?) && !c.isProbe && s.mode == HalfOpen)
    ensures Clean(p, Apply(p, s, c),
                  probes + match c
                           case Allow(now) => if Decide(p, s, now) == Decision(true, true) then 1 else 0
                           case _ => if c.isProbe then -1 else 0)
  {
  }

  /** As long as no stray arrived, the probe is alone and the failure run is at the threshold outside Closed. */
  lemma {:induction false} CleanPrefix(p: Params, h: History, k: nat)
    requires Matched(p, h) && k <= |h|
    requires forall i :: 0 <= i < k ==> !Stray(p, h, i)
    ensures LoneProbe(p, h[..k]) && Clean(p, Replay(p, h[..k]), Outstanding(p, h[..k], true))
  {
    if k > 0 {
      CleanPrefix(p, h, k - 1);
      assert !Stray(p, h, k - 1);
      CleanStep(p, Replay(p, h[..k - 1]), Outstanding(p, h[..k - 1], true), h[k - 1]);
      ReplayStep(p, h, k - 1);
      OutstandingStep(p, h, k - 1, true);
      assert h[..k - 1 + 1] == h[..k];
    }
  }

  lemma {:induction false} FirstStray(p: Params, h: History, n: nat) returns (i: nat)
    requires n < |h| && Stray(p, h, n)
    ensures i <= n && Stray(p, h, i) && forall j :: 0 <= j < i ==> !Stray(p, h, j)
  {
    if m: nat :| m < n && Stray(p, h, m) {
      i := FirstStray(p, h, m);
    } else {
      i := n;
    }
  }

  /**
   The single-probe promise, with its exact condition: it holds throughout a run
   if and only if no ordinary completion is reported while the breaker is HalfOpen.
   */
  lemma LoneProbeIffNoStray(p: Params, h: History)
    requires Matched(p, h)
    ensures LoneProbeThroughout(p, h) <==> NoStray(p, h)
  {
    if NoStray(p, h) {
      forall k {:trigger h[..k]} | 0 <= k <= |h| ensures LoneProbe(p, h[..k]) {
        CleanPrefix(p, h, k);
      }
    } else {
      var n: nat :| n < |h| && Stray(p, h, n);
      var i := FirstStray(p, h, n);
      CleanPrefix(p, h, i);
      ReplayStep(p, h, i);
      OutstandingStep(p, h, i, true);
      assert !LoneProbe(p, h[..i + 1]);
    }
  }

  /**
   The condition is needed: with threshold 1 and window 10, a late success closes
   the breaker under a live probe, and the next trip admits a second one beside it.
   */
  lemma LateCompletionAdmitsSecondProbe() returns (p: Params, h: History)
    ensures p.threshold >= 1 && p.window >= 1 && Timed(h) && Matched(p, h)
    ensures Outstanding(p, h, true) == 2
  {
    p := Params(1, 10);
    h := [];
    var s, probes, others := Initial, 0, 0;
    h, s, probes, others := Extend(p, h, s, probes, others, Allow(0));
    h, s, probes, others := Extend(p, h, s, probes, others, Allow(0));
    h, s, probes, others := Extend(p, h, s, probes, others, Failure(false, 0));
    h, s, probes, others := Extend(p, h, s, probes, others, Allow(10));
    assert s == State(HalfOpen, 1, 0) && probes == others == 1;
    h, s, probes, others := Extend(p, h, s, probes, others, Success(false, 10));
    h, s, probes, others := Extend(p, h, s, probes, others, Allow(10));
    h, s, probes, others := Extend(p, h, s, probes, others, Failure(false, 10));
    h, s, probes, others := Extend(p, h, s, probes, others, Allow(20));
  }

  /** One more call on a history: what it does to the state and to the open decisions. */
  lemma AppendStep(p: Params, h: History, c: Call)
    ensures Replay(p, h + [c]) == Apply(p, Replay(p, h), c)
    ensures forall probe :: Outstanding(p, h + [c], probe) == Outstanding(p, h, probe) + Change(p, h, c, probe)
  {
    assert (h + [c])[..|h|] == h;
  }

  /** And what it keeps in order. */
  lemma AppendCall(p: Params, h: History, c: Call)
    ensures Replay(p, h + [c]) == Apply(p, Replay(p, h), c)
    ensures forall probe :: Outstanding(p, h + [c], probe) == Outstanding(p, h, probe) + Change(p, h, c, probe)
    ensures Matched(p, h) && (c.Allow? || Outstanding(p, h, c.isProbe) > 0) ==> Matched(p, h + [c])
    ensures Timed(h) && (h != [] ==> h[|h| - 1].now <= c.now) ==> Timed(h + [c])
  {
    var n := h + [c];
    AppendStep(p, h, c);
    assert n[..|h|] == h;
    if Matched(p, h) && (c.Allow? || Outstanding(p, h, c.isProbe) > 0) {
      forall i | 0 <= i < |n| && !n[i].Allow? ensures Outstanding(p, n[..i], n[i].isProbe) > 0 {
        if i < |h| {
          assert n[..i] == h[..i] && n[i] == h[i];
        }
      }
    }
  }

  lemma Extend(p: Params, h: History, s: State, probes: int, others: int, c: Call)
    returns (n: History, s': State, probes': int, others': int)
    requires Summary(p, h, s, probes, others)
    requires h != [] ==> h[|h| - 1].now <= c.now
    requires c.Allow? || (if c.isProbe then probes > 0 else others > 0)
    ensures Summary(p, n, s', probes', others') && n != [] && n[|n| - 1] == c
    ensures s' == Apply(p, s, c)
    ensures c.Allow? ==> probes' == probes + (if Decide(p, s, c.now).isProbe then 1 else 0)
    ensures c.Allow? ==> others' == others + (if Decide(p, s, c.now) == Decision(true, false) then 1 else 0)
    ensures !c.Allow? ==> probes' == probes - (if c.isProbe then 1 else 0)
    ensures !c.Allow? ==> others' == others - (if c.isProbe then 0 else 1)
  {
    AppendCall(p, h, c);
    n, s' := h + [c], Apply(p, s, c);
    probes', others' := probes + Change(p, h, c, true), others + Change(p, h, c, false);
  }

  ghost predicate Summary(p: Params, h: History, s: State, probes: int, others: int) {
    && Timed(h) && Matched(p, h)
    && Replay(p, h) == s && Outstanding(p, h, true) == probes && Outstanding(p, h, false) == others
  }

  // ------------------------------------------------------------ trip law

  ghost function FailuresSinceSuccess(h: History): nat {
    if h == [] then 0
    else
      match h[|h| - 1]
      case Success(_, _) => 0
      case Failure(_, _) => FailuresSinceSuccess(h[..|h| - 1]) + 1
      case _ => FailuresSinceSuccess(h[..|h| - 1])
  }

  /** A closed breaker has counted every failure since the last success, and is below its threshold. */
  lemma {:induction false} ClosedCountsTheRun(p: Params, h: History)
    requires p.threshold >= 1
    ensures Replay(p, h).mode == Closed ==>
              Replay(p, h).failures == FailuresSinceSuccess(h) < p.threshold
  {
    if h != [] {
      ClosedCountsTheRun(p, h[..|h| - 1]);
    }
  }

  /** Since the last success, a probe failed or was taken back. */
  ghost predicate ProbeEndedSince(h: History) {
    h != [] && !h[|h| - 1].Success? &&
    (((h[|h| - 1].Failure? || h[|h| - 1].Abort?) && h[|h| - 1].isProbe) || ProbeEndedSince(h[..|h| - 1]))
  }

  /**
   A breaker is closed if and only if, since the last success, there were fewer
   failures than its threshold and no probe ended badly. So any success closes it.
   */
  lemma {:induction false} ClosedExactly(p: Params, h: History)
    requires p.threshold >= 1
    ensures Replay(p, h).mode == Closed <==> FailuresSinceSuccess(h) < p.threshold && !ProbeEndedSince(h)
  {
    if h != [] {
      ClosedExactly(p, h[..|h| - 1]);
      ClosedCountsTheRun(p, h[..|h| - 1]);
    }
  }

  /** An ordinary completion opens a closed breaker exactly when it is the threshold-th failure in a row. */
  lemma TripLaw(p: Params, h: History, c: Call)
    requires p.threshold >= 1
    requires c.Success? || c.Failure?
    requires !c.isProbe && Replay(p, h).mode == Closed
    ensures Replay(p, h + [c]).mode == Open <==> c.Failure? && FailuresSinceSuccess(h + [c]) == p.threshold
  {
    ClosedCountsTheRun(p, h);
    assert (h + [c])[..|h|] == h;
  }

  // ------------------------------------------------------ the breaker itself

  class Breaker {
    const params: Params
    var mode: Mode
    var failures: int
    var openedAt: int

    ghost function Snapshot(): State
      reads this
    {
      State(mode, failures, openedAt)
    }

    constructor (params: Params)
      ensures this.params == params && Snapshot() == Initial
    {
      this.params := params;
      mode, failures, openedAt := Closed, 0, 0;
    }

    method AllowRequest(now: int) returns (dec: Decision)
      modifies this
      ensures dec == Decide(params, old(Snapshot()), now)
      ensures Snapshot() == Apply(params, old(Snapshot()), Allow(now))
    {
      match mode
      case Closed => dec := Decision(true, false);
      case Open =>
        if now - openedAt >= params.window {
          mode := HalfOpen;
          dec := Decision(true, true);
        } else {
          dec := Decision(false, false);
        }
      case HalfOpen => dec := Decision(false, false);
    }

    method OnSuccess(isProbe: bool, ghost now: int)
      modifies this
      ensures Snapshot() == Apply(params, old(Snapshot()), Success(isProbe, now))
    {
      mode, failures := Closed, 0;
    }

    method AbortProbe(isProbe: bool, now: int)
      modifies this
      ensures Snapshot() == Apply(params, old(Snapshot()), Abort(isProbe, now))
    {
      if !isProbe {
        return;
      }
      mode, openedAt := Open, now;
    }

    method OnFailure(isProbe: bool, now: int)
      modifies this
      ensures Snapshot() == Apply(params, old(Snapshot()), Failure(isProbe, now))
    {
      if isProbe {
        mode, openedAt := Open, now;
        return;
      }
      if mode == Open {
        return;
      }
      failures := failures + 1;
      if failures >= params.threshold {
        mode, openedAt := Open, now;
      }
    }
  }
}

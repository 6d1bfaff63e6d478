/**
 The gateway's own objects: one breaker and one limiter per backend, and the loops
 that run over them between two suspensions of a request.
 */
module Gateway {
  import opened Sequences
  import opened Failover
  import opened FailoverWalk
  import CB = CircuitBreaker

  /** The per-backend in-flight counter. */
  class Limiter {
    const maxInFlight: int
    var active: int

    constructor (maxInFlight: int)
      ensures this.maxInFlight == maxInFlight && active == 0
    {
      this.maxInFlight := maxInFlight;
      active := 0;
    }

    /** The compare-and-swap loop; `spurious` is how often the weak exchange fails for no reason. */
    method TryAcquire(spurious: nat) returns (ok: bool)
      modifies this
      ensures ok == (old(active) < maxInFlight)
      ensures active == old(active) + if ok then 1 else 0
    {
      var left := spurious;
      var cur := active;
      while cur < maxInFlight
        invariant cur == active == old(active)
        decreases left
      {
        if left == 0 {
          active := cur + 1;
          return true;
        }
        left := left - 1;
        cur := active;
      }
      return false;
    }

    method Release()
      modifies this
      ensures active == old(active) - 1
    {
      active := active - 1;
    }
  }

  class Gateway {
    const backends: seq<Backend>
    const breakers: seq<CB.Breaker>
    const limiters: seq<Limiter>
    ghost var fleet: Fleet

    /** The objects are in the state that `fleet` describes. */
    ghost predicate Valid()
      reads this, breakers, limiters
    {
      && |breakers| == |limiters| == |backends|
      && Distinct(breakers) && Distinct(limiters)
      && Fits(backends, fleet)
      && (forall b :: 0 <= b < |backends| ==>
            && breakers[b].params == backends[b].breaker
            && breakers[b].Snapshot() == CB.Replay(backends[b].breaker, fleet.calls[b]))
      && (forall b :: 0 <= b < |backends| ==>
            limiters[b].maxInFlight == backends[b].maxInFlight && limiters[b].active == fleet.active[b])
    }

    constructor (backends: seq<Backend>)
      ensures Valid() && this.backends == backends
      ensures forall b :: 0 <= b < |backends| ==> fleet.calls[b] == [] && fleet.active[b] == 0
    {
      var made: seq<CB.Breaker>, caps: seq<Limiter> := [], [];
      for i := 0 to |backends|
        invariant |made| == |caps| == i
        invariant Distinct(made) && Distinct(caps)
        invariant forall b :: 0 <= b < i ==> fresh(made[b]) && fresh(caps[b])
        invariant forall b :: 0 <= b < i ==>
                    made[b].params == backends[b].breaker && made[b].Snapshot() == CB.Initial
        invariant forall b :: 0 <= b < i ==>
                    caps[b].maxInFlight == backends[b].maxInFlight && caps[b].active == 0
      {
        var breaker := new CB.Breaker(backends[i].breaker);
        var limiter := new Limiter(backends[i].maxInFlight);
        made, caps := made + [breaker], caps + [limiter];
      }
      this.backends, breakers, limiters := backends, made, caps;
      fleet := Fleet(seq(|backends|, i => []), seq(|backends|, i => 0));
    }

    /** `backends_for_model`: exactly the serving backends, in configuration order. */
    method BackendsForModel(model: string) returns (out: seq<nat>)
      ensures forall b: nat :: b in out <==> Serves(backends, b, model)
      ensures forall i, j :: 0 <= i < j < |out| ==> out[i] < out[j]
    {
      out := [];
      for i := 0 to |backends|
        invariant forall b: nat :: b in out <==> b < i && Serves(backends, b, model)
        invariant forall k, j :: 0 <= k < j < |out| ==> out[k] < out[j]
      {
        var models := backends[i].models;
        for m := 0 to |models|
          invariant model !in models[..m]
          invariant forall b: nat :: b in out <==> b < i && Serves(backends, b, model)
          invariant forall k, j :: 0 <= k < j < |out| ==> out[k] < out[j]
        {
          if models[m] == model {
            assert forall k :: 0 <= k < |out| ==> out[k] in out;
            out := out + [i];
            break;
          }
        }
        assert models[..|models|] == models;
      }
    }

    /** The backend's breaker is asked; the caller holds its decision. */
    method Ask(b: nat, now: int) returns (dec: CB.Decision)
      requires Valid() && b < |backends|
      modifies this, breakers
      ensures Valid() && fleet == Report(old(fleet), b, CB.Allow(now))
      ensures dec == Decision(backends, old(fleet), b, now)
    {
      CB.AppendCall(backends[b].breaker, fleet.calls[b], CB.Allow(now));
      dec := breakers[b].AllowRequest(now);
      fleet := Report(fleet, b, CB.Allow(now));
    }

    method TakeBack(b: nat, isProbe: bool, now: int)
      requires Valid() && b < |backends|
      modifies this, breakers
      ensures Valid() && fleet == Report(old(fleet), b, CB.Abort(isProbe, now))
    {
      CB.AppendCall(backends[b].breaker, fleet.calls[b], CB.Abort(isProbe, now));
      breakers[b].AbortProbe(isProbe, now);
      fleet := Report(fleet, b, CB.Abort(isProbe, now));
    }

    method Reserve(b: nat, spurious: nat) returns (ok: bool)
      requires Valid() && b < |backends|
      modifies this, limiters
      ensures Valid() && ok == (old(fleet).active[b] < backends[b].maxInFlight)
      ensures fleet == if ok then old(fleet).(active := old(fleet).active[b := old(fleet).active[b] + 1]) else old(fleet)
    {
      ok := limiters[b].TryAcquire(spurious);
      if ok {
        fleet := fleet.(active := fleet.active[b := fleet.active[b] + 1]);
      }
    }

    /** One turn of the loop: ask the breaker, then reserve a slot, or take the decision back if there is none. */
    method Visit(b: nat, now: int, spurious: nat) returns (taken: bool, isProbe: bool)
      requires Valid() && b < |backends|
      modifies this, breakers, limiters
      ensures Valid()
      ensures fleet == Visited(backends, old(fleet), b, now)
      ensures taken == Takes(backends, old(fleet), b, now) && isProbe == Decision(backends, old(fleet), b, now).isProbe
    {
      var dec := Ask(b, now);
      taken, isProbe := false, dec.isProbe;
      if dec.allowed {
        taken := Reserve(b, spurious);
        if !taken {
          TakeBack(b, dec.isProbe, now);
        }
      }
    }

    /** The failover loop from `pos` to the next dispatch, or to the end of the order. */
    method WalkFrom(order: seq<nat>, start: nat, attempts: nat, now: int, spurious: nat) returns (stop: Stop)
      requires Valid() && InRange(backends, order)
      modifies this, breakers, limiters
      ensures Valid()
      ensures Progress(fleet, stop) == Walk(backends, old(fleet), order, start, attempts, now)
    {
      var pos := start;
      ghost var whole := Walk(backends, fleet, order, start, attempts, now);
      while pos < |order| && attempts < MaxAttempts
        invariant Valid() && whole == Walk(backends, fleet, order, pos, attempts, now)
        decreases |order| - pos
      {
        assert order[pos] in order;
        WalkOnce(backends, fleet, order, pos, attempts, now);
        var taken, isProbe := Visit(order[pos], now, spurious);
        if taken {
          return Dispatched(pos, isProbe);
        }
        pos := pos + 1;
      }
      return Exhausted;
    }
  }
}

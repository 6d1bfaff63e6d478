/** Stateful left-to-right translation of an input sequence into an output sequence. */
module Transducers {
  import opened Sequences

  /** A new state, and what was emitted on the way to it. */
  datatype Yield<S, E> = Yield(state: S, events: seq<E>)

  function Transduce<S, I, E>(step: (S, I) -> Yield<S, E>, s: S, input: seq<I>): Yield<S, E>
    decreases |input|
  {
    if input == [] then Yield(s, [])
    else
      var first := step(s, input[0]);
      var rest := Transduce(step, first.state, input[1..]);
      Yield(rest.state, first.events + rest.events)
  }

  lemma {:induction false} TransduceConcat<S, I, E>(step: (S, I) -> Yield<S, E>, s: S, a: seq<I>, b: seq<I>)
    ensures Transduce(step, s, a + b).state == Transduce(step, Transduce(step, s, a).state, b).state
    ensures Transduce(step, s, a + b).events ==
            Transduce(step, s, a).events + Transduce(step, Transduce(step, s, a).state, b).events
    decreases |a|
  {
    if a == [] {
      assert a + b == b;
    } else {
      assert (a + b)[1..] == a[1..] + b;
      TransduceConcat(step, step(s, a[0]).state, a[1..], b);
    }
  }

  lemma TransduceOneMore<S, I, E>(step: (S, I) -> Yield<S, E>, s: S, input: seq<I>, i: nat)
    requires i < |input|
    ensures var before := Transduce(step, s, input[..i]);
            && Transduce(step, s, input[..i + 1]).state == step(before.state, input[i]).state
            && Transduce(step, s, input[..i + 1]).events == before.events + step(before.state, input[i]).events
  {
    var t := Transduce(step, s, input[..i]).state;
    assert input[..i + 1] == input[..i] + [input[i]];
    TransduceConcat(step, s, input[..i], [input[i]]);
    assert Transduce(step, t, [input[i]]).events == step(t, input[i]).events + [];
  }

  /** Translating pieces one after the other is translating them joined. */
  lemma {:induction false} TransduceFlat<S, I, E>(
      step: (S, I) -> Yield<S, E>, piece: (S, seq<I>) -> Yield<S, E>, s: S, pieces: seq<seq<I>>)
    requires forall t, x :: piece(t, x) == Transduce(step, t, x)
    ensures Transduce(piece, s, pieces) == Transduce(step, s, Flatten(pieces))
    decreases |pieces|
  {
    if pieces != [] {
      TransduceFlat(step, piece, piece(s, pieces[0]).state, pieces[1..]);
      TransduceConcat(step, s, pieces[0], Flatten(pieces[1..]));
    }
  }
}

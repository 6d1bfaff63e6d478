/**
 The affinity key of a request: the first bytes of a canonical rendering of the
 model and the conversation, cut at a byte budget. Requests that agree on those
 bytes are routed alike.
 */
module AffinityKey {
  import opened Sequences
  import opened PrefixAffinity

  datatype Message = Message(role: string, content: string)

  const Separator: string := "\U{1F}"

  /** The canonical rendering before it is cut. */
  function Rendering(model: string, msgs: seq<Message>): string {
    model + Separator + Conversation(msgs)
  }

  function Turn(m: Message): string {
    m.role + ":" + m.content
  }

  function Conversation(msgs: seq<Message>): string {
    if msgs == [] then "" else Turn(msgs[0]) + Conversation(msgs[1..])
  }

  function Budget(prefixBytes: int): nat {
    if prefixBytes > 0 then prefixBytes else 0
  }

  function Take(s: string, n: nat): string {
    if |s| <= n then s else s[..n]
  }

  /** One capped append. */
  function AppendCapped(out: string, s: string, budget: nat): string {
    if |out| >= budget then out else out + Take(s, budget - |out|)
  }

  /** Appending to a cut string with the cap is cutting the appended string. */
  lemma CappedAppend(sofar: string, s: string, budget: nat)
    ensures AppendCapped(Take(sofar, budget), s, budget) == Take(sofar + s, budget)
  {
  }

  /** A string that fills the budget absorbs everything appended to it. */
  lemma FullAbsorbs(sofar: string, rest: string, budget: nat)
    requires |sofar| >= budget
    ensures Take(sofar + rest, budget) == Take(sofar, budget)
  {
  }

  lemma {:induction false} ConversationConcat(a: seq<Message>, b: seq<Message>)
    ensures Conversation(a + b) == Conversation(a) + Conversation(b)
  {
    if a == [] {
      assert a + b == b;
    } else {
      ConversationConcat(a[1..], b);
      assert (a + b)[1..] == a[1..] + b;
      ConcatAssociates(Turn(a[0]), Conversation(a[1..]), Conversation(b));
    }
  }

  lemma RenderingGrows(model: string, a: seq<Message>, b: seq<Message>)
    ensures Rendering(model, a + b) == Rendering(model, a) + Conversation(b)
  {
    ConversationConcat(a, b);
    ConcatAssociates(model + Separator, Conversation(a), Conversation(b));
  }

  lemma OneTurn(m: Message, sofar: string)
    ensures sofar + Conversation([m]) == sofar + m.role + ":" + m.content
  {
    assert [m][1..] == [];
    assert Conversation([m]) == Turn(m) + "" == Turn(m);
    ConcatAssociates(sofar, m.role + ":", m.content);
    ConcatAssociates(sofar, m.role, ":");
  }

  /** The rendering up to message i, and one message more. */
  lemma OneMessageMore(model: string, msgs: seq<Message>, i: nat)
    requires i < |msgs|
    ensures Rendering(model, msgs[..i + 1]) ==
            Rendering(model, msgs[..i]) + msgs[i].role + ":" + msgs[i].content
  {
    assert msgs[..i + 1] == msgs[..i] + [msgs[i]];
    RenderingGrows(model, msgs[..i], [msgs[i]]);
    OneTurn(msgs[i], Rendering(model, msgs[..i]));
  }

  /** The key of a request. */
  function Key(prefixBytes: int, model: string, msgs: seq<Message>): string {
    Take(Rendering(model, msgs), Budget(prefixBytes))
  }

  /** `canonical_affinity_string`: the loop stops early, yet returns exactly the first bytes of the whole rendering. */
  method CanonicalAffinityString(model: string, msgs: seq<Message>, prefixBytes: int) returns (out: string)
    ensures out == Key(prefixBytes, model, msgs)
    ensures out <= Rendering(model, msgs)
    ensures prefixBytes <= 0 ==> out == ""
    ensures 0 < prefixBytes <= |Rendering(model, msgs)| ==> |out| == prefixBytes
    ensures prefixBytes > |Rendering(model, msgs)| ==> out == Rendering(model, msgs)
  {
    var budget: nat := if prefixBytes > 0 then prefixBytes else 0;
    out := AppendCapped("", model, budget);
    out := AppendCapped(out, Separator, budget);
    CappedAppend("", model, budget);
    CappedAppend("" + model, Separator, budget);
    assert "" + model + Separator == Rendering(model, msgs[..0]);
    for i := 0 to |msgs|
      invariant out == Take(Rendering(model, msgs[..i]), budget)
    {
      ghost var sofar := Rendering(model, msgs[..i]);
      if |out| >= budget {
        RenderingGrows(model, msgs[..i], msgs[i..]);
        assert msgs[..i] + msgs[i..] == msgs;
        FullAbsorbs(sofar, Conversation(msgs[i..]), budget);
        return;
      }
      out := AppendCapped(out, msgs[i].role, budget);
      CappedAppend(sofar, msgs[i].role, budget);
      out := AppendCapped(out, ":", budget);
      CappedAppend(sofar + msgs[i].role, ":", budget);
      out := AppendCapped(out, msgs[i].content, budget);
      CappedAppend(sofar + msgs[i].role + ":", msgs[i].content, budget);
      OneMessageMore(model, msgs, i);
    }
    assert msgs[..|msgs|] == msgs;
  }

  lemma KeyByte(prefixBytes: int, model: string, msgs: seq<Message>, j: nat)
    requires j < prefixBytes && j < |Rendering(model, msgs)|
    ensures j < |Key(prefixBytes, model, msgs)| && Key(prefixBytes, model, msgs)[j] == Rendering(model, msgs)[j]
  {
  }

  lemma ModelLeads(model: string, msgs: seq<Message>)
    ensures |Rendering(model, msgs)| > |model| && Rendering(model, msgs)[|model|] == '\U{1F}'
    ensures Rendering(model, msgs)[..|model|] == model
  {
    assert Rendering(model, msgs) == model + (Separator + Conversation(msgs));
  }

  lemma KeyNamesModel(prefixBytes: int, model: string, msgs: seq<Message>)
    requires prefixBytes > |model|
    ensures Named(Key(prefixBytes, model, msgs), model)
  {
    ModelLeads(model, msgs);
  }

  /** The string starts with this name and a separator. */
  predicate Named(key: string, name: string) {
    |key| > |name| && key[..|name|] == name && key[|name|] == '\U{1F}'
  }

  lemma NameIsUnique(key: string, name: string, other: string)
    requires Named(key, name) && Named(key, other) && '\U{1F}' !in name && '\U{1F}' !in other
    ensures name == other
  {
    assert forall j :: 0 <= j < |name| ==> name[j] == key[j];
    assert forall j :: 0 <= j < |other| ==> other[j] == key[j];
  }

  /** Requests for different models never share a key, once the budget reaches past both names. */
  lemma KeyTellsModels(prefixBytes: int, model: string, msgs: seq<Message>, other: string, turns: seq<Message>)
    requires '\U{1F}' !in model && '\U{1F}' !in other
    requires prefixBytes > |model| && prefixBytes > |other|
    ensures Key(prefixBytes, model, msgs) == Key(prefixBytes, other, turns) ==> model == other
  {
    KeyNamesModel(prefixBytes, model, msgs);
    KeyNamesModel(prefixBytes, other, turns);
    if Key(prefixBytes, model, msgs) == Key(prefixBytes, other, turns) {
      NameIsUnique(Key(prefixBytes, model, msgs), model, other);
    }
  }

  lemma NextTurn(model: string, msgs: seq<Message>, m: Message, rest: seq<Message>, j: nat)
    requires j < |m.role + ":" + m.content|
    ensures var k := |Rendering(model, msgs)| + j;
            k < |Rendering(model, msgs + [m] + rest)| && Rendering(model, msgs + [m] + rest)[k] == (m.role + ":" + m.content)[j]
  {
    var sofar := Rendering(model, msgs);
    RenderingGrows(model, msgs, [m]);
    RenderingGrows(model, msgs + [m], rest);
    OneTurn(m, sofar);
    assert sofar + Conversation([m]) == sofar + (m.role + ":" + m.content);
  }

  /**
   Conversations that part within the budget have different keys: if two requests
   agree up to some message and there differ in the j-th byte of role, colon and
   content, a budget that reaches that byte tells them apart.
   */
  lemma KeyTellsMessages(
      prefixBytes: int, model: string, msgs: seq<Message>, m: Message, rest: seq<Message>, m': Message, rest': seq<Message>, j: nat)
    requires j < |m.role + ":" + m.content| && j < |m'.role + ":" + m'.content|
    requires (m.role + ":" + m.content)[j] != (m'.role + ":" + m'.content)[j]
    requires prefixBytes > |Rendering(model, msgs)| + j
    ensures Key(prefixBytes, model, msgs + [m] + rest) != Key(prefixBytes, model, msgs + [m'] + rest')
  {
    var k := |Rendering(model, msgs)| + j;
    NextTurn(model, msgs, m, rest, j);
    NextTurn(model, msgs, m', rest', j);
    KeyByte(prefixBytes, model, msgs + [m] + rest, k);
    KeyByte(prefixBytes, model, msgs + [m'] + rest', k);
  }

  // ---------------------------------------------------------------- stickiness

  /** The hash of a key, and the score of a backend under it; both uninterpreted. */
  datatype Hashes = Hashes(key: string -> int, score: (int, nat) -> int)

  function ScoresFor(h: Hashes, affinity: string): Scores {
    (id: nat) => h.score(h.key(affinity), id)
  }

  /** The route of a request over a candidate set. */
  function Route(h: Hashes, threshold: real, prefixBytes: int, model: string, msgs: seq<Message>, cs: seq<Candidate>): RouteOrder {
    Order(ScoresFor(h, Key(prefixBytes, model, msgs)), threshold, cs)
  }

  /** Later turns of a conversation never move it once its rendering fills the budget. */
  lemma LongConversationStays(
      h: Hashes, threshold: real, prefixBytes: int, cs: seq<Candidate>,
      model: string, msgs: seq<Message>, more: seq<Message>)
    requires |Rendering(model, msgs)| >= Budget(prefixBytes)
    ensures Route(h, threshold, prefixBytes, model, msgs + more, cs) == Route(h, threshold, prefixBytes, model, msgs, cs)
  {
    RenderingGrows(model, msgs, more);
    FullAbsorbs(Rendering(model, msgs), Conversation(more), Budget(prefixBytes));
  }

  /**
   Stickiness under churn: when a backend other than the chosen one leaves, a
   growing conversation whose rendering fills the budget is still sent to the
   same backend.
   */
  lemma ConversationSurvivesChurn(
      h: Hashes, threshold: real, prefixBytes: int, cs: seq<Candidate>, gone: nat,
      model: string, msgs: seq<Message>, more: seq<Message>)
    requires |Rendering(model, msgs)| >= Budget(prefixBytes)
    requires Route(h, threshold, prefixBytes, model, msgs, cs).order != []
    requires gone != Route(h, threshold, prefixBytes, model, msgs, cs).order[0]
    ensures var later := Route(h, threshold, prefixBytes, model, msgs + more, Remove(cs, gone));
            && later.order != []
            && later.order[0] == Route(h, threshold, prefixBytes, model, msgs, cs).order[0]
  {
    LongConversationStays(h, threshold, prefixBytes, Remove(cs, gone), model, msgs, more);
    RemovalKeepsHead(ScoresFor(h, Key(prefixBytes, model, msgs)), threshold, cs, gone);
  }
}

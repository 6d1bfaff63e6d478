/**
 One streaming attempt, from the upstream socket to the client's: the read loop of
 `Client::stream_chat`, the frame sink, `SseWriter`, and what the gateway writes
 once the loop is over. The two sockets are inputs: the upstream is a script of
 reads with their error codes, and the downstream may refuse any write.
 */
module StreamRelay {
  import opened Sequences
  import opened SseParser
  import opened SseFrames
  import opened Failover

  // ----------------------------------------------------------- the upstream

  /** The error code of one read: none, buffer full, budget exhausted, or anything else including EOF. */
  datatype Code = Fine | NeedBuffer | Expired | Broken

  /** `bodyDone` is what the HTTP parser says about the body after the read. */
  datatype Read = Read(bytes: string, code: Code, bodyDone: bool)

  /** After the scripted reads the upstream closes the connection. */
  datatype Upstream =
    | NoConnection
    | NoResponse
    | Answer(status: int, bodyDone: bool, script: seq<Read>)

  predicate Ends(r: Read) {
    r.code.Expired? || r.code.Broken? || r.bodyDone
  }

  function Received(script: seq<Read>): string {
    if script == [] then "" else script[0].bytes + if Ends(script[0]) then "" else Received(script[1..])
  }

  predicate Expires(script: seq<Read>) {
    script != [] && if Ends(script[0]) then script[0].code.Expired? else Expires(script[1..])
  }

  /**
   Whether the budget had run out when the n-th event was complete: whether the read
   that completed it, or that ended the stream before it, reported so.
   */
  predicate ExpiresBy(script: seq<Read>, s: State, n: nat) {
    script != [] &&
    var out := Feed(s, script[0].bytes);
    if Ends(script[0]) || n <= |out.events| then script[0].code.Expired?
    else ExpiresBy(script[1..], out.state, n - |out.events|)
  }

  /** Every byte the upstream delivers before its stream ends. */
  function Body(up: Upstream): string {
    if !up.Answer? || up.status >= 400 || up.bodyDone then "" else Received(up.script)
  }

  predicate RunsOut(up: Upstream) {
    up.Answer? && up.status < 400 && !up.bodyDone && Expires(up.script)
  }

  predicate HasDone(events: seq<Event>) {
    exists e :: e in events && e.IsDone()
  }

  // --------------------------------------------------------- the downstream

  datatype Item =
    | SseHead
    | Chunk(bytes: string)
    | LastChunk
    | JsonResponse(status: int)

  /** The client's socket. `accepts` says which writes, counted from the first, go through. */
  class Wire {
    const accepts: nat -> bool
    var writes: nat
    var sent: seq<Item>

    /** No write since the one numbered `from` was refused. */
    ghost predicate Kept(from: nat)
      reads this
    {
      forall i :: from <= i < writes ==> accepts(i)
    }

    constructor (accepts: nat -> bool)
      ensures this.accepts == accepts && writes == 0 && sent == []
    {
      this.accepts := accepts;
      writes, sent := 0, [];
    }

    method Write(item: Item) returns (ok: bool)
      modifies this
      ensures writes == old(writes) + 1
      ensures ok == accepts(old(writes))
      ensures sent == old(sent) + if ok then [item] else []
    {
      ok := accepts(writes);
      writes := writes + 1;
      if ok {
        sent := sent + [item];
      }
    }
  }

  /** Prints a response as chunked event stream. A write that throws reports false. */
  class SseWriter {
    const wire: Wire
    var headerSent: bool
    var ended: bool

    constructor (wire: Wire)
      ensures this.wire == wire && !headerSent && !ended
    {
      this.wire := wire;
      headerSent, ended := false, false;
    }

    method Begin() returns (ok: bool)
      modifies this, wire
      ensures headerSent == (old(headerSent) || ok) && ended == old(ended)
      ensures old(headerSent) ==> ok && wire.sent == old(wire.sent)
      ensures !old(headerSent) ==> wire.sent == old(wire.sent) + if ok then [SseHead] else []
      ensures wire.writes == old(wire.writes) + if old(headerSent) then 0 else 1
      ensures ok <==> wire.Kept(old(wire.writes))
    {
      if headerSent {
        return true;
      }
      ok := wire.Write(SseHead);
      headerSent := ok;
    }

    method WriteData(payload: string) returns (ok: bool)
      modifies wire
      ensures wire.sent == old(wire.sent) + if ok then [Chunk(Frame(payload))] else []
      ensures wire.writes == old(wire.writes) + 1
      ensures ok <==> wire.Kept(old(wire.writes))
    {
      var frame := "data: ";
      frame := frame + payload;
      frame := frame + "\n\n";
      ok := wire.Write(Chunk(frame));
    }

    method End() returns (ok: bool)
      modifies this, wire
      ensures headerSent == old(headerSent)
      ensures old(ended) ==> ok && wire.sent == old(wire.sent)
      ensures !old(ended) ==> wire.sent == old(wire.sent) + if ok then [LastChunk] else []
      ensures wire.writes == old(wire.writes) + if old(ended) then 0 else 1
      ensures ok <==> wire.Kept(old(wire.writes))
    {
      if ended {
        return true;
      }
      ok := wire.Write(LastChunk);
      ended := ok;
    }
  }

  lemma OneMore(before: seq<Event>, pending: seq<Event>, i: nat)
    requires i < |pending|
    ensures before + pending[..i] + [pending[i]] == before + pending[..i + 1] <= before + pending
    ensures HasDone(pending[..i + 1]) == (HasDone(pending[..i]) || pending[i].IsDone())
  {
    assert pending[..i + 1] == pending[..i] + [pending[i]];
    assert before + pending == (before + pending[..i + 1]) + pending[i + 1..];
  }

  function Payloads(events: seq<Event>): seq<string> {
    if events == [] then [] else Payloads(events[..|events| - 1]) + [events[|events| - 1].data]
  }

  /** One chunk per payload. */
  function Printed(payloads: seq<string>): seq<Item> {
    if payloads == [] then []
    else Printed(payloads[..|payloads| - 1]) + [Chunk(Frame(payloads[|payloads| - 1]))]
  }

  lemma PrintedSnoc(payloads: seq<string>, p: string)
    ensures Printed(payloads + [p]) == Printed(payloads) + [Chunk(Frame(p))]
  {
    assert (payloads + [p])[..|payloads|] == payloads;
  }

  /** What forwarding these events puts on the wire. */
  function Forwarded(events: seq<Event>): seq<Item> {
    if events == [] then [] else [SseHead] + Printed(Payloads(events))
  }

  /** Everything offered to the sink is on the wire, up to the write that failed. */
  ghost predicate Faithful(base: seq<Item>, sent: seq<Item>, offered: seq<Event>, started: bool, dead: bool) {
    if !dead then
      sent == base + Forwarded(offered) && (started <==> offered != [])
    else
      && offered != []
      && var before := offered[..|offered| - 1];
         if before == [] then sent == base + if started then [SseHead] else []
         else started && sent == base + Forwarded(before)
  }

  lemma OneForwarded(base: seq<Item>, sent: seq<Item>, offered: seq<Event>, started: bool, ev: Event)
    requires Faithful(base, sent, offered, started, false)
    ensures var header := if started then [] else [SseHead];
            Faithful(base, sent + header + [Chunk(Frame(ev.data))], offered + [ev], true, false)
  {
    assert (offered + [ev])[..|offered|] == offered;
    PrintedSnoc(Payloads(offered), ev.data);
  }

  lemma OneLost(base: seq<Item>, sent: seq<Item>, offered: seq<Event>, started: bool, ev: Event)
    requires Faithful(base, sent, offered, started, false)
    ensures Faithful(base, sent, offered + [ev], started, true)
    ensures !started ==> Faithful(base, sent + [SseHead], offered + [ev], true, true)
  {
    assert (offered + [ev])[..|offered|] == offered;
  }

  /** How many writes the sink has made for these events: the header, and one for each event behind it. */
  ghost function Writes(offered: seq<Event>, started: bool): nat {
    if offered == [] then 0 else if started then 1 + |offered| else 1
  }

  /** The gateway's callback for upstream events; `offered` is what it was called with while the client lived. */
  class FrameSink {
    const writer: SseWriter
    var headerStarted: bool
    var downstreamDead: bool
    ghost const base: seq<Item>
    ghost const first: nat
    ghost var offered: seq<Event>

    ghost predicate Valid()
      reads this, writer, writer.wire
    {
      && headerStarted == writer.headerSent
      && !writer.ended
      && Faithful(base, writer.wire.sent, offered, headerStarted, downstreamDead)
      && writer.wire.writes == first + Writes(offered, headerStarted)
      && (offered != [] ==> headerStarted == writer.wire.accepts(first))
      && (downstreamDead <==> !writer.wire.Kept(first))
    }

    constructor (wire: Wire)
      ensures Valid() && fresh(this) && fresh(writer) && writer.wire == wire
      ensures !headerStarted && !downstreamDead && base == wire.sent && first == wire.writes && offered == []
    {
      var w := new SseWriter(wire);
      writer := w;
      headerStarted, downstreamDead := false, false;
      base, first, offered := wire.sent, wire.writes, [];
    }

    method Accept(ev: Event) returns (keep: bool)
      requires Valid()
      modifies this, writer, writer.wire
      ensures Valid()
      ensures keep == !downstreamDead
      ensures old(downstreamDead) ==> downstreamDead && offered == old(offered) && headerStarted == old(headerStarted)
      ensures !old(downstreamDead) ==> offered == old(offered) + [ev]
    {
      if downstreamDead {
        return false;
      }
      OneForwarded(base, writer.wire.sent, offered, headerStarted, ev);
      OneLost(base, writer.wire.sent, offered, headerStarted, ev);
      offered := offered + [ev];
      if !headerStarted {
        var begun := writer.Begin();
        if !begun {
          downstreamDead := true;
          return false;
        }
        headerStarted := true;
      }
      var written := writer.WriteData(ev.data);
      downstreamDead := !written;
      return written;
    }

    /** `drain_pending`: offers events in order until the sink asks to stop. */
    method Drain(pending: seq<Event>) returns (stop: bool, sawDone: bool)
      requires Valid() && !downstreamDead
      modifies this, writer, writer.wire
      ensures Valid()
      ensures stop == downstreamDead
      ensures !stop ==> offered == old(offered) + pending && sawDone == HasDone(pending)
      ensures old(offered) <= offered <= old(offered) + pending
      ensures stop ==> |old(offered)| < |offered|
    {
      stop, sawDone := false, false;
      for i := 0 to |pending|
        invariant Valid() && !downstreamDead && !stop
        invariant offered == old(offered) + pending[..i]
        invariant sawDone == HasDone(pending[..i])
      {
        if pending[i].IsDone() {
          sawDone := true;
        }
        var keep := Accept(pending[i]);
        OneMore(old(offered), pending, i);
        if !keep {
          stop := true;
          break;
        }
      }
      assert pending[..|pending|] == pending;
    }
  }

  // ------------------------------------------------------------- the read loop

  /** The bytes fed so far, and what is still to come at read i. */
  ghost predicate Position(script: seq<Read>, i: nat, fed: string) {
    && i <= |script|
    && Received(script) == fed + Received(script[i..])
    && Expires(script) == Expires(script[i..])
  }

  /** The events complete before read i do not decide whether the budget runs out by a later one. */
  ghost predicate Timely(script: seq<Read>, i: nat, fed: string) {
    && i <= |script|
    && var sofar := Feed(Start, fed);
       forall n :: n > |sofar.events| ==>
         ExpiresBy(script, Start, n) == ExpiresBy(script[i..], sofar.state, n - |sofar.events|)
  }

  lemma AdvanceTime(script: seq<Read>, i: nat, fed: string)
    requires Timely(script, i, fed) && i < |script| && !Ends(script[i])
    ensures Timely(script, i + 1, fed + script[i].bytes)
  {
    FedFurther(fed, script[i].bytes);
    assert script[i..][1..] == script[i + 1..];
  }

  /** Whether the budget has run out by an event of read i is what that read reports. */
  lemma DecidedHere(script: seq<Read>, i: nat, fed: string, n: nat)
    requires Timely(script, i, fed) && i < |script|
    requires |Feed(Start, fed).events| < n <= |Feed(Start, fed + script[i].bytes).events|
    ensures ExpiresBy(script, Start, n) == script[i].code.Expired?
  {
    FedFurther(fed, script[i].bytes);
  }

  /** By an event that only the flush completes, the budget has run out if it ever does. */
  lemma {:induction false} ExpiresInTheEnd(script: seq<Read>, s: State, n: nat)
    requires n > |Feed(s, Received(script)).events|
    ensures ExpiresBy(script, s, n) == Expires(script)
    decreases |script|
  {
    if script != [] && !Ends(script[0]) {
      var out := Feed(s, script[0].bytes);
      FeedConcat(s, script[0].bytes, Received(script[1..]));
      ExpiresInTheEnd(script[1..], out.state, n - |out.events|);
    } else if script != [] {
      assert script[0].bytes + "" == script[0].bytes;
    }
  }

  lemma Advance(script: seq<Read>, i: nat, fed: string) returns (rest: string)
    requires Position(script, i, fed) && i < |script|
    ensures Received(script) == (fed + script[i].bytes) + rest
    ensures Ends(script[i]) ==> rest == "" && Expires(script) == script[i].code.Expired?
    ensures !Ends(script[i]) ==> Position(script, i + 1, fed + script[i].bytes)
  {
    rest := if Ends(script[i]) then "" else Received(script[i + 1..]);
    assert script[i..][1..] == script[i + 1..];
  }

  lemma FedFurther(fed: string, bytes: string)
    ensures var s := Feed(Start, fed).state;
            && Feed(Start, fed + bytes).state == Feed(s, bytes).state
            && Feed(Start, fed + bytes).events == Feed(Start, fed).events + Feed(s, bytes).events
  {
    FeedConcat(Start, fed, bytes);
  }

  lemma NoMoreThanEverything(fed: string, rest: string)
    ensures Feed(Start, fed).events <= Feed(Start, fed + rest).events
    ensures rest == "" ==> fed + rest == fed
  {
    FedFurther(fed, rest);
  }

  lemma HasDoneConcat(a: seq<Event>, b: seq<Event>)
    ensures HasDone(a + b) == (HasDone(a) || HasDone(b))
  {
    forall e | e in a + b ensures e in a || e in b {
    }
    forall e | e in a || e in b ensures e in a + b {
    }
  }

  /** Parser, sink and sentinel flag agree with the bytes fed so far. */
  ghost predicate InStep(parser: Parser, sink: FrameSink, fed: string, sawDone: bool)
    reads parser, sink
  {
    && parser.Snapshot() == Feed(Start, fed).state
    && sink.offered == Feed(Start, fed).events
    && sawDone == HasDone(sink.offered)
  }

  /** Parses the bytes of one read and forwards the events they complete. */
  method Consume(bytes: string, parser: Parser, sink: FrameSink, sawBefore: bool, ghost fed: string)
    returns (stop: bool, sawDone: bool)
    requires sink.Valid() && !sink.downstreamDead
    requires InStep(parser, sink, fed, sawBefore)
    modifies parser, sink, sink.writer, sink.writer.wire
    ensures sink.Valid() && stop == sink.downstreamDead
    ensures sink.offered <= Feed(Start, fed + bytes).events
    ensures stop ==> |Feed(Start, fed).events| < |sink.offered|
    ensures !stop ==> InStep(parser, sink, fed + bytes, sawDone)
  {
    FedFurther(fed, bytes);
    stop, sawDone := false, sawBefore;
    if bytes != "" {
      var pending := parser.FeedChunk(bytes);
      HasDoneConcat(sink.offered, pending);
      var done;
      stop, done := sink.Drain(pending);
      sawDone := sawDone || done;
    } else {
      assert fed + bytes == fed;
    }
  }

  /** One read of the body: what it forwards, and what it leaves to come. */
  method ReadOnce(script: seq<Read>, i: nat, parser: Parser, sink: FrameSink, sawBefore: bool, ghost fed: string)
    returns (stop: bool, sawDone: bool)
    requires i < |script| && Position(script, i, fed) && Timely(script, i, fed)
    requires sink.Valid() && !sink.downstreamDead && InStep(parser, sink, fed, sawBefore)
    modifies parser, sink, sink.writer, sink.writer.wire
    ensures sink.Valid() && stop == sink.downstreamDead
    ensures sink.offered <= Feed(Start, Received(script)).events
    ensures stop ==> ExpiresBy(script, Start, |sink.offered|) == script[i].code.Expired?
    ensures !stop ==> InStep(parser, sink, fed + script[i].bytes, sawDone)
    ensures Ends(script[i]) ==> Received(script) == fed + script[i].bytes && Expires(script) == script[i].code.Expired?
    ensures !Ends(script[i]) ==> Position(script, i + 1, fed + script[i].bytes) && Timely(script, i + 1, fed + script[i].bytes)
  {
    ghost var rest := Advance(script, i, fed);
    NoMoreThanEverything(fed + script[i].bytes, rest);
    stop, sawDone := Consume(script[i].bytes, parser, sink, sawBefore, fed);
    if stop {
      DecidedHere(script, i, fed, |sink.offered|);
    }
    if !Ends(script[i]) {
      AdvanceTime(script, i, fed);
    }
  }

  /** Reads until the body ends, an error code ends it, or the client is gone. */
  method ReadBody(script: seq<Read>, parser: Parser, sink: FrameSink)
    returns (stop: bool, sawDone: bool, timedOut: bool)
    requires parser.Snapshot() == Start
    requires sink.Valid() && !sink.downstreamDead && sink.offered == []
    modifies parser, sink, sink.writer, sink.writer.wire
    ensures sink.Valid() && stop == sink.downstreamDead
    ensures sink.offered <= Feed(Start, Received(script)).events
    ensures timedOut == if stop then ExpiresBy(script, Start, |sink.offered|) else Expires(script)
    ensures !stop ==> InStep(parser, sink, Received(script), sawDone)
  {
    stop, sawDone, timedOut := false, false, false;
    var bodyDone := false;
    var i := 0;
    ghost var fed := "";
    assert script[0..] == script;
    while i < |script| && !bodyDone && !stop
      invariant 0 <= i <= |script| && !timedOut
      invariant sink.Valid() && stop == sink.downstreamDead
      invariant sink.offered <= Feed(Start, Received(script)).events
      invariant stop ==> !ExpiresBy(script, Start, |sink.offered|)
      invariant !stop ==> InStep(parser, sink, fed, sawDone)
      invariant !stop && bodyDone ==> Received(script) == fed && !Expires(script)
      invariant !stop && !bodyDone ==> Position(script, i, fed) && Timely(script, i, fed)
    {
      var read := script[i];
      stop, sawDone := ReadOnce(script, i, parser, sink, sawDone, fed);
      i := i + 1;
      fed := fed + read.bytes;
      bodyDone := read.bodyDone;
      if read.code == NeedBuffer {
        continue;
      }
      if read.code == Expired {
        timedOut := true;
        return;
      }
      if read.code == Broken {
        return;
      }
    }
    if !stop && !bodyDone {
      assert script[i..] == [];
      assert Received(script) == fed;
    }
  }

  /** Flushes the parser's tail and forwards what that completes. */
  method FlushRest(parser: Parser, sink: FrameSink, sawBefore: bool, ghost body: string) returns (stop: bool, sawDone: bool)
    requires sink.Valid() && !sink.downstreamDead
    requires InStep(parser, sink, body, sawBefore)
    modifies parser, sink, sink.writer, sink.writer.wire
    ensures sink.Valid() && stop == sink.downstreamDead
    ensures sink.offered <= Batch(body)
    ensures stop ==> |Feed(Start, body).events| < |sink.offered|
    ensures !stop ==> sink.offered == Batch(body) && sawDone == HasDone(Batch(body))
  {
    WholeBody(body);
    var reported, pending := parser.FlushTail();
    HasDoneConcat(sink.offered, pending);
    var done;
    stop, done := sink.Drain(pending);
    sawDone := sawBefore || done;
  }

  /** Reads the body and flushes the parser's tail. */
  method StreamBody(script: seq<Read>, bodyDone: bool, sink: FrameSink)
    returns (stop: bool, sawDone: bool, timedOut: bool)
    requires sink.Valid() && !sink.downstreamDead && sink.offered == []
    modifies sink, sink.writer, sink.writer.wire
    ensures sink.Valid() && stop == sink.downstreamDead
    ensures var events := Batch(if bodyDone then "" else Received(script));
            && sink.offered <= events
            && (!stop ==> sink.offered == events && sawDone == HasDone(events))
    ensures timedOut == (!bodyDone && if stop then ExpiresBy(script, Start, |sink.offered|) else Expires(script))
  {
    var parser := new Parser();
    ghost var body := if bodyDone then "" else Received(script);
    stop, sawDone, timedOut := false, false, false;
    if !bodyDone {
      stop, sawDone, timedOut := ReadBody(script, parser, sink);
      NoMoreThanBatch(body);
    }
    if !stop {
      stop, sawDone := FlushRest(parser, sink, sawDone, body);
      if stop && !bodyDone {
        ExpiresInTheEnd(script, Start, |sink.offered|);
      }
    }
  }

  lemma NoMoreThanBatch(body: string)
    ensures Feed(Start, body).events <= Batch(body)
  {
    WholeBody(body);
  }

  /** `Client::stream_chat` with the gateway's sink, reported as the flags the gateway looks at. */
  method StreamChat(up: Upstream, sink: FrameSink) returns (o: StreamOutcome)
    requires sink.Valid() && !sink.downstreamDead && sink.offered == []
    modifies sink, sink.writer, sink.writer.wire
    ensures sink.Valid()
    ensures o.headerStarted == sink.headerStarted && o.downstreamDead == sink.downstreamDead
    ensures o.connected == !up.NoConnection? && o.status == if up.Answer? then up.status else 0
    ensures Feasible(o)
    ensures sink.offered <= Batch(Body(up))
    ensures !o.downstreamDead ==> sink.offered == Batch(Body(up))
    ensures !o.downstreamDead ==> o.timedOut == RunsOut(up)
    ensures o.downstreamDead ==> up.Answer? && o.timedOut == ExpiresBy(up.script, Start, |sink.offered|)
    ensures !o.downstreamDead && up.Answer? && up.status < 400 ==>
              o.aborted == (!RunsOut(up) && !HasDone(Batch(Body(up))))
  {
    NothingFromNothing();
    if up.NoConnection? {
      return StreamOutcome(false, 0, false, false, false, false);
    }
    if up.NoResponse? {
      return StreamOutcome(true, 0, false, true, false, false);
    }
    if up.status >= 400 {
      return StreamOutcome(true, up.status, false, false, false, false);
    }
    var stop, sawDone, timedOut := StreamBody(up.script, up.bodyDone, sink);
    return StreamOutcome(true, up.status, timedOut, !sawDone && !stop && !timedOut, sink.headerStarted, sink.downstreamDead);
  }

  lemma NothingFromNothing()
    ensures Batch("") == [] && !HasDone([])
  {
    WholeBody("");
  }

  // ------------------------------------------------------ the whole attempt

  /** The payloads of the two terminal error events. */
  datatype Messages = Messages(timedOut: string, aborted: string)

  /** The end of a stream that reached the client: an error event unless it ended by itself with its sentinel. */
  function Closing(up: Upstream, m: Messages): seq<string> {
    if RunsOut(up) then [m.timedOut]
    else if HasDone(Batch(Body(up))) then []
    else [m.aborted]
  }

  /** What a live client receives from one attempt. */
  function Transcript(up: Upstream, m: Messages, mayRetry: bool): seq<Item> {
    var events := Batch(Body(up));
    if events != [] then Delivered(events, Closing(up, m))
    else if mayRetry then []
    else [JsonResponse(if up.Answer? && up.status >= 400 then up.status else if RunsOut(up) then 504 else 502)]
  }

  function Delivered(events: seq<Event>, closing: seq<string>): seq<Item> {
    [SseHead] + Printed(Payloads(events) + closing) + [LastChunk]
  }

  /** A response has one head, chunks only under an event stream head, and nothing after its terminator. */
  ghost predicate WellFormedResponse(items: seq<Item>) {
    && (items != [] ==> items[0] == SseHead || items[0].JsonResponse?)
    && (|items| > 1 ==> items[0] == SseHead)
    && (forall i :: 0 < i < |items| - 1 ==> items[i].Chunk?)
    && (|items| > 1 ==> items[|items| - 1].Chunk? || items[|items| - 1] == LastChunk)
  }

  ghost predicate AllChunks(items: seq<Item>) {
    forall i :: 0 <= i < |items| ==> items[i].Chunk?
  }

  lemma {:induction false} PrintedAreChunks(payloads: seq<string>)
    ensures AllChunks(Printed(payloads))
  {
    if payloads != [] {
      PrintedAreChunks(payloads[..|payloads| - 1]);
    }
  }

  lemma StreamResponse(base: seq<Item>, chunks: seq<Item>, last: seq<Item>)
    requires AllChunks(chunks) && (last == [] || last == [LastChunk])
    ensures WellFormedResponse((base + ([SseHead] + chunks) + last)[|base|..])
  {
    assert (base + ([SseHead] + chunks) + last)[|base|..] == [SseHead] + (chunks + last);
  }

  /** What a dead client's sink left on the wire. */
  lemma DeadResponse(sink: FrameSink)
    requires sink.Valid() && sink.downstreamDead
    ensures sink.base <= sink.writer.wire.sent
    ensures WellFormedResponse(sink.writer.wire.sent[|sink.base|..])
  {
    var before := sink.offered[..|sink.offered| - 1];
    PrintedAreChunks(Payloads(before));
    StreamResponse(sink.base, Printed(Payloads(before)), []);
    StreamResponse(sink.base, [], []);
    var sent, base := sink.writer.wire.sent, sink.base;
    if before != [] {
      assert sent == base + ([SseHead] + Printed(Payloads(before))) + [];
    } else if sink.headerStarted {
      assert sent == base + ([SseHead] + []) + [];
    } else {
      assert sent == base;
    }
  }

  /** No header was written, yet the upstream did not fail: the client died on the header. */
  method ConcludeEmpty(sink: FrameSink)
    requires sink.Valid() && !sink.headerStarted && sink.downstreamDead
    modifies sink.writer, sink.writer.wire
    ensures sink.writer.wire.writes >= old(sink.writer.wire.writes)
    ensures sink.base <= sink.writer.wire.sent
    ensures WellFormedResponse(sink.writer.wire.sent[|sink.base|..])
    ensures sink.writer.wire.sent <= sink.base + [SseHead, Chunk(Frame("[DONE]")), LastChunk]
    ensures sink.writer.wire.Kept(old(sink.writer.wire.writes)) ==>
              sink.writer.wire.sent == sink.base + [SseHead, Chunk(Frame("[DONE]")), LastChunk]
  {
    ghost var base := sink.base;
    assert sink.writer.wire.sent == base;
    var begun := sink.writer.Begin();
    ghost var chunks: seq<Item>, last: seq<Item> := [], [];
    if begun {
      var written := sink.writer.WriteData("[DONE]");
      if written {
        chunks := [Chunk(Frame("[DONE]"))];
        var ended := sink.writer.End();
        last := if ended then [LastChunk] else [];
      }
      StreamResponse(base, chunks, last);
      assert sink.writer.wire.sent == base + ([SseHead] + chunks) + last;
    }
  }

  /** Bytes reached a client that is still there: end the stream, after an error event if `error` has one. */
  method ConcludeStream(sink: FrameSink, error: seq<string>)
    requires sink.Valid() && sink.headerStarted && !sink.downstreamDead && |error| <= 1
    modifies sink.writer, sink.writer.wire
    ensures sink.writer.wire.writes >= old(sink.writer.wire.writes)
    ensures sink.base <= sink.writer.wire.sent
    ensures WellFormedResponse(sink.writer.wire.sent[|sink.base|..])
    ensures sink.writer.wire.Kept(sink.first) ==>
              sink.writer.wire.sent == sink.base + Delivered(sink.offered, error)
  {
    ghost var payloads, last: seq<Item> := Payloads(sink.offered), [];
    assert payloads + [] == payloads;
    var written := true;
    if error != [] {
      assert error == [error[0]];
      OneMorePayload(sink.base, payloads, error[0]);
      written := sink.writer.WriteData(error[0]);
      if written {
        payloads := payloads + error;
      }
    }
    assert sink.writer.wire.sent == sink.base + ([SseHead] + Printed(payloads));
    if written {
      var ended := sink.writer.End();
      last := if ended then [LastChunk] else [];
    }
    ResponseIs(sink.base, payloads, last, sink.writer.wire.sent);
  }

  lemma OneMorePayload(base: seq<Item>, payloads: seq<string>, p: string)
    ensures base + ([SseHead] + Printed(payloads)) + [Chunk(Frame(p))] == base + ([SseHead] + Printed(payloads + [p]))
  {
    PrintedSnoc(payloads, p);
    ConcatAssociates(base, [SseHead] + Printed(payloads), [Chunk(Frame(p))]);
    ConcatAssociates([SseHead], Printed(payloads), [Chunk(Frame(p))]);
  }

  lemma ResponseIs(base: seq<Item>, payloads: seq<string>, last: seq<Item>, sent: seq<Item>)
    requires sent == base + ([SseHead] + Printed(payloads)) + last
    requires last == [] || last == [LastChunk]
    ensures base <= sent && WellFormedResponse(sent[|base|..])
    ensures sent == base + ([SseHead] + Printed(payloads) + last)
  {
    PrintedAreChunks(payloads);
    StreamResponse(base, Printed(payloads), last);
  }

  /** Nothing was sent before: reply with a status as JSON. */
  method ReplyJson(wire: Wire, status: int)
    modifies wire
    ensures wire.writes == old(wire.writes) + 1
    ensures old(wire.sent) <= wire.sent && WellFormedResponse(wire.sent[|old(wire.sent)|..])
    ensures wire.Kept(old(wire.writes)) ==> wire.sent == old(wire.sent) + [JsonResponse(status)]
  {
    var ok := wire.Write(JsonResponse(status));
    assert wire.sent[|old(wire.sent)|..] == if ok then [JsonResponse(status)] else [];
  }

  lemma SilentResponse(sent: seq<Item>)
    ensures WellFormedResponse(sent[|sent|..])
  {
  }

  /** What a client that refuses nothing receives once the read loop has left these flags and events. */
  function Concluded(o: StreamOutcome, events: seq<Event>, m: Messages, mayRetry: bool): seq<Item> {
    if o.headerStarted then
      Delivered(events, if o.timedOut then [m.timedOut] else if o.aborted then [m.aborted] else [])
    else if mayRetry then []
    else [JsonResponse(if o.status >= 400 then o.status else if o.timedOut then 504 else 502)]
  }

  /** What the gateway does once the read loop is over. */
  method Conclude(o: StreamOutcome, sink: FrameSink, m: Messages, mayRetry: bool) returns (j: Judgement)
    requires sink.Valid() && Feasible(o)
    requires o.headerStarted == sink.headerStarted && o.downstreamDead == sink.downstreamDead
    modifies sink.writer, sink.writer.wire
    ensures j == JudgeStream(o, mayRetry)
    ensures sink.writer.wire.writes >= old(sink.writer.wire.writes)
    ensures j.next.TryNext? ==> sink.writer.wire.sent == sink.base
    ensures sink.base <= sink.writer.wire.sent && WellFormedResponse(sink.writer.wire.sent[|sink.base|..])
    ensures sink.writer.wire.Kept(sink.first) ==>
              !o.downstreamDead && sink.writer.wire.sent == sink.base + Concluded(o, sink.offered, m, mayRetry)
  {
    if !o.headerStarted {
      assert sink.writer.wire.sent == sink.base;
      if o.status >= 400 || !o.connected || o.timedOut || o.aborted {
        SilentResponse(sink.base);
        if mayRetry {
          return Judgement(Failed, TryNext);
        }
        var status := if o.status >= 400 then o.status else if o.timedOut then 504 else 502;
        ReplyJson(sink.writer.wire, status);
        return Judgement(Failed, Reply(status));
      }
      ConcludeEmpty(sink);
      return Judgement(Succeeded, SseEmpty);
    }
    if o.downstreamDead {
      DeadResponse(sink);
      return Judgement(Unresolved, HangUp);
    }
    if o.aborted || o.timedOut {
      ConcludeStream(sink, [if o.timedOut then m.timedOut else m.aborted]);
      return Judgement(Failed, SseError);
    }
    ConcludeStream(sink, []);
    return Judgement(Succeeded, SseEnd);
  }

  /** Among the writes of these events, behind the header numbered `first`, one is refused. */
  ghost predicate Interrupted(accepts: nat -> bool, first: nat, events: seq<Event>) {
    exists i :: first < i <= first + |events| && !accepts(i)
  }

  /** The client died after the header exactly if one of the event writes is refused. */
  lemma InterruptedIsDead(sink: FrameSink, events: seq<Event>)
    requires sink.Valid() && sink.headerStarted
    requires sink.offered <= events && (!sink.downstreamDead ==> sink.offered == events)
    ensures sink.downstreamDead <==> Interrupted(sink.writer.wire.accepts, sink.first, events)
  {
  }

  /** The header goes out with the first event, unless the client refuses it; then that event is all that was offered. */
  lemma HeaderFate(sink: FrameSink)
    requires sink.Valid()
    ensures sink.headerStarted <==> sink.offered != [] && sink.writer.wire.accepts(sink.first)
    ensures sink.downstreamDead ==> sink.offered != []
    ensures !sink.headerStarted && sink.offered != [] ==> sink.downstreamDead && |sink.offered| == 1
  {
  }

  lemma ConcludedIs(up: Upstream, o: StreamOutcome, m: Messages, mayRetry: bool)
    requires o.status == (if up.Answer? then up.status else 0) && o.timedOut == RunsOut(up)
    requires o.headerStarted <==> Batch(Body(up)) != []
    requires o.headerStarted ==> o.aborted == (!RunsOut(up) && !HasDone(Batch(Body(up))))
    ensures Concluded(o, Batch(Body(up)), m, mayRetry) == Transcript(up, m, mayRetry)
  {
  }

  /** The stream had events, and the client refused the header, in time. */
  predicate RefusedInTime(up: Upstream, accepted: bool) {
    && up.Answer? && up.status < 400 && Batch(Body(up)) != []
    && !accepted && !ExpiresBy(up.script, Start, 1)
  }

  lemma EmptyIsRefused(up: Upstream, o: StreamOutcome, accepted: bool, mayRetry: bool)
    requires Feasible(o) && (o.downstreamDead ==> Batch(Body(up)) != [])
    requires o.headerStarted <==> Batch(Body(up)) != [] && accepted
    requires Batch(Body(up)) != [] && !accepted ==>
               o.downstreamDead && up.Answer? && up.status < 400 && o.timedOut == ExpiresBy(up.script, Start, 1)
    ensures JudgeStream(o, mayRetry).next.SseEmpty? <==> RefusedInTime(up, accepted)
  {
  }

  /** The client took the header and refused a later event. */
  ghost predicate CutOff(up: Upstream, accepts: nat -> bool, first: nat) {
    Batch(Body(up)) != [] && accepts(first) && Interrupted(accepts, first, Batch(Body(up)))
  }

  /** The client took the header and every event, and the stream carried its sentinel and ended in time. */
  ghost predicate Served(up: Upstream, accepts: nat -> bool, first: nat) {
    && HasDone(Batch(Body(up))) && !RunsOut(up)
    && accepts(first) && !Interrupted(accepts, first, Batch(Body(up)))
  }

  lemma VerdictIs(up: Upstream, o: StreamOutcome, accepts: nat -> bool, first: nat, mayRetry: bool)
    requires Feasible(o) && (o.headerStarted <==> Batch(Body(up)) != [] && accepts(first))
    requires JudgeStream(o, mayRetry).next.SseEmpty? <==> RefusedInTime(up, accepts(first))
    requires o.headerStarted ==> (o.downstreamDead <==> Interrupted(accepts, first, Batch(Body(up))))
    requires o.headerStarted && !o.downstreamDead ==>
               o.timedOut == RunsOut(up) && o.aborted == (!RunsOut(up) && !HasDone(Batch(Body(up))))
    ensures var v := JudgeStream(o, mayRetry).verdict;
            && (v == Unresolved <==> CutOff(up, accepts, first))
            && (v == Succeeded <==> RefusedInTime(up, accepts(first)) || Served(up, accepts, first))
  {
  }

  /** One upstream call with a fresh writer and sink. */
  method Relay(up: Upstream, wire: Wire, ghost m: Messages, ghost mayRetry: bool) returns (sink: FrameSink, o: StreamOutcome)
    modifies wire
    ensures sink.Valid() && Feasible(o) && fresh(sink) && fresh(sink.writer) && sink.writer.wire == wire
    ensures sink.base == old(wire.sent) && sink.first == old(wire.writes)
    ensures o.headerStarted == sink.headerStarted && o.downstreamDead == sink.downstreamDead
    ensures o.headerStarted <==> Batch(Body(up)) != [] && wire.accepts(old(wire.writes))
    ensures JudgeStream(o, mayRetry).next.SseEmpty? <==> RefusedInTime(up, wire.accepts(old(wire.writes)))
    ensures !o.downstreamDead ==> Concluded(o, sink.offered, m, mayRetry) == Transcript(up, m, mayRetry)
    ensures var v := JudgeStream(o, mayRetry).verdict;
            && (v == Unresolved <==> CutOff(up, wire.accepts, old(wire.writes)))
            && (v == Succeeded <==> RefusedInTime(up, wire.accepts(old(wire.writes))) || Served(up, wire.accepts, old(wire.writes)))
  {
    sink := new FrameSink(wire);
    o := StreamChat(up, sink);
    NothingFromNothing();
    HeaderFate(sink);
    EmptyIsRefused(up, o, wire.accepts(sink.first), mayRetry);
    if o.headerStarted {
      InterruptedIsDead(sink, Batch(Body(up)));
    }
    VerdictIs(up, o, wire.accepts, sink.first, mayRetry);
    if !o.downstreamDead {
      ConcludedIs(up, o, m, mayRetry);
    }
  }

  /** The streaming branch of the failover walk for one backend. */
  method Attempt(up: Upstream, wire: Wire, m: Messages, mayRetry: bool)
    returns (o: StreamOutcome, j: Judgement)
    modifies wire
    ensures Feasible(o) && j == JudgeStream(o, mayRetry)
    ensures wire.writes >= old(wire.writes)
    ensures o.headerStarted <==> Batch(Body(up)) != [] && wire.accepts(old(wire.writes))
    ensures j.next.TryNext? ==> wire.sent == old(wire.sent)
    ensures j.next.SseEmpty? <==> RefusedInTime(up, wire.accepts(old(wire.writes)))
    ensures j.verdict == Unresolved <==> CutOff(up, wire.accepts, old(wire.writes))
    ensures j.verdict == Succeeded <==>
              RefusedInTime(up, wire.accepts(old(wire.writes))) || Served(up, wire.accepts, old(wire.writes))
    ensures wire.Kept(old(wire.writes)) ==>
              j.verdict == if HasDone(Batch(Body(up))) && !RunsOut(up) then Succeeded else Failed
    ensures wire.Kept(old(wire.writes)) ==>
              !o.downstreamDead && wire.sent == old(wire.sent) + Transcript(up, m, mayRetry)
    ensures old(wire.sent) <= wire.sent && WellFormedResponse(wire.sent[|old(wire.sent)|..])
  {
    var sink;
    sink, o := Relay(up, wire, m, mayRetry);
    j := Conclude(o, sink, m, mayRetry);
  }

  /** `Client::post_chat`: whatever goes wrong after connecting leaves status 0 behind. */
  method PostChat(up: UnaryUpstream) returns (o: UnaryOutcome)
    ensures o == Collect(up)
  {
    o := UnaryOutcome(false, 0);
    if up.Unreachable? {
      return;
    }
    o := o.(connected := true);
    if up.Silent? {
      return;
    }
    o := o.(status := up.status);
  }

  /** What a client that refuses nothing receives from a non-streaming attempt. */
  function UnaryTranscript(up: UnaryUpstream, mayRetry: bool): seq<Item> {
    match up
    case Unreachable => []
    case Silent => [JsonResponse(200)]
    case Answered(status) =>
      if status >= 500 && mayRetry then [] else [JsonResponse(if status >= 400 then status else 200)]
  }

  /**
   The non-streaming branch of the failover walk for one backend. The breaker is told
   the truth exactly when the upstream did not go silent; a silent one counts as a
   success and is answered 200.
   */
  method AttemptUnary(up: UnaryUpstream, wire: Wire, mayRetry: bool) returns (j: Judgement)
    modifies wire
    ensures j == JudgeUnary(Collect(up), mayRetry)
    ensures j.verdict != Unresolved
    ensures (j.verdict == Succeeded <==> ServedUnary(up)) <==> !up.Silent?
    ensures j.next.TryNext? ==> wire.sent == old(wire.sent)
    ensures wire.writes >= old(wire.writes)
    ensures wire.Kept(old(wire.writes)) ==> wire.sent == old(wire.sent) + UnaryTranscript(up, mayRetry)
    ensures up.Answered? && up.status >= 400 && !j.next.TryNext? ==> j.next == Reply(up.status)
    ensures wire.Kept(old(wire.writes)) && j.next.Reply? ==> wire.sent == old(wire.sent) + [JsonResponse(j.next.status)]
    ensures old(wire.sent) <= wire.sent && WellFormedResponse(wire.sent[|old(wire.sent)|..])
  {
    SilentResponse(wire.sent);
    var o := PostChat(up);
    if !o.connected {
      return Judgement(Failed, TryNext);
    }
    if o.status >= 500 {
      if mayRetry {
        return Judgement(Failed, TryNext);
      }
      ReplyJson(wire, o.status);
      return Judgement(Failed, Reply(o.status));
    }
    if o.status >= 400 {
      ReplyJson(wire, o.status);
      return Judgement(Succeeded, Reply(o.status));
    }
    ReplyJson(wire, 200);
    return Judgement(Succeeded, Reply(200));
  }

  // ------------------------------------------------------ the whole response

  /** One dispatch of a request; `mayRetry` says that budget and candidates are left. */
  datatype Call =
    | StreamCall(up: Upstream, mayRetry: bool)
    | UnaryCall(unary: UnaryUpstream, mayRetry: bool)

  function CallTranscript(c: Call, m: Messages): seq<Item> {
    match c
    case StreamCall(up, mayRetry) => Transcript(up, m, mayRetry)
    case UnaryCall(up, mayRetry) => UnaryTranscript(up, mayRetry)
  }

  /** What a client that refuses nothing receives: the transcript of the first call that sends anything, or a 503. */
  function Response(calls: seq<Call>, m: Messages): (items: seq<Item>)
    ensures items != []
  {
    if calls == [] then [JsonResponse(503)]
    else if CallTranscript(calls[0], m) != [] then CallTranscript(calls[0], m)
    else Response(calls[1..], m)
  }

  /**
   The failover loop over the dispatches of one request. Whatever client and
   upstreams do, all that is written for the request is one well-formed response.
   */
  method Respond(calls: seq<Call>, wire: Wire, m: Messages)
    modifies wire
    ensures old(wire.sent) <= wire.sent && WellFormedResponse(wire.sent[|old(wire.sent)|..])
    ensures wire.Kept(old(wire.writes)) ==> wire.sent == old(wire.sent) + Response(calls, m)
  {
    assert calls[0..] == calls;
    for i := 0 to |calls|
      invariant wire.sent == old(wire.sent) && wire.writes >= old(wire.writes)
      invariant wire.Kept(old(wire.writes)) ==> Response(calls, m) == Response(calls[i..], m)
    {
      assert calls[i..][1..] == calls[i + 1..];
      ghost var before := wire.writes;
      var j;
      if calls[i].StreamCall? {
        var o;
        o, j := Attempt(calls[i].up, wire, m, calls[i].mayRetry);
      } else {
        j := AttemptUnary(calls[i].unary, wire, calls[i].mayRetry);
      }
      assert wire.Kept(old(wire.writes)) ==> wire.Kept(before);
      if !j.next.TryNext? {
        return;
      }
    }
    ReplyJson(wire, 503);
  }

  // -------------------------------------------------- no silent truncation

  /** The bytes of the chunked body, as the client's own parser receives them. */
  function ChunkBytes(items: seq<Item>): string {
    if items == [] then ""
    else ChunkBytes(items[..|items| - 1]) +
         if items[|items| - 1].Chunk? then items[|items| - 1].bytes else ""
  }

  lemma {:induction false} ChunkBytesConcat(a: seq<Item>, b: seq<Item>)
    ensures ChunkBytes(a + b) == ChunkBytes(a) + ChunkBytes(b)
  {
    if b == [] {
      assert a + b == a;
    } else {
      ChunkBytesConcat(a, b[..|b| - 1]);
      assert (a + b)[..|a + b| - 1] == a + b[..|b| - 1];
    }
  }

  lemma {:induction false} FramesSnoc(payloads: seq<string>, p: string)
    ensures Frames(payloads + [p]) == Frames(payloads) + Frame(p)
  {
    if payloads == [] {
      assert payloads + [p] == [p];
      assert [p][1..] == [];
      assert Frame(p) + Frames([]) == Frame(p) == "" + Frame(p);
    } else {
      FramesSnoc(payloads[1..], p);
      assert (payloads + [p])[1..] == payloads[1..] + [p];
    }
  }

  lemma {:induction false} PrintedBytes(payloads: seq<string>)
    ensures ChunkBytes(Printed(payloads)) == Frames(payloads)
  {
    if payloads != [] {
      var front, p := payloads[..|payloads| - 1], payloads[|payloads| - 1];
      PrintedBytes(front);
      FramesSnoc(front, p);
      assert payloads == front + [p];
      PrintedSnoc(front, p);
      assert (Printed(front) + [Chunk(Frame(p))])[..|Printed(front)|] == Printed(front);
    }
  }

  /** The body of a delivered stream is the frames of its payloads and of its closing event. */
  lemma DeliveredBytes(events: seq<Event>, closing: seq<string>)
    ensures ChunkBytes(Delivered(events, closing)) == Frames(Payloads(events) + closing)
  {
    var printed := Printed(Payloads(events) + closing);
    PrintedBytes(Payloads(events) + closing);
    ChunkBytesConcat([SseHead] + printed, [LastChunk]);
    ChunkBytesConcat([SseHead], printed);
    assert ChunkBytes([LastChunk]) == "" && ChunkBytes([SseHead]) == "";
  }

  lemma DeliveredShape(events: seq<Event>, closing: seq<string>)
    ensures var items := Delivered(events, closing);
            && |items| >= 2 && items[0] == SseHead && items[|items| - 1] == LastChunk
            && AllChunks(items[1..|items| - 1])
  {
    var items, printed := Delivered(events, closing), Printed(Payloads(events) + closing);
    PrintedAreChunks(Payloads(events) + closing);
    assert items[1..|items| - 1] == printed;
  }

  lemma AllPrintable(payloads: seq<string>, closing: seq<string>)
    requires forall p :: p in closing ==> Printable(p)
    ensures (forall i :: 0 <= i < |payloads + closing| ==> Printable((payloads + closing)[i])) <==>
            (forall i :: 0 <= i < |payloads| ==> Printable(payloads[i]))
  {
    assert forall i :: 0 <= i < |payloads| ==> (payloads + closing)[i] == payloads[i];
    assert forall i :: |payloads| <= i < |payloads + closing| ==> (payloads + closing)[i] == closing[i - |payloads|];
  }

  /**
   No silent truncation. For every upstream script, if anything is sent to a live
   client, the client's parser recovers every event of all the bytes the upstream
   delivered, in order, and then a terminal error event unless the stream carried
   [DONE] and ended in time -- exactly when the payloads are printable. The chunked
   terminator comes last, and only there.
   */
  lemma NoSilentTruncation(up: Upstream, m: Messages, mayRetry: bool)
    requires Printable(m.timedOut) && Printable(m.aborted)
    ensures var events := Batch(Body(up));
            var items, payloads := Transcript(up, m, mayRetry), Payloads(events);
            events != [] ==>
              && var end := if RunsOut(up) then [m.timedOut] else if HasDone(events) then [] else [m.aborted];
              && (Feed(Start, ChunkBytes(items)).events == AsEvents(payloads + end) <==>
                  forall i :: 0 <= i < |payloads| ==> Printable(payloads[i]))
              && |items| >= 2 && items[0] == SseHead && items[|items| - 1] == LastChunk
              && AllChunks(items[1..|items| - 1])
  {
    var events, closing := Batch(Body(up)), Closing(up, m);
    DeliveredBytes(events, closing);
    RelayRoundTrip(Payloads(events) + closing);
    AllPrintable(Payloads(events), closing);
    DeliveredShape(events, closing);
  }
}

/**
 Cutting a byte stream into lines. A `char` stands for one byte. Bytes arrive one
 at a time and are kept until a line feed completes the line, which then goes to
 an interpreter of lines.
 */
module LineFraming {
  import opened Sequences
  import opened Transducers

  datatype Framed<A> = Framed(line: string, acc: A)

  function Chomp(line: string): string {
    if line != "" && line[|line| - 1] == '\r' then line[..|line| - 1] else line
  }

  function FrameStep<A, E>(interpret: (A, string) -> Yield<A, E>, s: Framed<A>, c: char): Yield<Framed<A>, E> {
    if c == '\n' then EndLine(interpret, s) else Yield(s.(line := s.line + [c]), [])
  }

  /** Hands the buffered bytes to the interpreter as a complete line. */
  function EndLine<A, E>(interpret: (A, string) -> Yield<A, E>, s: Framed<A>): Yield<Framed<A>, E> {
    var y := interpret(s.acc, Chomp(s.line));
    Yield(Framed("", y.state), y.events)
  }

  /** The pieces between line feeds; always at least one. */
  function Lines(bytes: string): (ls: seq<string>)
    ensures ls != []
  {
    if bytes == "" then [""]
    else if bytes[0] == '\n' then [""] + Lines(bytes[1..])
    else Prefixed([bytes[0]], Lines(bytes[1..]))
  }

  function Prefixed<T>(front: seq<T>, xss: seq<seq<T>>): (r: seq<seq<T>>)
    requires xss != []
    ensures r != []
  {
    [front + xss[0]] + xss[1..]
  }

  function Chomped(lines: seq<string>): seq<string> {
    if lines == [] then [] else [Chomp(lines[0])] + Chomped(lines[1..])
  }

  lemma PrefixedNothing<T>(xss: seq<seq<T>>)
    requires xss != []
    ensures Prefixed([], xss) == xss
  {
    var none: seq<T> := [];
    assert none + xss[0] == xss[0];
    assert xss == [xss[0]] + xss[1..];
  }

  lemma PrefixedTwice<T>(a: seq<T>, b: seq<T>, xss: seq<seq<T>>)
    requires xss != []
    ensures Prefixed(a, Prefixed(b, xss)) == Prefixed(a + b, xss)
  {
    assert a + (b + xss[0]) == (a + b) + xss[0];
    assert Prefixed(b, xss)[1..] == xss[1..];
  }

  lemma PrefixedFresh<T>(a: seq<T>, xss: seq<seq<T>>)
    ensures Prefixed(a, [[]] + xss) == [a] + xss
  {
    assert a + [] == a;
    assert ([[]] + xss)[1..] == xss;
  }

  /** Feeding bytes and then ending the line is interpreting the lines of the whole. */
  lemma {:induction false} BytesAreLines<A, E>(
      interpret: (A, string) -> Yield<A, E>, step: (Framed<A>, char) -> Yield<Framed<A>, E>, s: Framed<A>, bytes: string)
    requires forall t, c :: step(t, c) == FrameStep(interpret, t, c)
    ensures var fed := Transduce(step, s, bytes);
            var all := Transduce(interpret, s.acc, Chomped(Prefixed(s.line, Lines(bytes))));
            && EndLine(interpret, fed.state).state.acc == all.state
            && fed.events + EndLine(interpret, fed.state).events == all.events
    decreases |bytes|
  {
    var lines := Prefixed(s.line, Lines(bytes));
    if bytes == "" {
      PrefixedFresh(s.line, []);
      assert Chomped(lines) == [Chomp(s.line)];
      assert Chomped(lines)[1..] == [];
    } else {
      var first := step(s, bytes[0]);
      var rest := Transduce(step, first.state, bytes[1..]);
      BytesAreLines(interpret, step, first.state, bytes[1..]);
      ConcatAssociates(first.events, rest.events, EndLine(interpret, rest.state).events);
      if bytes[0] == '\n' {
        PrefixedFresh(s.line, Lines(bytes[1..]));
        PrefixedNothing(Lines(bytes[1..]));
        assert Chomped(lines)[0] == Chomp(s.line);
        assert Chomped(lines)[1..] == Chomped(Lines(bytes[1..]));
      } else {
        PrefixedTwice(s.line, [bytes[0]], Lines(bytes[1..]));
      }
    }
  }
}

/**
 The incremental Server-Sent-Events parser.

 It speaks its own dialect of the event stream format (WHATWG HTML Living
 Standard, section 9.2.6): a line ends at LF only, any field (not just `data`)
 makes a blank line dispatch an event, and leading empty `data` lines leave no
 newline behind. `Batch` defines that dialect on a whole byte string at once, by
 cutting it into lines and the lines into blocks; the incremental parser is proved
 to agree with it for every way of cutting the input into reads.
 */
module SseParser {
  import opened Sequences
  import opened Transducers
  import opened LineFraming

  datatype Event = Event(data: string, event: string) {
    predicate IsDone() { data == "[DONE]" }
  }

  // --------------------------------------------------------------- fields

  /** Index of the first colon, or the length of the line. */
  function Colon(line: string): (k: nat)
    ensures k <= |line|
    ensures k < |line| ==> line[k] == ':'
    ensures ':' !in line[..k]
  {
    if line == "" || line[0] == ':' then 0
    else
      var k := Colon(line[1..]) + 1;
      assert line[..k] == [line[0]] + line[1..][..k - 1];
      k
  }

  function Field(line: string): string {
    line[..Colon(line)]
  }

  function Value(line: string): string {
    if Colon(line) == |line| then "" else StripSpace(line[Colon(line) + 1..])
  }

  function StripSpace(v: string): string {
    if v != "" && v[0] == ' ' then v[1..] else v
  }

  predicate IsComment(line: string) {
    line != "" && line[0] == ':'
  }

  // ------------------------------------------------- the parser as a function

  /** The event under construction. */
  datatype Draft = Draft(data: string, event: string, seen: bool) {
    /** Nothing is collected before a field was seen. */
    predicate Tidy() { !seen ==> data == "" && event == "" }
  }

  type State = Framed<Draft>
  type Output = Yield<State, Event>

  const Blank := Draft("", "", false)
  const Start: State := Framed("", Blank)

  function Dispatch(d: Draft): Yield<Draft, Event> {
    if d.seen then Yield(Blank, [Event(d.data, d.event)]) else Yield(d, [])
  }

  /** One complete line, its line ending already removed. */
  function Interpret(d: Draft, line: string): Yield<Draft, Event> {
    if line == "" then Dispatch(d)
    else if IsComment(line) then Yield(d, [])
    else if Field(line) == "data" then
      Yield(Draft((if d.data == "" then "" else d.data + "\n") + Value(line), d.event, true), [])
    else if Field(line) == "event" then
      Yield(Draft(d.data, Value(line), true), [])
    else
      Yield(d.(seen := true), [])
  }

  function Step(s: State, c: char): Output {
    FrameStep(Interpret, s, c)
  }

  function Feed(s: State, bytes: string): Output {
    Transduce(Step, s, bytes)
  }

  function FeedAll(s: State, chunks: seq<string>): Output {
    Transduce(Feed, s, chunks)
  }

  /** A buffered partial line counts as a complete one. */
  function Settle(s: State): Output {
    if s.line == "" then Yield(s, []) else EndLine(Interpret, s)
  }

  function Flush(s: State): Output {
    var settled := Settle(s);
    var last := Dispatch(settled.state.acc);
    Yield(Framed("", last.state), settled.events + last.events)
  }

  /** What `flush` returns. */
  function FlushReports(s: State): bool {
    Settle(s).state.acc.seen
  }

  // --------------------------------------------------- the batch definition

  /** The runs of lines between blank lines; always at least one. */
  function Blocks(lines: seq<string>): (bs: seq<seq<string>>)
    ensures bs != []
  {
    if lines == [] then [[]]
    else if lines[0] == "" then [[]] + Blocks(lines[1..])
    else Prefixed([lines[0]], Blocks(lines[1..]))
  }

  function Fields(block: seq<string>): seq<string> {
    if block == [] then []
    else (if IsComment(block[0]) then [] else [block[0]]) + Fields(block[1..])
  }

  function ValuesOf(name: string, fields: seq<string>): seq<string> {
    if fields == [] then []
    else (if Field(fields[0]) == name then [Value(fields[0])] else []) + ValuesOf(name, fields[1..])
  }

  function TrimFront(values: seq<string>): seq<string> {
    if values != [] && values[0] == "" then TrimFront(values[1..]) else values
  }

  function JoinLines(values: seq<string>): string {
    if values == [] then ""
    else if |values| == 1 then values[0]
    else values[0] + "\n" + JoinLines(values[1..])
  }

  function Last(values: seq<string>): string {
    if values == [] then "" else values[|values| - 1]
  }

  function BlockEvents(block: seq<string>): seq<Event> {
    var fields := Fields(block);
    if fields == [] then []
    else [Event(JoinLines(TrimFront(ValuesOf("data", fields))), Last(ValuesOf("event", fields)))]
  }

  function BlocksEvents(blocks: seq<seq<string>>): seq<Event> {
    if blocks == [] then [] else BlockEvents(blocks[0]) + BlocksEvents(blocks[1..])
  }

  function Batch(bytes: string): seq<Event> {
    BlocksEvents(Blocks(Chomped(Lines(bytes))))
  }

  // ------------------------------------------------------------- chunking

  lemma FeedConcat(s: State, a: string, b: string)
    ensures Feed(s, a + b).state == Feed(Feed(s, a).state, b).state
    ensures Feed(s, a + b).events == Feed(s, a).events + Feed(Feed(s, a).state, b).events
  {
    TransduceConcat(Step, s, a, b);
  }

  lemma FeedOneMore(s: State, bytes: string, i: nat)
    requires i < |bytes|
    ensures Feed(s, bytes[..i + 1]).state == Step(Feed(s, bytes[..i]).state, bytes[i]).state
    ensures Feed(s, bytes[..i + 1]).events == Feed(s, bytes[..i]).events + Step(Feed(s, bytes[..i]).state, bytes[i]).events
  {
    TransduceOneMore(Step, s, bytes, i);
  }

  /** However the bytes are cut into reads, the parser ends in the same state with the same events. */
  lemma ChunkingIsInvisible(s: State, chunks: seq<string>)
    ensures FeedAll(s, chunks) == Feed(s, Flatten(chunks))
  {
    TransduceFlat(Step, Feed, s, chunks);
  }

  lemma {:induction false} TidyStays(s: State, bytes: string)
    requires s.acc.Tidy()
    ensures Feed(s, bytes).state.acc.Tidy()
    decreases |bytes|
  {
    if bytes != "" {
      TidyStays(Step(s, bytes[0]).state, bytes[1..]);
    }
  }

  // --------------------------------------------------- agreement with Batch

  /** The draft after the lines of an unfinished block. */
  ghost function Pending(block: seq<string>): Draft {
    var fields := Fields(block);
    Draft(JoinLines(TrimFront(ValuesOf("data", fields))), Last(ValuesOf("event", fields)), fields != [])
  }

  lemma {:induction false} FieldsSnoc(block: seq<string>, line: string)
    ensures Fields(block + [line]) == Fields(block) + Fields([line])
  {
    if block == [] {
      assert block + [line] == [line];
    } else {
      FieldsSnoc(block[1..], line);
      assert (block + [line])[1..] == block[1..] + [line];
      ConcatAssociates(if IsComment(block[0]) then [] else [block[0]], Fields(block[1..]), Fields([line]));
    }
  }

  lemma {:induction false} ValuesSnoc(name: string, fields: seq<string>, line: string)
    ensures ValuesOf(name, fields + [line]) ==
            ValuesOf(name, fields) + (if Field(line) == name then [Value(line)] else [])
  {
    if fields == [] {
      assert fields + [line] == [line];
    } else {
      ValuesSnoc(name, fields[1..], line);
      assert (fields + [line])[1..] == fields[1..] + [line];
      ConcatAssociates(if Field(fields[0]) == name then [Value(fields[0])] else [], ValuesOf(name, fields[1..]),
                       if Field(line) == name then [Value(line)] else []);
    }
  }

  lemma {:induction false} JoinSnoc(values: seq<string>, v: string)
    requires values != []
    ensures JoinLines(values + [v]) == JoinLines(values) + "\n" + v
  {
    assert (values + [v])[1..] == values[1..] + [v];
    if |values| == 1 {
      assert values[1..] + [v] == [v];
    } else {
      JoinSnoc(values[1..], v);
    }
  }

  lemma {:induction false} TrimSnoc(values: seq<string>, v: string)
    ensures TrimFront(values + [v]) ==
            if TrimFront(values) != [] then TrimFront(values) + [v] else if v == "" then [] else [v]
    ensures TrimFront(values) != [] ==> TrimFront(values)[0] != ""
  {
    if values == [] {
      assert values + [v] == [v];
    } else if values[0] == "" {
      TrimSnoc(values[1..], v);
      assert (values + [v])[1..] == values[1..] + [v];
    }
  }

  /** The code's join rule, one `data` line at a time. */
  lemma JoinedData(values: seq<string>, v: string)
    ensures var sofar := JoinLines(TrimFront(values));
            JoinLines(TrimFront(values + [v])) == (if sofar == "" then "" else sofar + "\n") + v
  {
    TrimSnoc(values, v);
    if TrimFront(values) != [] {
      JoinSnoc(TrimFront(values), v);
    }
  }

  lemma InterpretExtends(block: seq<string>, line: string)
    requires line != ""
    ensures Interpret(Pending(block), line) == Yield(Pending(block + [line]), [])
  {
    var fields := Fields(block);
    FieldsSnoc(block, line);
    assert Fields([line]) == if IsComment(line) then [] else [line];
    if IsComment(line) {
      assert fields + [] == fields;
    } else {
      ValuesSnoc("data", fields, line);
      ValuesSnoc("event", fields, line);
      JoinedData(ValuesOf("data", fields), Value(line));
      var none: seq<string> := [];
      assert ValuesOf("data", fields) + none == ValuesOf("data", fields);
      assert ValuesOf("event", fields) + none == ValuesOf("event", fields);
    }
  }

  lemma BlankEndsBlock(block: seq<string>)
    ensures Interpret(Pending(block), "") == Yield(Pending([]), BlockEvents(block))
  {
  }

  /** Reading one more line in front. */
  lemma OneLineFirst(d: Draft, lines: seq<string>)
    requires lines != []
    ensures var first := Interpret(d, lines[0]);
            var rest := Transduce(Interpret, first.state, lines[1..]);
            Transduce(Interpret, d, lines) == Yield(rest.state, first.events + rest.events)
  {
  }

  lemma {:induction false} LinesToBlocks(block: seq<string>, lines: seq<string>)
    ensures var read := Transduce(Interpret, Pending(block), lines);
            read.events + Dispatch(read.state).events == BlocksEvents(Prefixed(block, Blocks(lines)))
    decreases |lines|
  {
    var blocks := Prefixed(block, Blocks(lines));
    if lines == [] {
      PrefixedFresh(block, []);
      assert blocks == [block];
      assert BlocksEvents(blocks) == BlockEvents(block) + BlocksEvents([]);
    } else if lines[0] == "" {
      var rest := Transduce(Interpret, Pending([]), lines[1..]);
      BlankEndsBlock(block);
      OneLineFirst(Pending(block), lines);
      LinesToBlocks([], lines[1..]);
      ConcatAssociates(BlockEvents(block), rest.events, Dispatch(rest.state).events);
      PrefixedNothing(Blocks(lines[1..]));
      PrefixedFresh(block, Blocks(lines[1..]));
      assert blocks[1..] == Blocks(lines[1..]);
    } else {
      var rest := Transduce(Interpret, Pending(block + [lines[0]]), lines[1..]);
      InterpretExtends(block, lines[0]);
      OneLineFirst(Pending(block), lines);
      assert [] + rest.events == rest.events;
      LinesToBlocks(block + [lines[0]], lines[1..]);
      PrefixedTwice(block, [lines[0]], Blocks(lines[1..]));
    }
  }

  /** Flushing ends the line and then the block, whether or not bytes were pending. */
  lemma FlushEndsLineAndBlock(s: State)
    ensures var ended := EndLine(Interpret, s);
            && Flush(s).state.acc == Dispatch(ended.state.acc).state
            && Flush(s).events == ended.events + Dispatch(ended.state.acc).events
  {
  }

  /** Feeding any chunks and flushing emits exactly the batch interpretation of all the bytes. */
  lemma ParserIsBatch(chunks: seq<string>)
    ensures var fed := FeedAll(Start, chunks);
            fed.events + Flush(fed.state).events == Batch(Flatten(chunks))
  {
    var bytes := Flatten(chunks);
    var fed := FeedAll(Start, chunks);
    ChunkingIsInvisible(Start, chunks);
    BytesAreLines(Interpret, Step, Start, bytes);
    PrefixedNothing(Lines(bytes));
    LinesToBlocks([], Chomped(Lines(bytes)));
    PrefixedNothing(Blocks(Chomped(Lines(bytes))));
    assert Pending([]) == Blank;
    FlushEndsLineAndBlock(fed.state);
  }

  /** In one piece. */
  lemma WholeBody(bytes: string)
    ensures Batch(bytes) == Feed(Start, bytes).events + Flush(Feed(Start, bytes).state).events
  {
    ParserIsBatch([bytes]);
    ChunkingIsInvisible(Start, [bytes]);
    assert Flatten([bytes]) == bytes + Flatten([]) == bytes by {
      var none: seq<string> := [];
      assert [bytes][1..] == none;
      assert bytes + "" == bytes;
    }
  }

  // ----------------------------------------------------------------- flush

  /** Flushing is feeding two line feeds, and it returns the parser to its initial state. */
  lemma FlushIsTwoLineFeeds(s: State)
    requires s.acc.Tidy()
    ensures Flush(s) == Feed(s, "\n\n")
    ensures Flush(s).state == Start
    ensures |Flush(s).events| <= 1
  {
    var first := Step(s, '\n');
    var second := Step(first.state, '\n');
    assert "\n\n"[1..] == "\n" && "\n"[1..] == "";
    assert Feed(first.state, "\n").events == second.events + [];
    assert Feed(s, "\n\n").events == first.events + second.events;
    assert Feed(s, "\n\n").state == second.state;
    FlushEndsLineAndBlock(s);
  }

  /** `flush` reports an emitted event correctly except when a lone CR ended a pending event. */
  lemma FlushReportIsExact(s: State)
    requires s.acc.Tidy()
    ensures (FlushReports(s) <==> Flush(s).events != []) <==> !(s.line == "\r" && s.acc.seen)
  {
    if s.line != "" {
      assert Chomp(s.line) == "" <==> s.line == "\r";
    }
  }

  // --------------------------------------------------------- the parser itself

  class Parser {
    var line: string
    var data: string
    var event: string
    var seen: bool

    ghost function Snapshot(): State
      reads this
    {
      Framed(line, Draft(data, event, seen))
    }

    constructor ()
      ensures Snapshot() == Start
    {
      line, data, event, seen := "", "", "", false;
    }

    /** Returns the events handed to the callback, in order. */
    method FeedChunk(chunk: string) returns (events: seq<Event>)
      modifies this
      ensures Snapshot() == Feed(old(Snapshot()), chunk).state
      ensures events == Feed(old(Snapshot()), chunk).events
    {
      events := [];
      for i := 0 to |chunk|
        invariant Snapshot() == Feed(old(Snapshot()), chunk[..i]).state
        invariant events == Feed(old(Snapshot()), chunk[..i]).events
      {
        FeedOneMore(old(Snapshot()), chunk, i);
        var emitted := Push(chunk[i]);
        events := events + emitted;
      }
      assert chunk[..|chunk|] == chunk;
    }

    method Push(c: char) returns (emitted: seq<Event>)
      modifies this
      ensures Snapshot() == Step(old(Snapshot()), c).state
      ensures emitted == Step(old(Snapshot()), c).events
    {
      if c == '\n' {
        emitted := ProcessLine(ChompLine());
      } else {
        line, emitted := line + [c], [];
      }
    }

    function ChompLine(): string
      reads this
    {
      Chomp(line)
    }

    /** Handles one line and clears the line buffer. */
    method ProcessLine(whole: string) returns (emitted: seq<Event>)
      modifies this
      ensures line == ""
      ensures Yield(Snapshot().acc, emitted) == Interpret(old(Snapshot()).acc, whole)
    {
      line := "";
      emitted := [];
      if whole == "" {
        emitted := DispatchEvent();
        return;
      }
      if whole[0] == ':' {
        return;
      }
      seen := true;
      if Field(whole) == "data" {
        if data != "" {
          data := data + "\n";
        }
        data := data + Value(whole);
      } else if Field(whole) == "event" {
        event := Value(whole);
      }
    }

    method DispatchEvent() returns (emitted: seq<Event>)
      modifies this
      ensures line == old(line)
      ensures Yield(Snapshot().acc, emitted) == Dispatch(old(Snapshot()).acc)
    {
      if !seen {
        return [];
      }
      emitted := [Event(data, event)];
      data, event, seen := "", "", false;
    }

    method FlushTail() returns (reported: bool, events: seq<Event>)
      modifies this
      ensures Snapshot() == Flush(old(Snapshot())).state
      ensures events == Flush(old(Snapshot())).events
      ensures reported == FlushReports(old(Snapshot()))
    {
      events := [];
      if line != "" {
        events := ProcessLine(ChompLine());
      }
      reported := seen;
      if seen {
        var last := DispatchEvent();
        events := events + last;
      }
    }
  }
}

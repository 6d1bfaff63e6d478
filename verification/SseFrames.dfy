/**
 Downstream frames. `SseWriter::write_data` prints a payload as one event; the
 parser is what a client runs on the other end. The writer does not split a
 payload at line feeds, so the round trip has a condition, and it is exact.
 */
module SseFrames {
  import opened Transducers
  import opened LineFraming
  import opened SseParser

  function Frame(payload: string): string {
    "data: " + payload + "\n\n"
  }

  function Frames(payloads: seq<string>): string {
    if payloads == [] then "" else Frame(payloads[0]) + Frames(payloads[1..])
  }

  /** Payloads that survive being printed as one `data` line. */
  predicate Printable(payload: string) {
    '\n' !in payload && (payload != "" ==> payload[|payload| - 1] != '\r')
  }

  function AsEvents(payloads: seq<string>): seq<Event> {
    if payloads == [] then [] else [Event(payloads[0], "")] + AsEvents(payloads[1..])
  }

  ghost function Reread(payload: string): seq<Event> {
    Feed(Start, Frame(payload)).events
  }

  // ------------------------------------------------------------ single lines

  lemma {:induction false} NoLineFeed(s: State, bytes: string)
    requires '\n' !in bytes
    ensures Feed(s, bytes).state == s.(line := s.line + bytes)
    ensures Feed(s, bytes).events == []
    decreases |bytes|
  {
    if bytes == "" {
      assert s.line + bytes == s.line;
    } else {
      NoLineFeed(Step(s, bytes[0]).state, bytes[1..]);
      assert s.line + [bytes[0]] + bytes[1..] == s.line + bytes;
    }
  }

  lemma DataLine(v: string)
    ensures Field("data: " + v) == "data" && Value("data: " + v) == v
    ensures !IsComment("data: " + v)
  {
    var line, k := "data: " + v, Colon("data: " + v);
    assert line[4] == ':' && line[..4] == "data";
    assert k == 4;
    assert line[5..] == " " + v;
    assert (" " + v)[1..] == v;
  }

  /** A `data: ` line with one line feed after it starts a draft and emits nothing. */
  lemma FirstLine(v: string)
    requires '\n' !in v
    ensures Feed(Start, "data: " + v + "\n").events == []
    ensures Feed(Start, "data: " + v + "\n").state == Framed("", Draft(Chomp(v), "", true))
  {
    var line := "data: " + v;
    NoLineFeed(Start, line);
    assert "" + line == line;
    FeedConcat(Start, line, "\n");
    ChompData(v);
    DataLine(Chomp(v));
    var s := Framed(line, Blank);
    assert Feed(s, "\n").state == Step(s, '\n').state by { assert "\n"[1..] == ""; }
    assert Feed(s, "\n").events == Step(s, '\n').events + [] by { assert "\n"[1..] == ""; }
    assert Interpret(Blank, "data: " + Chomp(v)) == Yield(Draft("" + Chomp(v), "", true), []);
    assert "" + Chomp(v) == Chomp(v);
  }

  /** A lone CR after a `data` line ends the event under `flush`, which emits it and reports that it did not. */
  lemma LoneReturnIsMisreported(v: string)
    requires '\n' !in v
    ensures var s := Feed(Start, "data: " + v + "\n" + "\r").state;
            Flush(s).events == [Event(Chomp(v), "")] && !FlushReports(s)
  {
    var s := Framed("", Draft(Chomp(v), "", true));
    FirstLine(v);
    FeedConcat(Start, "data: " + v + "\n", "\r");
    NoLineFeed(s, "\r");
    assert "" + "\r" == "\r";
  }

  lemma ChompData(v: string)
    ensures Chomp("data: " + v) == "data: " + Chomp(v)
  {
    var line := "data: " + v;
    if v != "" && v[|v| - 1] == '\r' {
      assert line[..|line| - 1] == "data: " + v[..|v| - 1];
    } else if v == "" {
      assert line == "data: ";
    }
  }

  // ------------------------------------------------------- frames are separate

  /** After any frame the parser is back where it started. */
  lemma FrameEndsClean(payload: string)
    ensures Feed(Start, Frame(payload)).state == Start
  {
    var body := "data: " + payload;
    FeedConcat(Start, body, "\n\n");
    TidyStays(Start, body);
    FlushIsTwoLineFeeds(Feed(Start, body).state);
    assert Frame(payload) == body + "\n\n";
  }

  lemma {:induction false} FramesReadSeparately(payloads: seq<string>)
    ensures Feed(Start, Frames(payloads)).state == Start
    ensures payloads != [] ==>
              Feed(Start, Frames(payloads)).events ==
              Reread(payloads[0]) + Feed(Start, Frames(payloads[1..])).events
  {
    if payloads != [] {
      FrameEndsClean(payloads[0]);
      FeedConcat(Start, Frame(payloads[0]), Frames(payloads[1..]));
      FramesReadSeparately(payloads[1..]);
    }
  }

  // --------------------------------------------------------- one frame, exactly

  lemma PlainFrame(payload: string)
    requires '\n' !in payload
    ensures Reread(payload) == [Event(Chomp(payload), "")]
  {
    var s := Framed("", Draft(Chomp(payload), "", true));
    FirstLine(payload);
    FeedConcat(Start, "data: " + payload + "\n", "\n");
    assert Frame(payload) == ("data: " + payload + "\n") + "\n";
    assert Feed(s, "\n").events == Step(s, '\n').events + [] by { assert "\n"[1..] == ""; }
    assert Chomp("") == "";
  }

  ghost function LineFeeds(bytes: string): nat {
    if bytes == "" then 0 else (if bytes[0] == '\n' then 1 else 0) + LineFeeds(bytes[1..])
  }

  ghost function Held(s: State): nat { |s.line| + |s.acc.data| }

  lemma StepHolds(s: State, c: char)
    ensures Held(Step(s, c).state) + (if c == '\n' then 1 else 0) <= Held(s) + 1
    ensures forall e :: e in Step(s, c).events ==> |e.data| + 1 <= Held(s) + 1
  {
    if c == '\n' {
      var line := Chomp(s.line);
      if line != "" && !IsComment(line) && Field(line) == "data" {
        assert Colon(line) == 4;
        assert |Value(line)| + 1 <= |line|;
      }
    }
  }

  /** Every line feed costs a byte: neither the parser nor an event can hold more than was fed. */
  lemma {:induction false} FeedHolds(s: State, bytes: string)
    ensures Held(Feed(s, bytes).state) + LineFeeds(bytes) <= Held(s) + |bytes|
    ensures forall e :: e in Feed(s, bytes).events ==> |e.data| + 1 <= Held(s) + |bytes|
    decreases |bytes|
  {
    if bytes != "" {
      StepHolds(s, bytes[0]);
      FeedHolds(Step(s, bytes[0]).state, bytes[1..]);
    }
  }

  lemma {:induction false} SplitAtFirst(payload: string) returns (a: string, b: string)
    requires '\n' in payload
    ensures payload == a + "\n" + b && '\n' !in a
  {
    if payload[0] == '\n' {
      a, b := "", payload[1..];
      assert payload == [payload[0]] + payload[1..];
    } else {
      a, b := SplitAtFirst(payload[1..]);
      assert payload == [payload[0]] + payload[1..];
      a := [payload[0]] + a;
    }
  }

  /** A payload with a line feed in it is never read back: every event is shorter. */
  lemma LineFeedIsLost(payload: string)
    requires '\n' in payload
    ensures forall e :: e in Reread(payload) ==> |e.data| < |payload|
  {
    var a, b := SplitAtFirst(payload);
    var first := "data: " + a + "\n";
    FirstLine(a);
    var s := Framed("", Draft(Chomp(a), "", true));
    var rest := b + "\n";
    assert Frame(payload) == first + (rest + "\n");
    FeedConcat(Start, first, rest + "\n");
    FeedConcat(s, rest, "\n");
    FeedHolds(s, rest);
    LineFeedsEnd(b);
    var t := Feed(s, rest).state;
    StepHolds(t, '\n');
    assert Feed(t, "\n").events == Step(t, '\n').events + [] by { assert "\n"[1..] == ""; }
    assert Reread(payload) == Feed(s, rest).events + Feed(t, "\n").events;
    forall e | e in Step(t, '\n').events ensures |e.data| < |payload| {
      assert e.data == t.acc.data;
    }
  }

  lemma {:induction false} LineFeedsEnd(b: string)
    ensures LineFeeds(b + "\n") >= 1
  {
    if b != "" {
      LineFeedsEnd(b[1..]);
      assert (b + "\n")[1..] == b[1..] + "\n";
    } else {
      assert b + "\n" == "\n";
    }
  }

  /** One printed frame reads back as exactly its payload if and only if the payload is printable. */
  lemma FrameRoundTrip(payload: string)
    ensures Reread(payload) == [Event(payload, "")] <==> Printable(payload)
  {
    if '\n' in payload {
      LineFeedIsLost(payload);
      assert Event(payload, "") !in Reread(payload);
    } else {
      PlainFrame(payload);
    }
  }

  // -------------------------------------------------------- whole conversations

  lemma {:induction false} SeenIsNotDropped(s: State, bytes: string)
    requires s.acc.seen
    ensures Feed(s, bytes).state.acc.seen || Feed(s, bytes).events != []
    decreases |bytes|
  {
    if bytes != "" && Step(s, bytes[0]).events == [] {
      SeenIsNotDropped(Step(s, bytes[0]).state, bytes[1..]);
    }
  }

  lemma FrameIsNeverSilent(payload: string)
    ensures Reread(payload) != []
  {
    if '\n' in payload {
      var a, b := SplitAtFirst(payload);
      FirstLine(a);
      assert Frame(payload) == ("data: " + a + "\n") + (b + "\n\n");
      FeedConcat(Start, "data: " + a + "\n", b + "\n\n");
      SeenIsNotDropped(Framed("", Draft(Chomp(a), "", true)), b + "\n\n");
      FrameEndsClean(payload);
    } else {
      PlainFrame(payload);
    }
  }

  lemma {:induction false} AtLeastOneEach(payloads: seq<string>)
    ensures |Feed(Start, Frames(payloads)).events| >= |payloads|
    ensures |AsEvents(payloads)| == |payloads|
  {
    if payloads != [] {
      FramesReadSeparately(payloads);
      FrameIsNeverSilent(payloads[0]);
      AtLeastOneEach(payloads[1..]);
    }
  }

  /** A relayed conversation reads back unchanged if and only if every payload in it is printable. */
  lemma {:induction false} RelayRoundTrip(payloads: seq<string>)
    ensures Feed(Start, Frames(payloads)).events == AsEvents(payloads) <==>
            forall i :: 0 <= i < |payloads| ==> Printable(payloads[i])
  {
    if payloads != [] {
      var head, tail := Reread(payloads[0]), Feed(Start, Frames(payloads[1..])).events;
      FramesReadSeparately(payloads);
      FrameRoundTrip(payloads[0]);
      FrameIsNeverSilent(payloads[0]);
      AtLeastOneEach(payloads[1..]);
      RelayRoundTrip(payloads[1..]);
      var want := [Event(payloads[0], "")] + AsEvents(payloads[1..]);
      if head + tail == want {
        assert |head| == 1;
        assert head == want[..1] == [Event(payloads[0], "")];
        assert tail == (head + tail)[1..] == want[1..] == AsEvents(payloads[1..]);
      }
      assert payloads == [payloads[0]] + payloads[1..];
    }
  }
}

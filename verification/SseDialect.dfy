/**
 What the parser makes of single lines, byte by byte and without reference to how
 it cuts them up: field names, values with and without the space after the colon,
 comments, event names, joined data lines, carriage returns, unknown fields.
 */
module SseDialect {
  import opened LineFraming
  import opened SseFrames
  import opened SseParser
  import opened Transducers

  // ------------------------------------------------------------ one field

  predicate Unspaced(v: string) {
    v == "" || v[0] != ' '
  }

  lemma ColonEndsName(f: string, rest: string)
    requires ':' !in f
    ensures Colon(f + ":" + rest) == |f|
  {
    var line := f + ":" + rest;
    assert line[|f|] == ':' && line[..|f|] == f;
  }

  /** A field is the bytes before the first colon; its value the rest, less one space if there is one. */
  lemma FieldAndValue(f: string, v: string)
    requires ':' !in f
    ensures Field(f + ":" + v) == f && Field(f + ": " + v) == f
    ensures Value(f + ": " + v) == v
    ensures Unspaced(v) ==> Value(f + ":" + v) == v
  {
    ColonEndsName(f, v);
    ColonEndsName(f, " " + v);
    assert f + ": " + v == f + ":" + (" " + v);
    assert (f + ":" + v)[|f| + 1..] == v && (f + ":" + (" " + v))[|f| + 1..] == " " + v;
    assert (" " + v)[1..] == v;
    assert (f + ":" + v)[..|f|] == f && (f + ":" + (" " + v))[..|f|] == f;
  }

  /** A line without a colon is a field without a value. */
  lemma BareField(f: string)
    requires ':' !in f
    ensures Field(f) == f && Value(f) == ""
  {
    assert f[..|f|] == f;
  }

  // ------------------------------------------------------------- one line

  /** Between lines, with an event under construction. */
  ghost function Between(d: Draft): State {
    Framed("", d)
  }

  /** A line and its line feed are interpreted once, without the carriage return before it. */
  lemma LineIsRead(d: Draft, line: string)
    requires '\n' !in line
    ensures var y := Interpret(d, Chomp(line));
            Feed(Between(d), line + "\n") == Yield(Between(y.state), y.events)
  {
    NoLineFeed(Between(d), line);
    assert "" + line == line;
    FeedConcat(Between(d), line, "\n");
    var s := Framed(line, d);
    assert "\n"[1..] == "";
    assert Feed(s, "\n").events == Step(s, '\n').events + [];
  }

  /** The same with more to come. */
  lemma LineThenRest(d: Draft, line: string, rest: string)
    requires '\n' !in line
    ensures var y := Interpret(d, Chomp(line));
            && Feed(Between(d), line + "\n" + rest).state == Feed(Between(y.state), rest).state
            && Feed(Between(d), line + "\n" + rest).events == y.events + Feed(Between(y.state), rest).events
  {
    LineIsRead(d, line);
    FeedConcat(Between(d), line + "\n", rest);
  }

  /** Bytes that bring the parser back to its start are read the same in a batch. */
  lemma WholeEvents(bytes: string)
    requires Feed(Start, bytes).state == Start
    ensures Batch(bytes) == Feed(Start, bytes).events
  {
    WholeBody(bytes);
    assert Flush(Start).events == [] + [];
  }

  /** A blank line, with or without a carriage return, ends the event under construction. */
  lemma BlankLine(d: Draft)
    requires d.seen
    ensures Feed(Between(d), "\n") == Yield(Start, [Event(d.data, d.event)])
    ensures Feed(Between(d), "\r\n") == Yield(Start, [Event(d.data, d.event)])
  {
    LineIsRead(d, "");
    assert "" + "\n" == "\n";
    LineIsRead(d, "\r");
    assert "\r" + "\n" == "\r\n" && Chomp("\r") == "";
  }

  lemma ChompLast(a: string, v: string)
    requires v != ""
    ensures Chomp(a + v) == a + Chomp(v)
  {
    if v[|v| - 1] == '\r' {
      assert (a + v)[..|a + v| - 1] == a + v[..|v| - 1];
    }
  }

  lemma NothingToChomp(line: string)
    requires line == "" || line[|line| - 1] != '\r'
    ensures Chomp(line) == line
    ensures Chomp(line + "\r") == line
  {
    assert (line + "\r")[..|line|] == line;
  }

  // -------------------------------------------------------------- theorems

  /** A line that starts with a colon might as well not be there, wherever it stands between lines. */
  lemma CommentsAreInvisible(d: Draft, c: string, bytes: string)
    requires '\n' !in c
    ensures Feed(Between(d), ":" + c + "\n" + bytes).state == Feed(Between(d), bytes).state
    ensures Feed(Between(d), ":" + c + "\n" + bytes).events == Feed(Between(d), bytes).events
    ensures Batch(":" + c + "\n" + bytes) == Batch(bytes)
  {
    forall e: Draft
      ensures Feed(Between(e), ":" + c + "\n" + bytes).state == Feed(Between(e), bytes).state
      ensures Feed(Between(e), ":" + c + "\n" + bytes).events == Feed(Between(e), bytes).events
    {
      LineThenRest(e, ":" + c, bytes);
      assert Chomp(":" + c) != "" && Chomp(":" + c)[0] == ':';
      assert [] + Feed(Between(e), bytes).events == Feed(Between(e), bytes).events;
    }
    assert Between(Blank) == Start;
    WholeBody(":" + c + "\n" + bytes);
    WholeBody(bytes);
  }

  /** The line is this field with this value, with a space after the colon or without. */
  predicate Spells(line: string, f: string, v: string) {
    line == f + ": " + v || (line == f + ":" + v && Unspaced(v))
  }

  lemma FieldLine(line: string, f: string, v: string)
    requires Printable(v) && ':' !in f && '\n' !in f && f != "" && Spells(line, f, v)
    ensures Field(line) == f && Value(line) == v && line != "" && !IsComment(line)
    ensures '\n' !in line && '\n' !in line + "\r" && Chomp(line) == line && Chomp(line + "\r") == line
  {
    FieldAndValue(f, v);
    assert line[0] == f[0] && f[0] in f;
    NothingToChomp(line);
  }

  /** What a `data` line adds to an event: its value, behind a line feed unless there is no data yet. */
  lemma DataLineAdds(d: Draft, line: string, v: string)
    requires Printable(v) && Spells(line, "data", v)
    ensures Feed(Between(d), line + "\n") ==
            Yield(Between(Draft((if d.data == "" then "" else d.data + "\n") + v, d.event, true)), [])
    ensures Feed(Between(d), line + "\r" + "\n") == Feed(Between(d), line + "\n")
  {
    FieldLine(line, "data", v);
    LineIsRead(d, line);
    LineIsRead(d, line + "\r");
  }

  /** An `event` line names the event and adds no data. */
  lemma EventLineNames(d: Draft, line: string, e: string)
    requires Printable(e) && Spells(line, "event", e)
    ensures Feed(Between(d), line + "\n") == Yield(Between(Draft(d.data, e, true)), [])
  {
    FieldLine(line, "event", e);
    LineIsRead(d, line);
  }

  /** A `data` line alone is an event with exactly its value, whether or not a space follows the colon. */
  lemma DataIsItsValue(line: string, v: string)
    requires Printable(v) && Spells(line, "data", v)
    ensures Batch(line + "\n" + "\n") == [Event(v, "")]
    ensures Batch(line + "\r" + "\n" + "\r\n") == [Event(v, "")]
  {
    DataLineAdds(Blank, line, v);
    assert "" + v == v;
    BlankLine(Draft(v, "", true));
    FeedConcat(Start, line + "\n", "\n");
    FeedConcat(Start, line + "\r" + "\n", "\r\n");
    WholeEvents(line + "\n" + "\n");
    WholeEvents(line + "\r" + "\n" + "\r\n");
  }

  /** Two `data` lines are joined by a line feed, unless the first is empty. */
  lemma DataLinesJoin(first: string, v: string, second: string, w: string)
    requires Printable(v) && Printable(w) && Spells(first, "data", v) && Spells(second, "data", w)
    ensures Batch(first + "\n" + (second + "\n") + "\n") == [Event((if v == "" then "" else v + "\n") + w, "")]
  {
    DataLineAdds(Blank, first, v);
    assert "" + v == v;
    DataLineAdds(Draft(v, "", true), second, w);
    BlankLine(Draft((if v == "" then "" else v + "\n") + w, "", true));
    FeedConcat(Start, first + "\n", second + "\n");
    FeedConcat(Start, first + "\n" + (second + "\n"), "\n");
    WholeEvents(first + "\n" + (second + "\n") + "\n");
  }

  /** An event with a name and data carries both. */
  lemma NamedEvent(first: string, e: string, second: string, v: string)
    requires Printable(e) && Printable(v) && Spells(first, "event", e) && Spells(second, "data", v)
    ensures Batch(first + "\n" + (second + "\n") + "\n") == [Event(v, e)]
  {
    EventLineNames(Blank, first, e);
    DataLineAdds(Draft("", e, true), second, v);
    assert "" + v == v;
    BlankLine(Draft(v, e, true));
    FeedConcat(Start, first + "\n", second + "\n");
    FeedConcat(Start, first + "\n" + (second + "\n"), "\n");
    WholeEvents(first + "\n" + (second + "\n") + "\n");
  }

  /** Any other field, even without a colon, makes the next blank line emit an event, and adds nothing to it. */
  lemma OtherFieldOnlyCounts(line: string, f: string, x: string)
    requires ':' !in f && '\n' !in f && f != "" && Printable(f) && Printable(x)
    requires f != "data" && f != "event" && (Spells(line, f, x) || line == f)
    ensures Batch(line + "\n" + "\n") == [Event("", "")]
  {
    if line == f {
      BareField(f);
      NothingToChomp(f);
      assert f[0] in f;
    } else {
      FieldLine(line, f, x);
    }
    LineIsRead(Blank, line);
    BlankLine(Draft("", "", true));
    FeedConcat(Start, line + "\n", "\n");
    WholeEvents(line + "\n" + "\n");
  }

  /** The sentinel ends a stream however it is spelled, and nothing else does. */
  lemma SentinelIsRecognised(line: string, v: string)
    requires Printable(v) && Spells(line, "data", v)
    ensures Batch(line + "\n" + "\n") == [Event(v, "")] && (Event(v, "").IsDone() <==> v == "[DONE]")
  {
    DataIsItsValue(line, v);
  }
}

/**
 Metric series identity: label values are escaped and joined into one label
 string, which names the series in the text exposition. A `char` stands for one
 byte.
 */
module MetricLabels {

  datatype Labels = Labels(route: string, backend: string, model: string)

  function EscapeChar(c: char): string {
    if c == '\\' then "\\\\" else if c == '"' then "\\\"" else if c == '\n' then "\\n" else [c]
  }

  function Escape(v: string): string {
    if v == "" then "" else EscapeChar(v[0]) + Escape(v[1..])
  }

  function LabelString(l: Labels): string {
    "{route=\"" + Escape(l.route) + "\",backend=\"" + Escape(l.backend) + "\",model=\"" + Escape(l.model) + "\"}"
  }

  /** Reads a quoted label value up to its closing quote: the value, and what follows the quote. */
  datatype Reading = Unterminated | Value(value: string, rest: string)

  function ReadValue(s: string): Reading {
    if s == "" then Unterminated
    else if s[0] == '"' then Value("", s[1..])
    else if s[0] == '\\' then
      if |s| == 1 then Unterminated
      else Prepend(if s[1] == 'n' then '\n' else s[1], ReadValue(s[2..]))
    else Prepend(s[0], ReadValue(s[1..]))
  }

  function Prepend(c: char, r: Reading): Reading {
    if r.Value? then Value([c] + r.value, r.rest) else r
  }

  lemma OneCharRead(c: char, tail: string)
    ensures ReadValue(EscapeChar(c) + tail) == Prepend(c, ReadValue(tail))
  {
    assert (EscapeChar(c) + tail)[|EscapeChar(c)|..] == tail;
  }

  lemma Quoted(e: string, tail: string, rest: string)
    ensures e + tail + "\"" + rest == e + (tail + "\"" + rest)
  {
  }

  /** Escaping can be undone for every string, whatever follows the closing quote. */
  lemma {:induction false} EscapeIsReadBack(v: string, rest: string)
    ensures ReadValue(Escape(v) + "\"" + rest) == Value(v, rest)
  {
    if v == "" {
      assert Escape(v) + "\"" + rest == "\"" + rest;
      assert ("\"" + rest)[1..] == rest;
    } else {
      EscapeIsReadBack(v[1..], rest);
      Quoted(EscapeChar(v[0]), Escape(v[1..]), rest);
      OneCharRead(v[0], Escape(v[1..]) + "\"" + rest);
      assert [v[0]] + v[1..] == v;
    }
  }

  /** An escaped value never breaks its line, so neither does a label string. */
  lemma {:induction false} EscapedIsOneLine(v: string)
    ensures '\n' !in Escape(v)
  {
    if v != "" {
      EscapedIsOneLine(v[1..]);
    }
  }

  lemma LabelStringIsOneLine(l: Labels)
    ensures '\n' !in LabelString(l)
  {
    EscapedIsOneLine(l.route);
    EscapedIsOneLine(l.backend);
    EscapedIsOneLine(l.model);
  }

  /** Two quoted values that print alike are alike, and so is what follows them. */
  lemma QuotedIsInjective(v: string, rest: string, v': string, rest': string)
    requires Escape(v) + "\"" + rest == Escape(v') + "\"" + rest'
    ensures v == v' && rest == rest'
  {
    EscapeIsReadBack(v, rest);
    EscapeIsReadBack(v', rest');
  }

  /** The parts of a label string after each opening quote. */
  function FromModel(l: Labels): string { Escape(l.model) + "\"" + "}" }
  function FromBackend(l: Labels): string { Escape(l.backend) + "\"" + (",model=\"" + FromModel(l)) }
  function FromRoute(l: Labels): string { Escape(l.route) + "\"" + (",backend=\"" + FromBackend(l)) }

  lemma Regroup(p: string, x: string, q: string, y: string, r: string, z: string, last: string)
    ensures p + x + q + y + r + z + last == p + (x + (q + (y + (r + (z + last)))))
  {
    assert p + x + q + y + r + z + last == p + x + q + y + (r + (z + last));
    assert p + x + q + y + (r + (z + last)) == p + x + (q + (y + (r + (z + last))));
  }

  lemma Opening(v: string, q: string, rest: string)
    ensures v + (("\"" + q) + rest) == v + "\"" + (q + rest)
  {
  }

  lemma LabelStringParts(l: Labels)
    ensures LabelString(l) == "{route=\"" + FromRoute(l)
  {
    var r, b, m := Escape(l.route), Escape(l.backend), Escape(l.model);
    Regroup("{route=\"", r, "\",backend=\"", b, "\",model=\"", m, "\"}");
    assert "\",backend=\"" == "\"" + ",backend=\"" && "\",model=\"" == "\"" + ",model=\"" && "\"}" == "\"" + "}";
    var fm := m + "\"}";
    assert fm == FromModel(l);
    Opening(b, ",model=\"", fm);
    Opening(r, ",backend=\"", b + ("\",model=\"" + fm));
  }

  lemma DropPrefix(p: string, a: string, b: string)
    requires p + a == p + b
    ensures a == b
  {
    assert (p + a)[|p|..] == a && (p + b)[|p|..] == b;
  }

  /** Distinct label sets never share a label string. */
  lemma LabelStringsAreInjective(a: Labels, b: Labels)
    ensures LabelString(a) == LabelString(b) <==> a == b
  {
    if LabelString(a) == LabelString(b) {
      LabelStringParts(a);
      LabelStringParts(b);
      DropPrefix("{route=\"", FromRoute(a), FromRoute(b));
      QuotedIsInjective(a.route, ",backend=\"" + FromBackend(a), b.route, ",backend=\"" + FromBackend(b));
      DropPrefix(",backend=\"", FromBackend(a), FromBackend(b));
      QuotedIsInjective(a.backend, ",model=\"" + FromModel(a), b.backend, ",model=\"" + FromModel(b));
      DropPrefix(",model=\"", FromModel(a), FromModel(b));
      QuotedIsInjective(a.model, "}", b.model, "}");
    }
  }

  /** Reads a label with this name and its quoted value. */
  function ReadLabel(s: string, name: string): Reading {
    var opening := name + "=\"";
    if opening <= s then ReadValue(s[|opening|..]) else Unterminated
  }

  lemma LabelIsRead(name: string, v: string, rest: string)
    ensures ReadLabel(name + "=\"" + (Escape(v) + "\"" + rest), name) == Value(v, rest)
  {
    var opening, s := name + "=\"", name + "=\"" + (Escape(v) + "\"" + rest);
    assert s[|opening|..] == Escape(v) + "\"" + rest;
    EscapeIsReadBack(v, rest);
  }

  lemma DropOne(a: string, b: string)
    requires a != ""
    ensures (a + b)[1..] == a[1..] + b && (a + b)[0] == a[0]
  {
  }

  lemma AfterBrace(l: Labels)
    ensures |LabelString(l)| > 0 && LabelString(l)[0] == '{'
    ensures LabelString(l)[1..] == "route" + "=\"" + FromRoute(l)
  {
    LabelStringParts(l);
    assert "{route=\""[1..] == "route" + "=\"";
    DropOne("{route=\"", FromRoute(l));
  }

  lemma AfterComma(name: string, rest: string)
    ensures "," + name + "=\"" + rest == "," + (name + "=\"" + rest)
  {
  }

  /** A label string reads back, name by name, as the labels it was made of: each value stands under its own name. */
  lemma LabelsAreReadBack(l: Labels) returns (backends: string, models: string)
    ensures |LabelString(l)| > 0 && LabelString(l)[0] == '{'
    ensures ReadLabel(LabelString(l)[1..], "route") == Value(l.route, "," + backends)
    ensures ReadLabel(backends, "backend") == Value(l.backend, "," + models)
    ensures ReadLabel(models, "model") == Value(l.model, "}")
  {
    backends, models := "backend" + "=\"" + FromBackend(l), "model" + "=\"" + FromModel(l);
    AfterBrace(l);
    AfterComma("backend", FromBackend(l));
    AfterComma("model", FromModel(l));
    assert ",backend=\"" == "," + "backend" + "=\"" && ",model=\"" == "," + "model" + "=\"";
    LabelIsRead("route", l.route, "," + backends);
    LabelIsRead("backend", l.backend, "," + models);
    LabelIsRead("model", l.model, "}");
  }

  lemma {:induction false} EscapeSnoc(v: string, c: char)
    ensures Escape(v + [c]) == Escape(v) + EscapeChar(c)
  {
    if v == "" {
      assert v + [c] == [c];
      assert [c][1..] == "";
    } else {
      EscapeSnoc(v[1..], c);
      assert (v + [c])[1..] == v[1..] + [c];
    }
  }

  /** `esc`. */
  method Esc(v: string) returns (out: string)
    ensures out == Escape(v)
  {
    out := "";
    for i := 0 to |v|
      invariant out == Escape(v[..i])
    {
      EscapeSnoc(v[..i], v[i]);
      assert v[..i + 1] == v[..i] + [v[i]];
      match v[i]
      case '\\' => out := out + "\\\\";
      case '"' => out := out + "\\\"";
      case '\n' => out := out + "\\n";
      case c => out := out + [c];
    }
    assert v[..|v|] == v;
  }

  /** `Registry::label_str`. */
  method LabelStr(l: Labels) returns (s: string)
    ensures s == LabelString(l)
  {
    s := "{route=\"";
    var part := Esc(l.route);
    s := s + part + "\",backend=\"";
    part := Esc(l.backend);
    s := s + part + "\",model=\"";
    part := Esc(l.model);
    s := s + part + "\"}";
  }
}

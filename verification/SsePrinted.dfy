/** Packets printed in the grammar of server-sent events are read back, whatever the chunks. */
module SsePrinted {
  import opened Text
  import opened SseFramer
  import opened SseChunks
  import opened SseEvents
  import opened SseWire

  /** What a server sends: an event with its data lines, or a comment that keeps the line alive. */
  datatype Sent = Event(name: string, data: seq<string>) | Comment(text: string)

  predicate IsSingleLine(s: string) { '\r' !in s && '\n' !in s }

  predicate IsFieldValue(s: string) { IsSingleLine(s) && Trimmed(IsJsSpace, s) }

  predicate CanSend(p: Sent) {
    match p
    case Event(name, data) => IsFieldValue(name) && data != [] && forall d :: d in data ==> IsFieldValue(d)
    case Comment(text) => IsSingleLine(text)
  }

  function DataLines(data: seq<string>): (lines: seq<string>)
    ensures |lines| == |data|
  {
    if data == [] then [] else ["data: " + data[0]] + DataLines(data[1..])
  }

  /** An event or comment in lines, the blank line included. */
  function LinesOf(p: Sent): seq<string> {
    match p
    case Event(name, data) => ["event: " + name] + DataLines(data) + [""]
    case Comment(text) => [":" + text] + [""]
  }

  function AllLines(ps: seq<Sent>): seq<string> {
    if ps == [] then [] else LinesOf(ps[0]) + AllLines(ps[1..])
  }

  /** What a client is meant to see of it. */
  function Received(ps: seq<Sent>): seq<Packet> {
    if ps == [] then []
    else (if ps[0].Event? then [Packet(ps[0].name, Join("\n", ps[0].data))] else []) + Received(ps[1..])
  }

  /** A line on the wire, ended by CR LF or by LF alone. */
  datatype Wire = Wire(line: string, crLf: bool)

  function WireText(wires: seq<Wire>): string {
    if wires == [] then ""
    else wires[0].line + (if wires[0].crLf then "\r\n" else "\n") + WireText(wires[1..])
  }

  function WireLines(wires: seq<Wire>): (lines: seq<string>)
    ensures |lines| == |wires|
  {
    if wires == [] then [] else [wires[0].line] + WireLines(wires[1..])
  }

  lemma ReadsField(prefix: string, value: string)
    requires IsFieldValue(value) && prefix != "" && prefix[0] in {'e', 'd'} && '\r' !in prefix
    ensures var line := prefix + " " + value;
            && prefix <= line && WithoutCr(line) == line && line != ""
            && Trim(IsJsSpace, line[|prefix|..]) == value
  {
    var line := prefix + " " + value;
    assert line[|prefix|..] == " " + value + "";
    TrimOf(IsJsSpace, " ", value, "");
    assert '\r' !in line;
  }

  lemma DataLine(g: Gathered, d: string)
    requires IsFieldValue(d)
    ensures FieldLine(g, "data: " + d) == g.(data := g.data + [d])
  {
    ReadsField("data:", d);
    assert "data: " + d == "data:" + " " + d;
  }

  lemma {:induction false} GatherData(g: Gathered, data: seq<string>)
    requires forall d :: d in data ==> IsFieldValue(d)
    ensures Pending(g, DataLines(data)) == g.(data := g.data + data) && Events(g, DataLines(data)) == []
    decreases |data|
  {
    hide FieldLine, IsFieldValue;
    if data == [] {
      assert g.data + [] == g.data;
    } else {
      var line, next := "data: " + data[0], g.(data := g.data + [data[0]]);
      assert next.data + data[1..] == g.data + data;
      GatherData(next, data[1..]);
      DataLine(g, data[0]);
      OneLine(g, line);
      EventsConcat(g, [line], DataLines(data[1..]));
    }
  }

  lemma EventLine(g: Gathered, name: string)
    requires IsFieldValue(name)
    ensures FieldLine(g, "event: " + name) == g.(event := name)
  {
    ReadsField("event:", name);
    assert "event: " + name == "event:" + " " + name;
  }

  lemma CommentLine(g: Gathered, text: string)
    ensures FieldLine(g, ":" + text) == g
  {
    var line := WithoutCr(":" + text);
    assert line != "" ==> line[0] == ':';
    assert "event:"[0] == 'e' && "data:"[0] == 'd';
  }

  lemma {:induction false} PrintedEvents(ps: seq<Sent>)
    requires forall p :: p in ps ==> CanSend(p)
    ensures Events(FRESH, AllLines(ps)) == Received(ps) && Pending(FRESH, AllLines(ps)) == FRESH
    decreases |ps|
  {
    hide FieldLine, CanSend, IsFieldValue;
    if ps != [] {
      PrintedEvents(ps[1..]);
      SentEvents(ps[0]);
      EventsConcat(FRESH, LinesOf(ps[0]), AllLines(ps[1..]));
    }
  }

  lemma SentEvents(p: Sent)
    requires CanSend(p)
    ensures Pending(FRESH, LinesOf(p)) == FRESH
    ensures Events(FRESH, LinesOf(p)) == if p.Event? then [Packet(p.name, Join("\n", p.data))] else []
  {
    hide FieldLine, IsFieldValue;
    match p
    case Event(name, data) =>
      var head, g := ["event: " + name], Gathered(name, []);
      EventLine(FRESH, name);
      EventsConcat(FRESH, head + DataLines(data), [""]);
      EventsConcat(FRESH, head, DataLines(data));
      GatherData(g, data);
      assert [] + data == data;
    case Comment(text) =>
      CommentLine(FRESH, text);
      EventsConcat(FRESH, [":" + text], [""]);
      FreshDispatchesNothing();
  }

  // ---------- from the wire to lines ----------

  function LfText(lines: seq<string>): string {
    if lines == [] then "" else lines[0] + "\n" + LfText(lines[1..])
  }

  lemma {:induction false} WireNormalizes(wires: seq<Wire>)
    requires forall l :: l in WireLines(wires) ==> '\r' !in l
    ensures Normalize(WireText(wires)) == LfText(WireLines(wires))
  {
    hide Normalize;
    if wires == [] {
      EmptyNormalizes();
    } else {
      var line, more := wires[0].line, WireText(wires[1..]);
      assert line in WireLines(wires);
      WireNormalizes(wires[1..]);
      EndNormalizes(wires[0].crLf);
      var end := if wires[0].crLf then "\r\n" else "\n";
      NormalizeJoin(line + end, more);
      NormalizeJoin(line, end);
      NormalizeClean(line);
    }
  }

  lemma EndNormalizes(crLf: bool)
    ensures Normalize(if crLf then "\r\n" else "\n") == "\n"
  {
    hide Normalize;
    EmptyNormalizes();
    NormalizeStep(if crLf then "\r\n" else "\n");
    assert "\n"[1..] == "" && "\r\n"[2..] == "";
  }

  lemma {:induction false} LfTextLines(lines: seq<string>)
    requires forall l :: l in lines ==> '\n' !in l
    ensures SplitLf(LfText(lines)) == lines + [""]
  {
    hide SplitLf;
    if lines == [] {
      EmptyTextLines();
    } else {
      LfTextLines(lines[1..]);
      FirstLine(lines[0], LfText(lines[1..]));
    }
  }

  /** Printed lines are single lines that do not start with a blank. */
  predicate IsPrinted(line: string) { IsSingleLine(line) && (line == "" || !IsJsSpace(line[0])) }

  lemma LabelPrinted(prefix: string, value: string)
    requires IsPrinted(prefix) && prefix != "" && IsSingleLine(value)
    ensures IsPrinted(prefix + value)
  {
  }

  lemma {:induction false} DataPrinted(data: seq<string>)
    requires forall d :: d in data ==> IsFieldValue(d)
    ensures forall l :: l in DataLines(data) ==> IsPrinted(l)
  {
    if data != [] {
      assert data[0] in data;
      LabelPrinted("data: ", data[0]);
      DataPrinted(data[1..]);
    }
  }

  lemma SentPrinted(p: Sent)
    requires CanSend(p)
    ensures forall l :: l in LinesOf(p) ==> IsPrinted(l)
  {
    match p
    case Event(name, data) =>
      LabelPrinted("event: ", name);
      DataPrinted(data);
    case Comment(text) => LabelPrinted(":", text);
  }

  lemma {:induction false} AllPrinted(ps: seq<Sent>)
    requires forall p :: p in ps ==> CanSend(p)
    ensures forall l :: l in AllLines(ps) ==> IsPrinted(l)
  {
    hide CanSend, IsPrinted;
    if ps != [] {
      SentPrinted(ps[0]);
      AllPrinted(ps[1..]);
    }
  }

  /**
   * Whatever the line ends (LF or CR LF, line by line) and wherever the body is cut outside CR LF
   * pairs, the reader hands on exactly the packets that were printed, in order.
   */
  lemma PacketsRoundTrip(ps: seq<Sent>, wires: seq<Wire>, chunks: seq<string>)
    requires forall p :: p in ps ==> CanSend(p)
    requires WireLines(wires) == AllLines(ps)
    requires Concat(chunks) == WireText(wires) && CleanCuts("", chunks)
    ensures Read(chunks, "") == Received(ps)
  {
    hide SplitLf, Normalize, FieldLine, Dispatch, CanSend;
    var lines := AllLines(ps);
    AllPrinted(ps);
    WireNormalizes(wires);
    LfTextLines(lines);
    UnindentedRemainder(LfText(lines));
    ReadIsInterpret(chunks);
    PrintedEvents(ps);
    EmptyLineGathersNothing(FRESH);
    FreshDispatchesNothing();
    assert Init(lines + [""]) == lines && Last(lines + [""]) == "";
  }

  // ---------- a body that ends too early ----------

  /** An event whose blank line never comes is handed on by the client and discarded by the standard. */
  lemma UnterminatedEventArrives(d: string)
    requires IsFieldValue(d)
    ensures Read(["data: " + d + "\n"], "") == [Packet("message", d)]
    ensures StandardEvents(EMPTY, ["data: " + d]) == []
  {
    hide Read, PacketsIn, IsFieldValue, FieldLine, LfText, StandardLine;
    var line := "data: " + d;
    LabelPrinted("data: ", d) by { ValueIsLine(d); }
    LfTextOne(line);
    CleanLfText([line]);
    NormalizeClean(line + "\n");
    FedOne(line + "\n");
    NoBlankInEmpty();
    ReadIsFed([line + "\n"], "");
    assert "" + (line + "\n") == line + "\n";
    LinesRead([line]);
    OneLine(FRESH, line);
    DataLine(FRESH, d);
    assert [line][1..] == [] && [] + [d] == [d];
  }

  lemma ValueIsLine(d: string)
    requires IsFieldValue(d)
    ensures IsSingleLine(d) && IsPrinted("data: ")
  {
  }

  // ---------- a cut inside CR LF ----------

  /** A cut between CR and LF reads as one more line feed: a blank line that was never sent. */
  lemma CutInsertsLineFeed(x: string, y: string)
    requires '\r' !in x && '\r' !in y
    ensures Read([x + "\r\n" + y], "") == PacketsIn(x + "\n" + y)
    ensures Read([x + "\r", "\n" + y], "") == PacketsIn(x + "\n" + "\n" + y)
  {
    hide Normalize, PacketsIn, Read;
    NormalizeClean(x);
    NormalizeClean(y);
    NormalizeClean("\n" + y);
    EndNormalizes(true);
    CrNormalizes();
    NormalizeJoin(x, "\r");
    NormalizeJoin(x + "\r\n", y);
    NormalizeJoin(x, "\r\n");
    FedTwo(x + "\r", "\n" + y);
    FedOne(x + "\r\n" + y);
    NoBlankInEmpty();
    ReadIsFed([x + "\r\n" + y], "");
    ReadIsFed([x + "\r", "\n" + y], "");
    assert "" + (x + "\n" + y) == x + "\n" + y;
    assert "" + ((x + "\n") + ("\n" + y)) == x + "\n" + "\n" + y;
  }

  lemma NoBlankInEmpty()
    ensures BlankAt("") == 0
  {
  }

  lemma CrNormalizes()
    ensures Normalize("\r") == "\n"
  {
    EmptyNormalizes();
    NormalizeStep("\r");
    assert "\r"[1..] == "";
  }

  lemma FedOne(c: string)
    ensures Fed([c]) == Normalize(c)
  {
    assert [c][1..] == [] && Normalize(c) + "" == Normalize(c);
  }

  lemma FedTwo(c: string, d: string)
    ensures Fed([c, d]) == Normalize(c) + Normalize(d)
  {
    FedOne(d);
    assert [c, d][1..] == [d];
  }

  lemma {:induction false} CleanLfText(lines: seq<string>)
    requires forall l :: l in lines ==> IsPrinted(l)
    ensures '\r' !in LfText(lines)
  {
    if lines != [] {
      assert lines[0] in lines;
      CleanLfText(lines[1..]);
    }
  }

  lemma LinesRead(lines: seq<string>)
    requires forall l :: l in lines ==> IsPrinted(l)
    ensures PacketsIn(LfText(lines)) == Events(FRESH, lines) + Dispatch(Pending(FRESH, lines))
  {
    hide PacketsIn, SplitLf, LfText, Dispatch, Events;
    CleanLfText(lines);
    LfTextLines(lines);
    UnindentedRemainder(LfText(lines));
    PacketsInIsInterpret(LfText(lines));
    assert Init(lines + [""]) == lines && Last(lines + [""]) == "";
    EmptyLineGathersNothing(Pending(FRESH, lines));
  }

  lemma {:induction false} LfTextConcat(a: seq<string>, b: seq<string>)
    ensures LfText(a + b) == LfText(a) + LfText(b)
  {
    if a == [] {
      assert a + b == b;
    } else {
      assert (a + b)[1..] == a[1..] + b;
      LfTextConcat(a[1..], b);
    }
  }

  lemma LfTextOne(l: string)
    ensures LfText([l]) == l + "\n"
  {
    assert [l][1..] == [];
  }

  lemma SecondPart(b: string)
    requires IsFieldValue(b)
    ensures Events(FRESH, ["data: " + b, ""]) == [Packet("message", b)] && Pending(FRESH, ["data: " + b, ""]) == FRESH
    ensures IsPrinted("data: " + b)
  {
    LabelPrinted("data: ", b);
    DataLine(FRESH, b);
    OneLine(FRESH, "data: " + b);
    EventsConcat(FRESH, ["data: " + b], [""]);
    assert ["data: " + b] + [""] == ["data: " + b, ""];
  }

  /** So one event sent in two data lines arrives as two events when the cut falls between them. */
  lemma CutSplitsEvent(name: string, a: string, b: string)
    requires IsFieldValue(name) && IsFieldValue(a) && IsFieldValue(b)
    ensures var x, y := "event: " + name + "\n" + "data: " + a, "data: " + b + "\n" + "\n";
            && Read([x + "\r\n" + y], "") == [Packet(name, a + "\n" + b)]
            && Read([x + "\r", "\n" + y], "") == [Packet(name, a), Packet("message", b)]
  {
    hide Read, PacketsIn, IsFieldValue, IsPrinted, LfText, FieldLine;
    var x, y := "event: " + name + "\n" + "data: " + a, "data: " + b + "\n" + "\n";
    var head, second := ["event: " + name] + ["data: " + a], ["data: " + b] + [""];
    LfTextOne("event: " + name); LfTextOne("data: " + a); LfTextOne("data: " + b); LfTextOne("");
    LfTextConcat(["event: " + name], ["data: " + a]);
    LfTextConcat(["data: " + b], [""]);
    LfTextConcat(head, second);
    LfTextConcat(head, [""] + second);
    LfTextConcat([""], second);
    assert LfText(head + second) == x + "\n" + y;
    assert LfText(head + ([""] + second)) == x + "\n" + "\n" + y;
    TwoEvents(name, a, b);
    CleanLfText(head + second);
    CutInsertsLineFeed(x, y);
    LinesRead(head + second);
    LinesRead(head + ([""] + second));
  }

  lemma OneDataLine(d: string)
    ensures DataLines([d]) == ["data: " + d]
  {
    assert [d][1..] == [];
  }

  lemma TwoEvents(name: string, a: string, b: string)
    requires IsFieldValue(name) && IsFieldValue(a) && IsFieldValue(b)
    ensures var head, second := ["event: " + name] + ["data: " + a], ["data: " + b] + [""];
            && (forall l :: l in head + second ==> IsPrinted(l)) && IsPrinted("")
            && Events(FRESH, head + second) == [Packet(name, a + "\n" + b)]
            && Events(FRESH, head + ([""] + second)) == [Packet(name, a), Packet("message", b)]
            && Pending(FRESH, head + second) == FRESH == Pending(FRESH, head + ([""] + second))
  {
    hide IsFieldValue, IsPrinted, FieldLine, Events, Pending;
    var head, second := ["event: " + name] + ["data: " + a], ["data: " + b] + [""];
    var whole, first := Event(name, [a, b]), Event(name, [a]);
    assert [a, b][1..] == [b] && [b][1..] == [] && [a][1..] == [];
    OneDataLine(a);
    OneDataLine(b);
    assert DataLines([a, b]) == ["data: " + a] + DataLines([b]);
    assert head + second == LinesOf(whole) && head + [""] == LinesOf(first);
    assert Join("\n", [a, b]) == a + "\n" + Join("\n", [b]);
    assert head + ([""] + second) == LinesOf(first) + second;
    assert second == ["data: " + b, ""];
    SentPrinted(whole);
    SentEvents(whole);
    SentEvents(first);
    SecondPart(b);
    EventsConcat(FRESH, LinesOf(first), second);
    EmptyPrinted();
  }

  lemma EmptyPrinted()
    ensures IsPrinted("")
  {
  }
}

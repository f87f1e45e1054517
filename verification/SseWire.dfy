/** The end of the stream, the standard's interpreter, and printed packets read back. */
module SseWire {
  import opened Text
  import opened SseFramer
  import opened SseChunks
  import opened SseEvents

  // ---------- trimming what is left at the end ----------

  /** Trimming removes whole blank lines from the front, and no blank before a field. */
  predicate IsFlush(s: string) {
    var t := DropLeft(IsJsSpace, s);
    t == "" || t == s || s[|s| - |t| - 1] == '\n'
  }

  /** No line starts with a blank: what a field line looks like before its name. */
  predicate Unindented(lines: seq<string>) {
    forall l :: l in lines ==> l == "" || !IsJsSpace(l[0])
  }

  lemma {:induction false} TrimAppend(s: string, c: char)
    requires IsJsSpace(c)
    ensures Trim(IsJsSpace, s + [c]) == Trim(IsJsSpace, s)
  {
    if s != "" && IsJsSpace(s[0]) {
      assert (s + [c])[1..] == s[1..] + [c];
      TrimAppend(s[1..], c);
    } else if s != "" {
      assert (s + [c])[..|s|] == s;
    } else {
      assert s + [c] == [c] && [c][1..] == "";
    }
  }

  /** A trailing blank on a line changes nothing that is gathered. */
  lemma FieldLineAppend(g: Gathered, line: string, c: char)
    requires IsJsSpace(c) && c != '\r' && '\r' !in line
    ensures FieldLine(g, line + [c]) == FieldLine(g, line)
  {
    hide Trim;
    var more := line + [c];
    assert WithoutCr(more) == more && WithoutCr(line) == line;
    if "event:" <= line {
      assert more[6..] == line[6..] + [c];
      TrimAppend(line[6..], c);
    } else if "data:" <= line {
      assert more[5..] == line[5..] + [c];
      TrimAppend(line[5..], c);
    } else {
      PrefixNeedsColon("event", line, c);
      PrefixNeedsColon("data", line, c);
      assert "event:" == "event" + [':'] && "data:" == "data" + [':'];
    }
  }

  lemma PrefixNeedsColon(name: string, line: string, c: char)
    requires c != ':' && !(name + [':'] <= line)
    ensures !(name + [':'] <= line + [c])
  {
    var p, more := name + [':'], line + [c];
    if |p| <= |line| {
      assert more[..|p|] == line[..|p|];
    } else if |p| == |more| {
      assert p[|name|] == ':' && more[|name|] == c;
    }
  }

  /** Dropping a trailing blank of the text drops an empty last line or shortens the last line. */
  lemma {:induction false} LfAppend(s: string, c: char)
    ensures SplitLf(s + [c])
            == if c == '\n' then SplitLf(s) + [""] else Init(SplitLf(s)) + [Last(SplitLf(s)) + [c]]
    decreases |s|
  {
    hide SplitLf;
    if c == '\n' {
      assert s + [c] == s + "\n" + "";
      SplitLfJoin(s, "");
      EmptyTextLines();
    } else {
      var line, more, t := LineCases(s);
      if more {
        assert s + [c] == line + "\n" + (t + [c]);
        FirstLine(line, t);
        FirstLine(line, t + [c]);
        PrependLine(line, SplitLf(t));
        LfAppend(t, c);
      } else {
        OnlyLine(s);
        OnlyLine(s + [c]);
        SingleLine(s);
      }
    }
  }

  lemma {:induction false} LineOfCleanText(s: string)
    requires '\r' !in s
    ensures '\r' !in Last(SplitLf(s))
    decreases |s|
  {
    hide SplitLf;
    var line, more, t := LineCases(s);
    if more {
      FirstLine(line, t);
      PrependLine(line, SplitLf(t));
      LineOfCleanText(t);
    } else {
      OnlyLine(s);
    }
  }

  lemma GatherAppend(s: string, c: char)
    requires IsJsSpace(c) && '\r' !in s + [c]
    ensures Gather(FRESH, SplitLf(s + [c])) == Gather(FRESH, SplitLf(s))
  {
    hide *;
    var lines := SplitLf(s);
    LfAppend(s, c);
    LineOfCleanText(s) by { assert forall x :: x in s ==> x in s + [c]; }
    assert c != '\r' by { assert c in s + [c]; }
    if c == '\n' {
      GatherConcat(FRESH, lines, [""]);
      GatherOne(Gather(FRESH, lines), "");
      EmptyLineGathersNothing(Gather(FRESH, lines));
    } else {
      var g := Gather(FRESH, Init(lines));
      GatherConcat(FRESH, Init(lines), [Last(lines) + [c]]);
      GatherConcat(FRESH, Init(lines), [Last(lines)]);
      InitLast(lines);
      GatherOne(g, Last(lines) + [c]);
      GatherOne(g, Last(lines));
      FieldLineAppend(g, Last(lines), c);
    }
  }

  lemma {:induction false} GatherTrimRight(s: string)
    requires '\r' !in s
    ensures Gather(FRESH, SplitLf(DropRight(IsJsSpace, s))) == Gather(FRESH, SplitLf(s))
    decreases |s|
  {
    hide SplitLf, Gather;
    if s != "" && IsJsSpace(s[|s| - 1]) {
      assert s == s[..|s| - 1] + [s[|s| - 1]];
      GatherAppend(s[..|s| - 1], s[|s| - 1]);
      GatherTrimRight(s[..|s| - 1]);
    }
  }

  predicate IsBlank(s: string) { forall c :: c in s ==> IsJsSpace(c) }

  lemma BlankLineGathersNothing(g: Gathered, line: string)
    requires IsBlank(line) && '\r' !in line
    ensures FieldLine(g, line) == g
  {
    assert WithoutCr(line) == line;
    assert line != "" ==> line[0] in line;
    assert "event:"[0] == 'e' && "data:"[0] == 'd';
  }

  /** Blanks are dropped up to the first character that is none, in whichever line. */
  lemma {:induction false} DropLeftPast(a: string, s: string)
    ensures IsBlank(a) ==> DropLeft(IsJsSpace, a + s) == DropLeft(IsJsSpace, s)
    ensures !IsBlank(a) ==> DropLeft(IsJsSpace, a + s) == DropLeft(IsJsSpace, a) + s && DropLeft(IsJsSpace, a) != ""
    decreases |a|
  {
    if a == "" {
      assert a + s == s;
    } else {
      assert (a + s)[1..] == a[1..] + s && a == [a[0]] + a[1..];
      DropLeftPast(a[1..], s);
    }
  }

  /** A first line that is not blank starts at the margin when the text is flush. */
  lemma FlushStart(s: string, line: string, tail: string)
    requires s == line + tail && '\n' !in line && !IsBlank(line) && IsFlush(s)
    ensures DropLeft(IsJsSpace, s) == s
  {
    DropLeftPast(line, tail);
    DropLeftSpec(IsJsSpace, s);
    DropLeftSpec(IsJsSpace, line);
  }

  lemma FlushNext(s: string, line: string, t: string)
    requires s == line + "\n" + t && IsBlank(line) && IsFlush(s)
    ensures DropLeft(IsJsSpace, s) == DropLeft(IsJsSpace, t) && IsFlush(t)
  {
    var d := DropLeft(IsJsSpace, t);
    DropLeftPast(line + "\n", t);
    DropLeftSpec(IsJsSpace, t);
    if d != "" && d != t { assert s[|s| - |d| - 1] == t[|t| - |d| - 1]; }
  }

  lemma {:induction false} GatherTrimLeft(s: string)
    requires IsFlush(s) && '\r' !in s
    ensures Gather(FRESH, SplitLf(DropLeft(IsJsSpace, s))) == Gather(FRESH, SplitLf(s))
    decreases |s|
  {
    hide SplitLf, Gather, DropLeft, IsFlush, IsBlank, FieldLine;
    var line, more, t := LineCases(s);
    assert forall c :: c in line || (more && c in t) ==> c in s;
    if !IsBlank(line) {
      FlushStart(s, line, if more then "\n" + t else "");
    } else if more {
      FlushNext(s, line, t);
      FirstLine(line, t);
      GatherConcat(FRESH, [line], SplitLf(t));
      GatherOne(FRESH, line);
      BlankLineGathersNothing(FRESH, line);
      GatherTrimLeft(t);
    } else {
      OnlyLine(s);
      GatherOne(FRESH, s);
      BlankLineGathersNothing(FRESH, s);
      DropLeftPast(s, "");
      assert s + "" == s;
      NothingToDrop();
      EmptyTextLines();
      GatherOne(FRESH, "");
      EmptyLineGathersNothing(FRESH);
    }
  }

  lemma NothingToDrop()
    ensures DropLeft(IsJsSpace, "") == ""
  {
  }

  /** A text whose lines are not indented is flush. */
  lemma {:induction false} UnindentedIsFlush(s: string)
    requires Unindented(SplitLf(s))
    ensures IsFlush(s)
    decreases |s|
  {
    hide SplitLf;
    if s != "" && IsJsSpace(s[0]) {
      FirstLineStart(s);
      assert s == "" + "\n" + s[1..];
      SplitLfJoin("", s[1..]);
      assert forall l :: l in SplitLf(s[1..]) ==> l in SplitLf(s);
      UnindentedIsFlush(s[1..]);
      DropLeftSpec(IsJsSpace, s[1..]);
    }
  }

  lemma FirstLineStart(s: string)
    requires s != "" && Unindented(SplitLf(s)) && IsJsSpace(s[0])
    ensures s[0] == '\n'
  {
    hide SplitLf;
    var line, more, t := LineCases(s);
    if more { FirstLine(line, t); } else { OnlyLine(s); }
    assert line in SplitLf(s);
  }

  lemma TrimIsPart(rest: string)
    requires BlankAt(rest) == |rest|
    ensures var t := Trim(IsJsSpace, rest); BlankAt(t) == |t|
  {
    hide BlankAt, DropLeft, DropRight;
    var d := DropLeft(IsJsSpace, rest);
    var t := DropRight(IsJsSpace, d);
    DropLeftSpec(IsJsSpace, rest);
    DropRightSpec(IsJsSpace, d);
    var lo := |rest| - |d|;
    assert t == rest[lo..lo + |t|];
    PartHasNoBlank(rest, lo, lo + |t|);
  }

  lemma CleanDropLeft(s: string)
    requires '\r' !in s
    ensures '\r' !in DropLeft(IsJsSpace, s)
  {
    DropLeftSpec(IsJsSpace, s);
  }

  lemma OneFrame(t: string)
    requires BlankAt(t) == |t|
    ensures PacketsOf(SplitBlank(t)) == ParseSse(t)
  {
    hide ParseSse, BlankAt;
    OnePacket(t);
  }

  lemma NothingInEmptyText()
    ensures Dispatch(Gather(FRESH, SplitLf(""))) == []
  {
    EmptyTextLines();
    GatherOne(FRESH, "");
    EmptyLineGathersNothing(FRESH);
    FreshDispatchesNothing();
  }

  /** At the end the client dispatches what the remainder gathers without its leading blanks, terminated or not. */
  lemma EndDispatchesTrimmed(rest: string)
    requires '\r' !in rest && BlankAt(rest) == |rest|
    ensures AtEnd(rest) == Dispatch(Gather(FRESH, SplitLf(DropLeft(IsJsSpace, rest))))
  {
    hide SplitLf, Gather, Dispatch, SplitBlank, BlankAt, Normalize, DropLeft, DropRight, PacketsOf;
    NormalizeClean(rest);
    CleanDropLeft(rest);
    GatherTrimRight(DropLeft(IsJsSpace, rest));
    TrimIsPart(rest);
    NothingInEmptyText();
    OneFrame(Trim(IsJsSpace, rest));
  }

  /** When the remainder is flush, that is what is gathered. */
  lemma EndDispatchesPending(rest: string)
    requires '\r' !in rest && BlankAt(rest) == |rest| && IsFlush(rest)
    ensures AtEnd(rest) == Dispatch(Gather(FRESH, SplitLf(rest)))
  {
    hide SplitLf, Gather, Dispatch, BlankAt, DropLeft, IsFlush, AtEnd;
    EndDispatchesTrimmed(rest);
    GatherTrimLeft(rest);
  }

  // ---------- the whole stream ----------

  lemma {:induction false} LinesOfTail(s: string)
    ensures forall l :: l in SplitLf(Last(SplitBlank(s))) ==> l in SplitLf(s)
    decreases |s|
  {
    hide SplitLf, SplitBlank, BlankAt;
    var u, more, t := FrameCases(s);
    if more {
      FrameLines(u, t);
      AppendInit([u], SplitBlank(t));
      LinesOfTail(t);
    }
  }

  /** What a reader of lines dispatches over a whole body, the unterminated last event included. */
  function Interpret(lines: seq<string>): seq<Packet>
    requires lines != []
  {
    Events(FRESH, Init(lines)) + Dispatch(FieldLine(Pending(FRESH, Init(lines)), Last(lines)))
  }

  /** What follows the last blank line. */
  function Remainder(text: string): string { Last(SplitBlank(text)) }

  lemma PacketsInAre(text: string)
    requires '\r' !in text
    ensures PacketsIn(text) == Events(FRESH, Init(SplitLf(text)))
                               + Dispatch(Gather(FRESH, SplitLf(DropLeft(IsJsSpace, Remainder(text)))))
  {
    hide SplitLf, SplitBlank, BlankAt, AtEnd, Gather, Dispatch, DropLeft, Events;
    FramesAreLines(text);
    SplitAppend(text, "");
    CleanLast(text);
    EndDispatchesTrimmed(Remainder(text));
  }

  /** For every body and every cutting: the events of the lines fed, then what the trimmed remainder gathers. */
  lemma ReadOfAnyBody(chunks: seq<string>)
    ensures Read(chunks, "") == Events(FRESH, Init(SplitLf(Fed(chunks))))
                                + Dispatch(Gather(FRESH, SplitLf(DropLeft(IsJsSpace, Remainder(Fed(chunks))))))
  {
    hide SplitLf, Gather, Dispatch, DropLeft, Events, Remainder, PacketsIn, Fed, Read, BlankAt;
    CleanFed(chunks);
    ReadIsFed(chunks, "") by { assert BlankAt("") == 0; }
    assert "" + Fed(chunks) == Fed(chunks);
    PacketsInAre(Fed(chunks));
  }

  lemma {:induction false} CleanFed(chunks: seq<string>)
    ensures '\r' !in Fed(chunks)
  {
    hide Normalize;
    if chunks != [] {
      NormalizeClean(chunks[0]);
      CleanFed(chunks[1..]);
    }
  }

  lemma PacketsInIsInterpret(text: string)
    requires '\r' !in text && IsFlush(Remainder(text))
    ensures PacketsIn(text) == Interpret(SplitLf(text))
  {
    hide SplitLf, SplitBlank, BlankAt, Normalize, AtEnd, FieldLine, Dispatch, IsFlush;
    FramesAreLines(text);
    SplitAppend(text, "");
    CleanLast(text);
    EndDispatchesPending(Last(SplitBlank(text)));
  }

  lemma UnindentedRemainder(text: string)
    requires Unindented(SplitLf(text))
    ensures IsFlush(Remainder(text))
  {
    hide SplitLf, SplitBlank, IsFlush;
    LinesOfTail(text);
    UnindentedIsFlush(Remainder(text));
  }

  /**
   * The reader is a line interpreter: for every body with a flush remainder, however it is cut outside CR LF
   * pairs, it hands on the events of the body's lines, then the pending event if there is one.
   */
  lemma ReadIsInterpret(chunks: seq<string>)
    requires CleanCuts("", chunks) && IsFlush(Remainder(Normalize(Concat(chunks))))
    ensures Read(chunks, "") == Interpret(SplitLf(Normalize(Concat(chunks))))
  {
    hide SplitLf, Normalize, PacketsIn, IsFlush, Remainder;
    NormalizeClean(Concat(chunks));
    ChunksIrrelevant(chunks);
    PacketsInIsInterpret(Normalize(Concat(chunks)));
  }

  // ---------- the standard's interpreter (HTML Living Standard, sections 9.2.5 and 9.2.6) ----------

  /** The event type buffer and the data buffer. */
  datatype Buffers = Buffers(eventType: string, data: string)

  const EMPTY := Buffers("", "")

  function ProcessField(b: Buffers, name: string, value: string): Buffers {
    if name == "event" then b.(eventType := value)
    else if name == "data" then b.(data := b.data + value + "\n")
    else b
  }

  function StandardLine(b: Buffers, line: string): Buffers {
    var k := IndexOf(':', line);
    if k == |line| then ProcessField(b, line, "")
    else if k == 0 then b
    else
      var value := line[k + 1..];
      ProcessField(b, line[..k], if value != "" && value[0] == ' ' then value[1..] else value)
  }

  function StandardDispatch(b: Buffers): seq<Packet> {
    if b.data == "" then []
    else
      var data := if Last(b.data) == '\n' then Init(b.data) else b.data;
      [Packet(if b.eventType == "" then "message" else b.eventType, data)]
  }

  function StandardEvents(b: Buffers, lines: seq<string>): seq<Packet>
    decreases |lines|
  {
    if lines == [] then []
    else if lines[0] == "" then StandardDispatch(b) + StandardEvents(EMPTY, lines[1..])
    else StandardEvents(StandardLine(b, lines[0]), lines[1..])
  }

  /**
   * The lines that the client and the standard read alike, given the event name gathered so far: no bare
   * `data`, no bare `event` that would clear a name, and no value that loses more to trimming than one space.
   */
  predicate ReadAlike(event: string, line: string) {
    && line != "data" && (line == "event" ==> event == "message")
    && ("data:" <= line ==> Trim(IsJsSpace, line[5..]) == AfterSpace(line[5..]))
    && ("event:" <= line ==> Trim(IsJsSpace, line[6..]) == AfterSpace(line[6..]) != "")
  }

  predicate AllReadAlike(g: Gathered, lines: seq<string>)
    decreases |lines|
  {
    lines == []
    || (lines[0] == "" && AllReadAlike(FRESH, lines[1..]))
    || (lines[0] != "" && ReadAlike(g.event, lines[0]) && AllReadAlike(FieldLine(g, lines[0]), lines[1..]))
  }

  function AfterSpace(value: string): string {
    if value != "" && value[0] == ' ' then value[1..] else value
  }

  /** Each gathered line followed by a line feed: the standard's data buffer. */
  function Buffered(data: seq<string>): string {
    if data == [] then "" else data[0] + "\n" + Buffered(data[1..])
  }

  predicate Corresponds(g: Gathered, b: Buffers) {
    b.data == Buffered(g.data) && g.event == if b.eventType == "" then "message" else b.eventType
  }

  lemma {:induction false} BufferedAppend(data: seq<string>, d: string)
    ensures Buffered(data + [d]) == Buffered(data) + d + "\n"
  {
    if data != [] {
      assert (data + [d])[1..] == data[1..] + [d];
      BufferedAppend(data[1..], d);
    } else {
      assert [d][1..] == [] && data + [d] == [d];
    }
  }

  lemma {:induction false} BufferedIsJoin(data: seq<string>)
    requires data != []
    ensures Buffered(data) == Join("\n", data) + "\n"
  {
    if |data| > 1 {
      BufferedIsJoin(data[1..]);
    }
  }

  lemma DispatchesCorrespond(g: Gathered, b: Buffers)
    requires Corresponds(g, b)
    ensures Dispatch(g) == StandardDispatch(b)
  {
    if g.data != [] {
      BufferedIsJoin(g.data);
      assert Init(Join("\n", g.data) + "\n") == Join("\n", g.data);
    }
  }

  lemma NameBefore(name: string, line: string)
    requires ':' !in name && name + [':'] <= line
    ensures IndexOf(':', line) == |name| < |line| && line[..|name|] == name
  {
    hide IndexOf;
    assert line == name + [':'] + line[|name| + 1..];
    IndexOfFirst(':', name, line[|name| + 1..]);
  }

  lemma NameRead(name: string, line: string)
    requires IndexOf(':', line) == |name| < |line| && line[..|name|] == name
    ensures name + [':'] <= line
  {
    hide IndexOf;
    assert line[..|name| + 1] == line[..|name|] + [line[|name|]];
  }

  lemma EventCorrespondsIff(g: Gathered, b: Buffers, line: string)
    requires Corresponds(g, b) && '\r' !in line && "event:" <= line
    ensures Corresponds(FieldLine(g, line), StandardLine(b, line)) <==> ReadAlike(g.event, line)
  {
    hide IndexOf, Buffered, DropLeft, DropRight;
    assert "event" + [':'] == "event:";
    NameBefore("event", line);
    assert WithoutCr(line) == line;
    if AfterSpace(line[6..]) == "" {
      NoName(line[6..]);
    }
  }

  lemma NoName(value: string)
    requires AfterSpace(value) == ""
    ensures Trim(IsJsSpace, value) == ""
  {
    assert value == "" || value == " ";
    assert value + "" + "" == value;
    TrimOf(IsJsSpace, value, "", "");
  }

  lemma DataCorrespondsIff(g: Gathered, b: Buffers, line: string)
    requires Corresponds(g, b) && '\r' !in line && "data:" <= line
    ensures Corresponds(FieldLine(g, line), StandardLine(b, line)) <==> ReadAlike(g.event, line)
  {
    hide Trim, IndexOf, Buffered;
    assert "data" + [':'] == "data:";
    NameBefore("data", line);
    assert WithoutCr(line) == line;
    var x, y := Trim(IsJsSpace, line[5..]), AfterSpace(line[5..]);
    BufferedAppend(g.data, x);
    SameMiddle(Buffered(g.data), x, y);
  }

  lemma SameMiddle(a: string, x: string, y: string)
    ensures a + x + "\n" == a + y + "\n" <==> x == y
  {
    if a + x + "\n" == a + y + "\n" {
      assert x == (a + x + "\n")[|a|..|a + x + "\n"| - 1] && y == (a + y + "\n")[|a|..|a + y + "\n"| - 1];
    }
  }

  lemma OtherCorrespondsIff(g: Gathered, b: Buffers, line: string)
    requires Corresponds(g, b) && '\r' !in line && !("event:" <= line) && !("data:" <= line)
    ensures FieldLine(g, line) == g
    ensures Corresponds(g, StandardLine(b, line)) <==> ReadAlike(g.event, line)
  {
    hide Trim, IndexOf, Buffered;
    assert "event" + [':'] == "event:" && "data" + [':'] == "data:";
    assert WithoutCr(line) == line;
    var k := IndexOf(':', line);
    if k < |line| {
      NameRead(line[..k], line);
    } else {
      BareName(line);
    }
  }

  lemma BareName(line: string)
    ensures line in {"data", "event"} ==> IndexOf(':', line) == |line|
  {
    IndexOfFirst(':', "data", "");
    IndexOfFirst(':', "event", "");
  }

  /** From corresponding states, exactly the lines that are read alike lead to corresponding states. */
  lemma LineCorrespondsIff(g: Gathered, b: Buffers, line: string)
    requires Corresponds(g, b) && '\r' !in line
    ensures Corresponds(FieldLine(g, line), StandardLine(b, line)) <==> ReadAlike(g.event, line)
  {
    hide *;
    if "event:" <= line {
      EventCorrespondsIff(g, b, line);
    } else if "data:" <= line {
      DataCorrespondsIff(g, b, line);
    } else {
      OtherCorrespondsIff(g, b, line);
    }
  }

  predicate Clean(lines: seq<string>) { forall l :: l in lines ==> '\r' !in l }

  /** On lines read alike the client dispatches at blank lines exactly what the standard dispatches. */
  lemma {:induction false} AgreesWithStandard(g: Gathered, b: Buffers, lines: seq<string>)
    requires Corresponds(g, b) && Clean(lines) && AllReadAlike(g, lines)
    ensures Events(g, lines) == StandardEvents(b, lines)
    decreases |lines|
  {
    hide ReadAlike, Dispatch, StandardDispatch, FieldLine, StandardLine;
    if lines != [] {
      if lines[0] == "" {
        DispatchesCorrespond(g, b);
        assert Corresponds(FRESH, EMPTY);
        AgreesWithStandard(FRESH, EMPTY, lines[1..]);
      } else {
        LineCorrespondsIff(g, b, lines[0]);
        AgreesWithStandard(FieldLine(g, lines[0]), StandardLine(b, lines[0]), lines[1..]);
      }
    }
  }

  lemma {:induction false} CleanLines(s: string)
    requires '\r' !in s
    ensures Clean(SplitLf(s))
    decreases |s|
  {
    hide SplitLf;
    var line, more, t := LineCases(s);
    assert forall c :: c in line || (more && c in t) ==> c in s;
    if more {
      FirstLine(line, t);
      CleanLines(t);
    } else {
      OnlyLine(s);
    }
  }

  /** The reader against the standard: the same packets, plus an event the body leaves unterminated. */
  lemma ReadAgainstStandard(chunks: seq<string>)
    requires CleanCuts("", chunks)
    requires var text := Normalize(Concat(chunks)); IsFlush(Remainder(text)) && AllReadAlike(FRESH, Init(SplitLf(text)))
    ensures var lines := SplitLf(Normalize(Concat(chunks)));
            Read(chunks, "") == StandardEvents(EMPTY, Init(lines))
                                + Dispatch(FieldLine(Pending(FRESH, Init(lines)), Last(lines)))
  {
    hide SplitLf, Normalize, AllReadAlike, FieldLine, Dispatch, StandardEvents, Events, IsFlush, Remainder, Read;
    var text := Normalize(Concat(chunks));
    ReadIsInterpret(chunks);
    NormalizeClean(Concat(chunks));
    CleanLines(text);
    AgreesWithStandard(FRESH, EMPTY, Init(SplitLf(text)));
  }

  /** What the body leaves gathered and not dispatched: its last line is the one no line feed ends. */
  function LeftOver(lines: seq<string>): Gathered
    requires lines != []
  {
    FieldLine(Pending(FRESH, Init(lines)), Last(lines))
  }

  /** So client and standard agree on such a body exactly when it leaves no data line behind. */
  lemma AgreesWithStandardIff(chunks: seq<string>)
    requires CleanCuts("", chunks)
    requires var text := Normalize(Concat(chunks)); IsFlush(Remainder(text)) && AllReadAlike(FRESH, Init(SplitLf(text)))
    ensures var lines := SplitLf(Normalize(Concat(chunks)));
            Read(chunks, "") == StandardEvents(EMPTY, Init(lines)) <==> LeftOver(lines).data == []
  {
    hide SplitLf, Normalize, AllReadAlike, FieldLine, StandardEvents, IsFlush, Remainder, Read, CleanCuts, Concat, Pending;
    ReadAgainstStandard(chunks);
    var lines := SplitLf(Normalize(Concat(chunks)));
    SameLength(StandardEvents(EMPTY, Init(lines)), Dispatch(LeftOver(lines)));
  }

  lemma SameLength<T>(a: seq<T>, b: seq<T>)
    ensures a + b == a <==> b == []
  {
    assert b == [] ==> a + b == a;
    assert a + b == a ==> |a + b| == |a|;
  }
}

/** Which cuts inside CR LF change what is received: the exact condition for printed packets. */
module SseCuts {
  import opened Text
  import opened SseFramer
  import opened SseChunks
  import opened SseEvents
  import opened SseWire
  import opened SsePrinted

  // ---------- what the splitter is fed, position by position ----------

  /** One chunk ends, and what follows starts, `k` characters into the body. */
  predicate Boundary(chunks: seq<string>, k: nat) {
    k == 0 || (chunks != [] && k >= |chunks[0]| && Boundary(chunks[1..], k - |chunks[0]|))
  }

  /** The normalised text from `at` on, with one more line feed for each CR LF that the chunks cut in two. */
  function Seen(chunks: seq<string>, s: string, at: nat): string
    decreases |s|
  {
    if s == "" then ""
    else if |s| > 1 && s[0] == '\r' && s[1] == '\n' then
      "\n" + (if Boundary(chunks, at + 1) then "\n" else "") + Seen(chunks, s[2..], at + 2)
    else [if s[0] == '\r' then '\n' else s[0]] + Seen(chunks, s[1..], at + 1)
  }

  lemma {:induction false} SeenLater(chunks: seq<string>, s: string, at: nat)
    requires chunks != []
    ensures Seen(chunks, s, |chunks[0]| + at) == Seen(chunks[1..], s, at)
    decreases |s|
  {
    if s != "" {
      if |s| > 1 { SeenLater(chunks, s[2..], at + 2); }
      SeenLater(chunks, s[1..], at + 1);
    }
  }

  lemma InsideChunk(chunks: seq<string>, k: nat)
    requires chunks != [] && 0 < k < |chunks[0]|
    ensures !Boundary(chunks, k)
  {
  }

  lemma ChunkEnd(chunks: seq<string>)
    requires chunks != []
    ensures Boundary(chunks, |chunks[0]|)
  {
  }

  /** A piece that nothing runs into is seen as it normalises. */
  lemma SeenHead(chunks: seq<string>, h: string, t: string, at: nat)
    requires h == "\r\n" || (|h| == 1 && !(h[0] == '\r' && StartsLf(t)))
    requires h == "\r\n" ==> !Boundary(chunks, at + 1)
    ensures Seen(chunks, h + t, at) == Normalize(h) + Seen(chunks, t, at + |h|)
  {
    hide Normalize, Boundary;
    EmptyNormalizes();
    NormalizeStep(h);
    assert (h + t)[|h|..] == t && h[|h|..] == "";
  }

  lemma SeenCut(chunks: seq<string>, t: string, at: nat)
    requires Boundary(chunks, at + 1) && StartsLf(t)
    ensures Seen(chunks, "\r" + t, at) == Normalize("\r") + Seen(chunks, t, at + 1)
  {
    hide Boundary;
    CrNormalizes();
    assert ("\r" + t)[2..] == t[1..];
  }

  /** A suffix `b` of the first chunk is normalised on its own. */
  lemma {:induction false} SeenInChunk(chunks: seq<string>, b: string, t: string)
    requires chunks != [] && |b| <= |chunks[0]|
    ensures Seen(chunks, b + t, |chunks[0]| - |b|) == Normalize(b) + Seen(chunks, t, |chunks[0]|)
    decreases |b|
  {
    hide Normalize, Boundary, Seen;
    var at := |chunks[0]| - |b|;
    if b == "" {
      EmptyNormalizes();
      assert b + t == t;
    } else if b == "\r" && StartsLf(t) {
      ChunkEnd(chunks);
      SeenCut(chunks, t, at);
    } else {
      var n := if |b| > 1 && b[0] == '\r' && b[1] == '\n' then 2 else 1;
      var h, u := b[..n], b[n..];
      assert b == h + u && b + t == h + (u + t);
      if n == 2 { InsideChunk(chunks, at + 1); }
      SeenHead(chunks, h, u + t, at);
      NormalizeHead(h, u);
      SeenInChunk(chunks, u, t);
    }
  }

  lemma {:induction false} FedIsSeen(chunks: seq<string>)
    ensures Fed(chunks) == Seen(chunks, Concat(chunks), 0)
  {
    if chunks != [] {
      hide Normalize, Seen, Fed, Concat;
      FedStep(chunks);
      FedIsSeen(chunks[1..]);
      SeenInChunk(chunks, chunks[0], Concat(chunks[1..]));
      SeenLater(chunks, Concat(chunks[1..]), 0);
    }
  }

  // ---------- what the splitter is fed, line by line ----------

  function WireEnd(w: Wire): string { if w.crLf then "\r\n" else "\n" }

  /** Where the line feed that ends line `j` stands in the body. */
  function LfAt(wires: seq<Wire>, j: nat): nat
    requires j < |wires|
  {
    if j == 0 then |wires[0].line| + |WireEnd(wires[0])| - 1
    else |wires[0].line| + |WireEnd(wires[0])| + LfAt(wires[1..], j - 1)
  }

  /** The chunks cut the CR LF at the end of line `j`. */
  predicate CutsEnd(chunks: seq<string>, wires: seq<Wire>, j: nat)
    requires j < |wires|
  {
    wires[j].crLf && Boundary(chunks, LfAt(wires, j))
  }

  /** Line by line: is its end cut? */
  function CutEnds(chunks: seq<string>, wires: seq<Wire>, at: nat): (cuts: seq<bool>)
    ensures |cuts| == |wires|
  {
    seq(|wires|, j requires 0 <= j < |wires| => wires[j].crLf && Boundary(chunks, at + LfAt(wires, j)))
  }

  /** A line, and an empty one after it if its end is cut. */
  function Piece(line: string, cut: bool): seq<string> { [line] + if cut then [""] else [] }

  function Doubled(lines: seq<string>, cuts: seq<bool>): seq<string>
    requires |cuts| == |lines|
  {
    if lines == [] then [] else Piece(lines[0], cuts[0]) + Doubled(lines[1..], cuts[1..])
  }

  lemma {:induction false} SeenLine(chunks: seq<string>, line: string, t: string, at: nat)
    requires '\r' !in line
    ensures Seen(chunks, line + t, at) == line + Seen(chunks, t, at + |line|)
  {
    hide Boundary;
    if line == "" {
      assert line + t == t;
    } else {
      assert (line + t)[1..] == line[1..] + t;
      SeenLine(chunks, line[1..], t, at + 1);
      assert [line[0]] + line[1..] == line;
    }
  }

  lemma SeenWire(chunks: seq<string>, w: Wire, t: string, at: nat)
    requires '\r' !in w.line
    ensures Seen(chunks, w.line + WireEnd(w) + t, at)
            == w.line + (if w.crLf && Boundary(chunks, at + |w.line| + 1) then "\n\n" else "\n")
               + Seen(chunks, t, at + |w.line| + |WireEnd(w)|)
  {
    hide Boundary;
    var end := WireEnd(w) + t;
    assert w.line + WireEnd(w) + t == w.line + end && end[|WireEnd(w)|..] == t;
    SeenLine(chunks, w.line, end, at);
  }

  lemma {:induction false} SeenWires(chunks: seq<string>, wires: seq<Wire>, at: nat)
    requires forall l :: l in WireLines(wires) ==> '\r' !in l
    ensures Seen(chunks, WireText(wires), at) == LfText(Doubled(WireLines(wires), CutEnds(chunks, wires, at)))
    decreases |wires|
  {
    hide Boundary, Seen, LfText, Piece, CutEnds;
    if wires == [] {
      NothingSeen(chunks, at);
    } else {
      var w, next := wires[0], at + |wires[0].line| + |WireEnd(wires[0])|;
      assert w.line in WireLines(wires) && WireLines(wires)[1..] == WireLines(wires[1..]);
      SeenWires(chunks, wires[1..], next);
      SeenWire(chunks, w, WireText(wires[1..]), at);
      CutEndsTail(chunks, wires, at);
      var cut := CutEnds(chunks, wires, at)[0];
      var rest := Doubled(WireLines(wires[1..]), CutEnds(chunks, wires[1..], next));
      LfTextConcat(Piece(w.line, cut), rest);
      PieceText(w.line, cut);
    }
  }

  lemma NothingSeen(chunks: seq<string>, at: nat)
    ensures Seen(chunks, "", at) == "" && LfText([]) == ""
  {
  }

  lemma CutEndsTail(chunks: seq<string>, wires: seq<Wire>, at: nat)
    requires wires != []
    ensures CutEnds(chunks, wires, at)[1..]
            == CutEnds(chunks, wires[1..], at + |wires[0].line| + |WireEnd(wires[0])|)
    ensures CutEnds(chunks, wires, at)[0] <==>
            wires[0].crLf && Boundary(chunks, at + |wires[0].line| + 1)
  {
    hide Boundary;
  }

  lemma PieceText(line: string, cut: bool)
    ensures LfText(Piece(line, cut)) == line + if cut then "\n\n" else "\n"
  {
    LfTextOne(line);
    LfTextOne("");
    if cut { LfTextConcat([line], [""]); }
  }

  /** The packets of a printed body under any cutting: those of its lines, with the false blank lines. */
  lemma ReadIsDoubled(wires: seq<Wire>, chunks: seq<string>)
    requires forall l :: l in WireLines(wires) ==> IsPrinted(l)
    requires Concat(chunks) == WireText(wires)
    ensures var lines := Doubled(WireLines(wires), CutEnds(chunks, wires, 0));
            Read(chunks, "") == Events(FRESH, lines) + Dispatch(Pending(FRESH, lines))
  {
    hide Read, PacketsIn, Seen, Fed, Boundary, Doubled, LfText, Events, Dispatch, Pending;
    var cuts := CutEnds(chunks, wires, 0);
    ReadIsFed(chunks, "") by { NoBlankInEmpty(); }
    FedIsSeen(chunks);
    SeenWires(chunks, wires, 0);
    assert "" + Fed(chunks) == Fed(chunks);
    DoubledPrinted(WireLines(wires), cuts);
    LinesRead(Doubled(WireLines(wires), cuts));
  }

  lemma {:induction false} DoubledPrinted(lines: seq<string>, cuts: seq<bool>)
    requires |cuts| == |lines| && forall l :: l in lines ==> IsPrinted(l)
    ensures forall l :: l in Doubled(lines, cuts) ==> IsPrinted(l)
  {
    hide IsPrinted;
    EmptyPrinted();
    if lines != [] {
      assert lines[0] in lines;
      DoubledPrinted(lines[1..], cuts[1..]);
    }
  }

  // ---------- which cuts do harm ----------

  /** A false blank line after line `j` changes nothing: a blank line is near, or only the default name is lost. */
  predicate Harmless(lines: seq<string>, j: nat)
    requires j < |lines|
  {
    lines[j] == "" || lines[j] == "event: message" || j + 1 == |lines| || lines[j + 1] == ""
  }

  predicate NoHarm(lines: seq<string>, cuts: seq<bool>)
    requires |cuts| == |lines|
  {
    forall j :: 0 <= j < |lines| && cuts[j] ==> Harmless(lines, j)
  }

  lemma {:induction false} DoubledConcat(a: seq<string>, b: seq<string>, cuts: seq<bool>)
    requires |cuts| == |a + b|
    ensures Doubled(a + b, cuts) == Doubled(a, cuts[..|a|]) + Doubled(b, cuts[|a|..])
  {
    hide Piece;
    if a == [] {
      assert a + b == b && cuts[0..] == cuts;
    } else {
      DoubledConcat(a[1..], b, cuts[1..]);
      assert cuts[1..][..|a| - 1] == cuts[..|a|][1..] && cuts[1..][|a| - 1..] == cuts[|a|..];
      assert (a + b)[1..] == a[1..] + b;
      var head, x := Piece(a[0], cuts[0]), Doubled(a[1..], cuts[..|a|][1..]);
      assert Doubled(a, cuts[..|a|]) == head + x;
      assert head + (x + Doubled(b, cuts[|a|..])) == (head + x) + Doubled(b, cuts[|a|..]);
    }
  }

  lemma DoubledOne(line: string, cuts: seq<bool>)
    requires |cuts| == 1
    ensures Doubled([line], cuts) == Piece(line, cuts[0])
  {
    assert [line][1..] == [];
  }

  /** An empty line dispatches what is gathered, a second one nothing. */
  lemma BlankPiece(g: Gathered, cut: bool)
    ensures Events(g, Piece("", cut)) == Dispatch(g) && Pending(g, Piece("", cut)) == FRESH
  {
    hide Dispatch;
    FreshDispatchesNothing();
    BlankLine(g);
    BlankLine(FRESH);
    if cut { EventsConcat(g, [""], [""]); }
  }

  /** A line whose end is cut dispatches what is gathered with it. */
  lemma LinePiece(g: Gathered, line: string, cut: bool, tail: seq<string>)
    requires line != ""
    ensures var next, all := FieldLine(g, line), Piece(line, cut) + tail;
            && Events(g, all) == (if cut then Dispatch(next) + Events(FRESH, tail) else Events(next, tail))
            && Pending(g, all) == Pending(if cut then FRESH else next, tail)
  {
    hide Dispatch, FieldLine, Events, Pending;
    OneLine(g, line);
    EventsConcat(g, Piece(line, cut), tail);
    if cut {
      EventsConcat(g, [line], [""]);
      BlankLine(FieldLine(g, line));
    } else {
      assert Piece(line, cut) == [line];
    }
  }

  // ---------- one event ----------

  predicate NoSplit(data: seq<string>, cuts: seq<bool>)
    requires |data| < |cuts|
  {
    forall j :: 0 <= j < |data| - 1 ==> !cuts[j]
  }

  /** The data lines of an event and its blank line, as they are read. */
  function DataRead(data: seq<string>, cuts: seq<bool>): seq<string>
    requires |cuts| == |data| + 1
    decreases |data|
  {
    if data == [] then Piece("", cuts[0])
    else Piece("data: " + data[0], cuts[0]) + DataRead(data[1..], cuts[1..])
  }

  predicate OnePacketOf(got: seq<Packet>, p: Packet, one: bool) { if one then got == [p] else |got| >= 2 }

  /** One packet exactly when no cut comes between two data lines. */
  lemma {:induction false} DataCut(g: Gathered, data: seq<string>, cuts: seq<bool>)
    requires |cuts| == |data| + 1 && forall d :: d in data ==> IsFieldValue(d)
    requires data != [] || g.data != []
    ensures OnePacketOf(Events(g, DataRead(data, cuts)), Packet(g.event, Join("\n", g.data + data)), NoSplit(data, cuts))
    ensures Pending(g, DataRead(data, cuts)) == FRESH
    decreases |data|
  {
    hide FieldLine, IsFieldValue, Events, Pending, Join, Piece, NoSplit;
    SplitCases(data, cuts);
    if data == [] {
      assert g.data + [] == g.data;
      BlankPiece(g, cuts[0]);
    } else {
      var next, rest, tail := g.(data := g.data + [data[0]]), data[1..], DataRead(data[1..], cuts[1..]);
      assert next.data + rest == g.data + data;
      DataLine(g, data[0]);
      LinePiece(g, "data: " + data[0], cuts[0], tail);
      SplitCases(rest, cuts[1..]);
      if !cuts[0] {
        DataCut(next, rest, cuts[1..]);
      } else if rest == [] {
        assert next.data + rest == next.data;
        FreshDispatchesNothing();
        BlankPiece(FRESH, cuts[1]);
      } else {
        DataCut(FRESH, rest, cuts[1..]);
      }
    }
  }

  lemma SplitCases(data: seq<string>, cuts: seq<bool>)
    requires |data| < |cuts|
    ensures |data| <= 1 ==> NoSplit(data, cuts)
    ensures |data| > 1 ==> (NoSplit(data, cuts) <==> !cuts[0] && NoSplit(data[1..], cuts[1..]))
  {
    if |data| > 1 && !cuts[0] && NoSplit(data[1..], cuts[1..]) {
      forall j | 0 <= j < |data| - 1 ensures !cuts[j] {
        if j > 0 { assert !cuts[1..][j - 1]; }
      }
    }
  }

  lemma {:induction false} DataDoubled(data: seq<string>, cuts: seq<bool>)
    requires |cuts| == |data| + 1
    ensures Doubled(DataLines(data) + [""], cuts) == DataRead(data, cuts)
    decreases |data|
  {
    hide Piece;
    if data == [] {
      assert [] + [""] == [""];
      DoubledOne("", cuts);
    } else {
      DataDoubled(data[1..], cuts[1..]);
      assert (DataLines(data) + [""])[1..] == DataLines(data[1..]) + [""];
    }
  }

  lemma {:induction false} DataLineAt(data: seq<string>, j: nat)
    requires j < |data|
    ensures DataLines(data)[j] == "data: " + data[j]
  {
    if j > 0 { DataLineAt(data[1..], j - 1); }
  }

  lemma NoHarmInEvent(name: string, data: seq<string>, cuts: seq<bool>)
    requires data != [] && |cuts| == |data| + 2
    ensures |LinesOf(Event(name, data))| == |cuts|
    ensures NoHarm(LinesOf(Event(name, data)), cuts) <==> NoSplit(data, cuts[1..]) && (cuts[0] ==> name == "message")
  {
    var lines := LinesOf(Event(name, data));
    forall j | 1 <= j <= |data| ensures lines[j] == "data: " + data[j - 1] && lines[j][0] == 'd' {
      DataLineAt(data, j - 1);
    }
    assert |lines| == |data| + 2 && lines[|data| + 1] == "";
    assert lines[0] == "event: message" <==> name == "message" by {
      assert lines[0][7..] == name && "event: message"[7..] == "message";
    }
    if NoHarm(LinesOf(Event(name, data)), cuts) {
      assert cuts[0] ==> Harmless(lines, 0);
      forall j | 0 <= j < |data| - 1 ensures !cuts[1..][j] {
        assert cuts[j + 1] ==> Harmless(lines, j + 1);
        assert lines[j + 1][0] == 'd' && lines[j + 2][0] == 'd';
      }
    }
    if NoSplit(data, cuts[1..]) && (cuts[0] ==> name == "message") {
      forall j | 0 <= j < |lines| && cuts[j] ensures Harmless(lines, j) {
        if 0 < j < |data| { assert !cuts[1..][j - 1]; }
      }
    }
  }

  /** One printed item: what the cuts inside it leave, and when that is what was sent. */
  lemma ItemCut(p: Sent, cuts: seq<bool>)
    requires CanSend(p) && |cuts| == |LinesOf(p)|
    ensures var got := Events(FRESH, Doubled(LinesOf(p), cuts));
            |got| >= |Received([p])| && (got == Received([p]) <==> NoHarm(LinesOf(p), cuts))
    ensures Pending(FRESH, Doubled(LinesOf(p), cuts)) == FRESH
  {
    match p
    case Event(name, data) => EventCut(name, data, cuts);
    case Comment(text) => CommentCut(text, cuts);
  }

  lemma CommentCut(text: string, cuts: seq<bool>)
    requires |cuts| == 2
    ensures var lines := LinesOf(Comment(text));
            && Events(FRESH, Doubled(lines, cuts)) == [] == Received([Comment(text)])
            && Pending(FRESH, Doubled(lines, cuts)) == FRESH && NoHarm(lines, cuts)
  {
    hide FieldLine, Events, Pending, Piece;
    assert LinesOf(Comment(text))[1..] == [""];
    DoubledOne("", cuts[1..]);
    CommentLine(FRESH, text);
    LinePiece(FRESH, ":" + text, cuts[0], Piece("", cuts[1]));
    FreshDispatchesNothing();
    BlankPiece(FRESH, cuts[1]);
  }

  lemma EventCut(name: string, data: seq<string>, cuts: seq<bool>)
    requires CanSend(Event(name, data)) && |cuts| == |data| + 2 == |LinesOf(Event(name, data))|
    ensures var p := Event(name, data); var got := Events(FRESH, Doubled(LinesOf(p), cuts));
            |got| >= 1 && (got == Received([p]) <==> NoHarm(LinesOf(p), cuts))
    ensures Pending(FRESH, Doubled(LinesOf(Event(name, data)), cuts)) == FRESH
  {
    hide FieldLine, Events, Pending, Piece, IsFieldValue, Join, DataRead, DataLines, NoHarm, NoSplit, Doubled, LinesOf;
    var p := Event(name, data);
    NoHarmInEvent(name, data, cuts);
    EventDoubled(name, data, cuts);
    EventLine(FRESH, name);
    LinePiece(FRESH, "event: " + name, cuts[0], DataRead(data, cuts[1..]));
    FreshDispatchesNothing();
    assert [] + data == data && [p][1..] == [];
    DataCut(if cuts[0] then FRESH else Gathered(name, []), data, cuts[1..]);
  }

  lemma EventDoubled(name: string, data: seq<string>, cuts: seq<bool>)
    requires |cuts| == |data| + 2
    ensures |LinesOf(Event(name, data))| == |cuts|
    ensures Doubled(LinesOf(Event(name, data)), cuts) == Piece("event: " + name, cuts[0]) + DataRead(data, cuts[1..])
  {
    hide Piece, DataLines;
    DataDoubled(data, cuts[1..]);
    assert LinesOf(Event(name, data))[1..] == DataLines(data) + [""];
  }

  // ---------- all events ----------

  lemma NoHarmConcat(p: Sent, rest: seq<string>, cuts: seq<bool>)
    requires |cuts| == |LinesOf(p) + rest|
    ensures var n := |LinesOf(p)|;
            NoHarm(LinesOf(p) + rest, cuts) <==> NoHarm(LinesOf(p), cuts[..n]) && NoHarm(rest, cuts[n..])
  {
    var a := LinesOf(p);
    var n, all := |a|, a + rest;
    assert a[n - 1] == "";
    if NoHarm(all, cuts) {
      forall j | 0 <= j < n && cuts[..n][j] ensures Harmless(a, j) { assert Harmless(all, j); }
      forall j | 0 <= j < |rest| && cuts[n..][j] ensures Harmless(rest, j) { assert cuts[n + j] && Harmless(all, n + j); }
    }
    if NoHarm(a, cuts[..n]) && NoHarm(rest, cuts[n..]) {
      forall j | 0 <= j < |all| && cuts[j] ensures Harmless(all, j) {
        if j < n { assert cuts[..n][j] && Harmless(a, j); } else { assert cuts[n..][j - n] && Harmless(rest, j - n); }
      }
    }
  }

  lemma {:induction false} ItemsCut(ps: seq<Sent>, cuts: seq<bool>)
    requires (forall p :: p in ps ==> CanSend(p)) && |cuts| == |AllLines(ps)|
    ensures var got := Events(FRESH, Doubled(AllLines(ps), cuts));
            |got| >= |Received(ps)| && (got == Received(ps) <==> NoHarm(AllLines(ps), cuts))
    ensures Pending(FRESH, Doubled(AllLines(ps), cuts)) == FRESH
    decreases |ps|
  {
    hide CanSend, NoHarm, LinesOf, Events, Pending, Doubled, Dispatch, FieldLine, Join;
    if ps == [] {
      NothingCut(cuts);
    } else {
      var a, b := LinesOf(ps[0]), AllLines(ps[1..]);
      var x, y := cuts[..|a|], cuts[|a|..];
      DoubledConcat(a, b, cuts);
      EventsConcat(FRESH, Doubled(a, x), Doubled(b, y));
      ItemCut(ps[0], x);
      ItemsCut(ps[1..], y);
      NoHarmConcat(ps[0], b, cuts);
      assert [ps[0]][1..] == [];
      assert Received(ps) == Received([ps[0]]) + Received(ps[1..]);
      SameParts(Events(FRESH, Doubled(a, x)), Events(FRESH, Doubled(b, y)), Received([ps[0]]), Received(ps[1..]));
    }
  }

  lemma NothingCut(cuts: seq<bool>)
    requires cuts == []
    ensures Events(FRESH, Doubled([], cuts)) == [] && Pending(FRESH, Doubled([], cuts)) == FRESH && NoHarm([], cuts)
  {
  }

  /** Two sequences of parts that are each no shorter join to the same exactly when the parts are the same. */
  lemma SameParts<T>(a: seq<T>, b: seq<T>, c: seq<T>, d: seq<T>)
    requires |a| >= |c| && |b| >= |d|
    ensures a + b == c + d <==> a == c && b == d
  {
    if a + b == c + d {
      assert |a + b| == |c + d|;
      assert a == (a + b)[..|a|] && c == (c + d)[..|c|] && b == (a + b)[|a|..] && d == (c + d)[|c|..];
    }
  }

  lemma HarmfulCuts(lines: seq<string>, chunks: seq<string>, wires: seq<Wire>)
    requires |lines| == |wires|
    ensures NoHarm(lines, CutEnds(chunks, wires, 0))
            <==> forall j :: 0 <= j < |wires| && CutsEnd(chunks, wires, j) ==> Harmless(lines, j)
  {
    hide Boundary, LfAt, Harmless;
    assert forall j :: 0 <= j < |wires| ==> (CutEnds(chunks, wires, 0)[j] <==> CutsEnd(chunks, wires, j));
  }

  /**
   * Whatever the line ends and wherever the body is cut: the reader hands on exactly the packets that were
   * printed if and only if every CR LF cut in two stands after a line where a false blank line does no harm.
   */
  lemma PacketsArriveIff(ps: seq<Sent>, wires: seq<Wire>, chunks: seq<string>)
    requires forall p :: p in ps ==> CanSend(p)
    requires WireLines(wires) == AllLines(ps) && Concat(chunks) == WireText(wires)
    ensures Read(chunks, "") == Received(ps)
            <==> forall j :: 0 <= j < |wires| && CutsEnd(chunks, wires, j) ==> Harmless(AllLines(ps), j)
  {
    hide *;
    AllPrinted(ps);
    ReadIsDoubled(wires, chunks);
    ItemsCut(ps, CutEnds(chunks, wires, 0));
    HarmfulCuts(AllLines(ps), chunks, wires);
    FreshDispatchesNothing();
  }
}

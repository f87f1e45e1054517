/** The framer is a line-by-line event interpreter; it agrees with the standard and undoes printing. */
module SseEvents {
  import opened Text
  import opened SseFramer
  import opened SseChunks

  // ---------- the line interpreter ----------

  /** Packets dispatched at blank lines, starting from what `g` holds. */
  function Events(g: Gathered, lines: seq<string>): seq<Packet>
    decreases |lines|
  {
    if lines == [] then []
    else if lines[0] == "" then Dispatch(g) + Events(FRESH, lines[1..])
    else Events(FieldLine(g, lines[0]), lines[1..])
  }

  /** What is gathered and not yet dispatched after `lines`. */
  function Pending(g: Gathered, lines: seq<string>): Gathered
    decreases |lines|
  {
    if lines == [] then g
    else Pending(if lines[0] == "" then FRESH else FieldLine(g, lines[0]), lines[1..])
  }

  lemma {:induction false} EventsConcat(g: Gathered, a: seq<string>, b: seq<string>)
    ensures Events(g, a + b) == Events(g, a) + Events(Pending(g, a), b)
    ensures Pending(g, a + b) == Pending(Pending(g, a), b)
    decreases |a|
  {
    hide FieldLine, Dispatch;
    if a == [] {
      assert a + b == b;
    } else {
      assert (a + b)[1..] == a[1..] + b;
      EventsConcat(if a[0] == "" then FRESH else FieldLine(g, a[0]), a[1..], b);
    }
  }

  lemma {:induction false} GatherConcat(g: Gathered, a: seq<string>, b: seq<string>)
    ensures Gather(g, a + b) == Gather(Gather(g, a), b)
    decreases |a|
  {
    hide FieldLine;
    if a == [] {
      assert a + b == b;
    } else {
      assert (a + b)[1..] == a[1..] + b;
      GatherConcat(FieldLine(g, a[0]), a[1..], b);
    }
  }

  lemma EmptyLineGathersNothing(g: Gathered)
    ensures FieldLine(g, "") == g
  {
  }

  // ---------- lines of a text ----------

  lemma FirstLine(line: string, t: string)
    requires '\n' !in line
    ensures SplitLf(line + "\n" + t) == [line] + SplitLf(t)
  {
    hide IndexOf;
    var s := line + "\n" + t;
    IndexOfFirst('\n', line, t);
    assert s == line + ['\n'] + t && s[..|line|] == line && s[|line| + 1..] == t;
  }

  lemma OnlyLine(line: string)
    requires '\n' !in line
    ensures SplitLf(line) == [line]
  {
    hide IndexOf;
    IndexOfFirst('\n', line, "");
  }

  /** A text is one line, or a first line and the text after its line feed. */
  lemma LineCases(s: string) returns (line: string, more: bool, t: string)
    ensures '\n' !in line && s == if more then line + "\n" + t else line
    ensures more ==> |t| < |s|
  {
    hide IndexOf;
    var k := IndexOf('\n', s);
    NotBefore('\n', s);
    line, more := s[..k], k < |s|;
    t := if more then s[k + 1..] else "";
  }

  lemma {:induction false} SplitLfJoin(a: string, b: string)
    ensures SplitLf(a + "\n" + b) == SplitLf(a) + SplitLf(b)
    decreases |a|
  {
    hide SplitLf;
    var line, more, t := LineCases(a);
    if more {
      assert a + "\n" + b == line + "\n" + (t + "\n" + b);
      FirstLine(line, t + "\n" + b);
      FirstLine(line, t);
      SplitLfJoin(t, b);
    } else {
      FirstLine(a, b);
      OnlyLine(a);
    }
  }

  lemma {:induction false} NoBlankInside(s: string, i: nat)
    requires BlankAt(s) >= i + 1 && i + 1 < |s|
    ensures !(s[i] == '\n' && s[i + 1] == '\n')
    decreases |s|
  {
    if i > 0 { NoBlankInside(s[1..], i - 1); }
  }

  lemma {:induction false} NoBlankMeans(s: string)
    requires forall i :: 0 <= i < |s| - 1 ==> !(s[i] == '\n' && s[i + 1] == '\n')
    ensures BlankAt(s) == |s|
  {
    if |s| >= 2 {
      forall i | 0 <= i < |s[1..]| - 1 ensures !(s[1..][i] == '\n' && s[1..][i + 1] == '\n') {
        assert !(s[i + 1] == '\n' && s[i + 2] == '\n');
      }
      NoBlankMeans(s[1..]);
    }
  }

  lemma PartHasNoBlank(s: string, lo: nat, hi: nat)
    requires lo <= hi <= |s| && BlankAt(s) == |s|
    ensures BlankAt(s[lo..hi]) == hi - lo
  {
    forall i | 0 <= i < hi - lo - 1 ensures !(s[lo..hi][i] == '\n' && s[lo..hi][i + 1] == '\n') {
      NoBlankInside(s, lo + i);
    }
    NoBlankMeans(s[lo..hi]);
  }

  // ---------- frames are runs of lines between blank lines ----------

  /** A text without a blank line dispatches nothing; its lines are simply gathered. */
  lemma {:induction false} QuietPiece(u: string, g: Gathered)
    requires BlankAt(u) == |u| && !StartsLf(u)
    ensures Events(g, Init(SplitLf(u))) == []
    ensures FieldLine(Pending(g, Init(SplitLf(u))), Last(SplitLf(u))) == Gather(g, SplitLf(u))
    decreases |u|
  {
    hide *;
    var line, more, t := LineCases(u);
    if more {
      NotAtStart(u, line, t);
      FirstLine(line, t);
      PrependLine(line, SplitLf(t));
      QuietPiece(t, FieldLine(g, line));
      OneLine(g, line);
      EventsConcat(g, [line], Init(SplitLf(t)));
      GatherConcat(g, [line], SplitLf(t));
      GatherOne(g, line);
    } else {
      OnlyLine(u);
      SingleLine(u);
      NoEvents(g);
      GatherOne(g, u);
    }
  }

  lemma NotAtStart(u: string, line: string, t: string)
    requires BlankAt(u) == |u| && !StartsLf(u) && u == line + "\n" + t
    ensures line != "" && BlankAt(t) == |t| && !StartsLf(t)
  {
    var k := |line|;
    if k + 1 < |u| { NoBlankInside(u, k); }
    assert u[k] == '\n' && u[k + 1..|u|] == t;
    PartHasNoBlank(u, k + 1, |u|);
  }

  lemma SingleLine(u: string)
    ensures Init([u]) == [] && Last([u]) == u
  {
  }

  lemma NoEvents(g: Gathered)
    ensures Events(g, []) == [] && Pending(g, []) == g
  {
  }

  lemma OneLine(g: Gathered, line: string)
    requires line != ""
    ensures Events(g, [line]) == [] && Pending(g, [line]) == FieldLine(g, line)
  {
    hide FieldLine;
    assert [line][1..] == [];
  }

  lemma BlankLine(g: Gathered)
    ensures Events(g, [""]) == Dispatch(g) && Pending(g, [""]) == FRESH
  {
    hide Dispatch;
    assert [""][1..] == [];
  }

  lemma GatherOne(g: Gathered, line: string)
    ensures Gather(g, [line]) == FieldLine(g, line)
  {
    hide FieldLine;
    assert Gather(FieldLine(g, line), [line][1..]) == FieldLine(g, line);
  }

  lemma AfterLeadingLf(u: string)
    requires BlankAt(u) == |u| && StartsLf(u)
    ensures BlankAt(u[1..]) == |u[1..]| && !StartsLf(u[1..]) && u == "" + "\n" + u[1..]
  {
    if |u| > 1 { NoBlankInside(u, 0); }
    PartHasNoBlank(u, 1, |u|);
    assert u[1..|u|] == u[1..];
  }

  lemma BlankLineFromFresh()
    ensures Events(FRESH, [""]) == [] && Pending(FRESH, [""]) == FRESH == Gather(FRESH, [""])
  {
    EmptyLineGathersNothing(FRESH);
  }

  lemma PrependLine(line: string, rest: seq<string>)
    requires rest != []
    ensures Init([line] + rest) == [line] + Init(rest) && Last([line] + rest) == Last(rest)
  {
  }

  lemma QuietFromFresh(u: string)
    requires BlankAt(u) == |u|
    ensures Events(FRESH, Init(SplitLf(u))) == []
    ensures FieldLine(Pending(FRESH, Init(SplitLf(u))), Last(SplitLf(u))) == Gather(FRESH, SplitLf(u))
  {
    hide *;
    if StartsLf(u) {
      AfterLeadingLf(u);
      SplitLfJoin("", u[1..]);
      EmptyTextLines();
      var rest := SplitLf(u[1..]);
      PrependLine("", rest);
      BlankLineFromFresh();
      EventsConcat(FRESH, [""], Init(rest));
      GatherConcat(FRESH, [""], rest);
      QuietPiece(u[1..], FRESH);
    } else {
      QuietPiece(u, FRESH);
    }
  }

  lemma EmptyTextLines()
    ensures SplitLf("") == [""]
  {
  }

  lemma FreshDispatchesNothing()
    ensures Dispatch(FRESH) == []
  {
  }

  /** One frame and its blank line dispatch exactly what `parseSse` finds in the frame. */
  lemma FrameEvents(u: string)
    requires BlankAt(u) == |u| && (u != "" ==> Last(u) != '\n')
    ensures Events(FRESH, SplitLf(u) + [""]) == ParseSse(u)
    ensures Pending(FRESH, SplitLf(u) + [""]) == FRESH
  {
    hide *;
    var lines := SplitLf(u);
    var before, last := Init(lines), Last(lines);
    var g := Pending(FRESH, before);
    QuietFromFresh(u);
    ParseIsGather(u);
    InitLast(lines);
    LastLineOf(u);
    EventsConcat(FRESH, lines, [""]);
    EventsConcat(FRESH, before, [last]);
    BlankLine(Pending(FRESH, lines));
    if u == "" {
      EmptyTextLines();
      SingleLine("");
      NoEvents(FRESH);
      BlankLine(FRESH);
      FreshDispatchesNothing();
      EmptyLineGathersNothing(FRESH);
    } else {
      OneLine(g, last);
    }
  }

  lemma ParseIsGather(u: string)
    ensures ParseSse(u) == Dispatch(Gather(FRESH, SplitLf(u)))
  {
  }

  lemma InitLast(lines: seq<string>)
    requires lines != []
    ensures lines == Init(lines) + [Last(lines)]
  {
  }

  lemma {:induction false} LastLineOf(u: string)
    ensures Last(SplitLf(u)) == "" <==> u == "" || Last(u) == '\n'
    decreases |u|
  {
    hide SplitLf;
    var line, more, t := LineCases(u);
    if more {
      FirstLine(line, t);
      PrependLine(line, SplitLf(t));
      LastLineOf(t);
    } else {
      OnlyLine(u);
    }
  }

  /** A text has no blank line, or is a frame, its blank line and the text after. */
  lemma FrameCases(s: string) returns (u: string, more: bool, t: string)
    ensures BlankAt(u) == |u| && s == if more then u + "\n" + ("" + "\n" + t) else u
    ensures more ==> |t| < |s| && (u != "" ==> Last(u) != '\n')
    ensures SplitBlank(s) == if more then [u] + SplitBlank(t) else [u]
  {
    hide BlankAt;
    var k := BlankAt(s);
    more := k < |s|;
    if more {
      BlankAtFacts(s);
      u, t := s[..k], s[k + 2..];
    } else {
      u, t := s, "";
    }
  }

  lemma FrameLines(u: string, t: string)
    ensures SplitLf(u + "\n" + ("" + "\n" + t)) == SplitLf(u) + [""] + SplitLf(t)
  {
    hide SplitLf;
    SplitLfJoin(u, "" + "\n" + t);
    FirstLine("", t);
  }

  /** For every text: splitting at blank lines and parsing each frame is interpreting line by line. */
  lemma {:induction false} FramesAreLines(s: string)
    ensures PacketsOf(Init(SplitBlank(s))) == Events(FRESH, Init(SplitLf(s)))
    ensures Gather(FRESH, SplitLf(Last(SplitBlank(s))))
            == FieldLine(Pending(FRESH, Init(SplitLf(s))), Last(SplitLf(s)))
    decreases |s|
  {
    hide *;
    var u, more, t := FrameCases(s);
    if more {
      FramesAreLines(t);
      FrameEvents(u);
      FrameLines(u, t);
      var head := SplitLf(u) + [""];
      EventsConcat(FRESH, head, Init(SplitLf(t)));
      AppendInit(head, SplitLf(t));
      AppendInit([u], SplitBlank(t));
      PacketsConcat([u], Init(SplitBlank(t)));
      OnePacket(u);
    } else {
      QuietFromFresh(s);
      SingleLine(s);
      NoPackets();
    }
  }

  lemma AppendInit(head: seq<string>, tail: seq<string>)
    requires tail != []
    ensures Init(head + tail) == head + Init(tail) && Last(head + tail) == Last(tail)
  {
  }

  lemma OnePacket(u: string)
    ensures PacketsOf([u]) == ParseSse(u)
  {
    hide ParseSse;
    assert PacketsOf([u][1..]) == [];
  }

  lemma BlankAtFacts(s: string)
    requires BlankAt(s) < |s|
    ensures var k := BlankAt(s);
            && k + 1 < |s| && s[k] == '\n' && s[k + 1] == '\n'
            && BlankAt(s[..k]) == k && (k > 0 ==> s[k - 1] != '\n')
  {
    var k := BlankAt(s);
    forall i | 0 <= i && i + 1 < k ensures !(s[..k][i] == '\n' && s[..k][i + 1] == '\n') {
      NoBlankInside(s, i);
    }
    NoBlankMeans(s[..k]);
    if k > 0 { NoBlankInside(s, k - 1); }
  }
}

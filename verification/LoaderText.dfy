/** From characters to trees and back: printed documents, comments, and what the parser consumes. */
module LoaderText {
  import opened Text
  import opened Loader
  import opened LoaderRoundTrip

  // ---------- printed text ----------

  function Spaces(n: nat): (s: string)
    ensures |s| == n && forall c :: c in s ==> c == ' '
  {
    seq(n, _ => ' ')
  }

  function RawOf(line: Line): string { Spaces(line.indent) + line.content }

  function RawsOf(lines: seq<Line>): seq<string> {
    if lines == [] then [] else [RawOf(lines[0])] + RawsOf(lines[1..])
  }

  /** Lines ended by a line feed each. */
  function Terminated(raws: seq<string>): string {
    if raws == [] then "" else raws[0] + "\n" + Terminated(raws[1..])
  }

  function PrintLines(lines: seq<Line>): string { Terminated(RawsOf(lines)) }

  predicate AllPlain(lines: seq<Line>) {
    lines == [] || (IsText(lines[0].content) && AllPlain(lines[1..]))
  }

  predicate NoBreak(s: string) { forall i :: 0 <= i < |s| ==> !IsLineBreak(s[i]) }

  // ---------- splitting ----------

  lemma {:induction false} LineEndOf(raw: string, more: string)
    requires NoBreak(raw)
    ensures LineEnd(raw + "\n" + more) == |raw|
  {
    if raw != "" {
      assert (raw + "\n" + more)[1..] == raw[1..] + "\n" + more;
      LineEndOf(raw[1..], more);
    }
  }

  lemma SplitFirst(raw: string, more: string)
    requires NoBreak(raw)
    ensures SplitLines(raw + "\n" + more) == [raw] + SplitLines(more)
  {
    var s := raw + "\n" + more;
    assert s[..|raw|] == raw && s[|raw| + 1..] == more;
    LineEndOf(raw, more);
  }

  lemma {:induction false} LineEndPrefix(a: string, b: string)
    ensures LineEnd(a + "\n" + b) == LineEnd(a + "\n") <= |a|
  {
    if a != "" && !IsLineBreak(a[0]) {
      assert (a + "\n" + b)[1..] == a[1..] + "\n" + b && (a + "\n")[1..] == a[1..] + "\n";
      LineEndPrefix(a[1..], b);
    }
  }

  lemma AfterBreakPrefix(a: string, b: string) returns (more: string)
    ensures var k := LineEnd(a + "\n");
            && k <= |a|
            && (a + "\n" + b)[..k] == (a + "\n")[..k]
            && if AfterBreak(a + "\n", k) == "" then AfterBreak(a + "\n" + b, k) == b
               else |more| < |a| && AfterBreak(a + "\n", k) == more + "\n"
                    && AfterBreak(a + "\n" + b, k) == more + "\n" + b
  {
    hide LineEnd;
    LineEndPrefix(a, b);
    more := BreakPrefix(a, b, LineEnd(a + "\n"));
  }

  lemma BreakPrefix(a: string, b: string, k: nat) returns (more: string)
    requires k <= |a|
    ensures (a + "\n" + b)[..k] == (a + "\n")[..k]
    ensures if AfterBreak(a + "\n", k) == "" then AfterBreak(a + "\n" + b, k) == b
            else |more| < |a| && AfterBreak(a + "\n", k) == more + "\n"
                 && AfterBreak(a + "\n" + b, k) == more + "\n" + b
  {
    var s, t := a + "\n" + b, a + "\n";
    var n := if t[k] == '\r' && k + 1 < |t| && t[k + 1] == '\n' then k + 2 else k + 1;
    assert s == t + b && s[k] == t[k] && (k + 1 < |t| ==> s[k + 1] == t[k + 1]);
    assert t[k] == '\r' ==> k < |a|;
    assert AfterBreak(t, k) == t[n..];
    assert AfterBreak(s, k) == s[n..] == t[n..] + b;
    more := if n <= |a| then a[n..] else "";
  }

  lemma SplitStep(s: string)
    requires s != ""
    ensures SplitLines(s) == [s[..LineEnd(s)]] + SplitLines(AfterBreak(s, LineEnd(s)))
  {
    hide LineEnd, AfterBreak;
  }

  /** A line feed is a clean cut: what follows it is split on its own. */
  lemma {:induction false} SplitAtLineFeed(a: string, b: string)
    ensures SplitLines(a + "\n" + b) == SplitLines(a + "\n") + SplitLines(b)
    decreases |a|
  {
    hide SplitLines, LineEnd, AfterBreak;
    var s, t := a + "\n" + b, a + "\n";
    LineEndPrefix(a, b);
    var more := AfterBreakPrefix(a, b);
    SplitStep(s);
    SplitStep(t);
    if AfterBreak(t, LineEnd(t)) == "" {
      NoLines();
    } else {
      SplitAtLineFeed(more, b);
    }
  }

  lemma NoLines()
    ensures SplitLines("") == []
  {
  }

  // ---------- significant lines ----------

  lemma PlainLine(line: Line)
    requires IsText(line.content)
    ensures Uncommented(RawOf(line)) == RawOf(line) && IndentOf(RawOf(line)) == line.indent
    ensures DropLeft(IsPySpace, RawOf(line)) == line.content
  {
    var raw := RawOf(line);
    IndexOfFirst('#', raw, "");
    assert raw[..|raw|] == raw == raw + "";
    DropRightOf(IsPySpace, raw, "");
    DropLeftOf(IsPySpace, Spaces(line.indent), line.content);
    DropLeftOf(IsAsciiSpace, Spaces(line.indent), line.content);
  }

  lemma SignificantHead(line: Line, raws: seq<string>)
    requires IsText(line.content)
    ensures Significant([RawOf(line)] + raws) == [line] + Significant(raws)
  {
    assert ([RawOf(line)] + raws)[1..] == raws;
    PlainLine(line);
  }

  lemma RawNoBreak(line: Line)
    requires IsText(line.content)
    ensures NoBreak(RawOf(line))
  {
    var raw := RawOf(line);
    forall i | 0 <= i < |raw| ensures !IsLineBreak(raw[i]) {
      if i < line.indent { assert raw[i] == Spaces(line.indent)[i]; }
    }
  }

  lemma {:induction false} SignificantPrinted(lines: seq<Line>)
    requires AllPlain(lines)
    ensures Significant(SplitLines(PrintLines(lines))) == lines
  {
    if lines != [] {
      var raw, more := RawOf(lines[0]), PrintLines(lines[1..]);
      assert PrintLines(lines) == raw + "\n" + more;
      assert lines == [lines[0]] + lines[1..];
      SignificantPrinted(lines[1..]);
      RawNoBreak(lines[0]);
      SplitFirst(raw, more);
      SignificantHead(lines[0], SplitLines(more));
    }
  }

  lemma {:induction false} SignificantConcat(a: seq<string>, b: seq<string>)
    ensures Significant(a + b) == Significant(a) + Significant(b)
  {
    if a == [] {
      assert a + b == b;
    } else {
      assert (a + b)[1..] == a[1..] + b;
      SignificantConcat(a[1..], b);
    }
  }

  /** A line that is blank up to its comment. */
  predicate IsJunk(raw: string) {
    NoBreak(raw) && forall i :: 0 <= i < IndexOf('#', raw) ==> IsPySpace(raw[i])
  }

  lemma JunkVanishes(raw: string)
    requires IsJunk(raw)
    ensures Uncommented(raw) == ""
  {
    var s := raw[..IndexOf('#', raw)];
    assert s == "" + s;
    DropRightOf(IsPySpace, "", s);
  }

  /** Blank and comment lines inserted at any line start leave the parse unchanged. */
  lemma JunkLinesIgnored(before: string, junk: string, after: string)
    requires IsJunk(junk)
    ensures ParseText(before + "\n" + (junk + "\n" + after)) == ParseText(before + "\n" + after)
    ensures ParseText(junk + "\n" + after) == ParseText(after)
  {
    var head, tail := SplitLines(before + "\n"), SplitLines(after);
    SplitFirst(junk, after);
    SplitAtLineFeed(before, junk + "\n" + after);
    SplitAtLineFeed(before, after);
    SignificantConcat(head, [junk] + tail);
    SignificantConcat(head, tail);
    SignificantConcat([junk], tail);
    JunkVanishes(junk);
  }

  /** A comment after blanks on any line leaves that line's significant part unchanged. */
  lemma TrailingCommentIgnored(raw: string, blanks: string, comment: string)
    requires forall c :: c in blanks ==> IsPySpace(c)
    ensures Significant([raw + blanks + "#" + comment]) == Significant([raw])
  {
    var full := raw + blanks + "#" + comment;
    SameUncommented(raw, blanks, comment);
    OneRaw(raw);
    OneRaw(full);
    if Uncommented(raw) != "" {
      SameIndent(raw, blanks + "#" + comment);
      assert full == raw + (blanks + "#" + comment);
    }
  }

  lemma OneRaw(raw: string)
    ensures Significant([raw]) == if Uncommented(raw) == "" then []
                                  else [Line(IndentOf(raw), DropLeft(IsPySpace, Uncommented(raw)))]
  {
    hide Uncommented, IndentOf, DropLeft;
    assert Significant([raw][1..]) == [];
  }

  lemma SameUncommented(raw: string, blanks: string, comment: string)
    requires forall c :: c in blanks ==> IsPySpace(c)
    ensures Uncommented(raw + blanks + "#" + comment) == Uncommented(raw)
  {
    hide DropRight, IndexOf;
    var full := raw + blanks + "#" + comment;
    if '#' in raw {
      IndexPrefix(raw, blanks + "#" + comment);
      assert full == raw + (blanks + "#" + comment);
      assert full[..IndexOf('#', raw)] == raw[..IndexOf('#', raw)];
    } else {
      NoCommentIn(raw, blanks);
      IndexOfFirst('#', raw + blanks, comment);
      IndexOfFirst('#', raw, "");
      assert full == (raw + blanks) + ['#'] + comment;
      assert full[..|raw + blanks|] == raw + blanks && raw[..|raw|] == raw;
      DropRightAppend(raw, blanks);
    }
  }

  lemma NoCommentIn(raw: string, blanks: string)
    requires '#' !in raw && forall c :: c in blanks ==> IsPySpace(c)
    ensures '#' !in raw + blanks
  {
  }

  lemma SameIndent(raw: string, more: string)
    requires Uncommented(raw) != ""
    ensures IndentOf(raw + more) == IndentOf(raw)
  {
    hide Uncommented, DropLeft;
    NotAllSpaces(raw);
    DropLeftAppend(raw, more);
  }

  lemma {:induction false} IndexPrefix(s: string, more: string)
    requires '#' in s
    ensures IndexOf('#', s + more) == IndexOf('#', s)
  {
    if s[0] != '#' {
      assert (s + more)[1..] == s[1..] + more;
      IndexPrefix(s[1..], more);
    }
  }

  lemma {:induction false} DropRightAppend(s: string, blanks: string)
    requires forall c :: c in blanks ==> IsPySpace(c)
    ensures DropRight(IsPySpace, s + blanks) == DropRight(IsPySpace, s)
  {
    if blanks == "" {
      assert s + blanks == s;
    } else {
      var n := |blanks| - 1;
      assert blanks[n] in blanks && (s + blanks)[..|s| + n] == s + blanks[..n];
      DropRightAppend(s, blanks[..n]);
    }
  }

  /** A line with something significant is not all spaces. */
  lemma NotAllSpaces(raw: string)
    requires Uncommented(raw) != ""
    ensures exists i :: 0 <= i < |raw| && raw[i] != ' '
  {
    var u := Uncommented(raw);
    DropRightSpec(IsPySpace, raw[..IndexOf('#', raw)]);
    assert raw[|u| - 1] != ' ';
  }

  lemma {:induction false} DropLeftAppend(s: string, more: string)
    requires exists i :: 0 <= i < |s| && s[i] != ' '
    ensures DropLeft(IsAsciiSpace, s + more) == DropLeft(IsAsciiSpace, s) + more
  {
    if s[0] == ' ' {
      var i :| 0 <= i < |s| && s[i] != ' ';
      assert s[1..][i - 1] != ' ';
      assert (s + more)[1..] == s[1..] + more;
      DropLeftAppend(s[1..], more);
    }
  }
  // ---------- line breaks ----------

  /** The breaks of Python's `str.splitlines`, one by one. */
  lemma BreaksAre(c: char)
    ensures IsLineBreak(c)
            <==> c in ['\n', '\r', '\U{000B}', '\U{000C}', '\U{001C}', '\U{001D}', '\U{001E}', '\U{0085}', '\U{2028}', '\U{2029}']
  {
  }

  lemma {:induction false} EndsAtBreak(a: string, b: string)
    requires NoBreak(a) && b != "" && IsLineBreak(b[0])
    ensures LineEnd(a + b) == |a|
  {
    if a == "" {
      assert a + b == b;
    } else {
      assert (a + b)[1..] == a[1..] + b;
      EndsAtBreak(a[1..], b);
    }
  }

  /** Any break ends a line, and CR LF is one break. */
  lemma LinesAre(a: string, c: char, b: string)
    requires NoBreak(a) && IsLineBreak(c)
    ensures !(c == '\r' && b != "" && b[0] == '\n') ==> SplitLines(a + [c] + b) == [a] + SplitLines(b)
    ensures SplitLines(a + "\r\n" + b) == [a] + SplitLines(b)
  {
    hide LineEnd, IsLineBreak;
    var s, t := a + [c] + b, a + "\r\n" + b;
    assert s == a + ([c] + b) && s[|a|] == c && s[|a| + 1..] == b && s[..|a|] == a;
    assert t == a + ("\r\n" + b) && t[|a|] == '\r' && t[|a| + 1] == '\n' && t[|a| + 2..] == b && t[..|a|] == a;
    BreaksAre('\r');
    EndsAtBreak(a, [c] + b);
    EndsAtBreak(a, "\r\n" + b);
  }

  /** A key seen again takes the new value in its old place. */
  lemma {:induction false} PutOver(entries: seq<Entry>, key: string, value: Value, i: nat)
    requires i < |entries| && entries[i].key == key && forall j :: 0 <= j < i ==> entries[j].key != key
    ensures Put(entries, key, value) == entries[i := Entry(key, value)]
  {
    if i > 0 {
      assert forall j :: 0 <= j < i - 1 ==> entries[1..][j].key == entries[j + 1].key;
      PutOver(entries[1..], key, value, i - 1);
      assert entries == [entries[0]] + entries[1..];
    }
  }
}

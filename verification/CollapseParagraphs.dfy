/** Repeated paragraphs: splitting an answer at blank lines and dropping what repeats (app/security/guardrails.py). */
module CollapseParagraphs {
  import opened Text
  import opened Collapse

  // ---------- splitting at blank lines, as the pattern `\n\s*\n` does ----------

  /** Characters of the leading blanks up to and with their last line feed; zero when they hold none. */
  function BreakLength(s: string): (k: nat)
    ensures k <= |s|
  {
    if s == "" || !IsPySpace(s[0]) then 0
    else
      var rest := BreakLength(s[1..]);
      if rest > 0 then rest + 1 else if s[0] == '\n' then 1 else 0
  }

  /** The pieces between separators; a separator starts at a line feed and takes all it can. */
  function SplitFrom(piece: string, s: string): seq<string>
    decreases |s|
  {
    if s == "" then [piece]
    else if s[0] == '\n' && BreakLength(s[1..]) > 0 then [piece] + SplitFrom("", s[1 + BreakLength(s[1..])..])
    else SplitFrom(piece + [s[0]], s[1..])
  }

  /** Stripped pieces that are not empty. */
  function Kept(pieces: seq<string>): seq<string> {
    if pieces == [] then []
    else
      var p := Trim(IsPySpace, pieces[0]);
      (if p != "" then [p] else []) + Kept(pieces[1..])
  }

  function Paragraphs(text: string): seq<string> { Kept(SplitFrom("", text)) }

  /** The loop of `_collapse_repeated_answer`: collapse each paragraph, drop it if it repeats the one before. */
  function Collapsed(paragraphs: seq<string>): seq<string> {
    if paragraphs == [] then []
    else
      var before, unit := Collapsed(paragraphs[..|paragraphs| - 1]), CollapseCopy(paragraphs[|paragraphs| - 1]);
      if before != [] && before[|before| - 1] == unit then before else before + [unit]
  }

  /** `_collapse_repeated_answer` */
  function CollapseAnswer(text: string): string {
    if text == "" then text else Join("\n\n", Collapsed(Paragraphs(text)))
  }

  method CollapseRepeatedAnswer(text: string) returns (r: string)
    ensures r == CollapseAnswer(text)
  {
    if text == "" { return text; }
    var paragraphs := Paragraphs(text);
    var collapsed: seq<string> := [];
    for i := 0 to |paragraphs|
      invariant collapsed == Collapsed(paragraphs[..i])
    {
      assert paragraphs[..i + 1][..i] == paragraphs[..i];
      var unit := CollapseConcatenatedCopy(paragraphs[i]);
      if collapsed == [] || collapsed[|collapsed| - 1] != unit {
        collapsed := collapsed + [unit];
      }
    }
    assert paragraphs[..|paragraphs|] == paragraphs;
    r := Join("\n\n", collapsed);
  }

  // ---------- paragraphs hold no separator ----------

  /** No line feed is followed by blanks with another one. */
  predicate Unbroken(s: string) { forall i :: 0 <= i < |s| && s[i] == '\n' ==> BreakLength(s[i + 1..]) == 0 }

  /** A text that starts and ends with something to see. */
  predicate IsInked(s: string) { s != "" && !IsPySpace(s[0]) && !IsPySpace(s[|s| - 1]) }

  predicate IsParagraph(s: string) { Unbroken(s) && IsInked(s) }

  lemma {:induction false} ShorterBreak(a: string, b: string)
    requires BreakLength(a + b) == 0
    ensures BreakLength(a) == 0
  {
    if a != "" && IsPySpace(a[0]) {
      assert (a + b)[0] == a[0] && (a + b)[1..] == a[1..] + b;
      ShorterBreak(a[1..], b);
    }
  }

  /** Blanks that end before the last character are not longer in a longer text. */
  lemma {:induction false} SameBreak(a: string, b: string)
    requires a != "" && !IsPySpace(a[|a| - 1])
    ensures BreakLength(a + b) == BreakLength(a)
  {
    assert (a + b)[0] == a[0] && (a + b)[1..] == a[1..] + b;
    if IsPySpace(a[0]) { SameBreak(a[1..], b); }
  }

  lemma UnbrokenPrefix(a: string, b: string)
    requires Unbroken(a + b)
    ensures Unbroken(a)
  {
    forall i | 0 <= i < |a| && a[i] == '\n' ensures BreakLength(a[i + 1..]) == 0 {
      assert (a + b)[i + 1..] == a[i + 1..] + b && (a + b)[i] == '\n';
      ShorterBreak(a[i + 1..], b);
    }
  }

  lemma UnbrokenSuffix(a: string, b: string)
    requires Unbroken(a + b)
    ensures Unbroken(b)
  {
    forall i | 0 <= i < |b| && b[i] == '\n' ensures BreakLength(b[i + 1..]) == 0 {
      assert (a + b)[|a| + i] == '\n' && (a + b)[|a| + i + 1..] == b[i + 1..];
    }
  }

  /** What has been read of a piece, and the rest of the text, hold no separator in the piece. */
  predicate UnbrokenBefore(piece: string, s: string) {
    forall i :: 0 <= i < |piece| && piece[i] == '\n' ==> BreakLength(piece[i + 1..] + s) == 0
  }

  lemma UnbrokenNext(piece: string, s: string)
    requires s != "" && UnbrokenBefore(piece, s) && !(s[0] == '\n' && BreakLength(s[1..]) > 0)
    ensures UnbrokenBefore(piece + [s[0]], s[1..])
  {
    var p := piece + [s[0]];
    forall i | 0 <= i < |p| && p[i] == '\n' ensures BreakLength(p[i + 1..] + s[1..]) == 0 {
      if i < |piece| {
        assert p[i + 1..] + s[1..] == piece[i + 1..] + s;
      } else {
        assert p[i + 1..] + s[1..] == s[1..];
      }
    }
  }

  lemma UnbrokenEnds(piece: string, s: string)
    requires UnbrokenBefore(piece, s)
    ensures Unbroken(piece)
  {
    forall i | 0 <= i < |piece| && piece[i] == '\n' ensures BreakLength(piece[i + 1..]) == 0 {
      ShorterBreak(piece[i + 1..], s);
    }
  }

  lemma {:induction false} PiecesUnbroken(piece: string, s: string)
    requires UnbrokenBefore(piece, s)
    ensures forall p :: p in SplitFrom(piece, s) ==> Unbroken(p)
    decreases |s|
  {
    hide Unbroken, UnbrokenBefore, BreakLength;
    UnbrokenEnds(piece, s);
    if s != "" {
      if s[0] == '\n' && BreakLength(s[1..]) > 0 {
        NothingBroken(s[1 + BreakLength(s[1..])..]);
        PiecesUnbroken("", s[1 + BreakLength(s[1..])..]);
      } else {
        UnbrokenNext(piece, s);
        PiecesUnbroken(piece + [s[0]], s[1..]);
      }
    }
  }

  lemma NothingBroken(s: string)
    ensures UnbrokenBefore("", s)
  {
  }

  lemma TrimmedUnbroken(s: string)
    requires Unbroken(s)
    ensures Unbroken(Trim(IsPySpace, s))
    ensures Trim(IsPySpace, s) != "" ==> IsInked(Trim(IsPySpace, s))
  {
    hide Unbroken, DropLeft, DropRight, BreakLength, IsPySpace;
    var left := DropLeft(IsPySpace, s);
    DropLeftSpec(IsPySpace, s);
    assert s == s[..|s| - |left|] + left;
    UnbrokenSuffix(s[..|s| - |left|], left);
    var core := DropRight(IsPySpace, left);
    DropRightSpec(IsPySpace, left);
    assert left == core + left[|core|..];
    UnbrokenPrefix(core, left[|core|..]);
    TrimInks(s);
  }

  lemma TrimInks(s: string)
    ensures Trim(IsPySpace, s) != "" ==> IsInked(Trim(IsPySpace, s))
  {
    TrimIsTrimmed(IsPySpace, s);
  }

  predicate AllParagraphs(ps: seq<string>) { forall p :: p in ps ==> IsParagraph(p) }

  lemma {:induction false} KeptParagraphs(pieces: seq<string>)
    requires forall p :: p in pieces ==> Unbroken(p)
    ensures AllParagraphs(Kept(pieces))
  {
    hide Unbroken, IsInked;
    if pieces != [] {
      TrimmedUnbroken(pieces[0]);
      KeptParagraphs(pieces[1..]);
    }
  }

  /** The head of a paragraph that is a number of its copies is a paragraph. */
  lemma CollapsedParagraph(p: string)
    requires IsParagraph(p)
    ensures IsParagraph(CollapseCopy(p))
  {
    CollapseIsRoot(p);
    var u := CollapseCopy(p);
    if u != p {
      CollapseUnfolds(p);
      assert p == u + p[|u|..];
      UnbrokenPrefix(u, p[|u|..]);
      RootInked(u, p, if IsPower(p, 2) then 2 else 3);
    }
  }

  lemma RootInked(u: string, p: string, k: nat)
    requires IsInked(p) && k in {2, 3} && p == Repeat(u, k) && |p| == k * |u|
    ensures IsInked(u)
  {
    RepeatTwo(u);
    assert Repeat(u, 3) == u + Repeat(u, 2);
    assert u != "";
    assert p[|p| - 1] == u[|u| - 1];
  }

  predicate AdjacentDistinct(ps: seq<string>) { forall i :: 0 < i < |ps| ==> ps[i] != ps[i - 1] }

  lemma {:induction false} CollapsedSpec(ps: seq<string>)
    requires AllParagraphs(ps)
    ensures AllParagraphs(Collapsed(ps)) && AdjacentDistinct(Collapsed(ps))
  {
    hide IsParagraph, CollapseCopy;
    if ps != [] {
      var n := |ps| - 1;
      assert ps[n] in ps;
      CollapsedSpec(ps[..n]);
      CollapsedParagraph(ps[n]);
    }
  }

  // ---------- joined paragraphs split again ----------

  /** Reading a paragraph that is followed by a separator or by nothing. */
  lemma {:induction false} ReadParagraph(p: string, i: nat, tail: string)
    requires IsParagraph(p) && i <= |p|
    ensures SplitFrom(p[..i], p[i..] + tail) == SplitFrom(p, tail)
    decreases |p| - i
  {
    if i < |p| {
      var s := p[i..] + tail;
      assert s[0] == p[i] && s[1..] == p[i + 1..] + tail;
      if p[i] == '\n' {
        assert p[i + 1..] != "" && p[i + 1..][|p| - i - 2] == p[|p| - 1];
        SameBreak(p[i + 1..], tail);
      }
      assert p[..i] + [s[0]] == p[..i + 1];
      ReadParagraph(p, i + 1, tail);
    } else {
      assert p[..i] == p && p[i..] + tail == tail;
    }
  }

  lemma ReadSeparator(p: string, next: string)
    requires next != "" && !IsPySpace(next[0])
    ensures SplitFrom(p, "\n\n" + next) == [p] + SplitFrom("", next)
  {
    var s := "\n\n" + next;
    assert s[0] == '\n' && s[1..] == "\n" + next;
    assert s[1..][1..] == next;
    assert BreakLength(next) == 0 && BreakLength(s[1..]) == 1;
    assert s[2..] == next;
  }

  lemma {:induction false} JoinStarts(ps: seq<string>)
    requires ps != [] && AllParagraphs(ps)
    ensures var j := Join("\n\n", ps); j != "" && !IsPySpace(j[0])
  {
    assert ps[0] in ps;
  }

  lemma {:induction false} SplitJoined(ps: seq<string>)
    requires ps != [] && AllParagraphs(ps)
    ensures SplitFrom("", Join("\n\n", ps)) == ps
  {
    hide IsParagraph;
    assert ps[0] in ps;
    if |ps| == 1 {
      assert Join("\n\n", ps) == ps[0];
      ReadWhole(ps[0], "");
      assert ps[0] + "" == ps[0] && SplitFrom(ps[0], "") == [ps[0]];
    } else {
      var rest := Join("\n\n", ps[1..]);
      SplitJoined(ps[1..]);
      JoinStarts(ps[1..]);
      ReadWhole(ps[0], "\n\n" + rest);
      ReadSeparator(ps[0], rest);
      assert Join("\n\n", ps) == ps[0] + ("\n\n" + rest);
      assert ps == [ps[0]] + ps[1..];
    }
  }

  lemma ReadWhole(p: string, tail: string)
    requires IsParagraph(p)
    ensures SplitFrom("", p + tail) == SplitFrom(p, tail)
  {
    ReadParagraph(p, 0, tail);
    assert p[..0] == "" && p[0..] + tail == p + tail;
  }

  lemma {:induction false} KeptAgain(ps: seq<string>)
    requires AllParagraphs(ps)
    ensures Kept(ps) == ps
  {
    if ps != [] {
      assert ps[0] in ps;
      InkedTrim(ps[0]);
      KeptAgain(ps[1..]);
      assert ps == [ps[0]] + ps[1..];
    }
  }

  lemma InkedTrim(p: string)
    requires IsInked(p)
    ensures Trim(IsPySpace, p) == p
  {
  }

  /** The answer splits again into the paragraphs it was joined from: stripped, not empty, no two alike in a row. */
  lemma AnswerSplitsAgain(text: string)
    ensures Paragraphs(CollapseAnswer(text)) == Collapsed(Paragraphs(text))
    ensures AllParagraphs(Paragraphs(CollapseAnswer(text))) && AdjacentDistinct(Paragraphs(CollapseAnswer(text)))
  {
    NothingBroken(text);
    PiecesUnbroken("", text);
    KeptParagraphs(SplitFrom("", text));
    var ps := Collapsed(Paragraphs(text));
    CollapsedSpec(Paragraphs(text));
    NoParagraphs();
    hide *;
    AnswerOf(text);
    if ps == [] {
      assert CollapseAnswer(text) == "";
    } else {
      SplitJoined(ps);
      KeptAgain(ps);
      ParagraphsAre(CollapseAnswer(text));
    }
  }

  lemma ParagraphsAre(text: string)
    ensures Paragraphs(text) == Kept(SplitFrom("", text))
  {
  }

  lemma NoParagraphs()
    ensures Paragraphs("") == [] && Collapsed([]) == []
  {
  }

  lemma AnswerOf(text: string)
    ensures var ps := Collapsed(Paragraphs(text)); CollapseAnswer(text) == if ps == [] then "" else Join("\n\n", ps)
  {
    NoParagraphs();
  }

  /** Nothing is lost and nothing invented: the kept units are exactly the collapsed paragraphs. */
  lemma {:induction false} NothingLost(ps: seq<string>)
    ensures forall p :: p in ps ==> CollapseCopy(p) in Collapsed(ps)
    ensures forall u :: u in Collapsed(ps) ==> exists p :: p in ps && u == CollapseCopy(p)
  {
    hide CollapseCopy;
    if ps != [] {
      var init, last := ps[..|ps| - 1], ps[|ps| - 1];
      NothingLost(init);
      assert ps == init + [last];
      var before := Collapsed(init);
      assert before != [] && before[|before| - 1] == CollapseCopy(last) ==> CollapseCopy(last) in before;
    }
  }
  // ---------- which paragraphs are kept, and where the text is cut ----------

  /** Runs of equal units shrunk to one, read from the front. */
  function Squeezed(units: seq<string>): seq<string> {
    if units == [] then []
    else if |units| > 1 && units[0] == units[1] then Squeezed(units[1..])
    else [units[0]] + Squeezed(units[1..])
  }

  function Units(ps: seq<string>): seq<string> {
    seq(|ps|, i requires 0 <= i < |ps| => CollapseCopy(ps[i]))
  }

  lemma SqueezedOne(x: string)
    ensures Squeezed([x]) == [x]
  {
    assert [x][1..] == [] && [x] + [] == [x];
  }

  lemma SqueezedStep(u: string, us: seq<string>)
    requires us != []
    ensures Squeezed([u] + us) == if u == us[0] then Squeezed(us) else [u] + Squeezed(us)
  {
    assert ([u] + us)[1..] == us;
  }

  lemma {:induction false} SqueezedAppend(us: seq<string>, x: string)
    ensures Squeezed(us + [x])
            == if us != [] && us[|us| - 1] == x then Squeezed(us) else Squeezed(us) + [x]
    ensures us != [] ==> Squeezed(us) != [] && Squeezed(us)[|Squeezed(us)| - 1] == us[|us| - 1]
    decreases |us|
  {
    SqueezedOne(x);
    if us == [] {
      assert us + [x] == [x] && Squeezed(us) == [];
    } else {
      hide Squeezed;
      var u, rest := us[0], us[1..];
      assert us == [u] + rest && us + [x] == [u] + (rest + [x]);
      SqueezedStep(u, rest + [x]);
      if rest == [] {
        SqueezedOne(u);
        assert us == [u] && rest + [x] == [x] && [u] + [x] == us + [x];
      } else {
        SqueezedStep(u, rest);
        SqueezedAppend(rest, x);
        assert [u] + (Squeezed(rest) + [x]) == [u] + Squeezed(rest) + [x];
      }
    }
  }

  /** The answer's paragraphs are the collapsed ones in order, each run of equal ones shrunk to one. */
  lemma {:induction false} KeptAreSqueezed(ps: seq<string>)
    ensures Collapsed(ps) == Squeezed(Units(ps))
  {
    hide CollapseCopy;
    if ps != [] {
      var n := |ps| - 1;
      KeptAreSqueezed(ps[..n]);
      assert Units(ps) == Units(ps[..n]) + [CollapseCopy(ps[n])];
      SqueezedAppend(Units(ps[..n]), CollapseCopy(ps[n]));
    }
  }

  /** What there is to see in a text. */
  function Ink(s: string): string {
    if s == "" then "" else (if IsPySpace(s[0]) then "" else [s[0]]) + Ink(s[1..])
  }

  function InkOf(ps: seq<string>): string { if ps == [] then "" else Ink(ps[0]) + InkOf(ps[1..]) }

  lemma {:induction false} InkConcat(a: string, b: string)
    ensures Ink(a + b) == Ink(a) + Ink(b)
  {
    hide IsPySpace;
    if a == "" {
      assert a + b == b;
    } else {
      assert (a + b)[1..] == a[1..] + b;
      InkConcat(a[1..], b);
    }
  }

  lemma {:induction false} BlankInk(s: string)
    requires forall c :: c in s ==> IsPySpace(c)
    ensures Ink(s) == ""
  {
    if s != "" {
      assert s[0] in s;
      BlankInk(s[1..]);
    }
  }

  lemma {:induction false} BreakIsBlank(s: string)
    ensures forall c :: c in s[..BreakLength(s)] ==> IsPySpace(c)
    ensures BreakLength(s) > 0 ==> s[BreakLength(s) - 1] == '\n'
  {
    if s != "" && IsPySpace(s[0]) {
      BreakIsBlank(s[1..]);
      var k := BreakLength(s[1..]);
      if k > 0 { assert s[..k + 1] == [s[0]] + s[1..][..k]; }
    }
  }

  lemma TrimInk(s: string)
    ensures Ink(Trim(IsPySpace, s)) == Ink(s)
  {
    hide DropLeft, DropRight, IsPySpace;
    var left := DropLeft(IsPySpace, s);
    DropLeftSpec(IsPySpace, s);
    var core := DropRight(IsPySpace, left);
    DropRightSpec(IsPySpace, left);
    assert s == s[..|s| - |left|] + (core + left[|core|..]);
    BlankInk(s[..|s| - |left|]);
    BlankInk(left[|core|..]);
    InkConcat(core, left[|core|..]);
    InkConcat(s[..|s| - |left|], core + left[|core|..]);
    assert core + "" == core && "" + core == core;
  }

  lemma {:induction false} KeptInk(pieces: seq<string>)
    ensures InkOf(Kept(pieces)) == InkOf(pieces)
  {
    hide Trim;
    if pieces != [] {
      TrimInk(pieces[0]);
      KeptInk(pieces[1..]);
      var p := Trim(IsPySpace, pieces[0]);
      if p != "" { assert ([p] + Kept(pieces[1..]))[1..] == Kept(pieces[1..]); }
      assert Ink("") == "" && [] + Kept(pieces[1..]) == Kept(pieces[1..]);
    }
  }

  lemma {:induction false} SplitInk(piece: string, s: string)
    ensures InkOf(SplitFrom(piece, s)) == Ink(piece) + Ink(s)
    decreases |s|
  {
    hide IsPySpace;
    if s == "" {
      assert [piece][1..] == [];
    } else {
      var k := BreakLength(s[1..]);
      if s[0] == '\n' && k > 0 {
        var rest := s[1 + k..];
        assert s == s[..1 + k] + rest && s[..1 + k] == ['\n'] + s[1..][..k];
        BreakIsBlank(s[1..]);
        LineFeedIsBlank();
        BlankInk(s[..1 + k]);
        InkConcat(s[..1 + k], rest);
        SplitInk("", rest);
        assert ([piece] + SplitFrom("", rest))[1..] == SplitFrom("", rest);
      } else {
        assert s == [s[0]] + s[1..];
        InkConcat(piece, [s[0]]);
        InkConcat([s[0]], s[1..]);
        SplitInk(piece + [s[0]], s[1..]);
      }
    }
  }

  lemma LineFeedIsBlank()
    ensures IsPySpace('\n')
  {
  }

  /** Splitting loses only blanks: all there is to see is kept, in order. */
  lemma InkKept(text: string)
    ensures InkOf(Paragraphs(text)) == Ink(text)
  {
    SplitInk("", text);
    KeptInk(SplitFrom("", text));
    assert "" + Ink(text) == Ink(text);
  }

  /** And a text is cut nowhere but at a line feed that is followed by blanks with another one. */
  lemma {:induction false} UncutUnbroken(piece: string, s: string)
    requires Unbroken(s)
    ensures SplitFrom(piece, s) == [piece + s]
    decreases |s|
  {
    if s != "" {
      assert s == [s[0]] + s[1..];
      UnbrokenSuffix([s[0]], s[1..]);
      assert piece + [s[0]] + s[1..] == piece + s;
      assert s[1..] == s[0 + 1..];
      UncutUnbroken(piece + [s[0]], s[1..]);
    } else {
      assert piece + s == piece;
    }
  }
}

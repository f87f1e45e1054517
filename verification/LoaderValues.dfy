/** The main results about the loader: round trips on documents and values, and what is consumed. */
module LoaderValues {
  import opened Text
  import opened Loader
  import opened LoaderRoundTrip
  import opened LoaderText

  // ---------- documents ----------

  lemma PlainAppend(a: string, b: string)
    requires '#' !in a && NoBreak(a) && '#' !in b && NoBreak(b)
    ensures '#' !in a + b && NoBreak(a + b)
  {
  }

  lemma HeadIsText(f: Field)
    requires IsKey(f.key) && WellFormed(f.node)
    ensures IsText(HeadOf(f))
  {
    var gap := if f.node.Scalar? then " " else "";
    PlainAppend(f.key, [':']);
    PlainAppend(f.key + [':'], gap);
    PlainAppend(f.key + [':'] + gap, TextOf(f.node));
  }

  lemma {:induction false} AllPlainAppend(a: seq<Line>, b: seq<Line>)
    requires AllPlain(a) && AllPlain(b)
    ensures AllPlain(a + b)
  {
    if a == [] {
      assert a + b == b;
    } else {
      assert (a + b)[1..] == a[1..] + b;
      AllPlainAppend(a[1..], b);
    }
  }

  lemma {:induction false} ItemsPlain(texts: seq<string>, indent: nat)
    requires AllTexts(texts)
    ensures AllPlain(ItemLines(texts, indent))
  {
    if texts != [] {
      PlainAppend("- ", texts[0]);
      ItemsPlain(texts[1..], indent);
    }
  }

  lemma {:induction false} BodyPlain(node: Node, indent: nat)
    requires WellFormed(node)
    ensures AllPlain(BodyLines(node, indent))
    decreases node
  {
    match node
    case Block(step, fields) => FieldsPlain(fields, indent + step + 1);
    case Items(step, texts) => ItemsPlain(texts, indent + step + 1);
    case _ =>
  }

  lemma {:induction false} FieldsPlain(fields: seq<Field>, indent: nat)
    requires WellFormedFields(fields)
    ensures AllPlain(FieldLines(fields, indent))
    decreases fields
  {
    if fields != [] {
      var head := [Line(indent, HeadOf(fields[0]))];
      HeadIsText(fields[0]);
      BodyPlain(fields[0].node, indent);
      FieldsPlain(fields[1..], indent);
      AllPlainAppend(head, BodyLines(fields[0].node, indent));
      AllPlainAppend(head + BodyLines(fields[0].node, indent), FieldLines(fields[1..], indent));
    }
  }

  function PrintDocument(fields: seq<Field>): string { PrintLines(FieldLines(fields, 0)) }

  /** Whatever its indentation, a well-formed document parses to its meaning, and no line is dropped. */
  lemma DocumentRoundTrip(fields: seq<Field>)
    requires WellFormedFields(fields)
    ensures ParseText(PrintDocument(fields)) == Parsed(Map(Meanings(fields)), [])
  {
    hide ParseMapping, IsText;
    var lines := FieldLines(fields, 0);
    FieldsPlain(fields, 0);
    SignificantPrinted(lines);
    assert lines + [] == lines && [] + Meanings(fields) == Meanings(fields);
    FieldsInverse(fields, 0, [], []);
    TopBlock(fields);
  }

  lemma TopBlock(fields: seq<Field>)
    requires WellFormedFields(fields)
    ensures ParseBlock(FieldLines(fields, 0), 0) == ParseMapping(FieldLines(fields, 0), 0, [])
  {
    if fields != [] { HeadParts(fields[0]); }
  }

  // ---------- values ----------

  function NumeralOf(n: int): string {
    if n < 0 then "-" + Decimal(-n) else Decimal(n)
  }

  predicate IsQuoted(s: string) { s != "" && s[0] == s[|s| - 1] && s[0] in {'"', '\''} }

  /** The words that stand for truth values and for nothing, in any case. */
  predicate IsWord(s: string) { Lower(s) in {"true", "yes", "false", "no", "null", "none", "~"} }

  /** A text that means itself: no quotes around it, none of the words, and no numeral. */
  predicate IsBare(s: string) {
    IsText(s) && !IsQuoted(s) && !IsWord(s) && !IsIntLiteral(s) && !IsFloatLiteral(s)
  }

  /** Bare texts where they mean themselves, quotes elsewhere. */
  function Render(v: Value): string {
    match v
    case Bool(b) => if b then "true" else "false"
    case Int(n) => NumeralOf(n)
    case Float(l) => l
    case Str(s) => if IsBare(s) then s else ['"'] + s + ['"']
    case _ => "null"
  }

  predicate IsScalar(v: Value) {
    match v
    case List(_) => false
    case Map(_) => false
    case Float(l) => IsFloatLiteral(l) && IsText(l)
    case Str(s) => '#' !in s && NoBreak(s)
    case _ => true
  }

  /** The subset the printer covers: scalars, non-empty scalar lists, non-empty mappings. */
  predicate Printable(v: Value)
    decreases v
  {
    match v
    case List(items) => items != [] && AllScalars(items)
    case Map(entries) => entries != [] && PrintableEntries(entries)
    case _ => IsScalar(v)
  }

  predicate AllScalars(items: seq<Value>) {
    items == [] || (IsScalar(items[0]) && AllScalars(items[1..]))
  }

  predicate PrintableEntries(entries: seq<Entry>)
    decreases entries
  {
    entries == []
    || (IsKey(entries[0].key) && Printable(entries[0].value)
        && !HasKey(entries[1..], entries[0].key) && PrintableEntries(entries[1..]))
  }

  /** Two columns per level, one spelling per scalar. */
  function NodeOf(v: Value): Node
    decreases v
  {
    match v
    case List(items) => Items(1, RenderAll(items))
    case Map(entries) => Block(1, FieldsOf(entries))
    case _ => Scalar(Render(v))
  }

  function FieldsOf(entries: seq<Entry>): (fields: seq<Field>)
    ensures |fields| == |entries|
    decreases entries
  {
    if entries == [] then []
    else [Field(entries[0].key, NodeOf(entries[0].value))] + FieldsOf(entries[1..])
  }

  function RenderAll(items: seq<Value>): seq<string> {
    if items == [] then [] else [Render(items[0])] + RenderAll(items[1..])
  }

  function Print(entries: seq<Entry>): string { PrintDocument(FieldsOf(entries)) }

  // ---------- scalars read back ----------

  lemma {:induction false} DigitsKept(s: string)
    requires forall c :: c in s ==> IsDigit(c)
    ensures DropUnderscores(s) == s
  {
    if s != "" {
      assert s[0] in s;
      DigitsKept(s[1..]);
    }
  }

  /** A text that starts with a sign, a digit or a dot is none of the parser's words. */
  lemma NoWord(s: string)
    requires s != "" && (IsDigit(s[0]) || s[0] == '-' || s[0] == '+' || s[0] == '.')
    ensures !QuotedBy('"', s) && !QuotedBy('\'', s)
    ensures Lower(s) !in {"true", "yes", "false", "no", "null", "none", "~"}
  {
    assert Lower(s)[0] == s[0];
  }

  lemma DigitsArePart(d: string)
    requires d != "" && forall c :: c in d ==> IsDigit(c)
    ensures IsDigitPart(d) && Unsigned(d) == d && Unsigned("-" + d) == d && DropUnderscores(d) == d
  {
    assert forall i :: 0 <= i < |d| ==> d[i] in d;
    DigitsKept(d);
  }

  lemma NumeralIsText(n: int)
    ensures IsText(NumeralOf(n)) && '.' !in NumeralOf(n)
  {
    var d := Decimal(if n < 0 then -n else n);
    assert forall i :: 0 <= i < |d| ==> d[i] in d;
  }

  lemma IntReadsBack(n: int)
    ensures IsText(NumeralOf(n)) && ParseScalar(NumeralOf(n)) == Int(n)
  {
    hide IsText, IsDigitPart, DropUnderscores, QuotedBy, Lower;
    var s, m := NumeralOf(n), if n < 0 then -n else n;
    var d := Decimal(m);
    assert d[0] in d;
    NumeralIsText(n);
    DigitsArePart(d);
    NoWord(s);
    DecimalRoundTrip(m);
  }

  lemma FloatReadsBack(l: string)
    requires IsFloatLiteral(l)
    ensures ParseScalar(l) == Float(l)
  {
    var u := Unsigned(l);
    var dot := IndexOf('.', u);
    assert u[dot] in l && '.' in l;
    if dot > 0 {
      assert u[..dot][0] == u[0];
    }
    NoWord(l);
  }

  lemma StrReadsBack(s: string)
    requires '#' !in s && NoBreak(s)
    ensures var q := ['"'] + s + ['"']; IsText(q) && ParseScalar(q) == Str(s)
  {
    var q := ['"'] + s + ['"'];
    assert q[1..|q| - 1] == s;
  }

  /** Every text that is not quoted, not a word and not a numeral is read as it stands. */
  lemma BareReadsBack(s: string)
    requires !IsQuoted(s) && !IsWord(s) && !IsIntLiteral(s) && !IsFloatLiteral(s)
    ensures ParseScalar(s) == Str(s)
  {
    hide IsIntLiteral, IsFloatLiteral, Lower;
  }

  /** The words in every spelling, the truth values first. */
  lemma WordsAre(s: string)
    ensures Lower(s) in {"true", "yes"} ==> ParseScalar(s) == Bool(true)
    ensures Lower(s) in {"false", "no"} ==> ParseScalar(s) == Bool(false)
    ensures Lower(s) in {"null", "none", "~"} ==> ParseScalar(s) == Null
  {
    if IsWord(s) {
      assert Lower(s)[0] == LowerChar(s[0]);
      assert LowerChar('"') == '"' && LowerChar('\'') == '\'';
    }
  }

  /** Either kind of quotes is taken off, nothing inside is touched; a lone quote is an empty text. */
  lemma QuotesComeOff(s: string)
    ensures ParseScalar(['"'] + s + ['"']) == Str(s) == ParseScalar(['\''] + s + ['\''])
    ensures ParseScalar("\"") == Str("") == ParseScalar("'")
  {
    var a, b := ['"'] + s + ['"'], ['\''] + s + ['\''];
    assert a[1..|a| - 1] == s && b[1..|b| - 1] == s;
  }

  lemma {:induction false} DigitsAfterUnderscore(a: string, b: string)
    requires forall i :: 0 <= i < |a| ==> IsDigit(a[i]) || a[i] == '_'
    requires forall i :: 0 <= i < |b| ==> IsDigit(b[i]) || b[i] == '_'
    ensures DropUnderscores(a + "_" + b) == DropUnderscores(a) + DropUnderscores(b) == DropUnderscores(a + b)
  {
    if a == "" {
      assert ("" + "_" + b)[1..] == b && "" + b == b;
    } else {
      assert (a + "_" + b)[1..] == a[1..] + "_" + b && (a + b)[1..] == a[1..] + b;
      DigitsAfterUnderscore(a[1..], b);
    }
  }

  /** Digits without a dot are an integer, with either sign. */
  lemma SignsAre(n: nat)
    ensures ParseScalar(Decimal(n)) == Int(n) == ParseScalar("+" + Decimal(n))
    ensures ParseScalar("-" + Decimal(n)) == Int(0 - n)
  {
    hide ParseScalar, IsDigitPart, DropUnderscores, DigitsValue;
    var d := Decimal(n);
    DigitsArePart(d);
    SignedIs("+", d);
    SignedIs("-", d);
    DigitPartIs(d);
    DecimalRoundTrip(n);
  }

  /** An underscore between digits changes nothing. */
  lemma UnderscoresAre(a: string, b: string)
    requires IsDigitPart(a) && IsDigitPart(b)
    ensures ParseScalar(a + "_" + b) == ParseScalar(a + b) && ParseScalar(a + b).Int?
  {
    hide ParseScalar, IsDigitPart;
    DigitPartsJoin(a, b);
    UnderscoreDropped(a, b);
    DigitPartIs(a + "_" + b);
    DigitPartIs(a + b);
  }

  lemma UnderscoreDropped(a: string, b: string)
    requires IsDigitPart(a) && IsDigitPart(b)
    ensures DropUnderscores(a + "_" + b) == DropUnderscores(a + b)
  {
    DigitsAfterUnderscore(a, b);
  }

  /** What numerals are made of: a digit, after nothing, after digits, or after digits and one underscore. */
  lemma DigitPartGrammar(s: string, c: char)
    ensures IsDigitPart(s + [c])
            <==> IsDigit(c) && (s == "" || IsDigitPart(s)
                                || (|s| > 1 && s[|s| - 1] == '_' && IsDigitPart(s[..|s| - 1])))
  {
    var n, t := |s|, s + [c];
    if IsDigitPart(t) && n > 0 {
      assert forall i :: 0 <= i < n ==> t[i] == s[i];
      if IsDigit(s[n - 1]) {
        assert IsDigitPart(s);
      } else if n > 1 {
        assert t[n - 2] == s[n - 2] && t[n - 1] == s[n - 1];
        assert IsDigitPart(s[..n - 1]);
      }
    }
    if IsDigit(c) && s != "" && IsDigitPart(s) { assert IsDigitPart(t); }
    if IsDigit(c) && n > 1 && s[n - 1] == '_' && IsDigitPart(s[..n - 1]) {
      assert forall i :: 0 <= i < n - 1 ==> t[i] == s[..n - 1][i];
      assert IsDigitPart(t);
    }
  }

  /** A number with a dot is a float, with digits on either side or both. */
  lemma FloatsAre(a: string, b: string)
    requires (a == "" || IsDigitPart(a)) && (b == "" || IsDigitPart(b)) && (a != "" || b != "")
    ensures ParseScalar(a + ['.'] + b) == Float(a + ['.'] + b)
  {
    hide ParseScalar, IsDigitPart;
    DottedIs(a, b, "");
    assert a + ['.'] + b + "" == a + ['.'] + b;
    FloatReadsBack(a + ['.'] + b);
  }

  /** So is one with an exponent. */
  lemma ExponentsAre(a: string, b: string, x: string)
    requires IsDigitPart(a) && IsDigitPart(b) && IsDigitPart(x)
    ensures ParseScalar(a + ['.'] + b + (['e'] + x)) == Float(a + ['.'] + b + (['e'] + x))
  {
    hide ParseScalar, IsDigitPart;
    assert (['e'] + x)[1..] == x;
    DigitPartFacts(a);
    DottedIs(a, b, ['e'] + x);
    FloatReadsBack(a + ['.'] + b + (['e'] + x));
  }

  lemma DigitPartFacts(a: string)
    requires IsDigitPart(a)
    ensures a != "" && '.' !in a && 'e' !in a && a[0] != '+' && a[0] != '-' && Unsigned(a) == a
  {
  }

  lemma DottedIs(a: string, b: string, exponent: string)
    requires (a == "" || IsDigitPart(a)) && (b == "" || IsDigitPart(b)) && (a != "" || b != "")
    requires exponent == "" || (exponent[0] == 'e' && IsDigitPart(exponent[1..]))
    ensures IsFloatLiteral(a + ['.'] + b + exponent)
  {
    hide Lower, IsDigitPart, IndexOf;
    var l, tail := a + ['.'] + b + exponent, b + exponent;
    if a != "" { DigitPartFacts(a); }
    assert l == a + ['.'] + tail;
    assert Unsigned(l) == l;
    IndexOfFirst('.', a, tail);
    assert l[..|a|] == a && l[|a| + 1..] == tail;
    ExponentAt(b, exponent);
    assert tail[..|b|] == b;
    if exponent != "" {
      assert tail[|b| + 1..] == exponent[1..];
      DigitPartFacts(exponent[1..]);
    }
  }

  lemma ExponentAt(b: string, exponent: string)
    requires b == "" || IsDigitPart(b)
    requires exponent == "" || exponent[0] == 'e'
    ensures IndexOf('e', Lower(b + exponent)) == |b|
  {
    var low := Lower(b + exponent);
    assert forall i :: 0 <= i < |b| ==> low[i] == LowerChar(b[i]) == b[i];
    assert 'e' !in low[..|b|];
    if exponent == "" {
      IndexOfFirst('e', low[..|b|], "");
      assert low[..|b|] == low;
    } else {
      assert low == low[..|b|] + ['e'] + low[|b| + 1..];
      IndexOfFirst('e', low[..|b|], low[|b| + 1..]);
    }
  }

  lemma SignedIs(sign: string, d: string)
    requires sign in {"", "+", "-"} && IsDigitPart(d)
    ensures var n: int := DigitsValue(DropUnderscores(d)); ParseScalar(sign + d) == Int(if sign == "-" then -n else n)
  {
    hide Lower, DropUnderscores, DigitsValue;
    var s := sign + d;
    assert Unsigned(s) == d;
    NoWord(s);
    assert '.' !in s;
  }

  lemma DigitPartIs(s: string)
    requires IsDigitPart(s)
    ensures ParseScalar(s) == Int(DigitsValue(DropUnderscores(s)))
  {
    SignedIs("", s);
    assert "" + s == s;
  }

  lemma DigitPartsJoin(a: string, b: string)
    requires IsDigitPart(a) && IsDigitPart(b)
    ensures IsDigitPart(a + "_" + b) && IsDigitPart(a + b)
  {
    var j, k := a + "_" + b, a + b;
    forall i | 0 <= i < |j| ensures IsDigit(j[i]) || j[i] == '_' {
      if i > |a| { assert j[i] == b[i - |a| - 1]; }
    }
    forall i | 0 <= i < |j| - 1 ensures IsDigit(j[i]) || IsDigit(j[i + 1]) {
      if i > |a| { assert j[i] == b[i - |a| - 1] && j[i + 1] == b[i - |a|]; }
    }
    forall i | 0 <= i < |k| - 1 ensures IsDigit(k[i]) || IsDigit(k[i + 1]) {
      if i >= |a| { assert k[i] == b[i - |a|] && k[i + 1] == b[i - |a| + 1]; }
    }
  }

  lemma WordsReadBack()
    ensures ParseScalar("true") == Bool(true) && ParseScalar("false") == Bool(false) && ParseScalar("null") == Null
  {
    assert Lower("true") == "true";
    assert Lower("false") == "false";
    assert Lower("null") == "null";
  }

  lemma ScalarReadsBack(v: Value)
    requires IsScalar(v)
    ensures IsText(Render(v)) && ParseScalar(Render(v)) == v
  {
    hide ParseScalar;
    WordsReadBack();
    match v
    case Int(n) => IntReadsBack(n);
    case Float(l) => FloatReadsBack(l);
    case Str(s) => if IsBare(s) { BareReadsBack(s); } else { StrReadsBack(s); }
    case _ =>
  }

  lemma {:induction false} ItemsReadBack(items: seq<Value>)
    requires AllScalars(items)
    ensures AllTexts(RenderAll(items)) && ItemMeanings(RenderAll(items)) == items
  {
    if items != [] {
      assert RenderAll(items)[1..] == RenderAll(items[1..]);
      ScalarReadsBack(items[0]);
      ItemsReadBack(items[1..]);
    }
  }

  lemma {:induction false} NodeReadsBack(v: Value)
    requires Printable(v)
    ensures WellFormed(NodeOf(v)) && Meaning(NodeOf(v)) == v
    decreases v
  {
    match v
    case List(items) => ItemsReadBack(items);
    case Map(entries) => FieldsReadBack(entries);
    case _ => ScalarReadsBack(v);
  }

  lemma {:induction false} FieldsReadBack(entries: seq<Entry>)
    requires PrintableEntries(entries)
    ensures WellFormedFields(FieldsOf(entries)) && Meanings(FieldsOf(entries)) == entries
    decreases entries
  {
    if entries != [] {
      assert FieldsOf(entries)[1..] == FieldsOf(entries[1..]);
      SameKeys(entries[1..], entries[0].key);
      NodeReadsBack(entries[0].value);
      FieldsReadBack(entries[1..]);
    }
  }

  lemma {:induction false} SameKeys(entries: seq<Entry>, key: string)
    requires !HasKey(entries, key)
    ensures !Mentions(FieldsOf(entries), key)
  {
    if entries != [] {
      assert entries[0].key != key;
      forall i | 0 <= i < |entries[1..]| ensures entries[1..][i].key != key {
        assert entries[i + 1].key != key;
      }
      SameKeys(entries[1..], key);
      var fields := FieldsOf(entries);
      forall i | 0 <= i < |fields| ensures fields[i].key != key {
        if i > 0 { assert fields[i] == FieldsOf(entries[1..])[i - 1]; }
      }
    }
  }

  /** Parsing undoes printing, and every printed line is consumed. */
  lemma RoundTrip(entries: seq<Entry>)
    requires PrintableEntries(entries)
    ensures ParseText(Print(entries)) == Parsed(Map(entries), [])
  {
    FieldsReadBack(entries);
    DocumentRoundTrip(FieldsOf(entries));
  }

  // ---------- what is consumed ----------

  /** Lines as the text reader delivers them: trimmed and not empty. */
  predicate Stripped(lines: seq<Line>) {
    forall l :: l in lines ==> IsStripped(l)
  }

  predicate IsStripped(l: Line) { l.content != "" && Trimmed(IsPySpace, l.content) }

  lemma {:induction false} SignificantStripped(raws: seq<string>)
    ensures Stripped(Significant(raws))
  {
    if raws != [] {
      var u := Uncommented(raws[0]);
      DropRightSpec(IsPySpace, raws[0][..IndexOf('#', raws[0])]);
      DropLeftSpec(IsPySpace, u);
      SignificantStripped(raws[1..]);
    }
  }

  /** A dash line always has text after its dash: lists never nest through `parse_simple_yaml`. */
  lemma DashHasItem(l: Line)
    requires IsStripped(l) && IsDash(l.content)
    ensures ItemOf(l.content) != ""
  {
    var item := l.content[2..];
    var last := item[|item| - 1];
    DropLeftSpec(IsPySpace, item);
    DropRightSpec(IsPySpace, DropLeft(IsPySpace, item));
    assert last == l.content[|l.content| - 1];
  }

  /** `rest` is what remains of `lines` after lines that are deeper than `indent`, or at it. */
  predicate Took(lines: seq<Line>, rest: seq<Line>, indent: nat, dashes: bool) {
    var k := |lines| - |rest|;
    k >= 0 && rest == lines[k..]
    && forall i :: 0 <= i < k ==>
         lines[i].indent >= indent && (lines[i].indent == indent ==> IsDash(lines[i].content) == dashes)
  }

  lemma TookMore(lines: seq<Line>, mid: seq<Line>, rest: seq<Line>, indent: nat, dashes: bool)
    requires lines != [] && lines[0].indent == indent && IsDash(lines[0].content) == dashes
    requires Took(lines[1..], mid, indent, dashes) && Took(mid, rest, indent, dashes)
    ensures Took(lines, rest, indent, dashes)
  {
    hide IsDash;
    var k, m := |lines| - |rest|, |lines| - |mid|;
    assert mid == lines[m..];
    forall i | 0 <= i < k
      ensures lines[i].indent >= indent && (lines[i].indent == indent ==> IsDash(lines[i].content) == dashes)
    {
      if i >= m { assert lines[i] == mid[i - m]; } else if i > 0 { assert lines[i] == lines[1..][i - 1]; }
    }
  }

  lemma StrippedRest(lines: seq<Line>, rest: seq<Line>)
    requires Stripped(lines) && |rest| <= |lines| && rest == lines[|lines| - |rest|..]
    ensures Stripped(rest)
  {
    hide IsStripped;
  }

  /** `rest` is what remains of `lines` after dash lines at `indent` or deeper. */
  predicate TookDashes(lines: seq<Line>, rest: seq<Line>, indent: nat) {
    var k := |lines| - |rest|;
    k >= 0 && rest == lines[k..]
    && forall i :: 0 <= i < k ==> lines[i].indent >= indent && IsDash(lines[i].content)
  }

  lemma TookDash(lines: seq<Line>, rest: seq<Line>, indent: nat)
    requires lines != [] && lines[0].indent >= indent && IsDash(lines[0].content)
    requires TookDashes(lines[1..], rest, indent)
    ensures TookDashes(lines, rest, indent)
  {
    hide IsDash;
    forall i | 0 <= i < |lines| - |rest| ensures lines[i].indent >= indent && IsDash(lines[i].content) {
      if i > 0 { assert lines[i] == lines[1..][i - 1]; }
    }
  }

  lemma ListUnfolds(lines: seq<Line>, indent: nat, done: seq<Value>)
    requires Stripped(lines)
    ensures if lines != [] && lines[0].indent >= indent && IsDash(lines[0].content)
            then ParseList(lines, indent, done)
                 == ParseList(lines[1..], indent, done + [ParseScalar(ItemOf(lines[0].content))])
            else ParseList(lines, indent, done) == Parsed(List(done), lines)
  {
    if lines != [] && IsDash(lines[0].content) {
      hide ItemOf, IsDash;
      DashHasItem(lines[0]);
    }
  }

  /** A list takes dash lines only, and stops at the first line that is not one or is shallower. */
  lemma {:induction false} ListTakes(lines: seq<Line>, indent: nat, done: seq<Value>)
    requires Stripped(lines)
    ensures var p := ParseList(lines, indent, done);
            && p.Parsed? && TookDashes(lines, p.rest, indent)
            && (p.rest == [] || p.rest[0].indent < indent || !IsDash(p.rest[0].content))
    decreases |lines|
  {
    hide *;
    ListUnfolds(lines, indent, done);
    if lines != [] && lines[0].indent >= indent && IsDash(lines[0].content) {
      StrippedRest(lines, lines[1..]);
      ListTakes(lines[1..], indent, done + [ParseScalar(ItemOf(lines[0].content))]);
      TookDash(lines, ParseList(lines, indent, done).rest, indent);
    } else {
      TookNothing(lines, indent, false);
    }
  }

  lemma TookNothing(lines: seq<Line>, indent: nat, dashes: bool)
    ensures TookDashes(lines, lines, indent) && Took(lines, lines, indent, dashes)
  {
  }

  lemma TookDeeperDashes(lines: seq<Line>, rest: seq<Line>, deep: nat, current: nat)
    requires deep > current && TookDashes(lines, rest, deep)
    ensures Took(lines, rest, current, false)
  {
    hide IsDash;
  }

  lemma TookDeeper(lines: seq<Line>, rest: seq<Line>, deep: nat, current: nat)
    requires deep > current && Took(lines, rest, deep, false)
    ensures Took(lines, rest, current, false)
  {
    hide IsDash;
  }

  lemma ValueUnfolds(text: string, next: seq<Line>, current: nat)
    requires ParseValue(text, next, current).Parsed?
    ensures if text == "" && next != [] && next[0].indent > current
            then ParseValue(text, next, current) == if IsDash(next[0].content)
                   then ParseList(next, next[0].indent, []) else ParseMapping(next, next[0].indent, [])
            else ParseValue(text, next, current).rest == next
  {
    hide ParseList, ParseMapping, ParseScalar, IsDash;
  }

  /** What belongs to a key lies strictly deeper than the key. */
  lemma {:induction false} ValueTakes(text: string, next: seq<Line>, current: nat)
    requires Stripped(next) && ParseValue(text, next, current).Parsed?
    ensures Took(next, ParseValue(text, next, current).rest, current, false)
    decreases |next|, 1
  {
    hide *;
    ValueUnfolds(text, next, current);
    var rest := ParseValue(text, next, current).rest;
    if text == "" && next != [] && next[0].indent > current {
      if IsDash(next[0].content) {
        ListTakes(next, next[0].indent, []);
        TookDeeperDashes(next, rest, next[0].indent, current);
      } else {
        MappingTakes(next, next[0].indent, []);
        TookDeeper(next, rest, next[0].indent, current);
      }
    } else {
      TookNothing(next, current, false);
    }
  }

  /** A mapping that does not raise takes no dash line of its own indent, and stops only at one. */
  lemma {:induction false} MappingTakes(lines: seq<Line>, indent: nat, done: seq<Entry>)
    requires Stripped(lines) && ParseMapping(lines, indent, done).Parsed?
    ensures var rest := ParseMapping(lines, indent, done).rest;
            && Took(lines, rest, indent, false)
            && (rest == [] || rest[0].indent < indent || (rest[0].indent == indent && IsDash(rest[0].content)))
    decreases |lines|, 0
  {
    hide *;
    MappingUnfolds(lines, indent, done);
    if lines != [] && lines[0].indent >= indent && !IsDash(lines[0].content) {
      StrippedRest(lines, lines[1..]);
      var v := ParseValue(RemainderOf(lines[0].content), lines[1..], lines[0].indent);
      ValueTakes(RemainderOf(lines[0].content), lines[1..], lines[0].indent);
      TookIsSuffix(lines[1..], v.rest, indent, false);
      StrippedRest(lines[1..], v.rest);
      MappingTakes(v.rest, indent, Put(done, KeyOf(lines[0].content), v.value));
      TookMore(lines, v.rest, ParseMapping(lines, indent, done).rest, indent, false);
    } else {
      TookNothing(lines, indent, false);
    }
  }

  lemma TookIsSuffix(lines: seq<Line>, rest: seq<Line>, indent: nat, dashes: bool)
    requires Took(lines, rest, indent, dashes)
    ensures |rest| <= |lines| && rest == lines[|lines| - |rest|..]
  {
  }

  lemma MappingUnfolds(lines: seq<Line>, indent: nat, done: seq<Entry>)
    requires ParseMapping(lines, indent, done).Parsed?
    ensures if lines != [] && lines[0].indent >= indent && !IsDash(lines[0].content) then
              var v := ParseValue(RemainderOf(lines[0].content), lines[1..], lines[0].indent);
              && lines[0].indent == indent && v.Parsed? && |v.rest| < |lines|
              && ParseMapping(lines, indent, done)
                 == ParseMapping(v.rest, indent, Put(done, KeyOf(lines[0].content), v.value))
            else
              && ParseMapping(lines, indent, done).rest == lines
              && (lines != [] ==> lines[0].indent <= indent)
  {
    hide IsDash, ParseValue, RemainderOf, KeyOf, Put;
  }

  /** Whether input is silently dropped can be read off the lines before parsing. */
  predicate KeepsAll(lines: seq<Line>) {
    if lines != [] && IsDash(lines[0].content) then forall l :: l in lines ==> IsDash(l.content)
    else forall l :: l in lines ==> !(l.indent == 0 && IsDash(l.content))
  }

  /** When parsing does not raise, it consumes every line exactly when the lines are of one kind at the top. */
  lemma ConsumesAllIff(text: string)
    requires ParseText(text).Parsed?
    ensures ParseText(text).rest == [] <==> KeepsAll(Significant(SplitLines(text)))
  {
    hide Significant, SplitLines, ParseList, ParseMapping, IsDash, IsStripped;
    var lines := Significant(SplitLines(text));
    SignificantStripped(SplitLines(text));
    if lines != [] && IsDash(lines[0].content) {
      ListTakes(lines, 0, []);
      DashesKept(lines, ParseText(text).rest);
    } else if lines != [] {
      MappingTakes(lines, 0, []);
      MappingKept(lines, ParseText(text).rest);
    }
  }

  lemma DashesKept(lines: seq<Line>, rest: seq<Line>)
    requires TookDashes(lines, rest, 0) && (rest == [] || !IsDash(rest[0].content))
    ensures rest == [] <==> forall l :: l in lines ==> IsDash(l.content)
  {
    hide IsDash;
    assert rest != [] ==> rest[0] in lines;
  }

  lemma MappingKept(lines: seq<Line>, rest: seq<Line>)
    requires Took(lines, rest, 0, false) && (rest == [] || (rest[0].indent == 0 && IsDash(rest[0].content)))
    ensures rest == [] <==> forall l :: l in lines ==> !(l.indent == 0 && IsDash(l.content))
  {
    hide IsDash;
    assert rest != [] ==> rest[0] in lines;
  }

  /** A list at the top of a document never raises. */
  lemma TopListParses(text: string)
    requires var lines := Significant(SplitLines(text)); lines != [] && IsDash(lines[0].content)
    ensures ParseText(text).Parsed?
  {
    hide Significant, SplitLines, ParseList, ParseMapping, IsDash, IsStripped;
    SignificantStripped(SplitLines(text));
    ListTakes(Significant(SplitLines(text)), 0, []);
  }

  /** Input can be lost without an error: after one key, a dash line at the left margin is dropped. */
  lemma DropsTrailingList(key: string, text: string, item: string)
    requires IsKey(key) && IsText(text)
    ensures ParseBlock(FieldLines([Field(key, Scalar(text))], 0) + [Line(0, "- " + item)], 0)
            == Parsed(Map([Entry(key, ParseScalar(text))]), [Line(0, "- " + item)])
  {
    hide IsKey, IsText, ParseScalar, HeadOf, KeyOf, RemainderOf;
    var f, dash := Field(key, Scalar(text)), Line(0, "- " + item);
    var head := Line(0, HeadOf(f));
    assert BodyLines(f.node, 0) == [];
    assert FieldLines([f], 0) + [dash] == [head] + [dash];
    HeadParts(f);
    NotEmptyText(text);
    MappingStep(head, [dash], 0, []);
  }

  /**
   * A list must sit deeper than its key: with the dash in the key's own column the key gets no value and the
   * list is left over, dropped at the top and an error inside a deeper block.
   */
  lemma ListAtKeyColumnIsLost(key: string, item: string, indent: nat, outer: nat, rest: seq<Line>, done: seq<Entry>)
    requires IsKey(key)
    ensures var dash := Line(indent, "- " + item);
            var head := Line(indent, HeadOf(Field(key, Absent)));
            && ParseMapping([head] + ([dash] + rest), indent, done) == Parsed(Map(Put(done, key, Null)), [dash] + rest)
            && (indent > outer ==> ParseMapping([dash] + rest, outer, done) == Unexpected(dash.content))
  {
    hide IsKey, HeadOf, KeyOf, RemainderOf, Put;
    HeadParts(Field(key, Absent));
    MappingStep(Line(indent, HeadOf(Field(key, Absent))), [Line(indent, "- " + item)] + rest, indent, done);
  }

  lemma NotEmptyText(text: string)
    requires IsText(text)
    ensures text != ""
  {
  }
}

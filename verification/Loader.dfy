/** The indentation parser for `company.yaml` (app/policies/loader.py). */
module Loader {
  import opened Text

  /** One significant line: leading spaces counted off, content trimmed of blanks and comment. */
  datatype Line = Line(indent: nat, content: string)

  /** `Float` keeps the literal text: rounding to a binary float is not modelled. */
  datatype Value =
    | Null
    | Bool(flag: bool)
    | Int(n: int)
    | Float(literal: string)
    | Str(text: string)
    | List(items: seq<Value>)
    | Map(entries: seq<Entry>)

  datatype Entry = Entry(key: string, value: Value)

  /** What a parsing step gives back: a value and the lines it left, or the `ValueError`. */
  datatype Parse = Parsed(value: Value, rest: seq<Line>) | Unexpected(content: string)

  /** Dictionary assignment: overwrite in place, or append a new key. */
  function Put(entries: seq<Entry>, key: string, value: Value): seq<Entry> {
    if entries == [] then [Entry(key, value)]
    else if entries[0].key == key then [Entry(key, value)] + entries[1..]
    else [entries[0]] + Put(entries[1..], key, value)
  }

  predicate HasKey(entries: seq<Entry>, key: string) {
    exists i :: 0 <= i < |entries| && entries[i].key == key
  }

  // ---------- scalars ----------

  /** Digits with single underscores between them, as Python's numerals allow. */
  predicate IsDigitPart(s: string) {
    && s != "" && IsDigit(s[0]) && IsDigit(s[|s| - 1])
    && (forall i :: 0 <= i < |s| ==> IsDigit(s[i]) || s[i] == '_')
    && (forall i :: 0 <= i < |s| - 1 ==> IsDigit(s[i]) || IsDigit(s[i + 1]))
  }

  function Unsigned(s: string): string {
    if s != "" && (s[0] == '+' || s[0] == '-') then s[1..] else s
  }

  predicate IsIntLiteral(s: string) { IsDigitPart(Unsigned(s)) }

  predicate IsFloatLiteral(s: string) {
    var u := Unsigned(s);
    var dot := IndexOf('.', u);
    dot < |u| &&
    var whole, tail := u[..dot], u[dot + 1..];
    var e := IndexOf('e', Lower(tail));
    var fraction := tail[..e];
    && (whole == "" || IsDigitPart(whole))
    && (fraction == "" || IsDigitPart(fraction))
    && (whole != "" || fraction != "")
    && (e < |tail| ==> IsDigitPart(Unsigned(tail[e + 1..])))
  }

  function DropUnderscores(s: string): (r: string)
    requires forall i :: 0 <= i < |s| ==> IsDigit(s[i]) || s[i] == '_'
    ensures forall c :: c in r ==> IsDigit(c)
  {
    if s == "" then "" else
      (if s[0] == '_' then "" else [s[0]]) + DropUnderscores(s[1..])
  }

  function IntLiteralValue(s: string): int
    requires IsIntLiteral(s)
  {
    var n := DigitsValue(DropUnderscores(Unsigned(s)));
    if s[0] == '-' then 0 - n else n
  }

  predicate QuotedBy(q: char, s: string) { s != "" && s[0] == q && s[|s| - 1] == q }

  function ParseScalar(s: string): Value {
    if QuotedBy('"', s) || QuotedBy('\'', s) then
      Str(if |s| < 2 then "" else s[1..|s| - 1])
    else
      var lowered := Lower(s);
      if lowered in {"true", "yes"} then Bool(true)
      else if lowered in {"false", "no"} then Bool(false)
      else if lowered in {"null", "none", "~"} then Null
      else if '.' in s then (if IsFloatLiteral(s) then Float(s) else Str(s))
      else if IsIntLiteral(s) then Int(IntLiteralValue(s))
      else Str(s)
  }

  // ---------- the specification of the three block parsers, on the lines still to read ----------

  predicate IsDash(content: string) { "- " <= content }

  /** `content.partition(":")` with both sides stripped. */
  function KeyOf(content: string): string {
    Trim(IsPySpace, content[..IndexOf(':', content)])
  }

  function RemainderOf(content: string): string {
    var k := IndexOf(':', content);
    if k < |content| then Trim(IsPySpace, content[k + 1..]) else ""
  }

  function ItemOf(content: string): string
    requires IsDash(content)
  {
    Trim(IsPySpace, content[2..])
  }

  function ParseBlock(lines: seq<Line>, indent: nat): (r: Parse)
    ensures r.Parsed? ==> |r.rest| <= |lines|
    ensures r.Parsed? && lines != [] && lines[0].indent == indent ==> |r.rest| < |lines|
    decreases |lines|, 2
  {
    if lines == [] then Parsed(Map([]), lines)
    else if IsDash(lines[0].content) then ParseList(lines, indent, [])
    else ParseMapping(lines, indent, [])
  }

  /** What a key or a dash stands for: the text beside it, the deeper block below it, or `None`. */
  function ParseValue(text: string, next: seq<Line>, current: nat): (r: Parse)
    ensures r.Parsed? ==> |r.rest| <= |next|
    decreases |next|, 3
  {
    if text != "" then Parsed(ParseScalar(text), next)
    else if next != [] && next[0].indent > current then ParseBlock(next, next[0].indent)
    else Parsed(Null, next)
  }

  function ParseMapping(lines: seq<Line>, indent: nat, done: seq<Entry>): (r: Parse)
    ensures r.Parsed? ==> |r.rest| <= |lines|
    ensures r.Parsed? && lines != [] && lines[0].indent == indent && !IsDash(lines[0].content)
            ==> |r.rest| < |lines|
    decreases |lines|, 1
  {
    if lines == [] || lines[0].indent < indent then Parsed(Map(done), lines)
    else if lines[0].indent > indent then Unexpected(lines[0].content)
    else if IsDash(lines[0].content) then Parsed(Map(done), lines)
    else
      var v := ParseValue(RemainderOf(lines[0].content), lines[1..], lines[0].indent);
      if v.Unexpected? then v
      else ParseMapping(v.rest, indent, Put(done, KeyOf(lines[0].content), v.value))
  }

  function ParseList(lines: seq<Line>, indent: nat, done: seq<Value>): (r: Parse)
    ensures r.Parsed? ==> |r.rest| <= |lines|
    ensures r.Parsed? && lines != [] && lines[0].indent == indent && IsDash(lines[0].content)
            ==> |r.rest| < |lines|
    decreases |lines|, 1
  {
    if lines == [] || lines[0].indent < indent || !IsDash(lines[0].content) then Parsed(List(done), lines)
    else
      var v := ParseValue(ItemOf(lines[0].content), lines[1..], lines[0].indent);
      if v.Unexpected? then v else ParseList(v.rest, indent, done + [v.value])
  }

  // ---------- from text to significant lines ----------

  function LineEnd(s: string): (k: nat)
    ensures k <= |s|
  {
    if s == "" || IsLineBreak(s[0]) then 0 else 1 + LineEnd(s[1..])
  }

  function SplitLines(s: string): seq<string>
    decreases |s|
  {
    if s == "" then [] else
      var k := LineEnd(s);
      [s[..k]] + SplitLines(AfterBreak(s, k))
  }

  /** What follows the line break at `k`; CR LF is one break. */
  function AfterBreak(s: string, k: nat): (r: string)
    requires k <= |s|
    ensures s != "" && k == LineEnd(s) ==> |r| < |s|
  {
    if k == |s| then ""
    else if s[k] == '\r' && k + 1 < |s| && s[k + 1] == '\n' then s[k + 2..]
    else s[k + 1..]
  }

  predicate IsAsciiSpace(c: char) { c == ' ' }

  /** A raw line without its comment and without trailing blanks. */
  function Uncommented(raw: string): string {
    DropRight(IsPySpace, raw[..IndexOf('#', raw)])
  }

  function IndentOf(raw: string): nat {
    |raw| - |DropLeft(IsAsciiSpace, raw)|
  }

  function Significant(raws: seq<string>): seq<Line> {
    if raws == [] then []
    else if Uncommented(raws[0]) == "" then Significant(raws[1..])
    else [Line(IndentOf(raws[0]), DropLeft(IsPySpace, Uncommented(raws[0])))] + Significant(raws[1..])
  }

  function ParseText(text: string): Parse {
    ParseBlock(Significant(SplitLines(text)), 0)
  }

  // ---------- the parser itself: an index threaded through loops ----------

  datatype Outcome = Done(value: Value, index: nat) | Raised(content: string)

  /** The loop's outcome at `index` is the specification's outcome on `lines[index..]`. */
  predicate Agrees(o: Outcome, lines: seq<Line>, p: Parse) {
    match o
    case Done(v, j) => j <= |lines| && p == Parsed(v, lines[j..])
    case Raised(c) => p == Unexpected(c)
  }

  method ParseSimpleYaml(text: string) returns (o: Outcome)
    ensures Agrees(o, Significant(SplitLines(text)), ParseText(text))
  {
    var raws := SplitLines(text);
    var lines: seq<Line> := [];
    for i := 0 to |raws|
      invariant lines + Significant(raws[i..]) == Significant(raws)
    {
      assert raws[i..][0] == raws[i] && raws[i..][1..] == raws[i + 1..];
      var stripped := Uncommented(raws[i]);
      if stripped == "" {
        continue;
      }
      lines := lines + [Line(IndentOf(raws[i]), DropLeft(IsPySpace, stripped))];
    }
    assert lines == Significant(raws) && lines[0..] == lines;
    o := ParseBlockAt(lines, 0, 0);
  }

  method ParseBlockAt(lines: seq<Line>, index: nat, indent: nat) returns (o: Outcome)
    requires index <= |lines|
    ensures Agrees(o, lines, ParseBlock(lines[index..], indent))
    decreases |lines| - index, 2
  {
    if index >= |lines| {
      return Done(Map([]), index);
    }
    if IsDash(lines[index].content) {
      o := ParseListAt(lines, index, indent);
    } else {
      o := ParseMappingAt(lines, index, indent);
    }
  }

  method ParseMappingAt(lines: seq<Line>, start: nat, indent: nat) returns (o: Outcome)
    requires start <= |lines|
    ensures Agrees(o, lines, ParseMapping(lines[start..], indent, []))
    decreases |lines| - start, 1
  {
    var index, result := start, [];
    ghost var goal := ParseMapping(lines[start..], indent, []);
    while index < |lines|
      invariant start <= index <= |lines|
      invariant goal == ParseMapping(lines[index..], indent, result)
    {
      ghost var todo := lines[index..];
      assert todo[0] == lines[index] && todo[1..] == lines[index + 1..];
      var Line(current, content) := lines[index];
      if current < indent {
        break;
      }
      if current > indent {
        return Raised(content);
      }
      if IsDash(content) {
        break;
      }
      var key, remainder := KeyOf(content), RemainderOf(content);
      ghost var v := ParseValue(remainder, todo[1..], current);
      assert goal == if v.Unexpected? then v else ParseMapping(v.rest, indent, Put(result, key, v.value));
      index := index + 1;
      var value := Null;
      if remainder != "" {
        value := ParseScalar(remainder);
      } else if index < |lines| && lines[index].indent > current {
        var nested := ParseBlockAt(lines, index, lines[index].indent);
        if nested.Raised? {
          return nested;
        }
        value, index := nested.value, nested.index;
      }
      assert v == Parsed(value, lines[index..]);
      result := Put(result, key, value);
    }
    o := Done(Map(result), index);
  }

  method ParseListAt(lines: seq<Line>, start: nat, indent: nat) returns (o: Outcome)
    requires start <= |lines|
    ensures Agrees(o, lines, ParseList(lines[start..], indent, []))
    decreases |lines| - start, 1
  {
    var index, result := start, [];
    ghost var goal := ParseList(lines[start..], indent, []);
    while index < |lines|
      invariant start <= index <= |lines|
      invariant goal == ParseList(lines[index..], indent, result)
    {
      ghost var todo := lines[index..];
      assert todo[0] == lines[index] && todo[1..] == lines[index + 1..];
      var Line(current, content) := lines[index];
      if current < indent || !IsDash(content) {
        break;
      }
      var item := ItemOf(content);
      ghost var v := ParseValue(item, todo[1..], current);
      assert goal == if v.Unexpected? then v else ParseList(v.rest, indent, result + [v.value]);
      index := index + 1;
      var value := Null;
      if item != "" {
        value := ParseScalar(item);
      } else if index < |lines| && lines[index].indent > current {
        var nested := ParseBlockAt(lines, index, lines[index].indent);
        if nested.Raised? {
          return nested;
        }
        value, index := nested.value, nested.index;
      }
      assert v == Parsed(value, lines[index..]);
      result := result + [value];
    }
    o := Done(List(result), index);
  }
}

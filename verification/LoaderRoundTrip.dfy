/** Printing the loader's subset, and the proof that parsing undoes it. */
module LoaderRoundTrip {
  import opened Text
  import opened Loader

  // ---------- a layout: the text of a document with its own indentation ----------

  /** A block chooses how much deeper than its key it sits (`step + 1` columns). */
  datatype Node =
    | Scalar(text: string)
    | Absent
    | Block(step: nat, fields: seq<Field>)
    | Items(step: nat, texts: seq<string>)

  datatype Field = Field(key: string, node: Node)

  predicate IsPlain(s: string) {
    Trimmed(IsPySpace, s) && '#' !in s && forall i :: 0 <= i < |s| ==> !IsLineBreak(s[i])
  }

  predicate IsKey(s: string) { IsPlain(s) && ':' !in s && !IsDash(s) }

  predicate IsText(s: string) { IsPlain(s) && s != "" }

  predicate WellFormed(node: Node) {
    match node
    case Scalar(text) => IsText(text)
    case Absent => true
    case Block(_, fields) => fields != [] && WellFormedFields(fields)
    case Items(_, texts) => texts != [] && AllTexts(texts)
  }

  predicate AllTexts(texts: seq<string>) {
    texts == [] || (IsText(texts[0]) && AllTexts(texts[1..]))
  }

  /** Keys are distinct, and each field is well formed. */
  predicate WellFormedFields(fields: seq<Field>) {
    fields == []
    || (IsKey(fields[0].key) && WellFormed(fields[0].node)
        && !Mentions(fields[1..], fields[0].key) && WellFormedFields(fields[1..]))
  }

  predicate Mentions(fields: seq<Field>, key: string) {
    exists i :: 0 <= i < |fields| && fields[i].key == key
  }

  /** What a layout stands for. */
  function Meaning(node: Node): Value
    decreases node
  {
    match node
    case Scalar(text) => ParseScalar(text)
    case Absent => Null
    case Block(_, fields) => Map(Meanings(fields))
    case Items(_, texts) => List(ItemMeanings(texts))
  }

  function Meanings(fields: seq<Field>): seq<Entry>
    decreases fields
  {
    if fields == [] then []
    else [Entry(fields[0].key, Meaning(fields[0].node))] + Meanings(fields[1..])
  }

  function ItemMeanings(texts: seq<string>): seq<Value> {
    if texts == [] then [] else [ParseScalar(texts[0])] + ItemMeanings(texts[1..])
  }

  /** The text beside a key, if any. */
  function TextOf(node: Node): string {
    if node.Scalar? then node.text else ""
  }

  function HeadOf(f: Field): string {
    f.key + [':'] + (if f.node.Scalar? then " " else "") + TextOf(f.node)
  }

  function BodyLines(node: Node, indent: nat): seq<Line>
    decreases node
  {
    match node
    case Block(step, fields) => FieldLines(fields, indent + step + 1)
    case Items(step, texts) => ItemLines(texts, indent + step + 1)
    case _ => []
  }

  function FieldLines(fields: seq<Field>, indent: nat): seq<Line>
    decreases fields
  {
    if fields == [] then []
    else [Line(indent, HeadOf(fields[0]))] + BodyLines(fields[0].node, indent)
         + FieldLines(fields[1..], indent)
  }

  function ItemLines(texts: seq<string>, indent: nat): seq<Line> {
    if texts == [] then [] else [Line(indent, "- " + texts[0])] + ItemLines(texts[1..], indent)
  }

  // ---------- the parser inverts the layout ----------

  lemma KeyPart(key: string, tail: string)
    requires IsKey(key)
    ensures KeyOf(key + [':'] + tail) == key && !IsDash(key + [':'] + tail)
  {
    IndexOfFirst(':', key, tail);
    assert (key + [':'] + tail)[..|key|] == key;
    assert "" + key + "" == key;
    TrimOf(IsPySpace, "", key, "");
  }

  lemma RemainderPart(key: string, gap: string, text: string)
    requires ':' !in key && (forall c :: c in gap ==> IsPySpace(c)) && Trimmed(IsPySpace, text)
    ensures RemainderOf(key + [':'] + gap + text) == text
  {
    assert key + [':'] + gap + text == key + [':'] + (gap + text);
    IndexOfFirst(':', key, gap + text);
    assert (key + [':'] + (gap + text))[|key| + 1..] == gap + text == gap + text + "";
    TrimOf(IsPySpace, gap, text, "");
  }

  lemma HeadParts(f: Field)
    requires IsKey(f.key) && WellFormed(f.node)
    ensures KeyOf(HeadOf(f)) == f.key && !IsDash(HeadOf(f))
    ensures RemainderOf(HeadOf(f)) == TextOf(f.node)
  {
    var gap := if f.node.Scalar? then " " else "";
    assert HeadOf(f) == f.key + [':'] + (gap + TextOf(f.node));
    KeyPart(f.key, gap + TextOf(f.node));
    RemainderPart(f.key, gap, TextOf(f.node));
  }

  lemma ItemPart(t: string)
    requires IsText(t)
    ensures IsDash("- " + t) && ItemOf("- " + t) == t
  {
    assert ("- " + t)[2..] == t && "" + t + "" == t;
    TrimOf(IsPySpace, "", t, "");
  }

  lemma PutNew(entries: seq<Entry>, key: string, value: Value)
    requires !HasKey(entries, key)
    ensures Put(entries, key, value) == entries + [Entry(key, value)]
  {
    if entries != [] {
      assert entries[0].key != key;
      forall i | 0 <= i < |entries[1..]| ensures entries[1..][i].key != key {
        assert entries[i + 1].key != key;
      }
      PutNew(entries[1..], key, value);
    }
  }

  /** One turn of the mapping loop, and one turn of the list loop. */
  lemma MappingStep(head: Line, next: seq<Line>, indent: nat, done: seq<Entry>)
    requires head.indent == indent && !IsDash(head.content)
    ensures var v := ParseValue(RemainderOf(head.content), next, indent);
            ParseMapping([head] + next, indent, done)
            == if v.Unexpected? then v else ParseMapping(v.rest, indent, Put(done, KeyOf(head.content), v.value))
  {
    assert ([head] + next)[1..] == next;
  }

  lemma ListStep(head: Line, next: seq<Line>, indent: nat, done: seq<Value>)
    requires head.indent == indent && IsDash(head.content) && ItemOf(head.content) != ""
    ensures ParseList([head] + next, indent, done)
            == ParseList(next, indent, done + [ParseScalar(ItemOf(head.content))])
  {
    assert ([head] + next)[1..] == next;
  }

  lemma ItemStep(texts: seq<string>, indent: nat, done: seq<Value>, rest: seq<Line>)
    requires AllTexts(texts) && texts != []
    ensures ParseList(ItemLines(texts, indent) + rest, indent, done)
            == ParseList(ItemLines(texts[1..], indent) + rest, indent, done + [ParseScalar(texts[0])])
  {
    var head, next := Line(indent, "- " + texts[0]), ItemLines(texts[1..], indent) + rest;
    assert ItemLines(texts, indent) + rest == [head] + next;
    ItemPart(texts[0]);
    ListStep(head, next, indent, done);
  }

  lemma {:induction false} ItemsInverse(texts: seq<string>, indent: nat, done: seq<Value>, rest: seq<Line>)
    requires AllTexts(texts)
    requires rest == [] || rest[0].indent < indent
    ensures ParseList(ItemLines(texts, indent) + rest, indent, done)
            == Parsed(List(done + ItemMeanings(texts)), rest)
    decreases texts
  {
    hide ParseList, ParseScalar, IsText, ItemLines;
    if texts == [] {
      ItemsEnd(indent, done, rest);
    } else {
      var next := done + [ParseScalar(texts[0])];
      assert next + ItemMeanings(texts[1..]) == done + ItemMeanings(texts);
      ItemStep(texts, indent, done, rest);
      ItemsInverse(texts[1..], indent, next, rest);
    }
  }

  lemma ItemsEnd(indent: nat, done: seq<Value>, rest: seq<Line>)
    requires rest == [] || rest[0].indent < indent
    ensures ParseList(ItemLines([], indent) + rest, indent, done) == Parsed(List(done + ItemMeanings([])), rest)
  {
    assert ItemLines([], indent) + rest == rest && done + [] == done;
  }

  /** A deeper block is read by the parser its first line selects. */
  lemma FieldsBlock(fields: seq<Field>, current: nat, indent: nat, rest: seq<Line>)
    requires fields != [] && WellFormedFields(fields) && current < indent
    ensures var lines := FieldLines(fields, indent) + rest;
            ParseValue("", lines, current) == ParseMapping(lines, indent, [])
  {
    HeadParts(fields[0]);
  }

  lemma ItemsBlock(texts: seq<string>, current: nat, indent: nat, rest: seq<Line>)
    requires texts != [] && AllTexts(texts) && current < indent
    ensures var lines := ItemLines(texts, indent) + rest;
            ParseValue("", lines, current) == ParseList(lines, indent, [])
  {
    ItemPart(texts[0]);
  }

  lemma ItemsValue(texts: seq<string>, current: nat, indent: nat, rest: seq<Line>)
    requires texts != [] && AllTexts(texts) && current < indent
    requires rest == [] || rest[0].indent < indent
    ensures ParseValue("", ItemLines(texts, indent) + rest, current) == Parsed(List(ItemMeanings(texts)), rest)
  {
    assert [] + ItemMeanings(texts) == ItemMeanings(texts);
    ItemsInverse(texts, indent, [], rest);
    ItemsBlock(texts, current, indent, rest);
  }

  lemma {:induction false} FieldsValue(fields: seq<Field>, current: nat, indent: nat, rest: seq<Line>)
    requires fields != [] && WellFormedFields(fields) && current < indent
    requires rest == [] || rest[0].indent < indent
    ensures ParseValue("", FieldLines(fields, indent) + rest, current) == Parsed(Map(Meanings(fields)), rest)
    decreases fields, 1
  {
    assert [] + Meanings(fields) == Meanings(fields);
    FieldsInverse(fields, indent, [], rest);
    FieldsBlock(fields, current, indent, rest);
  }

  lemma {:induction false} NodeInverse(node: Node, indent: nat, rest: seq<Line>)
    requires WellFormed(node)
    requires rest == [] || rest[0].indent <= indent
    ensures ParseValue(TextOf(node), BodyLines(node, indent) + rest, indent) == Parsed(Meaning(node), rest)
    decreases node
  {
    match node
    case Block(step, fields) => FieldsValue(fields, indent, indent + step + 1, rest);
    case Items(step, texts) => ItemsValue(texts, indent, indent + step + 1, rest);
    case _ => assert BodyLines(node, indent) + rest == rest;
  }

  lemma FirstFieldOk(fields: seq<Field>)
    requires WellFormedFields(fields) && fields != []
    ensures IsKey(fields[0].key) && WellFormed(fields[0].node)
  {
  }

  lemma FieldLinesHead(fields: seq<Field>, indent: nat, rest: seq<Line>)
    requires fields != []
    ensures FieldLines(fields, indent) + rest
            == [Line(indent, HeadOf(fields[0]))]
               + (BodyLines(fields[0].node, indent) + (FieldLines(fields[1..], indent) + rest))
  {
    hide BodyLines, HeadOf;
  }

  lemma FieldStep(fields: seq<Field>, indent: nat, done: seq<Entry>, rest: seq<Line>, v: Parse)
    requires WellFormedFields(fields) && fields != [] && v.Parsed?
    requires v == ParseValue(TextOf(fields[0].node),
                             BodyLines(fields[0].node, indent) + (FieldLines(fields[1..], indent) + rest), indent)
    ensures ParseMapping(FieldLines(fields, indent) + rest, indent, done)
            == ParseMapping(v.rest, indent, Put(done, fields[0].key, v.value))
  {
    hide *;
    var head := Line(indent, HeadOf(fields[0]));
    var next := BodyLines(fields[0].node, indent) + (FieldLines(fields[1..], indent) + rest);
    FieldLinesHead(fields, indent, rest);
    FirstFieldOk(fields);
    HeadParts(fields[0]);
    MappingStep(head, next, indent, done);
  }

  lemma {:induction false} FieldsInverse(fields: seq<Field>, indent: nat, done: seq<Entry>, rest: seq<Line>)
    requires WellFormedFields(fields)
    requires forall i :: 0 <= i < |fields| ==> !HasKey(done, fields[i].key)
    requires rest == [] || rest[0].indent < indent
    ensures ParseMapping(FieldLines(fields, indent) + rest, indent, done)
            == Parsed(Map(done + Meanings(fields)), rest)
    decreases fields, 0
  {
    if fields == [] {
      assert FieldLines(fields, indent) + rest == rest && done + [] == done;
    } else {
      hide ParseMapping, ParseValue, IsKey, HasKey, Put;
      var f, tail := fields[0], FieldLines(fields[1..], indent) + rest;
      var entry := Entry(f.key, Meaning(f.node));
      assert done + [entry] + Meanings(fields[1..]) == done + Meanings(fields);
      NodeInverse(f.node, indent, tail);
      FieldStep(fields, indent, done, rest, Parsed(entry.value, tail));
      PutNew(done, f.key, entry.value);
      NextFields(fields, done, entry);
      FieldsInverse(fields[1..], indent, done + [entry], rest);
    }
  }

  lemma NextFields(fields: seq<Field>, done: seq<Entry>, entry: Entry)
    requires fields != [] && !Mentions(fields[1..], entry.key)
    requires forall i :: 0 <= i < |fields| ==> !HasKey(done, fields[i].key)
    ensures forall i :: 0 <= i < |fields[1..]| ==> !HasKey(done + [entry], fields[1..][i].key)
  {
    var next := fields[1..];
    forall i | 0 <= i < |next| ensures !HasKey(done + [entry], next[i].key) {
      assert next[i] == fields[i + 1];
    }
  }
}

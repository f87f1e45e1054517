/** Splitting a document into chunks of words (scripts/ingest_kb.py, `chunk_text`). */
module Chunks {
  import opened Text
  import opened Emails

  /** Words joined by single blanks, as each chunk is stored. */
  function Joined(words: seq<string>): string { Join(" ", words) }

  /** The chunks still to come, `current` holding the words taken since the last one. */
  function ChunkWords(current: seq<string>, words: seq<string>, size: int): seq<seq<string>>
    decreases |words|
  {
    if words == [] then if current == [] then [] else [current]
    else
      var grown := current + [words[0]];
      if |Joined(grown)| >= size then [grown] + ChunkWords([], words[1..], size)
      else ChunkWords(grown, words[1..], size)
  }

  function JoinAll(chunks: seq<seq<string>>): seq<string> {
    seq(|chunks|, i requires 0 <= i < |chunks| => Joined(chunks[i]))
  }

  method ChunkText(text: string, size: int) returns (chunks: seq<string>)
    ensures chunks == JoinAll(ChunkWords([], Words(text), size))
  {
    hide Words, Joined;
    var words := Words(text);
    chunks := [];
    var current: seq<string> := [];
    ghost var done: seq<seq<string>> := [];
    for i := 0 to |words|
      invariant chunks == JoinAll(done)
      invariant ChunkWords([], words, size) == done + ChunkWords(current, words[i..], size)
    {
      assert words[i..][0] == words[i] && words[i..][1..] == words[i + 1..];
      current := current + [words[i]];
      if |Joined(current)| >= size {
        chunks := chunks + [Joined(current)];
        done := done + [current];
        current := [];
      }
    }
    if current != [] {
      chunks := chunks + [Joined(current)];
      done := done + [current];
    }
    assert words[|words|..] == [];
  }

  function Flat(chunks: seq<seq<string>>): seq<string> { if chunks == [] then [] else chunks[0] + Flat(chunks[1..]) }

  /** Long enough, and just so: without its last word a chunk is too short. */
  predicate IsFull(chunk: seq<string>, size: int) {
    chunk != [] && |Joined(chunk)| >= size && IsShort(chunk[..|chunk| - 1], size)
  }

  predicate IsShort(words: seq<string>, size: int) { words != [] ==> |Joined(words)| < size }

  /** No word is lost, moved or split. */
  lemma {:induction false} ChunksConserve(current: seq<string>, words: seq<string>, size: int)
    ensures Flat(ChunkWords(current, words, size)) == current + words
    decreases |words|
  {
    hide Joined;
    if words == [] {
      assert current + words == current;
      if current != [] { FlatCons(current, []); }
    } else {
      var grown := current + [words[0]];
      assert current + words == grown + words[1..];
      if |Joined(grown)| >= size {
        ChunksConserve([], words[1..], size);
        FlatCons(grown, ChunkWords([], words[1..], size));
        assert [] + words[1..] == words[1..];
      } else {
        ChunksConserve(grown, words[1..], size);
      }
    }
  }

  lemma FlatCons(chunk: seq<string>, rest: seq<seq<string>>)
    ensures Flat([chunk] + rest) == chunk + Flat(rest)
  {
    assert ([chunk] + rest)[1..] == rest;
  }

  /** Every chunk but the last is full; the last one is full, or short and not empty. */
  predicate WellCut(chunks: seq<seq<string>>, size: int) {
    forall i :: 0 <= i < |chunks| ==>
      IsFull(chunks[i], size) || (i == |chunks| - 1 && chunks[i] != [] && IsShort(chunks[i], size))
  }

  lemma WellCutCons(chunk: seq<string>, rest: seq<seq<string>>, size: int)
    requires IsFull(chunk, size) && WellCut(rest, size)
    ensures WellCut([chunk] + rest, size)
  {
    hide IsFull, IsShort;
  }

  lemma {:induction false} ChunksWellCut(current: seq<string>, words: seq<string>, size: int)
    requires IsShort(current, size)
    ensures WellCut(ChunkWords(current, words, size), size)
    decreases |words|
  {
    hide Joined;
    if words != [] {
      var grown := current + [words[0]];
      assert grown[..|grown| - 1] == current;
      if |Joined(grown)| >= size {
        ChunksWellCut([], words[1..], size);
        WellCutCons(grown, ChunkWords([], words[1..], size), size);
      } else {
        ChunksWellCut(grown, words[1..], size);
      }
    }
  }

  // ---------- the stored chunks hold the same words ----------

  predicate IsWord(w: string) { w != "" && forall c :: c in w ==> !IsPySpace(c) }

  lemma {:induction false} WordsAreWords(s: string)
    ensures forall w :: w in Words(s) ==> IsWord(w)
    decreases |s|
  {
    var t := DropLeft(IsPySpace, s);
    DropLeftSpec(IsPySpace, s);
    if t != "" {
      WordEndSpec(t);
      var k := WordEnd(t);
      WordsAreWords(t[k..]);
      assert Words(s) == [t[..k]] + Words(t[k..]);
    }
  }

  lemma {:induction false} WordEndSpec(s: string)
    ensures forall i :: 0 <= i < WordEnd(s) ==> !IsPySpace(s[i])
    ensures WordEnd(s) < |s| ==> IsPySpace(s[WordEnd(s)])
    ensures s != "" && !IsPySpace(s[0]) ==> WordEnd(s) > 0
  {
    if s != "" && !IsPySpace(s[0]) { WordEndSpec(s[1..]); }
  }

  lemma {:induction false} WordEndOf(w: string, tail: string)
    requires forall c :: c in w ==> !IsPySpace(c)
    requires tail != "" ==> IsPySpace(tail[0])
    ensures WordEnd(w + tail) == |w|
  {
    if w == "" {
      assert w + tail == tail;
    } else {
      assert (w + tail)[1..] == w[1..] + tail && w[0] in w;
      assert forall c :: c in w[1..] ==> c in w;
      WordEndOf(w[1..], tail);
    }
  }

  lemma FirstWord(w: string, tail: string)
    requires IsWord(w) && (tail != "" ==> IsPySpace(tail[0]))
    ensures Words(w + tail) == [w] + Words(tail)
  {
    WordEndOf(w, tail);
    assert w[0] in w && (w + tail)[0] == w[0];
    assert (w + tail)[..|w|] == w && (w + tail)[|w|..] == tail;
  }

  lemma BlankFirst(s: string)
    ensures Words(" " + s) == Words(s)
  {
    assert (" " + s)[1..] == s;
  }

  /** Splitting a stored chunk gives back its words. */
  lemma {:induction false} JoinedSplits(words: seq<string>)
    requires forall w :: w in words ==> IsWord(w)
    ensures Words(Joined(words)) == words
  {
    hide Words;
    if words == [] {
      assert Words("") == [] by { NoWords(); }
    } else {
      assert words[0] in words && words == [words[0]] + words[1..];
      if |words| == 1 {
        FirstWord(words[0], "");
        NoWords();
        assert words[0] + "" == words[0] == Joined(words);
      } else {
        var rest := Joined(words[1..]);
        JoinedSplits(words[1..]);
        FirstWord(words[0], " " + rest);
        BlankFirst(rest);
        assert Joined(words) == words[0] + (" " + rest);
      }
    }
  }

  lemma NoWords()
    ensures Words("") == []
  {
  }

  function AllWords(chunks: seq<string>): seq<string> {
    if chunks == [] then [] else Words(chunks[0]) + AllWords(chunks[1..])
  }

  /** The words of the stored chunks, one after another, are the words of the text. */
  lemma StoredWords(text: string, size: int)
    ensures AllWords(JoinAll(ChunkWords([], Words(text), size))) == Words(text)
  {
    hide Words, Joined, ChunkWords;
    WordsAreWords(text);
    ChunksConserve([], Words(text), size);
    assert [] + Words(text) == Words(text);
    AllWordsFlat(ChunkWords([], Words(text), size));
  }

  lemma {:induction false} AllWordsFlat(chunks: seq<seq<string>>)
    requires forall w :: w in Flat(chunks) ==> IsWord(w)
    ensures AllWords(JoinAll(chunks)) == Flat(chunks)
  {
    hide Words, Joined, IsWord;
    if chunks != [] {
      assert forall w :: w in chunks[0] ==> w in Flat(chunks);
      assert forall w :: w in Flat(chunks[1..]) ==> w in Flat(chunks);
      JoinedSplits(chunks[0]);
      AllWordsFlat(chunks[1..]);
      assert JoinAll(chunks)[1..] == JoinAll(chunks[1..]);
    }
  }
}

/** How the body is cut into chunks does not matter, exactly as long as no cut falls inside CR LF. */
module SseChunks {
  import opened Text
  import opened SseFramer

  // ---------- normalisation across a seam ----------

  predicate EndsCr(s: string) { s != "" && Last(s) == '\r' }

  predicate StartsLf(s: string) { s != "" && s[0] == '\n' }

  lemma NormalizeStep(s: string)
    requires s != ""
    ensures Normalize(s) == if |s| > 1 && s[0] == '\r' && s[1] == '\n' then "\n" + Normalize(s[2..])
                            else [if s[0] == '\r' then '\n' else s[0]] + Normalize(s[1..])
  {
    if |s| > 1 && s[0] == '\r' && s[1] == '\n' {
      var t := ReplaceCrLf(s[2..]);
      assert ("\n" + t)[1..] == t;
    } else {
      var t := ReplaceCrLf(s[1..]);
      assert ([s[0]] + t)[1..] == t;
    }
  }

  lemma NormalizeSeam(c: char, b: string)
    ensures StartsLf(b) ==> Normalize(b) == "\n" + Normalize(b[1..])
    ensures Normalize([c] + b) == Normalize([c]) + AfterSeam([c], b)
  {
    hide Normalize;
    EmptyNormalizes();
    NormalizeStep([c]);
    NormalizeStep([c] + b);
    assert ([c] + b)[1..] == b && [c][1..] == "";
    if b != "" {
      NormalizeStep(b);
      assert ([c] + b)[2..] == b[1..];
    }
  }

  /** What `Normalize` of the seam's right side contributes. */
  function AfterSeam(a: string, b: string): string {
    if EndsCr(a) && StartsLf(b) then Normalize(b[1..]) else Normalize(b)
  }

  lemma NormalizeHead(h: string, t: string)
    requires h == "\r\n" || (|h| == 1 && !(h[0] == '\r' && StartsLf(t)))
    ensures Normalize(h + t) == Normalize(h) + Normalize(t) && |Normalize(h)| == 1
  {
    hide Normalize;
    EmptyNormalizes();
    NormalizeStep(h);
    NormalizeStep(h + t);
    assert (h + t)[|h|..] == t && h[|h|..] == "";
  }

  /** Concatenation loses one line feed at a seam that cuts CR LF, and nothing elsewhere. */
  lemma {:induction false} NormalizeJoin(a: string, b: string)
    ensures StartsLf(b) ==> Normalize(b) == "\n" + Normalize(b[1..])
    ensures Normalize(a + b) == Normalize(a) + AfterSeam(a, b)
    decreases |a|
  {
    hide Normalize;
    EmptyNormalizes();
    NormalizeSeam('x', b);
    if a == "" {
      assert a + b == b;
    } else if |a| == 1 {
      assert a == [a[0]];
      NormalizeSeam(a[0], b);
    } else {
      var n := if a[0] == '\r' && a[1] == '\n' then 2 else 1;
      var h, t := a[..n], a[n..];
      assert a == h + t && a + b == h + (t + b);
      NormalizeHead(h, t);
      NormalizeHead(h, t + b);
      NormalizeJoin(t, b);
      assert EndsCr(t) <==> EndsCr(a);
    }
  }

  lemma EmptyNormalizes()
    ensures Normalize("") == ""
  {
  }

  lemma {:induction false} NormalizeClean(s: string)
    ensures '\r' !in Normalize(s)
    ensures '\r' !in s ==> Normalize(s) == s
    decreases |s|
  {
    hide Normalize;
    if s == "" {
      EmptyNormalizes();
    } else {
      NormalizeStep(s);
      if |s| > 1 && s[0] == '\r' && s[1] == '\n' {
        NormalizeClean(s[2..]);
      } else {
        NormalizeClean(s[1..]);
      }
    }
  }

  // ---------- the text the splitter sees ----------

  function Concat(chunks: seq<string>): string {
    if chunks == [] then "" else chunks[0] + Concat(chunks[1..])
  }

  /** Each chunk normalised on its own. */
  function Fed(chunks: seq<string>): string {
    if chunks == [] then "" else Normalize(chunks[0]) + Fed(chunks[1..])
  }

  /** No chunk starts with the LF of a CR that ended what came before it. */
  predicate CleanCuts(before: string, chunks: seq<string>)
    decreases |chunks|
  {
    chunks == []
    || (!(EndsCr(before) && StartsLf(chunks[0])) && CleanCuts(before + chunks[0], chunks[1..]))
  }

  /** The text the splitter sees is never shorter than the normalised body. */
  predicate FedAgainst(fed: string, whole: string, clean: bool) {
    if clean then fed == whole else |fed| > |whole|
  }

  lemma {:induction false} FedLength(before: string, chunks: seq<string>)
    ensures FedAgainst(Normalize(before) + Fed(chunks), Normalize(before + Concat(chunks)), CleanCuts(before, chunks))
    decreases |chunks|
  {
    if chunks == [] {
      assert before + Concat(chunks) == before && Normalize(before) + "" == Normalize(before);
    } else {
      hide Normalize, EndsCr, StartsLf, Concat, Fed;
      var c, rest := chunks[0], chunks[1..];
      FedStep(chunks);
      NormalizeJoin(before, c);
      FedLength(before + c, rest);
      assert before + (c + Concat(rest)) == (before + c) + Concat(rest);
      SeamLength(Normalize(before), Normalize(c), Fed(rest), Normalize(before + c), AfterSeam(before, c));
    }
  }

  lemma FedStep(chunks: seq<string>)
    requires chunks != []
    ensures Fed(chunks) == Normalize(chunks[0]) + Fed(chunks[1..])
    ensures Concat(chunks) == chunks[0] + Concat(chunks[1..])
  {
    hide Normalize;
  }

  lemma SeamLength(n: string, c: string, fed: string, joined: string, after: string)
    requires joined == n + after
    ensures after == c ==> n + (c + fed) == joined + fed
    ensures c == "\n" + after ==> |n + (c + fed)| > |joined + fed|
  {
  }

  /** The splitter is fed the normalised body if and only if no cut falls inside CR LF. */
  lemma FedExactlyWhenCutsClean(chunks: seq<string>)
    ensures Fed(chunks) == Normalize(Concat(chunks)) <==> CleanCuts("", chunks)
  {
    FedLength("", chunks);
    EmptyNormalizes();
    assert "" + Concat(chunks) == Concat(chunks) && "" + Fed(chunks) == Fed(chunks);
  }

  // ---------- splitting incrementally ----------

  lemma {:induction false} BlankAtAppend(s: string, t: string)
    requires BlankAt(s) < |s|
    ensures BlankAt(s + t) == BlankAt(s)
    decreases |s|
  {
    if !(s[0] == '\n' && s[1] == '\n') {
      assert (s + t)[1..] == s[1..] + t;
      BlankAtAppend(s[1..], t);
    }
  }

  lemma SplitStep(s: string)
    ensures var k := BlankAt(s);
            SplitBlank(s) == if k == |s| then [s] else [s[..k]] + SplitBlank(s[k + 2..])
  {
    hide BlankAt;
  }

  /** Frames cut from a prefix stay cut; only the rest is read again with what follows. */
  lemma {:induction false} SplitAppend(s: string, t: string)
    ensures SplitBlank(s + t) == Init(SplitBlank(s)) + SplitBlank(Last(SplitBlank(s)) + t)
    ensures BlankAt(Last(SplitBlank(s))) == |Last(SplitBlank(s))|
    decreases |s|
  {
    hide SplitBlank, BlankAt;
    SplitStep(s);
    var k := BlankAt(s);
    if k == |s| {
      assert Init([s]) == [];
    } else {
      var u := s[k + 2..];
      BlankAtAppend(s, t);
      SplitStep(s + t);
      assert (s + t)[..k] == s[..k] && (s + t)[k + 2..] == u + t;
      SplitAppend(u, t);
      var parts := SplitBlank(u);
      assert Init([s[..k]] + parts) == [s[..k]] + Init(parts) && Last([s[..k]] + parts) == Last(parts);
    }
  }

  lemma {:induction false} LastIsTail(s: string)
    ensures |Last(SplitBlank(s))| <= |s| && Last(SplitBlank(s)) == s[|s| - |Last(SplitBlank(s))|..]
    decreases |s|
  {
    hide SplitBlank, BlankAt;
    SplitStep(s);
    var k := BlankAt(s);
    if k < |s| {
      LastIsTail(s[k + 2..]);
      var parts := SplitBlank(s[k + 2..]);
      assert Last([s[..k]] + parts) == Last(parts);
    }
  }

  lemma {:induction false} PacketsConcat(a: seq<string>, b: seq<string>)
    ensures PacketsOf(a + b) == PacketsOf(a) + PacketsOf(b)
  {
    hide ParseSse;
    if a == [] {
      assert a + b == b;
    } else {
      assert (a + b)[1..] == a[1..] + b;
      PacketsConcat(a[1..], b);
    }
  }

  /** The packets of a normalised body that arrives in one piece. */
  function PacketsIn(text: string): seq<Packet> {
    PacketsOf(Init(SplitBlank(text))) + AtEnd(Last(SplitBlank(text)))
  }

  lemma ReadStep(chunks: seq<string>, buffer: string)
    requires chunks != []
    ensures var parts := SplitBlank(Normalize(buffer + chunks[0]));
            Read(chunks, buffer) == PacketsOf(Init(parts)) + Read(chunks[1..], Last(parts))
  {
    hide SplitBlank, Normalize, PacketsOf;
  }

  lemma BufferJoin(buffer: string, c: string)
    requires '\r' !in buffer
    ensures Normalize(buffer + c) == buffer + Normalize(c) && '\r' !in buffer + Normalize(c)
  {
    hide Normalize;
    NormalizeClean(c);
    NormalizeClean(buffer);
    NormalizeJoin(buffer, c);
    assert !EndsCr(buffer);
  }

  lemma PacketsInAppend(s: string, t: string)
    ensures PacketsIn(s + t)
            == PacketsOf(Init(SplitBlank(s))) + PacketsIn(Last(SplitBlank(s)) + t)
  {
    hide SplitBlank, PacketsOf, AtEnd, BlankAt;
    SplitAppend(s, t);
    var parts := SplitBlank(s);
    var tail := SplitBlank(Last(parts) + t);
    assert Init(Init(parts) + tail) == Init(parts) + Init(tail) && Last(Init(parts) + tail) == Last(tail);
    PacketsConcat(Init(parts), Init(tail));
  }

  lemma CleanLast(s: string)
    requires '\r' !in s
    ensures '\r' !in Last(SplitBlank(s))
  {
    hide SplitBlank;
    LastIsTail(s);
  }

  lemma {:induction false} ReadIsFed(chunks: seq<string>, buffer: string)
    requires '\r' !in buffer && BlankAt(buffer) == |buffer|
    ensures Read(chunks, buffer) == PacketsIn(buffer + Fed(chunks))
    decreases |chunks|
  {
    if chunks == [] {
      hide PacketsOf, AtEnd, BlankAt;
      assert buffer + Fed(chunks) == buffer;
      SplitStep(buffer);
      NoPackets();
      assert Init([buffer]) == [];
    } else {
      hide *;
      var n, rest := Normalize(chunks[0]), chunks[1..];
      ReadStep(chunks, buffer);
      FedStep(chunks);
      BufferJoin(buffer, chunks[0]);
      var parts := SplitBlank(buffer + n);
      SplitAppend(buffer + n, "");
      CleanLast(buffer + n);
      ReadIsFed(rest, Last(parts));
      PacketsInAppend(buffer + n, Fed(rest));
      assert buffer + (n + Fed(rest)) == (buffer + n) + Fed(rest);
    }
  }

  lemma NoPackets()
    ensures PacketsOf([]) == [] && Init([""]) == []
  {
  }

  /** Chunk independence: any cutting of the body that spares CR LF pairs yields the packets of the whole. */
  lemma ChunksIrrelevant(chunks: seq<string>)
    requires CleanCuts("", chunks)
    ensures Read(chunks, "") == PacketsIn(Normalize(Concat(chunks)))
  {
    FedExactlyWhenCutsClean(chunks);
    ReadIsFed(chunks, "");
    assert "" + Fed(chunks) == Fed(chunks);
  }
}

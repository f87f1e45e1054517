/** The incremental server-sent-events reader of the chat client (web/hooks/use-chat-stream.ts). */
module SseFramer {
  import opened Text

  /** What `parseSse` hands to `parseStreamEvent`. */
  datatype Packet = Packet(event: string, data: string)

  // ---------- newline normalisation ----------

  /** `s.replace(/\r\n/g, "\n")` */
  function ReplaceCrLf(s: string): string {
    if s == "" then ""
    else if |s| > 1 && s[0] == '\r' && s[1] == '\n' then "\n" + ReplaceCrLf(s[2..])
    else [s[0]] + ReplaceCrLf(s[1..])
  }

  /** `s.replace(/\r/g, "\n")` */
  function ReplaceCr(s: string): string {
    if s == "" then "" else [if s[0] == '\r' then '\n' else s[0]] + ReplaceCr(s[1..])
  }

  function Normalize(s: string): string { ReplaceCr(ReplaceCrLf(s)) }

  // ---------- splitting ----------

  /** The first position of two line feeds in a row, or `|s|`. */
  function BlankAt(s: string): (k: nat)
    ensures k <= |s| && (k < |s| ==> k + 1 < |s| && s[k] == '\n' && s[k + 1] == '\n')
  {
    if |s| < 2 then |s|
    else if s[0] == '\n' && s[1] == '\n' then 0
    else 1 + BlankAt(s[1..])
  }

  /** `s.split("\n\n")` */
  function SplitBlank(s: string): (parts: seq<string>)
    ensures parts != []
    decreases |s|
  {
    var k := BlankAt(s);
    if k == |s| then [s] else [s[..k]] + SplitBlank(s[k + 2..])
  }

  /** `s.split("\n")` */
  function SplitLf(s: string): (lines: seq<string>)
    ensures lines != []
    decreases |s|
  {
    var k := IndexOf('\n', s);
    if k == |s| then [s] else [s[..k]] + SplitLf(s[k + 1..])
  }

  function Init<T>(s: seq<T>): seq<T>
    requires s != []
  {
    s[..|s| - 1]
  }

  function Last<T>(s: seq<T>): T
    requires s != []
  {
    s[|s| - 1]
  }

  // ---------- one frame ----------

  /** The event name and data lines gathered so far. */
  datatype Gathered = Gathered(event: string, data: seq<string>)

  const FRESH := Gathered("message", [])

  function WithoutCr(line: string): string {
    if line != "" && Last(line) == '\r' then Init(line) else line
  }

  function FieldLine(g: Gathered, line: string): Gathered {
    var normalized := WithoutCr(line);
    if "event:" <= normalized then g.(event := Trim(IsJsSpace, normalized[6..]))
    else if "data:" <= normalized then g.(data := g.data + [Trim(IsJsSpace, normalized[5..])])
    else g
  }

  function Gather(g: Gathered, lines: seq<string>): Gathered
    decreases |lines|
  {
    if lines == [] then g else Gather(FieldLine(g, lines[0]), lines[1..])
  }

  function Dispatch(g: Gathered): seq<Packet> {
    if g.data == [] then [] else [Packet(g.event, Join("\n", g.data))]
  }

  /** `parseSse`: no packet, or one. */
  function ParseSse(frame: string): seq<Packet> { Dispatch(Gather(FRESH, SplitLf(frame))) }

  method ParseSseFrame(frame: string) returns (r: Option<Packet>)
    ensures ParseSse(frame) == if r.Some? then [r.value] else []
  {
    var event, dataLines := "message", [];
    var lines := SplitLf(frame);
    for i := 0 to |lines|
      invariant Gather(FRESH, lines) == Gather(Gathered(event, dataLines), lines[i..])
    {
      assert lines[i..][1..] == lines[i + 1..];
      var normalized := WithoutCr(lines[i]);
      if "event:" <= normalized {
        event := Trim(IsJsSpace, normalized[6..]);
      } else if "data:" <= normalized {
        dataLines := dataLines + [Trim(IsJsSpace, normalized[5..])];
      }
    }
    r := if dataLines == [] then None else Some(Packet(event, Join("\n", dataLines)));
  }

  // ---------- the stream ----------

  function PacketsOf(frames: seq<string>): seq<Packet> {
    if frames == [] then [] else ParseSse(frames[0]) + PacketsOf(frames[1..])
  }

  /** What is dispatched when the body ends. */
  function AtEnd(buffer: string): seq<Packet> {
    var leftover := Trim(IsJsSpace, Normalize(buffer));
    if leftover == "" then [] else PacketsOf(SplitBlank(leftover))
  }

  function Read(chunks: seq<string>, buffer: string): seq<Packet> {
    if chunks == [] then AtEnd(buffer)
    else
      var parts := SplitBlank(Normalize(buffer + chunks[0]));
      PacketsOf(Init(parts)) + Read(chunks[1..], Last(parts))
  }

  method EmitFrames(frames: seq<string>) returns (packets: seq<Packet>)
    ensures packets == PacketsOf(frames)
  {
    hide ParseSse;
    packets := [];
    for i := 0 to |frames|
      invariant packets + PacketsOf(frames[i..]) == PacketsOf(frames)
    {
      ghost var before, tail := packets, PacketsOf(frames[i + 1..]);
      assert frames[i..][1..] == frames[i + 1..];
      assert PacketsOf(frames[i..]) == ParseSse(frames[i]) + tail;
      var parsed := ParseSseFrame(frames[i]);
      if parsed.Some? {
        packets := packets + [parsed.value];
      }
      assert packets + tail == before + (ParseSse(frames[i]) + tail);
    }
  }

  /** `readSseStream`: the packets handed on, in order, for a body read as `chunks`. */
  method ReadSseStream(chunks: seq<string>) returns (packets: seq<Packet>)
    ensures packets == Read(chunks, "")
  {
    hide SplitBlank, PacketsOf, Normalize, AtEnd;
    var buffer := "";
    packets := [];
    for i := 0 to |chunks|
      invariant packets + Read(chunks[i..], buffer) == Read(chunks, "")
    {
      ghost var before := packets;
      assert chunks[i..][1..] == chunks[i + 1..];
      var parts := SplitBlank(Normalize(buffer + chunks[i]));
      ghost var tail := Read(chunks[i + 1..], Last(parts));
      assert Read(chunks[i..], buffer) == PacketsOf(Init(parts)) + tail;
      var emitted := EmitFrames(Init(parts));
      packets, buffer := packets + emitted, Last(parts);
      assert packets + tail == before + (emitted + tail);
    }
    var rest := EmitEnd(buffer);
    packets := packets + rest;
  }

  method EmitEnd(buffer: string) returns (packets: seq<Packet>)
    ensures packets == AtEnd(buffer)
  {
    hide PacketsOf, SplitBlank, Normalize;
    packets := [];
    var leftover := Trim(IsJsSpace, Normalize(buffer));
    if leftover != "" {
      packets := EmitFrames(SplitBlank(leftover));
    }
  }
}

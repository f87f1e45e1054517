/** The recorder as a callback handler that updates its buffers in place (app/observability/trace_recorder.py). */
module TraceRecording {
  import opened Text
  import opened Trace

  class TraceRecorder {
    var events: seq<Event>
    var sequence: nat
    var starts: map<Run, int>

    constructor ()
      ensures Now() == FRESH
    {
      events, sequence, starts := [], 0, map[];
    }

    function Now(): State
      reads this
    {
      State(events, sequence, starts)
    }

    method AddEvent(kind: Kind, name: string, input: Option<Payload>, output: Option<Payload>, error: Option<string>)
      modifies this`events, this`sequence
      ensures Now() == Added(old(Now()), kind, name, input, output, error)
    {
      sequence := sequence + 1;
      events := events + [Event(sequence, kind, name, input, output, None, error)];
    }

    /** Scans from the end and updates the first event of the kind it meets. */
    method PatchLast(kind: Kind, output: Option<Payload>, error: Option<string>, latency: Option<int>)
      modifies this`events
      ensures events == PatchAt(old(events), LastOf(old(events), kind), output, error, latency)
    {
      var i := |events|;
      assert events[..i] == events;
      while i > 0 && events[i - 1].kind != kind
        invariant i <= |events| && events == old(events) && LastOf(events, kind) == LastOf(events[..i], kind)
      {
        assert events[..i][..i - 1] == events[..i - 1];
        i := i - 1;
      }
      if i > 0 {
        events := events[i - 1 := Patch(events[i - 1], output, error, latency)];
      }
    }

    method OnStart(kind: Kind, run: Run, name: string, input: Payload, at: int)
      modifies this
      ensures Now() == Apply(old(Now()), Started(kind, run, name, input, at))
    {
      starts := starts[run := at];
      AddEvent(kind, name, Some(input), None, None);
    }

    method OnEnd(kind: Kind, run: Run, output: Option<Payload>, at: int)
      modifies this
      ensures Now() == Apply(old(Now()), Finished(kind, run, output, at))
    {
      hide PatchAt;
      var latency := Elapsed(starts, run, at);
      starts := starts - {run};
      PatchLast(kind, output, None, latency);
    }

    method OnError(kind: Kind, run: Run, error: string, at: int)
      modifies this
      ensures Now() == Apply(old(Now()), Broke(kind, run, error, at))
    {
      hide PatchAt;
      var latency := Elapsed(starts, run, at);
      starts := starts - {run};
      PatchLast(kind, None, Some(error), latency);
    }

    method OnChainError(error: string)
      modifies this
      ensures Now() == Apply(old(Now()), ChainBroke(error))
    {
      AddEvent(NodeUpdate, "chain_error", None, None, Some(error));
    }

    method RecordGraphUpdate(nodes: seq<(string, Payload)>)
      modifies this
      ensures Now() == Apply(old(Now()), Updated(nodes))
    {
      hide Added, INTERRUPT;
      for i := 0 to |nodes|
        invariant UpdatedNodes(old(Now()), nodes) == UpdatedNodes(Now(), nodes[i..])
      {
        assert nodes[i..][0] == nodes[i] && nodes[i..][1..] == nodes[i + 1..];
        if nodes[i].0 == INTERRUPT {
          AddEvent(Guardrail, "interrupt", None, Some(nodes[i].1), None);
        } else {
          AddEvent(NodeUpdate, nodes[i].0, None, Some(nodes[i].1), None);
        }
      }
    }

    method BackfillToolResults(results: seq<ToolResult>)
      modifies this
      ensures Now() == RecordToolResults(old(Now()), results)
    {
      hide Added, ResultName;
      var existing := ToolNames(events);
      for i := 0 to |results|
        invariant RecordToolResults(old(Now()), results) == Backfilled(Now(), existing, results[i..])
      {
        var r := results[i];
        assert results[i..][0] == r && results[i..][1..] == results[i + 1..];
        var name := ResultName(r);
        if name !in existing {
          AddEvent(ToolCall, name, None, r.result, if r.error == Some("") then None else r.error);
          existing := existing + {name};
        }
      }
    }
  }
}

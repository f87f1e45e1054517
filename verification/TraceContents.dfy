/** What each callback writes into the recorder's buffer, and with which times. */
module TraceContents {
  import opened Text
  import opened Trace

  // ---------- the event that is patched ----------

  /** The last event of the kind, if there is one. */
  predicate IsLast(events: seq<Event>, kind: Kind, i: nat) {
    i < |events| && events[i].kind == kind && forall j :: i < j < |events| ==> events[j].kind != kind
  }

  lemma {:induction false} LastOfIs(events: seq<Event>, kind: Kind)
    ensures var i := LastOf(events, kind);
            if i >= 0 then IsLast(events, kind, i) else forall j :: 0 <= j < |events| ==> events[j].kind != kind
  {
    if events != [] { LastOfIs(events[..|events| - 1], kind); }
  }

  lemma OnlyLast(events: seq<Event>, kind: Kind, i: nat)
    requires IsLast(events, kind, i)
    ensures LastOf(events, kind) == i
  {
    LastOfIs(events, kind);
  }

  /** An end: the output if one was given and the run's time since its start; nothing else changes. */
  lemma EndWrites(s: State, kind: Kind, run: Run, output: Option<Payload>, at: int, i: nat)
    requires IsLast(s.events, kind, i)
    ensures var u, e := Apply(s, Finished(kind, run, output, at)), s.events[i];
            && |u.events| == |s.events| && u.sequence == s.sequence && u.starts == s.starts - {run}
            && (forall j :: 0 <= j < |s.events| && j != i ==> u.events[j] == s.events[j])
            && (u.events[i].sequence, u.events[i].kind, u.events[i].name, u.events[i].input, u.events[i].error)
               == (e.sequence, e.kind, e.name, e.input, e.error)
            && u.events[i].output == (if output.Some? then output else e.output)
            && u.events[i].latency == (if run in s.starts then Some(at - s.starts[run]) else e.latency)
  {
    OnlyLast(s.events, kind, i);
  }

  /** An error: its text, and the same time; the output stays. */
  lemma ErrorWrites(s: State, kind: Kind, run: Run, error: string, at: int, i: nat)
    requires IsLast(s.events, kind, i)
    ensures var u, e := Apply(s, Broke(kind, run, error, at)), s.events[i];
            && |u.events| == |s.events| && u.sequence == s.sequence && u.starts == s.starts - {run}
            && (forall j :: 0 <= j < |s.events| && j != i ==> u.events[j] == s.events[j])
            && (u.events[i].sequence, u.events[i].kind, u.events[i].name, u.events[i].input, u.events[i].output)
               == (e.sequence, e.kind, e.name, e.input, e.output)
            && u.events[i].error == Some(error)
            && u.events[i].latency == (if run in s.starts then Some(at - s.starts[run]) else e.latency)
  {
    OnlyLast(s.events, kind, i);
  }

  /** An end or an error of a kind that was never started only forgets the run. */
  lemma StrayEnd(s: State, kind: Kind, run: Run, output: Option<Payload>, error: string, at: int)
    requires forall j :: 0 <= j < |s.events| ==> s.events[j].kind != kind
    ensures Apply(s, Finished(kind, run, output, at)) == s.(starts := s.starts - {run})
    ensures Apply(s, Broke(kind, run, error, at)) == s.(starts := s.starts - {run})
  {
    LastOfIs(s.events, kind);
  }

  // ---------- the events that are added ----------

  /** A start adds the event without output and remembers the time; an error of a chain adds its text. */
  lemma StartWrites(s: State, kind: Kind, run: Run, name: string, input: Payload, at: int, error: string)
    ensures Apply(s, Started(kind, run, name, input, at))
            == State(s.events + [Event(s.sequence + 1, kind, name, Some(input), None, None, None)], s.sequence + 1,
                     s.starts[run := at])
    ensures Apply(s, ChainBroke(error))
            == State(s.events + [Event(s.sequence + 1, NodeUpdate, "chain_error", None, None, None, Some(error))],
                     s.sequence + 1, s.starts)
  {
  }

  /** The event of one node in a graph update: its delta, under its name, or a pending interrupt as a guardrail. */
  predicate IsUpdateOf(e: Event, node: (string, Payload)) {
    && e.input.None? && e.output == Some(node.1) && e.latency.None? && e.error.None?
    && (node.0 == "__interrupt__" ==> e.kind == Guardrail && e.name == "interrupt")
    && (node.0 != "__interrupt__" ==> e.kind == NodeUpdate && e.name == node.0)
  }

  lemma {:induction false} UpdateWrites(s: State, nodes: seq<(string, Payload)>)
    ensures var u := Apply(s, Updated(nodes));
            && |u.events| == |s.events| + |nodes| && s.events <= u.events && u.starts == s.starts
            && forall k :: 0 <= k < |nodes| ==> IsUpdateOf(u.events[|s.events| + k], nodes[k])
    decreases |nodes|
  {
    if nodes != [] {
      var n := nodes[0];
      var next := if n.0 == INTERRUPT then Added(s, Guardrail, "interrupt", None, Some(n.1), None)
                  else Added(s, NodeUpdate, n.0, None, Some(n.1), None);
      assert IsUpdateOf(next.events[|s.events|], n);
      UpdateWrites(next, nodes[1..]);
      hide Added, IsUpdateOf, INTERRUPT;
      var u := Apply(s, Updated(nodes));
      assert u == Apply(next, Updated(nodes[1..]));
      forall k | 0 <= k < |nodes| ensures IsUpdateOf(u.events[|s.events| + k], nodes[k]) {
        if k > 0 { assert nodes[k] == nodes[1..][k - 1]; }
      }
    }
  }

  // ---------- times ----------

  /** When a run was started last. */
  function LastStartOf(trace: seq<Callback>, run: Run): Option<int> {
    if trace == [] then None
    else
      var c := trace[|trace| - 1];
      if c.Started? && c.run == run then Some(c.at) else LastStartOf(trace[..|trace| - 1], run)
  }

  /** The time kept for an open run is that of its last start, so a latency is the time since then. */
  lemma {:induction false} StartTimeIs(trace: seq<Callback>, run: Run)
    requires run in Replay(trace).starts
    ensures LastStartOf(trace, run) == Some(Replay(trace).starts[run])
  {
    var init, c := trace[..|trace| - 1], trace[|trace| - 1];
    if c.Updated? { UpdatedStarts(Replay(init), c.nodes); }
    hide UpdatedNodes, PatchAt;
    if !(c.Started? && c.run == run) { StartTimeIs(init, run); }
  }

  // ---------- backfilled results ----------

  /** A result without a tool is recorded as unknown. */
  lemma ResultNamed(r: ToolResult)
    ensures ResultName(r) == "unknown" <==> r.tool in {"", "unknown"}
    ensures r.tool != "" ==> ResultName(r) == r.tool
  {
  }

  /** The first result of a name. */
  predicate IsFirstOf(results: seq<ToolResult>, r: ToolResult, name: string) {
    exists k :: 0 <= k < |results| && results[k] == r && ResultName(r) == name
      && forall j :: 0 <= j < k ==> ResultName(results[j]) != name
  }

  /** A backfilled event says what the first result of its name says; an empty error is none. */
  predicate IsBackfill(e: Event, results: seq<ToolResult>) {
    exists r :: r in results && IsFirstOf(results, r, e.name)
      && e.kind == ToolCall && e.input.None? && e.latency.None? && e.output == r.result
      && e.error == if r.error == Some("") then None else r.error
  }

  lemma MoreResults(e: Event, first: ToolResult, rest: seq<ToolResult>)
    requires IsBackfill(e, rest) && ResultName(first) != e.name
    ensures IsBackfill(e, [first] + rest)
  {
    hide ResultName;
    var r :| r in rest && IsFirstOf(rest, r, e.name) && e.kind == ToolCall && e.input.None? && e.latency.None? && e.output == r.result
             && e.error == if r.error == Some("") then None else r.error;
    var k :| 0 <= k < |rest| && rest[k] == r && ResultName(r) == e.name
             && forall j :: 0 <= j < k ==> ResultName(rest[j]) != e.name;
    var all := [first] + rest;
    assert all[k + 1] == r && forall j :: 0 < j < k + 1 ==> all[j] == rest[j - 1];
    assert IsFirstOf(all, r, e.name);
  }

  lemma FirstResult(first: ToolResult, rest: seq<ToolResult>, e: Event)
    requires e.name == ResultName(first) && e.kind == ToolCall && e.input.None? && e.latency.None?
    requires e.output == first.result && e.error == if first.error == Some("") then None else first.error
    ensures IsBackfill(e, [first] + rest)
  {
    hide ResultName;
    assert ([first] + rest)[0] == first;
    assert IsFirstOf([first] + rest, first, e.name);
  }

  lemma {:induction false} BackfillWrites(s: State, existing: set<string>, results: seq<ToolResult>)
    ensures var t := Backfilled(s, existing, results);
            && s.events <= t.events
            && forall i :: |s.events| <= i < |t.events| ==>
                 t.events[i].name !in existing && IsBackfill(t.events[i], results)
    decreases |results|
  {
    if results != [] {
      var r, rest := results[0], results[1..];
      var name := ResultName(r);
      assert results == [r] + rest;
      var t := Backfilled(s, existing, results);
      if name in existing {
        BackfillWrites(s, existing, rest);
        hide Backfilled, IsBackfill;
        forall i | |s.events| <= i < |t.events| ensures IsBackfill(t.events[i], results) {
          MoreResults(t.events[i], r, rest);
        }
      } else {
        var u := Added(s, ToolCall, name, None, r.result, if r.error == Some("") then None else r.error);
        BackfillWrites(u, existing + {name}, rest);
        FirstResult(r, rest, u.events[|s.events|]);
        hide Backfilled, IsBackfill;
        forall i | |s.events| <= i < |t.events| ensures t.events[i].name !in existing && IsBackfill(t.events[i], results) {
          if i == |s.events| { assert t.events[i] == u.events[i]; } else { MoreResults(t.events[i], r, rest); }
        }
      }
    }
  }
}

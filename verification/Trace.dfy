/** The trace recorder: buffered events, open runs and patches (app/observability/trace_recorder.py). */
module Trace {
  import opened Text

  datatype Kind = Llm | ToolCall | Retrieval | NodeUpdate | Guardrail

  /** Payloads are opaque; `Run` names a callback's run. */
  type Payload = string
  type Run = nat

  datatype Event = Event(sequence: nat, kind: Kind, name: string, input: Option<Payload>, output: Option<Payload>,
                         latency: Option<int>, error: Option<string>)

  datatype State = State(events: seq<Event>, sequence: nat, starts: map<Run, int>)

  const FRESH := State([], 0, map[])

  /** A callback with the clock's reading where the handler reads it. */
  datatype Callback =
    | Started(kind: Kind, run: Run, name: string, input: Payload, at: int)
    | Finished(kind: Kind, run: Run, output: Option<Payload>, at: int)
    | Broke(kind: Kind, run: Run, error: string, at: int)
    | ChainBroke(error: string)
    | Updated(nodes: seq<(string, Payload)>)

  const INTERRUPT := "__interrupt__"

  // ---------- one callback ----------

  function Added(s: State, kind: Kind, name: string, input: Option<Payload>, output: Option<Payload>,
                 error: Option<string>): State
  {
    s.(events := s.events + [Event(s.sequence + 1, kind, name, input, output, None, error)], sequence := s.sequence + 1)
  }

  /** The last event of a kind. */
  function LastOf(events: seq<Event>, kind: Kind): (i: int)
    ensures -1 <= i < |events| && (i >= 0 ==> events[i].kind == kind)
  {
    if events == [] then -1
    else if events[|events| - 1].kind == kind then |events| - 1
    else LastOf(events[..|events| - 1], kind)
  }

  function Patch(e: Event, output: Option<Payload>, error: Option<string>, latency: Option<int>): Event {
    e.(output := if output.Some? then output else e.output, error := if error.Some? then error else e.error,
       latency := if latency.Some? then latency else e.latency)
  }

  function PatchAt(events: seq<Event>, i: int, output: Option<Payload>, error: Option<string>, latency: Option<int>)
    : seq<Event>
    requires -1 <= i < |events|
  {
    if i < 0 then events else events[i := Patch(events[i], output, error, latency)]
  }

  function Elapsed(starts: map<Run, int>, run: Run, at: int): Option<int> {
    if run in starts then Some(at - starts[run]) else None
  }

  /** An end or an error: the run's start time is dropped and the last event of its kind is patched. */
  function Closed(s: State, kind: Kind, run: Run, output: Option<Payload>, error: Option<string>, at: int): State {
    State(PatchAt(s.events, LastOf(s.events, kind), output, error, Elapsed(s.starts, run, at)), s.sequence,
          s.starts - {run})
  }

  function UpdatedNodes(s: State, nodes: seq<(string, Payload)>): State
    decreases |nodes|
  {
    if nodes == [] then s
    else
      var n := nodes[0];
      UpdatedNodes(if n.0 == INTERRUPT then Added(s, Guardrail, "interrupt", None, Some(n.1), None)
                   else Added(s, NodeUpdate, n.0, None, Some(n.1), None), nodes[1..])
  }

  function Apply(s: State, c: Callback): State {
    match c
    case Started(kind, run, name, input, at) =>
      Added(s.(starts := s.starts[run := at]), kind, name, Some(input), None, None)
    case Finished(kind, run, output, at) => Closed(s, kind, run, output, None, at)
    case Broke(kind, run, error, at) => Closed(s, kind, run, None, Some(error), at)
    case ChainBroke(error) => Added(s, NodeUpdate, "chain_error", None, None, Some(error))
    case Updated(nodes) => UpdatedNodes(s, nodes)
  }

  function Replay(trace: seq<Callback>): State {
    if trace == [] then FRESH else Apply(Replay(trace[..|trace| - 1]), trace[|trace| - 1])
  }

  // ---------- sequence numbers ----------

  predicate Numbered(s: State) {
    s.sequence == |s.events| && forall i :: 0 <= i < |s.events| ==> s.events[i].sequence == i + 1
  }

  lemma {:induction false} UpdatedNumbered(s: State, nodes: seq<(string, Payload)>)
    requires Numbered(s)
    ensures Numbered(UpdatedNodes(s, nodes))
    decreases |nodes|
  {
    if nodes != [] {
      var n := nodes[0];
      UpdatedNumbered(if n.0 == INTERRUPT then Added(s, Guardrail, "interrupt", None, Some(n.1), None)
                      else Added(s, NodeUpdate, n.0, None, Some(n.1), None), nodes[1..]);
    }
  }

  lemma ApplyNumbered(s: State, c: Callback)
    requires Numbered(s)
    ensures Numbered(Apply(s, c))
  {
    hide UpdatedNodes;
    if c.Updated? { UpdatedNumbered(s, c.nodes); }
  }

  /** Sequence numbers are one to the number of events, in order, whatever callbacks come. */
  lemma {:induction false} ReplayNumbered(trace: seq<Callback>)
    ensures Numbered(Replay(trace))
  {
    hide Numbered, Apply;
    if trace == [] {
      FreshNumbered();
    } else {
      ReplayNumbered(trace[..|trace| - 1]);
      ApplyNumbered(Replay(trace[..|trace| - 1]), trace[|trace| - 1]);
    }
  }

  lemma FreshNumbered()
    ensures Numbered(FRESH)
  {
  }

  // ---------- open runs ----------

  /** A run is open when it was started after it last ended. */
  predicate IsOpen(trace: seq<Callback>, run: Run) {
    if trace == [] then false
    else
      var c := trace[|trace| - 1];
      if c.Started? && c.run == run then true
      else if (c.Finished? || c.Broke?) && c.run == run then false
      else IsOpen(trace[..|trace| - 1], run)
  }

  lemma {:induction false} UpdatedStarts(s: State, nodes: seq<(string, Payload)>)
    ensures UpdatedNodes(s, nodes).starts == s.starts
    decreases |nodes|
  {
    if nodes != [] {
      var n := nodes[0];
      UpdatedStarts(if n.0 == INTERRUPT then Added(s, Guardrail, "interrupt", None, Some(n.1), None)
                    else Added(s, NodeUpdate, n.0, None, Some(n.1), None), nodes[1..]);
    }
  }

  /** The start times kept are exactly those of the open runs. */
  lemma {:induction false} StartsAreOpen(trace: seq<Callback>, run: Run)
    ensures run in Replay(trace).starts <==> IsOpen(trace, run)
  {
    if trace != [] {
      StartsAreOpen(trace[..|trace| - 1], run);
      var c := trace[|trace| - 1];
      if c.Updated? { UpdatedStarts(Replay(trace[..|trace| - 1]), c.nodes); }
      hide UpdatedNodes, PatchAt;
    }
  }

  // ---------- whose event is patched ----------

  /** The runs that a callback's events are added for; graph updates and chain errors are nobody's. */
  function OwnersOf(c: Callback): seq<Option<Run>> {
    match c
    case Started(_, run, _, _, _) => [Some(run)]
    case Finished(_, _, _, _) => []
    case Broke(_, _, _, _) => []
    case ChainBroke(_) => [None]
    case Updated(nodes) => seq(|nodes|, i => None)
  }

  /** The run that each event was added for. */
  function Owners(trace: seq<Callback>): seq<Option<Run>> {
    if trace == [] then [] else Owners(trace[..|trace| - 1]) + OwnersOf(trace[|trace| - 1])
  }

  /** The latest run of a kind to start. */
  function LatestStart(trace: seq<Callback>, kind: Kind): Option<Run> {
    if trace == [] then None
    else
      var c := trace[|trace| - 1];
      if c.Started? && c.kind == kind then Some(c.run) else LatestStart(trace[..|trace| - 1], kind)
  }

  lemma LastOfAppend(events: seq<Event>, e: Event, kind: Kind)
    ensures LastOf(events + [e], kind) == if e.kind == kind then |events| else LastOf(events, kind)
  {
    assert (events + [e])[..|events|] == events;
  }

  lemma {:induction false} LastOfSameKinds(a: seq<Event>, b: seq<Event>, kind: Kind)
    requires |a| == |b| && forall i :: 0 <= i < |a| ==> a[i].kind == b[i].kind
    ensures LastOf(a, kind) == LastOf(b, kind)
    decreases |a|
  {
    if a != [] { LastOfSameKinds(a[..|a| - 1], b[..|b| - 1], kind); }
  }

  lemma LastOfPatched(events: seq<Event>, i: int, output: Option<Payload>, error: Option<string>, latency: Option<int>,
                      kind: Kind)
    requires -1 <= i < |events|
    ensures var p := PatchAt(events, i, output, error, latency);
            |p| == |events| && LastOf(p, kind) == LastOf(events, kind)
  {
    LastOfSameKinds(PatchAt(events, i, output, error, latency), events, kind);
  }

  lemma {:induction false} UpdatedLast(s: State, nodes: seq<(string, Payload)>, kind: Kind)
    requires kind in {Llm, ToolCall, Retrieval}
    ensures var u := UpdatedNodes(s, nodes);
            LastOf(u.events, kind) == LastOf(s.events, kind) && |u.events| == |s.events| + |nodes| && s.events <= u.events
    decreases |nodes|
  {
    if nodes != [] {
      var n := nodes[0];
      var next := if n.0 == INTERRUPT then Added(s, Guardrail, "interrupt", None, Some(n.1), None)
                  else Added(s, NodeUpdate, n.0, None, Some(n.1), None);
      LastOfAppend(s.events, next.events[|s.events|], kind);
      UpdatedLast(next, nodes[1..], kind);
    }
  }

  /** The last event of a kind belongs to the latest run of that kind to start. */
  predicate Tracks(s: State, owners: seq<Option<Run>>, latest: Option<Run>, kind: Kind) {
    && |owners| == |s.events|
    && var i := LastOf(s.events, kind);
       if i < 0 then latest.None? else owners[i] == latest != None
  }

  function Later(latest: Option<Run>, c: Callback, kind: Kind): Option<Run> {
    if c.Started? && c.kind == kind then Some(c.run) else latest
  }

  lemma ApplyTracks(s: State, owners: seq<Option<Run>>, latest: Option<Run>, c: Callback, kind: Kind)
    requires Tracks(s, owners, latest, kind) && kind in {Llm, ToolCall, Retrieval}
    ensures Tracks(Apply(s, c), owners + OwnersOf(c), Later(latest, c, kind), kind)
  {
    hide UpdatedNodes, PatchAt, Patch, LastOf;
    match c
    case Started(k, run, name, input, at) =>
      LastOfAppend(s.events, Event(s.sequence + 1, k, name, Some(input), None, None, None), kind);
    case Finished(k, run, output, at) =>
      LastOfPatched(s.events, LastOf(s.events, k), output, None, Elapsed(s.starts, run, at), kind);
    case Broke(k, run, error, at) =>
      LastOfPatched(s.events, LastOf(s.events, k), None, Some(error), Elapsed(s.starts, run, at), kind);
    case ChainBroke(error) =>
      LastOfAppend(s.events, Event(s.sequence + 1, NodeUpdate, "chain_error", None, None, None, Some(error)), kind);
    case Updated(nodes) => UpdatedLast(s, nodes, kind);
  }

  /** Whatever the trace, an end or error of a kind patches the event of the latest run of that kind to start. */
  lemma {:induction false} PatchesLatestStart(trace: seq<Callback>, kind: Kind)
    requires kind in {Llm, ToolCall, Retrieval}
    ensures Tracks(Replay(trace), Owners(trace), LatestStart(trace, kind), kind)
  {
    hide Apply, OwnersOf;
    if trace != [] {
      var init, c := trace[..|trace| - 1], trace[|trace| - 1];
      PatchesLatestStart(init, kind);
      ApplyTracks(Replay(init), Owners(init), LatestStart(init, kind), c, kind);
      hide Tracks;
      assert LatestStart(trace, kind) == Later(LatestStart(init, kind), c, kind);
    }
  }

  // ---------- traces whose runs of a kind do not overlap ----------

  /** The run of a kind in progress, on a trace whose runs of a kind follow one another. */
  function InProgress(trace: seq<Callback>, kind: Kind): Option<Run> {
    if trace == [] then None
    else
      var c := trace[|trace| - 1];
      if c.Started? && c.kind == kind then Some(c.run)
      else if (c.Finished? || c.Broke?) && c.kind == kind then None
      else InProgress(trace[..|trace| - 1], kind)
  }

  predicate NonOverlapping(trace: seq<Callback>) {
    trace == []
    || (NonOverlapping(trace[..|trace| - 1])
        && var init, c := trace[..|trace| - 1], trace[|trace| - 1];
           && (c.Started? ==> InProgress(init, c.kind).None?)
           && (c.Finished? || c.Broke? ==> InProgress(init, c.kind) == Some(c.run)))
  }

  lemma {:induction false} InProgressIsLatest(trace: seq<Callback>, kind: Kind)
    requires InProgress(trace, kind).Some?
    ensures LatestStart(trace, kind) == InProgress(trace, kind)
  {
    var c := trace[|trace| - 1];
    if !(c.Started? && c.kind == kind) { InProgressIsLatest(trace[..|trace| - 1], kind); }
  }

  /** Where runs of a kind do not overlap, every end and every error patches the event of its own start. */
  lemma EndsPatchTheirStart(trace: seq<Callback>, c: Callback)
    requires NonOverlapping(trace + [c]) && (c.Finished? || c.Broke?) && c.kind in {Llm, ToolCall, Retrieval}
    ensures |Owners(trace)| == |Replay(trace).events|
    ensures var i := LastOf(Replay(trace).events, c.kind); i >= 0 && Owners(trace)[i] == Some(c.run)
  {
    assert (trace + [c])[..|trace|] == trace;
    InProgressIsLatest(trace, c.kind);
    PatchesLatestStart(trace, c.kind);
  }

  /** An end patches its own event exactly when no other run of its kind has started since. */
  lemma PatchesOwnIff(trace: seq<Callback>, kind: Kind, run: Run)
    requires kind in {Llm, ToolCall, Retrieval}
    ensures |Owners(trace)| == |Replay(trace).events|
    ensures var i := LastOf(Replay(trace).events, kind);
            i >= 0 && Owners(trace)[i] == Some(run) <==> LatestStart(trace, kind) == Some(run)
  {
    PatchesLatestStart(trace, kind);
  }

  lemma ReplayNext(trace: seq<Callback>, c: Callback)
    ensures Replay(trace + [c]) == Apply(Replay(trace), c)
  {
    assert (trace + [c])[..|trace|] == trace;
  }

  /** A tool that calls a tool: the outer end patches the inner event, and the outer event is left without an output. */
  lemma NestedPatchesInner(outer: Run, inner: Run, input: Payload, first: Payload, second: Payload)
    requires outer != inner
    ensures var trace := [Started(ToolCall, outer, "create_refund_request", input, 0)]
                         + [Started(ToolCall, inner, "check_refund_eligibility", input, 1)]
                         + [Finished(ToolCall, inner, Some(first), 2)] + [Finished(ToolCall, outer, Some(second), 3)];
            var events := Replay(trace).events;
            && |events| == 2 && events[0].output == None && events[0].latency == None
            && events[1].output == Some(second) && events[1].latency == Some(3)
  {
    var a := Started(ToolCall, outer, "create_refund_request", input, 0);
    var b := Started(ToolCall, inner, "check_refund_eligibility", input, 1);
    var c := Finished(ToolCall, inner, Some(first), 2);
    var d := Finished(ToolCall, outer, Some(second), 3);
    assert [] + [a] == [a];
    ReplayNext([], a);
    ReplayNext([a], b);
    ReplayNext([a] + [b], c);
    ReplayNext([a] + [b] + [c], d);
  }

  // ---------- backfilling tool results ----------

  datatype ToolResult = ToolResult(tool: string, result: Option<Payload>, error: Option<string>)

  function ResultName(r: ToolResult): string { if r.tool == "" then "unknown" else r.tool }

  function ToolNames(events: seq<Event>): set<string> { set e | e in events && e.kind == ToolCall :: e.name }

  /** `record_tool_results`, given the names already seen. */
  function Backfilled(s: State, existing: set<string>, results: seq<ToolResult>): State
    decreases |results|
  {
    if results == [] then s
    else
      var r := results[0];
      if ResultName(r) in existing then Backfilled(s, existing, results[1..])
      else
        Backfilled(Added(s, ToolCall, ResultName(r), None, r.result, if r.error == Some("") then None else r.error),
                   existing + {ResultName(r)}, results[1..])
  }

  function RecordToolResults(s: State, results: seq<ToolResult>): State { Backfilled(s, ToolNames(s.events), results) }

  function ResultNames(results: seq<ToolResult>): set<string> { set r | r in results :: ResultName(r) }

  lemma AddedTool(s: State, name: string, output: Option<Payload>, error: Option<string>)
    ensures ToolNames(Added(s, ToolCall, name, None, output, error).events) == ToolNames(s.events) + {name}
  {
    var t := Added(s, ToolCall, name, None, output, error);
    assert t.events[|s.events|].name == name && t.events[|s.events|] in t.events;
    forall e | e in s.events ensures e in t.events { }
  }

  /** Each missing name is added once: the new events are tool events of pairwise different, new names. */
  predicate BackfilledWell(s: State, t: State, results: seq<ToolResult>) {
    && Numbered(t) && t.starts == s.starts && s.events <= t.events
    && ToolNames(t.events) == ToolNames(s.events) + ResultNames(results)
    && NewNames(ToolNames(s.events), t.events[|s.events|..])
  }

  lemma {:induction false} BackfillAddsMissing(s: State, results: seq<ToolResult>)
    requires Numbered(s)
    ensures BackfilledWell(s, RecordToolResults(s, results), results)
    decreases |results|
  {
    hide Numbered, BackfilledWell, ToolNames, ResultName;
    if results == [] {
      NothingBackfilled(s);
    } else {
      var r := results[0];
      if ResultName(r) in ToolNames(s.events) {
        BackfillAddsMissing(s, results[1..]);
        KnownSkipped(s, RecordToolResults(s, results), results);
      } else {
        var error := if r.error == Some("") then None else r.error;
        var u := Added(s, ToolCall, ResultName(r), None, r.result, error);
        AddedTool(s, ResultName(r), r.result, error);
        AddedNumbered(s, ResultName(r), r.result, error);
        BackfillAddsMissing(u, results[1..]);
        NewAdded(s, u, RecordToolResults(s, results), results, r.result, error);
      }
    }
  }

  lemma NothingBackfilled(s: State)
    requires Numbered(s)
    ensures BackfilledWell(s, s, [])
  {
    hide Numbered;
    assert s.events[|s.events|..] == [] && ResultNames([]) == {};
  }

  lemma NamesOfCons(results: seq<ToolResult>)
    requires results != []
    ensures ResultNames(results) == {ResultName(results[0])} + ResultNames(results[1..])
  {
    hide ResultName;
    assert results == [results[0]] + results[1..];
  }

  lemma KnownSkipped(s: State, t: State, results: seq<ToolResult>)
    requires results != [] && ResultName(results[0]) in ToolNames(s.events) && BackfilledWell(s, t, results[1..])
    ensures BackfilledWell(s, t, results)
  {
    NamesOfCons(results);
    hide Numbered, NewNames, ToolNames, ResultNames, ResultName;
  }

  lemma NewAdded(s: State, u: State, t: State, results: seq<ToolResult>, output: Option<Payload>, error: Option<string>)
    requires results != [] && ResultName(results[0]) !in ToolNames(s.events) && BackfilledWell(u, t, results[1..])
    requires u == Added(s, ToolCall, ResultName(results[0]), None, output, error)
    requires ToolNames(u.events) == ToolNames(s.events) + {ResultName(results[0])}
    ensures BackfilledWell(s, t, results)
  {
    NamesOfCons(results);
    var seen, name := ToolNames(s.events), ResultName(results[0]);
    var e := Event(s.sequence + 1, ToolCall, name, None, output, None, error);
    assert u.events == s.events + [e];
    hide Numbered, NewNames, ToolNames, ResultNames, ResultName, Added;
    assert seen + {name} + ResultNames(results[1..]) == seen + ({name} + ResultNames(results[1..]));
    RowsAfter(s.events, e, t.events);
    MoreNames(seen, e, t.events[|s.events| + 1..]);
  }

  lemma RowsAfter(before: seq<Event>, e: Event, after: seq<Event>)
    requires before + [e] <= after
    ensures before <= after && after[|before|..] == [e] + after[|before| + 1..]
  {
  }

  /** Tool events of names that are new and pairwise different. */
  predicate NewNames(seen: set<string>, added: seq<Event>) {
    && (forall e :: e in added ==> e.kind == ToolCall && e.name !in seen)
    && (forall i, j :: 0 <= i < j < |added| ==> added[i].name != added[j].name)
  }

  lemma MoreNames(seen: set<string>, e: Event, added: seq<Event>)
    requires e.kind == ToolCall && e.name !in seen && NewNames(seen + {e.name}, added)
    ensures NewNames(seen, [e] + added)
  {
    var all := [e] + added;
    forall i, j | 0 <= i < j < |all| ensures all[i].name != all[j].name {
      assert all[j] == added[j - 1] && added[j - 1] in added;
      if i > 0 { assert all[i] == added[i - 1]; }
    }
  }

  lemma AddedNumbered(s: State, name: string, output: Option<Payload>, error: Option<string>)
    requires Numbered(s)
    ensures Numbered(Added(s, ToolCall, name, None, output, error))
  {
  }

  lemma {:induction false} BackfillOfKnown(s: State, existing: set<string>, results: seq<ToolResult>)
    requires ResultNames(results) <= existing
    ensures Backfilled(s, existing, results) == s
    decreases |results|
  {
    if results != [] {
      assert results[0] in results && ResultName(results[0]) in ResultNames(results);
      forall r | r in results[1..] ensures ResultName(r) in existing { assert ResultName(r) in ResultNames(results); }
      BackfillOfKnown(s, existing, results[1..]);
    }
  }

  /** Recording the same tool results again changes nothing. */
  lemma BackfillIdempotent(s: State, results: seq<ToolResult>)
    requires Numbered(s)
    ensures RecordToolResults(RecordToolResults(s, results), results) == RecordToolResults(s, results)
  {
    BackfillAddsMissing(s, results);
    var t := RecordToolResults(s, results);
    hide Backfilled;
    BackfillOfKnown(t, ToolNames(t.events), results);
  }
}

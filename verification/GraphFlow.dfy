/** The support workflow: its nodes, its wiring and its routing (app/graph/workflow.py, edges.py, nodes.py). */
module GraphFlow {
  import opened Text
  import opened Records
  import opened PolicyEscalation

  datatype Node =
    | InputGuardrails | LoadContext | Supervisor | Billing | Logistics | Account | Escalation | Resolution
    | OutputGuardrails | End

  predicate IsWorker(n: Node) { n in {Billing, Logistics, Account} }

  // ---------- the checkpointed state of a thread ----------

  datatype Decision = Decision(requiresHuman: bool, trigger: Option<Trigger>, insists: bool)

  datatype Intent = BillingIntent | LogisticsIntent | AccountIntent | UnknownIntent

  /** The fields routing depends on keep their last value between turns. */
  datatype Thread = Thread(needsHuman: bool, decision: Option<Decision>, intent: Intent, draft: string,
                           refundSuccess: bool, refundExecuted: bool)

  /** What a worker's tool loop hands back. */
  datatype Work = Work(draft: string, needsHuman: bool, decision: Option<Decision>, refundSuccess: bool,
                       refundExecuted: bool)

  /**
   * Everything a run meets outside the graph: guardrail verdicts, the customer row, the model's answers. What the
   * output guardrails let pass depends on the draft and on whether a refund was executed.
   */
  datatype World = World(flagged: bool, customer: Option<AccountStatus>, intent: Intent, work: Work,
                         validate: (string, bool) -> Option<string>, fails: set<Node>)

  // ---------- routing ----------

  predicate DecisionEscalates(d: Decision) {
    d.requiresHuman || (d.trigger.Some? && ShouldEscalate(d.trigger.value, d.insists).escalate)
  }

  /** `_catalog_requires_escalation` */
  predicate CatalogRequires(t: Thread) { t.needsHuman || (t.decision.Some? && DecisionEscalates(t.decision.value)) }

  datatype Router = AfterSupervisor | AfterWorker

  function RouteAfterSupervisor(t: Thread): Node {
    if CatalogRequires(t) then Escalation
    else match t.intent
      case BillingIntent => Billing
      case LogisticsIntent => Logistics
      case AccountIntent => Account
      case UnknownIntent => Logistics
  }

  function RouteAfterWorker(t: Thread): Node { if CatalogRequires(t) then Escalation else Resolution }

  function Route(r: Router, t: Thread): Node {
    match r
    case AfterSupervisor => RouteAfterSupervisor(t)
    case AfterWorker => RouteAfterWorker(t)
  }

  // ---------- the wiring ----------

  datatype Edge = Always(to: Node) | Branch(router: Router, targets: set<Node>)

  datatype Flow = Flow(entry: Node, nodes: set<Node>, edges: map<Node, Edge>)

  const WORKER_EDGE := Branch(AfterWorker, {Resolution, Escalation})

  const SUPPORT_FLOW := Flow(
    InputGuardrails,
    {InputGuardrails, LoadContext, Supervisor, Billing, Logistics, Account, Escalation, Resolution, OutputGuardrails},
    map[
      InputGuardrails := Always(LoadContext),
      LoadContext := Always(Supervisor),
      Supervisor := Branch(AfterSupervisor, {Billing, Logistics, Account, Escalation}),
      Billing := WORKER_EDGE,
      Logistics := WORKER_EDGE,
      Account := WORKER_EDGE,
      Resolution := Always(OutputGuardrails),
      Escalation := Always(OutputGuardrails),
      OutputGuardrails := Always(End)
    ])

  /** The builder object the wiring is added to. */
  class StateGraph {
    var entry: Node
    var nodes: set<Node>
    var edges: map<Node, Edge>

    constructor ()
      ensures Wiring() == Flow(End, {}, map[])
    {
      entry, nodes, edges := End, {}, map[];
    }

    function Wiring(): Flow
      reads this
    {
      Flow(entry, nodes, edges)
    }

    method AddNode(n: Node)
      modifies this`nodes
      ensures nodes == old(nodes) + {n}
    {
      nodes := nodes + {n};
    }

    method SetEntryPoint(n: Node)
      requires n in nodes
      modifies this`entry
      ensures entry == n
    {
      entry := n;
    }

    method AddEdge(from: Node, to: Node)
      requires from in nodes && from !in edges && (to in nodes || to == End)
      modifies this`edges
      ensures edges == old(edges)[from := Always(to)]
    {
      edges := edges[from := Always(to)];
    }

    method AddConditionalEdges(from: Node, router: Router, targets: set<Node>)
      requires from in nodes && from !in edges && targets <= nodes
      modifies this`edges
      ensures edges == old(edges)[from := Branch(router, targets)]
    {
      edges := edges[from := Branch(router, targets)];
    }
  }

  method AddSupportNodes(g: StateGraph)
    modifies g`nodes
    ensures g.nodes == old(g.nodes) + SUPPORT_FLOW.nodes
  {
    g.AddNode(InputGuardrails);
    g.AddNode(LoadContext);
    g.AddNode(Supervisor);
    g.AddNode(Billing);
    g.AddNode(Logistics);
    g.AddNode(Account);
    g.AddNode(Escalation);
    g.AddNode(Resolution);
    g.AddNode(OutputGuardrails);
  }

  method WireToWorkers(g: StateGraph)
    requires g.nodes == SUPPORT_FLOW.nodes && g.edges == map[]
    modifies g`edges
    ensures g.edges == map[InputGuardrails := Always(LoadContext), LoadContext := Always(Supervisor),
                           Supervisor := Branch(AfterSupervisor, {Billing, Logistics, Account, Escalation})]
  {
    g.AddEdge(InputGuardrails, LoadContext);
    g.AddEdge(LoadContext, Supervisor);
    g.AddConditionalEdges(Supervisor, AfterSupervisor, {Billing, Logistics, Account, Escalation});
  }

  method WireFromWorkers(g: StateGraph)
    requires g.nodes == SUPPORT_FLOW.nodes && g.edges.Keys == {InputGuardrails, LoadContext, Supervisor}
    modifies g`edges
    ensures g.edges == old(g.edges) + map[Billing := WORKER_EDGE, Logistics := WORKER_EDGE, Account := WORKER_EDGE]
  {
    g.AddConditionalEdges(Billing, AfterWorker, {Resolution, Escalation});
    g.AddConditionalEdges(Logistics, AfterWorker, {Resolution, Escalation});
    g.AddConditionalEdges(Account, AfterWorker, {Resolution, Escalation});
  }

  method WireToEnd(g: StateGraph)
    requires g.nodes == SUPPORT_FLOW.nodes
    requires Resolution !in g.edges && Escalation !in g.edges && OutputGuardrails !in g.edges
    modifies g`edges
    ensures g.edges == old(g.edges) + map[Resolution := Always(OutputGuardrails), Escalation := Always(OutputGuardrails),
                                          OutputGuardrails := Always(End)]
  {
    g.AddEdge(Resolution, OutputGuardrails);
    g.AddEdge(Escalation, OutputGuardrails);
    g.AddEdge(OutputGuardrails, End);
  }

  method BuildSupportGraph() returns (g: StateGraph)
    ensures fresh(g) && g.Wiring() == SUPPORT_FLOW
  {
    g := new StateGraph();
    AddSupportNodes(g);
    g.SetEntryPoint(InputGuardrails);
    WireToWorkers(g);
    WireFromWorkers(g);
    WireToEnd(g);
  }

  /** Routers only answer with targets they were given, and every edge leads to a node or the end. */
  lemma SupportFlowClosed(n: Node, t: Thread)
    requires n in SUPPORT_FLOW.edges
    ensures var e := SUPPORT_FLOW.edges[n];
            if e.Always? then e.to in SUPPORT_FLOW.nodes || e.to == End
            else Route(e.router, t) in e.targets && e.targets <= SUPPORT_FLOW.nodes
  {
  }

  function Next(f: Flow, n: Node, t: Thread): Node
    requires n in f.edges
  {
    match f.edges[n]
    case Always(to) => to
    case Branch(router, _) => Route(router, t)
  }

  /** Steps left at most. */
  function Rank(n: Node): nat {
    match n
    case InputGuardrails => 6
    case LoadContext => 5
    case Supervisor => 4
    case Billing => 3
    case Logistics => 3
    case Account => 3
    case Escalation => 2
    case Resolution => 2
    case OutputGuardrails => 1
    case End => 0
  }

  lemma EveryEdgeDescends(n: Node, t: Thread)
    requires n != End
    ensures n in SUPPORT_FLOW.edges && Rank(Next(SUPPORT_FLOW, n, t)) < Rank(n)
  {
  }

  // ---------- what the nodes do ----------

  const NOTICE := "Vou encaminhar seu atendimento para um especialista avaliar o seu problema. "
                  + "Alguém da equipe continua a partir daqui."
  const HANDOFF_MARKERS := ["especialista", "encaminh"]

  predicate Contains(s: string, part: string)
    decreases |s|
  {
    part <= s || (s != "" && Contains(s[1..], part))
  }

  /** `customer_escalation_reply` */
  function EscalationReply(draft: string): (r: string)
    ensures r != ""
  {
    var text := Trim(IsPySpace, draft);
    if text == "" then NOTICE
    else if Contains(Lower(text), HANDOFF_MARKERS[0]) || Contains(Lower(text), HANDOFF_MARKERS[1]) then text
    else text + "\n\n" + NOTICE
  }

  predicate IsUnusable(status: AccountStatus) { status in {Suspended, Closed} }

  /** The update a node makes; `resume` is the human's answer when the run is resumed. */
  function Update(n: Node, t: Thread, w: World, resume: Option<string>): Thread {
    match n
    case InputGuardrails => if w.flagged then t.(needsHuman := true, draft := "Input blocked") else t
    case LoadContext =>
      if w.customer.Some? && EscalationFromFacts(NO_FACTS.(account := w.customer)).escalate then
        t.(needsHuman := true, decision := Some(Decision(true, Some(UnusableIdentity), false)))
      else t
    case Supervisor => t.(intent := w.intent)
    case Billing => Worked(t, w.work)
    case Logistics => Worked(t, w.work)
    case Account => Worked(t, w.work)
    case Escalation =>
      var answer := if resume.Some? && resume.value != "" then resume.value else EscalationReply(t.draft);
      t.(needsHuman := false, draft := answer)
    case Resolution => t.(needsHuman := false)
    case OutputGuardrails =>
      var passed := w.validate(t.draft, t.refundExecuted);
      if t.draft == "" then t
      else if passed.Some? then t.(draft := passed.value)
      else t.(needsHuman := true, draft := EscalationReply(""))
    case End => t
  }

  function Worked(t: Thread, w: Work): Thread {
    t.(draft := w.draft, needsHuman := w.needsHuman, decision := w.decision, refundSuccess := w.refundSuccess,
       refundExecuted := w.refundExecuted)
  }

  // ---------- one run ----------

  datatype Ending = Ended | Paused | Failed

  /** A run: the nodes entered, the state left behind, and how it stopped. */
  datatype RunResult = RunResult(visited: seq<Node>, thread: Thread, ending: Ending)

  /** From node `n` on; escalation pauses unless the run was resumed with an answer. */
  function RunFrom(n: Node, t: Thread, w: World, resume: Option<string>): RunResult
    decreases Rank(n)
  {
    if n == End then RunResult([], t, Ended)
    else if n == Escalation && resume.None? then RunResult([n], t, Paused)
    else if n in w.fails then RunResult([n], t, Failed)
    else
      var u := Update(n, t, w, resume);
      EveryEdgeDescends(n, u);
      var rest := RunFrom(Next(SUPPORT_FLOW, n, u), u, w, if n == Escalation then None else resume);
      RunResult([n] + rest.visited, rest.thread, rest.ending)
  }

  /** A customer's message starts at the entry, whatever the thread was waiting for. */
  function CustomerRun(t: Thread, w: World): RunResult { RunFrom(SUPPORT_FLOW.entry, t, w, None) }

  /** A human's answer restarts the escalation node it had paused at. */
  function HumanRun(t: Thread, answer: string, w: World): RunResult { RunFrom(Escalation, t, w, Some(answer)) }
}

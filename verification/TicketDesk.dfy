/** A ticket and its thread in lock step: whether an escalated ticket has somebody to wait for. */
module TicketDesk {
  import opened Text
  import opened GraphFlow
  import opened GraphSafety
  import opened Tickets
  import opened TicketSafety

  /** The ticket, the thread's checkpointed state, and whether the thread waits at the escalation node. */
  datatype Desk = Desk(ticket: Ticket, thread: Thread, pending: bool)

  /**
   * A run of the workflow: what it meets, the exception's text if it fails, and two answers of the checkpointing
   * library: does a resumption that failed still wait, and is one with nothing to resume refused?
   */
  datatype Graph = Graph(world: World, error: string, waits: bool, refused: bool)

  datatype Demand =
    | ResolveIt(graph: Graph)
    | CustomerSays(content: string, graph: Graph)
    | AgentSays(content: string, graph: Graph)
    | TakeOver(agent: string)
    | AnswerEscalation(answer: string, graph: Graph)
    | CloseIt(reason: Option<string>)
    | ConfirmIt

  predicate CanAppend(t: Ticket, role: Role, content: string) { AppendMessage(t, Message(role, content, None), 0).Some? }

  /** The run a demand starts, if it starts one: a turn from the entry, or a resumption of a thread that waits. */
  function Started(d: Desk, demand: Demand): Option<RunResult> {
    match demand
    case ResolveIt(g) => if d.ticket.status == Closed then None else Some(CustomerRun(d.thread, g.world))
    case CustomerSays(content, g) =>
      if d.ticket.status != Closed && CanAppend(d.ticket, ByCustomer, content) && !IsAssigned(d.ticket) then
        Some(CustomerRun(d.thread, g.world))
      else None
    case AgentSays(content, g) =>
      if d.ticket.status != Closed && CanAppend(d.ticket, ByAgent, content) && d.pending then
        Some(HumanRun(d.thread, content, g.world))
      else None
    case AnswerEscalation(answer, g) =>
      if d.ticket.status == Escalated && d.pending then Some(HumanRun(d.thread, answer, g.world)) else None
    case _ => None
  }

  /** What the service gets back: of the run, or of a thread that had nothing to resume. */
  function Got(d: Desk, r: Option<RunResult>, g: Graph): Outcome {
    if r.Some? then OutcomeOf(r.value, g.error)
    else Outcome(if g.refused then Some(g.error) else None, ResultOf(RunResult([], d.thread, Ended)))
  }

  /** The demand as the ticket's routes see it. */
  function OpOf(d: Desk, demand: Demand): Op {
    var r := Started(d, demand);
    match demand
    case ResolveIt(g) => DoResolve(Got(d, r, g))
    case CustomerSays(content, g) => DoCustomerMessage(content, Got(d, r, g))
    case AgentSays(content, g) => DoAgentMessage(content, d.pending, Got(d, r, g))
    case TakeOver(agent) => DoTakeover(agent)
    case AnswerEscalation(_, g) => DoEscalationReply(Got(d, r, g))
    case CloseIt(reason) => DoClose(reason)
    case ConfirmIt => DoConfirm
  }

  predicate IsResumption(demand: Demand) { demand.AgentSays? || demand.AnswerEscalation? }

  /** One request: the ticket moves as its routes say, the thread as the run leaves it. */
  function Act(d: Desk, demand: Demand, sanitize: string -> string, now: int): Desk {
    var t, r := Step(d.ticket, OpOf(d, demand), sanitize, now).0, Started(d, demand);
    if r.None? then Desk(t, d.thread, d.pending)
    else
      Desk(t, r.value.thread,
           r.value.ending == Paused || (r.value.ending == Failed && IsResumption(demand) && demand.graph.waits))
  }

  // ---------- the invariant ----------

  /** The thread sends the next message to a human, and waits for one unless its last answer was rejected. */
  predicate Awaits(thread: Thread, pending: bool) { CatalogRequires(thread) && (pending || thread.needsHuman) }

  predicate InStep(d: Desk) {
    && TicketSafety.Inv(d.ticket)
    && (d.ticket.status == Escalated ==> Awaits(d.thread, d.pending))
    && (d.pending ==> CatalogRequires(d.thread) && d.ticket.status in {Escalated, Resolved, Closed})
  }

  /** A run that paused leaves a thread that requires a human. */
  lemma PausedRequires(t: Thread, w: World)
    requires CustomerRun(t, w).ending == Paused
    ensures CatalogRequires(CustomerRun(t, w).thread)
  {
    hide Unusable, Prepared, RunFrom, DecisionEscalates, CustomerRun, Update, FailsEarly, CatalogRequires;
    if FailsEarly(w) {
      FailingEarly(t, w);
    } else {
      EarlyRun(t, w);
      var p := Prepared(t, w);
      if CatalogRequires(p) {
        EscalationRun(p, w);
      } else {
        WorkerRun(RouteAfterSupervisor(p), p, w);
        var u := Worked(p, w.work);
        EscalationRun(u, w);
        ResolutionRun(u, w);
        OutputRun(u.(needsHuman := false), w, None);
      }
    }
  }

  /** What a run and the status after it have to do with each other. */
  predicate Matches(status: Status, r: RunResult) {
    && (status == Escalated ==> r.ending == Paused || r.thread.needsHuman)
    && (r.ending == Paused ==> status == Escalated)
  }

  lemma StatusMatches(t: Ticket, r: RunResult, error: string)
    ensures r.ending == Failed ==> Matches(NextStatus(t, ErrorResult(error), Some(error)), r)
    ensures r.ending != Failed ==> Matches(NextStatus(t, ResultOf(r), None), r)
    ensures r.ending == Failed && !IsError(Some(error)) ==> Matches(NextStatus(t, ResultOf(r), Some(error)), r)
  {
  }

  lemma AppendsAlike(t: Ticket, role: Role, content: string, now: int)
    ensures AppendMessage(t, Message(role, content, None), now).Some? <==> CanAppend(t, role, content)
    ensures AppendMessage(t.(status := InProgress), Message(role, content, None), now).Some? <==> CanAppend(t, role, content)
  {
    hide Stripped, Title;
  }

  lemma ResolveMatches(d: Desk, g: Graph, sanitize: string -> string, now: int)
    requires InStep(d) && d.ticket.status != Closed
    ensures Matches(Act(d, ResolveIt(g), sanitize, now).ticket.status, CustomerRun(d.thread, g.world))
  {
    hide CustomerRun, Persist, NextStatus, TicketSafety.Inv, Awaits, Matches, CatalogRequires;
    var r, t := CustomerRun(d.thread, g.world), d.ticket.(status := InProgress);
    InProgressKeeps(d.ticket);
    StatusMatches(t, r, g.error);
    if r.ending == Failed {
      PersistKeeps(t, ErrorResult(g.error), Some(g.error), sanitize, now);
    } else {
      PersistKeeps(t, ResultOf(r), None, sanitize, now);
    }
  }

  lemma CustomerMatches(d: Desk, content: string, g: Graph, sanitize: string -> string, now: int)
    requires InStep(d) && Started(d, CustomerSays(content, g)).Some?
    ensures Matches(Act(d, CustomerSays(content, g), sanitize, now).ticket.status, CustomerRun(d.thread, g.world))
  {
    hide CustomerRun, Persist, NextStatus, TicketSafety.Inv, Awaits, Matches, CatalogRequires;
    hide AppendMessage, CanAppend, IsAssigned;
    var r, t := CustomerRun(d.thread, g.world), d.ticket.(status := InProgress);
    var m := Message(ByCustomer, content, None);
    AppendsAlike(d.ticket, ByCustomer, content, now);
    InProgressKeeps(d.ticket);
    AppendKeeps(t, m, now);
    var v := AppendMessage(t, m, now).value;
    StatusMatches(v, r, g.error);
    if r.ending == Failed && IsError(Some(g.error)) {
      PersistKeeps(v, ErrorResult(g.error), Some(g.error), sanitize, now);
    } else {
      PersistKeeps(v, ResultOf(r), OutcomeOf(r, g.error).error, sanitize, now);
    }
  }

  lemma AgentMatches(d: Desk, content: string, g: Graph, sanitize: string -> string, now: int)
    requires InStep(d) && Started(d, AgentSays(content, g)).Some?
    ensures Matches(Act(d, AgentSays(content, g), sanitize, now).ticket.status, HumanRun(d.thread, content, g.world))
  {
    hide HumanRun, Persist, NextStatus, TicketSafety.Inv, Awaits, Matches, CatalogRequires, AppendMessage, CanAppend;
    var r := HumanRun(d.thread, content, g.world);
    var m := Message(ByAgent, content, None);
    AppendsAlike(d.ticket, ByAgent, content, now);
    AppendKeeps(d.ticket, m, now);
    var v := AppendMessage(d.ticket, m, now).value;
    InProgressKeeps(v);
    var t := v.(status := InProgress);
    StatusMatches(t, r, g.error);
    if r.ending == Failed {
      PersistKeeps(t, ErrorResult(g.error), Some(g.error), sanitize, now);
    } else {
      PersistKeeps(t, ResultOf(r), None, sanitize, now);
    }
  }

  /** A reply to an escalation that raises leaves the ticket as it was. */
  lemma ReplyMatches(d: Desk, answer: string, g: Graph, sanitize: string -> string, now: int)
    requires InStep(d) && Started(d, AnswerEscalation(answer, g)).Some?
    ensures var r := HumanRun(d.thread, answer, g.world);
            var t := Act(d, AnswerEscalation(answer, g), sanitize, now).ticket;
            if r.ending == Failed then t == d.ticket else Matches(t.status, r)
  {
    hide HumanRun, Persist, NextStatus, TicketSafety.Inv, Awaits, Matches, CatalogRequires;
    var r, t := HumanRun(d.thread, answer, g.world), d.ticket.(status := InProgress);
    InProgressKeeps(d.ticket);
    StatusMatches(t, r, g.error);
    if r.ending != Failed { PersistKeeps(t, ResultOf(r), None, sanitize, now); }
  }

  // ---------- one request ----------

  /** The resumption, if this is one, goes through. */
  predicate GoesThrough(demand: Demand) {
    IsResumption(demand) ==> Escalation !in demand.graph.world.fails && OutputGuardrails !in demand.graph.world.fails
  }

  lemma CustomerTurnInStep(d: Desk, t: Ticket, w: World)
    requires TicketSafety.Inv(t) && Matches(t.status, CustomerRun(d.thread, w))
    ensures var r := CustomerRun(d.thread, w); InStep(Desk(t, r.thread, r.ending == Paused))
  {
    if CustomerRun(d.thread, w).ending == Paused { PausedRequires(d.thread, w); }
    hide CustomerRun, TicketSafety.Inv;
  }

  lemma HumanTurnInStep(d: Desk, t: Ticket, answer: string, w: World)
    requires TicketSafety.Inv(t) && Matches(t.status, HumanRun(d.thread, answer, w))
    requires Escalation !in w.fails && OutputGuardrails !in w.fails
    ensures InStep(Desk(t, HumanRun(d.thread, answer, w).thread, false)) && HumanRun(d.thread, answer, w).ending == Ended
  {
    HumanRunShape(d.thread, answer, w);
    hide HumanRun, TicketSafety.Inv;
  }

  /** A demand that starts no run leaves the thread, and the status unless it closes or confirms. */
  lemma IdleInStep(d: Desk, demand: Demand, sanitize: string -> string, now: int)
    requires InStep(d) && Started(d, demand).None?
    ensures InStep(Act(d, demand, sanitize, now))
  {
    var op := OpOf(d, demand);
    StepKeeps(d.ticket, op, sanitize, now);
    match demand
    case CustomerSays(content, _) =>
      AppendsAlike(d.ticket, ByCustomer, content, now);
      hide AppendMessage, CanAppend, Persist, TicketSafety.Inv, CatalogRequires;
      IdleAppend(d.ticket, ByCustomer, content, now);
    case AgentSays(content, _) =>
      AppendsAlike(d.ticket, ByAgent, content, now);
      hide AppendMessage, CanAppend, Persist, TicketSafety.Inv, CatalogRequires;
      IdleAppend(d.ticket, ByAgent, content, now);
    case AnswerEscalation(_, g) =>
      hide Persist, TicketSafety.Inv, CatalogRequires, NextStatus;
      if d.ticket.status == Escalated && !g.refused { IdleReply(d.ticket, d.thread, sanitize, now); }
    case _ =>
      hide TicketSafety.Inv, CatalogRequires, Upsert, Persist;
  }

  lemma IdleAppend(t: Ticket, role: Role, content: string, now: int)
    ensures var u := AppendMessage(t, Message(role, content, None), now); u.Some? ==> u.value.status == t.status
  {
    hide Stripped, Title;
  }

  lemma IdleReply(t: Ticket, thread: Thread, sanitize: string -> string, now: int)
    requires TicketSafety.Inv(t)
    ensures var u := Persist(t.(status := InProgress), ResultOf(RunResult([], thread, Ended)), None, sanitize, now);
            u.Some? && (u.value.status == Escalated <==> thread.needsHuman)
  {
    hide Persist, TicketSafety.Inv;
    InProgressKeeps(t);
    PersistKeeps(t.(status := InProgress), ResultOf(RunResult([], thread, Ended)), None, sanitize, now);
  }

  lemma ActKeeps(d: Desk, demand: Demand, sanitize: string -> string, now: int)
    requires InStep(d) && GoesThrough(demand)
    ensures InStep(Act(d, demand, sanitize, now))
  {
    if Started(d, demand).None? {
      IdleInStep(d, demand, sanitize, now);
    } else {
      StepKeeps(d.ticket, OpOf(d, demand), sanitize, now);
      var t := Act(d, demand, sanitize, now).ticket;
      hide Step, TicketSafety.Inv, CustomerRun, HumanRun, Matches, OpOf, Awaits, CanAppend, IsAssigned, CatalogRequires;
      match demand
      case ResolveIt(g) =>
        ResolveMatches(d, g, sanitize, now);
        CustomerTurnInStep(d, t, g.world);
      case CustomerSays(content, g) =>
        CustomerMatches(d, content, g, sanitize, now);
        CustomerTurnInStep(d, t, g.world);
      case AgentSays(content, g) =>
        AgentMatches(d, content, g, sanitize, now);
        HumanTurnInStep(d, t, content, g.world);
      case AnswerEscalation(answer, g) =>
        HumanRunShape(d.thread, answer, g.world);
        ReplyMatches(d, answer, g, sanitize, now);
        HumanTurnInStep(d, t, answer, g.world);
    }
  }

  // ---------- any sequence of requests ----------

  function Acts(d: Desk, demands: seq<Demand>, sanitize: string -> string, clock: nat -> int): Desk {
    if demands == [] then d
    else
      var n := |demands| - 1;
      Act(Acts(d, demands[..n], sanitize, clock), demands[n], sanitize, clock(n))
  }

  /**
   * Over every sequence of requests whose resumptions go through: an escalated ticket's thread sends the next message
   * to a human, and waits for one at an interrupt unless its last answer was rejected; and an interrupt is pending
   * only on a ticket that is escalated, or has been confirmed or closed since.
   */
  lemma {:induction false} DeskStaysInStep(d: Desk, demands: seq<Demand>, sanitize: string -> string, clock: nat -> int)
    requires InStep(d) && forall r :: r in demands ==> GoesThrough(r)
    ensures InStep(Acts(d, demands, sanitize, clock))
  {
    hide InStep, Act, GoesThrough;
    if demands != [] {
      var n := |demands| - 1;
      assert demands[n] in demands;
      DeskStaysInStep(d, demands[..n], sanitize, clock);
      ActKeeps(Acts(d, demands[..n], sanitize, clock), demands[n], sanitize, clock(n));
    }
  }

  /** So a customer who writes again on an escalated ticket keeps it waiting: no worker answers in the human's place. */
  lemma EscalatedKeepsWaiting(d: Desk, content: string, g: Graph, sanitize: string -> string, now: int)
    requires InStep(d) && d.ticket.status == Escalated && Started(d, CustomerSays(content, g)).Some? && !FailsEarly(g.world)
    ensures var e := Act(d, CustomerSays(content, g), sanitize, now);
            e.ticket.status == Escalated && e.pending && !RanWorker(Started(d, CustomerSays(content, g)).value)
  {
    EndingIs(d.thread, g.world);
    WorkerRunsIff(d.thread, g.world);
    CustomerMatches(d, content, g, sanitize, now);
    hide CustomerRun, Step, TicketSafety.Inv, CanAppend, IsAssigned, Prepared, FailsEarly, OpOf;
  }

  /**
   * Why resumptions must go through. A reply that raises takes back the ticket's status, not the thread's: exactly
   * when the library does not keep waiting, and the node that failed is the escalation of a thread that needs no human
   * but for its decision or any node behind it, the ticket stays escalated with nobody to wait for.
   */
  lemma FailedReplyStrandsIff(d: Desk, answer: string, g: Graph, sanitize: string -> string, now: int)
    requires InStep(d) && d.ticket.status == Escalated && d.pending
    ensures var e := Act(d, AnswerEscalation(answer, g), sanitize, now);
            e.ticket.status == Escalated && !(e.pending || e.thread.needsHuman)
            <==> !g.waits && (if Escalation in g.world.fails then !d.thread.needsHuman
                              else OutputGuardrails in g.world.fails)
  {
    HumanRunEnds(d.thread, answer, g.world);
    ReplyMatches(d, answer, g, sanitize, now);
    hide HumanRun, Step, TicketSafety.Inv, OpOf, CatalogRequires;
  }

  lemma HumanRunEnds(t: Thread, answer: string, w: World)
    ensures var r := HumanRun(t, answer, w);
            && r.ending == (if Escalation in w.fails || OutputGuardrails in w.fails then Failed else Ended)
            && (Escalation in w.fails ==> r.thread == t)
            && (Escalation !in w.fails && OutputGuardrails in w.fails ==> !r.thread.needsHuman)
  {
    var u := Update(Escalation, t, w, Some(answer));
    assert Next(SUPPORT_FLOW, Escalation, u) == OutputGuardrails;
    OutputRun(u, w, None);
  }

  /** A new ticket on a fresh thread starts in step. */
  lemma NewDeskInStep(subject: string, description: string, now: int, thread: Thread)
    requires !thread.needsHuman && thread.decision.None?
    ensures var t := NewTicket(subject, description, now); t.Some? ==> InStep(Desk(t.value, thread, false))
  {
    NewTicketKeeps(subject, description, now);
    hide NewTicket, TicketSafety.Inv;
  }
}

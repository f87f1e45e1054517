/** What every run of the workflow keeps, over one turn and over all turns of a thread. */
module GraphSafety {
  import opened Text
  import opened Records
  import opened PolicyEscalation
  import opened GraphFlow

  // ---------- shape and termination ----------

  /** A run descends through the ranks, so it enters no node twice and at most one worker. */
  lemma {:induction false} RunDescends(n: Node, t: Thread, w: World, resume: Option<string>)
    ensures var v := RunFrom(n, t, w, resume).visited;
            && |v| <= Rank(n) && (forall i :: 0 <= i < |v| ==> Rank(v[i]) <= Rank(n))
            && (forall i, j :: 0 <= i < j < |v| ==> Rank(v[j]) < Rank(v[i]))
    decreases Rank(n)
  {
    hide Update, SUPPORT_FLOW;
    if n != End && !(n == Escalation && resume.None?) && n !in w.fails {
      var u := Update(n, t, w, resume);
      EveryEdgeDescends(n, u);
      RunDescends(Next(SUPPORT_FLOW, n, u), u, w, if n == Escalation then None else resume);
    }
  }

  predicate RanWorker(r: RunResult) { exists n :: n in r.visited && IsWorker(n) }

  lemma OneWorkerAtMost(t: Thread, w: World, i: nat, j: nat)
    requires i < j < |CustomerRun(t, w).visited|
    ensures !IsWorker(CustomerRun(t, w).visited[i]) || !IsWorker(CustomerRun(t, w).visited[j])
  {
    RunDescends(SUPPORT_FLOW.entry, t, w, None);
    var v := CustomerRun(t, w).visited;
    assert v == RunFrom(SUPPORT_FLOW.entry, t, w, None).visited;
    hide CustomerRun, RunFrom, SUPPORT_FLOW;
    assert Rank(v[j]) < Rank(v[i]);
  }

  // ---------- the tail of a run ----------

  lemma OutputRun(t: Thread, w: World, resume: Option<string>)
    ensures RunFrom(OutputGuardrails, t, w, resume)
            == if OutputGuardrails in w.fails then RunResult([OutputGuardrails], t, Failed)
               else RunResult([OutputGuardrails], Update(OutputGuardrails, t, w, resume), Ended)
  {
    hide Update;
    var u := Update(OutputGuardrails, t, w, resume);
    assert Next(SUPPORT_FLOW, OutputGuardrails, u) == End;
  }

  lemma ResolutionRun(t: Thread, w: World)
    ensures RunFrom(Resolution, t, w, None)
            == if Resolution in w.fails then RunResult([Resolution], t, Failed)
               else
                 var rest := RunFrom(OutputGuardrails, t.(needsHuman := false), w, None);
                 RunResult([Resolution] + rest.visited, rest.thread, rest.ending)
  {
    assert Next(SUPPORT_FLOW, Resolution, t.(needsHuman := false)) == OutputGuardrails;
  }

  lemma EscalationRun(t: Thread, w: World)
    ensures RunFrom(Escalation, t, w, None) == RunResult([Escalation], t, Paused)
  {
  }

  /** From a worker on: the worker, then resolution and output, or a pause. */
  lemma WorkerRun(n: Node, t: Thread, w: World)
    requires IsWorker(n)
    ensures RunFrom(n, t, w, None)
            == if n in w.fails then RunResult([n], t, Failed)
               else
                 var u := Worked(t, w.work);
                 var rest := RunFrom(RouteAfterWorker(u), u, w, None);
                 RunResult([n] + rest.visited, rest.thread, rest.ending)
  {
    hide RouteAfterWorker;
    assert Next(SUPPORT_FLOW, n, Worked(t, w.work)) == RouteAfterWorker(Worked(t, w.work));
  }

  predicate Unusable(w: World) { w.customer.Some? && IsUnusable(w.customer.value) }

  /** The thread as the supervisor's router sees it. */
  function Prepared(t: Thread, w: World): Thread {
    var u := if w.flagged then t.(needsHuman := true, draft := "Input blocked") else t;
    var v := if Unusable(w) then u.(needsHuman := true, decision := Some(Decision(true, Some(UnusableIdentity), false)))
             else u;
    v.(intent := w.intent)
  }

  predicate FailsEarly(w: World) { InputGuardrails in w.fails || LoadContext in w.fails || Supervisor in w.fails }

  lemma PreparedRequires(t: Thread, w: World)
    ensures CatalogRequires(Prepared(t, w)) <==> w.flagged || Unusable(w) || CatalogRequires(t)
  {
  }

  lemma LoadUpdate(t: Thread, w: World)
    ensures Update(LoadContext, t, w, None)
            == if Unusable(w) then t.(needsHuman := true, decision := Some(Decision(true, Some(UnusableIdentity), false)))
               else t
  {
  }

  /** One step of a run that neither ends, pauses nor fails here. */
  lemma RunStep(n: Node, t: Thread, w: World, next: Node)
    requires n != End && n != Escalation && n !in w.fails
    requires n in SUPPORT_FLOW.edges && Next(SUPPORT_FLOW, n, Update(n, t, w, None)) == next
    ensures var rest := RunFrom(next, Update(n, t, w, None), w, None);
            RunFrom(n, t, w, None) == RunResult([n] + rest.visited, rest.thread, rest.ending)
  {
    hide Update, SUPPORT_FLOW;
  }

  /** A customer's run up to the supervisor's choice. */
  lemma EarlyRun(t: Thread, w: World)
    requires !FailsEarly(w)
    ensures var p := Prepared(t, w);
            var rest := RunFrom(RouteAfterSupervisor(p), p, w, None);
            CustomerRun(t, w)
            == RunResult([InputGuardrails, LoadContext, Supervisor] + rest.visited, rest.thread, rest.ending)
  {
    hide *;
    var a := Update(InputGuardrails, t, w, None);
    var b := Update(LoadContext, a, w, None);
    var p := Update(Supervisor, b, w, None);
    PreparedIs(t, w);
    NextIs(a, b, p);
    CustomerRunIs(t, w);
    RunStep(InputGuardrails, t, w, LoadContext);
    RunStep(LoadContext, a, w, Supervisor);
    RunStep(Supervisor, b, w, RouteAfterSupervisor(p));
  }

  lemma CustomerRunIs(t: Thread, w: World)
    ensures CustomerRun(t, w) == RunFrom(InputGuardrails, t, w, None)
  {
  }

  lemma PreparedIs(t: Thread, w: World)
    ensures Prepared(t, w)
            == Update(Supervisor, Update(LoadContext, Update(InputGuardrails, t, w, None), w, None), w, None)
    ensures FailsEarly(w) <==> InputGuardrails in w.fails || LoadContext in w.fails || Supervisor in w.fails
  {
    LoadUpdate(Update(InputGuardrails, t, w, None), w);
  }

  lemma NextIs(a: Thread, b: Thread, p: Thread)
    ensures SUPPORT_FLOW.edges.Keys >= {InputGuardrails, LoadContext, Supervisor}
    ensures SUPPORT_FLOW.entry == InputGuardrails
    ensures Next(SUPPORT_FLOW, InputGuardrails, a) == LoadContext && Next(SUPPORT_FLOW, LoadContext, b) == Supervisor
    ensures Next(SUPPORT_FLOW, Supervisor, p) == RouteAfterSupervisor(p)
  {
    hide RouteAfterSupervisor;
  }

  lemma FailingEarly(t: Thread, w: World)
    requires FailsEarly(w)
    ensures !RanWorker(CustomerRun(t, w)) && CustomerRun(t, w).ending == Failed
  {
    hide RouteAfterSupervisor;
    var a := Update(InputGuardrails, t, w, None);
    var b := Update(LoadContext, a, w, None);
    NextIs(a, b, Update(Supervisor, b, w, None));
    hide Update, SUPPORT_FLOW, Next;
    assert RunFrom(Supervisor, b, w, None).visited == [Supervisor] || Supervisor !in w.fails;
    if InputGuardrails !in w.fails && LoadContext !in w.fails {
      assert RunFrom(LoadContext, a, w, None).visited == [LoadContext] + [Supervisor];
    }
  }

  // ---------- when a worker runs ----------

  /**
   * A domain worker (hence a tool) runs in a customer's turn exactly when the input passed the guardrails, the
   * account is usable, nothing on the thread requires a human, and the nodes before the workers did not fail.
   */
  lemma WorkerRunsIff(t: Thread, w: World)
    ensures RanWorker(CustomerRun(t, w))
            <==> !w.flagged && !Unusable(w) && !CatalogRequires(t) && !FailsEarly(w)
  {
    hide Unusable, CatalogRequires, FailsEarly, RunFrom, Prepared;
    if FailsEarly(w) {
      FailingEarly(t, w);
    } else {
      EarlyRun(t, w);
      PreparedRequires(t, w);
      var p := Prepared(t, w);
      if CatalogRequires(p) {
        EscalationRun(p, w);
      } else {
        var n := RouteAfterSupervisor(p);
        WorkerRun(n, p, w);
        assert CustomerRun(t, w).visited[3] == n;
      }
    }
  }

  /** And which one: the worker of the intent, and logistics when the intent is unknown. */
  lemma WhichWorker(t: Thread, w: World)
    requires !w.flagged && !Unusable(w) && !CatalogRequires(t) && !FailsEarly(w)
    ensures var v := CustomerRun(t, w).visited;
            && (Billing in v <==> w.intent == BillingIntent)
            && (Account in v <==> w.intent == AccountIntent)
            && (Logistics in v <==> w.intent in {LogisticsIntent, UnknownIntent})
  {
    hide *;
    var n, v := WorkerOf(w.intent), CustomerRun(t, w).visited;
    FourthVisited(t, w);
    forall m | IsWorker(m) ensures m in v <==> m == n {
      if m in v {
        var j :| 0 <= j < |v| && v[j] == m;
        if j < 3 { OneWorkerAtMost(t, w, j, 3); }
        if j > 3 { OneWorkerAtMost(t, w, 3, j); }
      }
    }
    WorkersAre(w.intent);
  }

  function WorkerOf(intent: Intent): Node {
    match intent
    case BillingIntent => Billing
    case AccountIntent => Account
    case _ => Logistics
  }

  lemma WorkersAre(intent: Intent)
    ensures IsWorker(Billing) && IsWorker(Logistics) && IsWorker(Account)
    ensures WorkerOf(intent) == Billing <==> intent == BillingIntent
    ensures WorkerOf(intent) == Account <==> intent == AccountIntent
    ensures WorkerOf(intent) == Logistics <==> intent in {LogisticsIntent, UnknownIntent}
  {
  }

  lemma FourthVisited(t: Thread, w: World)
    requires !w.flagged && !Unusable(w) && !CatalogRequires(t) && !FailsEarly(w)
    ensures var v := CustomerRun(t, w).visited; |v| > 3 && v[3] == WorkerOf(w.intent) && IsWorker(v[3])
  {
    EarlyRun(t, w);
    PreparedRequires(t, w);
    var p := Prepared(t, w);
    assert p.intent == w.intent;
    WorkerRun(RouteAfterSupervisor(p), p, w);
    hide Unusable, CatalogRequires, FailsEarly, RunFrom, Prepared, CustomerRun;
  }

  /** What a human's answer says: its text, or the usual notice with the draft if there is none. */
  function AnswerGiven(t: Thread, answer: string): (text: string)
    ensures text != ""
  {
    if answer == "" then EscalationReply(t.draft) else answer
  }

  /** No worker answers after a human: the resumed run ends behind the output guardrails. */
  lemma HumanRunShape(t: Thread, answer: string, w: World)
    requires Escalation !in w.fails && OutputGuardrails !in w.fails
    ensures var r := HumanRun(t, answer, w);
            && r.visited == [Escalation, OutputGuardrails] && r.ending == Ended && r.thread.decision == t.decision
            && (r.thread.needsHuman <==> w.validate(AnswerGiven(t, answer), t.refundExecuted).None?)
  {
    var u := Update(Escalation, t, w, Some(answer));
    assert Next(SUPPORT_FLOW, Escalation, u) == OutputGuardrails;
    OutputRun(u, w, None);
  }

  lemma HumanRunNoWorker(t: Thread, answer: string, w: World)
    ensures !RanWorker(HumanRun(t, answer, w)) && HumanRun(t, answer, w).thread.decision == t.decision
  {
    var u := Update(Escalation, t, w, Some(answer));
    assert Next(SUPPORT_FLOW, Escalation, u) == OutputGuardrails;
    OutputRun(u, w, None);
  }

  // ---------- how a turn ends ----------

  predicate WorkEscalates(w: Work) { w.needsHuman || (w.decision.Some? && DecisionEscalates(w.decision.value)) }

  /** The output guardrails reject the work's draft. */
  predicate Rejected(w: World) { w.work.draft != "" && w.validate(w.work.draft, w.work.refundExecuted).None? }

  /** Something requires a human before any worker is asked. */
  predicate RequiredBefore(t: Thread, w: World) { w.flagged || Unusable(w) || CatalogRequires(t) }

  /** How a customer's turn ends, whatever fails on the way. */
  function EndingOf(t: Thread, w: World): Ending {
    if FailsEarly(w) then Failed
    else if RequiredBefore(t, w) then Paused
    else if RouteAfterSupervisor(Prepared(t, w)) in w.fails then Failed
    else if WorkEscalates(w.work) then Paused
    else if Resolution in w.fails || OutputGuardrails in w.fails then Failed
    else Ended
  }

  /** A turn fails, pauses or ends exactly as the first of its nodes to fail or to require a human decides. */
  lemma EndingIs(t: Thread, w: World)
    ensures CustomerRun(t, w).ending == EndingOf(t, w)
  {
    hide Unusable, Prepared, RunFrom, DecisionEscalates, CustomerRun, Update, FailsEarly;
    if FailsEarly(w) {
      FailingEarly(t, w);
    } else {
      EarlyRun(t, w);
      PreparedRequires(t, w);
      var p := Prepared(t, w);
      if CatalogRequires(p) {
        EscalationRun(p, w);
      } else {
        WorkerRun(RouteAfterSupervisor(p), p, w);
        var u := Worked(p, w.work);
        EscalationRun(u, w);
        ResolutionRun(u, w);
        OutputRun(u.(needsHuman := false), w, None);
        assert WorkEscalates(w.work) <==> CatalogRequires(u);
      }
    }
  }

  /** A turn that does not fail pauses exactly when something requires a human, before or after the work. */
  lemma PausesIff(t: Thread, w: World)
    requires CustomerRun(t, w).ending != Failed
    ensures CustomerRun(t, w).ending == Paused <==> RequiredBefore(t, w) || WorkEscalates(w.work)
  {
    EndingIs(t, w);
    hide CustomerRun, RequiredBefore, WorkEscalates, Prepared;
  }

  lemma NothingFails(t: Thread, w: World)
    requires w.fails == {}
    ensures CustomerRun(t, w).ending != Failed
  {
    EndingIs(t, w);
    hide CustomerRun, RequiredBefore, WorkEscalates, Prepared;
  }

  /**
   * A turn can end, without pausing, with a human required all the same: exactly when the output guardrails
   * reject a draft. No interrupt is pending then.
   */
  lemma EndsNeedingHumanIff(t: Thread, w: World)
    requires CustomerRun(t, w).ending == Ended
    ensures CustomerRun(t, w).thread.needsHuman <==> Rejected(w)
  {
    hide Unusable, Prepared, RunFrom, DecisionEscalates, FailsEarly, CatalogRequires;
    if FailsEarly(w) {
      FailingEarly(t, w);
    } else {
      EarlyRun(t, w);
      var p := Prepared(t, w);
      EscalationRun(p, w);
      if RouteAfterSupervisor(p) != Escalation {
        WorkerRun(RouteAfterSupervisor(p), p, w);
        var u := Worked(p, w.work);
        EscalationRun(u, w);
        ResolutionRun(u, w);
        OutputRun(u.(needsHuman := false), w, None);
      }
    }
  }

  /** Such a thread hands the next message to a human. */
  lemma RejectedAnswerPausesNext(t: Thread, w: World, next: World)
    requires CustomerRun(t, w).ending == Ended && Rejected(w) && next.fails == {}
    ensures CustomerRun(CustomerRun(t, w).thread, next).ending == Paused
  {
    EndsNeedingHumanIff(t, w);
    NothingFails(CustomerRun(t, w).thread, next);
    PausesIff(CustomerRun(t, w).thread, next);
    hide CustomerRun;
  }

  // ---------- what a turn leaves on the thread ----------

  /** What the work hands over, as the thread keeps it. */
  predicate KeepsWork(t: Thread, work: Work) {
    && t.decision == work.decision && t.refundSuccess == work.refundSuccess && t.refundExecuted == work.refundExecuted
  }

  /** A turn that ends: the work's findings, and its draft as the output guardrails let it pass. */
  lemma EndedTurnLeaves(t: Thread, w: World)
    requires CustomerRun(t, w).ending == Ended
    ensures var u := CustomerRun(t, w).thread;
            && u.intent == w.intent && KeepsWork(u, w.work)
            && u.draft == (if w.work.draft == "" then ""
                           else if Rejected(w) then EscalationReply("")
                           else w.validate(w.work.draft, w.work.refundExecuted).value)
            && (u.needsHuman <==> Rejected(w))
  {
    EndingIs(t, w);
    hide Unusable, FailsEarly, RunFrom, CustomerRun, EscalationReply, WorkEscalates, RequiredBefore, DecisionEscalates;
    hide Prepared, Update;
    EarlyRun(t, w);
    PreparedRequires(t, w);
    var p := Prepared(t, w);
    PreparedIntent(t, w);
    EscalationRun(p, w);
    WorkerRun(RouteAfterSupervisor(p), p, w);
    var u := Worked(p, w.work);
    EscalationRun(u, w);
    ResolutionRun(u, w);
    OutputRun(u.(needsHuman := false), w, None);
    OutputLeaves(u.(needsHuman := false), w);
  }

  lemma PreparedIntent(t: Thread, w: World)
    ensures Prepared(t, w).intent == w.intent
  {
  }

  lemma OutputLeaves(t: Thread, w: World)
    ensures Update(OutputGuardrails, t, w, None)
            == var passed := w.validate(t.draft, t.refundExecuted);
               t.(draft := if t.draft == "" then "" else if passed.Some? then passed.value else EscalationReply(""),
                  needsHuman := t.needsHuman || (t.draft != "" && passed.None?))
  {
    hide EscalationReply;
  }

  /**
   * A turn that pauses: before the work with what was on the thread, a blocked input marked as such; after it with the
   * work's findings and draft. An unusable account is kept as the reason for the decision.
   */
  lemma PausedTurnLeaves(t: Thread, w: World)
    requires CustomerRun(t, w).ending == Paused
    ensures var u := CustomerRun(t, w).thread;
            && u.intent == w.intent
            && (!RequiredBefore(t, w) ==> KeepsWork(u, w.work) && u.draft == w.work.draft && u.needsHuman == w.work.needsHuman)
            && (RequiredBefore(t, w) ==>
                  && u.draft == (if w.flagged then "Input blocked" else t.draft)
                  && (u.needsHuman <==> t.needsHuman || w.flagged || Unusable(w))
                  && u.refundSuccess == t.refundSuccess && u.refundExecuted == t.refundExecuted
                  && u.decision == if Unusable(w) then Some(Decision(true, Some(UnusableIdentity), false)) else t.decision)
  {
    EndingIs(t, w);
    EarlyRun(t, w);
    PreparedRequires(t, w);
    var p := Prepared(t, w);
    EscalationRun(p, w);
    if !CatalogRequires(p) {
      WorkerRun(RouteAfterSupervisor(p), p, w);
      EscalationRun(Worked(p, w.work), w);
    }
    hide Unusable, FailsEarly, RunFrom, CustomerRun, EscalationReply, DecisionEscalates;
  }

  /** A human's answer is what goes out, if the guardrails let it pass; an empty one stands for the usual notice. */
  lemma HumanTurnLeaves(t: Thread, answer: string, w: World)
    requires Escalation !in w.fails && OutputGuardrails !in w.fails
    ensures var u := HumanRun(t, answer, w).thread;
            var passed := w.validate(AnswerGiven(t, answer), t.refundExecuted);
            && u.draft == (if passed.None? then EscalationReply("") else passed.value)
            && u == t.(needsHuman := passed.None?, draft := u.draft)
  {
    var u := Update(Escalation, t, w, Some(answer));
    assert Next(SUPPORT_FLOW, Escalation, u) == OutputGuardrails;
    OutputRun(u, w, None);
  }

  /** What a customer reads when a human takes over: always a text, the draft in it, and word of the handover. */
  lemma HandoverSaysSo(draft: string)
    ensures var r, text := EscalationReply(draft), Trim(IsPySpace, draft);
            && (text <= r || text == "")
            && (text == "" ==> r == NOTICE)
            && (r == text || r == NOTICE || r == text + "\n\n" + NOTICE)
            && (r == text ==> Contains(Lower(r), "especialista") || Contains(Lower(r), "encaminh"))
  {
    hide Contains, Lower, Trim, NOTICE;
  }

  // ---------- over all turns of a thread ----------

  datatype Event = FromCustomer(world: World) | FromHuman(answer: string, world: World)

  function Turn(t: Thread, e: Event): RunResult {
    match e
    case FromCustomer(w) => CustomerRun(t, w)
    case FromHuman(answer, w) => HumanRun(t, answer, w)
  }

  function Turns(t: Thread, events: seq<Event>): seq<RunResult>
    decreases |events|
  {
    if events == [] then [] else [Turn(t, events[0])] + Turns(Turn(t, events[0]).thread, events[1..])
  }

  /** The decision on the thread sends everything to a human. */
  predicate Handed(t: Thread) { t.decision.Some? && DecisionEscalates(t.decision.value) }

  lemma HandedCustomerRun(t: Thread, w: World)
    requires Handed(t)
    ensures !RanWorker(CustomerRun(t, w)) && Handed(CustomerRun(t, w).thread)
  {
    WorkerRunsIff(t, w);
    if FailsEarly(w) {
      HandedEarly(t, w);
    } else {
      EarlyRun(t, w);
      PreparedRequires(t, w);
      EscalationRun(Prepared(t, w), w);
      hide RunFrom, CustomerRun;
    }
  }

  lemma HandedEarly(t: Thread, w: World)
    requires Handed(t) && FailsEarly(w)
    ensures Handed(CustomerRun(t, w).thread)
  {
    hide RouteAfterSupervisor, DecisionEscalates;
    var a := Update(InputGuardrails, t, w, None);
    LoadUpdate(a, w);
    var b := Update(LoadContext, a, w, None);
    NextIs(a, b, Update(Supervisor, b, w, None));
    assert Handed(a);
    UnusableEscalates();
    assert Handed(b);
    hide Update, SUPPORT_FLOW, Next, Handed;
    assert Supervisor in w.fails ==> RunFrom(Supervisor, b, w, None).thread == b;
  }

  lemma UnusableEscalates()
    ensures DecisionEscalates(Decision(true, Some(UnusableIdentity), false))
  {
  }

  lemma HandedTurn(t: Thread, e: Event)
    requires Handed(t)
    ensures !RanWorker(Turn(t, e)) && Handed(Turn(t, e).thread)
  {
    hide CustomerRun, HumanRun, DecisionEscalates;
    match e
    case FromCustomer(w) => HandedCustomerRun(t, w);
    case FromHuman(answer, w) => HumanRunNoWorker(t, answer, w);
  }

  lemma {:induction false} HandedForever(t: Thread, events: seq<Event>)
    requires Handed(t)
    ensures forall i :: 0 <= i < |Turns(t, events)| ==>
              !RanWorker(Turns(t, events)[i]) && Handed(Turns(t, events)[i].thread)
    decreases |events|
  {
    hide Turn, RanWorker, Handed;
    if events != [] {
      HandedTurn(t, events[0]);
      HandedForever(Turn(t, events[0]).thread, events[1..]);
    }
  }

  /**
   * Over every sequence of turns on a thread: a turn that runs a worker is a customer's, its input was not flagged
   * and its account is usable; and once the decision on the thread has required a human, no later turn runs one.
   */
  lemma {:induction false} ThreadIsSafe(t: Thread, events: seq<Event>)
    ensures var rs := Turns(t, events);
            && |rs| == |events|
            && (forall i :: 0 <= i < |rs| && RanWorker(rs[i]) ==>
                  events[i].FromCustomer? && !events[i].world.flagged && !Unusable(events[i].world))
            && (forall i, j :: 0 <= i < j < |rs| && Handed(rs[i].thread) ==> !RanWorker(rs[j]) && Handed(rs[j].thread))
    decreases |events|
  {
    hide Turn, RanWorker, Handed, Unusable;
    if events != [] {
      var first := Turn(t, events[0]);
      var rest := Turns(first.thread, events[1..]);
      ThreadIsSafe(first.thread, events[1..]);
      TurnIsSafe(t, events[0]);
      if Handed(first.thread) { HandedForever(first.thread, events[1..]); }
      var rs := Turns(t, events);
      assert rs == [first] + rest;
      forall i, j | 0 <= i < j < |rs| && Handed(rs[i].thread) ensures !RanWorker(rs[j]) && Handed(rs[j].thread) {
        assert rs[j] == rest[j - 1];
        if i > 0 { assert rs[i] == rest[i - 1]; }
      }
      forall i | 0 <= i < |rs| && RanWorker(rs[i])
        ensures events[i].FromCustomer? && !events[i].world.flagged && !Unusable(events[i].world)
      {
        if i > 0 { assert rs[i] == rest[i - 1] && events[1..][i - 1] == events[i]; }
      }
    }
  }

  lemma TurnIsSafe(t: Thread, e: Event)
    ensures RanWorker(Turn(t, e)) ==> e.FromCustomer? && !e.world.flagged && !Unusable(e.world)
  {
    hide CustomerRun, HumanRun, RanWorker;
    match e
    case FromCustomer(w) => WorkerRunsIff(t, w);
    case FromHuman(answer, w) => HumanRunNoWorker(t, answer, w);
  }
}

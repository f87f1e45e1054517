/** What every sequence of requests on a ticket keeps. */
module TicketSafety {
  import opened Text
  import opened GraphFlow
  import opened GraphSafety
  import opened Tickets

  // ---------- the invariant ----------

  /** The assistant does not repeat what it or an agent has just said, and says something. */
  predicate NoEcho(messages: seq<Message>) {
    forall i :: 0 < i < |messages| && messages[i].role == ByAssistant && messages[i - 1].role in {ByAssistant, ByAgent}
      ==> Stripped(messages[i].content) != Stripped(messages[i - 1].content)
  }

  predicate Inv(t: Ticket) {
    && (t.status == Escalated ==> t.escalatedAt.Some?)
    && |t.resolutions| <= 1
    && NoEcho(t.messages)
  }

  /** What a request may change at all. */
  predicate Grows(t: Ticket, u: Ticket) {
    && t.messages <= u.messages && t.runs <= u.runs
    && (t.escalatedAt.Some? ==> u.escalatedAt == t.escalatedAt)
    && (t.status == Closed ==> u == t.(assignee := u.assignee))
  }

  lemma GrowsTrans(t: Ticket, u: Ticket, v: Ticket)
    requires Grows(t, u) && Grows(u, v)
    ensures Grows(t, v)
  {
  }

  // ---------- messages ----------

  lemma AppendKeeps(t: Ticket, m: Message, now: int)
    requires Inv(t) && AppendMessage(t, m, now).Some?
    requires m.role == ByAssistant ==> ShouldPersist(t.messages, m.content)
    ensures var u := AppendMessage(t, m, now).value;
            && Inv(u) && t.messages <= u.messages && u.messages == t.messages + [m] && u.runs == t.runs
            && u.escalatedAt == t.escalatedAt && u.status == t.status && u.resolutions == t.resolutions
            && u.assignee == t.assignee
  {
    hide Stripped, Title, UNTITLED;
    var u := AppendMessage(t, m, now).value;
    assert u.messages == t.messages + [m];
  }

  lemma AnswerNeverFails(t: Ticket, answer: string, run: Option<nat>, now: int)
    requires ShouldPersist(t.messages, answer)
    ensures AppendMessage(t, Message(ByAssistant, answer, run), now).Some?
  {
  }

  /** Persisting a graph result always succeeds and keeps the invariant. */
  lemma PersistKeeps(t: Ticket, r: GraphResult, error: Option<string>, sanitize: string -> string, now: int)
    requires Inv(t) && t.status != Closed
    ensures var u := Persist(t, r, error, sanitize, now);
            && u.Some? && Inv(u.value) && t.messages <= u.value.messages && t.runs <= u.value.runs
            && |u.value.runs| == |t.runs| + 1
            && (t.escalatedAt.Some? ==> u.value.escalatedAt == t.escalatedAt)
            && u.value.status == NextStatus(t, r, error)
  {
    hide ShouldPersist, AppendMessage, AnswerOf, NoEcho, RunOf;
    var u := Recorded(t, r, error, sanitize, now);
    var answer := AnswerOf(r, error, sanitize);
    if ShouldPersist(u.messages, answer) {
      AnswerNeverFails(u, answer, Some(|t.runs|), now);
      AppendKeeps(u, Message(ByAssistant, answer, Some(|t.runs|)), now);
    }
  }

  // ---------- one request ----------

  lemma InProgressKeeps(t: Ticket)
    requires Inv(t)
    ensures Inv(t.(status := InProgress))
  {
  }

  lemma ResolveKeeps(t: Ticket, o: Outcome, sanitize: string -> string, now: int)
    requires Inv(t)
    ensures var u := Resolve(t, o, sanitize, now).0; Inv(u) && Grows(t, u)
  {
    hide Persist, NextStatus, Inv;
    InProgressKeeps(t);
    var u := t.(status := InProgress);
    if o.error.Some? {
      PersistKeeps(u, ErrorResult(o.error.value), o.error, sanitize, now);
    } else {
      PersistKeeps(u, o.result, None, sanitize, now);
    }
  }

  lemma CustomerMessageKeeps(t: Ticket, content: string, o: Outcome, sanitize: string -> string, now: int)
    requires Inv(t)
    ensures var u := CustomerMessage(t, content, o, sanitize, now).0; Inv(u) && Grows(t, u)
  {
    hide Persist, NextStatus, Inv, AppendMessage, Stripped;
    InProgressKeeps(t);
    if t.status != Closed {
      var u := if IsAssigned(t) then t else t.(status := InProgress);
      var m := Message(ByCustomer, content, None);
      var v := AppendMessage(u, m, now);
      if v.Some? {
        AppendKeeps(u, m, now);
        if IsError(o.error) {
          PersistKeeps(v.value, ErrorResult(o.error.value), o.error, sanitize, now);
        } else {
          PersistKeeps(v.value, o.result, o.error, sanitize, now);
        }
      }
    }
  }

  lemma AgentMessageKeeps(t: Ticket, content: string, interrupted: bool, o: Outcome, sanitize: string -> string, now: int)
    requires Inv(t)
    ensures var u := AgentMessage(t, content, interrupted, o, sanitize, now).0; Inv(u) && Grows(t, u)
  {
    hide Persist, NextStatus, Inv, AppendMessage;
    var m := Message(ByAgent, content, None);
    var v := AppendMessage(t, m, now);
    if t.status != Closed && v.Some? {
      AppendKeeps(t, m, now);
      InProgressKeeps(v.value);
      var u := v.value.(status := InProgress);
      if o.error.Some? {
        PersistKeeps(u, ErrorResult(o.error.value), o.error, sanitize, now);
      } else {
        PersistKeeps(u, o.result, None, sanitize, now);
      }
    }
  }

  lemma ReplyKeeps(t: Ticket, o: Outcome, sanitize: string -> string, now: int)
    requires Inv(t)
    ensures var u := EscalationReplied(t, o, sanitize, now).0; Inv(u) && Grows(t, u)
  {
    hide Persist, NextStatus, Inv;
    InProgressKeeps(t);
    PersistKeeps(t.(status := InProgress), o.result, None, sanitize, now);
  }

  lemma CloseKeeps(t: Ticket, reason: Option<string>, now: int)
    requires Inv(t)
    ensures var u := Close(t, reason, now).0; Inv(u) && Grows(t, u)
    ensures t.status != Closed ==> Close(t, reason, now).0.status == Closed && Close(t, reason, now).1 == Done
  {
    hide CLOSE_NOTE;
    if t.status != Closed {
      var u := Close(t, reason, now).0;
      assert u.messages == t.messages + [Message(BySystem, CLOSE_NOTE, None)];
    }
  }

  lemma ConfirmKeeps(t: Ticket, now: int)
    requires Inv(t)
    ensures var u := Confirm(t, now).0; Inv(u) && Grows(t, u)
  {
    hide CONFIRM_NOTE;
    if t.status != Closed && t.status != Resolved {
      assert Confirm(t, now).0.messages == t.messages + [Message(BySystem, CONFIRM_NOTE, None)];
    }
  }

  lemma StepKeeps(t: Ticket, op: Op, sanitize: string -> string, now: int)
    requires Inv(t)
    ensures var u := Step(t, op, sanitize, now).0; Inv(u) && Grows(t, u)
  {
    hide Inv, Grows, Resolve, CustomerMessage, AgentMessage, EscalationReplied, Close, Confirm;
    match op
    case DoResolve(o) => ResolveKeeps(t, o, sanitize, now);
    case DoCustomerMessage(content, o) => CustomerMessageKeeps(t, content, o, sanitize, now);
    case DoAgentMessage(content, interrupted, o) => AgentMessageKeeps(t, content, interrupted, o, sanitize, now);
    case DoTakeover(agent) => TakeoverKeeps(t, agent);
    case DoEscalationReply(o) => ReplyKeeps(t, o, sanitize, now);
    case DoClose(reason) => CloseKeeps(t, reason, now);
    case DoConfirm => ConfirmKeeps(t, now);
  }

  lemma TakeoverKeeps(t: Ticket, agent: string)
    requires Inv(t)
    ensures Inv(Takeover(t, agent).0) && Grows(t, Takeover(t, agent).0)
  {
  }

  // ---------- any sequence of requests ----------

  lemma GrowsRefl(t: Ticket)
    ensures Grows(t, t)
  {
  }

  /**
   * After every request of every sequence: an escalated ticket knows since when, there is one resolution row at most,
   * the assistant has echoed nobody; and between any two moments history only grows, the time of escalation never
   * changes once set, and a closed ticket is as it was but for its agent.
   */
  lemma {:induction false} RunKeeps(t: Ticket, requests: seq<Request>, sanitize: string -> string)
    requires Inv(t)
    ensures AllKept([t] + Run(t, requests, sanitize))
    decreases |requests|
  {
    hide Inv, Grows, Step, AllKept;
    if requests == [] {
      AloneKept(t);
      assert [t] + Run(t, requests, sanitize) == [t];
    } else {
      var u := Step(t, requests[0].op, sanitize, requests[0].now).0;
      StepKeeps(t, requests[0].op, sanitize, requests[0].now);
      RunKeeps(u, requests[1..], sanitize);
      var rest := [u] + Run(u, requests[1..], sanitize);
      FirstKept(t, rest);
      assert [t] + Run(t, requests, sanitize) == [t] + rest;
    }
  }

  predicate AllKept(us: seq<Ticket>) {
    && (forall i :: 0 <= i < |us| ==> Inv(us[i]))
    && (forall i, j :: 0 <= i <= j < |us| ==> Grows(us[i], us[j]))
  }

  lemma AloneKept(t: Ticket)
    requires Inv(t)
    ensures AllKept([t])
  {
    hide Inv, Grows;
    GrowsRefl(t);
  }

  lemma FirstKept(t: Ticket, rest: seq<Ticket>)
    requires Inv(t) && rest != [] && AllKept(rest) && Grows(t, rest[0])
    ensures AllKept([t] + rest)
  {
    hide Inv, Grows;
    GrowsRefl(t);
    var us := [t] + rest;
    forall j | 0 <= j < |rest| ensures Grows(t, rest[j]) { GrowsTrans(t, rest[0], rest[j]); }
    forall i, j | 0 <= i <= j < |us| ensures Grows(us[i], us[j]) {
      if i > 0 {
        assert us[i] == rest[i - 1] && us[j] == rest[j - 1];
      } else if j > 0 {
        assert us[j] == rest[j - 1];
      }
    }
  }

  /** A new ticket has the invariant, so the guarantees above hold of every ticket. */
  lemma NewTicketKeeps(subject: string, description: string, now: int)
    ensures var t := NewTicket(subject, description, now); t.Some? ==> Inv(t.value) && t.value.status == Open
    ensures NewTicket(subject, description, now).None? <==> subject in UNTITLED && Stripped(description) == ""
  {
    hide UNTITLED, Stripped, Title;
  }

  // ---------- what a closed or taken-over ticket still does ----------

  /** Nothing but a takeover is accepted once the ticket is closed. */
  lemma ClosedRefusesAll(t: Ticket, op: Op, sanitize: string -> string, now: int)
    requires t.status == Closed
    ensures Step(t, op, sanitize, now) == if op.DoTakeover? then (t.(assignee := Some(op.agent)), Done) else (t, Conflict)
  {
  }

  /** Exactly which requests run the graph: an assignment silences it for customers' messages only. */
  lemma GraphRunsIff(t: Ticket, op: Op, sanitize: string -> string, now: int)
    requires Inv(t) && Step(t, op, sanitize, now).1 == Done
    ensures |Step(t, op, sanitize, now).0.runs| > |t.runs|
            <==> match op
                 case DoResolve(_) => true
                 case DoCustomerMessage(_, _) => !IsAssigned(t)
                 case DoAgentMessage(_, interrupted, _) => interrupted
                 case DoEscalationReply(_) => true
                 case _ => false
  {
    hide Inv, Persist, AppendMessage, NextStatus, IsAssigned;
    InProgressKeeps(t);
    match op
    case DoResolve(o) =>
      if o.error.Some? {
        PersistKeeps(t.(status := InProgress), ErrorResult(o.error.value), o.error, sanitize, now);
      } else {
        PersistKeeps(t.(status := InProgress), o.result, None, sanitize, now);
      }
    case DoCustomerMessage(content, o) => CustomerRuns(t, content, o, sanitize, now);
    case DoAgentMessage(content, interrupted, o) => AgentRuns(t, content, interrupted, o, sanitize, now);
    case DoTakeover(_) =>
    case DoEscalationReply(o) => PersistKeeps(t.(status := InProgress), o.result, None, sanitize, now);
    case DoClose(reason) => CloseRunsNothing(t, reason, now);
    case DoConfirm => ConfirmRunsNothing(t, now);
  }

  lemma CustomerRuns(t: Ticket, content: string, o: Outcome, sanitize: string -> string, now: int)
    requires Inv(t) && CustomerMessage(t, content, o, sanitize, now).1 == Done
    ensures |CustomerMessage(t, content, o, sanitize, now).0.runs| == |t.runs| + if IsAssigned(t) then 0 else 1
  {
    hide Persist, NextStatus, Inv, AppendMessage, IsAssigned;
    InProgressKeeps(t);
    var u := if IsAssigned(t) then t else t.(status := InProgress);
    var m := Message(ByCustomer, content, None);
    AppendKeeps(u, m, now);
    var v := AppendMessage(u, m, now);
    if IsError(o.error) {
      PersistKeeps(v.value, ErrorResult(o.error.value), o.error, sanitize, now);
    } else {
      PersistKeeps(v.value, o.result, o.error, sanitize, now);
    }
  }

  lemma AgentRuns(t: Ticket, content: string, interrupted: bool, o: Outcome, sanitize: string -> string, now: int)
    requires Inv(t) && AgentMessage(t, content, interrupted, o, sanitize, now).1 == Done
    ensures |AgentMessage(t, content, interrupted, o, sanitize, now).0.runs| == |t.runs| + if interrupted then 1 else 0
  {
    hide Persist, NextStatus, Inv, AppendMessage;
    var m := Message(ByAgent, content, None);
    AppendKeeps(t, m, now);
    var v := AppendMessage(t, m, now);
    InProgressKeeps(v.value);
    if o.error.Some? {
      PersistKeeps(v.value.(status := InProgress), ErrorResult(o.error.value), o.error, sanitize, now);
    } else {
      PersistKeeps(v.value.(status := InProgress), o.result, None, sanitize, now);
    }
  }

  lemma CloseRunsNothing(t: Ticket, reason: Option<string>, now: int)
    ensures Close(t, reason, now).0.runs == t.runs
  {
    hide CLOSE_NOTE;
  }

  lemma ConfirmRunsNothing(t: Ticket, now: int)
    ensures Confirm(t, now).0.runs == t.runs
  {
    hide CONFIRM_NOTE;
  }

  // ---------- the ticket after a run of the workflow ----------

  /** `snapshot_to_result` of a finished or paused run. */
  function ResultOf(r: RunResult): GraphResult {
    if r.ending == Paused then GraphResult(Some(EscalationReply(r.thread.draft)), true, r.thread.intent, r.thread.draft)
    else GraphResult(None, r.thread.needsHuman, r.thread.intent, r.thread.draft)
  }

  /** What the service gets of a run: the snapshot, and the exception's text if it failed. */
  function OutcomeOf(r: RunResult, error: string): Outcome {
    Outcome(if r.ending == Failed then Some(error) else None, ResultOf(r))
  }

  /**
   * A customer's message through the workflow. If no node fails on the way, the ticket is escalated exactly when
   * something required a human before or after the work, or the output guardrails rejected the draft; an interrupt
   * is pending in the first case only. If a node fails, it is open, unless the exception has no text: then it is
   * escalated exactly when the thread was left needing a human.
   */
  lemma EscalatedAfterTurnIff(t: Ticket, content: string, thread: Thread, w: World, error: string,
                              sanitize: string -> string, now: int)
    requires Inv(t) && t.status != Closed && !IsAssigned(t)
    requires CustomerMessage(t, content, OutcomeOf(CustomerRun(thread, w), error), sanitize, now).1 == Done
    ensures var u := CustomerMessage(t, content, OutcomeOf(CustomerRun(thread, w), error), sanitize, now).0;
            var r := CustomerRun(thread, w);
            && (u.status == Escalated
                <==> if r.ending == Failed then error == "" && r.thread.needsHuman
                     else RequiredBefore(thread, w) || WorkEscalates(w.work)
                          || Rejected(w))
            && (u.status != Escalated ==> u.status == if r.ending == Failed && error != "" then Open else InProgress)
  {
    var r := CustomerRun(thread, w);
    var o := OutcomeOf(r, error);
    if r.ending != Failed { PausesIff(thread, w); }
    if r.ending == Ended { EndsNeedingHumanIff(thread, w); }
    hide CustomerRun, RequiredBefore, WorkEscalates, EscalationReply, Persist, AppendMessage, Inv, IsAssigned;
    InProgressKeeps(t);
    var m := Message(ByCustomer, content, None);
    AppendKeeps(t.(status := InProgress), m, now);
    var u := AppendMessage(t.(status := InProgress), m, now).value;
    if IsError(o.error) {
      PersistKeeps(u, ErrorResult(error), o.error, sanitize, now);
    } else {
      PersistKeeps(u, o.result, o.error, sanitize, now);
    }
  }
}

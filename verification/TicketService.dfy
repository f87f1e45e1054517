/**
 * The ticket as a record whose fields the service updates in place (app/services/ticket_service.py,
 * app/api/routes/tickets.py).
 */
module TicketService {
  import opened Text
  import opened GraphFlow
  import opened Tickets

  class TicketRecord {
    var status: Status
    var intent: Option<Intent>
    var escalatedAt: Option<int>
    var lastMessageAt: Option<int>
    var assignee: Option<string>
    var subject: string
    var description: string
    var resolutions: seq<Resolution>
    var messages: seq<Message>
    var runs: seq<AgentRun>

    constructor (t: Ticket)
      ensures Row() == t
    {
      status, intent, escalatedAt, lastMessageAt := t.status, t.intent, t.escalatedAt, t.lastMessageAt;
      assignee, subject, description, resolutions, messages, runs := t.assignee, t.subject, t.description, t.resolutions, t.messages, t.runs;
    }

    function Row(): Ticket
      reads this
    {
      Ticket(status, intent, escalatedAt, lastMessageAt, assignee, subject, description, resolutions, messages, runs)
    }

    /** The session's rollback when a request raises. */
    method RollBack(t: Ticket)
      modifies this
      ensures Row() == t
    {
      status, intent, escalatedAt, lastMessageAt := t.status, t.intent, t.escalatedAt, t.lastMessageAt;
      assignee, subject, description, resolutions, messages, runs := t.assignee, t.subject, t.description, t.resolutions, t.messages, t.runs;
    }

    method AppendMessage(m: Message, now: int) returns (ok: bool)
      modifies this
      ensures var u := Tickets.AppendMessage(old(Row()), m, now); ok == u.Some? && (ok ==> Row() == u.value)
    {
      hide Stripped, Title, UNTITLED;
      messages := messages + [m];
      lastMessageAt := Some(now);
      if m.role != BySystem {
        if description == "" { description := m.content; }
        if subject in UNTITLED {
          if Stripped(m.content) == "" { return false; }
          subject := Title(m.content);
        }
      }
      ok := true;
    }

    method UpsertResolution(r: Resolution)
      modifies this`resolutions
      ensures resolutions == Upsert(old(resolutions), r)
    {
      if resolutions == [] {
        resolutions := [r];
      } else {
        resolutions := resolutions[0 := r];
      }
    }

    method PersistGraphResult(r: GraphResult, error: Option<string>, sanitize: string -> string, now: int)
      returns (ok: bool)
      modifies this
      ensures var u := Persist(old(Row()), r, error, sanitize, now); ok == u.Some? && (ok ==> Row() == u.value)
    {
      hide ShouldPersist, Tickets.AppendMessage, AnswerOf, RunOf;
      intent := Some(r.intent);
      if IsEscalating(r) {
        status := Escalated;
        if escalatedAt.None? { escalatedAt := Some(now); }
      } else if IsError(error) {
        status := Open;
      } else if status != Closed {
        status := InProgress;
      }
      var answer := AnswerOf(r, error, sanitize);
      UpsertResolution(ResolutionRow(answer, IsEscalating(r)));
      var run := |runs|;
      runs := runs + [RunOf(r, error)];
      assert Row() == Recorded(old(Row()), r, error, sanitize, now);
      ok := true;
      if ShouldPersist(messages, answer) {
        ok := AppendMessage(Message(ByAssistant, answer, Some(run)), now);
      }
    }

    method PostResolve(o: Outcome, sanitize: string -> string, now: int) returns (reply: Reply)
      modifies this
      ensures (Row(), reply) == Resolve(old(Row()), o, sanitize, now)
    {
      hide Persist;
      if status == Closed { return Conflict; }
      var saved := Row();
      status := InProgress;
      var ok;
      if o.error.Some? {
        ok := PersistGraphResult(ErrorResult(o.error.value), o.error, sanitize, now);
      } else {
        ok := PersistGraphResult(o.result, None, sanitize, now);
      }
      reply := if ok then Done else Raised;
      if !ok { RollBack(saved); }
    }

    method PostCustomerMessage(content: string, o: Outcome, sanitize: string -> string, now: int) returns (reply: Reply)
      modifies this
      ensures (Row(), reply) == CustomerMessage(old(Row()), content, o, sanitize, now)
    {
      hide Persist, Stripped, Tickets.AppendMessage;
      if status == Closed { return Conflict; }
      var saved := Row();
      var runGraph := !IsAssigned(Row());
      if runGraph { status := InProgress; }
      var ok := AppendMessage(Message(ByCustomer, content, None), now);
      if ok && runGraph {
        if IsError(o.error) {
          ok := PersistGraphResult(ErrorResult(o.error.value), o.error, sanitize, now);
        } else {
          ok := PersistGraphResult(o.result, o.error, sanitize, now);
        }
      }
      reply := if ok then Done else Raised;
      if !ok { RollBack(saved); }
    }

    method PostAgentMessage(content: string, interrupted: bool, o: Outcome, sanitize: string -> string, now: int)
      returns (reply: Reply)
      modifies this
      ensures (Row(), reply) == AgentMessage(old(Row()), content, interrupted, o, sanitize, now)
    {
      hide Persist, Tickets.AppendMessage;
      if status == Closed { return Conflict; }
      var saved := Row();
      var ok := AppendMessage(Message(ByAgent, content, None), now);
      if ok && interrupted {
        status := InProgress;
        if o.error.Some? {
          ok := PersistGraphResult(ErrorResult(o.error.value), o.error, sanitize, now);
        } else {
          ok := PersistGraphResult(o.result, None, sanitize, now);
        }
      }
      reply := if ok then Done else Raised;
      if !ok { RollBack(saved); }
    }

    method AssignAgent(agent: string)
      modifies this`assignee
      ensures Row() == Takeover(old(Row()), agent).0
    {
      assignee := Some(agent);
    }

    method PostEscalationReply(o: Outcome, sanitize: string -> string, now: int) returns (reply: Reply)
      modifies this
      ensures (Row(), reply) == EscalationReplied(old(Row()), o, sanitize, now)
    {
      hide Persist;
      if status != Escalated { return Conflict; }
      var saved := Row();
      status := InProgress;
      var ok := false;
      if o.error.None? {
        ok := PersistGraphResult(o.result, None, sanitize, now);
      }
      reply := if ok then Done else Raised;
      if !ok { RollBack(saved); }
    }

    method CloseTicket(reason: Option<string>, now: int) returns (reply: Reply)
      modifies this
      ensures (Row(), reply) == Close(old(Row()), reason, now)
    {
      hide Tickets.AppendMessage, CLOSE_NOTE;
      if status == Closed { return Conflict; }
      var saved := Row();
      var wasEscalated := status == Escalated;
      status := Closed;
      assignee := None;
      if reason.Some? && reason.value != "" {
        var note := "Closed by agent. " + reason.value;
        if resolutions == [] {
          resolutions := [ResolutionRow(note, wasEscalated)];
        } else {
          UpsertResolution(resolutions[0].(answer := resolutions[0].answer + "\n\n" + note));
        }
      }
      var ok := AppendMessage(Message(BySystem, CLOSE_NOTE, None), now);
      reply := if ok then Done else Raised;
      if !ok { RollBack(saved); }
    }

    method ConfirmResolution(now: int) returns (reply: Reply)
      modifies this
      ensures (Row(), reply) == Confirm(old(Row()), now)
    {
      hide Tickets.AppendMessage, CONFIRM_NOTE;
      if status == Closed { return Conflict; }
      if status == Resolved { return Done; }
      var saved := Row();
      status := Resolved;
      var ok := AppendMessage(Message(BySystem, CONFIRM_NOTE, None), now);
      reply := if ok then Done else Raised;
      if !ok { RollBack(saved); }
    }

    method Handle(op: Op, sanitize: string -> string, now: int) returns (reply: Reply)
      modifies this
      ensures (Row(), reply) == Step(old(Row()), op, sanitize, now)
    {
      hide Resolve, CustomerMessage, AgentMessage, EscalationReplied, Close, Confirm;
      match op
      case DoResolve(o) => reply := PostResolve(o, sanitize, now);
      case DoCustomerMessage(content, o) => reply := PostCustomerMessage(content, o, sanitize, now);
      case DoAgentMessage(content, interrupted, o) => reply := PostAgentMessage(content, interrupted, o, sanitize, now);
      case DoTakeover(agent) => AssignAgent(agent); reply := Done;
      case DoEscalationReply(o) => reply := PostEscalationReply(o, sanitize, now);
      case DoClose(reason) => reply := CloseTicket(reason, now);
      case DoConfirm => reply := ConfirmResolution(now);
    }
  }
}

/**
 * A ticket and the operations on it, one request at a time (app/services/ticket_service.py,
 * app/services/chat_service.py, app/api/routes/tickets.py).
 */
module Tickets {
  import opened Text
  import opened GraphFlow

  datatype Status = Open | InProgress | Resolved | Escalated | Closed
  datatype Role = ByCustomer | ByAssistant | ByAgent | BySystem
  datatype Message = Message(role: Role, content: string, run: Option<nat>)
  datatype Resolution = ResolutionRow(answer: string, escalated: bool)
  datatype RunStatus = RunFailed | RunAwaitingHuman | RunCompleted
  datatype AgentRun = AgentRun(status: RunStatus, intent: Intent, escalated: bool)

  /** A ticket row with the rows that hang on it; `resolutions` is the table's part for this ticket. */
  datatype Ticket = Ticket(status: Status, intent: Option<Intent>, escalatedAt: Option<int>, lastMessageAt: Option<int>,
                           assignee: Option<string>, subject: string, description: string,
                           resolutions: seq<Resolution>, messages: seq<Message>, runs: seq<AgentRun>)

  /** What the graph's snapshot says: a pending interrupt's draft, and the last values of the state. */
  datatype GraphResult = GraphResult(interrupt: Option<string>, needsHuman: bool, intent: Intent, draft: string)

  /** How a graph run went: an exception's text, if one was raised, and the snapshot afterwards. */
  datatype Outcome = Outcome(error: Option<string>, result: GraphResult)

  const NOTHING_GENERATED := "No answer generated."
  const CLOSE_NOTE := "Conversa encerrada pelo atendente."
  const CONFIRM_NOTE := "Você marcou esta conversa como resolvida."
  const UNTITLED: set<string> := {"", "Support chat", "Nova conversa"}

  function FirstLine(s: string): string {
    if s == "" || IsLineBreak(s[0]) then "" else [s[0]] + FirstLine(s[1..])
  }

  function Stripped(s: string): string { Trim(IsPySpace, s) }

  function Title(content: string): string {
    var line := FirstLine(Stripped(content));
    if |line| <= 80 then line else line[..80]
  }

  // ---------- one message ----------

  /** `append_message`; naming an untitled ticket after a blank message raises. */
  function AppendMessage(t: Ticket, m: Message, now: int): Option<Ticket> {
    var u := t.(messages := t.messages + [m], lastMessageAt := Some(now));
    if m.role == BySystem then Some(u)
    else
      var v := if t.description == "" then u.(description := m.content) else u;
      if t.subject !in UNTITLED then Some(v)
      else if Stripped(m.content) == "" then None
      else Some(v.(subject := Title(m.content)))
  }

  /** `should_persist_assistant_message` */
  predicate ShouldPersist(messages: seq<Message>, answer: string) {
    var text := Stripped(answer);
    if text == "" || messages == [] then text != ""
    else
      var last := messages[|messages| - 1];
      if last.role !in {ByAssistant, ByAgent} then true else Stripped(last.content) != text
  }

  // ---------- persisting a graph result ----------

  predicate IsAwaiting(r: GraphResult) { r.interrupt.Some? }

  predicate IsEscalating(r: GraphResult) { IsAwaiting(r) || r.needsHuman }

  predicate IsError(error: Option<string>) { error.Some? && error.value != "" }

  function NextStatus(t: Ticket, r: GraphResult, error: Option<string>): Status {
    if IsEscalating(r) then Escalated
    else if IsError(error) then Open
    else if t.status != Closed then InProgress
    else t.status
  }

  function AnswerOf(r: GraphResult, error: Option<string>, sanitize: string -> string): string {
    var raw := if IsAwaiting(r) then Stripped(r.interrupt.value)
               else if r.draft != "" then r.draft
               else if IsError(error) then error.value else NOTHING_GENERATED;
    var answer := sanitize(raw);
    if answer != "" then answer
    else if IsEscalating(r) then NOTICE
    else if IsError(error) then error.value
    else NOTHING_GENERATED
  }

  /** `_upsert_resolution` */
  function Upsert(rows: seq<Resolution>, r: Resolution): seq<Resolution> { if rows == [] then [r] else [r] + rows[1..] }

  function RunOf(r: GraphResult, error: Option<string>): AgentRun {
    AgentRun(if IsError(error) then RunFailed else if IsAwaiting(r) then RunAwaitingHuman else RunCompleted, r.intent,
             IsEscalating(r))
  }

  /** `persist_graph_result` up to the assistant's message. */
  function Recorded(t: Ticket, r: GraphResult, error: Option<string>, sanitize: string -> string, now: int): Ticket {
    t.(status := NextStatus(t, r, error), intent := Some(r.intent),
       escalatedAt := if IsEscalating(r) && t.escalatedAt.None? then Some(now) else t.escalatedAt,
       resolutions := Upsert(t.resolutions, ResolutionRow(AnswerOf(r, error, sanitize), IsEscalating(r))),
       runs := t.runs + [RunOf(r, error)])
  }

  /** `persist_graph_result` */
  function Persist(t: Ticket, r: GraphResult, error: Option<string>, sanitize: string -> string, now: int)
    : Option<Ticket>
  {
    var u := Recorded(t, r, error, sanitize, now);
    var answer := AnswerOf(r, error, sanitize);
    if ShouldPersist(u.messages, answer) then AppendMessage(u, Message(ByAssistant, answer, Some(|t.runs|)), now)
    else Some(u)
  }

  // ---------- the routes ----------

  datatype Reply = Done | Conflict | Raised

  function ErrorResult(error: string): GraphResult { GraphResult(None, false, UnknownIntent, error) }

  function OrRollback(t: Ticket, u: Option<Ticket>): (Ticket, Reply) {
    if u.Some? then (u.value, Done) else (t, Raised)
  }

  /** POST /resolve */
  function Resolve(t: Ticket, o: Outcome, sanitize: string -> string, now: int): (Ticket, Reply) {
    if t.status == Closed then (t, Conflict)
    else
      var u := t.(status := InProgress);
      OrRollback(t, if o.error.Some? then Persist(u, ErrorResult(o.error.value), o.error, sanitize, now)
                    else Persist(u, o.result, None, sanitize, now))
  }

  predicate IsAssigned(t: Ticket) { t.assignee.Some? && Stripped(t.assignee.value) != "" }

  /** POST /messages by the customer: the graph runs unless a human has taken over. */
  function CustomerMessage(t: Ticket, content: string, o: Outcome, sanitize: string -> string, now: int)
    : (Ticket, Reply)
  {
    if t.status == Closed then (t, Conflict)
    else
      var u := if IsAssigned(t) then t else t.(status := InProgress);
      var v := AppendMessage(u, Message(ByCustomer, content, None), now);
      if v.None? || IsAssigned(t) then OrRollback(t, v)
      else
        OrRollback(t, if IsError(o.error) then Persist(v.value, ErrorResult(o.error.value), o.error, sanitize, now)
                      else Persist(v.value, o.result, o.error, sanitize, now))
  }

  /** POST /messages by an agent: resumes the graph when it is interrupted. */
  function AgentMessage(t: Ticket, content: string, interrupted: bool, o: Outcome, sanitize: string -> string, now: int)
    : (Ticket, Reply)
  {
    if t.status == Closed then (t, Conflict)
    else
      var v := AppendMessage(t, Message(ByAgent, content, None), now);
      if v.None? || !interrupted then OrRollback(t, v)
      else
        var u := v.value.(status := InProgress);
        OrRollback(t, if o.error.Some? then Persist(u, ErrorResult(o.error.value), o.error, sanitize, now)
                      else Persist(u, o.result, None, sanitize, now))
  }

  /** POST /takeover: no look at the status. */
  function Takeover(t: Ticket, agent: string): (Ticket, Reply) { (t.(assignee := Some(agent)), Done) }

  /** POST /escalation/reply: an exception of the graph is not caught here. */
  function EscalationReplied(t: Ticket, o: Outcome, sanitize: string -> string, now: int): (Ticket, Reply) {
    if t.status != Escalated then (t, Conflict)
    else if o.error.Some? then (t, Raised)
    else OrRollback(t, Persist(t.(status := InProgress), o.result, None, sanitize, now))
  }

  /** POST /close */
  function Close(t: Ticket, reason: Option<string>, now: int): (Ticket, Reply) {
    if t.status == Closed then (t, Conflict)
    else
      var note := "Closed by agent. " + if reason.Some? then reason.value else "";
      var rows := if reason.None? || reason.value == "" then t.resolutions
                  else if t.resolutions == [] then [ResolutionRow(note, t.status == Escalated)]
                  else Upsert(t.resolutions, t.resolutions[0].(answer := t.resolutions[0].answer + "\n\n" + note));
      OrRollback(t, AppendMessage(t.(status := Closed, assignee := None, resolutions := rows),
                                  Message(BySystem, CLOSE_NOTE, None), now))
  }

  /** POST /confirm */
  function Confirm(t: Ticket, now: int): (Ticket, Reply) {
    if t.status == Closed then (t, Conflict)
    else if t.status == Resolved then (t, Done)
    else OrRollback(t, AppendMessage(t.(status := Resolved), Message(BySystem, CONFIRM_NOTE, None), now))
  }

  datatype Op =
    | DoResolve(outcome: Outcome)
    | DoCustomerMessage(content: string, outcome: Outcome)
    | DoAgentMessage(content: string, interrupted: bool, outcome: Outcome)
    | DoTakeover(agent: string)
    | DoEscalationReply(outcome: Outcome)
    | DoClose(reason: Option<string>)
    | DoConfirm

  function Step(t: Ticket, op: Op, sanitize: string -> string, now: int): (Ticket, Reply) {
    match op
    case DoResolve(o) => Resolve(t, o, sanitize, now)
    case DoCustomerMessage(content, o) => CustomerMessage(t, content, o, sanitize, now)
    case DoAgentMessage(content, interrupted, o) => AgentMessage(t, content, interrupted, o, sanitize, now)
    case DoTakeover(agent) => Takeover(t, agent)
    case DoEscalationReply(o) => EscalationReplied(t, o, sanitize, now)
    case DoClose(reason) => Close(t, reason, now)
    case DoConfirm => Confirm(t, now)
  }

  /** POST /tickets */
  function NewTicket(subject: string, description: string, now: int): Option<Ticket> {
    AppendMessage(Ticket(Open, None, None, None, None, subject, description, [], [], []),
                  Message(ByCustomer, description, None), now)
  }

  /** A request at a time of day. */
  datatype Request = Request(op: Op, now: int)

  function Run(t: Ticket, requests: seq<Request>, sanitize: string -> string): seq<Ticket>
    ensures |Run(t, requests, sanitize)| == |requests|
    decreases |requests|
  {
    if requests == [] then []
    else
      var u := Step(t, requests[0].op, sanitize, requests[0].now).0;
      [u] + Run(u, requests[1..], sanitize)
  }
}

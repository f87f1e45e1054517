/** What persisting, closing and writing leave in a ticket's rows, column by column. */
module TicketAnswers {
  import opened Text
  import opened GraphFlow
  import opened Tickets

  // ---------- the answer that is stored ----------

  /** The text offered to the customer: of the pending interrupt, else the draft, else the error, else a stock phrase. */
  lemma AnswerIs(r: GraphResult, error: Option<string>, sanitize: string -> string, raw: string)
    requires r.interrupt.Some? ==> raw == Trim(IsPySpace, r.interrupt.value)
    requires r.interrupt.None? && r.draft != "" ==> raw == r.draft
    requires r.interrupt.None? && r.draft == "" && error.Some? && error.value != "" ==> raw == error.value
    requires r.interrupt.None? && r.draft == "" && (error.None? || error.value == "") ==> raw == "No answer generated."
    ensures sanitize(raw) != "" ==> AnswerOf(r, error, sanitize) == sanitize(raw)
    ensures sanitize(raw) == "" && (r.interrupt.Some? || r.needsHuman) ==> AnswerOf(r, error, sanitize) == NOTICE
    ensures sanitize(raw) == "" && r.interrupt.None? && !r.needsHuman ==>
              AnswerOf(r, error, sanitize)
              == if error.Some? && error.value != "" then error.value else "No answer generated."
  {
    hide Trim, NOTICE;
  }

  /** Something is always answered. */
  lemma AnswerNeverEmpty(r: GraphResult, error: Option<string>, sanitize: string -> string)
    ensures AnswerOf(r, error, sanitize) != ""
  {
    hide Trim;
  }

  /** The answer becomes a message unless it is blank or an assistant or agent has just said it. */
  lemma PersistsIff(messages: seq<Message>, answer: string)
    ensures ShouldPersist(messages, answer)
            <==> Trim(IsPySpace, answer) != ""
                 && (messages != [] ==>
                       var last := messages[|messages| - 1];
                       last.role == ByCustomer || last.role == BySystem
                       || Trim(IsPySpace, last.content) != Trim(IsPySpace, answer))
  {
    hide Trim;
  }

  // ---------- one message ----------

  /** A message is appended as it is; it describes and names a ticket that has no text of its own yet. */
  lemma AppendedMessage(t: Ticket, m: Message, now: int)
    ensures var u := AppendMessage(t, m, now);
            && (u.None? <==> m.role != BySystem && t.subject in {"", "Support chat", "Nova conversa"}
                             && Trim(IsPySpace, m.content) == "")
            && (u.Some? ==>
                  && u.value == t.(messages := t.messages + [m], lastMessageAt := Some(now),
                                   description := u.value.description, subject := u.value.subject)
                  && (u.value.description != t.description ==>
                        t.description == "" && m.role != BySystem && u.value.description == m.content)
                  && (t.description == "" && m.role != BySystem ==> u.value.description == m.content)
                  && (m.role == BySystem || t.subject !in {"", "Support chat", "Nova conversa"} ==>
                        u.value.subject == t.subject)
                  && (m.role != BySystem && t.subject in {"", "Support chat", "Nova conversa"} ==>
                        && 0 < |u.value.subject| <= 80 && u.value.subject <= Trim(IsPySpace, m.content)
                        && NoBreakIn(u.value.subject)))
  {
    var s := Trim(IsPySpace, m.content);
    FirstLineIs(s);
    if s != "" {
      TrimIsTrimmed(IsPySpace, m.content);
      BreaksAreBlank(s[0]);
    }
    hide Trim, FirstLine, IsPySpace, IsLineBreak;
  }

  predicate NoBreakIn(s: string) { forall i :: 0 <= i < |s| ==> !IsLineBreak(s[i]) }

  lemma {:induction false} FirstLineIs(s: string)
    ensures var line := FirstLine(s);
            && line <= s && NoBreakIn(line) && (|line| < |s| ==> IsLineBreak(s[|line|]))
            && (line == "" ==> s == "" || IsLineBreak(s[0]))
  {
    if s != "" && !IsLineBreak(s[0]) {
      FirstLineIs(s[1..]);
      assert s == [s[0]] + s[1..];
    }
  }

  lemma BreaksAreBlank(c: char)
    ensures IsLineBreak(c) ==> IsPySpace(c)
  {
  }

  /** The title is the whole first line, or its first eighty characters. */
  lemma TitleIs(content: string)
    ensures var s, title := Trim(IsPySpace, content), Title(content);
            && title <= s && |title| <= 80 && NoBreakIn(title)
            && (|title| < 80 && |title| < |s| ==> IsLineBreak(s[|title|]))
  {
    FirstLineIs(Trim(IsPySpace, content));
    hide Trim, FirstLine, IsLineBreak;
  }

  // ---------- a graph result ----------

  /** One run is added, the one resolution row says the answer, and the answer is said once. */
  lemma PersistWrites(t: Ticket, r: GraphResult, error: Option<string>, sanitize: string -> string, now: int)
    requires Persist(t, r, error, sanitize, now).Some?
    ensures var u, answer := Persist(t, r, error, sanitize, now).value, AnswerOf(r, error, sanitize);
            var failed := error.Some? && error.value != "";
            var escalates := r.interrupt.Some? || r.needsHuman;
            && u.status == (if escalates then Escalated else if failed then Open
                            else if t.status == Closed then Closed else InProgress)
            && u.escalatedAt == (if escalates && t.escalatedAt.None? then Some(now) else t.escalatedAt)
            && u.intent == Some(r.intent) && u.assignee == t.assignee
            && |u.resolutions| == (if t.resolutions == [] then 1 else |t.resolutions|)
            && u.resolutions[0] == ResolutionRow(answer, escalates)
            && |u.runs| == |t.runs| + 1 && t.runs <= u.runs && u.runs[|t.runs|].intent == r.intent
            && u.runs[|t.runs|].escalated == escalates
            && (u.runs[|t.runs|].status == RunFailed <==> failed)
            && (u.runs[|t.runs|].status == RunAwaitingHuman <==> !failed && r.interrupt.Some?)
            && u.messages == t.messages + if ShouldPersist(t.messages, answer)
                                          then [Message(ByAssistant, answer, Some(|t.runs|))] else []
  {
    hide ShouldPersist, AnswerOf, Title, Stripped, UNTITLED;
    assert t.messages + [] == t.messages;
  }

  // ---------- closing and confirming ----------

  /** Closing unassigns, says so in the conversation, and notes the reason beneath the answer given so far. */
  lemma ClosingLeaves(t: Ticket, reason: Option<string>, now: int)
    requires t.status != Closed
    ensures var (u, reply) := Close(t, reason, now);
            && reply == Done && u.status == Closed && u.assignee.None? && u.lastMessageAt == Some(now)
            && u.messages == t.messages + [Message(BySystem, "Conversa encerrada pelo atendente.", None)]
            && u.runs == t.runs && u.subject == t.subject && u.description == t.description && u.intent == t.intent
            && (reason.None? || reason.value == "" ==> u.resolutions == t.resolutions)
            && (reason.Some? && reason.value != "" && t.resolutions == [] ==>
                  u.resolutions == [ResolutionRow("Closed by agent. " + reason.value, t.status == Escalated)])
            && (reason.Some? && reason.value != "" && t.resolutions != [] ==>
                  && |u.resolutions| == |t.resolutions| && u.resolutions[1..] == t.resolutions[1..]
                  && u.resolutions[0].escalated == t.resolutions[0].escalated
                  && u.resolutions[0].answer
                     == t.resolutions[0].answer + "\n\n" + ("Closed by agent. " + reason.value))
  {
  }

  /** Confirming resolves and says so, once. */
  lemma ConfirmingLeaves(t: Ticket, now: int)
    requires t.status != Closed
    ensures var (u, reply) := Confirm(t, now);
            && reply == Done && u.status == Resolved && Confirm(u, now) == (u, Done)
            && (t.status != Resolved ==>
                  u == t.(status := Resolved, lastMessageAt := Some(now),
                          messages := t.messages + [Message(BySystem, "Você marcou esta conversa como resolvida.", None)]))
            && (t.status == Resolved ==> u == t)
  {
  }

  // ---------- messages to a conversation ----------

  lemma PersistGrows(t: Ticket, r: GraphResult, error: Option<string>, sanitize: string -> string, now: int)
    ensures Persist(t, r, error, sanitize, now).Some? ==> t.messages <= Persist(t, r, error, sanitize, now).value.messages
  {
    hide ShouldPersist, AnswerOf, Title, Stripped, UNTITLED, RunOf, NextStatus;
  }

  /** What a customer writes is the next message, before anything the graph says to it; an agent's ticket only gets that. */
  lemma CustomerWrites(t: Ticket, content: string, o: Outcome, sanitize: string -> string, now: int)
    requires CustomerMessage(t, content, o, sanitize, now).1 == Done
    ensures var u, m := CustomerMessage(t, content, o, sanitize, now).0, Message(ByCustomer, content, None);
            && t.messages + [m] <= u.messages
            && (IsAssigned(t) ==> u.status == t.status && u.runs == t.runs && u.messages == t.messages + [m])
  {
    hide Persist, AppendMessage, IsAssigned;
    var m := Message(ByCustomer, content, None);
    var u := if IsAssigned(t) then t else t.(status := InProgress);
    AppendedMessage(u, m, now);
    var v := AppendMessage(u, m, now);
    if v.Some? && !IsAssigned(t) {
      if IsError(o.error) {
        PersistGrows(v.value, ErrorResult(o.error.value), o.error, sanitize, now);
      } else {
        PersistGrows(v.value, o.result, o.error, sanitize, now);
      }
    }
  }

  /** So is what an agent writes; unless the graph was interrupted, that is all that happens. */
  lemma AgentWrites(t: Ticket, content: string, interrupted: bool, o: Outcome, sanitize: string -> string, now: int)
    requires AgentMessage(t, content, interrupted, o, sanitize, now).1 == Done
    ensures var u, m := AgentMessage(t, content, interrupted, o, sanitize, now).0, Message(ByAgent, content, None);
            && t.messages + [m] <= u.messages
            && (!interrupted ==> u.status == t.status && u.runs == t.runs && u.messages == t.messages + [m])
  {
    hide Persist, AppendMessage;
    var m := Message(ByAgent, content, None);
    AppendedMessage(t, m, now);
    var v := AppendMessage(t, m, now);
    if v.Some? && interrupted {
      var u := v.value.(status := InProgress);
      if o.error.Some? {
        PersistGrows(u, ErrorResult(o.error.value), o.error, sanitize, now);
      } else {
        PersistGrows(u, o.result, None, sanitize, now);
      }
    }
  }
}

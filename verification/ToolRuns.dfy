/** What a conversation with tools contains: which turns, which calls, which tools ran and what they answered. */
module ToolRuns {
  import opened Text
  import opened Records
  import opened PolicyEscalation
  import opened GraphFlow
  import opened ToolLoop

  // ---------- permissions ----------

  /** Tools that change something need a writing scope. */
  predicate IsWriter(name: ToolName) { name in {CreateRefundRequest, CreateReturnRequest, CancelOrder} }

  predicate IsBillingReader(name: ToolName) {
    name in {GetOrder, GetOrderItems, GetPayments, GetPaymentStatus, CheckRefundEligibility}
  }

  predicate IsLogisticsReader(name: ToolName) {
    name in {GetOrder, GetOrderItems, GetShipment, GetShippingStatus, GetReturnStatus}
  }

  predicate IsAccountReader(name: ToolName) { name in {GetCustomer, VerifyIdentity} }

  /** Who may call what: a general scope for reading or for writing, or the scope of the tool's own domain. */
  lemma AuthorizedIff(scopes: set<Scope>, name: ToolName)
    ensures Authorized(scopes, name)
            <==> if IsWriter(name) then
                   || Write in scopes || (name == CreateRefundRequest && BillingWrite in scopes)
                   || (name != CreateRefundRequest && LogisticsWrite in scopes)
                 else
                   || Read in scopes || (IsBillingReader(name) && BillingRead in scopes)
                   || (IsLogisticsReader(name) && LogisticsRead in scopes)
                   || (IsAccountReader(name) && AccountRead in scopes)
  {
  }

  // ---------- which tools run, and what they answer ----------

  /** An entry of a conversation: the tool ran exactly when it was allowed and offered, with the next answer. */
  predicate IsHandled(e: Entry, scopes: set<Scope>, tools: set<ToolName>, answers: nat -> Result, before: nat) {
    && (e.ran <==> Authorized(scopes, e.call.name) && e.call.name in tools)
    && (e.ran ==> e.result == answers(before))
    && (!e.ran ==> e.result.Dict? && e.result.p.error)
  }

  /** Every entry in turn, the tools answering from `answers(used)` on. */
  predicate AllHandled(entries: seq<Entry>, scopes: set<Scope>, tools: set<ToolName>, answers: nat -> Result, used: nat)
    decreases |entries|
  {
    entries == []
    || (IsHandled(entries[0], scopes, tools, answers, used)
        && AllHandled(entries[1..], scopes, tools, answers, if entries[0].ran then used + 1 else used))
  }

  /** Entry by entry: how many tools ran before it. */
  lemma {:induction false} HandledAt(entries: seq<Entry>, i: nat, scopes: set<Scope>, tools: set<ToolName>,
                                     answers: nat -> Result, used: nat)
    requires i < |entries| && AllHandled(entries, scopes, tools, answers, used)
    ensures IsHandled(entries[i], scopes, tools, answers, used + Ran(entries[..i]))
    decreases |entries|
  {
    hide IsHandled;
    if i == 0 {
      assert entries[..0] == [];
    } else {
      HandledAt(entries[1..], i - 1, scopes, tools, answers, if entries[0].ran then used + 1 else used);
      assert entries[..i][1..] == entries[1..][..i - 1] && entries[..i][0] == entries[0];
    }
  }

  lemma {:induction false} HandledAll(scopes: set<Scope>, tools: set<ToolName>, calls: seq<ToolCall>,
                                      answers: nat -> Result, used: nat)
    ensures var es := HandleAll(scopes, tools, calls, answers, used);
            AllHandled(es, scopes, tools, answers, used) && CallsOf(es) == calls
    decreases |calls|
  {
    hide Authorized, Handle, IsHandled, CallsOf;
    if calls == [] {
      NoCalls();
    } else {
      var e := Handle(scopes, tools, calls[0], answers, used);
      var next := if e.ran then used + 1 else used;
      var rest := HandleAll(scopes, tools, calls[1..], answers, next);
      HandledAll(scopes, tools, calls[1..], answers, next);
      HandledOne(scopes, tools, calls[0], answers, used);
      FirstCall(e, rest);
      assert ([e] + rest)[1..] == rest && calls == [calls[0]] + calls[1..];
    }
  }

  lemma NoCalls()
    ensures CallsOf([]) == []
  {
  }

  lemma FirstCall(e: Entry, rest: seq<Entry>)
    ensures CallsOf([e] + rest) == [e.call] + CallsOf(rest)
  {
  }

  lemma HandledOne(scopes: set<Scope>, tools: set<ToolName>, call: ToolCall, answers: nat -> Result, used: nat)
    ensures var e := Handle(scopes, tools, call, answers, used);
            IsHandled(e, scopes, tools, answers, used) && e.call == call
  {
    hide Authorized;
  }

  lemma {:induction false} HandledConcat(a: seq<Entry>, b: seq<Entry>, scopes: set<Scope>, tools: set<ToolName>,
                                         answers: nat -> Result, used: nat)
    requires AllHandled(a, scopes, tools, answers, used) && AllHandled(b, scopes, tools, answers, used + Ran(a))
    ensures AllHandled(a + b, scopes, tools, answers, used)
    decreases |a|
  {
    hide IsHandled;
    if a == [] {
      assert a + b == b;
    } else {
      assert (a + b)[1..] == a[1..] + b;
      HandledConcat(a[1..], b, scopes, tools, answers, if a[0].ran then used + 1 else used);
    }
  }

  // ---------- the running decision ----------

  /** A result that starts the policy decision afresh: an evaluation, or the eligibility a refund request carries. */
  predicate IsBase(e: Entry) {
    e.result.Dict?
    && (e.call.name in {CheckRefundEligibility, EvaluateEscalation}
        || (e.call.name == CreateRefundRequest && e.result.p.eligibility.Some?))
  }

  function TriggerOf(e: Entry): (Option<Trigger>, bool)
    requires IsBase(e)
  {
    var p := e.result.p;
    if e.call.name == CreateRefundRequest then (p.eligibility.value.trigger, p.eligibility.value.insists)
    else (p.trigger, p.insists)
  }

  /** The decision's trigger is the last such result's; later refund requests only ever add the demand for a human. */
  lemma {:induction false} DecisionIs(entries: seq<Entry>)
    ensures var last, d := LastWhere(entries, IsBase), Counted(entries).decision;
            && (last.Some? ==> IsBase(last.value) && d.Some? && (d.value.trigger, d.value.insists) == TriggerOf(last.value))
            && (last.None? ==> d.None? || d.value == Decision(true, None, false))
  {
    if entries != [] { DecisionIs(entries[..|entries| - 1]); }
  }

  // ---------- the transcript ----------

  function CallsOf(entries: seq<Entry>): seq<ToolCall> {
    seq(|entries|, i requires 0 <= i < |entries| => entries[i].call)
  }

  /** The calls of model turns `from` to `to`, in order. */
  function CallsOfTurns(script: nat -> Response, from: nat, to: nat): seq<ToolCall>
    decreases to - from
  {
    if from >= to then [] else script(from).calls + CallsOfTurns(script, from + 1, to)
  }

  /** Every model turn followed by one tool message per call of it. */
  function Transcript(script: nat -> Response, from: nat, to: nat): seq<Message>
    decreases to - from
  {
    if from >= to then [] else [Model(script(from))] + Replies(script(from).calls) + Transcript(script, from + 1, to)
  }

  function Replies(calls: seq<ToolCall>): seq<Message> {
    seq(|calls|, i requires 0 <= i < |calls| => Tool(calls[i].id))
  }

  lemma RepliesAre(entries: seq<Entry>)
    ensures ToolMessages(entries) == Replies(CallsOf(entries))
  {
  }

  lemma CallsConcat(a: seq<Entry>, b: seq<Entry>)
    ensures CallsOf(a + b) == CallsOf(a) + CallsOf(b)
  {
  }

  /** Goes on while the model calls tools, and for four turns at most. */
  predicate GoesOn(script: nat -> Response, from: nat, to: nat) {
    && from < to <= 4 && (forall k :: from <= k < to - 1 ==> script(k).calls != [])
    && (to == 4 || script(to - 1).calls == [])
  }

  /**
   * From turn `turn` on, the conversation is turns `turn` to `end` of the model: it stops at the first turn without
   * calls or after the fourth, every call of these turns is handled in order with one reply each, and the answer is
   * what the last turn says if it calls nothing.
   */
  predicate Contains(t: Talk, scopes: set<Scope>, tools: set<ToolName>, script: nat -> Response, answers: nat -> Result,
                     turn: nat, used: nat)
  {
    var end := turn + t.turns;
    && GoesOn(script, turn, end)
    && t.messages == Transcript(script, turn, end) && CallsOf(t.entries) == CallsOfTurns(script, turn, end)
    && AllHandled(t.entries, scopes, tools, answers, used)
    && t.answer == if script(end - 1).calls == [] then script(end - 1).content else ""
  }

  lemma LastTurn(scopes: set<Scope>, tools: set<ToolName>, script: nat -> Response, answers: nat -> Result, turn: nat,
                 used: nat)
    requires turn < 4 && script(turn).calls == []
    ensures Contains(Talk([Model(script(turn))], [], script(turn).content, 1), scopes, tools, script, answers, turn, used)
  {
    assert Transcript(script, turn + 1, turn + 1) == [] && CallsOfTurns(script, turn + 1, turn + 1) == [];
    assert Replies([]) == [];
  }

  lemma FourthTurn(scopes: set<Scope>, tools: set<ToolName>, script: nat -> Response, answers: nat -> Result, used: nat)
    requires script(3).calls != []
    ensures var es := HandleAll(scopes, tools, script(3).calls, answers, used);
            Contains(Talk([Model(script(3))] + ToolMessages(es), es, "", 1), scopes, tools, script, answers, 3, used)
  {
    hide HandleAll, AllHandled, ToolMessages, Replies, CallsOf;
    HandledAll(scopes, tools, script(3).calls, answers, used);
    RepliesAre(HandleAll(scopes, tools, script(3).calls, answers, used));
    assert Transcript(script, 4, 4) == [] && CallsOfTurns(script, 4, 4) == [];
  }

  lemma OneMoreTurn(scopes: set<Scope>, tools: set<ToolName>, script: nat -> Response, answers: nat -> Result, turn: nat,
                    used: nat, rest: Talk)
    requires script(turn).calls != []
    requires var es := HandleAll(scopes, tools, script(turn).calls, answers, used);
             Contains(rest, scopes, tools, script, answers, turn + 1, used + Ran(es))
    ensures var es := HandleAll(scopes, tools, script(turn).calls, answers, used);
            Contains(Talk([Model(script(turn))] + ToolMessages(es) + rest.messages, es + rest.entries, rest.answer,
                          1 + rest.turns), scopes, tools, script, answers, turn, used)
  {
    hide HandleAll, AllHandled, ToolMessages, Replies, CallsOf, Ran;
    var es := HandleAll(scopes, tools, script(turn).calls, answers, used);
    HandledAll(scopes, tools, script(turn).calls, answers, used);
    HandledConcat(es, rest.entries, scopes, tools, answers, used);
    RepliesAre(es);
    CallsConcat(es, rest.entries);
  }

  /** The conversation, whatever the model says and the tools answer. */
  lemma {:induction false} ConversationIs(scopes: set<Scope>, tools: set<ToolName>, script: nat -> Response,
                                          answers: nat -> Result, turn: nat, used: nat)
    requires turn < 4
    ensures Contains(Converse(scopes, tools, script, answers, turn, used), scopes, tools, script, answers, turn, used)
    decreases 4 - turn
  {
    hide Contains, HandleAll, ToolMessages, Ran, Converse;
    FourTurns();
    ConverseStep(scopes, tools, script, answers, turn, used);
    if script(turn).calls == [] {
      LastTurn(scopes, tools, script, answers, turn, used);
    } else {
      var es := HandleAll(scopes, tools, script(turn).calls, answers, used);
      ConverseStep(scopes, tools, script, answers, turn + 1, used + Ran(es));
      if turn == 3 {
        FourthTurn(scopes, tools, script, answers, used);
        assert [Model(script(3))] + ToolMessages(es) + [] == [Model(script(3))] + ToolMessages(es) && es + [] == es;
      } else {
        ConversationIs(scopes, tools, script, answers, turn + 1, used + Ran(es));
        OneMoreTurn(scopes, tools, script, answers, turn, used,
                    Converse(scopes, tools, script, answers, turn + 1, used + Ran(es)));
      }
    }
  }

  /** The same, entry by entry, for the whole conversation. */
  lemma EntriesAre(scopes: set<Scope>, tools: set<ToolName>, script: nat -> Response, answers: nat -> Result, i: nat)
    requires i < |Converse(scopes, tools, script, answers, 0, 0).entries|
    ensures var es := Converse(scopes, tools, script, answers, 0, 0).entries;
            && (es[i].ran <==> Authorized(scopes, es[i].call.name) && es[i].call.name in tools)
            && (es[i].ran ==> es[i].result == answers(Ran(es[..i])))
            && (!es[i].ran ==> es[i].result.Dict? && es[i].result.p.error)
  {
    hide Converse, AllHandled, Ran, Authorized;
    ConversationIs(scopes, tools, script, answers, 0, 0);
    HandledAt(Converse(scopes, tools, script, answers, 0, 0).entries, i, scopes, tools, answers, 0);
  }

  lemma FourTurns()
    ensures MAX_TURNS == 4
  {
  }
}

/** The tool-calling loop of the domain workers (app/agents/tool_loop.py, app/security/permissions.py). */
module ToolLoop {
  import opened Text
  import opened Records
  import opened PolicyEscalation
  import opened GraphFlow

  // ---------- permissions ----------

  datatype Scope =
    | Read | Write | BillingRead | BillingWrite | LogisticsRead | LogisticsWrite | AccountRead
    | OtherScope(text: string)

  datatype ToolName =
    | GetOrder | GetOrderItems | GetPayments | GetPaymentStatus | CheckRefundEligibility | CreateRefundRequest
    | SearchKnowledgeBase | GetShipment | GetShippingStatus | GetReturnStatus | CreateReturnRequest | CancelOrder
    | GetCustomer | VerifyIdentity | EvaluateEscalation | UnlistedTool(text: string)

  /** `TOOL_PERMISSIONS`, with `["read"]` for a name it does not list. */
  function Permissions(name: ToolName): set<Scope> {
    match name
    case GetOrder => {BillingRead, LogisticsRead, Read}
    case GetOrderItems => {BillingRead, LogisticsRead, Read}
    case GetPayments => {BillingRead, Read}
    case GetPaymentStatus => {BillingRead, Read}
    case CheckRefundEligibility => {BillingRead, Read}
    case CreateRefundRequest => {BillingWrite, Write}
    case SearchKnowledgeBase => {Read}
    case GetShipment => {LogisticsRead, Read}
    case GetShippingStatus => {LogisticsRead, Read}
    case GetReturnStatus => {LogisticsRead, Read}
    case CreateReturnRequest => {LogisticsWrite, Write}
    case CancelOrder => {LogisticsWrite, Write}
    case GetCustomer => {AccountRead, Read}
    case VerifyIdentity => {AccountRead, Read}
    case EvaluateEscalation => {Read}
    case UnlistedTool(_) => {Read}
  }

  predicate Authorized(scopes: set<Scope>, name: ToolName) { exists s :: s in scopes && s in Permissions(name) }

  // ---------- what tools return ----------

  /** The keys of a result dictionary the loop reads; absent keys are `None` or false. */
  datatype Payload = Payload(error: bool, verified: Option<bool>, account: Option<AccountStatus>,
                             shipment: Option<ShipStatus>, received: Option<Option<bool>>, trigger: Option<Trigger>,
                             insists: bool, requiresHuman: bool, eligibility: Option<Decision>,
                             refund: Option<RefundStatus>, executed: bool)

  datatype Result = Dict(p: Payload) | Plain

  const ERROR_PAYLOAD := Payload(true, None, None, None, None, None, false, false, None, None, false)

  datatype ToolCall = ToolCall(name: ToolName, id: string)

  /** A model turn: what it says and the tools it calls. */
  datatype Response = Response(content: string, calls: seq<ToolCall>)

  datatype Message = Prompt(text: string) | Model(turn: Response) | Tool(id: string)

  /** One handled call; `ran` tells whether the tool itself was invoked. */
  datatype Entry = Entry(call: ToolCall, result: Result, ran: bool)

  // ---------- first pass: the conversation ----------

  const MAX_TURNS: nat := 4

  /** The outcome of one call; the tools answer from a tape, one cell an invocation. */
  function Handle(scopes: set<Scope>, tools: set<ToolName>, call: ToolCall, answers: nat -> Result, used: nat): Entry {
    if Authorized(scopes, call.name) && call.name in tools then Entry(call, answers(used), true)
    else Entry(call, Dict(ERROR_PAYLOAD), false)
  }

  function HandleAll(scopes: set<Scope>, tools: set<ToolName>, calls: seq<ToolCall>, answers: nat -> Result, used: nat)
    : seq<Entry>
    decreases |calls|
  {
    if calls == [] then []
    else
      var e := Handle(scopes, tools, calls[0], answers, used);
      [e] + HandleAll(scopes, tools, calls[1..], answers, if e.ran then used + 1 else used)
  }

  function Ran(entries: seq<Entry>): nat {
    if entries == [] then 0 else (if entries[0].ran then 1 else 0) + Ran(entries[1..])
  }

  function ToolMessages(entries: seq<Entry>): seq<Message> {
    seq(|entries|, i requires 0 <= i < |entries| => Tool(entries[i].call.id))
  }

  datatype Talk = Talk(messages: seq<Message>, entries: seq<Entry>, answer: string, turns: nat)

  /** The conversation from turn `turn` on. */
  function Converse(scopes: set<Scope>, tools: set<ToolName>, script: nat -> Response, answers: nat -> Result, turn: nat,
                    used: nat): Talk
    decreases MAX_TURNS - turn
  {
    if turn >= MAX_TURNS then Talk([], [], "", 0)
    else
      var r := script(turn);
      if r.calls == [] then Talk([Model(r)], [], r.content, 1)
      else
        var entries := HandleAll(scopes, tools, r.calls, answers, used);
        var rest := Converse(scopes, tools, script, answers, turn + 1, used + Ran(entries));
        Talk([Model(r)] + ToolMessages(entries) + rest.messages, entries + rest.entries, rest.answer, 1 + rest.turns)
  }

  // ---------- second pass: what the results mean ----------

  function LastWhere(entries: seq<Entry>, want: Entry -> bool): Option<Entry> {
    if entries == [] then None
    else if want(entries[|entries| - 1]) then Some(entries[|entries| - 1])
    else LastWhere(entries[..|entries| - 1], want)
  }

  function FirstWhere(entries: seq<Entry>, want: Entry -> bool): Option<Entry> {
    if entries == [] then None
    else if want(entries[0]) then Some(entries[0])
    else FirstWhere(entries[1..], want)
  }

  predicate IsGood(e: Entry) { e.result.Dict? && !e.result.p.error }

  predicate IsVerification(e: Entry) { IsGood(e) && e.call.name == VerifyIdentity }

  predicate IsShipping(e: Entry) { IsGood(e) && e.call.name in {GetShipment, GetShippingStatus} }

  predicate IsEvaluation(e: Entry) { IsGood(e) && e.call.name == EvaluateEscalation }

  predicate VerifiesAccount(e: Entry) { IsVerification(e) && e.result.p.account.Some? }

  predicate ShowsAccount(e: Entry) { IsGood(e) && e.result.p.account.Some? }

  predicate ShowsShipment(e: Entry) { IsShipping(e) && e.result.p.shipment.Some? }

  predicate ShowsReceipt(e: Entry) { IsShipping(e) && e.result.p.received.Some? }

  predicate ShowsTrigger(e: Entry) { IsEvaluation(e) && e.result.p.trigger.Some? }

  /** The account status: the last verification's, or else the first shown. */
  function AccountFact(entries: seq<Entry>): Option<AccountStatus> {
    var verified, shown := LastWhere(entries, VerifiesAccount), FirstWhere(entries, ShowsAccount);
    var source := if verified.Some? then verified else shown;
    if source.Some? && source.value.result.Dict? then source.value.result.p.account else None
  }

  function VerifiedFact(entries: seq<Entry>): Option<bool> {
    var e := LastWhere(entries, IsVerification);
    if e.Some? && e.value.result.Dict? then e.value.result.p.verified else None
  }

  function ShipmentFact(entries: seq<Entry>): Option<ShipStatus> {
    var e := LastWhere(entries, ShowsShipment);
    if e.Some? && e.value.result.Dict? then e.value.result.p.shipment else None
  }

  function ReceiptFact(entries: seq<Entry>): Option<bool> {
    var e := LastWhere(entries, ShowsReceipt);
    if e.Some? && e.value.result.Dict? && e.value.result.p.received.Some? then e.value.result.p.received.value else None
  }

  function TriggerFact(entries: seq<Entry>): Option<Trigger> {
    var e := LastWhere(entries, ShowsTrigger);
    if e.Some? && e.value.result.Dict? then e.value.result.p.trigger else None
  }

  predicate InsistsFact(entries: seq<Entry>) {
    var e := LastWhere(entries, IsEvaluation);
    e.Some? && e.value.result.Dict? && e.value.result.p.insists
  }

  /** `_facts_from_tool_results`, fact by fact: which error-free result each is taken from. */
  function FactsOf(entries: seq<Entry>): Facts {
    Facts(AccountFact(entries), LastWhere(entries, IsVerification).Some?, VerifiedFact(entries), ShipmentFact(entries),
          ReceiptFact(entries), false, false, false, false, InsistsFact(entries), TriggerFact(entries))
  }

  /** A result that replaces or amends the policy decision. */
  predicate IsDeciding(e: Entry) {
    e.result.Dict?
    && (e.call.name in {CheckRefundEligibility, EvaluateEscalation}
        || (e.call.name == CreateRefundRequest && (e.result.p.eligibility.Some? || e.result.p.requiresHuman)))
  }

  predicate DecidesHuman(e: Entry) {
    && e.result.Dict?
    && (e.result.p.requiresHuman
        || (e.call.name == CreateRefundRequest && e.result.p.eligibility.Some?
            && e.result.p.eligibility.value.requiresHuman))
  }

  predicate OpensRefund(e: Entry) {
    e.result.Dict? && e.call.name == CreateRefundRequest
    && e.result.p.refund in {Some(RefundRequested), Some(RefundPendingApproval)}
  }

  predicate ExecutesRefund(e: Entry) { e.result.Dict? && e.call.name == CreateRefundRequest && e.result.p.executed }

  /** The verdict of a conversation: the last deciding result, or the catalog over the facts. */
  predicate NeedsHuman(entries: seq<Entry>) {
    var last := LastWhere(entries, IsDeciding);
    (last.Some? && DecidesHuman(last.value)) || EscalationFromFacts(FactsOf(entries)).escalate
  }

  // ---------- growing a transcript by one result ----------

  lemma LastWhereAppend(entries: seq<Entry>, e: Entry, want: Entry -> bool)
    ensures LastWhere(entries + [e], want) == if want(e) then Some(e) else LastWhere(entries, want)
  {
    assert (entries + [e])[..|entries|] == entries;
  }

  lemma {:induction false} FirstWhereAppend(entries: seq<Entry>, e: Entry, want: Entry -> bool)
    ensures FirstWhere(entries + [e], want)
            == var f := FirstWhere(entries, want); if f.Some? then f else if want(e) then Some(e) else None
  {
    if entries == [] {
      assert entries + [e] == [e] && [e][1..] == [];
    } else {
      assert (entries + [e])[1..] == entries[1..] + [e];
      FirstWhereAppend(entries[1..], e, want);
    }
  }

  lemma {:induction false} FoundWanted(entries: seq<Entry>, want: Entry -> bool)
    ensures LastWhere(entries, want).Some? ==> want(LastWhere(entries, want).value)
    ensures FirstWhere(entries, want).Some? ==> want(FirstWhere(entries, want).value)
    ensures LastWhere(entries, want).Some? <==> exists e :: e in entries && want(e)
    ensures FirstWhere(entries, want).Some? <==> exists e :: e in entries && want(e)
    decreases |entries|
  {
    if entries != [] {
      FoundWanted(entries[1..], want);
      FoundWanted(entries[..|entries| - 1], want);
      assert entries == [entries[0]] + entries[1..];
      assert entries == entries[..|entries| - 1] + [entries[|entries| - 1]];
    }
  }

  function WithIdentity(f: Facts, p: Payload): Facts {
    f.(identityChecked := true, identityVerified := p.verified,
       account := if p.account.Some? then p.account else f.account)
  }

  function WithShipping(f: Facts, p: Payload): Facts {
    f.(shipment := if p.shipment.Some? then p.shipment else f.shipment,
       received := if p.received.Some? then p.received.value else f.received)
  }

  function WithEvaluation(f: Facts, p: Payload): Facts {
    f.(trigger := if p.trigger.Some? then p.trigger else f.trigger, insists := p.insists)
  }

  /** One more result, as the source's loop folds it into the facts. */
  function FoldFact(f: Facts, e: Entry): Facts {
    if !IsGood(e) then f
    else
      var p, name := e.result.p, e.call.name;
      var a := if name == VerifyIdentity then WithIdentity(f, p) else f;
      var b := if name in {GetShipment, GetShippingStatus} then WithShipping(a, p) else a;
      var c := if name == EvaluateEscalation then WithEvaluation(b, p) else b;
      if p.account.Some? && c.account.None? then c.(account := p.account) else c
  }

  lemma AppendAccount(entries: seq<Entry>, e: Entry)
    ensures AccountFact(entries + [e])
            == if VerifiesAccount(e) || (ShowsAccount(e) && AccountFact(entries).None?) then e.result.p.account
               else AccountFact(entries)
  {
    LastWhereAppend(entries, e, VerifiesAccount);
    FirstWhereAppend(entries, e, ShowsAccount);
    FoundWanted(entries, VerifiesAccount);
    FoundWanted(entries, ShowsAccount);
    hide LastWhere, FirstWhere;
  }

  lemma AppendVerification(entries: seq<Entry>, e: Entry)
    ensures VerifiedFact(entries + [e]) == if IsVerification(e) then e.result.p.verified else VerifiedFact(entries)
    ensures LastWhere(entries + [e], IsVerification).Some?
            <==> IsVerification(e) || LastWhere(entries, IsVerification).Some?
  {
    LastWhereAppend(entries, e, IsVerification);
    hide LastWhere;
  }

  lemma AppendShipping(entries: seq<Entry>, e: Entry)
    ensures ShipmentFact(entries + [e]) == if ShowsShipment(e) then e.result.p.shipment else ShipmentFact(entries)
    ensures ReceiptFact(entries + [e]) == if ShowsReceipt(e) then e.result.p.received.value else ReceiptFact(entries)
  {
    LastWhereAppend(entries, e, ShowsShipment);
    LastWhereAppend(entries, e, ShowsReceipt);
    hide LastWhere;
  }

  lemma AppendEvaluation(entries: seq<Entry>, e: Entry)
    ensures TriggerFact(entries + [e]) == if ShowsTrigger(e) then e.result.p.trigger else TriggerFact(entries)
    ensures InsistsFact(entries + [e]) == if IsEvaluation(e) then e.result.p.insists else InsistsFact(entries)
  {
    LastWhereAppend(entries, e, ShowsTrigger);
    LastWhereAppend(entries, e, IsEvaluation);
    hide LastWhere;
  }

  lemma AppendFacts(entries: seq<Entry>, e: Entry)
    ensures FactsOf(entries + [e]) == FoldFact(FactsOf(entries), e)
  {
    AppendAccount(entries, e);
    AppendVerification(entries, e);
    AppendShipping(entries, e);
    AppendEvaluation(entries, e);
    hide AccountFact, VerifiedFact, ShipmentFact, ReceiptFact, TriggerFact, InsistsFact, LastWhere;
  }

  method AddFacts(before: Facts, e: Entry) returns (facts: Facts)
    ensures facts == FoldFact(before, e)
  {
    hide WithIdentity, WithShipping, WithEvaluation;
    facts := before;
    if !IsGood(e) { return; }
    var p, name := e.result.p, e.call.name;
    if name == VerifyIdentity { facts := WithIdentity(facts, p); }
    if name in {GetShipment, GetShippingStatus} { facts := WithShipping(facts, p); }
    if name == EvaluateEscalation { facts := WithEvaluation(facts, p); }
    if p.account.Some? && facts.account.None? { facts := facts.(account := p.account); }
  }

  method FactsFromResults(entries: seq<Entry>) returns (facts: Facts)
    ensures facts == FactsOf(entries)
  {
    hide FactsOf, FoldFact;
    facts := NO_FACTS;
    NoFacts();
    for i := 0 to |entries|
      invariant facts == FactsOf(entries[..i])
    {
      AppendFacts(entries[..i], entries[i]);
      assert entries[..i] + [entries[i]] == entries[..i + 1];
      facts := AddFacts(facts, entries[i]);
    }
    assert entries[..|entries|] == entries;
  }

  lemma NoFacts()
    ensures FactsOf([]) == NO_FACTS
  {
  }

  // ---------- the running tally ----------

  datatype Tally = Tally(decision: Option<Decision>, refundSuccess: bool, refundExecuted: bool)

  const NO_TALLY := Tally(None, false, false)

  function DecisionOf(p: Payload): Decision { Decision(p.requiresHuman, p.trigger, p.insists) }

  /** One more result, as the loop reads it. */
  function Count(t: Tally, e: Entry): Tally {
    if !e.result.Dict? then t
    else
      var p := e.result.p;
      match e.call.name
      case CheckRefundEligibility => t.(decision := Some(DecisionOf(p)))
      case EvaluateEscalation => t.(decision := Some(DecisionOf(p)))
      case CreateRefundRequest =>
        var base := if p.eligibility.Some? then p.eligibility else t.decision;
        Tally(if p.requiresHuman then Some(Demanding(base)) else base,
              t.refundSuccess || p.refund in {Some(RefundRequested), Some(RefundPendingApproval)},
              t.refundExecuted || p.executed)
      case _ => t
  }

  /** The decision with `requires_human` set, or a fresh one. */
  function Demanding(d: Option<Decision>): Decision {
    if d.Some? then d.value.(requiresHuman := true) else Decision(true, None, false)
  }

  function Counted(entries: seq<Entry>): Tally {
    if entries == [] then NO_TALLY else Count(Counted(entries[..|entries| - 1]), entries[|entries| - 1])
  }

  lemma CountedAppend(entries: seq<Entry>, e: Entry)
    ensures Counted(entries + [e]) == Count(Counted(entries), e)
  {
    assert (entries + [e])[..|entries|] == entries;
  }

  predicate Demands(d: Option<Decision>) { d.Some? && d.value.requiresHuman }

  /** The running decision demands a human exactly when the last deciding result does. */
  lemma {:induction false} CountedDemands(entries: seq<Entry>)
    ensures var last := LastWhere(entries, IsDeciding);
            Demands(Counted(entries).decision) <==> last.Some? && DecidesHuman(last.value)
  {
    if entries != [] { CountedDemands(entries[..|entries| - 1]); }
  }

  lemma CountRefund(t: Tally, e: Entry)
    ensures Count(t, e).refundSuccess <==> t.refundSuccess || OpensRefund(e)
    ensures Count(t, e).refundExecuted <==> t.refundExecuted || ExecutesRefund(e)
  {
  }

  lemma {:induction false} CountedRefunds(entries: seq<Entry>)
    ensures Counted(entries).refundSuccess <==> exists e :: e in entries && OpensRefund(e)
    ensures Counted(entries).refundExecuted <==> exists e :: e in entries && ExecutesRefund(e)
  {
    if entries != [] {
      var init, last := entries[..|entries| - 1], entries[|entries| - 1];
      CountedRefunds(init);
      assert entries == init + [last] && last in entries;
      CountRefund(Counted(init), last);
      hide Counted, Count, OpensRefund, ExecutesRefund;
    }
  }

  // ---------- the loop ----------

  const NO_ANSWER := "I need more information to help with this request."

  method HandleCalls(scopes: set<Scope>, tools: set<ToolName>, calls: seq<ToolCall>, answers: nat -> Result, used: nat,
                     before: Tally, ghost past: seq<Entry>)
    returns (entries: seq<Entry>, messages: seq<Message>, spent: nat, tally: Tally)
    requires before == Counted(past)
    ensures entries == HandleAll(scopes, tools, calls, answers, used) && spent == used + Ran(entries)
    ensures messages == ToolMessages(entries) && tally == Counted(past + entries)
  {
    hide Authorized, Counted, Count, HandleAll, Ran, ToolMessages;
    entries, messages, spent, tally := [], [], used, before;
    NothingHandled(scopes, tools, calls, answers, used, past);
    for i := 0 to |calls|
      invariant HandleAll(scopes, tools, calls, answers, used)
                == entries + HandleAll(scopes, tools, calls[i..], answers, spent)
      invariant spent == used + Ran(entries) && messages == ToolMessages(entries) && tally == Counted(past + entries)
    {
      var call := calls[i];
      var result, ran := Dict(ERROR_PAYLOAD), false;
      if Authorized(scopes, call.name) {
        if call.name in tools {
          result, ran := answers(spent), true;
        }
      }
      var e := Entry(call, result, ran);
      HandledNext(scopes, tools, calls, answers, spent, i, e, entries, past);
      if ran { spent := spent + 1; }
      entries := entries + [e];
      messages := messages + [Tool(call.id)];
      tally := Count(tally, e);
    }
    NothingLeft(scopes, tools, calls, answers, spent, entries);
  }

  lemma NothingHandled(scopes: set<Scope>, tools: set<ToolName>, calls: seq<ToolCall>, answers: nat -> Result, used: nat,
                       past: seq<Entry>)
    ensures HandleAll(scopes, tools, calls, answers, used) == [] + HandleAll(scopes, tools, calls[0..], answers, used)
    ensures Ran([]) == 0 && ToolMessages([]) == [] && Counted(past + []) == Counted(past)
  {
    assert calls[0..] == calls && past + [] == past;
  }

  lemma NothingLeft(scopes: set<Scope>, tools: set<ToolName>, calls: seq<ToolCall>, answers: nat -> Result, used: nat,
                    entries: seq<Entry>)
    ensures entries + HandleAll(scopes, tools, calls[|calls|..], answers, used) == entries
  {
  }

  /** One more call handled. */
  lemma HandledNext(scopes: set<Scope>, tools: set<ToolName>, calls: seq<ToolCall>, answers: nat -> Result, used: nat,
                    i: nat, e: Entry, entries: seq<Entry>, past: seq<Entry>)
    requires i < |calls| && e == Handle(scopes, tools, calls[i], answers, used)
    ensures entries + HandleAll(scopes, tools, calls[i..], answers, used)
            == entries + [e] + HandleAll(scopes, tools, calls[i + 1..], answers, if e.ran then used + 1 else used)
    ensures Ran(entries + [e]) == Ran(entries) + if e.ran then 1 else 0
    ensures ToolMessages(entries + [e]) == ToolMessages(entries) + [Tool(e.call.id)]
    ensures Counted(past + (entries + [e])) == Count(Counted(past + entries), e)
  {
    hide Handle, Counted, Count;
    assert calls[i..][0] == calls[i] && calls[i..][1..] == calls[i + 1..];
    RanAppend(entries, e);
    CountedAppend(past + entries, e);
    assert past + (entries + [e]) == past + entries + [e];
  }

  lemma {:induction false} RanAppend(entries: seq<Entry>, e: Entry)
    ensures Ran(entries + [e]) == Ran(entries) + if e.ran then 1 else 0
  {
    if entries == [] {
      assert [] + [e] == [e] && [e][1..] == [];
    } else {
      assert (entries + [e])[1..] == entries[1..] + [e];
      RanAppend(entries[1..], e);
    }
  }

  method RunToolLoop(scopes: set<Scope>, tools: set<ToolName>, start: seq<Message>, script: nat -> Response,
                     answers: nat -> Result)
    returns (work: Work, messages: seq<Message>, entries: seq<Entry>, turns: nat)
    ensures var t := Converse(scopes, tools, script, answers, 0, 0);
            && messages == start + t.messages && entries == t.entries && turns == t.turns
            && work.draft == if t.answer == "" then "I need more information to help with this request." else t.answer
    ensures work.needsHuman <==> NeedsHuman(entries)
    ensures Demands(work.decision) <==> work.needsHuman
    ensures var c := EscalationFromFacts(FactsOf(entries));
            if c.escalate then work.decision.Some? && c.cause.Listed? && work.decision.value.trigger == Some(c.cause.trigger)
            else work.decision == Counted(entries).decision
    ensures work.refundSuccess <==> exists e :: e in entries && OpensRefund(e)
    ensures work.refundExecuted <==> exists e :: e in entries && ExecutesRefund(e)
  {
    var answer, tally;
    messages, entries, turns, answer, tally := Chat(scopes, tools, start, script, answers);
    hide HandleAll, Counted, FactsOf, EscalationFromFacts, LastWhere, Converse;
    if answer == "" { answer := NO_ANSWER; }
    CountedDemands(entries);
    CountedRefunds(entries);
    var needsHuman, decision := Demands(tally.decision), tally.decision;
    var facts := FactsFromResults(entries);
    var catalog := EscalationFromFacts(facts);
    EscalationListed(facts);
    if catalog.escalate {
      needsHuman := true;
      var merged := Demanding(decision);
      decision := Some(if catalog.cause.Listed? then merged.(trigger := Some(catalog.cause.trigger)) else merged);
    }
    work := Work(answer, needsHuman, decision, tally.refundSuccess, tally.refundExecuted);
  }

  lemma EscalationListed(f: Facts)
    ensures EscalationFromFacts(f).escalate ==> EscalationFromFacts(f).cause.Listed?
  {
  }

  /** The turns with the model. */
  method Chat(scopes: set<Scope>, tools: set<ToolName>, start: seq<Message>, script: nat -> Response,
              answers: nat -> Result)
    returns (messages: seq<Message>, entries: seq<Entry>, turns: nat, answer: string, tally: Tally)
    ensures Talk(messages, entries, answer, turns) == After(start, Converse(scopes, tools, script, answers, 0, 0))
    ensures tally == Counted(entries)
  {
    hide HandleAll, Counted, Converse, Ran, ToolMessages;
    messages, entries, turns, answer, tally := start, [], 0, "", NO_TALLY;
    NothingCounted();
    var used := 0;
    ghost var whole := After(start, Converse(scopes, tools, script, answers, 0, 0));
    while turns < MAX_TURNS
      invariant turns <= MAX_TURNS && tally == Counted(entries) && answer == ""
      invariant whole == Onward(messages, entries, turns, Converse(scopes, tools, script, answers, turns, used))
    {
      var response := script(turns);
      ConverseStep(scopes, tools, script, answers, turns, used);
      if response.calls == [] {
        return messages + [Model(response)], entries, turns + 1, response.content, tally;
      }
      messages := messages + [Model(response)];
      var more, replies, spent;
      more, replies, spent, tally := HandleCalls(scopes, tools, response.calls, answers, used, tally, entries);
      OnwardStep(messages, entries, turns, replies, more, Converse(scopes, tools, script, answers, turns + 1, spent));
      entries, messages, turns, used := entries + more, messages + replies, turns + 1, spent;
    }
    ConverseStep(scopes, tools, script, answers, turns, used);
  }

  function After(start: seq<Message>, t: Talk): Talk { t.(messages := start + t.messages) }

  /** What has been said, followed by what is still to come. */
  function Onward(messages: seq<Message>, entries: seq<Entry>, turns: nat, rest: Talk): Talk {
    Talk(messages + rest.messages, entries + rest.entries, rest.answer, turns + rest.turns)
  }

  lemma ConverseStep(scopes: set<Scope>, tools: set<ToolName>, script: nat -> Response, answers: nat -> Result,
                     turn: nat, used: nat)
    ensures var t := Converse(scopes, tools, script, answers, turn, used);
            if turn >= MAX_TURNS then t == Talk([], [], "", 0)
            else if script(turn).calls == [] then t == Talk([Model(script(turn))], [], script(turn).content, 1)
            else
              var entries := HandleAll(scopes, tools, script(turn).calls, answers, used);
              t == Onward([Model(script(turn))] + ToolMessages(entries), entries, 1,
                          Converse(scopes, tools, script, answers, turn + 1, used + Ran(entries)))
  {
    hide HandleAll, Ran, ToolMessages;
  }

  lemma OnwardStep(messages: seq<Message>, entries: seq<Entry>, turns: nat, replies: seq<Message>, more: seq<Entry>,
                   rest: Talk)
    requires messages != []
    ensures Onward(messages[..|messages| - 1], entries, turns, Onward([messages[|messages| - 1]] + replies, more, 1, rest))
            == Onward(messages + replies, entries + more, turns + 1, rest)
  {
  }

  lemma NothingCounted()
    ensures Counted([]) == NO_TALLY
  {
  }

  // ---------- what the loop guarantees ----------

  lemma {:induction false} HandledIsAuthorized(scopes: set<Scope>, tools: set<ToolName>, calls: seq<ToolCall>,
                                               answers: nat -> Result, used: nat)
    ensures var es := HandleAll(scopes, tools, calls, answers, used);
            && |es| == |calls| && (forall i :: 0 <= i < |es| ==> es[i].call == calls[i])
            && AllAuthorized(es, scopes, tools)
    decreases |calls|
  {
    hide Authorized;
    if calls != [] {
      var e := Handle(scopes, tools, calls[0], answers, used);
      HandledIsAuthorized(scopes, tools, calls[1..], answers, if e.ran then used + 1 else used);
    }
  }

  predicate AllAuthorized(entries: seq<Entry>, scopes: set<Scope>, tools: set<ToolName>) {
    forall e :: e in entries && e.ran ==> Authorized(scopes, e.call.name) && e.call.name in tools
  }

  lemma AllAuthorizedConcat(a: seq<Entry>, b: seq<Entry>, scopes: set<Scope>, tools: set<ToolName>)
    requires AllAuthorized(a, scopes, tools) && AllAuthorized(b, scopes, tools)
    ensures AllAuthorized(a + b, scopes, tools)
  {
    hide Authorized;
  }

  /** At most four model turns, and no tool runs that is not offered or that the scopes do not allow. */
  lemma {:induction false} ConversationBounds(scopes: set<Scope>, tools: set<ToolName>, script: nat -> Response,
                                              answers: nat -> Result, turn: nat, used: nat)
    requires turn <= MAX_TURNS
    ensures var t := Converse(scopes, tools, script, answers, turn, used);
            t.turns <= MAX_TURNS - turn && AllAuthorized(t.entries, scopes, tools)
    decreases MAX_TURNS - turn
  {
    NothingToAuthorize(scopes, tools);
    ConverseStep(scopes, tools, script, answers, turn, used);
    hide Authorized, HandleAll, Converse, AllAuthorized, Ran, ToolMessages;
    if turn < MAX_TURNS && script(turn).calls != [] {
      HandledIsAuthorized(scopes, tools, script(turn).calls, answers, used);
      var entries := HandleAll(scopes, tools, script(turn).calls, answers, used);
      ConversationBounds(scopes, tools, script, answers, turn + 1, used + Ran(entries));
      AllAuthorizedConcat(entries, Converse(scopes, tools, script, answers, turn + 1, used + Ran(entries)).entries, scopes,
                          tools);
    }
  }

  lemma NothingToAuthorize(scopes: set<Scope>, tools: set<ToolName>)
    ensures AllAuthorized([], scopes, tools)
  {
  }

  /** One tool message per handled call, in order. */
  lemma {:induction false} OneReplyPerCall(scopes: set<Scope>, tools: set<ToolName>, script: nat -> Response,
                                           answers: nat -> Result, turn: nat, used: nat)
    ensures var t := Converse(scopes, tools, script, answers, turn, used); ToolIds(t.messages) == EntryIds(t.entries)
    decreases MAX_TURNS - turn
  {
    NoEntryIds();
    ConverseStep(scopes, tools, script, answers, turn, used);
    hide HandleAll, ToolIds, EntryIds, ToolMessages, Converse, Ran;
    if turn < MAX_TURNS {
      var r := script(turn);
      NoToolIds(r);
      if r.calls != [] {
        var entries := HandleAll(scopes, tools, r.calls, answers, used);
        OneReplyPerCall(scopes, tools, script, answers, turn + 1, used + Ran(entries));
        var rest := Converse(scopes, tools, script, answers, turn + 1, used + Ran(entries));
        ToolIdsOf(entries);
        ToolIdsConcat([Model(r)] + ToolMessages(entries), rest.messages);
        ToolIdsConcat([Model(r)], ToolMessages(entries));
        EntryIdsConcat(entries, rest.entries);
      }
    }
  }

  lemma NoEntryIds()
    ensures EntryIds([]) == [] && ToolIds([]) == []
  {
  }

  function ToolIds(messages: seq<Message>): seq<string> {
    if messages == [] then []
    else (if messages[0].Tool? then [messages[0].id] else []) + ToolIds(messages[1..])
  }

  function EntryIds(entries: seq<Entry>): seq<string> {
    seq(|entries|, i requires 0 <= i < |entries| => entries[i].call.id)
  }

  lemma {:induction false} ToolIdsConcat(a: seq<Message>, b: seq<Message>)
    ensures ToolIds(a + b) == ToolIds(a) + ToolIds(b)
  {
    if a == [] {
      assert a + b == b;
    } else {
      assert (a + b)[1..] == a[1..] + b;
      ToolIdsConcat(a[1..], b);
    }
  }

  lemma EntryIdsConcat(a: seq<Entry>, b: seq<Entry>)
    ensures EntryIds(a + b) == EntryIds(a) + EntryIds(b)
  {
  }

  lemma {:induction false} ToolIdsOf(entries: seq<Entry>)
    ensures ToolIds(ToolMessages(entries)) == EntryIds(entries)
  {
    if entries != [] {
      assert ToolMessages(entries)[1..] == ToolMessages(entries[1..]);
      ToolIdsOf(entries[1..]);
    }
  }

  lemma NoToolIds(r: Response)
    ensures ToolIds([Model(r)]) == []
  {
    assert [Model(r)][1..] == [];
  }

  // ---------- a later result can drop an earlier demand ----------

  const ASKED := Entry(ToolCall(CheckRefundEligibility, "a"),
                       Dict(ERROR_PAYLOAD.(error := false, requiresHuman := true)), true)
  const EVALUATED := Entry(ToolCall(EvaluateEscalation, "b"),
                           Dict(ERROR_PAYLOAD.(error := false, trigger := Some(LawfulRefusal))), true)

  lemma DropFacts()
    ensures FoldFact(NO_FACTS, ASKED) == NO_FACTS
    ensures FoldFact(NO_FACTS, EVALUATED) == NO_FACTS.(trigger := Some(LawfulRefusal))
    ensures !EscalationFromFacts(NO_FACTS.(trigger := Some(LawfulRefusal))).escalate
    ensures IsDeciding(ASKED) && DecidesHuman(ASKED) && IsDeciding(EVALUATED) && !DecidesHuman(EVALUATED)
  {
  }

  /** A refund that needs a human, then an evaluation that does not: nobody is called. */
  lemma LaterResultDropsHuman()
    ensures NeedsHuman([ASKED]) && !NeedsHuman([ASKED, EVALUATED])
  {
    hide FactsOf, LastWhere, FoldFact, EscalationFromFacts, IsDeciding, DecidesHuman, ASKED, EVALUATED, NO_FACTS;
    NoFacts();
    DropFacts();
    AppendFacts([], ASKED);
    AppendFacts([ASKED], EVALUATED);
    assert [] + [ASKED] == [ASKED] && [ASKED] + [EVALUATED] == [ASKED, EVALUATED];
    LastWhereAppend([], ASKED, IsDeciding);
    LastWhereAppend([ASKED], EVALUATED, IsDeciding);
  }

  /** Even a failed eligibility lookup drops it: an error dictionary carries no demand. */
  lemma FailedLookupDropsHuman(entries: seq<Entry>, id: string)
    requires !EscalationFromFacts(FactsOf(entries)).escalate
    ensures !NeedsHuman(entries + [Entry(ToolCall(CheckRefundEligibility, id), Dict(ERROR_PAYLOAD), false)])
  {
    var e := Entry(ToolCall(CheckRefundEligibility, id), Dict(ERROR_PAYLOAD), false);
    AppendFacts(entries, e);
    LastWhereAppend(entries, e, IsDeciding);
    hide FactsOf, LastWhere, EscalationFromFacts;
  }

  lemma {:induction false} LastWhereConcat(entries: seq<Entry>, more: seq<Entry>, want: Entry -> bool)
    ensures LastWhere(entries + more, want)
            == var last := LastWhere(more, want); if last.Some? then last else LastWhere(entries, want)
    decreases |more|
  {
    if more == [] {
      assert entries + more == entries;
    } else {
      var n := |more| - 1;
      assert entries + more == (entries + more[..n]) + [more[n]];
      LastWhereAppend(entries + more[..n], more[n], want);
      LastWhereConcat(entries, more[..n], want);
    }
  }

  function FoldFacts(f: Facts, more: seq<Entry>): Facts
    decreases |more|
  {
    if more == [] then f else FoldFacts(FoldFact(f, more[0]), more[1..])
  }

  lemma {:induction false} FactsConcat(entries: seq<Entry>, more: seq<Entry>)
    ensures FactsOf(entries + more) == FoldFacts(FactsOf(entries), more)
    decreases |more|
  {
    hide FactsOf, FoldFact;
    if more == [] {
      assert entries + more == entries;
    } else {
      assert entries + more == (entries + [more[0]]) + more[1..];
      AppendFacts(entries, more[0]);
      FactsConcat(entries + [more[0]], more[1..]);
    }
  }

  /**
   * When further results keep a demand: exactly when the catalog hits the facts carried on through them, or the
   * last deciding result of all demands a human.
   */
  lemma DemandSurvivesIff(entries: seq<Entry>, more: seq<Entry>)
    requires NeedsHuman(entries)
    ensures NeedsHuman(entries + more)
            <==> || EscalationFromFacts(FoldFacts(FactsOf(entries), more)).escalate
                 || (var late, early := LastWhere(more, IsDeciding), LastWhere(entries, IsDeciding);
                     var last := if late.Some? then late else early;
                     last.Some? && DecidesHuman(last.value))
  {
    FactsConcat(entries, more);
    LastWhereConcat(entries, more, IsDeciding);
    hide FactsOf, LastWhere, EscalationFromFacts, FoldFacts, IsDeciding, DecidesHuman;
  }

  const VERIFIED := Entry(ToolCall(VerifyIdentity, "v"),
                          Dict(ERROR_PAYLOAD.(error := false, verified := Some(true), account := Some(Active))), true)
  const ARRIVED := Entry(ToolCall(GetShipment, "s"), Dict(ERROR_PAYLOAD.(error := false, received := Some(Some(true)))), true)

  /** No demand is final: whatever came before, three good results later nobody is called. */
  lemma NoDemandIsFinal(entries: seq<Entry>)
    ensures !NeedsHuman(entries + [VERIFIED, ARRIVED, EVALUATED])
  {
    hide FactsOf, LastWhere, EscalationFromFacts, FoldFact, FoldFacts, IsDeciding, DecidesHuman, VERIFIED, ARRIVED, EVALUATED;
    FactsConcat(entries, [VERIFIED, ARRIVED, EVALUATED]);
    FoldThree(FactsOf(entries), VERIFIED, ARRIVED, EVALUATED);
    NothingReported(entries);
    CalmFacts(FactsOf(entries));
    DropFacts();
    assert entries + [VERIFIED, ARRIVED, EVALUATED] == entries + [VERIFIED, ARRIVED] + [EVALUATED];
    LastWhereAppend(entries + [VERIFIED, ARRIVED], EVALUATED, IsDeciding);
  }

  /** The three results replace every fact the results can carry. */
  lemma CalmFacts(f: Facts)
    requires !f.fraudReported && !f.chargeback && !f.privacy && !f.technical
    ensures !EscalationFromFacts(FoldFact(FoldFact(FoldFact(f, VERIFIED), ARRIVED), EVALUATED)).escalate
  {
    var g := FoldFact(f, VERIFIED);
    assert g.account == Some(Active) && g.identityVerified == Some(true) && g.shipment == f.shipment;
    var h := FoldFact(g, ARRIVED);
    assert h == g.(received := Some(true));
    assert FoldFact(h, EVALUATED) == h.(trigger := Some(LawfulRefusal), insists := false);
  }

  lemma FoldThree(f: Facts, a: Entry, b: Entry, c: Entry)
    ensures FoldFacts(f, [a, b, c]) == FoldFact(FoldFact(FoldFact(f, a), b), c)
  {
    hide FoldFact;
    assert [a, b, c][1..] == [b, c] && [b, c][1..] == [c] && [c][1..] == [];
    assert FoldFacts(FoldFact(f, a), [b, c]) == FoldFacts(FoldFact(FoldFact(f, a), b), [c]);
    assert FoldFacts(FoldFact(FoldFact(f, a), b), [c]) == FoldFact(FoldFact(FoldFact(f, a), b), c);
  }

  lemma NothingReported(entries: seq<Entry>)
    ensures var f := FactsOf(entries); !f.fraudReported && !f.chargeback && !f.privacy && !f.technical
  {
  }
}

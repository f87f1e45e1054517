/** What any run of tool calls does to refunds and order statuses. */
module ToolsRefunds {
  import opened Text
  import opened Records
  import opened PolicyRules
  import opened WorldIntegrity
  import opened WorldInvariant
  import opened WorldSound
  import opened WorldSpec
  import opened WorldTheorem
  import opened Tools
  import opened ToolsEntitlement

  // ---------- the ledger the tools rely on ----------

  /** A payment is for the whole of an order. */
  predicate PaymentsMatch(w: Tables) {
    forall p :: p in w.payments ==> exists o :: o in w.orders && o.id == p.orderId && p.amount == o.total
  }

  predicate DeliveredIsPaid(w: Tables) {
    forall o :: o in w.orders && o.actualDelivery.Some? ==> PaidCount(w.payments, o.id) >= 1
  }

  predicate TotalsPositive(w: Tables) { forall o :: o in w.orders ==> o.total >= 0 }

  predicate Ledger(w: Tables) {
    UniqueOrders(w.orders) && PaymentsMatch(w) && DeliveredIsPaid(w) && TotalsPositive(w) && RefundsOk(w)
  }

  /** Every generated world is such a ledger. */
  lemma GeneratedLedger(w: Tables, pos: nat, allowed: seq<string>)
    requires Inv(w, pos, allowed)
    ensures Ledger(w)
  {
    hide LineSum, PaidCount, PaidSum, ItemsOk, OrdersOk, ReturnsOk, TicketsOk, DoublesOk, EmailsDistinct, ShipmentsOk;
    forall p | p in w.payments ensures exists o :: o in w.orders && o.id == p.orderId && p.amount == o.total {
    }
  }

  // ---------- what was paid ----------

  lemma AmountsAreTotals(w: Tables, o: Order)
    requires UniqueOrders(w.orders) && PaymentsMatch(w) && o in w.orders
    ensures forall p :: p in w.payments && p.orderId == o.id ==> p.amount == o.total
  {
    forall p | p in w.payments && p.orderId == o.id ensures p.amount == o.total {
      var q :| q in w.orders && q.id == p.orderId && p.amount == q.total;
      SameOrder(w.orders, o, q);
    }
  }

  lemma PaidIsMultiple(w: Tables, o: Order)
    requires Ledger(w) && o in w.orders
    ensures PaidSum(w.payments, o.id) == PaidCount(w.payments, o.id) * o.total
  {
    AmountsAreTotals(w, o);
    PaidSumIs(w.payments, o.id, o.total);
  }

  // ---------- one refund ----------

  /** The case `can_refund` was asked about: the order's whole amount, and something paid. */
  lemma FactsOfLedger(w: Tables, o: Order, now: Time, reason: Reason, verified: bool, p: Policy)
    requires Ledger(w) && o in w.orders
    ensures var c := RefundFacts(w, o, now, reason, verified);
            c.amount == o.total && c.verified == verified
            && (CanRefund(c, p).eligible ==> PaidCount(w.payments, o.id) >= 1)
  {
    PaidRowsCounted(w.payments, o.id);
    AmountsAreTotals(w, o);
    var c := RefundFacts(w, o, now, reason, verified);
    var paid := PaidRows(OrderPayments(w, o));
    if |paid| >= 2 {
      assert paid[0] in paid;
    }
    RefundEligibility(c, p);
    hide CanRefund, LinesFor, PrimaryProduct, PaymentsFor, PaidRows, PaidSum, RefundsOk, UniqueOrders, PaymentsMatch;
  }

  /** One of the context's customer's orders (any order, if there is no customer), and the one the reference names. */
  predicate IsOwnOrder(s: State, ref: Ref, o: Order) {
    o in s.w.orders && Names(ref, o.id, o.publicId) && (s.ctx.customer == None || s.ctx.customer == Some(o.customerId))
  }

  /** The row announced: this order, its whole amount, the reason asked, and whether a human must approve. */
  predicate IsRowFor(row: Refund, r: Reply, o: Order, reason: Reason, approval: bool) {
    && r.RefundOpened? && row.publicId == r.refundId && r.publicId == o.publicId
    && row.orderId == o.id && row.reason == reason && row.amount == r.amount == o.total
    && row.status == r.refundStatus == (if approval then RefundPendingApproval else RefundRequested)
    && row.requiresHuman == r.requiresHuman == approval
  }

  /** The row refunds a payment that was made for its order, and stands on no return. */
  predicate PaysBack(w: Tables, row: Refund, now: Time) {
    && row.returnId == None && row.createdAt == now && row.paymentId.Some?
    && exists p :: p in w.payments && p.id == row.paymentId.value && IsPaidFor(p, row.orderId)
  }

  /**
   * What stands behind a refund a call announces, in the state and at the moment of the call: the customer's own
   * order, an identity that counts as verified, an order that is covered, and a row that says so.
   */
  predicate Justified(s: State, turn: Turn, r: Reply, row: Refund) {
    turn.call.CallCreateRefund?
    && var (e, call) := (turn.env, turn.call);
       var o := ScopedOrder(s, call.order);
       && o.Some? && IsOwnOrder(s, call.order, o.value) && (call.verified || s.ctx.verified)
       && IsEntitled(s.w, o.value, e.now, call.reason, e.policy)
       && IsRowFor(row, r, o.value, call.reason,
                   o.value.total > e.policy.threshold || MustInspect(s.w, o.value, e.now, call.reason, e.policy))
       && PaysBack(s.w, row, e.now)
       && r.eligibility.Eligibility?
       && r.eligibility.decision
          == CanRefund(RefundFacts(s.w, o.value, e.now, call.reason, call.verified || s.ctx.verified), e.policy)
  }

  /** When a call opens a refund: exactly for an own order that is covered, by someone who counts as verified. */
  predicate MayOpen(s: State, e: Env, ref: Ref, reason: Reason, verified: bool) {
    var o := ScopedOrder(s, ref);
    o.Some? && (verified || s.ctx.verified) && IsEntitled(s.w, o.value, e.now, reason, e.policy)
  }

  lemma OpenedIsJustified(s: State, e: Env, ref: Ref, reason: Reason, verified: bool, f: Fresh)
    requires Ledger(s.w)
    ensures var (t, r) := CreateRefund(s, e, ref, reason, verified, f);
            && (r.RefundOpened? <==> MayOpen(s, e, ref, reason, verified))
            && (!r.RefundOpened? ==> t == s)
            && (r.RefundOpened? ==>
                  && |t.w.refunds| == |s.w.refunds| + 1
                  && t == s.(w := s.w.(refunds := s.w.refunds + [t.w.refunds[|s.w.refunds|]]))
                  && Justified(s, Turn(e, CallCreateRefund(ref, reason, verified, f)), r, t.w.refunds[|s.w.refunds|])
                  && RefundFits(s.w, t.w.refunds[|s.w.refunds|]))
  {
    var found, v := ScopedOrder(s, ref), verified || s.ctx.verified;
    FoundOrder(s.w.orders, ref);
    RequestIs(s, e, ref, reason, verified, f);
    if found.Some? {
      var o := found.value;
      var d := CanRefund(RefundFacts(s.w, o, e.now, reason, v), e.policy);
      FactsOfLedger(s.w, o, e.now, reason, v, e.policy);
      EntitledIff(s.w, o, e.now, reason, v, e.policy);
      RefundEligibility(RefundFacts(s.w, o, e.now, reason, v), e.policy);
      PaidIsMultiple(s.w, o);
      if d.eligible {
        AtLeastOnce(PaidCount(s.w.payments, o.id), o.total);
        PaidBack(s.w, o, d, reason, f, e.now);
      }
    }
    hide CreateRefund, CanRefund, RefundFacts, NewRefund, PaysBack, PaidCount, PaidSum, FindOrder, Ledger, IsEntitled;
    hide MustInspect, IsCovered, Names;
  }

  /** A request, with the lookup done once and the decision spelled out. */
  lemma RequestIs(s: State, e: Env, ref: Ref, reason: Reason, verified: bool, f: Fresh)
    ensures var found := ScopedOrder(s, ref);
            CreateRefund(s, e, ref, reason, verified, f)
            == if found.None? then (s, OrderNotFound(ref))
               else
                 var o := found.value;
                 var d := CanRefund(RefundFacts(s.w, o, e.now, reason, verified || s.ctx.verified), e.policy);
                 var row := NewRefund(s.w, o, d, reason, f, e.now);
                 if !d.eligible then (s, RefundRefused(Eligibility(d, o.publicId, reason)))
                 else (s.(w := s.w.(refunds := s.w.refunds + [row])),
                       RefundOpened(row.publicId, o.publicId, row.status, row.amount, row.requiresHuman,
                                    Eligibility(d, o.publicId, reason)))
  {
    hide CanRefund, RefundFacts, NewRefund, FindOrder, Scoped;
  }

  lemma PaidBack(w: Tables, o: Order, d: RefundDecision, reason: Reason, f: Fresh, now: Time)
    requires PaidCount(w.payments, o.id) >= 1
    ensures var row := NewRefund(w, o, d, reason, f, now);
            && PaysBack(w, row, now) && row.publicId == f.publicId && row.orderId == o.id && row.reason == reason
            && row.amount == (if d.maxAmount.Some? then d.maxAmount.value else o.total)
            && row.status == (if d.requiresHuman then RefundPendingApproval else RefundRequested)
            && row.requiresHuman == d.requiresHuman
  {
    PaidRowsCounted(w.payments, o.id);
    var paid := PaidRows(OrderPayments(w, o));
    assert paid[0] in paid;
    hide PaidRows, PaidCount, PaymentsFor;
  }

  lemma {:induction false} FoundOrder(orders: seq<Order>, ref: Ref)
    ensures var o := FindOrder(orders, ref); o.Some? ==> o.value in orders && Names(ref, o.value.id, o.value.publicId)
  {
    if orders != [] { FoundOrder(orders[..|orders| - 1], ref); }
  }

  /** A refund row and the reply that announced it. */
  predicate RowOf(row: Refund, r: Reply) {
    && r.RefundOpened? && row.publicId == r.refundId && row.status == r.refundStatus && row.amount == r.amount
    && row.requiresHuman == r.requiresHuman
  }

  /** For the whole of an existing order, and within what was paid for it. */
  predicate RefundFits(w: Tables, row: Refund) {
    && (exists o :: o in w.orders && o.id == row.orderId && row.amount == o.total)
    && row.amount <= PaidSum(w.payments, row.orderId)
  }

  // ---------- one call ----------

  /** The only thing that happens to an order: one that has not left is cancelled. */
  predicate OnlyCancels(a: Tables, b: Tables) {
    && |a.orders| == |b.orders| && a.shipments == b.shipments && a.payments == b.payments
    && forall i :: 0 <= i < |a.orders| ==> OrderKept(a, a.orders[i], b.orders[i])
  }

  predicate OrderKept(w: Tables, before: Order, after: Order) {
    after == before
    || (after == before.(status := Cancelled) && before.status != Cancelled
        && !HasLeft(ShippingOf(w, before), before.status))
  }

  function ShippingOf(w: Tables, o: Order): Option<ShipStatus> {
    var sh := FindShipment(w.shipments, o.id);
    if sh.Some? then Some(sh.value.status) else None
  }

  lemma CancelOnlyCancels(s: State, ref: Ref)
    requires UniqueOrders(s.w.orders)
    ensures OnlyCancels(s.w, CancelOrder(s, ref).0.w)
  {
    var o := ScopedOrder(s, ref);
    FoundOrder(s.w.orders, ref);
    if o.Some? {
      SetStatusRows(s.w.orders, o.value.id, Cancelled);
      CancelOnlyBeforeShipment(ShippingOf(s.w, o.value), o.value.status);
      hide SetStatus, CanCancel, HasLeft, FindShipment, FindOrder;
      var t := CancelOrder(s, ref).0;
      forall i | 0 <= i < |s.w.orders| ensures OrderKept(s.w, s.w.orders[i], t.w.orders[i]) {
        if s.w.orders[i].id == o.value.id { SameOrder(s.w.orders, s.w.orders[i], o.value); }
      }
    }
  }

  lemma StepOnlyCancels(s: State, e: Env, call: Call)
    requires UniqueOrders(s.w.orders)
    ensures OnlyCancels(s.w, Step(s, e, call).0.w)
  {
    if call.CallCancelOrder? { CancelOnlyCancels(s, call.order); }
    hide UniqueOrders, HasLeft, FindShipment, CancelOrder, GetCustomer, CheckRefund, ScopedOrder;
  }

  /** Rows and the replies that announced them, pairwise. */
  predicate RowsOf(rows: seq<Refund>, news: seq<Reply>, w: Tables) {
    |rows| == |news| && forall k :: 0 <= k < |rows| ==> RowOf(rows[k], news[k]) && RefundFits(w, rows[k])
  }

  /** Refund rows are only appended, one for each refund announced. */
  predicate Appends(a: Tables, b: Tables, news: seq<Reply>) {
    a.refunds <= b.refunds && RowsOf(b.refunds[|a.refunds|..], news, b)
  }

  function Opened(rs: seq<Reply>): seq<Reply> {
    if rs == [] then [] else (if rs[0].RefundOpened? then [rs[0]] else []) + Opened(rs[1..])
  }

  lemma StepAppends(s: State, e: Env, call: Call)
    requires Ledger(s.w)
    ensures var (t, r) := Step(s, e, call);
            && Appends(s.w, t.w, Opened([r]))
            && (r.RefundOpened? ==>
                  |t.w.refunds| > |s.w.refunds| && Justified(s, Turn(e, call), r, t.w.refunds[|s.w.refunds|]))
  {
    var (t, r) := Step(s, e, call);
    OpenedOne(r);
    if call.CallCreateRefund? {
      OpenedIsJustified(s, e, call.order, call.reason, call.verified, call.fresh_);
      hide CreateRefund, Justified, Ledger, RowOf, RefundFits, Opened, MayOpen;
      if r.RefundOpened? {
        JustifiedRow(s, Turn(e, call), r, t.w.refunds[|s.w.refunds|]);
        FitsSame(s.w, t.w, t.w.refunds[|s.w.refunds|]);
        assert t.w.refunds[|s.w.refunds|..] == [t.w.refunds[|s.w.refunds|]];
      } else {
        assert t.w.refunds[|s.w.refunds|..] == [];
      }
    } else {
      OthersOpenNothing(s, e, call);
      hide Step, Justified, Ledger, RowOf, RefundFits, Opened;
      assert t.w.refunds[|s.w.refunds|..] == [];
    }
  }

  lemma JustifiedRow(s: State, turn: Turn, r: Reply, row: Refund)
    requires Justified(s, turn, r, row)
    ensures RowOf(row, r)
  {
    hide ScopedOrder, IsOwnOrder, IsEntitled, MustInspect, CanRefund, RefundFacts;
  }

  lemma OpenedOne(r: Reply)
    ensures Opened([r]) == if r.RefundOpened? then [r] else []
  {
    assert [r][1..] == [];
  }

  lemma FitsSame(a: Tables, b: Tables, row: Refund)
    requires a.orders == b.orders && a.payments == b.payments && RefundFits(a, row)
    ensures RefundFits(b, row)
  {
    hide PaidSum;
  }

  lemma OthersOpenNothing(s: State, e: Env, call: Call)
    requires !call.CallCreateRefund?
    ensures var (t, r) := Step(s, e, call); t.w.refunds == s.w.refunds && !r.RefundOpened?
  {
    hide FindOrder, FindCustomer, FindShipment, LinesFor, PaymentsFor, ReturnsFor, SetStatus, CanCancel, RefundFacts;
  }

  // ---------- the ledger stays ----------

  lemma KeptOrder(a: Tables, b: Tables, o: Order)
    requires OnlyCancels(a, b) && o in b.orders
    ensures exists p :: p in a.orders && o == p.(status := o.status)
  {
    var i :| 0 <= i < |b.orders| && b.orders[i] == o;
    assert a.orders[i] in a.orders && OrderKept(a, a.orders[i], b.orders[i]);
  }

  lemma StillThere(a: Tables, b: Tables, p: Order)
    requires OnlyCancels(a, b) && p in a.orders
    ensures exists o :: o in b.orders && o.id == p.id && o.total == p.total
  {
    hide HasLeft, ShippingOf;
    var i :| 0 <= i < |a.orders| && a.orders[i] == p;
    assert OrderKept(a, a.orders[i], b.orders[i]) && b.orders[i] in b.orders;
  }

  lemma FitsStays(a: Tables, b: Tables, row: Refund)
    requires OnlyCancels(a, b) && RefundFits(a, row)
    ensures RefundFits(b, row)
  {
    hide OnlyCancels, PaidSum;
    var p :| p in a.orders && p.id == row.orderId && row.amount == p.total;
    StillThere(a, b, p);
    SamePayments(a, b);
  }

  lemma SamePayments(a: Tables, b: Tables)
    requires OnlyCancels(a, b)
    ensures a.payments == b.payments && |a.orders| == |b.orders|
  {
  }

  lemma UniqueStays(a: Tables, b: Tables)
    requires OnlyCancels(a, b) && UniqueOrders(a.orders)
    ensures UniqueOrders(b.orders)
  {
    hide HasLeft, ShippingOf;
    forall i | 0 <= i < |a.orders| ensures b.orders[i].id == a.orders[i].id {
      assert OrderKept(a, a.orders[i], b.orders[i]);
    }
  }

  lemma LedgerStays(a: Tables, b: Tables, news: seq<Reply>)
    requires Ledger(a) && OnlyCancels(a, b) && Appends(a, b, news)
    ensures Ledger(b)
  {
    hide OnlyCancels, PaidCount, PaidSum, UniqueOrders, RowOf;
    UniqueStays(a, b);
    SamePayments(a, b);
    forall p | p in b.payments ensures exists o :: o in b.orders && o.id == p.orderId && p.amount == o.total {
      var q :| q in a.orders && q.id == p.orderId && p.amount == q.total;
      StillThere(a, b, q);
    }
    forall o | o in b.orders ensures o.total >= 0 && (o.actualDelivery.Some? ==> PaidCount(b.payments, o.id) >= 1) {
      KeptOrder(a, b, o);
    }
    forall row | row in b.refunds ensures RefundFits(b, row) {
      var k :| 0 <= k < |b.refunds| && b.refunds[k] == row;
      if k < |a.refunds| {
        assert a.refunds[k] == row && row in a.refunds;
        FitsStays(a, b, row);
      } else {
        assert b.refunds[|a.refunds|..][k - |a.refunds|] == row;
      }
    }
  }

  // ---------- any run ----------

  lemma OnlyCancelsTrans(a: Tables, b: Tables, c: Tables)
    requires OnlyCancels(a, b) && OnlyCancels(b, c)
    ensures OnlyCancels(a, c)
  {
    hide HasLeft, FindShipment;
    forall i | 0 <= i < |a.orders| ensures OrderKept(a, a.orders[i], c.orders[i]) {
      assert OrderKept(a, a.orders[i], b.orders[i]) && OrderKept(b, b.orders[i], c.orders[i]);
    }
  }

  lemma AppendsTrans(a: Tables, b: Tables, c: Tables, first: seq<Reply>, rest: seq<Reply>)
    requires Appends(a, b, first) && Appends(b, c, rest) && OnlyCancels(b, c)
    ensures Appends(a, c, first + rest)
  {
    hide OnlyCancels, RowOf, RefundFits;
    var early, late := b.refunds[|a.refunds|..], c.refunds[|b.refunds|..];
    assert c.refunds[|a.refunds|..] == early + late;
    forall k | 0 <= k < |early| ensures RefundFits(c, early[k]) { FitsStays(b, c, early[k]); }
  }

  lemma OpenedConcat(r: Reply, rs: seq<Reply>)
    ensures Opened([r] + rs) == Opened([r]) + Opened(rs)
  {
    assert ([r] + rs)[1..] == rs && [r][1..] == [];
  }

  /** The refund that turn `k` of a run announced, against the state it was made in and the row it left. */
  predicate JustifiedAt(s: State, turns: seq<Turn>, k: nat)
    requires k < |turns|
  {
    var before, (after, replies) := Run(s, turns[..k]).0, Run(s, turns);
    var row := |before.w.refunds|;
    row < |after.w.refunds| && Justified(before, turns[k], replies[k], after.w.refunds[row])
  }

  predicate AllJustified(s: State, turns: seq<Turn>) {
    forall k :: 0 <= k < |turns| && Run(s, turns).1[k].RefundOpened? ==> JustifiedAt(s, turns, k)
  }

  /**
   * Any run of tool calls on a ledger: refund rows are only appended, one per refund announced, each for the whole
   * of an order and within what was paid for it; every announcement is justified by the state and the moment it was
   * made in; no order that has left is cancelled.
   */
  lemma {:induction false} RunIsSafe(s: State, turns: seq<Turn>)
    requires Ledger(s.w)
    ensures var (t, rs) := Run(s, turns);
            && Ledger(t.w) && OnlyCancels(s.w, t.w) && Appends(s.w, t.w, Opened(rs)) && AllJustified(s, turns)
    decreases |turns|
  {
    hide Step, Ledger, OnlyCancels, Appends, Opened, Justified, AllJustified;
    if turns == [] {
      EmptyRunIsSafe(s);
    } else {
      var (s1, r) := Step(s, turns[0].env, turns[0].call);
      var (t, rs) := Run(s1, turns[1..]);
      LedgerUnique(s.w);
      StepOnlyCancels(s, turns[0].env, turns[0].call);
      StepAppends(s, turns[0].env, turns[0].call);
      LedgerStays(s.w, s1.w, Opened([r]));
      RunIsSafe(s1, turns[1..]);
      OnlyCancelsTrans(s.w, s1.w, t.w);
      AppendsTrans(s.w, s1.w, t.w, Opened([r]), Opened(rs));
      OpenedConcat(r, rs);
      AppendsPrefix(s1.w, t.w, Opened(rs));
      JustifiedFrom(s, turns);
    }
  }

  lemma AppendsPrefix(a: Tables, b: Tables, news: seq<Reply>)
    requires Appends(a, b, news)
    ensures a.refunds <= b.refunds
  {
  }

  /** The announcements of a run are justified when the first one and those of the rest are. */
  lemma JustifiedFrom(s: State, turns: seq<Turn>)
    requires turns != []
    requires var (s1, r) := Step(s, turns[0].env, turns[0].call);
             && AllJustified(s1, turns[1..]) && s1.w.refunds <= Run(s1, turns[1..]).0.w.refunds
             && (r.RefundOpened? ==>
                   |s1.w.refunds| > |s.w.refunds| && Justified(s, turns[0], r, s1.w.refunds[|s.w.refunds|]))
    ensures AllJustified(s, turns)
  {
    hide Step, Justified;
    var (s1, r) := Step(s, turns[0].env, turns[0].call);
    var rest := turns[1..];
    forall k | 0 <= k < |turns| && Run(s, turns).1[k].RefundOpened? ensures JustifiedAt(s, turns, k) {
      if k == 0 {
        assert turns[..0] == [];
      } else {
        assert turns[..k] == [turns[0]] + rest[..k - 1] && turns == [turns[0]] + rest;
        RunCons(s, turns[0], rest[..k - 1]);
        RunCons(s, turns[0], rest);
        assert JustifiedAt(s1, rest, k - 1);
      }
    }
  }

  lemma LedgerUnique(w: Tables)
    requires Ledger(w)
    ensures UniqueOrders(w.orders)
  {
  }

  lemma EmptyRunIsSafe(s: State)
    ensures OnlyCancels(s.w, s.w) && Appends(s.w, s.w, Opened([])) && AllJustified(s, [])
  {
  }

  /** Once shipped, an order keeps its status through any run of calls. */
  lemma ShippedNeverCancelled(s: State, turns: seq<Turn>, i: nat)
    requires Ledger(s.w) && i < |s.w.orders|
    requires HasLeft(ShippingOf(s.w, s.w.orders[i]), s.w.orders[i].status)
    ensures var w := Run(s, turns).0.w; i < |w.orders| && w.orders[i] == s.w.orders[i]
  {
    hide Run, HasLeft, ShippingOf, Ledger, Appends, Opened;
    RunIsSafe(s, turns);
    assert OrderKept(s.w, s.w.orders[i], Run(s, turns).0.w.orders[i]);
  }

  /** From every generated world, under any run of tool calls, the guarantees above hold. */
  lemma GeneratedRunIsSafe(profile: Profile, tape: nat -> nat, set_: Setting, ctx: Context, turns: seq<Turn>)
    requires BuildWorld(profile, tape, set_).Some?
    ensures var w := BuildWorld(profile, tape, set_).value;
            var (t, rs) := Run(State(w, ctx), turns);
            && Ledger(t.w) && OnlyCancels(w, t.w) && Appends(w, t.w, Opened(rs))
            && AllJustified(State(w, ctx), turns)
  {
    hide *;
    GeneratorMeetsChecker(profile, tape, set_);
    var w := BuildWorld(profile, tape, set_).value;
    GeneratedIsLedger(w, set_.company);
    RunIsSafe(State(w, ctx), turns);
  }

  lemma GeneratedIsLedger(w: Tables, company: Company)
    requires Generated(w, company)
    ensures Ledger(w)
  {
    hide Inv, Ledger;
    var pos: nat :| Inv(w, pos, AllowedMethods(company));
    GeneratedLedger(w, pos, AllowedMethods(company));
  }

  // ---------- when the identity counts as verified ----------

  /** The identity asked about last, if any call checked one. */
  function LastCheck(turns: seq<Turn>): Option<Option<Ref>>
    decreases |turns|
  {
    if turns == [] then None
    else
      var later := LastCheck(turns[1..]);
      if later.Some? then later
      else if turns[0].call.CallVerifyIdentity? then Some(turns[0].call.who) else None
  }

  /** The profile asked about, or else the context's own, is the customer's and active. */
  predicate FindsActive(s: State, who: Option<Ref>) {
    var c := if who.Some? then ScopedCustomer(s, who.value)
             else if s.ctx.customer.Some? then ScopedCustomer(s, ByUuid(s.ctx.customer.value)) else None;
    c.Some? && c.value.status == Active
  }

  lemma StepVerifies(s: State, e: Env, call: Call)
    ensures var t := Step(s, e, call).0;
            && t.ctx.customer == s.ctx.customer && t.w.customers == s.w.customers
            && (t.ctx.verified <==> if call.CallVerifyIdentity? then FindsActive(s, call.who) else s.ctx.verified)
  {
    hide FindOrder, FindCustomer, FindShipment, LinesFor, PaymentsFor, ReturnsFor, SetStatus, CanCancel, RefundFacts;
  }

  /** After any run the context is verified exactly when the last check found an active profile, or none was made. */
  lemma {:induction false} VerifiedIff(s: State, turns: seq<Turn>)
    ensures Run(s, turns).0.ctx.verified
            <==> if LastCheck(turns).Some? then FindsActive(s, LastCheck(turns).value) else s.ctx.verified
    decreases |turns|
  {
    hide Step, FindCustomer;
    if turns != [] {
      StepVerifies(s, turns[0].env, turns[0].call);
      VerifiedIff(Step(s, turns[0].env, turns[0].call).0, turns[1..]);
    }
  }

  /** No call vouches for the identity itself, and no profile checked is active. */
  predicate NobodyVouches(s: State, turns: seq<Turn>) {
    && !s.ctx.verified
    && forall t :: t in turns ==>
         && (t.call.CallCreateRefund? ==> !t.call.verified)
         && (t.call.CallVerifyIdentity? ==> !FindsActive(s, t.call.who))
  }

  lemma {:induction false} LastCheckIn(turns: seq<Turn>)
    ensures LastCheck(turns).Some? ==>
              exists t :: t in turns && t.call.CallVerifyIdentity? && t.call.who == LastCheck(turns).value
    decreases |turns|
  {
    if turns != [] {
      LastCheckIn(turns[1..]);
      assert turns[0] in turns;
    }
  }

  /** Without a voucher or a check that finds an active profile no refund is ever opened. */
  lemma UnverifiedOpensNothing(s: State, turns: seq<Turn>, k: nat)
    requires Ledger(s.w) && NobodyVouches(s, turns) && k < |turns|
    ensures !Run(s, turns).1[k].RefundOpened?
  {
    hide Run, LastCheck, Appends, Ledger, OnlyCancels, Opened, FindsActive, ScopedOrder, IsOwnOrder, IsEntitled, MustInspect;
    hide IsRowFor, CanRefund, RefundFacts;
    RunIsSafe(s, turns);
    VerifiedIff(s, turns[..k]);
    LastCheckIn(turns[..k]);
    assert forall t :: t in turns[..k] ==> t in turns;
    assert turns[k] in turns;
    assert Run(s, turns).1[k].RefundOpened? ==> JustifiedAt(s, turns, k);
  }

  // ---------- several refunds of one order ----------

  function RefundCount(refunds: seq<Refund>, id: Id): nat {
    if refunds == [] then 0
    else RefundCount(refunds[..|refunds| - 1], id) + if refunds[|refunds| - 1].orderId == id then 1 else 0
  }

  function RefundSum(refunds: seq<Refund>, id: Id): int {
    if refunds == [] then 0
    else
      RefundSum(refunds[..|refunds| - 1], id)
      + if refunds[|refunds| - 1].orderId == id then refunds[|refunds| - 1].amount else 0
  }

  lemma {:induction false} RefundsOfEqual(refunds: seq<Refund>, id: Id, total: int)
    requires forall r :: r in refunds && r.orderId == id ==> r.amount == total
    ensures RefundSum(refunds, id) == RefundCount(refunds, id) * total
  {
    if refunds != [] {
      assert refunds[|refunds| - 1] in refunds;
      RefundsOfEqual(refunds[..|refunds| - 1], id, total);
    }
  }

  lemma RefundsAreTotals(w: Tables, o: Order)
    requires Ledger(w) && o in w.orders
    ensures RefundSum(w.refunds, o.id) == RefundCount(w.refunds, o.id) * o.total
  {
    hide PaidSum;
    forall r | r in w.refunds && r.orderId == o.id ensures r.amount == o.total {
      var q :| q in w.orders && q.id == r.orderId && r.amount == q.total;
      SameOrder(w.orders, o, q);
    }
    RefundsOfEqual(w.refunds, o.id, o.total);
  }

  lemma ScaledOrder(a: int, b: int, t: int)
    requires t > 0
    ensures a * t <= b * t <==> a <= b
  {
    if a <= b { assert (b - a) * t >= 0; } else { assert (a - b) * t > 0; }
  }

  /**
   * The policy looks at no earlier refund, so refunds of one order can exceed what was paid: after a successful
   * call they stay within it exactly when the order had fewer refund rows than paid payments before.
   */
  lemma RefundsWithinPaidIff(s: State, e: Env, ref: Ref, reason: Reason, verified: bool, f: Fresh, o: Order)
    requires Ledger(s.w) && FindOrder(s.w.orders, ref) == Some(o) && o.total > 0
    requires CreateRefund(s, e, ref, reason, verified, f).1.RefundOpened?
    ensures var t := CreateRefund(s, e, ref, reason, verified, f).0;
            RefundSum(t.w.refunds, o.id) <= PaidSum(t.w.payments, o.id)
            <==> RefundCount(s.w.refunds, o.id) < PaidCount(s.w.payments, o.id)
  {
    var (t, r) := CreateRefund(s, e, ref, reason, verified, f);
    OpenedIsJustified(s, e, ref, reason, verified, f);
    FoundOrder(s.w.orders, ref);
    RowIsForOrder(s, e, ref, reason, verified, f, o);
    hide CreateRefund, Ledger, UniqueOrders, PaidSum, PaidCount, Justified, RowOf, RefundFits, FindOrder;
    hide RefundSum, RefundCount;
    WithinPaidIff(s.w, t.w.refunds[|s.w.refunds|], o);
  }

  lemma RowIsForOrder(s: State, e: Env, ref: Ref, reason: Reason, verified: bool, f: Fresh, o: Order)
    requires FindOrder(s.w.orders, ref) == Some(o) && CreateRefund(s, e, ref, reason, verified, f).1.RefundOpened?
    ensures var t := CreateRefund(s, e, ref, reason, verified, f).0;
            |t.w.refunds| == |s.w.refunds| + 1 && t.w.refunds[|s.w.refunds|].orderId == o.id
  {
    hide CheckRefund, PaidRows, FindOrder;
  }

  lemma WithinPaidIff(w: Tables, row: Refund, o: Order)
    requires Ledger(w) && RefundFits(w, row) && o in w.orders && row.orderId == o.id && o.total > 0
    ensures RefundSum(w.refunds + [row], o.id) <= PaidSum(w.payments, o.id)
            <==> RefundCount(w.refunds, o.id) < PaidCount(w.payments, o.id)
  {
    OneMoreRefund(w.refunds, row);
    RefundsAreTotals(w, o);
    PaidIsMultiple(w, o);
    LedgerUnique(w);
    AmountOfRow(w, row, o);
    hide *;
    OneMore(RefundCount(w.refunds, o.id), PaidCount(w.payments, o.id), o.total, RefundSum(w.refunds, o.id),
            PaidSum(w.payments, o.id));
  }

  lemma OneMoreRefund(refunds: seq<Refund>, row: Refund)
    ensures RefundSum(refunds + [row], row.orderId) == RefundSum(refunds, row.orderId) + row.amount
  {
    assert (refunds + [row])[..|refunds|] == refunds;
  }

  lemma OneMore(n: nat, m: nat, t: int, refunded: int, paid: int)
    requires t > 0 && refunded == n * t && paid == m * t
    ensures refunded + t <= paid <==> n < m
  {
    assert refunded + t == (n + 1) * t;
    ScaledOrder(n + 1, m, t);
  }

  lemma AmountOfRow(w: Tables, row: Refund, o: Order)
    requires UniqueOrders(w.orders) && RefundFits(w, row) && o in w.orders && o.id == row.orderId
    ensures row.amount == o.total
  {
    hide PaidSum;
    var q :| q in w.orders && q.id == row.orderId && row.amount == q.total;
    SameOrder(w.orders, o, q);
  }

  // ---------- the refund that goes too far ----------

  const SHOP_ORDER := Order(1, PublicId("ORD", 1001), 7, Delivered, 5000, "BRL", 0, 4 * DAY, Some(4 * DAY))
  const SHOP_PAYMENT := Payment(2, PublicId("PAY", 1), 1, PayPaid, 5000, "pix", 3, 0)
  const SHOP := EMPTY_WORLD.(orders := [SHOP_ORDER], payments := [SHOP_PAYMENT])
  const SHOP_ENV := Env(6 * DAY, Policy(30, 100000, 7, 7))

  function AskRefund(n: Id): Turn {
    Turn(SHOP_ENV, CallCreateRefund(ByUuid(1), CustomerPreference, true, Fresh(n, PublicId("RFD", n))))
  }

  lemma ShopOrder(s: State)
    requires s.w.orders == [SHOP_ORDER] && s.w.payments == [SHOP_PAYMENT] && s.w.items == []
    requires s.ctx == Context(Some(7), false)
    ensures FindOrder(s.w.orders, ByUuid(1)) == Some(SHOP_ORDER) && PaidCount(s.w.payments, 1) == 1
    ensures CheckRefund(s, SHOP_ENV, ByUuid(1), CustomerPreference, true)
            == Eligibility(RefundDecision(true, false, [WithinWindow], Some(5000), false), PublicId("ORD", 1001),
                           CustomerPreference)
  {
    assert PaymentsFor([SHOP_PAYMENT][..0], 1) == [];
    assert PaymentsFor([SHOP_PAYMENT], 1) == [SHOP_PAYMENT];
    assert [SHOP_PAYMENT][1..] == [];
    assert PaidCount([SHOP_PAYMENT][..0], 1) == 0;
    var c := RefundFacts(s.w, SHOP_ORDER, 6 * DAY, CustomerPreference, true);
    assert PaidRows([SHOP_PAYMENT]) == [SHOP_PAYMENT] + [];
    assert (6 * DAY - 4 * DAY) / DAY == 2;
    assert c == RefundCase(Some(2), 5000, Accessories, false, CustomerPreference, true, 90, false);
    assert [WithinWindow] + [] == [WithinWindow];
    assert ScopedOrder(s, ByUuid(1)) == Some(SHOP_ORDER);
  }

  lemma ShopRefund(s: State, n: Id)
    requires s.w.orders == [SHOP_ORDER] && s.w.payments == [SHOP_PAYMENT] && s.w.items == []
    requires s.ctx == Context(Some(7), false)
    ensures var (t, r) := Step(s, AskRefund(n).env, AskRefund(n).call);
            && r.RefundOpened? && |t.w.refunds| == |s.w.refunds| + 1 && t == s.(w := s.w.(refunds := t.w.refunds))
            && RefundSum(t.w.refunds, 1) == RefundSum(s.w.refunds, 1) + 5000
  {
    ShopOrder(s);
    hide CheckRefund, FindOrder, PaidCount;
    var t := Step(s, AskRefund(n).env, AskRefund(n).call).0;
    OneMoreRefund(s.w.refunds, t.w.refunds[|s.w.refunds|]);
  }

  /** Asked twice, the tools open two full refunds of an order that was paid once. */
  lemma RefundedTwice()
    ensures Ledger(SHOP)
    ensures var (t, rs) := Run(State(SHOP, Context(Some(7), false)), [AskRefund(10), AskRefund(11)]);
            |Opened(rs)| == 2 && RefundSum(t.w.refunds, 1) > PaidSum(t.w.payments, 1)
  {
    var s0 := State(SHOP, Context(Some(7), false));
    var (s1, r1) := Step(s0, AskRefund(10).env, AskRefund(10).call);
    var (s2, r2) := Step(s1, AskRefund(11).env, AskRefund(11).call);
    assert PaidSum([SHOP_PAYMENT][..0], 1) == 0 && PaidCount([SHOP_PAYMENT][..0], 1) == 0;
    assert PaidSum([SHOP_PAYMENT], 1) == 5000 && PaidCount([SHOP_PAYMENT], 1) == 1;
    ShopRefund(s0, 10);
    ShopRefund(s1, 11);
    TwoSteps(s0, AskRefund(10), AskRefund(11));
    OpenedTwo(r1, r2);
    hide Step, Opened, Run, AskRefund;
  }

  lemma RunCons(s: State, t: Turn, rest: seq<Turn>)
    ensures var (s1, r) := Step(s, t.env, t.call);
            Run(s, [t] + rest) == (Run(s1, rest).0, [r] + Run(s1, rest).1)
  {
    hide Step;
    assert ([t] + rest)[1..] == rest;
  }

  lemma TwoSteps(s: State, a: Turn, b: Turn)
    ensures var (s1, r1) := Step(s, a.env, a.call);
            var (s2, r2) := Step(s1, b.env, b.call);
            Run(s, [a, b]) == (s2, [r1, r2])
  {
    hide Step;
    var s1 := Step(s, a.env, a.call).0;
    RunCons(s, a, [b]);
    RunCons(s1, b, []);
    var s2 := Step(s1, b.env, b.call).0;
    var r1, r2 := Step(s, a.env, a.call).1, Step(s1, b.env, b.call).1;
    assert [a, b] == [a] + [b] && [b] == [b] + [] && Run(s2, []) == (s2, []);
    assert [r1] + ([r2] + []) == [r1, r2];
  }

  lemma OpenedTwo(a: Reply, b: Reply)
    requires a.RefundOpened? && b.RefundOpened?
    ensures |Opened([a, b])| == 2
  {
    OpenedConcat(a, [b]);
    OpenedOne(a);
    OpenedOne(b);
    assert [a, b] == [a] + [b];
  }
}

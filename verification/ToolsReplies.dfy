/** What each tool answers and writes, in terms of the rows of the customer's own order. */
module ToolsReplies {
  import opened Text
  import opened Records
  import opened PolicyRules
  import opened WorldIntegrity
  import opened WorldInvariant
  import opened Tools
  import opened ToolsIsolation
  import opened ToolsEntitlement
  import opened ToolsRefunds

  // ---------- the order a reference names ----------

  /** With unique ids, the scoped lookup finds exactly the own order that is named. */
  lemma ScopedIff(s: State, ref: Ref, o: Order)
    requires KeyedOrders(s.w.orders)
    ensures ScopedOrder(s, ref) == Some(o) <==> IsOwnOrder(s, ref, o)
  {
    FoundIsIn(s.w.orders, ref);
    var found := FindOrder(s.w.orders, ref);
    if IsOwnOrder(s, ref, o) { NamedOnce(s.w.orders, ref, o, found.value); }
    hide FindOrder, Names;
  }

  lemma NamedOnce(orders: seq<Order>, ref: Ref, a: Order, b: Order)
    requires KeyedOrders(orders) && a in orders && b in orders
    requires Names(ref, a.id, a.publicId) && Names(ref, b.id, b.publicId)
    ensures a == b
  {
  }

  lemma NothingNamed(s: State, ref: Ref)
    requires KeyedOrders(s.w.orders)
    ensures ScopedOrder(s, ref).None? <==> forall o :: o in s.w.orders ==> !IsOwnOrder(s, ref, o)
  {
    if ScopedOrder(s, ref).Some? { ScopedIff(s, ref, ScopedOrder(s, ref).value); }
    forall o | o in s.w.orders && IsOwnOrder(s, ref, o) ensures ScopedOrder(s, ref) == Some(o) { ScopedIff(s, ref, o); }
  }

  // ---------- cancelling ----------

  /** Nothing of it has left, and it is not cancelled yet. */
  predicate IsCancellable(w: Tables, o: Order) { !HasLeft(ShippingOf(w, o), o.status) && o.status != Cancelled }

  /** A cancellation is done exactly for an own order that nothing of has left; then that row, and no other, is cancelled. */
  lemma CancelIff(s: State, ref: Ref, i: nat)
    requires KeyedOrders(s.w.orders) && i < |s.w.orders| && IsOwnOrder(s, ref, s.w.orders[i])
    ensures var (t, r) := CancelOrder(s, ref);
            var o := s.w.orders[i];
            if IsCancellable(s.w, o) then
              && r == CancelDone(o.publicId)
              && t == s.(w := s.w.(orders := s.w.orders[i := o.(status := Cancelled)]))
            else
              && t == s && r.CancelRefused? && r.publicId == o.publicId
              && r.cancel == if o.status == Cancelled && !HasLeft(ShippingOf(s.w, o), o.status) then AlreadyCancelled
                             else ShippedUseReturn
  {
    var o := s.w.orders[i];
    ScopedIff(s, ref, o);
    CancelOnlyBeforeShipment(ShippingOf(s.w, o), o.status);
    RefusalIs(ShippingOf(s.w, o), o.status);
    StatusSet(s.w.orders, i);
    hide FindOrder, FindShipment, SetStatus, CanCancel, HasLeft, KeyedOrders, IsOwnOrder;
  }

  lemma RefusalIs(shipment: Option<ShipStatus>, status: OrderStatus)
    ensures CanCancel(shipment, status) == AlreadyCancelled <==> status == Cancelled && !HasLeft(shipment, status)
  {
  }

  lemma StatusSet(orders: seq<Order>, i: nat)
    requires KeyedOrders(orders) && i < |orders|
    ensures SetStatus(orders, orders[i].id, Cancelled) == orders[i := orders[i].(status := Cancelled)]
  {
    SetStatusRows(orders, orders[i].id, Cancelled);
    hide SetStatus;
    var r := SetStatus(orders, orders[i].id, Cancelled);
    forall j | 0 <= j < |orders| ensures r[j] == orders[i := orders[i].(status := Cancelled)][j] {
      if j < i { assert orders[j].id != orders[i].id; } else if j > i { assert orders[i].id != orders[j].id; }
    }
  }

  /** An order that is nobody's, or somebody else's, is not found and nothing happens. */
  lemma CancelNothing(s: State, ref: Ref)
    requires KeyedOrders(s.w.orders) && forall o :: o in s.w.orders ==> !IsOwnOrder(s, ref, o)
    ensures CancelOrder(s, ref) == (s, OrderNotFound(ref))
  {
    NothingNamed(s, ref);
    hide FindOrder;
  }

  /** The status of an order's shipment, if it has one. */
  lemma ShippingIs(w: Tables, o: Order, sh: Shipment)
    requires forall i, j :: 0 <= i < j < |w.shipments| ==> w.shipments[i].orderId != w.shipments[j].orderId
    ensures sh in w.shipments && sh.orderId == o.id ==> ShippingOf(w, o) == Some(sh.status)
    ensures ShippingOf(w, o).None? <==> forall x :: x in w.shipments ==> x.orderId != o.id
  {
    ShipmentFound(w.shipments, o.id);
    hide FindShipment;
  }

  lemma {:induction false} ShipmentFound(shipments: seq<Shipment>, id: Id)
    ensures var f := FindShipment(shipments, id);
            if f.Some? then f.value in shipments && f.value.orderId == id
            else forall x :: x in shipments ==> x.orderId != id
  {
    if shipments != [] { ShipmentFound(shipments[..|shipments| - 1], id); }
  }

  // ---------- cancellations in a run ----------

  lemma {:induction false} RunConcat(s: State, a: seq<Turn>, b: seq<Turn>)
    ensures Run(s, a + b).0 == Run(Run(s, a).0, b).0 && Run(s, a + b).1 == Run(s, a).1 + Run(Run(s, a).0, b).1
    decreases |a|
  {
    hide Step;
    if a == [] {
      assert a + b == b;
    } else {
      assert (a + b)[1..] == a[1..] + b;
      RunConcat(Step(s, a[0].env, a[0].call).0, a[1..], b);
    }
  }

  /** A run up to turn `k`, turn `k`, and the rest. */
  lemma RunAt(s: State, turns: seq<Turn>, k: nat)
    requires k < |turns|
    ensures var before := Run(s, turns[..k]).0;
            var (after, r) := Step(before, turns[k].env, turns[k].call);
            && Run(s, turns).1[k] == r && Run(s, turns[..k + 1]).0 == after
            && Run(s, turns).0 == Run(after, turns[k + 1..]).0
  {
    hide Step;
    var before := Run(s, turns[..k]).0;
    assert turns == turns[..k] + turns[k..] && turns[k..] == [turns[k]] + turns[k + 1..];
    RunConcat(s, turns[..k], turns[k..]);
    RunCons(before, turns[k], turns[k + 1..]);
    RunConcat(s, turns[..k], [turns[k]]);
    RunCons(before, turns[k], []);
    assert turns[..k + 1] == turns[..k] + [turns[k]] && [turns[k]] + [] == [turns[k]];
  }

  lemma KeysStay(a: Tables, b: Tables)
    requires OnlyCancels(a, b) && KeyedOrders(a.orders)
    ensures KeyedOrders(b.orders)
  {
    hide HasLeft, ShippingOf;
    forall i | 0 <= i < |a.orders| ensures b.orders[i].id == a.orders[i].id && b.orders[i].publicId == a.orders[i].publicId {
      assert OrderKept(a, a.orders[i], b.orders[i]);
    }
  }

  lemma StaysCancelled(a: Tables, b: Tables, i: nat)
    requires OnlyCancels(a, b) && i < |a.orders| && a.orders[i].status == Cancelled
    ensures b.orders[i] == a.orders[i]
  {
    hide HasLeft, ShippingOf;
    assert OrderKept(a, a.orders[i], b.orders[i]);
  }

  lemma DoneMeansCancel(s: State, e: Env, call: Call)
    requires Step(s, e, call).1.CancelDone?
    ensures call.CallCancelOrder? && Step(s, e, call) == CancelOrder(s, call.order)
    ensures ScopedOrder(s, call.order).Some?
  {
    hide FindOrder, FindCustomer, FindShipment, LinesFor, PaymentsFor, ReturnsFor, SetStatus, CanCancel, RefundFacts;
  }

  /**
   * In any run, a cancellation that a turn announces was made by it, to exactly one row: an own order of which nothing
   * had left; and the order is still cancelled at the end.
   */
  lemma CancelledForGood(s: State, turns: seq<Turn>, k: nat) returns (i: nat)
    requires Ledger(s.w) && KeyedOrders(s.w.orders) && k < |turns| && Run(s, turns).1[k].CancelDone?
    ensures var before, after := Run(s, turns[..k]).0, Run(s, turns[..k + 1]).0;
            && turns[k].call.CallCancelOrder? && i < |before.w.orders|
            && IsOwnOrder(before, turns[k].call.order, before.w.orders[i]) && IsCancellable(before.w, before.w.orders[i])
            && after == before.(w := before.w.(orders :=
                                  before.w.orders[i := before.w.orders[i].(status := Cancelled)]))
            && i < |Run(s, turns).0.w.orders| && Run(s, turns).0.w.orders[i] == after.w.orders[i]
  {
    hide Run, Step, CancelOrder, Ledger, OnlyCancels, Appends, AllJustified, IsCancellable, ScopedOrder, IsOwnOrder;
    var before := Run(s, turns[..k]).0;
    RunIsSafe(s, turns[..k]);
    KeysStay(s.w, before.w);
    RunAt(s, turns, k);
    DoneMeansCancel(before, turns[k].env, turns[k].call);
    var ref := turns[k].call.order;
    var o := ScopedOrder(before, ref).value;
    ScopedIff(before, ref, o);
    i := OrderAt(before, ref, o);
    CancelIff(before, ref, i);
    var after := Run(s, turns[..k + 1]).0;
    RunIsSafe(s, turns[..k + 1]);
    RunIsSafe(after, turns[k + 1..]);
    StaysCancelled(after.w, Run(s, turns).0.w, i);
    SamePayments(after.w, Run(s, turns).0.w);
  }

  lemma OrderAt(s: State, ref: Ref, o: Order) returns (i: nat)
    requires IsOwnOrder(s, ref, o)
    ensures i < |s.w.orders| && s.w.orders[i] == o
  {
    i :| 0 <= i < |s.w.orders| && s.w.orders[i] == o;
  }

  /** And no order changes in a run but through such a turn. */
  lemma {:induction false} ChangedBecause(s: State, turns: seq<Turn>, i: nat) returns (k: nat)
    requires Ledger(s.w) && i < |s.w.orders| && i < |Run(s, turns).0.w.orders|
    requires Run(s, turns).0.w.orders[i] != s.w.orders[i]
    ensures k < |turns| && Run(s, turns).1[k].CancelDone?
    decreases |turns|
  {
    hide Step, Ledger, OnlyCancels, Appends, AllJustified;
    assert turns != [];
    var n := |turns| - 1;
    RunAt(s, turns, n);
    RunIsSafe(s, turns[..n]);
    var before := Run(s, turns[..n]).0;
    SamePayments(s.w, before.w);
    if before.w.orders[i] != s.w.orders[i] {
      k := ChangedBecause(s, turns[..n], i);
      assert turns == turns[..n] + [turns[n]];
      RunConcat(s, turns[..n], [turns[n]]);
    } else {
      assert turns[n + 1..] == [];
      OnlyDoneChanges(before, turns[n].env, turns[n].call);
      k := n;
    }
  }

  lemma OnlyDoneChanges(s: State, e: Env, call: Call)
    ensures Step(s, e, call).0.w.orders != s.w.orders ==> Step(s, e, call).1.CancelDone?
  {
    hide FindOrder, FindCustomer, FindShipment, LinesFor, PaymentsFor, ReturnsFor, SetStatus, CanCancel, RefundFacts;
  }

  // ---------- returns ----------

  /** A return is opened for any own order, whatever its status, and says what was asked. */
  lemma ReturnIs(s: State, e: Env, ref: Ref, reason: Reason, f: Fresh, o: Order)
    requires KeyedOrders(s.w.orders) && IsOwnOrder(s, ref, o)
    ensures var (t, r) := CreateReturn(s, e, ref, reason, f);
            && |t.w.returns_| == |s.w.returns_| + 1
            && t == s.(w := s.w.(returns_ := s.w.returns_ + [t.w.returns_[|s.w.returns_|]]))
            && var row := t.w.returns_[|s.w.returns_|];
               && row.orderId == o.id && row.customerId == o.customerId && row.status == ReturnRequested
               && row.id == f.id && row.publicId == f.publicId && row.requestedAt == e.now
               && (row.inspection == InspectionPending <==> reason == DefectiveProduct)
               && (row.inspection == InspectionPending || row.inspection == InspectionNotRequired)
               && (reason.Withdrawal? || reason.Unlisted? ==> row.reason == OtherReason)
               && (!reason.Withdrawal? && !reason.Unlisted? ==> row.reason == reason)
               && r == ReturnOpened(row.publicId, o.publicId, row.reason)
  {
    ScopedIff(s, ref, o);
    hide FindOrder, KeyedOrders, IsOwnOrder;
  }

  // ---------- what the read tools show ----------

  /** The rows of an order, in the table's order. */
  function Owned<Row>(rows: seq<Row>, id: Id, orderOf: Row -> Id): seq<Row> {
    if rows == [] then []
    else (if orderOf(rows[0]) == id then [rows[0]] else []) + Owned(rows[1..], id, orderOf)
  }

  lemma {:induction false} OwnedAppend<Row>(rows: seq<Row>, last: Row, id: Id, orderOf: Row -> Id)
    ensures Owned(rows + [last], id, orderOf) == Owned(rows, id, orderOf) + if orderOf(last) == id then [last] else []
  {
    if rows == [] {
      assert [last][1..] == [] && [] + [last] == [last];
    } else {
      assert (rows + [last])[1..] == rows[1..] + [last];
      OwnedAppend(rows[1..], last, id, orderOf);
    }
  }

  lemma {:induction false} PaymentsAreOwned(rows: seq<Payment>, id: Id)
    ensures PaymentsFor(rows, id) == Owned(rows, id, (p: Payment) => p.orderId)
  {
    if rows != [] {
      var n := |rows| - 1;
      PaymentsAreOwned(rows[..n], id);
      OwnedAppend(rows[..n], rows[n], id, (p: Payment) => p.orderId);
      assert rows == rows[..n] + [rows[n]];
    }
  }

  lemma {:induction false} LinesAreOwned(rows: seq<OrderItem>, id: Id)
    ensures LinesFor(rows, id) == Owned(rows, id, (i: OrderItem) => i.orderId)
  {
    if rows != [] {
      var n := |rows| - 1;
      LinesAreOwned(rows[..n], id);
      OwnedAppend(rows[..n], rows[n], id, (i: OrderItem) => i.orderId);
      assert rows == rows[..n] + [rows[n]];
    }
  }

  lemma {:induction false} ReturnsAreOwned(rows: seq<Return>, id: Id)
    ensures ReturnsFor(rows, id) == Owned(rows, id, (r: Return) => r.orderId)
  {
    if rows != [] {
      var n := |rows| - 1;
      ReturnsAreOwned(rows[..n], id);
      OwnedAppend(rows[..n], rows[n], id, (r: Return) => r.orderId);
      assert rows == rows[..n] + [rows[n]];
    }
  }

  /** The order with how it stands paid: paid as soon as one payment is, else as its first payment. */
  lemma OrderShown(s: State, ref: Ref, o: Order)
    requires KeyedOrders(s.w.orders) && IsOwnOrder(s, ref, o)
    ensures var r, rows := GetOrder(s, ref), Owned(s.w.payments, o.id, (p: Payment) => p.orderId);
            && r.OrderView? && r.order == o && r.paidCount == PaidCount(s.w.payments, o.id)
            && r.payStatus == (if PaidCount(s.w.payments, o.id) >= 1 then PayPaid
                               else if rows != [] then rows[0].status else PayPending)
            && GetOrderItems(s, ref) == ItemList(o.publicId, r.items)
  {
    ScopedIff(s, ref, o);
    PaidRowsCounted(s.w.payments, o.id);
    PaymentsAreOwned(s.w.payments, o.id);
    hide FindOrder, KeyedOrders, IsOwnOrder, PaidRows, PaidCount, PaymentsFor, Owned, LinesFor, ViewItems;
  }

  /** Its lines one by one, each with its own figures and its product. */
  lemma ItemsShown(s: State, ref: Ref, o: Order)
    requires KeyedOrders(s.w.orders) && IsOwnOrder(s, ref, o)
    ensures var r, rows := GetOrderItems(s, ref), Owned(s.w.items, o.id, (i: OrderItem) => i.orderId);
            && r.ItemList? && r.publicId == o.publicId && |r.items| == |rows|
            && forall k :: 0 <= k < |rows| ==>
                 && r.items[k].publicId == rows[k].publicId && r.items[k].quantity == rows[k].quantity
                 && r.items[k].unitPrice == rows[k].unitPrice && r.items[k].lineTotal == rows[k].lineTotal
                 && (r.items[k].product.Some? ==>
                       r.items[k].product.value in s.w.products && r.items[k].product.value.id == rows[k].productId)
                 && (r.items[k].product.None? ==> forall q :: q in s.w.products ==> q.id != rows[k].productId)
  {
    ScopedIff(s, ref, o);
    LinesAreOwned(s.w.items, o.id);
    ItemsViewed(LinesFor(s.w.items, o.id), s.w.products);
    hide FindOrder, KeyedOrders, IsOwnOrder, LinesFor, ViewItems, Owned;
  }

  lemma {:induction false} ItemsViewed(rows: seq<OrderItem>, products: seq<Product>)
    ensures var views := ViewItems(rows, products);
            && |views| == |rows|
            && forall k :: 0 <= k < |rows| ==>
                 && views[k].publicId == rows[k].publicId && views[k].quantity == rows[k].quantity
                 && views[k].unitPrice == rows[k].unitPrice && views[k].lineTotal == rows[k].lineTotal
                 && (views[k].product.Some? ==>
                       views[k].product.value in products && views[k].product.value.id == rows[k].productId)
                 && (views[k].product.None? ==> forall q :: q in products ==> q.id != rows[k].productId)
  {
    if rows != [] {
      var n := |rows| - 1;
      ItemsViewed(rows[..n], products);
      ProductFound(products, rows[n].productId);
      hide ProductById;
    }
  }

  lemma {:induction false} ProductFound(products: seq<Product>, id: Id)
    ensures var f := ProductById(products, id);
            if f.Some? then f.value in products && f.value.id == id else forall q :: q in products ==> q.id != id
  {
    if products != [] { ProductFound(products[1..], id); }
  }

  predicate PaidAlike(payments: seq<Payment>, id: Id) {
    forall p, q :: p in payments && q in payments && IsPaidFor(p, id) && IsPaidFor(q, id) ==> p.amount == q.amount
  }

  /** The payments of the order in order; charged twice is said exactly of two paid ones or more, all of one amount. */
  lemma PaymentsShown(s: State, ref: Ref, o: Order)
    requires KeyedOrders(s.w.orders) && IsOwnOrder(s, ref, o)
    ensures var r, rows := GetPayments(s, ref), Owned(s.w.payments, o.id, (p: Payment) => p.orderId);
            && r.PaymentList? && r.publicId == o.publicId && |r.payments| == |rows|
            && (forall k :: 0 <= k < |rows| ==>
                  r.payments[k] == PaymentView(rows[k].publicId, rows[k].status, rows[k].amount, rows[k].payMethod,
                                               rows[k].createdAt))
            && (r.duplicate <==> PaidCount(s.w.payments, o.id) >= 2 && PaidAlike(s.w.payments, o.id))
    ensures var r, list := GetPaymentStatus(s, ref), GetPayments(s, ref);
            && r.PaymentStatuses? && r.publicId == o.publicId && r.duplicate == list.duplicate
            && |r.statuses| == |list.payments|
            && forall k :: 0 <= k < |r.statuses| ==> r.statuses[k] == list.payments[k].status
  {
    ScopedIff(s, ref, o);
    PaidRowsCounted(s.w.payments, o.id);
    PaymentsAreOwned(s.w.payments, o.id);
    PaidAmong(s.w.payments, o.id);
    hide FindOrder, KeyedOrders, IsOwnOrder, PaidRows, PaidCount, PaymentsFor, Owned;
  }

  lemma {:induction false} PaidAmong(payments: seq<Payment>, id: Id)
    ensures forall p :: p in payments && IsPaidFor(p, id) ==> p in PaidRows(PaymentsFor(payments, id))
  {
    if payments != [] {
      var n := |payments| - 1;
      PaidAmong(payments[..n], id);
      var before := PaymentsFor(payments[..n], id);
      if payments[n].orderId == id {
        PaidRowsAppend(before, payments[n]);
      } else {
        assert before + [] == before;
      }
      assert payments == payments[..n] + [payments[n]];
    }
  }

  /** The shipment of the order, or that there is none. */
  lemma ShipmentShown(s: State, ref: Ref, o: Order)
    requires KeyedOrders(s.w.orders) && IsOwnOrder(s, ref, o)
    ensures var r := GetShipment(s, ref);
            if r.ShipmentView? then
              r.publicId == o.publicId && r.shipment in s.w.shipments && r.shipment.orderId == o.id
            else
              && r == ShipmentNotFound(o.publicId, o.status)
              && forall x :: x in s.w.shipments ==> x.orderId != o.id
  {
    ScopedIff(s, ref, o);
    ShipmentFound(s.w.shipments, o.id);
    hide FindOrder, KeyedOrders, IsOwnOrder, FindShipment;
  }

  lemma ReturnsShown(s: State, ref: Ref, o: Order)
    requires KeyedOrders(s.w.orders) && IsOwnOrder(s, ref, o)
    ensures var r, rows := GetReturnStatus(s, ref), Owned(s.w.returns_, o.id, (x: Return) => x.orderId);
            && r.ReturnList? && r.publicId == o.publicId && |r.returns_| == |rows|
            && forall k :: 0 <= k < |rows| ==>
                 r.returns_[k] == ReturnView(rows[k].publicId, rows[k].reason, rows[k].status, rows[k].inspection)
  {
    ScopedIff(s, ref, o);
    ReturnsAreOwned(s.w.returns_, o.id);
    hide FindOrder, KeyedOrders, IsOwnOrder, ReturnsFor, Owned;
  }

  /** Every tool that is asked for an order of nobody or of somebody else says it is not found, and does nothing. */
  lemma NotFound(s: State, e: Env, ref: Ref, reason: Reason, verified: bool, f: Fresh)
    requires KeyedOrders(s.w.orders) && forall o :: o in s.w.orders ==> !IsOwnOrder(s, ref, o)
    ensures forall c :: c in [CallGetOrder(ref), CallGetOrderItems(ref), CallGetPayments(ref), CallGetPaymentStatus(ref),
                              CallCheckRefund(ref, reason, verified), CallCreateRefund(ref, reason, verified, f),
                              CallGetShipment(ref), CallGetShippingStatus(ref), CallGetReturnStatus(ref),
                              CallCancelOrder(ref), CallCreateReturn(ref, reason, f)] ==>
              Step(s, e, c) == (s, OrderNotFound(ref))
  {
    NothingNamed(s, ref);
    hide FindOrder, KeyedOrders, IsOwnOrder;
  }

  /** Eligibility is the policy engine's word on the order's facts, for the reason asked. */
  lemma EligibilityShown(s: State, e: Env, ref: Ref, reason: Reason, verified: bool, o: Order)
    requires KeyedOrders(s.w.orders) && IsOwnOrder(s, ref, o)
    ensures var r := CheckRefund(s, e, ref, reason, verified);
            && r.Eligibility? && r.publicId == o.publicId && r.reason == reason
            && (r.decision.eligible <==> (verified || s.ctx.verified) && IsEntitled(s.w, o, e.now, reason, e.policy))
  {
    ScopedIff(s, ref, o);
    EntitledIff(s.w, o, e.now, reason, verified || s.ctx.verified, e.policy);
    hide FindOrder, KeyedOrders, IsOwnOrder, RefundFacts, CanRefund, IsEntitled;
  }

  /** A check of the identity tells the account's status, and says verified exactly of active ones. */
  lemma IdentityShown(s: State, who: Option<Ref>)
    ensures var (t, r) := VerifyIdentity(s, who);
            && t == s.(ctx := s.ctx.(verified := FindsActive(s, who)))
            && (GetCustomer(s, who).Profile? ==>
                  r == Identity(FindsActive(s, who), GetCustomer(s, who).publicId, GetCustomer(s, who).status))
            && (!GetCustomer(s, who).Profile? ==> r == Unverified(GetCustomer(s, who)))
  {
    hide FindCustomer;
  }

  /** A profile shown is the customer's own row. */
  lemma ProfileShown(s: State, who: Option<Ref>)
    ensures var r := GetCustomer(s, who);
            && (r.CustomerIdRequired? <==> who.None? && s.ctx.customer.None?)
            && (r.Profile? ==>
                  exists c :: c in s.w.customers
                    && r == Profile(c.id, c.publicId, c.name, c.email, c.phone, c.tier, c.status)
                    && (s.ctx.customer == None || s.ctx.customer == Some(c.id))
                    && (who.Some? ==> Names(who.value, c.id, c.publicId)))
  {
    var ref := if who.Some? then who else if s.ctx.customer.Some? then Some(ByUuid(s.ctx.customer.value)) else None;
    if ref.Some? { FindCustomerIn(s.w.customers, ref.value); }
    hide FindCustomer;
  }
}

/** A bound customer sees and touches only their own rows. */
module ToolsIsolation {
  import opened Text
  import opened Records
  import opened PolicyRules
  import opened WorldIntegrity
  import opened WorldInvariant
  import opened Tools

  // ---------- one customer's part of the database ----------

  /** The orders that belong to `c`, or (with `mine` false) to anyone else. */
  function PartOrders(orders: seq<Order>, c: Id, mine: bool): seq<Order> {
    if orders == [] then []
    else
      var last := orders[|orders| - 1];
      PartOrders(orders[..|orders| - 1], c, mine) + if (last.customerId == c) == mine then [last] else []
  }

  function PartCustomers(customers: seq<Customer>, c: Id, mine: bool): seq<Customer> {
    if customers == [] then []
    else
      var last := customers[|customers| - 1];
      PartCustomers(customers[..|customers| - 1], c, mine) + if (last.id == c) == mine then [last] else []
  }

  function PartItems(rows: seq<OrderItem>, ids: set<Id>, mine: bool): seq<OrderItem> {
    if rows == [] then []
    else
      var last := rows[|rows| - 1];
      PartItems(rows[..|rows| - 1], ids, mine) + if (last.orderId in ids) == mine then [last] else []
  }

  function PartPayments(rows: seq<Payment>, ids: set<Id>, mine: bool): seq<Payment> {
    if rows == [] then []
    else
      var last := rows[|rows| - 1];
      PartPayments(rows[..|rows| - 1], ids, mine) + if (last.orderId in ids) == mine then [last] else []
  }

  function PartShipments(rows: seq<Shipment>, ids: set<Id>, mine: bool): seq<Shipment> {
    if rows == [] then []
    else
      var last := rows[|rows| - 1];
      PartShipments(rows[..|rows| - 1], ids, mine) + if (last.orderId in ids) == mine then [last] else []
  }

  function PartReturns(rows: seq<Return>, ids: set<Id>, mine: bool): seq<Return> {
    if rows == [] then []
    else
      var last := rows[|rows| - 1];
      PartReturns(rows[..|rows| - 1], ids, mine) + if (last.orderId in ids) == mine then [last] else []
  }

  function PartRefunds(rows: seq<Refund>, ids: set<Id>, mine: bool): seq<Refund> {
    if rows == [] then []
    else
      var last := rows[|rows| - 1];
      PartRefunds(rows[..|rows| - 1], ids, mine) + if (last.orderId in ids) == mine then [last] else []
  }

  function OwnIds(w: Tables, c: Id): set<Id> { OrderIds(PartOrders(w.orders, c, true)) }

  /** The rows of `c` and the public catalog; with `mine` false, everyone else's rows. */
  function Part(w: Tables, c: Id, mine: bool): Tables {
    var ids := OwnIds(w, c);
    Tables(w.products, PartCustomers(w.customers, c, mine), PartOrders(w.orders, c, mine), PartItems(w.items, ids, mine),
           PartPayments(w.payments, ids, mine), PartShipments(w.shipments, ids, mine),
           PartReturns(w.returns_, ids, mine), PartRefunds(w.refunds, ids, mine), [], [])
  }

  /** The database's own constraints: ids and public ids are unique. */
  predicate Keyed(w: Tables) {
    && (forall i, j :: 0 <= i < j < |w.orders| ==>
          w.orders[i].id != w.orders[j].id && w.orders[i].publicId != w.orders[j].publicId)
    && (forall i, j :: 0 <= i < j < |w.customers| ==>
          w.customers[i].id != w.customers[j].id && w.customers[i].publicId != w.customers[j].publicId)
  }

  // ---------- looking things up in a part ----------

  predicate KeyedOrders(orders: seq<Order>) {
    forall i, j :: 0 <= i < j < |orders| ==> orders[i].id != orders[j].id && orders[i].publicId != orders[j].publicId
  }

  predicate KeyedCustomers(customers: seq<Customer>) {
    forall i, j :: 0 <= i < j < |customers| ==>
      customers[i].id != customers[j].id && customers[i].publicId != customers[j].publicId
  }

  lemma {:induction false} PartOrdersMembers(orders: seq<Order>, c: Id, mine: bool)
    ensures forall o :: o in PartOrders(orders, c, mine) <==> o in orders && (o.customerId == c) == mine
  {
    if orders != [] {
      var n := |orders| - 1;
      PartOrdersMembers(orders[..n], c, mine);
      assert orders == orders[..n] + [orders[n]];
    }
  }

  lemma {:induction false} FoundIsIn(orders: seq<Order>, ref: Ref)
    ensures var o := FindOrder(orders, ref);
            if o.Some? then o.value in orders && Names(ref, o.value.id, o.value.publicId)
            else forall p :: p in orders ==> !Names(ref, p.id, p.publicId)
  {
    if orders != [] { FoundIsIn(orders[..|orders| - 1], ref); }
  }

  /** Looking among one's own orders and looking everywhere find the same order, if it is one's own. */
  lemma {:induction false} FindInPart(orders: seq<Order>, c: Id, ref: Ref)
    requires KeyedOrders(orders)
    ensures FindOrder(PartOrders(orders, c, true), ref)
            == var o := FindOrder(orders, ref); if o.Some? && o.value.customerId == c then o else None
  {
    if orders != [] {
      var n := |orders| - 1;
      var last := orders[n];
      FindInPart(orders[..n], c, ref);
      var before := PartOrders(orders[..n], c, true);
      FoundIsIn(orders[..n], ref);
      if last.customerId == c {
        assert PartOrders(orders, c, true)[..|before|] == before;
      } else {
        assert PartOrders(orders, c, true) == before;
        if Names(ref, last.id, last.publicId) { OnlyOneNamed(orders, n, ref); }
      }
    }
  }

  lemma OnlyOneNamed(orders: seq<Order>, n: nat, ref: Ref)
    requires KeyedOrders(orders) && n < |orders| && Names(ref, orders[n].id, orders[n].publicId)
    ensures FindOrder(orders[..n], ref).None?
  {
    FoundIsIn(orders[..n], ref);
  }

  lemma {:induction false} FindCustomerIn(customers: seq<Customer>, ref: Ref)
    ensures var o := FindCustomer(customers, ref);
            if o.Some? then o.value in customers && Names(ref, o.value.id, o.value.publicId)
            else forall p :: p in customers ==> !Names(ref, p.id, p.publicId)
  {
    if customers != [] { FindCustomerIn(customers[..|customers| - 1], ref); }
  }

  lemma {:induction false} FindCustomerInPart(customers: seq<Customer>, c: Id, ref: Ref)
    requires KeyedCustomers(customers)
    ensures FindCustomer(PartCustomers(customers, c, true), ref)
            == var o := FindCustomer(customers, ref); if o.Some? && o.value.id == c then o else None
  {
    if customers != [] {
      var n := |customers| - 1;
      var last := customers[n];
      FindCustomerInPart(customers[..n], c, ref);
      var before := PartCustomers(customers[..n], c, true);
      if last.id == c {
        assert PartCustomers(customers, c, true)[..|before|] == before;
      } else {
        assert PartCustomers(customers, c, true) == before;
        if Names(ref, last.id, last.publicId) { OnlyCustomerNamed(customers, n, ref); }
      }
    }
  }

  lemma OnlyCustomerNamed(customers: seq<Customer>, n: nat, ref: Ref)
    requires KeyedCustomers(customers) && n < |customers| && Names(ref, customers[n].id, customers[n].publicId)
    ensures FindCustomer(customers[..n], ref).None?
  {
    FindCustomerIn(customers[..n], ref);
  }

  lemma {:induction false} LinesInPart(rows: seq<OrderItem>, ids: set<Id>, id: Id)
    requires id in ids
    ensures LinesFor(PartItems(rows, ids, true), id) == LinesFor(rows, id)
  {
    if rows != [] {
      var n := |rows| - 1;
      LinesInPart(rows[..n], ids, id);
      var before := PartItems(rows[..n], ids, true);
      assert (before + [rows[n]])[..|before|] == before;
      assert before + [] == before;
    }
  }

  lemma {:induction false} PaymentsInPart(rows: seq<Payment>, ids: set<Id>, id: Id)
    requires id in ids
    ensures PaymentsFor(PartPayments(rows, ids, true), id) == PaymentsFor(rows, id)
  {
    if rows != [] {
      var n := |rows| - 1;
      PaymentsInPart(rows[..n], ids, id);
      var before := PartPayments(rows[..n], ids, true);
      assert (before + [rows[n]])[..|before|] == before;
      assert before + [] == before;
    }
  }

  lemma {:induction false} ReturnsInPart(rows: seq<Return>, ids: set<Id>, id: Id)
    requires id in ids
    ensures ReturnsFor(PartReturns(rows, ids, true), id) == ReturnsFor(rows, id)
  {
    if rows != [] {
      var n := |rows| - 1;
      ReturnsInPart(rows[..n], ids, id);
      var before := PartReturns(rows[..n], ids, true);
      assert (before + [rows[n]])[..|before|] == before;
      assert before + [] == before;
    }
  }

  lemma {:induction false} ShipmentInPart(rows: seq<Shipment>, ids: set<Id>, id: Id)
    requires id in ids
    ensures FindShipment(PartShipments(rows, ids, true), id) == FindShipment(rows, id)
  {
    if rows != [] {
      var n := |rows| - 1;
      ShipmentInPart(rows[..n], ids, id);
      var before := PartShipments(rows[..n], ids, true);
      assert (before + [rows[n]])[..|before|] == before;
      assert before + [] == before;
    }
  }

  // ---------- what a state looks like to the bound customer ----------

  function Own(s: State, c: Id): State { State(Part(s.w, c, true), s.ctx) }

  predicate Bound(s: State, c: Id) { Keyed(s.w) && s.ctx.customer == Some(c) }

  lemma KeyedParts(w: Tables)
    requires Keyed(w)
    ensures KeyedOrders(w.orders) && KeyedCustomers(w.customers)
  {
  }

  /** The scoped lookup, and every row that hangs on the order it finds. */
  lemma OwnOrder(s: State, c: Id, ref: Ref)
    requires Bound(s, c)
    ensures ScopedOrder(Own(s, c), ref) == ScopedOrder(s, ref)
    ensures var o := ScopedOrder(s, ref);
            o.Some? ==>
              && o.value in s.w.orders && o.value.customerId == c && o.value.id in OwnIds(s.w, c)
              && Names(ref, o.value.id, o.value.publicId)
              && FindOrder(s.w.orders, ref) == o && FindOrder(Own(s, c).w.orders, ref) == o
              && LinesFor(Own(s, c).w.items, o.value.id) == LinesFor(s.w.items, o.value.id)
              && PaymentsFor(Own(s, c).w.payments, o.value.id) == PaymentsFor(s.w.payments, o.value.id)
              && ReturnsFor(Own(s, c).w.returns_, o.value.id) == ReturnsFor(s.w.returns_, o.value.id)
              && FindShipment(Own(s, c).w.shipments, o.value.id) == FindShipment(s.w.shipments, o.value.id)
  {
    KeyedParts(s.w);
    FindInPart(s.w.orders, c, ref);
    FoundIsIn(s.w.orders, ref);
    PartOrdersMembers(s.w.orders, c, true);
    var o := ScopedOrder(s, ref);
    hide Keyed, KeyedOrders, KeyedCustomers, PartOrders, PartItems, PartPayments, PartReturns, PartShipments, PartRefunds;
    hide LinesFor, PaymentsFor, ReturnsFor, FindShipment, FindOrder;
    if o.Some? {
      var ids := OwnIds(s.w, c);
      assert o.value.id in ids;
      LinesInPart(s.w.items, ids, o.value.id);
      PaymentsInPart(s.w.payments, ids, o.value.id);
      ReturnsInPart(s.w.returns_, ids, o.value.id);
      ShipmentInPart(s.w.shipments, ids, o.value.id);
    }
  }

  lemma OwnCustomer(s: State, c: Id, ref: Ref)
    requires Bound(s, c)
    ensures ScopedCustomer(Own(s, c), ref) == ScopedCustomer(s, ref)
  {
    KeyedParts(s.w);
    FindCustomerInPart(s.w.customers, c, ref);
    hide Keyed, KeyedOrders, KeyedCustomers, PartOrders, PartCustomers, FindCustomer;
  }

  // ---------- every tool answers from the customer's own rows ----------

  lemma OwnOrderReads(s: State, c: Id, ref: Ref)
    requires Bound(s, c)
    ensures GetOrder(Own(s, c), ref) == GetOrder(s, ref)
    ensures GetOrderItems(Own(s, c), ref) == GetOrderItems(s, ref)
    ensures GetShipment(Own(s, c), ref) == GetShipment(s, ref)
    ensures GetReturnStatus(Own(s, c), ref) == GetReturnStatus(s, ref)
  {
    OwnOrder(s, c, ref);
    hide ScopedOrder, LinesFor, PaymentsFor, ReturnsFor, FindShipment, FindOrder, ViewItems, ViewPayments, ViewReturns;
    hide PaidRows, SameAmounts, PartOrders, PartItems, PartPayments, PartReturns, PartShipments, PartRefunds, Bound;
  }

  lemma OwnPaymentReads(s: State, c: Id, ref: Ref)
    requires Bound(s, c)
    ensures GetPayments(Own(s, c), ref) == GetPayments(s, ref)
    ensures GetPaymentStatus(Own(s, c), ref) == GetPaymentStatus(s, ref)
  {
    OwnOrder(s, c, ref);
    assert GetPayments(Own(s, c), ref) == GetPayments(s, ref) by {
      hide ScopedOrder, LinesFor, PaymentsFor, ReturnsFor, FindShipment, FindOrder, ViewPayments, PaidRows, SameAmounts;
      hide PartOrders, PartItems, PartPayments, PartReturns, PartShipments, PartRefunds, Bound;
    }
    hide GetPayments, Part, Bound;
  }

  lemma OwnCheck(s: State, e: Env, c: Id, ref: Ref, reason: Reason, verified: bool)
    requires Bound(s, c)
    ensures CheckRefund(Own(s, c), e, ref, reason, verified) == CheckRefund(s, e, ref, reason, verified)
  {
    OwnOrder(s, c, ref);
    hide ScopedOrder, LinesFor, PaymentsFor, ReturnsFor, FindShipment, FindOrder, PaidRows, CanRefund, DaysSinceDelivery;
    hide PartOrders, PartItems, PartPayments, PartReturns, PartShipments, PartRefunds, Bound, ProductById;
  }

  lemma OwnProfile(s: State, c: Id, who: Option<Ref>)
    requires Bound(s, c)
    ensures GetCustomer(Own(s, c), who) == GetCustomer(s, who)
  {
    var ref := if who.Some? then who.value else ByUuid(c);
    OwnCustomer(s, c, ref);
    hide ScopedCustomer, Part, Keyed;
  }

  // ---------- every write stays among the customer's own rows ----------

  lemma SetStatusAppend(a: seq<Order>, o: Order, id: Id, status: OrderStatus)
    ensures SetStatus(a + [o], id, status) == SetStatus(a, id, status) + [WithStatus(o, id, status)]
  {
    assert (a + [o])[..|a|] == a;
  }

  lemma PartAppend(a: seq<Order>, o: Order, c: Id, mine: bool)
    ensures PartOrders(a + [o], c, mine)
            == if (o.customerId == c) == mine then PartOrders(a, c, mine) + [o] else PartOrders(a, c, mine)
  {
    assert (a + [o])[..|a|] == a;
  }

  lemma WithStatusOwner(o: Order, id: Id, status: OrderStatus)
    ensures WithStatus(o, id, status).customerId == o.customerId
  {
  }

  lemma {:induction false} SetStatusInPart(orders: seq<Order>, id: Id, status: OrderStatus, c: Id, mine: bool)
    ensures PartOrders(SetStatus(orders, id, status), c, mine) == SetStatus(PartOrders(orders, c, mine), id, status)
  {
    if orders != [] {
      hide *;
      var init, last := orders[..|orders| - 1], orders[|orders| - 1];
      assert orders == init + [last];
      SetStatusInPart(init, id, status, c, mine);
      SetStatusAppend(init, last, id, status);
      PartAppend(init, last, c, mine);
      PartAppend(SetStatus(init, id, status), WithStatus(last, id, status), c, mine);
      SetStatusAppend(PartOrders(init, c, mine), last, id, status);
      WithStatusOwner(last, id, status);
    }
  }

  lemma SetStatusIds(orders: seq<Order>, id: Id, status: OrderStatus)
    ensures OrderIds(SetStatus(orders, id, status)) == OrderIds(orders)
  {
    SetStatusRows(orders, id, status);
    hide SetStatus;
    var r := SetStatus(orders, id, status);
    forall i | 0 <= i < |orders| ensures orders[i].id in OrderIds(r) && r[i].id in OrderIds(orders) {
      assert r[i] in r && orders[i] in orders && r[i].id == orders[i].id;
    }
  }

  lemma {:induction false} SetStatusElsewhere(orders: seq<Order>, id: Id, status: OrderStatus)
    requires forall o :: o in orders ==> o.id != id
    ensures SetStatus(orders, id, status) == orders
  {
    if orders != [] {
      assert orders[|orders| - 1] in orders;
      SetStatusElsewhere(orders[..|orders| - 1], id, status);
    }
  }

  /** The two parts after a cancellation of one's own order. */
  lemma CancelParts(w: Tables, c: Id, o: Order)
    requires Keyed(w) && o in w.orders && o.customerId == c
    ensures var v := w.(orders := SetStatus(w.orders, o.id, Cancelled));
            && Keyed(v) && Part(v, c, false) == Part(w, c, false)
            && Part(v, c, true) == Part(w, c, true).(orders := SetStatus(PartOrders(w.orders, c, true), o.id, Cancelled))
  {
    SetStatusRows(w.orders, o.id, Cancelled);
    SetStatusInPart(w.orders, o.id, Cancelled, c, true);
    SetStatusInPart(w.orders, o.id, Cancelled, c, false);
    SetStatusIds(PartOrders(w.orders, c, true), o.id, Cancelled);
    PartOrdersMembers(w.orders, c, false);
    hide PartOrders, SetStatus, PartCustomers, PartItems, PartPayments, PartShipments, PartReturns, PartRefunds;
    var others := PartOrders(w.orders, c, false);
    forall p | p in others ensures p.id != o.id {
      var i :| 0 <= i < |w.orders| && w.orders[i] == p;
      var j :| 0 <= j < |w.orders| && w.orders[j] == o;
      assert i != j;
    }
    SetStatusElsewhere(others, o.id, Cancelled);
  }

  lemma AppendedReturn(w: Tables, c: Id, r: Return)
    requires r.orderId in OwnIds(w, c)
    ensures var v := w.(returns_ := w.returns_ + [r]);
            && Part(v, c, false) == Part(w, c, false)
            && Part(v, c, true) == Part(w, c, true).(returns_ := Part(w, c, true).returns_ + [r])
  {
    assert (w.returns_ + [r])[..|w.returns_|] == w.returns_;
    hide PartOrders, PartCustomers, PartItems, PartPayments, PartShipments, PartRefunds;
  }

  lemma AppendedRefund(w: Tables, c: Id, r: Refund)
    requires r.orderId in OwnIds(w, c)
    ensures var v := w.(refunds := w.refunds + [r]);
            && Part(v, c, false) == Part(w, c, false)
            && Part(v, c, true) == Part(w, c, true).(refunds := Part(w, c, true).refunds + [r])
  {
    assert (w.refunds + [r])[..|w.refunds|] == w.refunds;
    hide PartOrders, PartCustomers, PartItems, PartPayments, PartShipments, PartReturns;
  }

  // ---------- one call ----------

  /** A call commutes with the restriction to one's own rows, and leaves everyone else's alone. */
  predicate Isolated(s: State, e: Env, call: Call, c: Id) {
    var (t, r) := Step(s, e, call);
    && Step(Own(s, c), e, call) == (Own(t, c), r)
    && Part(t.w, c, false) == Part(s.w, c, false) && Bound(t, c)
  }

  lemma ReadIsolated(s: State, e: Env, call: Call, c: Id)
    requires Bound(s, c)
    requires !call.CallVerifyIdentity? && !call.CallCreateRefund? && !call.CallCancelOrder? && !call.CallCreateReturn?
    ensures Isolated(s, e, call, c)
  {
    hide GetCustomer, GetOrder, GetOrderItems, GetPayments, GetPaymentStatus, CheckRefund, GetShipment, GetReturnStatus;
    hide Part, Bound;
    match call
    case CallGetCustomer(who) => OwnProfile(s, c, who);
    case CallGetPayments(ref) => OwnPaymentReads(s, c, ref);
    case CallGetPaymentStatus(ref) => OwnPaymentReads(s, c, ref);
    case CallCheckRefund(ref, reason, verified) => OwnCheck(s, e, c, ref, reason, verified);
    case CallGetOrder(ref) => OwnOrderReads(s, c, ref);
    case CallGetOrderItems(ref) => OwnOrderReads(s, c, ref);
    case CallGetShipment(ref) => OwnOrderReads(s, c, ref);
    case CallGetShippingStatus(ref) => OwnOrderReads(s, c, ref);
    case CallGetReturnStatus(ref) => OwnOrderReads(s, c, ref);
  }

  lemma VerifyIsolated(s: State, e: Env, call: Call, c: Id)
    requires Bound(s, c) && call.CallVerifyIdentity?
    ensures Isolated(s, e, call, c)
  {
    hide GetCustomer, Part, Keyed;
    OwnProfile(s, c, call.who);
  }

  lemma CancelIsolated(s: State, e: Env, call: Call, c: Id)
    requires Bound(s, c) && call.CallCancelOrder?
    ensures Isolated(s, e, call, c)
  {
    OwnOrder(s, c, call.order);
    var o := ScopedOrder(s, call.order);
    if o.Some? { CancelParts(s.w, c, o.value); }
    hide ScopedOrder, FindShipment, CanCancel, SetStatus, Keyed, PartOrders, PartItems, PartPayments, PartReturns;
    hide PartShipments, PartRefunds, PartCustomers;
  }

  lemma ReturnIsolated(s: State, e: Env, call: Call, c: Id)
    requires Bound(s, c) && call.CallCreateReturn?
    ensures Isolated(s, e, call, c)
  {
    OwnOrder(s, c, call.order);
    var o := ScopedOrder(s, call.order);
    var t := Step(s, e, call).0;
    StillKeyed(s.w, t.w);
    hide ScopedOrder, Part, OwnIds, ParseReturnReason, Keyed;
    if o.Some? { AppendedReturn(s.w, c, t.w.returns_[|s.w.returns_|]); }
  }

  /** Opening a refund, told from the scoped lookup. */
  function OpenRefund(s: State, e: Env, ref: Ref, reason: Reason, f: Fresh, o: Option<Order>, checked: Reply)
    : (State, Reply)
  {
    if o.None? || !checked.Eligibility? then (s, OrderNotFound(ref))
    else if !checked.decision.eligible then (s, RefundRefused(checked))
    else
      var r := NewRefund(s.w, o.value, checked.decision, reason, f, e.now);
      (s.(w := s.w.(refunds := s.w.refunds + [r])),
       RefundOpened(r.publicId, o.value.publicId, r.status, r.amount, r.requiresHuman, checked))
  }

  lemma RefundIsOpened(s: State, e: Env, ref: Ref, reason: Reason, verified: bool, f: Fresh)
    ensures CreateRefund(s, e, ref, reason, verified, f)
            == OpenRefund(s, e, ref, reason, f, ScopedOrder(s, ref),
                          CheckRefund(s, e, ref, reason, verified || s.ctx.verified))
  {
    hide FindOrder, RefundFacts, CanRefund, NewRefund;
  }

  lemma StillKeyed(w: Tables, v: Tables)
    requires Keyed(w) && v.orders == w.orders && v.customers == w.customers
    ensures Keyed(v)
  {
  }

  lemma NewRefundInPart(s: State, c: Id, o: Order, d: RefundDecision, reason: Reason, f: Fresh, now: Time)
    requires PaymentsFor(Own(s, c).w.payments, o.id) == PaymentsFor(s.w.payments, o.id)
    ensures NewRefund(Own(s, c).w, o, d, reason, f, now) == NewRefund(s.w, o, d, reason, f, now)
    ensures NewRefund(s.w, o, d, reason, f, now).orderId == o.id
  {
    hide PaidRows, PaymentsFor, Part;
  }

  lemma RefundIsolated(s: State, e: Env, call: Call, c: Id)
    requires Bound(s, c) && call.CallCreateRefund?
    ensures Isolated(s, e, call, c)
  {
    OwnOrder(s, c, call.order);
    OwnCheck(s, e, c, call.order, call.reason, call.verified || s.ctx.verified);
    RefundIsOpened(s, e, call.order, call.reason, call.verified, call.fresh_);
    RefundIsOpened(Own(s, c), e, call.order, call.reason, call.verified, call.fresh_);
    hide CreateRefund, ScopedOrder, CheckRefund, NewRefund, Part, OwnIds, PaymentsFor, Keyed;
    var o := ScopedOrder(s, call.order);
    var checked := CheckRefund(s, e, call.order, call.reason, call.verified || s.ctx.verified);
    if o.Some? && checked.Eligibility? && checked.decision.eligible {
      NewRefundInPart(s, c, o.value, checked.decision, call.reason, call.fresh_, e.now);
      AppendedRefund(s.w, c, NewRefund(s.w, o.value, checked.decision, call.reason, call.fresh_, e.now));
    }
    StillKeyed(s.w, Step(s, e, call).0.w);
  }

  lemma StepIsolated(s: State, e: Env, call: Call, c: Id)
    requires Bound(s, c)
    ensures Isolated(s, e, call, c)
  {
    hide Isolated, Bound;
    match call
    case CallVerifyIdentity(_) => VerifyIsolated(s, e, call, c);
    case CallCreateRefund(_, _, _, _) => RefundIsolated(s, e, call, c);
    case CallCancelOrder(_) => CancelIsolated(s, e, call, c);
    case CallCreateReturn(_, _, _) => ReturnIsolated(s, e, call, c);
    case _ => ReadIsolated(s, e, call, c);
  }

  // ---------- any run of calls ----------

  lemma {:induction false} RunIsolated(s: State, turns: seq<Turn>, c: Id)
    requires Bound(s, c)
    ensures var (t, rs) := Run(s, turns);
            Run(Own(s, c), turns) == (Own(t, c), rs) && Part(t.w, c, false) == Part(s.w, c, false) && Bound(t, c)
    decreases |turns|
  {
    hide Step, Part, Bound;
    if turns != [] {
      StepIsolated(s, turns[0].env, turns[0].call, c);
      RunIsolated(Step(s, turns[0].env, turns[0].call).0, turns[1..], c);
    }
  }

  /**
   * Non-interference: two databases that agree on a customer's rows and the catalog answer every sequence of
   * calls made for that customer alike, still agree afterwards, and leave everyone else's rows as they were.
   */
  lemma NonInterference(s: State, t: State, turns: seq<Turn>, c: Id)
    requires Bound(s, c) && Bound(t, c) && Own(s, c) == Own(t, c)
    ensures Run(s, turns).1 == Run(t, turns).1
    ensures Own(Run(s, turns).0, c) == Own(Run(t, turns).0, c)
    ensures Part(Run(s, turns).0.w, c, false) == Part(s.w, c, false)
  {
    hide Run, Part, Bound;
    RunIsolated(s, turns, c);
    RunIsolated(t, turns, c);
  }
}

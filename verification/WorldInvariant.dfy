/** What every builder keeps: the invariant of the world under construction. */
module WorldInvariant {
  import opened Text
  import opened Records
  import opened WorldSpec
  import opened WorldIntegrity

  // ---------- the invariant ----------

  function OrderIds(orders: seq<Order>): set<Id> { set o | o in orders :: o.id }

  predicate UniqueOrders(orders: seq<Order>) {
    forall i, j :: 0 <= i < j < |orders| ==> orders[i].id != orders[j].id
  }

  /** Every id drawn so far is below the tape position. */
  predicate IdsBelow(w: Tables, pos: nat) {
    && (forall o :: o in w.orders ==> o.id < pos)
    && (forall c :: c in w.customers ==> c.id < pos)
  }

  predicate ItemsOk(w: Tables) {
    forall i :: i in w.items ==>
      i.orderId in OrderIds(w.orders) && i.productId in ProductIds(w.products)
      && i.lineTotal == i.unitPrice * i.quantity
  }

  predicate OrdersOk(w: Tables) {
    forall o :: o in w.orders ==> o.customerId in CustomerIds(w.customers) && LineSum(w.items, o.id) == o.total
  }

  /** A payment is for the whole of an existing order, by an allowed method. */
  predicate PaymentsOk(w: Tables, allowed: seq<string>) {
    forall p :: p in w.payments ==>
      p.payMethod in allowed && exists o :: o in w.orders && o.id == p.orderId && p.amount == o.total
  }

  /** What has been delivered has been paid. */
  predicate DeliveredPaid(w: Tables) {
    forall o :: o in w.orders && (o.actualDelivery.Some? || o.status == Delivered) ==> PaidCount(w.payments, o.id) >= 1
  }

  predicate ShipmentsOk(w: Tables) {
    && (forall s :: s in w.shipments ==> s.orderId in OrderIds(w.orders))
    && (forall i, j :: 0 <= i < j < |w.shipments| ==> w.shipments[i].orderId != w.shipments[j].orderId)
  }

  predicate ReturnsOk(w: Tables) {
    forall r :: r in w.returns_ ==>
      exists o :: o in w.orders && o.id == r.orderId && o.customerId == r.customerId
                  && o.status in {Shipped, Delivered, Returned}
  }

  /** A refund is for the whole of an existing order, and within what was paid for it. */
  predicate RefundsOk(w: Tables) {
    forall r :: r in w.refunds ==>
      && (exists o :: o in w.orders && o.id == r.orderId && r.amount == o.total)
      && r.amount <= PaidSum(w.payments, r.orderId)
  }

  predicate TicketsOk(w: Tables) {
    forall t :: t in w.tickets ==>
      && t.customerId in CustomerIds(w.customers)
      && (t.orderId.Some? ==> exists o :: o in w.orders && o.id == t.orderId.value && o.customerId == t.customerId)
  }

  predicate DoublesOk(w: Tables) {
    forall s :: s in w.scenarios && s.kind == DoublePayment && s.orderId.Some? ==>
      s.orderId.value in OrderIds(w.orders) && PaidCount(w.payments, s.orderId.value) >= 2
  }

  predicate PricesOk(w: Tables) {
    && (forall p :: p in w.products ==> p.unitPrice >= 0)
    && (forall o :: o in w.orders ==> o.total >= 0)
  }

  predicate Inv(w: Tables, pos: nat, allowed: seq<string>) {
    && UniqueOrders(w.orders) && IdsBelow(w, pos) && PricesOk(w)
    && ItemsOk(w) && OrdersOk(w) && PaymentsOk(w, allowed) && DeliveredPaid(w) && ShipmentsOk(w)
    && ReturnsOk(w) && RefundsOk(w) && TicketsOk(w) && DoublesOk(w) && EmailsDistinct(w.customers)
  }

  // ---------- shipping dates, kept apart because a negative window can break them ----------

  predicate InDateOrder(s: Shipment, o: Order) {
    && (s.shippedAt.Some? ==> s.shippedAt.value >= o.createdAt)
    && (s.deliveredAt.Some? && s.shippedAt.Some? ==> s.deliveredAt.value >= s.shippedAt.value)
  }

  predicate AllDated(w: Tables) {
    forall s, o :: s in w.shipments && o in w.orders && o.id == s.orderId ==> InDateOrder(s, o)
  }

  // ---------- sums over appended rows ----------

  lemma {:induction false} LineSumNone(items: seq<OrderItem>, id: Id)
    requires forall i :: i in items ==> i.orderId != id
    ensures LineSum(items, id) == 0
  {
    if items != [] {
      assert items[|items| - 1] in items;
      LineSumNone(items[..|items| - 1], id);
    }
  }

  lemma LineSumAppend(items: seq<OrderItem>, i: OrderItem, id: Id)
    ensures LineSum(items + [i], id) == LineSum(items, id) + if i.orderId == id then i.lineTotal else 0
  {
    assert (items + [i])[..|items|] == items;
  }

  lemma {:induction false} PaidConcat(a: seq<Payment>, b: seq<Payment>, id: Id)
    ensures PaidSum(a + b, id) == PaidSum(a, id) + PaidSum(b, id)
    ensures PaidCount(a + b, id) == PaidCount(a, id) + PaidCount(b, id)
  {
    hide IsPaidFor;
    if b == [] {
      assert a + b == a;
    } else {
      var n := |b| - 1;
      assert (a + b)[..|a + b| - 1] == a + b[..n];
      PaidConcat(a, b[..n], id);
    }
  }

  lemma {:induction false} PaidNone(payments: seq<Payment>, id: Id)
    requires forall p :: p in payments ==> p.orderId != id
    ensures PaidSum(payments, id) == 0 && PaidCount(payments, id) == 0
  {
    if payments != [] {
      assert payments[|payments| - 1] in payments;
      PaidNone(payments[..|payments| - 1], id);
    }
  }

  // ---------- appending one order with its rows ----------

  /** A bundle that fits: rows of one fresh order, priced alike, paid when delivered. */
  predicate Fits(w: Tables, b: Bundle, before: nat, after: nat, allowed: seq<string>) {
    && before <= b.order.id < after
    && b.order.customerId in CustomerIds(w.customers)
    && b.order.total >= 0
    && b.item.orderId == b.order.id && b.item.productId in ProductIds(w.products)
    && b.item.lineTotal == b.item.unitPrice * b.item.quantity == b.order.total
    && (forall p :: p in b.payments ==>
          p.orderId == b.order.id && p.amount == b.order.total && p.payMethod in allowed)
    && (b.order.actualDelivery.Some? || b.order.status == Delivered ==> PaidCount(b.payments, b.order.id) >= 1)
    && (b.shipment.Some? ==> b.shipment.value.orderId == b.order.id)
  }

  /** The bundle's order id is new to every table. */
  lemma FreshOrder(w: Tables, pos: nat, allowed: seq<string>, id: Id)
    requires Inv(w, pos, allowed) && id >= pos
    ensures id !in OrderIds(w.orders)
    ensures forall i :: i in w.items ==> i.orderId != id
    ensures forall p :: p in w.payments ==> p.orderId != id
    ensures forall s :: s in w.shipments ==> s.orderId != id
  {
    assert id !in OrderIds(w.orders);
  }

  lemma AppendOrders(w: Tables, b: Bundle, pos: nat, after: nat, allowed: seq<string>)
    requires Inv(w, pos, allowed) && Fits(w, b, pos, after, allowed)
    ensures var v := AppendBundle(w, b);
            UniqueOrders(v.orders) && IdsBelow(v, after) && PricesOk(v)
            && OrderIds(v.orders) == OrderIds(w.orders) + {b.order.id}
  {
    hide ItemsOk, OrdersOk, PaymentsOk, DeliveredPaid, ShipmentsOk, ReturnsOk, RefundsOk, TicketsOk, DoublesOk;
    hide EmailsDistinct;
    var v := AppendBundle(w, b);
    forall i, j | 0 <= i < j < |v.orders| ensures v.orders[i].id != v.orders[j].id {
      if j == |w.orders| { assert w.orders[i] in w.orders; }
    }
    assert v.orders[|w.orders|] == b.order;
  }

  lemma AppendItems(w: Tables, b: Bundle, pos: nat, after: nat, allowed: seq<string>)
    requires Inv(w, pos, allowed) && Fits(w, b, pos, after, allowed)
    ensures var v := AppendBundle(w, b); ItemsOk(v) && OrdersOk(v)
  {
    FreshOrder(w, pos, allowed, b.order.id);
    AppendOrders(w, b, pos, after, allowed);
    hide Inv, Fits;
    hide PaymentsOk, DeliveredPaid, ShipmentsOk, ReturnsOk, RefundsOk, TicketsOk, DoublesOk;
    var v := AppendBundle(w, b);
    KeptItems(w, pos, allowed);
    FitsItem(w, b, pos, after, allowed);
    forall o | o in v.orders
      ensures o.customerId in CustomerIds(v.customers) && LineSum(v.items, o.id) == o.total
    {
      LineSumAppend(w.items, b.item, o.id);
      if o in w.orders {
        assert o.id in OrderIds(w.orders);
      } else {
        LineSumNone(w.items, o.id);
      }
    }
  }

  lemma KeptItems(w: Tables, pos: nat, allowed: seq<string>)
    requires Inv(w, pos, allowed)
    ensures ItemsOk(w) && OrdersOk(w)
  {
  }

  lemma FitsItem(w: Tables, b: Bundle, pos: nat, after: nat, allowed: seq<string>)
    requires Fits(w, b, pos, after, allowed)
    ensures b.item.orderId == b.order.id && b.item.productId in ProductIds(w.products)
    ensures b.item.lineTotal == b.item.unitPrice * b.item.quantity == b.order.total
    ensures b.order.customerId in CustomerIds(w.customers)
  {
  }

  lemma AppendPayments(w: Tables, b: Bundle, pos: nat, after: nat, allowed: seq<string>)
    requires Inv(w, pos, allowed) && Fits(w, b, pos, after, allowed)
    ensures var v := AppendBundle(w, b); PaymentsOk(v, allowed) && DeliveredPaid(v)
  {
    var v := AppendBundle(w, b);
    assert b.order in v.orders && forall o :: o in w.orders ==> o in v.orders;
    forall o | o in v.orders && (o.actualDelivery.Some? || o.status == Delivered)
      ensures PaidCount(v.payments, o.id) >= 1
    {
      PaidConcat(w.payments, b.payments, o.id);
    }
  }

  lemma AppendShipments(w: Tables, b: Bundle, pos: nat, after: nat, allowed: seq<string>)
    requires Inv(w, pos, allowed) && Fits(w, b, pos, after, allowed)
    ensures ShipmentsOk(AppendBundle(w, b))
  {
    FreshOrder(w, pos, allowed, b.order.id);
    var v := AppendBundle(w, b);
    assert b.order in v.orders && forall o :: o in w.orders ==> o in v.orders;
    forall i, j | 0 <= i < j < |v.shipments| ensures v.shipments[i].orderId != v.shipments[j].orderId {
      if j == |w.shipments| { assert w.shipments[i] in w.shipments; }
    }
  }

  lemma AppendOthers(w: Tables, b: Bundle, pos: nat, after: nat, allowed: seq<string>)
    requires Inv(w, pos, allowed) && Fits(w, b, pos, after, allowed)
    ensures var v := AppendBundle(w, b); ReturnsOk(v) && RefundsOk(v) && TicketsOk(v) && DoublesOk(v)
  {
    FreshOrder(w, pos, allowed, b.order.id);
    var v := AppendBundle(w, b);
    assert forall o :: o in w.orders ==> o in v.orders;
    assert forall id :: id in OrderIds(w.orders) ==> id in OrderIds(v.orders);
    forall id | id in OrderIds(w.orders)
      ensures PaidSum(v.payments, id) == PaidSum(w.payments, id) && PaidCount(v.payments, id) == PaidCount(w.payments, id)
    {
      PaidConcat(w.payments, b.payments, id);
      PaidNone(b.payments, id);
    }
  }

  /** A fitting bundle keeps the invariant. */
  lemma AppendKeepsInv(w: Tables, b: Bundle, pos: nat, after: nat, allowed: seq<string>)
    requires Inv(w, pos, allowed) && Fits(w, b, pos, after, allowed)
    ensures Inv(AppendBundle(w, b), after, allowed)
  {
    AppendOrders(w, b, pos, after, allowed);
    AppendItems(w, b, pos, after, allowed);
    AppendPayments(w, b, pos, after, allowed);
    AppendShipments(w, b, pos, after, allowed);
    AppendOthers(w, b, pos, after, allowed);
    EmailsKept(w, b, pos, allowed);
    hide UniqueOrders, IdsBelow, PricesOk, ItemsOk, OrdersOk, PaymentsOk, DeliveredPaid, ShipmentsOk, ReturnsOk;
    hide RefundsOk, TicketsOk, DoublesOk, EmailsDistinct, Fits, AppendBundle;
  }

  lemma EmailsKept(w: Tables, b: Bundle, pos: nat, allowed: seq<string>)
    requires Inv(w, pos, allowed)
    ensures EmailsDistinct(AppendBundle(w, b).customers)
  {
  }

  lemma AppendKeepsDates(w: Tables, b: Bundle, pos: nat, after: nat, allowed: seq<string>)
    requires Inv(w, pos, allowed) && Fits(w, b, pos, after, allowed)
    requires AllDated(w) && (b.shipment.Some? ==> InDateOrder(b.shipment.value, b.order))
    ensures AllDated(AppendBundle(w, b))
  {
    FreshOrder(w, pos, allowed, b.order.id);
    var v := AppendBundle(w, b);
    forall s, o | s in v.shipments && o in v.orders && o.id == s.orderId ensures InDateOrder(s, o) {
      if s in w.shipments {
        assert s.orderId != b.order.id;
      } else {
        assert o in w.orders ==> o.id in OrderIds(w.orders);
      }
    }
  }

  // ---------- the checker accepts what the invariant describes ----------

  lemma {:induction false} TableKeys(orders: seq<Order>)
    ensures OrderTable(orders).Keys == OrderIds(orders)
  {
    if orders != [] {
      var n := |orders| - 1;
      TableKeys(orders[..n]);
      assert orders == orders[..n] + [orders[n]];
      assert OrderIds(orders) == OrderIds(orders[..n]) + {orders[n].id};
    }
  }

  lemma {:induction false} TableAt(orders: seq<Order>, k: nat)
    requires UniqueOrders(orders) && k < |orders|
    ensures orders[k].id in OrderTable(orders) && OrderTable(orders)[orders[k].id] == orders[k]
    decreases |orders|
  {
    var n := |orders| - 1;
    if k < n {
      TableAt(orders[..n], k);
      assert orders[k].id != orders[n].id;
    }
  }

  lemma TableOf(orders: seq<Order>)
    requires UniqueOrders(orders)
    ensures forall o :: o in orders ==> o.id in OrderTable(orders) && OrderTable(orders)[o.id] == o
    ensures OrderTable(orders).Keys == OrderIds(orders)
  {
    hide OrderTable, UniqueOrders;
    TableKeys(orders);
    forall o | o in orders ensures o.id in OrderTable(orders) && OrderTable(orders)[o.id] == o {
      var k :| 0 <= k < |orders| && orders[k] == o;
      TableAt(orders, k);
    }
  }

  lemma ItemsAccepted(w: Tables, pos: nat, allowed: seq<string>)
    requires Inv(w, pos, allowed)
    ensures forall i :: i in w.items ==> ItemOk(i, OrderTable(w.orders), ProductIds(w.products))
    ensures forall o :: o in w.orders ==> OrderOk(o, w.items, CustomerIds(w.customers))
    ensures forall p :: p in w.payments ==> p.orderId in OrderTable(w.orders)
  {
    TableOf(w.orders);
  }

  lemma RowsAccepted(w: Tables, pos: nat, allowed: seq<string>)
    requires Inv(w, pos, allowed)
    ensures forall r :: r in w.returns_ ==> ReturnOk(r, OrderTable(w.orders), CustomerIds(w.customers))
    ensures forall r :: r in w.refunds ==> RefundOk(r, OrderTable(w.orders), w.payments)
    ensures forall t :: t in w.tickets ==> TicketOk(t, OrderTable(w.orders), CustomerIds(w.customers))
  {
    TableOf(w.orders);
    hide UniqueOrders, IdsBelow, PricesOk, ItemsOk, PaymentsOk, DeliveredPaid, ShipmentsOk, DoublesOk, EmailsDistinct;
  }

  lemma DoublesAccepted(w: Tables, pos: nat, allowed: seq<string>)
    requires Inv(w, pos, allowed)
    ensures forall o :: o in w.orders ==> DoubleOk(o, w.payments, w.scenarios)
  {
    hide UniqueOrders, IdsBelow, PricesOk, ItemsOk, OrdersOk, PaymentsOk, DeliveredPaid, ShipmentsOk, ReturnsOk;
    hide RefundsOk, TicketsOk, EmailsDistinct;
  }

  lemma ShipmentsAccepted(w: Tables, pos: nat, allowed: seq<string>)
    requires Inv(w, pos, allowed)
    ensures (forall s :: s in w.shipments ==> ShipmentOk(s, OrderTable(w.orders))) <==> AllDated(w)
  {
    TableOf(w.orders);
    var table := OrderTable(w.orders);
    forall s | s in w.shipments
      ensures ShipmentOk(s, table) <==> forall o :: o in w.orders && o.id == s.orderId ==> InDateOrder(s, o)
    {
      assert s.orderId in OrderIds(w.orders);
      var o :| o in w.orders && o.id == s.orderId;
      assert table[s.orderId] == o;
    }
  }

  predicate EveryoneOrders(w: Tables) { forall c :: c in w.customers ==> OrdersOf(w.orders, c.id) > 0 }

  /** On worlds with the invariant and an order for everyone, the checker's verdict is the dates' order. */
  lemma CheckerVerdict(w: Tables, pos: nat, allowed: seq<string>)
    requires Inv(w, pos, allowed) && EveryoneOrders(w)
    ensures Integrity(w) <==> AllDated(w)
  {
    ItemsAccepted(w, pos, allowed);
    RowsAccepted(w, pos, allowed);
    DoublesAccepted(w, pos, allowed);
    ShipmentsAccepted(w, pos, allowed);
    EmailsOfInv(w, pos, allowed);
    hide Inv, ItemOk, OrderOk, DoubleOk, ShipmentOk, ReturnOk, RefundOk, TicketOk, AllDated, OrderTable, EmailsDistinct;
  }

  lemma EmailsOfInv(w: Tables, pos: nat, allowed: seq<string>)
    requires Inv(w, pos, allowed)
    ensures EmailsDistinct(w.customers)
  {
  }
}

/** `assert_integrity` (app/synthetic/graph.py) as a decision procedure for a declarative predicate. */
module WorldIntegrity {
  import opened Text
  import opened Records
  import opened WorldSpec

  // ---------- what the checker looks up ----------

  /** `{order.id: order}`: a later row with the same id wins. */
  function OrderTable(orders: seq<Order>): map<Id, Order> {
    if orders == [] then map[]
    else
      var last := orders[|orders| - 1];
      OrderTable(orders[..|orders| - 1])[last.id := last]
  }

  function CustomerIds(customers: seq<Customer>): set<Id> { set c | c in customers :: c.id }

  function ProductIds(products: seq<Product>): set<Id> { set p | p in products :: p.id }

  /** The sum of an order's lines. */
  function LineSum(items: seq<OrderItem>, id: Id): int {
    if items == [] then 0
    else
      var last := items[|items| - 1];
      LineSum(items[..|items| - 1], id) + if last.orderId == id then last.lineTotal else 0
  }

  predicate IsPaidFor(p: Payment, id: Id) { p.orderId == id && p.status == PayPaid }

  /** The number and the sum of an order's paid payments. */
  function PaidCount(payments: seq<Payment>, id: Id): nat {
    if payments == [] then 0
    else PaidCount(payments[..|payments| - 1], id) + if IsPaidFor(payments[|payments| - 1], id) then 1 else 0
  }

  function PaidSum(payments: seq<Payment>, id: Id): int {
    if payments == [] then 0
    else
      PaidSum(payments[..|payments| - 1], id)
      + if IsPaidFor(payments[|payments| - 1], id) then payments[|payments| - 1].amount else 0
  }

  predicate IsDoubled(scenarios: seq<Scenario>, id: Id) {
    exists s :: s in scenarios && s.kind == DoublePayment && s.orderId == Some(id)
  }

  // ---------- the declarative predicate ----------

  predicate ItemOk(i: OrderItem, orders: map<Id, Order>, products: set<Id>) {
    i.orderId in orders && i.productId in products && i.lineTotal == i.unitPrice * i.quantity
  }

  /** The lines add up to the total, a cent apart at most. */
  predicate OrderOk(o: Order, items: seq<OrderItem>, customers: set<Id>) {
    o.customerId in customers && -1 <= LineSum(items, o.id) - o.total <= 1
  }

  predicate DoubleOk(o: Order, payments: seq<Payment>, scenarios: seq<Scenario>) {
    IsDoubled(scenarios, o.id) ==> PaidCount(payments, o.id) >= 2
  }

  predicate ShipmentOk(s: Shipment, orders: map<Id, Order>) {
    && s.orderId in orders
    && (s.shippedAt.Some? ==> s.shippedAt.value >= orders[s.orderId].createdAt)
    && (s.deliveredAt.Some? && s.shippedAt.Some? ==> s.deliveredAt.value >= s.shippedAt.value)
  }

  predicate ReturnOk(r: Return, orders: map<Id, Order>, customers: set<Id>) {
    && r.orderId in orders && r.customerId in customers
    && orders[r.orderId].customerId == r.customerId
    && orders[r.orderId].status in {Shipped, Delivered, Returned}
  }

  predicate RefundOk(r: Refund, orders: map<Id, Order>, payments: seq<Payment>) {
    r.orderId in orders && r.amount <= PaidSum(payments, r.orderId) + 1
  }

  predicate TicketOk(t: Ticket, orders: map<Id, Order>, customers: set<Id>) {
    && t.customerId in customers
    && (t.orderId.Some? ==> t.orderId.value in orders && orders[t.orderId.value].customerId == t.customerId)
  }

  predicate EmailsDistinct(customers: seq<Customer>) {
    forall i, j :: 0 <= i < j < |customers| ==> Lower(customers[i].email) != Lower(customers[j].email)
  }

  predicate Integrity(w: Tables) {
    var orders, customers := OrderTable(w.orders), CustomerIds(w.customers);
    && (forall i :: i in w.items ==> ItemOk(i, orders, ProductIds(w.products)))
    && (forall o :: o in w.orders ==> OrderOk(o, w.items, customers))
    && (forall p :: p in w.payments ==> p.orderId in orders)
    && (forall o :: o in w.orders ==> DoubleOk(o, w.payments, w.scenarios))
    && (forall s :: s in w.shipments ==> ShipmentOk(s, orders))
    && (forall r :: r in w.returns_ ==> ReturnOk(r, orders, customers))
    && (forall r :: r in w.refunds ==> RefundOk(r, orders, w.payments))
    && (forall t :: t in w.tickets ==> TicketOk(t, orders, customers))
    && (forall c :: c in w.customers ==> OrdersOf(w.orders, c.id) > 0)
    && EmailsDistinct(w.customers)
  }

  // ---------- the checker, table by table ----------

  /** Dictionaries of lists, keyed by order: `setdefault(...).append(...)`. */
  function LinesFor(items: seq<OrderItem>, id: Id): seq<OrderItem> {
    if items == [] then []
    else
      var last := items[|items| - 1];
      LinesFor(items[..|items| - 1], id) + if last.orderId == id then [last] else []
  }

  function PaymentsFor(payments: seq<Payment>, id: Id): seq<Payment> {
    if payments == [] then []
    else
      var last := payments[|payments| - 1];
      PaymentsFor(payments[..|payments| - 1], id) + if last.orderId == id then [last] else []
  }

  function Get<T>(m: map<Id, seq<T>>, id: Id): seq<T> { if id in m then m[id] else [] }

  ghost predicate GroupsItems(m: map<Id, seq<OrderItem>>, items: seq<OrderItem>) {
    forall id: Id :: Get(m, id) == LinesFor(items, id)
  }

  ghost predicate GroupsPayments(m: map<Id, seq<Payment>>, payments: seq<Payment>) {
    forall id: Id :: Get(m, id) == PaymentsFor(payments, id)
  }

  lemma {:induction false} LinesSum(items: seq<OrderItem>, id: Id)
    ensures LineSum(LinesFor(items, id), id) == LineSum(items, id)
    ensures forall i :: i in LinesFor(items, id) ==> i.orderId == id
  {
    if items != [] {
      var n := |items| - 1;
      LinesSum(items[..n], id);
      var before := LinesFor(items[..n], id);
      if items[n].orderId == id {
        var after := before + [items[n]];
        assert after[..|after| - 1] == before && after[|after| - 1] == items[n];
      } else {
        assert before + [] == before;
      }
    }
  }

  lemma {:induction false} PaidOfGroup(payments: seq<Payment>, id: Id)
    ensures PaidSum(PaymentsFor(payments, id), id) == PaidSum(payments, id)
    ensures PaidCount(PaymentsFor(payments, id), id) == PaidCount(payments, id)
    ensures forall p :: p in PaymentsFor(payments, id) ==> p.orderId == id
  {
    if payments != [] {
      var n := |payments| - 1;
      PaidOfGroup(payments[..n], id);
      var before := PaymentsFor(payments[..n], id);
      if payments[n].orderId == id {
        var after := before + [payments[n]];
        assert after[..|after| - 1] == before && after[|after| - 1] == payments[n];
      } else {
        assert before + [] == before;
      }
    }
  }

  lemma GroupNextItem(m: map<Id, seq<OrderItem>>, items: seq<OrderItem>, i: nat)
    requires i < |items| && GroupsItems(m, items[..i])
    ensures GroupsItems(m[items[i].orderId := Get(m, items[i].orderId) + [items[i]]], items[..i + 1])
  {
    var next := m[items[i].orderId := Get(m, items[i].orderId) + [items[i]]];
    assert items[..i + 1][..i] == items[..i];
    forall id: Id ensures Get(next, id) == LinesFor(items[..i + 1], id) {
      assert Get(m, id) == LinesFor(items[..i], id);
      assert LinesFor(items[..i], id) + [] == LinesFor(items[..i], id);
    }
  }

  lemma GroupNextPayment(m: map<Id, seq<Payment>>, payments: seq<Payment>, i: nat)
    requires i < |payments| && GroupsPayments(m, payments[..i])
    ensures GroupsPayments(m[payments[i].orderId := Get(m, payments[i].orderId) + [payments[i]]], payments[..i + 1])
  {
    var next := m[payments[i].orderId := Get(m, payments[i].orderId) + [payments[i]]];
    assert payments[..i + 1][..i] == payments[..i];
    forall id: Id ensures Get(next, id) == PaymentsFor(payments[..i + 1], id) {
      assert Get(m, id) == PaymentsFor(payments[..i], id);
      assert PaymentsFor(payments[..i], id) + [] == PaymentsFor(payments[..i], id);
    }
  }

  lemma NoGroups()
    ensures GroupsItems(map[], []) && GroupsPayments(map[], [])
  {
  }

  method SumLines(lines: seq<OrderItem>, ghost id: Id) returns (total: int)
    requires forall i :: i in lines ==> i.orderId == id
    ensures total == LineSum(lines, id)
  {
    total := 0;
    for i := 0 to |lines|
      invariant total == LineSum(lines[..i], id)
    {
      assert lines[..i + 1][..i] == lines[..i];
      total := total + lines[i].lineTotal;
    }
    assert lines[..|lines|] == lines;
  }

  /** `len(paid)` and `sum(paid)` over one order's payments. */
  method CountPaid(group: seq<Payment>, ghost id: Id) returns (count: nat, sum: int)
    requires forall p :: p in group ==> p.orderId == id
    ensures count == PaidCount(group, id) && sum == PaidSum(group, id)
  {
    count, sum := 0, 0;
    for i := 0 to |group|
      invariant count == PaidCount(group[..i], id) && sum == PaidSum(group[..i], id)
    {
      assert group[..i + 1][..i] == group[..i];
      if group[i].status == PayPaid {
        count, sum := count + 1, sum + group[i].amount;
      }
    }
    assert group[..|group|] == group;
  }

  method IndexOrders(orders: seq<Order>) returns (table: map<Id, Order>)
    ensures table == OrderTable(orders)
  {
    table := map[];
    for i := 0 to |orders|
      invariant table == OrderTable(orders[..i])
    {
      assert orders[..i + 1][..i] == orders[..i];
      table := table[orders[i].id := orders[i]];
    }
    assert orders[..|orders|] == orders;
  }

  method CheckItems(items: seq<OrderItem>, orders: map<Id, Order>, products: set<Id>)
    returns (ok: bool, byOrder: map<Id, seq<OrderItem>>)
    ensures ok <==> forall i :: i in items ==> ItemOk(i, orders, products)
    ensures ok ==> GroupsItems(byOrder, items)
  {
    hide GroupsItems;
    NoGroups();
    byOrder := map[];
    for i := 0 to |items|
      invariant forall j :: 0 <= j < i ==> ItemOk(items[j], orders, products)
      invariant GroupsItems(byOrder, items[..i])
    {
      var item := items[i];
      assert item in items;
      if item.orderId !in orders || item.productId !in products {
        return false, byOrder;
      }
      GroupNextItem(byOrder, items, i);
      byOrder := byOrder[item.orderId := Get(byOrder, item.orderId) + [item]];
      if item.lineTotal != item.unitPrice * item.quantity {
        return false, byOrder;
      }
    }
    assert items[..|items|] == items;
    ok := true;
  }

  method CheckOrders(w: Tables, byOrder: map<Id, seq<OrderItem>>, customers: set<Id>) returns (ok: bool)
    requires GroupsItems(byOrder, w.items)
    ensures ok <==> forall o :: o in w.orders ==> OrderOk(o, w.items, customers)
  {
    for i := 0 to |w.orders|
      invariant forall j :: 0 <= j < i ==> OrderOk(w.orders[j], w.items, customers)
    {
      var order := w.orders[i];
      assert order in w.orders;
      if order.customerId !in customers {
        return false;
      }
      LinesSum(w.items, order.id);
      var total := SumLines(Get(byOrder, order.id), order.id);
      var gap := total - order.total;
      if gap > 1 || gap < -1 {
        return false;
      }
    }
    ok := true;
  }

  method CheckPayments(payments: seq<Payment>, orders: map<Id, Order>)
    returns (ok: bool, byOrder: map<Id, seq<Payment>>)
    ensures ok <==> forall p :: p in payments ==> p.orderId in orders
    ensures ok ==> GroupsPayments(byOrder, payments)
  {
    hide GroupsPayments;
    NoGroups();
    byOrder := map[];
    for i := 0 to |payments|
      invariant forall j :: 0 <= j < i ==> payments[j].orderId in orders
      invariant GroupsPayments(byOrder, payments[..i])
    {
      var p := payments[i];
      assert p in payments;
      if p.orderId !in orders {
        return false, byOrder;
      }
      GroupNextPayment(byOrder, payments, i);
      byOrder := byOrder[p.orderId := Get(byOrder, p.orderId) + [p]];
    }
    assert payments[..|payments|] == payments;
    ok := true;
  }

  method CheckDoubles(w: Tables, byOrder: map<Id, seq<Payment>>) returns (ok: bool)
    requires GroupsPayments(byOrder, w.payments)
    ensures ok <==> forall o :: o in w.orders ==> DoubleOk(o, w.payments, w.scenarios)
  {
    var doubles := set s | s in w.scenarios && s.kind == DoublePayment && s.orderId.Some? :: s.orderId.value;
    assert forall id :: id in doubles <==> IsDoubled(w.scenarios, id);
    for i := 0 to |w.orders|
      invariant forall j :: 0 <= j < i ==> DoubleOk(w.orders[j], w.payments, w.scenarios)
    {
      var order := w.orders[i];
      assert order in w.orders;
      if order.id in doubles {
        PaidOfGroup(w.payments, order.id);
        var count, sum := CountPaid(Get(byOrder, order.id), order.id);
        if count < 2 {
          return false;
        }
      }
    }
    ok := true;
  }

  method CheckShipments(shipments: seq<Shipment>, orders: map<Id, Order>) returns (ok: bool)
    ensures ok <==> forall s :: s in shipments ==> ShipmentOk(s, orders)
  {
    for i := 0 to |shipments|
      invariant forall j :: 0 <= j < i ==> ShipmentOk(shipments[j], orders)
    {
      var s := shipments[i];
      assert s in shipments;
      if s.orderId !in orders {
        return false;
      }
      var order := orders[s.orderId];
      if s.shippedAt.Some? && s.shippedAt.value < order.createdAt {
        return false;
      }
      if s.deliveredAt.Some? && s.shippedAt.Some? && s.deliveredAt.value < s.shippedAt.value {
        return false;
      }
    }
    ok := true;
  }

  method CheckReturns(rs: seq<Return>, orders: map<Id, Order>, customers: set<Id>) returns (ok: bool)
    ensures ok <==> forall r :: r in rs ==> ReturnOk(r, orders, customers)
  {
    for i := 0 to |rs|
      invariant forall j :: 0 <= j < i ==> ReturnOk(rs[j], orders, customers)
    {
      var r := rs[i];
      assert r in rs;
      if r.orderId !in orders || r.customerId !in customers {
        return false;
      }
      if orders[r.orderId].customerId != r.customerId {
        return false;
      }
      if orders[r.orderId].status !in {Shipped, Delivered, Returned} {
        return false;
      }
    }
    ok := true;
  }

  method CheckRefunds(w: Tables, orders: map<Id, Order>, byOrder: map<Id, seq<Payment>>) returns (ok: bool)
    requires GroupsPayments(byOrder, w.payments)
    ensures ok <==> forall r :: r in w.refunds ==> RefundOk(r, orders, w.payments)
  {
    for i := 0 to |w.refunds|
      invariant forall j :: 0 <= j < i ==> RefundOk(w.refunds[j], orders, w.payments)
    {
      var r := w.refunds[i];
      assert r in w.refunds;
      if r.orderId !in orders {
        return false;
      }
      PaidOfGroup(w.payments, r.orderId);
      var count, sum := CountPaid(Get(byOrder, r.orderId), r.orderId);
      if r.amount > sum + 1 {
        return false;
      }
    }
    ok := true;
  }

  method CheckTickets(tickets: seq<Ticket>, orders: map<Id, Order>, customers: set<Id>) returns (ok: bool)
    ensures ok <==> forall t :: t in tickets ==> TicketOk(t, orders, customers)
  {
    for i := 0 to |tickets|
      invariant forall j :: 0 <= j < i ==> TicketOk(tickets[j], orders, customers)
    {
      var t := tickets[i];
      assert t in tickets;
      if t.customerId !in customers {
        return false;
      }
      if t.orderId.Some? && t.orderId.value !in orders {
        return false;
      }
      if t.orderId.Some? && orders[t.orderId.value].customerId != t.customerId {
        return false;
      }
    }
    ok := true;
  }

  /** The dictionary of order counts, seeded with a zero for each customer. */
  ghost predicate Counts(m: map<Id, nat>, orders: seq<Order>) {
    forall id: Id :: OrdersOf(orders, id) == if id in m then m[id] else 0
  }

  method CheckOwners(w: Tables) returns (ok: bool)
    ensures ok <==> forall c :: c in w.customers ==> OrdersOf(w.orders, c.id) > 0
  {
    var count: map<Id, nat> := map id | id in CustomerIds(w.customers) :: 0;
    for i := 0 to |w.orders|
      invariant Counts(count, w.orders[..i])
    {
      assert w.orders[..i + 1][..i] == w.orders[..i];
      var id := w.orders[i].customerId;
      count := count[id := (if id in count then count[id] else 0) + 1];
    }
    assert w.orders[..|w.orders|] == w.orders;
    var missing := set c | c in w.customers && (if c.id in count then count[c.id] else 0) < 1 :: c;
    ok := missing == {};
    assert forall c :: c in w.customers && OrdersOf(w.orders, c.id) == 0 ==> c in missing;
  }

  function LowerEmails(customers: seq<Customer>): seq<string> {
    seq(|customers|, i requires 0 <= i < |customers| => Lower(customers[i].email))
  }

  function ToSet<T>(xs: seq<T>): set<T> { set x | x in xs }

  lemma {:induction false} DistinctCount<T>(xs: seq<T>)
    ensures |ToSet(xs)| <= |xs|
    ensures |ToSet(xs)| == |xs| <==> forall i, j :: 0 <= i < j < |xs| ==> xs[i] != xs[j]
  {
    if xs == [] {
      assert ToSet(xs) == {};
    } else {
      var n := |xs| - 1;
      var front, last := xs[..n], xs[n];
      DistinctCount(front);
      assert ToSet(xs) == ToSet(front) + {last};
      if last in front {
        assert ToSet(xs) == ToSet(front);
        var i :| 0 <= i < n && front[i] == last;
        assert xs[i] == xs[n];
      }
    }
  }

  method CheckEmails(customers: seq<Customer>) returns (ok: bool)
    ensures ok <==> EmailsDistinct(customers)
  {
    var emails := LowerEmails(customers);
    var unique := set e | e in emails;
    DistinctCount(emails);
    assert unique == ToSet(emails);
    assert forall i :: 0 <= i < |customers| ==> emails[i] == Lower(customers[i].email);
    ok := |emails| == |unique|;
  }

  /** The checker returns normally exactly on the worlds that satisfy the predicate. */
  method AssertIntegrity(w: Tables) returns (ok: bool)
    ensures ok <==> Integrity(w)
  {
    hide ItemOk, OrderOk, DoubleOk, ShipmentOk, ReturnOk, RefundOk, TicketOk, EmailsDistinct;
    hide OrderTable, CustomerIds, ProductIds, OrdersOf, GroupsItems, GroupsPayments;
    var products, customers := ProductIds(w.products), CustomerIds(w.customers);
    var orders := IndexOrders(w.orders);
    var good, itemsByOrder := CheckItems(w.items, orders, products);
    if !good { return false; }
    good := CheckOrders(w, itemsByOrder, customers);
    if !good { return false; }
    var paymentsByOrder;
    good, paymentsByOrder := CheckPayments(w.payments, orders);
    if !good { return false; }
    good := CheckDoubles(w, paymentsByOrder);
    if !good { return false; }
    good := CheckShipments(w.shipments, orders);
    if !good { return false; }
    good := CheckReturns(w.returns_, orders, customers);
    if !good { return false; }
    good := CheckRefunds(w, orders, paymentsByOrder);
    if !good { return false; }
    good := CheckTickets(w.tickets, orders, customers);
    if !good { return false; }
    good := CheckOwners(w);
    if !good { return false; }
    ok := CheckEmails(w.customers);
  }
}

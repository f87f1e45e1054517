/** The finishing touches: the documented login and the sequential public ids (app/synthetic/__init__.py, graph.py). */
module WorldFinish {
  import opened Text
  import opened Records
  import opened Emails
  import opened WorldSpec
  import opened WorldIntegrity
  import opened WorldInvariant

  // ---------- the documented login ----------

  /** Same people, perhaps under other emails and names. */
  predicate SamePeople(a: seq<Customer>, b: seq<Customer>) {
    |a| == |b| && forall i :: 0 <= i < |a| ==> b[i].id == a[i].id
  }

  /** No customer but the first holds the documented login. */
  predicate LoginFree(customers: seq<Customer>, upTo: nat)
    requires upTo <= |customers|
  {
    forall j :: 1 <= j < upTo ==> Lower(customers[j].email) != DEMO_LOGIN_EMAIL
  }

  lemma ReplacedEmail(customers: seq<Customer>, i: nat, email: string)
    requires i < |customers| && EmailsDistinct(customers) && Lower(email) !in UsedEmails(customers)
    ensures EmailsDistinct(customers[i := customers[i].(email := email)])
  {
    hide Lower;
    forall c | c in customers ensures Lower(c.email) != Lower(email) {
      assert Lower(c.email) in UsedEmails(customers);
    }
  }

  lemma {:induction false} FreeLoginSound(customers: seq<Customer>, i: nat)
    requires 1 <= i <= |customers| && EmailsDistinct(customers) && LoginFree(customers, i)
    ensures var r := FreeLogin(customers, i);
            SamePeople(customers, r) && EmailsDistinct(r) && r[0] == customers[0] && LoginFree(r, |r|)
    decreases |customers| - i
  {
    hide Lower, EmailsDistinct, UsedEmails, Allocate, DEMO_LOGIN_EMAIL;
    if i < |customers| {
      if Lower(customers[i].email) != DEMO_LOGIN_EMAIL {
        FreeLoginSound(customers, i + 1);
      } else {
        var email := Allocate(UsedEmails(customers), customers[i].name, 99);
        ReplacedEmail(customers, i, email);
        TakenLogin(customers, i);
        FreeLoginSound(customers[i := customers[i].(email := email)], i + 1);
      }
    }
  }

  lemma TakenLogin(customers: seq<Customer>, i: nat)
    requires i < |customers| && Lower(customers[i].email) == DEMO_LOGIN_EMAIL
    ensures DEMO_LOGIN_EMAIL in UsedEmails(customers)
  {
    assert customers[i] in customers;
  }

  lemma PinnedFirst(customers: seq<Customer>, c: Customer)
    requires customers != [] && EmailsDistinct(customers) && LoginFree(customers, |customers|)
    requires Lower(c.email) == DEMO_LOGIN_EMAIL
    ensures EmailsDistinct(customers[0 := c])
  {
    hide Lower;
  }

  /** Pinning the first customer keeps every email distinct and moves nobody. */
  lemma ApplyDemoLoginSound(customers: seq<Customer>)
    requires EmailsDistinct(customers)
    ensures var r := ApplyDemoLogin(customers);
            && SamePeople(customers, r) && EmailsDistinct(r)
            && (customers != [] && Lower(customers[0].email) != DEMO_SHOWCASE_EMAIL ==>
                  r[0].email == "ana.costa@nexamail.com" && r[0].name == "Ana Costa")
  {
    if customers != [] {
      LoginLower();
      hide Lower, EmailsDistinct, FreeLogin;
      FreeLoginSound(customers, 1);
      var freed := FreeLogin(customers, 1);
      PinnedFirst(freed, freed[0].(email := DEMO_LOGIN_EMAIL, name := DEMO_LOGIN_NAME));
    }
  }

  lemma LoginLower()
    ensures Lower(DEMO_LOGIN_EMAIL) == DEMO_LOGIN_EMAIL
  {
  }

  // ---------- relabelled worlds ----------

  predicate RelabelledProducts(a: seq<Product>, b: seq<Product>) {
    |a| == |b| && forall i :: 0 <= i < |a| ==> b[i] == a[i].(publicId := b[i].publicId)
  }

  predicate RelabelledOrders(a: seq<Order>, b: seq<Order>) {
    |a| == |b| && forall i :: 0 <= i < |a| ==> b[i] == a[i].(publicId := b[i].publicId)
  }

  predicate RelabelledItems(a: seq<OrderItem>, b: seq<OrderItem>) {
    |a| == |b| && forall i :: 0 <= i < |a| ==> b[i] == a[i].(publicId := b[i].publicId)
  }

  predicate RelabelledPayments(a: seq<Payment>, b: seq<Payment>) {
    |a| == |b| && forall i :: 0 <= i < |a| ==> b[i] == a[i].(publicId := b[i].publicId)
  }

  predicate RelabelledShipments(a: seq<Shipment>, b: seq<Shipment>) {
    |a| == |b| && forall i :: 0 <= i < |a| ==> b[i] == a[i].(publicId := b[i].publicId)
  }

  predicate RelabelledReturns(a: seq<Return>, b: seq<Return>) {
    |a| == |b| && forall i :: 0 <= i < |a| ==> b[i] == a[i].(publicId := b[i].publicId)
  }

  predicate RelabelledRefunds(a: seq<Refund>, b: seq<Refund>) {
    |a| == |b| && forall i :: 0 <= i < |a| ==> b[i] == a[i].(publicId := b[i].publicId)
  }

  /** The same world under other printed ids, and other names and emails of customers. */
  predicate Relabelled(a: Tables, b: Tables) {
    && RelabelledProducts(a.products, b.products) && SamePeople(a.customers, b.customers)
    && RelabelledOrders(a.orders, b.orders) && RelabelledItems(a.items, b.items)
    && RelabelledPayments(a.payments, b.payments) && RelabelledShipments(a.shipments, b.shipments)
    && RelabelledReturns(a.returns_, b.returns_) && RelabelledRefunds(a.refunds, b.refunds)
    && a.tickets == b.tickets && a.scenarios == b.scenarios
  }

  // ---------- ids and sums do not see labels ----------

  lemma SameCustomerIds(a: seq<Customer>, b: seq<Customer>)
    requires SamePeople(a, b)
    ensures CustomerIds(a) == CustomerIds(b)
  {
    forall i | 0 <= i < |a| ensures a[i].id in CustomerIds(b) && b[i].id in CustomerIds(a) {
      assert a[i] in a && b[i] in b;
    }
  }

  lemma SameProductIds(a: seq<Product>, b: seq<Product>)
    requires RelabelledProducts(a, b)
    ensures ProductIds(a) == ProductIds(b)
  {
    forall i | 0 <= i < |a| ensures a[i].id in ProductIds(b) && b[i].id in ProductIds(a) {
      assert a[i] in a && b[i] in b && b[i].id == a[i].id;
    }
  }

  lemma SameOrderIds(a: seq<Order>, b: seq<Order>)
    requires RelabelledOrders(a, b)
    ensures OrderIds(a) == OrderIds(b)
  {
    forall i | 0 <= i < |a| ensures a[i].id in OrderIds(b) && b[i].id in OrderIds(a) {
      assert a[i] in a && b[i] in b && b[i].id == a[i].id;
    }
  }

  lemma {:induction false} SameLineSum(a: seq<OrderItem>, b: seq<OrderItem>, id: Id)
    requires RelabelledItems(a, b)
    ensures LineSum(a, id) == LineSum(b, id)
  {
    if a != [] {
      var n := |a| - 1;
      SameLineSum(a[..n], b[..n], id);
      assert b[n] == a[n].(publicId := b[n].publicId);
    }
  }

  lemma {:induction false} SamePaid(a: seq<Payment>, b: seq<Payment>, id: Id)
    requires RelabelledPayments(a, b)
    ensures PaidCount(a, id) == PaidCount(b, id) && PaidSum(a, id) == PaidSum(b, id)
  {
    if a != [] {
      var n := |a| - 1;
      SamePaid(a[..n], b[..n], id);
      assert b[n] == a[n].(publicId := b[n].publicId);
    }
  }

  lemma {:induction false} SameOwned(a: seq<Order>, b: seq<Order>, id: Id)
    requires RelabelledOrders(a, b)
    ensures OrdersOf(a, id) == OrdersOf(b, id)
  {
    if a != [] {
      var n := |a| - 1;
      SameOwned(a[..n], b[..n], id);
      assert b[n] == a[n].(publicId := b[n].publicId);
    }
  }

  /** A row of one world has its twin in the other. */
  lemma OrderTwin(a: seq<Order>, b: seq<Order>, o: Order)
    requires RelabelledOrders(a, b) && o in b
    ensures exists p :: p in a && o == p.(publicId := o.publicId)
  {
    var i :| 0 <= i < |b| && b[i] == o;
    assert a[i] in a;
  }

  lemma TwinsBack(a: seq<Order>, b: seq<Order>)
    requires RelabelledOrders(a, b)
    ensures RelabelledOrders(b, a)
  {
  }

  // ---------- clause by clause ----------

  lemma KeepsOrderRows(a: Tables, b: Tables, pos: nat)
    requires Relabelled(a, b) && UniqueOrders(a.orders) && IdsBelow(a, pos) && PricesOk(a)
    ensures UniqueOrders(b.orders) && IdsBelow(b, pos) && PricesOk(b)
  {
    forall i | 0 <= i < |a.orders| ensures b.orders[i].id == a.orders[i].id { }
    forall o | o in b.orders ensures o.id < pos && o.total >= 0 { OrderTwin(a.orders, b.orders, o); }
    forall c | c in b.customers ensures c.id < pos {
      var i :| 0 <= i < |b.customers| && b.customers[i] == c;
      assert a.customers[i] in a.customers;
    }
    forall p | p in b.products ensures p.unitPrice >= 0 {
      var i :| 0 <= i < |b.products| && b.products[i] == p;
      assert a.products[i] in a.products && p == a.products[i].(publicId := p.publicId);
    }
  }

  lemma KeepsItems(a: Tables, b: Tables)
    requires Relabelled(a, b) && ItemsOk(a)
    ensures ItemsOk(b)
  {
    SameOrderIds(a.orders, b.orders);
    SameProductIds(a.products, b.products);
    forall r | r in b.items
      ensures r.orderId in OrderIds(b.orders) && r.productId in ProductIds(b.products)
              && r.lineTotal == r.unitPrice * r.quantity
    {
      var i :| 0 <= i < |b.items| && b.items[i] == r;
      assert a.items[i] in a.items && r == a.items[i].(publicId := r.publicId);
    }
  }

  lemma KeepsOrders(a: Tables, b: Tables)
    requires Relabelled(a, b) && OrdersOk(a)
    ensures OrdersOk(b)
  {
    hide LineSum;
    SameCustomerIds(a.customers, b.customers);
    forall o | o in b.orders ensures o.customerId in CustomerIds(b.customers) && LineSum(b.items, o.id) == o.total {
      OrderTwin(a.orders, b.orders, o);
      SameLineSum(a.items, b.items, o.id);
    }
  }

  lemma KeepsPayments(a: Tables, b: Tables, allowed: seq<string>)
    requires Relabelled(a, b) && PaymentsOk(a, allowed)
    ensures PaymentsOk(b, allowed)
  {
    TwinsBack(a.orders, b.orders);
    forall p | p in b.payments
      ensures p.payMethod in allowed && exists o :: o in b.orders && o.id == p.orderId && p.amount == o.total
    {
      var i :| 0 <= i < |b.payments| && b.payments[i] == p;
      assert a.payments[i] in a.payments && p == a.payments[i].(publicId := p.publicId);
      var o :| o in a.orders && o.id == p.orderId && p.amount == o.total;
      OrderTwin(b.orders, a.orders, o);
    }
  }

  lemma KeepsDelivered(a: Tables, b: Tables)
    requires Relabelled(a, b) && DeliveredPaid(a)
    ensures DeliveredPaid(b)
  {
    hide PaidCount;
    forall o | o in b.orders && (o.actualDelivery.Some? || o.status == Delivered)
      ensures PaidCount(b.payments, o.id) >= 1
    {
      OrderTwin(a.orders, b.orders, o);
      SamePaid(a.payments, b.payments, o.id);
    }
  }

  lemma KeepsShipments(a: Tables, b: Tables)
    requires Relabelled(a, b) && ShipmentsOk(a)
    ensures ShipmentsOk(b)
  {
    SameOrderIds(a.orders, b.orders);
    forall i | 0 <= i < |a.shipments| ensures b.shipments[i].orderId == a.shipments[i].orderId { }
    forall s | s in b.shipments ensures s.orderId in OrderIds(b.orders) {
      var i :| 0 <= i < |b.shipments| && b.shipments[i] == s;
      assert a.shipments[i] in a.shipments;
    }
  }

  lemma KeepsReturns(a: Tables, b: Tables)
    requires Relabelled(a, b) && ReturnsOk(a)
    ensures ReturnsOk(b)
  {
    TwinsBack(a.orders, b.orders);
    forall r | r in b.returns_
      ensures exists o :: o in b.orders && o.id == r.orderId && o.customerId == r.customerId
                          && o.status in {Shipped, Delivered, Returned}
    {
      var i :| 0 <= i < |b.returns_| && b.returns_[i] == r;
      assert a.returns_[i] in a.returns_ && r == a.returns_[i].(publicId := r.publicId);
      var o :| o in a.orders && o.id == r.orderId && o.customerId == r.customerId
               && o.status in {Shipped, Delivered, Returned};
      OrderTwin(b.orders, a.orders, o);
    }
  }

  lemma KeepsRefunds(a: Tables, b: Tables)
    requires Relabelled(a, b) && RefundsOk(a)
    ensures RefundsOk(b)
  {
    hide PaidSum;
    SameOrderIds(a.orders, b.orders);
    forall r | r in b.refunds ensures r.orderId in OrderIds(b.orders) && r.amount <= PaidSum(b.payments, r.orderId) {
      var i :| 0 <= i < |b.refunds| && b.refunds[i] == r;
      assert a.refunds[i] in a.refunds && r == a.refunds[i].(publicId := r.publicId);
      SamePaid(a.payments, b.payments, r.orderId);
    }
  }

  lemma KeepsTickets(a: Tables, b: Tables)
    requires Relabelled(a, b) && TicketsOk(a)
    ensures TicketsOk(b)
  {
    SameCustomerIds(a.customers, b.customers);
    TwinsBack(a.orders, b.orders);
    forall t | t in b.tickets && t.orderId.Some?
      ensures exists o :: o in b.orders && o.id == t.orderId.value && o.customerId == t.customerId
    {
      var o :| o in a.orders && o.id == t.orderId.value && o.customerId == t.customerId;
      OrderTwin(b.orders, a.orders, o);
    }
  }

  lemma KeepsDoubles(a: Tables, b: Tables)
    requires Relabelled(a, b) && DoublesOk(a)
    ensures DoublesOk(b)
  {
    hide PaidCount;
    SameOrderIds(a.orders, b.orders);
    forall s | s in b.scenarios && s.kind == DoublePayment && s.orderId.Some?
      ensures PaidCount(b.payments, s.orderId.value) >= 2
    {
      SamePaid(a.payments, b.payments, s.orderId.value);
    }
  }

  lemma KeepsEveryone(a: Tables, b: Tables)
    requires Relabelled(a, b) && EveryoneOrders(a)
    ensures EveryoneOrders(b)
  {
    hide OrdersOf;
    forall c | c in b.customers ensures OrdersOf(b.orders, c.id) > 0 {
      var i :| 0 <= i < |b.customers| && b.customers[i] == c;
      assert a.customers[i] in a.customers;
      SameOwned(a.orders, b.orders, c.id);
    }
  }

  lemma KeepsDates(a: Tables, b: Tables)
    requires Relabelled(a, b) && AllDated(a)
    ensures AllDated(b)
  {
    forall s, o | s in b.shipments && o in b.orders && o.id == s.orderId ensures InDateOrder(s, o) {
      var i :| 0 <= i < |b.shipments| && b.shipments[i] == s;
      assert a.shipments[i] in a.shipments && s == a.shipments[i].(publicId := s.publicId);
      OrderTwin(a.orders, b.orders, o);
      var p :| p in a.orders && o == p.(publicId := o.publicId);
      assert InDateOrder(a.shipments[i], p);
    }
  }

  lemma RelabelledBack(a: Tables, b: Tables)
    requires Relabelled(a, b)
    ensures Relabelled(b, a)
  {
  }

  /** Neither login nor public ids disturb what the builders established. */
  lemma RelabelKeeps(a: Tables, b: Tables, pos: nat, allowed: seq<string>)
    requires Relabelled(a, b) && Inv(a, pos, allowed) && EmailsDistinct(b.customers)
    ensures Inv(b, pos, allowed) && (EveryoneOrders(a) ==> EveryoneOrders(b)) && (AllDated(a) <==> AllDated(b))
  {
    hide UniqueOrders, IdsBelow, PricesOk, ItemsOk, OrdersOk, PaymentsOk, DeliveredPaid, ShipmentsOk, ReturnsOk, RefundsOk;
    hide TicketsOk, DoublesOk, EmailsDistinct, EveryoneOrders, AllDated, Relabelled;
    KeepsOrderRows(a, b, pos);
    KeepsItems(a, b);
    KeepsOrders(a, b);
    KeepsPayments(a, b, allowed);
    KeepsDelivered(a, b);
    KeepsShipments(a, b);
    KeepsReturns(a, b);
    KeepsRefunds(a, b);
    KeepsTickets(a, b);
    KeepsDoubles(a, b);
    if EveryoneOrders(a) { KeepsEveryone(a, b); }
    if AllDated(a) { KeepsDates(a, b); }
    RelabelledBack(a, b);
    if AllDated(b) { KeepsDates(b, a); }
  }

  // ---------- the two finishing touches are relabellings ----------

  lemma LoginRelabels(w: Tables)
    requires EmailsDistinct(w.customers)
    ensures var v := w.(customers := ApplyDemoLogin(w.customers)); Relabelled(w, v) && EmailsDistinct(v.customers)
  {
    hide EmailsDistinct, ApplyDemoLogin;
    ApplyDemoLoginSound(w.customers);
  }

  lemma PublicIdsRelabel(w: Tables)
    requires EmailsDistinct(w.customers)
    ensures Relabelled(w, AssignPublicIds(w)) && EmailsDistinct(AssignPublicIds(w).customers)
  {
    hide Lower;
    var v := AssignPublicIds(w);
    assert forall i :: 0 <= i < |v.customers| ==> v.customers[i].email == w.customers[i].email;
  }

  /** Numbered without gaps, so no two alike. */
  predicate IsNumbered(ids: seq<PublicId>, prefix: string, first: nat) {
    && (forall i :: 0 <= i < |ids| ==> ids[i] == PublicId(prefix, first + i))
    && (forall i, j :: 0 <= i < j < |ids| ==> ids[i] != ids[j])
  }

  /** The public ids of a table, row by row. */
  function PublicIds<Row>(rows: seq<Row>, idOf: Row -> PublicId): (ids: seq<PublicId>)
    ensures |ids| == |rows|
  {
    seq(|rows|, i requires 0 <= i < |rows| => idOf(rows[i]))
  }

  /** Finished worlds: all eight tables are numbered without gaps, orders from 1001, the others from one. */
  lemma PublicIdsSequential(w: Tables)
    ensures var v := AssignPublicIds(w);
            && IsNumbered(PublicIds(v.products, (r: Product) => r.publicId), "PRD", 1)
            && IsNumbered(PublicIds(v.customers, (r: Customer) => r.publicId), "CUST", 1)
            && IsNumbered(PublicIds(v.orders, (r: Order) => r.publicId), "ORD", 1001)
            && IsNumbered(PublicIds(v.items, (r: OrderItem) => r.publicId), "ITM", 1)
            && IsNumbered(PublicIds(v.payments, (r: Payment) => r.publicId), "PAY", 1)
            && IsNumbered(PublicIds(v.shipments, (r: Shipment) => r.publicId), "SHP", 1)
            && IsNumbered(PublicIds(v.returns_, (r: Return) => r.publicId), "RET", 1)
            && IsNumbered(PublicIds(v.refunds, (r: Refund) => r.publicId), "RFD", 1)
    ensures AssignPublicIds(AssignPublicIds(w)) == AssignPublicIds(w)
  {
    var v := AssignPublicIds(w);
    assert AssignPublicIds(v).products == v.products && AssignPublicIds(v).customers == v.customers;
    assert AssignPublicIds(v).orders == v.orders && AssignPublicIds(v).items == v.items;
    assert AssignPublicIds(v).payments == v.payments && AssignPublicIds(v).shipments == v.shipments;
    assert AssignPublicIds(v).returns_ == v.returns_ && AssignPublicIds(v).refunds == v.refunds;
  }
}

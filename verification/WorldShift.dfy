/**
 * Moving the clock: with the same tape, the worlds of two clocks use the same draws and differ only by
 * the clocks' distance in every timestamp.
 */
module WorldShift {
  import opened Text
  import opened Records
  import opened Catalog
  import opened Emails
  import opened WorldSpec

  // ---------- shifted rows ----------

  function ShiftTime(t: Option<Time>, d: int): Option<Time> { if t.Some? then Some(t.value + d) else None }

  function ShiftCustomer(c: Customer, d: int): Customer { c.(createdAt := c.createdAt + d) }

  function ShiftOrder(o: Order, d: int): Order {
    o.(createdAt := o.createdAt + d, estimatedDelivery := o.estimatedDelivery + d,
       actualDelivery := ShiftTime(o.actualDelivery, d))
  }

  function ShiftPayment(p: Payment, d: int): Payment { p.(createdAt := p.createdAt + d) }

  function ShiftShipment(s: Shipment, d: int): Shipment {
    s.(shippedAt := ShiftTime(s.shippedAt, d), estimatedDelivery := s.estimatedDelivery + d,
       deliveredAt := ShiftTime(s.deliveredAt, d))
  }

  function ShiftReturn(r: Return, d: int): Return { r.(requestedAt := r.requestedAt + d) }

  function ShiftRefund(r: Refund, d: int): Refund { r.(createdAt := r.createdAt + d) }

  function ShiftTicket(t: Ticket, d: int): Ticket { t.(createdAt := t.createdAt + d) }

  function ShiftCustomers(s: seq<Customer>, d: int): (r: seq<Customer>) {
    seq(|s|, i requires 0 <= i < |s| => ShiftCustomer(s[i], d))
  }

  function ShiftOrders(s: seq<Order>, d: int): seq<Order> { seq(|s|, i requires 0 <= i < |s| => ShiftOrder(s[i], d)) }

  function ShiftPayments(s: seq<Payment>, d: int): seq<Payment> {
    seq(|s|, i requires 0 <= i < |s| => ShiftPayment(s[i], d))
  }

  function ShiftShipments(s: seq<Shipment>, d: int): seq<Shipment> {
    seq(|s|, i requires 0 <= i < |s| => ShiftShipment(s[i], d))
  }

  function ShiftReturns(s: seq<Return>, d: int): seq<Return> {
    seq(|s|, i requires 0 <= i < |s| => ShiftReturn(s[i], d))
  }

  function ShiftRefunds(s: seq<Refund>, d: int): seq<Refund> {
    seq(|s|, i requires 0 <= i < |s| => ShiftRefund(s[i], d))
  }

  function ShiftTickets(s: seq<Ticket>, d: int): seq<Ticket> {
    seq(|s|, i requires 0 <= i < |s| => ShiftTicket(s[i], d))
  }

  /** Every timestamp of a world moved by `d`. */
  function Shift(w: Tables, d: int): Tables {
    Tables(w.products, ShiftCustomers(w.customers, d), ShiftOrders(w.orders, d), w.items, ShiftPayments(w.payments, d),
           ShiftShipments(w.shipments, d), ShiftReturns(w.returns_, d), ShiftRefunds(w.refunds, d),
           ShiftTickets(w.tickets, d), w.scenarios)
  }

  /** The draws do not move. */
  function ShiftSim(s: Sim, d: int): Sim { Sim(Shift(s.w, d), s.d) }

  function ShiftRun(s: Option<Sim>, d: int): Option<Sim> { if s.Some? then Some(ShiftSim(s.value, d)) else None }

  function Later(set_: Setting, d: int): Setting { set_.(now := set_.now + d) }

  // ---------- customers ----------

  lemma ShiftUsed(customers: seq<Customer>, d: int)
    ensures UsedEmails(ShiftCustomers(customers, d)) == UsedEmails(customers)
  {
    hide Lower;
    var later := ShiftCustomers(customers, d);
    forall i | 0 <= i < |customers|
      ensures Lower(customers[i].email) in UsedEmails(later) && Lower(later[i].email) in UsedEmails(customers)
    {
      assert customers[i] in customers && later[i] in later && later[i].email == customers[i].email;
    }
  }

  lemma ShiftBuildCustomer(w: Tables, r: Draws, now: Time, index: nat, tier: Option<Tier>, status: AccountStatus,
                           email: Option<string>, name: Option<string>, d: int)
    requires index > 0
    ensures var a, b := BuildCustomer(w, r, now, index, tier, status, email, name),
                        BuildCustomer(Shift(w, d), r, now + d, index, tier, status, email, name);
            b == Made(ShiftCustomer(a.value, d), a.draws)
  {
    hide Allocate, PersonName, TierDraw, UsedEmails, Draws.RandInt;
    ShiftUsed(w.customers, d);
  }

  lemma ShiftAddCustomer(w: Tables, c: Customer, d: int)
    ensures AddCustomer(Shift(w, d), ShiftCustomer(c, d)) == Shift(AddCustomer(w, c), d)
  {
    assert ShiftCustomers(w.customers + [c], d) == ShiftCustomers(w.customers, d) + [ShiftCustomer(c, d)];
  }

  // ---------- one order ----------

  function ShiftPlan(p: Plan, d: int): Plan { p.(createdAt := p.createdAt + d) }

  function ShiftShipmentOption(s: Option<Shipment>, d: int): Option<Shipment> {
    if s.Some? then Some(ShiftShipment(s.value, d)) else None
  }

  function ShiftBundle(b: Bundle, d: int): Bundle {
    Bundle(ShiftOrder(b.order, d), b.item, ShiftPayments(b.payments, d), ShiftShipmentOption(b.shipment, d))
  }

  lemma ShiftConcat(a: seq<Payment>, b: seq<Payment>, d: int)
    ensures ShiftPayments(a + b, d) == ShiftPayments(a, d) + ShiftPayments(b, d)
  {
  }

  lemma {:induction false} ShiftFailed(n: nat, id: Id, number: int, amount: int, m: string, at: Time, r: Draws, d: int)
    ensures var a := FailedPayments(n, id, number, amount, m, at, r);
            var b := FailedPayments(n, id, number, amount, m, at + d, r);
            b == Made(ShiftPayments(a.value, d), a.draws)
  {
    if n > 0 {
      ShiftFailed(n - 1, id, number + 1, amount, m, at, r.Next().Next(), d);
      var p := Payment(r.Uuid(), PublicId("PAY", number), id, PayFailed, amount, m, r.Next().Uuid(), at);
      ShiftConcat([p], FailedPayments(n - 1, id, number + 1, amount, m, at, r.Next().Next()).value, d);
      assert ShiftPayments([p], d) == [ShiftPayment(p, d)];
    } else {
      assert ShiftPayments([], d) == [];
    }
  }

  lemma ShiftMain(p: Plan, id: Id, number: int, amount: int, m: string, allowed: seq<string>, r: Draws, d: int)
    ensures var a, b := MainPayments(p, id, number, amount, m, allowed, r),
                        MainPayments(ShiftPlan(p, d), id, number, amount, m, allowed, r);
            b == Made(ShiftPayments(a.value, d), a.draws)
  {
    hide FirstStatus;
    var a, b := MainPayments(p, id, number, amount, m, allowed, r),
                MainPayments(ShiftPlan(p, d), id, number, amount, m, allowed, r);
    assert b.value == ShiftPayments(a.value, d);
  }

  lemma ShiftDelivered(ship: Option<ShipStatus>, at: Time, days: Option<int>, now: Time, r: Draws, d: int)
    ensures var a, b := DeliveredAt(ship, at, days, now, r), DeliveredAt(ship, at + d, days, now + d, r);
            b == Made(ShiftTime(a.value, d), a.draws)
    ensures ShippedAt(ship, at + d) == ShiftTime(ShippedAt(ship, at), d)
  {
    hide OffsetOr;
  }

  lemma ShiftMakeBundle(s: Sim, set_: Setting, customerId: Id, product: Product, p: Plan, d: int)
    ensures var a, b := MakeBundle(s, set_, customerId, product, p),
                        MakeBundle(ShiftSim(s, d), Later(set_, d), customerId, product, ShiftPlan(p, d));
            b == Made(ShiftBundle(a.value, d), a.draws)
  {
    hide PayMethod, OffsetOr, DeliveredAt, FailedPayments, MainPayments, ShippedAt, ShiftPayments, ShiftOrders;
    hide ShiftShipments;
    var allowed := AllowedMethods(set_.company);
    var m := PayMethod(p.payMethod, allowed, s.d);
    var total := product.unitPrice * p.quantity;
    var eta := OffsetOr(p.etaDays, 3, 12, m.draws);
    var ship := ShipStatusFor(p.status, p.ship);
    ShiftDelivered(ship, p.createdAt, p.deliveredDays, set_.now, eta.draws, d);
    var delivered := DeliveredAt(ship, p.createdAt, p.deliveredDays, set_.now, eta.draws);
    var r := delivered.draws;
    ShiftFailed(p.failed, r.Uuid(), |s.w.payments| + 1, total, m.value, p.createdAt - 2 * HOUR, r.Next().Next(), d);
    var failed := FailedPayments(p.failed, r.Uuid(), |s.w.payments| + 1, total, m.value, p.createdAt - 2 * HOUR,
                                 r.Next().Next());
    ShiftMain(p, r.Uuid(), |s.w.payments| + 1 + p.failed, total, m.value, allowed, failed.draws, d);
    ShiftConcat(failed.value, MainPayments(p, r.Uuid(), |s.w.payments| + 1 + p.failed, total, m.value, allowed,
                                           failed.draws).value, d);
    ShiftLengths(s.w, d);
    assert p.createdAt + d - 2 * HOUR == p.createdAt - 2 * HOUR + d;
  }

  lemma ShiftLengths(w: Tables, d: int)
    ensures var v := Shift(w, d);
            && |v.orders| == |w.orders| && |v.payments| == |w.payments| && |v.shipments| == |w.shipments|
            && |v.customers| == |w.customers| && |v.returns_| == |w.returns_| && |v.refunds| == |w.refunds|
  {
  }

  lemma ShiftAppend(w: Tables, b: Bundle, d: int)
    ensures AppendBundle(Shift(w, d), ShiftBundle(b, d)) == Shift(AppendBundle(w, b), d)
  {
    ShiftConcat(w.payments, b.payments, d);
    assert ShiftOrders(w.orders + [b.order], d) == ShiftOrders(w.orders, d) + [ShiftOrder(b.order, d)];
    var more := if b.shipment.Some? then [b.shipment.value] else [];
    var moved := if b.shipment.Some? then [ShiftShipment(b.shipment.value, d)] else [];
    assert ShiftShipments(w.shipments + more, d) == ShiftShipments(w.shipments, d) + moved;
  }

  lemma ShiftAddOrder(s: Sim, set_: Setting, customerId: Id, product: Product, p: Plan, d: int)
    ensures var a, b := AddOrder(s, set_, customerId, product, p),
                        AddOrder(ShiftSim(s, d), Later(set_, d), customerId, product, ShiftPlan(p, d));
            b == (ShiftSim(a.0, d), ShiftOrder(a.1, d))
  {
    hide MakeBundle, AppendBundle, Shift;
    ShiftMakeBundle(s, set_, customerId, product, p, d);
    ShiftAppend(s.w, MakeBundle(s, set_, customerId, product, p).value, d);
  }

  // ---------- labelled scenarios ----------

  lemma ShiftRunOrder(s: Sim, set_: Setting, customerId: Id, q: OrderRecipe, d: int)
    ensures var a, b := RunOrder(s, set_, customerId, q), RunOrder(ShiftSim(s, d), Later(set_, d), customerId, q);
            b == if a.Some? then Some((ShiftSim(a.value.0, d), ShiftOrder(a.value.1, d))) else None
  {
    hide AddOrder, PickProduct, ShiftOrders, ShiftPayments, ShiftShipments, ShiftCustomers;
    var product := PickProduct(s.w.products, set_.company.threshold, q.pick);
    if product.Some? {
      ShiftAddOrder(s, set_, customerId, product.value, PlanOf(q, set_), d);
      assert PlanOf(q, Later(set_, d)) == ShiftPlan(PlanOf(q, set_), d);
    }
  }

  lemma {:induction false} ShiftRunOrders(s: Sim, set_: Setting, customerId: Id, first: OrderRecipe,
                                          more: seq<OrderRecipe>, d: int)
    ensures var a, b := RunOrders(s, set_, customerId, first, more),
                        RunOrders(ShiftSim(s, d), Later(set_, d), customerId, first, more);
            b == if a.Some? then Some((ShiftSim(a.value.0, d), ShiftOrder(a.value.1, d))) else None
    decreases |more|
  {
    hide RunOrder, ShiftSim, ShiftOrder;
    ShiftRunOrder(s, set_, customerId, first, d);
    var one := RunOrder(s, set_, customerId, first);
    if one.Some? && more != [] { ShiftRunOrders(one.value.0, set_, customerId, more[0], more[1..], d); }
  }

  lemma {:induction false} ShiftFirstPaid(payments: seq<Payment>, orderId: Id, d: int)
    ensures var a, b := FirstPaid(payments, orderId), FirstPaid(ShiftPayments(payments, d), orderId);
            b == if a.Some? then Some(ShiftPayment(a.value, d)) else None
  {
    if payments != [] {
      ShiftFirstPaid(payments[1..], orderId, d);
      assert ShiftPayments(payments, d)[1..] == ShiftPayments(payments[1..], d);
    }
  }

  lemma ShiftAddRefund(s: Sim, now: Time, order: Order, r: RefundRecipe, d: int)
    ensures AddRefund(ShiftSim(s, d), now + d, ShiftOrder(order, d), r) == ShiftRun(AddRefund(s, now, order, r), d)
  {
    hide FirstPaid, NeedsApproval, ShiftOrders, ShiftPayments, ShiftShipments, ShiftCustomers, ShiftTickets;
    ShiftFirstPaid(s.w.payments, order.id, d);
    var a, b := AddRefund(s, now, order, r), AddRefund(ShiftSim(s, d), now + d, ShiftOrder(order, d), r);
    if a.Some? {
      assert ShiftReturns(a.value.w.returns_, d) == b.value.w.returns_;
      assert ShiftRefunds(a.value.w.refunds, d) == b.value.w.refunds;
    }
  }

  lemma ShiftAddTicket(s: Sim, now: Time, customerId: Id, orderId: Id, d: int)
    ensures AddTicket(ShiftSim(s, d), now + d, customerId, orderId) == ShiftSim(AddTicket(s, now, customerId, orderId), d)
  {
    hide Draws.RandInt, ShiftOrders, ShiftPayments, ShiftShipments, ShiftCustomers, ShiftReturns, ShiftRefunds;
    var a, b := AddTicket(s, now, customerId, orderId), AddTicket(ShiftSim(s, d), now + d, customerId, orderId);
    assert ShiftTickets(a.w.tickets, d) == b.w.tickets;
  }

  lemma ShiftRunRecipe(s: Sim, set_: Setting, customerId: Id, r: Recipe, copy: int, ticket: bool, d: int)
    ensures RunRecipe(ShiftSim(s, d), Later(set_, d), customerId, r, copy, ticket)
            == ShiftRun(RunRecipe(s, set_, customerId, r, copy, ticket), d)
  {
    hide RunOrders, AddRefund, AddTicket, ShiftOrders, ShiftPayments, ShiftShipments, ShiftCustomers, ShiftReturns;
    hide ShiftRefunds, ShiftTickets;
    ShiftRunOrders(s, set_, customerId, r.first, r.more, d);
    var placed := RunOrders(s, set_, customerId, r.first, r.more);
    if placed.Some? {
      var (s1, order) := placed.value;
      if r.refund.Some? { ShiftAddRefund(s1, set_.now, order, r.refund.value, d); }
      var refunded := if r.refund.Some? then AddRefund(s1, set_.now, order, r.refund.value) else Some(s1);
      if refunded.Some? { ShiftAddTicket(refunded.value, set_.now, customerId, order.id, d); }
    }
  }

  lemma ShiftRunAnomaly(s: Sim, set_: Setting, a: Anomaly, copy: int, d: int)
    ensures RunAnomaly(ShiftSim(s, d), Later(set_, d), a, copy) == ShiftRun(RunAnomaly(s, set_, a, copy), d)
  {
    hide BuildCustomer, RunRecipe, AddCustomer, Shift;
    ShiftLengths(s.w, d);
    ShiftBuildCustomer(s.w, s.d, set_.now, |s.w.customers| + 1, a.tier, Active, None, a.name, d);
    var c := BuildCustomer(s.w, s.d, set_.now, |s.w.customers| + 1, a.tier, Active, None, a.name);
    ShiftAddCustomer(s.w, c.value, d);
    ShiftRunRecipe(Sim(AddCustomer(s.w, c.value), c.draws), set_, c.value.id, a.recipe, copy, true, d);
  }

  lemma {:induction false} ShiftRunAnomalies(s: Sim, set_: Setting, todo: seq<Anomaly>, copy: int, d: int)
    ensures RunAnomalies(ShiftSim(s, d), Later(set_, d), todo, copy) == ShiftRun(RunAnomalies(s, set_, todo, copy), d)
    decreases |todo|
  {
    hide RunAnomaly, ShiftSim;
    if todo != [] {
      ShiftRunAnomaly(s, set_, todo[0], copy, d);
      var one := RunAnomaly(s, set_, todo[0], copy);
      if one.Some? { ShiftRunAnomalies(one.value, set_, todo[1..], copy, d); }
    }
  }

  lemma {:induction false} ShiftRunCopies(s: Sim, set_: Setting, copy: nat, copies: nat, d: int)
    requires copy <= copies + 1
    ensures RunCopies(ShiftSim(s, d), Later(set_, d), copy, copies) == ShiftRun(RunCopies(s, set_, copy, copies), d)
    decreases copies + 1 - copy
  {
    hide RunAnomalies, ShiftSim, ANOMALIES;
    if copy <= copies {
      ShiftRunAnomalies(s, set_, ANOMALIES, copy, d);
      var one := RunAnomalies(s, set_, ANOMALIES, copy);
      if one.Some? { ShiftRunCopies(one.value, set_, copy + 1, copies, d); }
    }
  }

  lemma ShiftOverlay(s: Sim, set_: Setting, copies: nat, d: int)
    ensures Overlay(ShiftSim(s, d), Later(set_, d), copies) == ShiftRun(Overlay(s, set_, copies), d)
  {
    hide RunCopies, FirstOfKind, ShiftOrders, ShiftPayments, ShiftShipments, ShiftCustomers, ShiftReturns, ShiftRefunds;
    hide ShiftTickets;
    ShiftRunCopies(s, set_, 1, copies, d);
  }

  lemma {:induction false} ShiftRunShowcase(s: Sim, set_: Setting, customerId: Id, todo: seq<Recipe>, number: int, d: int)
    ensures RunShowcase(ShiftSim(s, d), Later(set_, d), customerId, todo, number)
            == ShiftRun(RunShowcase(s, set_, customerId, todo, number), d)
    decreases |todo|
  {
    hide RunRecipe, ShiftSim;
    if todo != [] {
      ShiftRunRecipe(s, set_, customerId, todo[0], number, false, d);
      var one := RunRecipe(s, set_, customerId, todo[0], number, false);
      if one.Some? { ShiftRunShowcase(one.value, set_, customerId, todo[1..], number + 1, d); }
    }
  }

  lemma ShiftShowcase(s: Sim, set_: Setting, d: int)
    ensures Showcase(ShiftSim(s, d), Later(set_, d)) == ShiftRun(Showcase(s, set_), d)
  {
    hide BuildCustomer, RunShowcase, AddCustomer, Shift, SHOWCASE;
    ShiftLengths(s.w, d);
    ShiftBuildCustomer(s.w, s.d, set_.now, |s.w.customers| + 1, Some(Standard), Active, Some(DEMO_SHOWCASE_EMAIL),
                       Some(DEMO_SHOWCASE_NAME), d);
    var c := BuildCustomer(s.w, s.d, set_.now, |s.w.customers| + 1, Some(Standard), Active, Some(DEMO_SHOWCASE_EMAIL),
                           Some(DEMO_SHOWCASE_NAME));
    ShiftAddCustomer(s.w, c.value, d);
    ShiftRunShowcase(Sim(AddCustomer(s.w, c.value), c.draws), set_, c.value.id, SHOWCASE, 1, d);
  }

  // ---------- the happy path ----------

  lemma ShiftRandomOrder(s: Sim, set_: Setting, customerId: Id, d: int)
    requires s.w.products != []
    ensures AddRandomOrder(ShiftSim(s, d), Later(set_, d), customerId) == ShiftSim(AddRandomOrder(s, set_, customerId), d)
  {
    hide AddOrder, HappyTiming, WeightedStatus, Draws.Index, ShiftOrders, ShiftPayments, ShiftShipments, ShiftCustomers;
    var product := s.w.products[s.d.Index(|s.w.products|)];
    var status := WeightedStatus(s.d.Next().Index(100));
    var t := HappyTiming(status, s.d.Next().Next());
    ShiftAddOrder(Sim(s.w, t.draws), set_, customerId, product, HappyPlan(status, t.value, set_.now), d);
    assert HappyPlan(status, t.value, set_.now + d) == ShiftPlan(HappyPlan(status, t.value, set_.now), d);
  }

  lemma {:induction false} ShiftFillCustomers(s: Sim, now: Time, target: nat, d: int)
    ensures FillCustomers(ShiftSim(s, d), now + d, target) == ShiftSim(FillCustomers(s, now, target), d)
    decreases target - |s.w.customers|
  {
    hide BuildCustomer, StatusOfRoll, ShiftCustomers, ShiftOrders, ShiftPayments, ShiftShipments;
    ShiftLengths(s.w, d);
    if |s.w.customers| < target {
      var status := StatusOfRoll(s.d.Random());
      ShiftBuildCustomer(s.w, s.d.Next(), now, |s.w.customers| + 1, None, status, None, None, d);
      var c := BuildCustomer(s.w, s.d.Next(), now, |s.w.customers| + 1, None, status, None, None);
      ShiftAddCustomer(s.w, c.value, d);
      ShiftFillCustomers(Sim(AddCustomer(s.w, c.value), c.draws), now, target, d);
    }
  }

  lemma {:induction false} ShiftOrdersOf(orders: seq<Order>, customerId: Id, d: int)
    ensures OrdersOf(ShiftOrders(orders, d), customerId) == OrdersOf(orders, customerId)
  {
    if orders != [] {
      var n := |orders| - 1;
      ShiftOrdersOf(orders[..n], customerId, d);
      assert ShiftOrders(orders, d)[..n] == ShiftOrders(orders[..n], d);
    }
  }

  lemma {:induction false} ShiftFillOwners(s: Sim, set_: Setting, todo: seq<Customer>, d: int)
    requires s.w.products != []
    ensures FillOwners(ShiftSim(s, d), Later(set_, d), ShiftCustomers(todo, d)) == ShiftSim(FillOwners(s, set_, todo), d)
    decreases |todo|
  {
    hide AddRandomOrder, OrdersOf, ShiftOrders, ShiftPayments, ShiftShipments;
    if todo != [] {
      ShiftOrdersOf(s.w.orders, todo[0].id, d);
      ShiftRandomOrder(s, set_, todo[0].id, d);
      var next := if OrdersOf(s.w.orders, todo[0].id) == 0 then AddRandomOrder(s, set_, todo[0].id) else s;
      RandomOrderKeeps(s, set_, todo[0].id);
      ShiftFillOwners(next, set_, todo[1..], d);
      assert ShiftCustomers(todo, d)[1..] == ShiftCustomers(todo[1..], d);
      assert ShiftCustomers(todo, d)[0].id == todo[0].id;
    }
  }

  lemma {:induction false} ShiftEligible(customers: seq<Customer>, d: int)
    ensures Eligible(ShiftCustomers(customers, d)) == ShiftCustomers(Eligible(customers), d)
  {
    hide Lower;
    if customers != [] {
      ShiftEligible(customers[1..], d);
      var later := ShiftCustomers(customers, d);
      assert later[1..] == ShiftCustomers(customers[1..], d);
      assert later[0].email == customers[0].email;
      var head := if Lower(customers[0].email) != DEMO_SHOWCASE_EMAIL then [customers[0]] else [];
      assert ShiftCustomers(head + Eligible(customers[1..]), d)
          == ShiftCustomers(head, d) + ShiftCustomers(Eligible(customers[1..]), d);
      assert ShiftCustomers(head, d) == if head != [] then [later[0]] else [];
    }
  }

  lemma ShiftAmong(customers: seq<Customer>, d: int, i: nat)
    requires i < |customers|
    ensures |ShiftCustomers(customers, d)| == |customers| && ShiftCustomers(customers, d)[i].id == customers[i].id
  {
  }

  lemma {:induction false} ShiftFillOrders(s: Sim, set_: Setting, target: nat, d: int)
    requires s.w.products != [] && s.w.customers != []
    ensures Shift(s.w, d).customers != []
    ensures FillOrders(ShiftSim(s, d), Later(set_, d), target) == ShiftSim(FillOrders(s, set_, target), d)
    decreases target - |s.w.orders|
  {
    hide AddRandomOrder, Eligible, Draws.Index, ShiftOrders, ShiftPayments, ShiftShipments, ShiftCustomers;
    ShiftLengths(s.w, d);
    if |s.w.orders| < target {
      var eligible := Eligible(s.w.customers);
      ShiftEligible(s.w.customers, d);
      var among := if eligible != [] then eligible else s.w.customers;
      ShiftAmong(among, d, s.d.Index(|among|));
      if eligible != [] { ShiftAmong(eligible, d, 0); } else { assert ShiftCustomers([], d) == [] by { ShiftNobody(d); } }
      var c := among[s.d.Index(|among|)];
      var s0 := Sim(s.w, s.d.Next());
      ShiftRandomOrder(s0, set_, c.id, d);
      RandomOrderKeeps(s0, set_, c.id);
      ShiftFillOrders(AddRandomOrder(s0, set_, c.id), set_, target, d);
    }
  }

  lemma ShiftNobody(d: int)
    ensures ShiftCustomers([], d) == []
  {
  }

  // ---------- finishing touches ----------

  lemma {:induction false} ShiftFreeLogin(customers: seq<Customer>, i: nat, d: int)
    requires i <= |customers|
    ensures FreeLogin(ShiftCustomers(customers, d), i) == ShiftCustomers(FreeLogin(customers, i), d)
    decreases |customers| - i
  {
    hide Lower, Allocate, UsedEmails;
    if i < |customers| {
      var later := ShiftCustomers(customers, d);
      assert later[i] == ShiftCustomer(customers[i], d);
      if Lower(customers[i].email) != DEMO_LOGIN_EMAIL {
        ShiftFreeLogin(customers, i + 1, d);
      } else {
        ShiftUsed(customers, d);
        var email := Allocate(UsedEmails(customers), customers[i].name, 99);
        var next := customers[i := customers[i].(email := email)];
        ShiftFreeLogin(next, i + 1, d);
        assert ShiftCustomers(next, d) == later[i := later[i].(email := email)];
      }
    }
  }

  lemma ShiftLogin(customers: seq<Customer>, d: int)
    ensures ApplyDemoLogin(ShiftCustomers(customers, d)) == ShiftCustomers(ApplyDemoLogin(customers), d)
  {
    hide Lower, FreeLogin;
    if customers != [] {
      ShiftFreeLogin(customers, 1, d);
      var freed := FreeLogin(customers, 1);
      var pinned := freed[0 := freed[0].(email := DEMO_LOGIN_EMAIL, name := DEMO_LOGIN_NAME)];
      var later := ShiftCustomers(freed, d);
      assert ShiftCustomers(pinned, d) == later[0 := later[0].(email := DEMO_LOGIN_EMAIL, name := DEMO_LOGIN_NAME)];
    }
  }

  lemma ShiftPublicIds(w: Tables, d: int)
    ensures AssignPublicIds(Shift(w, d)) == Shift(AssignPublicIds(w), d)
  {
    var a, b := AssignPublicIds(Shift(w, d)), Shift(AssignPublicIds(w), d);
    assert a.customers == b.customers && a.orders == b.orders && a.payments == b.payments;
    assert a.shipments == b.shipments && a.returns_ == b.returns_ && a.refunds == b.refunds;
  }

  lemma ShiftFinish(w: Tables, d: int)
    ensures var v := Shift(w, d);
            AssignPublicIds(v.(customers := ApplyDemoLogin(v.customers)))
            == Shift(AssignPublicIds(w.(customers := ApplyDemoLogin(w.customers))), d)
  {
    hide ApplyDemoLogin, AssignPublicIds, ShiftOrders, ShiftPayments, ShiftShipments, ShiftCustomers, ShiftReturns;
    hide ShiftRefunds, ShiftTickets;
    ShiftLogin(w.customers, d);
    ShiftPublicIds(w.(customers := ApplyDemoLogin(w.customers)), d);
  }

  lemma ShiftFillHappyPath(s: Sim, set_: Setting, customers: nat, orders: nat, d: int)
    requires s.w.products != [] && s.w.customers != []
    ensures Shift(s.w, d).products != [] && Shift(s.w, d).customers != []
    ensures FillHappyPath(ShiftSim(s, d), Later(set_, d), customers, orders)
            == ShiftSim(FillHappyPath(s, set_, customers, orders), d)
  {
    hide FillCustomers, FillOwners, FillOrders, ShiftCustomers, ShiftOrders, ShiftPayments, ShiftShipments;
    ShiftLengths(s.w, d);
    ShiftFillCustomers(s, set_.now, customers, d);
    var s1 := FillCustomers(s, set_.now, customers);
    ShiftFillOwners(s1, set_, s1.w.customers, d);
    var s2 := FillOwners(s1, set_, s1.w.customers);
    ShiftFillOrders(s2, set_, orders, d);
  }

  /** The generator does not know what day it is. */
  lemma TimeShift(profile: Profile, tape: nat -> nat, set_: Setting, d: int)
    ensures var w := BuildWorld(profile, tape, set_);
            BuildWorld(profile, tape, Later(set_, d)) == if w.Some? then Some(Shift(w.value, d)) else None
  {
    hide Overlay, Showcase, FillHappyPath, AssignPublicIds, ApplyDemoLogin, BuildProducts, CatalogSlice, Shift;
    var products := BuildProducts(CatalogSlice(profile.Products()), 1, Draws(tape, 0));
    var s := Sim(EMPTY_WORLD.(products := products.value), products.draws);
    assert Shift(s.w, d) == s.w by { ShiftStock(products.value, d); }
    ShiftOverlay(s, set_, profile.Copies(), d);
    var o := Overlay(s, set_, profile.Copies());
    if o.Some? {
      ShiftShowcase(o.value, set_, d);
      var t := Showcase(o.value, set_);
      if t.Some? {
        ShiftKeepsStock(t.value.w, d);
        if t.value.w.products != [] && t.value.w.customers != [] {
          ShiftFillHappyPath(t.value, set_, profile.Customers(), profile.Orders(), d);
          ShiftFinish(FillHappyPath(t.value, set_, profile.Customers(), profile.Orders()).w, d);
        }
      }
    }
  }

  lemma ShiftStock(products: seq<Product>, d: int)
    ensures Shift(EMPTY_WORLD.(products := products), d) == EMPTY_WORLD.(products := products)
  {
  }

  lemma ShiftKeepsStock(w: Tables, d: int)
    ensures Shift(w, d).products == w.products && |Shift(w, d).customers| == |w.customers|
  {
  }
}

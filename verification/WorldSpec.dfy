/**
 * What the generator makes of a tape of draws, as functions: one order bundle, one scenario, the
 * whole world (app/synthetic/graph.py, anomalies.py, demo_customer.py, __init__.py).
 */
module WorldSpec {
  import opened Text
  import opened Records
  import opened Catalog
  import opened Emails

  /** A value and the draws left after making it. */
  datatype Made<+T> = Made(value: T, draws: Draws)

  /** The world under construction and the draws left. */
  datatype Sim = Sim(w: Tables, d: Draws)

  /** The simulation clock and the world model. */
  datatype Setting = Setting(now: Time, company: Company)

  // ---------- products and customers ----------

  function BuildProducts(specs: seq<Spec>, index: int, d: Draws): Made<seq<Product>> {
    if specs == [] then Made([], d)
    else
      var s := specs[0];
      var p := Product(d.Uuid(), PublicId("PRD", index), s.sku, s.category, s.price, s.finalSale, s.warrantyDays);
      var rest := BuildProducts(specs[1..], index + 1, d.Next());
      Made([p] + rest.value, rest.draws)
  }

  function WeightedTier(r: nat): Tier
    requires r < 100
  {
    if r < 55 then Standard else if r < 80 then Silver else if r < 95 then Gold else Enterprise
  }

  function WeightedStatus(r: nat): OrderStatus
    requires r < 100
  {
    if r < 55 then Delivered else if r < 75 then Shipped else if r < 82 then Processing
    else if r < 85 then Paid else if r < 88 then Pending else if r < 95 then Cancelled else Returned
  }

  function UsedEmails(customers: seq<Customer>): set<string> {
    set c | c in customers :: Lower(c.email)
  }

  function PersonName(name: Option<string>, d: Draws): Made<string> {
    if name.Some? then Made(name.value, d)
    else
      var first, last := FIRST_NAMES[d.Index(|FIRST_NAMES|)], LAST_NAMES[d.Next().Index(|LAST_NAMES|)];
      Made(first + " " + last, d.Next().Next())
  }

  function TierDraw(tier: Option<Tier>, d: Draws): Made<Tier> {
    if tier.Some? then Made(tier.value, d) else Made(WeightedTier(d.Index(100)), d.Next())
  }

  function BuildCustomer(w: Tables, d: Draws, now: Time, index: nat, tier: Option<Tier>, status: AccountStatus,
                         email: Option<string>, name: Option<string>): Made<Customer>
    requires index > 0
  {
    var person := PersonName(name, d);
    var address := if email.Some? then email.value else Allocate(UsedEmails(w.customers), person.value, index);
    var d1 := person.draws;
    var phone := d1.Next().RandInt(10000000, 99999999);
    var t := TierDraw(tier, d1.Next().Next());
    var age := t.draws.RandInt(40, 400);
    Made(Customer(d1.Uuid(), PublicId("CUST", index), person.value, address, phone, t.value, status, now - age * DAY),
         t.draws.Next())
  }

  function AddCustomer(w: Tables, c: Customer): Tables { w.(customers := w.customers + [c]) }

  // ---------- one order with its rows ----------

  /** The keyword arguments of `add_order_bundle`. */
  datatype Plan = Plan(status: OrderStatus, createdAt: Time, quantity: int, extraPaid: bool, failed: nat,
                       payMethod: Option<string>, secondMethod: Option<string>, ship: Option<ShipStatus>,
                       etaDays: Option<int>, deliveredDays: Option<int>, received: Option<bool>)

  datatype Bundle = Bundle(order: Order, item: OrderItem, payments: seq<Payment>, shipment: Option<Shipment>)

  /** `given or rng.randint(lo, hi)`: a zero counts as absent. */
  function OffsetOr(given: Option<int>, lo: int, hi: int, d: Draws): Made<int>
    requires lo <= hi
  {
    if given.Some? && given.value != 0 then Made(given.value, d) else Made(d.RandInt(lo, hi), d.Next())
  }

  function PayMethod(given: Option<string>, allowed: seq<string>, d: Draws): (m: Made<string>)
    requires allowed != []
    ensures m.value in allowed
  {
    if given.Some? && given.value != "" then
      Made(if given.value in allowed then given.value else allowed[0], d)
    else
      Made(allowed[d.Index(|allowed|)], d.Next())
  }

  function ShipStatusFor(status: OrderStatus, given: Option<ShipStatus>): Option<ShipStatus> {
    if status == Cancelled then None
    else if status in {Shipped, Delivered, Returned} && given.None? then
      Some(if status == Shipped then ShipInTransit else ShipDelivered)
    else given
  }

  function ShippedAt(ship: Option<ShipStatus>, createdAt: Time): Option<Time> {
    if ship.Some? && ship.value != ShipProcessing then Some(createdAt + DAY) else None
  }

  /** The delivery date, clamped to yesterday when it would lie in the future. */
  function DeliveredAt(ship: Option<ShipStatus>, createdAt: Time, days: Option<int>, now: Time, d: Draws)
    : Made<Option<Time>>
  {
    if ship != Some(ShipDelivered) then Made(None, d)
    else
      var offset := OffsetOr(days, 4, 10, d);
      var at := createdAt + offset.value * DAY;
      Made(Some(if at > now then now - DAY else at), offset.draws)
  }

  function FailedPayments(n: nat, orderId: Id, number: int, amount: int, m: string, at: Time, d: Draws)
    : Made<seq<Payment>>
  {
    if n == 0 then Made([], d)
    else
      var p := Payment(d.Uuid(), PublicId("PAY", number), orderId, PayFailed, amount, m, d.Next().Uuid(), at);
      var rest := FailedPayments(n - 1, orderId, number + 1, amount, m, at, d.Next().Next());
      Made([p] + rest.value, rest.draws)
  }

  function FirstStatus(status: OrderStatus, d: Draws): Made<PayStatus> {
    var usual := if status == Pending then PayPending else PayPaid;
    if status == Cancelled then Made(if FractionBelow(d.Random(), 30) then PayFailed else usual, d.Next())
    else Made(usual, d)
  }

  /** The first payment, and the second paid one when the plan asks for it. */
  function MainPayments(p: Plan, orderId: Id, number: int, amount: int, m: string, allowed: seq<string>, d: Draws)
    : Made<seq<Payment>>
  {
    var status := FirstStatus(p.status, d);
    var d1 := status.draws;
    var first := Payment(d1.Uuid(), PublicId("PAY", number), orderId, status.value, amount, m, d1.Next().Uuid(),
                         p.createdAt);
    var d2 := d1.Next().Next();
    if !p.extraPaid then Made([first], d2)
    else
      var m2 := if p.secondMethod.Some? && p.secondMethod.value in allowed then p.secondMethod.value else m;
      var second := Payment(d2.Uuid(), PublicId("PAY", number + 1), orderId, PayPaid, amount, m2, d2.Next().Uuid(),
                            p.createdAt + 8);
      Made([first, second], d2.Next().Next())
  }

  function MakeShipment(ship: Option<ShipStatus>, orderId: Id, number: int, carriers: seq<string>,
                        shippedAt: Option<Time>, eta: Time, deliveredAt: Option<Time>, received: Option<bool>, d: Draws)
    : Made<Option<Shipment>>
    requires carriers != []
  {
    if ship.None? then Made(None, d)
    else
      Made(Some(Shipment(d.Uuid(), PublicId("SHP", number), orderId, carriers[d.Next().Index(|carriers|)],
                         d.Next().Next().Uuid(), ship.value, shippedAt, eta, deliveredAt, received)),
           d.Next().Next().Next())
  }

  function MakeBundle(s: Sim, set_: Setting, customerId: Id, product: Product, p: Plan): Made<Bundle>
  {
    var w, allowed := s.w, AllowedMethods(set_.company);
    var m := PayMethod(p.payMethod, allowed, s.d);
    var total := product.unitPrice * p.quantity;
    var eta := OffsetOr(p.etaDays, 3, 12, m.draws);
    var estimated := p.createdAt + eta.value * DAY;
    var ship := ShipStatusFor(p.status, p.ship);
    var shippedAt := ShippedAt(ship, p.createdAt);
    var delivered := DeliveredAt(ship, p.createdAt, p.deliveredDays, set_.now, eta.draws);
    var received := if ship == Some(ShipDelivered) && p.received.None? then Some(true) else p.received;
    var d := delivered.draws;
    var order := Order(d.Uuid(), PublicId("ORD", |w.orders| + 1001), customerId, p.status, total,
                       set_.company.currency, p.createdAt, estimated, delivered.value);
    var item := OrderItem(d.Next().Uuid(), PublicId("ITM", |w.items| + 1), order.id, product.id, p.quantity,
                          product.unitPrice, total);
    var failed := FailedPayments(p.failed, order.id, |w.payments| + 1, total, m.value, p.createdAt - 2 * HOUR,
                                 d.Next().Next());
    var main := MainPayments(p, order.id, |w.payments| + 1 + p.failed, total, m.value, allowed, failed.draws);
    var shipment := MakeShipment(ship, order.id, |w.shipments| + 1, set_.company.carriers, shippedAt, estimated,
                                 delivered.value, received, main.draws);
    Made(Bundle(order, item, failed.value + main.value, shipment.value), shipment.draws)
  }

  function AppendBundle(w: Tables, b: Bundle): Tables {
    w.(orders := w.orders + [b.order], items := w.items + [b.item], payments := w.payments + b.payments,
       shipments := w.shipments + if b.shipment.Some? then [b.shipment.value] else [])
  }

  /** `add_order_bundle` */
  function AddOrder(s: Sim, set_: Setting, customerId: Id, product: Product, p: Plan): (Sim, Order)
  {
    var b := MakeBundle(s, set_, customerId, product, p);
    (Sim(AppendBundle(s.w, b.value), b.draws), b.value.order)
  }

  /** `add_ticket` */
  function AddTicket(s: Sim, now: Time, customerId: Id, orderId: Id): Sim {
    var t := Ticket(s.d.Uuid(), customerId, Some(orderId), now - s.d.Next().RandInt(1, 48) * HOUR);
    Sim(s.w.(tickets := s.w.tickets + [t]), s.d.Next().Next())
  }

  // ---------- labelled scenarios ----------

  /** Which product a builder looks up. */
  datatype Pick =
    | ByCategory(category: Category, finalSale: Option<bool>)
    | AboveThreshold(among: Option<Category>)

  /** When a human must approve a refund. */
  datatype Approval = Never | Always | Over1000

  /** One order of a scenario; `windowed` adds the refund window to the age in days. */
  datatype OrderRecipe = OrderRecipe(pick: Pick, status: OrderStatus, age: int, windowed: bool, extraPaid: bool,
                                     failed: nat, payMethod: Option<string>, ship: Option<ShipStatus>,
                                     etaDays: Option<int>, deliveredDays: Option<int>, received: Option<bool>)

  datatype RefundRecipe = RefundRecipe(reason: Reason, status: RefundStatus, approval: Approval)

  datatype Recipe = Recipe(kind: Kind, first: OrderRecipe, more: seq<OrderRecipe>, refund: Option<RefundRecipe>)

  function DeliveredRecipe(pick: Pick, age: int, windowed: bool, deliveredDays: int): OrderRecipe {
    OrderRecipe(pick, Delivered, age, windowed, false, 0, None, None, None, Some(deliveredDays), None)
  }

  function ShippedRecipe(pick: Pick, age: int, etaDays: int): OrderRecipe {
    OrderRecipe(pick, Shipped, age, false, false, 0, None, Some(ShipInTransit), Some(etaDays), None, None)
  }

  function UnshippedRecipe(pick: Pick, status: OrderStatus, age: int, m: string): OrderRecipe {
    OrderRecipe(pick, status, age, false, false, 2, Some(m), None, None, None, None)
  }

  const ANY_ACCESSORY := ByCategory(Accessories, None)
  const KEPT_HEADPHONES := ByCategory(Headphones, Some(false))

  const DOUBLE_PAYMENT :=
    Recipe(DoublePayment, DeliveredRecipe(KEPT_HEADPHONES, 12, false, 5).(extraPaid := true), [], None)
  const DELAYED_SHIPMENT := Recipe(DelayedShipment, ShippedRecipe(ANY_ACCESSORY, 20, 5), [], None)
  const DELIVERED_MISSING :=
    Recipe(DeliveredMissing,
           DeliveredRecipe(ByCategory(Keyboards, None), 8, false, 4)
             .(ship := Some(ShipDelivered), received := Some(false)),
           [], None)
  const REFUND_OUTSIDE_WINDOW :=
    Recipe(RefundOutsideWindow, DeliveredRecipe(ByCategory(Accessories, Some(false)), 20, true, 5), [],
           Some(RefundRecipe(CustomerPreference, RefundDenied, Never)))
  const DEFECTIVE_WARRANTY :=
    Recipe(DefectiveWarranty, DeliveredRecipe(ByCategory(Laptops, Some(false)), 25, true, 5), [],
           Some(RefundRecipe(DefectiveProduct, RefundRequested, Over1000)))
  const HIGH_VALUE_REFUND :=
    Recipe(HighValueRefund, DeliveredRecipe(AboveThreshold(Some(Laptops)), 10, false, 4), [],
           Some(RefundRecipe(CustomerPreference, RefundPendingApproval, Always)))
  const CANCEL_AFTER_SHIP := Recipe(CancelAfterShip, ShippedRecipe(ByCategory(Monitors, None), 3, 7), [], None)
  const FRAUD_RISK :=
    Recipe(FraudRisk, DeliveredRecipe(ANY_ACCESSORY, 40, false, 6).(payMethod := Some("pix")),
           [UnshippedRecipe(ANY_ACCESSORY, Pending, 3, "credit_card"),
            UnshippedRecipe(AboveThreshold(None), Paid, 1, "pix")],
           None)
  const FINAL_SALE :=
    Recipe(FinalSale, DeliveredRecipe(ByCategory(Accessories, Some(true)), 8, false, 3), [],
           Some(RefundRecipe(CustomerPreference, RefundDenied, Never)))
  const GOLD_TIER := Recipe(GoldTier, DeliveredRecipe(KEPT_HEADPHONES, 6, true, 5), [], None)
  const FAILED_PAYMENT := Recipe(FailedPayment, UnshippedRecipe(KEPT_HEADPHONES, Pending, 2, "credit_card"), [], None)
  const HAPPY_PATH := Recipe(HappyPath, ShippedRecipe(ByCategory(Monitors, Some(false)), 1, 6), [], None)

  /** The first product `ok` accepts. */
  function FindProduct(products: seq<Product>, ok: Product -> bool): Option<Product> {
    if products == [] then None
    else if ok(products[0]) then Some(products[0])
    else FindProduct(products[1..], ok)
  }

  /** `_product_by_category` falls back on the first product; `next(...)` raises when there is none. */
  function PickProduct(products: seq<Product>, threshold: int, pick: Pick): Option<Product> {
    match pick
    case ByCategory(category, finalSale) =>
      var found := FindProduct(products, (q: Product) => q.category == category
                                                       && (finalSale.None? || q.finalSale == finalSale.value));
      if found.Some? then found else if products != [] then Some(products[0]) else None
    case AboveThreshold(among) =>
      FindProduct(products, (q: Product) => q.unitPrice > threshold && (among.None? || q.category == among.value))
  }

  function PlanOf(r: OrderRecipe, set_: Setting): Plan {
    var days := r.age + if r.windowed then set_.company.windowDays else 0;
    Plan(r.status, set_.now - days * DAY, 1, r.extraPaid, r.failed, r.payMethod, None, r.ship, r.etaDays,
         r.deliveredDays, r.received)
  }

  /** One order of a scenario. */
  function RunOrder(s: Sim, set_: Setting, customerId: Id, r: OrderRecipe): Option<(Sim, Order)> {
    var product := PickProduct(s.w.products, set_.company.threshold, r.pick);
    if product.None? then None else Some(AddOrder(s, set_, customerId, product.value, PlanOf(r, set_)))
  }

  /** The orders of a scenario in turn; the last one is the scenario's order. */
  function RunOrders(s: Sim, set_: Setting, customerId: Id, first: OrderRecipe, more: seq<OrderRecipe>)
    : Option<(Sim, Order)>
    decreases |more|
  {
    var one := RunOrder(s, set_, customerId, first);
    if one.None? || more == [] then one
    else RunOrders(one.value.0, set_, customerId, more[0], more[1..])
  }

  /** The first paid payment of an order. */
  function FirstPaid(payments: seq<Payment>, orderId: Id): Option<Payment> {
    if payments == [] then None
    else if payments[0].orderId == orderId && payments[0].status == PayPaid then Some(payments[0])
    else FirstPaid(payments[1..], orderId)
  }

  predicate NeedsApproval(a: Approval, total: int) { a == Always || (a == Over1000 && total > 100000) }

  function MakeReturn(id: Id, number: int, now: Time, order: Order, r: RefundRecipe): Return {
    Return(id, PublicId("RET", number), order.id, order.customerId, r.reason,
           if r.status != RefundDenied then ReturnRequested else ReturnRejected,
           if r.reason == DefectiveProduct then InspectionPending else InspectionNotRequired, now - DAY)
  }

  /** `_add_return_and_optional_refund` */
  function AddRefund(s: Sim, now: Time, order: Order, r: RefundRecipe): Option<Sim> {
    var ret := MakeReturn(s.d.Uuid(), |s.w.returns_| + 1, now, order, r);
    var paid := FirstPaid(s.w.payments, order.id);
    if paid.None? then None
    else
      var refund := Refund(s.d.Next().Uuid(), PublicId("RFD", |s.w.refunds| + 1), order.id, Some(ret.id),
                           Some(paid.value.id), order.total, r.status, r.reason,
                           NeedsApproval(r.approval, order.total), now - 6 * HOUR);
      Some(Sim(s.w.(returns_ := s.w.returns_ + [ret], refunds := s.w.refunds + [refund]), s.d.Next().Next()))
  }

  function AddScenario(s: Sim, sc: Scenario): Sim { s.(w := s.w.(scenarios := s.w.scenarios + [sc])) }

  /** Orders, the optional return and refund, the optional ticket, and the label. */
  function RunRecipe(s: Sim, set_: Setting, customerId: Id, r: Recipe, copy: int, ticket: bool): Option<Sim>
  {
    var placed := RunOrders(s, set_, customerId, r.first, r.more);
    if placed.None? then None
    else
      var order := placed.value.1;
      var refunded := if r.refund.Some? then AddRefund(placed.value.0, set_.now, order, r.refund.value)
                      else Some(placed.value.0);
      if refunded.None? then None
      else
        var ticketed := if ticket then AddTicket(refunded.value, set_.now, customerId, order.id) else refunded.value;
        Some(AddScenario(ticketed, Scenario(r.kind, copy, customerId, Some(order.id))))
  }

  // ---------- anomalies and the showcase ----------

  /** A builder of `overlay_anomalies`: its recipe, and the tier and name its customer is given. */
  datatype Anomaly = Anomaly(recipe: Recipe, tier: Option<Tier>, name: Option<string>)

  const ANOMALIES := [
    Anomaly(DOUBLE_PAYMENT, Some(Standard), None),
    Anomaly(DELAYED_SHIPMENT, None, None),
    Anomaly(DELIVERED_MISSING, None, None),
    Anomaly(REFUND_OUTSIDE_WINDOW, None, None),
    Anomaly(DEFECTIVE_WARRANTY, None, None),
    Anomaly(HIGH_VALUE_REFUND, Some(Silver), None),
    Anomaly(CANCEL_AFTER_SHIP, None, None),
    Anomaly(FRAUD_RISK, None, None),
    Anomaly(FINAL_SALE, None, None),
    Anomaly(GOLD_TIER, Some(Gold), Some("Cliente Gold"))
  ]

  const SHOWCASE := [
    DOUBLE_PAYMENT, DELAYED_SHIPMENT, DELIVERED_MISSING, REFUND_OUTSIDE_WINDOW, DEFECTIVE_WARRANTY,
    HIGH_VALUE_REFUND, CANCEL_AFTER_SHIP, FINAL_SALE, FAILED_PAYMENT, HAPPY_PATH
  ]

  function RunAnomaly(s: Sim, set_: Setting, a: Anomaly, copy: int): Option<Sim>
  {
    var c := BuildCustomer(s.w, s.d, set_.now, |s.w.customers| + 1, a.tier, Active, None, a.name);
    RunRecipe(Sim(AddCustomer(s.w, c.value), c.draws), set_, c.value.id, a.recipe, copy, true)
  }

  function RunAnomalies(s: Sim, set_: Setting, todo: seq<Anomaly>, copy: int): Option<Sim>
    decreases |todo|
  {
    if todo == [] then Some(s)
    else
      var one := RunAnomaly(s, set_, todo[0], copy);
      if one.None? then None else RunAnomalies(one.value, set_, todo[1..], copy)
  }

  function RunCopies(s: Sim, set_: Setting, copy: nat, copies: nat): Option<Sim>
    requires copy <= copies + 1
    decreases copies + 1 - copy
  {
    if copy > copies then Some(s)
    else
      var one := RunAnomalies(s, set_, ANOMALIES, copy);
      if one.None? then None else RunCopies(one.value, set_, copy + 1, copies)
  }

  /** The first scenario of a kind. */
  function FirstOfKind(scenarios: seq<Scenario>, kind: Kind): Option<Scenario> {
    if scenarios == [] then None
    else if scenarios[0].kind == kind then Some(scenarios[0])
    else FirstOfKind(scenarios[1..], kind)
  }

  /** `_negative_security`: six utterances on the first double-payment customer. */
  function AddNegatives(s: Sim): Option<Sim> {
    var anchor := FirstOfKind(s.w.scenarios, DoublePayment);
    if anchor.None? then None
    else
      var six := seq(6, i => Scenario(NegativeSecurity, i + 1, anchor.value.customerId, anchor.value.orderId));
      Some(s.(w := s.w.(scenarios := s.w.scenarios + six)))
  }

  function Overlay(s: Sim, set_: Setting, copies: nat): Option<Sim>
  {
    var run := RunCopies(s, set_, 1, copies);
    if run.None? then None else AddNegatives(run.value)
  }

  function RunShowcase(s: Sim, set_: Setting, customerId: Id, todo: seq<Recipe>, number: int): Option<Sim>
    decreases |todo|
  {
    if todo == [] then Some(s)
    else
      var one := RunRecipe(s, set_, customerId, todo[0], number, false);
      if one.None? then None else RunShowcase(one.value, set_, customerId, todo[1..], number + 1)
  }

  /** `build_demo_showcase` */
  function Showcase(s: Sim, set_: Setting): Option<Sim>
  {
    var c := BuildCustomer(s.w, s.d, set_.now, |s.w.customers| + 1, Some(Standard), Active,
                           Some(DEMO_SHOWCASE_EMAIL), Some(DEMO_SHOWCASE_NAME));
    RunShowcase(Sim(AddCustomer(s.w, c.value), c.draws), set_, c.value.id, SHOWCASE, 1)
  }

  // ---------- the happy path ----------

  /** Age, eta and delivery offsets in days. */
  datatype Timing = Timing(age: int, eta: int, delivered: Option<int>)

  /** `_happy_path_timing` */
  function HappyTiming(status: OrderStatus, d: Draws): Made<Timing> {
    match status
    case Delivered =>
      var age := d.RandInt(8, 15);
      var days := d.Next().RandInt(4, if age < 10 then age else 10);
      Made(Timing(age, days, Some(days)), d.Next().Next())
    case Returned =>
      var age := d.RandInt(10, 15);
      var days := d.Next().RandInt(4, if age < 10 then age else 10);
      Made(Timing(age, days, Some(days)), d.Next().Next())
    case Shipped =>
      var age := d.RandInt(1, 5);
      Made(Timing(age, age + d.Next().RandInt(2, 6), None), d.Next().Next())
    case Processing => Made(Timing(d.RandInt(1, 4), d.Next().RandInt(5, 12), None), d.Next().Next())
    case Cancelled => Made(Timing(d.RandInt(1, 10), d.Next().RandInt(5, 12), None), d.Next().Next())
    case _ => Made(Timing(d.RandInt(0, 2), d.Next().RandInt(5, 12), None), d.Next().Next())
  }

  function HappyPlan(status: OrderStatus, t: Timing, now: Time): Plan {
    Plan(status, now - t.age * DAY, 1, false, 0, None, None, None, Some(t.eta), t.delivered, None)
  }

  function AddRandomOrder(s: Sim, set_: Setting, customerId: Id): Sim
    requires s.w.products != []
  {
    var product := s.w.products[s.d.Index(|s.w.products|)];
    var status := WeightedStatus(s.d.Next().Index(100));
    var t := HappyTiming(status, s.d.Next().Next());
    AddOrder(Sim(s.w, t.draws), set_, customerId, product, HappyPlan(status, t.value, set_.now)).0
  }

  /** A random order adds one order and touches neither catalog nor customers. */
  lemma RandomOrderKeeps(s: Sim, set_: Setting, customerId: Id)
    requires s.w.products != []
    ensures var t := AddRandomOrder(s, set_, customerId);
            t.w.products == s.w.products && t.w.customers == s.w.customers && |t.w.orders| == |s.w.orders| + 1
  {
    hide MakeBundle, HappyTiming;
  }

  function StatusOfRoll(r: nat): AccountStatus {
    if FractionAbove(r, 98) then Closed else if FractionAbove(r, 92) then Suspended else Active
  }

  function FillCustomers(s: Sim, now: Time, target: nat): (r: Sim)
    ensures r.w == s.w.(customers := r.w.customers) && |s.w.customers| <= |r.w.customers|
    decreases target - |s.w.customers|
  {
    if |s.w.customers| >= target then s
    else
      var status := StatusOfRoll(s.d.Random());
      var c := BuildCustomer(s.w, s.d.Next(), now, |s.w.customers| + 1, None, status, None, None);
      FillCustomers(Sim(AddCustomer(s.w, c.value), c.draws), now, target)
  }

  /** Orders a customer has. */
  function OrdersOf(orders: seq<Order>, customerId: Id): nat {
    if orders == [] then 0
    else OrdersOf(orders[..|orders| - 1], customerId) + if orders[|orders| - 1].customerId == customerId then 1 else 0
  }

  /** Every customer without an order gets one. */
  function FillOwners(s: Sim, set_: Setting, todo: seq<Customer>): (r: Sim)
    requires s.w.products != []
    ensures r.w.products == s.w.products && r.w.customers == s.w.customers
    decreases |todo|
  {
    if todo == [] then s
    else
      var next := if OrdersOf(s.w.orders, todo[0].id) == 0 then AddRandomOrder(s, set_, todo[0].id) else s;
      FillOwners(next, set_, todo[1..])
  }

  /** Everyone but the showcase customer. */
  function Eligible(customers: seq<Customer>): seq<Customer> {
    if customers == [] then []
    else (if Lower(customers[0].email) != DEMO_SHOWCASE_EMAIL then [customers[0]] else []) + Eligible(customers[1..])
  }

  function FillOrders(s: Sim, set_: Setting, target: nat): (r: Sim)
    requires s.w.products != [] && s.w.customers != []
    decreases target - |s.w.orders|
  {
    if |s.w.orders| >= target then s
    else
      var eligible := Eligible(s.w.customers);
      var among := if eligible != [] then eligible else s.w.customers;
      var c := among[s.d.Index(|among|)];
      FillOrders(AddRandomOrder(Sim(s.w, s.d.Next()), set_, c.id), set_, target)
  }

  /** `fill_happy_path` */
  function FillHappyPath(s: Sim, set_: Setting, customers: nat, orders: nat): Sim
    requires s.w.products != [] && s.w.customers != []
  {
    var filled := FillCustomers(s, set_.now, customers);
    var owned := FillOwners(filled, set_, filled.w.customers);
    FillOrders(owned, set_, orders)
  }

  // ---------- finishing touches ----------

  /** The loop of `_apply_demo_login` over the customers from `i` on. */
  function FreeLogin(customers: seq<Customer>, i: nat): (r: seq<Customer>)
    requires i <= |customers|
    ensures |r| == |customers|
    decreases |customers| - i
  {
    if i == |customers| then customers
    else if Lower(customers[i].email) != DEMO_LOGIN_EMAIL then FreeLogin(customers, i + 1)
    else
      var email := Allocate(UsedEmails(customers), customers[i].name, 99);
      FreeLogin(customers[i := customers[i].(email := email)], i + 1)
  }

  /** `_apply_demo_login` */
  function ApplyDemoLogin(customers: seq<Customer>): seq<Customer> {
    if customers == [] then []
    else
      var freed := FreeLogin(customers, 1);
      if Lower(freed[0].email) == DEMO_SHOWCASE_EMAIL then freed
      else freed[0 := freed[0].(email := DEMO_LOGIN_EMAIL, name := DEMO_LOGIN_NAME)]
  }

  /** `assign_public_ids` */
  function AssignPublicIds(w: Tables): Tables {
    Tables(
      seq(|w.products|, i requires 0 <= i < |w.products| => w.products[i].(publicId := PublicId("PRD", i + 1))),
      seq(|w.customers|, i requires 0 <= i < |w.customers| => w.customers[i].(publicId := PublicId("CUST", i + 1))),
      seq(|w.orders|, i requires 0 <= i < |w.orders| => w.orders[i].(publicId := PublicId("ORD", i + 1001))),
      seq(|w.items|, i requires 0 <= i < |w.items| => w.items[i].(publicId := PublicId("ITM", i + 1))),
      seq(|w.payments|, i requires 0 <= i < |w.payments| => w.payments[i].(publicId := PublicId("PAY", i + 1))),
      seq(|w.shipments|, i requires 0 <= i < |w.shipments| => w.shipments[i].(publicId := PublicId("SHP", i + 1))),
      seq(|w.returns_|, i requires 0 <= i < |w.returns_| => w.returns_[i].(publicId := PublicId("RET", i + 1))),
      seq(|w.refunds|, i requires 0 <= i < |w.refunds| => w.refunds[i].(publicId := PublicId("RFD", i + 1))),
      w.tickets, w.scenarios)
  }

  /** The sizes of a profile. */
  datatype Profile = Demo | V1 | Load {
    function Customers(): nat { match this case Demo => 20 case V1 => 1000 case Load => 10000 }
    function Products(): nat { if this == Demo then 24 else 80 }
    function Orders(): nat { match this case Demo => 40 case V1 => 3000 case Load => 25000 }
    function Copies(): nat { if this == Demo then 1 else 3 }
  }

  /** The world before it is checked, or `None` when a product lookup raises. */
  function BuildWorld(profile: Profile, tape: nat -> nat, set_: Setting): Option<Tables>
  {
    var products := BuildProducts(CatalogSlice(profile.Products()), 1, Draws(tape, 0));
    var overlaid := Overlay(Sim(EMPTY_WORLD.(products := products.value), products.draws), set_, profile.Copies());
    if overlaid.None? then None
    else
      var shown := Showcase(overlaid.value, set_);
      if shown.None? || shown.value.w.products == [] || shown.value.w.customers == [] then None
      else
        var filled := FillHappyPath(shown.value, set_, profile.Customers(), profile.Orders());
        var w := filled.w.(customers := ApplyDemoLogin(filled.w.customers));
        Some(AssignPublicIds(w))
  }
}

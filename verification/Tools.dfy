/**
 * The operational tools over the shop's tables: what each answers and what it writes
 * (app/tools/lookups.py, billing/tools.py, logistics/tools.py, account/tools.py).
 */
module Tools {
  import opened Text
  import opened Records
  import opened PolicyRules
  import opened WorldIntegrity
  import opened WorldInvariant

  /** An identifier: a uuid or a public id. */
  datatype Ref = ByUuid(id: Id) | ByPublicId(publicId: PublicId)

  predicate Names(ref: Ref, id: Id, publicId: PublicId) {
    match ref
    case ByUuid(u) => u == id
    case ByPublicId(p) => p == publicId
  }

  /** The ticket's customer, and whether their identity has been verified. */
  datatype Context = Context(customer: Option<Id>, verified: bool)

  /** The clock and the company's policy. */
  datatype Env = Env(now: Time, policy: Policy)

  /** The database and the tool context. */
  datatype State = State(w: Tables, ctx: Context)

  // ---------- lookups ----------

  function FindOrder(orders: seq<Order>, ref: Ref): Option<Order> {
    if orders == [] then None
    else
      var last := orders[|orders| - 1];
      if Names(ref, last.id, last.publicId) then Some(last) else FindOrder(orders[..|orders| - 1], ref)
  }

  function FindCustomer(customers: seq<Customer>, ref: Ref): Option<Customer> {
    if customers == [] then None
    else
      var last := customers[|customers| - 1];
      if Names(ref, last.id, last.publicId) then Some(last) else FindCustomer(customers[..|customers| - 1], ref)
  }

  function FindShipment(shipments: seq<Shipment>, orderId: Id): Option<Shipment> {
    if shipments == [] then None
    else
      var last := shipments[|shipments| - 1];
      if last.orderId == orderId then Some(last) else FindShipment(shipments[..|shipments| - 1], orderId)
  }

  function ProductById(products: seq<Product>, id: Id): Option<Product> {
    if products == [] then None
    else if products[0].id == id then Some(products[0])
    else ProductById(products[1..], id)
  }

  function ReturnsFor(returns_: seq<Return>, id: Id): seq<Return> {
    if returns_ == [] then []
    else
      var last := returns_[|returns_| - 1];
      ReturnsFor(returns_[..|returns_| - 1], id) + if last.orderId == id then [last] else []
  }

  predicate Scoped(ctx: Context, customerId: Id) { ctx.customer.None? || ctx.customer.value == customerId }

  /** The order a tool may talk about; an order of someone else looks like no order. */
  function ScopedOrder(s: State, ref: Ref): Option<Order> {
    var o := FindOrder(s.w.orders, ref);
    if o.Some? && Scoped(s.ctx, o.value.customerId) then o else None
  }

  function ScopedCustomer(s: State, ref: Ref): Option<Customer> {
    var c := FindCustomer(s.w.customers, ref);
    if c.Some? && Scoped(s.ctx, c.value.id) then c else None
  }

  /** Whole days since delivery, never negative. */
  function DaysSinceDelivery(o: Order, now: Time): Option<int> {
    if o.actualDelivery.None? then None
    else
      var days := (now - o.actualDelivery.value) / DAY;
      Some(if days < 0 then 0 else days)
  }

  // ---------- replies ----------

  datatype ItemView = ItemView(publicId: PublicId, quantity: int, unitPrice: int, lineTotal: int,
                               product: Option<Product>)

  datatype PaymentView = PaymentView(publicId: PublicId, status: PayStatus, amount: int, payMethod: string,
                                     createdAt: Time)

  datatype ReturnView = ReturnView(publicId: PublicId, reason: Reason, status: ReturnStatus, inspection: Inspection)

  datatype Reply =
    | OrderNotFound(ref: Ref)
    | CustomerIdRequired
    | CustomerNotFound
    | Profile(id: Id, publicId: PublicId, name: string, email: string, phone: int, tier: Tier, status: AccountStatus)
    | Unverified(error: Reply)
    | Identity(verified: bool, publicId: PublicId, status: AccountStatus)
    | OrderView(order: Order, payStatus: PayStatus, paidCount: nat, items: seq<ItemView>)
    | ItemList(publicId: PublicId, items: seq<ItemView>)
    | PaymentList(publicId: PublicId, duplicate: bool, payments: seq<PaymentView>)
    | PaymentStatuses(publicId: PublicId, statuses: seq<PayStatus>, duplicate: bool)
    | Eligibility(decision: RefundDecision, publicId: PublicId, reason: Reason)
    | RefundRefused(eligibility: Reply)
    | RefundOpened(refundId: PublicId, publicId: PublicId, refundStatus: RefundStatus, amount: int, requiresHuman: bool,
                   eligibility: Reply)
    | ShipmentNotFound(publicId: PublicId, orderStatus: OrderStatus)
    | ShipmentView(publicId: PublicId, shipment: Shipment)
    | ReturnList(publicId: PublicId, returns_: seq<ReturnView>)
    | CancelRefused(publicId: PublicId, cancel: CancelDecision)
    | CancelDone(publicId: PublicId)
    | ReturnOpened(returnId: PublicId, publicId: PublicId, reason: Reason)

  // ---------- read tools ----------

  function ViewItem(i: OrderItem, products: seq<Product>): ItemView {
    ItemView(i.publicId, i.quantity, i.unitPrice, i.lineTotal, ProductById(products, i.productId))
  }

  function ViewItems(items: seq<OrderItem>, products: seq<Product>): seq<ItemView> {
    if items == [] then []
    else ViewItems(items[..|items| - 1], products) + [ViewItem(items[|items| - 1], products)]
  }

  function ViewPayments(payments: seq<Payment>): seq<PaymentView> {
    seq(|payments|, i requires 0 <= i < |payments| =>
      PaymentView(payments[i].publicId, payments[i].status, payments[i].amount, payments[i].payMethod,
                  payments[i].createdAt))
  }

  function ViewReturns(rs: seq<Return>): seq<ReturnView> {
    seq(|rs|, i requires 0 <= i < |rs| =>
      ReturnView(rs[i].publicId, rs[i].reason, rs[i].status, rs[i].inspection))
  }

  function PaidRows(payments: seq<Payment>): seq<Payment> {
    if payments == [] then []
    else (if payments[0].status == PayPaid then [payments[0]] else []) + PaidRows(payments[1..])
  }

  function OrderPayments(w: Tables, o: Order): seq<Payment> { PaymentsFor(w.payments, o.id) }

  function GetCustomer(s: State, who: Option<Ref>): Reply {
    var ref := if who.Some? then who else if s.ctx.customer.Some? then Some(ByUuid(s.ctx.customer.value)) else None;
    if ref.None? then CustomerIdRequired
    else
      var c := ScopedCustomer(s, ref.value);
      if c.None? then CustomerNotFound
      else Profile(c.value.id, c.value.publicId, c.value.name, c.value.email, c.value.phone, c.value.tier, c.value.status)
  }

  function GetOrder(s: State, ref: Ref): Reply {
    var o := ScopedOrder(s, ref);
    if o.None? then OrderNotFound(ref)
    else
      var payments := OrderPayments(s.w, o.value);
      var status := if PaidRows(payments) != [] then PayPaid
                    else if payments != [] then payments[0].status else PayPending;
      OrderView(o.value, status, |PaidRows(payments)|, ViewItems(LinesFor(s.w.items, o.value.id), s.w.products))
  }

  function GetOrderItems(s: State, ref: Ref): Reply {
    var o := ScopedOrder(s, ref);
    if o.None? then OrderNotFound(ref)
    else ItemList(o.value.publicId, ViewItems(LinesFor(s.w.items, o.value.id), s.w.products))
  }

  predicate SameAmounts(payments: seq<Payment>) { forall p, q :: p in payments && q in payments ==> p.amount == q.amount }

  function GetPayments(s: State, ref: Ref): Reply {
    var o := ScopedOrder(s, ref);
    if o.None? then OrderNotFound(ref)
    else
      var payments := OrderPayments(s.w, o.value);
      var paid := PaidRows(payments);
      PaymentList(o.value.publicId, |paid| >= 2 && SameAmounts(paid), ViewPayments(payments))
  }

  function GetPaymentStatus(s: State, ref: Ref): Reply {
    match GetPayments(s, ref)
    case PaymentList(publicId, duplicate, payments) =>
      PaymentStatuses(publicId, seq(|payments|, i requires 0 <= i < |payments| => payments[i].status), duplicate)
    case other => other
  }

  /** The product of the order's first line. */
  function PrimaryProduct(w: Tables, o: Order): Option<Product> {
    var lines := LinesFor(w.items, o.id);
    if lines == [] then None else ProductById(w.products, lines[0].productId)
  }

  /** The facts of an order as `can_refund` takes them. */
  function RefundFacts(w: Tables, o: Order, now: Time, reason: Reason, verified: bool): RefundCase {
    var paid, product := PaidRows(OrderPayments(w, o)), PrimaryProduct(w, o);
    var duplicate := |paid| >= 2;
    RefundCase(DaysSinceDelivery(o, now), if duplicate then paid[0].amount else o.total,
               if product.Some? then product.value.category else Accessories,
               product.Some? && product.value.finalSale, reason, verified,
               if product.Some? then product.value.warrantyDays else 90, duplicate)
  }

  function CheckRefund(s: State, e: Env, ref: Ref, reason: Reason, verified: bool): Reply {
    var o := ScopedOrder(s, ref);
    if o.None? then OrderNotFound(ref)
    else
      var facts := RefundFacts(s.w, o.value, e.now, reason, verified || s.ctx.verified);
      Eligibility(CanRefund(facts, e.policy), o.value.publicId, reason)
  }

  function GetShipment(s: State, ref: Ref): Reply {
    var o := ScopedOrder(s, ref);
    if o.None? then OrderNotFound(ref)
    else
      var sh := FindShipment(s.w.shipments, o.value.id);
      if sh.None? then ShipmentNotFound(o.value.publicId, o.value.status) else ShipmentView(o.value.publicId, sh.value)
  }

  function GetReturnStatus(s: State, ref: Ref): Reply {
    var o := ScopedOrder(s, ref);
    if o.None? then OrderNotFound(ref)
    else ReturnList(o.value.publicId, ViewReturns(ReturnsFor(s.w.returns_, o.value.id)))
  }

  // ---------- writing tools ----------

  function VerifyIdentity(s: State, who: Option<Ref>): (State, Reply) {
    var profile := GetCustomer(s, who);
    if profile.Profile? then
      var active := profile.status == Active;
      (s.(ctx := s.ctx.(verified := active)), Identity(active, profile.publicId, profile.status))
    else (s.(ctx := s.ctx.(verified := false)), Unverified(profile))
  }

  /** The ids the database makes up for a new row. */
  datatype Fresh = Fresh(id: Id, publicId: PublicId)

  /** The row `create_refund_request` writes. */
  function NewRefund(w: Tables, o: Order, d: RefundDecision, reason: Reason, f: Fresh, now: Time): Refund {
    var paid := PaidRows(OrderPayments(w, o));
    Refund(f.id, f.publicId, o.id, None, if paid != [] then Some(paid[0].id) else None,
           if d.maxAmount.Some? then d.maxAmount.value else o.total,
           if d.requiresHuman then RefundPendingApproval else RefundRequested, reason, d.requiresHuman, now)
  }

  function CreateRefund(s: State, e: Env, ref: Ref, reason: Reason, verified: bool, f: Fresh): (State, Reply) {
    var eligibility := CheckRefund(s, e, ref, reason, verified || s.ctx.verified);
    var o := FindOrder(s.w.orders, ref);
    if !eligibility.Eligibility? then (s, OrderNotFound(ref))
    else if !eligibility.decision.eligible then (s, RefundRefused(eligibility))
    else if o.None? then (s, OrderNotFound(ref))
    else
      var r := NewRefund(s.w, o.value, eligibility.decision, reason, f, e.now);
      (s.(w := s.w.(refunds := s.w.refunds + [r])),
       RefundOpened(r.publicId, o.value.publicId, r.status, r.amount, r.requiresHuman, eligibility))
  }

  /** The status of the rows with an id set, the rest as they were. */
  function SetStatus(orders: seq<Order>, id: Id, status: OrderStatus): (r: seq<Order>) {
    if orders == [] then []
    else
      var last := orders[|orders| - 1];
      SetStatus(orders[..|orders| - 1], id, status) + [WithStatus(last, id, status)]
  }

  function WithStatus(o: Order, id: Id, status: OrderStatus): Order {
    if o.id == id then o.(status := status) else o
  }

  lemma {:induction false} SetStatusRows(orders: seq<Order>, id: Id, status: OrderStatus)
    ensures var r := SetStatus(orders, id, status);
            |r| == |orders|
            && forall i :: 0 <= i < |r| ==> r[i] == WithStatus(orders[i], id, status)
  {
    if orders != [] { SetStatusRows(orders[..|orders| - 1], id, status); }
  }

  function CancelOrder(s: State, ref: Ref): (State, Reply) {
    var o := ScopedOrder(s, ref);
    if o.None? then (s, OrderNotFound(ref))
    else
      var sh := FindShipment(s.w.shipments, o.value.id);
      var decision := CanCancel(if sh.Some? then Some(sh.value.status) else None, o.value.status);
      if decision != CancelBeforeShipment then (s, CancelRefused(o.value.publicId, decision))
      else (s.(w := s.w.(orders := SetStatus(s.w.orders, o.value.id, Cancelled))), CancelDone(o.value.publicId))
  }

  function ParseReturnReason(reason: Reason): Reason {
    if reason in {DefectiveProduct, WrongItem, CustomerPreference, MissingParts} then reason else OtherReason
  }

  function CreateReturn(s: State, e: Env, ref: Ref, reason: Reason, f: Fresh): (State, Reply) {
    var o := ScopedOrder(s, ref);
    if o.None? then (s, OrderNotFound(ref))
    else
      var parsed := ParseReturnReason(reason);
      var r := Return(f.id, f.publicId, o.value.id, o.value.customerId, parsed, ReturnRequested,
                      if parsed == DefectiveProduct then InspectionPending else InspectionNotRequired, e.now);
      (s.(w := s.w.(returns_ := s.w.returns_ + [r])), ReturnOpened(r.publicId, o.value.publicId, parsed))
  }

  // ---------- one call, and a run of calls ----------

  datatype Call =
    | CallGetCustomer(who: Option<Ref>)
    | CallVerifyIdentity(who: Option<Ref>)
    | CallGetOrder(order: Ref)
    | CallGetOrderItems(order: Ref)
    | CallGetPayments(order: Ref)
    | CallGetPaymentStatus(order: Ref)
    | CallCheckRefund(order: Ref, reason: Reason, verified: bool)
    | CallCreateRefund(order: Ref, reason: Reason, verified: bool, fresh_: Fresh)
    | CallGetShipment(order: Ref)
    | CallGetShippingStatus(order: Ref)
    | CallGetReturnStatus(order: Ref)
    | CallCancelOrder(order: Ref)
    | CallCreateReturn(order: Ref, reason: Reason, fresh_: Fresh)

  function Step(s: State, e: Env, c: Call): (State, Reply) {
    match c
    case CallGetCustomer(who) => (s, GetCustomer(s, who))
    case CallVerifyIdentity(who) => VerifyIdentity(s, who)
    case CallGetOrder(ref) => (s, GetOrder(s, ref))
    case CallGetOrderItems(ref) => (s, GetOrderItems(s, ref))
    case CallGetPayments(ref) => (s, GetPayments(s, ref))
    case CallGetPaymentStatus(ref) => (s, GetPaymentStatus(s, ref))
    case CallCheckRefund(ref, reason, verified) => (s, CheckRefund(s, e, ref, reason, verified))
    case CallCreateRefund(ref, reason, verified, f) => CreateRefund(s, e, ref, reason, verified, f)
    case CallGetShipment(ref) => (s, GetShipment(s, ref))
    case CallGetShippingStatus(ref) => (s, GetShipment(s, ref))
    case CallGetReturnStatus(ref) => (s, GetReturnStatus(s, ref))
    case CallCancelOrder(ref) => CancelOrder(s, ref)
    case CallCreateReturn(ref, reason, f) => CreateReturn(s, e, ref, reason, f)
  }

  /** A call at the moment it is made. */
  datatype Turn = Turn(env: Env, call: Call)

  function Run(s: State, turns: seq<Turn>): (end: (State, seq<Reply>))
    ensures |end.1| == |turns|
    decreases |turns|
  {
    if turns == [] then (s, [])
    else
      var (s1, r) := Step(s, turns[0].env, turns[0].call);
      var (s2, rs) := Run(s1, turns[1..]);
      (s2, [r] + rs)
  }
}

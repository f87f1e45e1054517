/** Each builder keeps the invariant; when it also keeps shipping dates in order; when it raises. */
module WorldBuilders {
  import opened Text
  import opened Records
  import opened WorldSpec
  import opened WorldIntegrity
  import opened WorldInvariant

  // ---------- payments of a bundle ----------

  /** Payments of one order, all of one amount and by allowed methods. */
  predicate PaymentsFit(payments: seq<Payment>, orderId: Id, amount: int, allowed: seq<string>) {
    forall p :: p in payments ==> p.orderId == orderId && p.amount == amount && p.payMethod in allowed
  }

  lemma {:induction false} FailedFit(n: nat, orderId: Id, number: int, amount: int, m: string, at: Time, d: Draws,
                                     allowed: seq<string>)
    requires m in allowed
    ensures var f := FailedPayments(n, orderId, number, amount, m, at, d);
            PaymentsFit(f.value, orderId, amount, allowed) && f.draws.pos >= d.pos && f.draws.tape == d.tape
    decreases n
  {
    if n > 0 { FailedFit(n - 1, orderId, number + 1, amount, m, at, d.Next().Next(), allowed); }
  }

  lemma OnePaid(p: Payment, id: Id)
    ensures PaidCount([p], id) == if IsPaidFor(p, id) then 1 else 0
  {
    assert [p][..0] == [];
  }

  lemma MainFit(p: Plan, orderId: Id, number: int, amount: int, m: string, allowed: seq<string>, d: Draws)
    requires m in allowed
    ensures var f := MainPayments(p, orderId, number, amount, m, allowed, d);
            && PaymentsFit(f.value, orderId, amount, allowed) && f.draws.pos >= d.pos && f.draws.tape == d.tape
            && (p.status !in {Pending, Cancelled} ==>
                  PaidCount(f.value, orderId) == if p.extraPaid then 2 else 1)
  {
    hide Draws.Random, FractionBelow;
    var f := MainPayments(p, orderId, number, amount, m, allowed, d).value;
    OnePaid(f[0], orderId);
    if p.extraPaid {
      OnePaid(f[1], orderId);
      PaidConcat([f[0]], [f[1]], orderId);
      assert f == [f[0]] + [f[1]];
    }
  }

  // ---------- a bundle ----------

  /** What the call sites respect: nothing undelivered is marked delivered before it is paid. */
  predicate PlanOk(p: Plan) { p.quantity >= 0 && (p.ship == Some(ShipDelivered) ==> p.status != Pending) }

  lemma DrawsMove(d: Draws, given: Option<int>, lo: int, hi: int)
    requires lo <= hi
    ensures OffsetOr(given, lo, hi, d).draws.pos >= d.pos
  {
  }

  /** What an order settles for its payments and its shipment. */
  datatype Terms = Terms(payMethod: string, ship: Option<ShipStatus>, shippedAt: Option<Time>, received: Option<bool>)

  datatype Head = Head(order: Order, item: OrderItem, terms: Terms, draws: Draws)

  /** The part of a bundle made before its payments. */
  function HeadOf(s: Sim, set_: Setting, customerId: Id, product: Product, p: Plan): Head {
    var m := PayMethod(p.payMethod, AllowedMethods(set_.company), s.d);
    var total := product.unitPrice * p.quantity;
    var eta := OffsetOr(p.etaDays, 3, 12, m.draws);
    var ship := ShipStatusFor(p.status, p.ship);
    var delivered := DeliveredAt(ship, p.createdAt, p.deliveredDays, set_.now, eta.draws);
    var d := delivered.draws;
    var order := Order(d.Uuid(), PublicId("ORD", |s.w.orders| + 1001), customerId, p.status, total,
                       set_.company.currency, p.createdAt, p.createdAt + eta.value * DAY, delivered.value);
    var item := OrderItem(d.Next().Uuid(), PublicId("ITM", |s.w.items| + 1), order.id, product.id, p.quantity,
                          product.unitPrice, total);
    var received := if ship == Some(ShipDelivered) && p.received.None? then Some(true) else p.received;
    Head(order, item, Terms(m.value, ship, ShippedAt(ship, p.createdAt), received), d.Next().Next())
  }

  lemma BundleInSteps(s: Sim, set_: Setting, customerId: Id, product: Product, p: Plan)
    ensures var h, b := HeadOf(s, set_, customerId, product, p), MakeBundle(s, set_, customerId, product, p);
            var failed := FailedPayments(p.failed, h.order.id, |s.w.payments| + 1, h.order.total, h.terms.payMethod,
                                         h.order.createdAt - 2 * HOUR, h.draws);
            var main := MainPayments(p, h.order.id, |s.w.payments| + 1 + p.failed, h.order.total, h.terms.payMethod,
                                     AllowedMethods(set_.company), failed.draws);
            var shipment := MakeShipment(h.terms.ship, h.order.id, |s.w.shipments| + 1, set_.company.carriers,
                                         h.terms.shippedAt, h.order.estimatedDelivery, h.order.actualDelivery,
                                         h.terms.received, main.draws);
            && h.order.status == p.status && h.order.createdAt == p.createdAt
            && b == Made(Bundle(h.order, h.item, failed.value + main.value, shipment.value), shipment.draws)
            && (shipment.value.Some? <==> h.terms.ship.Some?) && (shipment.value.None? ==> shipment.draws == main.draws)
  {
    hide PayMethod, OffsetOr, DeliveredAt, FailedPayments, MainPayments;
  }

  lemma HeadFits(s: Sim, set_: Setting, customerId: Id, product: Product, p: Plan)
    requires PlanOk(p) && product.unitPrice >= 0
    ensures var h := HeadOf(s, set_, customerId, product, p);
            && s.d.pos <= h.order.id < h.draws.pos && h.order.customerId == customerId && h.order.status == p.status
            && h.order.total >= 0 && h.item.orderId == h.order.id && h.item.productId == product.id
            && h.item.lineTotal == h.item.unitPrice * h.item.quantity == h.order.total
            && h.terms.payMethod in AllowedMethods(set_.company)
            && (h.order.actualDelivery.Some? || p.status == Delivered ==> p.status !in {Pending, Cancelled})
  {
    hide OffsetOr, PayMethod, Draws.RandInt, Draws.Index;
    var allowed := AllowedMethods(set_.company);
    var m := PayMethod(p.payMethod, allowed, s.d);
    PayMethodDraws(p.payMethod, allowed, s.d);
    DrawsMove(m.draws, p.etaDays, 3, 12);
    DrawsMove(OffsetOr(p.etaDays, 3, 12, m.draws).draws, p.deliveredDays, 4, 10);
    Multiply(product.unitPrice, p.quantity);
  }

  lemma ShipmentFits(ship: Option<ShipStatus>, orderId: Id, number: int, carriers: seq<string>,
                     shippedAt: Option<Time>, eta: Time, deliveredAt: Option<Time>, received: Option<bool>, d: Draws)
    requires carriers != []
    ensures var f := MakeShipment(ship, orderId, number, carriers, shippedAt, eta, deliveredAt, received, d);
            f.draws.pos >= d.pos && (f.value.Some? ==> f.value.value.orderId == orderId)
  {
  }

  lemma PaymentsTogether(p: Plan, id: Id, n: nat, total: int, m: string, at: Time, allowed: seq<string>, d: Draws)
    requires m in allowed
    ensures var failed := FailedPayments(p.failed, id, n, total, m, at, d);
            var main := MainPayments(p, id, n + p.failed, total, m, allowed, failed.draws);
            && PaymentsFit(failed.value + main.value, id, total, allowed) && main.draws.pos >= d.pos
            && (p.status !in {Pending, Cancelled} ==>
                  PaidCount(failed.value + main.value, id) == if p.extraPaid then 2 else 1)
  {
    hide FailedPayments, MainPayments, PaidCount;
    var failed := FailedPayments(p.failed, id, n, total, m, at, d);
    FailedFit(p.failed, id, n, total, m, at, d, allowed);
    FailedUnpaid(p.failed, id, n, total, m, at, d);
    var main := MainPayments(p, id, n + p.failed, total, m, allowed, failed.draws);
    MainFit(p, id, n + p.failed, total, m, allowed, failed.draws);
    PaidConcat(failed.value, main.value, id);
  }

  /** A bundle holds the rows of one fresh order, all priced alike. */
  lemma BundleFits(s: Sim, set_: Setting, customerId: Id, product: Product, p: Plan)
    requires PlanOk(p) && product in s.w.products && product.unitPrice >= 0
    requires customerId in CustomerIds(s.w.customers)
    ensures var b, allowed := MakeBundle(s, set_, customerId, product, p), AllowedMethods(set_.company);
            && Fits(s.w, b.value, s.d.pos, b.draws.pos, allowed)
            && b.value.order.customerId == customerId && b.value.order.status == p.status
            && (p.status !in {Pending, Cancelled} ==>
                  PaidCount(b.value.payments, b.value.order.id) == if p.extraPaid then 2 else 1)
  {
    hide MakeBundle, HeadOf, FailedPayments, MainPayments, MakeShipment, PaidCount, AllowedMethods, Fits, PlanOk;
    BundleInSteps(s, set_, customerId, product, p);
    HeadFits(s, set_, customerId, product, p);
    var allowed := AllowedMethods(set_.company);
    var h := HeadOf(s, set_, customerId, product, p);
    var o, m, at := h.order, h.terms.payMethod, h.order.createdAt - 2 * HOUR;
    var n := |s.w.payments| + 1;
    PaymentsTogether(p, o.id, n, o.total, m, at, allowed, h.draws);
    var failed := FailedPayments(p.failed, o.id, n, o.total, m, at, h.draws);
    var main := MainPayments(p, o.id, n + p.failed, o.total, m, allowed, failed.draws);
    ShipmentFits(h.terms.ship, o.id, |s.w.shipments| + 1, set_.company.carriers, h.terms.shippedAt,
                 o.estimatedDelivery, o.actualDelivery, h.terms.received, main.draws);
    var b := MakeBundle(s, set_, customerId, product, p);
    FitsWhen(s.w, b.value, s.d.pos, b.draws.pos, allowed, product);
  }

  lemma FitsWhen(w: Tables, b: Bundle, before: nat, after: nat, allowed: seq<string>, product: Product)
    requires before <= b.order.id < after && b.order.customerId in CustomerIds(w.customers) && b.order.total >= 0
    requires product in w.products && b.item.orderId == b.order.id && b.item.productId == product.id
    requires b.item.lineTotal == b.item.unitPrice * b.item.quantity == b.order.total
    requires PaymentsFit(b.payments, b.order.id, b.order.total, allowed)
    requires b.order.actualDelivery.Some? || b.order.status == Delivered ==> PaidCount(b.payments, b.order.id) >= 1
    requires b.shipment.Some? ==> b.shipment.value.orderId == b.order.id
    ensures Fits(w, b, before, after, allowed)
  {
    hide PaidCount;
  }

  lemma Multiply(a: int, b: int)
    requires a >= 0 && b >= 0
    ensures a * b >= 0
  {
  }

  lemma PayMethodDraws(given: Option<string>, allowed: seq<string>, d: Draws)
    requires allowed != []
    ensures PayMethod(given, allowed, d).draws.pos >= d.pos
  {
  }

  lemma {:induction false} FailedUnpaid(n: nat, orderId: Id, number: int, amount: int, m: string, at: Time, d: Draws)
    ensures PaidCount(FailedPayments(n, orderId, number, amount, m, at, d).value, orderId) == 0
    decreases n
  {
    if n > 0 {
      var p := FailedPayments(n, orderId, number, amount, m, at, d).value[0];
      FailedUnpaid(n - 1, orderId, number + 1, amount, m, at, d.Next().Next());
      OnePaid(p, orderId);
      PaidConcat([p], FailedPayments(n - 1, orderId, number + 1, amount, m, at, d.Next().Next()).value, orderId);
    }
  }

  // ---------- shipping dates of a bundle ----------

  predicate IsDelivering(p: Plan) { ShipStatusFor(p.status, p.ship) == Some(ShipDelivered) }

  /** When the clamp to yesterday leaves delivery on or after shipping, for a delivery `n` days on. */
  predicate ClampHarmless(createdAt: Time, n: int, now: Time) {
    if createdAt + n * DAY > now then createdAt + 2 * DAY <= now else n >= 1
  }

  /** The number of days to delivery the bundle settles on. */
  function DeliveryDays(s: Sim, set_: Setting, p: Plan): int {
    var m := PayMethod(p.payMethod, AllowedMethods(set_.company), s.d);
    OffsetOr(p.deliveredDays, 4, 10, OffsetOr(p.etaDays, 3, 12, m.draws).draws).value
  }

  /** The rows of a bundle are in date order exactly when the clamp is harmless. */
  lemma BundleDatesIff(s: Sim, set_: Setting, customerId: Id, product: Product, p: Plan)
    ensures var b := MakeBundle(s, set_, customerId, product, p).value;
            b.shipment.Some? ==>
              (InDateOrder(b.shipment.value, b.order)
               <==> (IsDelivering(p) ==> ClampHarmless(p.createdAt, DeliveryDays(s, set_, p), set_.now)))
  {
    hide OffsetOr, PayMethod, FailedPayments, MainPayments, Draws.RandInt, Draws.Index;
    var b := MakeBundle(s, set_, customerId, product, p).value;
    var ship := ShipStatusFor(p.status, p.ship);
    if ship.Some? {
      var n := DeliveryDays(s, set_, p);
      assert b.shipment.value.shippedAt == ShippedAt(ship, p.createdAt);
      assert b.order.createdAt == p.createdAt;
      assert n >= 1 <==> p.createdAt + n * DAY >= p.createdAt + DAY;
    }
  }

  /** A delivered order that is at least two days old is safe whatever is drawn. */
  predicate PlanDated(p: Plan, now: Time) {
    IsDelivering(p) ==> p.createdAt + 2 * DAY <= now && (p.deliveredDays.Some? ==> p.deliveredDays.value >= 0)
  }

  lemma BundleDated(s: Sim, set_: Setting, customerId: Id, product: Product, p: Plan)
    requires PlanDated(p, set_.now)
    ensures var b := MakeBundle(s, set_, customerId, product, p).value;
            b.shipment.Some? ==> InDateOrder(b.shipment.value, b.order)
  {
    hide MakeBundle, PayMethod, InDateOrder;
    BundleDatesIff(s, set_, customerId, product, p);
  }

  /** A delivered order younger than two days whose delivery lies ahead is clamped to before it shipped. */
  lemma BundleUndated(s: Sim, set_: Setting, customerId: Id, product: Product, p: Plan)
    requires p.status == Delivered && p.ship.None? && p.deliveredDays == Some(5) && p.createdAt + 2 * DAY > set_.now
    ensures var b := MakeBundle(s, set_, customerId, product, p).value;
            b.shipment.Some? && b.shipment.value.orderId == b.order.id && !InDateOrder(b.shipment.value, b.order)
  {
    BundleDatesIff(s, set_, customerId, product, p);
  }

  // ---------- what else holds of a bundle ----------

  /** Order and shipment tell one story, and no delivery lies in the future. */
  lemma BundleTellsOneStory(s: Sim, set_: Setting, customerId: Id, product: Product, p: Plan)
    ensures var b := MakeBundle(s, set_, customerId, product, p).value;
            && (b.order.actualDelivery.Some? <==> b.shipment.Some? && b.shipment.value.status == ShipDelivered)
            && (b.order.actualDelivery.Some? ==> b.order.actualDelivery.value <= set_.now)
            && (b.shipment.Some? ==>
                  && b.shipment.value.deliveredAt == b.order.actualDelivery
                  && b.shipment.value.estimatedDelivery == b.order.estimatedDelivery
                  && b.shipment.value.carrier in set_.company.carriers
                  && (b.shipment.value.shippedAt.None? <==> b.shipment.value.status == ShipProcessing))
            && (p.status == Cancelled ==> b.shipment.None?)
            && (p.status in {Delivered, Returned} && p.ship.None? ==> b.order.actualDelivery.Some?)
  {
    hide OffsetOr, PayMethod, FailedPayments, MainPayments, Draws.RandInt;
  }

  lemma {:induction false} FailedNumbers(n: nat, orderId: Id, number: int, amount: int, m: string, at: Time, d: Draws)
    ensures var f := FailedPayments(n, orderId, number, amount, m, at, d).value;
            && |f| == n
            && forall i :: 0 <= i < n ==>
                 f[i].publicId == PublicId("PAY", number + i) && f[i].status == PayFailed && f[i].createdAt == at
  {
    if n > 0 { FailedNumbers(n - 1, orderId, number + 1, amount, m, at, d.Next().Next()); }
  }

  /** Payments are numbered on from the table: the failed ones two hours early, then the first, then the second. */
  lemma PaymentsInOrder(s: Sim, set_: Setting, customerId: Id, product: Product, p: Plan)
    ensures var pays := MakeBundle(s, set_, customerId, product, p).value.payments;
            && |pays| == p.failed + 1 + (if p.extraPaid then 1 else 0)
            && (forall i :: 0 <= i < |pays| ==> pays[i].publicId == PublicId("PAY", |s.w.payments| + 1 + i))
            && (forall i :: 0 <= i < p.failed ==>
                  pays[i].status == PayFailed && pays[i].createdAt == p.createdAt - 2 * HOUR)
            && pays[p.failed].createdAt == p.createdAt
            && (pays[p.failed].status == PayPending <==> p.status == Pending)
            && (pays[p.failed].status == PayFailed ==> p.status == Cancelled)
            && (p.extraPaid ==> pays[p.failed + 1].status == PayPaid && pays[p.failed + 1].createdAt == p.createdAt + 8)
  {
    BundleInSteps(s, set_, customerId, product, p);
    var h := HeadOf(s, set_, customerId, product, p);
    FailedNumbers(p.failed, h.order.id, |s.w.payments| + 1, h.order.total, h.terms.payMethod,
                  h.order.createdAt - 2 * HOUR, h.draws);
    hide MakeBundle, HeadOf, FailedPayments, MakeShipment, Draws.Random, FractionBelow;
  }

  /**
   * On the happy path nothing is older than fifteen days, what is delivered was delivered by now without the clamp,
   * and what is on its way is expected two to six days from now.
   */
  lemma HappyTimingIsCoherent(status: OrderStatus, d: Draws, now: Time)
    ensures var t := HappyTiming(status, d).value;
            var p := HappyPlan(status, t, now);
            && now - 15 * DAY <= p.createdAt <= now
            && (status in {Delivered, Returned} <==> t.delivered.Some?)
            && (t.delivered.Some? ==> 4 <= t.delivered.value <= 10 && p.createdAt + t.delivered.value * DAY <= now
                                      && t.eta == t.delivered.value)
            && (status == Shipped ==> now + 2 * DAY <= p.createdAt + t.eta * DAY <= now + 6 * DAY)
            && (match status
                case Delivered => 8 <= t.age <= 15
                case Returned => 10 <= t.age <= 15
                case Shipped => 1 <= t.age <= 5
                case Processing => 1 <= t.age <= 4 && 5 <= t.eta <= 12
                case Cancelled => 1 <= t.age <= 10 && 5 <= t.eta <= 12
                case _ => 0 <= t.age <= 2 && 5 <= t.eta <= 12)
  {
    hide Draws.RandInt;
  }
}

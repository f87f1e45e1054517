/** Every labelled scenario of a generated world is what its label says. */
module WorldLabels {
  import opened Text
  import opened Records
  import opened Catalog
  import opened Emails
  import opened WorldSpec
  import opened WorldIntegrity
  import opened WorldInvariant
  import opened WorldBuilders
  import opened WorldSound

  // ---------- what the labels say ----------

  /** One piece of the product was bought, at its price. */
  predicate BoughtOne(w: Tables, o: Order, q: Product) {
    q in w.products && o.total == q.unitPrice
    && exists i :: i in w.items && i.orderId == o.id && i.productId == q.id && i.quantity == 1
  }

  predicate Bought(w: Tables, o: Order, category: Category, finalSale: Option<bool>) {
    exists q :: q in w.products && BoughtOne(w, o, q) && q.category == category
      && (finalSale.Some? ==> q.finalSale == finalSale.value)
  }

  predicate BoughtAbove(w: Tables, o: Order, threshold: int, among: Option<Category>) {
    exists q :: q in w.products && BoughtOne(w, o, q) && q.unitPrice > threshold
      && (among.Some? ==> q.category == among.value)
  }

  /** The order is on its way, or delivered, as its shipment says. */
  predicate Sent(w: Tables, o: Order, status: ShipStatus, received: Option<bool>) {
    exists s :: s in w.shipments && s.orderId == o.id && s.status == status && s.received == received
      && s.shippedAt == Some(o.createdAt + DAY) && s.deliveredAt == o.actualDelivery
      && s.estimatedDelivery == o.estimatedDelivery
  }

  predicate FailedTwice(w: Tables, o: Order, payMethod: string, allowed: seq<string>)
    requires allowed != []
  {
    exists p, q :: p in w.payments && q in w.payments && p.id != q.id && p.orderId == o.id == q.orderId
      && p.status == PayFailed == q.status && p.createdAt == o.createdAt - 2 * HOUR == q.createdAt
      && p.payMethod == q.payMethod == if payMethod in allowed then payMethod else allowed[0]
  }

  /** A return of the order and the refund on it. */
  predicate Refunded(w: Tables, o: Order, reason: Reason, status: RefundStatus, approval: bool) {
    exists r, x :: r in w.refunds && x in w.returns_ && r.orderId == o.id == x.orderId && r.returnId == Some(x.id)
      && x.customerId == o.customerId && r.reason == reason == x.reason && r.status == status
      && r.requiresHuman == approval && r.amount == o.total
      && x.status == (if status == RefundDenied then ReturnRejected else ReturnRequested)
      && x.inspection == if reason == DefectiveProduct then InspectionPending else InspectionNotRequired
  }

  predicate Aged(o: Order, status: OrderStatus, now: Time, days: int) {
    o.status == status && o.createdAt == now - days * DAY
  }

  /** Delivered so many days ago; never in the future, which is moved to yesterday. */
  predicate DeliveredAgo(o: Order, now: Time, days: int) {
    o.actualDelivery == Some(if days >= 0 then now - days * DAY else now - DAY)
  }

  /** A delivered order of a certain age, with a shipment that says so. */
  predicate Arrived(w: Tables, o: Order, now: Time, age: int, ago: int, received: bool) {
    Aged(o, Delivered, now, age) && DeliveredAgo(o, now, ago) && Sent(w, o, ShipDelivered, Some(received))
  }

  /** A shipped order on its way, expected so many days after it was placed. */
  predicate Underway(w: Tables, o: Order, now: Time, age: int, eta: int) {
    Aged(o, Shipped, now, age) && o.actualDelivery.None? && o.estimatedDelivery == o.createdAt + eta * DAY
    && Sent(w, o, ShipInTransit, None)
  }

  predicate IsGolden(w: Tables, customerId: Id) { exists c :: c in w.customers && c.id == customerId && c.tier == Gold }

  /** Forty days ago the customer bought one accessory and got it. */
  predicate OnceCheap(w: Tables, customerId: Id, now: Time) {
    exists a :: a in w.orders && a.customerId == customerId && Arrived(w, a, now, 40, 34, true)
      && Bought(w, a, Accessories, None)
  }

  /** Three days ago they ordered another, and two cards failed. */
  predicate StillPending(w: Tables, customerId: Id, now: Time, allowed: seq<string>)
    requires allowed != []
  {
    exists b :: b in w.orders && b.customerId == customerId && Aged(b, Pending, now, 3)
      && Bought(w, b, Accessories, None) && FailedTwice(w, b, "credit_card", allowed)
  }

  /** What the label of an order promises. */
  predicate Story(w: Tables, set_: Setting, kind: Kind, o: Order) {
    var now, window, allowed := set_.now, set_.company.windowDays, AllowedMethods(set_.company);
    match kind
    case DoublePayment =>
      Arrived(w, o, now, 12, 7, true) && Bought(w, o, Headphones, Some(false)) && PaidCount(w.payments, o.id) >= 2
    case DelayedShipment => Underway(w, o, now, 20, 5) && Bought(w, o, Accessories, None)
    case DeliveredMissing => Arrived(w, o, now, 8, 4, false) && Bought(w, o, Keyboards, None)
    case RefundOutsideWindow =>
      Arrived(w, o, now, 20 + window, 15 + window, true) && Bought(w, o, Accessories, Some(false))
      && Refunded(w, o, CustomerPreference, RefundDenied, false)
    case DefectiveWarranty =>
      Arrived(w, o, now, 25 + window, 20 + window, true) && Bought(w, o, Laptops, Some(false))
      && Refunded(w, o, DefectiveProduct, RefundRequested, o.total > 100000)
    case HighValueRefund =>
      Arrived(w, o, now, 10, 6, true) && BoughtAbove(w, o, set_.company.threshold, Some(Laptops))
      && Refunded(w, o, CustomerPreference, RefundPendingApproval, true)
    case CancelAfterShip => Underway(w, o, now, 3, 7) && Bought(w, o, Monitors, None)
    case FraudRisk =>
      Aged(o, Paid, now, 1) && BoughtAbove(w, o, set_.company.threshold, None) && FailedTwice(w, o, "pix", allowed)
      && OnceCheap(w, o.customerId, now) && StillPending(w, o.customerId, now, allowed)
    case FinalSale =>
      Arrived(w, o, now, 8, 5, true) && Bought(w, o, Accessories, Some(true))
      && Refunded(w, o, CustomerPreference, RefundDenied, false)
    case GoldTier =>
      Arrived(w, o, now, 6 + window, 1 + window, true) && Bought(w, o, Headphones, Some(false))
      && IsGolden(w, o.customerId)
    case FailedPayment =>
      Aged(o, Pending, now, 2) && Bought(w, o, Headphones, Some(false)) && FailedTwice(w, o, "credit_card", allowed)
    case HappyPath => Underway(w, o, now, 1, 6) && Bought(w, o, Monitors, Some(false))
    case NegativeSecurity => true
  }

  /** A label sits on an order of its customer that fits it; a security utterance on a double payment's. */
  predicate Means(w: Tables, set_: Setting, sc: Scenario) {
    && (exists o :: o in w.orders && sc.orderId == Some(o.id) && sc.customerId == o.customerId
                    && Story(w, set_, sc.kind, o))
    && (sc.kind == NegativeSecurity ==>
          exists d :: d in w.scenarios && d.kind == DoublePayment && d.customerId == sc.customerId
                      && d.orderId == sc.orderId)
  }

  predicate AllMeant(w: Tables, set_: Setting) { forall sc :: sc in w.scenarios ==> Means(w, set_, sc) }

  // ---------- labels stay true as the world grows ----------

  predicate AllGrown(a: Tables, b: Tables) {
    && a.products == b.products && a.customers <= b.customers && a.orders <= b.orders && a.items <= b.items
    && a.payments <= b.payments && a.shipments <= b.shipments && a.returns_ <= b.returns_ && a.refunds <= b.refunds
    && a.scenarios <= b.scenarios
  }

  lemma AllGrownTrans(a: Tables, b: Tables, c: Tables)
    requires AllGrown(a, b) && AllGrown(b, c)
    ensures AllGrown(a, c)
  {
  }

  lemma {:induction false} PaidGrows(a: seq<Payment>, b: seq<Payment>, id: Id)
    requires a <= b
    ensures PaidCount(a, id) <= PaidCount(b, id)
    decreases |b|
  {
    if |a| < |b| {
      assert a <= b[..|b| - 1];
      PaidGrows(a, b[..|b| - 1], id);
    } else {
      assert a == b;
    }
  }

  lemma OneGrows(a: Tables, b: Tables, o: Order, q: Product)
    requires AllGrown(a, b) && BoughtOne(a, o, q)
    ensures BoughtOne(b, o, q)
  {
    var i :| i in a.items && i.orderId == o.id && i.productId == q.id && i.quantity == 1;
    assert i in b.items;
  }

  lemma BoughtGrows(a: Tables, b: Tables, o: Order, category: Category, finalSale: Option<bool>)
    requires AllGrown(a, b) && Bought(a, o, category, finalSale)
    ensures Bought(b, o, category, finalSale)
  {
    hide BoughtOne;
    var q :| q in a.products && BoughtOne(a, o, q) && q.category == category
             && (finalSale.Some? ==> q.finalSale == finalSale.value);
    OneGrows(a, b, o, q);
  }

  lemma AboveGrows(a: Tables, b: Tables, o: Order, threshold: int, among: Option<Category>)
    requires AllGrown(a, b) && BoughtAbove(a, o, threshold, among)
    ensures BoughtAbove(b, o, threshold, among)
  {
    hide BoughtOne;
    var q :| q in a.products && BoughtOne(a, o, q) && q.unitPrice > threshold
             && (among.Some? ==> q.category == among.value);
    OneGrows(a, b, o, q);
  }

  lemma SentGrows(a: Tables, b: Tables, o: Order, status: ShipStatus, received: Option<bool>)
    requires AllGrown(a, b) && Sent(a, o, status, received)
    ensures Sent(b, o, status, received)
  {
    var s :| s in a.shipments && s.orderId == o.id && s.status == status && s.received == received
             && s.shippedAt == Some(o.createdAt + DAY) && s.deliveredAt == o.actualDelivery
             && s.estimatedDelivery == o.estimatedDelivery;
    assert s in b.shipments;
  }

  lemma FailedGrows(a: Tables, b: Tables, o: Order, m: string, allowed: seq<string>)
    requires allowed != [] && AllGrown(a, b) && FailedTwice(a, o, m, allowed)
    ensures FailedTwice(b, o, m, allowed)
  {
    var p, q :| p in a.payments && q in a.payments && p.id != q.id && p.orderId == o.id == q.orderId
      && p.status == PayFailed == q.status && p.createdAt == o.createdAt - 2 * HOUR == q.createdAt
      && p.payMethod == q.payMethod == if m in allowed then m else allowed[0];
    assert p in b.payments && q in b.payments;
  }

  lemma RefundedGrows(a: Tables, b: Tables, o: Order, reason: Reason, status: RefundStatus, approval: bool)
    requires AllGrown(a, b) && Refunded(a, o, reason, status, approval)
    ensures Refunded(b, o, reason, status, approval)
  {
    var r, x :| r in a.refunds && x in a.returns_ && r.orderId == o.id == x.orderId && r.returnId == Some(x.id)
      && x.customerId == o.customerId && r.reason == reason == x.reason && r.status == status
      && r.requiresHuman == approval && r.amount == o.total
      && x.status == (if status == RefundDenied then ReturnRejected else ReturnRequested)
      && x.inspection == if reason == DefectiveProduct then InspectionPending else InspectionNotRequired;
    assert r in b.refunds && x in b.returns_;
  }
  lemma ArrivedGrows(a: Tables, b: Tables, o: Order, now: Time, age: int, ago: int, received: bool)
    requires AllGrown(a, b) && Arrived(a, o, now, age, ago, received)
    ensures Arrived(b, o, now, age, ago, received)
  {
    hide AllGrown, Sent;
    SentGrows(a, b, o, ShipDelivered, Some(received));
  }

  lemma UnderwayGrows(a: Tables, b: Tables, o: Order, now: Time, age: int, eta: int)
    requires AllGrown(a, b) && Underway(a, o, now, age, eta)
    ensures Underway(b, o, now, age, eta)
  {
    hide AllGrown, Sent;
    SentGrows(a, b, o, ShipInTransit, None);
  }

  lemma CheapGrows(a: Tables, b: Tables, customerId: Id, now: Time)
    requires AllGrown(a, b) && OnceCheap(a, customerId, now)
    ensures OnceCheap(b, customerId, now)
  {
    hide Arrived, Bought;
    var x :| x in a.orders && x.customerId == customerId && Arrived(a, x, now, 40, 34, true)
             && Bought(a, x, Accessories, None);
    assert x in b.orders;
    ArrivedGrows(a, b, x, now, 40, 34, true);
    BoughtGrows(a, b, x, Accessories, None);
  }

  lemma PendingGrows(a: Tables, b: Tables, customerId: Id, now: Time, allowed: seq<string>)
    requires allowed != [] && AllGrown(a, b) && StillPending(a, customerId, now, allowed)
    ensures StillPending(b, customerId, now, allowed)
  {
    hide Aged, Bought, FailedTwice;
    var y :| y in a.orders && y.customerId == customerId && Aged(y, Pending, now, 3) && Bought(a, y, Accessories, None)
             && FailedTwice(a, y, "credit_card", allowed);
    assert y in b.orders;
    BoughtGrows(a, b, y, Accessories, None);
    FailedGrows(a, b, y, "credit_card", allowed);
  }

  lemma GoldGrows(a: Tables, b: Tables, id: Id)
    requires AllGrown(a, b) && IsGolden(a, id)
    ensures IsGolden(b, id)
  {
    var c :| c in a.customers && c.id == id && c.tier == Gold;
    assert c in b.customers;
  }

  lemma PaidTwiceGrows(a: Tables, b: Tables, id: Id)
    requires AllGrown(a, b)
    ensures PaidCount(a.payments, id) <= PaidCount(b.payments, id)
  {
    PaidGrows(a.payments, b.payments, id);
  }

  lemma StoryGrows(a: Tables, b: Tables, set_: Setting, kind: Kind, o: Order)
    requires AllGrown(a, b) && Story(a, set_, kind, o)
    ensures Story(b, set_, kind, o)
  {
    hide AllGrown, Arrived, Underway, Bought, BoughtAbove, FailedTwice, Refunded, Aged, PaidCount, IsGolden, OnceCheap;
    hide StillPending, AllowedMethods;
    var now, window, allowed := set_.now, set_.company.windowDays, AllowedMethods(set_.company);
    match kind
    case DoublePayment =>
      ArrivedGrows(a, b, o, now, 12, 7, true);
      BoughtGrows(a, b, o, Headphones, Some(false));
      PaidTwiceGrows(a, b, o.id);
    case DelayedShipment => UnderwayGrows(a, b, o, now, 20, 5); BoughtGrows(a, b, o, Accessories, None);
    case DeliveredMissing => ArrivedGrows(a, b, o, now, 8, 4, false); BoughtGrows(a, b, o, Keyboards, None);
    case RefundOutsideWindow =>
      ArrivedGrows(a, b, o, now, 20 + window, 15 + window, true);
      BoughtGrows(a, b, o, Accessories, Some(false));
      RefundedGrows(a, b, o, CustomerPreference, RefundDenied, false);
    case DefectiveWarranty =>
      ArrivedGrows(a, b, o, now, 25 + window, 20 + window, true);
      BoughtGrows(a, b, o, Laptops, Some(false));
      RefundedGrows(a, b, o, DefectiveProduct, RefundRequested, o.total > 100000);
    case HighValueRefund =>
      ArrivedGrows(a, b, o, now, 10, 6, true);
      AboveGrows(a, b, o, set_.company.threshold, Some(Laptops));
      RefundedGrows(a, b, o, CustomerPreference, RefundPendingApproval, true);
    case CancelAfterShip => UnderwayGrows(a, b, o, now, 3, 7); BoughtGrows(a, b, o, Monitors, None);
    case FraudRisk =>
      AboveGrows(a, b, o, set_.company.threshold, None);
      FailedGrows(a, b, o, "pix", allowed);
      CheapGrows(a, b, o.customerId, now);
      PendingGrows(a, b, o.customerId, now, allowed);
    case FinalSale =>
      ArrivedGrows(a, b, o, now, 8, 5, true);
      BoughtGrows(a, b, o, Accessories, Some(true));
      RefundedGrows(a, b, o, CustomerPreference, RefundDenied, false);
    case GoldTier =>
      ArrivedGrows(a, b, o, now, 6 + window, 1 + window, true);
      BoughtGrows(a, b, o, Headphones, Some(false));
      GoldGrows(a, b, o.customerId);
    case FailedPayment =>
      BoughtGrows(a, b, o, Headphones, Some(false));
      FailedGrows(a, b, o, "credit_card", allowed);
    case HappyPath => UnderwayGrows(a, b, o, now, 1, 6); BoughtGrows(a, b, o, Monitors, Some(false));
    case NegativeSecurity =>
  }

  lemma MeansGrows(a: Tables, b: Tables, set_: Setting, sc: Scenario)
    requires AllGrown(a, b) && Means(a, set_, sc)
    ensures Means(b, set_, sc)
  {
    hide Story;
    var o :| o in a.orders && sc.orderId == Some(o.id) && sc.customerId == o.customerId && Story(a, set_, sc.kind, o);
    StoryGrows(a, b, set_, sc.kind, o);
    assert o in b.orders;
    if sc.kind == NegativeSecurity {
      var d :| d in a.scenarios && d.kind == DoublePayment && d.customerId == sc.customerId && d.orderId == sc.orderId;
      assert d in b.scenarios;
    }
  }

  lemma AllMeantGrows(a: Tables, b: Tables, set_: Setting)
    requires AllGrown(a, b) && AllMeant(a, set_) && b.scenarios == a.scenarios
    ensures AllMeant(b, set_)
  {
    hide AllGrown, Means;
    forall sc | sc in b.scenarios ensures Means(b, set_, sc) { MeansGrows(a, b, set_, sc); }
  }

  lemma OneMoreMeant(a: Tables, b: Tables, set_: Setting, sc: Scenario)
    requires AllGrown(a, b) && AllMeant(a, set_) && b.scenarios == a.scenarios + [sc] && Means(b, set_, sc)
    ensures AllMeant(b, set_)
  {
    hide AllGrown, Means;
    forall x | x in b.scenarios ensures Means(b, set_, x) {
      if x in a.scenarios { MeansGrows(a, b, set_, x); }
    }
  }

  // ---------- one order of a recipe ----------

  predicate Has(products: seq<Product>, category: Category, finalSale: Option<bool>) {
    exists q :: q in products && q.category == category && (finalSale.Some? ==> q.finalSale == finalSale.value)
  }

  /** What the recipe's product lookup promises. */
  predicate Picked(w: Tables, o: Order, threshold: int, pick: Pick) {
    match pick
    case ByCategory(category, finalSale) => Has(w.products, category, finalSale) ==> Bought(w, o, category, finalSale)
    case AboveThreshold(among) => BoughtAbove(w, o, threshold, among)
  }

  function AgeOf(q: OrderRecipe, set_: Setting): int { q.age + if q.windowed then set_.company.windowDays else 0 }

  function ReceivedOf(q: OrderRecipe): Option<bool> {
    if ShipStatusFor(q.status, q.ship) == Some(ShipDelivered) && q.received.None? then Some(true) else q.received
  }

  /** An order as its recipe describes it. */
  predicate Follows(w: Tables, o: Order, q: OrderRecipe, set_: Setting) {
    var ship := ShipStatusFor(q.status, q.ship);
    && o in w.orders && Aged(o, q.status, set_.now, AgeOf(q, set_)) && Picked(w, o, set_.company.threshold, q.pick)
    && (q.etaDays.Some? && q.etaDays.value != 0 ==> o.estimatedDelivery == o.createdAt + q.etaDays.value * DAY)
    && (ship == Some(ShipDelivered) && q.deliveredDays.Some? && q.deliveredDays.value != 0 ==>
          DeliveredAgo(o, set_.now, AgeOf(q, set_) - q.deliveredDays.value))
    && (ship != Some(ShipDelivered) ==> o.actualDelivery.None?)
    && (ship.Some? && ship.value != ShipProcessing ==> Sent(w, o, ship.value, ReceivedOf(q)))
    && (q.failed == 2 && q.payMethod.Some? && q.payMethod.value != "" ==>
          FailedTwice(w, o, q.payMethod.value, AllowedMethods(set_.company)))
  }

  lemma {:induction false} FoundOk(products: seq<Product>, ok: Product -> bool)
    ensures (exists q :: q in products && ok(q)) ==> FindProduct(products, ok).Some?
    ensures var f := FindProduct(products, ok); f.Some? ==> f.value in products && ok(f.value)
  {
    if products != [] { FoundOk(products[1..], ok); }
  }

  lemma PickFits(products: seq<Product>, threshold: int, pick: Pick)
    requires PickProduct(products, threshold, pick).Some?
    ensures var q := PickProduct(products, threshold, pick).value;
            q in products
            && match pick
               case ByCategory(category, finalSale) =>
                 Has(products, category, finalSale) ==>
                   q.category == category && (finalSale.Some? ==> q.finalSale == finalSale.value)
               case AboveThreshold(among) =>
                 q.unitPrice > threshold && (among.Some? ==> q.category == among.value)
  {
    match pick
    case ByCategory(category, finalSale) =>
      FoundOk(products, (q: Product) => q.category == category
                                        && (finalSale.None? || q.finalSale == finalSale.value));
    case AboveThreshold(among) =>
      FoundOk(products, (q: Product) => q.unitPrice > threshold && (among.None? || q.category == among.value));
  }

  lemma {:induction false} FailedRows(n: nat, orderId: Id, number: int, amount: int, m: string, at: Time, d: Draws)
    ensures var f := FailedPayments(n, orderId, number, amount, m, at, d).value;
            && |f| == n
            && (forall i :: 0 <= i < n ==> f[i].id == d.pos + 2 * i && f[i].orderId == orderId && f[i].status == PayFailed
                                           && f[i].createdAt == at && f[i].payMethod == m && f[i].amount == amount)
    decreases n
  {
    if n > 0 { FailedRows(n - 1, orderId, number + 1, amount, m, at, d.Next().Next()); }
  }

  /** The rows a bundle brings, in the terms of its plan. */
  lemma BundleSettles(s: Sim, set_: Setting, customerId: Id, product: Product, p: Plan)
    ensures var b := MakeBundle(s, set_, customerId, product, p).value;
            var o, i, ship := b.order, b.item, ShipStatusFor(p.status, p.ship);
            && o.customerId == customerId && o.status == p.status && o.createdAt == p.createdAt
            && o.currency == set_.company.currency && o.total == product.unitPrice * p.quantity
            && i.orderId == o.id && i.productId == product.id && i.quantity == p.quantity
            && i.unitPrice == product.unitPrice && i.lineTotal == o.total
            && (p.etaDays.Some? && p.etaDays.value != 0 ==> o.estimatedDelivery == o.createdAt + p.etaDays.value * DAY)
            && (p.etaDays.None? || p.etaDays.value == 0 ==>
                  o.createdAt + 3 * DAY <= o.estimatedDelivery <= o.createdAt + 12 * DAY)
            && (ship == Some(ShipDelivered) && p.deliveredDays.Some? && p.deliveredDays.value != 0 ==>
                  var at := o.createdAt + p.deliveredDays.value * DAY;
                  o.actualDelivery == Some(if at > set_.now then set_.now - DAY else at))
            && (ship == Some(ShipDelivered) && p.deliveredDays.None? ==>
                  o.actualDelivery == Some(set_.now - DAY)
                  || (o.actualDelivery.Some?
                      && o.createdAt + 4 * DAY <= o.actualDelivery.value <= o.createdAt + 10 * DAY))
            && (ship != Some(ShipDelivered) ==> o.actualDelivery.None?)
            && (b.shipment.Some? <==> ship.Some?)
            && (ship.Some? ==>
                  var h := b.shipment.value;
                  && h.orderId == o.id && h.status == ship.value && h.deliveredAt == o.actualDelivery
                  && h.estimatedDelivery == o.estimatedDelivery
                  && (ship.value != ShipProcessing ==> h.shippedAt == Some(o.createdAt + DAY))
                  && h.received == if ship.value == ShipDelivered && p.received.None? then Some(true) else p.received)
            && (p.payMethod.Some? && p.payMethod.value != "" ==>
                  var m := p.payMethod.value;
                  var allowed := AllowedMethods(set_.company);
                  |b.payments| >= p.failed
                  && forall k :: 0 <= k < |b.payments| && k <= p.failed ==>
                       b.payments[k].payMethod == if m in allowed then m else allowed[0])
  {
    BundleInSteps(s, set_, customerId, product, p);
    var h := HeadOf(s, set_, customerId, product, p);
    FailedRows(p.failed, h.order.id, |s.w.payments| + 1, h.order.total, h.terms.payMethod, h.order.createdAt - 2 * HOUR,
               h.draws);
    hide MakeBundle, FailedPayments, Draws.Random, FractionBelow, Draws.RandInt, Draws.Index, AllowedMethods;
  }
  /** Two rows of failed payments lead a bundle that has them. */
  lemma FailedFirst(s: Sim, set_: Setting, customerId: Id, product: Product, p: Plan)
    requires p.failed == 2 && p.payMethod.Some? && p.payMethod.value != ""
    ensures var b, allowed := MakeBundle(s, set_, customerId, product, p).value, AllowedMethods(set_.company);
            FailedTwice(AppendBundle(s.w, b), b.order, p.payMethod.value, allowed)
  {
    BundleInSteps(s, set_, customerId, product, p);
    var h := HeadOf(s, set_, customerId, product, p);
    FailedRows(2, h.order.id, |s.w.payments| + 1, h.order.total, h.terms.payMethod, h.order.createdAt - 2 * HOUR, h.draws);
    var b := MakeBundle(s, set_, customerId, product, p).value;
    var w := AppendBundle(s.w, b);
    var m, n := p.payMethod.value, |s.w.payments|;
    assert h.terms.payMethod == if m in AllowedMethods(set_.company) then m else AllowedMethods(set_.company)[0];
    hide MakeBundle, FailedPayments, MainPayments, HeadOf, AllowedMethods;
    assert w.payments[n] == b.payments[0] && w.payments[n + 1] == b.payments[1];
    assert b.payments[0] in w.payments && b.payments[1] in w.payments;
  }

  lemma BundlePicked(w: Tables, b: Bundle, q: Product, threshold: int, pick: Pick)
    requires q in w.products && b.item.orderId == b.order.id && b.item.productId == q.id && b.item.quantity == 1
    requires b.order.total == q.unitPrice
    requires match pick
             case ByCategory(category, finalSale) =>
               Has(w.products, category, finalSale) ==>
                 q.category == category && (finalSale.Some? ==> q.finalSale == finalSale.value)
             case AboveThreshold(among) =>
               q.unitPrice > threshold && (among.Some? ==> q.category == among.value)
    ensures Picked(AppendBundle(w, b), b.order, threshold, pick)
  {
    hide Has;
    var v := AppendBundle(w, b);
    assert v.items[|w.items|] == b.item;
    assert BoughtOne(v, b.order, q);
    hide BoughtOne;
  }

  lemma RunOrderFollows(s: Sim, set_: Setting, customerId: Id, q: OrderRecipe)
    requires RunOrder(s, set_, customerId, q).Some?
    ensures var (t, o) := RunOrder(s, set_, customerId, q).value;
            && Follows(t.w, o, q, set_) && AllGrown(s.w, t.w) && o.customerId == customerId
            && t.w.scenarios == s.w.scenarios && t.w.customers == s.w.customers
  {
    hide PickProduct, MakeBundle, FailedTwice, Has, AllowedMethods;
    var product, p := PickProduct(s.w.products, set_.company.threshold, q.pick).value, PlanOf(q, set_);
    PickFits(s.w.products, set_.company.threshold, q.pick);
    BundleSettles(s, set_, customerId, product, p);
    var b := MakeBundle(s, set_, customerId, product, p).value;
    if q.failed == 2 && q.payMethod.Some? && q.payMethod.value != "" { FailedFirst(s, set_, customerId, product, p); }
    var w := AppendBundle(s.w, b);
    assert w.orders[|s.w.orders|] == b.order;
    BundlePicked(s.w, b, product, set_.company.threshold, q.pick);
    hide Picked;
    if b.shipment.Some? { assert w.shipments[|s.w.shipments|] == b.shipment.value; }
  }

  lemma PickedGrows(a: Tables, b: Tables, o: Order, threshold: int, pick: Pick)
    requires AllGrown(a, b) && Picked(a, o, threshold, pick)
    ensures Picked(b, o, threshold, pick)
  {
    assert a.products == b.products;
    hide AllGrown, Bought, BoughtAbove, Has;
    match pick
    case ByCategory(category, finalSale) =>
      if Has(a.products, category, finalSale) { BoughtGrows(a, b, o, category, finalSale); }
    case AboveThreshold(among) => AboveGrows(a, b, o, threshold, among);
  }

  lemma FollowsGrows(a: Tables, b: Tables, o: Order, q: OrderRecipe, set_: Setting)
    requires AllGrown(a, b) && Follows(a, o, q, set_)
    ensures Follows(b, o, q, set_)
  {
    assert o in b.orders;
    hide AllGrown, Picked, Sent, FailedTwice, Aged, DeliveredAgo, AllowedMethods;
    PickedGrows(a, b, o, set_.company.threshold, q.pick);
    var ship := ShipStatusFor(q.status, q.ship);
    if ship.Some? && ship.value != ShipProcessing { SentGrows(a, b, o, ship.value, ReceivedOf(q)); }
    if q.failed == 2 && q.payMethod.Some? && q.payMethod.value != "" {
      FailedGrows(a, b, o, q.payMethod.value, AllowedMethods(set_.company));
    }
  }

  /** Every order of a scenario follows its recipe, the last one being the scenario's. */
  predicate AllFollow(w: Tables, qs: seq<OrderRecipe>, set_: Setting, customerId: Id) {
    forall q :: q in qs ==> exists o :: o in w.orders && o.customerId == customerId && Follows(w, o, q, set_)
  }

  lemma AllFollowGrows(a: Tables, b: Tables, qs: seq<OrderRecipe>, set_: Setting, customerId: Id)
    requires AllGrown(a, b) && AllFollow(a, qs, set_, customerId)
    ensures AllFollow(b, qs, set_, customerId)
  {
    hide Follows;
    forall q | q in qs ensures exists o :: o in b.orders && o.customerId == customerId && Follows(b, o, q, set_) {
      var o :| o in a.orders && o.customerId == customerId && Follows(a, o, q, set_);
      FollowsGrows(a, b, o, q, set_);
      assert o in b.orders;
    }
  }

  lemma {:induction false} RunOrdersFollow(s: Sim, set_: Setting, customerId: Id, first: OrderRecipe,
                                           more: seq<OrderRecipe>)
    requires RunOrders(s, set_, customerId, first, more).Some?
    ensures var (t, o) := RunOrders(s, set_, customerId, first, more).value;
            && AllGrown(s.w, t.w) && o in t.w.orders && o.customerId == customerId
            && t.w.scenarios == s.w.scenarios && t.w.customers == s.w.customers
            && AllFollow(t.w, [first] + more, set_, customerId)
            && Follows(t.w, o, if more == [] then first else more[|more| - 1], set_)
    decreases |more|
  {
    hide RunOrder, AllGrown;
    RunOrderFollows(s, set_, customerId, first);
    var (s1, o1) := RunOrder(s, set_, customerId, first).value;
    OrderIn(s1.w, o1, first, set_);
    if more != [] {
      RunOrdersFollow(s1, set_, customerId, more[0], more[1..]);
      var (t, o) := RunOrders(s, set_, customerId, first, more).value;
      AllGrownTrans(s.w, s1.w, t.w);
      FollowsGrows(s1.w, t.w, o1, first, set_);
      OrderIn(t.w, o1, first, set_);
      assert [more[0]] + more[1..] == more;
      hide Follows;
      assert forall q :: q in [first] + more ==> q == first || q in more;
    } else {
      hide Follows;
      assert forall q :: q in [first] + more ==> q == first;
    }
  }

  lemma OrderIn(w: Tables, o: Order, q: OrderRecipe, set_: Setting)
    requires Follows(w, o, q, set_)
    ensures o in w.orders
  {
  }
  // ---------- from recipes to labels ----------

  /** The catalog has what the builders look for. */
  predicate FullStock(products: seq<Product>) {
    && Has(products, Headphones, Some(false)) && Has(products, Accessories, None) && Has(products, Accessories, Some(false))
    && Has(products, Accessories, Some(true)) && Has(products, Keyboards, None) && Has(products, Laptops, Some(false))
    && Has(products, Monitors, None) && Has(products, Monitors, Some(false))
  }

  predicate RefundTold(w: Tables, o: Order, r: Option<RefundRecipe>) {
    r.Some? ==> Refunded(w, o, r.value.reason, r.value.status, NeedsApproval(r.value.approval, o.total))
  }

  lemma ShippedStories(w: Tables, set_: Setting, o: Order)
    requires FullStock(w.products)
    ensures Follows(w, o, DELAYED_SHIPMENT.first, set_) ==> Story(w, set_, DelayedShipment, o)
    ensures Follows(w, o, CANCEL_AFTER_SHIP.first, set_) ==> Story(w, set_, CancelAfterShip, o)
    ensures Follows(w, o, HAPPY_PATH.first, set_) ==> Story(w, set_, HappyPath, o)
  {
    hide Has, Bought, Sent;
  }

  lemma ArrivedStories(w: Tables, set_: Setting, o: Order)
    requires FullStock(w.products)
    ensures Follows(w, o, DOUBLE_PAYMENT.first, set_) && PaidCount(w.payments, o.id) >= 2 ==>
              Story(w, set_, DoublePayment, o)
    ensures Follows(w, o, DELIVERED_MISSING.first, set_) ==> Story(w, set_, DeliveredMissing, o)
    ensures Follows(w, o, GOLD_TIER.first, set_) && IsGolden(w, o.customerId) ==> Story(w, set_, GoldTier, o)
    ensures Follows(w, o, FAILED_PAYMENT.first, set_) ==> Story(w, set_, FailedPayment, o)
  {
    hide Has, Bought, Sent, FailedTwice, PaidCount, AllowedMethods;
  }

  lemma RefundedStories(w: Tables, set_: Setting, o: Order)
    requires FullStock(w.products)
    ensures Follows(w, o, REFUND_OUTSIDE_WINDOW.first, set_) && RefundTold(w, o, REFUND_OUTSIDE_WINDOW.refund) ==>
              Story(w, set_, RefundOutsideWindow, o)
    ensures Follows(w, o, DEFECTIVE_WARRANTY.first, set_) && RefundTold(w, o, DEFECTIVE_WARRANTY.refund) ==>
              Story(w, set_, DefectiveWarranty, o)
    ensures Follows(w, o, HIGH_VALUE_REFUND.first, set_) && RefundTold(w, o, HIGH_VALUE_REFUND.refund) ==>
              Story(w, set_, HighValueRefund, o)
    ensures Follows(w, o, FINAL_SALE.first, set_) && RefundTold(w, o, FINAL_SALE.refund) ==> Story(w, set_, FinalSale, o)
  {
    hide Has, Bought, BoughtAbove, Sent, Refunded;
  }

  lemma FraudStory(w: Tables, set_: Setting, o: Order)
    requires FullStock(w.products) && |FRAUD_RISK.more| == 2 && Follows(w, o, FRAUD_RISK.more[1], set_)
    requires AllFollow(w, [FRAUD_RISK.first] + FRAUD_RISK.more, set_, o.customerId)
    ensures Story(w, set_, FraudRisk, o)
  {
    var qs := [FRAUD_RISK.first] + FRAUD_RISK.more;
    assert qs[0] in qs && qs[1] in qs && qs[1] == FRAUD_RISK.more[0];
    hide *;
    var a := Follower(w, qs, qs[0], set_, o.customerId);
    var b := Follower(w, qs, qs[1], set_, o.customerId);
    FraudFirst(w, set_, a);
    FraudSecond(w, set_, b);
    FraudThird(w, set_, o);
    FraudWhen(w, set_, o, a, b);
  }

  lemma FraudWhen(w: Tables, set_: Setting, o: Order, a: Order, b: Order)
    requires Aged(o, Paid, set_.now, 1) && BoughtAbove(w, o, set_.company.threshold, None)
    requires FailedTwice(w, o, "pix", AllowedMethods(set_.company))
    requires a in w.orders && b in w.orders && a.customerId == o.customerId == b.customerId
    requires Arrived(w, a, set_.now, 40, 34, true) && Bought(w, a, Accessories, None)
    requires Aged(b, Pending, set_.now, 3) && Bought(w, b, Accessories, None)
    requires FailedTwice(w, b, "credit_card", AllowedMethods(set_.company))
    ensures Story(w, set_, FraudRisk, o)
  {
    hide Aged, BoughtAbove, FailedTwice, Arrived, Bought, AllowedMethods;
  }

  lemma Follower(w: Tables, qs: seq<OrderRecipe>, q: OrderRecipe, set_: Setting, customerId: Id) returns (o: Order)
    requires AllFollow(w, qs, set_, customerId) && q in qs
    ensures o in w.orders && o.customerId == customerId && Follows(w, o, q, set_)
  {
    hide Follows;
    o :| o in w.orders && o.customerId == customerId && Follows(w, o, q, set_);
  }

  lemma FraudFirst(w: Tables, set_: Setting, a: Order)
    requires FullStock(w.products) && Follows(w, a, FRAUD_RISK.first, set_)
    ensures Arrived(w, a, set_.now, 40, 34, true) && Bought(w, a, Accessories, None)
  {
    hide Has, Bought, Sent;
  }

  lemma FraudSecond(w: Tables, set_: Setting, b: Order)
    requires FullStock(w.products) && |FRAUD_RISK.more| == 2 && Follows(w, b, FRAUD_RISK.more[0], set_)
    ensures Aged(b, Pending, set_.now, 3) && Bought(w, b, Accessories, None)
    ensures FailedTwice(w, b, "credit_card", AllowedMethods(set_.company))
  {
    hide Has, Bought, Sent, FailedTwice, AllowedMethods;
  }

  lemma FraudThird(w: Tables, set_: Setting, o: Order)
    requires |FRAUD_RISK.more| == 2 && Follows(w, o, FRAUD_RISK.more[1], set_)
    ensures Aged(o, Paid, set_.now, 1) && BoughtAbove(w, o, set_.company.threshold, None)
    ensures FailedTwice(w, o, "pix", AllowedMethods(set_.company))
  {
    hide Has, BoughtAbove, Sent, FailedTwice, AllowedMethods;
  }

  /** The recipes there are, by what becomes of the order. */
  predicate IsShippedRecipe(r: Recipe) { r in {DELAYED_SHIPMENT, CANCEL_AFTER_SHIP, HAPPY_PATH} }

  predicate IsArrivedRecipe(r: Recipe) { r in {DOUBLE_PAYMENT, DELIVERED_MISSING, GOLD_TIER, FAILED_PAYMENT} }

  predicate IsRefundedRecipe(r: Recipe) {
    r in {REFUND_OUTSIDE_WINDOW, DEFECTIVE_WARRANTY, HIGH_VALUE_REFUND, FINAL_SALE}
  }

  predicate IsRecipe(r: Recipe) { IsShippedRecipe(r) || IsArrivedRecipe(r) || IsRefundedRecipe(r) || r == FRAUD_RISK }

  lemma KindsAre()
    ensures DOUBLE_PAYMENT.kind == DoublePayment && DELAYED_SHIPMENT.kind == DelayedShipment
    ensures DELIVERED_MISSING.kind == DeliveredMissing && REFUND_OUTSIDE_WINDOW.kind == RefundOutsideWindow
    ensures DEFECTIVE_WARRANTY.kind == DefectiveWarranty && HIGH_VALUE_REFUND.kind == HighValueRefund
    ensures CANCEL_AFTER_SHIP.kind == CancelAfterShip && FRAUD_RISK.kind == FraudRisk && FINAL_SALE.kind == FinalSale
    ensures GOLD_TIER.kind == GoldTier && FAILED_PAYMENT.kind == FailedPayment && HAPPY_PATH.kind == HappyPath
    ensures |FRAUD_RISK.more| == 2
    ensures DOUBLE_PAYMENT.more == [] == DELAYED_SHIPMENT.more && DELIVERED_MISSING.more == [] == REFUND_OUTSIDE_WINDOW.more
    ensures DEFECTIVE_WARRANTY.more == [] == HIGH_VALUE_REFUND.more && CANCEL_AFTER_SHIP.more == [] == FINAL_SALE.more
    ensures GOLD_TIER.more == [] == FAILED_PAYMENT.more && HAPPY_PATH.more == []
  {
  }

  lemma ShippedTells(w: Tables, set_: Setting, r: Recipe, o: Order)
    requires IsShippedRecipe(r) && FullStock(w.products) && Follows(w, o, r.first, set_)
    ensures Story(w, set_, r.kind, o)
  {
    KindsAre();
    ShippedStories(w, set_, o);
    hide Follows, Story, FullStock, DELAYED_SHIPMENT, CANCEL_AFTER_SHIP, HAPPY_PATH;
  }

  lemma ArrivedTells(w: Tables, set_: Setting, r: Recipe, o: Order)
    requires IsArrivedRecipe(r) && FullStock(w.products) && Follows(w, o, r.first, set_)
    requires r.kind == DoublePayment ==> PaidCount(w.payments, o.id) >= 2
    requires r.kind == GoldTier ==> IsGolden(w, o.customerId)
    ensures Story(w, set_, r.kind, o)
  {
    KindsAre();
    ArrivedStories(w, set_, o);
    hide Follows, Story, FullStock, PaidCount, IsGolden, DOUBLE_PAYMENT, DELIVERED_MISSING, GOLD_TIER, FAILED_PAYMENT;
  }

  lemma RefundedTells(w: Tables, set_: Setting, r: Recipe, o: Order)
    requires IsRefundedRecipe(r) && FullStock(w.products) && Follows(w, o, r.first, set_) && RefundTold(w, o, r.refund)
    ensures Story(w, set_, r.kind, o)
  {
    KindsAre();
    RefundedStories(w, set_, o);
    hide Follows, Story, FullStock, RefundTold, REFUND_OUTSIDE_WINDOW, DEFECTIVE_WARRANTY, HIGH_VALUE_REFUND, FINAL_SALE;
  }

  lemma SingleRecipes(r: Recipe)
    requires IsRecipe(r)
    ensures r.more == [] <==> r != FRAUD_RISK
    ensures r == FRAUD_RISK ==> r.kind == FraudRisk && |r.more| == 2
    ensures r.kind != NegativeSecurity
  {
    KindsAre();
    hide DOUBLE_PAYMENT, DELAYED_SHIPMENT, DELIVERED_MISSING, REFUND_OUTSIDE_WINDOW, DEFECTIVE_WARRANTY, HIGH_VALUE_REFUND;
    hide CANCEL_AFTER_SHIP, FRAUD_RISK, FINAL_SALE, GOLD_TIER, FAILED_PAYMENT, HAPPY_PATH;
  }

  lemma RecipeTellsStory(w: Tables, set_: Setting, r: Recipe, o: Order)
    requires IsRecipe(r) && FullStock(w.products) && AllFollow(w, [r.first] + r.more, set_, o.customerId)
    requires Follows(w, o, if r.more == [] then r.first else r.more[|r.more| - 1], set_) && RefundTold(w, o, r.refund)
    requires r.kind == DoublePayment ==> PaidCount(w.payments, o.id) >= 2
    requires r.kind == GoldTier ==> IsGolden(w, o.customerId)
    ensures Story(w, set_, r.kind, o)
  {
    SingleRecipes(r);
    hide Follows, AllFollow, Story, RefundTold, FullStock, PaidCount, IsGolden, IsShippedRecipe, IsArrivedRecipe;
    hide IsRefundedRecipe, FRAUD_RISK;
    if r == FRAUD_RISK {
      FraudStory(w, set_, o);
    } else if IsShippedRecipe(r) {
      ShippedTells(w, set_, r, o);
    } else if IsArrivedRecipe(r) {
      ArrivedTells(w, set_, r, o);
    } else {
      RefundedTells(w, set_, r, o);
    }
  }

  // ---------- a whole scenario ----------

  lemma RefundTells(s: Sim, now: Time, o: Order, r: RefundRecipe)
    requires AddRefund(s, now, o, r).Some?
    ensures var t := AddRefund(s, now, o, r).value;
            && AllGrown(s.w, t.w) && Refunded(t.w, o, r.reason, r.status, NeedsApproval(r.approval, o.total))
            && t.w.scenarios == s.w.scenarios && t.w.customers == s.w.customers
  {
    hide FirstPaid, NeedsApproval;
    var w := AddRefund(s, now, o, r).value.w;
    var n, m := |s.w.refunds|, |s.w.returns_|;
    assert w.refunds[n] in w.refunds && w.returns_[m] in w.returns_;
  }

  lemma TicketGrows(s: Sim, now: Time, customerId: Id, orderId: Id)
    ensures var t := AddTicket(s, now, customerId, orderId);
            AllGrown(s.w, t.w) && t.w.scenarios == s.w.scenarios && t.w.customers == s.w.customers
            && t.w.payments == s.w.payments
    ensures var t := AddTicket(s, now, customerId, orderId);
            && |t.w.tickets| == |s.w.tickets| + 1
            && var x := t.w.tickets[|s.w.tickets|];
               x.customerId == customerId && x.orderId == Some(orderId) && now - 48 * HOUR <= x.createdAt <= now - HOUR
  {
  }

  /** The label a scenario run leaves, and the tables below it. */
  lemma RunRecipeMeans(s: Sim, set_: Setting, customerId: Id, r: Recipe, copy: int, ticket: bool)
    requires Sound(s, set_) && RecipeOk(r) && IsRecipe(r) && s.w.products != [] && customerId in CustomerIds(s.w.customers)
    requires FullStock(s.w.products) && AllMeant(s.w, set_) && RunRecipe(s, set_, customerId, r, copy, ticket).Some?
    requires r.kind == GoldTier ==> IsGolden(s.w, customerId)
    ensures var t := RunRecipe(s, set_, customerId, r, copy, ticket).value;
            && AllGrown(s.w, t.w) && AllMeant(t.w, set_) && |t.w.scenarios| == |s.w.scenarios| + 1
            && t.w.scenarios[|s.w.scenarios|].kind == r.kind && t.w.scenarios[|s.w.scenarios|].copy == copy
            && t.w.scenarios[|s.w.scenarios|].customerId == customerId && t.w.customers == s.w.customers
  {
    hide Sound, RunOrders, AddRefund, AddTicket, RecipeOk, IsRecipe, FullStock, AllMeant, AllGrown, AllFollow, Follows, Story;
    hide CustomerIds, RefundTold, PaidCount, Refunded, HasKind, HasLaptopAbove, AllDated, RecipeDated, NeedsApproval;
    RunRecipeSound(s, set_, customerId, r, copy, ticket);
    RunOrdersFollow(s, set_, customerId, r.first, r.more);
    var (s1, o) := RunOrders(s, set_, customerId, r.first, r.more).value;
    if r.refund.Some? { RefundTells(s1, set_.now, o, r.refund.value); } else { GrownSelf(s1.w); }
    var s2 := if r.refund.Some? then AddRefund(s1, set_.now, o, r.refund.value).value else s1;
    ToldWhen(s2.w, o, r.refund);
    TicketGrows(s2, set_.now, customerId, o.id);
    GrownSelf(s2.w);
    var s3 := if ticket then AddTicket(s2, set_.now, customerId, o.id) else s2;
    var sc := Scenario(r.kind, copy, customerId, Some(o.id));
    var t := AddScenario(s3, sc);
    assert t == RunRecipe(s, set_, customerId, r, copy, ticket).value;
    LabelGrows(s3.w, sc);
    AllGrownTrans(s.w, s1.w, s2.w);
    AllGrownTrans(s.w, s2.w, s3.w);
    AllGrownTrans(s.w, s3.w, t.w);
    AllGrownTrans(s1.w, s2.w, s3.w);
    AllGrownTrans(s1.w, s3.w, t.w);
    AllGrownTrans(s2.w, s3.w, t.w);
    SoundDoubles(t, set_);
    LabelMeans(s1.w, s2.w, t.w, set_, r, o, sc);
    OneMoreMeant(s.w, t.w, set_, sc);
  }

  lemma GrownSelf(w: Tables)
    ensures AllGrown(w, w)
  {
  }

  lemma LabelGrows(w: Tables, sc: Scenario)
    ensures AllGrown(w, w.(scenarios := w.scenarios + [sc]))
  {
  }

  lemma SoundDoubles(s: Sim, set_: Setting)
    requires Sound(s, set_)
    ensures DoublesOk(s.w)
  {
    hide DoublesOk;
  }

  lemma ToldWhen(w: Tables, o: Order, r: Option<RefundRecipe>)
    requires r.Some? ==> Refunded(w, o, r.value.reason, r.value.status, NeedsApproval(r.value.approval, o.total))
    ensures RefundTold(w, o, r)
  {
    hide Refunded;
  }

  lemma LabelMeans(a: Tables, b: Tables, c: Tables, set_: Setting, r: Recipe, o: Order, sc: Scenario)
    requires IsRecipe(r) && AllGrown(a, c) && AllGrown(b, c) && AllFollow(a, [r.first] + r.more, set_, o.customerId)
    requires o in a.orders && FullStock(a.products) && RefundTold(b, o, r.refund)
    requires Follows(a, o, if r.more == [] then r.first else r.more[|r.more| - 1], set_)
    requires sc == Scenario(r.kind, sc.copy, o.customerId, Some(o.id)) && sc in c.scenarios && DoublesOk(c)
    requires r.kind == GoldTier ==> IsGolden(c, o.customerId)
    ensures Means(c, set_, sc)
  {
    assert o in c.orders && a.products == c.products;
    hide AllGrown, Follows, AllFollow, Story, FullStock, PaidCount, Refunded, NeedsApproval, IsRecipe;
    FollowsGrows(a, c, o, if r.more == [] then r.first else r.more[|r.more| - 1], set_);
    AllFollowGrows(a, c, [r.first] + r.more, set_, o.customerId);
    if r.refund.Some? {
      RefundedGrows(b, c, o, r.refund.value.reason, r.refund.value.status, NeedsApproval(r.refund.value.approval, o.total));
    }
    RecipeTellsStory(c, set_, r, o);
    SingleRecipes(r);
  }
}

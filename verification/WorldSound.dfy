/** Scenario builders and fillers keep the invariant; the generator can never trip its own checker. */
module WorldSound {
  import opened Text
  import opened Records
  import opened Catalog
  import opened Emails
  import opened WorldSpec
  import opened WorldIntegrity
  import opened WorldInvariant
  import opened WorldBuilders

  /** Rows are only appended, and the catalog stays. */
  predicate Grown(a: Tables, b: Tables) {
    && a.products == b.products && a.customers <= b.customers && a.orders <= b.orders
    && a.shipments <= b.shipments && a.scenarios <= b.scenarios
  }

  lemma GrownTrans(a: Tables, b: Tables, c: Tables)
    requires Grown(a, b) && Grown(b, c)
    ensures Grown(a, c)
  {
  }

  /** The invariant of a simulation under a setting. */
  predicate Sound(s: Sim, set_: Setting) { Inv(s.w, s.d.pos, AllowedMethods(set_.company)) }

  // ---------- one order ----------

  predicate IsPaidStatus(status: OrderStatus) { status !in {Pending, Cancelled} }

  lemma AddOrderSound(s: Sim, set_: Setting, customerId: Id, product: Product, p: Plan)
    requires Sound(s, set_) && PlanOk(p) && product in s.w.products && customerId in CustomerIds(s.w.customers)
    ensures var (t, o) := AddOrder(s, set_, customerId, product, p);
            && Sound(t, set_) && Grown(s.w, t.w) && t.w.customers == s.w.customers
            && t.w.orders == s.w.orders + [o] && o.customerId == customerId && o.status == p.status
            && (IsPaidStatus(p.status) ==> PaidCount(t.w.payments, o.id) == if p.extraPaid then 2 else 1)
            && (AllDated(s.w) && PlanDated(p, set_.now) ==> AllDated(t.w))
  {
    hide MakeBundle, Inv, PlanDated, InDateOrder, AllDated, PaidCount, Fits;
    var allowed := AllowedMethods(set_.company);
    PriceOf(s.w, s.d.pos, allowed, product);
    var b := MakeBundle(s, set_, customerId, product, p);
    BundleFits(s, set_, customerId, product, p);
    AppendKeepsInv(s.w, b.value, s.d.pos, b.draws.pos, allowed);
    PaidConcat(s.w.payments, b.value.payments, b.value.order.id);
    FitsFresh(s.w, b.value, s.d.pos, b.draws.pos, allowed);
    FreshOrder(s.w, s.d.pos, allowed, b.value.order.id);
    PaidNone(s.w.payments, b.value.order.id);
    if AllDated(s.w) && PlanDated(p, set_.now) {
      BundleDated(s, set_, customerId, product, p);
      AppendKeepsDates(s.w, b.value, s.d.pos, b.draws.pos, allowed);
    }
  }

  lemma FitsFresh(w: Tables, b: Bundle, before: nat, after: nat, allowed: seq<string>)
    requires Fits(w, b, before, after, allowed)
    ensures b.order.id >= before
  {
  }

  lemma PriceOf(w: Tables, pos: nat, allowed: seq<string>, product: Product)
    requires Inv(w, pos, allowed) && product in w.products
    ensures product.unitPrice >= 0
  {
  }

  // ---------- product lookups ----------

  lemma {:induction false} FindSpec(products: seq<Product>, ok: Product -> bool)
    ensures var f := FindProduct(products, ok);
            if f.Some? then f.value in products && ok(f.value) else forall q :: q in products ==> !ok(q)
  {
    if products != [] { FindSpec(products[1..], ok); }
  }

  predicate HasLaptopAbove(products: seq<Product>, threshold: int) {
    exists q :: q in products && q.category == Laptops && q.unitPrice > threshold
  }

  lemma PickSpec(products: seq<Product>, threshold: int, pick: Pick)
    requires products != []
    ensures var f := PickProduct(products, threshold, pick); f.Some? ==> f.value in products
    ensures pick.ByCategory? || (HasLaptopAbove(products, threshold) && pick.among in {None, Some(Laptops)})
            ==> PickProduct(products, threshold, pick).Some?
    ensures pick == AboveThreshold(Some(Laptops)) && !HasLaptopAbove(products, threshold)
            ==> PickProduct(products, threshold, pick).None?
  {
    match pick
    case ByCategory(category, finalSale) =>
      FindSpec(products, (q: Product) => q.category == category
                                         && (finalSale.None? || q.finalSale == finalSale.value));
    case AboveThreshold(among) =>
      FindSpec(products, (q: Product) => q.unitPrice > threshold && (among.None? || q.category == among.value));
  }

  // ---------- recipes ----------

  predicate OrderRecipeOk(q: OrderRecipe) {
    && (q.ship == Some(ShipDelivered) ==> q.status != Pending)
    && (q.pick.AboveThreshold? ==> q.pick.among in {None, Some(Laptops)})
  }

  predicate RecipeOk(r: Recipe) {
    && OrderRecipeOk(r.first) && (forall q :: q in r.more ==> OrderRecipeOk(q))
    && (r.kind == DoublePayment || r.refund.Some? ==> r.more == [] && r.first.status == Delivered)
    && (r.kind == DoublePayment ==> r.first.extraPaid)
  }

  predicate OrderRecipeDated(q: OrderRecipe, window: int) {
    ShipStatusFor(q.status, q.ship) == Some(ShipDelivered) ==>
      q.age + (if q.windowed then window else 0) >= 2 && (q.deliveredDays.Some? ==> q.deliveredDays.value >= 0)
  }

  predicate AllOrdersDated(rs: seq<OrderRecipe>, window: int) { forall q :: q in rs ==> OrderRecipeDated(q, window) }

  predicate RecipeDated(r: Recipe, window: int) {
    OrderRecipeDated(r.first, window) && AllOrdersDated(r.more, window)
  }

  lemma RunOrderSound(s: Sim, set_: Setting, customerId: Id, q: OrderRecipe)
    requires Sound(s, set_) && OrderRecipeOk(q) && s.w.products != [] && customerId in CustomerIds(s.w.customers)
    ensures var r := RunOrder(s, set_, customerId, q);
            r.Some? ==>
              && Sound(r.value.0, set_) && Grown(s.w, r.value.0.w) && r.value.0.w.customers == s.w.customers
              && r.value.1 in r.value.0.w.orders && r.value.1.customerId == customerId && r.value.1.status == q.status
              && (IsPaidStatus(q.status) ==>
                    PaidCount(r.value.0.w.payments, r.value.1.id) == if q.extraPaid then 2 else 1)
              && (AllDated(s.w) && OrderRecipeDated(q, set_.company.windowDays) ==> AllDated(r.value.0.w))
    ensures HasLaptopAbove(s.w.products, set_.company.threshold) ==> RunOrder(s, set_, customerId, q).Some?
  {
    hide Sound, AddOrder, AllDated, PaidCount, PickProduct, HasLaptopAbove;
    PickSpec(s.w.products, set_.company.threshold, q.pick);
    var product := PickProduct(s.w.products, set_.company.threshold, q.pick);
    if product.Some? {
      AddOrderSound(s, set_, customerId, product.value, PlanOf(q, set_));
    }
  }

  lemma {:induction false} RunOrdersSound(s: Sim, set_: Setting, customerId: Id, first: OrderRecipe, more: seq<OrderRecipe>)
    requires Sound(s, set_) && s.w.products != [] && customerId in CustomerIds(s.w.customers)
    requires OrderRecipeOk(first) && forall q :: q in more ==> OrderRecipeOk(q)
    ensures var r := RunOrders(s, set_, customerId, first, more);
            r.Some? ==>
              && Sound(r.value.0, set_) && Grown(s.w, r.value.0.w) && r.value.0.w.customers == s.w.customers
              && r.value.1 in r.value.0.w.orders && r.value.1.customerId == customerId
              && (more == [] ==> r.value.1.status == first.status)
              && (more == [] && IsPaidStatus(first.status) ==>
                    PaidCount(r.value.0.w.payments, r.value.1.id) == if first.extraPaid then 2 else 1)
              && (AllDated(s.w) && OrderRecipeDated(first, set_.company.windowDays)
                    && AllOrdersDated(more, set_.company.windowDays) ==>
                  AllDated(r.value.0.w))
    ensures HasLaptopAbove(s.w.products, set_.company.threshold)
            ==> RunOrders(s, set_, customerId, first, more).Some?
    decreases |more|
  {
    hide Sound, AllDated, PaidCount, HasLaptopAbove, RunOrder, OrderRecipeDated, OrderRecipeOk;
    RunOrderSound(s, set_, customerId, first);
    var one := RunOrder(s, set_, customerId, first);
    if one.Some? && more != [] {
      RunOrdersSound(one.value.0, set_, customerId, more[0], more[1..]);
    }
  }

  // ---------- refunds, tickets, labels ----------

  lemma {:induction false} FirstPaidIff(payments: seq<Payment>, id: Id)
    ensures FirstPaid(payments, id).Some? <==> PaidCount(payments, id) >= 1
    decreases |payments|
  {
    if payments != [] {
      FirstPaidIff(payments[1..], id);
      OnePaid(payments[0], id);
      PaidConcat([payments[0]], payments[1..], id);
      assert payments == [payments[0]] + payments[1..];
    }
  }

  lemma {:induction false} PaidSumIs(payments: seq<Payment>, id: Id, total: int)
    requires forall p :: p in payments && p.orderId == id ==> p.amount == total
    ensures PaidSum(payments, id) == PaidCount(payments, id) * total
  {
    if payments != [] {
      assert payments[|payments| - 1] in payments;
      PaidSumIs(payments[..|payments| - 1], id, total);
    }
  }

  /** What has been paid for an order covers its total as soon as one payment is paid. */
  lemma PaidCoversTotal(w: Tables, pos: nat, allowed: seq<string>, o: Order)
    requires Inv(w, pos, allowed) && o in w.orders && PaidCount(w.payments, o.id) >= 1
    ensures o.total <= PaidSum(w.payments, o.id)
  {
    hide ItemsOk, OrdersOk, DeliveredPaid, ShipmentsOk, ReturnsOk, RefundsOk, TicketsOk, DoublesOk, EmailsDistinct, IdsBelow;
    forall p | p in w.payments && p.orderId == o.id ensures p.amount == o.total {
      var q :| q in w.orders && q.id == p.orderId && p.amount == q.total;
      SameOrder(w.orders, o, q);
    }
    PaidSumIs(w.payments, o.id, o.total);
    AtLeastOnce(PaidCount(w.payments, o.id), o.total);
  }

  lemma AtLeastOnce(n: int, t: int)
    requires n >= 1 && t >= 0
    ensures n * t >= t
  {
  }

  lemma SameOrder(orders: seq<Order>, a: Order, b: Order)
    requires UniqueOrders(orders) && a in orders && b in orders && a.id == b.id
    ensures a == b
  {
  }

  lemma AddRefundSound(s: Sim, set_: Setting, o: Order, r: RefundRecipe)
    requires Sound(s, set_) && o in s.w.orders && o.status == Delivered && PaidCount(s.w.payments, o.id) >= 1
    ensures var t := AddRefund(s, set_.now, o, r);
            && t.Some? && Sound(t.value, set_) && Grown(s.w, t.value.w) && t.value.w.customers == s.w.customers
            && t.value.w.orders == s.w.orders && t.value.w.payments == s.w.payments
            && t.value.w.shipments == s.w.shipments && t.value.w.scenarios == s.w.scenarios
  {
    FirstPaidIff(s.w.payments, o.id);
    PaidCoversTotal(s.w, s.d.pos, AllowedMethods(set_.company), o);
    RefundFrames(s, set_, o, r);
    RefundRows(s, set_, o, r);
    hide PaidCount, PaidSum, FirstPaid, NeedsApproval, UniqueOrders, PricesOk, ItemsOk, OrdersOk, PaymentsOk;
    hide DeliveredPaid, ShipmentsOk, ReturnsOk, RefundsOk, TicketsOk, DoublesOk, EmailsDistinct;
  }

  /** The two rows a refund adds. */
  lemma RefundRows(s: Sim, set_: Setting, o: Order, r: RefundRecipe)
    requires ReturnsOk(s.w) && RefundsOk(s.w) && o in s.w.orders && o.status == Delivered
    requires o.total <= PaidSum(s.w.payments, o.id) && AddRefund(s, set_.now, o, r).Some?
    ensures var w := AddRefund(s, set_.now, o, r).value.w; ReturnsOk(w) && RefundsOk(w)
  {
    hide PaidSum, FirstPaid, NeedsApproval;
    assert o.id in OrderIds(s.w.orders);
  }

  /** The tables a refund does not touch. */
  lemma RefundFrames(s: Sim, set_: Setting, o: Order, r: RefundRecipe)
    requires Sound(s, set_) && AddRefund(s, set_.now, o, r).Some?
    ensures var w := AddRefund(s, set_.now, o, r).value.w;
            && UniqueOrders(w.orders) && PricesOk(w) && ItemsOk(w) && OrdersOk(w)
            && PaymentsOk(w, AllowedMethods(set_.company)) && DeliveredPaid(w) && ShipmentsOk(w) && TicketsOk(w)
            && DoublesOk(w) && EmailsDistinct(w.customers)
  {
    hide NeedsApproval, FirstPaid;
  }

  lemma AddTicketSound(s: Sim, set_: Setting, customerId: Id, o: Order)
    requires Sound(s, set_) && o in s.w.orders && o.customerId == customerId && customerId in CustomerIds(s.w.customers)
    ensures var t := AddTicket(s, set_.now, customerId, o.id);
            && Sound(t, set_) && t.w == s.w.(tickets := t.w.tickets)
  {
    hide UniqueOrders, PricesOk, ItemsOk, OrdersOk, PaymentsOk, DeliveredPaid, ShipmentsOk, DoublesOk, EmailsDistinct;
    hide ReturnsOk, RefundsOk;
    TicketFrames(s, set_, customerId, o);
  }

  lemma TicketFrames(s: Sim, set_: Setting, customerId: Id, o: Order)
    requires Sound(s, set_)
    ensures var w := AddTicket(s, set_.now, customerId, o.id).w;
            && UniqueOrders(w.orders) && PricesOk(w) && ItemsOk(w) && OrdersOk(w)
            && PaymentsOk(w, AllowedMethods(set_.company)) && DeliveredPaid(w) && ShipmentsOk(w) && ReturnsOk(w)
            && RefundsOk(w) && DoublesOk(w) && EmailsDistinct(w.customers)
  {
  }

  lemma AddScenarioSound(s: Sim, set_: Setting, sc: Scenario)
    requires Sound(s, set_)
    requires sc.kind == DoublePayment && sc.orderId.Some? ==>
               sc.orderId.value in OrderIds(s.w.orders) && PaidCount(s.w.payments, sc.orderId.value) >= 2
    ensures Sound(AddScenario(s, sc), set_)
  {
    hide PaidCount;
  }

  // ---------- a whole scenario ----------

  predicate HasKind(scenarios: seq<Scenario>, kind: Kind) { exists sc :: sc in scenarios && sc.kind == kind }

  /** What a scenario run leaves behind. */
  predicate Ran(s: Sim, t: Sim, set_: Setting) {
    Sound(t, set_) && Grown(s.w, t.w) && t.w.customers == s.w.customers
  }

  lemma RunRecipeSound(s: Sim, set_: Setting, customerId: Id, r: Recipe, copy: int, ticket: bool)
    requires Sound(s, set_) && RecipeOk(r) && s.w.products != [] && customerId in CustomerIds(s.w.customers)
    ensures var t := RunRecipe(s, set_, customerId, r, copy, ticket);
            t.Some? ==> Ran(s, t.value, set_) && HasKind(t.value.w.scenarios, r.kind)
                        && (AllDated(s.w) && RecipeDated(r, set_.company.windowDays) ==> AllDated(t.value.w))
    ensures HasLaptopAbove(s.w.products, set_.company.threshold)
            ==> RunRecipe(s, set_, customerId, r, copy, ticket).Some?
  {
    hide Sound, PaidCount, HasLaptopAbove, RunOrders, AddRefund, AddTicket, OrderRecipeDated, OrderRecipeOk, InDateOrder;
    RunOrdersSound(s, set_, customerId, r.first, r.more);
    var placed := RunOrders(s, set_, customerId, r.first, r.more);
    if placed.Some? {
      var (s1, o) := placed.value;
      if r.refund.Some? {
        AddRefundSound(s1, set_, o, r.refund.value);
      }
      var s2 := if r.refund.Some? then AddRefund(s1, set_.now, o, r.refund.value).value else s1;
      AddTicketSound(s2, set_, customerId, o);
      var s3 := if ticket then AddTicket(s2, set_.now, customerId, o.id) else s2;
      var sc := Scenario(r.kind, copy, customerId, Some(o.id));
      AddScenarioSound(s3, set_, sc);
      assert (s3.w.scenarios + [sc])[|s3.w.scenarios|] == sc;
    }
  }
}

/**
 * The functions that drive the mutable world: labelled scenarios, the showcase, the happy path, the
 * finishing touches and the whole run (app/synthetic/anomalies.py, demo_customer.py, graph.py, __init__.py).
 */
module WorldAssembly {
  import opened Text
  import opened Records
  import opened Catalog
  import opened Emails
  import opened WorldSpec
  import opened WorldIntegrity
  import opened WorldGenerator
  import opened WorldTheorem

  method MakeProducts(rng: SeededRng, count: nat) returns (products: seq<Product>)
    modifies rng
    ensures Made(products, rng.Here()) == BuildProducts(CatalogSlice(count), 1, old(rng.Here()))
  {
    hide CatalogSlice;
    var specs := CatalogSlice(count);
    products := [];
    for i := 0 to |specs|
      invariant var b, rest := BuildProducts(specs, 1, old(rng.Here())), BuildProducts(specs[i..], i + 1, rng.Here());
                b.value == products + rest.value && b.draws == rest.draws
    {
      ghost var rest := BuildProducts(specs[i..], i + 1, rng.Here());
      var s := specs[i];
      var id := rng.Uuid();
      var p := Product(id, PublicId("PRD", i + 1), s.sku, s.category, s.price, s.finalSale, s.warrantyDays);
      assert specs[i..][0] == s && specs[i..][1..] == specs[i + 1..];
      assert rest.value == [p] + BuildProducts(specs[i + 1..], i + 2, rng.Here()).value;
      products := products + [p];
    }
    assert specs[|specs|..] == [] && products + [] == products;
    assert BuildProducts([], |specs| + 1, rng.Here()) == Made([], rng.Here());
  }

  // ---------- one labelled scenario ----------

  predicate Wanted(pick: Pick, threshold: int, q: Product) {
    match pick
    case ByCategory(category, finalSale) =>
      q.category == category && (finalSale.None? || q.finalSale == finalSale.value)
    case AboveThreshold(among) => q.unitPrice > threshold && (among.None? || q.category == among.value)
  }

  lemma {:induction false} FindAfter(products: seq<Product>, ok: Product -> bool, i: nat)
    requires i <= |products| && forall j :: 0 <= j < i ==> !ok(products[j])
    ensures FindProduct(products, ok) == FindProduct(products[i..], ok)
    decreases |products|
  {
    if i > 0 {
      FindAfter(products[1..], ok, i - 1);
      assert products[1..][i - 1..] == products[i..];
    } else {
      assert products[0..] == products;
    }
  }

  lemma PickIsFound(products: seq<Product>, threshold: int, pick: Pick, i: nat)
    requires i <= |products| && forall j :: 0 <= j < i ==> !Wanted(pick, threshold, products[j])
    requires i < |products| ==> Wanted(pick, threshold, products[i])
    ensures PickProduct(products, threshold, pick)
            == if i < |products| then Some(products[i])
               else if pick.ByCategory? && products != [] then Some(products[0]) else None
  {
    match pick
    case ByCategory(category, finalSale) =>
      FindAfter(products, (q: Product) => q.category == category
                                          && (finalSale.None? || q.finalSale == finalSale.value), i);
    case AboveThreshold(among) =>
      FindAfter(products, (q: Product) => q.unitPrice > threshold && (among.None? || q.category == among.value), i);
  }

  method LookUpProduct(world: World, threshold: int, pick: Pick) returns (p: Option<Product>)
    ensures p == PickProduct(world.products, threshold, pick)
  {
    hide PickProduct;
    for i := 0 to |world.products|
      invariant forall j :: 0 <= j < i ==> !Wanted(pick, threshold, world.products[j])
    {
      if Wanted(pick, threshold, world.products[i]) {
        PickIsFound(world.products, threshold, pick, i);
        return Some(world.products[i]);
      }
    }
    PickIsFound(world.products, threshold, pick, |world.products|);
    p := if pick.ByCategory? && world.products != [] then Some(world.products[0]) else None;
  }

  method PlaceRecipe(world: World, rng: SeededRng, set_: Setting, customer: Customer, q: OrderRecipe)
    returns (order: Option<Order>)
    modifies world, rng
    ensures var r := RunOrder(old(world.At(rng)), set_, customer.id, q);
            order.Some? == r.Some? && (order.Some? ==> (world.At(rng), order.value) == r.value)
  {
    hide AddOrder, PickProduct, PlanOf;
    var product := LookUpProduct(world, set_.company.threshold, q.pick);
    if product.None? { return None; }
    var o := world.AddOrderBundle(rng, set_, customer, product.value, PlanOf(q, set_));
    order := Some(o);
  }

  lemma {:induction false} FirstPaidAfter(payments: seq<Payment>, orderId: Id, i: nat)
    requires i <= |payments| && forall j :: 0 <= j < i ==> !IsPaidFor(payments[j], orderId)
    ensures FirstPaid(payments, orderId) == FirstPaid(payments[i..], orderId)
    decreases |payments|
  {
    if i > 0 {
      assert !IsPaidFor(payments[0], orderId);
      FirstPaidAfter(payments[1..], orderId, i - 1);
      assert payments[1..][i - 1..] == payments[i..];
    } else {
      assert payments[0..] == payments;
    }
  }

  method FindPaid(world: World, orderId: Id) returns (p: Option<Payment>)
    ensures p == FirstPaid(world.payments, orderId)
  {
    for i := 0 to |world.payments|
      invariant forall j :: 0 <= j < i ==> !IsPaidFor(world.payments[j], orderId)
    {
      if world.payments[i].orderId == orderId && world.payments[i].status == PayPaid {
        FirstPaidAfter(world.payments, orderId, i);
        return Some(world.payments[i]);
      }
    }
    FirstPaidAfter(world.payments, orderId, |world.payments|);
    p := None;
  }

  /** Returns false where `next(...)` raises; the return row stays, as in the code. */
  method AddReturnAndRefund(world: World, rng: SeededRng, now: Time, order: Order, r: RefundRecipe) returns (ok: bool)
    modifies world, rng
    ensures var t := AddRefund(old(world.At(rng)), now, order, r);
            ok == t.Some? && (ok ==> world.At(rng) == t.value)
  {
    hide FirstPaid, NeedsApproval;
    var id := rng.Uuid();
    var ret := MakeReturn(id, |world.returns_| + 1, now, order, r);
    world.returns_ := world.returns_ + [ret];
    var paid := FindPaid(world, order.id);
    if paid.None? { return false; }
    var refundId := rng.Uuid();
    world.refunds := world.refunds
    + [Refund(refundId, PublicId("RFD", |world.refunds| + 1), order.id, Some(ret.id), Some(paid.value.id),
              order.total, r.status, r.reason, NeedsApproval(r.approval, order.total), now - 6 * HOUR)];
    ok := true;
  }

  /** The orders of a scenario; the last one placed is the scenario's. */
  method PlaceOrders(world: World, rng: SeededRng, set_: Setting, customer: Customer, r: Recipe)
    returns (order: Option<Order>)
    modifies world, rng
    ensures var t := RunOrders(old(world.At(rng)), set_, customer.id, r.first, r.more);
            order.Some? == t.Some? && (order.Some? ==> (world.At(rng), order.value) == t.value)
  {
    hide RunOrder;
    ghost var start := world.At(rng);
    order := PlaceRecipe(world, rng, set_, customer, r.first);
    if order.None? { return; }
    for i := 0 to |r.more|
      invariant order.Some?
      invariant RunOrders(start, set_, customer.id, r.first, r.more)
                == if i == |r.more| then Some((world.At(rng), order.value))
                   else RunOrders(world.At(rng), set_, customer.id, r.more[i], r.more[i + 1..])
    {
      assert i + 1 < |r.more| ==> r.more[i + 1..][0] == r.more[i + 1] && r.more[i + 1..][1..] == r.more[i + 2..];
      order := PlaceRecipe(world, rng, set_, customer, r.more[i]);
      if order.None? { return; }
    }
  }

  /** The shape the labelled builders share; false where one raises. */
  method BuildScenario(world: World, rng: SeededRng, set_: Setting, customer: Customer, r: Recipe, copy: int,
                       ticket: bool) returns (ok: bool)
    modifies world, rng
    ensures var t := RunRecipe(old(world.At(rng)), set_, customer.id, r, copy, ticket);
            ok == t.Some? && (ok ==> world.At(rng) == t.value)
  {
    hide RunOrders, AddRefund, WorldSpec.AddTicket;
    var order := PlaceOrders(world, rng, set_, customer, r);
    if order.None? { return false; }
    if r.refund.Some? {
      ok := AddReturnAndRefund(world, rng, set_.now, order.value, r.refund.value);
      if !ok { return false; }
    }
    if ticket { world.AddTicket(rng, set_.now, customer, order.value); }
    world.scenarios := world.scenarios + [Scenario(r.kind, copy, customer.id, Some(order.value.id))];
    ok := true;
  }

  // ---------- anomalies and the showcase ----------

  method BuildAnomaly(world: World, rng: SeededRng, set_: Setting, a: Anomaly, copy: int) returns (ok: bool)
    modifies world, rng
    ensures var t := RunAnomaly(old(world.At(rng)), set_, a, copy);
            ok == t.Some? && (ok ==> world.At(rng) == t.value)
  {
    hide WorldSpec.BuildCustomer, RunRecipe;
    var customer := world.BuildCustomer(rng, set_.now, |world.customers| + 1, a.tier, Active, None, a.name);
    world.customers := world.customers + [customer];
    ok := BuildScenario(world, rng, set_, customer, a.recipe, copy, true);
  }

  method BuildCopy(world: World, rng: SeededRng, set_: Setting, copy: int) returns (ok: bool)
    modifies world, rng
    ensures var t := RunAnomalies(old(world.At(rng)), set_, ANOMALIES, copy);
            ok == t.Some? && (ok ==> world.At(rng) == t.value)
  {
    hide RunAnomaly, ANOMALIES;
    ghost var start := world.At(rng);
    for i := 0 to |ANOMALIES|
      invariant RunAnomalies(start, set_, ANOMALIES, copy) == RunAnomalies(world.At(rng), set_, ANOMALIES[i..], copy)
    {
      assert ANOMALIES[i..][0] == ANOMALIES[i] && ANOMALIES[i..][1..] == ANOMALIES[i + 1..];
      ok := BuildAnomaly(world, rng, set_, ANOMALIES[i], copy);
      if !ok { return; }
    }
    ok := true;
  }

  lemma {:induction false} FirstOfKindAfter(scenarios: seq<Scenario>, kind: Kind, i: nat)
    requires i <= |scenarios| && forall j :: 0 <= j < i ==> scenarios[j].kind != kind
    ensures FirstOfKind(scenarios, kind) == FirstOfKind(scenarios[i..], kind)
    decreases |scenarios|
  {
    if i > 0 {
      FirstOfKindAfter(scenarios[1..], kind, i - 1);
      assert scenarios[1..][i - 1..] == scenarios[i..];
    } else {
      assert scenarios[0..] == scenarios;
    }
  }

  method AddSecurityProbes(world: World) returns (ok: bool)
    modifies world`scenarios
    ensures forall d: Draws :: AddNegatives(Sim(old(world.Rows()), d)).Some? == ok
    ensures ok ==> forall d: Draws :: AddNegatives(Sim(old(world.Rows()), d)) == Some(Sim(world.Rows(), d))
  {
    var i := 0;
    while i < |world.scenarios| && world.scenarios[i].kind != DoublePayment
      invariant i <= |world.scenarios| && forall j :: 0 <= j < i ==> world.scenarios[j].kind != DoublePayment
    {
      i := i + 1;
    }
    FirstOfKindAfter(world.scenarios, DoublePayment, i);
    if i == |world.scenarios| { return false; }
    var anchor := world.scenarios[i];
    ghost var before := world.scenarios;
    for k := 1 to 7
      invariant world.scenarios
                == before + seq(k - 1, j => Scenario(NegativeSecurity, j + 1, anchor.customerId, anchor.orderId))
    {
      world.scenarios := world.scenarios + [Scenario(NegativeSecurity, k, anchor.customerId, anchor.orderId)];
    }
    ok := true;
  }

  method OverlayAnomalies(world: World, rng: SeededRng, set_: Setting, copies: nat) returns (ok: bool)
    modifies world, rng
    ensures var t := Overlay(old(world.At(rng)), set_, copies);
            ok == t.Some? && (ok ==> world.At(rng) == t.value)
  {
    hide RunAnomalies, AddNegatives;
    ghost var start := world.At(rng);
    for copy := 1 to copies + 1
      invariant RunCopies(start, set_, 1, copies) == RunCopies(world.At(rng), set_, copy, copies)
    {
      ok := BuildCopy(world, rng, set_, copy);
      if !ok { return; }
    }
    ghost var here := world.At(rng);
    ok := AddSecurityProbes(world);
    assert AddNegatives(here) == AddNegatives(Sim(here.w, here.d));
  }

  method BuildDemoShowcase(world: World, rng: SeededRng, set_: Setting) returns (ok: bool)
    modifies world, rng
    ensures var t := Showcase(old(world.At(rng)), set_);
            ok == t.Some? && (ok ==> world.At(rng) == t.value)
  {
    hide WorldSpec.BuildCustomer, RunRecipe, SHOWCASE;
    var customer := world.BuildCustomer(rng, set_.now, |world.customers| + 1, Some(Standard), Active,
                                        Some(DEMO_SHOWCASE_EMAIL), Some(DEMO_SHOWCASE_NAME));
    world.customers := world.customers + [customer];
    ghost var start := world.At(rng);
    for i := 0 to |SHOWCASE|
      invariant RunShowcase(start, set_, customer.id, SHOWCASE, 1)
                == RunShowcase(world.At(rng), set_, customer.id, SHOWCASE[i..], i + 1)
    {
      assert SHOWCASE[i..][0] == SHOWCASE[i] && SHOWCASE[i..][1..] == SHOWCASE[i + 1..];
      ok := BuildScenario(world, rng, set_, customer, SHOWCASE[i], i + 1, false);
      if !ok { return; }
    }
    ok := true;
  }

  // ---------- the happy path ----------

  method DrawTiming(rng: SeededRng, status: OrderStatus) returns (t: Timing)
    modifies rng
    ensures Made(t, rng.Here()) == HappyTiming(status, old(rng.Here()))
  {
    hide Draws.RandInt;
    if status in {Pending, Paid} {
      var age := rng.RandInt(0, 2);
      var eta := rng.RandInt(5, 12);
      t := Timing(age, eta, None);
    } else if status == Processing {
      var age := rng.RandInt(1, 4);
      var eta := rng.RandInt(5, 12);
      t := Timing(age, eta, None);
    } else if status == Shipped {
      var age := rng.RandInt(1, 5);
      var more := rng.RandInt(2, 6);
      t := Timing(age, age + more, None);
    } else if status == Delivered {
      var age := rng.RandInt(8, 15);
      var delivered := rng.RandInt(4, if age < 10 then age else 10);
      t := Timing(age, delivered, Some(delivered));
    } else if status == Cancelled {
      var age := rng.RandInt(1, 10);
      var eta := rng.RandInt(5, 12);
      t := Timing(age, eta, None);
    } else {
      var age := rng.RandInt(10, 15);
      var delivered := rng.RandInt(4, if age < 10 then age else 10);
      t := Timing(age, delivered, Some(delivered));
    }
  }

  /** Orders counted so far, by customer: the dictionary `owned`. */
  function Count(owned: map<Id, nat>, id: Id): nat { if id in owned then owned[id] else 0 }

  ghost predicate Counts(owned: map<Id, nat>, orders: seq<Order>) {
    forall id: Id :: Count(owned, id) == OrdersOf(orders, id)
  }

  lemma CountOne(owned: map<Id, nat>, orders: seq<Order>, o: Order)
    requires Counts(owned, orders)
    ensures Counts(owned[o.customerId := Count(owned, o.customerId) + 1], orders + [o])
  {
    var counted := owned[o.customerId := Count(owned, o.customerId) + 1];
    assert (orders + [o])[..|orders|] == orders;
    forall id: Id ensures Count(counted, id) == OrdersOf(orders + [o], id) {
      assert Count(owned, id) == OrdersOf(orders, id);
    }
  }

  method PlaceRandomOrder(world: World, rng: SeededRng, set_: Setting, customer: Customer, owned: map<Id, nat>)
    returns (counted: map<Id, nat>)
    requires world.products != [] && Counts(owned, world.orders)
    modifies world, rng
    ensures world.At(rng) == AddRandomOrder(old(world.At(rng)), set_, customer.id) && Counts(counted, world.orders)
  {
    hide MakeBundle, Draws.Index, WeightedStatus, HappyTiming, HappyPlan;
    var i := rng.Index(|world.products|);
    var r := rng.Index(100);
    var status := WeightedStatus(r);
    var t := DrawTiming(rng, status);
    ghost var before := world.At(rng);
    var o := world.AddOrderBundle(rng, set_, customer, world.products[i], HappyPlan(status, t, set_.now));
    BundleOwner(before, set_, customer.id, before.w.products[i], HappyPlan(status, t, set_.now));
    CountOne(owned, before.w.orders, o);
    counted := owned[customer.id := Count(owned, customer.id) + 1];
  }

  lemma BundleOwner(s: Sim, set_: Setting, customerId: Id, product: Product, p: Plan)
    ensures MakeBundle(s, set_, customerId, product, p).value.order.customerId == customerId
  {
    hide PayMethod, OffsetOr, DeliveredAt, FailedPayments, MainPayments, MakeShipment;
  }

  method CountOrders(orders: seq<Order>) returns (owned: map<Id, nat>)
    ensures Counts(owned, orders)
  {
    hide Counts;
    owned := map[];
    assert Counts(owned, orders[..0]) by { NoneCounted(); }
    for i := 0 to |orders|
      invariant Counts(owned, orders[..i])
    {
      CountOne(owned, orders[..i], orders[i]);
      assert orders[..i] + [orders[i]] == orders[..i + 1];
      owned := owned[orders[i].customerId := Count(owned, orders[i].customerId) + 1];
    }
    assert orders[..|orders|] == orders;
  }

  lemma NoneCounted()
    ensures Counts(map[], [])
  {
  }

  method FillPeople(world: World, rng: SeededRng, now: Time, target: nat)
    modifies world, rng
    ensures world.At(rng) == FillCustomers(old(world.At(rng)), now, target)
  {
    hide WorldSpec.BuildCustomer, FractionAbove, Draws.Random;
    ghost var start := world.At(rng);
    while |world.customers| < target
      invariant FillCustomers(start, now, target) == FillCustomers(world.At(rng), now, target)
    {
      ghost var before := world.At(rng);
      var roll := rng.Random();
      var status := Active;
      if FractionAbove(roll, 98) {
        status := Closed;
      } else if FractionAbove(roll, 92) {
        status := Suspended;
      }
      assert status == StatusOfRoll(roll);
      var c := world.BuildCustomer(rng, now, |world.customers| + 1, None, status, None, None);
      world.customers := world.customers + [c];
      assert FillCustomers(before, now, target) == FillCustomers(world.At(rng), now, target);
    }
  }

  method FillOwed(world: World, rng: SeededRng, set_: Setting, owned: map<Id, nat>) returns (counted: map<Id, nat>)
    requires world.products != [] && Counts(owned, world.orders)
    modifies world, rng
    ensures world.At(rng) == FillOwners(old(world.At(rng)), set_, old(world.customers)) && Counts(counted, world.orders)
  {
    hide AddRandomOrder, OrdersOf;
    ghost var start := world.At(rng);
    var customers := world.customers;
    counted := owned;
    for i := 0 to |customers|
      invariant world.products == start.w.products && Counts(counted, world.orders)
      invariant FillOwners(start, set_, customers) == FillOwners(world.At(rng), set_, customers[i..])
    {
      var c := customers[i];
      assert customers[i..][0] == c && customers[i..][1..] == customers[i + 1..];
      assert Count(counted, c.id) == OrdersOf(world.orders, c.id);
      ghost var before := world.At(rng);
      if Count(counted, c.id) == 0 {
        counted := PlaceRandomOrder(world, rng, set_, c, counted);
        RandomOrderKeeps(before, set_, c.id);
      }
    }
  }

  method FillTheRest(world: World, rng: SeededRng, set_: Setting, target: nat, owned: map<Id, nat>)
    requires world.products != [] && world.customers != [] && Counts(owned, world.orders)
    modifies world, rng
    ensures world.At(rng) == FillOrders(old(world.At(rng)), set_, target)
  {
    hide AddRandomOrder, OrdersOf, Draws.Index, Counts;
    ghost var start := world.At(rng);
    var counted := owned;
    while |world.orders| < target
      invariant world.products != [] && world.customers != [] && Counts(counted, world.orders)
      invariant FillOrders(start, set_, target) == FillOrders(world.At(rng), set_, target)
      decreases target - |world.orders|
    {
      ghost var before := world.At(rng);
      var eligible := Eligible(world.customers);
      var among := if eligible != [] then eligible else world.customers;
      var i := rng.Index(|among|);
      RandomOrderKeeps(world.At(rng), set_, among[i].id);
      counted := PlaceRandomOrder(world, rng, set_, among[i], counted);
      assert FillOrders(before, set_, target) == FillOrders(world.At(rng), set_, target);
    }
  }

  method FillWithHappyPath(world: World, rng: SeededRng, set_: Setting, customers: nat, orders: nat)
    requires world.products != [] && world.customers != []
    modifies world, rng
    ensures world.At(rng) == FillHappyPath(old(world.At(rng)), set_, customers, orders)
  {
    hide FillCustomers, FillOwners, FillOrders, Counts;
    FillPeople(world, rng, set_.now, customers);
    var owned := CountOrders(world.orders);
    owned := FillOwed(world, rng, set_, owned);
    FillTheRest(world, rng, set_, orders, owned);
  }

  // ---------- the finishing touches ----------

  method PinDemoLogin(world: World)
    modifies world`customers
    ensures world.customers == ApplyDemoLogin(old(world.customers))
  {
    hide Lower, Allocate, UsedEmails;
    if world.customers == [] { return; }
    ghost var before := world.customers;
    for i := 1 to |world.customers|
      invariant |world.customers| == |before| && FreeLogin(before, 1) == FreeLogin(world.customers, i)
    {
      var customer := world.customers[i];
      if Lower(customer.email) == DEMO_LOGIN_EMAIL {
        var email := AllocateLoginEmail(UsedEmails(world.customers), customer.name, 99);
        world.customers := world.customers[i := customer.(email := email)];
      }
    }
    var first := world.customers[0];
    if Lower(first.email) != DEMO_SHOWCASE_EMAIL {
      world.customers := world.customers[0 := first.(email := DEMO_LOGIN_EMAIL, name := DEMO_LOGIN_NAME)];
    }
  }

  method NumberPeople(world: World)
    modifies world`products, world`customers
    ensures world.products == AssignPublicIds(old(world.Rows())).products
    ensures world.customers == AssignPublicIds(old(world.Rows())).customers
  {
    ghost var p, c := world.products, world.customers;
    for i := 0 to |world.products|
      invariant |world.products| == |p| && world.customers == c
      invariant forall j :: 0 <= j < |p| ==>
                  world.products[j] == if j < i then p[j].(publicId := PublicId("PRD", j + 1)) else p[j]
    {
      world.products := world.products[i := world.products[i].(publicId := PublicId("PRD", i + 1))];
    }
    ghost var done := world.products;
    for i := 0 to |world.customers|
      invariant world.products == done && |world.customers| == |c|
      invariant forall j :: 0 <= j < |c| ==>
                  world.customers[j] == if j < i then c[j].(publicId := PublicId("CUST", j + 1)) else c[j]
    {
      world.customers := world.customers[i := world.customers[i].(publicId := PublicId("CUST", i + 1))];
    }
  }

  method NumberOrders(world: World)
    modifies world`orders, world`orderItems
    ensures world.orders == AssignPublicIds(old(world.Rows())).orders
    ensures world.orderItems == AssignPublicIds(old(world.Rows())).items
  {
    ghost var o, t := world.orders, world.orderItems;
    for i := 0 to |world.orders|
      invariant |world.orders| == |o| && world.orderItems == t
      invariant forall j :: 0 <= j < |o| ==>
                  world.orders[j] == if j < i then o[j].(publicId := PublicId("ORD", j + 1001)) else o[j]
    {
      world.orders := world.orders[i := world.orders[i].(publicId := PublicId("ORD", i + 1001))];
    }
    ghost var done := world.orders;
    for i := 0 to |world.orderItems|
      invariant world.orders == done && |world.orderItems| == |t|
      invariant forall j :: 0 <= j < |t| ==>
                  world.orderItems[j] == if j < i then t[j].(publicId := PublicId("ITM", j + 1)) else t[j]
    {
      world.orderItems := world.orderItems[i := world.orderItems[i].(publicId := PublicId("ITM", i + 1))];
    }
  }

  method NumberPaymentsAndShipments(world: World)
    modifies world`payments, world`shipments
    ensures world.payments == AssignPublicIds(old(world.Rows())).payments
    ensures world.shipments == AssignPublicIds(old(world.Rows())).shipments
  {
    ghost var p, s := world.payments, world.shipments;
    for i := 0 to |world.payments|
      invariant |world.payments| == |p| && world.shipments == s
      invariant forall j :: 0 <= j < |p| ==>
                  world.payments[j] == if j < i then p[j].(publicId := PublicId("PAY", j + 1)) else p[j]
    {
      world.payments := world.payments[i := world.payments[i].(publicId := PublicId("PAY", i + 1))];
    }
    ghost var done := world.payments;
    for i := 0 to |world.shipments|
      invariant world.payments == done && |world.shipments| == |s|
      invariant forall j :: 0 <= j < |s| ==>
                  world.shipments[j] == if j < i then s[j].(publicId := PublicId("SHP", j + 1)) else s[j]
    {
      world.shipments := world.shipments[i := world.shipments[i].(publicId := PublicId("SHP", i + 1))];
    }
  }

  method NumberReturnsAndRefunds(world: World)
    modifies world`returns_, world`refunds
    ensures world.returns_ == AssignPublicIds(old(world.Rows())).returns_
    ensures world.refunds == AssignPublicIds(old(world.Rows())).refunds
  {
    ghost var r, f := world.returns_, world.refunds;
    for i := 0 to |world.returns_|
      invariant |world.returns_| == |r| && world.refunds == f
      invariant forall j :: 0 <= j < |r| ==>
                  world.returns_[j] == if j < i then r[j].(publicId := PublicId("RET", j + 1)) else r[j]
    {
      world.returns_ := world.returns_[i := world.returns_[i].(publicId := PublicId("RET", i + 1))];
    }
    ghost var done := world.returns_;
    for i := 0 to |world.refunds|
      invariant world.returns_ == done && |world.refunds| == |f|
      invariant forall j :: 0 <= j < |f| ==>
                  world.refunds[j] == if j < i then f[j].(publicId := PublicId("RFD", j + 1)) else f[j]
    {
      world.refunds := world.refunds[i := world.refunds[i].(publicId := PublicId("RFD", i + 1))];
    }
  }

  method RenumberWorld(world: World)
    modifies world
    ensures world.Rows() == AssignPublicIds(old(world.Rows()))
  {
    NumberPeople(world);
    NumberOrders(world);
    NumberPaymentsAndShipments(world);
    NumberReturnsAndRefunds(world);
  }

  // ---------- the whole run ----------

  /** Everything before the check; null where a builder raises. */
  method BuildRows(profile: Profile, tape: nat -> nat, set_: Setting) returns (world: World?)
    ensures world != null ==> fresh(world)
    ensures world != null <==> BuildWorld(profile, tape, set_).Some?
    ensures world != null ==> Some(world.Rows()) == BuildWorld(profile, tape, set_)
  {
    hide Overlay, Showcase, FillHappyPath, ApplyDemoLogin, AssignPublicIds, BuildProducts, CatalogSlice;
    BuildStages(profile, tape, set_);
    var rng := new SeededRng(tape);
    var products := MakeProducts(rng, profile.Products());
    world := new World(products);
    var ok := OverlayAnomalies(world, rng, set_, profile.Copies());
    if !ok { return null; }
    ok := BuildDemoShowcase(world, rng, set_);
    if !ok { return null; }
    FillWithHappyPath(world, rng, set_, profile.Customers(), profile.Orders());
    PinDemoLogin(world);
    RenumberWorld(world);
  }

  /** The stages of a build; once the showcase is there, so are products and customers. */
  lemma BuildStages(profile: Profile, tape: nat -> nat, set_: Setting)
    ensures var s := Stocked(profile.Products(), tape);
            var o := Overlay(s, set_, profile.Copies());
            && (o.Some? ==> var t := Showcase(o.value, set_);
                  t.Some? ==> t.value.w.products != [] && t.value.w.customers != [])
  {
    ProfileSizes(profile);
    StockedSound(profile.Products(), tape, set_);
    ShownSound(Stocked(profile.Products(), tape), set_, profile.Copies());
    hide *;
  }

  /** `generate_world`: null where the source raises, which it does exactly outside the stated settings. */
  method GenerateWorld(profile: Profile, tape: nat -> nat, set_: Setting) returns (world: World?)
    ensures world != null <==> set_.company.windowDays >= -4 && set_.company.threshold < DEAREST_LAPTOP
    ensures world != null ==> Integrity(world.Rows()) && Some(world.Rows()) == BuildWorld(profile, tape, set_)
  {
    hide BuildWorld, Integrity;
    GeneratorMeetsChecker(profile, tape, set_);
    world := BuildRows(profile, tape, set_);
    if world != null {
      var ok := AssertIntegrity(world.Rows());
      if !ok { return null; }
    }
  }
}

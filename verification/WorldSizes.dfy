/** How many rows a generated world holds, and who is given the filler's orders. */
module WorldSizes {
  import opened Text
  import opened Records
  import opened Catalog
  import opened Emails
  import opened WorldSpec
  import opened WorldIntegrity
  import opened WorldInvariant
  import opened WorldBuilders
  import opened WorldSound
  import opened WorldRuns
  import opened WorldFilling
  import opened WorldFinish
  import opened WorldTheorem

  // ---------- sizes ----------

  /** Rows per table; payments and shipments depend on the draws. */
  datatype Sizes = Sizes(customers: nat, orders: nat, items: nat, returns_: nat, refunds: nat, tickets: nat,
                         scenarios: nat)

  function SizesOf(w: Tables): Sizes {
    Sizes(|w.customers|, |w.orders|, |w.items|, |w.returns_|, |w.refunds|, |w.tickets|, |w.scenarios|)
  }

  function Plus(a: Sizes, b: Sizes): Sizes {
    Sizes(a.customers + b.customers, a.orders + b.orders, a.items + b.items, a.returns_ + b.returns_,
          a.refunds + b.refunds, a.tickets + b.tickets, a.scenarios + b.scenarios)
  }

  /** One order, and whose. */
  lemma AddOrderRows(s: Sim, set_: Setting, customerId: Id, product: Product, p: Plan)
    ensures var (t, o) := AddOrder(s, set_, customerId, product, p);
            && t.w.orders == s.w.orders + [o] && o.customerId == customerId && o.status == p.status
            && SizesOf(t.w) == Plus(SizesOf(s.w), Sizes(0, 1, 1, 0, 0, 0, 0))
            && t.w.customers == s.w.customers && t.w.products == s.w.products
  {
    BundleInSteps(s, set_, customerId, product, p);
    hide MakeBundle, PayMethod, OffsetOr, DeliveredAt, FailedPayments, MainPayments, MakeShipment, AllowedMethods;
  }

  predicate OwnedBy(before: seq<Order>, after: seq<Order>, id: Id) {
    before <= after && forall i :: |before| <= i < |after| ==> after[i].customerId == id
  }

  lemma {:induction false} RunOrdersRows(s: Sim, set_: Setting, customerId: Id, first: OrderRecipe, more: seq<OrderRecipe>)
    requires RunOrders(s, set_, customerId, first, more).Some?
    ensures var t := RunOrders(s, set_, customerId, first, more).value.0;
            && SizesOf(t.w) == Plus(SizesOf(s.w), Sizes(0, 1 + |more|, 1 + |more|, 0, 0, 0, 0))
            && OwnedBy(s.w.orders, t.w.orders, customerId)
            && t.w.customers == s.w.customers && t.w.products == s.w.products
    decreases |more|
  {
    hide PickProduct, AddOrder, PlanOf;
    var product := PickProduct(s.w.products, set_.company.threshold, first.pick).value;
    AddOrderRows(s, set_, customerId, product, PlanOf(first, set_));
    if more != [] {
      RunOrdersRows(RunOrder(s, set_, customerId, first).value.0, set_, customerId, more[0], more[1..]);
    }
  }

  function RecipeSizes(r: Recipe, ticket: bool): Sizes {
    var refunded := if r.refund.Some? then 1 else 0;
    Sizes(0, 1 + |r.more|, 1 + |r.more|, refunded, refunded, if ticket then 1 else 0, 1)
  }

  lemma RunRecipeRows(s: Sim, set_: Setting, customerId: Id, r: Recipe, copy: int, ticket: bool)
    requires RunRecipe(s, set_, customerId, r, copy, ticket).Some?
    ensures var t := RunRecipe(s, set_, customerId, r, copy, ticket).value;
            && SizesOf(t.w) == Plus(SizesOf(s.w), RecipeSizes(r, ticket))
            && OwnedBy(s.w.orders, t.w.orders, customerId)
            && t.w.customers == s.w.customers && t.w.products == s.w.products
  {
    hide RunOrders, AddRefund, AddTicket;
    RunOrdersRows(s, set_, customerId, r.first, r.more);
    var (s1, o) := RunOrders(s, set_, customerId, r.first, r.more).value;
    if r.refund.Some? { RefundAdds(s1, set_.now, o, r.refund.value); }
    var s2 := if r.refund.Some? then AddRefund(s1, set_.now, o, r.refund.value).value else s1;
    TicketAdds(s2, set_.now, customerId, o.id);
  }

  lemma RefundAdds(s: Sim, now: Time, o: Order, r: RefundRecipe)
    requires AddRefund(s, now, o, r).Some?
    ensures var t := AddRefund(s, now, o, r).value;
            && SizesOf(t.w) == Plus(SizesOf(s.w), Sizes(0, 0, 0, 1, 1, 0, 0))
            && t.w == s.w.(returns_ := t.w.returns_, refunds := t.w.refunds)
  {
    hide FirstPaid, NeedsApproval, MakeReturn;
  }

  lemma TicketAdds(s: Sim, now: Time, customerId: Id, orderId: Id)
    ensures var t := AddTicket(s, now, customerId, orderId);
            && SizesOf(t.w) == Plus(SizesOf(s.w), Sizes(0, 0, 0, 0, 0, 1, 0)) && t.w == s.w.(tickets := t.w.tickets)
  {
    hide Draws.RandInt;
  }

  // ---------- the anomalies ----------

  function Total(todo: seq<Anomaly>): Sizes {
    if todo == [] then Sizes(0, 0, 0, 0, 0, 0, 0)
    else Plus(Plus(Sizes(1, 0, 0, 0, 0, 0, 0), RecipeSizes(todo[0].recipe, true)), Total(todo[1..]))
  }

  /** Everyone so far has an order. */
  predicate Served(w: Tables) { forall c :: c in w.customers ==> OrdersOf(w.orders, c.id) > 0 }

  /** No two customers share an id. */
  predicate UniqueCustomers(customers: seq<Customer>) {
    forall i, j :: 0 <= i < j < |customers| ==> customers[i].id != customers[j].id
  }

  lemma OwnedServes(before: seq<Order>, after: seq<Order>, id: Id)
    requires OwnedBy(before, after, id) && |after| > |before|
    ensures OrdersOf(after, id) > 0
  {
    assert after[|after| - 1].customerId == id;
  }

  lemma ServedStays(a: Tables, b: Tables)
    requires Served(a) && a.orders <= b.orders && b.customers == a.customers
    ensures Served(b)
  {
    forall c | c in b.customers ensures OrdersOf(b.orders, c.id) > 0 { MoreOrders(a.orders, b.orders, c.id); }
  }

  lemma RunAnomalyRows(s: Sim, set_: Setting, a: Anomaly, copy: int)
    requires RunAnomaly(s, set_, a, copy).Some? && Served(s.w)
    ensures var t := RunAnomaly(s, set_, a, copy).value;
            && SizesOf(t.w) == Plus(SizesOf(s.w), Total([a])) && Served(t.w)
            && s.w.orders <= t.w.orders && t.w.products == s.w.products
            && |t.w.customers| == |s.w.customers| + 1 && s.w.customers <= t.w.customers
  {
    hide BuildCustomer, RunRecipe, OrdersOf;
    var c := BuildCustomer(s.w, s.d, set_.now, |s.w.customers| + 1, a.tier, Active, None, a.name);
    var s1 := Sim(AddCustomer(s.w, c.value), c.draws);
    RunRecipeRows(s1, set_, c.value.id, a.recipe, copy, true);
    var t := RunAnomaly(s, set_, a, copy).value;
    OwnedServes(s.w.orders, t.w.orders, c.value.id);
    forall x | x in t.w.customers ensures OrdersOf(t.w.orders, x.id) > 0 {
      if x in s.w.customers { MoreOrders(s.w.orders, t.w.orders, x.id); }
    }
    assert [a][1..] == [];
  }

  lemma {:induction false} RunAnomaliesRows(s: Sim, set_: Setting, todo: seq<Anomaly>, copy: int)
    requires RunAnomalies(s, set_, todo, copy).Some? && Served(s.w)
    ensures var t := RunAnomalies(s, set_, todo, copy).value;
            && SizesOf(t.w) == Plus(SizesOf(s.w), Total(todo)) && Served(t.w)
            && s.w.orders <= t.w.orders && t.w.products == s.w.products && s.w.customers <= t.w.customers
    decreases |todo|
  {
    hide RunAnomaly, OrdersOf, RecipeSizes, Served;
    if todo != [] {
      RunAnomalyRows(s, set_, todo[0], copy);
      assert [todo[0]][1..] == [];
      RunAnomaliesRows(RunAnomaly(s, set_, todo[0], copy).value, set_, todo[1..], copy);
    }
  }

  /** Recipes of one order, without and with a refund, and the one of three orders. */
  lemma RecipesAre(ticket: bool)
    ensures var plain := Sizes(0, 1, 1, 0, 0, if ticket then 1 else 0, 1);
            && RecipeSizes(DOUBLE_PAYMENT, ticket) == plain && RecipeSizes(DELAYED_SHIPMENT, ticket) == plain
            && RecipeSizes(DELIVERED_MISSING, ticket) == plain && RecipeSizes(CANCEL_AFTER_SHIP, ticket) == plain
            && RecipeSizes(GOLD_TIER, ticket) == plain && RecipeSizes(FAILED_PAYMENT, ticket) == plain
            && RecipeSizes(HAPPY_PATH, ticket) == plain
    ensures var refunded := Sizes(0, 1, 1, 1, 1, if ticket then 1 else 0, 1);
            && RecipeSizes(REFUND_OUTSIDE_WINDOW, ticket) == refunded && RecipeSizes(DEFECTIVE_WARRANTY, ticket) == refunded
            && RecipeSizes(HIGH_VALUE_REFUND, ticket) == refunded && RecipeSizes(FINAL_SALE, ticket) == refunded
    ensures RecipeSizes(FRAUD_RISK, ticket) == Sizes(0, 3, 3, 0, 0, if ticket then 1 else 0, 1)
  {
  }

  lemma AnomalyList()
    ensures |ANOMALIES| == 10
    ensures ANOMALIES[0].recipe == DOUBLE_PAYMENT && ANOMALIES[1].recipe == DELAYED_SHIPMENT
    ensures ANOMALIES[2].recipe == DELIVERED_MISSING && ANOMALIES[3].recipe == REFUND_OUTSIDE_WINDOW
    ensures ANOMALIES[4].recipe == DEFECTIVE_WARRANTY && ANOMALIES[5].recipe == HIGH_VALUE_REFUND
    ensures ANOMALIES[6].recipe == CANCEL_AFTER_SHIP && ANOMALIES[7].recipe == FRAUD_RISK
    ensures ANOMALIES[8].recipe == FINAL_SALE && ANOMALIES[9].recipe == GOLD_TIER
  {
  }

  /** One copy of the anomalies: ten customers, twelve orders, four refunds, ten tickets and labels. */
  lemma AnomalyTotal()
    ensures Total(ANOMALIES) == Sizes(10, 12, 12, 4, 4, 10, 10)
  {
    AnomalyList();
    RecipesAre(true);
    hide *;
    TotalOfNone();
    TotalFrom(9); TotalFrom(8); TotalFrom(7); TotalFrom(6); TotalFrom(5);
    TotalFrom(4); TotalFrom(3); TotalFrom(2); TotalFrom(1); TotalFrom(0);
    assert ANOMALIES[10..] == [] && ANOMALIES[0..] == ANOMALIES;
  }

  lemma TotalOfNone()
    ensures Total([]) == Sizes(0, 0, 0, 0, 0, 0, 0) == ShowcaseTotal([])
  {
  }

  lemma TotalFrom(i: nat)
    requires i < |ANOMALIES|
    ensures var z, rest := RecipeSizes(ANOMALIES[i].recipe, true), Total(ANOMALIES[i + 1..]);
            Total(ANOMALIES[i..])
            == Sizes(1 + z.customers + rest.customers, z.orders + rest.orders, z.items + rest.items,
                     z.returns_ + rest.returns_, z.refunds + rest.refunds, z.tickets + rest.tickets,
                     z.scenarios + rest.scenarios)
  {
    hide ANOMALIES, RecipeSizes;
    assert ANOMALIES[i..][1..] == ANOMALIES[i + 1..];
  }

  function Times(n: nat, z: Sizes): Sizes {
    Sizes(n * z.customers, n * z.orders, n * z.items, n * z.returns_, n * z.refunds, n * z.tickets, n * z.scenarios)
  }

  lemma {:induction false} RunCopiesRows(s: Sim, set_: Setting, copy: nat, copies: nat)
    requires copy <= copies + 1 && RunCopies(s, set_, copy, copies).Some? && Served(s.w)
    ensures var t := RunCopies(s, set_, copy, copies).value;
            && SizesOf(t.w) == Plus(SizesOf(s.w), Times(copies + 1 - copy, Sizes(10, 12, 12, 4, 4, 10, 10))) && Served(t.w)
            && t.w.products == s.w.products && s.w.customers <= t.w.customers
    decreases copies + 1 - copy
  {
    hide RunAnomalies, Served, ANOMALIES, Total;
    if copy <= copies {
      AnomalyTotal();
      RunAnomaliesRows(s, set_, ANOMALIES, copy);
      RunCopiesRows(RunAnomalies(s, set_, ANOMALIES, copy).value, set_, copy + 1, copies);
    }
  }

  lemma OverlayRows(s: Sim, set_: Setting, copies: nat)
    requires Overlay(s, set_, copies).Some? && Served(s.w)
    ensures var t := Overlay(s, set_, copies).value;
            && SizesOf(t.w)
               == Plus(SizesOf(s.w), Plus(Times(copies, Sizes(10, 12, 12, 4, 4, 10, 10)), Sizes(0, 0, 0, 0, 0, 0, 6)))
            && Served(t.w) && t.w.products == s.w.products && s.w.customers <= t.w.customers
  {
    hide RunCopies, FirstOfKind;
    RunCopiesRows(s, set_, 1, copies);
  }

  // ---------- the showcase ----------

  function ShowcaseTotal(todo: seq<Recipe>): Sizes {
    if todo == [] then Sizes(0, 0, 0, 0, 0, 0, 0) else Plus(RecipeSizes(todo[0], false), ShowcaseTotal(todo[1..]))
  }

  lemma {:induction false} RunShowcaseRows(s: Sim, set_: Setting, customerId: Id, todo: seq<Recipe>, number: int)
    requires RunShowcase(s, set_, customerId, todo, number).Some?
    ensures var t := RunShowcase(s, set_, customerId, todo, number).value;
            && SizesOf(t.w) == Plus(SizesOf(s.w), ShowcaseTotal(todo)) && OwnedBy(s.w.orders, t.w.orders, customerId)
            && t.w.customers == s.w.customers && t.w.products == s.w.products
    decreases |todo|
  {
    hide RunRecipe, RecipeSizes;
    if todo != [] {
      RunRecipeRows(s, set_, customerId, todo[0], number, false);
      RunShowcaseRows(RunRecipe(s, set_, customerId, todo[0], number, false).value, set_, customerId, todo[1..], number + 1);
    }
  }

  lemma ShowcaseList()
    ensures |SHOWCASE| == 10
    ensures SHOWCASE[0] == DOUBLE_PAYMENT && SHOWCASE[1] == DELAYED_SHIPMENT && SHOWCASE[2] == DELIVERED_MISSING
    ensures SHOWCASE[3] == REFUND_OUTSIDE_WINDOW && SHOWCASE[4] == DEFECTIVE_WARRANTY && SHOWCASE[5] == HIGH_VALUE_REFUND
    ensures SHOWCASE[6] == CANCEL_AFTER_SHIP && SHOWCASE[7] == FINAL_SALE && SHOWCASE[8] == FAILED_PAYMENT
    ensures SHOWCASE[9] == HAPPY_PATH
  {
  }

  lemma ShowcaseTotals()
    ensures ShowcaseTotal(SHOWCASE) == Sizes(0, 10, 10, 4, 4, 0, 10)
  {
    ShowcaseList();
    RecipesAre(false);
    hide *;
    TotalOfNone();
    ShowcaseFrom(9); ShowcaseFrom(8); ShowcaseFrom(7); ShowcaseFrom(6); ShowcaseFrom(5);
    ShowcaseFrom(4); ShowcaseFrom(3); ShowcaseFrom(2); ShowcaseFrom(1); ShowcaseFrom(0);
    assert SHOWCASE[10..] == [] && SHOWCASE[0..] == SHOWCASE;
  }

  lemma ShowcaseFrom(i: nat)
    requires i < |SHOWCASE|
    ensures var z, rest := RecipeSizes(SHOWCASE[i], false), ShowcaseTotal(SHOWCASE[i + 1..]);
            ShowcaseTotal(SHOWCASE[i..])
            == Sizes(z.customers + rest.customers, z.orders + rest.orders, z.items + rest.items,
                     z.returns_ + rest.returns_, z.refunds + rest.refunds, z.tickets + rest.tickets,
                     z.scenarios + rest.scenarios)
  {
    hide SHOWCASE, RecipeSizes;
    assert SHOWCASE[i..][1..] == SHOWCASE[i + 1..];
  }

  predicate IsShowcase(c: Customer) { c.name == "Demo Tester" && c.tier == Standard && c.status == Active }

  /** The showcase customer comes last and owns the ten orders that are added. */
  lemma ShowcaseRows(s: Sim, set_: Setting)
    requires Showcase(s, set_).Some? && Served(s.w)
    ensures var t := Showcase(s, set_).value;
            && SizesOf(t.w) == Plus(SizesOf(s.w), Sizes(1, 10, 10, 4, 4, 0, 10)) && Served(t.w)
            && t.w.products == s.w.products && s.w.customers <= t.w.customers && s.w.orders <= t.w.orders
            && var c := t.w.customers[|s.w.customers|];
               c.email == DEMO_SHOWCASE_EMAIL && OwnedBy(s.w.orders, t.w.orders, c.id) && c.id >= s.d.pos && IsShowcase(c)
  {
    hide BuildCustomer, RunShowcase, SHOWCASE, OrdersOf, DEMO_SHOWCASE_EMAIL, DEMO_SHOWCASE_NAME;
    ShowcaseTotals();
    ShowcaseRuns(s, set_);
    WelcomedIs(s, set_);
    var (s1, id) := Welcomed(s, set_);
    RunShowcaseRows(s1, set_, id, SHOWCASE, 1);
    var t := Showcase(s, set_).value;
    OwnedServes(s.w.orders, t.w.orders, id);
    forall x | x in t.w.customers ensures OrdersOf(t.w.orders, x.id) > 0 {
      if x in s.w.customers { MoreOrders(s.w.orders, t.w.orders, x.id); }
    }
  }

  lemma WelcomedIs(s: Sim, set_: Setting)
    ensures var (t, id) := Welcomed(s, set_);
            && |t.w.customers| == |s.w.customers| + 1 && s.w.customers <= t.w.customers
            && t.w.customers[|s.w.customers|].id == id >= s.d.pos && t.w.customers[|s.w.customers|].email == DEMO_SHOWCASE_EMAIL
            && t.w == s.w.(customers := t.w.customers) && IsShowcase(t.w.customers[|s.w.customers|])
            && t.w.customers == s.w.customers + [t.w.customers[|s.w.customers|]]
  {
    PersonDraws(Some(DEMO_SHOWCASE_NAME), s.d);
    assert DEMO_SHOWCASE_NAME == "Demo Tester";
    hide PersonName, Allocate, UsedEmails, TierDraw, Draws.RandInt;
  }
  // ---------- the filler ----------

  function Larger(a: nat, b: nat): nat { if a < b then b else a }

  lemma {:induction false} FillCustomersRows(s: Sim, now: Time, target: nat)
    ensures var t := FillCustomers(s, now, target);
            && |t.w.customers| == Larger(|s.w.customers|, target) && s.w.customers <= t.w.customers
            && forall i :: |s.w.customers| <= i < |t.w.customers| ==> HasAllocatedForm(t.w.customers[i].email)
    decreases target - |s.w.customers|
  {
    hide BuildCustomer, StatusOfRoll, HasAllocatedForm;
    if |s.w.customers| < target {
      var status := StatusOfRoll(s.d.Random());
      BuildCustomerFacts(s.w, s.d.Next(), now, |s.w.customers| + 1, None, status, None, None);
      var c := BuildCustomer(s.w, s.d.Next(), now, |s.w.customers| + 1, None, status, None, None);
      var s1 := Sim(AddCustomer(s.w, c.value), c.draws);
      FillCustomersRows(s1, now, target);
      assert FillCustomers(s1, now, target).w.customers[|s.w.customers|] == c.value;
    }
  }

  lemma AddRandomRows(s: Sim, set_: Setting, customerId: Id)
    requires s.w.products != []
    ensures var t := AddRandomOrder(s, set_, customerId);
            && SizesOf(t.w) == Plus(SizesOf(s.w), Sizes(0, 1, 1, 0, 0, 0, 0)) && OwnedBy(s.w.orders, t.w.orders, customerId)
            && t.w.customers == s.w.customers && t.w.products == s.w.products
  {
    hide AddOrder, HappyTiming, HappyPlan, WeightedStatus, Draws.Index;
    var product := s.w.products[s.d.Index(|s.w.products|)];
    var status := WeightedStatus(s.d.Next().Index(100));
    var t := HappyTiming(status, s.d.Next().Next());
    AddOrderRows(Sim(s.w, t.draws), set_, customerId, product, HappyPlan(status, t.value, set_.now));
  }

  lemma {:induction false} OthersOrders(before: seq<Order>, after: seq<Order>, id: Id)
    requires before <= after && forall i :: |before| <= i < |after| ==> after[i].customerId != id
    ensures OrdersOf(after, id) == OrdersOf(before, id)
    decreases |after|
  {
    if |before| < |after| {
      var n := |after| - 1;
      assert forall i :: |before| <= i < n ==> after[..n][i] == after[i];
      OthersOrders(before, after[..n], id);
    } else {
      assert before == after;
    }
  }

  lemma {:induction false} OwnOrders(before: seq<Order>, after: seq<Order>, id: Id)
    requires OwnedBy(before, after, id)
    ensures OrdersOf(after, id) == OrdersOf(before, id) + |after| - |before|
    decreases |after|
  {
    if |before| < |after| {
      var n := |after| - 1;
      assert forall i :: |before| <= i < n ==> after[..n][i] == after[i];
      OwnOrders(before, after[..n], id);
    } else {
      assert before == after;
    }
  }

  /** How many of them have no order. */
  function Unserved(todo: seq<Customer>, orders: seq<Order>): nat {
    if todo == [] then 0 else (if OrdersOf(orders, todo[0].id) == 0 then 1 else 0) + Unserved(todo[1..], orders)
  }

  lemma {:induction false} FewerUnserved(todo: seq<Customer>, a: seq<Order>, b: seq<Order>)
    requires a <= b
    ensures Unserved(todo, b) <= Unserved(todo, a)
  {
    hide OrdersOf;
    if todo != [] {
      MoreOrders(a, b, todo[0].id);
      FewerUnserved(todo[1..], a, b);
    }
  }

  lemma {:induction false} ServedPrefix(todo: seq<Customer>, served: nat, orders: seq<Order>)
    requires served <= |todo| && forall i :: 0 <= i < served ==> OrdersOf(orders, todo[i].id) > 0
    ensures Unserved(todo, orders) <= |todo| - served
  {
    hide OrdersOf;
    if todo != [] {
      forall i | 0 <= i < served - 1 ensures OrdersOf(orders, todo[1..][i].id) > 0 { assert todo[1..][i] == todo[i + 1]; }
      ServedPrefix(todo[1..], if served > 0 then served - 1 else 0, orders);
    }
  }

  /** Only those without an order get one, and one each. */
  lemma {:induction false} FillOwnersRows(s: Sim, set_: Setting, todo: seq<Customer>)
    requires s.w.products != []
    ensures var t := FillOwners(s, set_, todo);
            var n := |t.w.orders| - |s.w.orders|;
            && 0 <= n <= Unserved(todo, s.w.orders) && SizesOf(t.w) == Plus(SizesOf(s.w), Sizes(0, n, n, 0, 0, 0, 0))
            && s.w.orders <= t.w.orders
            && forall id :: OrdersOf(s.w.orders, id) > 0 ==> OrdersOf(t.w.orders, id) == OrdersOf(s.w.orders, id)
    decreases |todo|
  {
    hide AddRandomOrder, OrdersOf;
    if todo != [] {
      var c := todo[0];
      AddRandomRows(s, set_, c.id);
      var next := if OrdersOf(s.w.orders, c.id) == 0 then AddRandomOrder(s, set_, c.id) else s;
      FewerUnserved(todo[1..], s.w.orders, next.w.orders);
      forall id | OrdersOf(s.w.orders, id) > 0 ensures OrdersOf(next.w.orders, id) == OrdersOf(s.w.orders, id) {
        if OrdersOf(s.w.orders, c.id) == 0 { OthersOrders(s.w.orders, next.w.orders, id); }
      }
      FillOwnersRows(next, set_, todo[1..]);
    }
  }

  lemma {:induction false} EligibleIff(customers: seq<Customer>)
    ensures forall c :: c in Eligible(customers) <==> c in customers && Lower(c.email) != DEMO_SHOWCASE_EMAIL
  {
    hide Lower;
    if customers != [] { EligibleIff(customers[1..]); }
  }

  predicate HasOthers(customers: seq<Customer>) { exists c :: c in customers && Lower(c.email) != DEMO_SHOWCASE_EMAIL }

  /** The filler stops exactly at its target, and passes over the showcase customer while there is anyone else. */
  lemma {:induction false} FillOrdersRows(s: Sim, set_: Setting, target: nat)
    requires s.w.products != [] && s.w.customers != []
    ensures var t := FillOrders(s, set_, target);
            var n := |t.w.orders| - |s.w.orders|;
            && |t.w.orders| == Larger(|s.w.orders|, target) && SizesOf(t.w) == Plus(SizesOf(s.w), Sizes(0, n, n, 0, 0, 0, 0))
            && s.w.orders <= t.w.orders && t.w.customers == s.w.customers && t.w.products == s.w.products
            && forall i :: |s.w.orders| <= i < |t.w.orders| ==>
                 exists c :: c in s.w.customers && c.id == t.w.orders[i].customerId
                             && (HasOthers(s.w.customers) ==> Lower(c.email) != DEMO_SHOWCASE_EMAIL)
    decreases target - |s.w.orders|
  {
    hide AddRandomOrder, Eligible, Draws.Index, Lower, DEMO_SHOWCASE_EMAIL;
    if |s.w.orders| < target {
      EligibleIff(s.w.customers);
      var eligible := Eligible(s.w.customers);
      var among := if eligible != [] then eligible else s.w.customers;
      var c := among[s.d.Index(|among|)];
      assert c in among;
      if HasOthers(s.w.customers) {
        var o :| o in s.w.customers && Lower(o.email) != DEMO_SHOWCASE_EMAIL;
        assert o in eligible;
      }
      var s0 := Sim(s.w, s.d.Next());
      AddRandomRows(s0, set_, c.id);
      FillOrdersRows(AddRandomOrder(s0, set_, c.id), set_, target);
    }
  }

  // ---------- ids of customers ----------

  lemma NewCustomer(s: Sim, set_: Setting, c: Customer)
    requires Sound(s, set_) && UniqueCustomers(s.w.customers) && c.id >= s.d.pos
    ensures UniqueCustomers(s.w.customers + [c])
  {
    hide UniqueOrders, PricesOk, ItemsOk, OrdersOk, PaymentsOk, DeliveredPaid, ShipmentsOk, ReturnsOk, RefundsOk;
    hide TicketsOk, DoublesOk, EmailsDistinct;
    forall x | x in s.w.customers ensures x.id < c.id { }
  }

  lemma RunAnomalyUnique(s: Sim, set_: Setting, a: Anomaly, copy: int)
    requires Sound(s, set_) && UniqueCustomers(s.w.customers) && RunAnomaly(s, set_, a, copy).Some?
    ensures UniqueCustomers(RunAnomaly(s, set_, a, copy).value.w.customers)
  {
    hide Sound, BuildCustomer, RunRecipe, UniqueCustomers;
    BuildCustomerFacts(s.w, s.d, set_.now, |s.w.customers| + 1, a.tier, Active, None, a.name);
    var c := BuildCustomer(s.w, s.d, set_.now, |s.w.customers| + 1, a.tier, Active, None, a.name);
    NewCustomer(s, set_, c.value);
    RunRecipeRows(Sim(AddCustomer(s.w, c.value), c.draws), set_, c.value.id, a.recipe, copy, true);
  }

  lemma {:induction false} RunAnomaliesUnique(s: Sim, set_: Setting, todo: seq<Anomaly>, copy: int)
    requires Sound(s, set_) && AnomaliesOk(todo) && s.w.products != [] && AllFormed(s.w.customers)
    requires UniqueCustomers(s.w.customers) && RunAnomalies(s, set_, todo, copy).Some?
    ensures UniqueCustomers(RunAnomalies(s, set_, todo, copy).value.w.customers)
    decreases |todo|
  {
    hide Sound, RunAnomaly, RecipeOk, AllDated, AllFormed, HasKind, UniqueCustomers;
    if todo != [] {
      assert todo[0] in todo;
      RunAnomalySound(s, set_, todo[0], copy);
      RunAnomalyUnique(s, set_, todo[0], copy);
      RunAnomaliesUnique(RunAnomaly(s, set_, todo[0], copy).value, set_, todo[1..], copy);
    }
  }

  lemma {:induction false} RunCopiesUnique(s: Sim, set_: Setting, copy: nat, copies: nat)
    requires copy <= copies + 1 && Sound(s, set_) && s.w.products != [] && AllFormed(s.w.customers)
    requires UniqueCustomers(s.w.customers) && RunCopies(s, set_, copy, copies).Some?
    ensures UniqueCustomers(RunCopies(s, set_, copy, copies).value.w.customers)
    decreases copies + 1 - copy
  {
    hide Sound, RunAnomalies, AnomaliesOk, AnomaliesDated, AllDated, AllFormed, ANOMALIES, HasKind, UniqueCustomers;
    if copy <= copies {
      ListsOk(set_.company.windowDays);
      RunAnomaliesSound(s, set_, ANOMALIES, copy);
      RunAnomaliesUnique(s, set_, ANOMALIES, copy);
      RunCopiesUnique(RunAnomalies(s, set_, ANOMALIES, copy).value, set_, copy + 1, copies);
    }
  }

  lemma OverlayUnique(s: Sim, set_: Setting, copies: nat)
    requires Sound(s, set_) && s.w.products != [] && s.w.customers == [] && Overlay(s, set_, copies).Some?
    ensures UniqueCustomers(Overlay(s, set_, copies).value.w.customers)
  {
    hide Sound, RunCopies, FirstOfKind, HasAllocatedForm;
    RunCopiesUnique(s, set_, 1, copies);
  }

  lemma ShowcaseUnique(s: Sim, set_: Setting)
    requires Sound(s, set_) && UniqueCustomers(s.w.customers) && Showcase(s, set_).Some?
    ensures UniqueCustomers(Showcase(s, set_).value.w.customers)
  {
    hide Sound, BuildCustomer, RunShowcase, UniqueCustomers, SHOWCASE, DEMO_SHOWCASE_EMAIL, DEMO_SHOWCASE_NAME;
    BuildCustomerFacts(s.w, s.d, set_.now, |s.w.customers| + 1, Some(Standard), Active, Some(DEMO_SHOWCASE_EMAIL),
                       Some(DEMO_SHOWCASE_NAME));
    var c := BuildCustomer(s.w, s.d, set_.now, |s.w.customers| + 1, Some(Standard), Active, Some(DEMO_SHOWCASE_EMAIL),
                           Some(DEMO_SHOWCASE_NAME));
    NewCustomer(s, set_, c.value);
    RunShowcaseRows(Sim(AddCustomer(s.w, c.value), c.draws), set_, c.value.id, SHOWCASE, 1);
  }

  lemma {:induction false} FillCustomersUnique(s: Sim, set_: Setting, target: nat)
    requires Sound(s, set_) && UniqueCustomers(s.w.customers)
    ensures UniqueCustomers(FillCustomers(s, set_.now, target).w.customers)
    decreases target - |s.w.customers|
  {
    hide Sound, BuildCustomer, StatusOfRoll, UniqueCustomers, AllDated, HasAllocatedForm, UsedEmails;
    if |s.w.customers| < target {
      var status := StatusOfRoll(s.d.Random());
      BuildCustomerFacts(s.w, s.d.Next(), set_.now, |s.w.customers| + 1, None, status, None, None);
      var c := BuildCustomer(s.w, s.d.Next(), set_.now, |s.w.customers| + 1, None, status, None, None);
      LaterDrawsSound(s, set_, s.d.Next());
      AddCustomerSound(Sim(s.w, s.d.Next()), set_, c.value, c.draws);
      NewCustomer(s, set_, c.value);
      FillCustomersUnique(Sim(AddCustomer(s.w, c.value), c.draws), set_, target);
    }
  }
}

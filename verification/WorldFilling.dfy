/** The showcase and the happy path keep the invariant and give everyone an order. */
module WorldFilling {
  import opened Text
  import opened Records
  import opened Catalog
  import opened Emails
  import opened WorldSpec
  import opened WorldIntegrity
  import opened WorldInvariant
  import opened WorldBuilders
  import opened WorldSound
  import opened WorldRuns

  // ---------- the showcase ----------

  lemma {:induction false} RunShowcaseSound(s: Sim, set_: Setting, customerId: Id, todo: seq<Recipe>, number: int)
    requires Sound(s, set_) && ShowcaseOk(todo) && s.w.products != [] && customerId in CustomerIds(s.w.customers)
    ensures var t := RunShowcase(s, set_, customerId, todo, number);
            t.Some? ==> Sound(t.value, set_) && Grown(s.w, t.value.w) && t.value.w.customers == s.w.customers
                        && (AllDated(s.w) && ShowcaseDated(todo, set_.company.windowDays) ==> AllDated(t.value.w))
    ensures HasLaptopAbove(s.w.products, set_.company.threshold) ==> RunShowcase(s, set_, customerId, todo, number).Some?
    decreases |todo|
  {
    hide Sound, RunRecipe, RecipeOk, RecipeDated, AllDated, HasLaptopAbove, HasKind;
    if todo != [] {
      assert todo[0] in todo;
      RunRecipeSound(s, set_, customerId, todo[0], number, false);
      var one := RunRecipe(s, set_, customerId, todo[0], number, false);
      if one.Some? {
        RunShowcaseSound(one.value, set_, customerId, todo[1..], number + 1);
        var t := RunShowcase(one.value, set_, customerId, todo[1..], number + 1);
        if t.Some? { GrownTrans(s.w, one.value.w, t.value.w); }
      }
    }
  }

  lemma ShowcaseAddressIsNew(customers: seq<Customer>)
    requires AllFormed(customers)
    ensures Lower(DEMO_SHOWCASE_EMAIL) !in UsedEmails(customers)
  {
    hide HasAllocatedForm;
    assert Lower(DEMO_SHOWCASE_EMAIL) == DEMO_SHOWCASE_EMAIL;
    forall c | c in customers ensures Lower(c.email) != DEMO_SHOWCASE_EMAIL { ShowcaseIsSpecial(c.email); }
  }

  /** The showcase customer joins, and the recipes run for them. */
  function Welcomed(s: Sim, set_: Setting): (Sim, Id) {
    var c := BuildCustomer(s.w, s.d, set_.now, |s.w.customers| + 1, Some(Standard), Active, Some(DEMO_SHOWCASE_EMAIL),
                           Some(DEMO_SHOWCASE_NAME));
    (Sim(AddCustomer(s.w, c.value), c.draws), c.value.id)
  }

  lemma WelcomedSound(s: Sim, set_: Setting)
    requires Sound(s, set_) && AllFormed(s.w.customers)
    ensures var (t, id) := Welcomed(s, set_);
            && Sound(t, set_) && Grown(s.w, t.w) && id in CustomerIds(t.w.customers) && t.w.customers != []
            && (AllDated(s.w) ==> AllDated(t.w))
  {
    hide Sound, BuildCustomer, AllDated, AllFormed, UsedEmails, Lower, HasAllocatedForm, DEMO_SHOWCASE_EMAIL;
    hide DEMO_SHOWCASE_NAME, CustomerIds;
    ShowcaseAddressIsNew(s.w.customers);
    BuildCustomerFacts(s.w, s.d, set_.now, |s.w.customers| + 1, Some(Standard), Active, Some(DEMO_SHOWCASE_EMAIL),
                       Some(DEMO_SHOWCASE_NAME));
    var c := BuildCustomer(s.w, s.d, set_.now, |s.w.customers| + 1, Some(Standard), Active, Some(DEMO_SHOWCASE_EMAIL),
                           Some(DEMO_SHOWCASE_NAME));
    AddCustomerSound(s, set_, c.value, c.draws);
  }

  lemma ShowcaseRuns(s: Sim, set_: Setting)
    ensures var (t, id) := Welcomed(s, set_); Showcase(s, set_) == RunShowcase(t, set_, id, SHOWCASE, 1)
  {
    hide BuildCustomer, RunShowcase, SHOWCASE;
  }

  lemma ShowcaseSound(s: Sim, set_: Setting)
    requires Sound(s, set_) && s.w.products != [] && AllFormed(s.w.customers)
    ensures var t := Showcase(s, set_);
            t.Some? ==>
              && Sound(t.value, set_) && Grown(s.w, t.value.w) && t.value.w.customers != []
              && (AllDated(s.w) && set_.company.windowDays >= -4 ==> AllDated(t.value.w))
    ensures HasLaptopAbove(s.w.products, set_.company.threshold) ==> Showcase(s, set_).Some?
  {
    hide Sound, Welcomed, Showcase, RunShowcase, ShowcaseOk, ShowcaseDated, SHOWCASE, AllDated, HasLaptopAbove, AllFormed;
    ListsOk(set_.company.windowDays);
    WelcomedSound(s, set_);
    ShowcaseRuns(s, set_);
    var (s1, id) := Welcomed(s, set_);
    RunShowcaseSound(s1, set_, id, SHOWCASE, 1);
    var t := RunShowcase(s1, set_, id, SHOWCASE, 1);
    if t.Some? { GrownTrans(s.w, s1.w, t.value.w); }
  }

  // ---------- the happy path ----------

  lemma HappyPlanFits(status: OrderStatus, d: Draws, now: Time)
    ensures var p := HappyPlan(status, HappyTiming(status, d).value, now); PlanOk(p) && PlanDated(p, now)
    ensures HappyTiming(status, d).draws.pos >= d.pos && HappyTiming(status, d).draws.tape == d.tape
  {
  }

  lemma AddRandomOrderSound(s: Sim, set_: Setting, customerId: Id)
    requires Sound(s, set_) && s.w.products != [] && customerId in CustomerIds(s.w.customers)
    ensures var t := AddRandomOrder(s, set_, customerId);
            && Sound(t, set_) && Grown(s.w, t.w) && t.w.customers == s.w.customers
            && |t.w.orders| == |s.w.orders| + 1 && t.w.orders[|s.w.orders|].customerId == customerId
            && (AllDated(s.w) ==> AllDated(t.w))
  {
    hide AddOrder, HappyTiming, HappyPlan, WeightedStatus, AllDated, Draws.Index, PaidCount, Inv, PlanOk, PlanDated;
    var product := s.w.products[s.d.Index(|s.w.products|)];
    var status := WeightedStatus(s.d.Next().Index(100));
    var t := HappyTiming(status, s.d.Next().Next());
    HappyPlanFits(status, s.d.Next().Next(), set_.now);
    LaterDrawsSound(s, set_, t.draws);
    AddOrderSound(Sim(s.w, t.draws), set_, customerId, product, HappyPlan(status, t.value, set_.now));
  }

  /** Draws taken in between do no harm. */
  lemma LaterDrawsSound(s: Sim, set_: Setting, d: Draws)
    requires Sound(s, set_) && d.pos >= s.d.pos
    ensures Sound(Sim(s.w, d), set_)
  {
    hide UniqueOrders, PricesOk, ItemsOk, OrdersOk, PaymentsOk, DeliveredPaid, ShipmentsOk, ReturnsOk, RefundsOk;
    hide TicketsOk, DoublesOk, EmailsDistinct;
  }

  lemma {:induction false} FillCustomersSound(s: Sim, set_: Setting, target: nat)
    requires Sound(s, set_)
    ensures var t := FillCustomers(s, set_.now, target);
            Sound(t, set_) && Grown(s.w, t.w) && (AllDated(s.w) ==> AllDated(t.w))
    decreases target - |s.w.customers|
  {
    hide Sound, BuildCustomer, AllDated, UsedEmails, HasAllocatedForm, StatusOfRoll;
    if |s.w.customers| < target {
      var status := StatusOfRoll(s.d.Random());
      BuildCustomerFacts(s.w, s.d.Next(), set_.now, |s.w.customers| + 1, None, status, None, None);
      var c := BuildCustomer(s.w, s.d.Next(), set_.now, |s.w.customers| + 1, None, status, None, None);
      LaterDrawsSound(s, set_, s.d.Next());
      AddCustomerSound(Sim(s.w, s.d.Next()), set_, c.value, c.draws);
      var s1 := Sim(AddCustomer(s.w, c.value), c.draws);
      FillCustomersSound(s1, set_, target);
      GrownTrans(s.w, s1.w, FillCustomers(s1, set_.now, target).w);
    }
  }

  lemma {:induction false} MoreOrders(a: seq<Order>, b: seq<Order>, id: Id)
    requires a <= b
    ensures OrdersOf(a, id) <= OrdersOf(b, id)
    decreases |b|
  {
    if |a| < |b| {
      assert a <= b[..|b| - 1];
      MoreOrders(a, b[..|b| - 1], id);
    } else {
      assert a == b;
    }
  }

  lemma OneMoreOrder(a: seq<Order>, b: seq<Order>, id: Id)
    requires a <= b && |b| == |a| + 1 && b[|a|].customerId == id
    ensures OrdersOf(b, id) > 0
  {
    assert b[..|b| - 1] == a;
  }

  predicate HaveOrders(customers: seq<Customer>, orders: seq<Order>) {
    forall c :: c in customers ==> OrdersOf(orders, c.id) > 0
  }

  lemma {:induction false} FillOwnersSound(s: Sim, set_: Setting, todo: seq<Customer>)
    requires Sound(s, set_) && s.w.products != [] && forall c :: c in todo ==> c in s.w.customers
    ensures var t := FillOwners(s, set_, todo);
            && Sound(t, set_) && Grown(s.w, t.w) && (AllDated(s.w) ==> AllDated(t.w))
            && HaveOrders(todo, t.w.orders)
    decreases |todo|
  {
    hide Sound, AddRandomOrder, AllDated;
    if todo != [] {
      var c := todo[0];
      assert c in todo && todo == [c] + todo[1..];
      AddRandomOrderSound(s, set_, c.id);
      var next := if OrdersOf(s.w.orders, c.id) == 0 then AddRandomOrder(s, set_, c.id) else s;
      if OrdersOf(s.w.orders, c.id) == 0 { OneMoreOrder(s.w.orders, next.w.orders, c.id); }
      FillOwnersSound(next, set_, todo[1..]);
      var t := FillOwners(next, set_, todo[1..]);
      GrownTrans(s.w, next.w, t.w);
      MoreOrders(next.w.orders, t.w.orders, c.id);
    }
  }

  lemma {:induction false} EligibleMembers(customers: seq<Customer>)
    ensures forall c :: c in Eligible(customers) ==> c in customers
  {
    if customers != [] { EligibleMembers(customers[1..]); }
  }

  lemma {:induction false} FillOrdersSound(s: Sim, set_: Setting, target: nat)
    requires Sound(s, set_) && s.w.products != [] && s.w.customers != []
    ensures var t := FillOrders(s, set_, target);
            Sound(t, set_) && Grown(s.w, t.w) && t.w.customers == s.w.customers && (AllDated(s.w) ==> AllDated(t.w))
    decreases target - |s.w.orders|
  {
    hide Sound, AddRandomOrder, AllDated, Eligible, Draws.Index;
    if |s.w.orders| < target {
      EligibleMembers(s.w.customers);
      var eligible := Eligible(s.w.customers);
      var among := if eligible != [] then eligible else s.w.customers;
      var c := among[s.d.Index(|among|)];
      assert c in among;
      LaterDrawsSound(s, set_, s.d.Next());
      var s0 := Sim(s.w, s.d.Next());
      AddRandomOrderSound(s0, set_, c.id);
      var s1 := AddRandomOrder(s0, set_, c.id);
      FillOrdersSound(s1, set_, target);
      GrownTrans(s.w, s1.w, FillOrders(s1, set_, target).w);
    }
  }

  lemma FillSound(s: Sim, set_: Setting, customers: nat, orders: nat)
    requires Sound(s, set_) && s.w.products != [] && s.w.customers != []
    ensures var t := FillHappyPath(s, set_, customers, orders);
            && Sound(t, set_) && Grown(s.w, t.w) && (AllDated(s.w) ==> AllDated(t.w)) && EveryoneOrders(t.w)
            && t.w.customers != []
  {
    hide Sound, FillCustomers, FillOwners, FillOrders, AllDated;
    FillCustomersSound(s, set_, customers);
    var s1 := FillCustomers(s, set_.now, customers);
    FillOwnersSound(s1, set_, s1.w.customers);
    var s2 := FillOwners(s1, set_, s1.w.customers);
    FillOrdersSound(s2, set_, orders);
    var s3 := FillOrders(s2, set_, orders);
    GrownTrans(s.w, s1.w, s2.w);
    GrownTrans(s.w, s2.w, s3.w);
    forall c | c in s3.w.customers ensures OrdersOf(s3.w.orders, c.id) > 0 {
      MoreOrders(s2.w.orders, s3.w.orders, c.id);
    }
  }
}

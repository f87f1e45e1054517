/** The labels of a generated world: which there are, in which order, and that all of them are true. */
module WorldLabelled {
  import opened Text
  import opened Records
  import opened Catalog
  import opened Emails
  import opened WorldSpec
  import opened WorldIntegrity
  import opened WorldInvariant
  import opened WorldSound
  import opened WorldRuns
  import opened WorldFilling
  import opened WorldFinish
  import opened WorldTheorem
  import opened WorldSizes
  import opened WorldTally
  import opened WorldLabels

  // ---------- the labels in order ----------

  function Labels(scenarios: seq<Scenario>): seq<(Kind, int)> {
    seq(|scenarios|, i requires 0 <= i < |scenarios| => (scenarios[i].kind, scenarios[i].copy))
  }

  /** The labels of one copy of the anomalies. */
  function CopyLabels(copy: int): seq<(Kind, int)> {
    [(DoublePayment, copy), (DelayedShipment, copy), (DeliveredMissing, copy), (RefundOutsideWindow, copy),
     (DefectiveWarranty, copy), (HighValueRefund, copy), (CancelAfterShip, copy), (FraudRisk, copy), (FinalSale, copy),
     (GoldTier, copy)]
  }

  function AllCopies(copy: nat, copies: nat): seq<(Kind, int)>
    requires copy <= copies + 1
    decreases copies + 1 - copy
  {
    if copy > copies then [] else CopyLabels(copy) + AllCopies(copy + 1, copies)
  }

  const UTTERANCES: seq<(Kind, int)> :=
    [(NegativeSecurity, 1), (NegativeSecurity, 2), (NegativeSecurity, 3), (NegativeSecurity, 4), (NegativeSecurity, 5),
     (NegativeSecurity, 6)]

  const SHOWCASE_LABELS: seq<(Kind, int)> :=
    [(DoublePayment, 1), (DelayedShipment, 2), (DeliveredMissing, 3), (RefundOutsideWindow, 4), (DefectiveWarranty, 5),
     (HighValueRefund, 6), (CancelAfterShip, 7), (FinalSale, 8), (FailedPayment, 9), (HappyPath, 10)]

  function ListLabels(todo: seq<Anomaly>, copy: int): seq<(Kind, int)> {
    seq(|todo|, i requires 0 <= i < |todo| => (todo[i].recipe.kind, copy))
  }

  function RecipeLabels(todo: seq<Recipe>, number: int): seq<(Kind, int)> {
    seq(|todo|, i requires 0 <= i < |todo| => (todo[i].kind, number + i))
  }

  lemma ListsAre(copy: int)
    ensures ListLabels(ANOMALIES, copy) == CopyLabels(copy) && RecipeLabels(SHOWCASE, 1) == SHOWCASE_LABELS
  {
    AnomalyList();
    ShowcaseList();
    KindsAre();
    hide ANOMALIES, SHOWCASE, DOUBLE_PAYMENT, DELAYED_SHIPMENT, DELIVERED_MISSING, REFUND_OUTSIDE_WINDOW, DEFECTIVE_WARRANTY;
    hide HIGH_VALUE_REFUND, CANCEL_AFTER_SHIP, FRAUD_RISK, FINAL_SALE, GOLD_TIER, FAILED_PAYMENT, HAPPY_PATH;
  }

  // ---------- the anomalies ----------

  /** A recipe of the table, and the gold one for gold customers only. */
  predicate Fitting(a: Anomaly) {
    RecipeOk(a.recipe) && IsRecipe(a.recipe) && (a.recipe.kind == GoldTier ==> a.tier == Some(Gold))
  }

  predicate AllFit(todo: seq<Anomaly>) { forall a :: a in todo ==> Fitting(a) }

  lemma AnomaliesFit()
    ensures AllFit(ANOMALIES)
  {
    ListsOk(0);
    AnomalyList();
    KindsAre();
    GoldTierGiven();
    RecipesListed();
    hide ANOMALIES, SHOWCASE, DOUBLE_PAYMENT, DELAYED_SHIPMENT, DELIVERED_MISSING, REFUND_OUTSIDE_WINDOW, DEFECTIVE_WARRANTY;
    hide HIGH_VALUE_REFUND, CANCEL_AFTER_SHIP, FRAUD_RISK, FINAL_SALE, GOLD_TIER, FAILED_PAYMENT, HAPPY_PATH, RecipeOk, IsRecipe;
    forall i | 0 <= i < |ANOMALIES| ensures Fitting(ANOMALIES[i]) { assert ANOMALIES[i] in ANOMALIES; }
  }

  lemma ShowcaseFits()
    ensures AllRecipes(SHOWCASE)
  {
    ListsOk(0);
    ShowcaseList();
    KindsAre();
    RecipesListed();
    hide ANOMALIES, SHOWCASE, DOUBLE_PAYMENT, DELAYED_SHIPMENT, DELIVERED_MISSING, REFUND_OUTSIDE_WINDOW, DEFECTIVE_WARRANTY;
    hide HIGH_VALUE_REFUND, CANCEL_AFTER_SHIP, FRAUD_RISK, FINAL_SALE, GOLD_TIER, FAILED_PAYMENT, HAPPY_PATH, RecipeOk, IsRecipe;
    forall i | 0 <= i < |SHOWCASE| ensures RecipeOk(SHOWCASE[i]) && IsRecipe(SHOWCASE[i]) && SHOWCASE[i].kind != GoldTier {
      assert SHOWCASE[i] in SHOWCASE;
    }
  }

  lemma RecipesListed()
    ensures IsRecipe(DOUBLE_PAYMENT) && IsRecipe(DELAYED_SHIPMENT) && IsRecipe(DELIVERED_MISSING)
    ensures IsRecipe(REFUND_OUTSIDE_WINDOW) && IsRecipe(DEFECTIVE_WARRANTY) && IsRecipe(HIGH_VALUE_REFUND)
    ensures IsRecipe(CANCEL_AFTER_SHIP) && IsRecipe(FRAUD_RISK) && IsRecipe(FINAL_SALE) && IsRecipe(GOLD_TIER)
    ensures IsRecipe(FAILED_PAYMENT) && IsRecipe(HAPPY_PATH)
  {
    hide DOUBLE_PAYMENT, DELAYED_SHIPMENT, DELIVERED_MISSING, REFUND_OUTSIDE_WINDOW, DEFECTIVE_WARRANTY, HIGH_VALUE_REFUND;
    hide CANCEL_AFTER_SHIP, FRAUD_RISK, FINAL_SALE, GOLD_TIER, FAILED_PAYMENT, HAPPY_PATH;
  }

  lemma GoldTierGiven()
    ensures |ANOMALIES| == 10 && ANOMALIES[9].tier == Some(Gold)
  {
  }

  /** What every step of the build keeps of the labels. */
  predicate Told(s: Sim, set_: Setting) { Sound(s, set_) && FullStock(s.w.products) && AllMeant(s.w, set_) && s.w.products != [] }

  lemma CustomerGrows(w: Tables, c: Customer)
    ensures AllGrown(w, AddCustomer(w, c)) && AddCustomer(w, c).scenarios == w.scenarios
    ensures AddCustomer(w, c).customers[|w.customers|] == c && c in AddCustomer(w, c).customers
  {
  }

  lemma RunAnomalyMeans(s: Sim, set_: Setting, a: Anomaly, copy: int)
    requires Told(s, set_) && Fitting(a) && AllFormed(s.w.customers) && RunAnomaly(s, set_, a, copy).Some?
    ensures var t := RunAnomaly(s, set_, a, copy).value;
            && Told(t, set_) && AllFormed(t.w.customers) && AllGrown(s.w, t.w)
            && Labels(t.w.scenarios) == Labels(s.w.scenarios) + [(a.recipe.kind, copy)]
  {
    hide Sound, BuildCustomer, RunRecipe, RecipeOk, IsRecipe, AllDated, HasAllocatedForm, UsedEmails, Lower, AllGrown;
    hide AllMeant, FullStock, HasKind, HasLaptopAbove;
    BuildCustomerFacts(s.w, s.d, set_.now, |s.w.customers| + 1, a.tier, Active, None, a.name);
    var c := BuildCustomer(s.w, s.d, set_.now, |s.w.customers| + 1, a.tier, Active, None, a.name);
    AddCustomerSound(s, set_, c.value, c.draws);
    var s1 := Sim(AddCustomer(s.w, c.value), c.draws);
    CustomerGrows(s.w, c.value);
    AllMeantGrows(s.w, s1.w, set_);
    SameProducts(s.w, s1.w);
    RunRecipeMeans(s1, set_, c.value.id, a.recipe, copy, true);
    RunAnomalySound(s, set_, a, copy);
    var t := RunAnomaly(s, set_, a, copy).value;
    AllGrownTrans(s.w, s1.w, t.w);
    SameProducts(s.w, t.w);
    OneMoreLabel(s1.w, t.w);
  }

  lemma SameProducts(a: Tables, b: Tables)
    requires AllGrown(a, b)
    ensures a.products == b.products && a.scenarios <= b.scenarios && a.customers <= b.customers
  {
  }

  lemma OneMoreLabel(a: Tables, b: Tables)
    requires AllGrown(a, b) && |b.scenarios| == |a.scenarios| + 1
    ensures Labels(b.scenarios)
            == Labels(a.scenarios) + [(b.scenarios[|a.scenarios|].kind, b.scenarios[|a.scenarios|].copy)]
  {
  }

  lemma {:induction false} RunAnomaliesMean(s: Sim, set_: Setting, todo: seq<Anomaly>, copy: int)
    requires Told(s, set_) && AllFit(todo) && AllFormed(s.w.customers)
    requires RunAnomalies(s, set_, todo, copy).Some?
    ensures var t := RunAnomalies(s, set_, todo, copy).value;
            && Told(t, set_) && AllFormed(t.w.customers) && AllGrown(s.w, t.w)
            && Labels(t.w.scenarios) == Labels(s.w.scenarios) + ListLabels(todo, copy)
    decreases |todo|
  {
    hide Told, RunAnomaly, Fitting, AllFormed, AllGrown, Labels;
    if todo == [] {
      GrownSelf(s.w);
    } else {
      assert todo[0] in todo && todo == [todo[0]] + todo[1..];
      RunAnomalyMeans(s, set_, todo[0], copy);
      var one := RunAnomaly(s, set_, todo[0], copy).value;
      RunAnomaliesMean(one, set_, todo[1..], copy);
      AllGrownTrans(s.w, one.w, RunAnomalies(one, set_, todo[1..], copy).value.w);
      assert ListLabels(todo, copy) == [(todo[0].recipe.kind, copy)] + ListLabels(todo[1..], copy);
    }
  }

  lemma {:induction false} RunCopiesMean(s: Sim, set_: Setting, copy: nat, copies: nat)
    requires copy <= copies + 1 && Told(s, set_) && AllFormed(s.w.customers) && RunCopies(s, set_, copy, copies).Some?
    ensures var t := RunCopies(s, set_, copy, copies).value;
            && Told(t, set_) && AllFormed(t.w.customers) && AllGrown(s.w, t.w)
            && Labels(t.w.scenarios) == Labels(s.w.scenarios) + AllCopies(copy, copies)
    decreases copies + 1 - copy
  {
    hide Told, RunAnomalies, AllFit, AllFormed, AllGrown, Labels, ANOMALIES, ListLabels, CopyLabels, SHOWCASE, SHOWCASE_LABELS;
    hide RecipeLabels, IsRecipe, RecipeOk;
    if copy > copies {
      GrownSelf(s.w);
    } else {
      AnomaliesFit();
      ListsAre(copy);
      RunAnomaliesMean(s, set_, ANOMALIES, copy);
      var one := RunAnomalies(s, set_, ANOMALIES, copy).value;
      RunCopiesMean(one, set_, copy + 1, copies);
      AllGrownTrans(s.w, one.w, RunCopies(one, set_, copy + 1, copies).value.w);
      var a, b, c := Labels(s.w.scenarios), CopyLabels(copy), AllCopies(copy + 1, copies);
      assert a + b + c == a + (b + c);
    }
  }

  lemma {:induction false} FirstIn(scenarios: seq<Scenario>, kind: Kind)
    ensures var f := FirstOfKind(scenarios, kind); f.Some? ==> f.value in scenarios && f.value.kind == kind
  {
    if scenarios != [] { FirstIn(scenarios[1..], kind); }
  }

  /** The utterances sit on a double payment. */
  lemma NegativesMean(s: Sim, set_: Setting)
    requires Told(s, set_) && AddNegatives(s).Some?
    ensures var t := AddNegatives(s).value;
            && Told(t, set_) && AllGrown(s.w, t.w) && t.w.customers == s.w.customers
            && Labels(t.w.scenarios) == Labels(s.w.scenarios) + UTTERANCES
  {
    hide Sound, FullStock, Story, PaidCount;
    AddNegativesSound(s, set_);
    FirstIn(s.w.scenarios, DoublePayment);
    var t, anchor := AddNegatives(s).value, FirstOfKind(s.w.scenarios, DoublePayment).value;
    assert Means(s.w, set_, anchor);
    var n := |s.w.scenarios|;
    assert t.w.scenarios[..n] == s.w.scenarios;
    forall sc | sc in t.w.scenarios ensures Means(t.w, set_, sc) {
      if sc in s.w.scenarios {
        MeansGrows(s.w, t.w, set_, sc);
      } else {
        assert sc.kind == NegativeSecurity && sc.customerId == anchor.customerId && sc.orderId == anchor.orderId;
        var o :| o in s.w.orders && anchor.orderId == Some(o.id) && anchor.customerId == o.customerId;
        UtteranceMeans(t.w, set_, sc, o, anchor);
      }
    }
  }

  lemma UtteranceMeans(w: Tables, set_: Setting, sc: Scenario, o: Order, d: Scenario)
    requires sc.kind == NegativeSecurity && o in w.orders && sc.orderId == Some(o.id) && sc.customerId == o.customerId
    requires d in w.scenarios && d.kind == DoublePayment && d.customerId == sc.customerId && d.orderId == sc.orderId
    ensures Means(w, set_, sc)
  {
    assert Story(w, set_, NegativeSecurity, o);
    hide Story;
  }
  lemma OverlayMeans(s: Sim, set_: Setting, copies: nat)
    requires Told(s, set_) && AllFormed(s.w.customers) && Overlay(s, set_, copies).Some?
    ensures var t := Overlay(s, set_, copies).value;
            && Told(t, set_) && AllFormed(t.w.customers)
            && Labels(t.w.scenarios) == Labels(s.w.scenarios) + AllCopies(1, copies) + UTTERANCES
  {
    hide Told, RunCopies, AddNegatives, AllFormed, AllGrown, Labels, AllCopies;
    RunCopiesMean(s, set_, 1, copies);
    NegativesMean(RunCopies(s, set_, 1, copies).value, set_);
  }

  // ---------- the showcase ----------

  predicate AllRecipes(todo: seq<Recipe>) { forall r :: r in todo ==> RecipeOk(r) && IsRecipe(r) && r.kind != GoldTier }

  lemma {:induction false} RunShowcaseMeans(s: Sim, set_: Setting, customerId: Id, todo: seq<Recipe>, number: int)
    requires Told(s, set_) && AllRecipes(todo) && customerId in CustomerIds(s.w.customers)
    requires RunShowcase(s, set_, customerId, todo, number).Some?
    ensures var t := RunShowcase(s, set_, customerId, todo, number).value;
            Told(t, set_) && Labels(t.w.scenarios) == Labels(s.w.scenarios) + RecipeLabels(todo, number)
    decreases |todo|
  {
    hide Sound, FullStock, AllMeant, RunRecipe, AllGrown, CustomerIds, IsRecipe, RecipeOk, AllDated, HasKind, HasLaptopAbove;
    hide RecipeDated, Labels;
    if todo != [] {
      assert todo[0] in todo && todo == [todo[0]] + todo[1..];
      RunRecipeMeans(s, set_, customerId, todo[0], number, false);
      RunRecipeSound(s, set_, customerId, todo[0], number, false);
      var one := RunRecipe(s, set_, customerId, todo[0], number, false).value;
      SameProducts(s.w, one.w);
      OneMoreLabel(s.w, one.w);
      RunShowcaseMeans(one, set_, customerId, todo[1..], number + 1);
      assert RecipeLabels(todo, number) == [(todo[0].kind, number)] + RecipeLabels(todo[1..], number + 1);
      var a, b, c := Labels(s.w.scenarios), [(todo[0].kind, number)], RecipeLabels(todo[1..], number + 1);
      assert a + b + c == a + (b + c);
    }
  }

  lemma ShowcaseMeans(s: Sim, set_: Setting)
    requires Told(s, set_) && AllFormed(s.w.customers) && Showcase(s, set_).Some?
    ensures var t := Showcase(s, set_).value;
            Told(t, set_) && Labels(t.w.scenarios) == Labels(s.w.scenarios) + SHOWCASE_LABELS
  {
    hide Sound, FullStock, AllMeant, Welcomed, RunShowcase, AllGrown, AllFormed, AllDated, CustomerIds, Labels, SHOWCASE;
    hide SHOWCASE_LABELS, ANOMALIES, CopyLabels, RecipeLabels, ListLabels, IsRecipe, RecipeOk;
    ShowcaseFits();
    ListsAre(1);
    WelcomedSound(s, set_);
    WelcomedIs(s, set_);
    ShowcaseRuns(s, set_);
    var (s1, id) := Welcomed(s, set_);
    CustomerGrows(s.w, s1.w.customers[|s.w.customers|]);
    AllMeantGrows(s.w, s1.w, set_);
    RunShowcaseMeans(s1, set_, id, SHOWCASE, 1);
  }

  // ---------- the filler ----------

  lemma RandomGrows(s: Sim, set_: Setting, customerId: Id)
    requires s.w.products != []
    ensures var t := AddRandomOrder(s, set_, customerId); AllGrown(s.w, t.w) && t.w.scenarios == s.w.scenarios
  {
    hide MakeBundle, HappyTiming, WeightedStatus, Draws.Index;
  }

  lemma {:induction false} CustomersGrow(s: Sim, now: Time, target: nat)
    ensures AllGrown(s.w, FillCustomers(s, now, target).w) && FillCustomers(s, now, target).w.scenarios == s.w.scenarios
  {
    FillCustomersRows(s, now, target);
    hide FillCustomers;
  }

  lemma {:induction false} OwnersGrow(s: Sim, set_: Setting, todo: seq<Customer>)
    requires s.w.products != []
    ensures AllGrown(s.w, FillOwners(s, set_, todo).w) && FillOwners(s, set_, todo).w.scenarios == s.w.scenarios
    decreases |todo|
  {
    hide AddRandomOrder, AllGrown, OrdersOf;
    GrownSelf(s.w);
    if todo != [] {
      RandomGrows(s, set_, todo[0].id);
      var next := if OrdersOf(s.w.orders, todo[0].id) == 0 then AddRandomOrder(s, set_, todo[0].id) else s;
      SameProducts(s.w, next.w);
      OwnersGrow(next, set_, todo[1..]);
      AllGrownTrans(s.w, next.w, FillOwners(next, set_, todo[1..]).w);
    }
  }

  lemma {:induction false} OrdersGrow(s: Sim, set_: Setting, target: nat)
    requires s.w.products != [] && s.w.customers != []
    ensures AllGrown(s.w, FillOrders(s, set_, target).w) && FillOrders(s, set_, target).w.scenarios == s.w.scenarios
    decreases target - |s.w.orders|
  {
    hide AddRandomOrder, AllGrown, Eligible, Draws.Index;
    GrownSelf(s.w);
    if |s.w.orders| < target {
      var eligible := Eligible(s.w.customers);
      var among := if eligible != [] then eligible else s.w.customers;
      var c := among[s.d.Index(|among|)];
      var s0 := Sim(s.w, s.d.Next());
      RandomGrows(s0, set_, c.id);
      AddRandomRows(s0, set_, c.id);
      var s1 := AddRandomOrder(s0, set_, c.id);
      OrdersGrow(s1, set_, target);
      AllGrownTrans(s.w, s1.w, FillOrders(s1, set_, target).w);
    }
  }

  lemma FillGrows(s: Sim, set_: Setting, customers: nat, orders: nat)
    requires s.w.products != [] && s.w.customers != []
    ensures var t := FillHappyPath(s, set_, customers, orders); AllGrown(s.w, t.w) && t.w.scenarios == s.w.scenarios
  {
    hide FillCustomers, FillOwners, FillOrders, AllGrown;
    CustomersGrow(s, set_.now, customers);
    var s1 := FillCustomers(s, set_.now, customers);
    OwnersGrow(s1, set_, s1.w.customers);
    var s2 := FillOwners(s1, set_, s1.w.customers);
    OrdersGrow(s2, set_, orders);
    AllGrownTrans(s.w, s1.w, s2.w);
    AllGrownTrans(s.w, s2.w, FillOrders(s2, set_, orders).w);
  }

  // ---------- the finishing touches ----------

  /** The same rows under other public ids, and customers of the same tier. */
  predicate Renamed(a: Tables, b: Tables) {
    Relabelled(a, b) && forall i :: 0 <= i < |a.customers| ==> i < |b.customers| && b.customers[i].tier == a.customers[i].tier
  }

  lemma OneRenamed(a: Tables, b: Tables, o: Order, o2: Order, q: Product, q2: Product)
    requires Relabelled(a, b) && o2 == o.(publicId := o2.publicId) && q2 == q.(publicId := q2.publicId)
    requires BoughtOne(a, o, q) && q2 in b.products
    ensures BoughtOne(b, o2, q2)
  {
    var i :| i in a.items && i.orderId == o.id && i.productId == q.id && i.quantity == 1;
    var k :| 0 <= k < |a.items| && a.items[k] == i;
    assert b.items[k] == i.(publicId := b.items[k].publicId) && b.items[k] in b.items;
  }

  lemma ProductTwin(a: Tables, b: Tables, q: Product) returns (q2: Product)
    requires Relabelled(a, b) && q in a.products
    ensures q2 in b.products && q2 == q.(publicId := q2.publicId)
  {
    var k :| 0 <= k < |a.products| && a.products[k] == q;
    q2 := b.products[k];
  }

  lemma BoughtRenamed(a: Tables, b: Tables, o: Order, o2: Order, category: Category, finalSale: Option<bool>)
    requires Relabelled(a, b) && o2 == o.(publicId := o2.publicId) && Bought(a, o, category, finalSale)
    ensures Bought(b, o2, category, finalSale)
  {
    hide BoughtOne, Relabelled;
    var q :| q in a.products && BoughtOne(a, o, q) && q.category == category
             && (finalSale.Some? ==> q.finalSale == finalSale.value);
    var q2 := ProductTwin(a, b, q);
    OneRenamed(a, b, o, o2, q, q2);
  }

  lemma AboveRenamed(a: Tables, b: Tables, o: Order, o2: Order, threshold: int, among: Option<Category>)
    requires Relabelled(a, b) && o2 == o.(publicId := o2.publicId) && BoughtAbove(a, o, threshold, among)
    ensures BoughtAbove(b, o2, threshold, among)
  {
    hide BoughtOne, Relabelled;
    var q :| q in a.products && BoughtOne(a, o, q) && q.unitPrice > threshold
             && (among.Some? ==> q.category == among.value);
    var q2 := ProductTwin(a, b, q);
    OneRenamed(a, b, o, o2, q, q2);
  }

  lemma SentRenamed(a: Tables, b: Tables, o: Order, o2: Order, status: ShipStatus, received: Option<bool>)
    requires Relabelled(a, b) && o2 == o.(publicId := o2.publicId) && Sent(a, o, status, received)
    ensures Sent(b, o2, status, received)
  {
    var s :| s in a.shipments && s.orderId == o.id && s.status == status && s.received == received
             && s.shippedAt == Some(o.createdAt + DAY) && s.deliveredAt == o.actualDelivery
             && s.estimatedDelivery == o.estimatedDelivery;
    var k :| 0 <= k < |a.shipments| && a.shipments[k] == s;
    assert b.shipments[k] == s.(publicId := b.shipments[k].publicId) && b.shipments[k] in b.shipments;
  }

  lemma PaymentTwin(a: Tables, b: Tables, p: Payment) returns (p2: Payment)
    requires Relabelled(a, b) && p in a.payments
    ensures p2 in b.payments && p2 == p.(publicId := p2.publicId)
  {
    var k :| 0 <= k < |a.payments| && a.payments[k] == p;
    p2 := b.payments[k];
  }

  lemma FailedRenamed(a: Tables, b: Tables, o: Order, o2: Order, m: string, allowed: seq<string>)
    requires allowed != [] && Relabelled(a, b) && o2 == o.(publicId := o2.publicId) && FailedTwice(a, o, m, allowed)
    ensures FailedTwice(b, o2, m, allowed)
  {
    hide Relabelled;
    var p, q :| p in a.payments && q in a.payments && p.id != q.id && p.orderId == o.id == q.orderId
      && p.status == PayFailed == q.status && p.createdAt == o.createdAt - 2 * HOUR == q.createdAt
      && p.payMethod == q.payMethod == if m in allowed then m else allowed[0];
    var p2 := PaymentTwin(a, b, p);
    var q2 := PaymentTwin(a, b, q);
  }

  lemma RefundedRenamed(a: Tables, b: Tables, o: Order, o2: Order, reason: Reason, status: RefundStatus, approval: bool)
    requires Relabelled(a, b) && o2 == o.(publicId := o2.publicId) && Refunded(a, o, reason, status, approval)
    ensures Refunded(b, o2, reason, status, approval)
  {
    var r, x :| r in a.refunds && x in a.returns_ && r.orderId == o.id == x.orderId && r.returnId == Some(x.id)
      && x.customerId == o.customerId && r.reason == reason == x.reason && r.status == status
      && r.requiresHuman == approval && r.amount == o.total
      && x.status == (if status == RefundDenied then ReturnRejected else ReturnRequested)
      && x.inspection == if reason == DefectiveProduct then InspectionPending else InspectionNotRequired;
    var j :| 0 <= j < |a.refunds| && a.refunds[j] == r;
    var k :| 0 <= k < |a.returns_| && a.returns_[k] == x;
    assert b.refunds[j] in b.refunds && b.returns_[k] in b.returns_;
    assert b.refunds[j] == r.(publicId := b.refunds[j].publicId) && b.returns_[k] == x.(publicId := b.returns_[k].publicId);
  }

  lemma OrderRenamed(a: Tables, b: Tables, o: Order) returns (o2: Order)
    requires Relabelled(a, b) && o in a.orders
    ensures o2 in b.orders && o2 == o.(publicId := o2.publicId)
  {
    var k :| 0 <= k < |a.orders| && a.orders[k] == o;
    o2 := b.orders[k];
  }

  lemma GoldRenamed(a: Tables, b: Tables, id: Id)
    requires Renamed(a, b) && IsGolden(a, id)
    ensures IsGolden(b, id)
  {
    var c :| c in a.customers && c.id == id && c.tier == Gold;
    var k :| 0 <= k < |a.customers| && a.customers[k] == c;
    assert b.customers[k] in b.customers;
  }

  lemma PaidRenamed(a: Tables, b: Tables, id: Id)
    requires Relabelled(a, b)
    ensures PaidCount(a.payments, id) == PaidCount(b.payments, id)
  {
    SamePaid(a.payments, b.payments, id);
  }

  lemma ArrivedRenamed(a: Tables, b: Tables, o: Order, o2: Order, now: Time, age: int, ago: int, received: bool)
    requires Relabelled(a, b) && o2 == o.(publicId := o2.publicId) && Arrived(a, o, now, age, ago, received)
    ensures Arrived(b, o2, now, age, ago, received)
  {
    hide Relabelled, Sent;
    SentRenamed(a, b, o, o2, ShipDelivered, Some(received));
  }

  lemma UnderwayRenamed(a: Tables, b: Tables, o: Order, o2: Order, now: Time, age: int, eta: int)
    requires Relabelled(a, b) && o2 == o.(publicId := o2.publicId) && Underway(a, o, now, age, eta)
    ensures Underway(b, o2, now, age, eta)
  {
    hide Relabelled, Sent;
    SentRenamed(a, b, o, o2, ShipInTransit, None);
  }

  lemma CheapRenamed(a: Tables, b: Tables, customerId: Id, now: Time)
    requires Relabelled(a, b) && OnceCheap(a, customerId, now)
    ensures OnceCheap(b, customerId, now)
  {
    hide Relabelled, Arrived, Bought;
    var x :| x in a.orders && x.customerId == customerId && Arrived(a, x, now, 40, 34, true)
             && Bought(a, x, Accessories, None);
    var x2 := OrderRenamed(a, b, x);
    ArrivedRenamed(a, b, x, x2, now, 40, 34, true);
    BoughtRenamed(a, b, x, x2, Accessories, None);
  }

  lemma PendingRenamed(a: Tables, b: Tables, customerId: Id, now: Time, allowed: seq<string>)
    requires allowed != [] && Relabelled(a, b) && StillPending(a, customerId, now, allowed)
    ensures StillPending(b, customerId, now, allowed)
  {
    hide Relabelled, Bought, FailedTwice;
    var y :| y in a.orders && y.customerId == customerId && Aged(y, Pending, now, 3) && Bought(a, y, Accessories, None)
             && FailedTwice(a, y, "credit_card", allowed);
    var y2 := OrderRenamed(a, b, y);
    BoughtRenamed(a, b, y, y2, Accessories, None);
    FailedRenamed(a, b, y, y2, "credit_card", allowed);
  }

  lemma StoryRenamed(a: Tables, b: Tables, set_: Setting, kind: Kind, o: Order, o2: Order)
    requires Renamed(a, b) && o2 == o.(publicId := o2.publicId) && Story(a, set_, kind, o)
    ensures Story(b, set_, kind, o2)
  {
    hide Relabelled, Arrived, Underway, Bought, BoughtAbove, FailedTwice, Refunded, PaidCount, IsGolden, OnceCheap;
    hide StillPending, AllowedMethods;
    var now, window, allowed := set_.now, set_.company.windowDays, AllowedMethods(set_.company);
    match kind
    case DoublePayment =>
      ArrivedRenamed(a, b, o, o2, now, 12, 7, true);
      BoughtRenamed(a, b, o, o2, Headphones, Some(false));
      PaidRenamed(a, b, o.id);
    case DelayedShipment => UnderwayRenamed(a, b, o, o2, now, 20, 5); BoughtRenamed(a, b, o, o2, Accessories, None);
    case DeliveredMissing => ArrivedRenamed(a, b, o, o2, now, 8, 4, false); BoughtRenamed(a, b, o, o2, Keyboards, None);
    case RefundOutsideWindow =>
      ArrivedRenamed(a, b, o, o2, now, 20 + window, 15 + window, true);
      BoughtRenamed(a, b, o, o2, Accessories, Some(false));
      RefundedRenamed(a, b, o, o2, CustomerPreference, RefundDenied, false);
    case DefectiveWarranty =>
      ArrivedRenamed(a, b, o, o2, now, 25 + window, 20 + window, true);
      BoughtRenamed(a, b, o, o2, Laptops, Some(false));
      RefundedRenamed(a, b, o, o2, DefectiveProduct, RefundRequested, o.total > 100000);
    case HighValueRefund =>
      ArrivedRenamed(a, b, o, o2, now, 10, 6, true);
      AboveRenamed(a, b, o, o2, set_.company.threshold, Some(Laptops));
      RefundedRenamed(a, b, o, o2, CustomerPreference, RefundPendingApproval, true);
    case CancelAfterShip => UnderwayRenamed(a, b, o, o2, now, 3, 7); BoughtRenamed(a, b, o, o2, Monitors, None);
    case FraudRisk =>
      AboveRenamed(a, b, o, o2, set_.company.threshold, None);
      FailedRenamed(a, b, o, o2, "pix", allowed);
      CheapRenamed(a, b, o.customerId, now);
      PendingRenamed(a, b, o.customerId, now, allowed);
    case FinalSale =>
      ArrivedRenamed(a, b, o, o2, now, 8, 5, true);
      BoughtRenamed(a, b, o, o2, Accessories, Some(true));
      RefundedRenamed(a, b, o, o2, CustomerPreference, RefundDenied, false);
    case GoldTier =>
      ArrivedRenamed(a, b, o, o2, now, 6 + window, 1 + window, true);
      BoughtRenamed(a, b, o, o2, Headphones, Some(false));
      GoldRenamed(a, b, o.customerId);
    case FailedPayment =>
      BoughtRenamed(a, b, o, o2, Headphones, Some(false));
      FailedRenamed(a, b, o, o2, "credit_card", allowed);
    case HappyPath => UnderwayRenamed(a, b, o, o2, now, 1, 6); BoughtRenamed(a, b, o, o2, Monitors, Some(false));
    case NegativeSecurity =>
  }

  lemma AllMeantRenamed(a: Tables, b: Tables, set_: Setting)
    requires Renamed(a, b) && AllMeant(a, set_)
    ensures AllMeant(b, set_)
  {
    hide Story;
    assert a.scenarios == b.scenarios;
    hide Relabelled;
    forall sc | sc in b.scenarios ensures Means(b, set_, sc) {
      var o :| o in a.orders && sc.orderId == Some(o.id) && sc.customerId == o.customerId && Story(a, set_, sc.kind, o);
      var o2 := OrderRenamed(a, b, o);
      StoryRenamed(a, b, set_, sc.kind, o, o2);
    }
  }

  lemma {:induction false} FreeLoginTiers(customers: seq<Customer>, i: nat)
    requires i <= |customers|
    ensures forall k :: 0 <= k < |customers| ==> FreeLogin(customers, i)[k].tier == customers[k].tier
    decreases |customers| - i
  {
    hide Lower, Allocate, UsedEmails, DEMO_LOGIN_EMAIL;
    if i < |customers| {
      if Lower(customers[i].email) != DEMO_LOGIN_EMAIL {
        FreeLoginTiers(customers, i + 1);
      } else {
        FreeLoginTiers(customers[i := customers[i].(email := Allocate(UsedEmails(customers), customers[i].name, 99))], i + 1);
      }
    }
  }

  lemma FinishedRenames(w: Tables)
    requires EmailsDistinct(w.customers)
    ensures Renamed(w, Finished(w))
  {
    hide Lower, EmailsDistinct, FreeLogin, UsedEmails, DEMO_LOGIN_EMAIL, DEMO_SHOWCASE_EMAIL;
    ApplyDemoLoginSound(w.customers);
    if w.customers != [] { FreeLoginTiers(w.customers, 1); }
    var v := w.(customers := ApplyDemoLogin(w.customers));
    assert forall i :: 0 <= i < |w.customers| ==> v.customers[i].tier == w.customers[i].tier;
    hide ApplyDemoLogin;
  }

  // ---------- the whole build ----------

  lemma {:induction false} StockMirrors(specs: seq<Spec>, index: int, d: Draws)
    ensures var b := BuildProducts(specs, index, d);
            && |b.value| == |specs|
            && forall i :: 0 <= i < |specs| ==>
                 && b.value[i].sku == specs[i].sku && b.value[i].category == specs[i].category
                 && b.value[i].unitPrice == specs[i].price && b.value[i].finalSale == specs[i].finalSale
                 && b.value[i].warrantyDays == specs[i].warrantyDays
                 && b.value[i].publicId == PublicId("PRD", index + i)
    decreases |specs|
  {
    if specs != [] { StockMirrors(specs[1..], index + 1, d.Next()); }
  }

  predicate SpecAt(i: nat, category: Category, finalSale: bool)
    requires i < |PRODUCT_SPECS|
  {
    PRODUCT_SPECS[i].category == category && PRODUCT_SPECS[i].finalSale == finalSale
  }

  lemma SpecsListed()
    ensures |PRODUCT_SPECS| == 24
    ensures SpecAt(3, Laptops, false) && SpecAt(6, Monitors, false) && SpecAt(9, Headphones, false)
    ensures SpecAt(12, Keyboards, false) && SpecAt(15, Accessories, false) && SpecAt(17, Accessories, true)
  {
    var a := SMARTPHONE_SPECS + LAPTOP_SPECS + MONITOR_SPECS + HEADPHONE_SPECS + KEYBOARD_SPECS + ACCESSORY_SPECS;
    assert PRODUCT_SPECS == a + LATER_SPECS;
    assert a[3] == LAPTOP_SPECS[0] && a[6] == MONITOR_SPECS[0] && a[9] == HEADPHONE_SPECS[0];
    assert a[12] == KEYBOARD_SPECS[0] && a[15] == ACCESSORY_SPECS[0] && a[17] == ACCESSORY_SPECS[2];
  }

  lemma StockIsFull(count: nat, tape: nat -> nat)
    requires count >= 24
    ensures FullStock(Stocked(count, tape).w.products)
  {
    SpecsListed();
    SliceHeads(count);
    StockMirrors(CatalogSlice(count), 1, Draws(tape, 0));
    hide PRODUCT_SPECS, CatalogSlice, BuildProducts;
    var ps, specs := Stocked(count, tape).w.products, CatalogSlice(count);
    forall i | 0 <= i < 24 ensures ps[i].category == PRODUCT_SPECS[i].category && ps[i].finalSale == PRODUCT_SPECS[i].finalSale {
      assert specs[i] == PRODUCT_SPECS[i];
    }
    HasAt(ps, 3, Laptops, false);
    HasAt(ps, 6, Monitors, false);
    HasAt(ps, 9, Headphones, false);
    HasAt(ps, 12, Keyboards, false);
    HasAt(ps, 15, Accessories, false);
    HasAt(ps, 17, Accessories, true);
    hide Has;
  }

  lemma HasAt(products: seq<Product>, i: nat, category: Category, finalSale: bool)
    requires i < |products| && products[i].category == category && products[i].finalSale == finalSale
    ensures Has(products, category, Some(finalSale)) && Has(products, category, None)
  {
    assert products[i] in products;
  }

  /**
   * The labels of a generated world: one copy of the ten anomalies for the demo and three for the others, the six
   * security utterances, and the ten of the showcase, in this order; and every one of them is true of its order.
   */
  lemma LabelsAreTrue(profile: Profile, tape: nat -> nat, set_: Setting)
    requires BuildWorld(profile, tape, set_).Some?
    ensures var w := BuildWorld(profile, tape, set_).value;
            && AllMeant(w, set_)
            && Labels(w.scenarios)
               == (if profile == Demo then CopyLabels(1) else CopyLabels(1) + CopyLabels(2) + CopyLabels(3))
                  + UTTERANCES + SHOWCASE_LABELS
  {
    hide *;
    BuildInSteps(profile, tape, set_);
    ProfileSizes(profile);
    var s := Stocked(profile.Products(), tape);
    StockedTold(profile.Products(), tape, set_);
    var o := Overlay(s, set_, profile.Copies()).value;
    OverlayMeans(s, set_, profile.Copies());
    ShowcaseMeans(o, set_);
    var t := Showcase(o, set_).value;
    ToldMeans(t, set_);
    FillGrows(t, set_, profile.Customers(), profile.Orders());
    var f := FillHappyPath(t, set_, profile.Customers(), profile.Orders());
    AllMeantGrows(t.w, f.w, set_);
    FillSound(t, set_, profile.Customers(), profile.Orders());
    EmailsOfSound(f, set_);
    FinishedRenames(f.w);
    AllMeantRenamed(f.w, Finished(f.w), set_);
    SameScenarios(f.w, Finished(f.w));
    CopiesListed(profile);
  }

  lemma StockedTold(count: nat, tape: nat -> nat, set_: Setting)
    requires count >= 24
    ensures var s := Stocked(count, tape); Told(s, set_) && AllFormed(s.w.customers) && Labels(s.w.scenarios) == []
  {
    hide Stocked, Sound, FullStock, AllDated, HasLaptopAbove, HasAllocatedForm;
    StockedSound(count, tape, set_);
    StockedEmpty(count, tape);
    StockIsFull(count, tape);
  }

  lemma ToldMeans(s: Sim, set_: Setting)
    requires Told(s, set_)
    ensures Sound(s, set_) && AllMeant(s.w, set_)
  {
    hide Sound, AllMeant;
  }

  lemma SameScenarios(a: Tables, b: Tables)
    requires Renamed(a, b)
    ensures a.scenarios == b.scenarios
  {
  }

  lemma CopiesListed(profile: Profile)
    ensures [] + AllCopies(1, profile.Copies())
            == if profile == Demo then CopyLabels(1) else CopyLabels(1) + CopyLabels(2) + CopyLabels(3)
  {
    hide CopyLabels;
    var a, b, c := CopyLabels(1), CopyLabels(2), CopyLabels(3);
    if profile == Demo {
      assert AllCopies(1, 1) == a + [];
    } else {
      assert AllCopies(3, 3) == c + [] && AllCopies(2, 3) == b + AllCopies(3, 3);
    }
  }
}

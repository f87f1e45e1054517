/** Whole runs: overlay, showcase, happy path and finishing touches end in a world the checker accepts. */
module WorldRuns {
  import opened Text
  import opened Records
  import opened Catalog
  import opened Emails
  import opened WorldSpec
  import opened WorldIntegrity
  import opened WorldInvariant
  import opened WorldBuilders
  import opened WorldSound

  // ---------- customers ----------

  lemma BuildCustomerFacts(w: Tables, d: Draws, now: Time, index: nat, tier: Option<Tier>, status: AccountStatus,
                           email: Option<string>, name: Option<string>)
    requires index > 0
    ensures var c := BuildCustomer(w, d, now, index, tier, status, email, name);
            && d.pos <= c.value.id < c.draws.pos && c.draws.tape == d.tape
            && c.value.publicId == PublicId("CUST", index) && c.value.status == status
            && (tier.Some? ==> c.value.tier == tier.value) && (name.Some? ==> c.value.name == name.value)
            && 10000000 <= c.value.phone <= 99999999 && now - 400 * DAY <= c.value.createdAt <= now - 40 * DAY
            && (email.Some? ==> c.value.email == email.value)
            && (email.None? ==> HasAllocatedForm(c.value.email) && Lower(c.value.email) !in UsedEmails(w.customers))
  {
    hide Allocate, UsedEmails, HasAllocatedForm, Lower, Draws.Index, Draws.RandInt, PersonName;
    PersonDraws(name, d);
    AllocateForm(UsedEmails(w.customers), PersonName(name, d).value, index);
  }

  lemma PersonDraws(name: Option<string>, d: Draws)
    ensures PersonName(name, d).draws.pos >= d.pos && PersonName(name, d).draws.tape == d.tape
    ensures name.Some? ==> PersonName(name, d).value == name.value
  {
    hide Draws.Index;
  }

  lemma AddCustomerSound(s: Sim, set_: Setting, c: Customer, d: Draws)
    requires Sound(s, set_) && s.d.pos <= c.id < d.pos && Lower(c.email) !in UsedEmails(s.w.customers)
    ensures var t := Sim(AddCustomer(s.w, c), d);
            && Sound(t, set_) && Grown(s.w, t.w) && c.id in CustomerIds(t.w.customers)
            && t.w.customers == s.w.customers + [c] && (AllDated(s.w) ==> AllDated(t.w))
  {
    var w, v := s.w, AddCustomer(s.w, c);
    assert v.customers[|w.customers|] == c;
    assert CustomerIds(v.customers) == CustomerIds(w.customers) + {c.id};
    forall i, j | 0 <= i < j < |v.customers| ensures Lower(v.customers[i].email) != Lower(v.customers[j].email) {
      if j == |w.customers| { assert w.customers[i] in w.customers; }
    }
    hide Lower, LineSum, PaidCount, PaidSum, UniqueOrders, ShipmentsOk, DeliveredPaid, DoublesOk, RefundsOk, ReturnsOk;
    CustomerFrames(s, set_, c);
  }

  /** The tables a new customer does not touch. */
  lemma CustomerFrames(s: Sim, set_: Setting, c: Customer)
    requires Sound(s, set_)
    ensures var w := AddCustomer(s.w, c);
            && UniqueOrders(w.orders) && PricesOk(w) && ItemsOk(w) && PaymentsOk(w, AllowedMethods(set_.company))
            && DeliveredPaid(w) && ShipmentsOk(w) && ReturnsOk(w) && RefundsOk(w) && DoublesOk(w)
  {
  }

  ghost predicate AllFormed(customers: seq<Customer>) { forall c :: c in customers ==> HasAllocatedForm(c.email) }

  // ---------- the anomalies ----------

  predicate AnomaliesOk(todo: seq<Anomaly>) { forall a :: a in todo ==> RecipeOk(a.recipe) }

  predicate AnomaliesDated(todo: seq<Anomaly>, window: int) { forall a :: a in todo ==> RecipeDated(a.recipe, window) }

  predicate ShowcaseOk(todo: seq<Recipe>) { forall r :: r in todo ==> RecipeOk(r) }

  predicate ShowcaseDated(todo: seq<Recipe>, window: int) { forall r :: r in todo ==> RecipeDated(r, window) }

  lemma ShippedRecipesOk(window: int)
    ensures RecipeOk(DELAYED_SHIPMENT) && RecipeOk(CANCEL_AFTER_SHIP) && RecipeOk(HAPPY_PATH)
    ensures RecipeDated(DELAYED_SHIPMENT, window) && RecipeDated(CANCEL_AFTER_SHIP, window)
    ensures RecipeDated(HAPPY_PATH, window)
  {
  }

  lemma FailedRecipeOk(window: int)
    ensures RecipeOk(FAILED_PAYMENT) && RecipeDated(FAILED_PAYMENT, window)
  {
  }

  lemma DeliveredRecipesOk(window: int)
    ensures RecipeOk(DOUBLE_PAYMENT) && RecipeOk(DELIVERED_MISSING) && RecipeOk(REFUND_OUTSIDE_WINDOW)
    ensures RecipeOk(DEFECTIVE_WARRANTY) && RecipeOk(HIGH_VALUE_REFUND) && RecipeOk(FINAL_SALE) && RecipeOk(GOLD_TIER)
    ensures RecipeDated(DOUBLE_PAYMENT, window) && RecipeDated(DELIVERED_MISSING, window)
    ensures RecipeDated(HIGH_VALUE_REFUND, window) && RecipeDated(FINAL_SALE, window)
    ensures window >= -4 ==> RecipeDated(REFUND_OUTSIDE_WINDOW, window) && RecipeDated(DEFECTIVE_WARRANTY, window)
                             && RecipeDated(GOLD_TIER, window)
  {
  }

  lemma FraudRecipeOk(window: int)
    ensures RecipeOk(FRAUD_RISK) && RecipeDated(FRAUD_RISK, window)
  {
  }

  /** The shipped recipes respect what the builders need; a window of at least -4 keeps their dates. */
  lemma ListsOk(window: int)
    ensures AnomaliesOk(ANOMALIES) && ShowcaseOk(SHOWCASE)
    ensures window >= -4 ==> AnomaliesDated(ANOMALIES, window) && ShowcaseDated(SHOWCASE, window)
  {
    hide RecipeOk, RecipeDated;
    ShippedRecipesOk(window);
    DeliveredRecipesOk(window);
    FailedRecipeOk(window);
    FraudRecipeOk(window);
  }

  lemma RunAnomalySound(s: Sim, set_: Setting, a: Anomaly, copy: int)
    requires Sound(s, set_) && RecipeOk(a.recipe) && s.w.products != [] && AllFormed(s.w.customers)
    ensures var t := RunAnomaly(s, set_, a, copy);
            t.Some? ==>
              && Sound(t.value, set_) && Grown(s.w, t.value.w) && AllFormed(t.value.w.customers)
              && HasKind(t.value.w.scenarios, a.recipe.kind)
              && (AllDated(s.w) && RecipeDated(a.recipe, set_.company.windowDays) ==> AllDated(t.value.w))
    ensures HasLaptopAbove(s.w.products, set_.company.threshold) ==> RunAnomaly(s, set_, a, copy).Some?
  {
    hide Sound, BuildCustomer, RunRecipe, RecipeOk, RecipeDated, AllDated, HasLaptopAbove, HasAllocatedForm, UsedEmails;
    hide Lower;
    BuildCustomerFacts(s.w, s.d, set_.now, |s.w.customers| + 1, a.tier, Active, None, a.name);
    var c := BuildCustomer(s.w, s.d, set_.now, |s.w.customers| + 1, a.tier, Active, None, a.name);
    AddCustomerSound(s, set_, c.value, c.draws);
    var s1 := Sim(AddCustomer(s.w, c.value), c.draws);
    RunRecipeSound(s1, set_, c.value.id, a.recipe, copy, true);
    var t := RunRecipe(s1, set_, c.value.id, a.recipe, copy, true);
    if t.Some? { GrownTrans(s.w, s1.w, t.value.w); }
  }

  lemma {:induction false} RunAnomaliesSound(s: Sim, set_: Setting, todo: seq<Anomaly>, copy: int)
    requires Sound(s, set_) && AnomaliesOk(todo) && s.w.products != [] && AllFormed(s.w.customers)
    ensures var t := RunAnomalies(s, set_, todo, copy);
            t.Some? ==>
              && Sound(t.value, set_) && Grown(s.w, t.value.w) && AllFormed(t.value.w.customers)
              && (todo != [] ==> HasKind(t.value.w.scenarios, todo[0].recipe.kind))
              && (AllDated(s.w) && AnomaliesDated(todo, set_.company.windowDays) ==> AllDated(t.value.w))
    ensures HasLaptopAbove(s.w.products, set_.company.threshold) ==> RunAnomalies(s, set_, todo, copy).Some?
    decreases |todo|
  {
    hide Sound, RunAnomaly, RecipeOk, RecipeDated, AllDated, HasLaptopAbove, AllFormed, HasKind;
    if todo != [] {
      assert todo[0] in todo;
      RunAnomalySound(s, set_, todo[0], copy);
      var one := RunAnomaly(s, set_, todo[0], copy);
      if one.Some? {
        RunAnomaliesSound(one.value, set_, todo[1..], copy);
        var t := RunAnomalies(one.value, set_, todo[1..], copy);
        if t.Some? {
          GrownTrans(s.w, one.value.w, t.value.w);
          KindStays(one.value.w, t.value.w, todo[0].recipe.kind);
        }
      }
    }
  }

  lemma KindStays(a: Tables, b: Tables, kind: Kind)
    requires Grown(a, b) && HasKind(a.scenarios, kind)
    ensures HasKind(b.scenarios, kind)
  {
    var sc :| sc in a.scenarios && sc.kind == kind;
    assert sc in b.scenarios;
  }

  lemma FirstAnomaly()
    ensures ANOMALIES != [] && ANOMALIES[0].recipe.kind == DoublePayment
  {
  }

  lemma {:induction false} RunCopiesSound(s: Sim, set_: Setting, copy: nat, copies: nat)
    requires Sound(s, set_) && s.w.products != [] && AllFormed(s.w.customers) && copy <= copies + 1
    ensures var t := RunCopies(s, set_, copy, copies);
            t.Some? ==>
              && Sound(t.value, set_) && Grown(s.w, t.value.w) && AllFormed(t.value.w.customers)
              && (copy <= copies ==> HasKind(t.value.w.scenarios, DoublePayment))
              && (AllDated(s.w) && set_.company.windowDays >= -4 ==> AllDated(t.value.w))
    ensures HasLaptopAbove(s.w.products, set_.company.threshold) ==> RunCopies(s, set_, copy, copies).Some?
    decreases copies + 1 - copy
  {
    hide Sound, RunAnomalies, AnomaliesOk, AnomaliesDated, AllDated, HasLaptopAbove, AllFormed, ANOMALIES, HasKind;
    if copy <= copies {
      ListsOk(set_.company.windowDays);
      FirstAnomaly();
      RunAnomaliesSound(s, set_, ANOMALIES, copy);
      var one := RunAnomalies(s, set_, ANOMALIES, copy);
      if one.Some? {
        RunCopiesSound(one.value, set_, copy + 1, copies);
        var t := RunCopies(one.value, set_, copy + 1, copies);
        if t.Some? {
          GrownTrans(s.w, one.value.w, t.value.w);
          KindStays(one.value.w, t.value.w, DoublePayment);
        }
      }
    }
  }

  // ---------- the security utterances ----------

  lemma {:induction false} FirstOfKindIff(scenarios: seq<Scenario>, kind: Kind)
    ensures FirstOfKind(scenarios, kind).Some? <==> HasKind(scenarios, kind)
  {
    if scenarios != [] {
      FirstOfKindIff(scenarios[1..], kind);
      assert scenarios == [scenarios[0]] + scenarios[1..];
    }
  }

  lemma AddNegativesSound(s: Sim, set_: Setting)
    requires Sound(s, set_) && AddNegatives(s).Some?
    ensures var t := AddNegatives(s).value; Sound(t, set_) && t.w == s.w.(scenarios := t.w.scenarios)
  {
    hide PaidCount, FirstOfKind;
    var t := AddNegatives(s).value;
    forall sc | sc in t.w.scenarios && sc.kind == DoublePayment ensures sc in s.w.scenarios {
    }
  }

  // ---------- a negative window, a high threshold ----------

  lemma StaysMisdated(a: Tables, b: Tables)
    requires Grown(a, b) && !AllDated(a)
    ensures !AllDated(b)
  {
    var s, o :| s in a.shipments && o in a.orders && o.id == s.orderId && !InDateOrder(s, o);
    assert s in b.shipments && o in b.orders;
  }

  /** A gold order younger than two days is clamped to a delivery before its shipping. */
  lemma GoldOrderMisdates(s: Sim, set_: Setting, customerId: Id)
    requires set_.company.windowDays <= -5 && RunOrder(s, set_, customerId, GOLD_TIER.first).Some?
    ensures !AllDated(RunOrder(s, set_, customerId, GOLD_TIER.first).value.0.w)
  {
    hide MakeBundle, PickProduct, InDateOrder;
    var p := PlanOf(GOLD_TIER.first, set_);
    var product := PickProduct(s.w.products, set_.company.threshold, GOLD_TIER.first.pick).value;
    BundleUndated(s, set_, customerId, product, p);
    var b := MakeBundle(s, set_, customerId, product, p).value;
    var v := AppendBundle(s.w, b);
    assert v.orders[|s.w.orders|] == b.order && v.shipments[|s.w.shipments|] == b.shipment.value;
  }

  lemma GoldMisdates(s: Sim, set_: Setting, customerId: Id, copy: int)
    requires set_.company.windowDays <= -5 && RunRecipe(s, set_, customerId, GOLD_TIER, copy, true).Some?
    ensures !AllDated(RunRecipe(s, set_, customerId, GOLD_TIER, copy, true).value.w)
  {
    hide RunOrder, InDateOrder;
    GoldOrderMisdates(s, set_, customerId);
    var (s1, o) := RunOrder(s, set_, customerId, GOLD_TIER.first).value;
    var t := RunRecipe(s, set_, customerId, GOLD_TIER, copy, true).value;
    assert GOLD_TIER.more == [] && GOLD_TIER.refund.None?;
    assert t.w.orders == s1.w.orders && t.w.shipments == s1.w.shipments;
  }

  lemma LastAnomaly()
    ensures |ANOMALIES| == 10 && ANOMALIES[9].recipe == GOLD_TIER && ANOMALIES[5].recipe == HIGH_VALUE_REFUND
  {
  }

  lemma GoldAnomalyMisdates(s: Sim, set_: Setting, a: Anomaly, copy: int)
    requires set_.company.windowDays <= -5 && a.recipe == GOLD_TIER && RunAnomaly(s, set_, a, copy).Some?
    ensures !AllDated(RunAnomaly(s, set_, a, copy).value.w)
  {
    hide BuildCustomer, RunRecipe, GOLD_TIER, AllDated;
    var c := BuildCustomer(s.w, s.d, set_.now, |s.w.customers| + 1, a.tier, Active, None, a.name);
    GoldMisdates(Sim(AddCustomer(s.w, c.value), c.draws), set_, c.value.id, copy);
  }

  /** One misdated scenario anywhere in the list misdates the whole run. */
  lemma {:induction false} GoldInRun(s: Sim, set_: Setting, todo: seq<Anomaly>, copy: int)
    requires Sound(s, set_) && AnomaliesOk(todo) && s.w.products != [] && AllFormed(s.w.customers)
    requires set_.company.windowDays <= -5 && exists a :: a in todo && a.recipe == GOLD_TIER
    requires RunAnomalies(s, set_, todo, copy).Some?
    ensures !AllDated(RunAnomalies(s, set_, todo, copy).value.w)
    decreases |todo|
  {
    hide Sound, RunAnomaly, RecipeOk, AllDated, AllFormed, GOLD_TIER, HasKind;
    assert todo[0] in todo && todo == [todo[0]] + todo[1..];
    RunAnomalySound(s, set_, todo[0], copy);
    var one := RunAnomaly(s, set_, todo[0], copy).value;
    if todo[0].recipe == GOLD_TIER {
      GoldAnomalyMisdates(s, set_, todo[0], copy);
      RunAnomaliesSound(one, set_, todo[1..], copy);
      StaysMisdated(one.w, RunAnomalies(one, set_, todo[1..], copy).value.w);
    } else {
      GoldInRun(one, set_, todo[1..], copy);
    }
  }

  lemma {:induction false} GoldInCopies(s: Sim, set_: Setting, copies: nat)
    requires Sound(s, set_) && s.w.products != [] && AllFormed(s.w.customers) && copies >= 1
    requires set_.company.windowDays <= -5 && RunCopies(s, set_, 1, copies).Some?
    ensures !AllDated(RunCopies(s, set_, 1, copies).value.w)
  {
    hide Sound, RunAnomalies, AnomaliesOk, AllDated, AllFormed, ANOMALIES, HasKind, GOLD_TIER;
    ListsOk(set_.company.windowDays);
    LastAnomaly();
    assert ANOMALIES[9] in ANOMALIES;
    RunAnomaliesSound(s, set_, ANOMALIES, 1);
    GoldInRun(s, set_, ANOMALIES, 1);
    var one := RunAnomalies(s, set_, ANOMALIES, 1).value;
    RunCopiesSound(one, set_, 2, copies);
    StaysMisdated(one.w, RunCopies(one, set_, 2, copies).value.w);
  }

  lemma HighValueRaises(s: Sim, set_: Setting, a: Anomaly, copy: int)
    requires a.recipe == HIGH_VALUE_REFUND && s.w.products != []
    requires !HasLaptopAbove(s.w.products, set_.company.threshold)
    ensures RunAnomaly(s, set_, a, copy).None?
  {
    hide BuildCustomer, PickProduct, AddOrder, AddRefund, HasLaptopAbove;
    PickSpec(s.w.products, set_.company.threshold, AboveThreshold(Some(Laptops)));
    var c := BuildCustomer(s.w, s.d, set_.now, |s.w.customers| + 1, a.tier, Active, None, a.name);
    assert HIGH_VALUE_REFUND.first.pick == AboveThreshold(Some(Laptops));
  }

  lemma {:induction false} HighValueInRun(s: Sim, set_: Setting, todo: seq<Anomaly>, copy: int)
    requires Sound(s, set_) && AnomaliesOk(todo) && s.w.products != [] && AllFormed(s.w.customers)
    requires exists a :: a in todo && a.recipe == HIGH_VALUE_REFUND
    requires !HasLaptopAbove(s.w.products, set_.company.threshold)
    ensures RunAnomalies(s, set_, todo, copy).None?
    decreases |todo|
  {
    hide Sound, RunAnomaly, RecipeOk, AllDated, AllFormed, HIGH_VALUE_REFUND, HasKind, HasLaptopAbove;
    assert todo[0] in todo && todo == [todo[0]] + todo[1..];
    RunAnomalySound(s, set_, todo[0], copy);
    if todo[0].recipe == HIGH_VALUE_REFUND {
      HighValueRaises(s, set_, todo[0], copy);
    } else if RunAnomaly(s, set_, todo[0], copy).Some? {
      HighValueInRun(RunAnomaly(s, set_, todo[0], copy).value, set_, todo[1..], copy);
    }
  }

  /** What the overlay does to a fresh catalog, in full. */
  lemma OverlaySound(s: Sim, set_: Setting, copies: nat)
    requires Sound(s, set_) && s.w.products != [] && AllFormed(s.w.customers) && AllDated(s.w) && copies >= 1
    ensures Overlay(s, set_, copies).Some? <==> HasLaptopAbove(s.w.products, set_.company.threshold)
    ensures var t := Overlay(s, set_, copies);
            t.Some? ==>
              && Sound(t.value, set_) && Grown(s.w, t.value.w) && AllFormed(t.value.w.customers)
              && (AllDated(t.value.w) <==> set_.company.windowDays >= -4)
  {
    hide Sound, RunCopies, AddNegatives, AllFormed, HasLaptopAbove, InDateOrder, HasKind;
    RunCopiesSound(s, set_, 1, copies);
    var run := RunCopies(s, set_, 1, copies);
    if !HasLaptopAbove(s.w.products, set_.company.threshold) {
      NoLaptopNoRun(s, set_, copies);
    } else {
      FirstOfKindIff(run.value.w.scenarios, DoublePayment);
      NegativesFound(run.value);
      AddNegativesSound(run.value, set_);
      NegativesGrow(run.value);
      if set_.company.windowDays <= -5 { GoldInCopies(s, set_, copies); }
    }
  }

  lemma NegativesFound(s: Sim)
    requires FirstOfKind(s.w.scenarios, DoublePayment).Some?
    ensures AddNegatives(s).Some?
  {
  }

  lemma NegativesGrow(s: Sim)
    requires AddNegatives(s).Some?
    ensures s.w.scenarios <= AddNegatives(s).value.w.scenarios
  {
  }

  lemma NoLaptopNoRun(s: Sim, set_: Setting, copies: nat)
    requires Sound(s, set_) && s.w.products != [] && AllFormed(s.w.customers) && copies >= 1
    requires !HasLaptopAbove(s.w.products, set_.company.threshold)
    ensures RunCopies(s, set_, 1, copies).None?
  {
    hide Sound, RunAnomalies, AnomaliesOk, AllFormed, ANOMALIES, HIGH_VALUE_REFUND, HasLaptopAbove;
    ListsOk(0);
    LastAnomaly();
    assert ANOMALIES[5] in ANOMALIES;
    HighValueInRun(s, set_, ANOMALIES, 1);
  }
}

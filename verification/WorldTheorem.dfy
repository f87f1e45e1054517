/** The generator against its checker: when a generated world exists and is accepted, for every tape of draws. */
module WorldTheorem {
  import opened Text
  import opened Records
  import opened Catalog
  import opened Emails
  import opened WorldSpec
  import opened WorldIntegrity
  import opened WorldInvariant
  import opened WorldSound
  import opened WorldRuns
  import opened WorldFilling
  import opened WorldFinish

  // ---------- the catalog ----------

  /** Every spec of a slice is a catalog entry, perhaps under another sku. */
  ghost predicate FromCatalog(specs: seq<Spec>) {
    forall s :: s in specs ==> exists p :: p in PRODUCT_SPECS && s == p.(sku := s.sku)
  }

  lemma {:induction false} CycledFromCatalog(specs: seq<Spec>, count: nat)
    requires |PRODUCT_SPECS| <= |specs| <= count && FromCatalog(specs)
    ensures FromCatalog(Cycled(specs, count))
    decreases count - |specs|
  {
    CatalogNotEmpty();
    hide PRODUCT_SPECS, Decimal;
    if |specs| < count {
      var base := PRODUCT_SPECS[(|specs| - |PRODUCT_SPECS|) % |PRODUCT_SPECS|];
      CycledFromCatalog(specs + [base.(sku := base.sku + "-X" + Decimal(|specs|))], count);
    }
  }

  lemma CatalogNotEmpty()
    ensures |PRODUCT_SPECS| == 24
  {
  }

  lemma PrefixFromCatalog(count: nat)
    requires count <= |PRODUCT_SPECS|
    ensures FromCatalog(PRODUCT_SPECS[..count])
  {
    CatalogNotEmpty();
    hide PRODUCT_SPECS;
    forall s | s in PRODUCT_SPECS[..count] ensures exists p :: p in PRODUCT_SPECS && s == p.(sku := s.sku) {
      assert s in PRODUCT_SPECS && s == s.(sku := s.sku);
    }
  }

  lemma SliceFromCatalog(count: nat)
    ensures FromCatalog(CatalogSlice(count))
  {
    CatalogNotEmpty();
    hide PRODUCT_SPECS, Cycled, FromCatalog;
    if count <= |PRODUCT_SPECS| {
      PrefixFromCatalog(count);
    } else {
      PrefixFromCatalog(|PRODUCT_SPECS|);
      assert PRODUCT_SPECS[..|PRODUCT_SPECS|] == PRODUCT_SPECS;
      CycledFromCatalog(PRODUCT_SPECS, count);
    }
  }

  lemma PricesPositive()
    ensures forall s :: s in PRODUCT_SPECS ==> s.price > 0
  {
    assert forall s :: s in SMARTPHONE_SPECS ==> s.price > 0;
    assert forall s :: s in LAPTOP_SPECS ==> s.price > 0;
    assert forall s :: s in MONITOR_SPECS ==> s.price > 0;
    assert forall s :: s in HEADPHONE_SPECS ==> s.price > 0;
    assert forall s :: s in KEYBOARD_SPECS ==> s.price > 0;
    assert forall s :: s in ACCESSORY_SPECS ==> s.price > 0;
    assert forall s :: s in LATER_SPECS ==> s.price > 0;
  }

  lemma {:induction false} ProductsMirrorSpecs(specs: seq<Spec>, index: int, d: Draws)
    ensures var b := BuildProducts(specs, index, d);
            && |b.value| == |specs| && b.draws.pos == d.pos + |specs| && b.draws.tape == d.tape
            && forall i :: 0 <= i < |specs| ==>
                 b.value[i].category == specs[i].category && b.value[i].unitPrice == specs[i].price
    decreases |specs|
  {
    if specs != [] { ProductsMirrorSpecs(specs[1..], index + 1, d.Next()); }
  }

  lemma LaptopAboveInSlice(count: nat, threshold: int)
    requires count >= 24
    ensures HasSpecAbove(CatalogSlice(count), threshold) <==> threshold < DEAREST_LAPTOP
  {
    hide PRODUCT_SPECS, CatalogSlice, HasSpecAbove;
    CatalogNotEmpty();
    SliceFromCatalog(count);
    SliceHeads(count);
    LaptopAbove(threshold);
    HeadAbove(PRODUCT_SPECS, CatalogSlice(count), threshold);
    CopyAbove(CatalogSlice(count), threshold);
  }

  lemma HeadAbove(a: seq<Spec>, b: seq<Spec>, threshold: int)
    requires a <= b
    ensures HasSpecAbove(a, threshold) ==> HasSpecAbove(b, threshold)
  {
    forall s | s in a ensures s in b { }
  }

  lemma CopyAbove(specs: seq<Spec>, threshold: int)
    requires FromCatalog(specs)
    ensures HasSpecAbove(specs, threshold) ==> HasSpecAbove(PRODUCT_SPECS, threshold)
  {
    hide PRODUCT_SPECS;
    if s :| s in specs && s.category == Laptops && s.price > threshold {
      var p :| p in PRODUCT_SPECS && s == p.(sku := s.sku);
      assert p.category == Laptops && p.price > threshold;
    }
  }

  lemma HasLaptopOfSpecs(specs: seq<Spec>, threshold: int, d: Draws)
    ensures HasLaptopAbove(BuildProducts(specs, 1, d).value, threshold) <==> HasSpecAbove(specs, threshold)
  {
    ProductsMirrorSpecs(specs, 1, d);
    hide BuildProducts;
    var products := BuildProducts(specs, 1, d).value;
    if s :| s in specs && s.category == Laptops && s.price > threshold {
      var i :| 0 <= i < |specs| && specs[i] == s;
      assert products[i] in products;
    }
    if q :| q in products && q.category == Laptops && q.unitPrice > threshold {
      var i :| 0 <= i < |products| && products[i] == q;
      assert specs[i] in specs;
    }
  }

  lemma SlicePrices(count: nat)
    ensures forall s :: s in CatalogSlice(count) ==> s.price > 0
  {
    SliceFromCatalog(count);
    PricesPositive();
    hide PRODUCT_SPECS, CatalogSlice;
    forall s | s in CatalogSlice(count) ensures s.price > 0 {
      var p :| p in PRODUCT_SPECS && s == p.(sku := s.sku);
      assert p.price > 0;
    }
  }

  /** The world with only its products. */
  function Stocked(count: nat, tape: nat -> nat): Sim {
    var products := BuildProducts(CatalogSlice(count), 1, Draws(tape, 0));
    Sim(EMPTY_WORLD.(products := products.value), products.draws)
  }

  lemma StockedSound(count: nat, tape: nat -> nat, set_: Setting)
    requires count >= 24
    ensures var s := Stocked(count, tape);
            && Sound(s, set_) && AllDated(s.w) && s.w.products != [] && s.w.customers == []
            && (HasLaptopAbove(s.w.products, set_.company.threshold) <==> set_.company.threshold < DEAREST_LAPTOP)
  {
    hide CatalogSlice, BuildProducts, HasLaptopAbove, HasSpecAbove, Inv, PRODUCT_SPECS;
    var d := Draws(tape, 0);
    var specs := CatalogSlice(count);
    ProductsMirrorSpecs(specs, 1, d);
    SlicePrices(count);
    HasLaptopOfSpecs(specs, set_.company.threshold, d);
    LaptopAboveInSlice(count, set_.company.threshold);
    var products := BuildProducts(specs, 1, d).value;
    forall p | p in products ensures p.unitPrice >= 0 {
      var i :| 0 <= i < |products| && products[i] == p;
      assert specs[i] in specs;
    }
    OnlyProducts(products, BuildProducts(specs, 1, d).draws.pos, AllowedMethods(set_.company));
  }

  lemma OnlyProducts(products: seq<Product>, pos: nat, allowed: seq<string>)
    requires forall p :: p in products ==> p.unitPrice >= 0
    ensures Inv(EMPTY_WORLD.(products := products), pos, allowed)
  {
    hide LineSum, PaidCount, PaidSum;
  }

  // ---------- the whole run ----------

  /** What is promised of a generated world. */
  ghost predicate Generated(w: Tables, company: Company) {
    exists pos: nat :: Inv(w, pos, AllowedMethods(company))
  }

  lemma ProfileSizes(profile: Profile)
    ensures profile.Products() >= 24 && profile.Copies() >= 1
  {
  }

  /** The build up to the showcase. */
  lemma ShownSound(s: Sim, set_: Setting, copies: nat)
    requires Sound(s, set_) && AllDated(s.w) && s.w.products != [] && s.w.customers == [] && copies >= 1
    ensures Overlay(s, set_, copies).Some? <==> HasLaptopAbove(s.w.products, set_.company.threshold)
    ensures var o := Overlay(s, set_, copies);
            o.Some? ==>
              var t := Showcase(o.value, set_);
              && t.Some? && Sound(t.value, set_) && t.value.w.products != [] && t.value.w.customers != []
              && (AllDated(t.value.w) <==> set_.company.windowDays >= -4)
  {
    hide Sound, Overlay, Showcase, AllDated, HasLaptopAbove, HasAllocatedForm;
    OverlaySound(s, set_, copies);
    var o := Overlay(s, set_, copies);
    if o.Some? {
      ShowcaseSound(o.value, set_);
      var t := Showcase(o.value, set_).value;
      if !AllDated(o.value.w) { StaysMisdated(o.value.w, t.w); }
    }
  }

  lemma FilledVerdict(s: Sim, set_: Setting, customers: nat, orders: nat)
    requires Sound(s, set_) && s.w.products != [] && s.w.customers != []
    ensures var w := FillHappyPath(s, set_, customers, orders).w;
            var v := AssignPublicIds(w.(customers := ApplyDemoLogin(w.customers)));
            && Inv(v, FillHappyPath(s, set_, customers, orders).d.pos, AllowedMethods(set_.company))
            && EveryoneOrders(v) && (AllDated(v) <==> AllDated(s.w))
  {
    hide Inv, FillHappyPath, ApplyDemoLogin, AssignPublicIds, AllDated, EveryoneOrders, Relabelled, EmailsDistinct;
    FillSound(s, set_, customers, orders);
    var t := FillHappyPath(s, set_, customers, orders);
    if !AllDated(s.w) { StaysMisdated(s.w, t.w); }
    var allowed := AllowedMethods(set_.company);
    EmailsOfInv(t.w, t.d.pos, allowed);
    LoginRelabels(t.w);
    var u := t.w.(customers := ApplyDemoLogin(t.w.customers));
    RelabelKeeps(t.w, u, t.d.pos, allowed);
    PublicIdsRelabel(u);
    RelabelKeeps(u, AssignPublicIds(u), t.d.pos, allowed);
  }

  /**
   * The generator meets its checker: for every tape, clock, profile and setting, a world is built and
   * accepted exactly when the refund window is at least -4 days and the threshold is below the dearest laptop.
   */
  lemma GeneratorMeetsChecker(profile: Profile, tape: nat -> nat, set_: Setting)
    ensures var w := BuildWorld(profile, tape, set_);
            w.Some? && Integrity(w.value)
            <==> set_.company.windowDays >= -4 && set_.company.threshold < DEAREST_LAPTOP
    ensures BuildWorld(profile, tape, set_).Some? <==> set_.company.threshold < DEAREST_LAPTOP
    ensures var w := BuildWorld(profile, tape, set_); w.Some? ==> Generated(w.value, set_.company)
  {
    hide Sound, Overlay, Showcase, FillHappyPath, ApplyDemoLogin, AssignPublicIds, AllDated, EveryoneOrders, Inv, Integrity;
    hide HasLaptopAbove, CatalogSlice, BuildProducts, Profile.Products, Profile.Copies, Profile.Customers, Profile.Orders;
    ProfileSizes(profile);
    var s := Stocked(profile.Products(), tape);
    StockedSound(profile.Products(), tape, set_);
    ShownSound(s, set_, profile.Copies());
    var o := Overlay(s, set_, profile.Copies());
    if o.Some? {
      var t := Showcase(o.value, set_).value;
      FilledVerdict(t, set_, profile.Customers(), profile.Orders());
      var v := BuildWorld(profile, tape, set_).value;
      CheckerVerdict(v, FillHappyPath(t, set_, profile.Customers(), profile.Orders()).d.pos, AllowedMethods(set_.company));
    }
  }

  /** What the checker does not test and the generator keeps all the same. */
  lemma BeyondTheChecker(profile: Profile, tape: nat -> nat, set_: Setting)
    requires BuildWorld(profile, tape, set_).Some?
    ensures var w := BuildWorld(profile, tape, set_).value;
            && (forall i, j :: 0 <= i < j < |w.shipments| ==> w.shipments[i].orderId != w.shipments[j].orderId)
            && (forall i, j :: 0 <= i < j < |w.orders| ==> w.orders[i].id != w.orders[j].id)
            && (forall p :: p in w.payments ==>
                  && p.payMethod in AllowedMethods(set_.company)
                  && exists o :: o in w.orders && o.id == p.orderId && p.amount == o.total)
            && (forall o :: o in w.orders && (o.actualDelivery.Some? || o.status == Delivered) ==>
                  PaidCount(w.payments, o.id) >= 1)
            && (forall r :: r in w.refunds ==>
                  && r.amount <= PaidSum(w.payments, r.orderId)
                  && exists o :: o in w.orders && o.id == r.orderId && r.amount == o.total)
  {
    hide BuildWorld, PaidCount, PaidSum, LineSum;
    GeneratorMeetsChecker(profile, tape, set_);
  }
}

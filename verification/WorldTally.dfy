/** The figures of a generated world, for every tape, clock and setting: how many rows, and whose orders. */
module WorldTally {
  import opened Text
  import opened Records
  import opened Catalog
  import opened Emails
  import opened WorldSpec
  import opened WorldIntegrity
  import opened WorldInvariant
  import opened WorldSound
  import opened WorldRuns
  import opened WorldFilling
  import opened WorldFinish
  import opened WorldTheorem
  import opened WorldSizes

  // ---------- the filler as a whole ----------

  lemma FilledRows(s: Sim, set_: Setting, customers: nat, orders: nat)
    requires s.w.products != [] && s.w.customers != [] && Served(s.w) && |s.w.customers| <= customers
    requires |s.w.orders| + customers - |s.w.customers| <= orders
    ensures var t := FillHappyPath(s, set_, customers, orders);
            && SizesOf(t.w) == SizesOf(s.w).(customers := customers, orders := orders,
                                             items := |s.w.items| + orders - |s.w.orders|)
            && s.w.customers <= t.w.customers && t.w.products == s.w.products
  {
    hide FillCustomers, FillOwners, FillOrders, OrdersOf, HasAllocatedForm, Lower;
    FillCustomersRows(s, set_.now, customers);
    var s1 := FillCustomers(s, set_.now, customers);
    FillOwnersRows(s1, set_, s1.w.customers);
    ServedPrefix(s1.w.customers, |s.w.customers|, s.w.orders);
    FillOrdersRows(FillOwners(s1, set_, s1.w.customers), set_, orders);
  }

  /** Somebody who has orders, and is the showcase customer, gets no more while there is anyone else. */
  lemma ShowcasePassedOver(s: Sim, set_: Setting, customers: nat, orders: nat, c: Customer)
    requires Sound(s, set_) && s.w.products != [] && UniqueCustomers(s.w.customers) && HasOthers(s.w.customers)
    requires c in s.w.customers && Lower(c.email) == DEMO_SHOWCASE_EMAIL && OrdersOf(s.w.orders, c.id) > 0
    ensures OrdersOf(FillHappyPath(s, set_, customers, orders).w.orders, c.id) == OrdersOf(s.w.orders, c.id)
    ensures UniqueCustomers(FillHappyPath(s, set_, customers, orders).w.customers)
  {
    hide FillCustomers, FillOwners, FillOrders, OrdersOf, HasAllocatedForm, Lower, Sound, DEMO_SHOWCASE_EMAIL;
    FillCustomersRows(s, set_.now, customers);
    FillCustomersUnique(s, set_, customers);
    var s1 := FillCustomers(s, set_.now, customers);
    FillOwnersRows(s1, set_, s1.w.customers);
    var s2 := FillOwners(s1, set_, s1.w.customers);
    FillOrdersRows(s2, set_, orders);
    var s3 := FillOrders(s2, set_, orders);
    assert HasOthers(s2.w.customers) by {
      var o :| o in s.w.customers && Lower(o.email) != DEMO_SHOWCASE_EMAIL;
      assert o in s2.w.customers;
    }
    forall i | |s2.w.orders| <= i < |s3.w.orders| ensures s3.w.orders[i].customerId != c.id {
      var o :| o in s2.w.customers && o.id == s3.w.orders[i].customerId && Lower(o.email) != DEMO_SHOWCASE_EMAIL;
      if o.id == c.id { OneOfAnId(s2.w.customers, o, c); }
    }
    OthersOrders(s2.w.orders, s3.w.orders, c.id);
  }

  lemma OneOfAnId(customers: seq<Customer>, a: Customer, b: Customer)
    requires UniqueCustomers(customers) && a in customers && b in customers && a.id == b.id
    ensures a == b
  {
  }

  // ---------- up to the showcase ----------

  /** The world the filler starts from. */
  lemma ShownRows(profile: Profile, tape: nat -> nat, set_: Setting)
    requires BuildWorld(profile, tape, set_).Some?
    ensures var copies := profile.Copies();
            var o := Overlay(Stocked(profile.Products(), tape), set_, copies);
            && o.Some? && Showcase(o.value, set_).Some?
            && var t := Showcase(o.value, set_).value;
               && BuildWorld(profile, tape, set_).value
                  == Finished(FillHappyPath(t, set_, profile.Customers(), profile.Orders()).w)
               && t.w.products == Stocked(profile.Products(), tape).w.products
               && SizesOf(t.w) == Sizes(10 * copies + 1, 12 * copies + 10, 12 * copies + 10, 4 * copies + 4,
                                        4 * copies + 4, 10 * copies, 10 * copies + 16)
               && Served(t.w) && Sound(t, set_) && UniqueCustomers(t.w.customers)
               && var c := t.w.customers[10 * copies];
                  && c.email == DEMO_SHOWCASE_EMAIL && IsShowcase(c) && OrdersOf(t.w.orders, c.id) == 10
                  && (forall i :: 0 <= i < 10 * copies ==> HasAllocatedForm(t.w.customers[i].email))
  {
    hide *;
    BuildInSteps(profile, tape, set_);
    OverlayPart(profile, tape, set_);
    ShowcasePart(Overlay(Stocked(profile.Products(), tape), set_, profile.Copies()).value, set_, profile.Copies());
  }

  lemma OverlayPart(profile: Profile, tape: nat -> nat, set_: Setting)
    requires Overlay(Stocked(profile.Products(), tape), set_, profile.Copies()).Some?
    ensures var copies := profile.Copies();
            var t := Overlay(Stocked(profile.Products(), tape), set_, copies).value;
            && t.w.products == Stocked(profile.Products(), tape).w.products && t.w.products != []
            && SizesOf(t.w) == Sizes(10 * copies, 12 * copies, 12 * copies, 4 * copies, 4 * copies, 10 * copies,
                                     10 * copies + 6)
            && Served(t.w) && Sound(t, set_) && UniqueCustomers(t.w.customers) && AllFormed(t.w.customers)
  {
    hide *;
    ProfileSizes(profile);
    var s := Stocked(profile.Products(), tape);
    StockedSound(profile.Products(), tape, set_);
    StockedEmpty(profile.Products(), tape);
    OverlayRows(s, set_, profile.Copies());
    OverlayUnique(s, set_, profile.Copies());
    OverlaySound(s, set_, profile.Copies());
    CopiesAdd(profile.Copies());
  }

  lemma CopiesAdd(copies: nat)
    ensures Plus(Sizes(0, 0, 0, 0, 0, 0, 0),
                 Plus(Times(copies, Sizes(10, 12, 12, 4, 4, 10, 10)), Sizes(0, 0, 0, 0, 0, 0, 6)))
            == Sizes(10 * copies, 12 * copies, 12 * copies, 4 * copies, 4 * copies, 10 * copies, 10 * copies + 6)
  {
  }

  lemma ShowcasePart(s: Sim, set_: Setting, copies: nat)
    requires Showcase(s, set_).Some? && s.w.products != []
    requires SizesOf(s.w) == Sizes(10 * copies, 12 * copies, 12 * copies, 4 * copies, 4 * copies, 10 * copies,
                                   10 * copies + 6)
    requires Served(s.w) && Sound(s, set_) && UniqueCustomers(s.w.customers) && AllFormed(s.w.customers)
    ensures var t := Showcase(s, set_).value;
            && t.w.products == s.w.products
            && SizesOf(t.w) == Sizes(10 * copies + 1, 12 * copies + 10, 12 * copies + 10, 4 * copies + 4,
                                     4 * copies + 4, 10 * copies, 10 * copies + 16)
            && Served(t.w) && Sound(t, set_) && UniqueCustomers(t.w.customers)
            && var c := t.w.customers[10 * copies];
               && c.email == DEMO_SHOWCASE_EMAIL && IsShowcase(c) && OrdersOf(t.w.orders, c.id) == 10
               && (forall i :: 0 <= i < 10 * copies ==> HasAllocatedForm(t.w.customers[i].email))
  {
    hide Showcase, Sound, UniqueCustomers, AllDated, AllFormed, HasLaptopAbove, Served, OrdersOf, HasAllocatedForm;
    hide DEMO_SHOWCASE_EMAIL;
    ShowcaseRows(s, set_);
    ShowcaseSound(s, set_);
    ShowcaseUnique(s, set_);
    var t := Showcase(s, set_).value;
    var c := t.w.customers[|s.w.customers|];
    NothingOwned(s, set_, c.id);
    OwnOrders(s.w.orders, t.w.orders, c.id);
    FormsStay(s.w.customers, t.w.customers);
  }

  lemma FormsStay(a: seq<Customer>, b: seq<Customer>)
    requires a <= b && AllFormed(a)
    ensures forall i :: 0 <= i < |a| ==> HasAllocatedForm(b[i].email)
  {
    hide HasAllocatedForm;
    forall i | 0 <= i < |a| ensures HasAllocatedForm(b[i].email) { assert a[i] in a; }
  }

  lemma StockedEmpty(count: nat, tape: nat -> nat)
    ensures var s := Stocked(count, tape);
            && SizesOf(s.w) == Sizes(0, 0, 0, 0, 0, 0, 0) && s.w.customers == [] && Served(s.w)
            && |s.w.products| == count && AllFormed(s.w.customers)
  {
    ProductsMirrorSpecs(CatalogSlice(count), 1, Draws(tape, 0));
    hide CatalogSlice, BuildProducts;
  }

  /** The finishing touches. */
  function Finished(w: Tables): Tables { AssignPublicIds(w.(customers := ApplyDemoLogin(w.customers))) }

  lemma BuildInSteps(profile: Profile, tape: nat -> nat, set_: Setting)
    requires BuildWorld(profile, tape, set_).Some?
    ensures var o := Overlay(Stocked(profile.Products(), tape), set_, profile.Copies());
            && o.Some? && Showcase(o.value, set_).Some?
            && var t := Showcase(o.value, set_).value;
               t.w.products != [] && t.w.customers != []
               && BuildWorld(profile, tape, set_).value
                  == Finished(FillHappyPath(t, set_, profile.Customers(), profile.Orders()).w)
  {
    hide Overlay, Showcase, FillHappyPath, AssignPublicIds, ApplyDemoLogin, CatalogSlice, BuildProducts;
  }

  /** A fresh id owns nothing. */
  lemma NothingOwned(s: Sim, set_: Setting, id: Id)
    requires Sound(s, set_) && id >= s.d.pos
    ensures OrdersOf(s.w.orders, id) == 0
  {
    forall o | o in s.w.orders ensures o.customerId != id {
      OwnerBelow(s, set_, o);
    }
    hide Sound;
    NoneOwned(s.w.orders, id);
  }

  lemma OwnerBelow(s: Sim, set_: Setting, o: Order)
    requires Sound(s, set_) && o in s.w.orders
    ensures o.customerId < s.d.pos
  {
    hide UniqueOrders, PricesOk, ItemsOk, PaymentsOk, DeliveredPaid, ShipmentsOk, ReturnsOk, RefundsOk, TicketsOk, DoublesOk;
    hide EmailsDistinct, LineSum;
    assert o.customerId in CustomerIds(s.w.customers);
    var c :| c in s.w.customers && c.id == o.customerId;
  }

  lemma {:induction false} NoneOwned(orders: seq<Order>, id: Id)
    requires forall o :: o in orders ==> o.customerId != id
    ensures OrdersOf(orders, id) == 0
  {
    if orders != [] {
      assert orders[|orders| - 1] in orders;
      NoneOwned(orders[..|orders| - 1], id);
    }
  }

  // ---------- the finished world ----------

  lemma {:induction false} FreeLoginKeeps(customers: seq<Customer>, i: nat, k: nat)
    requires i <= |customers| && k < |customers| && Lower(customers[k].email) != DEMO_LOGIN_EMAIL
    ensures FreeLogin(customers, i)[k] == customers[k]
    decreases |customers| - i
  {
    hide Lower, Allocate, UsedEmails, DEMO_LOGIN_EMAIL;
    if i < |customers| {
      if Lower(customers[i].email) != DEMO_LOGIN_EMAIL {
        FreeLoginKeeps(customers, i + 1, k);
      } else {
        var email := Allocate(UsedEmails(customers), customers[i].name, 99);
        FreeLoginKeeps(customers[i := customers[i].(email := email)], i + 1, k);
      }
    }
  }

  lemma LoginKeeps(customers: seq<Customer>, k: nat)
    requires 1 <= k < |customers| && Lower(customers[k].email) == DEMO_SHOWCASE_EMAIL
    ensures |ApplyDemoLogin(customers)| == |customers| && ApplyDemoLogin(customers)[k] == customers[k]
  {
    assert |DEMO_LOGIN_EMAIL| != |DEMO_SHOWCASE_EMAIL|;
    hide Lower, DEMO_LOGIN_EMAIL, DEMO_SHOWCASE_EMAIL, FreeLogin, DEMO_LOGIN_NAME;
    FreeLoginKeeps(customers, 1, k);
  }

  lemma {:induction false} SameOrdersOf(a: seq<Order>, b: seq<Order>, id: Id)
    requires RelabelledOrders(a, b)
    ensures OrdersOf(a, id) == OrdersOf(b, id)
  {
    if a != [] {
      var n := |a| - 1;
      assert b[n] == a[n].(publicId := b[n].publicId);
      SameOrdersOf(a[..n], b[..n], id);
    }
  }

  lemma FinishedRows(w: Tables)
    requires EmailsDistinct(w.customers)
    ensures SizesOf(Finished(w)) == SizesOf(w) && |Finished(w).products| == |w.products|
    ensures RelabelledOrders(w.orders, Finished(w).orders) && SamePeople(w.customers, Finished(w).customers)
    ensures forall i :: 0 <= i < |w.customers| ==>
              |ApplyDemoLogin(w.customers)| == |w.customers|
              && Finished(w).customers[i]
                 == ApplyDemoLogin(w.customers)[i].(publicId := Finished(w).customers[i].publicId)
  {
    hide ApplyDemoLogin, EmailsDistinct;
    ApplyDemoLoginSound(w.customers);
  }

  /**
   * The figures of a generated world: exactly as many products, customers and orders as the profile asks for, a line
   * per order, and for the labelled part four refunds with their returns and ten tickets a copy, four refunds for the
   * showcase, and twenty-six or forty-six labels.
   */
  lemma GeneratedSizes(profile: Profile, tape: nat -> nat, set_: Setting)
    requires BuildWorld(profile, tape, set_).Some?
    ensures var w := BuildWorld(profile, tape, set_).value;
            match profile
            case Demo => |w.products| == 24 && SizesOf(w) == Sizes(20, 40, 40, 8, 8, 10, 26)
            case V1 => |w.products| == 80 && SizesOf(w) == Sizes(1000, 3000, 3000, 16, 16, 30, 46)
            case Load => |w.products| == 80 && SizesOf(w) == Sizes(10000, 25000, 25000, 16, 16, 30, 46)
  {
    hide BuildWorld, Overlay, Showcase, FillHappyPath, Stocked, Sound, UniqueCustomers, OrdersOf, HasAllocatedForm;
    hide Finished, EmailsDistinct, Served, AllDated, EveryoneOrders, DEMO_SHOWCASE_EMAIL;
    ShownRows(profile, tape, set_);
    StockedEmpty(profile.Products(), tape);
    var t := Showcase(Overlay(Stocked(profile.Products(), tape), set_, profile.Copies()).value, set_).value;
    FilledRows(t, set_, profile.Customers(), profile.Orders());
    FillSound(t, set_, profile.Customers(), profile.Orders());
    var f := FillHappyPath(t, set_, profile.Customers(), profile.Orders());
    EmailsOfSound(f, set_);
    FinishedRows(f.w);
  }

  lemma EmailsOfSound(s: Sim, set_: Setting)
    requires Sound(s, set_)
    ensures EmailsDistinct(s.w.customers)
  {
    hide EmailsDistinct;
  }

  /** The showcase customer ends up with its ten orders and no other, and no two customers share an id. */
  lemma ShowcaseOwnsTen(profile: Profile, tape: nat -> nat, set_: Setting) returns (c: Customer)
    requires BuildWorld(profile, tape, set_).Some?
    ensures var w := BuildWorld(profile, tape, set_).value;
            && c in w.customers && c.email == "demo@test.com.br" && IsShowcase(c) && OrdersOf(w.orders, c.id) == 10
            && UniqueCustomers(w.customers)
  {
    ShowcaseAddress();
    hide BuildWorld, Overlay, Showcase, FillHappyPath, Stocked, Sound, UniqueCustomers, OrdersOf, HasAllocatedForm;
    hide Finished, EmailsDistinct, Served, AllDated, EveryoneOrders, DEMO_SHOWCASE_EMAIL, ApplyDemoLogin, Lower;
    ShownRows(profile, tape, set_);
    StockedEmpty(profile.Products(), tape);
    var t := Showcase(Overlay(Stocked(profile.Products(), tape), set_, profile.Copies()).value, set_).value;
    FilledRows(t, set_, profile.Customers(), profile.Orders());
    FillSound(t, set_, profile.Customers(), profile.Orders());
    var f := FillHappyPath(t, set_, profile.Customers(), profile.Orders());
    EmailsOfSound(f, set_);
    FinishedRows(f.w);
    var k := 10 * profile.Copies();
    ShowcaseIsSpecial(t.w.customers[0].email);
    assert t.w.customers[0] in t.w.customers && t.w.customers[k] in t.w.customers;
    ShowcasePassedOver(t, set_, profile.Customers(), profile.Orders(), t.w.customers[k]);
    LoginKeeps(f.w.customers, k);
    var w := BuildWorld(profile, tape, set_).value;
    SameOrdersOf(f.w.orders, w.orders, t.w.customers[k].id);
    SameUnique(f.w.customers, w.customers);
    c := w.customers[k];
  }

  lemma ShowcaseAddress()
    ensures Lower(DEMO_SHOWCASE_EMAIL) == DEMO_SHOWCASE_EMAIL == "demo@test.com.br"
  {
  }

  lemma SameUnique(a: seq<Customer>, b: seq<Customer>)
    requires SamePeople(a, b) && UniqueCustomers(a)
    ensures UniqueCustomers(b)
  {
  }
}

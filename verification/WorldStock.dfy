/** The product table of a generated world, and what the weighted draws are weighted by. */
module WorldStock {
  import opened Text
  import opened Records
  import opened Catalog
  import opened Emails
  import opened Chunks
  import opened WorldSpec
  import opened WorldFinish
  import opened WorldTheorem
  import opened WorldSizes
  import opened WorldTally
  import opened WorldLabels
  import opened WorldLabelled

  // ---------- products ----------

  /** The catalog as it is cycled: past its end each product again, under a sku of its own. */
  function SpecNumber(i: nat): Spec {
    if i < |PRODUCT_SPECS| then PRODUCT_SPECS[i]
    else
      CatalogNotEmpty();
      var base := PRODUCT_SPECS[i % 24];
      base.(sku := base.sku + "-X" + Decimal(i))
  }

  lemma {:induction false} CycledIs(specs: seq<Spec>, count: nat)
    requires |PRODUCT_SPECS| <= |specs| <= count && forall i :: 0 <= i < |specs| ==> specs[i] == SpecNumber(i)
    ensures forall i :: 0 <= i < count ==> Cycled(specs, count)[i] == SpecNumber(i)
    decreases count - |specs|
  {
    CatalogNotEmpty();
    hide PRODUCT_SPECS, Decimal;
    if |specs| < count {
      var n := |specs|;
      assert (n - 24) % 24 == n % 24;
      var base := PRODUCT_SPECS[(n - 24) % 24];
      CycledIs(specs + [base.(sku := base.sku + "-X" + Decimal(n))], count);
    }
  }

  lemma SliceIs(count: nat)
    ensures forall i :: 0 <= i < count ==> CatalogSlice(count)[i] == SpecNumber(i)
  {
    CatalogNotEmpty();
    if count > |PRODUCT_SPECS| {
      CycledIs(PRODUCT_SPECS, count);
    }
    hide PRODUCT_SPECS, Cycled, Decimal;
  }

  predicate IsProductOf(p: Product, s: Spec, number: int) {
    && p.sku == s.sku && p.category == s.category && p.unitPrice == s.price && p.finalSale == s.finalSale
    && p.warrantyDays == s.warrantyDays && p.publicId == PublicId("PRD", number)
  }

  lemma StockedProducts(count: nat, tape: nat -> nat)
    ensures var ps := Stocked(count, tape).w.products;
            |ps| == count && forall i :: 0 <= i < count ==> IsProductOf(ps[i], SpecNumber(i), i + 1)
  {
    SliceIs(count);
    StockMirrors(CatalogSlice(count), 1, Draws(tape, 0));
    hide CatalogSlice, SpecNumber, BuildProducts;
  }

  /** The products of a generated world are the catalog's, row by row. */
  lemma GeneratedProducts(profile: Profile, tape: nat -> nat, set_: Setting)
    requires BuildWorld(profile, tape, set_).Some?
    ensures var w := BuildWorld(profile, tape, set_).value;
            |w.products| == (if profile == Demo then 24 else 80)
            && forall i :: 0 <= i < |w.products| ==> IsProductOf(w.products[i], SpecNumber(i), i + 1)
  {
    hide BuildWorld, Overlay, Showcase, FillHappyPath, Stocked, SpecNumber, ApplyDemoLogin, OrdersOf;
    ShownRows(profile, tape, set_);
    StockedProducts(profile.Products(), tape);
    var t := Showcase(Overlay(Stocked(profile.Products(), tape), set_, profile.Copies()).value, set_).value;
    assert t.w.products != [] && t.w.customers != [];
    FillGrows(t, set_, profile.Customers(), profile.Orders());
  }

  // ---------- weighted draws ----------

  /** The label whose share of the rolls holds `r`, the shares one after another. */
  function Weighted<Label>(table: seq<(Label, nat)>, r: nat): Option<Label> {
    if table == [] then None
    else if r < table[0].1 then Some(table[0].0) else Weighted(table[1..], r - table[0].1)
  }

  /** The tables of app/synthetic/graph.py, in percent. */
  const TIER_WEIGHTS: seq<(Tier, nat)> := [(Standard, 55), (Silver, 25), (Gold, 15), (Enterprise, 5)]
  const STATUS_WEIGHTS: seq<(OrderStatus, nat)> :=
    [(Delivered, 55), (Shipped, 20), (Processing, 7), (Paid, 3), (Pending, 3), (Cancelled, 7), (Returned, 5)]

  lemma TiersAreWeighted(r: nat)
    requires r < 100
    ensures Weighted(TIER_WEIGHTS, r) == Some(WeightedTier(r))
  {
    WeightedFrom(TIER_WEIGHTS, 0, r);
    if r >= 55 { WeightedFrom(TIER_WEIGHTS, 1, r - 55); }
    if r >= 80 { WeightedFrom(TIER_WEIGHTS, 2, r - 80); }
    if r >= 95 { WeightedFrom(TIER_WEIGHTS, 3, r - 95); }
  }

  lemma StatusesAreWeighted(r: nat)
    requires r < 100
    ensures Weighted(STATUS_WEIGHTS, r) == Some(WeightedStatus(r))
  {
    WeightedFrom(STATUS_WEIGHTS, 0, r);
    if r >= 55 { WeightedFrom(STATUS_WEIGHTS, 1, r - 55); }
    if r >= 75 { WeightedFrom(STATUS_WEIGHTS, 2, r - 75); }
    if r >= 82 { WeightedFrom(STATUS_WEIGHTS, 3, r - 82); }
    if r >= 85 { WeightedFrom(STATUS_WEIGHTS, 4, r - 85); }
    if r >= 88 { WeightedFrom(STATUS_WEIGHTS, 5, r - 88); }
    if r >= 95 { WeightedFrom(STATUS_WEIGHTS, 6, r - 95); }
  }

  lemma WeightedFrom<Label>(table: seq<(Label, nat)>, i: nat, r: nat)
    requires i < |table|
    ensures Weighted(table[i..], r)
            == if r < table[i].1 then Some(table[i].0) else Weighted(table[i + 1..], r - table[i].1)
    ensures table[0..] == table
  {
    assert table[i..][1..] == table[i + 1..];
  }

  /** Accounts: above 98 percent closed, above 92 and up to 98 suspended, the rest active. */
  lemma AccountsAreRolled(r: nat)
    ensures StatusOfRoll(r) == Closed <==> r * 50 > 49 * RANDOM_GRID
    ensures StatusOfRoll(r) == Active <==> r * 25 <= 23 * RANDOM_GRID
    ensures StatusOfRoll(r) in {Active, Suspended, Closed}
  {
  }
  /** The first payment of a cancelled order fails in three cases of ten; of a pending one it is pending. */
  lemma FirstStatusIs(status: OrderStatus, d: Draws)
    ensures var p := FirstStatus(status, d).value;
            && (p == PayFailed <==> status == Cancelled && d.Random() * 10 < 3 * RANDOM_GRID)
            && (p == PayPending <==> status == Pending) && p in {PayFailed, PayPending, PayPaid}
  {
  }

  // ---------- addresses ----------

  lemma {:induction false} WithoutNothing(c: char, s: string)
    requires c !in s
    ensures Without(c, s) == s
  {
    if s != "" {
      assert s[0] in s && s[1..] <= s[1..];
      assert forall x :: x in s[1..] ==> x in s;
      WithoutNothing(c, s[1..]);
    }
  }

  predicate IsPlainName(s: string) { IsWord(s) && '\'' !in s }

  lemma LowerWord(s: string)
    requires IsPlainName(s)
    ensures IsWord(Lower(s)) && '\'' !in Lower(s)
  {
    forall i | 0 <= i < |s| ensures !IsPySpace(Lower(s)[i]) && Lower(s)[i] != '\'' {
      assert s[i] in s;
    }
  }

  /** A first and a last name make `first.last` at the domain of the customer's number, as long as that is free. */
  lemma UsualAddress(used: set<string>, first: string, last: string, index: nat)
    requires index > 0 && IsPlainName(first) && IsPlainName(last)
    ensures var address := Lower(first) + "." + Lower(last) + "@" + EMAIL_DOMAINS[(index - 1) % 4];
            Lower(address) !in used ==> Allocate(used, first + " " + last, index) == address
  {
    hide Words, Without, EMAIL_DOMAINS;
    var name, a, b := first + " " + last, Lower(first), Lower(last);
    LowerWord(first);
    LowerWord(last);
    assert Lower(name) == a + (" " + b);
    assert '\'' !in Lower(name);
    WithoutNothing('\'', Lower(name));
    FirstWord(a, " " + b);
    BlankFirst(b);
    FirstWord(b, "");
    NoWords();
    assert b + "" == b;
    assert Words(Lower(name)) == [a, b];
    assert [a, b][1..] == [b] && Join(".", [b]) == b && Join(".", [a, b]) == a + "." + b;
    assert Slug(name) == a + "." + b;
    var domain := Domain(index);
    DomainIs(index);
    assert Candidate(Slug(name), domain, 0) == a + "." + b + "@" + domain;
    if Lower(a + "." + b + "@" + domain) !in used {
      assert !IsTaken(used, Slug(name), domain, 0);
      FirstFreeUnique(used, Slug(name), domain, 0);
    }
  }

  lemma DomainIs(index: nat)
    requires index > 0
    ensures |EMAIL_DOMAINS| == 4 && Domain(index) == EMAIL_DOMAINS[(index - 1) % 4]
  {
  }
  // ---------- which draw decides what ----------

  /** The filler's next order goes to the eligible customer the next draw points at. */
  lemma NextOrderGoesTo(s: Sim, set_: Setting, target: nat)
    requires s.w.products != [] && s.w.customers != [] && |s.w.orders| < target && Eligible(s.w.customers) != []
    ensures var t, eligible := FillOrders(s, set_, target), Eligible(s.w.customers);
            |t.w.orders| > |s.w.orders|
            && t.w.orders[|s.w.orders|].customerId == eligible[s.d.tape(s.d.pos) % |eligible|].id
  {
    hide AddRandomOrder, Eligible;
    var eligible := Eligible(s.w.customers);
    var c := eligible[s.d.Index(|eligible|)];
    var s0 := Sim(s.w, s.d.Next());
    AddRandomRows(s0, set_, c.id);
    FillOrdersRows(AddRandomOrder(s0, set_, c.id), set_, target);
  }

  /** A random order is for the product of its first draw and of the status its second draw is weighted to. */
  lemma RandomOrderIs(s: Sim, set_: Setting, customerId: Id)
    requires s.w.products != []
    ensures var t := AddRandomOrder(s, set_, customerId);
            var n, q := |s.w.orders|, s.w.products[s.d.tape(s.d.pos) % |s.w.products|];
            && |t.w.orders| == n + 1 && |t.w.items| == |s.w.items| + 1
            && t.w.orders[n].customerId == customerId && t.w.orders[n].total == q.unitPrice
            && Weighted(STATUS_WEIGHTS, s.d.tape(s.d.pos + 1) % 100) == Some(t.w.orders[n].status)
            && t.w.items[|s.w.items|].productId == q.id && t.w.items[|s.w.items|].orderId == t.w.orders[n].id
  {
    hide MakeBundle, HappyTiming, WeightedStatus, Weighted, STATUS_WEIGHTS;
    var d := s.d.Next();
    var product, status := s.w.products[s.d.Index(|s.w.products|)], WeightedStatus(d.Index(100));
    StatusesAreWeighted(d.Index(100));
    var t := HappyTiming(status, d.Next());
    BundleSettles(Sim(s.w, t.draws), set_, customerId, product, HappyPlan(status, t.value, set_.now));
  }

  /** Names, tiers and payment methods that are not given are drawn from their lists. */
  lemma DrawnWhenAbsent(d: Draws, allowed: seq<string>)
    requires allowed != []
    ensures |FIRST_NAMES| == 20 && |LAST_NAMES| == 15
    ensures PersonName(None, d).value == FIRST_NAMES[d.tape(d.pos) % 20] + " " + LAST_NAMES[d.tape(d.pos + 1) % 15]
    ensures Weighted(TIER_WEIGHTS, d.tape(d.pos) % 100) == Some(TierDraw(None, d).value)
    ensures PayMethod(None, allowed, d).value == allowed[d.tape(d.pos) % |allowed|]
  {
    NamesListed();
    TiersAreWeighted(d.Index(100));
    hide FIRST_NAMES, LAST_NAMES, Weighted, WeightedTier;
  }
}

/** The product catalog and the name lists (app/synthetic/catalogs.py); display names of products are left out. */
module Catalog {
  import opened Text
  import opened Records

  datatype Spec = Spec(sku: string, category: Category, price: int, finalSale: bool, warrantyDays: int)

  const FIRST_NAMES := [
    "Ana", "Bruno", "Camila", "Diego", "Eduarda", "Felipe", "Gabriela", "Henrique", "Isabela", "Joao",
    "Karina", "Lucas", "Mariana", "Nicolas", "Olivia", "Pedro", "Rafaela", "Sofia", "Thiago", "Vanessa"
  ]

  const LAST_NAMES := [
    "Almeida", "Barbosa", "Cardoso", "Dias", "Fernandes", "Gomes", "Lima", "Martins", "Nogueira",
    "Oliveira", "Pereira", "Rocha", "Santos", "Souza", "Teixeira"
  ]

  lemma NamesListed()
    ensures |FIRST_NAMES| == 20 && |LAST_NAMES| == 15
  {
  }

  const SMARTPHONE_SPECS := [
    Spec("NX-PHN-01", Smartphones, 189990, false, 90),
    Spec("NX-PHN-02", Smartphones, 129900, false, 90),
    Spec("NX-PHN-03", Smartphones, 79990, true, 90)
  ]

  const LAPTOP_SPECS := [
    Spec("NX-LTP-01", Laptops, 549900, false, 365),
    Spec("NX-LTP-02", Laptops, 349900, false, 365),
    Spec("NX-LTP-03", Laptops, 219900, true, 365)
  ]

  const MONITOR_SPECS := [
    Spec("NX-MON-01", Monitors, 189900, false, 90),
    Spec("NX-MON-02", Monitors, 89990, false, 90),
    Spec("NX-MON-03", Monitors, 44990, true, 90)
  ]

  const HEADPHONE_SPECS := [
    Spec("NX-HP-01", Headphones, 69990, false, 90),
    Spec("NX-HP-02", Headphones, 24990, false, 90),
    Spec("NX-HP-03", Headphones, 9990, true, 90)
  ]

  const KEYBOARD_SPECS := [
    Spec("NX-KB-01", Keyboards, 49990, false, 90),
    Spec("NX-KB-02", Keyboards, 29990, false, 90),
    Spec("NX-KB-03", Keyboards, 14990, true, 90)
  ]

  const ACCESSORY_SPECS := [
    Spec("NX-ACC-01", Accessories, 18990, false, 90),
    Spec("NX-ACC-02", Accessories, 24990, false, 90),
    Spec("NX-ACC-03", Accessories, 7990, true, 90),
    Spec("NX-ACC-04", Accessories, 12990, false, 90)
  ]

  const LATER_SPECS := [
    Spec("NX-PHN-04", Smartphones, 429900, false, 90),
    Spec("NX-LTP-04", Laptops, 799900, false, 365),
    Spec("NX-MON-04", Monitors, 259900, false, 90),
    Spec("NX-HP-04", Headphones, 119900, false, 90),
    Spec("NX-ACC-05", Accessories, 15990, false, 90)
  ]

  const PRODUCT_SPECS: seq<Spec> :=
    SMARTPHONE_SPECS + LAPTOP_SPECS + MONITOR_SPECS + HEADPHONE_SPECS + KEYBOARD_SPECS + ACCESSORY_SPECS
    + LATER_SPECS

  /** The dearest laptop; every refund threshold below it leaves a product to refund above it. */
  const DEAREST_LAPTOP: int := 799900

  /** `catalog_slice`: the first `count` specs, repeated with a new sku when the catalog is too short. */
  function CatalogSlice(count: nat): (specs: seq<Spec>)
    ensures |specs| == count
  {
    if count <= |PRODUCT_SPECS| then PRODUCT_SPECS[..count] else Cycled(PRODUCT_SPECS, count)
  }

  function Cycled(specs: seq<Spec>, count: nat): (r: seq<Spec>)
    requires |PRODUCT_SPECS| <= |specs| <= count
    ensures |r| == count && specs <= r
    decreases count - |specs|
  {
    if |specs| == count then specs
    else
      var base := PRODUCT_SPECS[(|specs| - |PRODUCT_SPECS|) % |PRODUCT_SPECS|];
      Cycled(specs + [base.(sku := base.sku + "-X" + Decimal(|specs|))], count)
  }

  /** The whole catalog heads every slice at least as long. */
  lemma SliceHeads(count: nat)
    requires count >= |PRODUCT_SPECS|
    ensures PRODUCT_SPECS <= CatalogSlice(count)
  {
  }

  predicate LaptopsUpTo(specs: seq<Spec>, price: int) {
    forall s :: s in specs && s.category == Laptops ==> s.price <= price
  }

  lemma ConcatUpTo(a: seq<Spec>, b: seq<Spec>, price: int)
    requires LaptopsUpTo(a, price) && LaptopsUpTo(b, price)
    ensures LaptopsUpTo(a + b, price)
  {
  }

  lemma CatalogUpTo()
    ensures LaptopsUpTo(PRODUCT_SPECS, DEAREST_LAPTOP)
  {
    SectionsUpTo();
    var abc := SMARTPHONE_SPECS + LAPTOP_SPECS + MONITOR_SPECS + HEADPHONE_SPECS + KEYBOARD_SPECS + ACCESSORY_SPECS;
    assert PRODUCT_SPECS == abc + LATER_SPECS;
    hide SMARTPHONE_SPECS, LAPTOP_SPECS, MONITOR_SPECS, HEADPHONE_SPECS, KEYBOARD_SPECS, ACCESSORY_SPECS, LATER_SPECS;
    hide LaptopsUpTo, PRODUCT_SPECS;
    ConcatUpTo(SMARTPHONE_SPECS, LAPTOP_SPECS, DEAREST_LAPTOP);
    ConcatUpTo(SMARTPHONE_SPECS + LAPTOP_SPECS, MONITOR_SPECS, DEAREST_LAPTOP);
    ConcatUpTo(SMARTPHONE_SPECS + LAPTOP_SPECS + MONITOR_SPECS, HEADPHONE_SPECS, DEAREST_LAPTOP);
    ConcatUpTo(SMARTPHONE_SPECS + LAPTOP_SPECS + MONITOR_SPECS + HEADPHONE_SPECS, KEYBOARD_SPECS, DEAREST_LAPTOP);
    ConcatUpTo(SMARTPHONE_SPECS + LAPTOP_SPECS + MONITOR_SPECS + HEADPHONE_SPECS + KEYBOARD_SPECS, ACCESSORY_SPECS,
               DEAREST_LAPTOP);
    ConcatUpTo(abc, LATER_SPECS, DEAREST_LAPTOP);
  }

  lemma SectionsUpTo()
    ensures LaptopsUpTo(SMARTPHONE_SPECS, DEAREST_LAPTOP) && LaptopsUpTo(LAPTOP_SPECS, DEAREST_LAPTOP)
    ensures LaptopsUpTo(MONITOR_SPECS, DEAREST_LAPTOP) && LaptopsUpTo(HEADPHONE_SPECS, DEAREST_LAPTOP)
    ensures LaptopsUpTo(KEYBOARD_SPECS, DEAREST_LAPTOP) && LaptopsUpTo(ACCESSORY_SPECS, DEAREST_LAPTOP)
    ensures LaptopsUpTo(LATER_SPECS, DEAREST_LAPTOP)
  {
    assert forall i :: 0 <= i < |LAPTOP_SPECS| ==> LAPTOP_SPECS[i].price <= DEAREST_LAPTOP;
    assert forall i :: 0 <= i < |LATER_SPECS| ==> LATER_SPECS[i].price <= DEAREST_LAPTOP;
  }

  lemma DearestLaptop()
    ensures LaptopsUpTo(PRODUCT_SPECS, DEAREST_LAPTOP)
    ensures exists s :: s in PRODUCT_SPECS && s.category == Laptops && s.price == DEAREST_LAPTOP
    ensures |PRODUCT_SPECS| == 24
  {
    CatalogUpTo();
    assert PRODUCT_SPECS[20] == LATER_SPECS[1];
    assert PRODUCT_SPECS[20] in PRODUCT_SPECS;
  }

  predicate HasSpecAbove(specs: seq<Spec>, threshold: int) {
    exists s :: s in specs && s.category == Laptops && s.price > threshold
  }

  /** A laptop above the threshold is in the catalog exactly when the dearest one is above it. */
  lemma LaptopAbove(threshold: int)
    ensures HasSpecAbove(PRODUCT_SPECS, threshold) <==> threshold < DEAREST_LAPTOP
  {
    hide PRODUCT_SPECS;
    DearestLaptop();
  }
}

/** Who is owed a refund of which order, read off the tables, and that the policy engine grants exactly that. */
module ToolsEntitlement {
  import opened Text
  import opened Records
  import opened PolicyRules
  import opened WorldIntegrity
  import opened WorldInvariant
  import opened Tools

  // ---------- paid rows ----------

  lemma PaidRowsAppend(a: seq<Payment>, p: Payment)
    ensures PaidRows(a + [p]) == PaidRows(a) + if p.status == PayPaid then [p] else []
    decreases |a|
  {
    if a == [] {
      assert [] + [p] == [p];
    } else {
      PaidRowsAppend(a[1..], p);
      assert (a + [p])[1..] == a[1..] + [p];
    }
  }

  /** The paid rows of an order, as the tools list them and as the checker counts them. */
  lemma {:induction false} PaidRowsCounted(payments: seq<Payment>, id: Id)
    ensures |PaidRows(PaymentsFor(payments, id))| == PaidCount(payments, id)
    ensures forall p :: p in PaidRows(PaymentsFor(payments, id)) ==> p in payments && IsPaidFor(p, id)
  {
    if payments != [] {
      var n := |payments| - 1;
      PaidRowsCounted(payments[..n], id);
      assert payments[n] in payments && payments == payments[..n] + [payments[n]];
      var before := PaymentsFor(payments[..n], id);
      if payments[n].orderId == id {
        PaidRowsAppend(before, payments[n]);
      } else {
        assert before + [] == before;
      }
    }
  }

  // ---------- the facts of an order ----------

  /** Delivered, and less than `days + 1` full days ago. */
  predicate DeliveredWithin(o: Order, now: Time, days: int) {
    o.actualDelivery.Some? && days >= 0 && now - o.actualDelivery.value < (days + 1) * DAY
  }

  lemma DaysAre(o: Order, now: Time, days: int)
    ensures var n := DaysSinceDelivery(o, now); n.Some? && n.value <= days <==> DeliveredWithin(o, now, days)
  {
  }

  predicate IsFirstLine(items: seq<OrderItem>, id: Id, i: nat)
    requires i < |items|
  {
    items[i].orderId == id && forall h :: 0 <= h < i ==> items[h].orderId != id
  }

  predicate IsFirstProduct(products: seq<Product>, id: Id, j: nat)
    requires j < |products|
  {
    products[j].id == id && forall h :: 0 <= h < j ==> products[h].id != id
  }

  /** The product of the first line that carries the order's id. */
  predicate IsMainProduct(w: Tables, o: Order, q: Product) {
    exists i, j :: 0 <= i < |w.items| && 0 <= j < |w.products| && w.products[j] == q
      && IsFirstLine(w.items, o.id, i) && IsFirstProduct(w.products, w.items[i].productId, j)
  }

  lemma {:induction false} FirstOfLines(items: seq<OrderItem>, id: Id)
    ensures LinesFor(items, id) == [] <==> forall h :: 0 <= h < |items| ==> items[h].orderId != id
    ensures LinesFor(items, id) != [] ==>
              exists i :: 0 <= i < |items| && IsFirstLine(items, id, i) && LinesFor(items, id)[0] == items[i]
  {
    if items != [] {
      var n := |items| - 1;
      FirstOfLines(items[..n], id);
      if LinesFor(items[..n], id) != [] {
        var i :| 0 <= i < n && IsFirstLine(items[..n], id, i) && LinesFor(items[..n], id)[0] == items[..n][i];
        assert IsFirstLine(items, id, i);
      } else if items[n].orderId == id {
        assert forall h :: 0 <= h < n ==> items[..n][h].orderId != id;
        assert IsFirstLine(items, id, n);
      }
    }
  }

  lemma {:induction false} FirstProduct(products: seq<Product>, id: Id)
    ensures ProductById(products, id).None? <==> forall h :: 0 <= h < |products| ==> products[h].id != id
    ensures ProductById(products, id).Some? ==>
              exists j :: 0 <= j < |products| && IsFirstProduct(products, id, j)
                            && ProductById(products, id).value == products[j]
  {
    if products != [] {
      if products[0].id == id {
        assert IsFirstProduct(products, id, 0);
      } else {
        var rest := products[1..];
        FirstProduct(rest, id);
        if ProductById(rest, id).Some? {
          var j :| 0 <= j < |rest| && IsFirstProduct(rest, id, j) && ProductById(rest, id).value == rest[j];
          assert forall h :: 0 < h < j + 1 ==> products[h] == rest[h - 1];
          assert IsFirstProduct(products, id, j + 1);
        } else {
          assert forall h :: 0 < h < |products| ==> products[h] == rest[h - 1];
        }
      }
    }
  }

  /** The product the rules look at is the one of the order's first line. */
  lemma PrimaryProductIs(w: Tables, o: Order, q: Product)
    ensures PrimaryProduct(w, o) == Some(q) <==> IsMainProduct(w, o, q)
  {
    FirstOfLines(w.items, o.id);
    var lines := LinesFor(w.items, o.id);
    if lines != [] { FirstProduct(w.products, lines[0].productId); }
    hide LinesFor, ProductById;
  }

  // ---------- what is covered ----------

  predicate IsChargedTwice(w: Tables, o: Order) { PaidCount(w.payments, o.id) >= 2 }

  /** The warranty of the order's product; ninety days when the product is unknown. */
  function WarrantyOf(w: Tables, o: Order): int {
    var q := PrimaryProduct(w, o);
    if q.Some? then q.value.warrantyDays else 90
  }

  predicate IsFinalSale(w: Tables, o: Order) { PrimaryProduct(w, o).Some? && PrimaryProduct(w, o).value.finalSale }

  /** What the company owes for the reason asked: in time, or charged twice for anything but a withdrawal. */
  predicate IsEntitled(w: Tables, o: Order, now: Time, reason: Reason, p: Policy) {
    match reason
    case Withdrawal => DeliveredWithin(o, now, p.legalDays)
    case DefectiveProduct => IsChargedTwice(w, o) || DeliveredWithin(o, now, WarrantyOf(w, o))
    case CustomerPreference => IsChargedTwice(w, o) || (DeliveredWithin(o, now, p.windowDays) && !IsFinalSale(w, o))
    case _ => IsChargedTwice(w, o) || DeliveredWithin(o, now, p.windowDays)
  }

  /** Electronics that come back late are inspected, unless withdrawn from or charged twice. */
  predicate MustInspect(w: Tables, o: Order, now: Time, reason: Reason, p: Policy) {
    var q := PrimaryProduct(w, o);
    && reason != Withdrawal && !IsChargedTwice(w, o)
    && q.Some? && q.value.category in {Smartphones, Laptops, Monitors, Headphones}
    && !DeliveredWithin(o, now, p.inspectionAfter)
  }

  /** The policy engine grants exactly what is owed, to exactly those who count as verified. */
  lemma EntitledIff(w: Tables, o: Order, now: Time, reason: Reason, verified: bool, p: Policy)
    ensures var d := CanRefund(RefundFacts(w, o, now, reason, verified), p);
            && (d.eligible <==> verified && IsEntitled(w, o, now, reason, p))
            && (d.eligible ==> (d.inspection <==> MustInspect(w, o, now, reason, p)))
  {
    PaidRowsCounted(w.payments, o.id);
    DaysAre(o, now, p.legalDays);
    DaysAre(o, now, p.windowDays);
    DaysAre(o, now, p.inspectionAfter);
    DaysAre(o, now, WarrantyOf(w, o));
    RefundEligibility(RefundFacts(w, o, now, reason, verified), p);
    hide PaidCount, PaidRows, PaymentsFor, PrimaryProduct, DaysSinceDelivery;
  }
}

/**
 * The generator as it runs: a mutable world whose lists grow row by row and are rewritten at the end
 * (app/synthetic/graph.py, anomalies.py, demo_customer.py, __init__.py).
 */
module WorldGenerator {
  import opened Text
  import opened Records
  import opened Catalog
  import opened Emails
  import opened WorldSpec
  import opened WorldBuilders

  class World {
    var products: seq<Product>
    var customers: seq<Customer>
    var orders: seq<Order>
    var orderItems: seq<OrderItem>
    var payments: seq<Payment>
    var shipments: seq<Shipment>
    var returns_: seq<Return>
    var refunds: seq<Refund>
    var tickets: seq<Ticket>
    var scenarios: seq<Scenario>

    constructor (products: seq<Product>)
      ensures Rows() == EMPTY_WORLD.(products := products)
    {
      this.products, customers, orders, orderItems, payments := products, [], [], [], [];
      shipments, returns_, refunds, tickets, scenarios := [], [], [], [], [];
    }

    function Rows(): Tables
      reads this
    {
      Tables(products, customers, orders, orderItems, payments, shipments, returns_, refunds, tickets, scenarios)
    }

    /** The world and the draws left. */
    ghost function At(rng: SeededRng): Sim
      reads this, rng
    {
      Sim(Rows(), rng.Here())
    }

    method BuildCustomer(rng: SeededRng, now: Time, index: nat, tier: Option<Tier>, status: AccountStatus,
                         email: Option<string>, name: Option<string>) returns (c: Customer)
      requires index > 0
      modifies rng
      ensures Made(c, rng.Here())
              == WorldSpec.BuildCustomer(Rows(), old(rng.Here()), now, index, tier, status, email, name)
    {
      NamesListed();
      hide Draws.Index, Draws.RandInt, Allocate, UsedEmails, WeightedTier, FIRST_NAMES, LAST_NAMES;
      var person := "";
      if name.Some? {
        person := name.value;
      } else {
        var i := rng.Index(|FIRST_NAMES|);
        var j := rng.Index(|LAST_NAMES|);
        person := FIRST_NAMES[i] + " " + LAST_NAMES[j];
      }
      assert Made(person, rng.Here()) == PersonName(name, old(rng.Here()));
      var id := rng.Uuid();
      var address := "";
      if email.Some? {
        address := email.value;
      } else {
        address := AllocateLoginEmail(UsedEmails(customers), person, index);
      }
      var phone := rng.RandInt(10000000, 99999999);
      ghost var before := rng.Here();
      var drawn := Standard;
      if tier.Some? {
        drawn := tier.value;
      } else {
        var r := rng.Index(100);
        drawn := WeightedTier(r);
      }
      assert Made(drawn, rng.Here()) == TierDraw(tier, before);
      var age := rng.RandInt(40, 400);
      c := Customer(id, PublicId("CUST", index), person, address, phone, drawn, status, now - age * DAY);
    }

    method AddFailedPayments(rng: SeededRng, n: nat, order: Order, payIndex: nat, m: string)
      modifies this`payments, rng
      ensures var f := FailedPayments(n, order.id, payIndex, order.total, m, order.createdAt - 2 * HOUR, old(rng.Here()));
              payments == old(payments) + f.value && rng.Here() == f.draws
    {
      ghost var start, base := rng.Here(), payments;
      ghost var at := order.createdAt - 2 * HOUR;
      ghost var done := [];
      for i := 0 to n
        invariant payments == base + done
        invariant var f, rest := FailedPayments(n, order.id, payIndex, order.total, m, at, start),
                                 FailedPayments(n - i, order.id, payIndex + i, order.total, m, at, rng.Here());
                  f.value == done + rest.value && f.draws == rest.draws
      {
        ghost var rest := FailedPayments(n - i, order.id, payIndex + i, order.total, m, at, rng.Here());
        var id := rng.Uuid();
        var txn := rng.Uuid();
        var p := Payment(id, PublicId("PAY", payIndex + i), order.id, PayFailed, order.total, m, txn,
                         order.createdAt - 2 * HOUR);
        payments := payments + [p];
        assert rest.value
            == [p] + FailedPayments(n - (i + 1), order.id, payIndex + (i + 1), order.total, m, at, rng.Here()).value;
        done := done + [p];
      }
    }

    method AddMainPayments(rng: SeededRng, p: Plan, order: Order, payIndex: nat, m: string, allowed: seq<string>)
      requires order.status == p.status && order.createdAt == p.createdAt
      modifies this`payments, rng
      ensures var f := MainPayments(p, order.id, payIndex, order.total, m, allowed, old(rng.Here()));
              payments == old(payments) + f.value && rng.Here() == f.draws
    {
      var paidStatus := if p.status != Pending then PayPaid else PayPending;
      if p.status == Cancelled {
        var r := rng.Random();
        if FractionBelow(r, 30) {
          paidStatus := PayFailed;
        }
      }
      assert Made(paidStatus, rng.Here()) == FirstStatus(p.status, old(rng.Here()));
      hide FirstStatus;
      var id := rng.Uuid();
      var txn := rng.Uuid();
      payments := payments
      + [Payment(id, PublicId("PAY", payIndex), order.id, paidStatus, order.total, m, txn, order.createdAt)];
      if p.extraPaid {
        var m2 := if p.secondMethod.Some? && p.secondMethod.value in allowed then p.secondMethod.value else m;
        var id2 := rng.Uuid();
        var txn2 := rng.Uuid();
        payments := payments
        + [Payment(id2, PublicId("PAY", payIndex + 1), order.id, PayPaid, order.total, m2, txn2, order.createdAt + 8)];
      }
    }

    /** The method drawn or given, and the days to the estimate. */
    method DrawTerms(rng: SeededRng, p: Plan, allowed: seq<string>) returns (m: string, days: int)
      requires allowed != []
      modifies rng
      ensures var pay := PayMethod(p.payMethod, allowed, old(rng.Here()));
              var eta := OffsetOr(p.etaDays, 3, 12, pay.draws);
              m == pay.value && days == eta.value && rng.Here() == eta.draws
    {
      hide Draws.Index, Draws.RandInt;
      if p.payMethod.Some? && p.payMethod.value != "" {
        m := p.payMethod.value;
      } else {
        var i := rng.Index(|allowed|);
        m := allowed[i];
      }
      if m !in allowed {
        m := allowed[0];
      }
      if p.etaDays.Some? && p.etaDays.value != 0 {
        days := p.etaDays.value;
      } else {
        days := rng.RandInt(3, 12);
      }
    }

    /** The shipment's status and dates; delivery is drawn unless given, and never in the future. */
    method DrawShipping(rng: SeededRng, p: Plan, now: Time)
      returns (ship: Option<ShipStatus>, shippedAt: Option<Time>, deliveredAt: Option<Time>, received: Option<bool>)
      modifies rng
      ensures ship == ShipStatusFor(p.status, p.ship) && shippedAt == ShippedAt(ship, p.createdAt)
      ensures Made(deliveredAt, rng.Here()) == DeliveredAt(ship, p.createdAt, p.deliveredDays, now, old(rng.Here()))
      ensures received == if ship == Some(ShipDelivered) && p.received.None? then Some(true) else p.received
    {
      hide Draws.RandInt;
      ship, shippedAt, deliveredAt, received := p.ship, None, None, p.received;
      if p.status in {Shipped, Delivered, Returned} && ship == None {
        ship := Some(if p.status in {Delivered, Returned} then ShipDelivered else ShipInTransit);
      }
      if p.status == Cancelled {
        ship := None;
      }
      if ship.Some? && ship != Some(ShipProcessing) {
        shippedAt := Some(p.createdAt + DAY);
      }
      if ship == Some(ShipDelivered) {
        var days;
        if p.deliveredDays.Some? && p.deliveredDays.value != 0 {
          days := p.deliveredDays.value;
        } else {
          days := rng.RandInt(4, 10);
        }
        var at := p.createdAt + days * DAY;
        if at > now {
          at := now - DAY;
        }
        deliveredAt := Some(at);
        if received == None {
          received := Some(true);
        }
      }
    }

    method AddShipment(rng: SeededRng, ship: ShipStatus, order: Order, shipIndex: nat, carriers: seq<string>,
                       shippedAt: Option<Time>, received: Option<bool>)
      requires carriers != []
      modifies this`shipments, rng
      ensures var f := MakeShipment(Some(ship), order.id, shipIndex, carriers, shippedAt, order.estimatedDelivery,
                                    order.actualDelivery, received, old(rng.Here()));
              shipments == old(shipments) + [f.value.value] && rng.Here() == f.draws
    {
      hide Draws.Index;
      var id := rng.Uuid();
      var i := rng.Index(|carriers|);
      var tracking := rng.Uuid();
      shipments := shipments
      + [Shipment(id, PublicId("SHP", shipIndex), order.id, carriers[i], tracking, ship, shippedAt,
                  order.estimatedDelivery, order.actualDelivery, received)];
    }

    /** The order and its line; the shipping terms they come with. */
    method PlaceOrder(rng: SeededRng, set_: Setting, customer: Customer, product: Product, p: Plan)
      returns (order: Order, terms: Terms)
      modifies this`orders, this`orderItems, rng
      ensures var h := HeadOf(old(At(rng)), set_, customer.id, product, p);
              && order == h.order && terms == h.terms && rng.Here() == h.draws
              && orders == old(orders) + [order] && orderItems == old(orderItems) + [h.item]
    {
      hide PayMethod, OffsetOr, DeliveredAt, ShipStatusFor, ShippedAt;
      var allowed := AllowedMethods(set_.company);
      var m, days := DrawTerms(rng, p, allowed);
      var lineTotal := product.unitPrice * p.quantity;
      var estimated := p.createdAt + days * DAY;
      var ship, shippedAt, deliveredAt, received := DrawShipping(rng, p, set_.now);
      var orderId := rng.Uuid();
      order := Order(orderId, PublicId("ORD", |orders| + 1001), customer.id, p.status, lineTotal,
                     set_.company.currency, p.createdAt, estimated, deliveredAt);
      var itemId := rng.Uuid();
      var item := OrderItem(itemId, PublicId("ITM", |orderItems| + 1), orderId, product.id, p.quantity,
                            product.unitPrice, lineTotal);
      orders := orders + [order];
      orderItems := orderItems + [item];
      terms := Terms(m, ship, shippedAt, received);
    }

    method AddOrderBundle(rng: SeededRng, set_: Setting, customer: Customer, product: Product, p: Plan)
      returns (order: Order)
      modifies this, rng
      ensures (At(rng), order) == AddOrder(old(At(rng)), set_, customer.id, product, p)
    {
      BundleInSteps(At(rng), set_, customer.id, product, p);
      hide MakeBundle, HeadOf, FailedPayments, MainPayments, MakeShipment;
      var payIndex, shipIndex := |payments| + 1, |shipments| + 1;
      ghost var h := HeadOf(At(rng), set_, customer.id, product, p);
      var terms;
      order, terms := PlaceOrder(rng, set_, customer, product, p);
      AddFailedPayments(rng, p.failed, order, payIndex, terms.payMethod);
      AddMainPayments(rng, p, order, payIndex + p.failed, terms.payMethod, AllowedMethods(set_.company));
      if terms.ship.Some? {
        AddShipment(rng, terms.ship.value, order, shipIndex, set_.company.carriers, terms.shippedAt, terms.received);
      }
      ghost var b := MakeBundle(old(At(rng)), set_, customer.id, product, p).value;
      assert payments == old(payments) + b.payments;
      assert shipments == old(shipments) + if b.shipment.Some? then [b.shipment.value] else [];
    }

    method AddTicket(rng: SeededRng, now: Time, customer: Customer, order: Order)
      modifies this`tickets, rng
      ensures At(rng) == WorldSpec.AddTicket(old(At(rng)), now, customer.id, order.id)
    {
      hide Draws.RandInt;
      var id := rng.Uuid();
      var hours := rng.RandInt(1, 48);
      tickets := tickets + [Ticket(id, customer.id, Some(order.id), now - hours * HOUR)];
    }
  }
}

/** The tables of the synthetic world and the draws it is made from (app/synthetic/records.py, rng.py). */
module Records {
  import opened Text

  /** Minutes; `created_at` and friends are instants on this scale. */
  type Time = int
  const HOUR: int := 60
  const DAY: int := 1440

  /** A uuid is named by the tape cell it was drawn from, so distinct draws give distinct ids. */
  type Id = nat

  /** A printed id such as `ORD-01001`: its prefix and its number. */
  datatype PublicId = PublicId(prefix: string, number: int)

  datatype OrderStatus = Pending | Paid | Processing | Shipped | Delivered | Cancelled | Returned
  datatype PayStatus = PayPending | PayAuthorized | PayPaid | PayFailed | PayRefunded | PayPartiallyRefunded
  datatype ShipStatus =
    | ShipProcessing | ShipShipped | ShipInTransit | ShipOutForDelivery | ShipDelivered | ShipDelayed | ShipLost
  datatype AccountStatus = Active | Suspended | Closed
  datatype Tier = Standard | Silver | Gold | Enterprise
  datatype RefundStatus = RefundRequested | RefundPendingApproval | RefundApproved | RefundExecuted | RefundDenied
  datatype ReturnStatus =
    | ReturnRequested | ReturnPendingInspection | ReturnApproved | ReturnRejected | ReturnCompleted | ReturnCancelled
  /** A reason as the tools receive it; the last two name no return reason. */
  datatype Reason =
    | DefectiveProduct | WrongItem | CustomerPreference | MissingParts | OtherReason | Withdrawal
    | Unlisted(text: string)
  datatype Inspection = InspectionPending | InspectionPassed | InspectionFailed | InspectionNotRequired
  datatype Category = Smartphones | Laptops | Monitors | Headphones | Keyboards | Accessories
  datatype Kind =
    | DoublePayment | DelayedShipment | DeliveredMissing | RefundOutsideWindow | DefectiveWarranty
    | HighValueRefund | CancelAfterShip | FraudRisk | FinalSale | GoldTier | FailedPayment | HappyPath
    | NegativeSecurity

  datatype Product = Product(id: Id, publicId: PublicId, sku: string, category: Category,
                             unitPrice: int, finalSale: bool, warrantyDays: int)
  datatype Customer = Customer(id: Id, publicId: PublicId, name: string, email: string, phone: int,
                               tier: Tier, status: AccountStatus, createdAt: Time)
  datatype Order = Order(id: Id, publicId: PublicId, customerId: Id, status: OrderStatus, total: int,
                         currency: string, createdAt: Time, estimatedDelivery: Time,
                         actualDelivery: Option<Time>)
  datatype OrderItem = OrderItem(id: Id, publicId: PublicId, orderId: Id, productId: Id, quantity: int,
                                 unitPrice: int, lineTotal: int)
  datatype Payment = Payment(id: Id, publicId: PublicId, orderId: Id, status: PayStatus, amount: int,
                             payMethod: string, transaction: Id, createdAt: Time)
  datatype Shipment = Shipment(id: Id, publicId: PublicId, orderId: Id, carrier: string, tracking: Id,
                               status: ShipStatus, shippedAt: Option<Time>, estimatedDelivery: Time,
                               deliveredAt: Option<Time>, received: Option<bool>)
  datatype Return = Return(id: Id, publicId: PublicId, orderId: Id, customerId: Id, reason: Reason,
                           status: ReturnStatus, inspection: Inspection, requestedAt: Time)
  datatype Refund = Refund(id: Id, publicId: PublicId, orderId: Id, returnId: Option<Id>,
                           paymentId: Option<Id>, amount: int, status: RefundStatus, reason: Reason,
                           requiresHuman: bool, createdAt: Time)
  datatype Ticket = Ticket(id: Id, customerId: Id, orderId: Option<Id>, createdAt: Time)
  datatype Scenario = Scenario(kind: Kind, copy: int, customerId: Id, orderId: Option<Id>)

  datatype Tables = Tables(products: seq<Product>, customers: seq<Customer>, orders: seq<Order>,
                           items: seq<OrderItem>, payments: seq<Payment>, shipments: seq<Shipment>,
                           returns_: seq<Return>, refunds: seq<Refund>, tickets: seq<Ticket>,
                           scenarios: seq<Scenario>)

  const EMPTY_WORLD := Tables([], [], [], [], [], [], [], [], [], [])

  /** The parts of `company.yaml` the generator reads; money in cents. */
  datatype CompanyFile = CompanyFile(windowDays: int, threshold: int, currency: string,
                                     carriers: seq<string>, methods: seq<string>)

  /** A world model that lists a carrier, as the shipped file does; `rng.choice` raises on an empty list. */
  type Company = c: CompanyFile | c.carriers != [] witness CompanyFile(0, 0, "", [""], [])

  function AllowedMethods(company: Company): (r: seq<string>)
    ensures r != []
  {
    if company.methods != [] then company.methods else ["pix", "credit_card"]
  }

  // ---------- draws ----------

  /** An unbounded tape of raw numbers; every draw reads one cell and narrows it to its range. */
  datatype Draws = Draws(tape: nat -> nat, pos: nat) {
    function Next(): Draws { this.(pos := pos + 1) }

    function Uuid(): Id { pos }

    function RandInt(lo: int, hi: int): (r: int)
      requires lo <= hi
      ensures lo <= r <= hi
    {
      lo + tape(pos) % (hi - lo + 1)
    }

    function Index(n: nat): (i: nat)
      requires n > 0
      ensures i < n
    {
      tape(pos) % n
    }

    /** `rng.random()`, as a numerator over 2^53. */
    function Random(): (r: nat)
      ensures r < RANDOM_GRID
    {
      tape(pos) % RANDOM_GRID
    }
  }

  const RANDOM_GRID: nat := 0x20_0000_0000_0000

  /** Comparisons of a random fraction with a percentage. */
  predicate FractionBelow(r: nat, percent: nat) { r * 100 < percent * RANDOM_GRID }

  predicate FractionAbove(r: nat, percent: nat) { r * 100 > percent * RANDOM_GRID }

  /** The same draws made by the code: a generator object whose position moves. */
  class SeededRng {
    const tape: nat -> nat
    var pos: nat

    constructor (tape: nat -> nat)
      ensures this.tape == tape && pos == 0
    {
      this.tape, pos := tape, 0;
    }

    function Here(): Draws
      reads this
    {
      Draws(tape, pos)
    }

    method Uuid() returns (id: Id)
      modifies this
      ensures id == old(Here()).Uuid() && Here() == old(Here()).Next()
    {
      id := pos;
      pos := pos + 1;
    }

    method RandInt(lo: int, hi: int) returns (r: int)
      requires lo <= hi
      modifies this
      ensures r == old(Here()).RandInt(lo, hi) && Here() == old(Here()).Next()
    {
      r := Here().RandInt(lo, hi);
      pos := pos + 1;
    }

    method Index(n: nat) returns (i: nat)
      requires n > 0
      modifies this
      ensures i == old(Here()).Index(n) && i < n && Here() == old(Here()).Next()
    {
      i := Here().Index(n);
      pos := pos + 1;
    }

    method Random() returns (r: nat)
      modifies this
      ensures r == old(Here()).Random() && Here() == old(Here()).Next()
    {
      r := Here().Random();
      pos := pos + 1;
    }
  }
}

/** The deterministic refund and cancellation rules (app/policies/rules.py). */
module PolicyRules {
  import opened Text
  import opened Records

  /** The parts of the company configuration the rules read; money in cents. */
  datatype Policy = Policy(windowDays: int, threshold: int, legalDays: int, inspectionAfter: int)

  datatype RefundCode =
    | IdentityRequired | NotDelivered | OutsideWithdrawal | WithdrawalRight | DuplicateCharge | FinalSaleItem
    | OutsideWarranty | WarrantyException | DefectiveItem | OutsideWindow | WithinWindow | InspectionNeeded

  datatype RefundDecision = RefundDecision(eligible: bool, requiresHuman: bool, reasons: seq<RefundCode>,
                                           maxAmount: Option<int>, inspection: bool)

  /** What the tools pass to `can_refund`. */
  datatype RefundCase = RefundCase(days: Option<int>, amount: int, category: Category, finalSale: bool,
                                   reason: Reason, verified: bool, warrantyDays: int, duplicate: bool)

  predicate IsElectronics(c: Category) { c in {Smartphones, Laptops, Monitors, Headphones} }

  function Refused(code: RefundCode): RefundDecision { RefundDecision(false, false, [code], None, false) }

  predicate NeedsInspection(c: RefundCase, p: Policy) {
    c.days.Some? && IsElectronics(c.category) && c.days.value > p.inspectionAfter
  }

  function Granted(c: RefundCase, p: Policy, code: RefundCode): RefundDecision {
    var inspection := NeedsInspection(c, p);
    RefundDecision(true, c.amount > p.threshold || inspection, [code] + if inspection then [InspectionNeeded] else [],
                   Some(c.amount), inspection)
  }

  /** `can_refund` */
  function CanRefund(c: RefundCase, p: Policy): RefundDecision {
    if !c.verified then RefundDecision(false, true, [IdentityRequired], None, false)
    else if c.reason == Withdrawal then
      if c.days.None? then Refused(NotDelivered)
      else if c.days.value > p.legalDays then Refused(OutsideWithdrawal)
      else RefundDecision(true, c.amount > p.threshold, [WithdrawalRight], Some(c.amount), false)
    else if c.duplicate then RefundDecision(true, c.amount > p.threshold, [DuplicateCharge], Some(c.amount), false)
    else if c.days.None? then Refused(NotDelivered)
    else if c.finalSale && c.reason == CustomerPreference then Refused(FinalSaleItem)
    else if c.reason == DefectiveProduct then
      if c.days.value > c.warrantyDays then Refused(OutsideWarranty)
      else Granted(c, p, if c.days.value > p.windowDays then WarrantyException else DefectiveItem)
    else if c.days.value > p.windowDays then Refused(OutsideWindow)
    else Granted(c, p, WithinWindow)
  }

  /** What the reason and the delivery allow, whoever asks. */
  predicate IsCovered(c: RefundCase, p: Policy) {
    match c.reason
    case Withdrawal => c.days.Some? && c.days.value <= p.legalDays
    case DefectiveProduct => c.duplicate || (c.days.Some? && c.days.value <= c.warrantyDays)
    case CustomerPreference => c.duplicate || (c.days.Some? && !c.finalSale && c.days.value <= p.windowDays)
    case _ => c.duplicate || (c.days.Some? && c.days.value <= p.windowDays)
  }

  /** Eligibility in one line; what an eligible or a refused case comes with. */
  lemma RefundEligibility(c: RefundCase, p: Policy)
    ensures CanRefund(c, p).eligible <==> c.verified && IsCovered(c, p)
    ensures CanRefund(c, p).eligible ==> CanRefund(c, p).maxAmount == Some(c.amount) && (c.days.Some? || c.duplicate)
    ensures !CanRefund(c, p).eligible ==> CanRefund(c, p).maxAmount == None
    ensures CanRefund(c, p).requiresHuman
            <==> !c.verified || (CanRefund(c, p).eligible && (c.amount > p.threshold || CanRefund(c, p).inspection))
  {
  }

  /** Why: the reason of a refusal is the first test that fails, that of a grant what it rests on. */
  lemma RefundReasons(c: RefundCase, p: Policy)
    ensures var d := CanRefund(c, p);
            && |d.reasons| == (if d.inspection then 2 else 1)
            && (d.inspection ==> d.reasons[1] == InspectionNeeded)
            && (d.reasons[0] == IdentityRequired <==> !c.verified)
            && (!d.eligible && c.verified ==>
                  d.reasons[0] == if c.days.None? then NotDelivered
                                  else if c.reason == Withdrawal then OutsideWithdrawal
                                  else if c.finalSale && c.reason == CustomerPreference then FinalSaleItem
                                  else if c.reason == DefectiveProduct then OutsideWarranty else OutsideWindow)
            && (d.eligible ==>
                  d.reasons[0] == if c.reason == Withdrawal then WithdrawalRight
                                  else if c.duplicate then DuplicateCharge
                                  else if c.reason != DefectiveProduct then WithinWindow
                                  else if c.days.value > p.windowDays then WarrantyException else DefectiveItem)
    ensures CanRefund(c, p).inspection
            <==> CanRefund(c, p).eligible && c.reason != Withdrawal && !c.duplicate && c.days.value > p.inspectionAfter
                 && c.category in {Smartphones, Laptops, Monitors, Headphones}
  {
  }

  /** Waiting never helps: what is refused today stays refused, and what needs a human tomorrow needs one or is refused. */
  lemma WaitingNeverHelps(c: RefundCase, p: Policy, later: int)
    requires c.days.Some? && c.days.value <= later
    ensures var d := c.(days := Some(later));
            && (CanRefund(d, p).eligible ==> CanRefund(c, p).eligible)
            && (CanRefund(d, p).eligible && CanRefund(c, p).requiresHuman ==> CanRefund(d, p).requiresHuman)
  {
    RefundEligibility(c, p);
    RefundEligibility(c.(days := Some(later)), p);
  }

  /** A dearer order is no easier: eligibility ignores the amount, human approval is monotone in it. */
  lemma AmountOnlyEscalates(c: RefundCase, p: Policy, more: int)
    requires c.amount <= more
    ensures var d := c.(amount := more);
            && (CanRefund(d, p).eligible <==> CanRefund(c, p).eligible)
            && (CanRefund(c, p).requiresHuman ==> CanRefund(d, p).requiresHuman)
  {
    RefundEligibility(c, p);
    RefundEligibility(c.(amount := more), p);
  }

  datatype CancelDecision = ShippedUseReturn | AlreadyCancelled | CancelBeforeShipment

  /** On its way, arrived or lost: anything past the warehouse. */
  predicate HasLeft(shipment: Option<ShipStatus>, status: OrderStatus) {
    status in {Shipped, Delivered, Returned} || (shipment.Some? && shipment.value != ShipProcessing)
  }

  /** `can_cancel` */
  function CanCancel(shipment: Option<ShipStatus>, status: OrderStatus): CancelDecision {
    if status in {Shipped, Delivered, Returned}
       || (shipment.Some?
           && shipment.value in {ShipShipped, ShipInTransit, ShipOutForDelivery, ShipDelivered, ShipDelayed, ShipLost})
    then ShippedUseReturn
    else if status == Cancelled then AlreadyCancelled
    else CancelBeforeShipment
  }

  lemma CancelOnlyBeforeShipment(shipment: Option<ShipStatus>, status: OrderStatus)
    ensures CanCancel(shipment, status) == CancelBeforeShipment <==> !HasLeft(shipment, status) && status != Cancelled
  {
  }
}

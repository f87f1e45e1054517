/** The closed escalation catalog (app/policies/rules.py). */
module PolicyEscalation {
  import opened Text
  import opened Records

  datatype Trigger =
    | DeliveredButMissing | Fraud | PrivacyBeyondOwn | TechnicalAssistance | UnusableIdentity | PolicyException
    | LawfulRefusal | OrderTracking | PaymentTracking | UnknownTrigger(text: string)

  /** Why the catalog decided as it did. */
  datatype Cause = Listed(trigger: Trigger) | Refusal | Autonomous | Unknown | NoCatalogHit

  datatype EscalationDecision = EscalationDecision(escalate: bool, cause: Cause)

  predicate AlwaysEscalates(t: Trigger) {
    t in {DeliveredButMissing, Fraud, PrivacyBeyondOwn, TechnicalAssistance, UnusableIdentity, PolicyException}
  }

  /** `should_escalate` */
  function ShouldEscalate(t: Trigger, insists: bool): EscalationDecision {
    if AlwaysEscalates(t) then EscalationDecision(true, Listed(t))
    else if t == LawfulRefusal then
      if insists then EscalationDecision(true, Listed(PolicyException)) else EscalationDecision(false, Refusal)
    else if t in {OrderTracking, PaymentTracking} then EscalationDecision(false, Autonomous)
    else EscalationDecision(false, Unknown)
  }

  /** The facts the catalog reads; an absent key is `None` or false. */
  datatype Facts = Facts(account: Option<AccountStatus>, identityChecked: bool, identityVerified: Option<bool>,
                         shipment: Option<ShipStatus>, received: Option<bool>, fraudReported: bool, chargeback: bool,
                         privacy: bool, technical: bool, insists: bool, trigger: Option<Trigger>)

  const NO_FACTS := Facts(None, false, None, None, None, false, false, false, false, false, None)

  /** `escalation_from_facts` */
  function EscalationFromFacts(f: Facts): EscalationDecision {
    if f.account in {Some(Suspended), Some(Closed)} then ShouldEscalate(UnusableIdentity, false)
    else if f.identityChecked && f.identityVerified == Some(false) then ShouldEscalate(UnusableIdentity, false)
    else if f.shipment == Some(ShipDelivered) && f.received == Some(false) then ShouldEscalate(DeliveredButMissing, false)
    else if f.fraudReported || f.chargeback then ShouldEscalate(Fraud, false)
    else if f.privacy then ShouldEscalate(PrivacyBeyondOwn, false)
    else if f.technical then ShouldEscalate(TechnicalAssistance, false)
    else if f.insists then ShouldEscalate(LawfulRefusal, true)
    else if f.trigger.Some? then ShouldEscalate(f.trigger.value, f.insists)
    else EscalationDecision(false, NoCatalogHit)
  }

  /** The catalog hits exactly when one of its facts is there, in any order. */
  lemma CatalogHit(f: Facts)
    ensures EscalationFromFacts(f).escalate
            <==> || f.account in {Some(Suspended), Some(Closed)}
                 || (f.identityChecked && f.identityVerified == Some(false))
                 || (f.shipment == Some(ShipDelivered) && f.received == Some(false))
                 || f.fraudReported || f.chargeback || f.privacy || f.technical || f.insists
                 || (f.trigger.Some? && AlwaysEscalates(f.trigger.value))
  {
  }
  /** What the facts other than a reported trigger show. */
  predicate Shows(f: Facts, t: Trigger) {
    match t
    case UnusableIdentity => f.account in {Some(Suspended), Some(Closed)} || (f.identityChecked && f.identityVerified == Some(false))
    case DeliveredButMissing => f.shipment == Some(ShipDelivered) && f.received == Some(false)
    case Fraud => f.fraudReported || f.chargeback
    case PrivacyBeyondOwn => f.privacy
    case TechnicalAssistance => f.technical
    case PolicyException => f.insists
    case _ => false
  }

  /** The order in which the catalog looks. */
  const LOOKED_AT := [UnusableIdentity, DeliveredButMissing, Fraud, PrivacyBeyondOwn, TechnicalAssistance, PolicyException]

  /** Why the catalog escalates: the first of its facts in its order, or else the trigger reported. */
  lemma CatalogCause(f: Facts, i: nat)
    ensures i < |LOOKED_AT| && Shows(f, LOOKED_AT[i]) && (forall j :: 0 <= j < i ==> !Shows(f, LOOKED_AT[j]))
            ==> EscalationFromFacts(f) == EscalationDecision(true, Listed(LOOKED_AT[i]))
    ensures (forall j :: 0 <= j < |LOOKED_AT| ==> !Shows(f, LOOKED_AT[j])) && EscalationFromFacts(f).escalate
            ==> f.trigger.Some? && EscalationFromFacts(f).cause == Listed(f.trigger.value)
  {
    if forall j :: 0 <= j < |LOOKED_AT| ==> !Shows(f, LOOKED_AT[j]) {
      assert LOOKED_AT[0] == UnusableIdentity && LOOKED_AT[1] == DeliveredButMissing && LOOKED_AT[2] == Fraud;
      assert LOOKED_AT[3] == PrivacyBeyondOwn && LOOKED_AT[4] == TechnicalAssistance && LOOKED_AT[5] == PolicyException;
    } else if i < |LOOKED_AT| && forall j :: 0 <= j < i ==> !Shows(f, LOOKED_AT[j]) {
      assert i > 0 ==> !Shows(f, LOOKED_AT[0]);
      assert i > 1 ==> !Shows(f, LOOKED_AT[1]);
      assert i > 2 ==> !Shows(f, LOOKED_AT[2]);
      assert i > 3 ==> !Shows(f, LOOKED_AT[3]);
      assert i > 4 ==> !Shows(f, LOOKED_AT[4]);
    }
  }
}

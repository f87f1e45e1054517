/** The writing tools as they run: a tool context over a session whose rows they append and update in place. */
module ToolSession {
  import opened Text
  import opened Records
  import opened PolicyRules
  import opened WorldIntegrity
  import opened WorldInvariant
  import opened WorldGenerator
  import opened Tools
  import opened ToolsRefunds

  class ToolContext {
    const session: World
    const customerId: Option<Id>
    var identityVerified: bool

    constructor (session: World, customerId: Option<Id>)
      ensures this.session == session && At() == State(session.Rows(), Context(customerId, false))
    {
      this.session, this.customerId, identityVerified := session, customerId, false;
    }

    function At(): State
      reads this, session
    {
      State(session.Rows(), Context(customerId, identityVerified))
    }

    method VerifyIdentity(who: Option<Ref>) returns (r: Reply)
      modifies this`identityVerified
      ensures (At(), r) == Tools.VerifyIdentity(old(At()), who)
    {
      hide GetCustomer;
      var profile := GetCustomer(At(), who);
      if !profile.Profile? {
        identityVerified := false;
        return Unverified(profile);
      }
      var active := profile.status == Active;
      identityVerified := active;
      r := Identity(active, profile.publicId, profile.status);
    }

    method ListItems(ref: Ref) returns (r: Reply)
      ensures r == GetOrderItems(At(), ref)
    {
      hide LinesFor, ProductById;
      var o := ScopedOrder(At(), ref);
      if o.None? { return OrderNotFound(ref); }
      var lines := LinesFor(session.orderItems, o.value.id);
      var items := [];
      for i := 0 to |lines|
        invariant items == ViewItems(lines[..i], session.products)
      {
        assert lines[..i + 1][..i] == lines[..i];
        items := items + [ViewItem(lines[i], session.products)];
      }
      assert lines[..|lines|] == lines;
      r := ItemList(o.value.publicId, items);
    }

    method CreateRefundRequest(e: Env, ref: Ref, reason: Reason, verified: bool, f: Fresh) returns (r: Reply)
      modifies session`refunds
      ensures (At(), r) == CreateRefund(old(At()), e, ref, reason, verified, f)
    {
      hide CheckRefund, PaidRows, PaymentsFor, FindOrder, LinesFor;
      var eligibility := CheckRefund(At(), e, ref, reason, verified || identityVerified);
      if !eligibility.Eligibility? { return OrderNotFound(ref); }
      if !eligibility.decision.eligible { return RefundRefused(eligibility); }
      var order := FindOrder(session.orders, ref);
      if order.None? { return OrderNotFound(ref); }
      var paid := PaidRows(PaymentsFor(session.payments, order.value.id));
      var d := eligibility.decision;
      var amount := if d.maxAmount.Some? then d.maxAmount.value else order.value.total;
      var status := if d.requiresHuman then RefundPendingApproval else RefundRequested;
      var refund := Refund(f.id, f.publicId, order.value.id, None, if paid != [] then Some(paid[0].id) else None, amount,
                           status, reason, d.requiresHuman, e.now);
      assert refund == NewRefund(session.Rows(), order.value, d, reason, f, e.now);
      hide NewRefund;
      session.refunds := session.refunds + [refund];
      r := RefundOpened(refund.publicId, order.value.publicId, refund.status, refund.amount, refund.requiresHuman,
                        eligibility);
    }

    method CancelInPlace(ref: Ref) returns (r: Reply)
      requires UniqueOrders(session.orders)
      modifies session`orders
      ensures (At(), r) == CancelOrder(old(At()), ref)
    {
      hide FindShipment, FindOrder, CanCancel, SetStatus;
      var o := ScopedOrder(At(), ref);
      if o.None? { return OrderNotFound(ref); }
      var shipment := FindShipment(session.shipments, o.value.id);
      var decision := CanCancel(if shipment.Some? then Some(shipment.value.status) else None, o.value.status);
      if decision != CancelBeforeShipment { return CancelRefused(o.value.publicId, decision); }
      FoundOrder(session.orders, ref);
      UpdateOrder(o.value);
      r := CancelDone(o.value.publicId);
    }

    /** `order.status = CANCELLED` on the row itself. */
    method UpdateOrder(o: Order)
      requires UniqueOrders(session.orders) && o in session.orders
      modifies session`orders
      ensures session.orders == SetStatus(old(session.orders), o.id, Cancelled)
    {
      SetStatusRows(session.orders, o.id, Cancelled);
      hide SetStatus;
      ghost var k :| 0 <= k < |session.orders| && session.orders[k] == o;
      var i := 0;
      while session.orders[i].id != o.id
        invariant i <= k && forall j :: 0 <= j < i ==> session.orders[j].id != o.id
        decreases k - i
      {
        i := i + 1;
      }
      session.orders := session.orders[i := session.orders[i].(status := Cancelled)];
    }

    method CreateReturnRequest(e: Env, ref: Ref, reason: Reason, f: Fresh) returns (r: Reply)
      modifies session`returns_
      ensures (At(), r) == CreateReturn(old(At()), e, ref, reason, f)
    {
      hide FindOrder;
      var order := ScopedOrder(At(), ref);
      if order.None? { return OrderNotFound(ref); }
      var parsed := ParseReturnReason(reason);
      var ret := Return(f.id, f.publicId, order.value.id, order.value.customerId, parsed, ReturnRequested,
                        if parsed == DefectiveProduct then InspectionPending else InspectionNotRequired, e.now);
      session.returns_ := session.returns_ + [ret];
      r := ReturnOpened(ret.publicId, order.value.publicId, parsed);
    }

    method Invoke(e: Env, call: Call) returns (r: Reply)
      requires UniqueOrders(session.orders)
      modifies this`identityVerified, session`orders, session`returns_, session`refunds
      ensures (At(), r) == Step(old(At()), e, call) && UniqueOrders(session.orders)
    {
      StepOnlyCancels(At(), e, call);
      UniqueStays(session.Rows(), Step(At(), e, call).0.w);
      hide GetCustomer, GetOrder, GetOrderItems, GetPayments, GetPaymentStatus, CheckRefund, GetShipment, GetReturnStatus;
      hide Tools.VerifyIdentity, CreateRefund, CancelOrder, CreateReturn, UniqueOrders, OnlyCancels;
      match call
      case CallGetCustomer(who) => r := GetCustomer(At(), who);
      case CallVerifyIdentity(who) => r := VerifyIdentity(who);
      case CallGetOrder(ref) => r := GetOrder(At(), ref);
      case CallGetOrderItems(ref) => r := ListItems(ref);
      case CallGetPayments(ref) => r := GetPayments(At(), ref);
      case CallGetPaymentStatus(ref) => r := GetPaymentStatus(At(), ref);
      case CallCheckRefund(ref, reason, verified) => r := CheckRefund(At(), e, ref, reason, verified);
      case CallCreateRefund(ref, reason, verified, f) => r := CreateRefundRequest(e, ref, reason, verified, f);
      case CallGetShipment(ref) => r := GetShipment(At(), ref);
      case CallGetShippingStatus(ref) => r := GetShipment(At(), ref);
      case CallGetReturnStatus(ref) => r := GetReturnStatus(At(), ref);
      case CallCancelOrder(ref) => r := CancelInPlace(ref);
      case CallCreateReturn(ref, reason, f) => r := CreateReturnRequest(e, ref, reason, f);
    }
  }
}

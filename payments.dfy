/**
 * The mock payment ledger: orders are created in paise, verified by order id
 * (which marks them completed and stamps a transaction id), and queried back
 * in rupees.
 */
module Payments {
  import opened Wrappers
  import opened Text

  datatype Order = Order(
    id: string, amountPaise: int, currency: string, status: string,
    applicationId: Option<string>, kind: Option<string>, createdAt: int,
    paymentId: Option<string>, transactionId: Option<string>, completedAt: Option<int>)

  /** The part of an order `createOrder` answers with. */
  datatype OrderView = OrderView(id: string, amount: int, currency: string)

  datatype Verified = Verified(applicationId: Option<string>, transactionId: string)

  datatype PaymentStatus = PaymentStatus(status: string, amount: int, transactionId: Option<string>,
                                         completedAt: Option<int>)

  /** An error answer: HTTP status and message. */
  datatype Failure = Failure(statusCode: nat, message: string)

  const Created: string := "created"
  const Completed: string := "completed"

  /** A fresh order: the amount in paise, INR, status `created`. */
  function NewOrder(orderUuid: string, amount: int, applicationId: Option<string>,
                    kind: Option<string>, now: int): (o: Order)
    ensures o.id == "order_" + orderUuid && o.amountPaise == amount * 100
    ensures o.currency == "INR" && o.status == Created
    ensures o.paymentId.None? && o.transactionId.None? && o.completedAt.None?
  {
    Order("order_" + orderUuid, amount * 100, "INR", Created, applicationId, kind, now, None, None, None)
  }

  /** `TXN` followed by the clock reading. */
  function TransactionId(now: int): (t: string)
    ensures StartsWith(t, "TXN") && |t| > 3
  {
    "TXN" + IntToString(now)
  }

  /** The fields `verifyPayment` sets on an order. */
  function Complete(o: Order, paymentId: Option<string>, now: int): (c: Order)
    ensures c.status == Completed && c.transactionId == Some(TransactionId(now))
    ensures c.paymentId == paymentId && c.completedAt == Some(now)
    ensures c.id == o.id && c.amountPaise == o.amountPaise && c.currency == o.currency
    ensures c.applicationId == o.applicationId && c.kind == o.kind && c.createdAt == o.createdAt
  {
    o.(status := Completed, paymentId := paymentId, transactionId := Some(TransactionId(now)),
       completedAt := Some(now))
  }

  /** What `getPaymentStatus` answers for an order: the amount back in rupees. */
  function StatusOf(o: Order): PaymentStatus {
    PaymentStatus(o.status, o.amountPaise / 100, o.transactionId, o.completedAt)
  }

  /** `payments.find(p => p.id === orderId)` */
  function FindOrder(orders: seq<Order>, orderId: string): (r: Option<nat>)
    ensures r.Some? ==> r.value < |orders| && orders[r.value].id == orderId
    ensures r.Some? ==> forall j :: 0 <= j < r.value ==> orders[j].id != orderId
    ensures r.None? ==> forall j :: 0 <= j < |orders| ==> orders[j].id != orderId
  {
    if orders == [] then None
    else if orders[0].id == orderId then Some(0)
    else match FindOrder(orders[1..], orderId)
      case None => None
      case Some(i) => Some(i + 1)
  }

  /** A new order reports the rupee amount it was created with, unpaid. */
  lemma NewOrderStatus(orderUuid: string, amount: int, applicationId: Option<string>,
                       kind: Option<string>, now: int)
    ensures StatusOf(NewOrder(orderUuid, amount, applicationId, kind, now))
         == PaymentStatus(Created, amount, None, None)
  {
    assert amount * 100 / 100 == amount;
  }

  /** A verified order reports completed, the same amount and the stamped transaction. */
  lemma CompletedStatus(o: Order, paymentId: Option<string>, now: int)
    ensures StatusOf(Complete(o, paymentId, now))
         == PaymentStatus(Completed, StatusOf(o).amount, Some(TransactionId(now)), Some(now))
  {
  }

  /** Verifying twice leaves the order as the second verification set it. */
  lemma CompleteOverwrites(o: Order, p1: Option<string>, t1: int, p2: Option<string>, t2: int)
    ensures Complete(Complete(o, p1, t1), p2, t2) == Complete(o, p2, t2)
  {
  }

  /** An order is either still created or completed. */
  predicate Settled(orders: seq<Order>) {
    forall i :: 0 <= i < |orders| ==> orders[i].status == Created || orders[i].status == Completed
  }

  class Ledger {
    var orders: seq<Order>

    constructor ()
      ensures orders == []
    {
      orders := [];
    }

    /** `createOrder`: record a created order and answer with its id, amount in paise and currency. */
    method CreateOrder(amount: int, applicationId: Option<string>, kind: Option<string>,
                       orderUuid: string, now: int)
      returns (view: OrderView)
      modifies this
      ensures orders == old(orders) + [NewOrder(orderUuid, amount, applicationId, kind, now)]
      ensures view == OrderView("order_" + orderUuid, amount * 100, "INR")
      ensures Settled(old(orders)) ==> Settled(orders)
    {
      var order := NewOrder(orderUuid, amount, applicationId, kind, now);
      orders := orders + [order];
      view := OrderView(order.id, order.amountPaise, order.currency);
    }

    /**
     * `verifyPayment`: complete the first order with the id, in place, or answer
     * 404 and change nothing. No signature is checked.
     */
    method VerifyPayment(orderId: string, paymentId: Option<string>, now: int)
      returns (r: Result<Verified, Failure>)
      modifies this
      ensures match FindOrder(old(orders), orderId)
        case None => r == Err(Failure(404, "Order not found")) && orders == old(orders)
        case Some(i) =>
          && orders == old(orders)[i := Complete(old(orders)[i], paymentId, now)]
          && r == Ok(Verified(old(orders)[i].applicationId, TransactionId(now)))
      ensures Settled(old(orders)) ==> Settled(orders)
    {
      var found := FindOrder(orders, orderId);
      if found.None? {
        return Err(Failure(404, "Order not found"));
      }
      var i := found.value;
      var payment := Complete(orders[i], paymentId, now);
      orders := orders[i := payment];
      r := Ok(Verified(payment.applicationId, payment.transactionId.value));
    }

    /** `getPaymentStatus`: the status of the first order with the id, or 404. */
    function GetPaymentStatus(orderId: string): (r: Result<PaymentStatus, Failure>)
      reads this
      ensures r.Err? <==> forall j :: 0 <= j < |orders| ==> orders[j].id != orderId
      ensures r.Err? ==> r.error == Failure(404, "Payment not found")
      ensures r.Ok? ==> exists j :: 0 <= j < |orders| && orders[j].id == orderId && r.value == StatusOf(orders[j])
      ensures r.Ok? ==> FindOrder(orders, orderId).Some? && r.value == StatusOf(orders[FindOrder(orders, orderId).value])
    {
      match FindOrder(orders, orderId)
      case None => Err(Failure(404, "Payment not found"))
      case Some(i) => Ok(StatusOf(orders[i]))
    }
  }

  /**
   * After an order is verified, its status query reports it completed with the
   * transaction id the verification returned and the amount it was created with.
   */
  lemma {:induction false} VerifiedOrderStatus(orders: seq<Order>, orderId: string,
                                               paymentId: Option<string>, now: int)
    requires FindOrder(orders, orderId).Some?
    ensures var i := FindOrder(orders, orderId).value;
      var after := orders[i := Complete(orders[i], paymentId, now)];
      && FindOrder(after, orderId) == Some(i)
      && StatusOf(after[i]) == PaymentStatus(Completed, orders[i].amountPaise / 100,
                                             Some(TransactionId(now)), Some(now))
  {
    var i := FindOrder(orders, orderId).value;
    var after := orders[i := Complete(orders[i], paymentId, now)];
    FindAfterUpdate(orders, orderId, i, Complete(orders[i], paymentId, now));
    CompletedStatus(orders[i], paymentId, now);
  }

  /** Replacing the found order by one with the same id leaves the lookup where it was. */
  lemma {:induction false} FindAfterUpdate(orders: seq<Order>, orderId: string, i: nat, o: Order)
    requires FindOrder(orders, orderId) == Some(i) && o.id == orderId
    ensures FindOrder(orders[i := o], orderId) == Some(i)
  {
    if i > 0 {
      assert orders[i := o][1..] == orders[1..][i - 1 := o];
      FindAfterUpdate(orders[1..], orderId, i - 1, o);
    }
  }
}

/** The internal status route of order-service and what a caller can see of one PATCH. */
module OrderRoutes {
  import opened Domain

  type Orders = map<OrderId, OrderStatus>

  /** How the network treats one PATCH. A `Delayed` request is given up by its caller
      but may still reach order-service later. */
  datatype Net = Unreachable | ServerError | Answered | ReplyLost | Delayed

  /** The result of one PATCH: the order table, and whether the caller read a 200. */
  datatype Effect = Effect(orders: Orders, acked: bool)

  function StatusText(status: OrderStatus): string {
    match status
    case Draft => "draft"
    case PendingPayment => "pending_payment"
    case Confirmed => "confirmed"
    case Paid => "paid"
    case Shipped => "shipped"
    case Delivered => "delivered"
    case Cancelled => "cancelled"
  }

  /** The enum lookup `OrderStatus(text)`. */
  function ParseStatus(text: string): (status: Option<OrderStatus>)
    ensures forall st: OrderStatus :: StatusText(st) == text <==> status == Some(st)
    ensures status == Some(Draft) <==> text == "draft"
    ensures status == Some(PendingPayment) <==> text == "pending_payment"
    ensures status == Some(Confirmed) <==> text == "confirmed"
    ensures status == Some(Paid) <==> text == "paid"
    ensures status == Some(Shipped) <==> text == "shipped"
    ensures status == Some(Delivered) <==> text == "delivered"
    ensures status == Some(Cancelled) <==> text == "cancelled"
  {
    if text == "draft" then Some(Draft)
    else if text == "pending_payment" then Some(PendingPayment)
    else if text == "confirmed" then Some(Confirmed)
    else if text == "paid" then Some(Paid)
    else if text == "shipped" then Some(Shipped)
    else if text == "delivered" then Some(Delivered)
    else if text == "cancelled" then Some(Cancelled)
    else None
  }

  /** A PATCH of order `id` to `status`, as its caller experiences it. */
  function Attempt(orders: Orders, id: OrderId, status: OrderStatus, net: Net): Effect {
    if net.Answered? || net.ReplyLost? then
      if id in orders then Effect(orders[id := status], net.Answered?) else Effect(orders, false)
    else
      Effect(orders, false)
  }

  /** True when the PATCH changes the table. */
  predicate Applies(orders: Orders, id: OrderId, net: Net) {
    id in orders && (net.Answered? || net.ReplyLost?)
  }

  /** The order table behind the route. */
  class OrderApi {
    var orders: Orders

    constructor (orders: Orders)
      ensures this.orders == orders
    {
      this.orders := orders;
    }

    /** PATCH /orders/{id}/status. `id` is None when the path is not a UUID. No guard
        looks at the status the order has: any known status replaces any other. */
    method UpdateOrderStatus(id: Option<OrderId>, text: string) returns (code: nat)
      modifies this
      ensures code in {200, 400, 404, 422}
      ensures code == 422 <==> id.None?
      ensures code == 400 <==> id.Some? && forall st: OrderStatus :: StatusText(st) != text
      ensures code == 404 ==> id.value !in old(orders)
      ensures code == 200 ==> exists st: OrderStatus :: StatusText(st) == text
      ensures forall st: OrderStatus :: StatusText(st) == text && id.Some? ==>
                && (code == 200 <==> id.value in old(orders))
                && orders == if code == 200 then old(orders)[id.value := st] else old(orders)
      ensures code != 200 ==> orders == old(orders)
      // which text is which status
      ensures code == 400 <==>
                id.Some?
                && text !in {"draft", "pending_payment", "confirmed", "paid", "shipped", "delivered", "cancelled"}
      ensures id.Some? && id.value in old(orders) ==>
                && (text == "draft" ==> code == 200 && orders == old(orders)[id.value := Draft])
                && (text == "pending_payment" ==> code == 200 && orders == old(orders)[id.value := PendingPayment])
                && (text == "confirmed" ==> code == 200 && orders == old(orders)[id.value := Confirmed])
                && (text == "paid" ==> code == 200 && orders == old(orders)[id.value := Paid])
                && (text == "shipped" ==> code == 200 && orders == old(orders)[id.value := Shipped])
                && (text == "delivered" ==> code == 200 && orders == old(orders)[id.value := Delivered])
                && (text == "cancelled" ==> code == 200 && orders == old(orders)[id.value := Cancelled])
    {
      if id.None? {
        return 422;
      }
      var newStatus := ParseStatus(text);
      if newStatus.None? {
        return 400;
      }
      if id.value !in orders {
        assert StatusText(newStatus.value) == text;
        return 404;
      }
      assert StatusText(newStatus.value) == text;
      orders := orders[id.value := newStatus.value];
      return 200;
    }

    /** One client-side PATCH: the request may be lost before or after it is served. */
    method Patch(id: OrderId, status: OrderStatus, net: Net) returns (acked: bool)
      modifies this
      ensures Effect(orders, acked) == Attempt(old(orders), id, status, net)
      ensures acked <==> net.Answered? && id in old(orders)
      ensures orders == if (net.Answered? || net.ReplyLost?) && id in old(orders) then old(orders)[id := status]
                        else old(orders)
    {
      match net
      case Answered =>
        var code := UpdateOrderStatus(Some(id), StatusText(status));
        acked := code == 200;
      case ReplyLost =>
        var _ := UpdateOrderStatus(Some(id), StatusText(status));
        acked := false;
      case _ =>
        acked := false;
    }
  }
}

/**
  What both back ends hand to the payment provider when an order is
  placed: one line item per ordered food item, in order, then a fixed
  delivery line; and the order record they store.
 */
module Checkout {
  import opened Api
  import opened SwiggyStore

  /** One `line_items` entry: currency, product name, unit amount in cents, quantity. */
  datatype LineItem = LineItem(currency: string, productName: string, unitAmount: int, quantity: int)

  /** The entry for one ordered item. */
  function ItemLine(item: OrderItem): LineItem
  {
    LineItem("usd", item.name, item.priceCents, item.quantity)
  }

  /** The delivery charge: two dollars, once. */
  const DeliveryLine := LineItem("usd", "Delivery Charges", 2 * 100, 1)

  /** `items.map(...)`: one entry per item, in the items' order. */
  function ItemLines(items: seq<OrderItem>): (lines: seq<LineItem>)
    ensures |lines| == |items|
    ensures forall i :: 0 <= i < |items| ==> lines[i] == ItemLine(items[i])
    decreases |items|
  {
    if items == [] then [] else [ItemLine(items[0])] + ItemLines(items[1..])
  }

  /** The whole `line_items` list. */
  function LineItemsFor(items: seq<OrderItem>): (lines: seq<LineItem>)
    ensures |lines| == |items| + 1
    ensures lines[..|items|] == ItemLines(items) && lines[|items|] == DeliveryLine
  {
    ItemLines(items) + [DeliveryLine]
  }

  /** One entry per item, in order, then the delivery line last. */
  lemma LineItemsShape(items: seq<OrderItem>)
    ensures var lines := LineItemsFor(items);
      && |lines| == |items| + 1
      && (forall i :: 0 <= i < |items| ==>
            lines[i].currency == "usd" && lines[i].productName == items[i].name
            && lines[i].unitAmount == items[i].priceCents && lines[i].quantity == items[i].quantity)
      && lines[|items|] == LineItem("usd", "Delivery Charges", 200, 1)
  {
  }

  /** What the customer is charged for a list of line items, in cents. */
  function Charge(lines: seq<LineItem>): int
    decreases |lines|
  {
    if lines == [] then 0 else lines[0].unitAmount * lines[0].quantity + Charge(lines[1..])
  }

  /** The price of the ordered items, in cents. */
  function Subtotal(items: seq<OrderItem>): int
    decreases |items|
  {
    if items == [] then 0 else items[0].priceCents * items[0].quantity + Subtotal(items[1..])
  }

  lemma {:induction false} ChargeAppend(a: seq<LineItem>, b: seq<LineItem>)
    ensures Charge(a + b) == Charge(a) + Charge(b)
    decreases |a|
  {
    if a != [] {
      assert (a + b)[1..] == a[1..] + b;
      ChargeAppend(a[1..], b);
    } else {
      assert a + b == b;
    }
  }

  lemma {:induction false} ItemLinesCharge(items: seq<OrderItem>)
    ensures Charge(ItemLines(items)) == Subtotal(items)
    decreases |items|
  {
    if items != [] {
      assert ItemLines(items)[1..] == ItemLines(items[1..]);
      ItemLinesCharge(items[1..]);
    }
  }

  /** The payment session charges the items' price plus 200 cents for delivery. */
  lemma ChargeIsSubtotalPlusDelivery(items: seq<OrderItem>)
    ensures Charge(LineItemsFor(items)) == Subtotal(items) + 200
  {
    ChargeAppend(ItemLines(items), [DeliveryLine]);
    ItemLinesCharge(items);
    assert Charge([DeliveryLine]) == 200 + Charge([]);
  }

  /** The checkout session requested from the payment provider. */
  datatype CheckoutSession = CheckoutSession(lineItems: seq<LineItem>, successUrl: string, cancelUrl: string)

  /** Where the payment provider sends the customer back, with the outcome and the order. */
  function VerifyUrl(frontendUrl: string, success: bool, orderId: OrderId): string
  {
    frontendUrl + "/verify?success=" + (if success then "true" else "false") + "&orderId=" + orderId
  }

  function SessionFor(items: seq<OrderItem>, frontendUrl: string, orderId: OrderId): CheckoutSession
  {
    CheckoutSession(LineItemsFor(items), VerifyUrl(frontendUrl, true, orderId), VerifyUrl(frontendUrl, false, orderId))
  }

  /** A new order: the ordering user, the request's items, amount and address, not yet paid and being prepared. */
  function NewOrder(userId: UserId, items: seq<OrderItem>, amountCents: int, address: Address): Order
  {
    Order(userId, items, amountCents, address, "Food Processing", false)
  }

  /** `cart_data: {}` written for the ordering user; an update of a missing user matches nothing. */
  function ClearCart(users: map<UserId, User>, userId: UserId): (u: map<UserId, User>)
    ensures u.Keys == users.Keys
    ensures userId in u ==> CartOf(u[userId]) == map[]
    ensures forall id :: id in users && id != userId ==> u[id] == users[id]
    ensures userId in users ==> u[userId] == users[userId].(cartData := Some(map[]))
  {
    if userId in users then users[userId := users[userId].(cartData := Some(map[]))] else users
  }

  /** `payment: true` on the order, if it exists. */
  function MarkPaid(orders: map<OrderId, Order>, id: OrderId): (after: map<OrderId, Order>)
    ensures after.Keys == orders.Keys
    ensures id in orders ==> after[id].payment && after[id].(payment := orders[id].payment) == orders[id]
    ensures forall k :: k in orders && k != id ==> after[k] == orders[k]
  {
    if id in orders then orders[id := orders[id].(payment := true)] else orders
  }

  /** `status: ...` on the order, if it exists. */
  function SetStatus(orders: map<OrderId, Order>, id: OrderId, status: string): (after: map<OrderId, Order>)
    ensures after.Keys == orders.Keys
    ensures id in orders ==> after[id].status == status && after[id].(status := orders[id].status) == orders[id]
    ensures forall k :: k in orders && k != id ==> after[k] == orders[k]
  {
    if id in orders then orders[id := orders[id].(status := status)] else orders
  }

  /** The verify rule: the paid order stays and is marked paid; any other outcome removes it. */
  function Verify(orders: map<OrderId, Order>, id: OrderId, success: string): (after: map<OrderId, Order>)
    ensures after.Keys == if success == "true" then orders.Keys else orders.Keys - {id}
    ensures success == "true" && id in orders ==> after[id].payment
    ensures forall k :: k in after && k != id ==> after[k] == orders[k]
  {
    if success == "true" then MarkPaid(orders, id) else orders - {id}
  }

  /** Verifying touches only the named order: paid, it keeps every field but `payment`; otherwise it is gone. */
  lemma VerifyChangesOnlyPayment(orders: map<OrderId, Order>, id: OrderId, success: string)
    ensures var after := Verify(orders, id, success);
      && (forall k :: k != id ==> (k in after <==> k in orders) && (k in orders ==> after[k] == orders[k]))
      && (success == "true" ==> (id in after <==> id in orders))
      && (success == "true" && id in orders ==> after[id] == orders[id].(payment := true) && after[id].payment)
      && (success != "true" ==> id !in after)
  {
  }

  /** An order whose payment was not confirmed cannot be marked paid afterwards: it no longer exists. */
  lemma CancelledStaysCancelled(orders: map<OrderId, Order>, id: OrderId, success: string, later: string)
    requires success != "true"
    ensures var cancelled := Verify(orders, id, success);
      id !in Verify(cancelled, id, later) && Verify(cancelled, id, later).Keys <= orders.Keys
  {
  }

  /** Updating the status changes exactly the status of the named order, if it exists. */
  lemma SetStatusChangesOnlyStatus(orders: map<OrderId, Order>, id: OrderId, status: string)
    ensures var after := SetStatus(orders, id, status);
      && after.Keys == orders.Keys
      && (forall k :: k in orders && k != id ==> after[k] == orders[k])
      && (id in orders ==>
            && after[id].status == status
            && after[id] == orders[id].(status := status))
  {
  }

  /** A status update never changes whether an order is paid, so it cannot confirm a payment. */
  lemma SetStatusKeepsPayment(orders: map<OrderId, Order>, id: OrderId, status: string)
    ensures forall k :: k in orders ==> SetStatus(orders, id, status)[k].payment == orders[k].payment
  {
  }

  /** The orders of one user. */
  function OrdersOf(orders: map<OrderId, Order>, userId: UserId): (mine: map<OrderId, Order>)
    ensures forall k :: k in mine <==> k in orders && orders[k].userId == userId
    ensures forall k :: k in mine ==> mine[k] == orders[k]
  {
    map k | k in orders && orders[k].userId == userId :: orders[k]
  }
}

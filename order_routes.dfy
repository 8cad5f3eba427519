/**
  The order routes of the Python back end. The payment provider is an
  input: `stripe` is what `stripe.checkout.Session.create` gave back, the
  session's URL or the error it raised.
 */
module OrderRoutes {
  import opened Api
  import opened SwiggyStore
  import opened Checkout

  /** The `for` loop over the items, then the appended delivery line. */
  method BuildLineItems(items: seq<OrderItem>) returns (lineItems: seq<LineItem>)
    ensures lineItems == LineItemsFor(items)
  {
    lineItems := [];
    for i := 0 to |items|
      invariant |lineItems| == i
      invariant forall j :: 0 <= j < i ==> lineItems[j] == ItemLine(items[j])
    {
      lineItems := lineItems + [ItemLine(items[i])];
    }
    lineItems := lineItems + [DeliveryLine];
  }

  /**
    `place_order`: the order is stored and the cart cleared before the
    session is requested, so they stay even if the payment provider fails.
    `orderId` is the id the insert assigns.
   */
  method PlaceOrder(db: Db, userId: UserId, items: seq<OrderItem>, amountCents: int, address: Address,
                    orderId: OrderId, frontendUrl: string, stripe: Result<string>)
    returns (r: Result<ApiResponse<string>>, session: CheckoutSession)
    requires orderId !in db.orders
    modifies db
    ensures db.orders == old(db.orders)[orderId := NewOrder(userId, items, amountCents, address)]
    ensures db.users == ClearCart(old(db.users), userId)
    ensures session == SessionFor(items, frontendUrl, orderId)
    ensures stripe.Ok? ==> r == Ok(ApiResponse(201, Some(stripe.value), "Order placed successfully"))
    ensures stripe.Error? ==> r == Error(500, stripe.message)
  {
    var order := Order(userId, items, amountCents, address, "Food Processing", false);
    db.orders := db.orders[orderId := order];
    if userId in db.users {
      db.users := db.users[userId := db.users[userId].(cartData := Some(map[]))];
    }
    var lineItems := BuildLineItems(items);
    session := CheckoutSession(lineItems,
                               VerifyUrl(frontendUrl, true, orderId),
                               VerifyUrl(frontendUrl, false, orderId));
    if stripe.Error? {
      return Error(500, stripe.message), session;
    }
    r := Ok(ApiResponse(201, Some(stripe.value), "Order placed successfully"));
  }

  /** `verify_order`: only the string "true" confirms the payment. */
  method VerifyOrder(db: Db, orderId: OrderId, success: string) returns (r: Result<ApiResponse<()>>)
    modifies db
    ensures db.users == old(db.users)
    ensures db.orders == Verify(old(db.orders), orderId, success)
    ensures success == "true" ==> r == Ok(ApiResponse(200, None, "Paid"))
    ensures success != "true" ==> r == Ok(ApiResponse(400, None, "Not Paid"))
  {
    if success == "true" {
      if orderId in db.orders {
        db.orders := db.orders[orderId := db.orders[orderId].(payment := true)];
      }
      r := Ok(ApiResponse(200, None, "Paid"));
    } else {
      db.orders := db.orders - {orderId};
      r := Ok(ApiResponse(400, None, "Not Paid"));
    }
  }

  /** `user_orders`: the orders whose `user_id` is the caller. */
  method UserOrders(db: Db, userId: UserId) returns (r: Result<ApiResponse<map<OrderId, Order>>>)
    ensures r.Ok? && r.value.statusCode == 200 && r.value.data.Some?
    ensures forall k :: k in r.value.data.value <==> k in db.orders && db.orders[k].userId == userId
    ensures forall k :: k in r.value.data.value ==> r.value.data.value[k] == db.orders[k]
  {
    r := Ok(ApiResponse(200, Some(OrdersOf(db.orders, userId)), "User orders fetched successfully"));
  }

  /** `list_orders`: every order, for an admin only. */
  method ListOrders(db: Db, userId: UserId) returns (r: Result<ApiResponse<map<OrderId, Order>>>)
    ensures !IsAdmin(db.users, userId) <==> r == Error(403, "You are not admin")
    ensures IsAdmin(db.users, userId) ==> r == Ok(ApiResponse(200, Some(db.orders), "All orders fetched successfully"))
  {
    if userId !in db.users || db.users[userId].role != "admin" {
      return Error(403, "You are not admin");
    }
    r := Ok(ApiResponse(200, Some(db.orders), "All orders fetched successfully"));
  }

  /** `update_status`: for an admin only, and it writes nothing but the status. */
  method UpdateStatus(db: Db, userId: UserId, orderId: OrderId, status: string) returns (r: Result<ApiResponse<()>>)
    modifies db
    ensures db.users == old(db.users)
    ensures !IsAdmin(old(db.users), userId) ==> r == Error(403, "You are not an admin") && db.orders == old(db.orders)
    ensures IsAdmin(old(db.users), userId) ==>
      r == Ok(ApiResponse(200, None, "Status Updated Successfully")) && db.orders == SetStatus(old(db.orders), orderId, status)
  {
    if userId !in db.users || db.users[userId].role != "admin" {
      return Error(403, "You are not an admin");
    }
    if orderId in db.orders {
      db.orders := db.orders[orderId := db.orders[orderId].(status := status)];
    }
    r := Ok(ApiResponse(200, None, "Status Updated Successfully"));
  }
}

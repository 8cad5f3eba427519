/**
  The order controller of the JavaScript back end. `stripe` is what
  `stripe.checkout.sessions.create` gave back: the session's URL, or the
  error it threw, which the async wrapper turns into a 500 reply.
 */
module OrderController {
  import opened Api
  import opened SwiggyStore
  import opened Checkout

  /**
    `placeOrder`: the new order takes the schema's defaults (status "Food
    Processing", not paid); `orderId` is the id it is saved under.
   */
  method PlaceOrder(db: Db, userId: UserId, items: seq<OrderItem>, amountCents: int, address: Address,
                    orderId: OrderId, frontendUrl: string, stripe: Result<string>)
    returns (r: Result<ApiResponse<string>>, session: CheckoutSession)
    requires orderId !in db.orders
    modifies db
    ensures db.orders == old(db.orders)[orderId := NewOrder(userId, items, amountCents, address)]
    ensures db.users == ClearCart(old(db.users), userId)
    ensures session == SessionFor(items, frontendUrl, orderId)
    ensures stripe.Ok? ==> r == Ok(ApiResponse(201, Some(stripe.value), "Order placed successfully"))
    ensures stripe.Error? ==> r == Error(500, stripe.message)
  {
    db.orders := db.orders[orderId := NewOrder(userId, items, amountCents, address)];
    if userId in db.users {
      db.users := db.users[userId := db.users[userId].(cartData := Some(map[]))];
    }
    var lineItems := ItemLines(items);
    lineItems := lineItems + [DeliveryLine];
    session := CheckoutSession(lineItems,
                               VerifyUrl(frontendUrl, true, orderId),
                               VerifyUrl(frontendUrl, false, orderId));
    if stripe.Error? {
      return Error(500, stripe.message), session;
    }
    r := Ok(ApiResponse(201, Some(stripe.value), "Order placed successfully"));
  }

  /** `verifyOrder`: `success == "true"` on a string is plain string equality. */
  method VerifyOrder(db: Db, orderId: OrderId, success: string) returns (r: Result<ApiResponse<()>>)
    modifies db
    ensures db.users == old(db.users)
    ensures db.orders == Verify(old(db.orders), orderId, success)
    ensures success == "true" ==> r == Ok(ApiResponse(200, None, "Paid"))
    ensures success != "true" ==> r == Ok(ApiResponse(400, None, "Not Paid"))
  {
    if success == "true" {
      db.orders := MarkPaid(db.orders, orderId);
      r := Ok(ApiResponse(200, None, "Paid"));
    } else {
      db.orders := db.orders - {orderId};
      r := Ok(ApiResponse(400, None, "Not Paid"));
    }
  }

  /** `userOrders`: the orders whose `userId` is the caller. */
  method UserOrders(db: Db, userId: UserId) returns (r: Result<ApiResponse<map<OrderId, Order>>>)
    ensures r.Ok? && r.value.statusCode == 200 && r.value.data.Some?
    ensures forall k :: k in r.value.data.value <==> k in db.orders && db.orders[k].userId == userId
    ensures forall k :: k in r.value.data.value ==> r.value.data.value[k] == db.orders[k]
  {
    r := Ok(ApiResponse(200, Some(OrdersOf(db.orders, userId)), "User orders fetched successfully"));
  }

  /** `listOrders`: every order, for an admin only. */
  method ListOrders(db: Db, userId: UserId) returns (r: Result<ApiResponse<map<OrderId, Order>>>)
    ensures !IsAdmin(db.users, userId) <==> r == Error(403, "You are not admin")
    ensures IsAdmin(db.users, userId) ==> r == Ok(ApiResponse(200, Some(db.orders), "All orders fetched successfully"))
  {
    if userId in db.users && db.users[userId].role == "admin" {
      r := Ok(ApiResponse(200, Some(db.orders), "All orders fetched successfully"));
    } else {
      r := Error(403, "You are not admin");
    }
  }

  /** `updateStatus`: for an admin only, and it writes nothing but the status. */
  method UpdateStatus(db: Db, userId: UserId, orderId: OrderId, status: string) returns (r: Result<ApiResponse<()>>)
    modifies db
    ensures db.users == old(db.users)
    ensures !IsAdmin(old(db.users), userId) ==> r == Error(403, "You are not an admin") && db.orders == old(db.orders)
    ensures IsAdmin(old(db.users), userId) ==>
      r == Ok(ApiResponse(200, None, "Status Updated Successfully")) && db.orders == SetStatus(old(db.orders), orderId, status)
  {
    if userId in db.users && db.users[userId].role == "admin" {
      db.orders := SetStatus(db.orders, orderId, status);
      r := Ok(ApiResponse(200, None, "Status Updated Successfully"));
    } else {
      r := Error(403, "You are not an admin");
    }
  }
}

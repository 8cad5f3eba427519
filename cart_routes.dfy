/**
  The cart routes of the Python back end. Each handler looks the user up,
  updates a copy of the user's cart in place, and writes the whole cart
  back. `AddItem` and `RemoveItem` are the two in-place updates as values.
 */
module CartRoutes {
  import opened Api
  import opened SwiggyStore

  /** `add_to_cart`'s update: a new item gets a count of 1, a present one goes up by 1. */
  function AddItem(c: Cart, id: ItemId): (r: Cart)
    ensures Count(r, id) == Count(c, id) + 1
    ensures r.Keys == c.Keys + {id}
    ensures forall k :: k in c && k != id ==> r[k] == c[k]
  {
    if id !in c then c[id := 1] else c[id := c[id] + 1]
  }

  /** `remove_from_cart`'s update: a count above 1 goes down by 1, a lower one is deleted, an absent item is left alone. */
  function RemoveItem(c: Cart, id: ItemId): (r: Cart)
    ensures r.Keys == if id in c && c[id] > 1 then c.Keys else c.Keys - {id}
    ensures id in r ==> r[id] == c[id] - 1
    ensures forall k :: k in c && k != id ==> r[k] == c[k]
  {
    if id in c then (if c[id] > 1 then c[id := c[id] - 1] else c - {id}) else c
  }

  /** Adding raises the item's count by exactly one and no other count. */
  lemma AddItemCounts(c: Cart, id: ItemId, k: ItemId)
    ensures Count(AddItem(c, id), k) == Count(c, k) + (if k == id then 1 else 0)
  {
  }

  /** On a cart of positive counts, removing lowers the item's count by one if it has any, and no other count. */
  lemma RemoveItemCounts(c: Cart, id: ItemId, k: ItemId)
    requires Positive(c)
    ensures Count(RemoveItem(c, id), k) == Count(c, k) - (if k == id && Count(c, k) > 0 then 1 else 0)
  {
  }

  /** Only the entry for `id` changes. */
  lemma OnlyItemChanges(c: Cart, id: ItemId)
    ensures forall k :: k != id ==> (k in AddItem(c, id) <==> k in c) && (k in RemoveItem(c, id) <==> k in c)
    ensures forall k :: k != id && k in c ==> AddItem(c, id)[k] == c[k] && RemoveItem(c, id)[k] == c[k]
  {
  }

  /** Every stored count stays at least one. */
  lemma UpdatesKeepPositive(c: Cart, id: ItemId)
    requires Positive(c)
    ensures Positive(AddItem(c, id)) && Positive(RemoveItem(c, id))
  {
  }

  /** Removing an item that is not in the cart leaves the cart as it was. */
  lemma RemoveAbsentIsNoop(c: Cart, id: ItemId)
    requires id !in c
    ensures RemoveItem(c, id) == c
  {
  }

  /** On a cart of positive counts, removing undoes adding, whether or not the item was there. */
  lemma {:induction false} RemoveUndoesAdd(c: Cart, id: ItemId)
    requires Positive(c)
    ensures RemoveItem(AddItem(c, id), id) == c
  {
    if id in c {
      assert AddItem(c, id)[id] > 1;
      assert c[id := c[id] + 1][id := c[id]] == c;
    } else {
      assert AddItem(c, id) - {id} == c;
    }
  }

  /** On a cart of positive counts, adding back an item that was just removed restores the cart. */
  lemma {:induction false} AddUndoesRemove(c: Cart, id: ItemId)
    requires Positive(c) && id in c
    ensures AddItem(RemoveItem(c, id), id) == c
  {
    if c[id] > 1 {
      assert c[id := c[id] - 1][id := c[id]] == c;
    } else {
      assert (c - {id})[id := 1] == c;
    }
  }

  /** The body's `itemId` is missing: `cart_data["itemId"]` raises, and the handler answers 500 with the key. */
  const MissingItemId := "'itemId'"

  /** `add_to_cart`. */
  method AddToCart(db: Db, userId: UserId, body: map<string, string>) returns (r: Result<ApiResponse<()>>)
    modifies db
    ensures db.orders == old(db.orders)
    ensures userId !in old(db.users) ==> r == Error(404, "User not found") && db.users == old(db.users)
    ensures userId in old(db.users) && "itemId" !in body ==>
      r == Error(500, MissingItemId) && db.users == old(db.users)
    ensures userId in old(db.users) && "itemId" in body ==>
      var u := old(db.users)[userId];
      && r == Ok(ApiResponse(200, None, "Added to Cart"))
      && db.users == old(db.users)[userId := u.(cartData := Some(AddItem(CartOf(u), body["itemId"])))]
  {
    if userId !in db.users {
      return Error(404, "User not found");
    }
    var user := db.users[userId];
    var cart := CartOf(user);
    if "itemId" !in body {
      return Error(500, MissingItemId);
    }
    var itemId := body["itemId"];
    if itemId !in cart {
      cart := cart[itemId := 1];
    } else {
      cart := cart[itemId := cart[itemId] + 1];
    }
    db.users := db.users[userId := user.(cartData := Some(cart))];
    r := Ok(ApiResponse(200, None, "Added to Cart"));
  }

  /** `remove_from_cart`. */
  method RemoveFromCart(db: Db, userId: UserId, body: map<string, string>) returns (r: Result<ApiResponse<()>>)
    modifies db
    ensures db.orders == old(db.orders)
    ensures userId !in old(db.users) ==> r == Error(404, "User not found") && db.users == old(db.users)
    ensures userId in old(db.users) && "itemId" !in body ==>
      r == Error(500, MissingItemId) && db.users == old(db.users)
    ensures userId in old(db.users) && "itemId" in body ==>
      var u := old(db.users)[userId];
      && r == Ok(ApiResponse(200, None, "Removed from Cart"))
      && db.users == old(db.users)[userId := u.(cartData := Some(RemoveItem(CartOf(u), body["itemId"])))]
  {
    if userId !in db.users {
      return Error(404, "User not found");
    }
    var user := db.users[userId];
    var cart := CartOf(user);
    if "itemId" !in body {
      return Error(500, MissingItemId);
    }
    var itemId := body["itemId"];
    if itemId in cart {
      if cart[itemId] > 1 {
        cart := cart[itemId := cart[itemId] - 1];
      } else {
        cart := cart - {itemId};
      }
    }
    db.users := db.users[userId := user.(cartData := Some(cart))];
    r := Ok(ApiResponse(200, None, "Removed from Cart"));
  }

  /** `get_cart`: the stored cart, or an empty one when the user document has none. */
  method GetCart(db: Db, userId: UserId) returns (r: Result<ApiResponse<Cart>>)
    ensures userId !in db.users ==> r == Error(404, "User not found")
    ensures userId in db.users ==>
      r == Ok(ApiResponse(200, Some(CartOf(db.users[userId])), "Cart fetched successfully"))
    ensures userId in db.users && db.users[userId].cartData.None? ==> r.value.data == Some(map[])
  {
    if userId !in db.users {
      return Error(404, "User not found");
    }
    var user := db.users[userId];
    r := Ok(ApiResponse(200, Some(CartOf(user)), "Cart fetched successfully"));
  }
}

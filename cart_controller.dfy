/**
  The cart controller of the JavaScript back end. The guards are
  JavaScript's: `!cartData[id]` holds for a missing entry and for a count
  of 0, and `cartData[id] > 1` is false for a missing entry.
 */
module CartController {
  import opened Api
  import opened SwiggyStore
  import CartRoutes

  /** `!cartData[id]`: the entry is missing or zero. */
  predicate Falsy(c: Cart, id: ItemId)
  {
    id !in c || c[id] == 0
  }

  /** `addToCart`'s update. */
  function AddItem(c: Cart, id: ItemId): (r: Cart)
    ensures Count(r, id) == Count(c, id) + 1
    ensures r.Keys == c.Keys + {id}
    ensures forall k :: k in c && k != id ==> r[k] == c[k]
  {
    if Falsy(c, id) then c[id := 1] else c[id := c[id] + 1]
  }

  /** `removeFromCart`'s update: `delete` of a missing key does nothing. */
  function RemoveItem(c: Cart, id: ItemId): (r: Cart)
    ensures r.Keys == if id in c && c[id] > 1 then c.Keys else c.Keys - {id}
    ensures id in r ==> r[id] == c[id] - 1
    ensures forall k :: k in c && k != id ==> r[k] == c[k]
  {
    if id in c && c[id] > 1 then c[id := c[id] - 1] else c - {id}
  }

  /** The two back ends compute the same cart for every cart, although their guards differ. */
  lemma {:induction false} AgreesWithRoutes(c: Cart, id: ItemId)
    ensures AddItem(c, id) == CartRoutes.AddItem(c, id)
    ensures RemoveItem(c, id) == CartRoutes.RemoveItem(c, id)
  {
    if id !in c {
      assert c - {id} == c;
    }
  }

  /** One request to the cart controller. */
  datatype CartOp = Add(id: ItemId) | Remove(id: ItemId)

  function Apply(c: Cart, op: CartOp): Cart
  {
    match op
    case Add(id) => AddItem(c, id)
    case Remove(id) => RemoveItem(c, id)
  }

  /** The cart after a sequence of requests. */
  function ApplyAll(c: Cart, ops: seq<CartOp>): Cart
    decreases |ops|
  {
    if ops == [] then c else ApplyAll(Apply(c, ops[0]), ops[1..])
  }

  /** Every stored count stays at least one under any sequence of adds and removes. */
  lemma {:induction false} ApplyAllKeepsPositive(c: Cart, ops: seq<CartOp>)
    requires Positive(c)
    ensures Positive(ApplyAll(c, ops))
    decreases |ops|
  {
    if ops != [] {
      CartRoutes.UpdatesKeepPositive(c, ops[0].id);
      AgreesWithRoutes(c, ops[0].id);
      ApplyAllKeepsPositive(Apply(c, ops[0]), ops[1..]);
    }
  }

  /** An item's count after a sequence of requests: the adds minus the removes, never below zero. */
  function Tally(n: int, id: ItemId, ops: seq<CartOp>): int
    decreases |ops|
  {
    if ops == [] then n
    else if ops[0] == Add(id) then Tally(n + 1, id, ops[1..])
    else if ops[0] == Remove(id) then Tally(if n > 0 then n - 1 else 0, id, ops[1..])
    else Tally(n, id, ops[1..])
  }

  /** Starting from a cart of positive counts, each item's count follows its own adds and removes only. */
  lemma {:induction false} ApplyAllCounts(c: Cart, ops: seq<CartOp>, k: ItemId)
    requires Positive(c)
    ensures Count(ApplyAll(c, ops), k) == Tally(Count(c, k), k, ops)
    decreases |ops|
  {
    if ops != [] {
      var id := ops[0].id;
      AgreesWithRoutes(c, id);
      CartRoutes.UpdatesKeepPositive(c, id);
      match ops[0] {
        case Add(_) => CartRoutes.AddItemCounts(c, id, k);
        case Remove(_) => CartRoutes.RemoveItemCounts(c, id, k);
      }
      ApplyAllCounts(Apply(c, ops[0]), ops[1..], k);
    }
  }

  /** `addToCart`. */
  method AddToCart(db: Db, userId: UserId, itemId: ItemId) returns (r: Result<ApiResponse<()>>)
    modifies db
    ensures db.orders == old(db.orders)
    ensures userId !in old(db.users) ==> r == Error(404, "User not found") && db.users == old(db.users)
    ensures userId in old(db.users) ==>
      var u := old(db.users)[userId];
      && r == Ok(ApiResponse(200, None, "Added to Cart"))
      && db.users == old(db.users)[userId := u.(cartData := Some(AddItem(CartOf(u), itemId)))]
  {
    if userId !in db.users {
      return Error(404, "User not found");
    }
    var userData := db.users[userId];
    var cartData := CartOf(userData);
    if itemId !in cartData || cartData[itemId] == 0 {
      cartData := cartData[itemId := 1];
    } else {
      cartData := cartData[itemId := cartData[itemId] + 1];
    }
    db.users := db.users[userId := userData.(cartData := Some(cartData))];
    r := Ok(ApiResponse(200, None, "Added to Cart"));
  }

  /** `removeFromCart`. */
  method RemoveFromCart(db: Db, userId: UserId, itemId: ItemId) returns (r: Result<ApiResponse<()>>)
    modifies db
    ensures db.orders == old(db.orders)
    ensures userId !in old(db.users) ==> r == Error(404, "User not found") && db.users == old(db.users)
    ensures userId in old(db.users) ==>
      var u := old(db.users)[userId];
      && r == Ok(ApiResponse(200, None, "Removed from Cart"))
      && db.users == old(db.users)[userId := u.(cartData := Some(RemoveItem(CartOf(u), itemId)))]
  {
    if userId !in db.users {
      return Error(404, "User not found");
    }
    var userData := db.users[userId];
    var cartData := CartOf(userData);
    if itemId in cartData && cartData[itemId] > 1 {
      cartData := cartData[itemId := cartData[itemId] - 1];
    } else {
      cartData := cartData - {itemId};
    }
    db.users := db.users[userId := userData.(cartData := Some(cartData))];
    r := Ok(ApiResponse(200, None, "Removed from Cart"));
  }

  /** `getCart`: the stored map, unchanged. */
  method GetCart(db: Db, userId: UserId) returns (r: Result<ApiResponse<Cart>>)
    ensures userId !in db.users ==> r == Error(404, "User not found")
    ensures userId in db.users ==>
      r == Ok(ApiResponse(200, Some(CartOf(db.users[userId])), "Cart fetched successfully"))
  {
    if userId !in db.users {
      return Error(404, "User not found");
    }
    var userData := db.users[userId];
    r := Ok(ApiResponse(200, Some(CartOf(userData)), "Cart fetched successfully"));
  }
}

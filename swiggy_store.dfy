/**
  The records the food-delivery back ends keep in their two collections,
  users and orders, and the response envelope every handler answers with.
  Both back ends (the Python routes and the JavaScript controllers) work on
  the same documents; `Db` is the database, one map per collection, that
  their handlers update.
 */
module SwiggyStore {
  import opened Api

  type UserId = string
  type OrderId = string
  type ItemId = string

  /** A cart: how many of each food item the user has picked. */
  type Cart = map<ItemId, int>

  /** A quantity the cart holds for `k`; an item not in the cart has none. */
  function Count(c: Cart, k: ItemId): int
  {
    if k in c then c[k] else 0
  }

  /** Every stored count is at least one: an item is either in the cart or absent. */
  predicate Positive(c: Cart)
  {
    forall k :: k in c ==> c[k] >= 1
  }

  /**
    A user document. `cartData` is `None` when the document has no cart
    field at all; `role` is "user" unless the account was made an admin.
   */
  datatype User = User(name: string, email: string, password: string, role: string, cartData: Option<Cart>)

  /** `user.get("cart_data", {})`: the stored cart, or an empty one. */
  function CartOf(u: User): (c: Cart)
    ensures u.cartData.Some? ==> c == u.cartData.value
    ensures u.cartData.None? ==> c == map[]
  {
    if u.cartData.Some? then u.cartData.value else map[]
  }

  /** A food item as ordered; the price is in cents. */
  datatype OrderItem = OrderItem(name: string, priceCents: int, quantity: int)

  /** The delivery address form, field name to value. */
  type Address = map<string, string>

  datatype Order = Order(userId: UserId, items: seq<OrderItem>, amountCents: int, address: Address,
                         status: string, payment: bool)

  /** `ApiResponse(statusCode, data, message)`; `data` is `None` for `null`. */
  datatype ApiResponse<T> = ApiResponse(statusCode: int, data: Option<T>, message: string)

  /** The admin gate of the order handlers: an existing user whose role is "admin". */
  predicate IsAdmin(users: map<UserId, User>, id: UserId)
  {
    id in users && users[id].role == "admin"
  }

  /** The database: the users collection and the orders collection, by document id. */
  class Db {
    var users: map<UserId, User>
    var orders: map<OrderId, Order>

    constructor (users: map<UserId, User>, orders: map<OrderId, Order>)
      ensures this.users == users && this.orders == orders
    {
      this.users := users;
      this.orders := orders;
    }
  }
}

# Verified model of a news feed, a food-ordering back end and three small routes

This project models, in Dafny, the logic of several parts of one repository:

- **The NewsAPI news feed** (`NewsAPI/src/NewsFeed.jsx`). It is a React component that fetches headlines.
  - It has two gates: a sticky rate-limit flag, and a 5-minute cooldown that clears itself.
  - It builds query parameters that depend on the endpoint and leaves out empty filters.
  - It sorts failures into five kinds, each with its own message and gate action.
  - It debounces keystrokes by 1000 ms, so the last call wins.
  - It pages the fetched list on the client, ten articles per page, and decides which page buttons are drawn.
- **The Swiggy back end, in both its Python (FastAPI) and JavaScript (Express) versions.**
  - Cart counters.
  - Order placement: the order record, the cart-clear and the payment line items.
  - Payment verification and the admin gate.
  - The registration and login ladder of the JavaScript user controller.
- **A trial-division primality script** (`Python/03_Loops/08_solution.py`).
- **Two FastAPI routers:**
  - splitting an upload into lines, saving a file and the protected download;
  - the blog routes: a filter by author over two mock posts, and a generated post per id.

Each part follows the form of its source:

- **The news feed** has a pure layer and a class.
  - The pure layer is the `NewsFeed.FeedState` value, one transition function per handler or timer callback, and `Run` over a sequence of UI events. It is the specification, and the properties are proved about it.
  - `NewsFeed.Feed` is a class with one field per state cell and timer ref. Each of its methods ensures that the new `State()` equals the matching transition applied to the old one.
  - Time is an explicit clock (`now`, in ms). A pending timer is stored as its due time. A timer firing is an explicit method, allowed only once the clock has reached the due time.
  - The HTTP outcome of a request (`NewsRequest.Reply`) is an input.
- **The Swiggy routes** are methods on a `SwiggyStore.Db` object whose `users` and `orders` maps stand in for the MongoDB collections. Each method's contract writes out the new maps and the reply, using pure functions (cart updates, `Checkout.Verify`, `Checkout.SetStatus`) whose properties are proved as lemmas.
- **The primality check** is a method with the source's `for` loop and early exit. It is proved equal to primality.
- **The line splitter, the file routes and the blog routes** are functions with round-trip and filter lemmas.

Modules: `Api` (Option, Result), `NewsRequest`, `NewsPagination`, `NewsFeed`, `SwiggyStore`, `CartRoutes`, `CartController`, `Checkout`, `OrderRoutes`, `OrderController`, `UserController`, `PrimeCheck`, `FileRouter`, `BlogGet`.

Inputs that come from outside the code are parameters:

- the API key;
- the HTTP reply;
- the clock;
- the Stripe session URL, or the error Stripe raised;
- the id the database assigns to a new order or user;
- the result of the `findOne({email})` lookup;
- `validator.isEmail`;
- bcrypt `hash`, `genSalt` and `compare`;
- `jwt.sign`;
- whether the request carried a bearer token, and whether it named a known user;
- the decoded content of an upload.

## Model

| member | source | states |
|---|---|---|
| NewsRequest.UnlessEmpty | NewsAPI/src/NewsFeed.jsx:74-75 | `value \|\| undefined`: a parameter is present exactly when its value is non-empty, and then carries that value |
| NewsRequest.SetUnlessEmpty | NewsAPI/src/NewsFeed.jsx:74-83 | adding an optional filter sets that one key when the value is non-empty, and leaves every other key as it was |
| NewsRequest.TopHeadlinesParams | NewsAPI/src/NewsFeed.jsx:65-76 | for top headlines: apiKey, pageSize 20, country "us", and category and q only when non-empty; nothing else, and no sources yet |
| NewsRequest.EverythingParams | NewsAPI/src/NewsFeed.jsx:65-84 | for everything (the base at lines 65-68, the branch at 78-84): apiKey, pageSize 20, sortBy "publishedAt", and q, from and to only when non-empty; nothing else |
| NewsRequest.ParamFor | NewsAPI/src/NewsFeed.jsx:65-89 | the reference table, one key at a time: the key and page size are always sent, no other key with an empty value, country and category never for everything, sortBy, from and to never for top headlines |
| NewsRequest.BuildParams | NewsAPI/src/NewsFeed.jsx:65-89 | every parameter sent is exactly the one the per-key table `ParamFor` prescribes for the endpoint, including `sources` only for a non-empty source |
| NewsRequest.ParamsNeverEmpty | NewsAPI/src/NewsFeed.jsx:65-89 | every request carries the API key and pageSize 20, and never a filter whose value is empty |
| NewsRequest.Classify | NewsAPI/src/NewsFeed.jsx:104-125 | a 429 is the rate limit, a 401 the invalid key, any other status an HTTP failure, no response a network failure, anything else unexpected (each an if-and-only-if) |
| NewsRequest.ErrorMessagesDistinct | NewsAPI/src/NewsFeed.jsx:47 | the five messages (lines 47, 112, 116, 120, 123) are pairwise different, so the message shown identifies the failure |
| NewsPagination.TotalPages | NewsAPI/src/NewsFeed.jsx:216 | `Math.ceil(len / 10)`: the least page count that holds every article, and 0 exactly for no articles |
| NewsPagination.SliceBound | NewsAPI/src/NewsFeed.jsx:219 | a `slice` bound is clamped to the length and an in-range bound is kept |
| NewsPagination.Slice | NewsAPI/src/NewsFeed.jsx:219 | `slice(start, end)` with in-range bounds is the subsequence between them |
| NewsPagination.PageItems | NewsAPI/src/NewsFeed.jsx:216-219 | page p shows `articles[(p-1)*10 .. p*10)` clamped to the list: at most 10 articles, non-empty for every page up to totalPages, empty past it |
| NewsPagination.PagesUpToIsPrefix | NewsAPI/src/NewsFeed.jsx:217-219 | pages 1..k read one after another are the first `10k` articles |
| NewsPagination.PagesCoverArticles | NewsAPI/src/NewsFeed.jsx:216-219 | reading pages 1..totalPages in order gives back exactly the fetched articles |
| NewsPagination.PageSlots | NewsAPI/src/NewsFeed.jsx:448-481 | the pager draws one slot per page, totalPages in all |
| NewsPagination.ButtonsShown | NewsAPI/src/NewsFeed.jsx:448-464 | a button in slot i is for page i+1; page p gets its button exactly when it is page 1, the last page, or within 1 of the current page, so the first, last and current page always get one |
| NewsPagination.FewButtons | NewsAPI/src/NewsFeed.jsx:451-454 | a button is only ever drawn for page 1, the last page, or a page within 1 of the current one |
| NewsPagination.EllipsisPlaces | NewsAPI/src/NewsFeed.jsx:456-461 | an ellipsis stands only in the slot of page 2 or page totalPages-1 |
| NewsPagination.HiddenPagesMarked | NewsAPI/src/NewsFeed.jsx:448-462 | for a current page in range, every page without a button lies in a gap that an ellipsis marks: before the current page in page 2's slot, after it in page totalPages-1's slot |
| NewsPagination.StepButtonsStayInRange | NewsAPI/src/NewsFeed.jsx:427-498 | Previous and Next are enabled exactly when they lead to another page in range |
| NewsFeed.Fail | NewsAPI/src/NewsFeed.jsx:100-125 | the catch block: no articles and the failure's message; a cooldown failure arms a full-period timer and leaves the rate limit, a 429 trips the rate limit and leaves the cooldown; nothing else changes |
| NewsFeed.Resolve | NewsAPI/src/NewsFeed.jsx:91-125 | a body with articles stores them and ends the initial load; one without stores `[]`; a failure stores `[]` and its message; a gate ends up closed exactly when one was closed or the reply failed |
| NewsFeed.Fetch | NewsAPI/src/NewsFeed.jsx:51-99 | a request is issued exactly when no gate is closed, to the URL of the endpoint the running closure captured; gated, nothing changes; open, the page becomes 1, the pending debounce, endpoint and dates are left alone, and a 2xx reply leaves no error and both gates open |
| NewsFeed.Debounce | NewsAPI/src/NewsFeed.jsx:146-158 | gated, nothing changes (the gate check of line 147); open, the pending call is replaced by one due in 1000 ms with these arguments and the scheduling render's endpoint and dates; nothing but the pending call changes |
| NewsFeed.TypeSearch | NewsAPI/src/NewsFeed.jsx:166-170 | the search text becomes the value typed and, unless gated, a fetch with it is pending; nothing else changes |
| NewsFeed.SelectFilter | NewsAPI/src/NewsFeed.jsx:172-178 | unless gated, a fetch with the stored search and the selects' values is pending; nothing else changes |
| NewsFeed.ChangeEndpoint | NewsAPI/src/NewsFeed.jsx:180-182 | only the endpoint changes |
| NewsFeed.ChangeDate | NewsAPI/src/NewsFeed.jsx:184-187 | only the named date changes; the other keeps its value |
| NewsFeed.Reset | NewsAPI/src/NewsFeed.jsx:189-194 | after Reset the rate limit is lifted and a gate is closed exactly when the cooldown was active; no articles, no error, and page 1; nothing else changes, so the cooldown, the pending debounce, the inputs and `isInitialLoad` stay |
| NewsFeed.ChangePage | NewsAPI/src/NewsFeed.jsx:196-199 | only the current page changes, to the page given |
| NewsFeed.AfterFetchTimer | NewsAPI/src/NewsFeed.jsx:155-157 | the timer is used up, and the fetch it runs issues a request exactly when no gate is closed, built from its arguments and from the endpoint and dates of the render that scheduled it |
| NewsFeed.AfterCooldownTimer | NewsAPI/src/NewsFeed.jsx:39-42 | the cooldown and its timer are gone and the error cleared; a gate stays closed exactly when the rate limit is set; nothing else changes |
| NewsFeed.FetchWhenOpen | NewsAPI/src/NewsFeed.jsx:51-99 | with both gates open a fetch issues exactly the built request, and first clears the error and goes to page 1 |
| NewsFeed.FetchWhenGated | NewsAPI/src/NewsFeed.jsx:52-54 | with the rate limit or the cooldown set, fetchNews changes nothing and issues nothing |
| NewsFeed.ResolveKeeps | NewsAPI/src/NewsFeed.jsx:91-125 | a reply leaves the page, the clock, the inputs and the pending debounce alone |
| NewsFeed.ResolveSuccess | NewsAPI/src/NewsFeed.jsx:93-99 | a 2xx reply replaces the articles wholesale and clears isInitialLoad; a body without `articles` gives `[]`; no gate or error changes |
| NewsFeed.ResolveFailure | NewsAPI/src/NewsFeed.jsx:100-125 | a failure empties the articles and shows its message; a 429 trips the rate limit without a cooldown; any other failure restarts the cooldown for the full period |
| NewsFeed.GatedIssuesNothing | NewsAPI/src/NewsFeed.jsx:52-54 | while a gate is closed, no enabled event issues a request |
| NewsFeed.StepPreservesInv | NewsAPI/src/NewsFeed.jsx:34-199 | every event keeps the invariant: one cooldown timer, pending exactly while in cooldown; no debounced fetch pending while a gate is closed; no timer overdue or beyond its delay; the page in range |
| NewsFeed.RunPreservesInv | NewsAPI/src/NewsFeed.jsx:34-199 | the invariant holds after any run of enabled events |
| NewsFeed.RunNowMonotone | NewsAPI/src/NewsFeed.jsx:155-157 | the clock never goes back |
| NewsFeed.RateLimitHoldsUntilReset | NewsAPI/src/NewsFeed.jsx:45-54 | once tripped, the rate limit stays set and nothing is requested until Reset is clicked |
| NewsFeed.CooldownHoldsUntilDue | NewsAPI/src/NewsFeed.jsx:34-43 | once armed, the cooldown stays closed with the same due time, and nothing is requested, until the due time, and Reset does not lift it |
| NewsFeed.CooldownExpiryOpens | NewsAPI/src/NewsFeed.jsx:39-42 | when the cooldown timer fires, the gate opens and the error is cleared |
| NewsFeed.InvalidKeyLocksForCooldownPeriod | NewsAPI/src/NewsFeed.jsx:111-113 | after a 401 at time T, a keystroke at T+300000-1 schedules nothing, and after expiry a keystroke at T+300001 is scheduled for 1000 ms later |
| NewsFeed.EndpointAndDateScheduleNothing | NewsAPI/src/NewsFeed.jsx:180-187 | changing the endpoint or a date neither schedules nor issues a fetch |
| NewsFeed.ResetKeepsCooldown | NewsAPI/src/NewsFeed.jsx:189-194 | Reset clears the rate limit and the error, empties the articles, goes to page 1, and leaves the cooldown and its timer untouched |
| NewsFeed.TicksOnlyMoveClock | NewsAPI/src/NewsFeed.jsx:155-157 | time passing without a timer firing changes nothing but the clock |
| NewsFeed.BurstKeepsLastKeystroke | NewsAPI/src/NewsFeed.jsx:146-170 | after a burst of keystrokes with both gates open, exactly one fetch is pending, with the last keystroke's arguments, and nothing has been requested |
| NewsFeed.RunSnoc | NewsAPI/src/NewsFeed.jsx:146-164 | running one more event after a run extends its state and request list by that event's step |
| NewsFeed.FiredFetchUsesSchedulingRender | NewsAPI/src/NewsFeed.jsx:146-157 | an endpoint or date change while the debounce is pending does not reach its request: the timer requests the endpoint and dates of the keystroke's render |
| NewsFeed.FiredFetchNeverGated | NewsAPI/src/NewsFeed.jsx:147-156 | under the invariant a due debounce always fires with both gates open, so reading the gates at firing time agrees with the scheduling render |
| NewsFeed.EndpointSwitchScenario | NewsAPI/src/NewsFeed.jsx:70-91 | "mars" typed on top headlines, then everything selected 500 ms later: the timer still requests top headlines with `country=us&q=mars` |
| NewsFeed.BurstFetchesLastKeystroke | NewsAPI/src/NewsFeed.jsx:146-164 | debouncing collapses a burst: when the timer fires, the only request of the whole run is the one for the last keystroke |
| NewsFeed.Feed.constructor | NewsAPI/src/NewsFeed.jsx:15-31 | initial state: no articles, empty search, top headlines, no error, both gates open, initial load, page 1, no timers |
| NewsFeed.Feed.StartCooldown | NewsAPI/src/NewsFeed.jsx:34-43 | sets isInCooldown and replaces any pending cooldown timer by one due a full period from now |
| NewsFeed.Feed.HandleRateLimit | NewsAPI/src/NewsFeed.jsx:45-49 | sets isRateLimited and the rate-limit message |
| NewsFeed.Feed.FetchNews | NewsAPI/src/NewsFeed.jsx:51-133 | new state and request are those of `Fetch`: gates, then error cleared and page 1, then the built request and its reply |
| NewsFeed.Feed.ApplyReply | NewsAPI/src/NewsFeed.jsx:91-125 | new state is `Resolve` of the reply |
| NewsFeed.Feed.ApplyFailure | NewsAPI/src/NewsFeed.jsx:100-125 | new state is `Fail` of the classified failure: the catch block's branches |
| NewsFeed.Feed.ReportFailure | NewsAPI/src/NewsFeed.jsx:112-124 | sets the message, then starts the cooldown |
| NewsFeed.Feed.DebouncedFetch | NewsAPI/src/NewsFeed.jsx:146-164 | when gated nothing changes; otherwise the pending fetch is replaced by one due in 1000 ms with these arguments |
| NewsFeed.Feed.HandleSearch | NewsAPI/src/NewsFeed.jsx:166-170 | stores the search text and debounces a fetch with it and the current selects |
| NewsFeed.Feed.HandleSelect | NewsAPI/src/NewsFeed.jsx:172-178 | a category or source change debounces a fetch with the current search |
| NewsFeed.Feed.HandleEndpointChange | NewsAPI/src/NewsFeed.jsx:180-182 | only the endpoint changes |
| NewsFeed.Feed.HandleDateChange | NewsAPI/src/NewsFeed.jsx:184-187 | only the named date field changes |
| NewsFeed.Feed.HandleReset | NewsAPI/src/NewsFeed.jsx:189-194 | new state is `Reset` of the old |
| NewsFeed.Feed.HandlePageChange | NewsAPI/src/NewsFeed.jsx:196-199 | only the current page changes, to the page given, without a clamp |
| NewsFeed.Feed.Tick | NewsAPI/src/NewsFeed.jsx:155-157 | the clock advances without passing a pending timer |
| NewsFeed.Feed.FireFetchTimer | NewsAPI/src/NewsFeed.jsx:155-157 | the due debounce timer is consumed and the scheduling render's fetchNews runs with its arguments |
| NewsFeed.Feed.FireCooldownTimer | NewsAPI/src/NewsFeed.jsx:39-42 | the due cooldown timer clears isInCooldown and the error |
| NewsFeed.Feed.Unmount | NewsAPI/src/NewsFeed.jsx:201-213 | every pending timer is cancelled, so none fires after unmount |
| NewsFeed.TypingBurstScenario | NewsAPI/src/NewsFeed.jsx:146-170 | the component, driven by "m" then "mars" 500 ms apart, requests only "mars" when the timer fires |
| NewsFeed.InvalidKeyScenario | NewsAPI/src/NewsFeed.jsx:111-113 | the component after a 401 is still locked 1 ms before the five minutes are up, and schedules a keystroke again after expiry |
| SwiggyStore.CartOf | Swiggy/backend_python/routes/cart_routes.py:23 | `user.get("cart_data", {})`: the stored cart, or empty when none is stored |
| CartRoutes.AddItem | Swiggy/backend_python/routes/cart_routes.py:26-29 | the item's count goes up by one, the item is in the cart afterwards, and every other entry is unchanged |
| CartRoutes.RemoveItem | Swiggy/backend_python/routes/cart_routes.py:60-64 | a count above 1 goes down by one; an item at 1 or below is deleted; an absent item stays absent; every other entry is unchanged |
| CartRoutes.AddItemCounts | Swiggy/backend_python/routes/cart_routes.py:26-29 | adding raises the item's count by exactly 1 (from 0 to 1 when absent), and no other count changes |
| CartRoutes.RemoveItemCounts | Swiggy/backend_python/routes/cart_routes.py:60-64 | on a cart with positive counts, removing lowers a present item's count by exactly 1 (deleting it at 1), and an absent item stays at 0 |
| CartRoutes.OnlyItemChanges | Swiggy/backend_python/routes/cart_routes.py:23-33 | add and remove change only the entry for the item (line 57-68 too) |
| CartRoutes.UpdatesKeepPositive | Swiggy/backend_python/routes/cart_routes.py:26-29 | every stored count stays at least 1 after add or remove (lines 60-64 too) |
| CartRoutes.RemoveAbsentIsNoop | Swiggy/backend_python/routes/cart_routes.py:60 | removing an absent item leaves the cart unchanged |
| CartRoutes.RemoveUndoesAdd | Swiggy/backend_python/routes/cart_routes.py:23-33 | on a cart with positive counts, remove after add restores the cart |
| CartRoutes.AddUndoesRemove | Swiggy/backend_python/routes/cart_routes.py:57-68 | for a present item, add after remove restores the cart |
| CartRoutes.AddToCart | Swiggy/backend_python/routes/cart_routes.py:10-42 | 404 "User not found" writing nothing; 500 when the body has no itemId; otherwise the user's cart is replaced by the incremented one and "Added to Cart" |
| CartRoutes.RemoveFromCart | Swiggy/backend_python/routes/cart_routes.py:44-77 | 404 "User not found" writing nothing; 500 when itemId is missing; otherwise the decremented-or-deleted cart is written back and "Removed from Cart" |
| CartRoutes.GetCart | Swiggy/backend_python/routes/cart_routes.py:79-97 | 404 for an unknown user; otherwise the stored cart, or `{}` when none is stored |
| CartController.AddItem | Swiggy/backend/controllers/cartController.js:13-17 | the item's count goes up by one (a zero entry becomes 1), and every other entry is unchanged |
| CartController.RemoveItem | Swiggy/backend/controllers/cartController.js:29-33 | a count above 1 goes down by one; otherwise the key is deleted, which for an absent key does nothing; every other entry is unchanged |
| CartController.AgreesWithRoutes | Swiggy/backend/controllers/cartController.js:13-33 | the falsy test of the JavaScript controller computes the same add and remove as the Python `in` test |
| CartController.ApplyAllKeepsPositive | Swiggy/backend/controllers/cartController.js:13-33 | every stored count stays at least 1 under any sequence of adds and removes |
| CartController.ApplyAllCounts | Swiggy/backend/controllers/cartController.js:13-33 | after any sequence of adds and removes, each count is the reference tally: +1 per add, -1 per remove down to 0 |
| CartController.AddToCart | Swiggy/backend/controllers/cartController.js:7-20 | 404 "User not found" writing nothing; otherwise the incremented cart is saved and "Added to Cart" |
| CartController.RemoveFromCart | Swiggy/backend/controllers/cartController.js:23-36 | 404 "User not found" writing nothing; otherwise the decremented-or-deleted cart is saved and "Removed from Cart" |
| CartController.GetCart | Swiggy/backend/controllers/cartController.js:39-46 | 404 for an unknown user; otherwise the stored map unchanged |
| Checkout.ItemLines | Swiggy/backend/controllers/orderController.js:23-32 | one line item per order item, in order, each carrying that item's name, price in cents, quantity and "usd" |
| Checkout.LineItemsFor | Swiggy/backend/controllers/orderController.js:23-43 | the `map` result followed by the one pushed delivery line, n+1 entries |
| Checkout.LineItemsShape | Swiggy/backend_python/routes/order_routes.py:48-71 | the line items are the n item lines in input order followed by one delivery line: "Delivery Charges", 200 cents, quantity 1, n+1 entries in all |
| Checkout.ChargeAppend | Swiggy/backend_python/routes/order_routes.py:48-71 | the charge of concatenated line lists is the sum of their charges |
| Checkout.ItemLinesCharge | Swiggy/backend_python/routes/order_routes.py:49-59 | the item lines charge exactly the items' subtotal |
| Checkout.ChargeIsSubtotalPlusDelivery | Swiggy/backend_python/routes/order_routes.py:48-71 | the session charges the items' subtotal plus 200 cents of delivery |
| Checkout.ClearCart | Swiggy/backend_python/routes/order_routes.py:42-45 | the ordering user's cart becomes `{}` and their other fields are kept; no user is added or removed, and every other user is unchanged |
| Checkout.MarkPaid | Swiggy/backend_python/routes/order_routes.py:97-100 | the named order, if it exists, is paid and otherwise unchanged; no order is added or removed, and the others are unchanged |
| Checkout.SetStatus | Swiggy/backend_python/routes/order_routes.py:165-168 | the named order, if it exists, gets the new status and is otherwise unchanged; the other orders are unchanged |
| Checkout.Verify | Swiggy/backend_python/routes/order_routes.py:96-104 | "true" keeps every order and marks the named one paid; any other value removes exactly the named order; the remaining orders are unchanged |
| Checkout.VerifyChangesOnlyPayment | Swiggy/backend_python/routes/order_routes.py:96-104 | "true" marks the named order paid and changes nothing else; any other value deletes it; other orders are untouched |
| Checkout.CancelledStaysCancelled | Swiggy/backend_python/routes/order_routes.py:102-103 | an order deleted for non-payment cannot be marked paid afterwards, and no order reappears |
| Checkout.SetStatusChangesOnlyStatus | Swiggy/backend_python/routes/order_routes.py:166-169 | updating the status changes exactly the status of the named order, if it exists |
| Checkout.SetStatusKeepsPayment | Swiggy/backend/controllers/orderController.js:87-89 | a status update never changes any order's payment flag |
| Checkout.OrdersOf | Swiggy/backend_python/routes/order_routes.py:117-119 | exactly the orders whose user is the caller, unchanged |
| OrderRoutes.BuildLineItems | Swiggy/backend_python/routes/order_routes.py:48-71 | the loop-built list equals the reference line items: one line per item in order, then the delivery line |
| OrderRoutes.PlaceOrder | Swiggy/backend_python/routes/order_routes.py:17-85 | the new order is stored with the caller, "Food Processing" and unpaid; the cart is cleared; the session has the line items and the verify URLs; 201 with the session URL, or 500 with Stripe's error |
| OrderRoutes.VerifyOrder | Swiggy/backend_python/routes/order_routes.py:87-109 | orders become `Verify(old, id, success)`: "true" gives "Paid" (200), anything else "Not Paid" (400) |
| OrderRoutes.UserOrders | Swiggy/backend_python/routes/order_routes.py:111-125 | returns exactly the caller's orders |
| OrderRoutes.ListOrders | Swiggy/backend_python/routes/order_routes.py:127-149 | 403 "You are not admin" exactly when the user is missing or not an admin; otherwise every order |
| OrderRoutes.UpdateStatus | Swiggy/backend_python/routes/order_routes.py:151-177 | 403 "You are not an admin" with nothing written for a non-admin; otherwise only the named order's status changes |
| OrderController.PlaceOrder | Swiggy/backend/controllers/orderController.js:12-53 | the `map` plus `push` build the same line items; order stored with the schema defaults; cart cleared; 201 with the session URL, or 500 with Stripe's error |
| OrderController.VerifyOrder | Swiggy/backend/controllers/orderController.js:55-64 | orders become `Verify(old, id, success)`: 200 "Paid" or 400 "Not Paid" |
| OrderController.UserOrders | Swiggy/backend/controllers/orderController.js:67-70 | returns exactly the caller's orders |
| OrderController.ListOrders | Swiggy/backend/controllers/orderController.js:73-81 | every order for an admin, 403 "You are not admin" exactly otherwise |
| OrderController.UpdateStatus | Swiggy/backend/controllers/orderController.js:84-94 | for an admin only the named order's status changes; otherwise 403 "You are not an admin" and nothing is written |
| UserController.Utf16Length | Swiggy/backend/controllers/userController.js:43 | `password.length` counts UTF-16 code units: at least one and at most two per character |
| UserController.Utf16LengthSamples | Swiggy/backend/controllers/userController.js:43 | four emoji measure 8, four letters 4 |
| UserController.Login | Swiggy/backend/controllers/userController.js:11-24 | the login succeeds exactly when the email was found and the password checks against its hash; every refusal is 404 or 401 |
| UserController.Register | Swiggy/backend/controllers/userController.js:34-57 | an accepted registration adds exactly the new id, with the hashed password; every refusal is 409 or 400 |
| UserController.RegisterLadder | Swiggy/backend/controllers/userController.js:34-45 | an existing email gives 409 before any other check; then an invalid email gives 400; then a password shorter than 8 UTF-16 units gives 400; every other request is accepted (each an if-and-only-if) |
| UserController.RegisterStoresHash | Swiggy/backend/controllers/userController.js:46-56 | an accepted registration adds exactly the new user, with hash(password, salt) as password and role "user", and answers 201 with its token and role |
| UserController.RegisterKeepsEmailsUnique | Swiggy/backend/controllers/userController.js:36-53 | registration keeps emails unique across users |
| UserController.RegisteredUserCanLogIn | Swiggy/backend/controllers/userController.js:11-56 | a user just registered logs in with the same password, getting 200 with its token and role "user" |
| UserController.LoginOutcomes | Swiggy/backend/controllers/userController.js:11-24 | 404 "User Doesn't exist" exactly for an unknown email; 401 "Invalid Credentials" exactly for a wrong password; otherwise 200 with the token and the user's role |
| PrimeCheck.RootFrom | Python/03_Loops/08_solution.py:7 | the integer square root searched upward from a root estimate |
| PrimeCheck.ISqrt | Python/03_Loops/08_solution.py:7 | `int(math.sqrt(n))` on exact integers: the largest r with r*r <= n |
| PrimeCheck.SmallDivisor | Python/03_Loops/08_solution.py:7-10 | a number with a proper divisor has one no larger than its square root |
| PrimeCheck.RootTestDecides | Python/03_Loops/08_solution.py:6-10 | for n > 1, testing divisors up to the square root decides primality |
| PrimeCheck.PrimeFlag | Python/03_Loops/08_solution.py:4-12 | the flag is true exactly when the number is prime; false for numbers <= 1; for n > 1 false exactly when some i in 2..isqrt(n) divides n |
| PrimeCheck.SmallPrimes | Python/03_Loops/08_solution.py:7 | for 2 and 3 the range is empty and both are prime |
| PrimeCheck.Script | Python/03_Loops/08_solution.py:3-14 | for the fixed input 28 the printed flag is False |
| FileRouter.Split | FastAPI/routers/file.py:15 | `split('\n')` always gives at least one line |
| FileRouter.SplitAroundNewline | FastAPI/routers/file.py:15 | splitting around a newline splits each side |
| FileRouter.SplitSingleLine | FastAPI/routers/file.py:15 | a text without a newline is one line |
| FileRouter.JoinSplit | FastAPI/routers/file.py:14-15 | joining the lines with "\n" gives back the content exactly |
| FileRouter.LinesHaveNoNewline | FastAPI/routers/file.py:15 | no returned line contains "\n" |
| FileRouter.LineCount | FastAPI/routers/file.py:15 | there is one line more than there are newlines |
| FileRouter.EmptyAndTrailing | FastAPI/routers/file.py:15 | empty content gives `[""]`, and a trailing newline adds a trailing `""` |
| FileRouter.SplitJoin | FastAPI/routers/file.py:15 | splitting a join of newline-free lines gives back those lines |
| FileRouter.UploadBytes | FastAPI/routers/file.py:12-16 | the lines returned rejoin with "\n" to the content, and none contains a newline |
| FileRouter.UploadFile | FastAPI/routers/file.py:19-23 | the reply carries the filename, and its lines rejoin to the content |
| FileRouter.SaveFile | FastAPI/routers/file.py:26-33 | the content is written under "uploaded/" + filename, overwriting it, and every other path is unchanged |
| FileRouter.Download | FastAPI/routers/file.py:36-41 | no bearer token: 401 "Not authenticated"; a token that does not validate: 401 "Could not validate credentials"; a valid one: the download succeeds exactly when the saved path exists, serving that file's content under its name |
| FileRouter.UploadsAgree | FastAPI/routers/file.py:12-23 | upload_file gives the same lines as upload_bytes, plus the filename, and those lines rejoin to the content |
| FileRouter.DownloadAfterSave | FastAPI/routers/file.py:26-40 | a file saved under "uploaded/" + name downloads by that name with the content saved last |
| FileRouter.DownloadMissing | FastAPI/routers/file.py:38-41 | a name not on disk answers 404 "File not found", and saving another name does not change that |
| FileRouter.Refusal | FastAPI/auth/oauth.py:35-51 | the user dependency lets a request through exactly with a valid token, and otherwise answers 401 |
| FileRouter.DownloadNeedsCredentials | FastAPI/routers/file.py:37-41 | without a valid token the answer is 401, with the detail for a missing or an invalid token; with one the download succeeds exactly when the file exists |
| BlogGet.ByAuthorExact | FastAPI/routers/blog_get.py:19 | the comprehension keeps exactly the posts by the author, as an order-preserving subsequence |
| BlogGet.SubsequenceOfTail | FastAPI/routers/blog_get.py:19 | a subsequence of a list's tail is a subsequence of the list |
| BlogGet.SubsequenceDropHead | FastAPI/routers/blog_get.py:19 | dropping the first element of a subsequence leaves a subsequence |
| BlogGet.GetAllBlogs | FastAPI/routers/blog_get.py:11-21 | a missing or empty author returns both posts; every post returned is a mock post, and by the author when one is given |
| BlogGet.GetAllBlogsFilters | FastAPI/routers/blog_get.py:11-21 | a missing or empty author returns both posts unchanged; otherwise exactly that author's posts, in order |
| BlogGet.KnownAndUnknownAuthors | FastAPI/routers/blog_get.py:13-19 | "Alice" gets post 1 only; a non-empty author of neither post gets `[]` |
| BlogGet.NatToStringValue | FastAPI/routers/blog_get.py:32 | the decimal text of n denotes n, and starts with a digit that is not '0' unless n is 0 |
| BlogGet.IntToStringInjective | FastAPI/routers/blog_get.py:32 | different ids have different decimal texts |
| BlogGet.GetBlog | FastAPI/routers/blog_get.py:28-34 | the post echoes the id, has the fixed content, and its title starts "Sample Blog " |
| BlogGet.GetBlogTitles | FastAPI/routers/blog_get.py:28-34 | get_blog echoes the id, titles it "Sample Blog {id}", and no two ids share a title |

## Left out

- Interleaving of in-flight requests: `fetchNews` is one atomic step, so a reply that arrives after a later request was issued is not modelled. The source has no stale-response suppression, and the model adds none.
- `withLoading`, the `loading` flag and `isTransitioning` are not modelled. The model assumes the feed stays mounted from mount to `Unmount`. In the shipped app this is not so:
  - `withLoading.jsx:20-24` renders a spinner in place of the feed while `loading` is true.
  - `NewsFeed.jsx:56-59` sets `loading` on every fetch after the first successful one.
  - Such a fetch therefore unmounts the feed. The cleanup at `NewsFeed.jsx:201-213` cancels both timers, and the reply's state updates land on the unmounted instance.
  - The feed then remounts in its initial state, with no articles, both gates open and `isInitialLoad` true.
  - So the properties about replies and gates (`ResolveSuccess`, `RateLimitHoldsUntilReset`, `CooldownHoldsUntilDue` and the rest) describe the feed used without the wrapper.
- The two 100 ms delays (`NewsFeed.jsx:94`, `126-133`) are folded away.
- The cooldown countdown text (`NewsFeed.jsx:253`): display only. It reads a `startTime` that timer handles do not have.
- React closure staleness and the dependency arrays: a debounced request uses the endpoint and dates of the render that scheduled it. The gates are read when the timer fires; `FiredFetchNeverGated` shows that under the invariant this agrees with the scheduling render. Every other handler reads the current state.
- Timers fire exactly when due, never late: the clock cannot pass a pending timer (`NoTimerPassed`), and a timer fires only at its due time (`FetchTimerDue`, `CooldownTimerDue`). `InvalidKeyLocksForCooldownPeriod` relies on this for its keystroke 1 ms after expiry.
- The verify routes' `success` input is taken to be a string. JavaScript's loose `success == "true"` also accepts values such as `["true"]`, which the model does not represent.
- axios, JSX rendering, styles and `window.scrollTo`. `categoryRef`/`sourceRef` are passed in as the selects' current values.
- Date cells and `order_helper` formatting: dates come from a clock that is not modelled, and the helper only reshapes records.
- MongoDB, motor and SQLAlchemy storage: the collections are maps, and ids are given.
  - An id that is not a valid ObjectId, and other missing request keys, make the source answer 500. Only a missing `itemId` in the Python cart routes is modelled.
  - In the JavaScript cart routes an absent `itemId` (the key `undefined`) is not modelled.
- The Python routes answer with HTTP 200 and put the verify status (200 or 400) in the body. The JavaScript routes send it as the HTTP status. The model returns the body status only.
- `ListOrders` and `UserOrders` return maps keyed by order id, not lists.
- `orderModel` and `userModel` are not part of this model. Their JavaScript schema defaults (status, payment, role, empty cart) are taken to be those of the Python models.
- `asyncHandler` is taken to turn a thrown error into a 500 reply.
- Stripe, JWT, bcrypt, `genSalt` and `validator.isEmail` are parameters.
- Prices are integer cents, so the float conversions `int(price * 100)` and `price * 100` are not modelled.
- `math.sqrt` is modelled as the exact integer square root, with no floating-point error.
- PrimeFlag: the fact that the loop stops at the first divisor is stated only as the loop invariant, not in the ensures.
- UTF-8 decoding and disk writes in the file router: content is a given string. No path normalization of file names is modelled.
- The React-Router pages, `ArticleDetails.jsx`, the food routes and controller, the Docker server and the FastAPI bootstrap and auth glue are outside the modelled core.

# Food-ordering backend: a Dafny model of its business rules

This project models the request handlers of a FastAPI food-ordering backend:
placing orders with their items, starting a payment with the payment provider,
reconciling payments from the provider's webhook, the restaurant, menu and user
endpoints, registration and login, and the token claims that authenticate a
request.

The database is an immutable `Store` record with one finite map per table
(users, restaurants, menus, orders, order items, payments). Rows are keyed by
natural-number ids handed out from a counter `nextId`, which stands in for the
random UUIDs. Three invariants describe a well-formed store:
- `Store.Valid`: every key, and every order id an item or payment refers to,
  lies below `nextId`, and rows that carry their own id are stored under it;
- `Store.Linked`: every reference between rows resolves, which is what the
  database's foreign keys enforce;
- `Store.EmailsUnique`: no two users share an email, the unique index on
  `users.email`.

Every writing endpoint has a lemma, or a clause of its own contract, showing
that it keeps `Valid` and `Linked`: the `...KeepsInvariants`, `...KeepsValid`
and `...KeepsLinked` lemmas in the table below. Registration, profile update,
user deletion and the webhook also keep `EmailsUnique`; the other writers do
not write the users table. Profile updates, order placement and payment creation
need the caller to be a stored user, which `Security.GetCurrentUser`
guarantees for every authenticated request.

A commit that a database constraint refuses is answered 500 with nothing
changed. The model follows this where an endpoint can reach it:
- registering an email that is already taken;
- deleting a user that an order or a payment refers to;
- deleting a menu that an order item refers to;
- deleting a restaurant that an order or a menu refers to;
- placing an order with a quantity outside the 32-bit `Integer` column of
  `order_items` (app/models/order_item.py:15), which the handler's catch-all
  answers 500 after rolling back.

The payment endpoint's insert is the one constraint failure the model does not
follow. That insert leaves the NOT NULL `stripe_session_id` unset, so as written
every payment whose intent was created fails at commit.
`Payments.CreatePaymentAsWritten` models this, and the rest of the model uses
`Payments.CreatePayment`, which records the payment without a session id (see
Findings).

A restaurant's menus count as references because of how the mapper deletes.
The `menus` backref on the restaurant (app/models/menu.py:22) has no delete
cascade, so deleting the restaurant sets each menu's `restaurant_id` to null.
The NOT NULL column then refuses the commit.

Each endpoint is a pure function from the store, the authenticated caller and
the request to a `Reply`: an `Ok` value or an HTTP-style error, plus the store
after the request. Every error path hands back the store it was given, which is
how the model states that a failed request commits nothing.

`query(...).first()` is modelled by `Common.FirstKey`: the lowest id among the
matching rows. Money is an integer number of paise. The outside world enters as
parameters:
- password hashing and checking are functions `hash` and `verify`;
- a JWT is its claim map, and decoding one is its outcome, `Option<Claims>`;
- the payment provider is a function from an intent request to a reply;
- the webhook signature check is its outcome, `Option<Event>`;
- the clock is an integer `now`.

Some behaviours of the code are easy to miss:
- Duplicate menu ids in one order are not refused; each line still becomes its
  own item.
- Quantities are not required to be positive.
- The webhook finds the order through the session metadata, not through the
  payment's own `order_id`.
- Payment creation records the provider's intent id and no checkout-session id,
  while the webhook looks payments up by session id. So even once the insert
  is allowed to succeed, as `Payments.CreatePayment` lets it, a payment started
  through the payment endpoint is never reconciled
  (`Webhook.CreatedPaymentNeverReconciled`).

## Model

| member | source | states |
|---|---|---|
| `Common.AdminChecksCompared` | app/routers/user_router.py:49 | The user router's exact role check implies the case-insensitive one of the other routers, and "Admin" passes only the latter |
| `Common.FirstKey` | app/routers/auth_router.py:41 | The first matching row: it matches, every lower key does not, and none means no row in range matches |
| `Security.CreateAccessToken` | app/core/security.py:14-27 | The token keeps every claim of the input except "exp" and "type", adds "type" = "access" and an expiry 1440 minutes after now |
| `Security.CreateRefreshToken` | app/core/security.py:30-43 | Same claim set with "type" = "refresh" and an expiry 2880 minutes after now |
| `Security.GetCurrentUser` | app/core/security.py:46-78 | Succeeds exactly when the token decodes, is an access token, has a subject and the subject is a stored user; the result is that user; every failure is 401 |
| `Security.RefreshTokenRejected` | app/core/security.py:64-65 | A refresh token never authenticates, whatever it carries |
| `Security.AccessTokenRoundTrip` | app/core/security.py:74-78 | An access token for a stored user's id authenticates as exactly that user |
| `Auth.RegisterUser` | app/routers/auth_router.py:14-32 | An email already in use is refused with 500 and no change; otherwise one user with the payload's fields and the hashed password, role "admin" exactly when no user existed before and "user" otherwise; on a valid store the id is fresh, the count grows by one and validity is kept |
| `Auth.FirstUserIsAdmin` | app/routers/auth_router.py:16-25 | Registering on an empty database succeeds and creates an admin, the only user |
| `Auth.RegisterKeepsInvariants` | app/routers/auth_router.py:19-30 | Registration keeps the store valid and linked, and keeps emails unique |
| `Auth.Login` | app/routers/auth_router.py:36-46 | Succeeds exactly when the first user with that email verifies the password; then the token is an access token whose subject is that user's id; every failure is 401 |
| `Auth.LoginAuthenticates` | app/routers/auth_router.py:41-46 | The token a successful login issues authenticates as a user with the given email |
| `Auth.RegisteredUserCanLogIn` | app/routers/auth_router.py:14-46 | Just after registering, logging in with the same email and a password the check accepts against its hash succeeds, with a token naming the new user |
| `Users.GetProfile` | app/routers/user_router.py:14-16 | Returns the caller |
| `Users.ProfileIsStoredUser` | app/routers/user_router.py:14-16 | The profile an authenticated request sees is the stored row its token names |
| `Users.UpdateProfile` | app/routers/user_router.py:19-40 | Each of first name, last name, phone and address is overwritten when supplied and kept otherwise; id, email, password and role never change; the caller's row is replaced |
| `Users.UpdatedProfileReadBack` | app/routers/user_router.py:19-40 | After an update, the caller's next authenticated request and an admin's lookup by id both return the updated row |
| `Users.UpdateProfileKeepsInvariants` | app/routers/user_router.py:25-37 | For a stored caller, an update keeps the store valid and linked and its emails unique |
| `Users.GetAllUsers` | app/routers/user_router.py:44-52 | Every user for a caller whose role is exactly "admin", 403 otherwise |
| `Users.GetUserById` | app/routers/user_router.py:55-68 | 403 for a non-admin before any lookup, 404 for an unknown id, else that user |
| `Users.DeleteUser` | app/routers/user_router.py:71-86 | 403 before 404 as above; a user an order or payment refers to is refused with 500; every error changes nothing; success, exactly otherwise, removes exactly that user |
| `Users.DeletedUserNotFound` | app/routers/user_router.py:71-86 | After a delete the user's id gives 404, and every other id gives what it gave before |
| `Users.DeleteUserKeepsInvariants` | app/routers/user_router.py:80-85 | A delete keeps the store valid and linked, with no order or payment left pointing at a missing user, and keeps emails unique |
| `Users.CapitalisedAdminRefused` | app/routers/user_router.py:49 | A caller with role "Admin" is refused by the user router although the other routers admit it |
| `Restaurants.CreateRestaurant` | app/routers/restaurant_router.py:24-36 | 403 for a non-admin (role compared ignoring case) with no change; otherwise one restaurant with the payload's fields under a fresh id |
| `Restaurants.ListRestaurants` | app/routers/restaurant_router.py:39-41 | Exactly the stored restaurants |
| `Restaurants.GetRestaurant` | app/routers/restaurant_router.py:44-53 | 404 exactly when absent, else that restaurant |
| `Restaurants.Patched` | app/routers/restaurant_router.py:69-70 | Each field is the supplied value when given and the old value when left out; the id never changes |
| `Restaurants.UpdateRestaurant` | app/routers/restaurant_router.py:56-74 | 403 before 404; on success only that restaurant is replaced, by its patched form |
| `Restaurants.DeleteRestaurant` | app/routers/restaurant_router.py:77-91 | 403 before 404; a restaurant an order or a menu refers to is refused with 500 and no change; on success exactly that restaurant is removed |
| `Restaurants.EmptyUpdateKeepsStore` | app/routers/restaurant_router.py:69-72 | An update that supplies no field leaves the store as it was |
| `Restaurants.CreatedRestaurantFound` | app/routers/restaurant_router.py:24-53 | A created restaurant is returned by a read of its id and is listed |
| `Restaurants.UpdatedRestaurantRead` | app/routers/restaurant_router.py:56-74 | After an update, a read of that id returns the patched restaurant |
| `Restaurants.DeletedRestaurantNotFound` | app/routers/restaurant_router.py:77-91 | After a delete the id gives 404, and every other id reads as before |
| `Restaurants.CreateRestaurantKeepsLinked` | app/routers/restaurant_router.py:30-36 | Creating a restaurant keeps every reference resolved |
| `Restaurants.UpdateRestaurantKeepsInvariants` | app/routers/restaurant_router.py:63-74 | An update keeps the store valid and linked |
| `Restaurants.DeleteRestaurantKeepsInvariants` | app/routers/restaurant_router.py:83-91 | A delete keeps the store valid and linked: no order or menu is left pointing at a missing restaurant |
| `Menus.CreateMenu` | app/routers/menu_router.py:19-39 | 403 for a non-admin, 404 for an unknown restaurant, both with no change; otherwise one menu with the payload's fields under a fresh id |
| `Menus.GetMenuByRestaurant` | app/routers/menu_router.py:42-51 | Exactly the menus of that restaurant, available or not |
| `Menus.Patched` | app/routers/menu_router.py:67-68 | Each field is the supplied value when given and the old value when left out; id and restaurant never change |
| `Menus.UpdateMenu` | app/routers/menu_router.py:54-72 | 403 before 404; on success only that menu is replaced; no order and no order item changes, so frozen prices stay |
| `Menus.DeleteMenu` | app/routers/menu_router.py:75-88 | 403 before 404; a menu an order item refers to is refused with 500 and no change; on success exactly that menu is removed |
| `Menus.CreatedMenuListed` | app/routers/menu_router.py:19-51 | A created menu is listed under its restaurant, as created |
| `Menus.UpdatedMenuListed` | app/routers/menu_router.py:54-72 | After an update the menu is listed under the same restaurant in its patched form |
| `Menus.DeletedMenuUnlisted` | app/routers/menu_router.py:75-88 | After a delete the menu is listed under no restaurant |
| `Menus.CreateMenuKeepsLinked` | app/routers/menu_router.py:25-39 | A new menu belongs to a stored restaurant, so every reference stays resolved |
| `Menus.UpdateMenuKeepsInvariants` | app/routers/menu_router.py:61-72 | An update keeps the store valid and linked |
| `Menus.DeleteMenuKeepsInvariants` | app/routers/menu_router.py:80-88 | A delete keeps the store valid and linked: no order item is left without its menu |
| `Orders.MatchingMenus` | app/routers/order_router.py:39-43 | The menus the placement query finds: requested, of the restaurant, available |
| `Orders.CountCheckMeansAllOrderable` | app/routers/order_router.py:37-46 | The size comparison against the distinct requested ids passes exactly when every line names an available menu of the restaurant |
| `Orders.ItemsFor` | app/routers/order_router.py:61-73 | One item per line, in line order, with the line's menu and quantity and the menu's current price |
| `Orders.TotalMatchesItems` | app/routers/order_router.py:58-64 | The total summed over the lines equals the total of quantity times frozen price over the created items |
| `Orders.PlaceOrder` | app/routers/order_router.py:25-89 | 404 for an unknown restaurant, 400 unless every line is orderable, then 500 when a quantity does not fit the 32-bit `Integer` column (app/models/order_item.py:15), each with no change; success exactly otherwise, with an order owned by the caller, status "Placed", the server-side total, written together with its items |
| `Orders.NewItemsValues` | app/routers/order_router.py:61-75 | The items added sit under the ids after the order's, one per line, carrying the line's menu and quantity and the menu's price |
| `Orders.PlacedOrderFresh` | app/routers/order_router.py:48-55 | On a valid store the order's id is new and the order count grows by one |
| `Orders.PlacedKeepsValid` | app/routers/order_router.py:48-80 | Placement keeps a valid store valid |
| `Orders.PlacedItemCount` | app/routers/order_router.py:61-75 | On a valid store the item count grows by exactly the number of lines |
| `Orders.PlacedItemsKeepExisting` | app/routers/order_router.py:75-80 | Placement leaves every existing item as it was |
| `Orders.PlacedOrderItemIds` | app/routers/order_router.py:66-75 | The new order owns exactly the items placed with it |
| `Orders.PlacedOrderItemValues` | app/routers/order_router.py:61-75 | The new order's items follow its lines in order, with the prices frozen at placement |
| `Orders.PlacedTotalIsItemsTotal` | app/routers/order_router.py:58-78 | The stored total equals the sum over the order's items of quantity times frozen price |
| `Orders.EmptyOrderPlaced` | app/routers/order_router.py:37-82 | An order with no lines is accepted for an existing restaurant, costs 0 and adds no item |
| `Orders.DuplicateLinesAccepted` | app/routers/order_router.py:45-64 | A repeated line with a storable quantity is not refused and is charged twice |
| `Orders.DuplicateLinesStored` | app/routers/order_router.py:61-75 | On a valid store both copies of a repeated line with a storable quantity become items |
| `Orders.OversizedQuantityRefused` | app/routers/order_router.py:80-89 | Adding one line whose quantity is outside the 32-bit range to an otherwise valid order makes the commit fail: 500 with nothing written |
| `Orders.GetMyOrders` | app/routers/order_router.py:92-99 | Exactly the caller's orders |
| `Orders.GetOrderDetail` | app/routers/order_router.py:104-119 | 404 when absent; 403 unless the caller owns it or is an admin ignoring case; else that order |
| `Orders.UpdateOrderStatus` | app/routers/order_router.py:123-140 | 403 before 404; an admin sets any status text on an existing order and nothing else changes |
| `Orders.PlacedKeepsLinked` | app/routers/order_router.py:48-80 | An order placed by a stored user keeps every reference resolved: owner, restaurant, and each item's order and menu |
| `Orders.PlacedOrderVisible` | app/routers/order_router.py:25-119 | The order just placed is what its owner reads back by id, and it appears in the owner's list |
| `Orders.UpdatedStatusRead` | app/routers/order_router.py:104-140 | After a status update, the owner or an admin reads the order with the new status and nothing else changed |
| `Orders.UpdateOrderStatusKeepsInvariants` | app/routers/order_router.py:130-138 | A status update keeps the store valid and linked |
| `Payments.RequestFor` | app/services/payment_service.py:22-31 | The provider is asked for the order's total in paise, in "inr", with metadata holding exactly the order's id under "order_id" |
| `Payments.CreateIntent` | app/services/payment_service.py:10-33 | The service with the total compared as a number (see Findings): 404 for an unknown order, 400 for a total that is not positive; otherwise the provider's intent when it creates one, and exactly 500 when it fails |
| `Payments.CreateIntentAsWritten` | app/services/payment_service.py:10-20 | The service as written: an unknown order gives 404; every known order gives 500, because its total comes back as text and the comparison with 0 raises; the provider is never called |
| `Payments.TextTotalCounterexample` | app/services/payment_service.py:19 | For an order of 50000 paise and a provider that creates intents, the service as written answers 500 while the corrected service returns the intent |
| `Payments.GuardsPrecedeProvider` | app/services/payment_service.py:14-20 | When the guards fail the answer is the same for every provider: they are decided before it is called |
| `Payments.PendingPayment` | app/routers/payment_router.py:34-42 | The recorded payment is PENDING, in "INR", for the order's total, by the caller, with the intent id and no session id |
| `Payments.CreatePayment` | app/routers/payment_router.py:15-54 | Built on the corrected service, and recording the payment with no session id (see Findings): 404, then 403 for a non-owner with no admin bypass, then 400 for a PAID order; success exactly when these pass, the total is positive and the provider creates an intent; every failure, the provider's included, changes nothing; success adds one payment and answers with the total and "payment_pending" |
| `Payments.CreatePaymentAsWritten` | app/routers/payment_router.py:34-45 | The endpoint as written: every refusal of `CreatePayment` is kept, and where `CreatePayment` would succeed the commit of a row without the NOT NULL `stripe_session_id` fails, so the answer is 500 with the store unchanged; it never succeeds |
| `Payments.SessionIdCounterexample` | app/models/payment.py:16 | For the owner of an unpaid order with a positive total, as written gives 500 and records nothing while `CreatePayment` succeeds |
| `Payments.CreatedPaymentFresh` | app/routers/payment_router.py:34-46 | On a valid store the new payment's id is new, the payment count grows by one, and it refers to an existing order |
| `Payments.CreatedPaymentKeepsValid` | app/routers/payment_router.py:34-46 | Starting a payment keeps a valid store valid |
| `Payments.CreatePaymentKeepsOrders` | app/routers/payment_router.py:21-54 | Orders, items, users and menus are untouched |
| `Payments.CreatePaymentKeepsLinked` | app/routers/payment_router.py:34-46 | On a valid store, a payment started by a stored caller keeps every reference resolved |
| `Webhook.PaymentForSession` | app/routers/webhook_router.py:42-44 | The payment found for a session has that session id; none found means no payment keyed below the id counter has it |
| `Webhook.Locate` | app/routers/webhook_router.py:25-52 | 400 for a bad signature, "ignored" for other event types, "not_paid" for an unpaid session, "already_processed" for an unknown or settled payment, 500 for metadata without an order id, "missing_email" for an unknown order; it goes on to reconcile exactly when none of these applies |
| `Webhook.Settle` | app/routers/webhook_router.py:58-60 | The payment becomes SUCCESS and the order PAID in one write; nothing else changes |
| `Webhook.HandleEvent` | app/routers/webhook_router.py:15-66 | Every answer of `Locate` is passed on unchanged; an order whose owner is missing or has no email gives "missing_email"; it settles and schedules exactly one email, to the owner with the order id and the payment's amount, exactly when the checks pass and the owner has an email; otherwise nothing changes and nothing is sent |
| `Webhook.SignatureGate` | app/routers/webhook_router.py:25-32 | A delivery that fails the signature check gets 400 and changes nothing |
| `Webhook.StatusVocabulary` | app/routers/webhook_router.py:34-60 | The only writes are payment status SUCCESS and order status PAID; no other field or table changes |
| `Webhook.HandleEventKeepsInvariants` | app/routers/webhook_router.py:58-60 | Handling any delivery keeps the store valid and linked and its emails unique |
| `Webhook.SettleKeepsSessionLookup` | app/routers/webhook_router.py:42-47 | Settling does not change which payment a session finds |
| `Webhook.ReplayIsHarmless` | app/routers/webhook_router.py:46-64 | A second delivery of the same event changes nothing and sends nothing, at most one email is sent over both, and after a settlement the replay is "already_processed" |
| `Webhook.CreatedPaymentNeverReconciled` | app/routers/payment_router.py:34-42 | A payment started through the payment endpoint has no session id, so no delivery finds it |
| `Webhook.HandleEventAsWritten` | app/routers/webhook_router.py:49-54 | The handler as written: every delivery that reaches an existing order ends in 500 with nothing written and nothing sent |
| `Webhook.OwnerLookupCounterexample` | app/routers/webhook_router.py:51 | On a concrete store and paid delivery the handler as written answers 500 while the corrected handler settles and sends one email |

## Left out

- `Payments.PendingPayment`: the row is built with no session id, although
  `stripe_session_id` is declared NOT NULL (app/models/payment.py:16).
- `Payments.CreatePayment`: its success path is the corrected endpoint. As
  written, the commit of the row without a session id fails with 500 after the
  provider has created the intent; `Payments.CreatePaymentAsWritten` states
  that, and the third row of Findings records it.
- Uniqueness of `stripe_session_id` is not modelled. The session lookup takes
  the lowest matching id.
- Float money columns and their rounding are not modelled. Prices, totals and
  amounts are integer paise, so `int(total * 100)` is the stored amount. The
  email's amount formatting is left out too.
- `Restaurants.Patched`: an explicit JSON null is not modelled. For `name` and
  `address` (NOT NULL columns) it would fail the commit with 500. For
  `is_open` (nullable, app/models/restaurant.py:15) the null is committed, and
  the response's boolean field then cannot serialise it. Only `description`
  may be set to null in the model.
- `Menus.Patched`: an explicit JSON null is not modelled. For `name` and
  `price` (NOT NULL) it would fail the commit with 500. For `is_available`
  (nullable, app/models/menu.py:20) the null is committed; the menu then fails
  the `is_(True)` filter when ordering, and the response cannot serialise it.
- JWT signing, decoding and expiry checking: a token is its claims. A "sub"
  claim that is not a user id is treated like one naming no user.
- bcrypt hashing, Google sign-in and password-reset tokens.
- The payment provider and the webhook signature scheme.
- `Orders.PlaceOrder`: of the failures the catch-all answers 500, only a
  quantity that does not fit its column is modelled. Other database errors,
  such as a lost connection, are not. The 500's detail is "Order failed: "
  followed by the exception's text, and the model keeps only the prefix.
- SMTP sending and logging: a scheduled email is an `EmailTask` value.
- Concurrency, row locking and racing webhook deliveries. Requests are applied
  one at a time.
- `Security.GetCurrentUser`: the HTTP bearer-header parsing before decoding is
  not modelled.
- Role lower-casing covers ASCII letters only.
- Response serialisation (`response_model`, nested items) and FastAPI wiring.
  The application entry point mounts only the user, auth and restaurant
  routers; the model treats every router as reachable.
- Webhook metadata values that are not ids, which would fail in the database
  query.

## Findings

| source | as written | input that shows it | evidently intended | confidence | as-written member | corrected member |
|---|---|---|---|---|---|---|
| app/routers/webhook_router.py:51 | the owner's email is read as `order.user.email`, but the Order model (app/models/order.py:10-19) defines no `user` relationship, so the attribute access raises and the request ends in 500 before anything is written | `Webhook.ExampleStore` with `Webhook.ExampleDelivery`: a pending payment for session "cs_1" of order 1, owned by user 0 with an email, and a paid completion of "cs_1" | read the owner through the order's `user_id`; answer "missing_email" when that owner has no email, else settle and send one email | not executed; high: the model file defines no such attribute and no backref exists | `Webhook.HandleEventAsWritten`, `Webhook.OwnerLookupCounterexample` | `Webhook.HandleEvent` |
| app/services/payment_service.py:19 | `total_amount` is a String column (app/models/order.py:17), so a loaded order's total is text. `not order.total_amount` is false for any non-empty text, and `order.total_amount <= 0` then compares text with an int, which raises. Every payment request for a known, owned, unpaid order ends in 500 before the provider is called | `Payments.ExampleOrders` (order 1 with a total of 50000 paise) and `Payments.ExampleProvider` | a numeric total column, or the total converted before the comparison, so that a positive total reaches the provider | not executed; high: the column type and Python's refusal to order text against numbers are both plain in the code | `Payments.CreateIntentAsWritten`, `Payments.TextTotalCounterexample` | `Payments.CreateIntent` |
| app/routers/payment_router.py:34-45 | the Payment row is built without `stripe_session_id`, a NOT NULL column (app/models/payment.py:16), so `db.commit()` fails and the request ends in 500 after the provider has already created an intent; no payment is ever recorded. Reached once the total is compared as a number (the row above) | `Payments.ExampleOrders`, `Payments.ExampleCaller` (the order's owner) and `Payments.ExampleProvider` | a nullable session id for payments started here, or the checkout-session id recorded at creation, so that the PENDING row is stored | not executed; high: the column is declared `nullable=False` and the constructor call names no session id | `Payments.CreatePaymentAsWritten`, `Payments.SessionIdCounterexample` | `Payments.CreatePayment` |

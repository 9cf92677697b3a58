# Restaurant ordering: real-time order fan-out and its client components

This project is a Dafny model of the core of a restaurant ordering web app.
Customers reach a restaurant's menu through a QR code, build a cart or an
order and submit it. Owners and super admins run dashboards, and new or
updated orders reach them over a WebSocket.

The model has these parts:

- **The server's order fan-out** (`Routes.OrderHub`, with the pure registry in `Registry`).
  - The `/ws` endpoint keeps `restaurantClients`, a map from restaurant id to the set of subscribed connections.
  - Each connection has a `restaurantId` variable holding its latest subscription.
  - `broadcastToRestaurant` sends one serialised message to every OPEN member of a restaurant's set.
  - The order POST and PATCH routes broadcast only after a successful write.
  - Around them sit the super-admin gate, the ownership check, the public available-dish filter and the role-based listings.
  - The caller of an authenticated route is a parameter; token verification is not modelled.
- **The browser's `SocketService`** (`Socket.SocketService`).
  - It holds the current socket, a reconnect counter, and a registry of event handlers. The counter stays within five while a single chain of connect and retry runs.
  - Every WebSocket it has created is kept with its ready state.
  - Socket events (open, message, close) and reconnect timers firing are explicit method calls.
- **The in-memory store** (`Storage.MemStorage`).
  - It has four insertion-ordered maps: users, restaurants, dishes and orders.
  - It supports create with defaults, get, update by merging, delete and by-restaurant queries, plus the QR-code slug.
  - A JavaScript `Map` is modelled by `OrderedMap.OMap`, a key sequence plus a map, so `values()` keeps insertion order.
- **Page reducers and helpers.**
  - The customer cart (`MenuPage`, `CartPage`).
  - The QR menu page's carousel, quantity picker, line composition and order guard (`CustomerMenu`).
  - The live order list of the hosted-database dashboard (`RealtimeOrders`).
  - The super-admin dashboard's search, counts and status badge (`AdminDashboard`).
  - The owner dashboard's "time ago" label, status counts and offered transitions (`OwnerDashboard`).
- **Development sign-in** (`Auth`). Credentials are looked up with the username trimmed and lower-cased. The browser's `localStorage` is a map field of `Auth.AuthService`.

Ids (`randomUUID`), clocks (`new Date()`, `Date.now()`) and whether a remote call fails are parameters of the operations. Prices are whole cents.

Where the code differs from what its design describes, the model follows the code:

- Re-subscribing a connection to a second restaurant overwrites its `restaurantId` variable. It does not remove the connection from the first restaurant's set, so on close only the second set loses it (`Registry.ResubscribeLeavesFirst`, `Routes.ResubscribeThenClose`).
- The retry bound is tested when a timer is set, not when it fires, and every timer raises the one shared counter. When `connect` is called while an earlier socket is still live, two chains retry side by side and the counter can reach six (`Socket.TwoChainsOvershoot`; see Findings).
- `disconnect()` does not cancel a pending reconnect. The close event of the socket it closes still runs `handleReconnect`, which schedules a new connection (`Socket.DisconnectThenClose`).
- A handler that throws stops the remaining handlers for that message. The exception is caught by the `onmessage` callback's `try` (`Socket.ThrowStopsRest`).
- `PATCH /api/orders/:id` broadcasts to the restaurant named by the UPDATED order. A patch that changes `restaurantId` therefore notifies the new restaurant.
- `GET /api/dishes` with a `restaurantId` query returns that restaurant's dishes to any authenticated caller, whatever their role.
- The super-admin dashboard counts every restaurant as active.

## Model

| member | source | states |
|---|---|---|
| Registry.Add | server/routes.ts:59-65 | subscribing adds the connection to that restaurant's set only, creating the entry if absent; no empty set appears |
| Registry.Remove | server/routes.ts:74-84 | closing removes the connection from that one set, drops the entry exactly when the set becomes empty, and keeps every other set |
| Registry.Targets | server/routes.ts:89-93 | a broadcast reaches exactly the members of the restaurant's set that are OPEN |
| Registry.Deliver | server/routes.ts:92-95 | each target's frames gain the message at the end; every other connection's frames are untouched, and no connection is added |
| Registry.DeliverOneMore | server/routes.ts:92-95 | sending to one more connection appends to that connection's frames only |
| Registry.DeliverVisit | server/routes.ts:92-95 | visiting one more member during the loop adds a frame exactly when that member is open |
| Registry.AddIdempotent | server/routes.ts:65 | subscribing twice to the same restaurant is subscribing once (set semantics) |
| Registry.RemoveUndoesAdd | server/routes.ts:59-84 | subscribe then close, for a connection not yet in the set, gives back the registry it started from |
| Registry.ResubscribeLeavesFirst | server/routes.ts:60-84 | after subscribing to A, then B, then closing, the connection is still in A's set and no longer in B's |
| Registry.NoEntryNoDelivery | server/routes.ts:89-90 | a broadcast to a restaurant with no entry sends nothing |
| Registry.RunMembers | server/routes.ts:55-84 | over any history of subscribes and closes, no set is empty, and a connection is in a restaurant's set iff its latest event about that restaurant was a subscription |
| Protocol.Parse | server/routes.ts:57 | parsing the serialisation of any message gives that message back |
| Protocol.OnlySubscribeSubscribes | server/routes.ts:59-67 | of the messages the system writes, a `subscribe` frame asks for a subscription exactly when its restaurant id is non-empty, and `new_order` and `order_updated` frames never do |
| Routes.OrderHub.constructor | server/routes.ts:47-50 | the server starts with no connections and an empty registry |
| Routes.OrderHub.Accept | server/routes.ts:52-53 | a new connection is open, has received nothing and is in no set |
| Routes.OrderHub.OnMessage | server/routes.ts:55-72 | a subscription records the restaurant, joins its set and acknowledges on this connection only; an unparseable or other message changes nothing and sends nothing; the registry invariant is kept |
| Routes.OrderHub.OnClose | server/routes.ts:74-84 | the connection leaves the set of its latest subscription only and is no longer open; nothing is sent |
| Routes.OrderHub.Broadcast | server/routes.ts:88-98 | every open member of the restaurant's set receives the one serialised message; the registry is not touched |
| Routes.OwnerConfined | server/routes.ts:332 | the ownership test `MayUpdateOrder`: a caller may update an order iff it is a super admin or its restaurant id equals the order's; an owner without a restaurant may update none |
| Routes.AvailableDishes | server/routes.ts:243 | the public filter keeps, in order, exactly the dishes whose `isAvailable` is true |
| Routes.PublicMenu | server/routes.ts:240-247 | the public menu lists exactly the stored dishes of that restaurant that are available, in insertion order |
| Routes.ListOrders | server/routes.ts:287-301 | a super admin sees all orders in insertion order; an owner with a restaurant sees exactly the stored orders of that restaurant, in insertion order; anyone else sees none |
| Routes.ListRestaurants | server/routes.ts:132-149 | a super admin sees all restaurants; anyone else sees exactly the restaurant its restaurant id names when that one is stored, and nothing when it is not stored or there is no restaurant id |
| Routes.ListDishes | server/routes.ts:218-237 | a truthy query gives exactly the stored dishes of that restaurant, in insertion order, to any caller; otherwise a super admin sees all, an owner exactly its own restaurant's, anyone else none |
| Routes.PostOrder | server/routes.ts:304-322 | a rejected body stores and broadcasts nothing; otherwise the order is created, and only then is `new_order` sent to that restaurant's open subscribers |
| Routes.PatchOrder | server/routes.ts:324-351 | a missing order or an unauthorised caller changes nothing and broadcasts nothing; otherwise the merged order is stored and `order_updated` goes to the updated order's restaurant |
| Routes.PostRestaurant | server/routes.ts:36-174 | behind the `requireSuperAdmin` gate (`RequireSuperAdmin`, lines 36-41) of the route at lines 163-174: a caller that is not a super admin is refused and nothing is stored; a super admin with an invalid body gets a validation error and nothing is stored; with a valid body the new restaurant is stored under its id |
| Routes.SubscribeTwiceThenClose | server/routes.ts:55-84 | after subscribing to A, then B, then closing, the connection is in A's set, not in B's, and not open |
| Routes.ResubscribeThenClose | server/routes.ts:55-98 | the closed connection stays in A's set, and a later broadcast to A sends it nothing beyond its two acknowledgements |
| Routes.TwoSubscribers | server/routes.ts:55-72 | two connections subscribed to different restaurants are each the only target of their own restaurant |
| Routes.FanOut | server/routes.ts:88-98 | an order for the first restaurant reaches the first subscriber after its acknowledgement and does not reach the other |
| Routes.IgnoredMessages | server/routes.ts:55-72 | unparseable text, a subscribe without a restaurant id, one with an empty id, and a message of another kind leave nothing sent and nobody subscribed |
| Socket.InsertHandler | client/src/lib/socket.ts:62-67 | `on` adds the handler once: an already registered handler leaves the set as it was, a new one goes last |
| Socket.RemoveHandler | client/src/lib/socket.ts:69-74 | `off` removes exactly that handler and keeps the others in order |
| Socket.InsertTwice | client/src/lib/socket.ts:66 | registering the same handler twice leaves a single entry |
| Socket.RemoveUndoesInsert | client/src/lib/socket.ts:62-74 | `off` after `on` of a handler that was not registered gives the set back |
| Socket.Runs | client/src/lib/socket.ts:79 | handlers run in registration order up to and including the first that throws; all run when none throws |
| Socket.RunsAll | client/src/lib/socket.ts:79 | with no handler throwing, every registered handler runs |
| Socket.RunsIs | client/src/lib/socket.ts:79 | the dispatch loop stops exactly after the number of handlers `Runs` names |
| Socket.Calls | client/src/lib/socket.ts:76-81 | the calls a dispatch makes are the running handlers, each with the parsed message |
| Socket.Transmission | client/src/lib/socket.ts:56-60 | something is transmitted iff there is a socket and it is OPEN; then exactly the one serialised message |
| Socket.Schedule | client/src/lib/socket.ts:83-92 | a reconnect timer is set only while fewer than five retries were made |
| Socket.SocketService.constructor | client/src/lib/socket.ts:2-6 | a service starts with no socket, no retries and no handlers |
| Socket.SocketService.Connect | client/src/lib/socket.ts:8-46 | creates a connecting socket for the restaurant, or, when the constructor throws, schedules a reconnect; the counter and timers move as one `handleReconnect` in `RetryStep` when it throws; a connect from idle starts a single chain |
| Socket.SocketService.HandleReconnect | client/src/lib/socket.ts:83-93 | adds a timer only below the retry bound |
| Socket.SocketService.Send | client/src/lib/socket.ts:56-60 | sends only through a current socket that is OPEN |
| Socket.SocketService.OnOpen | client/src/lib/socket.ts:15-23 | the socket becomes OPEN and the counter is reset to zero; for a truthy restaurant id a `subscribe` goes through the CURRENT socket when that one is OPEN, which need not be the socket that opened, and otherwise nothing is sent; the counter and timers move as `RetryStep` says; a single chain stays single |
| Socket.SocketService.OnMessage | client/src/lib/socket.ts:25-32 | a parsed message runs the handlers of its type, in order, until one throws; an unparseable message or an unknown type runs none |
| Socket.SocketService.OnClose | client/src/lib/socket.ts:34-37 | the socket is closed and a reconnect is scheduled below the bound, with the restaurant id that socket was made for; the counter and timers move as `RetryStep` says; a single chain stays single |
| Socket.SocketService.TimerFire | client/src/lib/socket.ts:85-89 | the counter goes up by one before the service connects again, as `RetryStep` says for a fired timer; a single chain stays single |
| Socket.SocketService.Disconnect | client/src/lib/socket.ts:48-54 | the socket is dropped and closed and all handlers are cleared; pending timers and the counter are kept; a single chain stays single |
| Socket.SocketService.On | client/src/lib/socket.ts:62-67 | the event's set gains the handler |
| Socket.SocketService.Off | client/src/lib/socket.ts:69-74 | removes the handler from the event's set; a no-op for an event without a set |
| Socket.AlwaysFailing | client/src/lib/socket.ts:83-93 | when every socket closes before opening, the service retries exactly five times and creates six sockets |
| Socket.Replay | client/src/lib/socket.ts:8-93 | for any sequence of calls and browser events, as long as `connect` is only called while no socket is live and no retry is pending (in particular when it is called at most once, first), the retry counter never exceeds five |
| Socket.TwoChainsOvershoot | client/src/lib/socket.ts:83-93 | two `connect` calls whose sockets never open drive the shared counter to six |
| Socket.RoundRaises | client/src/lib/socket.ts:83-93 | one round of two closes and two timers raises the counter by two as written, and never past five with the bound also tested at fire time |
| Socket.RetryOvershoot | client/src/lib/socket.ts:83-93 | three such rounds take the counter to six as written, and to five with the bound tested at fire time |
| Socket.CheckedRetryBound | client/src/lib/socket.ts:83-93 | with the bound also tested when a timer fires, no history takes the counter past five |
| Socket.CheckedAgreesWithinBound | client/src/lib/socket.ts:83-93 | the fire-time test changes nothing in a history whose counter stays within five as written |
| Socket.SubscribeOnOpen | client/src/lib/socket.ts:15-23 | opening sends exactly one `subscribe` for a truthy restaurant id and nothing otherwise |
| Socket.StaleOpenSendsNothing | client/src/lib/socket.ts:15-23 | after `connect` is called twice, the first socket opening sends no `subscribe`, because the current socket is the second one, still connecting |
| Socket.DisconnectThenClose | client/src/lib/socket.ts:34-54 | after `disconnect`, the close event still schedules a reconnect, and firing it creates a new socket; the handlers stay cleared |
| Socket.ThrowStopsRest | client/src/lib/socket.ts:79 | when the first of two handlers throws, the second is not called; when none throws, both are |
| Socket.OpenWithTwoHandlers | client/src/lib/socket.ts:15-67 | a service with two handlers for `new_order` over an OPEN socket, none run yet |
| OrderedMap.Put | storage.ts:177 | after `set`, the key reads the new value and every other key reads as before; a new key goes last |
| OrderedMap.Delete | storage.ts:191 | `delete` reports whether the key was present and afterwards the key is absent; every other key is kept |
| OrderedMap.Values | storage.ts:161 | `values()` lists the entries in key insertion order |
| OrderedMap.ValueListed | storage.ts:161 | every stored value appears in `values()` |
| Storage.QrSlug | storage.ts:173 | the QR code is the lower-cased name with each whitespace run replaced by `-`, then `-`, then the fresh id |
| Storage.QrSlugLowerCase | storage.ts:173 | the name part of the QR code has no upper-case letter |
| Storage.NewUser | storage.ts:139-153 | a new user carries the given fields, the hashed password, its restaurant id and the creation time |
| Storage.NewRestaurant | storage.ts:164-179 | a new restaurant is enabled unless the body says false, and carries the QR slug |
| Storage.NewDish | storage.ts:207-224 | a new dish is available unless the body says false |
| Storage.NewOrder | storage.ts:252-267 | a new order is pending unless a status is given; created and updated at the same time |
| Storage.MergeRestaurant | storage.ts:181-188 | every field the patch carries (id, name, description, cuisine, image, isEnabled, qrCode, ownerId) takes the patch's value, every field it lacks keeps the stored value; `createdAt` is kept; an empty patch changes nothing |
| Storage.MergeDish | storage.ts:226-233 | every field the patch carries (id, name, description, price, image, glbModel, usdzModel, ingredients, restaurantId, isAvailable) takes the patch's value, every field it lacks keeps the stored value; `createdAt` is kept; an empty patch changes nothing |
| Storage.MergeOrder | storage.ts:269-276 | every field the patch carries (id, restaurantId, tableNumber, items, totalAmount, status, specialInstructions) takes the patch's value, every field it lacks keeps the stored value; `createdAt` is kept and `updatedAt` is set to now |
| Storage.MergeIdempotent | storage.ts:181-276 | applying the same patch twice is applying it once |
| Storage.MemStorage.constructor | storage.ts:34-44 | the store starts with four empty maps |
| Storage.MemStorage.GetUserByUsername | storage.ts:135-137 | returns a user with that username, the first in insertion order, and none iff no user has it |
| Storage.MemStorage.CreateUser | storage.ts:139-153 | the new user is stored under its id and read back by it; other users are unchanged |
| Storage.MemStorage.CreateRestaurant | storage.ts:164-179 | the new restaurant is stored under its id and read back by it; other restaurants are unchanged |
| Storage.MemStorage.UpdateRestaurant | storage.ts:181-188 | a missing id returns nothing and changes nothing; otherwise the merged record replaces the old one |
| Storage.MemStorage.DeleteRestaurant | storage.ts:190-192 | returns true iff the id was present; afterwards it is absent |
| Storage.MemStorage.GetDishesByRestaurant | storage.ts:199-201 | exactly the stored dishes with that restaurant id, in insertion order |
| Storage.MemStorage.CreateDish | storage.ts:207-224 | the new dish is stored under its id and read back by it; other dishes are unchanged |
| Storage.MemStorage.UpdateDish | storage.ts:226-233 | a missing id returns nothing and changes nothing; otherwise the merged record replaces the old one |
| Storage.MemStorage.DeleteDish | storage.ts:235-237 | returns true iff the id was present; afterwards it is absent |
| Storage.MemStorage.GetOrdersByRestaurant | storage.ts:244-246 | exactly the stored orders with that restaurant id, in insertion order |
| Storage.MemStorage.CreateOrder | storage.ts:252-267 | the new order is stored under its id and read back by it; other orders are unchanged |
| Storage.MemStorage.UpdateOrder | storage.ts:269-276 | a missing id returns nothing and changes nothing; otherwise the merged order, with a new `updatedAt`, replaces the old one |
| MenuPage.IncrementLine | client/src/pages/menupage.tsx:48-52 | the line with that dish id gains one; every other line is kept |
| MenuPage.AddToCart | client/src/pages/menupage.tsx:44-56 | a dish already in the cart raises only its own quantity; a new dish is appended with quantity one; ids stay unique and the cart grows by at most one |
| MenuPage.AddToCartCount | client/src/pages/menupage.tsx:44-107 | with unique ids, each add raises the cart button's count by exactly one |
| MenuPage.AddTwice | client/src/pages/menupage.tsx:44-56 | adding the same dish twice to an empty cart gives one line of quantity two |
| CartPage.UpdateQuantity | client/src/pages/cartpage.tsx:25-33 | only lines with that id change, to `max(1, q + change)`; length and order are kept |
| CartPage.PlusThenMinus | client/src/pages/cartpage.tsx:25-33 | plus then minus gives the cart back |
| CartPage.MinusAtOne | client/src/pages/cartpage.tsx:29 | minus on a quantity of one keeps it at one |
| CartPage.PlusRaisesTotal | client/src/pages/cartpage.tsx:25-106 | with unique ids, plus on a line raises the total by that line's price |
| CartPage.PlaceOrder | client/src/pages/cartpage.tsx:35-49 | no insert iff the restaurant id is missing or the cart is empty; otherwise the whole cart as a pending order |
| CustomerMenu.NextIndex | client/src/pages/admin/menu.tsx:147 | the next index is one further, wrapping from the last to the first, and stays in range |
| CustomerMenu.PreviousIndex | client/src/pages/admin/menu.tsx:141 | the previous index is one back, wrapping from the first to the last, and stays in range |
| CustomerMenu.NextPreviousInverse | client/src/pages/admin/menu.tsx:140-150 | next and previous undo each other |
| CustomerMenu.OnNextDish | client/src/pages/admin/menu.tsx:146-150 | moving on also resets the quantity to one and clears the note |
| CustomerMenu.OnPreviousDish | client/src/pages/admin/menu.tsx:140-144 | moving back also resets the quantity to one and clears the note |
| CustomerMenu.Minus | client/src/pages/admin/menu.tsx:497 | the quantity never goes below one |
| CustomerMenu.MinusUndoesPlus | client/src/pages/admin/menu.tsx:497-509 | minus undoes plus |
| CustomerMenu.CurrentDish | client/src/pages/admin/menu.tsx:137 | there is a current dish iff the index is in range |
| CustomerMenu.SizeLabel | client/src/pages/admin/menu.tsx:166-171 | a dish has no size label exactly when its size is large; otherwise the label is the capitalised size followed by " size" |
| CustomerMenu.ExpectedNoteEmpty | client/src/pages/admin/menu.tsx:166-183 | the line carries no note iff the size is large, the typed note is blank and no cheese was chosen |
| CustomerMenu.ComposedNote | client/src/pages/admin/menu.tsx:163-176 | the step-by-step composition equals size label, typed note and "Extra cheese", those present, joined by ", " |
| CustomerMenu.PriceAndNote | client/src/pages/admin/menu.tsx:162-176 | family size adds eight to the price, other sizes leave it; the note is the joined parts |
| CustomerMenu.AddToOrder | client/src/pages/admin/menu.tsx:152-198 | without a current dish or with a blank table nothing changes; otherwise exactly one composed line is appended and the options are reset |
| CustomerMenu.TotalValueAppend | client/src/pages/admin/menu.tsx:138 | appending a line raises the total by its price times its quantity |
| CustomerMenu.PlaceOrder | client/src/pages/admin/menu.tsx:200-225 | refused iff the table is blank or there are no lines; otherwise the trimmed table, the lines, their total and the trimmed note, none when blank |
| RealtimeOrders.OnInsert | client/src/pages/Admindashboard.tsx:33-37 | an insert for the dashboard's restaurant goes first and the rest follow unchanged; any other leaves the list |
| RealtimeOrders.OnInsertKeepsRestaurant | client/src/pages/Admindashboard.tsx:22-37 | the list only ever holds the dashboard restaurant's orders |
| RealtimeOrders.MarkCompleted | client/src/pages/Admindashboard.tsx:63-76 | on failure the list is kept; otherwise the rows with that id become completed and every other row, the length and the order are kept |
| RealtimeOrders.MarkCompletedIdempotent | client/src/pages/Admindashboard.tsx:63-76 | marking twice is marking once |
| RealtimeOrders.MarkCompletedKeepsRestaurant | client/src/pages/Admindashboard.tsx:70-74 | marking keeps the list to the dashboard's restaurant |
| RealtimeOrders.InsertThenComplete | client/src/pages/Admindashboard.tsx:33-76 | an order that arrives and is then marked is shown completed at the top |
| AdminDashboard.FilterRestaurants | client/src/pages/admin/dashboard.tsx:58-61 | the result is an order-preserving sublist holding exactly the restaurants whose lower-cased name, or cuisine when present, contains the lower-cased term |
| AdminDashboard.EmptyTermKeepsAll | client/src/pages/admin/dashboard.tsx:58-61 | an empty term keeps every restaurant |
| AdminDashboard.SearchIgnoresTermCase | client/src/pages/admin/dashboard.tsx:59-60 | the case of the search term does not matter |
| AdminDashboard.DishCount | client/src/pages/admin/dashboard.tsx:470 | a row's dish count is at most the number of dishes |
| AdminDashboard.DishCountAppend | client/src/pages/admin/dashboard.tsx:470 | one more dish raises a restaurant's count by one iff it belongs to that restaurant |
| AdminDashboard.DashboardStats | client/src/pages/admin/dashboard.tsx:101-105 | every restaurant counts as active; active dishes never exceed all dishes and equal them iff every dish is available |
| AdminDashboard.StatusBadgeAsWritten | client/src/pages/admin/dashboard.tsx:473-479 | the badge reads Active unless the flag is exactly false, but is styled as active only when it is exactly true |
| AdminDashboard.UnsetFlagMixedBadge | client/src/pages/admin/dashboard.tsx:474-478 | an unset flag shows "Active" in the inactive style |
| AdminDashboard.StatusBadge | client/src/pages/admin/dashboard.tsx:473-479 | the badge reads Active unless the flag is exactly false, and its style agrees with its text |
| AdminDashboard.BadgeAgreesWhenSet | client/src/pages/admin/dashboard.tsx:473-479 | for a set flag the corrected badge and the written one agree |
| AdminDashboard.RestaurantRow | client/src/pages/admin/dashboard.tsx:450-480 | a row shows the cuisine or "Various" and the restaurant's dish count; its badge reads Active unless the flag is exactly false, and is styled active only when the flag is exactly true, as the page draws it |
| AdminDashboard.Rows | client/src/pages/admin/dashboard.tsx:450 | one row per restaurant that matches the search, in order |
| OwnerDashboard.TimeAgo | client/src/pages/dashboard.tsx:130-138 | the bucket is "just now" under a minute, minutes under an hour, hours under a day and days after, with each count the floor of the elapsed time in its unit |
| OwnerDashboard.FloorTwice | client/src/pages/dashboard.tsx:132-137 | flooring minutes into hours and hours into days equals flooring the milliseconds directly |
| OwnerDashboard.TimeAgoBoundaries | client/src/pages/dashboard.tsx:133-137 | 59 minutes gives "59 min ago", 60 minutes "1h ago", 24 hours "1d ago", and just under a minute "Just now" |
| OwnerDashboard.RenderInjective | client/src/pages/dashboard.tsx:133-137 | different elapsed buckets never render as the same label |
| OwnerDashboard.RenderShape | client/src/pages/dashboard.tsx:133-137 | a label is "Just now" or a number followed by its unit suffix |
| OwnerDashboard.StatusCounts | client/src/pages/dashboard.tsx:141-143 | the pending, accepted and completed counts together are at most the number of orders |
| OwnerDashboard.OfferedActions | client/src/pages/dashboard.tsx:315-352 | a pending order offers reject and accept, an accepted one complete, any other none; nothing leads back to pending |
| OwnerDashboard.AtMostTwoClicks | client/src/pages/dashboard.tsx:315-352 | two offered clicks in a row can only be accept then complete, after which nothing is offered |
| Auth.NormalizeUsername | client/src/lib/auth.ts:60 | the looked-up name is the lower-casing, character by character, of the name with its leading and trailing whitespace removed; it has no whitespace at either end |
| Auth.NormalizeIdempotent | client/src/lib/auth.ts:60 | normalising twice is normalising once |
| Auth.CheckCredentials | client/src/lib/auth.ts:11-61 | sign-in succeeds iff the normalised name is a known account and the password matches exactly; then that account's user |
| Auth.PaddedAdminAccepted | client/src/lib/auth.ts:60-61 | " ADMIN " with the admin password signs in as the admin |
| Auth.PasswordCaseMatters | client/src/lib/auth.ts:61 | the password is compared without case folding |
| Auth.CurrentUser | client/src/lib/auth.ts:74-87 | a user is returned iff a user record is stored under `dev_auth_user`; then that user |
| Auth.AfterRead | client/src/lib/auth.ts:78-83 | reading removes a stored value that is neither a user record nor a blank marker, and keeps everything else |
| Auth.ReadTwice | client/src/lib/auth.ts:74-87 | a second read changes nothing more and returns the same user |
| Auth.StoredUserReadBack | client/src/lib/auth.ts:62-80 | a stored user is read back and the store is kept |
| Auth.AuthService.constructor | client/src/lib/auth.ts:56 | the service works over the given store |
| Auth.AuthService.Login | client/src/lib/auth.ts:57-68 | returns the credential check's result; success stores the user under the key, failure leaves the store |
| Auth.AuthService.Logout | client/src/lib/auth.ts:70-72 | removes exactly the key |
| Auth.AuthService.GetCurrentUser | client/src/lib/auth.ts:74-87 | returns the stored user and removes an unreadable stored value |
| Auth.SignInRoundTrip | client/src/lib/auth.ts:57-87 | after a successful login the current user is the signed-in user; after logout there is none |
| Text.Trim | client/src/lib/auth.ts:60 | `trim()`: the result is a slice of the input with only whitespace before and after it, and it has no whitespace at either end |
| Text.TrimBlank | client/src/pages/admin/menu.tsx:153 | a string trims to empty iff it is all whitespace |
| Text.TrimIdempotent | client/src/pages/admin/menu.tsx:221 | trimming twice is trimming once |
| Text.Lower | client/src/lib/auth.ts:60 | `toLowerCase()` maps each character, keeping the length |
| Text.LowerIdempotent | client/src/pages/admin/dashboard.tsx:59-60 | lower-casing twice is lower-casing once |
| Text.Capitalize | client/src/pages/admin/menu.tsx:168 | the first character upper-cased and the rest kept |
| Text.Contains | client/src/pages/admin/dashboard.tsx:59-60 | `includes` holds iff the term occurs at some position |
| Text.ContainsEmpty | client/src/pages/admin/dashboard.tsx:59-60 | every string contains the empty term |
| Text.DashRuns | storage.ts:173 | `replace(/\s+/g, '-')`: no whitespace remains and the string never grows |
| Text.DashRunsSplit | storage.ts:173 | a run of whitespace becomes exactly one dash |
| Text.NatToStringValue | client/src/pages/dashboard.tsx:134-137 | the decimal digits of a count read back as that count |
| Text.NatToStringInjective | client/src/pages/dashboard.tsx:134-137 | different counts print differently |

## Left out

- Express routing plumbing, HTTP status codes and the 500 paths, zod validation internals (a POST body is modelled as already validated or rejected), JWT verification and bcrypt hashing (the caller is a parameter, the hashed password an argument).
- The three PATCH routes pass `req.body` to `update*` without validation (server/routes.ts:176-180, 262-266, 334-338), so the code stores an off-enum `status` or a wrongly typed field as given; the typed `*Patch` records here can carry neither, so the model does not represent that case.
- `POST /api/auth/login`, `GET /api/auth/me`, the QR-image route and the restaurant and dish PATCH/DELETE routes: no logic beyond the storage calls modelled in `Storage.MemStorage`.
- The real `ws` server, browser `WebSocket`, `setTimeout` and the reconnect interval's timing. Connections are identities with an OPEN flag, and timers are a queue fired by `TimerFire`.
- The `onerror` callback (logging only) and the console output.
- `JSON.stringify`/`JSON.parse` internals. A frame is the serialisation of a message or text that does not parse.
- Socket.SocketService.OnMessage: the parsed message is a `Protocol.Envelope` with `type`, `restaurantId` and `order`; other JSON members are not represented.
- Auth.AuthService.GetCurrentUser: a stored text value that is neither blank nor a user record is treated as text `JSON.parse` rejects. A stored JSON text that parses but is not a user is not represented.
- Auth.AfterRead: the same restriction as `GetCurrentUser`.
- The optional `extra` member of the auth `User` type. Also `AuthService.getUser`, which the dashboards call but `auth.ts` does not define.
- Floating point. `parseFloat`, `toFixed(2)` and the revenue sums are not modelled; prices are integer cents, and the family surcharge is 800 cents.
- `toLowerCase`/`toUpperCase` change only the ASCII letters here, not the rest of Unicode. `trim` uses the JavaScript whitespace set, with line terminators included.
- Storage.MergeRestaurant: `createdAt` cannot be patched, because the patch record has no `createdAt` field; every other field can.
- Storage.MergeDish: `createdAt` cannot be patched, as for restaurants.
- Storage.MergeOrder: `createdAt` cannot be patched, as for restaurants.
- The store's seed data (the demo restaurants, owners and dishes), because it is fixed data that no operation depends on.
- `lib/demoRestaurants` is not part of this model. The super-admin dashboard's restaurants are `Schema.Restaurant` records and its dishes the demo-dish shape.
- The Supabase calls: the dashboard's `fetchOrders` query, the cart's insert and the remote update before "mark as completed". The last one's failure is the `failed` parameter.
- React rendering, styling other than the restaurant status badge's variant, toasts, the AR viewer and the three.js scene, because they draw the state the model computes.
- The other pages, which only wrap remote calls, and the routing and configuration files.

## Findings

| source | as written | input that shows it | evidently intended | confidence | as-written member | corrected member |
|---|---|---|---|---|---|---|
| client/src/pages/admin/dashboard.tsx:474-478 | the badge text tests `isEnabled !== false` but its variant and class test `isEnabled` for truthiness | a restaurant whose `isEnabled` is null shows "Active" in the secondary (inactive) style | the style agrees with the text: Active is shown in the active style | not executed; medium | AdminDashboard.StatusBadgeAsWritten, AdminDashboard.UnsetFlagMixedBadge | AdminDashboard.StatusBadge |
| client/src/lib/socket.ts:83-89 | the bound is tested when `handleReconnect` sets a timer, and the one shared counter is raised when any timer fires | `connect` called again while the first socket is still connecting, against a server that never accepts; the two chains take the counter to six retries without an open | at most five retries between successful opens | not executed; low | Socket.TwoChainsOvershoot, Socket.RetryOvershoot | Socket.CheckedRetryBound, Socket.CheckedAgreesWithinBound |

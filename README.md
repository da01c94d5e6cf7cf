# Delivery management system: a Dafny model of its API handlers and client logic

This project models the core of a small delivery-management web app (Next.js, TypeScript) and proves properties of that model. In the app, an admin creates orders and driver accounts and assigns available drivers to pending orders. Each assignment creates a delivery record. A driver then moves the delivery through its statuses. A JSON document store (json-server on port 3001) holds the users, orders and deliveries.

The model covers:

- **The API handlers.**
  - Login and registration.
  - Listing and creating orders.
  - Assigning a driver to an order.
  - Listing deliveries.
  - Listing, creating and deleting drivers.
  - The rate-limited admin dashboard.
  - The health check.

  Each handler is a function or a method over a `Store` class. The class holds the three collections as sequences in insertion order. Each handler returns a `Reply`, which is an HTTP status plus a body.
- **The library code.** This is the bearer-token helpers and the two authentication gates built on them, the fixed-window `RateLimiter` class, and the two status-to-colour maps.
- **The `useApi` hook.** Its TTL cache, its cache-key rule, and its `data`/`loading`/`error` state.
- **The pure logic of the client pages:**
  - the sort controls and sorted views of the admin orders, admin drivers and status pages;
  - the status page's counts and badges;
  - the driver's offered status changes and the request each one sends;
  - the API debugger's request log.

Some things are parameters in the model:

- **The store's answers.** A list GET filtered by a query string returns a parameter, and the model states which URL was sent. Ids given to new records are parameters too.
- **The clock** (`now`).
- **The network outcome** of each client request.
- **`jwt.verify`.** It is the map `tokens` from every token the signing key would accept to its claims. The map fails closed: any other string is rejected.
- **`bcrypt` on foreign texts.** A stored password is `Digest(p)`, the hash `bcrypt.hash` made of `p`, or `Clear(t)`, a text stored as it was sent. The model computes the 72 bytes of key material bcryptjs takes from a password: its UTF-8 bytes and a zero byte, repeated to 72 bytes. Two passwords match a digest alike exactly when their key material agrees. A stored text whose JavaScript length is not 60 never matches. That length counts UTF-16 code units, so a character outside the Basic Multilingual Plane counts twice (`Bcrypt.Utf16Length`). For a `Clear` text of length 60, the answer of bcryptjs depends on the salt and cost it parses from the text, so it is the parameter `rehash`: a match, a mismatch, or an exception.

An id that the store does not hold is answered with 404. Axios turns that into an exception, and each handler turns the exception into a 500, so the model answers 500. The model looks ids up as exact text. The handlers put an id into the store's URL path without encoding it, so the store sees the same id only when the id holds no `?`, `#`, `/` or `%`; other ids are listed under "## Left out".

Some behaviour of the code as written, which the model keeps:

- **Deleting a driver.** The id is read from the query string of `DELETE /api/drivers?id=…`, not from a path segment.
- **Creating a driver.** A password is required; a missing one is a 400. The password is stored exactly as sent, unhashed. A driver created with a password whose JavaScript length is not 60 can therefore never log in (`DriversRoute.CreatedDriverLockedOut`). A driver whose password was sent as a bcrypt hash of `p` logs in with `p` (`DriversRoute.CreatedWithHashLogsIn`).
- **Logging in.** Only the first 72 bytes of a password count (`LoginRoute.LongPasswordLogin`). A stored text of length 60 that bcryptjs cannot parse makes the login answer 500 (`LoginRoute.MalformedHashIs500`).
- **Registration.** The role is any non-empty text.
- **Assignment.** A missing driver or order is a 500, not a "not found" error.
- **Dashboard.** It is rate limited (429) before it checks the token.
- **Listing deliveries.** No ownership check is made. A driver token can list another driver's deliveries (`DeliveriesRoute.NoOwnershipCheck`).

## Model

| member | source | states |
|---|---|---|
| Auth.TokenFromHeader | src/lib/auth.ts:26-31 | a token exists exactly when the header is present and starts with the case-sensitive `Bearer `; the header is then `Bearer ` followed by that token |
| Auth.HeaderRoundTrip | src/lib/axios.ts:19 | the header the client sends always yields back the token it was built from |
| Auth.NoTokenWithoutPrefix | src/lib/auth.ts:27-29 | a missing or empty header, or one without the prefix, gives no token |
| Auth.Verify | src/lib/auth.ts:18-24 | decodes claims exactly for the tokens the signing key accepts, and fails closed on every other string |
| Auth.PresentedToken | src/app/api/orders/route.ts:8-15 | the token a handler accepts is non-empty and came from a `Bearer ` header; `Bearer ` alone counts as no token |
| Auth.BareBearerIsMissing | src/app/api/orders/route.ts:10-15 | the header `Bearer ` extracts the empty token, which the handlers treat as missing |
| Auth.ReadGate | src/app/api/orders/route.ts:8-23 | read routes: no token gives 401 "Unauthorized", an unverifiable token gives 401 "Invalid token", and any verified token passes whatever its role, with its claims |
| Auth.AdminGate | src/app/api/orders/route.ts:54-69 | admin routes: no token gives 401; an invalid or non-admin token gives 403 "Admin access required"; it passes exactly for verified admin tokens |
| Auth.GatesOnInvalidToken | src/app/api/orders/route.ts:17-23 | on an invalid token the read gate answers 401 and the admin gate 403; whatever passes the admin gate passes the read gate with the same claims |
| Auth.DriverTokenGates | src/app/api/orders/assign/route.ts:17-23 | a valid non-admin token passes the read gate and is refused with 403 by the admin gate |
| DocumentStore.UserIndex | src/app/api/orders/assign/route.ts:40-41 | `GET /users/{id}` finds the first user with that id, or there is none |
| DocumentStore.OrderIndex | src/app/api/orders/assign/route.ts:50-51 | `GET /orders/{id}` finds the first order with that id, or there is none |
| DocumentStore.OrderById | src/app/api/deliveries/route.ts:52-53 | the order returned is a stored order with the requested id, and one is returned exactly when such an order exists |
| DocumentStore.OrderIndexAfterPatch | src/app/api/orders/assign/route.ts:60-64 | patching a record without changing its id leaves every lookup by id where it was |
| DocumentStore.WithoutUser | src/app/api/drivers/route.ts:143 | `DELETE /users/{id}` removes exactly the record `GET /users/{id}` answers with; the others stay, in their order |
| DocumentStore.DeleteKeepsOtherLookups | src/app/api/drivers/route.ts:143 | after the deletion, every other id is found exactly when it was before, and finds the same record |
| DocumentStore.DeleteUniqueId | src/app/api/drivers/route.ts:143 | when ids are unique, no user with the deleted id remains and ids stay unique |
| DocumentStore.Store.PatchOrder | src/app/api/orders/assign/route.ts:60-64 | replaces one order in place and leaves the users and deliveries unchanged |
| DocumentStore.Store.PostOrder | src/app/api/orders/route.ts:93 | appends the order and leaves the other collections unchanged |
| DocumentStore.Store.PostDelivery | src/app/api/orders/assign/route.ts:67-76 | appends the delivery and leaves the other collections unchanged |
| DocumentStore.Store.PostUser | src/app/api/auth/register/route.ts:44 | appends the user and leaves the other collections unchanged |
| DocumentStore.Store.DeleteUser | src/app/api/drivers/route.ts:143-147 | reports success exactly when a user has the id, and then the users are those of `WithoutUser`; otherwise nothing changes. Orders and deliveries are never changed |
| AssignRoute.Rejection | src/app/api/orders/assign/route.ts:8-57 | the request passes exactly when the token is a verified admin's, both ids are truthy, the driver exists with role `driver` and is available, and the order exists and is pending. The checks come in that order: a refused token gets the gate's 401 or 403, then missing ids get 400, then a missing driver 500 and an unqualified one 400 |
| AssignRoute.AssignedOrder | src/app/api/orders/assign/route.ts:59-64 | the patch sets status `assigned`, the driver id and the update time, and changes no other field |
| AssignRoute.Assign | src/app/api/orders/assign/route.ts:6-93 | a refused request writes nothing; otherwise the order is patched, and then one pending delivery is appended. If that insert throws, the order stays assigned with no delivery and the reply is 500. The users are never written |
| AssignRoute.MissingIdsBeforeLookup | src/app/api/orders/assign/route.ts:28-33 | for an admin, a missing or falsy id is a 400 whatever the store holds |
| AssignRoute.DriverCheckedFirst | src/app/api/orders/assign/route.ts:39-47 | an unavailable driver is reported before the order is looked at, even when the order does not exist |
| AssignRoute.OnlyPendingOrders | src/app/api/orders/assign/route.ts:49-57 | once the driver qualifies, an existing order is accepted exactly when it is pending, and otherwise refused with "Order is not available for assignment" |
| AssignRoute.NoSecondAssignment | src/app/api/orders/assign/route.ts:49-64 | after a successful assignment, another assignment of the same order is refused, for any driver |
| AssignRoute.DeliveryReferencesAssignedOrder | src/app/api/orders/assign/route.ts:59-76 | the new delivery refers to an order that is now assigned to that same driver; the delivery is pending with null pickup and delivery times |
| OrdersRoute.ListOrders | src/app/api/orders/route.ts:6-50 | after the read gate, the store URL carries `status` and `q` (from `search`) when present, in that order, and the store's list is answered as is |
| OrdersRoute.OrderFilters | src/app/api/orders/route.ts:29-37 | the two filters become the pairs `status` then `q`; with neither, the URL has no `?` |
| OrdersRoute.NewOrder | src/app/api/orders/route.ts:81-91 | a new order is pending, unassigned, stamped with the clock, and carries the five fields as given |
| OrdersRoute.CreateOrder | src/app/api/orders/route.ts:52-103 | admin only; a missing field gives 400 and writes nothing; otherwise exactly the new order is appended and answered with 201 |
| OrdersRoute.CreateOrderGate | src/app/api/orders/route.ts:54-69 | creating an order answers 401 without a token and 403 for a bad or non-admin token |
| OrdersRoute.ZeroValueIsMissing | src/app/api/orders/route.ts:74-79 | an `orderValue` of 0 is rejected like a missing field |
| DeliveriesRoute.Enrich | src/app/api/deliveries/route.ts:49-57 | each delivery gets its own order attached, in order; it fails exactly when some referenced order is missing |
| DeliveriesRoute.ListDeliveries | src/app/api/deliveries/route.ts:5-68 | after the read gate, the store URL carries `driverId` and `status` when present, and the reply depends only on the caller's role and the filter |
| DeliveriesRoute.DriverGetsOrders | src/app/api/deliveries/route.ts:48-57 | a driver asking with a `driverId` gets every delivery, in order, each with the order it refers to |
| DeliveriesRoute.OthersGetListAsFetched | src/app/api/deliveries/route.ts:60 | any other caller gets the store's list unchanged |
| DeliveriesRoute.NoOwnershipCheck | src/app/api/deliveries/route.ts:24-57 | a driver token may list another driver's deliveries with their orders |
| DriversRoute.StripAll | src/app/api/drivers/route.ts:36-40 | the list keeps its order and length, and each record loses exactly its password |
| DriversRoute.ListDrivers | src/app/api/drivers/route.ts:5-50 | after the read gate, only `available=true` exactly adds `&isAvailable=true` to `users?role=driver`; the answer has no passwords |
| DriversRoute.OrEmpty | src/app/api/drivers/route.ts:85-87 | `value \|\| ''`: the value when it is truthy, otherwise the empty text |
| DriversRoute.NewDriverDefaults | src/app/api/drivers/route.ts:82-92 | a new driver is available; phone, vehicle and licence default to `''`; the role and the password are taken from the body as given |
| DriversRoute.CreatedDriverLockedOut | src/app/api/drivers/route.ts:88 | a user created here with a password whose JavaScript length (UTF-16 code units) is not 60 cannot log in with any password, because the password is stored unhashed |
| DriversRoute.CreatedWithHashLogsIn | src/app/api/drivers/route.ts:88 | a user created here with a password that is a bcrypt hash of `p`, of JavaScript length 60, logs in with `p`, as that user |
| DriversRoute.CreateDriver | src/app/api/drivers/route.ts:52-112 | admin only; a missing name, email, password or role gives 400 and writes nothing; otherwise exactly the new user is appended and answered with 201, without its password |
| DriversRoute.DeleteDriver | src/app/api/drivers/route.ts:114-160 | admin only; a missing `id` gives 400. Otherwise the first user with that id is removed, the others keeping their order, and 200 is answered; the reply is 500 with nothing removed when there is no such user |
| LoginRoute.EmailIndex | src/app/api/auth/login/route.ts:28 | `find` by exact email: the first user with that email, or none when no user has it |
| LoginRoute.Login | src/app/api/auth/login/route.ts:13-66 | a missing field gives 400. The reply is 200 exactly when the first user with the email has a stored password that `bcrypt.compare` matches, and then it is that user without the password plus a token for its id and role. It is 500 exactly when that comparison throws. Every other case is 401 "Invalid credentials" |
| LoginRoute.UniformFailure | src/app/api/auth/login/route.ts:32-50 | an unknown email and a password the comparison rejects get the identical reply, 401 |
| LoginRoute.FirstMatchOnly | src/app/api/auth/login/route.ts:28 | a later user that shares an email with an earlier one cannot log in with its own password when the earlier user's password rejects it |
| LoginRoute.ClearPasswordLocksOut | src/app/api/auth/login/route.ts:40-50 | a user whose password was stored as sent, with a JavaScript length (UTF-16 code units) other than 60, is refused with 401 for every password |
| LoginRoute.StoredHashLogsIn | src/app/api/auth/login/route.ts:40-59 | a user whose stored text of JavaScript length 60 matches the password under `rehash` logs in, with that user's session |
| LoginRoute.MalformedHashIs500 | src/app/api/auth/login/route.ts:40-66 | a stored text of JavaScript length 60 on which bcryptjs throws makes the login answer 500 |
| LoginRoute.LongPasswordLogin | src/lib/auth.ts:10-12 | a user whose password encodes to 72 bytes or more also logs in with any password sharing those first 72 bytes |
| Bcrypt.Utf8Bytes | src/lib/auth.ts:11 | a text encodes to one to four bytes per character, each below 256 |
| Bcrypt.Utf16Length | src/lib/auth.ts:11 | the JavaScript length of a text is its number of characters plus one for each character outside the Basic Multilingual Plane: equal to the number of characters exactly when there is none, and at most twice it |
| Bcrypt.Utf16LengthAppend | src/lib/auth.ts:11 | the length of a concatenation is the sum of the lengths |
| Bcrypt.SurrogatePairsCountTwice | src/lib/auth.ts:11 | 58 letters and one astral character have length 60 and reach the hash parser; 59 letters and one astral character, 60 characters, have length 61 and never match |
| Bcrypt.KeyMaterial | src/lib/auth.ts:11 | the key material is 72 bytes: the first 72 bytes of the encoding when it has that many, otherwise the whole encoding followed by a zero byte |
| Bcrypt.CompareHash | src/lib/auth.ts:10-12 | against a digest the answer never throws, and it is a match exactly when the key material agrees; a stored text whose JavaScript length (UTF-16 code units) is not 60 never matches; a stored text of length 60 is answered by `rehash` |
| Bcrypt.DigestMatches | src/lib/auth.ts:6-12 | a password always matches the hash made from it |
| Bcrypt.LongPasswordsCollide | src/lib/auth.ts:10-12 | two passwords whose encodings share their first 72 bytes both match the hash of either |
| RegisterRoute.NewUser | src/app/api/auth/register/route.ts:31-41 | the password is stored as `bcrypt.hash` of the typed one, never as typed; `isAvailable` is true exactly for drivers and absent otherwise; the other fields are as given |
| RegisterRoute.Register | src/app/api/auth/register/route.ts:6-62 | a missing field gives 400, and a taken email gives 409; both write nothing. Otherwise exactly the new user is appended and answered with its session |
| LoginRoute.AppendedIsFirstMatch | src/app/api/auth/register/route.ts:22-29 | a user appended under a new email is the first match for that email |
| RegisterRoute.RegisterThenLogin | src/app/api/auth/register/route.ts:44-54 | right after registering, logging in with the same email and password returns the same session |
| RegisterRoute.RegisterKeepsEmailsUnique | src/app/api/auth/register/route.ts:18-29 | registration keeps emails unique across users |
| RateLimit.Admit | src/lib/rateLimit.ts:16-36 | only the key's entry changes. A new or expired key is allowed and starts the window `now + windowMs` at count 1. Inside the window a request is allowed exactly when the count is below the maximum, and then the count grows by one; a refusal changes nothing |
| RateLimit.AdmitKeepsBound | src/lib/rateLimit.ts:16-36 | every count stays between 1 and the maximum (at least 1) |
| RateLimit.Run | src/lib/rateLimit.ts:16-36 | a series of requests allows at most as many as were made |
| RateLimit.WindowLimit | src/lib/rateLimit.ts:25-35 | inside one window the allowed requests fill only the room the count leaves, and the entry counts each of them |
| RateLimit.AtMostMaxPerWindow | src/lib/rateLimit.ts:16-36 | from the request that opens a window until the window ends, at most `max(maxRequests, 1)` requests are allowed |
| RateLimit.Live | src/lib/rateLimit.ts:48-55 | cleanup keeps exactly the entries whose window has not passed, unchanged |
| RateLimit.CleanupInvisible | src/lib/rateLimit.ts:48-55 | cleaning up never changes a later decision or the entry that decision leaves |
| RateLimit.RateLimiter.constructor | src/lib/rateLimit.ts:11-14 | defaults are a 60000 ms window and 100 requests, and the limiter starts with no entries |
| RateLimit.RateLimiter.IsAllowed | src/lib/rateLimit.ts:16-36 | answers and updates its map exactly as `Admit` does, and keeps the count bound |
| RateLimit.RateLimiter.Remaining | src/lib/rateLimit.ts:38-42 | an unknown key has the full maximum remaining; otherwise the maximum minus the count, never below 0 |
| RateLimit.RateLimiter.Reset | src/lib/rateLimit.ts:44-46 | removes exactly the key's entry |
| RateLimit.RateLimiter.Cleanup | src/lib/rateLimit.ts:48-55 | the loop deletes exactly the expired entries: the map afterwards is `Live` of the map before |
| RateLimit.RemainingPredictsAdmit | src/lib/rateLimit.ts:30-42 | inside the window, a request is allowed exactly when something remains, and one less remains afterwards |
| DashboardRoute.ClientIp | src/app/api/dashboard/route.ts:10 | the first truthy of `x-forwarded-for` and `x-real-ip`, else `unknown`; never empty |
| DashboardRoute.LimiterKey | src/app/api/dashboard/route.ts:11 | the limiter key is `dashboard:` followed by the client address |
| DashboardRoute.CountsConsistent | src/app/api/dashboard/route.ts:45-50 | completed plus in-progress orders are at most all orders; available drivers are at most all drivers, with equality exactly when every driver is available; completed is 0 exactly when no order is delivered |
| DashboardRoute.ThrottleBeforeAuth | src/app/api/dashboard/route.ts:10-33 | a throttled client gets 429 whatever it presents. An allowed client gets 401 without a token, the statistics exactly for a verified admin token, and 403 for any other token |
| DashboardRoute.Dashboard | src/app/api/dashboard/route.ts:6-67 | the shared API limiter counts the request first; its new entries and the reply are those of the limiter's decision followed by the gate |
| HealthRoute.Service | src/app/api/health/route.ts:31-66 | a service is up exactly when its probe answered 200; an answer records the elapsed time; a thrown probe records the error's message or the fixed fallback |
| HealthRoute.Check | src/app/api/health/route.ts:26-116 | reports both services. The overall status is `ok` exactly when the database is connected and the API online, and `error` otherwise; `database` repeats the database service's status. An outer failure answers 500 with both services down and "Health check failed" |
| Colors.OrderColorsDistinct | src/lib/utils.ts:25-40 | each of the five order statuses has its own non-gray colour, and any other text is gray |
| Colors.DeliveryColorsDistinct | src/lib/utils.ts:42-59 | each of the six delivery statuses has its own non-gray colour, and any other text is gray |
| Colors.SharedColors | src/lib/utils.ts:25-59 | the two maps agree on `pending` (yellow) and `delivered` (green); the delivery status `picked_up` is gray in the order map, and the order status `assigned` is gray in the delivery map |
| DriverDeliveriesPage.OffersAreNextSteps | src/app/driver/deliveries/page.tsx:155-194 | the page offers a change exactly when it is a next step of the life cycle (pending to accepted or rejected, then picked up, on the way, delivered), and each offer moves forward |
| DriverDeliveriesPage.ActionCounts | src/app/driver/deliveries/page.tsx:155-194 | pending offers two buttons; accepted, picked up and on the way offer one each, with a note; rejected and delivered offer none |
| DriverDeliveriesPage.WalkAdvances | src/app/driver/deliveries/page.tsx:155-194 | along any run of offered changes the stage grows by at least one per change |
| DriverDeliveriesPage.WalksAreShort | src/app/driver/deliveries/page.tsx:155-194 | no status is offered again once left, and a delivery sees at most four changes |
| DriverDeliveriesPage.Update | src/app/driver/deliveries/page.tsx:47-49 | a button sends a PUT to `/api/deliveries/` followed by the id, carrying the target status name and the button's note |
| Sorting.Flip | src/app/admin/orders/page.tsx:53 | flipping always changes the direction |
| Sorting.TextLessIrreflexive | src/app/admin/orders/page.tsx:87-88 | no text sorts before itself |
| Sorting.TextLessTransitive | src/app/admin/orders/page.tsx:87-88 | `<` on texts is transitive |
| Sorting.TextLessTotal | src/app/admin/orders/page.tsx:87-88 | of two different texts one sorts before the other |
| Sorting.LessOrder | src/app/admin/orders/page.tsx:87-88 | `<` on sort keys is a strict total order |
| Sorting.CompareConsistent | src/app/admin/orders/page.tsx:87-89 | the comparator answers -1, 0 or 1, and 0 exactly on equal keys; swapping the arguments negates it, descending negates ascending, and "not after" is transitive |
| Sorting.Insert | src/app/admin/orders/page.tsx:63-90 | inserting adds exactly that element |
| Sorting.InsertSorted | src/app/admin/orders/page.tsx:63-90 | inserting into a sorted list keeps it sorted |
| Sorting.SortBy | src/app/admin/orders/page.tsx:63-90 | the sorted copy is a permutation of the list |
| Sorting.SortBySorted | src/app/admin/orders/page.tsx:63-90 | the sorted copy is ordered by the key: non-decreasing ascending, non-increasing descending |
| Sorting.InsertStable | src/app/admin/orders/page.tsx:63-90 | for a test passing only elements that share the inserted element's key, the inserted element comes first among those that pass, the others keeping their order |
| Sorting.SortByKeeps | src/app/admin/orders/page.tsx:63-90 | a test passing only elements of one key sees the same list, in the same order, before and after sorting |
| Sorting.SortByStable | src/app/admin/orders/page.tsx:63-90 | the sort is stable: for every key, the elements with that key keep their relative order |
| Sorting.EqualKeysKeepOrder | src/app/status/page.tsx:224-235 | when every pair compares 0, the sort leaves the list as it was |
| Sorting.LowerChar | src/app/admin/orders/page.tsx:68-69 | upper-case ASCII letters become lower case, and every other character is kept |
| Sorting.Lower | src/app/admin/orders/page.tsx:68-69 | lower-casing keeps the length and maps each character |
| Sorting.LowerIdempotent | src/app/admin/orders/page.tsx:68-69 | lower-casing twice is lower-casing once |
| SortControl.Toggle | src/app/admin/orders/page.tsx:51-58 | choosing the current option flips the order; choosing another option selects it in ascending order |
| SortControl.ToggleTwice | src/app/admin/orders/page.tsx:51-58 | choosing the current option twice restores the order; choosing a new option twice ends descending |
| SortControl.SortState.HandleSort | src/app/admin/orders/page.tsx:51-58 | the new option and order are those of `Toggle` |
| SortControl.SortState.Preset | src/app/admin/orders/page.tsx:287-313 | a preset button sets both the option and the order |
| AdminOrdersPage.SortedOrders | src/app/admin/orders/page.tsx:60-91 | without orders or without an option the list is returned as is; otherwise a permutation of it is returned |
| AdminOrdersPage.SortedOrdersOrdered | src/app/admin/orders/page.tsx:60-91 | a sorted view is ordered by the chosen key (lower-case customer name, status text, value, creation time) |
| AdminOrdersPage.PresetsPutLargestFirst | src/app/admin/orders/page.tsx:296-313 | "Show First (High Value)" is ordered by non-increasing value, and "Show First (Newest)" by non-increasing creation time |
| AdminOrdersPage.CaseInsensitiveNames | src/app/admin/orders/page.tsx:67-70 | customer names that differ only in letter case compare equal |
| AdminOrdersPage.NewOrdersSortState | src/app/admin/orders/page.tsx:20-21 | the page opens sorted by creation time, descending |
| AdminOrdersPage.SelectorMatchesServer | src/app/admin/orders/page.tsx:356-368 | the assign selector is shown exactly for the orders the assignment handler would accept, given an admin and a qualifying driver |
| AdminDriversPage.AvailabilityRank | src/app/admin/drivers/page.tsx:69-72 | `isAvailable \|\| false` ranks available drivers 1 and all others 0 |
| AdminDriversPage.SortedDrivers | src/app/admin/drivers/page.tsx:54-85 | without drivers or without an option the list is returned as is; otherwise a permutation of it is returned |
| AdminDriversPage.SortedDriversOrdered | src/app/admin/drivers/page.tsx:54-85 | a sorted view is ordered by the chosen key (lower-case name or email, availability, creation time) |
| AdminDriversPage.AvailableFirst | src/app/admin/drivers/page.tsx:265-273 | "Show First (Available)" puts every available driver before every other one |
| AdminDriversPage.MissingAvailabilityIsFalse | src/app/admin/drivers/page.tsx:69-72 | a missing `isAvailable` sorts exactly like `false` |
| AdminDriversPage.CaseInsensitiveNames | src/app/admin/drivers/page.tsx:61-68 | names and emails that differ only in letter case compare equal |
| AdminDriversPage.NewDriversSortState | src/app/admin/drivers/page.tsx:20-21 | the page opens sorted by creation time, descending |
| AdminDriversPage.CreationRequest | src/app/admin/drivers/page.tsx:91-95 | the create form posts its fields with role `driver` and the fixed password `defaultPassword123` |
| AdminDriversPage.DefaultPasswordLength | src/app/admin/drivers/page.tsx:91-95 | the default password's JavaScript length is 18 |
| AdminDriversPage.PageCreatedDriver | src/app/admin/drivers/page.tsx:91-95 | a driver created from the page is an available driver that cannot log in, not even with the default password, whose JavaScript length, 18, is not the 60 of a hash |
| StatusPage.StatsBounded | src/app/status/page.tsx:81-88 | active drivers, pending orders and completed deliveries are each at most the list they count, with equality exactly when every element qualifies |
| StatusPage.StatItems | src/app/status/page.tsx:215-222 | the statistics are six items in a fixed order |
| StatusPage.SortedStats | src/app/status/page.tsx:203-237 | no statistics give no list; option `none` gives the fixed order; any option gives a permutation of the six items |
| StatusPage.SortedStatsByValue | src/app/status/page.tsx:224-227 | sorted by value, the items are non-increasing descending and non-decreasing ascending |
| StatusPage.ValueOrder | src/app/status/page.tsx:224-227 | sorting by the value key orders the items by value in the chosen direction |
| StatusPage.SortedStatsUnknownKeys | src/app/status/page.tsx:234-235 | under `status` and `responseTime`, which the statistics comparator ignores, the six items keep their fixed order |
| StatusPage.TiesKeepOrder | src/app/status/page.tsx:234-235 | a comparator that always ties leaves the items in place |
| StatusPage.ServiceOf | src/app/status/page.tsx:106-141 | a probed service is `online` with its response time exactly when it answered, `offline` when its fetch threw, and `error` when its promise was rejected |
| StatusPage.CheckServices | src/app/status/page.tsx:98-144 | the frontend and the backend are checked, in that order |
| StatusPage.SortedServices | src/app/status/page.tsx:174-201 | option `none` returns the services as they are; any option returns a permutation of them |
| StatusPage.SortedServicesOrder | src/app/status/page.tsx:174-201 | under `value` (the initial option) the services keep their order; under `responseTime` ascending they are ordered by response time, a missing one counting as 0 |
| StatusPage.NewStatusSortState | src/app/status/page.tsx:47-48 | the page opens sorted by value, descending |
| StatusPage.HealthBadges | src/app/status/page.tsx:402-413 | the overall-status and database badges of a report the health handler can give are green for `ok` and `connected`, red for `error` and `disconnected`, never yellow |
| StatusPage.ServiceBadges | src/app/status/page.tsx:256-269 | a probed service is green when it answered and red otherwise |
| UseApi.Resolve | src/hooks/useApi.ts:35-40 | `immediate`, `cacheTime` and `debounceTime` default to true, 30000 and 300; a default replaces only an absent option |
| UseApi.CacheKey | src/hooks/useApi.ts:46 | the key is the caller's key when it is a non-empty string, else the url, followed by `-` and the token |
| UseApi.KeysSeparateTokens | src/hooks/useApi.ts:46 | different tokens never share a cache entry |
| UseApi.KeyOverridesUrl | src/hooks/useApi.ts:102 | with a key, the url plays no part in the cache key |
| UseApi.Initial | src/hooks/useApi.ts:25-29 | a new hook has no data, no error, is not loading, and its cache is empty |
| UseApi.Fetched | src/hooks/useApi.ts:42-80 | nothing happens without a token or a url. A fresh entry supplies the data, with no request and no other change. Otherwise a request is made: an answer is cached with its arrival time and becomes the data, a cancellation leaves data and cache alone, an error is reported, and loading ends false |
| UseApi.RefetchAlwaysRequests | src/hooks/useApi.ts:100-110 | with a token and a url, `refetch` always sends the request and never answers from the cache |
| UseApi.Mutated | src/hooks/useApi.ts:112-120 | `mutate` sets the data and caches it with the current time; every other entry is kept |
| UseApi.MutateThenFetchHits | src/hooks/useApi.ts:47-53 | after `mutate`, a fetch inside the cache time makes no request and shows the mutated data |
| UseApi.FetchThenFetchHits | src/hooks/useApi.ts:47-71 | after a successful fetch, a second fetch inside the cache time of the answer makes no request and shows the same data |
| UseApi.OnlySuccessCaches | src/hooks/useApi.ts:72-79 | a failed or cancelled fetch leaves the cache as it was |
| UseApi.ApiHook.constructor | src/hooks/useApi.ts:26-40 | a new hook holds its url, the resolved options and the initial state |
| UseApi.ApiHook.FetchData | src/hooks/useApi.ts:42-80 | the new state and whether a request went out are those of `Fetched` |
| UseApi.ApiHook.Refetch | src/hooks/useApi.ts:100-110 | drops the entry, then fetches |
| UseApi.ApiHook.Mutate | src/hooks/useApi.ts:112-120 | the new state is that of `Mutated` |
| ApiDebugger.MethodOf | src/components/ApiDebugger.tsx:21-24 | the method is GET if the message mentions GET, else POST, PUT or DELETE in that priority, and GET when it mentions none |
| ApiDebugger.LastToken | src/components/ApiDebugger.tsx:25 | the url is the longest space-free ending of the message: the whole message without a space, empty when it ends with one |
| ApiDebugger.LastTokenOfLine | src/components/ApiDebugger.tsx:25 | a space-free url after a space at the end of a line is extracted exactly |
| ApiDebugger.WordAcrossSpace | src/components/ApiDebugger.tsx:21-24 | a word without spaces that `includes` finds in two texts joined by a space lies wholly within one of them |
| ApiDebugger.ContainsNeedsFirst | src/components/ApiDebugger.tsx:21-24 | a text that includes a word holds the word's first character and is at least as long |
| ApiDebugger.WordInLine | src/components/ApiDebugger.tsx:21-24 | a method name occurs in an interceptor line only inside its verb or its url, never in the tag |
| ApiDebugger.LineHoldsVerb | src/lib/axios.ts:25 | the interceptor line includes its verb |
| ApiDebugger.MethodOfVerbLine | src/components/ApiDebugger.tsx:21-24 | a line holding POST, PUT or DELETE and none of the names checked before it is read as that verb |
| ApiDebugger.VerbsInLine | src/components/ApiDebugger.tsx:21-24 | a POST, PUT or DELETE interceptor line whose url contains none of `GET`, `POST` and `PUT` is read as its verb |
| ApiDebugger.InterceptorLineRecorded | src/lib/axios.ts:25 | every line the request interceptor logs is recorded with its url. A GET is recorded as GET, and a POST, PUT or DELETE as itself when its url contains none of `GET`, `POST` and `PUT` |
| ApiDebugger.CallOf | src/components/ApiDebugger.tsx:27-31 | a recorded call holds the extracted url, the time and the method |
| ApiDebugger.RecentCalls | src/components/ApiDebugger.tsx:45-49 | the recent calls are exactly the recorded calls newer than one minute, each no more often than recorded |
| ApiDebugger.RecentCallsAppend | src/components/ApiDebugger.tsx:45-49 | an empty log has no recent calls, and recording one more call appends it to the recent calls exactly when it is recent: order and repetitions are kept |
| ApiDebugger.NewCallIsRecent | src/components/ApiDebugger.tsx:45-49 | the recent calls keep the recording order, and a call just recorded comes last |
| ApiDebugger.Debugger.Log | src/components/ApiDebugger.tsx:17-33 | a string message containing `[Axios Request]` appends exactly one call at the end; any other message changes nothing |
| ApiDebugger.Debugger.Clear | src/components/ApiDebugger.tsx:41-43 | clearing empties the list |
| ApiDebugger.Debugger.Shown | src/components/ApiDebugger.tsx:45-51 | the panel shows exactly the recorded calls newer than one minute, each no more often than recorded |
| Seqs.FirstIndex | src/app/api/auth/login/route.ts:28 | `find` returns the first position whose element passes, or none exactly when no element passes |
| Seqs.Filter | src/app/api/dashboard/route.ts:46 | `filter` keeps exactly the passing elements, each no more often than it occurs |
| Seqs.FilterSingleton | src/components/ApiDebugger.tsx:48 | a one-element list keeps its element exactly when it passes |
| Seqs.FilterCons | src/app/admin/orders/page.tsx:63-90 | an element in front is kept in front exactly when it passes |
| Seqs.FilterAppend | src/components/ApiDebugger.tsx:48 | filtering a concatenation filters each part, in order |
| Seqs.FilterAll | src/components/ApiDebugger.tsx:48 | a list whose every element passes is its own filter |
| Seqs.DisjointCounts | src/app/api/dashboard/route.ts:47-50 | two tests that no element passes together count at most the whole list |
| Seqs.CountBounds | src/app/api/dashboard/route.ts:46-47 | a count is at most the length; it equals the length exactly when all elements pass, and is 0 exactly when none does |
| Query.Encode | src/app/api/orders/route.ts:30-36 | form-encoded text uses only safe characters and is at least as long as the input |
| Query.EncodeCharCases | src/app/api/orders/route.ts:30-36 | a character is written as itself when it is a letter, digit or one of `*-._`, as `+` when it is a space, and otherwise as a `%` triple per byte of its UTF-8 encoding |
| Query.EncodeAsciiEscaped | src/app/api/orders/route.ts:30-36 | any other ASCII character is `%` followed by the two upper-case hex digits of its code |
| Query.EncodeAppend | src/app/api/orders/route.ts:30-36 | serializing a concatenation serializes each part, in order, so the per-character cases fix the serializer on every text |
| Query.EncodeDelimiters | src/app/api/orders/route.ts:30-36 | `&`, `=`, `+` and `%` inside a value are written `%26`, `%3D`, `%2B` and `%25`, so a value cannot end its pair or start another |
| Query.EncodeSpace | src/app/api/orders/route.ts:30-36 | a space inside a value is written as `+` (`a b` becomes `a+b`) |
| Query.EncodePlain | src/app/api/orders/route.ts:30-36 | text made of letters, digits and `*-._` is sent unchanged |
| Query.Serialize | src/app/api/orders/route.ts:35-36 | the query string is empty exactly when there are no pairs, and never contains `?`, `#` or a space |
| Query.Keep | src/app/api/orders/route.ts:32-33 | a filter is appended exactly when its value is truthy |
| Query.QuestionMarkIffParams | src/app/api/orders/route.ts:35-37 | the store URL contains `?` exactly when there is a parameter |
| Query.BuildListUrl | src/app/api/deliveries/route.ts:31-39 | the URL is the path followed by the present filters, in order; with neither filter it is the bare path |
| Types.StripRoundTrip | src/app/api/auth/login/route.ts:54 | removing the password loses exactly the password |
| Types.NatText | src/app/api/orders/assign/route.ts:36-37 | `String(n)` of a whole number below 10^21 is its decimal numeral: digits only, no leading zero |
| Types.NatTextValue | src/app/api/orders/assign/route.ts:36-37 | the numeral reads back as the number |
| Types.NatTextInjective | src/app/api/orders/assign/route.ts:36-37 | different numbers have different numerals |
| Types.ContainsAt | src/components/ApiDebugger.tsx:20 | `includes` finds a part exactly when it occurs at some position |

## Left out

- Network, HTTP framing and JSON parsing. A failing store call is a 500 only where a missing id causes it; other store failures (timeouts, 5xx) are not modelled. The one exception is the delivery insert of the assignment, whose failure is a parameter.
- The store's query filtering (`?status=`, `?q=`, `?driverId=`, `?role=driver`). The model states the URL sent and takes the store's answer as a parameter.
- `bcrypt` salting and cost, and JWT signing, secret and 24-hour expiry. Verification is the `tokens` map.
- LoginRoute.Login: what bcryptjs answers for a stored text of JavaScript length 60 the application did not hash (parsing its salt and cost, hashing, or throwing on a malformed one) is the parameter `rehash`, not computed. The 72-byte truncation of passwords is modelled, and so is the answer false for a stored text of any other JavaScript length, counted in UTF-16 code units.
- Characters are Unicode scalar values, so the UTF-8 encoding has no case for lone surrogates, which JavaScript strings may hold.
- DocumentStore.UserIndex, DocumentStore.OrderIndex, DocumentStore.OrderById, DocumentStore.WithoutUser: ids are matched as exact text, so the model holds only for ids free of `?`, `#`, `/` and `%`. The handlers write the id into the path unencoded (src/app/api/orders/assign/route.ts:40, 50, 60; src/app/api/drivers/route.ts:143; src/app/api/deliveries/route.ts:52), so the store reads an id such as `1?x` as a path `users/1` with a query, and answers for user `1` where the model answers 500 with nothing written. The same gap carries into AssignRoute.Rejection, AssignRoute.Assign, AssignRoute.DeliveryReferencesAssignedOrder, DeliveriesRoute.Enrich and DriversRoute.DeleteDriver.
- Concurrency. Two interleaved assignments of one order, and the parallel requests of `Promise.all`, are not modelled; each request runs to completion on its own.
- Floating-point order values and `Number(orderValue)`. Values are integers.
- NatText (`Types.NatText`, and `Types.Text` of a number): numeric ids are modelled as whole numbers, and their text is the decimal numeral. JavaScript's `String` writes a fractional number with a point ("1.5") and a number from 10^21 on in exponent notation ("1e+21"). Neither is modelled: the model covers ids that are whole numbers below 10^21.
- Date parsing of `createdAt` for sorting. Times are integers.
- `toLowerCase` is modelled for ASCII letters only, and text comparison is by character code. JavaScript compares UTF-16 code units, which differ for characters outside the Basic Multilingual Plane.
- Timers and their effects: the `useApi` debounce and abort controller, the effect that decides when it fetches, the status page's 30-second refresh, and the limiter's cleanup interval.
- Logging and the patching of `console.log` itself.
- `PUT /api/deliveries/{id}` and `/api/drivers/{id}` are not part of this model. The driver page's requests are modelled only as the request each button sends.
- DriversRoute.CreateDriver: a store answer other than 201 ("Failed to create driver") is not modelled, because the store always answers a POST with 201.
- DriversRoute.DeleteDriver: a store answer other than 200 for an existing id ("Failed to delete driver") is not modelled, for the same reason.
- DriversRoute.ListDrivers: the request URL is stated as the literal `users?role=driver` with the optional `&isAvailable=true`. It is not connected to the query serializer, because no serializer is involved in that handler.
- HealthRoute.Check: the timestamp, environment name, version and uptime in the report are left out, and so are the probe timeouts. Probe outcomes are parameters.
- The status page's own health fetch, with its fallback report when the fetch throws, is not part of this model.
- StatusPage.CheckServices: the probes themselves (`fetch` with `no-cors` and the timing) are parameters. Only how an outcome becomes a service status is modelled.
- The toast notifications and all rendering.

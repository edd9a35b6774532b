# Hi-Food in Dafny

A model of the Hi-Food web shop for Vietnamese food. The shop has four parts:

- **Server** (`backend/server.js`): an Express server. It keeps users, sessions, products and orders in four JSON files. It answers the sign-in, catalogue, order, user and dashboard requests.
- **Storefront** (`public/app.js`): the shopping page. It holds the cart, checks the login identity, falls back through candidate product images, and filters and sorts the menu.
- **Staff console** (`public/staff.js`): lists orders, counts them by status, and offers the accept / complete / cancel buttons.
- **Admin panel** (`public/admin.js`): filters products, orders and users, labels statuses and roles, shows the recent orders, and checks a product form or a new order status before sending it.

Files:

- `common.dfy` (module `Common`): the JavaScript building blocks. These are `find`/`findIndex` (`FirstIndex`, `Find`), `filter` (`Filter`, with the subsequence relation `IsSubseq`), `reduce` as a sum (`SumBy`), and `trim`, `toLowerCase` and `includes` on strings.
- `records.dfy` (module `Records`): the stored records.
- `server.dfy` (module `Server`): the middleware gates as functions and `class Store`.
  - `Store` has one `seq` field per JSON file.
  - Each handler is a method that reads and replaces those fields.
  - Its `ensures` state the whole new store and the error answer.
- `storefront.dfy` (module `Storefront`): `class Storefront` (catalogue and cart) and `class ProductImage` (the `<img>` fallback counter).
  - The cart methods are proved against spec functions (`Added`, `Changed`, `WithoutLine`, `CartValue`).
  - Lemmas about those functions give the badge count, the total, and the absence of duplicate or empty lines.
- `staff.dfy` (module `StaffConsole`): `class Console` (orders and statistics), the offered actions, and the order filter.
- `admin.dfy` (module `AdminPanel`): the admin helpers, all of them pure functions.

Modelling conventions:

- Where the code only tests a value for truthiness, an absent, `null` or `''` value is the empty string, and a falsy number is `0`.
- Where the code tells them apart, the value is an `Option`. The login password is compared with `===`, so an absent password (`None`) fits no stored user, while `''` fits a password-less one. A product update replaces the description whenever one is present, even `''`.
- Fresh identifiers (`uuidv4`), the clock (`Date.now`), Google's token check and the Facebook Graph reply are parameters of the handlers that use them.
- Comparing two instants' calendar days in the browser's time zone is a `sameDay` function parameter.

Three behaviours of the code are easy to miss. These lemmas state them:

- **Empty password.** Password login does not refuse an empty password, so it reaches users created by a federated login. Leaving the password out reaches nobody (`EmptyPasswordReachesFederatedUser`).
- **Order transitions.** The server stores any status it is sent. The staff console offers cancellation only for pending orders (`ConsoleWithinLifeCycle`).
- **Recent orders.** The dashboard's "recent orders" are the first five stored orders. The server appends new orders, so these are the five oldest (`NewOrderNotRecent`).

## Model

| member | source | states |
|---|---|---|
| Server.GetSession | backend/server.js:63-69 | no session without a token; none exactly when no stored session has the token; otherwise the first session with exactly that token |
| Server.FindUserById | backend/server.js:82 | none exactly when no user has the id; otherwise the first stored user with that id |
| Server.FindUserByEmail | backend/server.js:108 | none exactly when no user has the email; otherwise the first stored user with that email |
| Server.FindProduct | backend/server.js:407 | none exactly when no product has the id; otherwise the first stored product with that id |
| Server.ProductIndex | backend/server.js:253-254 | none (-1) exactly when no product has the id; otherwise the first index holding it |
| Server.OrderIndex | backend/server.js:312-313 | none (-1) exactly when no order has the id; otherwise the first index holding it |
| Server.RequireAuth | backend/server.js:71-76 | 401 exactly when there is no session; otherwise the user id of the first stored session with the token (GetSession) |
| Server.RequireAdmin | backend/server.js:78-88 | 401 exactly when `requireAuth` fails; a pass exactly when the first user with the session's user id (FindUserById) has role admin; a session whose user is missing or not an admin gets 403 |
| Server.RequireStaff | backend/server.js:90-100 | as the admin gate: a pass exactly when the first user with the session's user id has role admin or staff |
| Server.AdminPassesStaffGate | backend/server.js:78-100 | whoever passes the admin gate passes the staff gate as the same user |
| Server.MatchCredentials | backend/server.js:118-123 | the first user fitting the email and password; failing that, the first fitting the phone and password; none exactly when nobody fits either way; an absent password fits nobody |
| Server.LoginAfterRegister | backend/server.js:103-123 | a user appended under a new email signs in with that email and password |
| Server.EmptyPasswordReachesFederatedUser | backend/server.js:118-123 | email plus empty password signs in as a password-less (federated) user; email without a password signs in nobody |
| Server.CreatedUserIsFound | backend/server.js:149-155 | a user appended under a new email is what the next lookup of that email finds |
| Server.FederatedLoginReusesUser | backend/server.js:150-156 | a second federated login with the same email signs in the user the first found or created, whatever name and fresh id it carries, and adds no user |
| Server.NewSessionResolves | backend/server.js:124-127 | a session appended under a new token resolves to itself |
| Server.LocalPart | backend/server.js:146 | a prefix of the email with no '@', followed by '@' when shorter than the email |
| Server.PublicView | backend/server.js:209-216 | the user without password; the role is never empty, and a missing role is "user" |
| Server.Me | backend/server.js:204-218 | a user exactly when the session and its user exist; then the public view of the first user with the session's user id (FindUserById) |
| Server.WithoutToken | backend/server.js:198 | a subsequence of the sessions with no session holding the token, keeping every other session as often as it was stored |
| Server.LogoutRevokes | backend/server.js:195-198 | after logout the token resolves to no session |
| Server.LogoutIdempotent | backend/server.js:195-198 | logging out twice equals logging out once |
| Server.LogoutKeepsOthers | backend/server.js:195-198 | any other token resolves to the same session as before |
| Server.WithoutProduct | backend/server.js:272-273 | a subsequence without the id that keeps every product with another id as often as it was stored; same length exactly when no product had the id |
| Server.WithoutUser | backend/server.js:341-342 | a subsequence without the id that keeps every user with another id as often as it was stored; same length exactly when no user had the id |
| Server.DeleteProductExactly | backend/server.js:270-279 | deleting an absent id changes nothing; afterwards no product has the id |
| Server.RevenueIsEarnedSum | backend/server.js:356-358 | `Revenue` (the completed orders, filtered, then their totals summed) equals the per-order sum of completed totals |
| Server.NewOrderKeepsRevenue | backend/server.js:287-305 | appending a pending order leaves revenue unchanged |
| Server.RevenueAfterUpdate | backend/server.js:308-323 | replacing one order changes revenue by exactly the change of that order's contribution |
| Server.SubtotalIgnoresUnknown | backend/server.js:405-408 | `Subtotal` (the sum of `LinePrice`: the first product's price times the quantity or 1, 0 for an unknown product) is 0 when no line names a known product |
| Server.SubtotalOfOne | backend/server.js:405-408 | a one-line subtotal is that line's price |
| Server.CalcTotalExamples | backend/server.js:401-413 | 2 x 300000 gives 600000; 1 x 100000 gives 100000 |
| Server.Store.Load | backend/server.js:39-46 | the store holds the four files as read |
| Server.Store.Register | backend/server.js:103-116 | 400 exactly when name, email or password is missing; 409 exactly when the email is taken; success exactly when neither, and then the new user is appended and nothing else changes |
| Server.Store.Login | backend/server.js:118-131 | 401 exactly when no credentials match, and nothing changes; otherwise the matched user's summary and one appended session |
| Server.Store.SignInFederated | backend/server.js:149-160 | the user is `FederatedUser`: the first stored user with the email, or a new password-less user, which is appended; one session appended for that user |
| Server.Store.LoginGoogle | backend/server.js:134-168 | 400 without token or email; 500 when verification throws; success exactly when verified with an email; the reply names the first user with the email or the appended one (named by the payload or the email's local part), and the one appended session is that user's |
| Server.Store.LoginFacebook | backend/server.js:171-193 | 400 without token; 401 when Graph refuses; 500 when it cannot be reached; otherwise the reply names the first user with the email (or `<id>@facebook.local`) or the appended one, and the one appended session is that user's |
| Server.Store.Logout | backend/server.js:195-202 | only the sessions change, to those with another token; the token no longer resolves |
| Server.Store.CreateProduct | backend/server.js:228-247 | the gate's error, or 400 for a missing name, category or price; success exactly when neither; every failure changes nothing; the appended product has a fresh id, status default "active", the placeholder image and no update time |
| Server.Store.UpdateProduct | backend/server.js:249-268 | success exactly when the gate passes and a product has the id; every failure changes nothing; otherwise only the first product with the id is replaced; empty fields keep stored values; a present description replaces it; id, image and creation time stay |
| Server.Store.DeleteProduct | backend/server.js:270-280 | the gate's error; 404 exactly when no product has the id; success exactly when the gate passes and a product has it, and then the catalogue is WithoutProduct |
| Server.Store.ListOrders | backend/server.js:282-285 | the gate's error, or every stored order in order |
| Server.Store.CreateOrder | backend/server.js:287-306 | 401 without a session; 400 exactly when items are absent or the total is zero; success exactly when neither, and then a pending order is appended with the default customer name when none is given |
| Server.Store.UpdateOrder | backend/server.js:308-323 | the gate's error; 404 exactly when no order has the id; success exactly when the gate passes and an order has it, and then only the first such order changes: the sent status (any, unchecked) or the old one, and the update time |
| Server.Store.ListUsers | backend/server.js:326-337 | the gate's error, or the public view of every user in order |
| Server.Store.DeleteUser | backend/server.js:339-349 | the gate's error; 404 exactly when no user has the id; success exactly when the gate passes and a user has it, and then the users are WithoutUser; sessions and orders untouched |
| Server.Store.AdminData | backend/server.js:351-366 | fails exactly when the admin gate does, with its 401 or 403; revenue is the sum of completed orders' totals; the three counts are the collection sizes |
| Server.Store.CalcTotal | backend/server.js:401-413 | the loop's subtotal is the line-price sum; shipping is 0 exactly above 500000, else 20000; total is their sum |
| Storefront.LineIndex | public/app.js:185 | none exactly when no line has the product; otherwise the first line of that product |
| Storefront.WithoutLine | public/app.js:196 | no remaining line names the product |
| Storefront.WithoutLineKeepsRest | public/app.js:196 | removing a product's lines keeps a subsequence holding every other line as often as before |
| Storefront.ProductMap | public/app.js:203 | keys are exactly the catalogue ids; each entry is a catalogue product with that id |
| Storefront.ProductMapLastWins | public/app.js:203 | an id maps to the last product carrying it |
| Storefront.UnknownLineAddsNothing | public/app.js:206-208 | a line whose product is missing adds nothing to the total |
| Storefront.Added | public/app.js:183-190 | an id outside the catalogue leaves the cart unchanged |
| Storefront.BumpCounts | public/app.js:187 | one more item on a line adds 1 to the badge (`BadgeCount`, the sum of quantities of app.js:108-111) and the price to the total (`CartValue`, the sum of app.js:201-227) |
| Storefront.AppendCounts | public/app.js:187 | a new one-item line adds 1 to `BadgeCount` and the price to `CartValue` |
| Storefront.AddCounts | public/app.js:183-190 | adding a catalogue product raises `BadgeCount` by 1 and `CartValue` by that product's price |
| Storefront.AddKeepsShape | public/app.js:183-190 | adding keeps lines distinct and quantities positive |
| Storefront.Changed | public/app.js:192-199 | no line: unchanged; positive new quantity: same length with the line set; otherwise no line of the product remains |
| Storefront.ChangeCount | public/app.js:192-199 | on a duplicate-free cart `BadgeCount` moves by delta, or by minus the old quantity when the line goes |
| Storefront.SetQuantityKeepsShape | public/app.js:194 | setting a quantity keeps lines distinct, and keeps them positive when the new quantity is |
| Storefront.ChangedShape | public/app.js:192-199 | the result is the updated cart, or the cart without the product when the quantity reaches zero or less |
| Storefront.ChangeKeepsDistinct | public/app.js:192-199 | changing a quantity keeps lines distinct |
| Storefront.ChangeKeepsPositive | public/app.js:192-199 | changing a quantity never leaves a line at zero or below |
| Storefront.RemoveKeepsShape | public/app.js:230 | removal keeps lines distinct and positive |
| Storefront.RemoveCount | public/app.js:230 | on a duplicate-free cart removal drops exactly that line and its items from `BadgeCount` |
| Storefront.WithoutDistinctLine | public/app.js:196 | filtering a distinct product removes exactly its one line |
| Storefront.WithoutUpdatedLine | public/app.js:194-196 | updating a line then filtering its product equals filtering directly |
| Storefront.Storefront.constructor | public/app.js:95-97 | the catalogue and the stored cart as loaded |
| Storefront.Storefront.AddToCart | public/app.js:183-190 | the new cart is `Added` of the old; the catalogue is untouched |
| Storefront.Storefront.ChangeQty | public/app.js:192-199 | the new cart is `Changed` of the old; the catalogue is untouched |
| Storefront.Storefront.RemoveLine | public/app.js:230 | the new cart is the old without the product's lines |
| Storefront.Storefront.CartTotal | public/app.js:201-227 | the accumulated total equals `CartValue`: each line's price from the id-to-product map times its quantity, 0 for a missing product |
| Storefront.PhoneBody | public/app.js:273 | drops at most one leading character, and does so exactly when it is '+' |
| Storefront.NormalizeIdentity | public/app.js:271-276 | a phone exactly when the trimmed text matches `PhonePattern` (`^\+?\d[\d\s-]{6,}$`); the phone is a non-empty subsequence of the trimmed text holding every digit of it as often as it occurs; otherwise the trimmed text as email |
| Storefront.AtSignIsNoPhone | public/app.js:273 | text with '@' never matches the phone pattern |
| Storefront.AtSignMeansEmail | public/app.js:271-276 | text with '@' is sent as the trimmed email |
| Storefront.DigitsAreAPhone | public/app.js:271-276 | seven or more digits are sent unchanged as a phone |
| Storefront.SegmentStart | public/app.js:9 | the start of the last slash-free segment: only a '/' precedes it |
| Storefront.SwapExtension | public/app.js:13-14 | length kept; a case-insensitive match of the extension is replaced; otherwise the name is unchanged |
| Storefront.UnderProducts | public/app.js:12-15 | the name under "/products/" |
| Storefront.ImageCandidates | public/app.js:11-16 | four addresses under /products/: the '@' name, the name with a final ".jpg" swapped for ".png", the name with a final ".png" swapped for ".jpg", the placeholder |
| Storefront.JpgSwaps | public/app.js:13-14 | a ".jpg" name swaps to ".png" under the first rule and is untouched by the second |
| Storefront.JpgCandidates | public/app.js:11-16 | for a ".jpg" image the second try is the ".png" twin and the third the plain name |
| Storefront.CacheBusted | public/app.js:11 | the address followed by a '?' query |
| Storefront.ProductImage.constructor | public/app.js:8 | nothing tried yet, handler attached |
| Storefront.ProductImage.HandleError | public/app.js:7-23 | below four tries: the next candidate with a cache-busting query, and one more try; after four: the handler detaches and nothing else changes; the count never passes four |
| Storefront.Insert | public/app.js:159-160 | one element longer than the list |
| Storefront.InsertPermutes | public/app.js:159-160 | the result holds the list's elements plus the inserted one |
| Storefront.InsertSorted | public/app.js:159-160 | insertion into a price-sorted list keeps it sorted |
| Storefront.SortByPrice | public/app.js:159-160 | sorted by price in the asked direction, and a permutation of the input |
| Storefront.InsertStable | public/app.js:159-160 | insertion puts the element ahead of the others of its price and keeps theirs in order |
| Storefront.SortStable | public/app.js:159-160 | the sort is stable: the products of each price keep their input order |
| Storefront.SortKeepsMembers | public/app.js:159-160 | sorting keeps exactly the same members |
| Storefront.FilteredSortedProducts | public/app.js:151-163 | members are exactly the catalogue products of the category whose lower-cased name contains the trimmed, lower-cased search; a permutation of the filter; price-sorted for the price sorts; otherwise in catalogue order |
| Storefront.FilteredSortStable | public/app.js:151-163 | in every mode the products of each price keep their catalogue order |
| StaffConsole.CountStatus | public/staff.js:80-82 | at most the number of orders; equal to it exactly when every order has the status |
| StaffConsole.StatusCounts | public/staff.js:78-85 | the four status counts add up to at most the total |
| StaffConsole.KnownStatusCounts | public/staff.js:78-85 | they add up to the total when every status is a known one |
| StaffConsole.ActionTarget | public/staff.js:313-328 | accept requests processing, complete requests completed, cancel requests cancelled; no other action requests anything |
| StaffConsole.ButtonsRequestTheirStatus | public/staff.js:303-330 | on a listed pending order, confirmed accept requests processing and cancel requests cancelled; on a processing order, complete requests completed |
| StaffConsole.OfferedActions | public/staff.js:138-159 | an action is offered exactly when its target is a console move from the status; none for other statuses |
| StaffConsole.GetOrderActions | public/staff.js:138-159 | the pushed buttons are the offered ones, each a console move |
| StaffConsole.ConsoleWithinLifeCycle | public/staff.js:138-159 | every offered move is a life-cycle move; processing to cancelled is never offered |
| StaffConsole.OrderActionRequest | public/staff.js:303-339 | a request exactly when the order is listed, the action is known and confirmed; it carries the action's target |
| StaffConsole.OfferedActionRequestsMove | public/staff.js:303-339 | clicking an offered button requests a console move |
| StaffConsole.TerminalStays | public/staff.js:138-159 | completed and cancelled orders stay so whatever is clicked |
| StaffConsole.ClicksMoveForward | public/staff.js:138-159 | clicks never move an order back; known statuses stay known |
| StaffConsole.MatchesTimeFilter | public/staff.js:170-187 | week: within 604800000 ms; month: within 2592000000 ms; unknown filter: always |
| StaffConsole.WeekWithinMonth | public/staff.js:178-183 | within the week implies within the month |
| StaffConsole.FilterOrders | public/staff.js:162-168 | a subsequence holding every order that passes both filters (`Listed`: the chosen status, and the time window) as often as it was stored, and no other |
| StaffConsole.NoFilterListsAll | public/staff.js:162-168 | no filter lists every order in order |
| StaffConsole.StatusFilterListsStatus | public/staff.js:162-168 | a status filter lists exactly that status's orders, as many as the statistic |
| StaffConsole.StatusText | public/staff.js:189-197 | unknown statuses shown as given; known ones get a non-empty label that is not itself a status |
| StaffConsole.StatusTextInjective | public/staff.js:189-197 | different known statuses get different labels |
| StaffConsole.Console.constructor | public/staff.js:6-19 | no orders, zero statistics, no filters |
| StaffConsole.Console.LoadOrders | public/staff.js:66-76 | the orders are the fetched list and the statistics are recounted; filters untouched |
| StaffConsole.Console.CalculateStats | public/staff.js:78-85 | statistics are the three status counts and the total; the three never exceed the total |
| AdminPanel.FilterProducts | public/admin.js:372-380 | a subsequence holding every product whose name or category contains the search (case ignored) in the chosen category, as often as it was stored, and no other |
| AdminPanel.FilterOrders | public/admin.js:382-392 | a subsequence holding every order whose id (case kept) or customer name (case ignored) contains the search, of the chosen status and day, as often as it was stored, and no other |
| AdminPanel.FilterUsers | public/admin.js:394-402 | a subsequence holding every user whose name or email contains the search (case ignored) with the chosen role, as often as it was listed, and no other |
| AdminPanel.NoFiltersListAll | public/admin.js:372-402 | with no filter set the three lists are complete and in order |
| AdminPanel.SearchIgnoresCase | public/admin.js:372-402 | lower-casing the search text lists the same products and users |
| AdminPanel.IdSearchListsOrder | public/admin.js:382-387 | searching an order's exact id lists it |
| AdminPanel.EmailSearchListsUser | public/admin.js:394-398 | searching a user's exact email lists them |
| AdminPanel.StatusText | public/admin.js:405-415 | the six statuses get a non-empty label that is not a status; anything else is shown as given |
| AdminPanel.OrderLabelsAgree | public/admin.js:405-415 | same labels as the staff console for the four order statuses and for unlabelled text |
| AdminPanel.StatusTextInjective | public/admin.js:405-415 | each label leads back to its status, so labels differ |
| AdminPanel.RoleText | public/admin.js:417-424 | the three roles get a non-empty name that is not a role; anything else as given |
| AdminPanel.RoleTextInjective | public/admin.js:417-424 | different roles get different names |
| AdminPanel.RecentOrders | public/admin.js:125-126 | the first min(5, n) orders in stored order |
| AdminPanel.NewOrderNotRecent | public/admin.js:125-126 | with five or more orders an appended order changes nothing and is not listed |
| AdminPanel.ParsePrice | public/admin.js:759-762 | a number exactly for a non-empty all-digit text |
| AdminPanel.ParsePriceOfString | public/admin.js:759-762 | a price written in decimal reads back as itself |
| AdminPanel.SaveProductRequest | public/admin.js:741-773 | name, category, price checked in that order with their messages; sent exactly when all pass; the payload is what the server's validation accepts, with the chosen status or "active"; PUT to the product's address with an id, POST otherwise |
| AdminPanel.WrittenPriceIsSent | public/admin.js:741-773 | a valid form with a decimal price is sent with that price |
| AdminPanel.StatusUpdateRequest | public/admin.js:814-819 | sent exactly when the order is found and the entered status is non-empty and differs; it carries the id and that status |
| AdminPanel.RepeatedUpdateSendsNothing | public/admin.js:814-819 | after the server stores the status, entering it again sends nothing |

## Left out

- File I/O, routing, cookies, CORS, static files and start-up are left out. The four JSON files are whole sequences; a read is a field read and a write a field assignment.
- Concurrent requests are left out. Two handlers interleaving their reads and writes of one file can lose an update; each handler here is atomic.
- `uuidv4` and `Date.now` are left out; their values are parameters.
- The Google and Facebook calls are left out; their outcomes are inputs.
- `GET /api/products` (a plain read of the file) and `GET /api/revenue-stats` are left out. The latter returns random sample data.
- `/api/qr-list` (a directory listing) is left out.
- Maps, geolocation, the chat bot, product-name translation, language switching, HTML rendering, notifications, local storage, timers and `fetch` are left out. They are display or browser services.
- Case folding and white space are ASCII or Latin-1 only (`Lower`, `IsWhitespace`). Unicode case mapping is left out.
- String-typed numbers, `NaN` and `parseInt` on the server are left out: prices, totals and quantities are integers.
- Storefront.FilteredSortedProducts: the "name-asc" sort (`localeCompare` with Vietnamese collation) is not modelled; that mode keeps the filter order.
- StaffConsole.MatchesTimeFilter: "today" is the `sameDay` parameter; its time-zone arithmetic is left out.
- AdminPanel.FilterOrders: the date filter is the `sameDay` parameter, for the same reason.
- StaffConsole.StatusText: a status that names an `Object.prototype` member (such as "constructor") is shown as given, like any other unknown status. The code would show that member instead; the server stores any status it is sent, so such a status can reach the console.
- AdminPanel.StatusText: a status that names an `Object.prototype` member (such as "constructor") is looked up like any other unknown status. The code would show that member instead.
- AdminPanel.RoleText: the same `Object.prototype` case is left out.
- AdminPanel.ParsePrice: only a price made of decimal digits is accepted, so AdminPanel.SaveProductRequest accepts no other price. The code also accepts what `Number` and `parseInt` both read as a positive number, for example "12.5" (sent as 12), "+5" (sent as 5) or "1e3" (sent as 1).

# WShope core in Dafny

A model of the WShope e-commerce site, in two parts.

The first part is the Express route handlers of the backend:
- the shopping cart: read, add, update quantity, remove, and merging a guest cart into a user cart;
- the checkout lifecycle: create a session, pay, and finalise into an order;
- administration of orders and users;
- the newsletter subscription;
- the product catalogue's query building, update, delete and "similar products".

The second part is the React/Redux front end:
- the cart, product and admin reducers;
- the filter sidebar's URL parameters;
- the product page's quantity stepper and add-to-cart button;
- the cart view's quantity buttons;
- the three admin pages, which keep their own local lists.

## How the model is organised

The database is one value, `Store.Backend`, and one object, `Store.Database`:
- carts and products are sequences in insertion order, because the handlers rely on "the first match" and on `limit(4)`;
- checkout sessions, orders and users are maps keyed by id;
- subscribers are a map from the normalised e-mail to the subscription time.

Each handler is modelled twice:
- a function returns the new database together with the reply, an `Outcome`;
- a `Handle…` method updates the `Database` object in place and is proved to leave exactly that state and reply.

The lemmas then state what the routes promise about those functions:
- invariants the handlers keep;
- the effect on each (product, size, colour) line key;
- the error replies;
- sequences of calls.

Each reducer is a pure function `Reduce(state, action)`. Next to it is a class holding the slice's fields, whose `Dispatch` method is proved equal to it. Each payload is the server's reply as the backend sends it. The admin product, order and user reducers are modelled as written. Beside each is a `CorrectedReduce`, which stores the fetched array; for orders and users it also deletes the record the request named (see Findings). The React components are modelled as follows:
- the product page's component state is a class whose handlers change its fields;
- the admin pages' `setState` list updates are functions on sequences;
- the filter sidebar's URL parameters are a map.

Representation choices:
- Prices are integer cents.
- JavaScript truthiness is written out: `""`, `0` and NaN are falsy, and `Option` stands for presence.
- Ids handed out by the database are parameters the caller supplies fresh, and so are `Date.now()` and the generated guest id.

## Model

| member | source | states |
|---|---|---|
| Lists.IndexOf | backend/routes/cartRoutes.js:38-46 | the index `findIndex` returns is the first whose key matches, or -1 exactly when no element matches |
| Lists.FindIndex | frontend/src/redux/slices/productSlice.js:173-175 | the search loop returns the same index as the specification `IndexOf` |
| Lists.ReplaceFirst | frontend/src/redux/slices/productSlice.js:173-178 | only the first match is replaced, every other element is kept, and a list without a match is unchanged |
| Lists.RemoveKeyMembers | frontend/src/redux/slices/adminProductSlice.js:115-118 | `filter` keeps exactly the elements whose key differs |
| Lists.RemoveKeyAppend | frontend/src/redux/slices/adminProductSlice.js:115-118 | `filter` keeps the order: it distributes over concatenation |
| Lists.RemoveKeyOnce | frontend/src/components/Products/FilterSidebar.jsx:86-89 | dropping the only element with the key takes it out where it stood and keeps the others in order |
| Js.NormalizeIdempotent | backend/models/Subscriber.js:4-11 | trimming and lower-casing twice is the same as once, so the stored e-mail matches a query on the same address |
| Js.JoinSplit | frontend/src/components/Products/FilterSidebar.jsx:86-89 | joining the parts of a comma split gives back the original parameter |
| Js.SplitJoin | frontend/src/components/Products/FilterSidebar.jsx:26-39 | splitting a join of comma-free parts gives back the parts |
| Js.DigitsParse | backend/routes/productRoutes.js:246 | on a run of digits `Number` and `parseInt` give the same value, the decimal value of the digits |
| Js.LeadingDigitsParse | backend/routes/productRoutes.js:246 | `parseInt` without a radix reads the decimal digits a string starts with and ignores what follows, unless a lone "0" is followed by "x" or "X" |
| Js.HexParse | backend/routes/productRoutes.js:246 | `parseInt` without a radix reads "0x" followed by hexadecimal digits in base 16 |
| CartRoutes.GetCart | backend/routes/cartRoutes.js:9-16 | with a user id the cart found is one owned by that user, and -1 only when the user has none; without one it is a cart of the guest id; with neither it is -1 |
| CartRoutes.GetCartPrefersUser | backend/routes/cartRoutes.js:9-16 | when a user id is given the guest id is ignored |
| CartRoutes.HandleAdd | backend/routes/cartRoutes.js:21-93 | adding to the cart leaves exactly the state and reply of `AddItem`, whose effect `AddItemEffect` states |
| CartRoutes.HandleUpdate | backend/routes/cartRoutes.js:99-151 | the update leaves exactly the state and reply of `UpdateItem`: the quantity is set, 0 removes the line, and the total is recomputed |
| CartRoutes.HandleRemove | backend/routes/cartRoutes.js:157-204 | the delete leaves exactly the state and reply of `RemoveItem` |
| CartRoutes.AddToLines | backend/routes/cartRoutes.js:38-57 | the `findIndex` on product, size and colour followed by raising the found line's quantity or pushing the new line yields exactly `AddLine`: one line per key, the matching line raised in place |
| CartRoutes.AddLineEffect | backend/routes/cartRoutes.js:38-57 | with a line of the same (product, size, colour) key, that first line has its quantity raised by the new one and every other line is kept; without one, the new line is appended after the unchanged lines |
| CartRoutes.AddItemEffect | backend/routes/cartRoutes.js:21-93 | an unknown product answers 404 "Product not found" and changes nothing; otherwise the line carries the product id, name, first image url or "", price, and the requested size, colour and quantity; a found cart answers 200 with that line added, its total recomputed and its other fields kept, the other carts unchanged; without one a new cart holding only that line, priced at price times quantity, is appended with 201; only the carts change |
| CartRoutes.MergeLoop | backend/routes/cartRoutes.js:271-283 | the `forEach` over the guest lines computes `MergeLines`, each guest line added to a matching user line or appended |
| CartRoutes.HandleMerge | backend/routes/cartRoutes.js:237-306 | the merge leaves exactly the state and reply of `Merge`, whose cases `MergeEffect` states |
| CartRoutes.MergeEffect | backend/routes/cartRoutes.js:240-291 | 400 without a guest id, 404 without a guest cart and 400 for an empty one, each changing nothing; a user without a cart is handed the guest cart in its place, with the user's id, no guest id and its lines and total kept, every other cart unchanged; a user with a cart gets the merged lines and their total, the guest cart is removed and the other carts stay in order; every success answers 200 and touches only the carts |
| CartRoutes.AddLineUnits | backend/routes/cartRoutes.js:38-58 | adding a line adds its units to its own (product, size, colour) key and to no other key |
| CartRoutes.AddLineDistinct | backend/routes/cartRoutes.js:38-58 | adding a line never gives two lines the same key |
| CartRoutes.MergeLinesUnits | backend/routes/cartRoutes.js:271-283 | after a merge every key holds the user's units plus the guest's units |
| CartRoutes.MergeLinesDistinct | backend/routes/cartRoutes.js:271-283 | merging keeps the keys of a cart's lines distinct |
| CartRoutes.MergeLinesKeepsUserLines | backend/routes/cartRoutes.js:271-283 | the user's lines keep their positions and every field but the quantity; guest lines only raise quantities or come after them |
| CartRoutes.QuantityOfDistinct | backend/routes/cartRoutes.js:118-125 | with distinct keys, a key's units are those of its one line, or 0 when it has no line |
| CartRoutes.SumUpdate | backend/routes/cartRoutes.js:60-62 | replacing one line changes the total by the difference between the two lines |
| CartRoutes.SumRemoveAt | backend/routes/cartRoutes.js:134-136 | dropping a line takes its contribution out of the total |
| CartRoutes.AddItemKeepsCartsValid | backend/routes/cartRoutes.js:21-93 | after an add every cart's total is still the sum of its lines and no cart lists a key twice |
| CartRoutes.UpdateItemKeepsCartsValid | backend/routes/cartRoutes.js:99-151 | the update keeps every cart valid |
| CartRoutes.RemoveItemKeepsCartsValid | backend/routes/cartRoutes.js:157-204 | the delete keeps every cart valid |
| CartRoutes.MergeKeepsCartsValid | backend/routes/cartRoutes.js:237-306 | the merge keeps every cart valid |
| CartRoutes.AddItemUnits | backend/routes/cartRoutes.js:38-62 | an add to an existing cart answers 200, raises the requested key by the requested quantity, and leaves every other key unchanged |
| CartRoutes.AddThenFetch | backend/routes/cartRoutes.js:209-232 | after a 200 from add, reading the cart returns what the add returned |
| CartRoutes.NewCartIsNotFound | backend/routes/cartRoutes.js:67-86 | a cart created by add is written with `userId` and without the request's guest id, so the lookup on `user`/`guestId` never finds it again |
| CartRoutes.RepeatedAddCreatesCarts | backend/routes/cartRoutes.js:67-86 | two identical adds from a caller without a findable cart create two carts |
| CartRoutes.UpdateItemUnits | backend/routes/cartRoutes.js:118-136 | the update sets the requested key to exactly the requested quantity (0 removes it) and leaves every other key as it was |
| CartRoutes.RemoveItemUnits | backend/routes/cartRoutes.js:177-196 | the delete takes the requested key out entirely and leaves every other key as it was |
| CartRoutes.UpdateRemoveNotFound | backend/routes/cartRoutes.js:105-131 | update and delete fail exactly when the cart or the line is missing; they then answer 404 and change nothing |
| CartRoutes.MergeUnits | backend/routes/cartRoutes.js:258-288 | a merge into an existing user cart sums the units per key |
| CartRoutes.MergeConsumesGuestCart | backend/routes/cartRoutes.js:291 | a successful merge leaves no cart with the guest id, so repeating it answers 404 |
| CheckoutRoutes.HandleCreateCheckout | backend/routes/checkoutRoutes.js:13-45 | creating a session leaves exactly the state and reply of `CreateCheckout` |
| CheckoutRoutes.HandlePay | backend/routes/checkoutRoutes.js:50-90 | paying leaves exactly the state and reply of `Pay` |
| CheckoutRoutes.HandleFinalize | backend/routes/checkoutRoutes.js:95-156 | finalising leaves exactly the state and reply of `Finalize` |
| CheckoutRoutes.Phase | backend/routes/checkoutRoutes.js:109-122 | the phase of a session is 0 for new, 1 for paid and 2 for finalised |
| CheckoutRoutes.CreateCheckoutLifecycle | backend/routes/checkoutRoutes.js:13-45 | a session is created exactly when a non-empty item list is given; it answers 201 with a new, unpaid session that records the caller, the items, the address, the payment method and the total as given; only that session is added; otherwise 400 and nothing changes; sessions stay sound and no phase goes back |
| CheckoutRoutes.PayLifecycle | backend/routes/checkoutRoutes.js:50-90 | payment succeeds exactly for an existing session and status "paid": it answers 200 with isPaid set, paidAt the current time and the status and details recorded, while the owner, items, address, method, total and finalised flag are kept and no other document changes; an unknown session answers 404, another status 400, and neither changes anything; no phase goes back |
| CheckoutRoutes.FinalizeLifecycle | backend/routes/checkoutRoutes.js:95-156 | finalising succeeds exactly for a paid, unfinalised session; it answers 201 with the one order it adds, keeps the other orders, marks the session finalised at `now` with its purchase and payment kept, and leaves the other sessions, products, users and subscribers as they were; a failure answers 404 or 400 and changes nothing; no session's phase goes back |
| CheckoutRoutes.FinalizeOrderCopiesSession | backend/routes/checkoutRoutes.js:125-135 | the order copies the session's user, items, address, payment method, total, payment details and payment time, is paid, and starts "Processing" |
| CheckoutRoutes.FinalizeTwice | backend/routes/checkoutRoutes.js:109-114 | a second finalise answers 400 "already finalized" and changes nothing |
| CheckoutRoutes.FinalizeClearsUserCarts | backend/routes/checkoutRoutes.js:141 | exactly the carts whose `user` is the session's user are deleted, and the others stay in their order |
| CheckoutRoutes.PayAfterFinalize | backend/routes/checkoutRoutes.js:64-82 | paying a finalised session still succeeds and moves its payment time away from the order's |
| OrderAdminRoutes.HandleUpdateStatus | backend/routes/orderAdminRoutes.js:29-57 | the status update leaves exactly the state and reply of `UpdateStatus` |
| OrderAdminRoutes.HandleDeleteOrder | backend/routes/orderAdminRoutes.js:95-107 | the delete leaves exactly the state and reply of `DeleteOrder` |
| OrderAdminRoutes.UpdateStatusEffect | backend/routes/orderAdminRoutes.js:29-57 | the update succeeds exactly for a valid status and an existing order, an invalid status answers 400 before the lookup, and only that order's status changes |
| OrderAdminRoutes.UpdateStatusKeepsStatusesValid | backend/routes/orderAdminRoutes.js:32-36 | every stored order keeps one of the four valid statuses |
| OrderAdminRoutes.FinalizeKeepsStatusesValid | backend/routes/checkoutRoutes.js:125-135 | orders created by finalising also keep a valid status |
| OrderAdminRoutes.GetOrderAccess | backend/routes/orderAdminRoutes.js:62-90 | an order is shown exactly to its owner or an admin, with the customer's name, amount and status; anyone else gets 401 |
| OrderAdminRoutes.DeleteOrderEffect | backend/routes/orderAdminRoutes.js:95-107 | delete removes exactly that order; afterwards reading, deleting or updating it answers 404 |
| AdminRoutes.RoleFor | backend/routes/adminRoutes.js:50 | the role is "admin" exactly when isAdmin is set, otherwise "user" |
| AdminRoutes.ListUsers | backend/routes/adminRoutes.js:10-24 | every user is listed with their e-mail and role |
| AdminRoutes.HandleCreateUser | backend/routes/adminRoutes.js:30-75 | creating a user leaves exactly the state and reply of `CreateUser` |
| AdminRoutes.HandleUpdateUser | backend/routes/adminRoutes.js:80-120 | updating a user leaves exactly the state and reply of `UpdateUser` |
| AdminRoutes.HandleDeleteUser | backend/routes/adminRoutes.js:125-148 | deleting a user leaves exactly the state and reply of `DeleteUser` |
| AdminRoutes.CreateUserEffect | backend/routes/adminRoutes.js:30-75 | a user is created exactly when name, e-mail and password are given and the normalised e-mail is not taken; the new user's role follows isAdmin while its isAdmin flag stays false; e-mails stay unique |
| AdminRoutes.UpdateUserFallbacks | backend/routes/adminRoutes.js:80-120 | an unknown id answers 404 "User not found" and changes nothing; otherwise the update fails, changing nothing, exactly when another account holds the resulting e-mail; a given name or e-mail is stored (trimmed, the e-mail lower-cased), an empty one keeps the stored value, an empty password keeps the stored password, the role follows the request's isAdmin, only that account changes, and e-mails stay unique |
| AdminRoutes.UpdateDemotesAdmin | backend/routes/adminRoutes.js:91-96 | an update without isAdmin turns an admin's role into "user" |
| AdminRoutes.DeleteUserEffect | backend/routes/adminRoutes.js:125-148 | delete removes exactly that user, or answers 404 and changes nothing |
| SubscriberRouter.HandleSubscribe | backend/routes/subscriberRouter.js:9-33 | subscribing leaves exactly the state and reply of `Subscribe` |
| SubscriberRouter.NoAtIsRejected | backend/routes/subscriberRouter.js:13-15 | an address without '@' fails the pattern |
| SubscriberRouter.ShortestAccepted | backend/routes/subscriberRouter.js:13-15 | "a@b.c" passes the pattern |
| SubscriberRouter.PatternUnanchored | backend/routes/subscriberRouter.js:13-15 | the pattern has no anchors: any text around a matching address still matches |
| SubscriberRouter.SubscribeEffect | backend/routes/subscriberRouter.js:9-33 | a subscription is stored exactly for a non-empty, matching, not yet subscribed address, under its normalised form, dated `now`, with 201; earlier subscribers keep their dates and no other collection changes; otherwise 400 and nothing changes |
| SubscriberRouter.SubscribeSameAddressTwice | backend/routes/subscriberRouter.js:19-22 | an address that differs only in case or surrounding spaces is refused as already subscribed |
| SubscriberRouter.StoredAddressIsFound | backend/models/Subscriber.js:4-11 | the stored address is the one a later lookup computes |
| ProductRoutes.ExactUnlessAll | backend/routes/productRoutes.js:191-197 | collection and category filter exactly when given and not "all" in any case |
| ProductRoutes.CommaList | backend/routes/productRoutes.js:199-217 | a given list parameter becomes the `$in` list of its comma-separated parts |
| ProductRoutes.Exact | backend/routes/productRoutes.js:211-213 | gender filters exactly when given |
| ProductRoutes.PriceBound | backend/routes/productRoutes.js:227-231 | a price bound exists when either limit is present, even an empty one, each bound being `Number` of its parameter |
| ProductRoutes.BuildQuery | backend/routes/productRoutes.js:181-231 | the query has each filter exactly under the condition the handler tests, with the value it computes |
| ProductRoutes.SortFor | backend/routes/productRoutes.js:233-244 | the three sort names choose price ascending, price descending and rating descending; anything else leaves the order unsorted |
| ProductRoutes.ResultLimit | backend/routes/productRoutes.js:246 | no limit means 0; a numeric limit needs a digit |
| ProductRoutes.LimitDigits | backend/routes/productRoutes.js:246 | a limit that starts with digits is their decimal value, whatever follows them, unless it starts with "0x" |
| ProductRoutes.LimitHex | backend/routes/productRoutes.js:246 | a limit written "0x" and hexadecimal digits is read in base 16 |
| ProductRoutes.LimitHexSixteen | backend/routes/productRoutes.js:246 | the limit "0x10" asks for sixteen products |
| ProductRoutes.EmptyMinPriceBounds | backend/routes/productRoutes.js:227-229 | an empty `minPrice` still bounds the price, at 0 |
| ProductRoutes.HandleUpdateProduct | backend/routes/productRoutes.js:76-149 | the update leaves exactly the state and reply of `UpdateProduct` |
| ProductRoutes.HandleDeleteProduct | backend/routes/productRoutes.js:154-175 | the delete leaves exactly the state and reply of `DeleteProduct` |
| ProductRoutes.ApplyUpdateLaws | backend/routes/productRoutes.js:107-125 | an empty update changes nothing, applying an update twice is applying it once, and the id is never changed |
| ProductRoutes.FalsyKeepsField | backend/routes/productRoutes.js:107-125 | a falsy value (0, "") keeps the old field, while the two flags can be set to false |
| ProductRoutes.UpdateDeleteEffect | backend/routes/productRoutes.js:76-175 | an unknown id answers 404 and changes nothing; otherwise only that product changes or is removed, with the order kept, and carts are untouched |
| ProductRoutes.SameKind | backend/routes/productRoutes.js:327-330 | exactly the other products of the same gender and category are candidates |
| ProductRoutes.Similar | backend/routes/productRoutes.js:317-344 | 404 "Product not found" exactly for an unknown product; otherwise the first four other products of the same gender and category in store order, or all of them when there are fewer than four |
| ProductRoutes.SimilarTakesFour | backend/routes/productRoutes.js:331 | when four or more candidates exist, exactly four are returned |
| CartSlice.Normalize | frontend/src/redux/slices/cartSlice.js:24-27 | an envelope with a cart is unwrapped; anything else is passed through |
| CartSlice.NormalizeCart | frontend/src/redux/slices/cartSlice.js:24-27 | a bare cart and an envelope around it normalise to the same cart |
| CartSlice.Initial | frontend/src/redux/slices/cartSlice.js:127-132 | the slice starts from the stored cart, idle, not loading and without an error |
| CartSlice.Items | frontend/src/redux/slices/cartSlice.js:197 | the selected items are the cart's products, or none without a cart |
| CartSlice.Total | frontend/src/redux/slices/cartSlice.js:198 | the selected total is the cart's total, or 0 |
| CartSlice.ItemCount | frontend/src/redux/slices/cartSlice.js:199-200 | the item count is the sum of the items' quantities, the same measure the backend uses |
| CartSlice.ClearCartEmpties | frontend/src/redux/slices/cartSlice.js:134-137 | clearing leaves no cart, no items and a zero total; nothing else changes |
| CartSlice.SetGuestIdEffect | frontend/src/redux/slices/cartSlice.js:138-143 | the guest id is set only on an existing cart, and the items and total are kept |
| CartSlice.RequestCycle | frontend/src/redux/slices/cartSlice.js:147-176 | fetch and add mark pending, store the payload on success, and keep the cart while recording the error on failure |
| CartSlice.MergeTouchesOnlyCart | frontend/src/redux/slices/cartSlice.js:177-189 | the merge stores only the cart; update, remove and merge have no pending or failure handling |
| CartSlice.FetchShowsServerCart | frontend/src/redux/slices/cartSlice.js:24-27 | a fetched cart, bare or in an envelope, shows the server's items, count and total |
| CartSlice.CartStore.constructor | frontend/src/redux/slices/cartSlice.js:127-132 | a new store holds the initial state |
| CartSlice.CartStore.Dispatch | frontend/src/redux/slices/cartSlice.js:133-189 | dispatching updates the store's fields to the reducer's result |
| ProductSlice.QueryFrom | frontend/src/redux/slices/productSlice.js:21-33 | a parameter is sent exactly when it is truthy, with its value |
| ProductSlice.QuerySendsTruthy | frontend/src/redux/slices/productSlice.js:28 | a minimum price of 0 or "" is not sent at all |
| ProductSlice.ClearedFilters | frontend/src/redux/slices/productSlice.js:108-122 | clearing sets all eleven filters to "" |
| ProductSlice.SetFilters | frontend/src/redux/slices/productSlice.js:105-107 | the payload's keys override and every other filter is kept |
| ProductSlice.FilterLaws | frontend/src/redux/slices/productSlice.js:105-122 | setting filters is idempotent, an empty payload changes nothing, and cleared filters keep their eleven keys |
| ProductSlice.ListOf | frontend/src/redux/slices/productSlice.js:131-133 | an array payload is taken as it is; anything else gives the empty list |
| ProductSlice.Assign | frontend/src/redux/slices/productSlice.js:155 | `Object.assign` keeps old fields and overrides them with the new ones |
| ProductSlice.UpsertEffect | frontend/src/redux/slices/productSlice.js:145-160 | the fetched product ends up in the list exactly once at its old place, or appended, and the other products are kept |
| ProductSlice.UpsertTwice | frontend/src/redux/slices/productSlice.js:151-158 | storing the same product twice is the same as storing it once |
| ProductSlice.UpdateEffect | frontend/src/redux/slices/productSlice.js:170-178 | the updated product replaces the first with its id, and a list without it is unchanged |
| ProductSlice.FetchLeavesStatusLoading | frontend/src/redux/slices/productSlice.js:127-135 | after a filtered fetch succeeds the status still reads "loading" |
| ProductSlice.DetailsSelect | frontend/src/redux/slices/productSlice.js:145-160 | fetched details become the selected product and appear in the list |
| ProductSlice.NonObjectPayloads | frontend/src/redux/slices/productSlice.js:145-179 | an update whose payload is not a product object never changes the list: it only reports success when the payload is missing and the list is empty, or when the payload is an array and every product has an id; a missing payload against a non-empty list makes the details and update cases throw and changes nothing |
| ProductSlice.ProductStore.constructor | frontend/src/redux/slices/productSlice.js:83-103 | a new store holds the initial state |
| ProductSlice.ProductStore.UpsertDetails | frontend/src/redux/slices/productSlice.js:145-160 | the in-place update of the details case computes `Upsert` and selects the product |
| ProductSlice.ProductStore.ReplaceUpdated | frontend/src/redux/slices/productSlice.js:170-178 | the in-place update of the update case computes `Update` |
| ProductSlice.ProductStore.Dispatch | frontend/src/redux/slices/productSlice.js:104-198 | dispatching updates the store's fields to the reducer's result |
| Collection.Started | frontend/src/redux/slices/adminProductSlice.js:72-75 | pending marks loading and clears the error |
| Collection.Failed | frontend/src/redux/slices/adminProductSlice.js:92-95 | failure stops loading and sets the error to the rejected action's payload: the message passed to `rejectWithValue`, or nothing for a thunk without one; the list is kept |
| Collection.Fetched | frontend/src/redux/slices/adminOrderSlice.js:64-67 | a fetch stores its payload as it is, an array or a reply object, stops loading and keeps the error |
| Collection.CreatedAppends | frontend/src/redux/slices/adminProductSlice.js:88-91 | create appends the new record at the end of a stored array and keeps the earlier records in place; on a stored reply object it throws and nothing changes |
| Collection.UpdatedReplacesFirst | frontend/src/redux/slices/adminProductSlice.js:100-106 | update replaces the first record with the same id, keeps every other record and the length, and changes nothing without a match; on a stored reply object nothing changes |
| Collection.DroppedRemovesAll | frontend/src/redux/slices/adminProductSlice.js:115-118 | delete by id keeps exactly the records with another id, in their order; on a stored reply object nothing changes |
| Collection.DroppedLikeRemovesAll | frontend/src/redux/slices/adminProductSlice.js:115-118 | delete by the payload keeps exactly the records whose id differs from the payload's id; on a stored reply object nothing changes |
| Collection.DroppedLikeNeedsId | frontend/src/redux/slices/adminOrderSlice.js:91-94 | a payload without an id drops exactly the records without an id and keeps the others, so a list whose records all have ids is left as it is |
| Collection.ListStore.constructor | frontend/src/redux/slices/adminProductSlice.js:64-68 | a new list store is empty, not loading and without an error |
| Collection.ListStore.Start | frontend/src/redux/slices/adminProductSlice.js:72-75 | the in-place pending case computes `Started` |
| Collection.ListStore.Fail | frontend/src/redux/slices/adminProductSlice.js:92-95 | the in-place failure case computes `Failed`: the error becomes the rejected action's payload |
| Collection.ListStore.Fetch | frontend/src/redux/slices/adminOrderSlice.js:64-67 | the in-place fetch case computes `Fetched`: the payload is stored as it is |
| Collection.ListStore.Create | frontend/src/redux/slices/adminProductSlice.js:88-91 | the in-place `push` computes `Created`, and leaves a stored reply object alone |
| Collection.ListStore.Update | frontend/src/redux/slices/adminProductSlice.js:100-106 | the in-place `findIndex` and assignment compute `Updated` |
| Collection.ListStore.DeleteLike | frontend/src/redux/slices/adminProductSlice.js:115-118 | the in-place `filter` by the payload's id computes `DroppedLike` |
| Collection.ListStore.Delete | frontend/src/redux/slices/adminOrderSlice.js:91-94 | the corrected delete in place: filtering by the requested id computes `Dropped` |
| AdminProductSlice.PhasesOfEveryOp | frontend/src/redux/slices/adminProductSlice.js:5-122 | pending marks loading and clears the error; failure stops loading and keeps the list; a failed create, update or delete records its `rejectWithValue` message, while a failed fetch, whose thunk has no `rejectWithValue`, leaves the error empty |
| AdminProductSlice.FetchStoresEnvelope | frontend/src/redux/slices/adminProductSlice.js:76-118 | as written, the fetch stores the reply object `{success, products}`, and every later create, update and delete then throws and leaves it as it is |
| AdminProductSlice.CorrectedFetchLists | frontend/src/redux/slices/adminProductSlice.js:76-79 | corrected, the fetched products become the list, in the server's order |
| AdminProductSlice.CorrectedKeepsArray | frontend/src/redux/slices/adminProductSlice.js:64-122 | corrected, the product list always holds an array |
| AdminProductSlice.CreateThenDelete | frontend/src/redux/slices/adminProductSlice.js:88-118 | creating and then deleting a product with an id leaves the list without that id |
| AdminProductSlice.Dispatch | frontend/src/redux/slices/adminProductSlice.js:72-122 | dispatching updates the list store in place to the as-written reducer's result: the fetch stores the reply object, a failed fetch records no error, and the delete matches on the payload's `_id` |
| AdminOrderSlice.DeleteAsWrittenKeepsOrder | frontend/src/redux/slices/adminOrderSlice.js:91-94 | as written, the delete reply `{message}` has no `_id`: it drops only records without an id, so an order with the deleted id stays listed; on a stored reply object nothing changes |
| AdminOrderSlice.FetchStoresEnvelope | frontend/src/redux/slices/adminOrderSlice.js:64-94 | as written, the fetch stores the reply object `{success, orders}`, and every later status update and delete then throws and leaves it as it is |
| AdminOrderSlice.CorrectedFetchLists | frontend/src/redux/slices/adminOrderSlice.js:64-67 | corrected, the fetched orders become the list, in the server's order |
| AdminOrderSlice.StatusUpdateAsWrittenKeepsOrders | frontend/src/redux/slices/adminOrderSlice.js:76-82 | as written, the status reply `{success, order}` has no `_id` at its top level, so on a list whose orders all have ids the update changes no order |
| AdminOrderSlice.DeleteRemovesOrder | frontend/src/redux/slices/adminOrderSlice.js:91-94 | corrected, a delete leaves no order with the deleted id and keeps every other order |
| AdminOrderSlice.CorrectedKeepsArray | frontend/src/redux/slices/adminOrderSlice.js:52-98 | corrected, the list field always holds an array |
| AdminOrderSlice.PhasesOfEveryOp | frontend/src/redux/slices/adminOrderSlice.js:5-98 | every thunk of this slice passes its message to `rejectWithValue`, so every pending case marks loading and clears the error, and every failure records that message; the list is kept |
| AdminOrderSlice.Dispatch | frontend/src/redux/slices/adminOrderSlice.js:60-98 | dispatching updates the list store in place to the as-written reducer's result: the fetch stores the payload, update and delete match on the payload's `_id` |
| AdminSlice.DeleteAsWrittenKeepsUser | frontend/src/redux/slices/adminSlice.js:117-120 | as written, the delete reply `{success, message}` has no `_id`: every user with an id stays listed, every record without one is dropped, and a list whose users all have ids only stops loading; on a stored reply object nothing changes |
| AdminSlice.DeleteAsWrittenEmptiesIdless | frontend/src/redux/slices/adminSlice.js:117-120 | as written, a delete empties a list whose records have no id |
| AdminSlice.CreateTwiceThenDelete | frontend/src/redux/slices/adminSlice.js:90-120 | from a fresh store, two creates push the two `{success, message, user}` replies, and any delete then empties the list |
| AdminSlice.FetchStoresEnvelope | frontend/src/redux/slices/adminSlice.js:78-120 | as written, the fetch stores the reply object `{success, users}`, and every later create, update and delete then throws and leaves it as it is |
| AdminSlice.CorrectedFetchLists | frontend/src/redux/slices/adminSlice.js:78-81 | corrected, the fetched users become the list, in the server's order |
| AdminSlice.CorrectedReduce | frontend/src/redux/slices/adminSlice.js:74-124 | the corrected reducer never changes the products or the orders either |
| AdminSlice.CorrectedKeepsArray | frontend/src/redux/slices/adminSlice.js:64-124 | corrected, the user list always holds an array |
| AdminSlice.Reduce | frontend/src/redux/slices/adminSlice.js:74-124 | the reducer as written never changes the products or the orders, which no case touches |
| AdminSlice.PhasesOfEveryOp | frontend/src/redux/slices/adminSlice.js:5-124 | pending marks loading and clears the error; failure stops loading and keeps the users; a failed create, update or delete records its `rejectWithValue` message, while a failed fetch, whose thunk has no `rejectWithValue`, leaves the error empty |
| AdminSlice.UserListEffects | frontend/src/redux/slices/adminSlice.js:90-120 | on a stored array, create appends the user after the unchanged list; the corrected delete keeps exactly the users with another id |
| AdminSlice.AdminStore.constructor | frontend/src/redux/slices/adminSlice.js:64-70 | a new admin store holds empty lists |
| AdminSlice.AdminStore.Dispatch | frontend/src/redux/slices/adminSlice.js:74-124 | dispatching updates the user list in place to the as-written reducer's result, a failed fetch recording no error; the product and order lists are outside the frame |
| CartContent.CartItems | frontend/src/components/Cart/CartContent.jsx:8 | the list shown is the cart's products, or none |
| CartContent.ShowsEmptyCases | frontend/src/components/Cart/CartContent.jsx:50-52 | "empty" is shown exactly without a cart or with no products |
| CartContent.Increase | frontend/src/components/Cart/CartContent.jsx:10-21 | "+" asks for one more unit of the same line for the same caller |
| CartContent.Decrease | frontend/src/components/Cart/CartContent.jsx:23-36 | "−" sends a request exactly when the quantity is above 1, asking for one unit fewer |
| CartContent.Remove | frontend/src/components/Cart/CartContent.jsx:38-48 | remove names the same line and caller |
| CartContent.IncreaseAddsOne | frontend/src/components/Cart/CartContent.jsx:10-21 | "+" on a shown line succeeds and adds exactly one unit to that line's key |
| CartContent.DecreaseNeverRemoves | frontend/src/components/Cart/CartContent.jsx:23-36 | "−" never removes a line: it succeeds, keeps the line count, and takes one unit off |
| CartContent.RemoveTakesLineOut | frontend/src/components/Cart/CartContent.jsx:38-48 | remove on a shown line succeeds and takes exactly that line out |
| FilterSidebar.ParseDefaults | frontend/src/components/Products/FilterSidebar.jsx:26-39 | without parameters the filters are the initial ones; a max price of 0 reads as 100; a missing min price reads as 0 |
| FilterSidebar.Toggle | frontend/src/components/Products/FilterSidebar.jsx:86-89 | a checked value is removed, an unchecked one is appended |
| FilterSidebar.ToggleKeepsOthers | frontend/src/components/Products/FilterSidebar.jsx:86-89 | toggling keeps every other value |
| FilterSidebar.ToggleRemovesInPlace | frontend/src/components/Products/FilterSidebar.jsx:86-89 | unchecking a value takes it out where it stood, keeping the values before and after it in their order |
| FilterSidebar.ToggleTwice | frontend/src/components/Products/FilterSidebar.jsx:86-89 | checking and then unchecking a value restores the list |
| FilterSidebar.Select | frontend/src/components/Products/FilterSidebar.jsx:54 | a radio choice sets its parameter and keeps the others |
| FilterSidebar.WriteThenRead | frontend/src/components/Products/FilterSidebar.jsx:26-39 | a list written to the URL is read back unchanged |
| FilterSidebar.ToggleColorRoundTrip | frontend/src/components/Products/FilterSidebar.jsx:106-109 | toggling a colour through the URL changes the read-back colours by exactly that toggle and nothing else |
| FilterSidebar.Slide | frontend/src/components/Products/FilterSidebar.jsx:164-167 | the slider sets the range to 0 up to its value and writes maxPrice |
| FilterSidebar.SlideThenRead | frontend/src/components/Products/FilterSidebar.jsx:164-167 | after re-reading, the slider's value is the maximum, except that 0 reads back as 100 |
| FilterSidebar.SelectRadio | frontend/src/components/Products/FilterSidebar.jsx:54-70 | choosing a category or gender changes only that filter |
| ProductDetails.Step | frontend/src/components/Products/ProductDetails.jsx:88-95 | plus adds one; minus takes one away only above 1 |
| ProductDetails.StepKeepsPositive | frontend/src/components/Products/ProductDetails.jsx:88-95 | the quantity never drops below 1 |
| ProductDetails.StepsBounds | frontend/src/components/Products/ProductDetails.jsx:88-95 | after any sequence of clicks the quantity is at least 1 and at most the start plus the number of plus clicks |
| ProductDetails.StepInverse | frontend/src/components/Products/ProductDetails.jsx:88-95 | minus undoes plus, and minus at 1 stays at 1 |
| ProductDetails.View.constructor | frontend/src/components/Products/ProductDetails.jsx:74-78 | the page starts without image, colour or size, at quantity 1, with the button enabled |
| ProductDetails.View.Mount | frontend/src/components/Products/ProductDetails.jsx:81-85 | the first image becomes the main image when there is one |
| ProductDetails.View.ChangeQuantity | frontend/src/components/Products/ProductDetails.jsx:88-95 | the stepper updates only the quantity, which stays at least 1 |
| ProductDetails.View.SelectColor | frontend/src/components/Products/ProductDetails.jsx:182 | choosing a colour changes only the colour |
| ProductDetails.View.SelectSize | frontend/src/components/Products/ProductDetails.jsx:205 | choosing a size changes only the size |
| ProductDetails.View.SelectImage | frontend/src/components/Products/ProductDetails.jsx:129 | clicking a thumbnail changes only the main image |
| ProductDetails.View.AddToCart | frontend/src/components/Products/ProductDetails.jsx:98-113 | the add is accepted exactly when colour and size are chosen, and then disables the button |
| ProductDetails.View.TimerFires | frontend/src/components/Products/ProductDetails.jsx:108-111 | the timer re-enables the button and changes nothing else |
| ProductDetails.FreshPageRefusesAdd | frontend/src/components/Products/ProductDetails.jsx:98-103 | on a fresh page, before any choice, the add is refused |
| AdminProductsPage.Filtered | frontend/src/components/Admin/Products.jsx:88-93 | exactly the products whose name, category or brand contains the search term, ignoring case, are shown |
| AdminProductsPage.EmptySearchShowsAll | frontend/src/components/Admin/Products.jsx:88-93 | an empty search shows every product, in order |
| AdminProductsPage.FilteredAppend | frontend/src/components/Admin/Products.jsx:88-93 | the search keeps the order of the list |
| AdminProductsPage.ValidateForm | frontend/src/components/Admin/Products.jsx:96-107 | each of name, category, price and stock has an error exactly when missing or not positive, and the form is valid exactly without errors |
| AdminProductsPage.MaxId | frontend/src/components/Admin/Products.jsx:126 | the largest id, or 0, bounds every id |
| AdminProductsPage.ReplaceById | frontend/src/components/Admin/Products.jsx:117-119 | every product with the edited id is replaced and the others kept |
| AdminProductsPage.SaveEffect | frontend/src/components/Admin/Products.jsx:110-132 | an invalid form changes nothing; an edit replaces by id; a new product is appended with an id no other product has |
| AdminProductsPage.NewIdsStayDistinct | frontend/src/components/Admin/Products.jsx:122-128 | adding a product keeps ids distinct and positive |
| AdminProductsPage.DeleteEffect | frontend/src/components/Admin/Products.jsx:151-154 | delete removes exactly the products with that id and keeps the order |
| AdminOrdersPage.Filtered | frontend/src/components/Admin/Orders.jsx:18-23 | exactly the orders matching the search by id or customer and the status filter are shown |
| AdminOrdersPage.StatusOptions | frontend/src/components/Admin/Orders.jsx:72-75 | the options are the page's four lower-case statuses other than the current one, in the page's order, the current one cut out where it stands |
| AdminOrdersPage.WithoutOrder | frontend/src/components/Admin/Orders.jsx:72-75 | `filter` keeps the list when the status is absent, and cuts out a status that occurs once where it stands |
| AdminOrdersPage.PageStatusesRejectedByServer | frontend/src/components/Admin/Orders.jsx:72-75 | none of the page's lower-case statuses is one the server accepts |
| AdminOrdersPage.OpenStatusDialog | frontend/src/components/Admin/Orders.jsx:53-58 | opening the dialog selects the order with that id and preselects its status |
| AdminOrdersPage.UpdateOrderStatusEffect | frontend/src/components/Admin/Orders.jsx:60-70 | without a selection or status nothing changes; otherwise only the selected order's status changes and the dialog closes |
| AdminOrdersPage.ConfirmPreselectedIsNoChange | frontend/src/components/Admin/Orders.jsx:53-70 | confirming the preselected status leaves the orders unchanged |
| AdminUsersPage.Flip | frontend/src/components/Admin/Users.jsx:28 | "active" becomes "inactive" and anything else becomes "active" |
| AdminUsersPage.Toggle | frontend/src/components/Admin/Users.jsx:25-31 | only users with that id have their status flipped |
| AdminUsersPage.ToggleTouchesOnlyStatus | frontend/src/components/Admin/Users.jsx:25-31 | toggling changes no field but the status |
| AdminUsersPage.ToggleTwice | frontend/src/components/Admin/Users.jsx:25-31 | toggling twice restores an active or inactive user |
| AdminUsersPage.DeleteEffect | frontend/src/components/Admin/Users.jsx:21-23 | delete removes exactly the users with that id and keeps the order |
| Scenarios.CheckoutLeavesNewCart | backend/routes/checkoutRoutes.js:138-141 | after add, checkout, pay and finalise, the cart created by the add survives (its `user` is unset) while the user's cart read answers 404 |
| Scenarios.CreatedAdminCannotReadOrders | backend/routes/adminRoutes.js:50 | a user created with isAdmin gets role "admin" but is refused another user's order with 401 |

## Left out

- Money is integer cents. The source's floating-point prices, `toFixed` and the unrounded merge total are not modelled.
- `toLowerCase` is modelled for ASCII letters only.
- Mongoose query evaluation, the query operators and sorting are not modelled. The product query is modelled as the filter object it builds, not as the documents it returns. The field names `meterial` and `dimentions` are kept as the update handler writes them.
- The `protect` and `admin` middleware are not part of this model. The signed-in user and the admin check are taken as given, and password hashing and JWTs are not modelled.
- The Mongoose schema validators are not modelled. The Order model is not part of this model, and an order is assumed to start "Processing". A user created through the admin route gets the User model's default `isAdmin` of false.
- `Date.now()`, freshly generated ids and the random guest id are parameters.
- Concurrency is not modelled. `Promise.all`, the non-atomic finalise and two requests interleaving are left out.
- The Order, Cart, Checkout and Product models are not part of this model. Their documents hold only the fields the handlers read or write.
- Product creation, best sellers, new arrivals and GET by id are not modelled.
- Js.ToNumber: fractions, exponents, hexadecimal and "Infinity" are read as NaN.
- Js.Trim: states only that the result is no longer than the input and neither starts nor ends with white space, not that it is the longest such infix.
- The 500 replies for database errors are not modelled. Neither is the unique-index error on a duplicate subscriber.
- OrderAdminRoutes.GetOrderAccess: requires the caller to be a stored user, which the authentication middleware guarantees.
- AdminOrdersPage.OpenStatusDialog: requires an order with that id, since the page only offers ids from its list.
- ProductSlice.QueryFrom: does not state the order of the URL parameters, only which ones are sent and with what value.
- ProductSlice.Reduce: the list holds product objects only, so where the source would store a payload that is not one, the model keeps the state. For details, the source merges an array payload into a product without an id or pushes it, and pushes a missing payload when the list is empty; either way it selects the payload. For an update, it replaces a product without an id by an array payload. The source throws, and the model keeps the state, only for a missing payload against a non-empty list.
- localStorage, axios, thunk bodies and the request headers are left out. The stored cart is a parameter of `CartSlice.Initial`.
- Toasts and `setTimeout` are not modelled. The timer is the separate `TimerFires` method.
- FilterSidebar.Slide: requires a string of digits, since the range input only yields one.
- The status update replies `{success, order: {id, status, updatedAt}}`, so the payload the admin order slice matches has no `_id` at all and the update finds nothing. The user create reply `{success, message, user}` is appended as it is. Both are modelled as written.
- A reducer that throws is modelled as leaving the state unchanged; the exception reaching the component that dispatched is not modelled.
- The admin product routes (backend/routes/productAdminRoutes.js) define only the list route, which replies `{success, products}`; the slice's create, update and delete requests reach no route there. The model still takes their fulfilled cases as the slice writes them.
- backend/server.js:32-35 mounts no admin, order-admin or subscriber router. The model treats those routes as reachable at the paths the slices call.
- ProductRoutes.ResultLimit: its own contract states only the absent case and that a number needs a digit; the values read are stated by `LimitDigits`, `LimitHex` and `LimitHexSixteen`.
- AdminRoutes.UpdateUserFallbacks: requires unique e-mails and a stored account whose name is trimmed and e-mail normalised, which the User schema's unique index and setters guarantee for stored documents.
- Js.ParseInt: JavaScript loses precision on values beyond 2^53; the model's integers are exact.

## Findings

| source | as written | input that shows it | evidently intended | confidence | as-written member | corrected member |
|---|---|---|---|---|---|---|
| frontend/src/redux/slices/adminProductSlice.js:76-79 | the fetch case stores `action.payload` as the product list | any fetch; the list reply is `{success, products}` (backend/routes/productAdminRoutes.js:13-16), an object, on which the later `push`, `findIndex` and `filter` throw | store the `products` array of the reply | not executed | AdminProductSlice.FetchStoresEnvelope | AdminProductSlice.CorrectedFetchLists |
| frontend/src/redux/slices/adminOrderSlice.js:64-67 | the fetch case stores `action.payload` as the order list | any fetch; the list reply is `{success, orders}` (backend/routes/orderAdminRoutes.js:13-16), an object, on which the later `findIndex` and `filter` throw | store the `orders` array of the reply | not executed | AdminOrderSlice.FetchStoresEnvelope | AdminOrderSlice.CorrectedFetchLists |
| frontend/src/redux/slices/adminOrderSlice.js:91-94 | the delete case filters by `action.payload._id` | a stored order with an id; the delete reply is `{message: "Order removed"}` (backend/routes/orderAdminRoutes.js:103), which has no `_id`, so that order stays | remove the order with the deleted id | not executed | AdminOrderSlice.DeleteAsWrittenKeepsOrder | AdminOrderSlice.DeleteRemovesOrder |
| frontend/src/redux/slices/adminSlice.js:78-81 | the fetch case stores `action.payload` as the user list | any fetch; the list reply is `{success, users}` (backend/routes/adminRoutes.js:13-16), an object, on which the later `push`, `findIndex` and `filter` throw | store the `users` array of the reply | not executed | AdminSlice.FetchStoresEnvelope | AdminSlice.CorrectedFetchLists |
| frontend/src/redux/slices/adminSlice.js:117-120 | the delete case filters by `action.payload._id` | a stored user with an id; the delete reply is `{success, message}` (backend/routes/adminRoutes.js:136-139), which has no `_id`, so that user stays while every record without an id, such as a pushed create reply, is dropped | remove the user with the deleted id | not executed | AdminSlice.DeleteAsWrittenKeepsUser | AdminSlice.UserListEffects |

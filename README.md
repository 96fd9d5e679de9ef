# jshop storefront — a Dafny model

jshop is a small Next.js clothing shop whose state lives in four zustand
stores: the cart, the order ledger, the product catalogue and the signed-in
session. Pages read those stores and call their actions. This project models:

- the four stores, each as a class whose fields the actions update, with
  pure functions giving the state each action leaves behind;
- the money rules: goods total, shipping fee, final total, the free-shipping
  hint and the discount badge;
- the pages that orchestrate store calls: checkout submit, the cart page
  buttons, customer and administrator sign-in, and the admin order status
  change;
- the pure list queries: catalogue search, category and sort, the admin order
  filter, the dashboard figures and the per-user aggregation;
- the image upload endpoint's validation chain, filename sanitiser and URL.

Modules, one per source file, plus three shared ones:

| module | file | models |
|---|---|---|
| `Wrappers` | wrappers.dfy | `Option` |
| `JsString` | js_string.dfy | `Number.toString`, `toLowerCase` (ASCII), `includes`, `trim` |
| `JsArray` | js_array.dfy | `filter`, `findIndex`, `find`, summing `reduce` |
| `Types` | types.dfy | types/index.ts |
| `Pricing` | pricing.dfy | shared price and shipping rules |
| `Cart` | cart_store.dfy | store/cartStore.ts |
| `Orders` | order_store.dfy | store/orderStore.ts |
| `Catalogue` | product_store.dfy | store/productStore.ts |
| `Auth` | auth_store.dfy | store/authStore.ts |
| `CheckoutPage` | checkout_page.dfy | app/checkout/page.tsx |
| `CartPage` | cart_page.dfy | app/cart/page.tsx |
| `ProductsPage` | products_page.dfy | app/products/page.tsx |
| `AdminDashboard` | admin_dashboard.dfy | app/admin/page.tsx |
| `AdminOrdersPage` | admin_orders_page.dfy | app/admin/orders/page.tsx |
| `AdminUsersPage` | admin_users_page.dfy | app/admin/users/page.tsx |
| `AdminLoginPage` | admin_login_page.dfy | app/admin/login/page.tsx |
| `LoginPage` | login_page.dfy | app/login/page.tsx |
| `ProductCard` | product_card.dfy | components/ProductCard.tsx |
| `UploadRoute` | upload_route.dfy | app/api/upload/route.ts |

Every reading of `Date.now()` or `new Date().toISOString()` is a parameter.
`createOrder` reads the clock twice, so it takes two readings. Where the
code and the written description of the shop disagree, the model follows the
code:

- The `User` and `Order` interfaces declare no `role` and no
  `paymentStatus`, but the code writes the first and reads the second; both
  are explicit fields here.
- No code path confirms a payment or sets `paymentStatus`. Every order the
  model creates is therefore unpaid, and revenue and per-user spending stay
  0 (`AdminDashboard.RevenueZeroWhileUnpaid`, `Orders.NewOrderUnpaid`).
- `totalAmount` is the goods total alone. Shipping is shown to the customer
  but never recorded (`CheckoutPage.RecordedAmountOmitsShipping`).
- Order and product ids come from the clock and are not checked for
  uniqueness. Two orders made in one millisecond share an id, and the second
  cannot be found by id (`Orders.SameMillisecondShadows`).
- The administrator sign-in form does not always end with "signed in only as
  an administrator". A wrong password leaves an existing customer session as
  it was; only a successful non-admin sign-in is undone.

## Model

| member | source | states |
|---|---|---|
| JsArray.FilterContents | store/cartStore.ts:40-43 | `filter` keeps exactly the elements passing the test, each as many times as in the input |
| JsArray.FilterSubsequence | store/cartStore.ts:40-43 | `filter` keeps the survivors in their original order |
| JsArray.FilterAllBut | store/cartStore.ts:40-43 | a filter that fails exactly one position drops just that element and keeps the rest in order |
| JsArray.FindIndex | store/cartStore.ts:21-26 | `findIndex` gives -1 iff no element passes, else the first passing index |
| JsArray.Find | store/orderStore.ts:37 | `find` gives undefined iff no element passes, else the first passing element |
| JsArray.SumAppend | store/cartStore.ts:59-64 | a summing `reduce` over a concatenation is the sum of the two parts |
| JsArray.SumUpdate | store/cartStore.ts:65-67 | replacing one element changes the sum by the difference of its two terms |
| JsArray.SumBump | app/admin/users/page.tsx:27-40 | over a list without repeats, raising one term by c raises the sum by c |
| JsString.DecimalString | store/orderStore.ts:24 | `toString()` of a clock reading is a non-empty digit string with no leading zero |
| JsString.ParseDecimalString | store/orderStore.ts:24 | the decimal string reads back as the number it was made from |
| JsString.DecimalStringInjective | store/orderStore.ts:22-24 | two clock readings give the same string iff they are equal |
| JsString.ToLowerCaseIdempotent | app/products/page.tsx:32-33 | lower-casing leaves no capital letter, and doing it twice is doing it once |
| JsString.Includes | app/products/page.tsx:32-33 | `includes` is true iff the needle occurs at some position |
| JsString.IncludesEmpty | app/products/page.tsx:32-33 | every string includes the empty string |
| JsString.TrimStart | app/login/page.tsx:34 | the result is a suffix whose removed prefix is all white space and which starts with a non-space |
| JsString.TrimEnd | app/login/page.tsx:34 | the result is a prefix whose removed suffix is all white space and which ends with a non-space |
| JsString.TrimEmptyIffBlank | app/login/page.tsx:34 | `trim()` yields "" iff the string is entirely white space |
| Types.StatusNameInjective | types/index.ts:46 | the five status spellings are distinct |
| Pricing.GoodsTotalEmpty | store/cartStore.ts:59-64 | the empty cart totals 0 |
| Pricing.GoodsTotalAppend | store/orderStore.ts:18-21 | one more line adds its price × quantity to the goods total |
| Pricing.ShippingFee | app/checkout/page.tsx:44 | the fee is 0 iff the goods total is at least 50 000, and 3 000 iff it is below |
| Pricing.FinalTotal | app/checkout/page.tsx:45 | the total to pay exceeds the goods total by 0 or 3 000, and equals it iff shipping is free |
| Pricing.FinalTotalDropsAtThreshold | app/cart/page.tsx:15-16 | just below 50 000 the customer pays more than at 50 000 |
| Cart.AddLineMerges | store/cartStore.ts:19-31 | for a key already in the cart, addItem adds the quantity to its first line; length and every other line are unchanged |
| Cart.AddLineAppends | store/cartStore.ts:32-35 | for a new key, addItem appends exactly one line with the given product, quantity, size and colour |
| Cart.AddLineQuantityOf | store/cartStore.ts:19-37 | addItem raises the units held for its key by the quantity and leaves every other key's units alone |
| Cart.AddLineTotalItems | store/cartStore.ts:65-67 | addItem raises the item count by the quantity |
| Cart.AddLineGoodsTotal | store/cartStore.ts:59-64 | addItem raises the total price by price × quantity |
| Cart.AddLineUnique | store/cartStore.ts:19-37 | addItem keeps at most one line per key |
| Cart.RemoveLines | store/cartStore.ts:38-45 | removeItem keeps exactly the lines without the key, each once, in order |
| Cart.RemoveLinesQuantityOf | store/cartStore.ts:38-45 | after removeItem the cart holds none of that key |
| Cart.NoLineMeansZero | store/cartStore.ts:38-45 | a key with no line has zero units |
| Cart.RemoveLinesUnique | store/cartStore.ts:38-45 | removeItem keeps at most one line per key |
| Cart.RemoveLinesOneLine | store/cartStore.ts:38-45 | in a cart with one line per key, removing line k's key drops exactly line k |
| Cart.SetQuantity | store/cartStore.ts:51-56 | updateQuantity keeps length and order and sets the quantity of exactly the matching lines |
| Cart.UpdateNonPositiveIsRemove | store/cartStore.ts:46-50 | updateQuantity with quantity ≤ 0 is removeItem on the same key |
| Cart.UpdateUnknownKeyIsNoOp | store/cartStore.ts:51-56 | updateQuantity for a key not in the cart changes nothing |
| Cart.SetQuantityOneLine | store/cartStore.ts:51-56 | in a cart with one line per key, updating line k's key changes only line k's quantity |
| Cart.UpdateLinesUnique | store/cartStore.ts:46-57 | updateQuantity keeps at most one line per key |
| Cart.CartStore.constructor | store/cartStore.ts:18 | the cart starts empty |
| Cart.CartStore.AddItem | store/cartStore.ts:19-37 | the new lines are the addItem function of the old ones, and one line per key is preserved |
| Cart.CartStore.RemoveItem | store/cartStore.ts:38-45 | the new lines are the removeItem function of the old ones, and one line per key is preserved |
| Cart.CartStore.UpdateQuantity | store/cartStore.ts:46-57 | the new lines are the updateQuantity function of the old ones, and one line per key is preserved |
| Cart.CartStore.ClearCart | store/cartStore.ts:58 | the cart is empty, with total price and item count 0 |
| Orders.FindOrder | store/orderStore.ts:36-38 | getOrder finds nothing iff no order has the id, else the first order with it |
| Orders.UserOrders | store/orderStore.ts:39-41 | getUserOrders holds exactly the user's orders |
| Orders.UserOrdersContents | store/orderStore.ts:39-41 | getUserOrders holds each of the user's orders as often as the ledger does, in ledger order |
| Orders.UserOrdersAppend | store/orderStore.ts:33-41 | a new order joins its owner's list at the end and no one else's |
| Orders.WithStatus | store/orderStore.ts:42-48 | updateOrderStatus keeps length and every field except status, and sets the status of exactly the orders with the id |
| Orders.WithStatusUnknownId | store/orderStore.ts:42-48 | an id no order carries leaves the ledger unchanged |
| Orders.WithStatusReachesAny | store/orderStore.ts:42-48 | any status can be set from any status |
| Orders.WithStatusKeepsAmounts | store/orderStore.ts:42-48 | a status change keeps amount, items, owner, id and order number |
| Orders.LaterClockGivesNewId | store/orderStore.ts:24 | an id from a clock reading later than all earlier ones is new |
| Orders.SameMillisecondShadows | store/orderStore.ts:24-37 | two orders with one id: getOrder only ever finds the first |
| Orders.SameClockSameId | store/orderStore.ts:22-24 | orders made at one clock reading get the same id and order number |
| Orders.NewOrderUnpaid | store/orderStore.ts:23-32 | a created order has no payment status and contributes nothing to revenue |
| Orders.OrderStore.constructor | store/orderStore.ts:16 | the ledger starts empty |
| Orders.OrderStore.CreateOrder | store/orderStore.ts:17-35 | the returned order is the one NewOrder describes: the goods total, status pending, the clock-made id and `ORD-` number, no payment status; it is appended to the ledger |
| Orders.OrderStore.UpdateOrderStatus | store/orderStore.ts:42-48 | the new ledger is the status change of the old one, with every amount kept |
| Catalogue.ApplyPatch | store/productStore.ts:28 | `{ ...product, ...patch }`: each of the thirteen fields takes the patch's value when the patch names it and keeps the product's otherwise |
| Catalogue.ApplyEmptyPatch | store/productStore.ts:28 | an empty patch changes nothing |
| Catalogue.ApplyPatchIdempotent | store/productStore.ts:28 | applying one patch twice is applying it once |
| Catalogue.PatchProducts | store/productStore.ts:25-31 | updateProduct keeps length and patches exactly the products with the id |
| Catalogue.PatchUnknownIdIsNoOp | store/productStore.ts:25-31 | an unknown id leaves the catalogue unchanged |
| Catalogue.RemoveProduct | store/productStore.ts:32-36 | deleteProduct keeps exactly the products with another id, each once, in order |
| Catalogue.FindProduct | store/productStore.ts:37-39 | getProduct finds nothing iff no product has the id, else the first product with that id |
| Catalogue.DeletedProductIsGone | store/productStore.ts:32-39 | after deleteProduct the id is not found |
| Catalogue.DeleteKeepsOthers | store/productStore.ts:32-39 | deleteProduct keeps every other id findable, and adds none |
| Catalogue.PatchingIdCanShadow | store/productStore.ts:25-39 | a patch that copies another product's id hides the patched product from getProduct |
| Catalogue.ProductStore.constructor | store/productStore.ts:17 | the catalogue starts as the seed list |
| Catalogue.ProductStore.AddProduct | store/productStore.ts:18-24 | the product is appended with the clock-made id |
| Catalogue.ProductStore.UpdateProduct | store/productStore.ts:25-31 | the new catalogue is the patch of the old one |
| Catalogue.ProductStore.DeleteProduct | store/productStore.ts:32-36 | the new catalogue is the removal from the old one, and the id is no longer found |
| Auth.SeededUsers | store/authStore.ts:16-31 | the account table starts with only the administrator, whose role is admin |
| Auth.Authenticate | store/authStore.ts:41-42 | sign-in succeeds iff the email is known and the password matches, and yields that account's user |
| Auth.AdminCredentials | store/authStore.ts:19-42 | on the seeded table the admin email signs in iff the password is admin123 |
| Auth.NewUser | store/authStore.ts:57-62 | a registered user has the given email and name, role user, a clock-made id, no phone, no address |
| Auth.Enroll | store/authStore.ts:54-63 | register fails iff the email is known; otherwise it adds exactly that account and keeps all others |
| Auth.RegisterThenLogin | store/authStore.ts:39-70 | right after register, the same email and password sign in as the new user |
| Auth.RegisterKeepsLogins | store/authStore.ts:39-70 | register does not change how any other email signs in |
| Auth.MergeUser | store/authStore.ts:77 | `{ ...user, ...patch }`: each of the six fields is the patch's when given and the user's otherwise, so an empty patch changes nothing |
| Auth.AdminViewMeansAdminRole | store/authStore.ts:46 | with consistent session flags, "signed in and admin" holds iff the user's role is admin |
| Auth.AuthStore.constructor | store/authStore.ts:36-38 | signed out, with the seeded table |
| Auth.AuthStore.Login | store/authStore.ts:39-51 | true iff the credentials match; then the session is that user with isAdmin from the role; otherwise nothing changes |
| Auth.AuthStore.Register | store/authStore.ts:52-70 | true iff the email is new; then the table gains the account and the new user is signed in as non-admin; otherwise nothing changes |
| Auth.AuthStore.Logout | store/authStore.ts:71-73 | signed out, table unchanged |
| Auth.AuthStore.UpdateUser | store/authStore.ts:74-83 | without a user nothing changes; with one, the user is merged with the patch and isAdmin follows the merged role |
| CheckoutPage.InitialAddress | app/checkout/page.tsx:16-22 | the form starts with empty address fields and the user's name and phone; the phone is "" without a user or when the user has none |
| CheckoutPage.InitialAddressIncomplete | app/checkout/page.tsx:16-57 | the initial form never passes the field check |
| CheckoutPage.BlankFieldsAccepted | app/checkout/page.tsx:51-57 | the field check accepts fields made only of spaces |
| CheckoutPage.CheckoutRedirect | app/checkout/page.tsx:24-41 | to login iff not signed in; to the cart iff signed in with an empty cart; otherwise the form shows |
| CheckoutPage.RecordedAmountOmitsShipping | app/checkout/page.tsx:43-63 | the order records the goods total, which is less than the amount shown whenever shipping is charged |
| CheckoutPage.HandleSubmit | app/checkout/page.tsx:47-66 | no form or a missing field changes nothing; otherwise the user's order for the old cart is appended to the ledger and the cart emptied |
| CartPage.CheckoutClick | app/cart/page.tsx:18-29 | to login iff signed out; "cart empty" iff signed in with no lines; checkout iff signed in with lines |
| CartPage.CheckoutClickLeadsToForm | app/cart/page.tsx:18-29 | with a consistent session, the cart sends on to checkout iff checkout shows its form |
| CartPage.FreeShippingHint | app/cart/page.tsx:141-146 | the hint shows iff shipping is charged, and names the least amount that makes it free |
| CartPage.TrashClick | app/cart/page.tsx:81-82 | removes the line's key, which in a cart with one line per key drops exactly that line |
| CartPage.MinusClick | app/cart/page.tsx:89-97 | quantity − 1, which drops a line that held one or less and otherwise lowers just that line by one |
| CartPage.PlusClick | app/cart/page.tsx:103-110 | quantity + 1, which raises the item count by one |
| CartPage.PlusRaisesTotal | app/cart/page.tsx:103-110 | in a cart with one line per key, plus raises the item count by exactly one |
| CartPage.MinusLowersTotal | app/cart/page.tsx:89-97 | on a line holding more than one, minus lowers the item count by exactly one |
| ProductsPage.SearchQuery | app/products/page.tsx:16 | the query is the `search` parameter, or "" when absent |
| ProductsPage.CategoryAfterParam | app/products/page.tsx:19-23 | a non-empty `category` parameter replaces the selection; otherwise it stays |
| ProductsPage.EmptyQueryMatchesAll | app/products/page.tsx:29-35 | the empty query matches every product |
| ProductsPage.SearchFilter | app/products/page.tsx:29-35 | keeps exactly the products whose lower-cased name or description includes the lower-cased query, or all when the query is empty, in order |
| ProductsPage.CategoryFilter | app/products/page.tsx:38-40 | keeps exactly the products of the category, or all for 전체, in order |
| ProductsPage.FilterProducts | app/products/page.tsx:25-40 | both filters: exactly the products passing search and category, each once, in order |
| ProductsPage.NoFilterKeepsAll | app/products/page.tsx:25-40 | no query and 전체 keep the catalogue as it is |
| ProductsPage.CompareIsKeyDifference | app/products/page.tsx:43-55 | each comparator is the difference of a per-product key |
| ProductsPage.InsertPermutes | app/products/page.tsx:43 | one insertion step adds exactly the inserted product |
| ProductsPage.SortPermutes | app/products/page.tsx:43-55 | sorting is a permutation |
| ProductsPage.SortedSnoc | app/products/page.tsx:43-55 | a product with a key no smaller than all others may follow a sorted list |
| ProductsPage.InsertSorted | app/products/page.tsx:43-55 | inserting into a sorted list keeps it sorted |
| ProductsPage.SortSorted | app/products/page.tsx:43-55 | the result is ordered by the chosen key |
| ProductsPage.InsertStable | app/products/page.tsx:43-55 | insertion keeps the order of the products sharing a key |
| ProductsPage.SortStable | app/products/page.tsx:43-55 | sorting keeps the input order among products with equal keys |
| ProductsPage.NewestKeepsOrder | app/products/page.tsx:51-53 | newest compares everything equal, so the catalogue order stays |
| ProductsPage.FilteredAndSorted | app/products/page.tsx:25-58 | the page's list: exactly the kept products, each once, ordered by the chosen key |
| AdminDashboard.RevenueIsPaidAmounts | app/admin/page.tsx:28-30 | revenue is the sum over all orders of the paid amounts |
| AdminDashboard.RevenueZeroWhileUnpaid | app/admin/page.tsx:28-30 | with no paid order, revenue is 0 |
| AdminDashboard.PendingCount | app/admin/page.tsx:32 | the pending count is between 0 and the number of orders, and 0 iff no order is pending |
| AdminDashboard.PendingCountEmpty | app/admin/page.tsx:32 | no orders, no pending orders |
| AdminDashboard.PendingCountSnoc | app/admin/page.tsx:32 | one more order adds one to the pending count iff its status is pending |
| AdminDashboard.PendingCountAfterCreate | app/admin/page.tsx:32 | a new pending order raises the pending count by one |
| AdminDashboard.Dashboard | app/admin/page.tsx:17-32 | nothing unless signed in as admin; otherwise the order count, the paid revenue, the product count and the pending count |
| AdminOrdersPage.InitialFilter | app/admin/orders/page.tsx:16-18 | the filter starts at the `status` parameter, or "all" when it is absent or empty |
| AdminOrdersPage.FilterOrders | app/admin/orders/page.tsx:30-33 | "all" lists every order; any other filter lists exactly the orders with that status, in order |
| AdminOrdersPage.UnknownFilterListsNothing | app/admin/orders/page.tsx:30-33 | a filter spelling no status lists nothing |
| AdminOrdersPage.StatusCountSnoc | app/admin/orders/page.tsx:30-33 | one more order adds one to its own status's count only |
| AdminOrdersPage.StatusFiltersPartition | app/admin/orders/page.tsx:30-33 | the five status filters together list every order exactly once |
| AdminOrdersPage.StatusLabelsDistinct | app/admin/orders/page.tsx:56-71 | the five labels are distinct and none is a status spelling |
| AdminOrdersPage.StatusLabelUnknown | app/admin/orders/page.tsx:68-69 | an unknown status is shown as itself |
| AdminOrdersPage.HandleStatusChange | app/admin/orders/page.tsx:35-37 | the ledger becomes the status change of the old ledger |
| AdminUsersPage.DistinctUserIdsExact | app/admin/users/page.tsx:27-42 | the map keys are the order owners, each once |
| AdminUsersPage.DistinctUserIdsFirstAppearance | app/admin/users/page.tsx:28-42 | a key joins the map when its first order is seen and keeps that position |
| AdminUsersPage.RowsFor | app/admin/users/page.tsx:42 | one row per key, in key order, each the row of that user |
| AdminUsersPage.NoOrdersNoRows | app/admin/users/page.tsx:27-40 | a user who is not a key has no orders |
| AdminUsersPage.RowSnoc | app/admin/users/page.tsx:35-39 | one more order raises its owner's count by one and spending by its paid amount, and changes no one else's row |
| AdminUsersPage.PartitionByUser | app/admin/users/page.tsx:27-40 | summing a per-order amount user by user gives the total over all orders |
| AdminUsersPage.RowsCountEveryOrder | app/admin/users/page.tsx:36 | the users' order counts add up to the number of orders |
| AdminUsersPage.RowsSpendEveryPaidOrder | app/admin/users/page.tsx:37-39 | the users' spending adds up to the paid amount of all orders |
| AdminUsersPage.BuildUserMap | app/admin/users/page.tsx:25-40 | the loop leaves a map whose keys are the distinct owners in first-seen order and whose entries are their rows |
| AdminUsersPage.CollectUsers | app/admin/users/page.tsx:25-42 | `Array.from(userMap.values())` is the rows of the distinct owners in first-seen order |
| AdminUsersPage.UsersPage | app/admin/users/page.tsx:14-42 | nothing unless signed in as admin; otherwise those rows |
| AdminLoginPage.AdminLoginForm.constructor | app/admin/login/page.tsx:13 | no error at first |
| AdminLoginPage.AdminLoginForm.Submit | app/admin/login/page.tsx:15-36 | a signed-in admin is sent on with no change; bad credentials keep the session and set the credentials error; admin credentials sign in; other credentials end signed out with the no-rights error |
| LoginPage.NameGuardIsBlank | app/login/page.tsx:34 | `!name.trim()` holds exactly for names made only of white space |
| LoginPage.LoginForm.constructor | app/login/page.tsx:11-15 | sign-in tab, no error |
| LoginPage.LoginForm.ShowLoginTab | app/login/page.tsx:56-59 | sign-in tab, error cleared |
| LoginPage.LoginForm.ShowRegisterTab | app/login/page.tsx:69-72 | sign-up tab, error cleared |
| LoginPage.LoginForm.Submit | app/login/page.tsx:17-45 | signed in: sent home, no change. Sign-in tab: home on matching credentials, else the credentials error. Sign-up tab: a blank name sets its error and registers nothing; otherwise register with the untrimmed name, going home or setting the duplicate-email error |
| ProductCard.First | components/ProductCard.tsx:16-17 | the first entry, or undefined for an empty list |
| ProductCard.DiscountRate | components/ProductCard.tsx:27-29 | 0 without an original price or with 0; otherwise the integer nearest 100·(o − price)/o, halves rounded up, exactly |
| ProductCard.DiscountRateInRange | components/ProductCard.tsx:28 | for 0 ≤ price ≤ original the rate lies in 0..100 |
| ProductCard.BadgeIffHalfPercentOff | components/ProductCard.tsx:47-51 | with a positive original the badge shows iff the price is at least half a percent below it, so never when price ≥ original |
| ProductCard.NoOriginalNoBadge | components/ProductCard.tsx:27-47 | no original price, or 0, shows no badge |
| ProductCard.Card.constructor | components/ProductCard.tsx:16-17 | the selections start at the first size and the first colour |
| ProductCard.Card.QuickAdd | components/ProductCard.tsx:20-23 | adds one unit of the product with the current selection, keeping one line per key |
| UploadRoute.SanitizeName | app/api/upload/route.ts:31 | same length; every character outside [A-Za-z0-9.-] becomes '_', the rest stay |
| UploadRoute.SanitizeIdempotent | app/api/upload/route.ts:31 | the result holds only kept characters and '_', and sanitising again changes nothing |
| UploadRoute.SanitizeKeepsCleanNames | app/api/upload/route.ts:31 | a name of kept characters is unchanged |
| UploadRoute.StoredFileNameIsOneSegment | app/api/upload/route.ts:30-41 | the stored name has no '/' or '\\' and starts with a digit, so it is neither "." nor ".." |
| UploadRoute.StoredFileNameTimestamp | app/api/upload/route.ts:30-32 | the timestamp reads back from the digits before the first '_' |
| UploadRoute.ServerError | app/api/upload/route.ts:48-54 | status 500 with the thrown message, or the default message when it is empty |
| UploadRoute.Handle | app/api/upload/route.ts:6-55 | 200 with `/uploads/<timestamp>_<sanitised name>` iff a file of at most 10 MiB with an allowed type is written; 400 iff a check fails, first presence, then size, then type; 500 otherwise |
| UploadRoute.ExactLimitAccepted | app/api/upload/route.ts:16 | exactly 10 MiB is accepted and one byte more is refused |
| UploadRoute.TextFieldIsNotAnImage | app/api/upload/route.ts:11-24 | a non-empty text field passes the presence check and fails the type check |
| UploadRoute.SuccessUrlIsUnderUploads | app/api/upload/route.ts:45 | every URL handed out is `/uploads/` followed by one path segment |

## Left out

- Persistence: zustand `persist` and localStorage are storage plumbing. Each store's state is plain fields.
- Cart.CartStore.AddItem: does not model that `addItem` raises the quantity of the existing line object in place (store/cartStore.ts:30), because Dafny lines are values; an earlier state of the cart that shares the line object would see the change.
- Auth: the account table is an ordinary map, so JavaScript's inherited object keys (`users['toString']`) are not modelled. The table is module-level and not persisted, while the session is; that difference is not modelled.
- Auth.AuthStore.Login, Auth.AuthStore.Register: `async` functions are modelled as synchronous calls (they await nothing).
- The clock: `Date.now()` and `toISOString()` are parameters. Nothing stops two readings from being equal, and the lemmas say what follows.
- The seeded catalogue in data/products is not part of this model; the catalogue constructor takes it as a parameter.
- Network calls: the payment routes, the payment success and fail pages and the hero banner fetches. The success page calls a store action that does not exist, so nothing sets `paymentStatus`.
- File output in the upload route: `arrayBuffer`, `mkdir`, `writeFile` and the `console.error` log. Their only effect modelled is a failure's message.
- ProductCard.DiscountRate: computed with exact rationals, not IEEE doubles. `Math.round` of a product that floating point rounds just below a half (for example 14.499999…) may differ by one.
- Product `rating` is a JavaScript number, modelled as an integer.
- JsString.ToLowerCase folds ASCII capitals only, not the rest of Unicode.
- UploadRoute.SanitizeName works on Dafny characters. JavaScript's regex without the `u` flag replaces each UTF-16 code unit, so a character outside the Basic Multilingual Plane becomes two '_' there and one here.
- ProductCard.SelectionKey: an empty sizes or colours list makes the selection `undefined`. The cart line stores it as "", which conflates it with a literal "" size.
- Catalogue.ApplyPatch: a patch that spreads an explicit `undefined` into a required field cannot be written; optional fields can be cleared.
- Rendering: JSX, router pushes, `alert`, `window.confirm`, Suspense, colour selection (`getStatusColor`), locale formatting, and HTML-only `required`/`minLength`, which no code enforces.
- The UI-only files hold no logic beyond setters and store calls modelled above: Header, Footer, layout, the home page, the settings store, the orders page, the admin products and hero pages.

# Priya Traders order bookkeeping, modelled in Dafny

Priya Traders is a small food-ordering storefront. It has three parts: a customer site with a cart
and checkout, an admin board that tracks orders through their fulfilment stages, and a REST
backend that stores products and orders. This project models the parts of that system that
are pure logic, and proves properties about them.

- **Cart** (`cart.dfy`, storefront `App.jsx`). Covers the per-product quantity selector, the
  cart reducers (add, change quantity, remove), the cart total, and the badge count. Every
  reducer is a function of the previous cart.
- **Checkout** (`checkout.dfy`, storefront `App.jsx`). Covers the checkout guard, phone
  normalisation to the `91` country prefix, and the order body that is posted. It also shows
  what the order schema makes of that body.
- **AdminOrders** (`admin_orders.dfy`, admin `App.jsx`). Covers the five fulfilment stages, the
  status filter and search, the dashboard counters, and the stage badge with its Pending
  fallback. It also covers the stage buttons and the customer notification text chosen when
  a stage is picked.
- **SalesReport** (`sales_report.dfy`, storefront `AdminDashboard.jsx`). Covers the period
  filter (Today, Weekly, Monthly, All) with its count and revenue, and the report table row
  built for each order.
- **OrderSchema** and **ProductSchema** (`order_schema.dfy`, `product_schema.dfy`, server
  models). Each schema is modelled as its required paths, enumeration and defaults. Saving a
  document is a function that either returns the stored record or the set of failing paths,
  named the way the store names them (`items.0.name`).
- **Seqs**, **Text** and **Wrappers** are helpers. Seqs has order-preserving filter,
  summation and subsequence. Text has JavaScript's `startsWith`, `includes`, `toLowerCase`,
  digit stripping and decimal printing. Wrappers has `Option` and `Result`.

A missing JavaScript property is an `Option`. The falsy fallbacks of the source are modelled
exactly:
- `sel[id] || 1` reads an absent or zero entry as 1.
- `o.status || 'Pending'` and `o.paymentRef || '-'` replace an absent or empty string.
- `o.totalAmount || 0` counts a missing amount as 0.

Timestamps are integer milliseconds. The report takes today's local midnight and the same
midnight one calendar month earlier as parameters. The weekly cutoff is computed in the model
as midnight minus seven days. The source's line 41 overwrites `now` with midnight, so the week
counts back from midnight and not from the present moment.

One consequence of the code, proved in `Checkout.StorefrontOrderRefused`: the storefront posts
no `subtotal` and no `deliveryFee`, and the order schema requires both. So every order the
storefront builds fails validation when it is saved. No storefront code computes a subtotal,
a delivery fee or a free-delivery rule (`client/src/App.jsx` lines 105-116), so the model has
no fee rules either.

## Model

| member | source | states |
|---|---|---|
| Cart.Selected | client/src/App.jsx:79 | an absent or zero selector entry reads as 1; any other entry reads as stored; the reading is never 0 |
| Cart.StepSelector | client/src/App.jsx:74-76 | the stepped entry is at least 1; it moves by delta unless that would go below 1, when it is 1; no other entry changes; the all-positive selector invariant is kept |
| Cart.Adjust | client/src/App.jsx:92 | mapping over the cart keeps its length and every line's product; lines of the given id get the new quantity; every other line is unchanged |
| Cart.AddLine | client/src/App.jsx:80-86 | for a product already in the cart, the length is the same, only that product's lines grow, by exactly qty; for a new product, one line with that quantity is appended at the end |
| Cart.AdjustOne | client/src/App.jsx:83 | with one line per product, the merge rewrites exactly that product's line and no other |
| Cart.AddExisting | client/src/App.jsx:81-83 | adding a product already in the cart equals the cart with just that line's quantity raised by qty |
| Cart.AddLineKeepsOk | client/src/App.jsx:80-86 | adding a positive quantity keeps one line per product and every quantity at least 1 |
| Cart.AddExistingSums | client/src/App.jsx:81-83 | merging raises the units by qty and the cart total by qty times the existing line's own price |
| Cart.AddNewSums | client/src/App.jsx:85 | appending raises the units by qty and the cart total by qty times the product's price |
| Cart.AddLineUnits | client/src/App.jsx:80-86 | on a cart with one line per product, adding raises the unit count by exactly the amount added |
| Cart.Total | client/src/App.jsx:96 | an empty cart totals 0; a valid cart with non-negative prices has a non-negative total |
| Cart.TotalAppend | client/src/App.jsx:96 | the total is a left-to-right reduce: one more line adds exactly its price times its quantity |
| Cart.Units | client/src/App.jsx:161 | an empty cart holds 0 units; a valid cart holds at least one unit per line |
| Cart.Badge | client/src/App.jsx:159-161 | the badge shows exactly when the cart is non-empty; it shows the sum of quantities, which is at least the number of lines in a valid cart |
| Cart.UpdateQty | client/src/App.jsx:91-93 | only lines with the id change; their quantity moves by delta, and is exactly 1 when that would go below 1; length and products are kept; the cart invariant is kept |
| Cart.Remove | client/src/App.jsx:95 | no line with the id is left; the result is an order-preserving subsequence; every line of another product is kept, with every occurrence of each such line and nothing else |
| Cart.SubsequenceKeepsOk | client/src/App.jsx:95 | dropping lines from a valid cart leaves a valid cart |
| Cart.RemoveKeepsOk | client/src/App.jsx:95 | removing a product keeps one line per product and every quantity at least 1 |
| Cart.AddToCart | client/src/App.jsx:78-89 | the selected quantity (default 1) goes into the cart; that product's selector entry becomes 1, no key is added besides it and no other entry changes; cart and selector invariants are kept; units grow by the selected quantity |
| Checkout.NormalizePhone | client/src/App.jsx:107 | the result starts with 91; a number already starting with 91 is kept verbatim; otherwise the rest is an order-preserving subsequence of the input holding every occurrence of every digit and nothing else |
| Checkout.NormalizePhoneIdempotent | client/src/App.jsx:107 | normalising twice gives the same number as normalising once |
| Checkout.NormalizeLocalNumber | client/src/App.jsx:107 | an all-digit number without the prefix becomes 91 followed by the number |
| Checkout.PlaceOrder | client/src/App.jsx:98-116 | an empty cart is refused first, then a form missing the name, phone or address, with nothing built; otherwise the body copies the form (phone normalised), copies each line's id, name, quantity and price in order, and carries the cart total |
| Checkout.ItemsTotalMatchesCart | client/src/App.jsx:109-115 | summing price times quantity over the posted lines gives the cart total |
| Checkout.PayloadTotalConsistent | client/src/App.jsx:105-116 | in every built body, totalAmount equals the sum over its own items |
| Checkout.ToFields | client/src/App.jsx:105-120 | the posted body carries customerName, customerPhone, deliveryAddress and totalAmount as built, and one item sub-document per item with its productId, name, quantity and price; subtotal, deliveryFee, status and the payment paths are absent |
| Checkout.StorefrontOrderRefused | server/models/Order.js:13-14 | every order the storefront builds fails validation, with subtotal and deliveryFee among the failing paths |
| OrderSchema.ItemErrors | server/models/Order.js:7-12 | an item reports no failing path exactly when its productId, name, quantity and price are all present (strings non-empty); each of the four prefixed paths is reported exactly when its own check fails, and nothing else is reported |
| OrderSchema.ItemsErrors | server/models/Order.js:7-12 | the item list reports no failing path exactly when every item is valid; every failing path of item N is reported under the prefix items.N.; every reported path starts with i |
| OrderSchema.ItemsErrorsFromItems | server/models/Order.js:7-12 | a path is reported for the item list exactly when it is a failing path of some item under that item's own prefix: the report is the union over the items |
| OrderSchema.Errors | server/models/Order.js:3-15 | no failing path exactly when the document is valid; each top-level required path is reported exactly when its check fails; every failing item path is reported; any other reported path is a failing item path |
| OrderSchema.DefaultsKeepErrors | server/models/Order.js:16-19 | filling the defaults changes no failing path, since no defaulted path is required |
| OrderSchema.WithDefaults | server/models/Order.js:16-19 | absent paymentMethod, paymentStatus, status and createdAt become online, Pending, Pending and the clock; supplied values and all other paths are untouched |
| OrderSchema.WithDefaultsIdempotent | server/models/Order.js:16-19 | applying the defaults again changes nothing |
| OrderSchema.Create | server/models/Order.js:3-20 | a save succeeds exactly when the required paths are present; a failure lists the failing paths; the stored record carries the supplied values, defaults where absent, and the items in order |
| OrderSchema.StatusPathsUnconstrained | server/models/Order.js:16-18 | any strings in status, paymentStatus and paymentMethod are stored as given; no enumeration applies |
| OrderSchema.EmptyItemsAccepted | server/models/Order.js:7-12 | an order with no items, or with the items path absent, still saves |
| ProductSchema.ParseCategory | server/models/Product.js:8 | a recognised string names the category it parses to |
| ProductSchema.CategoryRoundTrip | server/models/Product.js:8 | each category's stored name reads back as that category |
| ProductSchema.ParseCategoryIff | server/models/Product.js:8 | a string is a category exactly when it is Batter, Ready-to-Eat, Pickles or Others |
| ProductSchema.Errors | server/models/Product.js:3-8 | no failing path exactly when name, description, price and image are present and the category passes its enumeration; each of the five paths is reported exactly when its own check fails, and nothing else is reported |
| ProductSchema.Create | server/models/Product.js:3-11 | a save succeeds exactly when valid; category defaults to Batter, maker to Local Artisan and inStock to true; supplied values are kept |
| ProductSchema.UnknownCategoryRefused | server/models/Product.js:8 | a category outside the four names makes the save fail on the category path |
| AdminOrders.StageIds | admin/src/App.jsx:25-31 | the stage ids are exactly Pending, Received, Packed, On The Way, Delivered, in that order, all distinct |
| AdminOrders.FilterOptions | admin/src/App.jsx:182 | the filter buttons are All followed by the five stage ids |
| AdminOrders.FilteredOrders | admin/src/App.jsx:95-100 | the board is an order-preserving subsequence holding every occurrence of each order passing status and search and nothing else; a non-All filter keeps only that status; All with an empty term keeps the whole list |
| AdminOrders.NameSearchIgnoresCase | admin/src/App.jsx:97 | the name match gives the same answer for a term and its lower-case form |
| AdminOrders.SearchIffOccurs | admin/src/App.jsx:97-98 | search matches exactly when the lower-cased term occurs in the lower-cased name, or the term occurs as typed in the phone |
| AdminOrders.ComputeStats | admin/src/App.jsx:102-107 | total is the list length; pending plus processing never exceeds it; an all-Pending list has everything pending and nothing in progress |
| AdminOrders.StatsAppendTotals | admin/src/App.jsx:102-107 | one more order adds one to the total and its amount to the revenue |
| AdminOrders.StatsAppendCounters | admin/src/App.jsx:102-107 | one more order adds one to pending or to processing according to its status, or to neither |
| AdminOrders.FindStage | admin/src/App.jsx:204 | a found stage is in the list with the sought id; none found means no stage has it |
| AdminOrders.DisplayStage | admin/src/App.jsx:204 | the badge is always one of the five stages; it shows the order's own stage exactly when the status is a stage id, else Pending |
| AdminOrders.StatusText | admin/src/App.jsx:70-78 | a text exists exactly for Received, Packed, On The Way and Delivered |
| AdminOrders.UpdateNotification | admin/src/App.jsx:56-78 | a notification is produced exactly for the four stages after Pending, with that stage's text; Pending and unknown statuses produce none |
| AdminOrders.StatusTextInjective | admin/src/App.jsx:72-77 | two statuses with the same text are the same status |
| AdminOrders.StageButtons | admin/src/App.jsx:263-267 | the current stage's button is disabled and every other one is enabled, so any stage is reachable directly; an unknown status enables all five |
| AdminOrders.ClickStage | admin/src/App.jsx:263-267 | clicking the current stage does nothing; any other click requests that stage, with that stage's own notification text, present for every stage except Pending |
| SalesReport.Cutoff | client/src/AdminDashboard.jsx:39-51 | only Today, Weekly and Monthly have a cutoff: midnight, midnight minus 604800000 ms, and the midnight one month earlier |
| SalesReport.FilterPeriod | client/src/AdminDashboard.jsx:39-54 | All or any unrecognised period returns the list unchanged; otherwise an order-preserving subsequence holding every occurrence of each order created at or after the cutoff and nothing else |
| SalesReport.PeriodsNest | client/src/AdminDashboard.jsx:41-51 | every order kept for Today is kept for Weekly; if the month reaches back past the week, every order kept for Weekly is kept for Monthly; everything is kept for All |
| SalesReport.ComputePeriodStats | client/src/AdminDashboard.jsx:56-57 | the count is the number of kept orders, at most the list length; a list with every amount missing has zero revenue |
| SalesReport.PeriodStatsAppend | client/src/AdminDashboard.jsx:44-57 | one more order adds 1 to the count and its amount, or 0 when missing, to the revenue exactly when the period keeps it, and nothing otherwise |
| SalesReport.MissingAmountsAddNothing | client/src/AdminDashboard.jsx:56 | for every period, dropping the orders without an amount leaves the revenue unchanged |
| SalesReport.ZeroSum | client/src/AdminDashboard.jsx:56 | a list whose amounts are all missing has zero revenue |
| SalesReport.OrElse | client/src/AdminDashboard.jsx:95-97 | a present non-empty string is used; an absent or empty one gives the fallback |
| SalesReport.PaymentColumn | client/src/AdminDashboard.jsx:95 | online orders print UPI with their reference, defaulting to -; the column reads COD exactly when the method is not online |
| SalesReport.AmountColumn | client/src/AdminDashboard.jsx:96 | a missing amount prints as Rs. undefined; a present amount prints as Rs. followed by its decimal rendering, which reads back as the amount when non-negative |
| SalesReport.ReportRow | client/src/AdminDashboard.jsx:91-98 | the row carries the creation time, customer name and phone, the payment and amount columns, and a status column that defaults to Pending and is never empty |
| SalesReport.Rows | client/src/AdminDashboard.jsx:91-98 | one row per order, in the same order, each carrying that order's date and customer |
| SalesReport.ReportRows | client/src/AdminDashboard.jsx:62-98 | the report has one row per order the period keeps, in their order, each the row of that order; no more rows than orders, and every row of a cut-off period is dated at or after the cutoff |
| SalesReport.FromRecord | server/models/Order.js:3-20 | a stored order supplies its creation time, customer name and phone, payment method, amount and status to the report unchanged; it has no payment reference because the schema declares no such path |
| SalesReport.FromRecords | client/src/AdminDashboard.jsx:29-31 | one report order for each stored order, position by position; the reversal at line 30 is not modelled (see the list-order note under Left out) |
| SalesReport.RecordsRevenue | client/src/AdminDashboard.jsx:56 | over stored orders, the report's amount-or-zero sum equals the plain sum of stored amounts |
| SalesReport.AllTimeRevenueAgrees | client/src/AdminDashboard.jsx:56-57 | over stored orders, the All report's count and revenue equal the admin board's total and sales counters |
| SalesReport.StoredOnlineOrderShowsNoReference | client/src/AdminDashboard.jsx:95 | a stored online order always prints UPI (Ref: -) |
| SalesReport.StoredStatusColumn | client/src/AdminDashboard.jsx:97 | a stored order prints its status, or Pending when the status is empty |
| Text.IncludesIffOccurs | admin/src/App.jsx:97-98 | the recursive substring test holds exactly when the needle sits at some position of the haystack |
| Text.ToLower | admin/src/App.jsx:97 | lower-casing keeps the length, folds every character, and leaves no upper-case ASCII letter |
| Text.DigitsOnly | client/src/App.jsx:107 | stripping non-digits leaves an order-preserving subsequence of only digits holding every occurrence of every digit of the input, and leaves an all-digit string unchanged |
| Text.NatToStringRoundTrip | client/src/AdminDashboard.jsx:96 | reading back the decimal rendering of a number gives the number |
| Text.IntToString | client/src/AdminDashboard.jsx:96 | the rendering has a minus sign exactly for negative numbers, the digits after it read back as the magnitude, and there are no leading zeros |

## Left out

- Network calls (axios), polling intervals, timers, `window.open`, `window.confirm` and the
  WhatsApp link with its message are side effects. They are not modelled. The model stops at
  the status text that would go into the message.
- The order list's sorting on fetch (admin `App.jsx` line 48 sorts newest first;
  `AdminDashboard.jsx` line 30 reverses) is not modelled. Each list operation takes the list
  in whatever order it arrives.
- Filling the selector when products are fetched (`App.jsx` lines 65-67) is not modelled. It
  sets every entry to 1, which keeps the selector invariant.
- The dashboard recomputes its counters only when the list is non-empty
  (`AdminDashboard.jsx` lines 20-24), so the counters shown can be stale. The PDF header also
  prints those stored counters. Only the pure computation is modelled.
- Rendering, animation, styling, the PDF layout and the locale date format are not
  modelled. The report's date column is the raw timestamp.
- Real `Date` arithmetic is not modelled. Midnight and the one-month-earlier midnight are
  inputs.
- `server/server.js` routes, the database and product seeding are thin wrappers over a
  persistence library the model cannot see. So are the PATCH that stores a chosen stage and
  the phone lookup for previous orders. None of these is modelled.
- The store's type casting and wrong-type errors are not modelled. Document paths arrive
  already typed; only presence, the non-empty-string rule and the category enumeration are
  checked. The `_id` path is not modelled either.
- Delivery fees, the free-delivery threshold, first-order eligibility and payment-method
  choice are not modelled, because no modelled code computes them.
- JavaScript numbers are doubles. The model uses unbounded integers for prices,
  quantities, amounts and times, so fractional prices and precision loss are not modelled.
- Cart.Listing: holds only the id, name and price of a product. Description, image,
  category and maker are also copied into a cart line, but only rendering reads them (the tray
  shows the image).
- Text.ToLower: folds only ASCII letters. JavaScript's `toLowerCase` also folds other
  scripts, so for non-ASCII names the model's search is weaker than the source's.
- Text.IntToString: JavaScript prints numbers of 10^21 and above in exponent notation. The
  model always prints plain decimal digits.
- AdminOrders.StatusText: the texts use the emoji the source intends. The source file's
  bytes show those emoji mis-decoded.

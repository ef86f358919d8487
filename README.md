# DMF-API handler logic in Dafny

This project models the request handlers of the DMF-API e-commerce backend
(an Express/TypeScript service over MongoDB and a key-value cache): the admin
dashboard aggregations, the product, review, order, coupon and user handlers,
and the `adminOnly` guard. The store of record is a `Store` object holding one
map per collection (users, products, orders, reviews, coupons); the cache is a
`Cache` object with entries that expire on a logical clock, and a log of the
invalidation requests the mutating handlers send. Every handler that writes,
and every handler that can refuse a request, is a method that returns the
HTTP status it answers with (or the error it forwards), and whose contract
states the new store and cache; `createPaymentIntent`'s answer is the value of
the function `PaymentIntent`. The read handlers that always succeed (the
cached dashboard and product views, the order lists, the user list) return the
value they serve, and their 200 is not modelled.

Modules, one per concern:

- `Domain` (domain.dfy): the records, JavaScript truthiness of request fields,
  the `Store` class with its invariant (one review per user and product, unique
  coupon codes, fresh generated ids) and the invalidation flag record.
- `Caching` (caching.dfy): `Lookup`/`Put`/`Evict`/`ReadThrough` as functions,
  the `Cache` class implementing `get`, `setex` and `invalidateCache`.
- `Analytics` (analytics.dfy): the pure dashboard computations: the six-month
  histogram, the revenue breakdown, the stock, age and fulfilment partitions,
  the latest-transaction projection.
- `Dashboard` (dashboard.dfy): the accumulating loops (the bucket arrays are
  `array<int>` updated in place) and the four cached dashboard handlers.
- `Views` (views.dfy): the values the cache holds, one constructor per view.
- `Products`, `Orders`, `Payments`, `Users`, `Auth`: the handlers of
  productController.ts, orderController.ts, paymentController.ts,
  userController.ts and Middleware/auth.ts.

Helpers whose code lives in Utils/features.ts are not part of this model and
appear as parameters: `calculatePercentage` (`percent`), the user schema's `age` (`ageOf`), `getChartData`
(`chartData`), `findAverageRatings` (`ratingsOf`), the upload to the object
store (`upload`), and the eviction rule of `invalidateCache` (the cache's
`evicts` policy, fixed when the cache is built). The result of `getInventories`
and the date-range queries of the dashboard are inputs (`PieQueries`,
`StatsQueries`, `ChartQueries`), with months as indices 0..11. The store's
regular-expression match and sort are parameters of the listing
(`nameMatches`, and `ordered`, which must return every product of the
collection once, in the price order asked for) and the best-rated ordering of
the latest products (which must return every product once, best-rated first)
is `byRatings`.

## Model

| member | source | states |
|---|---|---|
| Analytics.MonthDiff | src/Controllers/dashboardController.ts:157 | the month distance `(today - month + 12) % 12` lies in [0,12) and is 0 for the current month |
| Analytics.BucketIndex | src/Controllers/dashboardController.ts:158-160 | a retained order (distance below 6) goes to index `5 - distance`, which lies in [0,6); a current-month order goes to index 5 |
| Analytics.BucketCountsSum | src/Controllers/dashboardController.ts:152-162 | the six monthly order counts sum to the number of orders within six months |
| Analytics.BucketRevenueSum | src/Controllers/dashboardController.ts:152-162 | the six monthly revenues sum to the total of the orders within six months |
| Analytics.OldOrderIsDropped | src/Controllers/dashboardController.ts:158 | an order six or more months away changes neither any count nor any revenue bucket |
| Analytics.CurrentOrderLandsLast | src/Controllers/dashboardController.ts:159-160 | a current-month order adds one to the last count and its total to the last revenue bucket |
| Dashboard.MonthlyOrderChart | src/Controllers/dashboardController.ts:152-162 | the two six-slot arrays filled in place hold, slot by slot, the count and revenue of the orders that map to that slot (so all zeros for no orders) |
| Dashboard.SumTotals | src/Controllers/dashboardController.ts:118-125 | the running `+= total` accumulator ends at the sum of the orders' totals |
| Analytics.LatestTransactions | src/Controllers/dashboardController.ts:186-192 | at most four transactions (exactly four when there are as many orders), the i-th carrying the i-th order's id, `amount = total` and `quantity` = its item count |
| Analytics.CategoryShares | src/Controllers/dashboardController.ts:164-174 | one share per category, in the categories' order, each `calculatePercentage` of the number of products in that category over the number of products |
| Analytics.CategoryCountsCoverProducts | src/Controllers/dashboardController.ts:164-174 | when the categories are the distinct categories of the products, the per-category counts add up to the number of products, so every product is in exactly one share |
| Dashboard.CategoryPercentages | src/Controllers/dashboardController.ts:169-174 | the `push` loop builds exactly the category shares |
| Analytics.StatsOf | src/Controllers/dashboardController.ts:127-201 | `count.revenue` is the sum of all totals and `count.order` the number of orders; the two charts have six slots holding the bucket counts and revenues; at most four latest transactions |
| Analytics.StatsChartCountsRetained | src/Controllers/dashboardController.ts:176-179 | the order chart of the stats sums to the number of orders within six months |
| Dashboard.ComputeStats | src/Controllers/dashboardController.ts:118-201 | the imperative computation of the stats equals `StatsOf` |
| Analytics.CountComplement | src/Controllers/dashboardController.ts:254-257 | two complementary filters split a collection: their counts sum to its size |
| Analytics.CountPartition3 | src/Controllers/dashboardController.ts:291-295 | three mutually exclusive, exhaustive filters partition a collection |
| Analytics.SumOfMargins | src/Controllers/dashboardController.ts:264-281 | the difference of the four sums is the sum of the per-order margins |
| Analytics.RevenueOf | src/Controllers/dashboardController.ts:264-289 | `netMargin = grossIncome - discount - productionCost - burnt`, with `grossIncome` the sum of totals, `discount` the sum of discounts, `productionCost` the sum of shipping charges and `burnt` the sum of taxes, a missing discount or shipping charge counting 0 |
| Analytics.StockOf | src/Controllers/dashboardController.ts:254-257 | `inStock + outOfStock` is the number of products, and `inStock` counts the products whose stock is not 0 |
| Analytics.AgeGroupsOf | src/Controllers/dashboardController.ts:291-295 | the teen (<20), adult (20..40) and old (>40) counts sum to the number of users |
| Analytics.FulfillmentOf | src/Controllers/dashboardController.ts:248-252 | the processing, shipped and delivered counts sum to the number of orders |
| Dashboard.GetDashboardStats | src/Controllers/dashboardController.ts:12-209 | read-through under "admin-stats": a hit returns the cached stats and writes nothing; a miss stores the computed stats under the same key with the default time-to-live |
| Dashboard.GetPieCharts | src/Controllers/dashboardController.ts:211-316 | read-through of the pie charts under "admin-pie-charts" |
| Analytics.PieOf | src/Controllers/dashboardController.ts:248-307 | the fulfilment counts sum to the orders, the stock figures to the products, the age groups (of every user's `ageOf`) to the users; the net margin is gross less discount, shipping and tax; administrators and customers together are at most the users; the category shares are those `getInventories` reports |
| Analytics.Ages | src/Controllers/dashboardController.ts:244 | one age per user of `User.find({})`, in order, each the user's `age` |
| Analytics.AdminsAndCustomers | src/Controllers/dashboardController.ts:245-246 | no user is counted as both administrator and customer |
| Analytics.BarOf | src/Controllers/dashboardController.ts:360-362 | when `getChartData` returns one value per month asked for, the user and product series have 6 months and the order series 12 |
| Analytics.LineOf | src/Controllers/dashboardController.ts:401-414 | when `getChartData` returns one value per month asked for, all four series have 12 months |
| Dashboard.GetBarCharts | src/Controllers/dashboardController.ts:318-375 | read-through of the bar charts (6, 6 and 12 months) under "admin-bar-charts" |
| Dashboard.GetLineCharts | src/Controllers/dashboardController.ts:377-430 | read-through of the line charts (12 months; discount and total series) under "admin-line-charts" |
| Caching.Cache.Get | src/Controllers/dashboardController.ts:15 | `get` answers the stored value until its time-to-live runs out, nothing after |
| Caching.Cache.SetEx | src/Controllers/dashboardController.ts:203 | `setex` stores the value under the key with an expiry `now + ttl` and touches no other key |
| Caching.Cache.Invalidate | src/Controllers/productController.ts:50 | an invalidation request is logged and removes exactly the entries the eviction rule selects |
| Caching.PutThenLookup | src/Controllers/productController.ts:244 | a value written is read back until its time-to-live runs out, and other keys read as before |
| Caching.RepeatedReadHits | src/Controllers/dashboardController.ts:14-18 | two reads of one key at one instant: the second is a hit returning what the first returned, and writes nothing |
| Caching.MismatchedKeysMissAgain | src/Controllers/productController.ts:62-67 | when a read-through writes under another key than it reads, a miss is followed by another miss |
| Caching.ReadThrough | src/Controllers/dashboardController.ts:14-18 | the get / compute / setex step of every cached handler: a hit returns the stored value and changes nothing; a miss returns the computed value, adds only its key, leaves the others as they were, and reads back the value while the time-to-live lasts |
| Caching.Cache.Advance | src/Controllers/productController.ts:244 | time passing revives no entry, and an entry past its expiry answers nothing |
| Domain.Store.NewId | src/Controllers/productController.ts:41 | a created document gets an id no product, order, review or coupon has |
| Products.Lower | src/Controllers/productController.ts:45 | the model's lower-casing, of A-Z only, keeps the length |
| Products.LowerLeavesNoCapital | src/Controllers/productController.ts:45 | a stored category has no upper-case ASCII letter |
| Products.LowerIsIdempotent | src/Controllers/productController.ts:45 | lower-casing a lower-cased category changes nothing |
| Products.NewProduct | src/Controllers/productController.ts:22-57 | 400 with nothing created when photos are absent, fewer than 1, more than 5, or any field is falsy, in that order; a failed upload throws with nothing created; otherwise one new product with the category lower-cased, an invalidation `{product, admin}`, 201 |
| Products.AddProduct | src/Controllers/productController.ts:41-48 | `Product.create` stores the product under an id no product had, and keeps the store's invariant |
| Products.ReplacePhotos | src/Controllers/productController.ts:165-168 | after the splice and the pushes, the photo list is exactly the uploaded photos, in order |
| Products.Overwritten | src/Controllers/productController.ts:174-178 | each truthy body field replaces its counterpart as given (the category is not lower-cased); photos, ratings and review count are kept |
| Products.OverwriteFields | src/Controllers/productController.ts:174-178 | the five conditional assignments produce exactly the overwritten product |
| Products.UpdateProduct | src/Controllers/productController.ts:147-192 | 404 for a missing product and 500 for a failed upload, both changing nothing; otherwise that product alone gets the uploaded photos and then the truthy fields of the body, every other product unchanged; invalidation `{product, admin, productId}`; 200 |
| Products.DeleteProduct | src/Controllers/productController.ts:126-145 | 404 and no change for a missing product; otherwise exactly that product is removed, invalidation `{product, admin, productId}`, 201 |
| Products.Take | src/Controllers/productController.ts:66 | `limit(n)` keeps the first n elements, or all of them when there are fewer |
| Products.LatestAreBestRated | src/Controllers/productController.ts:66 | the first four of a best-rated-first ranking are products of the store, four of them when there are as many, and no product left out is rated above a kept one |
| Products.GetLatestProducts | src/Controllers/productController.ts:60-74 | as written: reads "latest-product", and on a miss stores under "latest-products" four products of the store (all of them when fewer), none outrated by a product left out |
| Products.LatestProductsMissTwice | src/Controllers/productController.ts:62-67 | as written, a second request right after a miss misses again and recomputes |
| Products.GetLatestProductsFixed | src/Controllers/productController.ts:60-74 | the corrected handler reads and writes "latest-products"; on a miss it serves four products of the store (all of them when fewer), none outrated by a product left out |
| Products.LatestProductsFixedHits | src/Controllers/productController.ts:62-67 | with the key fixed, a second request is served from the entry the first one stored |
| Products.GetAllCategories | src/Controllers/productController.ts:77-91 | read-through under "categories" of the set of distinct categories |
| Products.GetAdminProducts | src/Controllers/productController.ts:94-106 | read-through under "all-products" of every product |
| Products.GetSingleProduct | src/Controllers/productController.ts:108-124 | a hit answers from "product-{id}"; a miss on a missing product answers 404 and caches nothing; a miss on a present one caches and returns it |
| Products.PageOf | src/Controllers/productController.ts:200 | the page is the given number, or 1 when it is absent, unreadable or zero |
| Products.ListingKeyFollowsPage | src/Controllers/productController.ts:202 | two listing requests that differ only in the page number use different cache keys |
| Products.ListingKey | src/Controllers/productController.ts:202 | every listing key starts with "products-", the prefix the listing invalidation deletes by |
| Products.ListingKeyExact | src/Controllers/productController.ts:198-202 | the corrected key also starts with "products-" |
| Products.ListingKeyCollides | src/Controllers/productController.ts:198-202 | as written, the key is not one-to-one: no search and the search "undefined" share a key, and so do the search "a-b" and the search "a" with the sort "b-undefined" |
| Products.ListingKeyExactInjective | src/Controllers/productController.ts:198-202 | with each parameter written unambiguously, two listing requests share a key exactly when they agree on search, sort, category, price and effective page |
| Products.PageLimit | src/Controllers/productController.ts:213 | the page size is never 0 and defaults to 8 |
| Products.PageWindow | src/Controllers/productController.ts:233-234 | a page holds the ordered matches at positions `skip`, `skip+1`, ...: `limit` of them (its absolute value), or all that remain after `skip` when fewer, none when `skip` is past the end |
| Products.WindowOfSorted | src/Controllers/productController.ts:231-234 | a window of a sorted result holds products of the matched collection, in the same price order |
| Products.Filtered | src/Controllers/productController.ts:216-229 | the base query keeps exactly the products matching the name, the price ceiling and the category, and every product when none is given (an empty price text sets no filter) |
| Products.CategoryNarrows | src/Controllers/productController.ts:229 | adding a category filter never adds a product to the matches |
| Products.SortOf | src/Controllers/productController.ts:232 | no sort for a falsy sort, ascending for exactly "asc", descending for any other text |
| Products.TotalPages | src/Controllers/productController.ts:242 | `Math.ceil(count / limit)`: 0 pages for no match, and with a positive limit never more pages than matches |
| Products.CeilingAtMostCount | src/Controllers/productController.ts:242 | rounding up `count / limit` for a positive limit stays within [0, count] |
| Products.TotalPagesCover | src/Controllers/productController.ts:242 | with a positive limit, `totalPage * limit >= matches`, and the last page is not empty |
| Products.GetAllProducts | src/Controllers/productController.ts:196-253 | a hit answers from the listing key; a miss with a negative skip throws; otherwise the page, made of store products matching the query, in the requested price order, of exactly the window's length, and its page count covering every match, is stored for 30 seconds under that key |
| Products.VerifiedPurchase | src/Controllers/productController.ts:287-298 | the nested loops set the flag exactly when some order in the list has an item with the product's id |
| Products.CheckPurchase | src/Controllers/productController.ts:273-284 | `verifiedPurchase` is true exactly when some order of the user holds the product |
| Products.UpsertKeepsOneReview | src/Controllers/productController.ts:264-307 | writing a review under the id of the user's existing review of the product, or under a new id when there is none, keeps at most one review per user and product |
| Products.SaveReview | src/Controllers/productController.ts:264-307 | the review is saved over the user's existing review of the product when there is one (reported as existing), otherwise created under a new id; the one-review invariant holds after |
| Products.NewReview | src/Controllers/productController.ts:255-327 | 404 "Not Logged In" and 404 "Product Not Found" change nothing; otherwise the user's review of the product is updated (200) if it exists, created (201) if not, so at most one review per user and product remains, with the verified-purchase flag; the product's rating summary is refreshed; invalidation `{product, admin, review, productId}` |
| Products.AllReviews | src/Controllers/productController.ts:329-346 | read-through under "reviews-{id}" of the product's reviews |
| Products.DeleteReview | src/Controllers/productController.ts:348-383 | 404 when not logged in or the review is missing, 401 for a non-author, all changing nothing; the author's review is deleted before the product lookup, so a missing product answers 404 after the deletion; otherwise ratings refreshed, invalidation `{product, admin, productId}` without the review flag, 200 |
| Orders.NextStatusAdvances | src/Controllers/orderController.ts:113-123 | a processing step never moves an order backwards, and moves it forwards unless it is delivered |
| Orders.NextStatus | src/Controllers/orderController.ts:113-124 | Processing becomes Shipped, and any other status becomes Delivered |
| Orders.TwoStepsDeliver | src/Controllers/orderController.ts:113-123 | Delivered is a fixed point, reached from any status in two steps |
| Orders.ProductIdsOf | src/Controllers/orderController.ts:96 | the invalidation lists the product id of each item, in order |
| Orders.NewOrder | src/Controllers/orderController.ts:61-104 | 400 with nothing created when shippingInfo, orderItems, user, subtotal, tax or total is falsy (shipping charges and discount optional); otherwise one new Processing order, invalidation `{product, order, admin, userId, productId list}`, 201 |
| Orders.ProcessOrder | src/Controllers/orderController.ts:106-139 | 404 and no change for a missing order; otherwise only that order's status advances one step, invalidation `{order, admin, userId, orderId}`, 200 |
| Orders.DeleteOrder | src/Controllers/orderController.ts:141-161 | 404 and no change for a missing order; otherwise exactly that order is removed, invalidation `{order, admin, userId, orderId}`, 200 |
| Orders.OrdersOf | src/Controllers/orderController.ts:18 | a user's orders are exactly the orders whose user is that user |
| Orders.OrdersOfPartition | src/Controllers/orderController.ts:18 | the order lists of two users are disjoint and every order is in its user's list |
| Orders.MyOrders | src/Controllers/orderController.ts:9-26 | read-through under "my-orders-{user}" of the user's orders |
| Orders.AllOrders | src/Controllers/orderController.ts:28-41 | read-through under "all-orders" of every order |
| Orders.GetSingleOrder | src/Controllers/orderController.ts:43-59 | a hit answers from "order-{id}"; a miss on a missing order answers 404 and caches nothing; a miss on a present one caches and returns it |
| Payments.PaymentIntent | src/Controllers/paymentController.ts:13-38 | a missing or zero amount is refused with 400; any other is charged as `amount * 100` minor units, positive exactly when the amount is, and answered with 201 |
| Payments.NewCoupon | src/Controllers/paymentController.ts:41-57 | 400 unless code and amount are both truthy; a code already in use throws (unique index); otherwise exactly one coupon is added, 201; codes stay unique |
| Payments.CouponDetail | src/Controllers/paymentController.ts:59-70 | the coupon with the id, or 400 "Invalid Code!" |
| Payments.ApplyDiscount | src/Controllers/paymentController.ts:73-83 | 400 "Invalid Code!" when no coupon has the code; otherwise the amount of the coupon with that code, which codes being unique makes the only answer |
| Payments.DeleteCoupon | src/Controllers/paymentController.ts:93-102 | 400 for an unknown id; otherwise exactly that coupon is removed |
| Payments.Patched | src/Controllers/paymentController.ts:111-112 | only a truthy amount and a truthy code overwrite |
| Payments.UpdateCoupon | src/Controllers/paymentController.ts:104-120 | 400 for an unknown id; a code another coupon has throws on save, changing nothing; otherwise only that coupon changes, to its patched form, 200 |
| Users.NewUser | src/Controllers/userController.ts:7-41 | an already-registered id answers 200 and changes nothing, even with fields missing; otherwise 400 with nothing created unless id, name, email, photo, gender and dob are truthy (role optional); a valid request adds exactly that user under its id, 200 |
| Users.SignUpTwice | src/Controllers/userController.ts:15-21 | registering twice with the same request answers 200 both times and leaves the user as the first registration made it |
| Users.GetAllUsers | src/Controllers/userController.ts:43-51 | every registered user, and only those |
| Users.GetUser | src/Controllers/userController.ts:53-64 | the user with the id, or 400 "Invalid User!" |
| Users.DeleteUser | src/Controllers/userController.ts:67-80 | 400 for an unknown id; otherwise exactly that user is removed |
| Auth.AdminOnly | src/Middleware/auth.ts:5-18 | 401 "Please login" for a missing or empty id, 401 "Please enter valid credentials" for an unknown one, 401 "You are not authorized to use this route" unless the role is exactly "admin"; a function of the user table, so it changes nothing |
| Auth.AdminOnlyAdmitsExactlyAdmins | src/Middleware/auth.ts:17 | the guard passes a request exactly when its non-empty id names a user whose role is "admin" |
| Auth.AdminOnlyRefusesWith401 | src/Middleware/auth.ts:7-16 | every refusal is a 401 |

## Left out

- Products.Lower: case mapping is modelled for the ASCII letters A-Z only. `toLowerCase` also maps other capitals ("É" to "é") and can change the length of the text ("İ" becomes two code units), so for a category outside ASCII the model stores a different text than the source.
- The eviction rule of `invalidateCache`, `calculatePercentage`, `getChartData`, `getInventories`, `findAverageRatings`, `reductStock` and the object-store upload and delete live in Utils/features.ts and Utils/Cloudinary.ts, which are not part of this model: they are parameters, and `reductStock`'s effect on stock is not modelled.
- Dashboard.GetBarCharts, Dashboard.GetLineCharts: the chart series are whatever `getChartData` makes of the documents; only the lengths, documents and properties passed to it are modelled.
- Date arithmetic (`setMonth`, month start and end) and the dashboard's date-range queries: the query results are inputs and months are indices 0..11.
- `Promise.all`: the concurrent reads are sequential in the model. JSON serialisation of cached values is the identity.
- Money is `int`; floating-point totals, fractional amounts and fractional page numbers are not modelled.
- Multipart text fields are strings in the source, so a price or stock of "0" is truthy there; the model reads them as numbers, where 0 is falsy.
- The store's regular-expression match, sort, `populate`, `distinct` order and query casting are not modelled: matching and ordering are parameters. A price filter that does not read as a number (`$lte: NaN`) is rejected by the store's cast with an error; the model instead lets such a filter match no product.
- Schema defaults not shown (a new product's ratings and review count start at 0, an order's status at Processing) are taken as stated; a user's date of birth is kept as text, and the `age` the user schema derives from it is the parameter `ageOf`, applied to every user of the snapshot.
- Orders.MyOrders: takes the user id as given; the key and query for an absent `id` query parameter are not modelled.
- Payments.ApplyDiscount: takes the code as given; a request without one is not modelled.
- Products.GetAllProducts: keeps the key as written (`ListingKey`), so it inherits the collisions listed under Findings; `ListingKeyExact` is the corrected key.
- Payments.PaymentIntent: the call to the payment provider, its currency and shipping details and the client secret it returns are not modelled.
- `getAllCouponCode` returns the whole coupon table with no logic of its own and has no member.
- `deleteProduct` and `updateProduct` delete the old photos from the object store; that call is not modelled, and a failed upload or delete in `updateProduct` is one `upload` result of None; in `newProduct` a failed upload is an `upload` result of None, answered as a thrown error.
- Response bodies beyond the status and the error message are not modelled.
- The controllers import `redis` and `redisTTL` from src/app.ts, which exports a `myCache` instead; the model takes a cache with a default time-to-live as given.

## Findings

| source | as written | input that shows it | evidently intended | confidence | as-written member | corrected member |
|---|---|---|---|---|---|---|
| src/Controllers/productController.ts:62-67 | `getLatestProducts` reads the key "latest-product" but writes "latest-products" | two requests in a row on an empty cache: both miss and both query the store | read and write the same key "latest-products", so the second request is a hit | high (not executed) | Products.LatestProductsMissTwice | Products.LatestProductsFixedHits |
| src/Controllers/productController.ts:198-202 | the listing key joins search, sort, category, price and page with '-', an absent parameter reading "undefined" | the search "undefined" after a request with no search: it shares that request's key, so within 30 seconds it is served every product instead of the names matching /undefined/ (likewise the search "a-b" and the search "a" sorted by "b-undefined") | a key that differs whenever one of the five parameters does | medium (not executed) | Products.ListingKeyCollides | Products.ListingKeyExactInjective |

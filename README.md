# nfos-api marketplace core, modelled in Dafny

This project models the money-handling and order-handling core of the nfos-api
marketplace backend, a Laravel application.

- **Seller payouts.**
  - The daily scan promotes completed orders whose return window has passed to
    payout eligible.
  - Each promoted order gets exactly one seller earning: the gross amount, a
    5 % platform fee and the net amount.
  - The net amount is credited to the seller's balance.
  - The weekly run pays every verified seller whose available balance reaches
    the threshold. It writes one batch and one item per seller, calls the
    payout adapter per item, and records transactions.
  - An admin can trigger a manual payout of a single seller.
  - The seller's payout endpoints show balance, history and earnings, and let
    the seller replace their payout information.
- **Loyalty points.**
  - The ledger of earn, redeem, expire, adjust, referral and review entries.
  - The current-balance formula and the expiry run.
  - The referral and review bonuses.
  - The rule that grants order points when a customer's order first becomes
    paid or processing.
- **Orders.**
  - Customer placement, viewing and update.
  - The admin's creation (generated order numbers, defaulted totals) and
    field-by-field update.
  - The seller's pipeline, label selection and stage updates, which record a
    journey in the metadata.
- **Coupons.**
  - The `active` scope.
  - The listing, filtered by per-user limits.
  - Code validation with its discount estimate.
- **Addresses**, where each user has at most one default address.
- **eSewa payments.**
  - The HMAC-signed form data; the signature covers
    `total_amount,transaction_uuid,product_code`.
  - Signature verification.
  - Payment initiation.
  - The gateway callback, which marks the order paid or cancelled.
- **Referral codes.** A code is a three-letter name prefix plus four random
  digits, redrawn until it is unused.
- **The CORS middleware.** It computes the allowed origin and writes the
  response headers.

Modules follow the source files:

| Module | Source |
|---|---|
| `Payout` | `PayoutService` |
| `PayoutApi` | the seller `PayoutController` |
| `Points` | `PointsController` |
| `CustomerOrders`, `AdminOrders`, `SellerOrders` | the three `OrderController`s |
| `Coupons` | `CouponController` and `Coupon::scopeActive` |
| `Addresses` | `AddressController` |
| `Esewa` | `EsewaPaymentService` |
| `EsewaApi` | `EsewaPaymentController` |
| `ReferralCodes` | the referral part of `User` |
| `Cors` | `CorsMiddleware` |

Three modules are shared by the others:

- `Market` holds the order, item and user rows, the JSON `Value` of metadata
  columns, and the `Reply` type of a controller action. A reply is a body, or
  a refusal with its HTTP status.
- `Text` holds PHP's string functions as the core uses them: truthiness,
  `trim`, `explode`/`implode`, `strtoupper`, `number_format`.
- `Wrappers` holds `Option` and `Result`.

How database state is modelled:

- Tables that only grow (earnings, batches, batch items, transactions, point
  entries, referrals, coupon usages, order items) are sequences, and a row's
  id is its position.
- Keyed tables (orders, users, balances) are maps.
- A table that a controller updates in place is a field of a class, and each
  controller action is a method with a `modifies` clause.

What the model proves:

- The payout ledger invariant `LedgerOk`: each balance row equals what its
  seller's earnings and completed items add up to. Every payout operation
  preserves it.
- No seller balance goes negative.
- The daily scan credits each order at most once.
- The points balance moves exactly as each entry type says.
- An address table never holds two defaults for one user.
- Order numbers and referral codes stay unique: a write that would repeat one is refused, as the columns' unique indexes refuse it.
- A signed eSewa form verifies.
- An unlisted CORS origin is never echoed.

Randomness, clocks, ids and external calls are parameters:

- The current time `now` is an integer number of seconds; a month is a fixed
  30 days.
- The ISO-8601 text of the current time is a `stamp` string.
- New row ids are given.
- The random part of a number is given as a `token`. A retry loop gets a
  sequence of random `draws`.
- The HMAC-SHA256 + Base64 of a message is an opaque `mac` function in the
  configuration.
- A payout adapter is a function from the item to `Returned(result)` or
  `Threw(message)`.

## Model

| member | source | states |
|---|---|---|
| Text.TrimEnd | app/Http/Middleware/CorsMiddleware.php:26 | `trim` keeps a prefix of the text that does not end with whitespace, and every character it drops is whitespace |
| Text.SplitJoin | app/Services/Payment/EsewaPaymentService.php:82 | `explode` undoes `implode` when no piece holds the separator, which is what makes the signed field names read back as the signed fields |
| Text.TrimStart | app/Http/Middleware/CorsMiddleware.php:26 | `trim` keeps a suffix of the text that does not start with whitespace, and every character it drops is whitespace |
| Text.Upper | app/Http/Controllers/Api/OrderController.php:102 | `strtoupper`: same length, each lower-case ASCII letter upper-cased and every other character kept |
| Text.NatToString | app/Models/User.php:143 | the decimal text of a number: at least one character, all digits |
| Text.NatToStringValue | app/Models/User.php:143 | the decimal text reads back as the number |
| Text.GroupThousands | app/Http/Controllers/Api/Payment/EsewaPaymentController.php:66 | `number_format`: digits and commas only, a comma exactly before every third digit from the right, and a leading zero only for zero |
| Text.GroupAppend | app/Http/Controllers/Api/Payment/EsewaPaymentController.php:66 | adding a comma and a three-digit group keeps commas exactly before every third digit from the right |
| Text.GroupThousandsValue | app/Http/Controllers/Api/CouponController.php:164 | `number_format` only inserts separators: with its commas removed the text reads back as the number |
| Market.ParseStatusName | app/Http/Controllers/Api/Admin/OrderController.php:84 | every order status is read back from its column text |
| Market.ParseStatus | app/Http/Controllers/Api/Admin/OrderController.php:84 | a text read as a status is that status's name |
| Market.NewestFirst | app/Http/Controllers/Api/PayoutController.php:54 | `orderBy(created_at, desc)`: exactly the selected rows, each once, newest first |
| Market.FirstWhere | app/Http/Controllers/Api/PointsController.php:251 | `first()`: the earliest row meeting the condition, and none exactly when no row meets it |
| Market.OrderBook.Place | app/Http/Controllers/Api/OrderController.php:49-98 | the order row is stored under its id and its items are appended, and nothing else changes |
| Payout.GetAdapter | app/Services/Payout/PayoutService.php:295-302 | only `bank` and `wallet` have an adapter; any other method fails with `Unknown payout method: <name>` |
| Payout.FailureOf | app/Services/Payout/PayoutService.php:220-267 | an attempt fails exactly when the adapter throws or reports no success; a missing error text reads `Payout failed` |
| Payout.PlatformFee | app/Services/Payout/PayoutService.php:71 | the fee is 5 % of the gross, rounded to the nearest integer with halves up, and never exceeds the gross |
| Payout.NewEarning | app/Services/Payout/PayoutService.php:68-83 | the earning of an order: fee plus net equals the order's grand total, the net is between 0 and the gross, and the earning is eligible, unlinked and unpaid for the order's seller |
| Payout.WindowEnd | app/Services/Payout/PayoutService.php:44-46 | the return window ends at the stored time, or seven days after delivery when none is stored |
| Payout.AfterScan | app/Services/Payout/PayoutService.php:41-57 | a scanned order whose window end is strictly past becomes eligible now, with that window end stored; any other order is left unchanged (nothing is saved) |
| Payout.ScanNeverRepeats | app/Services/Payout/PayoutService.php:31-39 | a promoted order is never selected by a later scan |
| Payout.ScanComplete | app/Services/Payout/PayoutService.php:41-58 | once every scanned order is visited, the orders are exactly their `AfterScan` and the promoted ones are exactly those whose window has passed |
| Payout.EarnedAppend | app/Services/Payout/PayoutService.php:74-82 | what a seller earned over a table is the sum over its parts |
| Payout.GrowthEarned | app/Services/Payout/PayoutService.php:105-107 | when the ledger only grew, a consistent balance's total earned grew by exactly the new rows' net amounts |
| Payout.SettleClearsOutstanding | app/Services/Payout/PayoutService.php:255-263 | settling a seller's earnings leaves nothing of theirs outstanding and every other seller's outstanding amount as it was |
| Payout.SettleKeepsEarned | app/Services/Payout/PayoutService.php:255-263 | settling changes no seller's total earned |
| Payout.SettleKeepsCounts | app/Services/Payout/PayoutService.php:255-263 | settling keeps the number of earnings of every order |
| Payout.SettleAll | app/Services/Payout/PayoutService.php:255-263 | the bulk update settles each earning, row by row, and keeps the table's length |
| Payout.SettlementKeepsCredit | app/Services/Payout/PayoutService.php:255-263 | settling keeps "each order has an earning exactly when it is eligible" |
| Payout.PaidOutUpdate | app/Services/Payout/PayoutService.php:241-253 | replacing one batch item changes the seller's paid-out sum by exactly the difference between the two rows |
| Payout.OutstandingBounds | app/Services/Payout/PayoutService.php:71-72 | with non-negative nets, a seller's outstanding amount is between zero and their total earned |
| Payout.PromotionKeepsCredit | app/Services/Payout/PayoutService.php:49-56 | promoting an order and writing its one earning keeps "each order has an earning exactly when it is eligible" |
| Payout.CreditKeepsLedger | app/Services/Payout/PayoutService.php:68-109 | crediting a fresh earning keeps the ledger consistent |
| Payout.SettlementKeepsLedger | app/Services/Payout/PayoutService.php:227-263 | a successful payout of the whole available balance keeps the ledger consistent |
| Payout.FailureKeepsLedger | app/Services/Payout/PayoutService.php:267-288 | a failed payout marks the item failed, records the failed transaction and moves no money |
| Payout.NewBatchKeepsLedger | app/Services/Payout/PayoutService.php:132-137 | opening a batch keeps the ledger consistent |
| Payout.NewItemsKeepLedger | app/Services/Payout/PayoutService.php:142-161 | adding pending items to open batches keeps the ledger consistent |
| Payout.BalanceNeverNegative | app/Services/Payout/PayoutService.php:105-108 | in a consistent ledger every available balance is non-negative, and total paid out is between zero and total earned |
| Payout.SameRowsSameSum | app/Services/Payout/PayoutService.php:171-185 | paying items keeps the total of their amounts |
| Payout.FinalStatus | app/Services/Payout/PayoutService.php:188-194 | a batch completes when nothing failed, fails when nothing succeeded, and otherwise is partially failed |
| Payout.AttemptOf | app/Services/Payout/PayoutService.php:213-226 | an attempt is an unknown-method failure exactly when the seller's method has no adapter |
| Payout.ManualPrecheck | app/Services/Payout/PayoutService.php:309-321 | a manual payout goes ahead exactly for a verified seller with a truthy payout method and a positive available balance; a missing user or a non-seller is "seller not found" |
| Payout.WeeklyItemsKept | app/Services/Payout/PayoutService.php:171-185 | paying items keeps "one item per selected seller for the seller's available balance" |
| Payout.ListSellers | app/Services/Payout/PayoutService.php:117-124 | the selected sellers are listed each once |
| Payout.ItemsFor | app/Services/Payout/PayoutService.php:142-161 | one pending item per listed seller, in order, for the seller's whole available balance |
| Payout.CollectItems | app/Services/Payout/PayoutService.php:139-161 | the first loop writes exactly those items and sums their amounts |
| Payout.ListedItemsPayable | app/Services/Payout/PayoutService.php:142-161 | the items written can all be paid, and no seller appears twice |
| Payout.ListedItemsAreWeekly | app/Services/Payout/PayoutService.php:142-161 | the items written are exactly one per selected seller |
| Payout.PayItem | app/Services/Payout/PayoutService.php:213-290 | the tables after paying one item keep their number of items |
| Payout.PaidThrough | app/Services/Payout/PayoutService.php:174-185 | the tables after paying a range of items, in order, keep their number of items |
| Payout.PayItemFrame | app/Services/Payout/PayoutService.php:213-290 | paying one item changes no other item, keeps the item's seller, amount and batch, and changes no other seller's balance |
| Payout.PaidThroughFrame | app/Services/Payout/PayoutService.php:174-185 | paying a range changes no item outside it and keeps every item's seller, amount and batch |
| Payout.PaidThroughOthers | app/Services/Payout/PayoutService.php:174-185 | a seller with no item in the range keeps their balance |
| Payout.PaidThroughSeller | app/Services/Payout/PayoutService.php:174-185 | with one item per seller, an item's seller ends debited by its amount exactly when the item completed, and otherwise unchanged |
| Payout.PayItemSeller | app/Services/Payout/PayoutService.php:241-263 | paying a pending item debits its seller by its amount exactly when the item completes |
| Payout.PaidBalances | app/Services/Payout/PayoutService.php:174-185 | the same for every item of the range at once, and every seller without an item keeps their balance |
| Payout.PayoutService.SelectedSellers | app/Services/Payout/PayoutService.php:117-124 | the weekly run selects exactly the verified sellers with a payout method and an available balance of at least the threshold |
| Payout.PayoutService.UpdateSellerBalance | app/Services/Payout/PayoutService.php:93-109 | the seller's balance row, created zeroed when missing, gains both increases in its available, pending and earned totals |
| Payout.PayoutService.CreateSellerEarning | app/Services/Payout/PayoutService.php:68-88 | appends the order's earning, credits its net to available, and keeps the ledger consistent |
| Payout.PayoutService.PromoteOrder | app/Services/Payout/PayoutService.php:42-58 | one scanned order: saved as `AfterScan`, and credited exactly when promoted |
| Payout.PayoutService.ScanNext | app/Services/Payout/PayoutService.php:41-58 | visiting one more scanned order keeps the scan's progress invariant: the visited orders are `AfterScan`, and one earning has been written per promoted one |
| Payout.PayoutService.ScanRest | app/Services/Payout/PayoutService.php:41-58 | visiting the remaining scanned orders, in any order, completes the scan |
| Payout.PayoutService.MarkOrdersEligible | app/Services/Payout/PayoutService.php:24-63 | every scanned order becomes `AfterScan`; exactly one earning is appended per promoted order; each seller's total earned grows by the new earnings; the count returned is the number promoted |
| Payout.PayoutService.ProcessPayoutItem | app/Services/Payout/PayoutService.php:213-290 | an unknown method fails before anything is written; on success a completed transaction is written, the item completes, the amount moves from available to paid out and the seller's eligible earnings are settled; on failure the item fails, a failed transaction is written and no money moves |
| Payout.PayoutService.PayBatchItems | app/Services/Payout/PayoutService.php:171-185 | items, transactions, balances and earnings become `PaidThrough` from the batch's first item to the last; successes plus failures equal the number of items, and successes count the completed ones |
| Payout.PayoutService.PayNext | app/Services/Payout/PayoutService.php:174-185 | the tables become `PayItem` of the item; only that item changes, it counts as completed exactly when it completed, and the later items stay payable |
| Payout.PayoutService.RunBatch | app/Services/Payout/PayoutService.php:171-194 | the tables become `PaidThrough`; each item's seller is debited its amount exactly when it completed (`PaidDebits`) and sellers without an item keep their balance; the batch records its counts, final status and processing time |
| Payout.PayoutService.OpenWeeklyBatch | app/Services/Payout/PayoutService.php:132-168 | the batch is opened as processing, with the total of its items and the seller count |
| Payout.PayoutService.AddBatch | app/Services/Payout/PayoutService.php:132-137 | the batch row is appended and its id is its position |
| Payout.PayoutService.AddItems | app/Services/Payout/PayoutService.php:150-157 | pending items of existing batches are appended and the ledger stays consistent |
| Payout.PayoutService.AddBatchItems | app/Services/Payout/PayoutService.php:139-161 | exactly `ItemsFor` is appended, and the total is the sum of their amounts |
| Payout.PayoutService.UpdateBatch | app/Services/Payout/PayoutService.php:164-168 | only the one batch row is replaced, and the ledger stays consistent |
| Payout.PayoutService.PaySellers | app/Services/Payout/PayoutService.php:126-194 | one batch, one pending item per seller for their whole available balance, the tables equal to `PaidThrough` over those items, each seller debited exactly when their item completed, every other seller's balance unchanged, and the batch closed with total, seller count, counts and final status |
| Payout.PayoutService.ProcessWeeklyPayout | app/Services/Payout/PayoutService.php:114-208 | the threshold defaults to 100000; with no qualifying seller nothing is written; otherwise the qualifying sellers are paid as `PaySellers` states in a batch numbered `PAYOUT-<date>-<TOKEN>`, and no seller outside the selection has their balance changed |
| Payout.PayoutService.ProcessManualPayout | app/Services/Payout/PayoutService.php:307-363 | a refused precheck writes nothing; otherwise the tables become `PayItem` of one new item for the whole available balance in a `MANUAL-…` batch; the batch ends completed and the seller debited on success, or failed with no money moved; the receipt carries the adapter's transaction id, and a failure returns the adapter's or the unknown-method message |
| PayoutApi.LineOf | app/Http/Controllers/Api/PayoutController.php:78-88 | an earnings line carries the earning's id, order, amounts, and the order's number when the order exists |
| PayoutApi.EarningLines | app/Http/Controllers/Api/PayoutController.php:71-89 | the lines are exactly the seller's earnings, newest first, each rendered by `LineOf` |
| PayoutApi.WithPayoutInfo | app/Http/Controllers/Api/PayoutController.php:116-122 | method and details are replaced, verification is revoked, the threshold is replaced only when sent, and nothing else changes |
| PayoutApi.FirstOrCreateKeepsLedger | app/Http/Controllers/Api/PayoutController.php:28-36 | inserting the zeroed row for a seller without one keeps the ledger consistent |
| PayoutApi.PayoutController.Balance | app/Http/Controllers/Api/PayoutController.php:20-39 | a non-seller gets 403; a seller gets their balance (zeroed when missing), and the zeroed row is stored |
| PayoutApi.PayoutController.History | app/Http/Controllers/Api/PayoutController.php:44-58 | 403 exactly for a non-seller; otherwise exactly the seller's payout items, newest first |
| PayoutApi.PayoutController.Earnings | app/Http/Controllers/Api/PayoutController.php:63-97 | 403 exactly for a non-seller; otherwise the seller's `EarningLines` |
| PayoutApi.PayoutController.UpdatePayoutInfo | app/Http/Controllers/Api/PayoutController.php:102-131 | 403 for a non-seller and 422 for invalid data, both writing nothing; otherwise the user becomes `WithPayoutInfo`, and the now unverified seller qualifies for no weekly run and is refused a manual payout |
| Points.TotalAppend | app/Http/Controllers/Api/PointsController.php:359-383 | a sum over the ledger grows by exactly the new entry's share |
| Points.TotalNonNegative | app/Http/Controllers/Api/PointsController.php:362-368 | a sum of non-negative entries is non-negative |
| Points.CurrentPoints | app/Http/Controllers/Api/PointsController.php:359-383 | the balance is live credits minus redemptions and expiries plus adjustments, floored at zero |
| Points.NetAppend | app/Http/Controllers/Api/PointsController.php:359-383 | one more entry moves the net figure by its signed contribution |
| Points.OtherUsersUnaffected | app/Http/Controllers/Api/PointsController.php:362-380 | an entry of one user leaves every other user's balance and lifetime total alone |
| Points.RedeemDeducts | app/Http/Controllers/Api/PointsController.php:71-86 | redeeming at most the current balance lowers it by exactly the amount |
| Points.CreditAdds | app/Http/Controllers/Api/PointsController.php:362-368 | an unexpired credit never lowers the balance, raises it by its points unless adjustments had pushed the net below zero, and always adds to the lifetime total |
| Points.AdjustMoves | app/Http/Controllers/Api/PointsController.php:378-382 | an adjustment moves the net figure by its signed amount, floored at zero |
| Points.LifetimeCoversLive | app/Http/Controllers/Api/PointsController.php:33-35 | the lifetime total is at least the live credits |
| Points.LiveCreditsShrink | app/Http/Controllers/Api/PointsController.php:364-367 | with no new entries, live credits only fall as time passes |
| Points.BalanceFallsOverTime | app/Http/Controllers/Api/PointsController.php:359-383 | with no new entries, the balance only falls as time passes |
| Points.ExpiredBounded | app/Http/Controllers/Api/PointsController.php:188-206 | the amount the expiry run expires is at most the points the expired earn entries granted |
| Points.SumExpired | app/Http/Controllers/Api/PointsController.php:185-206 | the loop sums the positive remainders of the user's expired earn entries |
| Points.ReviewOf | app/Http/Controllers/Api/PointsController.php:328 | an entry names a review exactly when its metadata has a text `review_id` |
| Points.AppendKeepsLedger | app/Http/Controllers/Api/PointsController.php:105-116 | appending an admissible entry keeps the ledger free of a second grant per order or review |
| Points.ReferralBonuses | app/Http/Controllers/Api/PointsController.php:279-299 | 500 referral points to the referrer, then 200 to the referred user, both expiring in twelve months |
| Points.Normalize | app/Http/Controllers/Api/PointsController.php:61 | the redeemed amount is the largest multiple of 100 not above the request |
| Points.PointsFor | app/Http/Controllers/Api/PointsController.php:119 | one point per whole NPR 100 |
| Points.PointsLedger.AwardReferral | app/Http/Controllers/Api/PointsController.php:279-299 | both bonus entries are appended, the referrer's first, and the referred user's balance does not fall |
| Points.PointsLedger.Append | app/Http/Controllers/Api/PointsController.php:105-116 | an admissible entry is appended and the ledger keeps at most one grant per order and review |
| Points.PointsLedger.AddReferral | app/Http/Controllers/Api/PointsController.php:269-273 | a referral row is appended for a user not yet referred; its id is its position |
| Points.PointsLedger.MarkAwarded | app/Http/Controllers/Api/PointsController.php:301-304 | the referral row is marked awarded now |
| Points.PointsController.Index | app/Http/Controllers/Api/PointsController.php:19-47 | the current balance; the lifetime total is the sum of the caller's earn, referral and review entries whether expired or not, so it covers the live credits; the entries are exactly the caller's, newest first |
| Points.PointsController.RedeemPoints | app/Http/Controllers/Api/PointsController.php:49-93 | succeeds exactly for at least 100 points whose normalised amount the balance covers; appends the redeem entry with the default description, and the balance falls by that amount; a refusal writes nothing |
| Points.EarnedPoints | app/Http/Controllers/Api/PointsController.php:119 | for an amount with a fraction, one point per whole NPR 100: `100p <= amount < 100(p+1)` |
| Points.EarnedPointsWhole | app/Http/Controllers/Api/PointsController.php:119 | on a whole amount the fractional rule gives the same points as `PointsFor` |
| Points.PointsController.EarnForOrder | app/Http/Controllers/Api/PointsController.php:95-147 | succeeds exactly for an existing order and a non-negative amount (fractions allowed) not yet credited to the caller that yields a positive number of points; the entry records the amount as given and expires in twelve months; the reply carries the caller's current points after the grant |
| Points.PointsController.AdjustPoints | app/Http/Controllers/Api/PointsController.php:149-172 | succeeds exactly for a filled description; the balance becomes the floored net plus the signed adjustment |
| Points.PointsController.RunExpiryCheck | app/Http/Controllers/Api/PointsController.php:174-224 | expires the sum of the positive remainders, at most what the expired entries granted, writing one expire entry only when it is positive |
| Points.PointsController.EarnReferralPoints | app/Http/Controllers/Api/PointsController.php:226-314 | succeeds exactly for a held code that is not the caller's own, when the caller has not been referred; the user is marked referred, one awarded referral row and the two bonuses are written, and the reply carries the caller's current points after them; a refusal writes nothing |
| Points.PointsController.EarnReviewPoints | app/Http/Controllers/Api/PointsController.php:316-357 | 50 points once per user and review, for an existing review and product; the reply carries the caller's current points after the grant |
| CustomerOrders.ImageOf | app/Http/Controllers/Api/OrderController.php:94-95 | the first primary image, else the first image, none when there are no images |
| CustomerOrders.ProductOf | app/Http/Controllers/Api/OrderController.php:82 | a line's product, or none when no product has the id |
| CustomerOrders.Snapshot | app/Http/Controllers/Api/OrderController.php:90-96 | the item snapshot holds name, title, vendor and image; all null when the product is gone |
| CustomerOrders.LineFor | app/Http/Controllers/Api/OrderController.php:84-89 | an item copies its line's product, quantity and price; line total = quantity × unit price |
| CustomerOrders.SellerOf | app/Http/Controllers/Api/OrderController.php:42-47 | the order's seller owns a product that some line names; there is none exactly when no line names a known product |
| CustomerOrders.MetadataOf | app/Http/Controllers/Api/OrderController.php:69-75 | the metadata holds exactly the coupon, payment method, payment status (pending when not sent), payment reference and order notes, each as sent and null when absent |
| CustomerOrders.NewOrder | app/Http/Controllers/Api/OrderController.php:49-79 | a pending, not yet eligible order of the caller numbered `ORD-<TOKEN>`, carrying the sent totals |
| CustomerOrders.LinesFor | app/Http/Controllers/Api/OrderController.php:81-98 | one item per requested line, in order |
| CustomerOrders.CreateLines | app/Http/Controllers/Api/OrderController.php:81-98 | the item loop writes exactly `LinesFor` |
| CustomerOrders.CountedUse | app/Http/Controllers/Api/OrderController.php:112 | only the used coupon's count goes up, by one |
| CustomerOrders.UsagesAfter | app/Http/Controllers/Api/OrderController.php:105-109 | one usage row when a coupon was found, none otherwise |
| CustomerOrders.Updated | app/Http/Controllers/Api/OrderController.php:140-156 | the status when sent, payment status and reference written into the metadata when sent, other keys and fields kept |
| CustomerOrders.CustomerCannotPay | app/Http/Requests/Order/UpdateOrderRequest.php:18 | a customer's update never sets paid, so a move into a paying status is a move into processing |
| CustomerOrders.OrderPoints | app/Http/Controllers/Api/OrderController.php:159-187 | an earn entry is granted exactly on the first move into paid or processing, when none exists for the order and the total yields points; it is admissible and live |
| CustomerOrders.PointsOncePerOrder | app/Http/Controllers/Api/OrderController.php:163-169 | an order grants points at most once, whatever updates follow |
| CustomerOrders.CustomerOrderController.CouponOf | app/Http/Controllers/Api/OrderController.php:101-103 | the coupon whose code is the sent code in upper case, when a truthy code is sent |
| CustomerOrders.CustomerOrderController.UseCoupon | app/Http/Controllers/Api/OrderController.php:100-114 | counts one use and writes one usage row of the named coupon, when there is one |
| CustomerOrders.StartOfDay | app/Http/Requests/Order/StoreOrderRequest.php:45 | `today` for `after_or_equal:today`: the whole-day instant at or before `now`, less than a day before it |
| CustomerOrders.DeliveryTimeExamples | app/Http/Requests/Order/StoreOrderRequest.php:46 | the delivery time pattern accepts 9:05, 09:05, 23:59 and a single trailing newline; it refuses 25:00, 24:00, 12:60, 123:00 and two trailing newlines |
| CustomerOrders.CustomerOrderController.Store | app/Http/Controllers/Api/OrderController.php:35-126 | 422 exactly for an invalid request (including a delivery date before today, a delivery time that is not a clock time and over-long billing texts), and 500 for a valid one whose id or `ORD-` number is already stored, both writing nothing; otherwise the order, its items and the coupon use are written, and order numbers stay unique |
| CustomerOrders.CustomerOrderController.Insert | app/Http/Controllers/Api/OrderController.php:40-116 | with an unused id and number: the order row, one item per line and the coupon use are written, and order numbers stay unique |
| CustomerOrders.CustomerOrderController.Show | app/Http/Controllers/Api/OrderController.php:128-133 | 404 for a missing order, 403 for another user's, otherwise the order |
| CustomerOrders.CustomerOrderController.Update | app/Http/Controllers/Api/OrderController.php:135-194 | 404, then 422, then 403, each writing nothing; otherwise the order becomes `Updated`, points are granted as `OrderPoints` says, and a status change is reported |
| AdminOrders.TotalOr | app/Http/Controllers/Api/Admin/OrderController.php:95-98 | a missing total counts as zero |
| AdminOrders.GrandTotal | app/Http/Controllers/Api/Admin/OrderController.php:99 | the sent grand total, else subtotal + tax + shipping − discount floored at zero |
| AdminOrders.FirstFresh | app/Http/Controllers/Api/Admin/OrderController.php:222-229 | the first candidate among the draws that no order has, and none only when every draw is taken |
| AdminOrders.TotalsApplied | app/Http/Controllers/Api/Admin/OrderController.php:156-160 | each total column takes the sent value, else keeps its own, and nothing else moves |
| AdminOrders.FirstTotalsApplied | app/Http/Controllers/Api/Admin/OrderController.php:156-160 | after the first three columns, subtotal, tax and shipping are each the sent value, else the old one |
| AdminOrders.Reassigned | app/Http/Controllers/Api/Admin/OrderController.php:142-154 | status, payment status (beside the other metadata keys) and seller are replaced only when sent |
| AdminOrders.PatchedFields | app/Http/Controllers/Api/Admin/OrderController.php:140-166 | only the fields the request carries change |
| Market.StoreKeepsNumbersUnique | database/migrations/2025_11_10_100400_create_orders_table.php:14 | storing an order under an unused number keeps order numbers unique |
| AdminOrders.UpdateKeepsNumbersUnique | app/Http/Controllers/Api/Admin/OrderController.php:126-166 | an update never changes the number, so numbers stay unique |
| AdminOrders.AdminOrderController.GenerateOrderNumber | app/Http/Controllers/Api/Admin/OrderController.php:222-229 | the retry loop settles on `FirstFresh`, an `ORD-` number of 12 characters |
| AdminOrders.AdminOrderController.Store | app/Http/Controllers/Api/Admin/OrderController.php:79-124 | 422 exactly for an invalid request, then 500 exactly when the id is already stored, both writing nothing; success exactly for a valid request under a new id, which stores an order with the defaulted totals, the payment status as its only metadata, an unused number (the sent one or a generated one), placed now unless a time was sent; order numbers stay unique |
| AdminOrders.AdminOrderController.Reassign | app/Http/Controllers/Api/Admin/OrderController.php:142-154 | the assignments yield `Reassigned` |
| AdminOrders.AdminOrderController.AssignTotals | app/Http/Controllers/Api/Admin/OrderController.php:156-160 | the loop over the total columns yields `WithTotals` |
| AdminOrders.AdminOrderController.Update | app/Http/Controllers/Api/Admin/OrderController.php:126-178 | 404 for a missing order and 422 for invalid data, both writing nothing; otherwise the order is patched and a status change is reported |
| SellerOrders.ToInternal | app/Http/Controllers/Api/Seller/OrderController.php:19-25 | each seller stage maps to an order status; ready to ship is still processing |
| SellerOrders.InternalToDisplay | app/Http/Controllers/Api/Seller/OrderController.php:26-34 | each status shows as itself, except refunded, which shows as cancelled |
| SellerOrders.DisplayStatus | app/Http/Controllers/Api/Seller/OrderController.php:82-83 | the recorded current stage, else the status's stage, lower-cased |
| SellerOrders.Staged | app/Http/Controllers/Api/Seller/OrderController.php:252-262 | the new status, the stage stamped into the journey and recorded as current, the other metadata kept |
| SellerOrders.JourneyKeepsOtherStages | app/Http/Controllers/Api/Seller/OrderController.php:258-260 | setting a stage keeps every other stage's time |
| SellerOrders.ShowsSetStage | app/Http/Controllers/Api/Seller/OrderController.php:258-261 | after setting a stage the order shows that stage |
| SellerOrders.ReadyToShipIsSilent | app/Http/Controllers/Api/Seller/OrderController.php:253-267 | moving a processing order to ready to ship keeps its status, so nobody is notified |
| SellerOrders.Filter | app/Http/Controllers/Api/Seller/OrderController.php:109-110 | exactly the selected rows, in order |
| SellerOrders.FilterCons | app/Http/Controllers/Api/Seller/OrderController.php:109-110 | the selection is the first row, when selected, followed by the selection from the rest |
| SellerOrders.FirstN | app/Http/Controllers/Api/Seller/OrderController.php:109-111 | at most n selected rows, and all of them when fewer than n are selected |
| SellerOrders.FirstNIsPrefix | app/Http/Controllers/Api/Seller/OrderController.php:109-111 | the first n rows are the selection (`Filter`) cut to n rows, or the whole selection when it is shorter |
| SellerOrders.DistinctIds | app/Http/Controllers/Api/Seller/OrderController.php:168-171 | the truthy requested ids, each once |
| SellerOrders.RowOf | app/Http/Controllers/Api/Seller/OrderController.php:79-106 | a pipeline row's stage and its two action flags |
| SellerOrders.ReadyForLabels | app/Http/Controllers/Api/Seller/OrderController.php:109-113 | the ids of the printable rows in their order, cut to twenty |
| SellerOrders.PipelineLabelsUncapped | app/Http/Controllers/Api/Seller/OrderController.php:73-78 | the pipeline has at most ten rows, so every printable row is offered |
| SellerOrders.SellerOrderController.Pipeline | app/Http/Controllers/Api/Seller/OrderController.php:40-113 | 403 exactly for a non-seller; otherwise the first ten of the seller's own orders in the given ranking, or all of them when there are fewer, each with its `RowOf`, and the ready-for-labels ids of those rows, which include every printable one |
| SellerOrders.SellerOrderController.PrintLabels | app/Http/Controllers/Api/Seller/OrderController.php:153-185 | 403 exactly for a non-seller; otherwise the first twenty of the seller's orders in the given ranking, limited to the requested ones when any are requested, or all of them when fewer than twenty qualify |
| SellerOrders.SellerOrderController.Update | app/Http/Controllers/Api/Seller/OrderController.php:240-277 | 404, then 403 for a non-seller or another seller's order, then 422 for an unknown stage, each writing nothing; success exactly for a known stage on the seller's own order, which becomes `Staged` |
| Coupons.ActiveWindow | app/Models/Coupon.php:42-63 | both ends of the window are inside it; a reached or zero usage limit is never active |
| Coupons.UsageCountAppend | app/Http/Controllers/Api/CouponController.php:36-38 | one usage row raises exactly its user's count for its coupon |
| Coupons.RoundHundredth | app/Http/Controllers/Api/CouponController.php:148 | PHP's `round` of x/100, with halves away from zero (`RoundsTo`), keeping the sign |
| Coupons.RoundsToUnique | app/Http/Controllers/Api/CouponController.php:148 | the rounding of x/100 is a single integer |
| Coupons.RawDiscount | app/Http/Controllers/Api/CouponController.php:146-156 | fixed gives its value, free shipping gives nothing; a percentage is order × value / 100 rounded half away from zero, or the smaller of that and the cap when the cap is non-zero |
| Coupons.BuildSummary | app/Http/Controllers/Api/CouponController.php:128-169 | ineligible exactly below a positive minimum, with the minimum message; otherwise the raw discount, lowered to the order value when it exceeds it, with the free-shipping and discount messages in order |
| Coupons.DiscountWithinOrder | app/Http/Controllers/Api/CouponController.php:145-166 | for an order meeting the minimum, the estimate is between zero and the order, within a percentage coupon's cap, and the fixed value or the whole order |
| Coupons.CouponBook.ByCode | app/Http/Controllers/Api/OrderController.php:102 | the coupon with the exact code, or none |
| Coupons.CouponBook.RecordUsage | app/Http/Controllers/Api/OrderController.php:105-112 | one usage row and one more use of the coupon; the user's count rises by one |
| Coupons.CouponController.Index | app/Http/Controllers/Api/CouponController.php:12-50 | exactly the active coupons of the requested type that the caller has not used up |
| Coupons.CouponController.ValidateCode | app/Http/Controllers/Api/CouponController.php:52-98 | 422 for an empty code; 404 exactly when no active coupon has the upper-cased code; for the active coupon with that code, 403 exactly when the caller is signed in and has reached its per-user limit, and otherwise success with that coupon and its summary |
| Coupons.ListFrom | app/Http/Controllers/Api/CouponController.php:15-44 | the listing from a position on: the qualifying coupons and only those |
| Addresses.Find | app/Http/Controllers/Api/AddressController.php:35 | the address with an id, or none |
| Addresses.Unset | app/Http/Controllers/Api/AddressController.php:74 | the default flag is cleared on the user's addresses except the one kept |
| Addresses.Created | app/Http/Controllers/Api/AddressController.php:77 | the new address belongs to the caller and is default only when asked |
| Addresses.UnsetDefaults | app/Http/Controllers/Api/AddressController.php:74 | clearing leaves only the kept default and touches no other user |
| Addresses.StoreKeepsTable | app/Http/Controllers/Api/AddressController.php:71-84 | a default addition becomes the user's only default; any other addition leaves the table as it was |
| Addresses.SetDefaultKeepsTable | app/Http/Controllers/Api/AddressController.php:168-174 | the chosen address becomes the user's only default; other users are untouched |
| Addresses.EditKeepsTable | app/Http/Controllers/Api/AddressController.php:113-122 | an edit keeps at most one default per user, and making an address default leaves it the only one |
| Addresses.RemoveKeepsTable | app/Http/Controllers/Api/AddressController.php:146 | removing promotes no other address to default |
| Addresses.Positions | app/Http/Controllers/Api/AddressController.php:21-24 | the selected rows, each once, in creation order |
| Addresses.Listing | app/Http/Controllers/Api/AddressController.php:17-30 | exactly the user's addresses, defaults first, each group in creation order |
| Addresses.AddressController.Index | app/Http/Controllers/Api/AddressController.php:17-30 | the caller's addresses, as `Listing` orders them |
| Addresses.AddressController.Show | app/Http/Controllers/Api/AddressController.php:35-50 | the caller's own address; a missing one or another user's is 404 |
| Addresses.AddressController.Store | app/Http/Controllers/Api/AddressController.php:55-85 | 422 exactly for an invalid request; otherwise the address is added, as the only default when asked |
| Addresses.AddressController.Update | app/Http/Controllers/Api/AddressController.php:90-130 | 404 for a missing address or another user's, then 422, each writing nothing; success exactly for a valid patch of the caller's own address, whose sent fields are replaced, and as default it becomes the only one |
| Addresses.AddressController.Destroy | app/Http/Controllers/Api/AddressController.php:135-152 | removes exactly the caller's own address; no default appears |
| Addresses.AddressController.SetDefault | app/Http/Controllers/Api/AddressController.php:157-181 | the caller's address becomes their only default; other users' rows are untouched |
| Esewa.ConfigOf | app/Services/Payment/EsewaPaymentService.php:18-21 | the merchant id defaults to `EPAYTEST` |
| Esewa.TrimTrailing | app/Services/Payment/EsewaPaymentService.php:70 | `rtrim` with a comma removes every trailing comma, and only those |
| Esewa.PiecesAppend | app/Services/Payment/EsewaPaymentService.php:64-68 | each present field adds `field=value,` |
| Esewa.BuildMessage | app/Services/Payment/EsewaPaymentService.php:61-70 | the loop and trim build exactly `Message` |
| Esewa.PiecesJoin | app/Services/Payment/EsewaPaymentService.php:64-68 | the loop's text is the present pairs joined by commas, plus one comma |
| Esewa.MessageIsJoin | app/Services/Payment/EsewaPaymentService.php:61-70 | when no value ends with a comma, the signed message is the pairs joined by commas |
| Esewa.GenerateSignature | app/Services/Payment/EsewaPaymentService.php:59-74 | the MAC of the message over the three signed fields |
| Esewa.VerifySignature | app/Services/Payment/EsewaPaymentService.php:76-96 | true exactly when the data's named fields sign to its signature; false when either is missing |
| Esewa.SignedValues | app/Services/Payment/EsewaPaymentService.php:37-41 | the three signed values and nothing else |
| Esewa.FormData | app/Services/Payment/EsewaPaymentService.php:23-57 | amounts default to zero, the code to the merchant id, the name to `MERZi Order`, the id to a fresh one, the urls to empty; the form names the signed fields and carries their signature |
| Esewa.Wire | app/Services/Payment/EsewaPaymentService.php:43-56 | the form's fields under the gateway's names |
| Esewa.PiecesAgree | app/Services/Payment/EsewaPaymentService.php:85-89 | the message depends only on the listed fields |
| Esewa.SignedNamesSplit | app/Services/Payment/EsewaPaymentService.php:82 | the names the form sends split back into the signed fields |
| Esewa.SignedNamesJoin | app/Services/Payment/EsewaPaymentService.php:36 | the names the form sends are the signed fields joined by commas |
| Esewa.SignedMessageAgrees | app/Services/Payment/EsewaPaymentService.php:82-89 | data holding the three signed values yields the same message as those values alone |
| Esewa.TrimLastComma | app/Services/Payment/EsewaPaymentService.php:70 | `rtrim` removes exactly the one comma after a body that does not end with one |
| Esewa.SignedPieces | app/Services/Payment/EsewaPaymentService.php:64-68 | the loop's text for the signed values is the three pairs, each followed by a comma |
| Esewa.SignedDataVerifies | app/Services/Payment/EsewaPaymentService.php:76-96 | data naming the three fields and carrying their signature verifies, whatever else it holds |
| Esewa.UnsignedFieldKeepsSignature | app/Services/Payment/EsewaPaymentService.php:82-95 | setting a field that is neither signed nor part of the signature keeps it verifying |
| Esewa.FormVerifies | app/Services/Payment/EsewaPaymentService.php:23-96 | a generated form verifies under the key that signed it |
| Esewa.SignedMessage | app/Services/Payment/EsewaPaymentService.php:61-70 | the message is exactly `total_amount=…,transaction_uuid=…,product_code=…` |
| EsewaApi.ItemsOf | app/Http/Controllers/Api/Payment/EsewaPaymentController.php:45 | exactly the order's items |
| EsewaApi.SnapshotName | app/Http/Controllers/Api/Payment/EsewaPaymentController.php:46 | the title, else the name, skipping null |
| EsewaApi.ItemName | app/Http/Controllers/Api/Payment/EsewaPaymentController.php:46-56 | a truthy snapshot name, else a truthy current product title, else `Product`; never empty |
| EsewaApi.TruthyText | app/Http/Controllers/Api/Payment/EsewaPaymentController.php:49-55 | a value counts as a name exactly when it is a truthy string, and then is that string |
| EsewaApi.ItemLabel | app/Http/Controllers/Api/Payment/EsewaPaymentController.php:58-67 | `Name (Qty: q, Price: Rs p)`, quantity defaulting to one and price to zero, grouped in thousands |
| EsewaApi.Labels | app/Http/Controllers/Api/Payment/EsewaPaymentController.php:44-68 | one label per item |
| EsewaApi.CollectLabels | app/Http/Controllers/Api/Payment/EsewaPaymentController.php:44-68 | one label per item, in order |
| EsewaApi.Truncate | app/Http/Controllers/Api/Payment/EsewaPaymentController.php:72-74 | at most 255 characters: unchanged when short enough, else the first 252 and `...` |
| EsewaApi.ProductName | app/Http/Controllers/Api/Payment/EsewaPaymentController.php:71-74 | the product name sent never exceeds 255 |
| EsewaApi.InitiationData | app/Http/Controllers/Api/Payment/EsewaPaymentController.php:81-91 | the order's id, amounts, tax, total, zero service charge and shipping as delivery charge |
| EsewaApi.Initiated | app/Http/Controllers/Api/Payment/EsewaPaymentController.php:93-97 | two metadata keys set, nothing else |
| EsewaApi.AsValue | app/Http/Controllers/Api/Payment/EsewaPaymentController.php:139 | the request data stored as an object |
| EsewaApi.Reference | app/Http/Controllers/Api/Payment/EsewaPaymentController.php:145 | the transaction code, else the transaction id, else null |
| EsewaApi.AfterCallback | app/Http/Controllers/Api/Payment/EsewaPaymentController.php:136-158 | paid with the gateway's reference on a COMPLETE or SUCCESS status; otherwise cancelled with the failure recorded; other metadata kept |
| EsewaApi.CallbackRedirect | app/Http/Controllers/Api/Payment/EsewaPaymentController.php:165-173 | the confirmation page on success, the failure page otherwise |
| EsewaApi.EsewaPaymentController.constructor | app/Http/Controllers/Api/Payment/EsewaPaymentController.php:76 | the frontend url defaults to `http://localhost:3001` |
| EsewaApi.EsewaPaymentController.Initiate | app/Http/Controllers/Api/Payment/EsewaPaymentController.php:21-107 | 401 exactly without a user, 422 exactly for a missing or unknown order, 404 exactly for another user's; otherwise a verifying form for the order's totals and items, and the order is marked initiated |
| EsewaApi.EsewaPaymentController.Callback | app/Http/Controllers/Api/Payment/EsewaPaymentController.php:109-174 | 400 exactly for a bad signature, then for a missing id, 404 for an unknown order, each writing nothing; otherwise the order becomes `AfterCallback` and the browser is redirected |
| EsewaApi.AddedStatusCompletes | app/Http/Controllers/Api/Payment/EsewaPaymentController.php:115-142 | signed data with `status=COMPLETE` added still verifies and marks the order paid |
| EsewaApi.InitiatedFormCompletes | app/Http/Controllers/Api/Payment/EsewaPaymentController.php:81-142 | the initiated form with a successful status added verifies and pays its order |
| EsewaApi.ForgedStatusRefused | app/Services/Payment/EsewaPaymentService.php:76-95 | signed data with a status added does not sign its status |
| EsewaApi.InitiatedFormRefused | app/Http/Controllers/Api/Payment/EsewaPaymentController.php:81-121 | the initiated form with a status added does not sign its status, so the corrected callback refuses it |
| EsewaApi.EsewaPaymentController.CallbackSigned | app/Http/Controllers/Api/Payment/EsewaPaymentController.php:109-174 | 400 exactly when the signature fails or does not cover the status, writing nothing; otherwise as `Callback` |
| ReferralCodes.Letters | app/Models/User.php:136 | only ASCII letters are kept |
| ReferralCodes.LettersAppend | app/Models/User.php:136 | letters are kept in order |
| ReferralCodes.Padded | app/Models/User.php:137-139 | padded with `X` to three characters |
| ReferralCodes.Prefix | app/Models/User.php:135-140 | three upper-case characters: the name's first three letters, padded with `X` |
| ReferralCodes.PrefixOfLetters | app/Models/User.php:136 | only the letters of the name decide the prefix |
| ReferralCodes.Code | app/Models/User.php:143 | seven characters: the prefix, then four digits |
| ReferralCodes.FirstFreeCode | app/Models/User.php:142-144 | the code of the first draw no user holds |
| ReferralCodes.Taken | app/Models/User.php:144 | every code a user holds counts as taken |
| ReferralCodes.DrawCode | app/Models/User.php:142-144 | the do-while loop settles on `FirstFreeCode` |
| ReferralCodes.WithCode | app/Models/User.php:129-150 | an existing truthy code is returned unchanged; otherwise a fresh unused code with the name's prefix is stored |
| ReferralCodes.GenerateIdempotent | app/Models/User.php:131-133 | generating again returns the same code and changes nothing |
| ReferralCodes.GenerateKeepsUnique | app/Models/User.php:142-147 | generating keeps referral codes unique |
| ReferralCodes.Referrals.GenerateReferralCode | app/Models/User.php:129-150 | the users table and code become `WithCode` |
| ReferralCodes.Referrals.EnsureReferralCode | app/Models/User.php:155-161 | the same as generating |
| ReferralCodes.InsertKeepsUnique | database/migrations/2025_11_16_112952_add_referral_code_to_users_table.php:15 | storing a user whose code nobody holds keeps referral codes unique |
| ReferralCodes.Referrals.Create | app/Models/User.php:166-175 | a user whose code another user holds is not stored; otherwise the user is stored and, when it has no code, given one; codes stay unique |
| Cors.Sources | app/Http/Middleware/CorsMiddleware.php:18-24 | the three settings, then the two local origins |
| Cors.PiecesAreTrimmedParts | app/Http/Middleware/CorsMiddleware.php:25-26 | a listed piece is exactly a trimmed comma-separated part of a truthy value |
| Cors.Trimmed | app/Http/Middleware/CorsMiddleware.php:26 | each part is trimmed, in order |
| Cors.PlainValueIsPiece | app/Http/Middleware/CorsMiddleware.php:26 | a truthy setting without commas or surrounding blanks is itself an allowed origin |
| Cors.Unique | app/Http/Middleware/CorsMiddleware.php:27 | duplicates removed, same elements, the first kept first |
| Cors.Origins | app/Http/Middleware/CorsMiddleware.php:18-28 | no origin is listed twice |
| Cors.OriginsArePieces | app/Http/Middleware/CorsMiddleware.php:18-28 | the allowed origins are exactly the pieces of the settings and local origins |
| Cors.LocalOriginsListed | app/Http/Middleware/CorsMiddleware.php:22-23 | both local origins are always listed |
| Cors.AllowedOrigin | app/Http/Middleware/CorsMiddleware.php:30-38 | the request's origin when truthy and listed (or the list is empty), else the first listed, else none |
| Cors.UnlistedOriginNotEchoed | app/Http/Middleware/CorsMiddleware.php:32-35 | an unlisted origin is never echoed; the first listed origin is sent |
| Cors.WithCorsHeaders | app/Http/Middleware/CorsMiddleware.php:46-53 | the allow-origin header only for a truthy origin, credentials `true` exactly then, and the fixed methods, headers, vary and max-age |
| Cors.Response.SetHeader | app/Http/Middleware/CorsMiddleware.php:47 | one header set, the status kept |
| Cors.Handle | app/Http/Middleware/CorsMiddleware.php:16-56 | a preflight gets a fresh 204 and the next handler is untouched; any other request gets the next handler's response; either way the CORS headers are written |

## Left out

- Authentication, routing and route-model binding are not modelled. A missing bound model is a 404 `Not found.` reply; the caller's id is a parameter.
- Validation rules the model cannot state are left out: `uuid`, `email` and `date` formats, and `exists` for tables outside the model. The rules it keeps are on lengths (the optional billing texts included), required fields, enumerations, the delivery date's lower bound, the delivery time's pattern and the tables the model has.
- CustomerOrders.StartOfDay: a delivery date is given as a time stamp. `today` is the start of the UTC day holding `now`; the application's time zone is not modelled.
- Notifications, mail, SMS and logging (`OrderNotificationService`, `Log::…`) are left out: they change no state the core reads.
- The response formatting (resources, `formatPoint`, `formatCoupon`, `formatOrder`, ISO-8601 dates) is left out; replies carry the rows themselves.
- Pagination of payout history and earnings (20 per page) is not modelled; the full lists are returned.
- Database ordering is modelled only where it is by creation (newest first). The order by placing then creation time that the seller pipeline and label printing use (SellerOrders.SellerOrderController.Pipeline and PrintLabels) is a given `ranked` list. An order the list leaves out is never shown. The weekly seller list is any order (`Payout.ListSellers`).
- The seller overview's counters and percentages (orders today and yesterday, dispatch and return rates, gross sales) are floating-point reports, so they are left out; only its pipeline and label list are modelled.
- A label's body fields (customer, shipping address, totals, items) are not modelled; `PrintLabels` returns the chosen order ids.
- The admin order listing and search (`Admin/OrderController.php:22-77`) and the coupon listing's `search` text and `orderBy('ends_at')` are not modelled; they are queries with no state change.
- `Admin/OrderController::destroy` is not modelled.
- The customer order listing (`OrderController::index`) is not modelled.
- CustomerOrders.MetadataOf: the request's own `metadata` key is merged last, but the placement rules declare no `metadata` field, so the validated data never carries one. The model merges nothing.
- CustomerOrders.SellerOf: the source takes the first product row the database returns; the model takes the first stored product that some line names.
- SellerOrders.JourneyOf: a journey or current stage that is not an object, or not a text, is treated as absent.
- EsewaApi.SnapshotName: a snapshot title or name that is not a string is treated as absent.
- EsewaApi.Truncate: `strlen` and `substr` count bytes; the model counts characters, which agree for ASCII names.
- Cors.Unique: Laravel's `unique` and `contains` compare loosely; on strings that is the model's equality, except for numeric strings.
- Cors.Response.SetHeader: header names are case-insensitive in HTTP; the model keys headers by their exact name, which is how the middleware writes them.
- Payout.ListSellers: the database order of the weekly sellers is not modelled.
- Payout.PayoutService.ProcessPayoutItem: requires that the item's amount equals the seller's available balance. Every caller in the source guarantees this: one item per seller per batch, for the whole available balance.
- The `continue` for a seller below the threshold inside the weekly item loop (`PayoutService.php:146-148`) is not modelled: the selection query already excludes such a seller.
- The redeem branch for a normalised amount of zero (`PointsController.php:63-68`) cannot be taken after the `min:100` rule. The model includes it in the refusal.
- The random draws of order numbers and referral codes are a given sequence. GenerateOrderNumber, DrawCode, AdminOrders.AdminOrderController.Store and the ReferralCodes.Referrals methods require that some draw is free. The source keeps drawing and returns only if a draw is free.
- ReferralCodes.DrawCode: a name prefix has only 9000 codes (`rand(1000, 9999)`, `User.php:142-144`). Once all of them are held, the source's do-while loop never ends; for example, this happens for the 9001st user whose name starts "Joh". The model requires a free draw, so it does not model the endless loop.
- A fixed `MONTH` of 30 days stands in for Carbon's calendar `addMonths`.
- The HMAC-SHA256 and Base64 of the signature are an opaque function of message and key; `hash_equals` is equality.
- The payout adapters' bodies (`BankPayoutAdapter`, `WalletPayoutAdapter`) are not modelled; an adapter is a parameter.
- `(int)` casts of columns that are already integers are identities in the model.
- Coupons.BuildSummary: `orderTotal` (also taken by Coupons.CouponController.ValidateCode) is the request's `order_total` after `is_numeric($orderTotal) ? (int) $orderTotal : null`. It holds the value truncated toward zero, or None when the text is not numeric. The parsing itself is not modelled. For example, PHP reads "999.9" as 999, so a minimum of 1000 is not met; it also accepts forms such as " 12" and "1e3".
- Payout.PlatformFee: the source computes `round(grand_total * (5 / 100))` in floating point; the model rounds the exact value half up in integers. The two can differ only where the float product misses an exact half.
- Coupons.RoundHundredth: the percentage discount is `round(orderValue * (value / 100))` in floating point; the model rounds the exact integer quotient half away from zero, with the same caveat at exact halves.
- Points.PointsFor: `floor(amount * 0.01)` is a float product in the source; the model divides exactly (Points.EarnedPoints likewise on a real amount). A float product that falls just below a whole number would give one point less.
- Payout.FailedTransaction: the migration declares `payout_transactions.transaction_id` NOT NULL and unique, yet the failure path writes null (`PayoutService.php:280`). The model records the failed row without an id, as the code intends, and does not model the insert being rejected by the schema.
- The `seller_earnings` table has no unique index on `order_id`; that each order is credited at most once is the model's `OrdersCredited` invariant, which the daily scan keeps, not a database constraint.
- Database transactions and concurrency are not modelled: each action runs alone and all at once.

## Findings

| source | as written | input that shows it | evidently intended | confidence | as-written member | corrected member |
|---|---|---|---|---|---|---|
| app/Http/Controllers/Api/Payment/EsewaPaymentController.php:115-142 | the callback checks the signature over the fields the data itself names, then reads `status`, which those names need not include | the form data `initiate` returns to the browser (signed over `total_amount,transaction_uuid,product_code`) posted back with `status=COMPLETE` added: it verifies and the order becomes paid | the status that decides payment is covered by the signature, so data whose signed fields leave it out is refused | high (not executed) | EsewaApi.InitiatedFormCompletes | EsewaApi.EsewaPaymentController.CallbackSigned |

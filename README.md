# Restaurant ordering and billing — a Dafny model

The restaurant application has a customer-facing shop and an admin back office.

- **Customer side.** Customers fill a cart from the public product list, check out with a name and a
  phone number, and receive an order id plus a UPI payment QR code. The order is stored as
  `pending_payment` with payment method `QR`.
- **Staff side.** Staff mark each pending order `completed`, which also creates a bill, or `cancelled`.
  They can also ring up a quick bill at the counter, manage the product catalogue, take table bookings
  and read sales statistics.

The model covers these parts:

- the five Mongoose schemas, each as a validation-and-defaults step (`OrderModel`, `BillModel`,
  `ProductModel`, `TableModel`, `UserModel`);
- the database, as one class `Store.Db` whose collections are sequences;
- the public routes: creating an order, its order id and its UPI link (`PublicRoutes`);
- the admin order lifecycle, quick bills and account creation (`AdminControllers`);
- the statistics aggregations (`AdminStats`);
- the product controller (`ProductController`);
- booking and the upcoming-bookings listing (`Bookings`);
- the state updates of the two pages (`PublicShop` and `GenerateBill`).

`Common`, `Text`, `Sorting` and `Grouping` hold the shared pieces:

- line items and their amount;
- JavaScript's `trim`, `toLowerCase`, `includes`, `parseInt` and number printing;
- a stable sort by a key, which stands for `$sort`;
- a `$group` that sums a field per key.

Modelling conventions:

- **Money** is an integer in the application's currency unit.
- **Clocks are parameters:** `now` in milliseconds, and "today" as a `[dayStart, dayEnd]` range.
- **Aggregation time buckets** (`$week`, `$month`) are functions from a timestamp to an integer, given
  as parameters.
- **Storage keys** (`_id`) come from a counter `Store.Db.nextId`.
- **Controllers** are methods that take the database and change its collections. Each state change is
  stated in full in its contract.
- **Pages:** every React state update becomes a function from the previous state to the next.

Two points where the code does less than it appears to:

- **Completed order → bill.** `adminControllers.js` lines 288-289 relabel the order's `QR` method as `UPI`
  in a local variable, but that variable is never used. Line 298 passes `order.payment.method` to
  `Bill.create`, with a comment saying it matches the schema enum. So the bill stores `QR`, as
  `AdminControllers.QrOrderBilledAsQr` states.
- **Bill `paymentMethod` on that path.** The code passes the order's method string unchanged. The bill
  schema's enum check is the only validation. The order is saved before `Bill.create`, so a method
  outside the enum would leave the order completed with no bill (`ServerError`).

## Model

| member | source | states |
|---|---|---|
| Common.AmountAppend | restaurant-backent/Routes/publicRoutes.js:25 | the amount (Σ price × qty) of joined item lists is the sum of their amounts |
| Common.AmountSingle | restaurant-backent/Routes/publicRoutes.js:25 | one item's amount is its price times its quantity |
| Common.AmountNonNegative | restaurant-backent/controllers.js/adminControllers.js:99-102 | items with non-negative prices and quantities never total a negative amount |
| Common.Amount | restaurant-backent/Routes/publicRoutes.js:25 | `reduce` of price × qty: `AmountAppend`, `AmountSingle` and `AmountNonNegative` state its sum over joined lists, one item and non-negative items; `RequestTotalIsAmount`, `CartTotalIsAmount` and `LineTotalIsAmount` show that the bill handler's and both pages' totals equal it |
| Common.Filter | restaurant-frontend/src/pages/PublicShop.jsx:107 | `filter` keeps exactly the elements that pass, never more than the input |
| Common.FilterAppend | restaurant-frontend/src/pages/PublicShop.jsx:107 | filtering distributes over concatenation, so kept elements stay in order |
| Common.FilterKeepsAll | restaurant-frontend/src/pages/PublicShop.jsx:103 | a filter that every element passes returns the list unchanged |
| Common.FilterKeepsNone | restaurant-frontend/src/pages/PublicShop.jsx:107 | a filter that no element passes returns the empty list |
| Common.FirstWhere | restaurant-backent/controllers.js/adminControllers.js:273-276 | `findOne`: the index of the first match, and no earlier match; or none when nothing matches |
| Common.Find | restaurant-backent/controllers.js/adminControllers.js:273-276 | the front-to-back scan returns exactly `FirstWhere` |
| Text.TrimStart | restaurant-backent/Model/ProductModel.js:5 | the result is a suffix; everything dropped is white space; the result does not start with white space |
| Text.TrimEnd | restaurant-backent/Model/ProductModel.js:5 | the result is a prefix; everything dropped is white space; the result does not end with white space |
| Text.Trim | restaurant-backent/Model/ProductModel.js:5 | the result is a slice with only white space cut at both ends, and neither end is white space |
| Text.TrimIdempotent | restaurant-backent/Model/ProductModel.js:7 | trimming twice is trimming once |
| Text.AllDigits | restaurant-frontend/src/pages/PublicShop.jsx:111 | true exactly when every character is an ASCII digit |
| Text.DigitChar | restaurant-backent/Routes/publicRoutes.js:22 | the digit character of d has code '0' + d |
| Text.NatToString | restaurant-backent/Routes/publicRoutes.js:22 | the decimal printing is nonempty, all digits, with no leading zero except for 0 |
| Text.NatToStringRoundTrip | restaurant-backent/Routes/publicRoutes.js:22 | reading the printed digits back gives the number |
| Text.NatToStringInjective | restaurant-backent/Routes/publicRoutes.js:22 | distinct numbers print differently |
| Text.IntToString | restaurant-backent/Routes/publicRoutes.js:28 | the printing is nonempty and starts with '-' exactly for negative numbers |
| Text.IntToStringRoundTrip | restaurant-backent/Routes/publicRoutes.js:28 | parsing a printed integer gives it back |
| Text.Lower | restaurant-frontend/src/pages/adminAccess/GenerateBill.jsx:26 | `toLowerCase` keeps the length and lowercases each character |
| Text.IncludesIff | restaurant-frontend/src/pages/adminAccess/GenerateBill.jsx:26 | `includes` holds exactly when the needle occurs at some position |
| Sorting.KeysAtLeastPermutation | restaurant-backent/app.js:83 | a lower bound on every key carries over to any permutation |
| Sorting.SameElements | restaurant-backent/app.js:83 | permutations have the same members |
| Sorting.Insert | restaurant-backent/app.js:83 | insertion adds exactly one copy of the element |
| Sorting.InsertSorted | restaurant-backent/app.js:83 | inserting into a sorted list keeps it sorted |
| Sorting.SortBy | restaurant-backent/app.js:83 | `$sort`: the result is ordered by the key and is a permutation of the input |
| Sorting.Take | restaurant-backent/controllers.js/adminControllers.js:235 | `$limit n`: a prefix of length at most n, the whole list when it is shorter |
| Grouping.Accumulate | restaurant-backent/controllers.js/adminControllers.js:188-195 | adding a value to a key adds that key to the key set |
| Grouping.AccumulateDistinct | restaurant-backent/controllers.js/adminControllers.js:188-195 | accumulating keeps each key in one group |
| Grouping.AccumulateTotals | restaurant-backent/controllers.js/adminControllers.js:188-195 | accumulating raises that key's total and the grand total by the value, and no other total |
| Grouping.GroupSum | restaurant-backent/controllers.js/adminControllers.js:188-195 | `$group` with `$sum`: one group per key in the input, each holding the sum for that key, adding up to the input's sum |
| Grouping.TotalOfDistinct | restaurant-backent/controllers.js/adminControllers.js:188-195 | with distinct keys a group's total is the total looked up for its key |
| Grouping.TotalOfAbsent | restaurant-backent/controllers.js/adminControllers.js:188-195 | a key with no group totals 0 |
| Grouping.GroupSumTotals | restaurant-backent/controllers.js/adminControllers.js:188-195 | each produced group holds its key's sum |
| Grouping.SumForAppend | restaurant-backent/controllers.js/adminControllers.js:188-195 | a key's sum over joined inputs is the sum of the parts |
| Grouping.SumAllAppend | restaurant-backent/controllers.js/adminControllers.js:188-195 | the total over joined inputs is the sum of the parts |
| Grouping.KeysCardinality | restaurant-backent/controllers.js/adminControllers.js:188-195 | distinct-key groups have as many keys as groups |
| Grouping.GroupSumSingleKey | restaurant-backent/controllers.js/adminControllers.js:437-446 | input pairs that all share one key give at most one group, present exactly when the input is nonempty, holding the whole sum |
| Grouping.GrandTotalAppend | restaurant-backent/controllers.js/adminControllers.js:188-195 | the grand total of joined groups is the sum of the parts |
| Grouping.GrandTotalRemove | restaurant-backent/controllers.js/adminControllers.js:225-236 | the grand total is one group's total plus that of the rest |
| Grouping.RemovePermutation | restaurant-backent/controllers.js/adminControllers.js:225-236 | dropping matching elements from two permutations leaves permutations |
| Grouping.GrandTotalPermutation | restaurant-backent/controllers.js/adminControllers.js:225-236 | sorting groups does not change their grand total |
| Grouping.KeysAtMost | restaurant-backent/controllers.js/adminControllers.js:188-195 | there are never more keys than groups |
| Grouping.KeysShrink | restaurant-backent/controllers.js/adminControllers.js:188-195 | a repeated key makes the key set smaller than the group list |
| Grouping.DistinctKeysPermutation | restaurant-backent/controllers.js/adminControllers.js:225-236 | reordering groups keeps their keys distinct |
| OrderModel.Create | restaurant-backent/Model/OrderModel.js:5-51 | an order is stored exactly when its required fields are present; it is well formed and keeps the given id, items, customer, amount, QR payload and creation time |
| OrderModel.CreateDefaults | restaurant-backent/Model/OrderModel.js:26-47 | with nothing given, the status is `pending_payment`, the method `QR`, the payment `pending` and there is no table number |
| OrderModel.CreateOverrides | restaurant-backent/Model/OrderModel.js:26-47 | given values replace the defaults |
| OrderModel.HasRequired | restaurant-backent/Model/OrderModel.js:5-25 | the `required: true` fields; `OrderModel.Create` states that an order is stored exactly when they are present |
| BillModel.ParseMethodIff | restaurant-backent/Model/BillModel.js:14 | a string is accepted as a payment method exactly when it is that method's enum spelling |
| BillModel.ParseMethod | restaurant-backent/Model/BillModel.js:14 | the enum check; `ParseMethodIff` states that it accepts exactly the four method names, each naming its own method |
| BillModel.ItemsWithDefault | restaurant-backent/Model/BillModel.js:6-12 | each item keeps its name and price, and a missing quantity becomes 1 |
| BillModel.Create | restaurant-backent/Model/BillModel.js:3-16 | a bill is stored exactly when it validates; it keeps the customer, phone, total and method and has the defaulted items |
| BillModel.Validates | restaurant-backent/Model/BillModel.js:3-16 | the schema's checks; `BillModel.Create` states that a bill is stored exactly when they hold |
| ProductModel.Create | restaurant-backent/Model/ProductModel.js:5-18 | a product is stored exactly when it validates; name and category are trimmed, and price, images, description, stock, flag and both timestamps are set |
| ProductModel.CreateDefaults | restaurant-backent/Model/ProductModel.js:8-18 | the description defaults to "", the stock to 0 and `isActive` to true; both timestamps are the creation time |
| ProductModel.NegativeRefused | restaurant-backent/Model/ProductModel.js:6-15 | a negative price or stock is refused (`min: 0`) |
| ProductModel.Validates | restaurant-backent/Model/ProductModel.js:5-18 | the schema's checks; `ProductModel.Create` states that a product is stored exactly when they hold, and `NegativeRefused` shows a negative price or stock failing them |
| UserModel.ParseRole | restaurant-backent/Model/UserModel.js:24-28 | accepts exactly "user" and "admin" |
| UserModel.NormalizeEmail | restaurant-backent/Model/UserModel.js:12-18 | the stored email is the given email, trimmed, with each letter lower-cased, so it is trimmed and has no upper-case letter |
| UserModel.Create | restaurant-backent/Model/UserModel.js:6-28 | a user is stored exactly when it validates, with the normalised email, the trimmed username, and the role defaulting to "user" |
| UserModel.Validates | restaurant-backent/Model/UserModel.js:6-28 | the schema's checks; `UserModel.Create` states that a user is stored exactly when they hold |
| Store.Db.AppendProduct | restaurant-backent/controllers.js/admin_Product_Controller.js:34-42 | saving a product appends it under a fresh key and keeps the database invariant |
| Store.Db.AppendBooking | restaurant-backent/app.js:48-55 | saving a booking appends it under a fresh key and keeps the database invariant |
| Store.Db.RemoveProductAt | restaurant-backent/controllers.js/admin_Product_Controller.js:106 | deleting removes exactly that product and leaves no product with its key |
| Store.Db.AppendUser | restaurant-backent/controllers.js/adminControllers.js:61-66 | saving a user with an unused email appends it under a fresh key and keeps the unique email index |
| Store.Db.ReplaceOrderAt | restaurant-backent/controllers.js/adminControllers.js:284-286 | `order.save()` replaces exactly that order, keeping its id, and changes nothing else |
| Store.Db.AppendBill | restaurant-backent/controllers.js/adminControllers.js:292-299 | `Bill.create` of a well-formed bill appends exactly that bill and changes nothing else |
| PublicRoutes.OrderIdFor | restaurant-backent/Routes/publicRoutes.js:22 | the order id is "ORD" followed by decimal digits |
| PublicRoutes.OrderIdRoundTrip | restaurant-backent/Routes/publicRoutes.js:22 | the timestamp can be read back from the order id |
| PublicRoutes.OrderIdInjective | restaurant-backent/Routes/publicRoutes.js:22 | two orders get the same id exactly when they are created at the same millisecond |
| PublicRoutes.IndexOf | restaurant-backent/Routes/publicRoutes.js:28 | the first position of a character, or the length when it is absent |
| PublicRoutes.NoAmpersandInNumber | restaurant-backent/Routes/publicRoutes.js:28 | a printed amount never contains the `&` separator |
| PublicRoutes.UpiLinkRoundTrip | restaurant-backent/Routes/publicRoutes.js:28 | the amount and the order id can be read back from the UPI link |
| PublicRoutes.UpiLinkFields | restaurant-backent/Routes/publicRoutes.js:28 | the link carries `am=<amount>`, `cu=INR` and `tn=<order id>` |
| PublicRoutes.UpiLink | restaurant-backent/Routes/publicRoutes.js:28 | the payment link; `UpiLinkFields`, `UpiLinkAmount`, `UpiLinkCurrency` and `UpiLinkNote` state the fields it carries, and `UpiLinkRoundTrip` states that amount and order id read back from it |
| PublicRoutes.UpiLinkAmount | restaurant-backent/Routes/publicRoutes.js:28 | the link carries `am=` followed by the printed amount |
| PublicRoutes.UpiLinkCurrency | restaurant-backent/Routes/publicRoutes.js:28 | the link carries `cu=INR` |
| PublicRoutes.UpiLinkNote | restaurant-backent/Routes/publicRoutes.js:28 | the link carries `tn=` followed by the order id |
| PublicRoutes.Priced | restaurant-backent/Routes/publicRoutes.js:25 | the items yield a number exactly when every item has a price and a quantity, and then each stored item keeps its name, price and quantity; otherwise the amount is NaN, which the Number cast of `payment.amount` refuses |
| PublicRoutes.RequestItems | restaurant-backent/Routes/publicRoutes.js:19-25 | the items are usable only when the body has them; `NewOrderShape` and `UnpricedRefused` state the result |
| PublicRoutes.PricedSent | restaurant-backent/Routes/publicRoutes.js:25 | a body that sends each item's price and quantity yields exactly those items |
| PublicRoutes.UnpricedRefused | restaurant-backent/Routes/publicRoutes.js:19-25 | a body without `items`, or with an item missing its price or quantity, stores nothing |
| PublicRoutes.OrderDocument | restaurant-backent/Routes/publicRoutes.js:32-39 | the document given to `Order.create`; `NewOrderShape` states the order it becomes |
| PublicRoutes.NewOrder | restaurant-backent/Routes/publicRoutes.js:32-39 | the stored order; `NewOrderShape` and `UnpricedRefused` state when it exists and what it holds |
| PublicRoutes.NewOrderShape | restaurant-backent/Routes/publicRoutes.js:17-39 | an order is stored exactly when the body has items, each with a price and a quantity, and a name and a phone; it is stored as `pending_payment`, with method QR, the items' amount, the QR payload and no table number |
| PublicRoutes.CreateOrder | restaurant-backent/Routes/publicRoutes.js:17-52 | `/create-order` places an order exactly when the body has priced items, name and phone are present and the id is unused; it stores the order and returns the id and the QR of the link for the items' amount; every failure is a 500 that stores nothing |
| AdminControllers.ParseTarget | restaurant-backent/controllers.js/adminControllers.js:269-271 | only "completed" and "cancelled" are accepted target statuses |
| AdminControllers.Settle | restaurant-backent/controllers.js/adminControllers.js:283-317 | completing sets completed/verified, cancelling sets cancelled/failed, and everything else is kept |
| AdminControllers.Update | restaurant-backent/controllers.js/adminControllers.js:261-323 | `updatePendingOrders` on values; `UpdateRejectsBadRequest`, `UpdateUnknownOrder`, `UpdateRequiresPending`, `UpdateCancels`, `UpdateCompletes`, `UpdateFrame`, `SettledLeavesPending` and `SecondTransitionFails` state each outcome and what it changes |
| AdminControllers.AsBillItems | restaurant-backent/controllers.js/adminControllers.js:296 | the bill receives the order's items unchanged |
| AdminControllers.BillForOrder | restaurant-backent/controllers.js/adminControllers.js:292-299 | the bill is created exactly when the schema accepts it, with the order's customer, phone, items and amount, and the order's own method |
| AdminControllers.BillDocument | restaurant-backent/controllers.js/adminControllers.js:292-299 | the document for `Bill.create`: the order's name, phone, items, amount and method string; `BillForOrder` states the bill it becomes |
| AdminControllers.QrOrderBilledAsQr | restaurant-backent/controllers.js/adminControllers.js:288-299 | a QR order is billed as QR: the relabelled local value is not what gets stored |
| AdminControllers.FirstIndex | restaurant-backent/controllers.js/adminControllers.js:273-276 | the first order with the id, or none |
| AdminControllers.UpdateRejectsBadRequest | restaurant-backent/controllers.js/adminControllers.js:265-271 | a missing field or unknown status is refused and nothing changes |
| AdminControllers.UpdateUnknownOrder | restaurant-backent/controllers.js/adminControllers.js:273-276 | an unknown order id gives "not found" and nothing changes |
| AdminControllers.UpdateRequiresPending | restaurant-backent/controllers.js/adminControllers.js:278-280 | an order that is not pending cannot change status |
| AdminControllers.UpdateCompletes | restaurant-backent/controllers.js/adminControllers.js:283-305 | completing a pending order settles it and appends exactly its bill, or reports a server error with the order already saved |
| AdminControllers.UpdateCancels | restaurant-backent/controllers.js/adminControllers.js:308-317 | cancelling a pending order settles it and creates no bill |
| AdminControllers.UpdateFrame | restaurant-backent/controllers.js/adminControllers.js:261-323 | no order is added, removed or renamed; at most one bill is appended, and exactly when an order was completed |
| AdminControllers.SecondTransitionFails | restaurant-backent/controllers.js/adminControllers.js:278-280 | a settled order can never be settled again |
| AdminControllers.SettledLeavesPending | restaurant-backent/controllers.js/adminControllers.js:247-259 | a settled order leaves the pending list |
| AdminControllers.UpdatePendingOrders | restaurant-backent/controllers.js/adminControllers.js:261-323 | the handler changes orders and bills as `Update` describes and nothing else |
| AdminControllers.QtyOrOne | restaurant-backent/controllers.js/adminControllers.js:100 | `qty \|\| 1`: a missing or zero quantity counts as 1 |
| AdminControllers.Normalize | restaurant-backent/controllers.js/adminControllers.js:105-115 | each sent item keeps its name and price, with quantity `qty \|\| 1` |
| AdminControllers.RequestTotalIsAmount | restaurant-backent/controllers.js/adminControllers.js:99-102 | the server's total is the amount of the stored items |
| AdminControllers.RequestTotal | restaurant-backent/controllers.js/adminControllers.js:99-102 | the handler's total; `RequestTotalIsAmount` states that it is the amount of the stored items |
| AdminControllers.RequestDocument | restaurant-backent/controllers.js/adminControllers.js:105-115 | the document for `Bill.create`, with phone defaulting to ""; `BuildBill` states the bill it becomes |
| AdminControllers.BuildBill | restaurant-backent/controllers.js/adminControllers.js:86-129 | covers each refusal; a bill is created exactly when name, items and a known method are present, and then it holds the normalised items, their amount, the customer and the method |
| AdminControllers.ClientTotalIgnored | restaurant-backent/controllers.js/adminControllers.js:99-102 | the total the client sends has no effect |
| AdminControllers.BuildBillTotalNonNegative | restaurant-backent/controllers.js/adminControllers.js:99-115 | with non-negative prices and quantities, the total is non-negative and every quantity is at least 1 |
| AdminControllers.CreateBill | restaurant-backent/controllers.js/adminControllers.js:86-129 | `/generate-bill` appends exactly the built bill, if any, and changes nothing else |
| AdminControllers.AccountDefaultsToAdmin | restaurant-backent/controllers.js/adminControllers.js:53 | an account created with no role is an admin |
| AdminControllers.AccountDocument | restaurant-backent/controllers.js/adminControllers.js:53-66 | the document for `User.create`, with the hashed password and role defaulting to admin; `AccountDefaultsToAdmin` and `CreateAccount` state the stored account |
| AdminControllers.CreateAccount | restaurant-backent/controllers.js/adminControllers.js:52-72 | refused exactly when the normalised email is taken; otherwise the created user is appended under a fresh key |
| AdminControllers.PendingOrders | restaurant-backent/controllers.js/adminControllers.js:247-259 | exactly the orders still pending payment |
| AdminControllers.TodayOrders | restaurant-backent/controllers.js/adminControllers.js:327-351 | exactly the completed orders created today |
| AdminStats.SalesPairs | restaurant-backent/controllers.js/adminControllers.js:188-195 | one (key, total) pair per bill |
| AdminStats.SalesPairsSums | restaurant-backent/controllers.js/adminControllers.js:188-197 | the pairs add up to each key's sales and to the total sales |
| AdminStats.TotalSales | restaurant-backent/controllers.js/adminControllers.js:371-374 | `$sum` of `totalAmount`; `SalesPairsSums` states that per-key pairs add up to it, and `AllTimeSales` and `TodayStats` report it |
| AdminStats.SalesFor | restaurant-backent/controllers.js/adminControllers.js:188-195 | one key's sales; `SalesPairsSums`, `SalesBy`, `PeriodSalesTotals` and `GetStatsEntries` state that each group holds it |
| AdminStats.SalesBy | restaurant-backent/controllers.js/adminControllers.js:188-195 | one group per key some bill has, each holding that key's sales, adding up to all sales |
| AdminStats.PaymentSplit | restaurant-backent/controllers.js/adminControllers.js:393-404 | one entry per payment method in use, holding that method's sales |
| AdminStats.TopFinance | restaurant-backent/controllers.js/adminControllers.js:186-206 | the breakdown per method in use, and the deposit is the total of all bills |
| AdminStats.MethodNameInjective | restaurant-backent/Model/BillModel.js:14 | each method name names only one method |
| AdminStats.PaymentMethodsMap | restaurant-backent/controllers.js/adminControllers.js:401-404 | the dictionary has one key per method in the split, holding its total |
| AdminStats.PaymentMethodsOf | restaurant-backent/controllers.js/adminControllers.js:401-404 | the dictionary has a key for each method in use holding that method's sales; `MapIsPaymentMethods` states that the `forEach` fill produces it |
| AdminStats.MapIsPaymentMethods | restaurant-backent/controllers.js/adminControllers.js:401-404 | a dictionary filled from the payment split, one key per method with its total, is the payment-method dictionary |
| AdminStats.ItemPairs | restaurant-backent/controllers.js/adminControllers.js:225-232 | `$unwind` of a bill: one (bucket, name, qty) pair per item |
| AdminStats.ItemPairsSum | restaurant-backent/controllers.js/adminControllers.js:225-232 | one bill's pairs sum to the quantity of the named item in that bill's bucket |
| AdminStats.UnwindSum | restaurant-backent/controllers.js/adminControllers.js:225-232 | all pairs for a key sum to the quantity sold of that item in that bucket |
| AdminStats.QtyFor | restaurant-backent/controllers.js/adminControllers.js:225-232 | the quantity sold of an item in a bucket; `UnwindSum`, `TopItemsTotals` and `TopItemsBeatOmitted` state that the groups hold it |
| AdminStats.UnwindKeys | restaurant-backent/controllers.js/adminControllers.js:225-232 | `$unwind` yields a (bucket, name) key exactly for each item some bill sold in that bucket |
| AdminStats.ItemGroups | restaurant-backent/controllers.js/adminControllers.js:225-232 | a group for exactly the (bucket, item) keys of the items sold, each key once, with the quantity sold |
| AdminStats.TopGroups | restaurant-backent/controllers.js/adminControllers.js:233-235 | exactly min(n, number of groups) groups, as `$limit` keeps, largest first, drawn from the input |
| AdminStats.TopGroupsMembers | restaurant-backent/controllers.js/adminControllers.js:233-235 | every kept group is an input group |
| AdminStats.TopGroupsDistinct | restaurant-backent/controllers.js/adminControllers.js:233-235 | the kept groups have distinct keys |
| AdminStats.TopGroupsBeatOmitted | restaurant-backent/controllers.js/adminControllers.js:233-235 | no omitted group beats a kept one |
| AdminStats.TopGroupsBeatOmittedKey | restaurant-backent/controllers.js/adminControllers.js:233-235 | a group whose key was cut by the limit has no larger total than any group kept |
| AdminStats.TopSold | restaurant-backent/controllers.js/adminControllers.js:225-236 | sorting and limiting the item groups keeps min(n, number of keys sold) items sold, each once, with its quantity |
| AdminStats.ParsePeriod | restaurant-backent/controllers.js/adminControllers.js:210-219 | `period` defaults to weekly; "monthly" selects months |
| AdminStats.ItemBucket | restaurant-backent/controllers.js/adminControllers.js:210-219 | the bucket part of the group key: week, month or none; `TopItems` and `TopItemsTotals` state the groups under it |
| AdminStats.InRange | restaurant-backent/controllers.js/adminControllers.js:221-223 | with both dates, exactly the bills in the range; otherwise all bills |
| AdminStats.RankedItems | restaurant-backent/controllers.js/adminControllers.js:225-234 | match, unwind, group and sort; `TopItems`, `TopItemsTotals` and `TopItemsBeatOmitted` state the result after `$limit` |
| AdminStats.TopItems | restaurant-backent/controllers.js/adminControllers.js:208-243 | exactly min(10, number of (bucket, item) keys sold in the matched bills) distinct groups, largest first, each an item sold |
| AdminStats.TopItemsTotals | restaurant-backent/controllers.js/adminControllers.js:208-243 | each reported quantity is that item's sales in its bucket over the matched bills |
| AdminStats.TopItemsBeatOmitted | restaurant-backent/controllers.js/adminControllers.js:233-235 | no item sold in the matched bills and left out sold more than a listed one |
| AdminStats.AllTimeSales | restaurant-backent/controllers.js/adminControllers.js:371-374 | the total of all bills |
| AdminStats.TodayBills | restaurant-backent/controllers.js/adminControllers.js:377-390 | exactly today's bills |
| AdminStats.PhonesAtMostBills | restaurant-backent/controllers.js/adminControllers.js:384 | there are at most as many distinct phones as bills, and at least one when there is a bill |
| AdminStats.Phones | restaurant-backent/controllers.js/adminControllers.js:384 | `$addToSet` of phones; `PhonesAtMostBills` bounds it by the bill count, and `TodayStats` reports its size as today's customers |
| AdminStats.TodayStats | restaurant-backent/controllers.js/adminControllers.js:377-390 | today's sales, bill count and distinct customers, with customers ≤ bills |
| AdminStats.ItemAmountPairs | restaurant-backent/controllers.js/adminControllers.js:437-446 | every unwound item falls under the missing category |
| AdminStats.CategoryPairs | restaurant-backent/controllers.js/adminControllers.js:437-446 | every pair across all bills has the missing category |
| AdminStats.ItemAmountPairsSum | restaurant-backent/controllers.js/adminControllers.js:437-446 | the pairs sum to the bill's item amount |
| AdminStats.CategoryPairsSum | restaurant-backent/controllers.js/adminControllers.js:437-446 | the pairs sum to all item sales, and there are none exactly when no bill has items |
| AdminStats.CategorySales | restaurant-backent/controllers.js/adminControllers.js:437-446 | a single `null` category holding all item sales, or nothing when no bill has items |
| AdminStats.SortedDistinctAscending | restaurant-backent/controllers.js/adminControllers.js:433 | sorted groups with distinct keys are strictly ascending |
| AdminStats.PeriodSales | restaurant-backent/controllers.js/adminControllers.js:423-434 | the sales per bucket, each bucket once, in ascending order, adding up to all sales |
| AdminStats.PeriodSalesEntries | restaurant-backent/controllers.js/adminControllers.js:423-434 | a bucket is listed exactly when some bill falls in it, with that bucket's sales |
| AdminStats.PeriodSalesKeys | restaurant-backent/controllers.js/adminControllers.js:423-434 | the buckets listed are exactly the buckets some bill falls in |
| AdminStats.PeriodSalesTotals | restaurant-backent/controllers.js/adminControllers.js:423-434 | every listed bucket carries the sales of the bills in it |
| AdminStats.StatsBucket | restaurant-backent/controllers.js/adminControllers.js:136-148 | weeks when the period is absent or "weekly", months for any other value |
| AdminStats.GetStats | restaurant-backent/controllers.js/adminControllers.js:134-161 | per-bucket sales in ascending bucket order, adding up to all sales |
| AdminStats.GetStatsEntries | restaurant-backent/controllers.js/adminControllers.js:150-161 | a bucket is listed exactly when some bill falls in it, with that bucket's sales |
| AdminStats.WeeklyTopItems | restaurant-backent/controllers.js/adminControllers.js:407-420 | exactly min(5, number of (week, item) keys sold) distinct groups, largest first, each an item sold with its weekly quantity |
| AdminStats.AdminDashboardStats | restaurant-backent/controllers.js/adminControllers.js:365-463 | each dashboard figure: total sales, today, payment dictionary, weekly top 5, monthly sales and category sales |
| AdminStats.DashboardMethodKeys | restaurant-backent/controllers.js/adminControllers.js:401-404 | a method is a dictionary key exactly when some bill used it |
| ProductController.NewestFirst | restaurant-backent/controllers.js/admin_Product_Controller.js:8-15 | all products, newest first |
| ProductController.NewestFirstListsAll | restaurant-backent/controllers.js/admin_Product_Controller.js:8-15 | a product is listed exactly when it is stored |
| ProductController.UploadedImages | restaurant-backent/controllers.js/admin_Product_Controller.js:25-31 | one image per uploaded file, with its path and file name |
| ProductController.AddedProductShape | restaurant-backent/controllers.js/admin_Product_Controller.js:17-42 | an added product is active, the description defaults to "", the stock to 0, and it has one image per file |
| ProductController.MissingRequired | restaurant-backent/controllers.js/admin_Product_Controller.js:21 | the 400 check; `AddNewProduct` states that a product is refused exactly when it holds |
| ProductController.AddDocument | restaurant-backent/controllers.js/admin_Product_Controller.js:19-42 | the document for `Product.create`, with the body's defaults; `AddedProductShape` states the product it becomes |
| ProductController.AddNewProduct | restaurant-backent/controllers.js/admin_Product_Controller.js:17-49 | refused exactly when name, price or category is missing; otherwise the created product is appended, or nothing changes when the schema refuses it |
| ProductController.Whitelisted | restaurant-backent/controllers.js/admin_Product_Controller.js:75-79 | the update keeps exactly the body's fields that are on the whitelist, with their values |
| ProductController.BuildUpdate | restaurant-backent/controllers.js/admin_Product_Controller.js:75-79 | the loop over the whitelist builds exactly that update |
| ProductController.NewImages | restaurant-backent/controllers.js/admin_Product_Controller.js:61-69 | one uploaded image per new file, in order |
| ProductController.UpdatedKeepsOthers | restaurant-backent/controllers.js/admin_Product_Controller.js:72-82 | key and creation time are kept, new images are appended, `updatedAt` is now, and fields not sent stay the same |
| ProductController.UpdatedSetsGiven | restaurant-backent/controllers.js/admin_Product_Controller.js:75-82 | each field sent is stored, with name and category trimmed |
| ProductController.AppliedSetsGiven | restaurant-backent/controllers.js/admin_Product_Controller.js:82 | an update that passes the casts stores each field it names, name and category trimmed |
| ProductController.ApplyUpdate | restaurant-backent/controllers.js/admin_Product_Controller.js:72-82 | `findByIdAndUpdate` on one product; `AppliedSetsGiven` states that the update stores each given field |
| ProductController.Updated | restaurant-backent/controllers.js/admin_Product_Controller.js:72-82 | the whole update; `UpdatedKeepsOthers`, `UpdatedSetsGiven`, `UpdateIgnoresOtherFields`, `UpdateSkipsValidators` and `UpdateFailsIff` state what it changes and when it fails |
| ProductController.UpdateIgnoresOtherFields | restaurant-backent/controllers.js/admin_Product_Controller.js:75-79 | fields off the whitelist have no effect |
| ProductController.UpdateSkipsValidators | restaurant-backent/controllers.js/admin_Product_Controller.js:82 | the update runs no validators: any price and any stock sent, negative ones included, is stored as sent |
| ProductController.SkipsValidatorsOn | restaurant-backent/controllers.js/admin_Product_Controller.js:82 | any body of numbers for price and stock is stored exactly as sent, with no `min: 0` check |
| ProductController.UpdateFailsIff | restaurant-backent/controllers.js/admin_Product_Controller.js:82 | the update fails exactly when a whitelisted field has the wrong type |
| ProductController.UpdateProduct | restaurant-backent/controllers.js/admin_Product_Controller.js:53-88 | "not found" exactly when no product has the key; otherwise that product is replaced by its update |
| ProductController.DeleteProduct | restaurant-backent/controllers.js/admin_Product_Controller.js:91-112 | "not found" exactly when no product has the key; otherwise it is removed and every other product is kept |
| Bookings.BookedTime | restaurant-backent/app.js:52 | a booking has a time exactly when a nonzero one was sent |
| Bookings.Book | restaurant-backent/app.js:40-72 | refused exactly when name, phone or guests is missing; otherwise the booking is stored under a fresh key and echoed |
| Bookings.Refused | restaurant-backent/app.js:44 | the 400 check; `Book` states that the booking is refused exactly when it holds |
| Bookings.Upcoming | restaurant-backent/app.js:75-90 | the bookings in the next seven days, ascending by time |
| Bookings.UpcomingIff | restaurant-backent/app.js:77-83 | a booking is listed exactly when its time is within the next seven days |
| Bookings.InWindow | restaurant-backent/app.js:77-82 | the query's time range; `UpcomingIff` states which bookings it admits, and `UntimedNeverUpcoming` that one without a time is never listed |
| Bookings.UpcomingInTimeOrder | restaurant-backent/app.js:83 | every listed booking has a time, and the times ascend |
| Bookings.UntimedNeverUpcoming | restaurant-backent/app.js:77-83 | a booking without a time is never listed |
| PublicShop.RemoveLine | restaurant-frontend/src/pages/PublicShop.jsx:107 | exactly the lines with another id remain |
| PublicShop.RemoveAbsent | restaurant-frontend/src/pages/PublicShop.jsx:107 | removing an id that is not in the cart changes nothing |
| PublicShop.ClearCart | restaurant-frontend/src/pages/PublicShop.jsx:108 | the cleared cart totals nothing |
| PublicShop.Toggle | restaurant-frontend/src/pages/PublicShop.jsx:84-91 | a product in the cart is removed; otherwise it is appended with quantity 1 |
| PublicShop.ToggleTwice | restaurant-frontend/src/pages/PublicShop.jsx:84-91 | toggling a new product twice restores the cart |
| PublicShop.ToggleAddsOne | restaurant-frontend/src/pages/PublicShop.jsx:77-91 | adding a product raises the total by its price and the item count by 1 |
| PublicShop.Clamp | restaurant-frontend/src/pages/PublicShop.jsx:100 | the new quantity is max(1, qty + delta) within the stock, and max(1, stock) when the stock caps it |
| PublicShop.ClampLines | restaurant-frontend/src/pages/PublicShop.jsx:97-102 | only the line with the id changes, to the clamped quantity |
| PublicShop.ChangeQty | restaurant-frontend/src/pages/PublicShop.jsx:94-105 | every line keeps a quantity of at least 1 |
| PublicShop.ChangeQtyOnlyThatLine | restaurant-frontend/src/pages/PublicShop.jsx:94-105 | no line is dropped, and only the chosen line changes, within 1 and its stock |
| PublicShop.AsItems | restaurant-frontend/src/pages/PublicShop.jsx:134-138 | each sent item is the line's name, price and quantity |
| PublicShop.CartTotalIsAmount | restaurant-frontend/src/pages/PublicShop.jsx:77-80 | the page's total is the server's amount of the items it sends |
| PublicShop.CartTotal | restaurant-frontend/src/pages/PublicShop.jsx:77-80 | the page's total; `CartTotalIsAmount` ties it to the server's amount and `ToggleAddsOne` to adding a product |
| PublicShop.TotalItems | restaurant-frontend/src/pages/PublicShop.jsx:81 | the item count; `TotalItemsAtLeastLines` and `ToggleAddsOne` state its bounds and how adding changes it |
| PublicShop.TotalItemsAtLeastLines | restaurant-frontend/src/pages/PublicShop.jsx:81 | the item count is at least the number of lines |
| PublicShop.DigitsThenEnd | restaurant-frontend/src/pages/PublicShop.jsx:111 | exactly n digits and nothing after them |
| PublicShop.PhoneLooksOk | restaurant-frontend/src/pages/PublicShop.jsx:111 | the trimmed phone is exactly ten digits |
| PublicShop.HandlePayment | restaurant-frontend/src/pages/PublicShop.jsx:114-145 | each guard fires exactly under its condition, in order; otherwise it sends the projected items and the trimmed name and phone |
| PublicShop.CartAfter | restaurant-frontend/src/pages/PublicShop.jsx:152-155 | the cart is cleared when the server accepted the order and is kept unchanged otherwise |
| PublicShop.SentOrderAccepted | restaurant-frontend/src/pages/PublicShop.jsx:114-145 | a sent order is accepted by the server, for the amount the page showed, with a ten-digit phone |
| GenerateBill.FilteredProducts | restaurant-frontend/src/pages/adminAccess/GenerateBill.jsx:25-27 | the search never shows more products than exist |
| GenerateBill.FilteredIff | restaurant-frontend/src/pages/adminAccess/GenerateBill.jsx:25-27 | a product is shown exactly when its lower-cased name contains the lower-cased term |
| GenerateBill.EmptySearchOffersAll | restaurant-frontend/src/pages/adminAccess/GenerateBill.jsx:25-27 | an empty search shows every product |
| GenerateBill.Increment | restaurant-frontend/src/pages/adminAccess/GenerateBill.jsx:36-38 | the line with the id gains one unit, and the other lines stay the same |
| GenerateBill.AddItem | restaurant-frontend/src/pages/adminAccess/GenerateBill.jsx:30-43 | an unknown product changes nothing, a selected one is incremented and a new one is appended with 1; ids stay unique and quantities positive |
| GenerateBill.IncrementTotal | restaurant-frontend/src/pages/adminAccess/GenerateBill.jsx:36-38 | one more unit raises the total by the price |
| GenerateBill.AddItemTotal | restaurant-frontend/src/pages/adminAccess/GenerateBill.jsx:30-43 | adding a product raises the total by its price |
| GenerateBill.DigitPrefix | restaurant-frontend/src/pages/adminAccess/GenerateBill.jsx:48 | the longest leading run of digits |
| GenerateBill.ParseLeadingIntRoundTrip | restaurant-frontend/src/pages/adminAccess/GenerateBill.jsx:48 | `parseInt` reads a printed integer back |
| GenerateBill.ParseLeadingInt | restaurant-frontend/src/pages/adminAccess/GenerateBill.jsx:48 | `parseInt`; `ParseLeadingIntRoundTrip`, `ParseUnsigned` and `ParseNegative` state what it reads from digits |
| GenerateBill.ParseUnsigned | restaurant-frontend/src/pages/adminAccess/GenerateBill.jsx:48 | a run of digits parses to its value |
| GenerateBill.ParseNegative | restaurant-frontend/src/pages/adminAccess/GenerateBill.jsx:48 | a minus sign and digits parse to the negated value |
| GenerateBill.DigitPrefixAll | restaurant-frontend/src/pages/adminAccess/GenerateBill.jsx:48 | an all-digit string is its own digit prefix |
| GenerateBill.QtyFrom | restaurant-frontend/src/pages/adminAccess/GenerateBill.jsx:48 | `Math.max(1, parseInt(v) \|\| 1)`: the parsed value when it is at least 1, otherwise 1 |
| GenerateBill.HandleQtyChange | restaurant-frontend/src/pages/adminAccess/GenerateBill.jsx:46-50 | only the line at the index changes, to the parsed quantity; ids stay unique and quantities positive |
| GenerateBill.RemoveAtSlices | restaurant-frontend/src/pages/adminAccess/GenerateBill.jsx:53-55 | removing an index in range drops exactly that line; an index out of range changes nothing |
| GenerateBill.RemoveAtKeeps | restaurant-frontend/src/pages/adminAccess/GenerateBill.jsx:53-55 | removal keeps ids unique and quantities positive |
| GenerateBill.RemoveAt | restaurant-frontend/src/pages/adminAccess/GenerateBill.jsx:53-55 | the `filter` by index; `RemoveAtSlices`, `RemoveAtInside` and `RemoveAtOutside` state what it keeps |
| GenerateBill.RemoveAtInside | restaurant-frontend/src/pages/adminAccess/GenerateBill.jsx:53-55 | removing an index in range drops exactly that line |
| GenerateBill.RemoveAtOutside | restaurant-frontend/src/pages/adminAccess/GenerateBill.jsx:53-55 | removing an index out of range changes nothing |
| GenerateBill.AsItems | restaurant-frontend/src/pages/adminAccess/GenerateBill.jsx:70-74 | each sent item is the line's name, price and quantity |
| GenerateBill.LineTotalIsAmount | restaurant-frontend/src/pages/adminAccess/GenerateBill.jsx:58-61 | the page's total is the amount of the items it sends |
| GenerateBill.LineTotal | restaurant-frontend/src/pages/adminAccess/GenerateBill.jsx:58-61 | the page's total; `LineTotalIsAmount` ties it to the amount of the items and `AddItemTotal`, `IncrementTotal` and `OneMoreTotal` to each change |
| GenerateBill.OneMoreTotal | restaurant-frontend/src/pages/adminAccess/GenerateBill.jsx:58-61 | one more unit of a line raises the total by that product's price |
| GenerateBill.RawItems | restaurant-frontend/src/pages/adminAccess/GenerateBill.jsx:70-86 | each item goes into the request body with its quantity |
| GenerateBill.HandleGenerateBill | restaurant-frontend/src/pages/adminAccess/GenerateBill.jsx:64-87 | nothing is sent exactly when the name is empty or no product is selected; otherwise the form's fields are posted |
| GenerateBill.PostedBillMatchesForm | restaurant-frontend/src/pages/adminAccess/GenerateBill.jsx:64-95 | the server's bill has the selected items and the total the page showed |
| GenerateBill.BuiltItemsAreLines | restaurant-backent/controllers.js/adminControllers.js:107-111 | the server reads back the posted lines unchanged, since each quantity is positive |
| GenerateBill.AfterResponse | restaurant-frontend/src/pages/adminAccess/GenerateBill.jsx:89-95 | a returned bill clears the selection, name and phone and keeps the method; otherwise the form is kept |

## Left out

- Login, logout, the current-user route, cookies and bcrypt. Password hashing is a function parameter
  of `AdminControllers.CreateAccount`; the authentication middleware is not part of this model.
- Cloudinary. Uploads are modelled by the `upload` parameter and by the multer file records; deleting a
  product's remote images is not modelled.
- QR image rendering. `QRCode.toDataURL` is the `toDataUrl` parameter of `PublicRoutes.CreateOrder`.
- The `moment` labels in `getStats` and its per-bucket `startDate`/`endDate` (`$min`/`$max`). These are
  presentation only.
- MongoDB `$week`, `$month` and `$year` numbering, which are abstract bucket functions.
- Concurrency. Each request runs alone, so the race of two admins settling the same order is not
  modelled.
- Floating-point prices. Money is integral.
- Mongoose strict mode. `billId`, which the Bill schema does not declare, is dropped and not modelled.
  The order item's optional `id` field is left out.
- Bookings.InWindow: the week is 7 × 24 h of milliseconds. `setDate` works in calendar days, so daylight
  saving shifts are ignored.
- Text.Lower and Text.Trim: ASCII case mapping and the ECMAScript white-space set only. There is no
  Unicode case folding.
- ProductController.AddNewProduct: multipart fields arrive as strings. The request's price and stock are
  already numbers here, so the truthiness of the string "0" (which the source accepts as a present
  price) is not modelled.
- ProductController.KindOk: Mongoose's casting of numeric or boolean strings in an update is not
  modelled. A value of the wrong kind fails the update.
- Sorting.SortBy: stable, while MongoDB leaves the order of ties unspecified, so tied elements may
  appear in another order in the source.
- GenerateBill.ParseLeadingInt: the `0x` hexadecimal prefix that `parseInt` also accepts is not modelled.
- GenerateBill.HandleQtyChange: the source's shallow copy shares the line objects with the previous
  state, so it also mutates the old state; the model produces a new sequence.
- Browser storage, the network calls between the pages and the server, and all rendering.
- AdminControllers.Normalize: `Number()` of a non-numeric price or quantity (NaN) is not modelled; prices
  and quantities arrive as integers, and a missing quantity counts as 1.
- PublicRoutes.Priced: an item price or quantity is an integer or absent. A `null` one, which JavaScript multiplies as 0, and a numeric string, which it converts, are not modelled.
- Bookings.Book: a `time` that does not parse as a date is not modelled (it is an integer here).
- Store.Db: of the schema indexes, only the two unique ones are modelled, on the user `email` and on the order `orderId`; `_id` values come from a counter.

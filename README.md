# Store ledger and inventory: a Dafny model

This project models the core of a small-business app. The app has a React
Native client and an Express/Mongoose server. The model covers five parts:

- **The customer ledger** on the server (`customerController.js`). A customer
  has at most one active due: the newest due for that customer and store. A
  payment lowers the due but never below zero. Adding to a due creates the
  due when none exists. A customer's transactions are listed newest first,
  and the store's customers are listed with their due and their last payment.
- **The owner-scoped product table** on the server (`productController.js`).
  Products are created, listed, updated and deleted, and only the owning
  store can see or change them.
- **The record validators**: the schemas of `Product`, `Due`, `Payment`,
  `Customer` and `User`. Each is modelled as a `Valid` predicate plus a
  `Create` function. `Create` applies the schema's setters (`trim`,
  `lowercase`), defaults and timestamps, and returns `None` on a validation
  error.
- **The client list reducers** (`ProductProvider.jsx`, `CustomerProvider.jsx`).
  These are how each provider's list changes after a request succeeds or
  fails.
- **The screen logic** of five screens:
  - the product list: search, sort, and the purchase and sale dialogs;
  - the low-stock list;
  - the dues list: search, sort, and the add-due dialog;
  - the add-product form: validation, sanitisers, and the submitted body;
  - the three-step registration wizard.

How the model is organised:

- Pure code is written as datatypes, functions and lemmas.
- Code that changes state is written as classes whose methods say their whole
  new state: the server's collections (`Ledger`, `ProductTable`), the
  providers' state (`ProductStore`, `CustomerStore`), and the screens' state
  (`QuantityField`, `BuyCounter`, `DuesBoard`, `AddProductForm`,
  `RegisterWizard`).
- Shared modules:
  - `Wrappers`: `Option` and `Result`.
  - `Seqs`: JavaScript's `filter`, a stable `sort`, and "newest by a stamp".
  - `Text`: `trim`, ASCII `toLowerCase`, `includes`, `parseInt`, `Number`
    coercion as `isNaN` sees it, `localeCompare` as lexicographic order, and
    the digit sanitisers.
  - `Listing`: the filter-then-sort pattern that the three list screens
    share.

Some things the model brings out:

- The server refuses a price or stock of `0`: its presence check is
  JavaScript truthiness (`ProductController.ControllerRefusesZero`). The
  schema itself admits `0` (`ProductModel.SchemaAdmitsZero`), and so does the
  add-product form (`AddProductScreen.ZeroStockPassesFormNotServer`).
- The client subtracts a payment from the shown due without clamping at zero.
  The server clamps at zero. The two agree exactly when the payment does not
  exceed the due (`CustomerProvider.LocalPayUnclamped`).
- The customer phone pattern counts characters rather than digits, so ten
  spaces pass it (`CustomerModel.PhoneCountsCharacters`).
- The email pattern is not anchored (`UserModel.EmailPatternUnanchored`).
- Inputs and outputs are parameters:
  - the current time is `now`, in milliseconds;
  - the owner is a parameter: the store id each handler is meant to scope by;
  - a server response is an `Option` or an `Outcome`;
  - a request's loading flag is a parameter.

## Model

| member | source | states |
|---|---|---|
| ProductModel.Save | server/models/Product.js:46-49 | saving succeeds exactly for a valid product; the saved copy differs from the input only in `updatedAt`, which becomes `now` |
| ProductModel.Valid | server/models/Product.js:3-35 | the schema's rules on a stored product: name and pack size non-empty and trimmed, price and stock at least 0, unit in the enum; `Create`, `Save` and `PatchKeepsValid` are proved against it |
| ProductModel.PatchValid | server/controllers/productController.js:73 | the update validators check only the fields a patch sets; `PatchKeepsValid` proves they keep a product valid |
| ProductModel.Create | server/models/Product.js:3-44 | creation succeeds exactly when the trimmed name and pack size are non-empty, a non-negative price is given, the stock is missing or non-negative, the unit is in the enum and the owner is given; a missing stock defaults to 0; the result is valid, carries the given id and is stamped `now` |
| ProductModel.CreateRoundTrip | server/models/Product.js:3-44 | creating from the fields of a valid product gives back that product, with new timestamps |
| ProductModel.SchemaAdmitsZero | server/models/Product.js:9-19 | the schema accepts a price of 0 and a stock of 0, and a missing stock is stored as 0 |
| ProductModel.ApplyPatch | server/controllers/productController.js:70-74 | an update replaces only the fields it gives (name and pack size trimmed) and keeps the id, the owner and both timestamps |
| ProductModel.PatchKeepsValid | server/controllers/productController.js:73 | a patch that passes the update validators keeps a valid product valid |
| DueModel.Create | server/models/Due.js:3-24 | a new due saves exactly when the customer, the store, a non-negative amount and the due date are given; it is valid and stamped `now` |
| DueModel.Valid | server/models/Due.js:14-18 | a stored due's amount is at least 0; `Create` and `Save` succeed exactly on valid dues |
| DueModel.Save | server/models/Due.js:14-24 | a save succeeds exactly for a valid due; `updatedAt` becomes `now` when a stored field changed, and an unchanged due is saved as it was |
| DueModel.SaveUnmodifiedKeepsStamp | server/models/Due.js:24 | saving a valid due with no field changed keeps its `updatedAt` |
| DueModel.CreateRoundTrip | server/models/Due.js:3-24 | creating from the fields of a valid due reproduces it, with new timestamps |
| PaymentModel.Create | server/models/Payment.js:4-26 | a new payment saves exactly when the due, the customer, the store and a non-negative amount are given; it is valid and stamped `now` |
| PaymentModel.Valid | server/models/Payment.js:4-26 | a stored payment's amount is at least 0; `Create` succeeds exactly on valid payments |
| PaymentModel.CreateRoundTrip | server/models/Payment.js:4-26 | creating from the fields of a valid payment reproduces it, with new timestamps |
| CustomerModel.Create | server/models/Customer.js:3-30 | a customer is created exactly when the trimmed name is non-empty, the phone matches the 10–15 character pattern and the store is given; `createdAt` defaults to `now` |
| CustomerModel.IsPhone | server/models/Customer.js:13-16 | the whole phone is 10 to 15 characters of digits, blanks, `-`, `(`, `)` and `+`; `PhoneCountsCharacters` shows what that admits |
| CustomerModel.CreateRoundTrip | server/models/Customer.js:3-30 | creating from the fields of a valid customer reproduces it, with `createdAt` set to `now` |
| CustomerModel.PhoneCountsCharacters | server/models/Customer.js:14 | ten spaces pass the phone pattern, an 11-digit number passes, and a 17-character padded number fails |
| CustomerModel.AddKeepsPhonesUnique | server/models/Customer.js:12 | adding a customer whose phone is not taken keeps the unique index on phones |
| UserModel.ParseRole | server/models/User.js:48-53 | only the strings `user` and `admin` are roles |
| UserModel.RoleRoundTrip | server/models/User.js:48-53 | every role's name parses back to that role |
| UserModel.EmailPattern | server/models/User.js:22 | some non-blank run, `@`, a non-blank run, `.` and a non-blank run occur somewhere in the email; `EmailPatternUnanchored` and `EmailPatternExamples` are proved about it |
| UserModel.EmailPatternUnanchored | server/models/User.js:22 | text around a matching email never stops it matching |
| UserModel.EmailPatternExamples | server/models/User.js:22 | `a@b.c` matches; `a@b` and `@b.c` do not |
| UserModel.NormalEmail | server/models/User.js:16-21 | the stored email is trimmed and lower-cased, and applying either setter again changes nothing |
| UserModel.NormalEmailSettled | server/models/User.js:20-21 | `trim` and `lowercase` commute, and each is idempotent on the stored email |
| UserModel.BuildValid | server/models/User.js:3-53 | the document built from a draft that passes the field rules satisfies the schema |
| UserModel.Create | server/models/User.js:3-56 | registration succeeds exactly when every field rule holds after the setters; the account is valid, stamped `now` and holds the normalised fields |
| UserModel.CreateRoundTrip | server/models/User.js:3-56 | registering the fields of a valid account reproduces it, with new timestamps |
| UserModel.EmailUniqueUpToCaseAndBlanks | server/models/User.js:16-21 | two accounts whose emails differ only in case or surrounding blanks break the unique email index |
| CustomerController.Status | server/controllers/customerController.js:32-73 | a missing active due answers 404; every other failure answers 400 |
| CustomerController.ActiveDue | server/controllers/customerController.js:46-49 | the active due is one of the customer's dues in this store with the greatest `createdAt`; there is none exactly when the customer has no due here |
| CustomerController.InitialDue | server/controllers/customerController.js:22-28 | the due a new customer starts with: amount 0, the registration note, due in 30 days; `Ledger.CreateCustomer` stores it |
| CustomerController.LastPaidAt | server/controllers/customerController.js:178-179 | the last payment time is the greatest `createdAt` among the customer's payments in this store; there is none exactly when there are no payments |
| CustomerController.PayDown | server/controllers/customerController.js:67-68 | the new balance is the old balance minus the payment, floored at zero; it is zero exactly when the payment is at least the balance |
| CustomerController.PayDownUndoesAdd | server/controllers/customerController.js:67-68 | paying exactly what was added to a non-negative balance restores the balance |
| CustomerController.LoweredStamp | server/controllers/customerController.js:67-69 | a payment of 0 leaves the due as it was, `updatedAt` included; a positive payment on a positive due stamps `now` |
| CustomerController.NoteAfter | server/controllers/customerController.js:103 | a due's note is replaced only by a non-empty note |
| CustomerController.RaisedStamp | server/controllers/customerController.js:101-104 | adding 0 with no note leaves the due as it was, `updatedAt` included; adding a non-zero amount stamps `now` |
| CustomerController.ActiveDueStable | server/controllers/customerController.js:46-69 | rewriting a due without changing its customer, store or `createdAt` keeps the same due active |
| CustomerController.FirstDueIsActive | server/controllers/customerController.js:91-99 | a customer's first due becomes its active due and is its only due |
| CustomerController.Ledger.CreateCustomer | server/controllers/customerController.js:6-36 | an invalid customer or a taken phone changes nothing and reports why; otherwise the customer and a zero-amount due are stored, and nothing else changes |
| CustomerController.Ledger.RecordPayment | server/controllers/customerController.js:39-75 | with no active due, or a missing or negative amount, nothing changes; otherwise the payment is stored against the active due, and that due is lowered by the payment but not below zero |
| CustomerController.Ledger.AddDue | server/controllers/customerController.js:78-110 | the amount is added to the active due, or to a new due when the customer has none; a result below zero or a missing amount fails validation and changes nothing |
| CustomerController.NewerOrders | server/controllers/customerController.js:120-137 | "newer first", for transactions, payments and dues, is a total preorder |
| CustomerController.DueLabel | server/controllers/customerController.js:135 | a due's transaction label is its note when that is non-empty, and is never empty |
| CustomerController.Transactions | server/controllers/customerController.js:113-143 | the list has as many entries as the customer has payments and dues at this store; `TransactionsMultiset` says which |
| CustomerController.TransactionsMultiset | server/controllers/customerController.js:119-137 | as a multiset, the list is one entry per payment and one labelled entry per due of this customer and store, each as often as the record is stored |
| CustomerController.TransactionsCountPayment | server/controllers/customerController.js:119-137 | each payment of this customer and store occurs in the list exactly as often as it is stored |
| CustomerController.TransactionsNewestFirst | server/controllers/customerController.js:137 | the transactions are sorted newest first |
| CustomerController.TransactionsComplete | server/controllers/customerController.js:119-136 | every payment and every due of the customer and store appears among the transactions |
| CustomerController.TransactionsSound | server/controllers/customerController.js:119-136 | every transaction comes from a payment or a due of this customer and store |
| CustomerController.DueValue | server/controllers/customerController.js:157-164 | the reported due is the amount of a newest due of the customer, or 0 when there is none |
| CustomerController.DueValueNonNegative | server/controllers/customerController.js:164 | over valid dues the reported due is never negative |
| CustomerController.DaysSince | server/controllers/customerController.js:183-185 | the result is the number of whole days elapsed, rounded down |
| CustomerController.LastPaymentText | server/controllers/customerController.js:177-188 | `Never paid`, or the whole days since the last payment followed by ` days ago`; `LastPaymentTextReadsBack` proves it reads back |
| CustomerController.LastPaymentTextReadsBack | server/controllers/customerController.js:177-188 | the last-payment text parses back to the days since the last payment; for a customer who never paid it is `Never paid`, which parses as no number |
| CustomerController.StoreCustomers | server/controllers/customerController.js:146-170 | one row per customer of the store, each carrying that customer's due and last-payment text |
| CustomerController.StoreCustomersExact | server/controllers/customerController.js:150-152 | the rows are exactly the store's customers, each as often as stored, newest first |
| CustomerController.StoreCustomersMultiset | server/controllers/customerController.js:150-169 | each customer of the store has as many rows as it has stored copies, and no other customer has a row |
| CustomerController.StoreCustomersNewestFirst | server/controllers/customerController.js:150-152 | the rows are ordered newest `createdAt` first |
| ProductController.Status | server/controllers/productController.js:13-122 | missing fields answer 400, an unknown or foreign product answers 404, and validation or update failures answer 500 |
| ProductController.ControllerRefusesZero | server/controllers/productController.js:26 | a body with price 0 or stock 0 fails the presence check |
| ProductController.FindOwned | server/controllers/productController.js:70-71 | the first product with this id and this owner; none exactly when no product matches both |
| ProductController.GetProducts | server/controllers/productController.js:5-9 | the listing holds exactly the owner's products, each as often as stored, and its count is its length |
| ProductController.RemoveExactly | server/controllers/productController.js:103-106 | when ids are unique, deleting one entry removes exactly the product with that id and keeps every other product |
| ProductController.ProductTable.CreateProduct | server/controllers/productController.js:21-63 | a missing field (400) or a schema failure (500) changes nothing; otherwise the created product, with a fresh id and the owner, is appended |
| ProductController.ProductTable.UpdateProduct | server/controllers/productController.js:65-97 | an invalid patch fails before any lookup; otherwise only the owner's product with that id is patched, or 404 is answered when there is none |
| ProductController.ProductTable.DeleteProduct | server/controllers/productController.js:99-128 | only the owner's product with that id is removed; 404 and no change when there is none |
| ProductProvider.Appended | providers/ProductProvider.jsx:57 | the created product goes at the end, and the rest of the list is kept |
| ProductProvider.MergeFields | providers/ProductProvider.jsx:72 | merging fields keeps the identity and the timestamps, and an empty update changes nothing |
| ProductProvider.MergeMatchesServer | providers/ProductProvider.jsx:70-73 | with trimmed names and pack sizes, the client's merge equals the server's update |
| ProductProvider.Merged | providers/ProductProvider.jsx:71-73 | only entries with the updated id change, each by the merge |
| ProductProvider.MergedIdempotent | providers/ProductProvider.jsx:71-73 | applying the same update twice is the same as applying it once |
| ProductProvider.MergedAbsent | providers/ProductProvider.jsx:71-73 | an update for an id not in the list changes nothing |
| ProductProvider.Removed | providers/ProductProvider.jsx:87 | the new list keeps exactly the products whose id differs |
| ProductProvider.RemovedKeepsOrder | providers/ProductProvider.jsx:87 | removal works piecewise, so the order of the remaining products is kept |
| ProductProvider.RemovedUndoesAppended | providers/ProductProvider.jsx:57-87 | deleting a product just created with a new id restores the list |
| ProductProvider.Restocked | providers/ProductProvider.jsx:104-108 | only the purchased product's stock changes, by the purchased quantity |
| ProductProvider.RestockedAdds | providers/ProductProvider.jsx:104-108 | two purchases add up, and a negative restock undoes a purchase |
| ProductProvider.RestockedKeepsValid | providers/ProductProvider.jsx:104-108 | purchasing a non-negative quantity keeps every product valid |
| ProductProvider.ProductStore.constructor | providers/ProductProvider.jsx:7-15 | the store starts with no products, not loading, and with the initial metrics |
| ProductProvider.ProductStore.FetchProducts | providers/ProductProvider.jsx:40-51 | a response replaces the list; a failure keeps it; loading ends |
| ProductProvider.ProductStore.CreateProduct | providers/ProductProvider.jsx:53-65 | a created product is appended; a failure keeps the list |
| ProductProvider.ProductStore.UpdateProduct | providers/ProductProvider.jsx:67-81 | a successful update merges the fields into the matching entries |
| ProductProvider.ProductStore.DeleteProduct | providers/ProductProvider.jsx:83-95 | a successful delete removes the matching entries |
| ProductProvider.ProductStore.Purchase | providers/ProductProvider.jsx:97-116 | a successful purchase adds the quantity to the product's stock |
| ProductProvider.ProductStore.Sale | providers/ProductProvider.jsx:118-133 | a sale followed by a successful refetch replaces the list; otherwise the list is kept |
| ProductProvider.ProductStore.FetchMetrics | providers/ProductProvider.jsx:18-38 | a response sets the metrics; a failure only clears their loading flag; the products are untouched |
| CustomerProvider.FromRows | providers/CustomerProvider.jsx:16 | the client list is the server's rows, one to one, in order |
| CustomerProvider.LocalPay | providers/CustomerProvider.jsx:57-60 | the shown due is lowered by exactly the payment |
| CustomerProvider.LocalAdd | providers/CustomerProvider.jsx:74-77 | the shown due is raised by exactly the added amount |
| CustomerProvider.LocalPayUnclamped | providers/CustomerProvider.jsx:57-60 | the client's new due equals the server's exactly when the payment does not exceed the due, and goes negative otherwise |
| CustomerProvider.Paid | providers/CustomerProvider.jsx:57-60 | only the paying customer's shown due changes |
| CustomerProvider.DueAdded | providers/CustomerProvider.jsx:74-77 | only that customer's shown due changes |
| CustomerProvider.PaidUndoesDueAdded | providers/CustomerProvider.jsx:57-77 | paying the amount just added restores the list, and the reverse as well |
| CustomerProvider.Updated | providers/CustomerProvider.jsx:41-43 | only entries with the updated id are merged with the server's customer |
| CustomerProvider.UpdatersTouchOnlyId | providers/CustomerProvider.jsx:41-77 | every updater leaves other customers untouched, and an edit keeps the shown due |
| CustomerProvider.ErrorText | providers/CustomerProvider.jsx:18 | the server's message is shown when it is non-empty, and the fallback otherwise |
| CustomerProvider.CustomerStore.constructor | providers/CustomerProvider.jsx:7-9 | the store starts empty, not loading, with no error |
| CustomerProvider.CustomerStore.FetchCustomers | providers/CustomerProvider.jsx:12-22 | an answer replaces the list; a failure keeps it and records the error text; loading ends |
| CustomerProvider.CustomerStore.CreateCustomer | providers/CustomerProvider.jsx:24-33 | a created customer is appended with no due and no payment shown |
| CustomerProvider.CustomerStore.UpdateCustomer | providers/CustomerProvider.jsx:35-48 | a successful edit merges the customer into the matching entries |
| CustomerProvider.CustomerStore.RecordPayment | providers/CustomerProvider.jsx:50-65 | a successful payment lowers that customer's shown due |
| CustomerProvider.CustomerStore.AddDue | providers/CustomerProvider.jsx:67-82 | a successful due raises that customer's shown due |
| ProductsScreen.OrderIsConsistent | app/products.jsx:86-95 | each sort option is a total preorder and compares the field it names |
| ProductsScreen.FilteredProducts | app/products.jsx:82-95 | the list never has more entries than the store |
| ProductsScreen.FilteredProductsExact | app/products.jsx:82-95 | exactly the products whose name matches the search, each as often as stored, in the selected order |
| ProductsScreen.EmptySearchListsAll | app/products.jsx:82-85 | an empty search lists every product |
| ProductsScreen.UnknownOptionKeepsOrder | app/products.jsx:93 | an unknown sort option keeps the stored order |
| ProductsScreen.SaleTotal | app/products.jsx:101-103 | the sale total: parsed quantity times parsed price, 0 when either is not a number; `TotalsOfDigits` and `TotalsWithoutNumber` are proved about it |
| ProductsScreen.BuyTotal | app/products.jsx:105-107 | the purchase total: parsed quantity times the selected product's price, 0 without a product or a number; `TotalsOfDigits` and `TotalsWithoutNumber` are proved about it |
| ProductsScreen.TotalsOfDigits | app/products.jsx:101-107 | for digit inputs, both totals are quantity times price, and the purchase total is 0 with no product selected |
| ProductsScreen.TotalsWithoutNumber | app/products.jsx:101-107 | a quantity or price that is not a number makes the total 0 |
| ProductsScreen.SaleDialogOpensAtListedPrice | app/products.jsx:116-122 | the sale dialog opens showing one unit at the listed price |
| ProductsScreen.PurchaseRequest | app/products.jsx:149-156 | a purchase is sent exactly when the quantity parses to a positive number; it carries the product's id and price |
| ProductsScreen.SaleRequest | app/products.jsx:169-176 | the sale carries the product's id and cost, and the parsed quantity and price |
| ProductsScreen.Typed | app/products.jsx:365 | the field keeps the digits typed, or falls back when there are none |
| ProductsScreen.TypedKeepsDigits | app/products.jsx:365 | the quantity field always holds a non-empty digit string |
| ProductsScreen.Decremented | app/products.jsx:357 | the minus button's text: one less than the parsed quantity but at least 1; `StepsOfDigits` proves it on digit strings |
| ProductsScreen.Incremented | app/products.jsx:369 | the plus button's text: one more than the parsed quantity; `StepsOfDigits` proves it on digit strings |
| ProductsScreen.StepsOfDigits | app/products.jsx:357-369 | minus lowers the number by one but not below 1; plus raises it by one; both keep a digit string |
| ProductsScreen.QuantityField.constructor | app/products.jsx:58-60 | the field starts at `1` |
| ProductsScreen.QuantityField.Minus | app/products.jsx:357 | the quantity drops by one, but not below 1 |
| ProductsScreen.QuantityField.Plus | app/products.jsx:369 | the quantity rises by one |
| ProductsScreen.QuantityField.Type | app/products.jsx:365 | the typed text with non-digits removed, or `1` when no digit is left |
| ProductsScreen.PurchaseOfField | app/products.jsx:151-156 | a purchase of the field's quantity is sent exactly when it is positive, so a typed `0` is refused |
| ProductsScreen.TypedPrice | app/products.jsx:461 | the sale price field always holds a non-empty digit string |
| LowStockScreen.LowStock | app/lowerStock.jsx:17-42 | each listed item has one or two units left |
| LowStockScreen.IsLowStock | app/lowerStock.jsx:42 | an item is low on stock when it has one or two units; out-of-stock items are not |
| LowStockScreen.CatalogueLowStock | app/lowerStock.jsx:17-42 | of the fixed catalogue, the coffee and the tea are listed and the olive oil, out of stock, is not |
| LowStockScreen.OrderIsConsistent | app/lowerStock.jsx:53-61 | each sort option is a total preorder on the stock or the price |
| LowStockScreen.FilteredItems | app/lowerStock.jsx:51-61 | the list never has more entries than the catalogue |
| LowStockScreen.FilteredItemsExact | app/lowerStock.jsx:51-61 | exactly the low-stock items whose name matches the search, each as often as in the catalogue, in the selected order |
| LowStockScreen.TypedCount | app/lowerStock.jsx:202 | the typed count is the parsed number when it is at least 1, and 1 otherwise |
| LowStockScreen.TypedCountReadsBack | app/lowerStock.jsx:202 | typing back the shown count keeps it |
| LowStockScreen.BuyTotal | app/lowerStock.jsx:65 | 0 with no item selected; at least the price for a count of at least 1 |
| LowStockScreen.BuyCounter.constructor | app/lowerStock.jsx:67-71 | the counter starts at 1 |
| LowStockScreen.BuyCounter.Minus | app/lowerStock.jsx:191 | the count drops by one, but not below 1 |
| LowStockScreen.BuyCounter.Plus | app/lowerStock.jsx:206 | the count rises by one |
| LowStockScreen.BuyCounter.Type | app/lowerStock.jsx:202 | the count becomes the typed count |
| LowStockScreen.BuyCounter.Total | app/lowerStock.jsx:65 | the total is the count times the price, and at least the price |
| DuesScreen.TextualRecentMisorders | app/duesScreen/index.jsx:96 | sorting the texts puts "15 days ago" strictly above "3 days ago" |
| DuesScreen.FewerDaysFirst | app/duesScreen/index.jsx:96 | the intended order puts one "N days ago" row above another exactly when it has fewer or equal days |
| DuesScreen.InitialDuesDays | app/duesScreen/index.jsx:35-76 | the first sample row was paid 15 days ago and the fourth 3 days ago |
| DuesScreen.RecentFirstOrders | app/duesScreen/index.jsx:96 | the intended recent-first order is a total preorder |
| DuesScreen.Order | app/duesScreen/index.jsx:91-99 | the comparator of each sort option, as written: by name, by amount either way, and `recent` by the `lastPayment` texts; its properties are in the next row |
| DuesScreen.OrderIsConsistent | app/duesScreen/index.jsx:91-99 | each sort option is a total preorder and compares the field it names; `recent` compares the `lastPayment` texts in code-point order, the model's stand-in for `localeCompare` |
| DuesScreen.FilteredDues | app/duesScreen/index.jsx:85-99 | the list as written never has more entries than the screen's dues |
| DuesScreen.FilteredDuesExact | app/duesScreen/index.jsx:85-99 | the list as written holds exactly the entries whose name matches the search or whose phone contains it, each as often as stored, in the selected order |
| DuesScreen.FilteredDuesSorted | app/duesScreen/index.jsx:91-99 | the list as written is sorted by the selected option's comparison |
| DuesScreen.RecentAsWrittenFollowsText | app/duesScreen/index.jsx:96 | under `recent`, an entry whose `lastPayment` text is strictly smaller comes strictly earlier |
| DuesScreen.SampleRecentAsWritten | app/duesScreen/index.jsx:35-99 | on the sample dues under `recent`, the entry paid 15 days ago is listed above the one paid 3 days ago |
| DuesScreen.IntendedOrderIsConsistent | app/duesScreen/index.jsx:91-99 | the corrected options, with `recent` by days since payment, are each a total preorder comparing the field they name |
| DuesScreen.IntendedDuesSorted | app/duesScreen/index.jsx:85-99 | the corrected list is sorted by the corrected comparison |
| DuesScreen.IntendedDuesExact | app/duesScreen/index.jsx:85-99 | the corrected list holds the same entries as the list as written, each as often, in the corrected order |
| DuesScreen.RecentIntendedFollowsDays | app/duesScreen/index.jsx:96 | under the corrected `recent`, an entry paid more days ago comes strictly after one paid fewer days ago |
| DuesScreen.NewEntry | app/duesScreen/index.jsx:109-116 | the new entry takes the next id, the parsed amount and "Not paid yet" |
| DuesScreen.DuesBoard.constructor | app/duesScreen/index.jsx:25-76 | the screen starts with the five sample entries, an empty form and the dialog closed |
| DuesScreen.DuesBoard.TypeName | app/duesScreen/index.jsx:325 | only the name field changes |
| DuesScreen.DuesBoard.TypePhone | app/duesScreen/index.jsx:340 | only the phone field changes |
| DuesScreen.DuesBoard.TypeAddress | app/duesScreen/index.jsx:355 | only the address field changes |
| DuesScreen.DuesBoard.TypeAmount | app/duesScreen/index.jsx:369 | the amount field keeps only the digits typed |
| DuesScreen.DuesBoard.AddDue | app/duesScreen/index.jsx:106-126 | with a name, a phone and an amount, the new entry is appended, the form is cleared and the dialog closes; otherwise nothing changes; ids stay unique |
| AddProductScreen.Set | app/addProduct.jsx:94 | the edited field takes the value, and every other field is kept |
| AddProductScreen.FormErrors | app/addProduct.jsx:58-70 | the errors hold exactly the fields whose check fails, each with that check's message |
| AddProductScreen.ValidateForm | app/addProduct.jsx:58-70 | the step-by-step check gives exactly those errors |
| AddProductScreen.CheckRequired | app/addProduct.jsx:60-66 | records the required-field message when the field is missing, and nothing otherwise |
| AddProductScreen.CheckNumber | app/addProduct.jsx:61-64 | records "required" for an empty text, "must be a number" for a text `isNaN` rejects, and nothing otherwise |
| AddProductScreen.ValidIffNoCheckFails | app/addProduct.jsx:69 | the form is valid exactly when no field's check fails |
| AddProductScreen.ChecksPassIff | app/addProduct.jsx:60-66 | no check fails exactly when the name and pack size are non-blank, the price and stock are numeric and a unit is chosen |
| AddProductScreen.SanitisedStockError | app/addProduct.jsx:154 | behind the digit sanitiser, the stock can only fail as missing |
| AddProductScreen.SanitisedPriceError | app/addProduct.jsx:140 | behind the price sanitiser, a non-empty price fails as not a number exactly when it has several points or no digit |
| AddProductScreen.Cleared | app/addProduct.jsx:95-97 | editing a field clears that field's error and keeps the others |
| AddProductScreen.Body | app/addProduct.jsx:76-83 | the request carries the texts and the parsed price and stock |
| AddProductScreen.ZeroStockPassesFormNotServer | app/addProduct.jsx:63-79 | a stock of zero digits passes the form's check but fails the server's presence check |
| AddProductScreen.AddProductForm.constructor | app/addProduct.jsx:32-42 | the form starts empty, with no errors and not submitting |
| AddProductScreen.AddProductForm.HandleChange | app/addProduct.jsx:93-98 | the field takes the value and its error is cleared |
| AddProductScreen.AddProductForm.EditPrice | app/addProduct.jsx:140 | the price keeps only digits and points, and its error is cleared |
| AddProductScreen.AddProductForm.EditStock | app/addProduct.jsx:154 | the stock keeps only digits, and its error is cleared |
| AddProductScreen.AddProductForm.HandleSubmit | app/addProduct.jsx:72-91 | the errors are recomputed, and the body is sent exactly when there are none |
| RegisterScreen.Set | app/registerScreen.jsx:73 | the edited field takes the value, and every other field is kept |
| RegisterScreen.ValidateStep | app/registerScreen.jsx:80-92 | step 1 needs a non-blank store name and proprietor, step 2 a non-blank email and phone, step 3 a non-blank password equal to its confirmation; nothing else is valid; `Continue`, `Submit` and the lemmas below are proved against it |
| RegisterScreen.ValidateStepReadsOnlyChecked | app/registerScreen.jsx:80-92 | editing a field a step does not check leaves that step's verdict; the address is checked by no step |
| RegisterScreen.Continue | app/registerScreen.jsx:332-340 | Continue advances exactly when before the last step, the step is valid and nothing is loading; the step stays within the three |
| RegisterScreen.Back | app/registerScreen.jsx:322-325 | Back goes one step back after the first step, and stays put on the first |
| RegisterScreen.BackUndoesContinue | app/registerScreen.jsx:94-126 | Back after a successful Continue returns to the step it came from |
| RegisterScreen.TwoContinuesReachSecurity | app/registerScreen.jsx:80-110 | from step 1, two presses reach the last step exactly when steps 1 and 2 are valid |
| RegisterScreen.Payload | app/registerScreen.jsx:132-140 | the payload carries the form's fields except the confirmation, with the role `user` |
| RegisterScreen.Submit | app/registerScreen.jsx:128-141 | the payload is sent exactly when the current step is valid |
| RegisterScreen.SubmittedPasswordConfirmed | app/registerScreen.jsx:86-88 | what the last step submits has a non-blank password equal to its confirmation |
| RegisterScreen.RegisterWizard.constructor | app/registerScreen.jsx:34-45 | the wizard starts on step 1 with an empty form and no error |
| RegisterScreen.RegisterWizard.NextStep | app/registerScreen.jsx:94-110 | advances one step exactly when the current step is valid |
| RegisterScreen.RegisterWizard.PrevStep | app/registerScreen.jsx:112-126 | goes back one step |
| RegisterScreen.RegisterWizard.PressContinue | app/registerScreen.jsx:332-340 | the step becomes what Continue gives and stays within the three |
| RegisterScreen.RegisterWizard.PressBack | app/registerScreen.jsx:322-325 | the step becomes what Back gives and stays within the three |
| RegisterScreen.RegisterWizard.PressComplete | app/registerScreen.jsx:346-353 | the payload is sent exactly on the last step, not loading, with a valid step |
| RegisterScreen.RegisterWizard.ReportError | app/registerScreen.jsx:51-56 | a non-empty error is shown with the field it names; otherwise the error is kept |
| RegisterScreen.RegisterWizard.HandleChange | app/registerScreen.jsx:72-78 | the field takes the value, and the error is cleared only when it names this field |
| Text.ParseIntToString | app/lowerStock.jsx:202 | `parseInt` reads the decimal text of an integer back as that integer, whatever follows it that does not continue the numeral |
| Text.LowerTrimCommute | server/models/User.js:20-21 | lower-casing and trimming commute |
| Text.LexLeTotal | app/products.jsx:88 | code-point order, which stands in for `localeCompare`, compares any two texts |
| Text.ParseInt | app/products.jsx:151 | `parseInt` without a radix: skip leading blanks, read one sign and the leading digits, no number when there are none; `ParseIntToString` proves it reads integers back |
| Text.Trim | server/models/Product.js:7 | the result is empty exactly for a blank text, and otherwise starts and ends with a non-blank character; trimming is idempotent (`TrimIdempotent`) |
| Text.IsNumericString | app/addProduct.jsx:61-64 | `!isNaN(text)` on texts: after trimming, empty, a decimal numeral, or a sign and a numeral; `NumericPriceText` characterises it on sanitised prices |
| Seqs.Sort | app/products.jsx:86-95 | the stable sort keeps length and contents as a multiset; `SortSorted` proves the result sorted by a total preorder and `SortOfSorted` that a sorted list is kept |

## Left out

- Purchase, sale and metrics on the server: the product routes mount only `/` and `/:id` (server/routes/productRoute.js:15-21), so the purchase, sale and metrics calls have no server logic to model. `Sale.js` and `Purchase.js` are not part of this model. The provider treats each of those server answers as a parameter.
- Concurrency: handlers read and then save, and interleaved requests are not modelled. Each handler runs atomically.
- Authentication, JWT, the `protect` middleware, routing, rendering, `Animated`, `Alert` and navigation are not modelled. Each handler takes the store it scopes by as the parameter `owner`.
- ProductController.ProductTable.CreateProduct, GetProducts, UpdateProduct, DeleteProduct: the product handlers read the owner as `req.user.userId` (server/controllers/productController.js:5, 39, 71, 105). The `protect` middleware (server/middleware/authMiddleware.js:13) sets `req.user` to a User document, which has `_id` and no `userId`. As written, `createdBy` is therefore undefined: creation fails the schema's required check (server/models/Product.js:30-35) and answers 500, and the other handlers filter on an undefined owner. The model passes the intended store id as `owner` instead. The customer handlers read `req.user._id` and are modelled as written.
- Time and I/O: the clock is the parameter `now`. Every request's answer is a parameter. The `loading` flags are parameters.
- `toLocaleString` formatting of totals and amounts is not modelled. Totals are integers.
- AddProductScreen.Body: `parseFloat` on the price is read as `parseInt`, because prices are integers in this model. A fractional price loses its fraction here. A price below 1 that the program sends and stores, such as `"0.5"`, becomes 0 here, and `".5"` becomes absent; the server's presence check then refuses both with a 400 for missing fields.
- JavaScript number precision: numbers are unbounded integers, and float rounding and `NaN` arithmetic are not modelled.
- `Number()` coercion with exponents, hexadecimal or `Infinity` is not modelled. The form sanitisers never let such text through.
- Numeric fields sent as strings: a body that carries `"50"` rather than `50` is not modelled. String concatenation by `+=` is therefore out of scope.
- `CastError` for malformed ids is not modelled. Ids are integers.
- The client sends product updates with PATCH, but the server exposes PUT (server/routes/productRoute.js:19-20). There is also no route for editing a customer (server/routes/customerRoute.js). The model applies a reducer to the answer it is given.
- Mongo's `sort({ createdAt: -1 })` leaves the order of equal timestamps open. The model takes a stable order, and the earliest stored entry among those with equal `createdAt`.
- DueModel.Save: a field changed and then changed back within one handler (a payment on a zero due, lowered below zero and clamped back to 0) counts as unchanged here, so `updatedAt` is kept. Mongoose versions differ on whether such a path stays marked as modified.
- `getCustomerTransactions` (providers/CustomerProvider.jsx:84-93) only forwards the server's list, which `CustomerController.Transactions` models.
- The product screen's edit and delete dialogs (`openEditModal`, `submitEdit`, `handleDelete`, app/products.jsx:124-147, 186-200) only forward to the provider methods modelled above.
- `handleBuySubmit` in app/lowerStock.jsx:73-76 only logs and closes the dialog.
- `createdBy` in the add-product body (app/addProduct.jsx:82) is ignored by the server, which sets the owner from the request's user.
- ProductsScreen.OrderIsConsistent: the `name` option (app/products.jsx:88) is modelled as code-point order (`Text.LexLe`), not as the locale collation of `localeCompare`. Mixed case and accents can therefore sort differently: the model puts "Banana" before "apple", and a typical locale puts it after. `FilteredProductsExact` lists in this order.
- DuesScreen.Order: the `name` and `recent` options (app/duesScreen/index.jsx:93, 96) compare in code-point order, not by locale collation, with the same effect on mixed case and accents. `FilteredDues`, `FilteredDuesExact` and `FilteredDuesSorted` list in this order. The finding about `recent` holds under either order, because the two texts first differ at `1` against `3`.
- DuesScreen.OrderIsConsistent: states total preorders for code-point order, not for the locale collation of `localeCompare`.
- Text.LexLeTotal: proves that code-point order is total. It says nothing about the collation `localeCompare` performs.
- Text.LowerTrimCommute, UserModel.NormalEmail, UserModel.NormalEmailSettled, UserModel.Create, UserModel.EmailUniqueUpToCaseAndBlanks: `Text.ToLower` lower-cases only ASCII letters. Mongoose's `lowercase` setter and the screens' `toLowerCase` searches map all of Unicode, so "É" becomes "é" there but not here. The product, low-stock and dues searches use the same ASCII lower-casing.
- ProductModel.ApplyPatch: a key whose value is `undefined` is taken to be dropped from the update, as Mongoose 6 and later do. Older versions `$set` the path to `undefined` instead. No version is fixed here.
- The `Unknown` sort option stands for any value the pickers do not offer; the UI never produces it.

## Findings

| source | as written | input that shows it | evidently intended | confidence | as-written member | corrected member |
|---|---|---|---|---|---|---|
| app/duesScreen/index.jsx:96 | the `recent` option compares the `lastPayment` texts with `localeCompare`; the screen's list, as written, is `FilteredDues` | the sample entries "15 days ago" and "3 days ago": the 15-day entry is listed above the 3-day one | the most recent payment first, by number of days; the corrected list is `IntendedDues` | high (not executed) | DuesScreen.SampleRecentAsWritten | DuesScreen.RecentIntendedFollowsDays |

# A verified model of the e-commerce demo's shop core

The repository is a clothing-shop demo that is instrumented with OpenTelemetry. It has Go
services for products, carts and orders, and payments, and a React storefront that calls
them. This project models the shop's core in Dafny and proves what that code promises.

The Go side:

- **Payment validation.** Two services check cards:
  - the Stripe-backed payment service (`src/payment-service`);
  - the card-only payment service (`src/backend/payment-service`). Its validators appear a
    second time, verbatim, in the in-memory service `project/golang-backend/payment-service`.
- **The handlers.** Each service's `processPayment` handler is modelled. For the in-memory
  service, so are the payment map and its lookups.
- **The in-memory cart and order service.**
- **The product services:**
  - the hard-coded catalogue with its filters;
  - the SQL text that the database-backed product service builds;
  - the telemetry setup's environment defaults.

The storefront side:

- **The components.** Each one's state, and what each click does:
  - the catalogue filter;
  - the shopping bag;
  - the product detail view;
  - the checkout form;
  - the home page and its checkout sequence.
- **The API client.** The request bodies it sends, and the errors it throws.

Both payment services check card numbers with the Luhn formula of ISO/IEC 7812-1 (Annex B).
The model states that formula once (`Luhn`) and proves what it detects. Each validator loop
is proved against it.

**How the model reads the source:**

- **Bytes and numbers.**
  - A Go `string` is a sequence of bytes; here each `char` stands for one byte.
  - Prices and amounts are exact reals.
- **Parameters.** Clocks, random or clock-derived IDs, and database or HTTP results are
  passed in as parameters.
- **State.**
  - The in-memory services are classes whose maps are fields.
  - The React components are classes whose fields are the component state. Each click
    handler is a method.
- **The server.** The storefront's server is a function from the calls made so far to the
  reply to the latest one. This lets the checkout sequence be proved for every server
  behaviour.

## Model

| member | source | states |
|---|---|---|
| Luhn.LuhnSum | src/payment-service/db/db.go:233-250 | the reference Luhn sum: from the rightmost value leftwards, every second value doubled, 9 taken off a doubled value above 9 |
| Luhn.LuhnValid | src/payment-service/db/db.go:249 | the formula's verdict: the sum with the rightmost value undoubled is a multiple of 10 |
| Luhn.CheckDigit | src/payment-service/db/db.go:233-250 | for any payload, the check digit is a decimal digit |
| Luhn.AppendDigit | src/payment-service/db/db.go:233-250 | the rightmost digit is never doubled, and appending a digit shifts the doubling onto the old digits |
| Luhn.CheckDigitCompletes | src/payment-service/db/db.go:233-250 | a payload followed by digit c passes the Luhn check exactly when c is the payload's check digit |
| Luhn.LuhnSumUpdate | src/payment-service/db/db.go:233-250 | changing one digit changes the sum by the difference of that position's two terms |
| Luhn.SingleErrorDetected | src/payment-service/db/db.go:233-250 | two digit strings that differ in one digit never both pass the check |
| Luhn.LuhnSumParity | src/payment-service/db/db.go:233-250 | the formula doubles index i exactly when i % 2 equals the length's parity, which is the Stripe loop's left-to-right `i%2 == parity` test; the card-only service's right-to-left alternating flag (src/backend/payment-service/db/db.go:224-239) is the formula's own definition |
| PaymentTypes.LastFour | src/payment-service/db/db.go:91 | the last four bytes of the card number, whose removal leaves the rest of the number |
| PaymentTypes.CompletedPayment | project/golang-backend/payment-service/main.go:158-175 | the stored record carries the request's order and amount, "USD", "completed", the transaction ID and the card's last four digits |
| StripePaymentDb.CardNumberValid | src/payment-service/db/db.go:159-177 | the reference verdict of the card check: the number without spaces and dashes has 13 to 19 bytes, all decimal digits, and passes the Luhn formula |
| StripePaymentDb.ExpiryDateValid | src/payment-service/db/db.go:180-214 | the reference verdict of the date check: exactly one '/', a trimmed month of two digits and a trimmed year of two or four digits, with no range or clock check |
| StripePaymentDb.CvvValid | src/payment-service/db/db.go:217-230 | the reference verdict of the CVV check: three or four decimal digits |
| StripePaymentDb.Stripped | src/payment-service/db/db.go:161-162 | the card number without spaces and dashes, never longer than the input |
| StripePaymentDb.LuhnCheck | src/payment-service/db/db.go:233-250 | the left-to-right loop, doubling where `i % 2` equals the length's parity, accepts exactly the digit strings that satisfy the Luhn formula |
| StripePaymentDb.ValidateCardNumber | src/payment-service/db/db.go:159-177 | accepts exactly the numbers that, stripped of separators, have 13 to 19 bytes, all digits, and pass the Luhn check |
| StripePaymentDb.AllDigitsLoop | src/payment-service/db/db.go:169-173 | the digit loop succeeds exactly when every byte is a decimal digit |
| StripePaymentDb.ValidateExpiryDate | src/payment-service/db/db.go:180-214 | accepts exactly a date with one slash whose trimmed parts are a two-digit month and a two- or four-digit year |
| StripePaymentDb.ValidateCVV | src/payment-service/db/db.go:217-230 | accepts exactly three or four decimal digits |
| StripePaymentDb.SeparatorIgnored | src/payment-service/db/db.go:161-162 | inserting a space or dash anywhere changes neither the stripped number nor whether it is valid |
| StripePaymentDb.AcceptedCardHasLastFour | src/payment-service/db/db.go:91 | a card number that passes validation has at least 13 bytes, so slicing out the last four cannot fail |
| StripePaymentDb.LastFourKeepsSeparator | src/payment-service/db/db.go:91 | a valid number with a trailing space stays valid, and its stored last four end with that space |
| StripePaymentDb.MonthNotRangeChecked | src/payment-service/db/db.go:190-205 | "13/99" is accepted: the month is never compared with 12 |
| StripePaymentDb.TrailingSpaceAccepted | src/payment-service/db/db.go:187-198 | "MM/YY " with a trailing space is accepted, at six bytes |
| StripePaymentDb.TrailingSpaceTrimmed | src/payment-service/db/db.go:188 | trimming drops the trailing space from the year part |
| StripePaymentDb.DigitDatesAccepted | src/payment-service/db/db.go:180-214 | every MM/YY and MM/YYYY in digits is accepted, past dates included |
| StripePaymentDb.AcceptedDateShape | src/payment-service/db/db.go:180-214 | an accepted date has exactly one slash, with a trimmed two-digit month before it and a trimmed two- or four-digit year after it |
| StripePaymentDb.InsertedPayment | src/payment-service/db/db.go:89-109 | the inserted row carries the request's order, amount and currency, "completed", the charge ID and the card's last four digits |
| StripePaymentHandler.FirstFailure | src/payment-service/main.go:63-88 | no failure exactly when all three validators accept; otherwise the first failing check, in the order card, expiry, CVV |
| StripePaymentHandler.ProcessPayment | src/payment-service/main.go:38-158 | a simulated failure gives 500 with no outside call; a bad body gives 400; a failed check gives 400 with its message and no outside call; success has status 200, all three outside calls and the success message; a failed reply carries no payment; the 500 replies for failed outside calls are stated by CallsInOrder |
| StripePaymentHandler.CallsInOrder | src/payment-service/main.go:105-150 | token, charge and save are called in that order, each only after the previous one succeeded and with the value it returned, the charge in cents; the reply is a success exactly when the save succeeds, and it carries the saved payment; a failing call gives status 500, no payment, and "Stripe Token Error: ", "Stripe Charge Error: " or "Database Error: " followed by its error text |
| StripePaymentHandler.Cents | src/payment-service/main.go:126 | `int64(amount * 100)`: the amount in cents truncated toward zero, within one cent of the exact product |
| StripePaymentHandler.ExpirySplit | src/payment-service/main.go:91-102 | Stripe's month and year by the date's length: five bytes give MM and "20"+YY, seven give MM and YYYY, any other length the fixed "12" and "2025" |
| StripePaymentHandler.ShortDateSplit | src/payment-service/main.go:91-102 | a validated five-byte date is MM/YY in digits, and Stripe gets MM and "20YY" |
| StripePaymentHandler.FallbackReachable | src/payment-service/main.go:91-102 | the validated date "MM/YY " takes the fallback branch, so Stripe gets month "12" and year "2025" |
| StripePaymentHandler.SevenByteSplitMisreads | src/payment-service/main.go:91-102 | the validated date "  MM/YY" is split as if it were MM/YYYY: two spaces as the month and "M/YY" as the year |
| StripePaymentHandler.LeadingSpacesTrimmed | src/payment-service/db/db.go:187 | trimming removes the leading spaces of a month part |
| BackendPaymentDb.ByteDigit | src/backend/payment-service/db/db.go:228 | the byte arithmetic wraps to 0..255 and gives the digit's value for a decimal digit |
| BackendPaymentDb.ByteDigits | src/backend/payment-service/db/db.go:227-238 | one value per byte of the card number |
| BackendPaymentDb.CardNumberValid | src/backend/payment-service/db/db.go:219-242 | the reference verdict of the card check: 13 to 19 bytes whose byte values, wrapped as bytes, pass the Luhn formula; digits are not checked |
| BackendPaymentDb.ValidateCardNumber | src/backend/payment-service/db/db.go:219-242 | the loop accepts exactly the 13-to-19-byte strings whose byte values pass the Luhn sum, with no check that they are digits; the copy at project/golang-backend/payment-service/main.go:59-82 is the same code |
| BackendPaymentDb.AgreesOnDigitStrings | src/backend/payment-service/db/db.go:219-242 | on strings of digits, this validator and the Stripe service's give the same verdict |
| BackendPaymentDb.ColonPassesAsZero | src/backend/payment-service/db/db.go:228 | ':' is worth 10, which the modulus treats as 0, so a valid number ending in 0 stays valid with ':' there, and the Stripe service rejects it |
| BackendPaymentDb.StrippedEndsWithColon | src/payment-service/db/db.go:169-173 | the Stripe service rejects every number ending in ':' |
| BackendPaymentDb.ScanTwoBytes | src/backend/payment-service/db/db.go:254-255 | a `%d` scan of two bytes gives the two-digit value for digits, a value from -9 to 99 in general, and 0 when neither byte is a digit |
| BackendPaymentDb.ValidateExpiryDate | src/backend/payment-service/db/db.go:245-267 | the date check with the current year as a parameter: five bytes with '/' in the middle, the `%d` scans of month and year give a month from 1 to 12 and a year not below the current year modulo 100 |
| BackendPaymentDb.ExpiryShape | src/backend/payment-service/db/db.go:246-248 | an accepted date is five bytes with '/' in the middle |
| BackendPaymentDb.ExpiryOfDigits | src/backend/payment-service/db/db.go:245-267 | an all-digit MM/YY is accepted exactly when the month is 1 to 12 and YY is not below the current year modulo 100; the copy at project/golang-backend/payment-service/main.go:84-106 is the same code |
| BackendPaymentDb.OneDigitMonthAccepted | src/backend/payment-service/db/db.go:254-257 | " M/YY", "+M/YY" and "Mx/YY" pass: the scan reads one digit of the month and ignores the rest |
| BackendPaymentDb.UnreadableYear | src/backend/payment-service/db/db.go:255-264 | a year part with no digit scans as 0, so it passes exactly when the current year is a multiple of 100 and the month is valid |
| BackendPaymentDb.ValidateCVV | src/backend/payment-service/db/db.go:270-272 | the CVV check: three or four bytes of anything |
| BackendPaymentDb.CvvLengthOnly | src/backend/payment-service/db/db.go:270-272 | the CVV check only counts bytes (three or four), and on digit strings it agrees with the Stripe service's; the copy at project/golang-backend/payment-service/main.go:108-110 is the same code |
| BackendPaymentDb.CreatePayment | src/backend/payment-service/db/db.go:91-110 | a failed insert returns its error; a successful one returns the row with the request's order and amount, "USD", "completed", the given IDs and the card's last four digits |
| BackendPaymentHandler.FirstFailure | src/backend/payment-service/main.go:41-66 | no failure exactly when all three validators accept; otherwise the first failing check, in the order card, expiry, CVV |
| BackendPaymentHandler.ProcessPayment | src/backend/payment-service/main.go:28-80 | a bad body or a failed check is rejected with no insert; otherwise the payment is inserted; an insert error gives a plain-text 500; success carries the created payment |
| BackendPaymentHandler.CardLengthAfterCheck | src/backend/payment-service/main.go:68-72 | a card that passed the check has 13 to 19 bytes, so taking its last four cannot fail |
| PaymentStore.Store.constructor | project/golang-backend/payment-service/main.go:41-42 | the service starts with no payments and the counter at 0 |
| PaymentStore.Store.NextIdFresh | project/golang-backend/payment-service/main.go:158-159 | the ID made from the next counter value names no stored payment |
| PaymentStore.Store.ProcessPayment | project/golang-backend/payment-service/main.go:118-183 | a bad body or a failed check changes nothing and replies with that message; otherwise the counter goes up by one and the payment "PAY_<n>" is stored as completed and returned |
| PaymentStore.Store.GetPayment | project/golang-backend/payment-service/main.go:185-199 | the stored payment under that ID, and none exactly when the ID is unknown |
| PaymentStore.Store.GetPaymentByOrderId | project/golang-backend/payment-service/main.go:201-216 | some stored payment for that order, and none exactly when no payment has that order ID |
| PaymentStore.Store.RefundPayment | project/golang-backend/payment-service/main.go:218-236 | an unknown ID changes nothing; a known one is stored again with status "refunded", and nothing else changes (the refund's `UpdatedAt` write is not modelled, see Left out) |
| CartOrderStore.Subtotal | backend/cart-order-service/main.go:96-98 | the reference total of a cart's items, Σ price × quantity, which the store keeps equal to every cart's and order's stored total |
| CartOrderStore.SubtotalSnoc | backend/cart-order-service/main.go:96-98 | adding an item to the end raises the subtotal by that item's price times quantity |
| CartOrderStore.SubtotalAppend | backend/cart-order-service/main.go:122-126 | the subtotal of two item lists side by side is the sum of their subtotals |
| CartOrderStore.FirstMatch | backend/cart-order-service/main.go:120-126 | the first position holding the product, found by scanning past every earlier position that does not |
| CartOrderStore.RemoveFirst | backend/cart-order-service/main.go:120-126 | removing an item keeps the cart's ID and user |
| CartOrderStore.RemoveFirstKeepsTotal | backend/cart-order-service/main.go:120-126 | if a cart's stored total is its subtotal, the total stays equal to the subtotal after a removal |
| CartOrderStore.RemoveFirstTakesOne | backend/cart-order-service/main.go:120-126 | only the first matching line goes, the others keep their order, and a cart without the product is unchanged |
| CartOrderStore.Store.constructor | backend/cart-order-service/main.go:41-43 | the service starts with no carts, no orders and the counter at 0 |
| CartOrderStore.Store.NextOrderIdFresh | backend/cart-order-service/main.go:162-163 | the ID made from the next counter value names no stored order |
| CartOrderStore.Store.CreateCart | backend/cart-order-service/main.go:60-80 | an empty cart with total 0 is stored under the given ID and nothing else changes |
| CartOrderStore.Store.AddItemToCart | backend/cart-order-service/main.go:82-104 | an unknown cart is refused with no change; otherwise the item goes to the end and the total rises by its price times quantity |
| CartOrderStore.Store.RemoveItemFromCart | backend/cart-order-service/main.go:106-131 | an unknown cart is refused with no change; otherwise the cart becomes the one with its first line for the product removed, and nothing else changes |
| CartOrderStore.Store.GetCart | backend/cart-order-service/main.go:133-147 | the stored cart, and none exactly when the ID is unknown |
| CartOrderStore.Store.CreateOrder | backend/cart-order-service/main.go:149-180 | an unknown cart changes nothing; otherwise the counter goes up, the order "ORD_<n>" (a fresh ID) is stored as pending with the cart's user, items and total, and the cart is deleted |
| CartOrderStore.Store.GetOrder | backend/cart-order-service/main.go:182-196 | the stored order, and none exactly when the ID is unknown |
| CartOrderStore.Store.UpdateOrderStatus | backend/cart-order-service/main.go:198-219 | an unknown order is refused with no change; otherwise only that order's status changes |
| CartOrderStore.Store.GetUserOrders | backend/cart-order-service/main.go:221-235 | exactly the user's stored orders, each once |
| ProductTypes.First | src/frontend/src/components/ProductDetail.tsx:17-18 | `xs[0]`: the first entry, or undefined for an empty list |
| ProductTypes.CategoryList | project/src/components/ProductCatalog.tsx:19 | the products' categories, position by position |
| ProductTypes.Categories | project/src/components/ProductCatalog.tsx:19 | the products' categories with each later repeat dropped, as the Set keeps them |
| ProductTypes.CategoriesDistinct | project/src/components/ProductCatalog.tsx:19 | the category list holds every product's category, each exactly once, in the order of first appearance; the product service's getCategories (project/golang-backend/product-service/main.go:186-199) builds the same list |
| ProductQueries.ProductsQuery | src/product-service/db/db.go:75-92 | the reference query as fragments: the base select, a category clause if a category is given, a name-or-description clause if a search is given, then the ordering |
| ProductQueries.ProductsArgs | src/product-service/db/db.go:75-92 | the reference arguments: the category if given, then the search pattern twice if given |
| ProductQueries.GetProductsQuery | src/product-service/db/db.go:75-92 | the SQL text and arguments equal the query built from the category and search filters that are present |
| ProductQueries.ProductsQueryWellNumbered | src/product-service/db/db.go:75-92 | the placeholders are $1, $2, … in order, one per argument |
| ProductQueries.AddNameOrDescription | src/product-service/db/db.go:86-90 | a search adds the name-or-description clause, with one pattern argument for each of its two placeholders, numbered from the current count |
| ProductQueries.CategoryPart | src/product-service/db/db.go:80-84 | a category adds a clause of two fragments; no category adds nothing |
| ProductQueries.SearchPart | src/product-service/db/db.go:86-90 | a search adds a clause of five fragments; no search adds nothing |
| ProductQueries.CategoryArgs | src/product-service/db/db.go:80-84 | one argument for a category, none without |
| ProductQueries.SearchArgsPart | src/product-service/db/db.go:86-90 | two arguments for a search, none without |
| ProductQueries.SearchQuery | src/product-service/db/db.go:187-210 | the reference search query as fragments: the base select, then the text, minimum and maximum clauses for those given, numbered in that order, then the ordering |
| ProductQueries.SearchArgs | src/product-service/db/db.go:187-210 | the reference arguments: the text pattern twice if given, then the minimum and the maximum as given |
| ProductQueries.SearchProductsQuery | src/product-service/db/db.go:187-210 | the SQL text and arguments equal the query built from the text, minimum and maximum filters that are present |
| ProductQueries.SearchQueryWellNumbered | src/product-service/db/db.go:187-210 | the placeholders are $1, $2, … in order, one per argument |
| ProductQueries.AddPriceBounds | src/product-service/db/db.go:198-208 | each price bound present adds its clause and argument, numbered after those already added |
| ProductQueries.MinPricePart | src/product-service/db/db.go:198-202 | a minimum adds a clause of two fragments; none adds nothing |
| ProductQueries.MaxPricePart | src/product-service/db/db.go:204-208 | a maximum adds a clause of two fragments; none adds nothing |
| ProductQueries.PriceArg | src/product-service/db/db.go:198-208 | one argument per bound present |
| ProductQueries.RenderFilterCategory | src/product-service/db/db.go:81 | the category clause renders as " AND category = $k" |
| ProductQueries.RenderFilterMinPrice | src/product-service/db/db.go:199 | the minimum clause renders as " AND price >= $k" |
| ProductQueries.RenderFilterMaxPrice | src/product-service/db/db.go:205 | the maximum clause renders as " AND price <= $k" |
| ProductQueries.RenderFilterNameOrDescription | src/product-service/db/db.go:87 | the search clause renders as the case-insensitive name-or-description match on $k and $k+1 |
| ProductService.GetAllProducts | project/golang-backend/product-service/main.go:150-168 | the reference listing: the catalogue filtered by the category and a lower-cased name search |
| ProductService.GetAllProductsSelects | project/golang-backend/product-service/main.go:150-168 | the listing holds exactly the products that match the category and a case-insensitive search, in catalogue order |
| ProductService.GetAllProductsUnfiltered | project/golang-backend/product-service/main.go:157-165 | without filters the listing is the whole catalogue |
| ProductService.GetProductById | project/golang-backend/product-service/main.go:170-184 | the first product with that ID, and none exactly when no product has it |
| ProductService.CatalogueCategories | project/golang-backend/product-service/main.go:186-199 | the catalogue's category list is Tops, Outerwear, Bottoms, Dresses |
| ProductService.CatalogueCategoryList | project/golang-backend/product-service/main.go:28-133 | the catalogue's products are, in order: Tops, Outerwear, Tops, Bottoms, Outerwear, Dresses, Bottoms, Dresses |
| ProductService.DedupOfCatalogueOrder | project/golang-backend/product-service/main.go:191-196 | keeping first appearances of that order of four distinct categories gives them in first-seen order |
| ProductService.DedupOfFirstFour | project/golang-backend/product-service/main.go:191-196 | keeping first appearances drops a repeat of the first category |
| ProductService.Bound | project/golang-backend/product-service/main.go:231-243 | a price bound that parses is used, and one that does not gives the default |
| ProductService.SearchProducts | project/golang-backend/product-service/main.go:224-256 | the reference search: the catalogue filtered by a lower-cased name or description match and the price bounds, defaults filled in |
| ProductService.SearchProductsSelects | project/golang-backend/product-service/main.go:224-256 | the results are exactly the products that match the text and lie within the bounds, defaults filled in, in catalogue order |
| ProductService.SearchWithoutFilters | project/golang-backend/product-service/main.go:231-253 | with no filters, every product inside the default price range is returned |
| ProductService.CataloguePricesInDefaultRange | project/golang-backend/product-service/main.go:28-133 | every catalogue price lies in the default range, so an unfiltered search returns the whole catalogue |
| ProductService.Inventory.constructor | project/golang-backend/product-service/main.go:28-133 | the service starts with the fixed catalogue |
| ProductService.Inventory.UpdateStock | project/golang-backend/product-service/main.go:201-222 | the catalogue never changes; the update succeeds exactly when the quantity is positive and a product with that ID is in stock |
| CatalogFilter.FilteredProducts | project/src/components/ProductCatalog.tsx:21-28 | the reference grid contents: the products filtered by the selected category and a lower-cased name match |
| CatalogFilter.FilteredSelects | project/src/components/ProductCatalog.tsx:21-28 | the grid shows exactly the products in the selected category (or any, when none is selected) whose name contains the query, ignoring ASCII case, in list order |
| CatalogFilter.FilteredUnfiltered | project/src/components/ProductCatalog.tsx:21-28 | with no category and an empty query, every product is shown |
| CatalogFilter.FilteredAsListed | project/src/components/ProductCatalog.tsx:21-28 | the filtered list is the catalogue filtered by the two conditions together |
| CatalogFilter.Buttons | project/src/components/ProductCatalog.tsx:57-79 | the first button is "All", highlighted exactly when no category is selected; then one button per category, highlighted exactly when it is the selected one |
| CatalogFilter.ViewPage | project/src/components/ProductCatalog.tsx:83-93 | the "no products" message shows exactly when the filtered list is empty; otherwise the grid shows that list with its count |
| CatalogFilter.ViewPageHighlight | project/src/components/ProductCatalog.tsx:60-72 | at most one button is highlighted: "All" when nothing is selected, and the selected category's button when some product has that category |
| ShoppingCartView.TotalPrice | src/frontend/src/components/ShoppingCart.tsx:21-24 | the reference bag total, Σ price × quantity over the items |
| ShoppingCartView.TotalPriceAppend | src/frontend/src/components/ShoppingCart.tsx:21-24 | the total of two item lists side by side is the sum of their totals; the copy at project/src/components/ShoppingCart.tsx:21-24 is the same code |
| ShoppingCartView.TotalPriceRotate | src/frontend/src/components/ShoppingCart.tsx:21-24 | the total does not depend on where an item sits |
| ShoppingCartView.MinusClicked | src/frontend/src/components/ShoppingCart.tsx:88-96 | minus asks to set that line's quantity one lower, naming the line by product, size and colour; the copy at project/src/components/ShoppingCart.tsx:88-96 is the same code |
| ShoppingCartView.PlusClicked | src/frontend/src/components/ShoppingCart.tsx:102-110 | plus asks to set that line's quantity one higher, naming the line by product, size and colour; the copy at project/src/components/ShoppingCart.tsx:102-110 is the same code |
| ShoppingCartView.TrashClicked | src/frontend/src/components/ShoppingCart.tsx:69-74 | the trash button asks to remove that line, naming it by product, size and colour; the copy at project/src/components/ShoppingCart.tsx:73-80 is the same code |
| ShoppingCartView.PlusMinusInverse | src/frontend/src/components/ShoppingCart.tsx:88-110 | minus after plus, and plus after minus, ask for the line's original quantity |
| ShoppingCartView.ViewCart | src/frontend/src/components/ShoppingCart.tsx:26-129 | a closed bag draws nothing; an open empty bag draws the empty message; otherwise one row per item with its line total, and the bag's total |
| ProductDetailView.Decremented | src/frontend/src/components/ProductDetail.tsx:116 | one less than the quantity, but never below one |
| ProductDetailView.DecrementedUndoesPlus | src/frontend/src/components/ProductDetail.tsx:116-123 | minus after plus gives back any quantity of at least one |
| ProductDetailView.Detail.constructor | src/frontend/src/components/ProductDetail.tsx:16-18 | the view opens with quantity 1 and the product's first size and colour; the copy at project/src/components/ProductDetail.tsx:16-18 is the same code |
| ProductDetailView.Detail.ClickMinus | src/frontend/src/components/ProductDetail.tsx:116 | the quantity drops by one but not below one; the choices stay; the copy at project/src/components/ProductDetail.tsx:124 is the same code |
| ProductDetailView.Detail.ClickPlus | src/frontend/src/components/ProductDetail.tsx:123 | the quantity rises by one; the choices stay; the copy at project/src/components/ProductDetail.tsx:131 is the same code |
| ProductDetailView.Detail.ClickSize | src/frontend/src/components/ProductDetail.tsx:94-97 | the pressed size becomes the selection, and it is one of the product's sizes; the copy at project/src/components/ProductDetail.tsx:102-105 is the same code |
| ProductDetailView.Detail.ClickColor | src/frontend/src/components/ProductDetail.tsx:75-78 | the pressed colour becomes the selection, and it is one of the product's colours; the copy at project/src/components/ProductDetail.tsx:81-84 is the same code |
| ProductDetailView.Detail.ClickAdd | src/frontend/src/components/ProductDetail.tsx:20-23 | out of stock, the disabled button does nothing; otherwise the callback gets the product, quantity, size and colour, and the quantity resets to 1; the copy at project/src/components/ProductDetail.tsx:20-23 is the same code |
| CheckoutModal.WithField | src/frontend/src/components/CheckoutModal.tsx:31-34 | the named field takes the new value and the other three keep theirs |
| CheckoutModal.FieldsDetermine | src/frontend/src/components/CheckoutModal.tsx:20-25 | the form data is fully given by its four fields |
| CheckoutModal.WithFieldLaws | src/frontend/src/components/CheckoutModal.tsx:31-34 | writing a field's own value changes nothing, and of two writes to one field the last wins |
| CheckoutModal.Modal.constructor | src/frontend/src/components/CheckoutModal.tsx:20-29 | the form starts empty and not processing |
| CheckoutModal.Modal.HandleChange | src/frontend/src/components/CheckoutModal.tsx:31-34 | only the named payment field changes |
| CheckoutModal.Modal.SetEmail | src/frontend/src/components/CheckoutModal.tsx:27 | only the e-mail changes |
| CheckoutModal.Modal.SetAddress | src/frontend/src/components/CheckoutModal.tsx:28 | only the address changes |
| CheckoutModal.Modal.ClickSubmit | src/frontend/src/components/CheckoutModal.tsx:36-41 | a submit starts exactly when not already processing, every required field is filled and the e-mail is accepted; it raises the processing flag and holds the current form data |
| CheckoutModal.Modal.TimerFires | src/frontend/src/components/CheckoutModal.tsx:41-48 | onSubmit gets the data held at submit; the form clears only if onSubmit returns; the flag always drops, and an exception goes on |
| CheckoutModal.Modal.View | src/frontend/src/components/CheckoutModal.tsx:51-167 | nothing is drawn while closed; the submit button is disabled, and reads "Processing...", exactly while processing |
| ApiClient.Member | src/frontend/src/api/client.ts:95 | reading a member of a parsed body gives its value if the object has that key, and undefined otherwise |
| ApiClient.Or | src/frontend/src/api/client.ts:95 | `a \|\| b` gives a when a is truthy, and b otherwise |
| ApiClient.Parsed | src/frontend/src/api/client.ts:34 | an OK response returns its parsed body, or throws a syntax error when the body does not parse |
| ApiClient.CreateCartBody | src/frontend/src/api/client.ts:27-32 | the body's one key is userId, which defaults to "user123" |
| ApiClient.CreateCartOutcome | src/frontend/src/api/client.ts:33-34 | a failed response throws "Failed to create cart"; an OK one returns the parsed body |
| ApiClient.AddItemBody | src/frontend/src/api/client.ts:45-52 | the posted item carries the product's ID, name and price, and the quantity, size and colour as given |
| ApiClient.AddItemOutcome | src/frontend/src/api/client.ts:55-61 | a failed response throws a message naming the status and the response text; an OK one returns the parsed body |
| ApiClient.ItemBodies | src/frontend/src/api/client.ts:45-52 | one posted body per bag item, in order |
| ApiClient.ItemBodiesTotal | backend/cart-order-service/main.go:96-98 | the cart service's total over the posted bodies equals the bag's total price |
| ApiClient.CreateOrderOutcome | src/frontend/src/api/client.ts:67-74 | a failed response throws "Failed to create order"; an OK one returns the parsed body |
| ApiClient.PaymentBodyOf | src/frontend/src/api/client.ts:82-90 | the payment body carries the order and amount as given, "USD", and the four card fields as typed |
| ApiClient.PaymentOutcome | src/frontend/src/api/client.ts:93-98 | a failed payment always throws: a syntax error for a body that does not parse, a type error for null, and otherwise the body's message or "Payment failed" |
| ApiClient.SignupBody | src/frontend/src/api/client.ts:101-106 | the body has exactly name, email and password, as given |
| ApiClient.LoginBody | src/frontend/src/api/client.ts:121-126 | the body has exactly email and password, as given |
| ApiClient.AuthErrorMessage | src/frontend/src/api/client.ts:107-117 | a parsed non-null body gives its error, else its message, else the fallback; a body that does not parse, or is null, gives the raw text, else the fallback |
| ApiClient.SignupOutcome | src/frontend/src/api/client.ts:101-119 | a failed response throws the error message with fallback "Signup failed"; an OK one returns the parsed body |
| ApiClient.LoginOutcome | src/frontend/src/api/client.ts:121-139 | a failed response throws the error message with fallback "Login failed"; an OK one returns the parsed body |
| ApiClient.NotOkAlwaysThrows | src/frontend/src/api/client.ts:27-139 | every call throws on a failed response, and on an OK one every call returns the same parsed body |
| ApiClient.AuthErrorPrefersError | src/frontend/src/api/client.ts:111-113 | a non-empty error wins over the message; a lone non-empty message is used; empty strings fall back |
| HomePage.CartOwner | src/frontend/src/components/Home.tsx:49-51 | no stored user, or an empty one, gives "guest"; stored text that does not parse throws; a falsy parsed user gives "guest"; otherwise the user's id member |
| HomePage.CartOwnerUserId | src/frontend/src/components/Home.tsx:49-54 | a stored user object posts its id as the cart's userId; one without an id leaves the id undefined, so the client's default "user123" is posted instead; with nobody signed in the cart is created for "guest" |
| HomePage.Planned | src/frontend/src/components/Home.tsx:53-66 | the planned calls: create the cart, add each bag item in order to the returned cart, create the order, then pay the order's total with the typed card |
| HomePage.PlannedEmptyBag | src/frontend/src/components/Home.tsx:53-66 | with an empty bag, the plan is to create the cart, create the order and pay |
| HomePage.PlannedPostsBag | src/frontend/src/components/Home.tsx:57-59 | the items posted are the bag's, in order, and what the cart service adds up from them equals the bag's total |
| HomePage.FollowsPlanByIndex | src/frontend/src/components/Home.tsx:53-66 | calls that agree with the plan position by position, each after a success, follow the plan |
| HomePage.PostItems | src/frontend/src/components/Home.tsx:57-59 | items are posted in order, each only after the last succeeded; the loop stops at the first failure and reports that error |
| HomePage.OrderAndPay | src/frontend/src/components/Home.tsx:62-66 | after a full bag of posts, the order is created and then paid with the order's ID and total; the first failure stops the sequence and is reported |
| HomePage.RemoteCheckout | src/frontend/src/components/Home.tsx:53-66 | the calls made follow the plan; it succeeds exactly when all bag-plus-three calls are made and the last succeeded; a failure is the latest reply's error |
| HomePage.Home.constructor | src/frontend/src/components/Home.tsx:16-19 | the page starts with no product selected, the bag and checkout closed, and no completed order |
| HomePage.Home.HandleAddToCart | src/frontend/src/components/Home.tsx:31-33 | adds one of the product, with its first size and colour, to the bag; the page state stays |
| HomePage.Home.HandleProductDetailAddToCart | src/frontend/src/components/Home.tsx:35-44 | adds the chosen product, quantity, size and colour, closes the detail view and opens the bag |
| HomePage.Home.HandleCheckout | src/frontend/src/components/Home.tsx:46-79 | a stored user that does not parse fails before any call; otherwise the calls of the remote checkout are made; success closes checkout, marks the order complete and clears the bag; a failure changes nothing |
| Telemetry.ServiceName | src/product-service/telemetry/telemetry.go:21-24 | the variable's value, or "unknown-service" when it is unset |
| Telemetry.Endpoint | src/product-service/telemetry/telemetry.go:26-32 | the variable's value, or the in-cluster collector, with one leading "http://" and then one leading "https://" removed |
| Telemetry.EndpointNormalised | src/product-service/telemetry/telemetry.go:26-32 | unset gives the collector address; a host behind "https://" gives the bare host; "http://" is removed; a value with neither prefix is kept |
| Telemetry.EndpointSchemesAgree | src/product-service/telemetry/telemetry.go:31-32 | either scheme in front of a plain host gives the same host |
| Telemetry.EndpointPrefixOrder | src/product-service/telemetry/telemetry.go:31-32 | "http://https://h" loses both prefixes, but "https://http://h" loses only the first |
| Text.TrimSpace | src/payment-service/db/db.go:187-188 | no leading or trailing white space remains; nothing is added; an input that keeps its length is unchanged; TrimSpaceSlice and TrimSpaceEmpty show that only leading and trailing white space is removed |
| Text.TrimLeftDropsSpace | src/payment-service/db/db.go:187-188 | every byte the left trim cuts off is white space |
| Text.TrimRightDropsSpace | src/payment-service/db/db.go:187-188 | every byte the right trim cuts off is white space |
| Text.TrimSpaceSlice | src/payment-service/db/db.go:187-188 | the trimmed text is the middle slice `s[i..j]` of the input, and every byte before `i` and from `j` on is white space |
| Text.TrimSpaceEmpty | src/payment-service/db/db.go:187-188 | trimming leaves nothing exactly when the input is all white space |
| Text.Split | src/payment-service/db/db.go:182 | one part more than there are separators, and no part holds a separator |
| Text.JoinSplit | src/payment-service/db/db.go:182-185 | joining the parts with the separator gives back the input |
| Text.RemoveAll | src/payment-service/db/db.go:161-162 | the result has no occurrence of the removed byte, only bytes of the input, and is no longer |
| Text.TrimPrefix | src/product-service/telemetry/telemetry.go:31-32 | when the prefix is there, the input is the prefix followed by the result; otherwise the input is kept |
| Text.ToLower | project/golang-backend/product-service/main.go:161 | lower-casing keeps the length |
| Text.Decimal | backend/cart-order-service/main.go:163 | a non-empty string of decimal digits, with at least two of them from ten upwards |
| Text.DecimalInjective | backend/cart-order-service/main.go:162-163 | different counters give different IDs |
| Text.FilterMembers | project/golang-backend/product-service/main.go:157-165 | an element is kept exactly when it is in the input and passes the test |
| Text.DedupNoDuplicates | project/golang-backend/product-service/main.go:191-196 | keeping first appearances leaves no element twice |
| Text.DedupMembers | project/golang-backend/product-service/main.go:191-196 | keeping first appearances loses no element and adds none |

## Left out

- HTTP, routing, CORS, JSON encoding and decoding, and the SQL driver are not modelled.
  - A body that fails to decode is an absent value (`None`).
  - Database, Stripe and HTTP results are functions or values the caller supplies.
- The `CreatedAt` and `UpdatedAt` timestamps are left out of every record:
  - the payments of the three payment services;
  - the carts and orders of the cart service, including the `UpdatedAt` writes when an item
    is added or removed and when an order's status changes.
- PaymentStore.Store.RefundPayment: its "nothing else changes" holds only because the
  refund's `UpdatedAt = time.Now()` write is left out.
- Clocks, randomness and generated IDs become parameters:
  - the current year;
  - the nanosecond payment and cart IDs;
  - the MD5 transaction IDs.
- Prices and amounts are exact reals, not `float64`. Rounding, NaN and the `int(float64)`
  truncation are not modelled.
- StripePaymentHandler.Cents: the Stripe charge amount `int64(req.Amount * 100)` is the exact
  product truncated toward zero. The `float64` rounding of the product (19.99 × 100 may
  land just below 1999) and `int64` overflow are not modelled, so ProcessPayment and
  CallsInOrder charge the exact number of cents.
- `Text.TrimSpace` and `Text.ToLower` cover ASCII bytes only. Go's Unicode white space and
  case folding beyond ASCII are not modelled.
- StripePaymentDb.LuhnCheck: requires an ASCII number. It is only reached after the digit
  check, so non-ASCII bytes never get there.
- ProductService.Inventory.UpdateStock: a request whose fields have the wrong JSON types
  panics in the Go type assertions. The model takes the fields as already decoded.
- The Go maps' random iteration order is not modelled. `GetPaymentByOrderId` may return any
  payment for the order, and `GetUserOrders` returns the orders in an unspecified order.
- Concurrency is not modelled. The handlers share maps without locks; the model runs one
  request at a time.
- The OpenTelemetry exporter, tracer, spans and metrics are not modelled. Only the
  environment defaults and the endpoint normalisation are.
  - Logging, `alert` and `console` output are not modelled either.
- The storefront's `useCart` hook is not modelled. The home page records the calls it makes
  to the hook (`hookLog`).
- The other inline handlers of the home page are not modelled:
  - opening the detail view;
  - opening and closing the bag and the checkout;
  - closing the success overlay.
- CheckoutModal.Modal.ClickSubmit: the browser's e-mail format check is a parameter
  (`emailAccepted`). The `maxLength` limits of the inputs are not modelled.
- CheckoutModal.Modal.TimerFires: the 1.5-second wait is split into the click and the timer,
  and no clock is modelled.
  - `onSubmit` is asynchronous. In the home page its rejection is not awaited, so the form
    clears anyway; the model's `onSubmitThrows` is about a synchronous throw.
- HomePage.RemoteCheckout: the replies are taken to have the documented cart and order
  shapes (an ID, and the order's total). A reply with a different shape is not modelled.
- ApiClient.AuthErrorMessage: `new Error(v)` turns a value into text. For a message that is
  not a string, the model keeps the JSON value rather than its text.
- The Go cart service's `createCart` decodes `userId` as a string. A body with a different
  type leaves the zero value, which the model passes in.
- The login pages, the header, footer, hero and success overlay are not part of this model.
  Neither is the database-backed cart service.

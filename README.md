# Checkout, payment notification, cart store and gallery layout of the wine shop

This project models in Dafny the core of the shop's storefront:

- **The checkout endpoint** (`POST /api/payment/initiate`). It checks the request and the customer's e-mail and phone. It re-prices every submitted cart line against the catalog's answer, so the client's own prices are never used. It adds the SGR deposit per product bottle and picks the outcome: an error list, "no valid items", or a payment redirect. It also prepares the order record handed to the order store.
- **The payment provider's notification endpoint** (`POST`/`GET /api/payment/ipn`). It maps Netopia's payment status codes to order statuses. It makes at most one order-status update and answers with the envelope the provider expects.
- **The browser cart store.** This is one mutable cart state whose lines are keyed by (id, type). It has add, remove, update-quantity and clear actions, and count, total and emptiness views.
- **The gallery helpers.** They tag each image as square or rectangle by its aspect ratio and split the list into the desktop and mobile layouts.

Modules:

- `Common` and `CartTypes` (`cart_types.dfy`) hold the shared datatypes of the cart and order types.
- `CustomerValidation` (`customer_validation.dfy`) holds the e-mail and phone checks.
- `Checkout` (`checkout.dfy`) holds the pricing loop and the checkout endpoint.
- `PaymentNotification` (`payment_notification.dfy`) holds the notification endpoint.
- `CartStore` (`cart_store.dfy`) holds the `Cart` class and the list functions that specify its actions.
- `Gallery` (`gallery.dfy`) holds the gallery helpers.

Money is an integer number of minor units (bani). The SGR deposit per bottle is a parameter, and so is the catalog's answer. The order id, the clock and the provider credentials check are parameters too. So is the outcome of the notification endpoint's store update. The checkout's own save is not given an outcome, because the checkout ignores whether it succeeds.

## Model

| member | source | states |
|---|---|---|
| CustomerValidation.ValidateEmailMatchesShape | src/pages/api/payment/initiate.ts:36-39 | the e-mail check accepts a string exactly when it is `local@domain.tld` with each of the three parts non-empty and free of whitespace and `@` (both directions) |
| CustomerValidation.StripSeparators | src/pages/api/payment/initiate.ts:43 | deleting whitespace and dashes never lengthens the string, leaves no separator in it, and keeps only characters of the input (so a separator is deleted, not replaced) |
| CustomerValidation.StripSeparatorsConcat | src/pages/api/payment/initiate.ts:43 | deleting separators works character by character: it splits over a concatenation |
| CustomerValidation.StripSeparatorsKeepsClean | src/pages/api/payment/initiate.ts:43 | a string without separators is left unchanged |
| CustomerValidation.ValidatePhoneMatchesPattern | src/pages/api/payment/initiate.ts:41-45 | the phone check accepts exactly when, after deleting separators, the string is `+40` or `0` followed by 9 or 10 digits (both directions) |
| CustomerValidation.SeparatorDoesNotMatter | src/pages/api/payment/initiate.ts:41-45 | a space or dash inserted anywhere in a phone number never changes the verdict |
| Checkout.FirstMatch | src/pages/api/payment/initiate.ts:145 | the catalog lookup finds the first entry with the id, or reports that none has it |
| Checkout.IdsOfKind | src/pages/api/payment/initiate.ts:117-118 | the catalog query asks for exactly the ids of the cart lines of one kind: every such id is asked for, and every asked-for id comes from such a line |
| Checkout.PriceCart | src/pages/api/payment/initiate.ts:137-180 | the pricing loop's priced lines, error messages, subtotal and bottle count are those of the cart-level specification (`ValidatedItems`, `CartErrors`, `Subtotal`, `CountedBottles`); a product's bottles are counted as soon as the catalog lists it, before its price is read |
| Checkout.PricingSplits | src/pages/api/payment/initiate.ts:141-180 | the loop never stops early and keeps cart order: the lines and errors of a concatenated cart are those of its parts, concatenated, and its bottles add up |
| Checkout.LinesPricedByCatalog | src/pages/api/payment/initiate.ts:144-178 | every priced line carries the catalog's price for its kind and id |
| Checkout.ClientPriceIgnored | src/pages/api/payment/initiate.ts:170-177 | two carts that differ only in the client's prices yield the same lines and the same errors |
| Checkout.FullyPricedCart | src/pages/api/payment/initiate.ts:141-180 | a cart whose every line the catalog prices gives one line per cart line, in order, with id, type, name and quantity copied and the catalog's price, and no error |
| Checkout.NoErrorsIffAllFound | src/pages/api/payment/initiate.ts:142-170 | the error list is empty exactly when the catalog lists every line of a known type |
| Checkout.OneResultPerKnownLine | src/pages/api/payment/initiate.ts:141-180 | each line of a known type yields exactly one priced line or exactly one error, except a line the catalog lists without a price, which yields neither; a line of any other type yields neither |
| Checkout.TotalsSplit | src/pages/api/payment/initiate.ts:178-184 | subtotal and the product units of the priced lines add up over a concatenation of lines (the additivity of the counted bottles that carry the deposit is `PricingSplits`) |
| Checkout.NoBottlesWithoutProducts | src/pages/api/payment/initiate.ts:144-148 | bundles and subscriptions carry no deposit: a cart without product lines counts no bottles |
| Checkout.BottlesOfPricedProducts | src/pages/api/payment/initiate.ts:144-179 | when every listed product has a price, the bottles charged are exactly the units of the order's product lines |
| Checkout.UnpricedProductStillCharged | src/pages/api/payment/initiate.ts:146-148 | a product listed without a price is dropped from the order without an error, yet its bottles are still counted: a cart of two such bottles and a priced bundle gives the bundle alone and a deposit on two bottles |
| Checkout.CustomerRecord | src/pages/api/payment/initiate.ts:210-226 | the customer record has the four common keys plus `firstName`/`lastName` for a person or `companyName`/`cui`/`contactPerson` for a company |
| Checkout.BuildCustomerData | src/pages/api/payment/initiate.ts:210-226 | building the record field by field gives the customer record |
| Checkout.CustomerRecordRoundTrip | src/pages/api/payment/initiate.ts:210-226 | reading the record back gives the customer with the billing address replaced by the delivery address when "same address" is ticked, and nothing lost but the "same address" tick itself |
| Checkout.CustomerRecordShowsType | src/pages/api/payment/initiate.ts:217-226 | the record's keys tell a person from a company |
| Checkout.Initiate | src/pages/api/payment/initiate.ts:76-294 | an unreadable body is a 500. Missing data, then a bad e-mail, then a bad phone are 400s with their messages, and each of them stops before the catalog query. The query holds the product ids and bundle slugs. A failed query is a 500. Errors are joined by ", ". No lines or a non-positive total gives "no valid items". Otherwise the order is stored as pending with the priced lines, subtotal, deposit (on the counted bottles) and total, and the redirect (mock-marked without credentials) is returned. A redirect is returned exactly when an order is stored, and every stored order has lines, a positive total equal to subtotal plus deposit, and catalog prices only |
| PaymentNotification.CodeTableBijective | src/pages/api/payment/ipn.ts:6-16 | the nine status names and the codes 0 to 8 correspond one to one |
| PaymentNotification.MapNetopiaStatusToOrderStatus | src/pages/api/payment/ipn.ts:45-59 | codes 2, 3 and 5 map to paid, 6 and 7 to failed, 8 to cancelled, and everything else (including an absent status) to pending, each as an if-and-only-if |
| PaymentNotification.HandleNotification | src/pages/api/payment/ipn.ts:83-159 | an unreadable payload is a 500 with no update. A missing or empty order id is a 400 "Missing orderId" with no update. Otherwise exactly one update (order id, mapped status, provider id) and a 200 "OK" |
| PaymentNotification.ResponseEnvelopes | src/pages/api/payment/ipn.ts:101-157 | a failing store update never changes the decision. The answer is always one of the three envelopes, `errorType` is 1 exactly on the 500, and an update is made exactly when the answer is 200 |
| PaymentNotification.FormWithoutDataIsRefused | src/pages/api/payment/ipn.ts:90-111 | a form post without a `data` field is read as `{}` and refused for its missing order id |
| PaymentNotification.NullPayloadIsServerError | src/pages/api/payment/ipn.ts:90-103 | a JSON `null` body throws when its fields are read and is answered with the 500 envelope |
| PaymentNotification.HealthCheck | src/pages/api/payment/ipn.ts:162-167 | the liveness probe answers 200 with "IPN endpoint active" |
| CartStore.FindIndex | src/stores/cart.ts:79-81 | the position of the first line with the (id, type) key, or -1 when there is none |
| CartStore.RemoveItems | src/stores/cart.ts:100 | after removal no line has the key, and every remaining line was a line of the cart |
| CartStore.AddMergesIntoExistingLine | src/stores/cart.ts:85-89 | adding an existing key raises the first matching line's quantity and keeps its other fields; the length and all other lines are unchanged |
| CartStore.AddAppendsNewLine | src/stores/cart.ts:90-92 | adding a new key appends one line with the given quantity after the unchanged old lines |
| CartStore.AddChangesOnlyItsKey | src/stores/cart.ts:77-95 | adding puts exactly `quantity` more units on the item's key, leaves every other key's units alone, and raises the count by `quantity` |
| CartStore.AddRaisesTotal | src/stores/cart.ts:69-95 | adding raises the display total by `quantity` times the receiving line's price |
| CartStore.AddKeepsKeysUnique | src/stores/cart.ts:79-92 | adding keeps the (id, type) keys of the cart unique |
| CartStore.OnlyAddsKeepKeysUnique | src/stores/cart.ts:77-95 | a cart that starts with unique keys (the empty cart included) and only grows through adds keeps them unique |
| CartStore.RemoveSplits | src/stores/cart.ts:98-102 | removal keeps the other lines in their order: it splits over a concatenation |
| CartStore.RemoveAbsentKey | src/stores/cart.ts:100 | removing a key the cart does not hold changes nothing, so removing twice is removing once |
| CartStore.RemoveDropsItsUnits | src/stores/cart.ts:64-102 | removing lowers the count by exactly the units held under the key and leaves none under it |
| CartStore.RemoveKeepsKeysUnique | src/stores/cart.ts:98-102 | removing keeps the keys unique |
| CartStore.SetQuantityOnlyTouchesItsKey | src/stores/cart.ts:110-114 | setting a quantity changes only the quantity of the lines with the key; length and other lines are unchanged, and so is key uniqueness |
| CartStore.SetQuantityWithUniqueKeys | src/stores/cart.ts:110-114 | in a cart with unique keys holding the key, the set quantity is exactly what the key then holds |
| CartStore.Cart.constructor | src/stores/cart.ts:39 | the cart starts empty |
| CartStore.Cart.IsCartEmpty | src/stores/cart.ts:64-74 | the cart is empty exactly when it has no lines, and then its count and total are 0 |
| CartStore.Cart.AddToCart | src/stores/cart.ts:77-96 | the new lines are the merged or appended list. The timestamp is renewed, the count rises by `quantity`, the total rises by `quantity` times the receiving line's price, and unique keys stay unique |
| CartStore.Cart.RemoveFromCart | src/stores/cart.ts:98-102 | the new lines are the old ones without the key. The timestamp is renewed, the count falls by the key's units, and unique keys stay unique |
| CartStore.Cart.UpdateQuantity | src/stores/cart.ts:104-115 | a quantity of 0 or less removes the key exactly as `removeFromCart` does. A positive one sets the key's lines' quantity, and unique keys stay unique |
| CartStore.Cart.ClearCart | src/stores/cart.ts:117-119 | the cart is empty with count 0 and a new timestamp |
| Gallery.SquareByCrossMultiplication | src/utils/gallery.ts:29-32 | an image is square exactly when 0.9 <= width / height <= 1.1, i.e. 9·height <= 10·width <= 11·height for a positive height (mirrored for a negative one); a zero height is never square |
| Gallery.CategorizeGalleryImages | src/utils/gallery.ts:27-40 | tagging keeps length and order and every field of each entry; `isSquare` is the square test and `isRectangle` its negation |
| Gallery.DesktopImages | src/utils/gallery.ts:43 | the desktop list holds exactly the images that are not mobile-only, in their original order |
| Gallery.LayoutGalleryImages | src/utils/gallery.ts:42-47 | the mobile layout is the input unchanged; the desktop layout is its subsequence of non-mobile-only images |
| Gallery.DesktopSplits | src/utils/gallery.ts:43 | the desktop filter splits over a concatenation |
| Gallery.DesktopKeepsAllWithoutMobileOnly | src/utils/gallery.ts:43 | a list without mobile-only images is shown whole on the desktop |

## Left out

- Request and response plumbing: reading JSON or form bodies, `Response` objects and headers, logging. The model keeps only the decoded values, the status codes and the envelope fields.
- The catalog query's transport (`loadQuery`) and its `__none__` placeholder for an empty id list. The query's answer is an input value, and a list the answer lacks is modelled as empty.
- `saveOrderToDatabase` and `updateOrderStatus` are logging stubs. The model returns the record or update call they receive. A failure of either is swallowed by the code, so it does not affect the response.
- `generateOrderId`, `Date.now` and `new Date().toISOString()`: the order id, the timestamps and the cart's `lastUpdated` are parameters.
- The credentials check for the payment provider is a boolean parameter. No payment-provider call exists in the code.
- The cart's `localStorage` load, save and subscription, the toast atoms and their timers, and `formatPrice` are browser I/O and UI timing.
- Floating point: prices, quantities and image dimensions are integers and the 0.9/1.1 bounds are exact, so JavaScript doubles may differ right at a boundary.
- Checkout.Initiate: a customer whose `email` or `phone` is not a string is not modelled. A non-string e-mail is converted to a string by the regular-expression test, so it is usually refused with 400 (a missing one becomes `"undefined"`), though a value such as a one-element array holding a valid address passes. A non-string phone makes `replace` throw, which answers 500. A customer `type` other than person or company is not modelled either; the code would store it with the company fields. A cart entry that is `null` or not an object is not modelled: reading its `type` throws, which answers 500.
- Gallery.CategorizeGalleryImages: the image's `hotspot` and `crop` editor data are not modelled, so "every field of each entry" covers the modelled fields only; the code copies those two along with the rest.
- PaymentNotification.HandleNotification: an `orderID` that is a non-string value is not modelled (`!orderId` is evaluated on strings only); the status field is an integer or absent.
- CartStore.UniqueKeys is a preserved property, not a class invariant, because a cart loaded from storage may hold duplicate keys.
- Some behaviour a shop of this kind might be expected to have is absent from the code, and the model follows the code: an order-store failure at checkout is swallowed and the redirect is still returned; the notification endpoint overwrites the order status unconditionally, so a late notification can replace a final status with an earlier one; no payment time is recorded; and no display name is built from the customer's names.
- Neither the checkout nor the cart checks that a quantity is positive. The model does not require it either, so a negative quantity lowers totals exactly as in the code.

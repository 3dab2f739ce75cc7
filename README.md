# Storefront cart and checkout core, modelled in Dafny

This project models the logic at the heart of the storefront's checkout flow:

- **The place-order route** (`PlaceOrder`, `PlaceOrder.dfy`). It turns the checkout snapshot posted by the browser into the WooCommerce order-creation body. The body has the payment method, billing, shipping and note; one line item per cart item, whose `meta_data` is a `variations` entry, then a `metadata` entry, then one entry per custom field; a single shipping line with a title from a closed mapping and the cost as a two-decimal string; and a coupon line only when a coupon is present. The route then runs the required-field check that answers 400 before any upstream request. The snapshot is untyped JSON in the route, so the pass-through fields are JavaScript values (`JsValues.Json`, `JsValues.dfy`). JavaScript truthiness (`||` defaults, `? :`, `!x`) and property reads that throw on `null`/`undefined` are modelled exactly, and so is the length of a string in UTF-16 code units.
- **The shipping section of the checkout page** (`Shipping`, `Shipping.dfy`):
  - the schema predicates. The `^\d{lo,hi}$` patterns are modelled by a digit-at-a-time matcher, proved equal to "length in range and all decimal digits";
  - the EDITING/DISPLAY machine. `Shipping.ShippingForm` holds the local `isEditing` flag and a reference to `Shipping.CheckoutStore`. The store holds the `shipping`, `billing`, `billingSameAsShipping` and `isAnyBlockEditing` slices. Its methods are the submit handler, the Edit button and the "billing same as shipping" checkbox.
- **The cart drawer** (`Cart`, `Cart.dfy`):
  - the quantity-button policy ("decrease" at quantity 1 removes the row);
  - the decision to navigate to the shop after removing the last row;
  - the row labels and the link targets;
  - the React row key, proved to identify the (product id, variation id) pair.

  `Cart.CartStore` holds the cart's rows as a sequence.

`Decimal` (`Decimal.dfy`) holds the decimal rendering of natural numbers that the row key and the shipping total use.

The cart and checkout stores (`@/store/useCartStore`, `@/store/useCheckoutStore`) are not modelled. Their operations are given the behaviour the two components rely on:
- `increaseCartQuantity` / `decreaseCartQuantity` change the quantity of the row with the same key by one. The store does not delete a row that reaches zero.
- `removeCartItem` deletes the rows with that key.
- every checkout-store setter replaces its slice wholesale.

These bodies are assumptions of the model, not derived from code.

The required-field check behaves differently from what its shape suggests, and the model follows the code:
- One might expect an empty cart to be rejected by the test of `line_items` (route.ts:92). That test can never fire, because `cartItems.map(...)` is always an array, and arrays are truthy. An empty cart with billing, shipping and payment method is sent upstream (`PlaceOrder.EmptyCartIsForwarded`).
- One might expect a missing billing address always to get the 400 "Missing required order fields" answer. With a coupon present, the route reads `billing.email` while building the body (route.ts:77). That read throws before the check, so the answer is 500 (`PlaceOrder.CouponWithoutBillingIsServerError`).
- The 400 answer does not say which field is missing: the route gives one fixed message for all four.

## Model

| member | source | states |
|---|---|---|
| `JsValues.Utf16Length` | src/components/checkout/left-pane/ShippingForm.tsx:13-19 | the JavaScript length of a string lies between its number of characters and twice that, and is 0 only for "" |
| `JsValues.Utf16LengthOfBmp` | src/components/checkout/left-pane/ShippingForm.tsx:13-19 | when every character is in the Basic Multilingual Plane, the JavaScript length is the number of characters |
| `JsValues.Member` | src/app/api/place-order/route.ts:76-77 | reading a property throws exactly on `null`/`undefined`; an object gives its own property; a non-undefined result comes only from an object that has the key |
| `PlaceOrder.CustomMeta` | src/app/api/place-order/route.ts:35-40 | one entry per custom field, in order, with the key taken from the field's name |
| `PlaceOrder.UnflattenCustomMeta` | src/app/api/place-order/route.ts:35-57 | flattening custom fields into entries loses nothing: reading the entries back gives every field, with its name and value, in order |
| `PlaceOrder.BuildLineItem` | src/app/api/place-order/route.ts:42-58 | `product_id` and `quantity` are the item's; `variation_id` is the item's when truthy, else 0; `meta_data` has 2 + (number of custom fields) entries: `variations` (the item's when truthy, else `[]`), `metadata` (the item's when truthy, else `{}`), then the custom fields, which read back exactly |
| `PlaceOrder.LineItems` | src/app/api/place-order/route.ts:33-59 | one line item per cart item, same length and order |
| `PlaceOrder.MethodTitle` | src/app/api/place-order/route.ts:64-69 | "Free Shipping" iff `free_shipping`, "Local Pickup" iff `local_pickup`, "Flat Rate" iff anything else |
| `PlaceOrder.FormatFixed2` | src/app/api/place-order/route.ts:70 | a leading '-' iff the amount is negative; then the whole units as digits with no leading zero ("0" for none), a point, and exactly two digits; the text reads back as the same amount of cents |
| `PlaceOrder.FiveIsFiveDotZeroZero` | src/app/api/place-order/route.ts:70 | a cost of 5 is rendered "5.00" |
| `PlaceOrder.ShippingLines` | src/app/api/place-order/route.ts:61-72 | exactly one shipping line, with `method_id` the chosen method, the mapped title and the formatted cost; throws iff the cost is not a number |
| `PlaceOrder.CouponLines` | src/app/api/place-order/route.ts:73-80 | no coupon: no lines; a coupon: throws iff billing is null/undefined, otherwise one line with the coupon's code and the billing email |
| `PlaceOrder.Transform` | src/app/api/place-order/route.ts:27-81 | the body is built iff the cost is a number and not (coupon and null/undefined billing); payment method, billing, shipping and note pass through; title "Online Payment"; the line items are `LineItems` of the cart, the shipping and coupon lines are those `ShippingLines` and `CouponLines` build, so one shipping line and coupon lines empty iff no coupon |
| `PlaceOrder.MissingRequired` | src/app/api/place-order/route.ts:89-94 | the check fires iff billing, shipping or payment method is falsy; the `line_items` test never contributes |
| `PlaceOrder.Post` | src/app/api/place-order/route.ts:88-99 | 500 iff building the body throws; 400 iff it is built and billing, shipping or payment method is falsy; otherwise the built body is sent upstream |
| `PlaceOrder.EmptyCartIsForwarded` | src/app/api/place-order/route.ts:89-99 | an empty cart is not rejected: the order goes upstream with no line items |
| `PlaceOrder.CouponWithoutBillingIsServerError` | src/app/api/place-order/route.ts:73-128 | a coupon with null/undefined billing answers 500, not the 400 of the required-field check |
| `PlaceOrder.MissingBillingWithoutCouponIsRejected` | src/app/api/place-order/route.ts:89-99 | without a coupon, a falsy billing answers 400 and nothing is sent upstream |
| `PlaceOrder.ColorRedExample` | src/app/api/place-order/route.ts:47-57 | the custom field Color = Red gives three entries, the third being `{ key: "Color", value: "Red" }` |
| `Shipping.MatchDigitsIff` | src/components/checkout/left-pane/ShippingForm.tsx:21-22 | the pattern `^\d{lo,hi}$` accepts exactly the strings of lo to hi characters, all decimal digits |
| `Shipping.PostcodeValid` | src/components/checkout/left-pane/ShippingForm.tsx:21 | a postcode is valid iff it is exactly 5 decimal digits |
| `Shipping.PhoneValid` | src/components/checkout/left-pane/ShippingForm.tsx:22 | a phone number is valid iff it is 10 to 15 decimal digits |
| `Shipping.ValidationErrors` | src/components/checkout/left-pane/ShippingForm.tsx:12-23 | each field is reported iff its check fails: first and last name at least 1, address at least 5, city at least 2 and state (null read as "") at least 2 UTF-16 code units; postcode 5 digits, phone 10–15 digits; no field is reported twice |
| `Shipping.OneEmojiCityAccepted` | src/components/checkout/left-pane/ShippingForm.tsx:16 | a city of one emoji is accepted, because its JavaScript length is 2 |
| `Shipping.NullStateRejected` | src/components/checkout/left-pane/ShippingForm.tsx:17-20 | a null state is always reported |
| `Shipping.FormData` | src/components/checkout/left-pane/ShippingForm.tsx:12-26 | the parsed data holds exactly the seven schema fields, each with the form's value, the state preprocessed |
| `Shipping.Merge` | src/components/checkout/left-pane/ShippingForm.tsx:68-71 | the form's fields overwrite; every other stored field is kept |
| `Shipping.HasFirstName` | src/components/checkout/left-pane/ShippingForm.tsx:43 | a first name is stored iff reading `first_name` from the stored address object gives a truthy value |
| `Shipping.MergedFormHasFirstName` | src/components/checkout/left-pane/ShippingForm.tsx:42-72 | after a valid form is merged in, a first name is stored, so the section would open in DISPLAY |
| `Shipping.CheckoutStore.SetShipping` | src/components/checkout/left-pane/ShippingForm.tsx:72 | (assumed store behaviour) the shipping slice becomes the given address; billing and both flags are unchanged |
| `Shipping.CheckoutStore.SetBilling` | src/components/checkout/left-pane/ShippingForm.tsx:75-76 | (assumed store behaviour) the billing slice becomes the given address; shipping and both flags are unchanged |
| `Shipping.CheckoutStore.SetBillingSameAsShipping` | src/components/checkout/left-pane/ShippingForm.tsx:91 | (assumed store behaviour) the checkbox flag becomes the given value; the addresses and the editing flag are unchanged |
| `Shipping.CheckoutStore.SetIsAnyBlockEditing` | src/components/checkout/left-pane/ShippingForm.tsx:85 | (assumed store behaviour) the store-wide editing flag becomes the given value; the addresses and the checkbox flag are unchanged |
| `Shipping.ShippingForm.constructor` | src/components/checkout/left-pane/ShippingForm.tsx:42-44 | the section starts in EDITING iff no first name is stored |
| `Shipping.ShippingForm.OnSubmit` | src/components/checkout/left-pane/ShippingForm.tsx:66-86 | shipping becomes the merged address; billing becomes that same address iff billing-same-as-shipping holds, else it is unchanged; the section and the store-wide flag leave editing; billing mirrors shipping afterwards |
| `Shipping.ShippingForm.HandleSubmit` | src/components/checkout/left-pane/ShippingForm.tsx:132-136 | an invalid form reports its failing fields, stays in EDITING and changes nothing in the store; a valid one is committed as `OnSubmit` says |
| `Shipping.ShippingForm.Edit` | src/components/checkout/left-pane/ShippingForm.tsx:305-309 | back to EDITING with the store-wide editing flag raised; addresses and checkbox untouched |
| `Shipping.ShippingForm.HandleCheckboxChange` | src/components/checkout/left-pane/ShippingForm.tsx:89-96 | the checkbox value is stored; checking copies the stored shipping into billing, unchecking leaves billing as it was; billing mirrors shipping afterwards |
| `Decimal.NatToString` | src/components/cart/CartSlide.tsx:121 | the text of an id is non-empty, all digits, starts with '0' only for 0, and is "0" for 0 |
| `Decimal.FromDigitsOfNatToString` | src/components/cart/CartSlide.tsx:121 | the text of an id reads back as the id |
| `Cart.RowKey` | src/components/cart/CartSlide.tsx:121 | the key has a dash with the id's digits before it and the variation id's digits after it, each reading back as its number |
| `Cart.RowKeyIdentifiesRow` | src/components/cart/CartSlide.tsx:121 | rows with the same React key `${id}-${variation_id}` have the same (id, variation id) pair |
| `Cart.Dispatch` | src/components/cart/CartSlide.tsx:31-44 | "increase" always increments; "decrease" removes iff the quantity is exactly 1, and decrements otherwise |
| `Cart.DispatchKeepsWellFormed` | src/components/cart/CartSlide.tsx:31-44 | on a row of a cart with unique keys and positive quantities, either button keeps both properties, so no zero-quantity row appears |
| `Cart.DecreaseAtOneRemovesRow` | src/components/cart/CartSlide.tsx:38-39 | "decrease" at quantity 1 leaves no row with that key and one row fewer |
| `Cart.HandleQuantityChange` | src/components/cart/CartSlide.tsx:31-44 | the store receives exactly the dispatched operation; a well-formed cart stays well formed |
| `Cart.HandleRemoveCartItem` | src/components/cart/CartSlide.tsx:62-67 | the row is removed; navigation to the shop is requested iff the shown cart had one row |
| `Cart.RedirectIffCartEmptied` | src/components/cart/CartSlide.tsx:62-67 | for a row of a cart with unique keys, navigation is requested iff the removal empties the cart |
| `Cart.CartStore.IncreaseCartQuantity` | src/components/cart/CartSlide.tsx:36 | (assumed store behaviour) the row with the item's key gains one, nothing else changes |
| `Cart.CartStore.DecreaseCartQuantity` | src/components/cart/CartSlide.tsx:41 | (assumed store behaviour) the row with the item's key loses one, nothing else changes |
| `Cart.CartStore.RemoveCartItem` | src/components/cart/CartSlide.tsx:39 | (assumed store behaviour) the rows with the item's key are removed, the rest kept in order |
| `Cart.ShownValues` | src/components/cart/CartSlide.tsx:137-139 | the shown values are the variation values other than "Unknown": none is "Unknown", each non-"Unknown" value appears, each comes from a descriptor |
| `Cart.ShownValuesAppend` | src/components/cart/CartSlide.tsx:137-139 | the filter distributes over concatenation, so descriptor order is kept |
| `Cart.Join` | src/components/cart/CartSlide.tsx:140 | joining nothing gives "", one part gives that part |
| `Cart.JoinSnoc` | src/components/cart/CartSlide.tsx:140 | joining one more part appends the separator and the part |
| `Cart.VariationLabel` | src/components/cart/CartSlide.tsx:137-140 | all-"Unknown" descriptors give an empty label; a single shown value is the label |
| `Cart.VariationLabelExample` | src/components/cart/CartSlide.tsx:137-140 | Red, Unknown, Slim is labelled "Red · Slim" |
| `Cart.CategoryNames` | src/components/cart/CartSlide.tsx:143-144 | every category name, in order |
| `Cart.CategoryLabel` | src/components/cart/CartSlide.tsx:143-145 | no categories give "", one gives its name |
| `Cart.CategoryLabelSnoc` | src/components/cart/CartSlide.tsx:143-145 | one more category appends " · " and its name |
| `Cart.LinkHref` | src/components/cart/CartSlide.tsx:200-211 | the Checkout and Cart Page links target "/checkout" and "/cart" iff the cart is non-empty, and "#" iff it is empty |
| `Cart.LastRemovalDisablesLinks` | src/components/cart/CartSlide.tsx:200-211 | removing the last row of the cart turns both links into "#" |

## Left out

- Request parsing, the credentials URL, the `fetch` to WooCommerce, relaying the upstream status and error body, and the 201 answer are I/O (route.ts:1-26, 100-122). The model stops at the body that would be sent. `GET`'s 405 and the `console.log` calls are left out for the same reason.
- The catch-all 500 is modelled for two of the throws the body construction can raise: a cost that is not a number (route.ts:70), and a coupon with null/undefined billing (route.ts:77). The throws of a malformed body are not modelled: a missing or non-array `cartItems` (route.ts:33), a null or undefined cart item (route.ts:35), and a null or undefined custom field (route.ts:37). Request parsing itself is I/O.
- JavaScript numbers are modelled as integers; NaN (falsy) and fractional ids or quantities are not modelled.
- `PlaceOrder.FormatFixed2`: the cost is an integer number of cents, not a floating-point number, so float rounding in `toFixed(2)` is not modelled. Neither is its exponential notation for magnitudes of 10^21 or more.
- `PlaceOrder.OrderItem`: a missing or falsy `customFields` is modelled. A truthy `customFields` that is not an array (which would throw) is not, and neither is a non-string name or value.
- `JsValues.Member`: property reads model only keys that are not built-in properties of primitives, arrays or objects. This is enough for "email" and "code", the only keys read.
- react-hook-form and zod internals are not modelled: the resolver, the `reset` effect (ShippingForm.tsx:61-63), the error message texts, and `undefined` vs `null` for the state. Both fail the state check. The model reports which fields fail and that `onSubmit` runs only on schema-valid data. The form's values are an input to `HandleSubmit`.
- The dynamically imported `StateSelector`, the headlessui `Dialog`, `setIsCartOpen`, `goBackToShop`, and all rendering and styling are presentation.
- `trackAddShippingInfo` (ShippingForm.tsx:80) is fire-and-forget analytics with no effect on state.
- `router.push` (CartSlide.tsx:65, 70): only the decision to navigate is modelled.
- `Cart.RowKey`: a cart row without a variation id is not modelled (`variationId` is a `nat`). For such a row the React key is `"<id>-undefined"` (CartSlide.tsx:121), and the route sends `variation_id` 0 (route.ts:45).
- The cart store (`@/store/useCartStore`) is not modelled. That includes `subtotal()`, prices, and adding items. The bodies of `Cart.CartStore.IncreaseCartQuantity`, `Cart.CartStore.DecreaseCartQuantity` and `Cart.CartStore.RemoveCartItem` are assumed.
- The checkout store (`@/store/useCheckoutStore`) is not modelled. `Shipping.CheckoutStore`'s setters are assumed to replace their slice wholesale.
- Other components that write the checkout store (the billing and payment sections) are not modelled. So "billing mirrors shipping" is proved for the shipping section's own actions only.
- src/components/shop/product-page/ProductShortDescription.tsx and src/app/(public)/search/SearchPageContent.tsx are presentation and are not part of this model.

# gearstore — a Dafny model of the storefront core

gearstore sells football gear. It has two halves:

- a Next.js storefront (`ag-gearstore`);
- a Django REST backend (`gearstore_backend`), which checks stock and starts and verifies Paystack payments.

This project models the logic of both halves, one Dafny module per source file.

Storefront modules:

- `Cart`: the cart context. The lines are keyed by variant and persisted to `localStorage`. The module covers add, merge, remove, update and clear, and the total and item count.
- `CartPage`, `CartIcon`, `ProductCard`, `Shop`, `Carousel`, `Toaster`: the pages and components built on the cart and the product list.
- `Checkout`: the checkout page. It covers delivery zones and fees, form validation, and the request that starts a payment.
- `Callback`: the payment callback page.
- `Api`, `Auth`, `Currency`: the client libraries. `Api` builds headers, error messages, query strings and checkout calls. `Auth` covers login, register, logout and the token.
- `Browser`: the `localStorage` object the storefront shares.

Backend modules:

- `StoreViews` (`store/views.py`):
  - the permission rule;
  - the product and variant querysets;
  - cart-item validation;
  - guest and authenticated checkout, with the order total and loyalty points.
- `Paystack` (`store/payment.py`):
  - the initialize payload;
  - the kobo conversion;
  - the result dictionaries on success and failure;
  - the payment reference.
- `PaymentViews` (`store/views_payment.py`):
  - payment initialization: validation, naira pricing, metadata and the gateway outcome;
  - payment verification;
  - the webhook.

Modelling choices:

- **Shared state is a Dafny `class`.** This covers the cart, `localStorage`, the toast queue, each page component and the carousel. React state setters are field assignments. An effect that depends on the cart (saving it after every change) runs at the end of the method that changed the cart.
- **Pure helpers are functions**, with lemmas about them.
- **Outside effects are parameters.** The network, timers, `Math.random`, `uuid4`, `toLocaleString`, `parseFloat` and URL encoding are all passed in. A fetch becomes an outcome datatype: an answer with a status and a decoded body, or a thrown error. The model returns the request that would be sent.
- **Decoded JSON** in the backend is the `Paystack.Json` datatype, and Python truthiness is `PyTruthy`.
- **Numbers:**
  - Prices are `real`.
  - `int(x)` and Python's `Decimal` `//` truncate toward zero (`Base.Trunc`).
  - JavaScript numbers are not modelled as floating point.

## Model

| member | source | states |
|---|---|---|
| Cart.IndexOf | ag-gearstore/src/contexts/CartContext.tsx:52 | -1 exactly when no line has the variant, otherwise the index of the first line that has it |
| Cart.WithQuantity | ag-gearstore/src/contexts/CartContext.tsx:76-80 | the lines in the same order; the line of that variant gets the new quantity and every other line is unchanged |
| Cart.WithoutMembers | ag-gearstore/src/contexts/CartContext.tsx:66-68 | the filtered cart holds exactly the lines of other variants |
| Cart.AddExistingMerges | ag-gearstore/src/contexts/CartContext.tsx:53-58 | adding a variant already in the cart raises that line's quantity and keeps its price and position; the length and other lines are unchanged |
| Cart.AddAbsentAppends | ag-gearstore/src/contexts/CartContext.tsx:59-62 | adding a new variant appends exactly one line with the given fields |
| Cart.AddTwiceKeepsFirstPrice | ag-gearstore/src/contexts/CartContext.tsx:50-63 | adding a variant twice gives one line with the summed quantity and the price of the first add |
| Cart.WithoutAbsentIsIdentity | ag-gearstore/src/contexts/CartContext.tsx:67 | removing a variant that is not in the cart leaves the cart unchanged |
| Cart.RemoveNoOpIffAbsent | ag-gearstore/src/contexts/CartContext.tsx:66-68 | removal leaves the cart unchanged if and only if the variant is absent |
| Cart.RemoveShrinks | ag-gearstore/src/contexts/CartContext.tsx:66-68 | removing a present variant makes the cart strictly shorter |
| Cart.WithoutAppend | ag-gearstore/src/contexts/CartContext.tsx:67 | the filter distributes over concatenation |
| Cart.RemoveKeepsOthersInOrder | ag-gearstore/src/contexts/CartContext.tsx:66-68 | removing the line at i of a cart with distinct variants gives the cart with just that line cut out, the others in order |
| Cart.AddThenRemoveRestores | ag-gearstore/src/contexts/CartContext.tsx:50-68 | adding a new variant and then removing it gives back the original cart |
| Cart.UpdateQuantityCases | ag-gearstore/src/contexts/CartContext.tsx:70-81 | a quantity of 0 or less removes the variant; a positive quantity sets it on that variant's line and changes nothing else |
| Cart.AddPreservesUnique | ag-gearstore/src/contexts/CartContext.tsx:50-64 | adding keeps the variant ids of the lines distinct |
| Cart.RemovePreservesUnique | ag-gearstore/src/contexts/CartContext.tsx:66-68 | removing keeps the variant ids distinct |
| Cart.UpdatePreservesUnique | ag-gearstore/src/contexts/CartContext.tsx:70-81 | updating a quantity keeps the variant ids distinct |
| Cart.TotalAppend | ag-gearstore/src/contexts/CartContext.tsx:87-89 | the total of a concatenation is the sum of the totals |
| Cart.ItemCountAppend | ag-gearstore/src/contexts/CartContext.tsx:91-93 | the item count of a concatenation is the sum of the counts |
| Cart.AddAbsentTotals | ag-gearstore/src/contexts/CartContext.tsx:59-62 | appending a new line raises the total by price × quantity and the item count by quantity |
| Cart.AddExistingTotals | ag-gearstore/src/contexts/CartContext.tsx:53-58 | merging into an existing line raises the total by that line's price × the added quantity and the count by the added quantity |
| Cart.ReplaceAtTotals | ag-gearstore/src/contexts/CartContext.tsx:87-93 | raising one line's quantity by q changes the total by its price × q and the count by q |
| Cart.ReplaceTotal | ag-gearstore/src/contexts/CartContext.tsx:87-89 | replacing one line changes the total by the difference of the two line totals |
| Cart.ReplaceCount | ag-gearstore/src/contexts/CartContext.tsx:91-93 | replacing one line changes the count by the difference of the two quantities |
| Cart.EmptyCartTotals | ag-gearstore/src/contexts/CartContext.tsx:83-93 | an empty cart has total 0 and item count 0 |
| Cart.ItemCountAtLeastLines | ag-gearstore/src/contexts/CartContext.tsx:91-93 | when every quantity is at least 1, the item count is at least the number of lines |
| Cart.RehydrateSaved | ag-gearstore/src/contexts/CartContext.tsx:31-48 | a list whose own encoding is non-empty and parses back (the round trip is assumed per list, not for every list of real prices) loads from that encoding as the same list |
| Cart.RehydrateFailsOpen | ag-gearstore/src/contexts/CartContext.tsx:31-41 | no saved entry, or one that does not parse, loads as an empty cart |
| Cart.SyncedReloads | ag-gearstore/src/contexts/CartContext.tsx:31-48 | what an initialized, synced store holds under "cart" reloads as its lines, for a list that round-trips |
| Cart.Reload | ag-gearstore/src/contexts/CartContext.tsx:27-48 | a new provider over the same storage, once its load effect has run, holds the old store's lines, is initialized and synced, and storage is unchanged |
| Cart.CartStore.constructor | ag-gearstore/src/contexts/CartContext.tsx:27-28 | starts empty and not initialized |
| Cart.CartStore.Persist | ag-gearstore/src/contexts/CartContext.tsx:44-48 | once initialized, writes the encoded lines under "cart" and changes no other key; before that, writes nothing |
| Cart.CartStore.Load | ag-gearstore/src/contexts/CartContext.tsx:31-41 | loads the saved lines when they parse (and keeps the current lines otherwise), marks the store initialized, and writes the loaded lines back |
| Cart.CartStore.AddItem | ag-gearstore/src/contexts/CartContext.tsx:50-64 | the new lines are the add specification of the old ones, and storage stays in sync |
| Cart.CartStore.FindIndex | ag-gearstore/src/contexts/CartContext.tsx:52 | the loop returns the first index holding the variant, or -1 when there is none |
| Cart.CartStore.RemoveItem | ag-gearstore/src/contexts/CartContext.tsx:66-68 | the new lines are the old ones without that variant, and storage stays in sync |
| Cart.CartStore.UpdateQuantity | ag-gearstore/src/contexts/CartContext.tsx:70-81 | removes the variant for a quantity of 0 or less and sets the quantity otherwise; storage stays in sync |
| Cart.CartStore.ClearCart | ag-gearstore/src/contexts/CartContext.tsx:83-85 | empties the lines, and storage stays in sync |
| Currency.ConvertToNaira | ag-gearstore/src/lib/currency.ts:9-11 | the naira amount divided by the fixed rate gives back the dollar amount |
| Currency.ConvertAdditive | ag-gearstore/src/lib/currency.ts:9-11 | converting a sum is the sum of the conversions |
| Currency.ConvertMonotone | ag-gearstore/src/lib/currency.ts:9-11 | the conversion keeps order in both directions and maps 0 to 0 |
| Currency.FormatNaira | ag-gearstore/src/lib/currency.ts:13-15 | the naira sign followed by the locale rendering of the amount |
| Currency.FormatPriceInNaira | ag-gearstore/src/lib/currency.ts:4-7 | formats the converted amount |
| CartIcon.BadgeRules | ag-gearstore/src/components/CartIcon.tsx:17-20 | a badge shows if and only if the count is positive; it reads "9+" if and only if the count is above 9, and otherwise it is the count's digit |
| CartIcon.BadgeOfCart | ag-gearstore/src/components/CartIcon.tsx:17-20 | a cart with any line shows a badge, and one with ten lines or more shows "9+" |
| Toaster.WithoutToastMembers | ag-gearstore/src/components/Toaster.tsx:25 | the dismiss filter keeps exactly the toasts with another id |
| Toaster.WithoutToastAppend | ag-gearstore/src/components/Toaster.tsx:25 | the dismiss filter distributes over concatenation |
| Toaster.WithoutAbsentToast | ag-gearstore/src/components/Toaster.tsx:25 | dismissing an id not in the queue leaves it unchanged |
| Toaster.WithoutListenerMembers | ag-gearstore/src/components/Toaster.tsx:38 | unsubscribing keeps exactly the other listeners |
| Toaster.ToastHub.constructor | ag-gearstore/src/components/Toaster.tsx:13-14 | the queue and the listeners start empty |
| Toaster.ToastHub.Notify | ag-gearstore/src/components/Toaster.tsx:21 | every subscribed listener has received the current queue; other listeners are untouched |
| Toaster.ToastHub.Enqueue | ag-gearstore/src/components/Toaster.tsx:16-30 | appends one toast with the given id and fields, tells every subscribed listener, leaves what unsubscribed listeners were last given unchanged, and returns the id |
| Toaster.ToastHub.Dismiss | ag-gearstore/src/components/Toaster.tsx:24-27 | removes exactly the toasts with that id; an absent id changes nothing; every subscribed listener is told, and what unsubscribed listeners were last given is unchanged |
| Toaster.ToastHub.Subscribe | ag-gearstore/src/components/Toaster.tsx:36 | appends the listener |
| Toaster.ToastHub.Unsubscribe | ag-gearstore/src/components/Toaster.tsx:37-39 | removes exactly that listener |
| Toaster.EnqueueThenDismissRestores | ag-gearstore/src/components/Toaster.tsx:16-27 | showing a toast with a fresh id and dismissing it gives back the queue |
| ProductCard.InStockMembers | ag-gearstore/src/components/ProductCard.tsx:27 | the filter keeps exactly the variants with positive stock |
| ProductCard.InStockAppend | ag-gearstore/src/components/ProductCard.tsx:27 | the stock filter distributes over concatenation |
| ProductCard.AvailableRules | ag-gearstore/src/components/ProductCard.tsx:27 | no variants means none available; otherwise exactly the variants in stock |
| ProductCard.FindSize | ag-gearstore/src/components/ProductCard.tsx:52 | finds an available variant of that size, or none if and only if no variant has it |
| ProductCard.ChooseRules | ag-gearstore/src/components/ProductCard.tsx:51-53 | with a size selected, picks the first variant of that size or none; otherwise picks the first available variant |
| ProductCard.StockLabelRules | ag-gearstore/src/components/ProductCard.tsx:105-106 | "In Stock" exactly above 10, "Sold Out" exactly at 0 or less, and in between the count (read back from its digits) followed by " left" |
| ProductCard.ProductCardView.constructor | ag-gearstore/src/components/ProductCard.tsx:22-23 | the dialog is closed and no size is selected |
| ProductCard.ProductCardView.Open | ag-gearstore/src/components/ProductCard.tsx:111-121 | the button opens the dialog only when a variant is available |
| ProductCard.ProductCardView.SelectSize | ag-gearstore/src/components/ProductCard.tsx:154 | records the selected size |
| ProductCard.ProductCardView.Close | ag-gearstore/src/components/ProductCard.tsx:169-173 | closes the dialog and clears the size |
| ProductCard.ProductCardView.QuickAdd | ag-gearstore/src/components/ProductCard.tsx:48-75 | with nothing available, nothing changes (cart, storage, toasts, listeners, dialog); with the size not found, only a "select a size" error toast is shown and cart and storage are unchanged; otherwise adds the chosen in-stock variant with quantity 1 at its parsed price, keeps storage in sync, shows a success toast and closes the dialog; both toasts keep the listeners, inform each of them and leave what unsubscribed listeners were last given unchanged; the cart's initialized flag is kept in every case, and after an add storage gets exactly the new "cart" entry once initialized and nothing otherwise |
| Shop.TeamsMembers | ag-gearstore/src/app/shop/page.tsx:25 | the team choices are exactly the non-empty teams, without duplicates |
| Shop.TeamsInFirstOccurrenceOrder | ag-gearstore/src/app/shop/page.tsx:25 | the choices come in the order of each team's first occurrence |
| Shop.FilterFromChoice | ag-gearstore/src/app/shop/page.tsx:51-53 | "all" clears the filter, and any other value becomes the filter |
| Shop.ChoiceFromFilter | ag-gearstore/src/app/shop/page.tsx:90 | an empty filter shows as "all" |
| Shop.FilterChoiceRoundTrip | ag-gearstore/src/app/shop/page.tsx:51-90 | choosing a value and reading the select back gives the value again, for every value except "" |
| Shop.ShopQueryParams | ag-gearstore/src/app/shop/page.tsx:31-45 | the URL gets team, then search, each only when non-empty, and never a price bound |
| Shop.CountLabelPlural | ag-gearstore/src/app/shop/page.tsx:132 | the label starts with the number and ends in "s" if and only if the number is not 1 |
| Shop.ShopPage.constructor | ag-gearstore/src/app/shop/page.tsx:16-20 | no products, loading, and no error, search or filter |
| Shop.ShopPage.LoadProducts | ag-gearstore/src/app/shop/page.tsx:31-45 | sends the current filter and search; success replaces the list; failure keeps it and shows the error's message or the fallback; loading ends |
| Shop.ShopPage.HandleSearchChange | ag-gearstore/src/app/shop/page.tsx:47-49 | sets the search; the filter, products, loading flag and error are unchanged |
| Shop.ShopPage.HandleTeamFilterChange | ag-gearstore/src/app/shop/page.tsx:51-53 | sets the filter from the choice, and the select shows the choice back; search, products, loading flag and error are unchanged |
| Carousel.Next | ag-gearstore/src/components/HeroCarousel.tsx:36-39 | the next index is always a valid slide |
| Carousel.ThreeTicksReturn | ag-gearstore/src/components/HeroCarousel.tsx:36-39 | three ticks return to the same slide, and one tick always moves |
| Carousel.HeroCarousel.constructor | ag-gearstore/src/components/HeroCarousel.tsx:34 | starts on the first slide |
| Carousel.HeroCarousel.Tick | ag-gearstore/src/components/HeroCarousel.tsx:36-39 | advances cyclically, wraps from the last slide to the first, and stays in range |
| Carousel.HeroCarousel.GoToSlide | ag-gearstore/src/components/HeroCarousel.tsx:44-46 | shows the chosen slide |
| CartPage.RenderRules | ag-gearstore/src/app/cart/page.tsx:16-36 | the empty view appears if and only if the cart has no lines; otherwise subtotal and total are the same naira amount, the dollar total times the rate, with no shipping added |
| CartPage.AddRaisesTotal | ag-gearstore/src/app/cart/page.tsx:157-168 | adding a new line raises the shown total by that line's total |
| CartPage.Minus | ag-gearstore/src/app/cart/page.tsx:114-116 | at quantity 1 or less neither the lines nor storage change; above it, the quantity drops by one and the line stays in place; the initialized flag is kept; once initialized, storage gets exactly the new "cart" entry and every other key is kept, and before that nothing is written |
| CartPage.LowerKeepsLine | ag-gearstore/src/app/cart/page.tsx:114-116 | lowering a quantity above 1 keeps the number of lines and lowers that line by one |
| CartPage.Plus | ag-gearstore/src/app/cart/page.tsx:126 | raises that line's quantity by one and keeps the lines; storage is synced; the initialized flag is kept; once initialized, storage gets exactly the new "cart" entry and every other key is kept, and before that nothing is written |
| CartPage.Trash | ag-gearstore/src/app/cart/page.tsx:104 | removes that line's variant, so the cart shrinks and no line of it remains; storage is synced; the initialized flag is kept; once initialized, storage gets exactly the new "cart" entry and every other key is kept, and before that nothing is written |
| CartPage.Clear | ag-gearstore/src/app/cart/page.tsx:50 | empties the cart and the page shows the empty view; storage is synced; the initialized flag is kept; once initialized, storage gets exactly the new "cart" entry and every other key is kept, and before that nothing is written |
| Api.DefaultHeaders | ag-gearstore/src/lib/api.ts:44-49 | JSON content type first, and an Authorization header with "Bearer " and the token if and only if the token is truthy |
| Api.FetchInit | ag-gearstore/src/lib/api.ts:45-51 | caller headers replace the defaults entirely; method and body come from the caller |
| Api.HttpErrorMessage | ag-gearstore/src/lib/api.ts:53-55 | `detail` if truthy, else `error` if truthy, else a message naming the status; never empty |
| Api.HttpFallbackNamesStatus | ag-gearstore/src/lib/api.ts:53-55 | the fallback message is "HTTP " followed by the status in decimal, which reads back as the status |
| Api.ApiRequest | ag-gearstore/src/lib/api.ts:42-65 | success exactly for an ok answer with a body; an HTTP error message for a non-ok answer; the network message for everything else |
| Api.SelectedAreTruthy | ag-gearstore/src/lib/api.ts:68-73 | every appended parameter has a truthy value |
| Api.SelectedAreComplete | ag-gearstore/src/lib/api.ts:68-73 | every truthy parameter is appended |
| Api.SelectedAreOrdered | ag-gearstore/src/lib/api.ts:68-73 | parameters come in the fixed order team, search, price_min, price_max |
| Api.SearchParams | ag-gearstore/src/lib/api.ts:68-73 | the four conditional appends give exactly the truthy parameters, in the fixed order, each once |
| Api.QueryString | ag-gearstore/src/lib/api.ts:75 | the query is empty if and only if there are no parameters |
| Api.ProductsListPath | ag-gearstore/src/lib/api.ts:75-76 | a "?" and the query only when there are parameters |
| Api.ProductDetailPath | ag-gearstore/src/lib/api.ts:79-81 | the products path, the decimal id, then "/" |
| Api.CheckoutCall | ag-gearstore/src/lib/api.ts:88-107 | POST to the authenticated or the guest checkout path, carrying the lines unchanged |
| Auth.First | ag-gearstore/src/lib/auth.ts:54 | the first message when the list exists and is non-empty |
| Auth.RegisterFailureOrder | ag-gearstore/src/lib/auth.ts:54 | the first username error, else the first email error, else "Registration failed" |
| Auth.Login | ag-gearstore/src/lib/auth.ts:23-41 | on success stores both tokens and returns them; on rejection the error is `detail` or "Invalid credentials" and storage is unchanged |
| Auth.Register | ag-gearstore/src/lib/auth.ts:43-59 | sends the registration; on rejection fails with the chosen message; on success logs in with the same username and password, storing the tokens on success and otherwise failing with exactly `login`'s error (`detail` or "Invalid credentials", or the network reason) |
| Auth.Logout | ag-gearstore/src/lib/auth.ts:61-64 | removes exactly the two token keys, and the user is no longer authenticated |
| Auth.GetToken | ag-gearstore/src/lib/auth.ts:66-69 | none without a window; otherwise the stored access token, if any |
| Auth.AuthenticatedIffToken | ag-gearstore/src/lib/auth.ts:71-73 | authenticated if and only if a window exists and a non-empty access token is stored |
| Auth.LogoutIdempotent | ag-gearstore/src/lib/auth.ts:61-64 | logging out twice equals logging out once, and other keys are kept |
| Checkout.ZoneFeeZeroIffUnlisted | ag-gearstore/src/app/checkout/page.tsx:104-107 | with positive fees, the looked-up fee is 0 if and only if the zone is not listed; a listed zone gets its own fee |
| Checkout.DeliveryFeeZeroIffUnlisted | ag-gearstore/src/app/checkout/page.tsx:20-28 | the fee is 0 exactly for unlisted zones, including no zone |
| Checkout.ListedZoneFees | ag-gearstore/src/app/checkout/page.tsx:20-28 | every listed zone gets its fee (for example Lagos Mainland 2000 and Other 4500) |
| Checkout.ProceedNeedsListedZone | ag-gearstore/src/app/checkout/page.tsx:460 | the pay button is enabled if and only if nothing is loading and the zone is listed |
| Checkout.Form.With | ag-gearstore/src/app/checkout/page.tsx:109-115 | sets one field and keeps every other field |
| Checkout.EmailShapeRejects | ag-gearstore/src/app/checkout/page.tsx:122-126 | the email check rejects whitespace, a missing "@", a second "@", and no "." after the "@" (such as "a@b") |
| Checkout.EmailShapeIntro | ag-gearstore/src/app/checkout/page.tsx:122-126 | local@domain.last passes when each part is non-empty and has no whitespace or "@" |
| Checkout.StripPhone | ag-gearstore/src/app/checkout/page.tsx:127-131 | the stripped number has no whitespace or "-" |
| Checkout.StripPhoneAppend | ag-gearstore/src/app/checkout/page.tsx:127-131 | stripping distributes over concatenation |
| Checkout.StripPhoneKeepsDigits | ag-gearstore/src/app/checkout/page.tsx:127-131 | a run of digits is left as it is |
| Checkout.PhoneShapeRules | ag-gearstore/src/app/checkout/page.tsx:127-131 | a run of digits passes if and only if it has 10 or 11 digits; a "-" or whitespace separator never changes the verdict |
| Checkout.ValidateRequired | ag-gearstore/src/app/checkout/page.tsx:117-139 | a required field has an error if and only if it is blank, and the error is that field's message |
| Checkout.ValidateEmail | ag-gearstore/src/app/checkout/page.tsx:122-126 | blank gives "Email is required"; a bad shape gives the invalid message; no error if and only if the shape passes |
| Checkout.ValidatePhone | ag-gearstore/src/app/checkout/page.tsx:127-131 | blank gives "Phone number is required"; a bad shape gives the invalid message; no error if and only if the shape passes |
| Checkout.ValidateZoneAndExtra | ag-gearstore/src/app/checkout/page.tsx:135 | a zone error if and only if no zone is chosen; additional info never errs |
| Checkout.CompleteMeans | ag-gearstore/src/app/checkout/page.tsx:117-139 | a complete form means the required fields are not blank, the email and phone pass, and a zone is chosen |
| Checkout.FieldRule | ag-gearstore/src/app/checkout/page.tsx:117-139 | each field errs if and only if it breaks its own rule |
| Checkout.NoErrorsIff | ag-gearstore/src/app/checkout/page.tsx:117-139 | the error map is empty if and only if no field errs |
| Checkout.ValidIffComplete | ag-gearstore/src/app/checkout/page.tsx:117-139 | validation passes if and only if the form is complete |
| Checkout.UnlistedZonePassesValidation | ag-gearstore/src/app/checkout/page.tsx:135 | a complete form with an unlisted zone validates with fee 0, but the pay button stays disabled |
| Checkout.CartLines | ag-gearstore/src/app/checkout/page.tsx:156-159 | one checkout line per cart line |
| Checkout.CartLinesInOrder | ag-gearstore/src/app/checkout/page.tsx:156-159 | line i carries the variant and quantity of cart line i |
| Checkout.CustomerInfoOf | ag-gearstore/src/app/checkout/page.tsx:184-193 | `customer_info` holds each form field except the email under its own key, and has no email key |
| Checkout.CustomerInfoOmitsEmail | ag-gearstore/src/app/checkout/page.tsx:184-193 | changing the email never changes `customer_info`, and two forms give the same `customer_info` exactly when they agree on the other eight fields |
| Checkout.CheckoutPage.constructor | ag-gearstore/src/app/checkout/page.tsx:50-62 | an empty form, no errors, not loading, not signed in and fee 0 |
| Checkout.CheckoutPage.Mount | ag-gearstore/src/app/checkout/page.tsx:64-101 | signed in exactly when a non-empty access token is stored; an empty cart is sent back to the cart page; the profile is fetched exactly for a signed-in shopper; nothing else changes |
| Checkout.CheckoutPage.MountAsWritten | ag-gearstore/src/app/checkout/page.tsx:64-66 | the mount effect throws "isAuthenticated is not defined" and never runs its redirect or profile fetch |
| Checkout.CheckoutPage.HandleInputChange | ag-gearstore/src/app/checkout/page.tsx:109-115 | sets the field, clears that field's error if it had one, and recomputes the fee from the zone; the signed-in flag is unchanged |
| Checkout.CheckoutPage.ValidateForm | ag-gearstore/src/app/checkout/page.tsx:117-139 | the errors become the validation map, and the result is true if and only if the form is complete; the signed-in flag is unchanged |
| Checkout.CheckoutPage.HandleCheckout | ag-gearstore/src/app/checkout/page.tsx:142-224 | an empty cart or an invalid form sends nothing and shows a message; otherwise one initialize request with the email, the cart lines, the fee and `customer_info` built from the other eight form fields; a started payment saves the pending order and redirects; otherwise the server or network message is shown; the cart is never changed; the signed-in flag is unchanged |
| Checkout.CheckoutPage.HandleCheckoutAsWritten | ag-gearstore/src/app/checkout/page.tsx:166-174 | the handler on its own: a valid form with a non-empty cart never sends a request or stores `pending_order`, and ends on the network-error message (on the page, the mount effect has thrown first); an invalid form keeps `loading`, and the signed-in flag is unchanged |
| Callback.VerifyPath | ag-gearstore/src/app/payment/callback/page.tsx:35-43 | the verify path with the reference as its last segment |
| Callback.CallbackPage.constructor | ag-gearstore/src/app/payment/callback/page.tsx:16-17 | loading, with the verifying message |
| Callback.CallbackPage.VerifyPayment | ag-gearstore/src/app/payment/callback/page.tsx:25-64 | no reference means failure without a request; a verified answer means success, and the cart is cleared only then; a failed answer shows its message; a thrown error shows the support message |
| StoreViews.PermissionRule | gearstore_backend/store/views.py:31-34 | anonymous users may only list and retrieve; authenticated users may do everything |
| StoreViews.Where | gearstore_backend/store/views.py:36-52 | a queryset filter keeps exactly the matching rows, never more rows |
| StoreViews.WhereWhere | gearstore_backend/store/views.py:42-50 | two chained filters equal one filter on the conjunction |
| StoreViews.WhereSame | gearstore_backend/store/views.py:36-52 | filters with equal conditions give equal querysets |
| StoreViews.WhereAll | gearstore_backend/store/views.py:36-52 | an always-true filter keeps the queryset |
| StoreViews.Refine | gearstore_backend/store/views.py:42-50 | a filter applied only when its parameter is given refines the previous queryset |
| StoreViews.WhereDistinct | gearstore_backend/store/views.py:50 | filtering keeps rows distinct |
| StoreViews.ProductQueryset | gearstore_backend/store/views.py:36-52 | fails (the unhandled validation error, a 500) exactly when a given price bound is not decimal text; otherwise the queryset is exactly the products meeting every given bound and the size-in-stock condition, in order |
| StoreViews.VariantQueryset | gearstore_backend/store/views.py:64-69 | all variants without a product key, otherwise exactly that product's variants |
| StoreViews.ValidateItems | gearstore_backend/store/views.py:87-89 | valid if and only if every item names a known variant with a quantity of at least 1; errors are reported per item |
| StoreViews.FirstShort | gearstore_backend/store/views.py:103-110 | the first line whose stock is below its quantity, or none if and only if no line is short |
| StoreViews.FirstShortIs | gearstore_backend/store/views.py:103-110 | a short line with no short line before it is the one reported |
| StoreViews.OrderTotalAppend | gearstore_backend/store/views.py:137-140 | the total of a concatenation is the sum of the totals |
| StoreViews.OrderTotalBounds | gearstore_backend/store/views.py:137-140 | with non-negative prices the total is non-negative and at least any one line's price × quantity |
| StoreViews.PointsRule | gearstore_backend/store/views.py:143 | one point per whole 10 of the total, and a multiple of 10 gives exactly that many points |
| StoreViews.GuestCheckout | gearstore_backend/store/views.py:97-114 | invalid items give 400 with the errors; a short line gives 400 with its stock message; otherwise 201 with a "guest-" order id |
| StoreViews.AuthenticatedCheckout | gearstore_backend/store/views.py:117-155 | an anonymous caller is refused (401) if and only if not signed in, before any check; otherwise as guest checkout, and on success 201 with an "auth-" order id, the order total and its points |
| Paystack.VerifyUrl | gearstore_backend/store/payment.py:76-96 | the verify endpoint followed by the reference |
| Paystack.KoboRules | gearstore_backend/store/payment.py:41 | whole naira convert exactly; a non-negative amount loses less than one kobo; order is kept |
| Paystack.AmountInKobo | gearstore_backend/store/payment.py:129-131 | truncates toward zero, within one kobo of amount × 100 |
| Paystack.BuildPayload | gearstore_backend/store/payment.py:39-47 | the amount in kobo, the other fields unchanged, and metadata only when it is a non-empty dictionary |
| Paystack.InitializeResultRules | gearstore_backend/store/payment.py:24-74 | a decoded answer is returned as it is; an HTTP error whose body is not JSON raises out of the method (decoding inside the `HTTPError` handler is not caught by the sibling handler), and only that input raises; every other failure gives a falsy status and the prefixed message, and "paystack_response" (the decoded body, or None when empty) only for an HTTP error |
| Paystack.VerifyResultRules | gearstore_backend/store/payment.py:76-96 | a decoded answer is returned as it is; a failure gives exactly a falsy status and the prefixed message |
| Paystack.Upper | gearstore_backend/store/payment.py:126 | upper-cases each character in place |
| Paystack.PaymentReferenceRules | gearstore_backend/store/payment.py:123-126 | "AGS-", the order id, "-" and eight upper-case hex digits; the order id can be read back |
| PaymentViews.NairaSubtotalIsConverted | gearstore_backend/store/views_payment.py:93-107 | the naira subtotal is the dollar order total times the rate |
| PaymentViews.ItemsData | gearstore_backend/store/views_payment.py:98-104 | one item record per line, in order |
| PaymentViews.PricedStep | gearstore_backend/store/views_payment.py:93-104 | each record carries the line's name, size, quantity, naira price and subtotal |
| PaymentViews.MetadataKeys | gearstore_backend/store/views_payment.py:116-129 | the metadata always has the order, items, email, customer info and amounts, with the items being the item records and the total given; the user id and name appear exactly for a signed-in user |
| PaymentViews.BuildMetadata | gearstore_backend/store/views_payment.py:116-129 | builds exactly the metadata specification |
| PaymentViews.GatewayOutcomeRules | gearstore_backend/store/views_payment.py:131-164 | for a returned result: 200 exactly when the status is truthy and `data` holds both authorization fields, with the reference, order id and total kept; 400 exactly when the status is falsy; otherwise a 500 whose error is the KeyError text of the first missing key ('data', 'authorization_url', 'access_code') or the TypeError text for a `data` that is not a dictionary; a raised exception is a 500 with its text; a failed request is a 400 carrying the prefixed error text, except an HTTP error whose body is not JSON, which is a 500 with the decoding error's text |
| PaymentViews.PriceLines | gearstore_backend/store/views_payment.py:79-107 | the loop stops at the first short line; otherwise it returns the naira subtotal and the item records |
| PaymentViews.InitializePayment | gearstore_backend/store/views_payment.py:50-164 | no email gives 400; invalid items give 400; a short line gives 400; otherwise one gateway call with total = subtotal + fee in kobo and the new reference, and the reply is the gateway outcome of what the client returned or raised, a 500 carrying `str(e)` of the exception caught |
| PaymentViews.ChargedAmount | gearstore_backend/store/views_payment.py:107-131 | the charged kobo amount is within one kobo of 100 × (subtotal + fee) |
| PaymentViews.VerifyPayment | gearstore_backend/store/views_payment.py:172-216 | asks the verify endpoint for the reference |
| PaymentViews.VerifyDecisionRules | gearstore_backend/store/views_payment.py:172-216 | 200 exactly when the status is truthy, `data` is a non-empty dictionary, its status is "success" and its amount is numeric, and then the amount is the kobo amount over 100; a truthy status with a non-empty `data` dictionary whose status is not "success" is a 400 "Payment <status>" carrying the reference and status, and only such a reply names a status; a falsy status or `data` is a 400 with the gateway's message or the default; a failed request is a 400 with the prefixed error |
| PaymentViews.WebhookRules | gearstore_backend/store/views_payment.py:238-247 | fails with 500 exactly when a charge.success event has no dictionary as data; the reply depends only on the event and the data |
| Base.TrimEmptyIffBlank | ag-gearstore/src/app/checkout/page.tsx:119-121 | `trim()` gives "" if and only if the text is all whitespace |
| Base.NatToStringRoundTrip | ag-gearstore/src/app/shop/page.tsx:132 | the decimal rendering reads back as the number |

## Left out

- The network, `fetch`, timers, `Math.random`, `uuid4`, JSON encoding, URL encoding (`URLSearchParams`), `toLocaleString` and `parseFloat` are parameters or outcome datatypes. Their own behaviour is not modelled.
- Floating point is not modelled. Prices and amounts are exact reals, and Python `Decimal` arithmetic is exact.
- React rendering, animation, routing and the browser history are left out. Only the state and the values the pages show are modelled.
- The escape-key listener of the product dialog (ProductCard.tsx:31-46) is modelled as `Close`; adding and removing the listener is left out.
- The toast auto-dismiss after three seconds is modelled as a separate `Dismiss` call; the timer is not.
- Cart.CartStore.AddItem: the source mutates the existing line object in place (CartContext.tsx:57), before the new array is built. The model replaces the line by value, so sharing of that object is not captured.
- Cart.CartStore.Load: a saved value that parses as JSON but is not an array of cart lines is treated like one that does not parse.
- Checkout.CheckoutPage.Mount: the profile reply that pre-fills the form (checkout/page.tsx:74-97) is not modelled; `Mount` says only whether the fetch is made.
- Callback.CallbackPage.VerifyPayment: "the cart is cleared once" holds per call only. The effect lists `clearCart` among its dependencies (callback/page.tsx:67), and the cart provider makes a new `clearCart` on every render (CartContext.tsx:83-85). So the effect runs again after each provider render: after the provider's own load (CartContext.tsx:40), and after every verified reply, whose `clearCart()` re-renders the provider. Each run sends another verify request and, while the gateway keeps answering "success", clears the cart and `pending_order` again. React's render and effect scheduling is not modelled, so these repeated runs are not captured.
- StoreViews.AuthenticatedCheckout: the refusal is modelled as a 401. The status depends on the authentication classes in the project settings, which are not part of this model; DRF answers 401 for a token scheme such as the access/refresh pair the client stores, and 403 for session authentication.
- Api.QueryString: states only when the query is empty, because encoding is a parameter.
- Api.CheckoutCall: `checkoutApi` types its lines with `product_id` (api.ts:89, 99), but the server's serializer reads `variant_id` (views.py:88). Lines built to that type would be refused with a 400 for the missing field. The model passes the lines through unchanged and does not model the mismatch. The checkout page does not call `checkoutApi`.
- `getCategories` (api.ts:83-85) is a fixed GET path and is not modelled.
- The team filter and the name/description search of the product list (views.py:27-29) are done by library filter backends and are not part of this model.
- The category and variant viewsets' serializer context and `perform_create` (views.py:71-84) are left out; they only save through the ORM.
- `list_transactions` (payment.py:98-120) is not called by any view and is left out.
- StoreViews.ValidateItems: only the rules of the serializer at views.py:87-89 are modelled (known variant, integer quantity of at least 1). Other malformed input is one `Invalid` case per item.
- PaymentViews.GatewayOutcome: the text of the TypeError raised by indexing a `data` that is not a dictionary is a parameter, because Python's wording depends on the value's type and the interpreter version.
- PaymentViews.InitializePayment: a non-string email and a non-numeric `delivery_fee` raise in the source; the model takes the email as optional text and the fee as an optional number.
- StoreViews: `store/models.py:16-31` defines `Product.price` and neither `base_price` nor a `ProductVariant` model, yet views.py:8, 44-50 and 139 and views_payment.py:14 and 93 import or read both, so against that file views.py:8 raises ImportError. The model follows the variant schema the views and `seed_products.py` (lines 26, 80, 94) use: products with `base_price`, variants with size, stock and an optional `price_override`.
- Shop.ShopPage.LoadProducts: each call runs one request to completion. On the page the effect re-runs `loadProducts` on every change of `search` or `teamFilter` (every keystroke), and nothing cancels or orders the requests: a slow reply to an earlier query can land last and leave the list of a stale query, and the first reply to finish turns `loading` off while others are in flight. React's effect scheduling and interleaved replies are not modelled.
- PaymentViews.InitializePayment: `views_payment.py:15` imports `CartItemSerializer` from `store/serializers.py`, which does not define it. The model uses the serializer at views.py:87-89 instead.
- Webhook signature checking is not done by the source and is not modelled.
- The ORM and the database are modelled as sequences and maps of rows.

## Findings

| source | as written | input that shows it | evidently intended | confidence | as-written member | corrected member |
|---|---|---|---|---|---|---|
| ag-gearstore/src/app/checkout/page.tsx:64-66 | the mount effect calls `isAuthenticated()`, which the page never imports (imports at lines 3-14). The call throws a ReferenceError outside any `try` on the first render, before any form exists. The empty-cart redirect and the profile fetch never run, and the uncaught error takes the page down. A type-checked build would already stop on the unknown name | opening the checkout page at all | read the stored token through the auth library, redirect an empty cart, and fetch the profile for a signed-in shopper | not executed | Checkout.CheckoutPage.MountAsWritten | Checkout.CheckoutPage.Mount |
| ag-gearstore/src/app/checkout/page.tsx:166-174 | `handleCheckout` calls `getToken()`, which is not imported either. Taken on its own, the handler throws a ReferenceError inside the `try`, and the `catch` shows the network-error message. On the page as written, a shopper meets the mount failure in the row above first | any complete form with a non-empty cart, given to the handler | build the headers with the stored token and send the initialize request | not executed | Checkout.CheckoutPage.HandleCheckoutAsWritten | Checkout.CheckoutPage.HandleCheckout |

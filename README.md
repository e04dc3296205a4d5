# B-Chillout ordering front end, modelled in Dafny

This project models the decision rules and state changes of the B-Chillout restaurant
front end, a Next.js application. The modelled parts are:

- the checkout form's validator and the order submission, which branches on the payment
  method (Paystack gateway or bank transfer);
- the shared cart store (`CartProvider`), which mirrors the remote cart and keeps a guest
  session id;
- the cart page, the menu page and the landing page's menu preview;
- the admin login and the admin dashboard;
- the transfer-confirmation page and the payment-success page;
- the root layout's header and footer rule, and the navigation bar.

Each page's React state is a class whose fields are its `useState` variables. Each event
handler or effect is a method on that class. Pure rules are functions, with lemmas that
state what the rules mean.

The browser is one shared `Browser` object, defined in the `Web` module. It holds
localStorage as a map. It also logs the requests sent, the navigations
(`window.location.href = …` and `router.push`) and the alerts raised.

Every network answer is a method parameter, in one of two shapes:

- `Response` is used where the handler looks at `response.ok`. It is a 2xx with a parsed
  body, a non-2xx with the error body's `message`, or a rejection. A rejection means the
  request failed or the body the handler reads was not JSON.
- `Reply` is used where the handler parses the body without looking at the status. It is a
  parsed body, or a thrown exception.

Two handlers keep an "in progress" flag across an `await`. These are checkout's
`handleCreateOrder` (the `isSubmitting` flag) and the confirmation page's
`handleConfirmPayment` (the `confirming` flag). Each is modelled as two methods: a start
method sets the flag and sends the request, and a finish method takes the answer and
clears the flag on every path.

The JavaScript built-ins the pages depend on are stated in `JsRuntime`, for the values the
pages give them (strings, whole numbers below 10^21, and absent values that are missing
properties where they are printed):

- `trim` and the `\s` class, with the ECMAScript white-space set;
- `replace(/\D/g, "")` and `replace("#", "")`, which removes the first `#` only;
- `join`, and `split` as its inverse;
- `||` on optional strings, and a template literal printing `undefined`;
- the decimal text of integers, for `Date.now()` in the guest id and `price.toString()`.

The code is followed exactly, including these oddities:

- The dashboard guard redirects to `/admin`, but the login page and the layout list use
  `/Admin`. The layout's match is case-sensitive.
- The cart page's `removeItem` and the checkout both send the fixed user id
  `customer123`, not the cart store's guest id.
- The checkout's `loading` flag is never set, so the submit button is disabled by
  `isSubmitting` alone in practice.
- The confirm-payment button is disabled while `confirming` is set, and reads "Processing..."
  (`Confirmation.Render`).

## Model

| member | source | states |
|---|---|---|
| JsRuntime.Or | src/app/context/CartContext.tsx:111 | `a \|\| fallback` is `a` exactly when `a` is present and non-empty, otherwise the fallback |
| JsRuntime.Interpolate | src/app/cart/page.tsx:54 | a template literal prints a present value as itself and an absent one as "undefined" |
| JsRuntime.TrimStartSpec | src/app/checkout/page.tsx:54 | trimming the start keeps a suffix, removes only white space, and stops at a non-space character |
| JsRuntime.TrimEndSpec | src/app/checkout/page.tsx:54 | trimming the end keeps a prefix, removes only white space, and stops at a non-space character |
| JsRuntime.TrimSpec | src/app/checkout/page.tsx:54 | `trim` returns a contiguous slice with no white space at either end, and everything removed is white space |
| JsRuntime.TrimEmptyIff | src/app/checkout/page.tsx:54 | `!s.trim()` holds exactly when every character of `s` is white space |
| JsRuntime.RemoveNonDigits | src/app/checkout/page.tsx:56 | `replace(/\D/g, "")` yields only ASCII digits and is never longer than its input |
| JsRuntime.RemoveNonDigitsAppend | src/app/checkout/page.tsx:56 | stripping non-digits distributes over concatenation |
| JsRuntime.RemoveNonDigitsLength | src/app/checkout/page.tsx:56 | the stripped length is the number of ASCII digits in the input |
| JsRuntime.RemoveNonDigitsOfDigits | src/app/checkout/page.tsx:56 | a string of digits is left unchanged |
| JsRuntime.RemoveFirst | src/app/component/Header.tsx:63 | `replace("#", "")` deletes exactly one character when a `#` is present, and nothing otherwise |
| JsRuntime.RemoveFirstAt | src/app/component/Header.tsx:63 | the `#` deleted is the first one; what comes before and after it is kept |
| JsRuntime.SplitJoin | src/app/menu/page.tsx:53 | splitting `parts.join(sep)` on `sep` gives back the parts when no part contains `sep` |
| JsRuntime.NatToDecimal | src/app/context/CartContext.tsx:41 | the decimal text of a number is non-empty, all digits, and has no leading zero |
| JsRuntime.ParseNatToDecimal | src/app/context/CartContext.tsx:41 | reading the printed digits back gives the number |
| JsRuntime.NatToDecimalInjective | src/app/context/CartContext.tsx:41 | different numbers print differently |
| JsRuntime.IntToString | src/app/menu/page.tsx:97 | `toString` of an integer is non-empty and starts with '-' exactly for negatives |
| JsRuntime.IntToStringRoundTrip | src/app/menu/page.tsx:97 | the printed integer is an integer literal, and parsing it gives the integer back |
| Web.ApiBase | src/app/context/CartContext.tsx:48-50 | an unset or empty `NEXT_PUBLIC_API_BASE` falls back to the hosted backend; otherwise it is used as is |
| CartContext.QuantitySum | src/app/context/CartContext.tsx:65-68 | a one-line cart counts that line's quantity; with `QuantitySumAppend`, the badge count is the sum of the lines' quantities |
| CartContext.CartTotal | src/app/cart/page.tsx:62-65 | a one-line cart totals that line's price times quantity; with `CartTotalAppend`, the total is the sum over the lines |
| CartContext.FetchedItems | src/app/context/CartContext.tsx:52-79 | the mirror changes only after a 2xx with a session; then it holds exactly the returned lines, or none when `items` is missing |
| CartContext.QuantitySumAppend | src/app/context/CartContext.tsx:65-68 | the badge count of a cart is the sum of the counts of any division of its lines |
| CartContext.QuantitySumBounds | src/app/context/CartContext.tsx:64-69 | when every line holds at least one unit, the count is at least the number of lines and is zero only for an empty cart |
| CartContext.CartTotalAppend | src/app/cart/page.tsx:62-65 | the price-times-quantity total is the sum of the totals of any division of the lines |
| CartContext.CartTotalNonNegative | src/app/checkout/page.tsx:36-39 | with non-negative prices and quantities the total is never negative |
| CartContext.MenuItemKey | src/app/context/CartContext.tsx:102 | the item id sent is `id` when it is non-empty, otherwise `_id` |
| CartContext.GuestId | src/app/context/CartContext.tsx:41 | a guest id is "guest_" followed by exactly the decimal digits of the clock reading |
| CartContext.GuestIdInjective | src/app/context/CartContext.tsx:41 | guest ids made at different instants differ |
| CartContext.UseCart | src/app/context/CartContext.tsx:132-135 | `useCart` returns the provider when one is in scope, and throws its fixed message otherwise |
| CartContext.CartProvider.constructor | src/app/context/CartContext.tsx:31-33 | the store starts empty with a zero count and no session, and the count invariant holds |
| CartContext.CartProvider.InitUserId | src/app/context/CartContext.tsx:35-46 | a non-empty stored id is reused and storage is untouched; otherwise a guest id from the clock is stored and used |
| CartContext.CartProvider.FetchCart | src/app/context/CartContext.tsx:52-79 | nothing happens without a session; a 2xx with items mirrors them, a 2xx without items empties the mirror, a failure keeps it; the count always equals the quantity sum |
| CartContext.CartProvider.AddToCart | src/app/context/CartContext.tsx:81-117 | posts one unit of `MenuItemKey(item)`; on 2xx only, refetches; otherwise alerts the server message or a fixed text; the mirror is never edited directly |
| Checkout.WithChangesOnlyField | src/app/checkout/page.tsx:45 | setting one form field changes that field and no other |
| Checkout.PhoneOkIff | src/app/checkout/page.tsx:56-57 | a phone number is accepted exactly when it holds 10 to 15 ASCII digits, whatever else it holds |
| Checkout.SeparatorIgnored | src/app/checkout/page.tsx:56 | inserting a non-digit anywhere never changes the phone verdict |
| Checkout.PhoneExamples | src/app/checkout/page.tsx:56-57 | "0801-234-5678" is accepted and "0801-234" is refused |
| Checkout.EmailPatternToShape | src/app/checkout/page.tsx:59-60 | a string matching the email pattern has one '@' not at the start, no white space, and a '.' inside the domain |
| Checkout.EmailShapeToPattern | src/app/checkout/page.tsx:59-60 | a string of that shape matches the email pattern |
| Checkout.EmailPatternIff | src/app/checkout/page.tsx:59-60 | the email pattern and the shape description accept the same strings |
| Checkout.EmailAccepted | src/app/checkout/page.tsx:59-60 | the plain address "ada@mail.ng" is accepted |
| Checkout.EmailRefused | src/app/checkout/page.tsx:59-60 | no dot in the domain, a dot right after '@', two '@', or a leading space are each refused |
| Checkout.FieldError | src/app/checkout/page.tsx:54-62 | a blank field always gets a message, and every message is non-empty |
| Checkout.Validate | src/app/checkout/page.tsx:52-63 | the error map has an entry for exactly the fields with a message, and that entry is the field's message |
| Checkout.FieldErrorIff | src/app/checkout/page.tsx:52-63 | a field gets a message exactly when it breaks its rules, and every message is non-empty |
| Checkout.ValidateInOrder | src/app/checkout/page.tsx:52-63 | the error map is what checking name, phone, email and address in turn produces |
| Checkout.RequiredMessagesFirst | src/app/checkout/page.tsx:54-62 | a blank phone or email gets its "is required" message, and the format message only when it is not blank |
| Checkout.ValidateEmptyIff | src/app/checkout/page.tsx:52-65 | the error map is empty exactly when every field is valid |
| Checkout.SingleInvalidField | src/app/checkout/page.tsx:52-65 | with exactly one invalid field, the error map names that field alone |
| Checkout.GatewayOutcome | src/app/checkout/page.tsx:80-92 | redirects exactly when the status is truthy and an authorization URL is present and non-empty; a false status, or a truthy one with a missing or empty URL, gives "Payment initialization failed.", and an exception or missing data gives "Failed to initialize payment. Try again." |
| Checkout.CheckoutPage.constructor | src/app/checkout/page.tsx:21-32 | blank details, transfer selected, not submitting, no errors |
| Checkout.CheckoutPage.Total | src/app/checkout/page.tsx:36-39 | the order total shown is never negative when prices and quantities are not |
| Checkout.CheckoutPage.SubmitDisabled | src/app/checkout/page.tsx:357-358 | the submit button is disabled while a submission is in flight, and enabled when neither `isSubmitting` nor `loading` is set |
| Checkout.CheckoutPage.HandleInputChange | src/app/checkout/page.tsx:41-50 | the edited field takes the value; only that field's error is blanked, and only when it was shown; everything else is unchanged |
| Checkout.CheckoutPage.SelectPaymentMethod | src/app/checkout/page.tsx:325 | the chosen payment method is recorded |
| Checkout.CheckoutPage.ValidateForm | src/app/checkout/page.tsx:52-66 | the stored error map is `Validate` of the details, and the result is true exactly when it is empty |
| Checkout.CheckoutPage.SubmitOrder | src/app/checkout/page.tsx:95-108 | an invalid form sends nothing and leaves the flag; a valid one sets `isSubmitting`, records the method and details of this submission, and posts the order with the fixed user id |
| Checkout.CheckoutPage.FinishOrder | src/app/checkout/page.tsx:110-134 | every path clears `isSubmitting`; failures alert; the branch follows the method recorded at submission, not later edits: transfer stores only "orderId" and goes to "/payment-transfer"; Paystack requests the payment with the submitted email and follows `GatewayOutcome` |
| Checkout.CheckoutPage.InitializePaystackPayment | src/app/checkout/page.tsx:68-93 | posts the order id, the email recorded at submission and the amount, then redirects or alerts as `GatewayOutcome` says |
| CartPage.View | src/app/cart/page.tsx:67-92 | the loading view exactly while loading; the empty view exactly when loaded with no lines; otherwise the line count and the total |
| CartPage.TotalWithoutLine | src/app/cart/page.tsx:62-65 | dropping one line lowers the total by exactly that line's price times quantity |
| CartPage.CartPage.constructor | src/app/cart/page.tsx:25 | the page starts loading |
| CartPage.CartPage.LoadCart | src/app/cart/page.tsx:27-33 | loading ends only after the store's fetch, whose result is mirrored |
| CartPage.CartPage.RemoveItem | src/app/cart/page.tsx:36-60 | posts "customer123" with the line's `menuItem._id`; refetches on 2xx only; otherwise alerts and leaves the mirror unchanged |
| MenuPage.QueryParams | src/app/menu/page.tsx:44-50 | the category parameter (unencoded) is there exactly when the category is not "all", and comes first; the encoded search parameter is there exactly when the search is non-empty, and comes last |
| MenuPage.MenuUrl | src/app/menu/page.tsx:42-54 | the URL is the bare menu endpoint exactly when the category is "all" and the search is empty |
| MenuPage.MenuUrlQuery | src/app/menu/page.tsx:52-54 | a filtered URL is the endpoint, '?', and a query that splits on '&' into exactly the parameters |
| MenuPage.FormFromItem | src/app/menu/page.tsx:92-101 | the edit form copies the text fields and holds the price as text that parses back to the price |
| MenuPage.Render | src/app/menu/page.tsx:225-357 | the grid renders exactly when not loading and not editing; "No items found" exactly when not loading and there are no items |
| MenuPage.MenuPage.constructor | src/app/menu/page.tsx:20-25 | category "all", empty search, nothing added, no item being edited, and a food-category blank form |
| MenuPage.MenuPage.CheckAdmin | src/app/menu/page.tsx:34-37 | admin exactly when the stored flag is "true" |
| MenuPage.MenuPage.SelectCategory | src/app/menu/page.tsx:203 | the category button sets the category |
| MenuPage.MenuPage.SetSearch | src/app/menu/page.tsx:220 | the search box sets the search text |
| MenuPage.MenuPage.StartFetch | src/app/menu/page.tsx:40-56 | shows the loading banner and requests exactly `MenuUrl` of the current filters |
| MenuPage.MenuPage.FinishFetch | src/app/menu/page.tsx:56-65 | a parsed body becomes the items; loading ends on both paths |
| MenuPage.MenuPage.AddedSharedById | src/app/menu/page.tsx:68-70 | two items with the same `id` show "Added!" together |
| MenuPage.MenuPage.HandleAddToCart | src/app/menu/page.tsx:68-70 | the item's id joins the added set and its button shows "Added!"; the store's `addToCart` posts one unit and refetches on 2xx, or alerts the server message or the fixed text; without a session nothing is sent and the mirror is kept |
| MenuPage.MenuPage.ExpireAdded | src/app/menu/page.tsx:72-78 | the timer removes one id and keeps the others |
| MenuPage.MenuPage.HandleEditItem | src/app/menu/page.tsx:92-101 | opens the panel for the item with `FormFromItem` of it |
| MenuPage.MenuPage.CancelEdit | src/app/menu/page.tsx:281 | closes the edit panel |
| MenuPage.MenuPage.HandleUpdateItem | src/app/menu/page.tsx:103-131 | nothing without an item being edited; otherwise PUT the form; on 2xx reload the unfiltered menu and close the panel; any failure changes nothing |
| MenuPage.MenuPage.HandleDeleteItem | src/app/menu/page.tsx:133-149 | nothing unless confirmed; otherwise DELETE, then, unless that failed, reload the unfiltered menu |
| HomePage.EmptyCheckCategory | src/app/page.tsx:226-233 | the empty-state check's category always agrees with the tab section's filter |
| HomePage.Filter | src/app/page.tsx:186-187 | the result holds exactly the items of the category, and is no longer than the input |
| HomePage.FilterAppend | src/app/page.tsx:186-187 | filtering keeps catalogue order: it distributes over concatenation |
| HomePage.VisibleItems | src/app/page.tsx:186-188 | at most three cards, all of the tab's category, the first ones of the filtered list, and fewer than three only when fewer exist |
| HomePage.Initial | src/app/page.tsx:21-25 | no items, loading, the "food" tab, nothing requested |
| HomePage.Mounted | src/app/page.tsx:27-42 | one request for the menu; a parsed body becomes the items; loading ends on both paths |
| HomePage.SelectTab | src/app/page.tsx:142-162 | a tab press changes the selection only, and sends no request |
| HomePage.Render | src/app/page.tsx:174-181 | the loading view exactly while loading |
| HomePage.EmptyMessageIff | src/app/page.tsx:225-238 | once loaded, "No items available" shows exactly when the tab has no cards, and exactly when no item has the tab's category |
| AdminDashboard.BadgeColour | src/app/Admin/dashboard/page.tsx:357-362 | green exactly for "confirmed", orange exactly for "pending", red for every other status |
| AdminDashboard.ShowsStatusSelect | src/app/Admin/dashboard/page.tsx:395 | the status selector shows exactly when the badge is not green |
| AdminDashboard.ShowsConfirmPayment | src/app/Admin/dashboard/page.tsx:385-386 | "Confirm Payment" shows exactly for a pending transfer, and then the status selector shows too |
| AdminDashboard.LineLabel | src/app/Admin/dashboard/page.tsx:378 | an order line shows its item's name, or "Deleted Item" when the item is gone or its name is empty |
| AdminDashboard.Dashboard.constructor | src/app/Admin/dashboard/page.tsx:42-60 | loading, no data, form hidden and blank with category "food", no banners |
| AdminDashboard.Dashboard.CheckAdmin | src/app/Admin/dashboard/page.tsx:48-51 | admin exactly when the stored flag is "true" |
| AdminDashboard.Dashboard.FetchAllData | src/app/Admin/dashboard/page.tsx:71-92 | requests orders and menu; keeps both bodies only when both parse; loading ends on every path |
| AdminDashboard.Dashboard.Mount | src/app/Admin/dashboard/page.tsx:62-69 | without the flag exactly "true", navigates to "/admin", fetches nothing and stays loading; otherwise requests both lists, ends loading, and keeps both bodies exactly when both parse |
| AdminDashboard.Dashboard.UpdateOrderStatus | src/app/Admin/dashboard/page.tsx:94-108 | PUTs the status; unless that failed, reloads, keeping both new lists exactly when both parse; after a failure nothing else changes |
| AdminDashboard.Dashboard.ConfirmPayment | src/app/Admin/dashboard/page.tsx:110-124 | posts the transfer confirmation; unless that failed, reloads, keeping both new lists exactly when both parse; after a failure nothing else changes |
| AdminDashboard.Dashboard.HandleAddItem | src/app/Admin/dashboard/page.tsx:126-162 | clears both banners, then on 2xx sets the success text, resets and hides the form and reloads, keeping both new lists exactly when both parse; a non-2xx sets the server message or "Failed to add menu item"; an exception sets "Network error. Please try again." |
| AdminDashboard.Dashboard.HandleDeleteItem | src/app/Admin/dashboard/page.tsx:164-178 | unconfirmed or failed, nothing else changes, `loading` included; otherwise DELETE, then reload, keeping both new lists exactly when both parse |
| AdminDashboard.Dashboard.ToggleAddForm | src/app/Admin/dashboard/page.tsx:207 | flips the form's visibility |
| AdminDashboard.Dashboard.Logout | src/app/Admin/dashboard/page.tsx:214-216 | removes the flag and goes to "/" |
| AdminDashboard.Dashboard.OpenAdminMenu | src/app/Admin/dashboard/page.tsx:223-227 | the admin-only button goes to "/Admin" |
| AdminLogin.LoginPage.constructor | src/app/Admin/page.tsx:8-9 | empty password and no error |
| AdminLogin.LoginPage.SetPassword | src/app/Admin/page.tsx:57 | typing sets the password |
| AdminLogin.LoginPage.HandleLogin | src/app/Admin/page.tsx:13-35 | a truthy `success` stores the flag "true" and opens the dashboard; a falsy one sets "Invalid password"; an exception sets "Login failed. Please try again."; the flag is "true" afterwards exactly when it was before or the login succeeded |
| Confirmation.Render | src/app/confirmation/page.tsx:70-79 | "Loading..." exactly while no order is known; otherwise the order, with the button disabled and reading "Processing..." exactly while confirming |
| Confirmation.ConfirmationPage.constructor | src/app/confirmation/page.tsx:32-33 | no order and not confirming |
| Confirmation.ConfirmationPage.Mount | src/app/confirmation/page.tsx:35-40 | a non-empty stored "lastOrder" is decoded into the order; otherwise the order is unchanged |
| Confirmation.ConfirmationPage.StartConfirm | src/app/confirmation/page.tsx:42-54 | nothing without an order; otherwise sets `confirming` and posts the order id |
| Confirmation.ConfirmationPage.FinishConfirm | src/app/confirmation/page.tsx:56-67 | 2xx goes to exactly "/order-success?orderId=" and the id; a non-2xx or an exception alerts and does not navigate; `confirming` is cleared on every path |
| Confirmation.SuccessUrlReadsBack | src/app/confirmation/page.tsx:58 | the order id can be read back from the success URL, so different orders get different URLs |
| PaymentSuccess.QueryGet | src/app/payment-success/page.tsx:14 | the lookup is absent exactly when no query pair has that name |
| PaymentSuccess.QueryGetFirst | src/app/payment-success/page.tsx:14 | a found value belongs to the first pair with that name |
| PaymentSuccess.Render | src/app/payment-success/page.tsx:33-44 | "Loading..." exactly before the client flag is set |
| PaymentSuccess.PaymentSuccessPage.constructor | src/app/payment-success/page.tsx:12-18 | the order id comes only from the "orderId" query parameter; not yet on the client |
| PaymentSuccess.PaymentSuccessPage.Hydrate | src/app/payment-success/page.tsx:20-23 | the client flag is set |
| PaymentSuccess.PaymentSuccessPage.RedirectCheck | src/app/payment-success/page.tsx:26-30 | on the client, a missing or empty order id pushes "/menu"; otherwise nothing happens |
| Layout.Includes | src/app/layout.tsx:29 | `includes` holds exactly when the string is an element |
| Layout.HideLayout | src/app/layout.tsx:16-29 | the layout is hidden exactly when the pathname equals one of the ten routes |
| Layout.LayoutFrame | src/app/layout.tsx:37-43 | the cart store always wraps the page; header and footer show together, exactly when the layout is not hidden |
| Layout.ExactMatchOnly | src/app/layout.tsx:16-29 | "/admin", "/cart/" and "/menu/x" keep the header, and "/Admin" hides it |
| Header.ActiveSection | src/app/component/Header.tsx:19-27 | the scan yields "home" or the id of one of the sections |
| Header.ActiveSectionIsLastStraddling | src/app/component/Header.tsx:19-27 | the active section is "home" when no section straddles y=150, and otherwise the id of the last one that does |
| Header.LinkTarget | src/app/component/Header.tsx:63 | a link's target is its href without the leading '#' |
| Header.LinkTargetsDistinct | src/app/component/Header.tsx:34-41 | the six links target six different sections, so at most one is highlighted |
| Header.NavBar.constructor | src/app/component/Header.tsx:10-12 | not scrolled, menu closed, "home" active |
| Header.NavBar.HandleScroll | src/app/component/Header.tsx:15-28 | scrolled exactly when past 50 pixels; the scan's result is `ActiveSection` of the sections |
| Header.NavBar.IsHighlighted | src/app/component/Header.tsx:63-65 | a link "#x" is highlighted exactly when "x" is the active section, and one without '#' exactly when its href is |
| Header.NavBar.ClickLink | src/app/component/Header.tsx:63 | the clicked link's target becomes active and the link is highlighted |
| Header.NavBar.ClickMobileLink | src/app/component/Header.tsx:126-129 | the link's target becomes active and the menu closes |
| Header.NavBar.OpenMenu | src/app/component/Header.tsx:94 | the burger button opens the menu |
| Header.NavBar.CloseMenu | src/app/component/Header.tsx:108-115 | the overlay and the X button close the menu |

## Left out

- HTTP, JSON parsing, the backend and the Paystack gateway, including the inline Paystack
  script in the layout. Each answer is a method parameter instead.
- Request headers, such as the hard-coded admin password on the menu page and
  `ADMIN_PASSWORD` on the dashboard. The model records only method, URL and body.
- `parseFloat` on form prices, `toLocaleString`, and fractional `getBoundingClientRect`
  coordinates. These are floating point and locale. Prices are whole naira, coordinates are
  whole pixels, and form prices are sent as typed.
- An error body whose `message` is `null` or not a string. `Response.HttpErr` holds an
  optional string, so the model prints a missing message as "undefined" where the page
  would print "null" for `null` or the value's own text for an array.
- JsRuntime.IntToString: the decimal text only; `Number.prototype.toString` switches to
  exponent notation from 10^21 upward, which whole-naira prices do not reach.
- `encodeURIComponent`. It is an uninterpreted function (`MenuPage.MenuPage.enc`).
- `Date.now()`. It is the `now` parameter of `CartContext.CartProvider.InitUserId`.
- `JSON.parse` of the stored order. It is the `decode` parameter of
  `Confirmation.ConfirmationPage.Mount`, and a throwing parse is not modelled.
- The cart store's effect that refetches whenever `userId` changes. It is a call of
  `FetchCart` after `InitUserId`.
- The dashboard's `Promise.all`, async interleaving between handlers, and React batching.
  Each handler is atomic, except the two split into a start and a finish method; of those,
  the checkout records the payment method and details of the submitting render, so edits
  made while the order is in flight do not reach the rest of the handler. A handler that
  does not await its reload (the dashboard's `fetchAllData` calls) runs it to completion
  in place.
- The 2-second timer that clears "Added!". Only its effect is modelled, as
  `MenuPage.MenuPage.ExpireAdded`.
- The `console.log` and `console.error` calls, the debug payload in `addToCart`, the theme
  provider, and the payment-success page's unused `isSuccess` state.
- The typing handlers of the menu page's edit form and the dashboard's add-item form.
  These are single-field record updates with no rule.
- The static, presentational and styling files: testimonials, events, contact, footer,
  cart icon, mode toggle, menu card, wine and drink lists, the order-success page, and the
  Tailwind configuration.

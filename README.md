# UpgradEshop storefront core, in Dafny

This project models the client-side logic of the UpgradEshop storefront. It
covers four screens:

- the product list: which query it builds, the comparator, the stable sort and the category list;
- the product page: the quantity field, the Place Order guard and button, and the state it hands to the order page;
- the three-step checkout: product summary, address and confirmation, with the address store, the Next/Back gates and the order submission;
- two forms: user signup and the administrator's product form.

Each asynchronous handler is split in two:

- a `Begin…` method (or `HandleNext`), for the part that runs when the handler is called. It returns the request that goes to the server.
- a `Complete…` method, which applies the server's result. That result is an `Outcome`: a delivered body, or a thrown error carrying an optional `err.response.data.message`.

POST replies are `Reply(message)` or `NullReply`. Reading `.message` of a null
body throws inside the same `try`, so `NullReply` is answered with the
handler's generic catch message.

Modules:

- `Common`: `Option`, `Result`, `Outcome`, `Reply`, `Product`.
  - `MessageOr` is JavaScript's `message || fallback`.
  - `Classify` is the success test shared by signup, product creation and order placement. Only the exact expected message is accepted.
- `Text`: the string rules used by the forms.
  - `/^\d+$/` with a length check;
  - `parseInt(s, 10)`;
  - `Number(s)` on decimal numerals;
  - the rendering of an integer in a template literal.
- `ProductDetails`: `PlaceOrder` and the class `ProductPage`.
- `Checkout`: `ValidateAddress`, `FindById`, the button gates, and the class `Checkout`.
  - `Checkout.Valid()` is the workflow invariant: the step is 0..2, a confirmed order is on the last step, and the last step has a selected address. Every state-changing method preserves it.
- `Catalog`: `QueryParams`, the comparator `Compare`, and the reference sort `SortBy`.
  - `SortBy` is proved ordered, a permutation and stable.
  - The in-place `SortListings` is proved to compute `SortBy`.
  - The class `Catalog` holds the page state.
- `Signup` and `AddProduct`: each form's ordered checks, the body it posts, and the screen class.

The comparator is consistent: it is the difference of two ranks. A sort
that is stable, ordered and a permutation has exactly one result. So the
insertion sort used here produces the same list as any stable
`Array.prototype.sort`.

Where the documented intent and the code differ, the model follows the code:

- The order page's missing-context guard is `!product || !quantity || !totalAmount`. Only an absent product, or a zero quantity or total, is rejected (`Checkout.MissingContext`). A negative quantity passes the guard, although the documented intent is to reject every non-positive field.
  - A product priced 0 yields a total of 0. Its hand-off therefore reads as missing (`Checkout.HandoffOpensCheckout`).
- The documented intent says Next on the first step shows a message when the context is missing. In the code the page then renders only the missing-context message, and the stepper's buttons do not exist. The model requires `Ready()` for the button handlers.
- `fetchProducts` builds `name` / `category` parameters. The API helper's `get` ignores its second argument, so they never reach the server. The model returns the parameters the code builds (`Catalog.BeginFetchProducts`). The fetched list is what the server sends for `/products`.

## Model

| member | source | states |
|---|---|---|
| Common.MessageOr | src/components/auth/Signup/Signup.js:63-65 | a truthy server message wins, otherwise the fallback; a non-empty fallback gives non-empty text |
| Common.Classify | src/components/auth/Signup/Signup.js:59-73 | accepted exactly when a non-null reply carries the expected message; a thrown error shows the server message or the generic text; a null body shows the generic text; any other reply shows its message or the "invalid response" text |
| Common.RefusalIsVisible | src/components/orders/Order.js:326-340 | with non-empty fallbacks every refusal shows a non-empty message |
| Text.ParseInt | src/components/products/ProductDetails/ProductDetails.js:45 | `parseInt(s, 10)` yields a number exactly when a digit follows the optional sign; on an all-digit string it is that string's decimal value |
| Text.NumberValue | src/components/admin/AddProduct/AddProduct.js:78 | `Number("")` is 0 and an all-digit string reads as its decimal value |
| Text.ParseIntTruncatesNumber | src/components/admin/AddProduct/AddProduct.js:83-93 | where both are defined, `parseInt` is `Number` truncated toward zero |
| Text.IntToStringRoundTrip | src/components/products/ProductDetails/ProductDetails.js:74 | an integer rendered in a template literal parses back with `parseInt` to the same integer |
| ProductDetails.PlaceOrder | src/components/products/ProductDetails/ProductDetails.js:53-77 | hands off exactly when a product is loaded and 1 <= quantity <= stock; the hand-off copies the product's eight fields, the quantity, and total = price × quantity; otherwise the message names the stock shown (or 0) |
| ProductDetails.ButtonMatchesGuard | src/components/products/ProductDetails/ProductDetails.js:187-191 | the Place Order button is enabled exactly when pressing it navigates |
| ProductDetails.ErrorNamesStock | src/components/products/ProductDetails/ProductDetails.js:73-75 | the bound in the error message reads back as the stock it shows |
| ProductDetails.PlaceOrderDisabled | src/components/products/ProductDetails/ProductDetails.js:187-191 | the Place Order button's disabled expression (quantity not positive, above the stock, or no stock); `ButtonMatchesGuard` relates it to `PlaceOrder` |
| ProductDetails.ParseIntIgnoresSuffix | src/components/products/ProductDetails/ProductDetails.js:45 | `parseInt` ignores whatever follows the digits |
| ProductDetails.ProductPage.constructor | src/components/products/ProductDetails/ProductDetails.js:19-22 | no product, quantity 1, loading, no error |
| ProductDetails.ProductPage.BeginFetchProduct | src/components/products/ProductDetails/ProductDetails.js:25-29 | loading starts and the error clears before the product is requested |
| ProductDetails.ProductPage.CompleteFetchProduct | src/components/products/ProductDetails/ProductDetails.js:25-36 | a loaded product is stored; a failure shows the load message; loading ends |
| ProductDetails.ProductPage.HandleQuantityChange | src/components/products/ProductDetails/ProductDetails.js:44-51 | a positive parse replaces the quantity, "" clears it, anything else is ignored; the quantity is never zero or negative |
| ProductDetails.ProductPage.HandlePlaceOrder | src/components/products/ProductDetails/ProductDetails.js:53-77 | navigates with `PlaceOrder`'s hand-off, or shows its message |
| Checkout.MissingContext | src/components/orders/Order.js:58 | the falsiness guard `!product \|\| !quantity \|\| !totalAmount`: an absent product or a zero quantity or total; `HandoffOpensCheckout` relates it to the product page |
| Checkout.HandoffOpensCheckout | src/components/orders/Order.js:56-64 | every hand-off of the product page opens the checkout, except for a product priced 0 |
| Checkout.ValidateAddress | src/components/orders/Order.js:249-273 | the first failing check in order (mandatory fields, 10-digit contact, 6-digit zip); `None` exactly when all pass |
| Checkout.LandmarkIsOptional | src/components/orders/Order.js:252-261 | the landmark never changes the outcome of the checks |
| Checkout.FindById | src/components/orders/Order.js:124-127 | the first address with that id, or none exactly when no address has it |
| Checkout.NextDisabled | src/components/orders/Order.js:369-375 | `isNextButtonDisabled()`: step 0 without context, step 1 without a selection or while loading, step 2 while loading; `HandleNext` and `FinalButtonGate` use it |
| Checkout.BackDisabled | src/components/orders/Order.js:421 | Back is disabled on the first step and once the order is confirmed, and nowhere else (not while loading) |
| Checkout.FinalButtonGate | src/components/orders/Order.js:428-432 | on the last step the button is disabled exactly while loading |
| Checkout.Checkout.constructor | src/components/orders/Order.js:36-64 | step 0, empty store, no selection, idle; the missing-context message when the context is missing |
| Checkout.Checkout.HandleNext | src/components/orders/Order.js:304-345 | step 0 goes to the address step and fetches addresses; step 1 needs a selection, else the select message; step 2 posts the order for the selected address, product id and quantity; an enabled Next advances one step |
| Checkout.Checkout.HandleBack | src/components/orders/Order.js:347-349 | goes back one step; returning to the address step refetches |
| Checkout.Checkout.CompleteFetchAddresses | src/components/orders/Order.js:219-235 | the server's list replaces the store; its first address is selected only if none was; a failure shows the fetch message |
| Checkout.Checkout.SelectAddress | src/components/orders/Order.js:124-127 | the selection becomes the address with the chosen id, or none |
| Checkout.Checkout.OpenAddressDialog | src/components/orders/Order.js:154 | the dialog opens |
| Checkout.Checkout.BeginAddAddress | src/components/orders/Order.js:249-275 | an invalid draft shows its message and sends nothing; a valid one is posted |
| Checkout.Checkout.CompleteAddAddress | src/components/orders/Order.js:276-301 | a created address is appended and selected, the dialog closes and the draft resets; a failure keeps the draft and shows the server message or the add message |
| Checkout.Checkout.CompletePlaceOrder | src/components/orders/Order.js:326-344 | the order is confirmed exactly when the reply is "Order placed successfully"; otherwise the refusal message is shown; loading ends |
| Checkout.Checkout.HandleReset | src/components/orders/Order.js:351-366 | back to step 0, unconfirmed, no selection, empty draft, no error |
| Checkout.HappyPathScenario | src/components/orders/Order.js:304-345 | a 500-priced product bought 3 times with one stored address posts order (a1, p1, 3) with total 1500 and is confirmed |
| Checkout.RejectedReplyScenario | src/components/orders/Order.js:326-334 | a reply without the success message leaves the page on the last step, unconfirmed and idle, showing the server's message |
| Catalog.QueryParams | src/components/products/Products/Products.js:44-50 | a search sends only `name`; otherwise a category other than "ALL" sends only `category`; never both |
| Catalog.Compare | src/components/products/Products/Products.js:59-71 | the comparator is the difference of the two products' ranks for the chosen key |
| Catalog.SortOrderOf | src/components/products/Products/Products.js:60-70 | the three recognised keys select their order; every other key, "DEFAULT" included, compares all products as equal |
| Catalog.SortBy | src/components/products/Products/Products.js:59-71 | the reference stable sort by `Compare`, of the same length as its input; `SortByOrdered`, `SortByPermutes` and `SortByStable` state what it promises |
| Catalog.InsertPermutes | src/components/products/Products/Products.js:59-71 | one insertion step adds exactly the inserted product |
| Catalog.InsertOrdered | src/components/products/Products/Products.js:59-71 | one insertion step keeps a rank-ordered list ordered |
| Catalog.InsertStable | src/components/products/Products/Products.js:59-71 | one insertion step puts the product after all products of equal rank |
| Catalog.InsertAt | src/components/products/Products/Products.js:59-71 | placing a product at the boundary of the elements it precedes is an insertion step |
| Catalog.SortByOrdered | src/components/products/Products/Products.js:59-71 | the sorted list is ordered by rank |
| Catalog.SortByPermutes | src/components/products/Products/Products.js:59-71 | the sorted list is a permutation of the fetched list |
| Catalog.SortByStable | src/components/products/Products/Products.js:59-71 | products of equal rank keep their fetched order |
| Catalog.UnsortedKeepsOrder | src/components/products/Products/Products.js:70 | "DEFAULT" or an unknown key keeps the fetched order |
| Catalog.SortedAsRequested | src/components/products/Products/Products.js:59-71 | price high-to-low is non-increasing in price, low-to-high non-decreasing, newest non-increasing in creation time, default unchanged |
| Catalog.InsertInPlace | src/components/products/Products/Products.js:59 | one in-place pass computes an insertion step on the array's prefix and leaves the rest alone |
| Catalog.SortListings | src/components/products/Products/Products.js:59-71 | the array is sorted in place to exactly the reference sort of its old contents |
| Catalog.Catalog.constructor | src/components/products/Products/Products.js:25-35 | the URL's search, category "ALL", sort "DEFAULT", empty lists, loading |
| Catalog.Catalog.HandleSortChange | src/components/products/Products/Products.js:107-109 | the sort key becomes the chosen one |
| Catalog.Catalog.HandleCategoryChange | src/components/products/Products/Products.js:101-105 | the category is selected and the search is cleared |
| Catalog.Catalog.BeginFetchProducts | src/components/products/Products/Products.js:37-52 | loading starts, the error clears, the parameters are `QueryParams` |
| Catalog.Catalog.CompleteFetchProducts | src/components/products/Products/Products.js:54-80 | without a search the fetched array is sorted in place by the chosen key, with a search it is kept as fetched, and the page shows it; a failure shows the products message; loading ends |
| Catalog.Catalog.CompleteFetchCategories | src/components/products/Products/Products.js:83-91 | "ALL" then the server's categories; a failure changes nothing |
| Signup.ValidateSignup | src/components/auth/Signup/Signup.js:25-46 | the first failing check in order (all fields, matching passwords, 10-digit contact); `None` exactly when all pass |
| Signup.PayloadOf | src/components/auth/Signup/Signup.js:49-57 | six fields copied, role `["user"]`, no confirmation field |
| Signup.ValidPayload | src/components/auth/Signup/Signup.js:25-57 | a posted body has non-empty fields, the confirmed password and a 10-digit contact number |
| Signup.SignupScreen.constructor | src/components/auth/Signup/Signup.js:9-17 | empty form, no messages |
| Signup.SignupScreen.BeginSignup | src/components/auth/Signup/Signup.js:20-57 | both messages clear; a failing check shows its message and posts nothing; otherwise the payload is posted |
| Signup.SignupScreen.CompleteSignup | src/components/auth/Signup/Signup.js:59-74 | navigates to login with the success text exactly when the reply is "User created successfully"; otherwise shows the refusal message |
| AddProduct.ValidateProductAsWritten | src/components/admin/AddProduct/AddProduct.js:63-86 | the first failing check as written (required fields, positive price, stock rule with a NaN parse passing); `None` exactly when all pass |
| AddProduct.ValidateProduct | src/components/admin/AddProduct/AddProduct.js:63-86 | differs from the written checks exactly on a passing form whose stock has no integer parse, which it refuses with the stock message; what it lets through has a positive price and a positive integer stock |
| AddProduct.CorrectionOnlyTouchesNaN | src/components/admin/AddProduct/AddProduct.js:83-86 | when the stock has an integer parse the two checks agree |
| AddProduct.FractionalStockSlipsThrough | src/components/admin/AddProduct/AddProduct.js:83-94 | stock ".5" passes the written checks, and the body built from it carries a NaN stock; the corrected checks refuse it |
| AddProduct.PayloadOf | src/components/admin/AddProduct/AddProduct.js:90-94 | for a form that passed the written checks: text fields copied, price as `Number` reads it (positive), stock as `parseInt` reads it — NaN (`None`) when it has no leading digit, otherwise at least 1 |
| AddProduct.NaNStockExactlyWhenCorrectionRefuses | src/components/admin/AddProduct/AddProduct.js:83-94 | among forms the written checks accept, the body carries a NaN stock exactly when the corrected checks refuse the form; a form the corrected checks accept sends a number |
| AddProduct.PayloadStockTruncates | src/components/admin/AddProduct/AddProduct.js:93 | a stock `parseInt` can read is posted as the typed number truncated |
| AddProduct.AddProductScreen.constructor | src/components/admin/AddProduct/AddProduct.js:20-32 | empty form and categories, no messages, idle |
| AddProduct.AddProductScreen.CompleteFetchCategories | src/components/admin/AddProduct/AddProduct.js:37-46 | the server's categories, or the categories message on failure |
| AddProduct.AddProductScreen.BeginAddProduct | src/components/admin/AddProduct/AddProduct.js:58-95 | both messages clear; the first failing written check shows its message and nothing is posted; otherwise loading starts and `PayloadOf` the form is posted, NaN stock included |
| AddProduct.AddProductScreen.CompleteAddProduct | src/components/admin/AddProduct/AddProduct.js:97-127 | only "Product <name> added successfully" succeeds, shows the notice and clears all seven fields; otherwise the form is kept and the refusal shown; loading ends |

## Left out

- Rendering, routing and navigation are not modelled: `navigate(...)`, the 2-second redirect from an order page without context, and the URL's `?search=`, which is a constructor argument. A method's return value says where it would navigate.
- The input `onChange` handlers that copy a field into a form are not modelled: the form fields are public fields of each screen class.
- The API helper and HTTP are not modelled. A server answer is a parameter of each `Complete…` method. A GET body that is not a list (which would make `data.length`, `sort` or the spread throw) is not modelled.
- React's batching and stale closures are not modelled. A handler sees the state as it is when its `Complete…` method runs. In the source, `handleAddProduct` compares against the name captured at submission, even if the field was edited while the post was pending.
- Checkout.Checkout.CompletePlaceOrder: requires the page to still be on the last step. The source leaves Back enabled while an order is pending (components/orders/Order.js:421). A reply arriving after Back could then confirm the order on the address step; that interleaving is not modelled.
- Text.ParseInt: leading white space, which `parseInt` skips, is not modelled.
- Text.NumberValue: covers only decimal numerals (optional sign, digits, optional fraction). White space, hexadecimal, exponents and "Infinity" are read as NaN, so the checks built on it refuse them. This changes outcomes: price "1e3", which `Number` reads as 1000 and the form accepts, is refused by `AddProduct.ValidateProductAsWritten` with the price message.
- AddProduct.PayloadOf: the price is sent as `parseFloat` reads it. On every numeral `Number` accepts here, that is the same value.
- Catalog.Compare: "NEWEST" compares `new Date(createdAt).getTime()`, modelled as an integer timestamp. Unparseable dates (NaN) are not modelled.
- Logging (`console.error`) is not modelled.
- The browser's native constraint validation before a submit (`required`, `type="number"`, `min`, `step` on the form fields) is not modelled: the submit handlers are called with whatever text the fields hold.

## Findings

| source | as written | input that shows it | evidently intended | confidence | as-written member | corrected member |
|---|---|---|---|---|---|---|
| src/components/admin/AddProduct/AddProduct.js:83-86 | the handler's check `isNaN(availableItems) \|\| parseInt(availableItems, 10) <= 0` passes a stock that `Number` reads but `parseInt` cannot, since `NaN <= 0` is false; the body then holds `availableItems: NaN`, which `JSON.stringify` posts as `null`. The field's native `type="number" min="1" step="1"` constraint (AddProduct.js:229-236) stops a browser from submitting ".5"; a value such as ".1e2" (10) passes it and still parses to NaN, but exponents are outside this model's numerals | handler called with availableItems ".5" (price "10", other fields filled) | refuse any stock whose integer parse is not a positive integer, so the posted stock is at least 1 | not executed | AddProduct.FractionalStockSlipsThrough | AddProduct.ValidateProduct |

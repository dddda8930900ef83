# ElectroHub storefront and admin console — a Dafny model

ElectroHub is a React storefront with an admin console. Almost every screen calls a remote REST
API and then renders the result. This project models the rules those screens apply between the
calls, and proves what those rules guarantee.

- **Pagination** of the four admin tables (orders, users, products, categories).
  - A page is five rows, taken by a JavaScript `slice`, and the page count is `Math.ceil(n / 5)`.
  - Each table guards or clamps its Prev, Next and numbered buttons in its own way.
- **The shopping cart.**
  - Each entry has an `updating` latch. A quantity change sets the latch, then either commits the new quantity or only releases the latch.
  - Removal filters entries by product id.
  - The total sums price times quantity.
- **The forms' validators**: registration, profile, checkout address, add/edit product, add/edit category and the admin user editor.
  - Each is an ordered chain of checks over strings: trimmed emptiness, length bounds, digits only, `+91` plus ten digits, a 5–6-digit postal code, and two e-mail patterns.
  - The regular expressions are written as character predicates, and the model proves that each predicate accepts exactly the pattern's language.
- **The browser's storage.** `localStorage` and `sessionStorage` are two string maps in a `BrowserStorage` object.
  - Login writes six keys, and writes the role only once.
  - Logout clears local storage.
  - The product grids mirror the cart size into `cartCount`, and the header parses it back.
- **The list filters**: the category filter, order cancellation and deletion by id. Each keeps the order of what remains.

Every page that holds React state is a `class`. Its fields are that state, and its methods are the
page's handlers. A method's parameters stand for what the handler cannot compute itself:

- whether a request succeeded;
- the body a request returned;
- whether a confirmation dialog was accepted.

Each handler runs to completion. Each method's `ensures` gives the whole new state in terms of a
specification function, and lemmas state what those functions guarantee. The shared modules hold
the JavaScript semantics the pages rely on:

- `JsText`: JavaScript white space, `trim`, `.length` in UTF-16 code units, `indexOf` and `replace` with a string pattern;
- `JsNumbers`: `parseInt` in base 10, the decimal rendering of a count, and `Number(v) > 0` for decimal literals;
- `Pagination`: `slice` and the page arithmetic;
- `Lists`: filter and replace by key.

Prices and money amounts are integers.

## Model

| member | source | states |
|---|---|---|
| Pagination.PageCount | src/Admin/ProductManagement.js:60 | `Math.ceil(n / 5)`: the smallest page count whose pages hold all `n` rows (0 for an empty table) |
| Pagination.SliceIndex | src/Admin/Orders.js:90-92 | how `slice` resolves an index: a negative one counts from the end, and both kinds are clamped to the length |
| Pagination.JsSlice | src/Admin/Orders.js:92 | `slice(start, end)` is the run of elements from the resolved start index, as long as the resolved end is past it and empty otherwise |
| Pagination.PageSlice | src/Admin/CategoryManagement.js:57-60 | page `p` holds at most five rows; from page 1 on, row `i` of the page is list row `(p-1)*5 + i`, and the page has rows exactly when `(p-1)*5` is below the length (the same slice as Orders.js:92, Users.js:54 and ProductManagement.js:61) |
| Pagination.PageSliceBounds | src/Admin/Orders.js:90-92 | page `p` (p >= 1) shows rows `(p-1)*5` up to `p*5`, clamped to the list, so at most five rows |
| Pagination.PageNonEmptyIffInRange | src/Admin/CategoryManagement.js:57-60 | page `p` (p >= 1) shows at least one row exactly when `p` is at most the page count |
| Pagination.ConcatPagesPrefix | src/Admin/Orders.js:90-92 | pages 1..k read in order are the list's first `5k` rows |
| Pagination.PagesConcatenate | src/Admin/Orders.js:90-92 | pages 1..ceil(n/5) read in order give back the whole list |
| Pagination.ItemOnPage | src/Admin/Users.js:52-54 | row `i` appears on page `i/5+1`, at position `i%5`, and that page is in range |
| Pagination.PageNumbers | src/Admin/ProductManagement.js:144-147 | the numbered buttons are exactly 1..totalPages, in order |
| AdminOrders.NextLandsOnRows | src/Admin/Orders.js:183-186 | a page reached with an enabled Next shows rows and is within the page count |
| AdminOrders.NextEnabledIffMoreRows | src/Admin/Orders.js:186 | Next is enabled exactly when the current page is before the last |
| AdminOrders.PrevDisabled | src/Admin/Orders.js:173-174 | Prev's `disabled={currentPage === 1}`; `ClickPrev` relies on it |
| AdminOrders.NextDisabled | src/Admin/Orders.js:183-186 | Next's `disabled={indexOfLastOrder >= orders.length}`; `NextEnabledIffMoreRows` relates it to the page count |
| AdminOrders.OrdersTable.constructor | src/Admin/Orders.js:7-20 | the initial state: no orders, loading, no error, no selection, page 1 |
| AdminOrders.OrdersTable.CurrentOrders | src/Admin/Orders.js:90-92 | the visible orders are the page's slice of at most five |
| AdminOrders.OrdersTable.FetchOrders | src/Admin/Orders.js:27-36 | a fetched list replaces the orders; a failure sets the fetch error; loading ends either way |
| AdminOrders.OrdersTable.ClickPrev | src/Admin/Orders.js:98-174 | Prev exists only in the table rendered once loading ended without an error; there it does nothing on page 1 and otherwise moves back one page, so the page never drops below 1 |
| AdminOrders.OrdersTable.ClickNext | src/Admin/Orders.js:98-186 | Next exists only in the rendered table; there it moves forward only while rows remain, and a page reached this way shows rows |
| AdminOrders.OrdersTable.TableShown | src/Admin/Orders.js:98-101 | the table and its pager replace the loading and error messages only when loading has ended with no error |
| AdminOrders.OrdersTable.ShowModal | src/Admin/Orders.js:39-43 | opening an order selects it and pre-sets the status to the order's own status |
| AdminOrders.OrdersTable.CloseModal | src/Admin/Orders.js:46-49 | closing hides the modal and clears the selection |
| AdminOrders.OrdersTable.SelectStatus | src/Admin/Orders.js:214-224 | the selector sets one of the five statuses Pending, Processing, Shipped, Delivered and Cancelled |
| AdminOrders.OrdersTable.UpdateOrderStatus | src/Admin/Orders.js:52-64 | with no selection nothing is sent or changed; otherwise the selected status is sent; success refetches (the list, or the fetch error when the refetch fails) and closes the modal; failure alerts and changes nothing |
| AdminOrders.OrdersTable.CancelOrder | src/Admin/Orders.js:67-87 | the delete is sent exactly when confirmed; only a successful delete refetches, giving the new list or the fetch error, and reports "The order has been cancelled."; a failed one reports "Failed to cancel the order!" and changes nothing; an unconfirmed one shows nothing |
| AdminUsers.EditChange | src/Admin/Users.js:84-91 | a name with anything but ASCII letters and white space is ignored, as is a mobile that is not 0–10 digits; other fields are copied verbatim |
| AdminUsers.NameTextAllowed | src/Admin/Users.js:87 | `/^[A-Za-z\s]*$/`: ASCII letters and JavaScript white space only, the empty text included |
| AdminUsers.MobileTextAllowed | src/Admin/Users.js:88 | `/^\d{0,10}$/`: at most ten ASCII digits, the empty text included |
| AdminUsers.TenDigits | src/Admin/Users.js:102 | `/^\d{10}$/`: exactly ten ASCII digits |
| AdminUsers.EditChangeKeepsMobileShort | src/Admin/Users.js:87-90 | starting from allowed text, an edit keeps the name letters-only and the mobile at most ten digits |
| AdminUsers.UpdateRefusal | src/Admin/Users.js:96-105 | the alert `updateUser` raises before sending; `UpdateAcceptedIff` gives when there is none |
| AdminUsers.UpdateAcceptedIff | src/Admin/Users.js:96-105 | an update is refused exactly when the trimmed name or mobile is empty, the gender is empty, or the mobile is not exactly ten digits |
| AdminUsers.ReplaceUser | src/Admin/Users.js:117 | the map by `_id` a saved edit applies; `ReplaceUserSpec` states what it keeps |
| AdminUsers.ReplaceUserSpec | src/Admin/Users.js:117 | a saved edit replaces every user with that id and keeps the others, their order and the length |
| AdminUsers.UsersTable.constructor | src/Admin/Users.js:10-31 | the initial state: no users, loading, page 1, the edit buffer empty |
| AdminUsers.UsersTable.CurrentUsers | src/Admin/Users.js:52-54 | the visible users are the page's slice of at most five |
| AdminUsers.UsersTable.FetchUsers | src/Admin/Users.js:34-46 | a fetched list replaces the users; a failure sets the error; loading ends |
| AdminUsers.UsersTable.NextPage | src/Admin/Users.js:56-69 | the pager exists only when the page did not return early for loading or an error; there the page advances only when it is before `ceil(n/5)`, and the new page shows rows |
| AdminUsers.UsersTable.PrevPage | src/Admin/Users.js:62-69 | from the rendered pager the page goes back only when it is above 1 |
| AdminUsers.UsersTable.TableShown | src/Admin/Users.js:68-69 | the page returns early while loading and when the error is set, so the table shows only otherwise |
| AdminUsers.UsersTable.OpenEditModal | src/Admin/Users.js:71-75 | opening copies the user into the edit buffer and shows the modal |
| AdminUsers.UsersTable.CloseEditModal | src/Admin/Users.js:78-81 | closing hides the modal |
| AdminUsers.UsersTable.HandleEditChange | src/Admin/Users.js:84-91 | the edit buffer becomes `EditChange` of the old buffer |
| AdminUsers.UsersTable.UpdateUser | src/Admin/Users.js:94-126 | a refused edit alerts and sends nothing; an accepted one is sent; success replaces the user by id, closes the modal and sets the message; failure alerts and changes nothing |
| AdminUsers.UsersTable.SendUpdate | src/Admin/Users.js:107-125 | the outcome of the sent update: replace by id and close, or an alert with nothing changed |
| AdminUsers.UsersTable.DeleteUser | src/Admin/Users.js:129-158 | the delete is sent exactly when confirmed; success removes exactly the users with that id and reports "User has been deleted."; failure keeps the list and reports "Failed to delete user." |
| AdminProducts.CategoryLabel | src/Admin/ProductManagement.js:97 | the category cell shows the category's name, or "No Category" |
| AdminProducts.PageAfterChange | src/Admin/ProductManagement.js:27-30 | the page `handlePageChange` leaves in place; its properties are in `PageChangeKeepsRange` |
| AdminProducts.PageChangeKeepsRange | src/Admin/ProductManagement.js:27-30 | for any requested page, a page within 1..totalPages stays within it, a page from 1 never drops below 1, and a change of page is always to the requested one |
| AdminProducts.AcceptedPageHasRows | src/Admin/ProductManagement.js:27-30 | a request for a page in 1..totalPages is taken, and that page shows rows |
| AdminProducts.PageButtonAccepted | src/Admin/ProductManagement.js:144-147 | numbered button `i+1` always selects page `i+1` |
| AdminProducts.NextOnEmptyTableIsRefused | src/Admin/ProductManagement.js:158-160 | on an empty table Next stays enabled, because `page === totalPages` is false, yet the change is refused |
| AdminProducts.ProductTable.constructor | src/Admin/ProductManagement.js:7-9 | no products, page 1 |
| AdminProducts.ProductTable.CurrentProducts | src/Admin/ProductManagement.js:61 | the visible products are the page's slice of at most five |
| AdminProducts.ProductTable.FetchProducts | src/Admin/ProductManagement.js:11-25 | a response with data replaces the list; otherwise it is unchanged |
| AdminProducts.ProductTable.HandlePageChange | src/Admin/ProductManagement.js:27-30 | out-of-range pages are ignored; the page stays at least 1, stays within totalPages when it was, and a changed page shows rows |
| AdminProducts.ProductTable.ClickPrev | src/Admin/ProductManagement.js:137-138 | Prev is disabled on page 1 and otherwise asks for the previous page; the page stays in range |
| AdminProducts.ProductTable.ClickNext | src/Admin/ProductManagement.js:159-160 | Next is disabled on the last page and otherwise asks for the next page; the page stays in range |
| AdminProducts.ProductTable.ConfirmDelete | src/Admin/ProductManagement.js:32-57 | the delete is sent exactly when confirmed; success removes exactly the products with that id and reports the deletion; failure keeps the list and reports the error |
| AdminCategories.ClampPage | src/Admin/CategoryManagement.js:111-131 | the corrected page after a delete: kept when in range, otherwise pulled into 1..totalPages |
| AdminCategories.ClampedPageNonEmpty | src/Admin/CategoryManagement.js:57-60 | after the corrected delete, a non-empty list shows rows on the current page |
| AdminCategories.DeleteStrandsLastPage | src/Admin/CategoryManagement.js:43-108 | as written, deleting the sixth of six categories while on page 2 hides the pager and leaves page 2 empty |
| AdminCategories.ControlsShown | src/Admin/CategoryManagement.js:108 | the pager is rendered only for more than one page; `DeleteStrandsLastPage` uses it |
| AdminCategories.CategoryTable.constructor | src/Admin/CategoryManagement.js:6-12 | no categories, loading, no error, page 1 |
| AdminCategories.CategoryTable.CurrentCategories | src/Admin/CategoryManagement.js:57-60 | rows `start` to `start+5` with `start = (page-1)*5`, at most five |
| AdminCategories.CategoryTable.FetchCategories | src/Admin/CategoryManagement.js:14-25 | a fetched list replaces the categories; a failure sets the error; loading ends |
| AdminCategories.CategoryTable.ClickPrev | src/Admin/CategoryManagement.js:108-116 | with the pager shown and page above 1, the page becomes `max(page-1, 1)` |
| AdminCategories.CategoryTable.ClickNext | src/Admin/CategoryManagement.js:130-136 | with the pager shown, the page becomes `min(page+1, totalPages)` and never exceeds totalPages |
| AdminCategories.CategoryTable.ClickPage | src/Admin/CategoryManagement.js:118-128 | a numbered button selects its page, which shows rows |
| AdminCategories.CategoryTable.HandleDelete | src/Admin/CategoryManagement.js:27-51 | once confirmed, the category is removed and "Category has been deleted." shown whenever the body parses, whatever the HTTP status; otherwise the list is kept and the error shown; the page is left as it was |
| AdminCategories.CategoryTable.HandleDeleteClamped | src/Admin/CategoryManagement.js:27-51 | the corrected delete: same removal and messages, then the page is clamped, so a non-empty list shows rows |
| CartPage.Total | src/pages/CartPage.jsx:76 | the `reduce` of price × quantity, 0 for an empty cart; `TotalAppend`, `TotalSplit` and `ExampleTotals` state its properties |
| CartPage.MarkUpdating | src/pages/CartPage.jsx:35-39 | sets `updating` on the entries of the product; `LatchKeepsTotal` and `LatchDisablesControls` state its effect |
| CartPage.Commit | src/pages/CartPage.jsx:48-54 | the new quantity and a released latch on the product's entries; `TotalAfterCommit` states its effect |
| CartPage.Release | src/pages/CartPage.jsx:57-61 | only the latch is released on the product's entries; `ReleaseAfterMark` states its effect |
| CartPage.Remove | src/pages/CartPage.jsx:70 | the filter by product id; `TotalAfterRemove` states its effect |
| CartPage.DecrementDisabled | src/pages/CartPage.jsx:105 | − is disabled at quantity 1 or while updating |
| CartPage.IncrementDisabled | src/pages/CartPage.jsx:113 | + is disabled while updating |
| CartPage.TotalAppend | src/pages/CartPage.jsx:76 | the total of two carts joined is the sum of their totals |
| CartPage.TotalSplit | src/pages/CartPage.jsx:65-76 | a cart's total is the total without one product plus that product's lines |
| CartPage.TotalAfterRemove | src/pages/CartPage.jsx:65-76 | removing a product lowers the total by exactly that product's lines |
| CartPage.LatchKeepsTotal | src/pages/CartPage.jsx:35-61 | setting or releasing the latch never changes the total |
| CartPage.TotalAfterCommit | src/pages/CartPage.jsx:48-54 | committing a quantity leaves the other entries as they were, and the total changes only by that product's lines |
| CartPage.LatchDisablesControls | src/pages/CartPage.jsx:103-113 | while an entry is latched, both its − and + buttons are disabled |
| CartPage.SettleReleasesLatch | src/pages/CartPage.jsx:48-61 | after commit or release, the entry's + button is enabled again |
| CartPage.ReleaseAfterMark | src/pages/CartPage.jsx:35-61 | latching then releasing restores a cart in which that product was not latched |
| CartPage.ExampleTotals | src/pages/CartPage.jsx:76 | two units at 500 total 1000; committing 3 gives 1500, and removing the product empties the cart |
| CartPage.CartView.constructor | src/pages/CartPage.jsx:5-10 | the user id is `CurrentUserId` of the stores: the session's non-empty id, else the local one; the cart starts empty and not loading |
| CartPage.CartView.Mount | src/pages/CartPage.jsx:12-30 | with no user id the page redirects to login and fetches nothing; otherwise the fetched entries (none when the body lacks them) replace the list, and a failed fetch keeps it |
| CartPage.CartView.BeginQuantityUpdate | src/pages/CartPage.jsx:32-46 | a quantity below 1 does nothing; otherwise only the matching entries are latched and the request is formed |
| CartPage.CartView.SettleQuantityUpdate | src/pages/CartPage.jsx:48-61 | success commits the quantity to the matching entries; failure only releases their latch |
| CartPage.CartView.UpdateQuantity | src/pages/CartPage.jsx:32-63 | the whole handler: no change and no request below 1; otherwise commit on success, or keep the old quantity and release the latch on failure |
| CartPage.CartView.RemoveItem | src/pages/CartPage.jsx:65-74 | success removes exactly the entries of that product, keeping order; failure changes nothing |
| CartPage.CartView.CartTotal | src/pages/CartPage.jsx:76 | the summary total is the fold `Total` of the current entries, recomputed on every render |
| Checkout.AddressAcceptedIff | src/pages/Checkout.js:32-42 | the address passes exactly when no field is the empty string (untrimmed) and the postal code has 5–6 digits |
| Checkout.SpacesPassAddressCheck | src/pages/Checkout.js:33 | fields of spaces pass, because the check does not trim |
| Checkout.AddressAlert | src/pages/Checkout.js:32-42 | the alert `validateForm` raises, or none; `AddressAcceptedIff` gives both directions |
| Checkout.PostalCodeOk | src/pages/Checkout.js:37 | `/^[0-9]{5,6}$/`: five or six ASCII digits and nothing else |
| Checkout.OrderOf | src/pages/Checkout.js:95-102 | the order carries the cart and the passed total; its payment info is `{paymentId, "Completed"}` exactly for Online |
| Checkout.CheckoutPage.constructor | src/pages/Checkout.js:11-24 | without navigation state the cart is empty and the total 0; the method starts as COD; no payment popup is open |
| Checkout.CheckoutPage.CheckCart | src/pages/Checkout.js:26-30 | an empty cart redirects home |
| Checkout.CheckoutPage.ChangeAddress | src/pages/Checkout.js:207-231 | each input replaces its own address field |
| Checkout.CheckoutPage.SelectPayment | src/pages/Checkout.js:245 | the radio sets the payment method |
| Checkout.CheckoutPage.PlaceOrder | src/pages/Checkout.js:89-140 | `placeOrder` of the render that saw a given address and method: an invalid address alerts and sends nothing; otherwise that order is sent, and home is the next page exactly when it is accepted |
| Checkout.CheckoutPage.HandleSubmit | src/pages/Checkout.js:142-151 | Online (through `handlePayment`) asks for a payment of the total without validating (alerting when the SDK is missing or the request fails) and an opened popup keeps this render's address; COD runs `placeOrder` with this address and empty payment info: an invalid address alerts and stays, a sent order ends loading, alerts by the reply and goes home only when accepted |
| Checkout.CheckoutPage.PaymentSucceeded | src/pages/Checkout.js:67-69 | the popup's handler runs the submitting render's `placeOrder`: it validates and sends the address kept at submit, as an Online order with `{paymentId, "Completed"}`; an invalid address alerts, stays off the home page and leaves `loading`; a sent order ends loading, alerts by the reply and goes home only when accepted |
| Register.EmailMatchesIff | src/pages/Register.jsx:31 | the hand-written test accepts exactly `[A-Za-z0-9._-]+@[A-Za-z0-9.-]+\.[A-Za-z]{2,6}` |
| Register.EmailMatches | src/pages/Register.jsx:31 | the pattern test written over the first `@` and the last `.`; `EmailMatchesIff` proves it is the pattern's language |
| Register.NameError | src/pages/Register.jsx:22-26 | the name's message, if any; `NameAcceptedIff` states when |
| Register.EmailError | src/pages/Register.jsx:28-34 | the e-mail's message, if any; `EmailAcceptedIff` states when |
| Register.MobileError | src/pages/Register.jsx:36-40 | the mobile's message, if any; `MobileAcceptedIff` states when |
| Register.IsIndianMobile | src/pages/Register.jsx:38 | `/^\+91\d{10}$/`: "+91" then exactly ten ASCII digits, thirteen characters in all (also Profile.jsx:67) |
| Register.PasswordError | src/pages/Register.jsx:42-46 | the password's message, if any; `PasswordAcceptedIff` states when |
| Register.NameAcceptedIff | src/pages/Register.jsx:22-26 | the name passes exactly when it is not blank and has no digit; blank gives "Name is required." |
| Register.EmailAcceptedIff | src/pages/Register.jsx:28-34 | the e-mail passes exactly when it matches the pattern |
| Register.MatchedEmailNotBlank | src/pages/Register.jsx:28-31 | a matching e-mail is never blank, so the "required" branch cannot hide a match |
| Register.MobileAcceptedIff | src/pages/Register.jsx:36-40 | the mobile passes exactly when it is "+91" followed by ten digits |
| Register.PasswordAcceptedIff | src/pages/Register.jsx:42-46 | the password passes exactly when it is not blank and its untrimmed `.length`, in UTF-16 code units, is at least 6; within the Basic Multilingual Plane that is six characters |
| Register.AstralPasswordAccepted | src/pages/Register.jsx:44 | four letters and one emoji (five characters, six code units) pass the minimum |
| Register.FormValidIff | src/pages/Register.jsx:19-50 | the form is valid exactly when the four fields pass (the password measured in UTF-16 code units); gender is not checked |
| Register.FieldsValidIff | src/pages/Register.jsx:19-50 | no field has an error exactly when no field check fails |
| Register.ValidationErrorsSpec | src/pages/Register.jsx:19-49 | the dictionary holds one message per failing field and no other key, and is empty exactly when the form is valid |
| Register.ValidationErrors | src/pages/Register.jsx:19-49 | the `newErrors` object `validateForm` builds: the four fields' messages, each only when that field fails |
| Register.Payload | src/pages/Register.jsx:57-63 | the request carries the five form fields under the API's names |
| Register.ReplyMessage | src/pages/Register.jsx:67-82 | `status === 1` gives the success message; another reply gives its message or the default; a thrown request gives the error message |
| Register.Succeeded | src/pages/Register.jsx:67 | a reply counts as a registration exactly when it arrived with `status === 1` |
| Register.RegisterPage.constructor | src/pages/Register.jsx:6-16 | the form starts empty, with the mobile set to "+91" |
| Register.RegisterPage.HandleChange | src/pages/Register.jsx:86-99 | a mobile value not starting with "+91" is ignored, so the mobile always starts with "+91"; other fields are copied |
| Register.RegisterPage.ValidateForm | src/pages/Register.jsx:19-50 | the stored errors are the form's validation errors, and the result is whether there are none |
| Register.RegisterPage.HandleSubmit | src/pages/Register.jsx:52-84 | an invalid form sends nothing; a valid one sends the payload, shows the reply's message, and leads to "/login" exactly on `status === 1` |
| Register.RegisterPage.ReadReply | src/pages/Register.jsx:64-82 | success is `status === 1`, and the message shown is the reply's |
| EditCategory.NameError | src/Admin/EditCategory.js:31-37 | the name's message, if any; `NameErrorPriority` states when |
| EditCategory.DescriptionError | src/Admin/EditCategory.js:39-45 | the description's message, if any; `CategoryErrorsSpec` states when |
| EditCategory.CategoryErrorsSpec | src/Admin/EditCategory.js:28-48 | each field's key holds its own message, and the dictionary is empty exactly when the name is not blank with 3–50 UTF-16 code units and the description is not blank with 5–200 |
| EditCategory.CategoryErrors | src/Admin/EditCategory.js:28-48 | the `errors` object of `validateInputs`: a key per failing field with its first failing message |
| EditCategory.NameErrorPriority | src/Admin/EditCategory.js:31-37 | "required" when blank, else "at least 3" when shorter than 3, else "cannot exceed 50" when longer than 50, measured untrimmed in UTF-16 code units |
| EditCategory.Payload | src/Admin/EditCategory.js:56-59 | the trimmed name and description; `PayloadOfValidNonEmpty` and `PaddedShortNamePasses` state what is sent |
| EditCategory.AstralNameAccepted | src/Admin/EditCategory.js:33 | a name of two characters, one of them an emoji, meets the three-unit minimum |
| EditCategory.PayloadOfValidNonEmpty | src/Admin/EditCategory.js:54-59 | a payload that passed validation has a non-empty trimmed name and description |
| EditCategory.PaddedShortNamePasses | src/Admin/EditCategory.js:33-58 | as written, "a" plus two spaces passes the three-character minimum and is sent as "a" |
| EditCategory.TrimmedNameBoundsPayload | src/Admin/EditCategory.js:31-37 | with the check measured after trimming, a sent name has 3 to 50 UTF-16 code units |
| EditCategory.TrimmedDescriptionBoundsPayload | src/Admin/EditCategory.js:39-45 | with the check measured after trimming, a sent description has 5 to 200 UTF-16 code units |
| EditCategory.TrimmedNameCheckAgrees | src/Admin/EditCategory.js:31-37 | for a name with no surrounding white space, the trimmed and untrimmed checks agree |
| EditCategory.TrimmedDescriptionCheckAgrees | src/Admin/EditCategory.js:39-45 | the same agreement for the description |
| EditCategory.ReplyToast | src/Admin/EditCategory.js:70-89 | ok gives the success toast; not ok gives the server's message or the default; a thrown request gives "Something went wrong"; the toast is never empty |
| EditCategory.FailedValidationIsFinal | src/Admin/EditCategory.js:122-127 | as written, once a submit records an error, no later sequence of edits and clicks sends an update, and the button stays disabled |
| EditCategory.SubmitEnabled | src/Admin/EditCategory.js:127 | the Update button is enabled exactly while no validation error is recorded |
| EditCategory.Step | src/Admin/EditCategory.js:47-54 | as written: typing a field (lines 105 and 115) sets only its value; a submit, only when enabled, records the errors of the current values |
| EditCategory.Sends | src/Admin/EditCategory.js:51-60 | an enabled submit whose values pass sends their trimmed payload; nothing else sends |
| EditCategory.Run | src/Admin/EditCategory.js:47-127 | the form state after a sequence of edits and clicks, event by event, as written or with clearing edits |
| EditCategory.ClearingEditsRecover | src/Admin/EditCategory.js:104-127 | when edits clear the recorded errors, correcting both fields and submitting sends the update |
| EditCategory.EditCategoryPage.constructor | src/Admin/EditCategory.js:9-12 | empty fields, no error, no recorded errors |
| EditCategory.EditCategoryPage.Load | src/Admin/EditCategory.js:14-26 | a found category fills the fields; a missing one sets "Category not found"; a failed fetch sets its error |
| EditCategory.EditCategoryPage.ChangeName | src/Admin/EditCategory.js:104-106 | typing the name is one `Step`: the value changes and the recorded errors stay |
| EditCategory.EditCategoryPage.ChangeDescription | src/Admin/EditCategory.js:114-116 | typing the description is one `Step` |
| EditCategory.EditCategoryPage.ChangeNameClearing | src/Admin/EditCategory.js:104-106 | the corrected edit: the value changes and the button is enabled again |
| EditCategory.EditCategoryPage.ChangeDescriptionClearing | src/Admin/EditCategory.js:114-116 | the corrected description edit |
| EditCategory.EditCategoryPage.ValidateInputs | src/Admin/EditCategory.js:28-49 | the stored errors are `CategoryErrors` of the fields, and the result is whether there are none |
| EditCategory.EditCategoryPage.ClickUpdate | src/Admin/EditCategory.js:51-90 | the click is one `Step`; an update is sent only by an enabled, passing submit, with the trimmed values; a toast shows exactly when it is sent; an ok reply leads to the category list |
| AddCategory.FieldError | src/Admin/AddCategory.js:24-41 | name: "required" when blank, else "at least 3"; description: "required" when blank, else "at least 10", lengths in UTF-16 code units; any other field: no error |
| AddCategory.FieldErrorEmptyIff | src/Admin/AddCategory.js:24-41 | for either field, the message is empty exactly when the value is not blank and its `.length` (UTF-16 code units) reaches the field's minimum |
| AddCategory.NameRequiredMessage | src/Admin/AddCategory.js:56 | the loop's message for the name is "category name is required" (the first underscore replaced) |
| AddCategory.DescriptionRequiredMessage | src/Admin/AddCategory.js:56 | the loop's message for the description is "category description is required" |
| AddCategory.RequiredErrorsSpec | src/Admin/AddCategory.js:52-58 | the loop records a field exactly when it is blank, with its required message |
| AddCategory.RequiredErrorsEmptyIff | src/Admin/AddCategory.js:49-61 | the loop records nothing exactly when both fields are not blank |
| AddCategory.ApiErrorOf | src/Admin/AddCategory.js:70-86 | a non-ok reply shows the server's message or "Something went wrong", never an empty text; a thrown request shows its error |
| AddCategory.AddCategoryPage.constructor | src/Admin/AddCategory.js:7-14 | both fields empty, no errors, no messages |
| AddCategory.AddCategoryPage.HandleChange | src/Admin/AddCategory.js:17-21 | the field takes the value, and its error becomes `FieldError` of it |
| AddCategory.AddCategoryPage.RequiredCheck | src/Admin/AddCategory.js:49-61 | the loop's errors are `RequiredErrors` of the form, and it is valid exactly when both fields are not blank; the length rules do not block |
| AddCategory.AddCategoryPage.HandleSubmit | src/Admin/AddCategory.js:44-87 | a blank field blocks the post and records the required errors; success resets the form and errors and leads to the category list; failure keeps the form and sets the API error |
| AddProduct.FieldCheck | src/Admin/AddProduct.js:39-65 | the per-field switch; the image, or any other field, gives no error |
| AddProduct.InputError | src/Admin/AddProduct.js:69-74 | the message `validateInputs` records for one input; the image has none |
| AddProduct.InputErrors | src/Admin/AddProduct.js:67-78 | the `newErrors` dictionary; `InputErrorsSpec` states its content |
| AddProduct.InputErrorsSpec | src/Admin/AddProduct.js:67-78 | a field is recorded exactly when its check fails, with its message; no form-level key |
| AddProduct.InputErrorsEmptyIff | src/Admin/AddProduct.js:67-79 | the form passes exactly when name, description and brand are not blank, the price is a positive number and a category is chosen; the image is not required |
| AddProduct.ChecksAgree | src/Admin/AddProduct.js:39-79 | typing validation and submit validation give the same message for each field |
| AddProduct.AddProductPage.constructor | src/Admin/AddProduct.js:6-18 | an empty form, no errors, not loading |
| AddProduct.AddProductPage.ChangeText | src/Admin/AddProduct.js:28-37 | one text field takes the value and its error is recomputed; the other fields are unchanged |
| AddProduct.AddProductPage.ChangeImage | src/Admin/AddProduct.js:29-36 | the image takes the chosen file, and its error is set to empty |
| AddProduct.AddProductPage.ValidateInputs | src/Admin/AddProduct.js:67-79 | the errors become `InputErrors` of the form, and the result is whether the form passes |
| AddProduct.AddProductPage.HandleSubmit | src/Admin/AddProduct.js:81-102 | nothing is posted unless the form passes; success shows the message and leads to the product list; failure replaces the errors with the form-level message |
| EditProduct.FirstFailure | src/Admin/EditProduct.js:44-65 | the message of the first failing input; `FirstFailureSpec` states which |
| EditProduct.FirstFailureSpec | src/Admin/EditProduct.js:44-68 | the reported message is that of the first failing check in order, and there is none exactly when every check passes |
| EditProduct.EditPassesIff | src/Admin/EditProduct.js:44-68 | the edit chain passes exactly when the add form's five checks pass |
| EditProduct.Multipart | src/Admin/EditProduct.js:75-84 | the five text fields are always sent, in order; the image is sent only when a new one was chosen |
| EditProduct.ImageSentIff | src/Admin/EditProduct.js:82-84 | an image entry is present exactly when a new image was chosen |
| EditProduct.EditProductPage.constructor | src/Admin/EditProduct.js:11-21 | empty fields, no image, no preview, no error |
| EditProduct.EditProductPage.Load | src/Admin/EditProduct.js:23-31 | a loaded product fills the form and the preview; a failure changes nothing |
| EditProduct.EditProductPage.HandleChange | src/Admin/EditProduct.js:33-35 | one field takes the value and the others are unchanged |
| EditProduct.EditProductPage.HandleImageChange | src/Admin/EditProduct.js:37-41 | the chosen file becomes the image, and its object URL the preview |
| EditProduct.EditProductPage.ValidateInputs | src/Admin/EditProduct.js:44-68 | the error is the first failure's message, or empty, and the result is whether there is none |
| EditProduct.EditProductPage.HandleSubmit | src/Admin/EditProduct.js:70-117 | nothing is sent when validation fails; otherwise the multipart body is sent; success alerts and goes to the product list; failure alerts |
| Session.BrowserStorage.constructor | src/components/Header.jsx:12-21 | the two stores hold the given maps |
| Session.GetItem | src/components/Header.jsx:21 | `getItem` gives the stored value, or nothing when the key is absent |
| Session.Present | src/pages/Profile.jsx:18-22 | a stored value counts as present only when it is non-empty (JavaScript truthiness) |
| Session.CurrentUserId | src/pages/Home.jsx:14-15 | the user id comes from session storage when it is there, otherwise from local storage |
| Session.CurrentUserIdIff | src/pages/CartPage.jsx:10 | an id is found exactly when either store holds a non-empty one |
| Header.StoredCount | src/components/Header.jsx:21-22 | with no stored count the badge count is 0; otherwise it is `parseInt` of the stored text |
| Header.BadgeShown | src/components/Header.jsx:82 | the badge is drawn exactly when the count is a number above 0 |
| Header.StoredCountRoundTrip | src/components/Header.jsx:21-39 | a count written as decimal text parses back to itself, and the badge shows exactly when it is positive |
| Header.HeaderBar.constructor | src/components/Header.jsx:6-8 | logged out, count 0 |
| Header.HeaderBar.UpdateCartCount | src/components/Header.jsx:20-23 | the count is re-read from the stored `cartCount` |
| Header.HeaderBar.FetchCartCount | src/components/Header.jsx:29-49 | without a user id nothing is requested; an ok reply sets the count and stores it; anything else changes nothing |
| Header.HeaderBar.Mount | src/components/Header.jsx:11-27 | logged in exactly when a token is stored; the count is fetched only then, with a user id; an ok reply sets the count and the stored `cartCount`, and anything else leaves both |
| Header.HeaderBar.HandleLogout | src/components/Header.jsx:51-60 | local storage is cleared, `cartCount` removed, the count is 0 with no badge, and the next page is "/" |
| Login.OrDefault | src/pages/Login.jsx:25-50 | a server message is shown when non-empty, otherwise the default, so a non-empty default never yields an empty text |
| Login.RedirectTarget | src/pages/Login.jsx:45 | "/admin" exactly for the role "admin", otherwise "/" |
| Login.WelcomeMessage | src/pages/Login.jsx:40 | the toast names the user and "Admin Panel" or "Our Home Page" |
| Login.AfterLogin | src/pages/Login.jsx:29-37 | `localStorage` after a login; `AfterLoginWrites` and `RoleWrittenOnce` state its content |
| Login.AfterLoginWrites | src/pages/Login.jsx:29-34 | the six keys hold the new values, and every unrelated key is kept |
| Login.RoleWrittenOnce | src/pages/Login.jsx:35-37 | a stored role survives a login; a missing one is set from the reply |
| Login.SecondLoginKeepsRole | src/pages/Login.jsx:35-37 | a second login without logout keeps the first login's role |
| Login.LoginPage.constructor | src/pages/Login.jsx:8-12 | empty form, no error, not loading, no toast |
| Login.LoginPage.HandleSubmit | src/pages/Login.jsx:15-52 | "fail" or a thrown request sets the error and writes nothing, leaving the toast as it was; success writes the login, shows the welcome toast and names the redirect; loading ends either way |
| Storefront.IdSet | src/pages/Home.jsx:36 | `new Set(ids)` holds exactly the listed ids |
| Storefront.IdSetSize | src/pages/Home.jsx:33-38 | for a cart listing each product once, the id set has as many members as the stored `cartCount` |
| Storefront.FailureMessage | src/pages/Home.jsx:86-92 | a failed add shows the server's message, or the default; never an empty text |
| Storefront.ProductGrid.constructor | src/pages/Home.jsx:7-10 | no products, no user, an empty id set, loading |
| Storefront.ProductGrid.Mount | src/pages/Home.jsx:13-48 | with no user id the page goes to login and fetches nothing; otherwise the products are shown once both requests answer, and the cart-id set and `cartCount` follow only when the cart reply holds a cart |
| Storefront.ProductGrid.HandleAddToCart | src/pages/Home.jsx:50-94 | without a user only a warning shows; otherwise one unit is posted; the id set and `cartCount` are rebuilt from the refetched cart, and are unchanged on failure |
| Storefront.ProductGrid.AddDisabled | src/pages/Home.jsx:151-158 | a product's Add button is disabled, and reads "Added", exactly when its id is in the cart-id set |
| ProductPage.BuyNow | src/pages/ProductPage.jsx:102-114 | checkout receives a one-entry cart with quantity 1, and the product's price as the total |
| ProductPage.BuyNowTotal | src/pages/ProductPage.jsx:102-114 | that total is the one the cart page would compute for the same cart |
| ProductPage.ClickAdd | src/pages/ProductPage.jsx:147-158 | Add posts only a product whose stock is not 0 and whose id is not in the cart-id set, with a user (without one, the login warning); a refetched cart rebuilds the set, stores its size as `cartCount` and confirms; a failure shows its message and keeps the set and the session |
| ProductPage.OffersPurchase | src/pages/ProductPage.jsx:147 | the purchase buttons are shown unless the stock is exactly 0 |
| ProductPage.ClickBuyNow | src/pages/ProductPage.jsx:102-148 | Buy Now is offered exactly when the stock is not 0, and its one-entry cart totals the product's price |
| Categories.FilteredProducts | src/pages/Categories.jsx:33-35 | the conditional filter; `FilteredProductsSpec` states its content |
| Categories.FilteredProductsSpec | src/pages/Categories.jsx:33-35 | "all" shows every product; another selection shows exactly its category's products; the result keeps the original order |
| Categories.UnlistedCategoryOnlyUnderAll | src/pages/Categories.jsx:6-35 | a product whose category has no button appears only under "all" |
| Categories.EmptyCatalogueCategories | src/pages/Categories.jsx:6-35 | with the page's own two products, tablets, audio and accessories show nothing |
| MyOrders.MyOrdersPage.ClickCancel | src/pages/MyOrders.js:117-119 | a Cancel click sends the delete exactly when confirmed for an order that is not "Delivered", so an already cancelled order is cancelled again; success removes that id and shows the server's message, failure alerts and changes nothing |
| MyOrders.CancelOffered | src/pages/MyOrders.js:117 | the Cancel button is shown for every order whose status is not "Delivered" |
| MyOrders.MyOrdersPage.constructor | src/pages/MyOrders.js:10-12 | no orders, loading, no error |
| MyOrders.MyOrdersPage.Mount | src/pages/MyOrders.js:14-38 | a missing user id or token sets the error and requests nothing; otherwise the fetched orders or the load error are shown |
| MyOrders.MyOrdersPage.CancelOrder | src/pages/MyOrders.js:40-64 | the delete is sent exactly when confirmed; success removes exactly the orders with that id; failure alerts and changes nothing |
| MyOrders.CancelRemovesOnlyThatOrder | src/pages/MyOrders.js:58 | the remaining orders keep their order, are exactly those with another id, and an absent id changes nothing |
| Profile.ProfileEmailMatches | src/pages/Profile.jsx:74 | the e-mail test over the first `@`; `ProfileEmailMatchesIff` proves it is the pattern's language |
| Profile.ProfileError | src/pages/Profile.jsx:53-81 | the first failing check's message; `ProfileErrorPriority` and `ProfileAcceptedIff` state it |
| Profile.ProfileEmailMatchesIff | src/pages/Profile.jsx:74 | the hand-written test accepts exactly `[^\s@]+@[^\s@]+\.[^\s@]+` |
| Profile.ProfileAcceptedIff | src/pages/Profile.jsx:53-81 | an edit passes exactly when the name is not blank and not all digits, the phone is "+91" and ten digits, and the e-mail matches; gender is not checked |
| Profile.ProfileErrorPriority | src/pages/Profile.jsx:53-81 | a later check's message implies that every earlier check passed |
| Profile.Merged | src/pages/Profile.jsx:93-99 | the four edited fields are replaced, and the id and role kept |
| Profile.MergeRoundTrip | src/pages/Profile.jsx:93-107 | saving what was loaded changes nothing, and a merged user reloads as the edit |
| Profile.ProfilePage.constructor | src/pages/Profile.jsx:7-19 | the stored user id and token are read; nothing loaded yet |
| Profile.ProfilePage.Mount | src/pages/Profile.jsx:21-46 | a missing id or token sets the error and fetches nothing; a loaded user fills the edit buffer; a failure sets the load error |
| Profile.ProfilePage.StartEditing | src/pages/Profile.jsx:210 | Edit turns editing on |
| Profile.ProfilePage.HandleChange | src/pages/Profile.jsx:48-51 | one field of the buffer takes the value |
| Profile.ProfilePage.HandleSave | src/pages/Profile.jsx:83-113 | a failing edit alerts its message and sends nothing; success merges the edit and ends editing; failure keeps the user and editing |
| JsText.TrimStart | src/pages/Register.jsx:22 | drops leading white space; the kept part starts with no white space |
| JsText.TrimEnd | src/pages/Register.jsx:22 | drops trailing white space; the kept part ends with no white space |
| JsText.Trim | src/Admin/EditCategory.js:57-58 | `trim()`; `BlankIffTrimEmpty` and `TrimIsInfix` state what it keeps |
| JsText.Utf16Length | src/pages/Register.jsx:44 | `.length` counts UTF-16 code units, between one and two per character |
| JsText.Utf16LengthAppend | src/Admin/EditCategory.js:33-45 | the length of a concatenation is the sum of the lengths |
| JsText.BmpLength | src/Admin/AddCategory.js:29-36 | on text within the Basic Multilingual Plane `.length` is the number of characters |
| JsText.TrimStartIsSuffix | src/Admin/EditCategory.js:57 | `trimStart` drops a prefix of white space |
| JsText.TrimEndIsPrefix | src/Admin/EditCategory.js:57 | `trimEnd` drops a suffix of white space |
| JsText.BlankIffTrimEmpty | src/pages/Register.jsx:22 | `!s.trim()` holds exactly when every character is JavaScript white space |
| JsText.TrimIsInfix | src/Admin/EditCategory.js:57-58 | a trimmed value is a contiguous piece of the original |
| JsText.TrimOfUnpadded | src/Admin/EditCategory.js:57-58 | a value with no surrounding white space is its own trim |
| JsText.IndexOf | src/Admin/AddCategory.js:56 | `indexOf` gives the first occurrence, or -1 exactly when there is none |
| JsText.IndexOfAt | src/Admin/AddCategory.js:56 | an occurrence with none before it is the one `indexOf` finds |
| JsText.LastIndexOf | src/pages/Register.jsx:31 | the last occurrence, or -1 exactly when there is none |
| JsText.ReplaceFirst | src/Admin/AddCategory.js:56 | `replace` with a string pattern changes only the first occurrence, or nothing when there is none |
| JsNumbers.ToDecimal | src/components/Header.jsx:39 | a count written as text is non-empty decimal digits with no leading zero |
| JsNumbers.DecimalValue | src/components/Header.jsx:39 | that text denotes the count |
| JsNumbers.ParseInt | src/components/Header.jsx:22 | `parseInt(s, 10)`; `ParseIntNaN` and `ParseIntOfDecimal` state its results |
| JsNumbers.ParseIntNaN | src/components/Header.jsx:22 | `parseInt` is NaN exactly when the text after leading white space and a sign has no leading digit |
| JsNumbers.ParseIntOfDecimal | src/components/Header.jsx:22 | `parseInt` of a count's decimal text gives back the count |
| JsNumbers.IsPositiveNumber | src/Admin/AddProduct.js:50 | the price test `!isNaN(v) && v > 0` on a trimmed decimal literal |
| JsNumbers.PositiveNumberOfDecimal | src/Admin/AddProduct.js:50 | a whole-number price passes the price check exactly when it is above 0 |
| JsNumbers.NegativeIsNotPositive | src/Admin/AddProduct.js:50 | a price starting with "-" never passes |
| Lists.RemoveKey | src/Admin/Users.js:153 | `filter(x => key(x) !== k)` keeps exactly the elements with another key |
| Lists.KeepKey | src/pages/Categories.jsx:35 | `filter(x => key(x) === k)` keeps exactly the elements with that key |
| Lists.MapKey | src/Admin/Users.js:117 | `map` by key replaces exactly the matching elements and keeps the length |
| Lists.RemoveKeyIsSubsequence | src/Admin/ProductManagement.js:48 | a filter by key keeps the order of what remains |
| Lists.KeepKeyIsSubsequence | src/pages/Categories.jsx:35 | the category filter keeps the order of what remains |
| Lists.RemoveKeyAppend | src/Admin/CategoryManagement.js:43 | filtering two joined lists filters each part |
| Lists.RemoveKeyUnchanged | src/pages/MyOrders.js:58 | a filter changes nothing exactly when no element has that key |
| Lists.RemoveAfterMap | src/pages/CartPage.jsx:48-70 | replacing a product's entries and then removing that product is the same as just removing it |

## Left out

- HTTP traffic: every `axios`/`fetch` call is a parameter of the handler that makes it. That parameter is a success flag, a response value, or an `Option` for "the body held data".
- The Razorpay SDK and its popup are left out. `HandleSubmit` on the Online path returns the amount it would request and keeps the submitting render's address, and `PaymentSucceeded` stands for the SDK's success callback. The popup's dismissal and its failure callbacks are not modelled.
- SweetAlert2, react-toastify and `alert`: a confirmation is a boolean parameter, and a message is an output string.
- JSX rendering, Tailwind classes and framer-motion animation are left out, except for the `disabled` conditions and the conditional rendering that decide which buttons work. App.js (routing), About, Footer, AdminPanel, AdminLayout, Dashboard, OrderDetails and UpdateCategory hold no rules of their own and are not part of this model.
- Timers are left out. A navigation delayed by `setTimeout` (AddCategory, EditCategory, AddProduct, Register, Login) is returned at once as the route the handler moves to, and the success message that Users.js clears after three seconds is not cleared.
- The `storage` event broadcast is a synchronous re-read of `sessionStorage` (`Header.HeaderBar.UpdateCartCount`), not concurrency.
- Interleaving of in-flight async handlers: each handler runs to completion. `CartPage.CartView.BeginQuantityUpdate` and `SettleQuantityUpdate` keep the two halves of the cart update apart, so the latch can be reasoned about across calls.
- The cancel modal of Orders.js and the delete modal of Users.js are left out: their flags are never set to true.
- Floating-point money and `toFixed(2)` are left out: prices and totals are integers.
- JsNumbers.IsPositiveNumber: `isNaN(v)` and `v <= 0` are modelled for decimal literals only (an optional sign, digits, an optional fraction, surrounded by white space). Exponent, hexadecimal and `Infinity` forms count as not positive.
- EditProduct.EditProductPage.HandleSubmit: the price is held as a string. The loaded product's numeric price and `toString()` are not modelled.
- AddProduct.AddProductPage.HandleSubmit: the multipart body (every key of the form, including a missing image sent as the text "null") is not built. The method returns the form it would send.
- AddProduct.AddProductPage.ChangeImage: typing validation runs on the file picker's value, which the image case ignores, so its error is always empty.
- Storefront.ProductGrid.HandleAddToCart: when the post succeeds but the refetch fails, the source first shows the success toast and then the error. The model reports only the final message.
- AddCategory.AddCategoryPage.RequiredCheck: the `validateField` calls inside the loop are overwritten by `setErrors(newErrors)` in the same handler, so they are not modelled.
- CartPage.CartView.Mount: the `fetchCart` guard and the effect's redirect are modelled as one step.
- ProductPage.BuyNow: the entry's `updating` flag is set to false. The source's object has no such field, and checkout ignores it.
- Pagination.PageCount: `Math.ceil(0 / 5)` is 0, so an empty orders table shows "Page 1 of 0" and an empty products table enables Next (`AdminProducts.NextOnEmptyTableIsRefused`).
- Login.LoginPage.HandleSubmit: the form fields' `onChange` handlers and the request body are not modelled, only the reply's effect.
- Checkout.CheckoutPage.PlaceOrder: the user id is a parameter standing for `localStorage.getItem("userId")`, read when the order is placed.
- Checkout.AddressAlert: the address inputs carry `required`, so the browser blocks a submit with an empty field before `validateForm` runs; the "fill all fields" alert is unreachable from a normal submit. The browser's constraint check is not modelled.
- ProductPage.BuyNow: the source's one-item cart is `{_id, product_name, product_price, quantity}`, a different shape from the cart page's entries (`productId: {...}`). The model uses one entry type for both, so it does not show that the two checkout routes post items of different shapes.
- AdminUsers.EditChange: it accepts the e-mail field, but the e-mail input is disabled (src/Admin/Users.js:246), so that case is never reached from the modal.
- JsText.Utf16Length: strings are sequences of Unicode scalar values, so a lone surrogate, which a JavaScript string can hold, is not modelled.

## Findings

| source | as written | input that shows it | evidently intended | confidence | as-written member | corrected member |
|---|---|---|---|---|---|---|
| src/Admin/CategoryManagement.js:43-108 | a delete filters the list but leaves `currentPage`, and the pager is hidden when one page remains | six categories, on page 2, delete the sixth: five remain, the pager disappears and page 2 shows nothing with no way back | the page is pulled back into 1..totalPages after the list shrinks | not executed | AdminCategories.DeleteStrandsLastPage | AdminCategories.CategoryTable.HandleDeleteClamped |
| src/Admin/EditCategory.js:47-127 | `validationErrors` is recomputed only on submit, and submit is disabled while it is non-empty | clear the name and click Update: "required" is recorded, the button is disabled, and no edit re-enables it | editing a field clears the recorded errors so that the form can be submitted again | not executed | EditCategory.FailedValidationIsFinal | EditCategory.ClearingEditsRecover |
| src/Admin/EditCategory.js:33-58 | the length limits are measured on the untrimmed value, but the trimmed value is sent | the name "a" followed by two spaces passes the 3-character minimum and is saved as "a" | the limits are measured on the value that is sent | not executed | EditCategory.PaddedShortNamePasses | EditCategory.TrimmedNameBoundsPayload |

The page classes model the code as written. For the first finding, `HandleDeleteClamped` sits beside
`HandleDelete` and proves the page shows rows after any delete (`ClampedPageNonEmpty`). For the second,
`ChangeNameClearing` and `ChangeDescriptionClearing` are the corrected edit handlers, proved to re-enable
the button. For the third, `NameErrorTrimmed` and `DescriptionErrorTrimmed` are the corrected checks, and
`TrimmedNameCheckAgrees` shows they coincide with the written ones on unpadded input.

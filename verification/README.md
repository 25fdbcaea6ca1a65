# Electronic store front end — client-side rules in Dafny

This project models the logic that the React front end of an electronic store runs in the
browser. It covers:

- **Admin analytics.** The daily statistics card uses today's record. When today shows no
  sales, it folds the last seven days' records: flow counts are summed, snapshot counts
  take their maximum, and the average is recomputed. The card raises a different toast for
  each outcome and for each kind of failure. A `Date` is formatted for the backend.
- **Payment page.** Typed card numbers are grouped by four and expiry dates get a slash.
  The form is validated for the chosen method. The paid order is built, and a failed
  payment is reported, sometimes with a redirect to the cart.
- **Inventory screen.** Each row gets a stock status and the two alert panels are built.
  The quick "Restock / +1 / −1" buttons, a pushed inventory message and the bulk-edit list
  are modelled too.
- **Notification bell.** The screen keeps a list of notifications and an unread counter
  beside it, and updates both on load, push, click and "mark all as read".
- **Admin product row.** This covers the row background, the stock change computed by the
  quick stock dialog, and the quantity badges.
- **Returns screen.** This covers status colours, opening a return, and the one or two
  requests sent when a return is processed.
- **Add-category form.** This covers validation, field changes, and the reset after success
  or "Clear".
- **Order service.** `createOrder` checks the required fields and fills in the default
  statuses. `getAllOrders` builds its query string.
- **Store page.** This covers the category filter and the stock line under each product.

Shared modules model the JavaScript the screens lean on:

- `JsValue`: truthiness, `x || default`, and replies that either resolve or throw an error
  carrying an optional HTTP response.
- `Text`: `\s` and `trim()`, decimal rendering, `parseInt`, `includes`, `join`/`split`,
  and ASCII `toLowerCase`.
- `Lists`: `filter` and order-preserving sub-lists.

The form follows the source. Pure expressions become functions with lemmas. State that the
handlers replace becomes a class with `seq`/`map` fields, whose methods state the new state
and the invariant they keep. Each request's outcome and the clock are method parameters.

Properties worth noting:

- The seven-day fold equals a field-by-field sum/maximum definition, and it does not depend
  on the order of the days.
- A formatted card number strips back to the typed digits, and formatting it twice changes
  nothing.
- The error map of the payment form is empty exactly when every field check passes.
- The test card passes every card check.
- The getAllOrders query splits back into its four parameters.
- The unread counter stays equal to the number of unread notifications across load, click
  and "mark all as read". This needs unique ids: two notifications that share an id break
  it. It also fails when a notification that is already read is pushed, because the counter
  goes up by one whatever the notification says.

## Model

| member | source | states |
|---|---|---|
| Analytics.DefaultedFields | src/pages/admin/AdminAnalytics.jsx:106-114 | each of the seven fields of the daily response reads as 0 when it is missing and keeps its value when present (a present 0 stays 0) |
| Analytics.Peak | src/pages/admin/AdminAnalytics.jsx:142-143 | the maximum of one snapshot count over the days is at least every day's value, at least 0, and is 0 or attained by some day |
| Analytics.FoldCombines | src/pages/admin/AdminAnalytics.jsx:137-151 | folding from any accumulator is that accumulator combined with the aggregate of the days |
| Analytics.FoldIsAggregate | src/pages/admin/AdminAnalytics.jsx:137-151 | the `reduce` from the zero record sums revenue, total, completed and cancelled orders and takes the maximum of products and customers |
| Analytics.StepCommutes | src/pages/admin/AdminAnalytics.jsx:137-144 | two fold steps can be swapped |
| Analytics.FoldPullOut | src/pages/admin/AdminAnalytics.jsx:137-151 | folding a day first gives the same totals as folding it in its place |
| Analytics.FoldPermutation | src/pages/admin/AdminAnalytics.jsx:137-151 | two lists of the same days fold to the same totals from any accumulator |
| Analytics.FoldOrderIrrelevant | src/pages/admin/AdminAnalytics.jsx:135-151 | the aggregate does not depend on the order the server lists the days in |
| Analytics.WithAverage | src/pages/admin/AdminAnalytics.jsx:153-156 | the average times the order count gives the revenue when there are orders, else it is 0; the other fields are kept |
| Analytics.Reconcile | src/pages/admin/AdminAnalytics.jsx:104-176 | today's record is shown iff it has data; otherwise the aggregate iff the range has days, else the all-zero record |
| Analytics.CancellationsAloneFallBack | src/pages/admin/AdminAnalytics.jsx:116-121 | a day with only cancellations, products or customers still falls back to the range |
| Analytics.NoticeFor | src/pages/admin/AdminAnalytics.jsx:158-174 | no toast for today's record, an info toast for the aggregate, a warning for the empty record |
| Analytics.FailureText | src/pages/admin/AdminAnalytics.jsx:181-194 | the error toast is never empty, and the server's own message is used for statuses other than 404 and 403 |
| Analytics.Pad | src/pages/admin/AdminAnalytics.jsx:63 | a number below 10 gets one leading '0'; the result is all digits and reads back as the number |
| Analytics.PadReadsBack | src/pages/admin/AdminAnalytics.jsx:63 | `padStart(2, '0')` of a decimal number is digits whose value is the number |
| Analytics.FormatDateForBackend | src/pages/admin/AdminAnalytics.jsx:62-71 | the text reads back as the date: the year, then month (counted from 1), day, hours, minutes and seconds as two decimal digits each, at fixed positions after '-', '-', ' ', ':', ':' |
| Analytics.Layout | src/pages/admin/AdminAnalytics.jsx:70 | where each two-character field sits in the template |
| Analytics.AnalyticsDashboard.constructor | src/pages/admin/AdminAnalytics.jsx:33-36 | no statistics and loading at first |
| Analytics.AnalyticsDashboard.FetchDailyStats | src/pages/admin/AdminAnalytics.jsx:79-198 | the range is requested iff today's record has no data; a failure keeps the old statistics and raises the matching toast; otherwise the statistics and toast are those of Reconcile; loading always ends |
| Payment.SpaceAfterFoursIsGrouped | src/pages/users/PaymentPage.jsx:87 | the regex replacement is the grouped layout plus one trailing space when the length is a positive multiple of four |
| Payment.GroupedEnds | src/pages/users/PaymentPage.jsx:87 | the grouped layout starts and ends with the input's first and last characters |
| Payment.TrimmedGroups | src/pages/users/PaymentPage.jsx:87 | `trim()` removes exactly that trailing space |
| Payment.FormatCardNumber | src/pages/users/PaymentPage.jsx:86-88 | the formatted number is the white-space-free input in groups of four separated by single spaces |
| Payment.GroupedLayout | src/pages/users/PaymentPage.jsx:87 | spaces sit exactly at every fifth position; the other positions hold the input characters in order |
| Payment.StripGrouped | src/pages/users/PaymentPage.jsx:87 | removing the spaces from the grouped layout gives the input back |
| Payment.CardNumberRoundTrip | src/pages/users/PaymentPage.jsx:86-88 | the formatted number strips back to the typed number without white space |
| Payment.CardNumberIdempotent | src/pages/users/PaymentPage.jsx:86-88 | formatting an already formatted number changes nothing |
| Payment.CollapseKeepsOthers | src/pages/users/PaymentPage.jsx:93 | collapsing "//" keeps every non-slash character in order and never lengthens the text |
| Payment.CollapseNoDouble | src/pages/users/PaymentPage.jsx:93 | text without "//" is left alone |
| Payment.FormatExpiry | src/pages/users/PaymentPage.jsx:90-94 | four digits get a slash after the second; any other text only has "//" collapsed; the result has no white space and the same non-slash characters |
| Payment.ExpirySlashed | src/pages/users/PaymentPage.jsx:92-93 | the slashed four digits contain no "//" and keep the digits |
| Payment.TestCardNeedsNoException | src/pages/users/PaymentPage.jsx:107-111 | the card number check accepts exactly sixteen digits; the test-card exception adds nothing |
| Payment.UpiAcceptedIff | src/pages/users/PaymentPage.jsx:124-126 | deciding the UPI pattern at the first '@' agrees with the regular expression at any split |
| Payment.Fails | src/pages/users/PaymentPage.jsx:105-146 | only a field of the chosen method can fail, and cash on delivery or no selection checks nothing |
| Payment.NothingToCheck | src/pages/users/PaymentPage.jsx:105-146 | cash on delivery and no selection check nothing |
| Payment.FailingFields | src/pages/users/PaymentPage.jsx:105-146 | the switch flags exactly the fields of the chosen method whose check fails |
| Payment.CardFailures | src/pages/users/PaymentPage.jsx:107-121 | the card case flags exactly the card fields whose check fails |
| Payment.ErrorsFor | src/pages/users/PaymentPage.jsx:103-143 | the error object has exactly the flagged fields as keys, each with its own message |
| Payment.ReportsEachField | src/pages/users/PaymentPage.jsx:105-146 | flagging each of the nine fields exactly when it fails yields an error object that reports the failures |
| Payment.ValidatePaymentDetails | src/pages/users/PaymentPage.jsx:102-150 | the error map holds exactly the failing fields of the chosen method with their messages, and the result is true iff the map is empty iff every check passes |
| Payment.ReportsEmpty | src/pages/users/PaymentPage.jsx:148-149 | an error map that reports the failures is empty iff nothing fails |
| Text.TrimEmptyIff | src/pages/users/PaymentPage.jsx:112 | `trim()` gives the empty string exactly when every character is white space, so the cardholder check fails exactly for blank names |
| Payment.TestNameNotBlank | src/pages/users/PaymentPage.jsx:10-15 | the test card holder passes the name check |
| Payment.TestExpiryAccepted | src/pages/users/PaymentPage.jsx:10-15 | the test expiry passes the expiry check |
| Payment.TestNumberAccepted | src/pages/users/PaymentPage.jsx:10-15 | the test number passes the card number check |
| Payment.FillTestCard | src/pages/users/PaymentPage.jsx:71-79 | the four card fields hold the test card and the fields of the other methods are kept |
| Payment.TestCardField | src/pages/users/PaymentPage.jsx:71-79 | after filling the test card no single card check fails |
| Payment.TestCardPasses | src/pages/users/PaymentPage.jsx:71-79 | after filling the test card the card method validates |
| Payment.FormattedExpiryAccepted | src/pages/users/PaymentPage.jsx:90-117 | four typed digits starting with a valid month, once formatted, pass the expiry check |
| Payment.With | src/pages/users/PaymentPage.jsx:96-99 | the named field takes the value and every other field is unchanged |
| Payment.HandleInputChange | src/pages/users/PaymentPage.jsx:81-99 | the named field takes the formatted card number, the formatted expiry, or the text as typed; every other field is unchanged |
| Payment.InputChangeEffect | src/pages/users/PaymentPage.jsx:81-100 | typing changes only the named field; card numbers keep the typed non-space characters, expiries the typed non-space non-slash characters, other fields the typed text |
| Payment.UpdatedOrder | src/pages/users/PaymentPage.jsx:166-172 | the order keeps its other keys; cash on delivery gives NOTPAID, PENDING and a null delivery date, any other method PAID, CONFIRMED and the current time |
| Payment.ErrorText | src/pages/users/PaymentPage.jsx:187-189 | the error text is never empty and the server's message wins when present |
| Payment.RedirectsToCart | src/pages/users/PaymentPage.jsx:194 | the cart redirect happens iff "inventory" or "stock" occurs in the message |
| Payment.ProcessPayment | src/pages/users/PaymentPage.jsx:152-201 | invalid details send nothing; an order without an id fails with "Invalid order data"; otherwise the updated order is sent and the payment succeeds iff the reply has an order status, failing with the server-response or error text otherwise |
| Inventory.Status | src/pages/admin/AdminInventory.jsx:368-384 | out of stock iff the stock is 0, low iff non-zero and at most the threshold, in stock otherwise |
| Inventory.RowAndBadgeAgree | src/pages/admin/AdminInventory.jsx:368-384 | the row class, badge colour and badge text each show the row's one status |
| Inventory.AlertsDisjoint | src/pages/admin/AdminInventory.jsx:316-336 | the low-stock and out-of-stock panels share no item and keep inventory order |
| Inventory.AlertsMatchStatus | src/pages/admin/AdminInventory.jsx:316-384 | with no negative stock the panels list exactly the rows whose status is low or out of stock |
| Inventory.EntryListsDisjoint | src/pages/admin/AdminInventory.jsx:109-110 | no low-stock entry is also an out-of-stock entry |
| Inventory.QuickQuantity | src/pages/admin/AdminInventory.jsx:396-420 | Restock requests the reorder point, "+1" one more, "−1" one less but never below 0 |
| Inventory.MinusOneDisabledWhenNoChange | src/pages/admin/AdminInventory.jsx:409-420 | the "−1" button is disabled exactly when it would send the stock unchanged; "+1" and Restock never are |
| Inventory.MinusThenPlus | src/pages/admin/AdminInventory.jsx:409-420 | "+1" after "−1" restores a positive stock |
| Inventory.Find | src/pages/admin/AdminInventory.jsx:166 | the first item with the product id, or none iff no item has it |
| Inventory.OnInventoryMessage | src/pages/admin/AdminInventory.jsx:70-80 | reload iff a stock update or product added; warn iff a stock update flagged low |
| Inventory.BulkPayload | src/pages/admin/AdminInventory.jsx:178-181 | two parallel lists of the items' product ids and parsed quantities, in list order |
| Inventory.TypedQuantityPosted | src/pages/admin/AdminInventory.jsx:180 | a quantity typed as the decimal form of n is posted as n |
| Inventory.RemovedAt | src/pages/admin/AdminInventory.jsx:287 | the list without the item at the index, others in order |
| Inventory.AddThenRemove | src/pages/admin/AdminInventory.jsx:193 | removing the item just added gives the list back |
| Inventory.InventoryScreen.constructor | src/pages/admin/AdminInventory.jsx:11-27 | empty lists, loading, not in bulk mode |
| Inventory.InventoryScreen.FetchInventory | src/pages/admin/AdminInventory.jsx:98-118 | on success the inventory and the two filtered entry lists are replaced, and they stay disjoint; loading ends either way |
| Inventory.InventoryScreen.QuickUpdate | src/pages/admin/AdminInventory.jsx:159-174 | reload iff the PATCH succeeds; a warning iff it succeeds and the known item's threshold is reached, naming the SKU or the product id |
| Inventory.InventoryScreen.ToggleBulkMode | src/pages/admin/AdminInventory.jsx:243 | bulk mode flips; nothing else changes |
| Inventory.InventoryScreen.AddBulkItem | src/pages/admin/AdminInventory.jsx:192-194 | an empty item is appended, which enables "Update All" |
| Inventory.InventoryScreen.UpdateBulkItem | src/pages/admin/AdminInventory.jsx:196-200 | only the named field of the indexed item changes |
| Inventory.InventoryScreen.RemoveBulkItem | src/pages/admin/AdminInventory.jsx:287 | the indexed item is removed |
| Inventory.InventoryScreen.BulkUpdate | src/pages/admin/AdminInventory.jsx:176-190 | the payload of the current list is posted; on success bulk mode ends with an empty list, "Update All" disabled, and a reload |
| Notifications.CountUnread | src/components/NotificationCenter.jsx:38 | the unread count is at most the list length |
| Notifications.MarkRead | src/components/NotificationCenter.jsx:48-50 | every notification with the id becomes read, the others are unchanged |
| Notifications.MarkAllRead | src/components/NotificationCenter.jsx:65 | every notification becomes read |
| Notifications.CountPrepend | src/components/NotificationCenter.jsx:22-23 | a pushed notification adds one to the unread count iff it is unread |
| Notifications.MarkAllReadCount | src/components/NotificationCenter.jsx:64-66 | after marking all read none is unread |
| Notifications.MarkReadAbsent | src/components/NotificationCenter.jsx:48-50 | marking an id nobody has changes nothing |
| Notifications.MarkReadCount | src/components/NotificationCenter.jsx:47-51 | with unique ids, marking an unread notification of the list lowers the unread count by exactly one |
| Notifications.DuplicateIdsBreakCount | src/components/NotificationCenter.jsx:47-51 | two unread notifications sharing an id: the count drops by two, not one |
| Notifications.NotificationCenter.constructor | src/components/NotificationCenter.jsx:10-11 | empty list, zero counter, consistent |
| Notifications.NotificationCenter.Load | src/components/NotificationCenter.jsx:32-41 | for a logged-in user and a successful request the list is replaced and the counter recounted; otherwise nothing changes |
| Notifications.NotificationCenter.Receive | src/components/NotificationCenter.jsx:20-24 | the notification goes to the front and the counter up by one; the counter stays consistent iff the pushed one is unread |
| Notifications.NotificationCenter.Click | src/components/NotificationCenter.jsx:43-59 | an unread notification confirmed by the server is marked read and the counter lowered, which keeps a consistent bell with unique ids consistent; a STOCK notification navigates to its product |
| Notifications.NotificationCenter.MarkAllAsRead | src/components/NotificationCenter.jsx:61-68 | on success every notification is read and the counter is 0, consistently, and the badge is hidden |
| Notifications.UnreadCountPositive | src/components/NotificationCenter.jsx:38 | the unread count is positive iff some notification is unread |
| Notifications.BadgeIffUnread | src/components/NotificationCenter.jsx:74-84 | on a consistent bell the badge and "Mark all as read" show iff some notification is unread |
| ProductView.Background | src/components/admin/SingleProductView.jsx:24-39 | live with stock is green, not live is red, live without stock is yellow; every input gets a class |
| ProductView.StockDelta | src/components/admin/SingleProductView.jsx:72-87 | "Set to" sends the difference that moves the stock to the typed value, "Add" the value, "Remove" its negation; an unparsable value sends NaN |
| ProductView.TypedStockDelta | src/components/admin/SingleProductView.jsx:73-87 | typing n and "Set to" lands on n; "Add" and "Remove" of n cancel out |
| ProductView.QuantityBadge | src/components/admin/SingleProductView.jsx:157 | green iff above 10, yellow iff 1 to 10, red iff 0 or less |
| ProductView.ExtraBadges | src/components/admin/SingleProductView.jsx:157-165 | the low-stock and out-of-stock badges never show together and agree with the badge colour |
| ProductView.ShownThreshold | src/components/admin/SingleProductView.jsx:64 | the dialog shows the threshold, or 10 when it is absent or 0 |
| ProductView.ShownReorderPoint | src/components/admin/SingleProductView.jsx:65 | the dialog shows the reorder point, or 20 when it is absent or 0 |
| Returns.StatusColor | src/pages/admin/AdminReturns.jsx:79-87 | the four known statuses map to their colours and every other status to "secondary" |
| Returns.FormFor | src/pages/admin/AdminReturns.jsx:69-77 | the form takes the stored status; missing notes become '' and a missing amount 0, present ones are kept |
| Returns.RefundCell | src/pages/admin/AdminReturns.jsx:115-119 | an amount is shown iff a refund was issued, and it is the return's refund amount |
| Returns.NoRefundUnlessApprovedWithAmount | src/pages/admin/AdminReturns.jsx:52-77 | a return opened as REJECTED (or any status but APPROVED), or without an amount, asks for no refund until the form is edited |
| Returns.WithInput | src/pages/admin/AdminReturns.jsx:33-39 | the changed form field takes the new value and the other two keep theirs |
| Returns.EditedFormRefund | src/pages/admin/AdminReturns.jsx:33-39 | choosing APPROVED and a positive amount makes processing ask for a refund; choosing REJECTED never does |
| Returns.ReturnsScreen.constructor | src/pages/admin/AdminReturns.jsx:7-15 | no returns, loading, modal closed, empty form |
| Returns.ReturnsScreen.FetchReturns | src/pages/admin/AdminReturns.jsx:21-31 | on success the list is replaced; loading ends either way |
| Returns.ReturnsScreen.InputChange | src/pages/admin/AdminReturns.jsx:33-39 | the form becomes the old form with the input applied; nothing else changes |
| Returns.ReturnsScreen.ViewReturn | src/pages/admin/AdminReturns.jsx:69-77 | the return is selected, its form filled and the modal opened |
| Returns.Submittable | src/pages/admin/AdminReturns.jsx:160-196 | the browser submits the form only with status APPROVED or REJECTED, non-empty notes and, for APPROVED, an amount of at least 0 |
| Returns.OpenedFormNeedsEdit | src/pages/admin/AdminReturns.jsx:69-77 | a return opened with a status other than APPROVED or REJECTED (PENDING, or a REFUNDED one whose button is disabled), or without notes, cannot be submitted as opened |
| Returns.EditedFormSubmittable | src/pages/admin/AdminReturns.jsx:160-196 | choosing Reject and writing notes makes the form submittable; choosing Approve does iff the amount is at least 0 |
| Returns.ReturnsScreen.ProcessReturn | src/pages/admin/AdminReturns.jsx:41-67 | nothing is sent without a selection or when the form fails the browser's checks; otherwise the process request goes first, the refund request follows iff it succeeded and the form is APPROVED with a positive amount, and the modal closes iff all requests succeed |
| CategoryForm.Validate | src/pages/admin/AddCategory.jsx:27-35 | the title error iff the title is missing or blank, the description error iff only the description is, no error iff both are present |
| CategoryForm.MissingIsTrimEmpty | src/pages/admin/AddCategory.jsx:27-32 | a field counts as missing exactly when it is undefined or empty after `trim()` |
| CategoryForm.WithField | src/pages/admin/AddCategory.jsx:16-22 | the named property takes the value and the other two keep theirs |
| CategoryForm.CategoryScreen.constructor | src/pages/admin/AddCategory.jsx:9-15 | all three properties empty, not loading |
| CategoryForm.CategoryScreen.FieldChange | src/pages/admin/AddCategory.jsx:16-22 | only the named property changes |
| CategoryForm.CategoryScreen.Submit | src/pages/admin/AddCategory.jsx:24-57 | a category is sent iff it validates; a success resets all three properties to ''; a failure keeps them; loading ends false |
| CategoryForm.CategoryScreen.ClearForm | src/pages/admin/AddCategory.jsx:59-67 | all three properties become '' |
| OrderService.MissingFieldsExact | src/services/OrderService.js:22-23 | a field is reported missing iff it is required and absent or falsy, in declaration order |
| OrderService.NothingMissing | src/services/OrderService.js:22-27 | with all four fields present nothing is missing |
| OrderService.OrderData | src/services/OrderService.js:30-34 | every field of the detail is kept and overrides the defaults PENDING and NOTPAID, which fill in only when absent |
| OrderService.MissingFieldsError | src/services/OrderService.js:25-27 | the message is "Missing required fields: " and the missing fields joined by ", ", and no request was sent |
| OrderService.CreateOrder | src/services/OrderService.js:19-42 | nothing is posted iff a field is missing, and then the missing-fields error results; otherwise the defaulted order is posted and the server's reply or error passes through unchanged |
| OrderService.CompleteOrderPosted | src/services/OrderService.js:22-36 | an order with all four fields reaches the server |
| OrderService.GetAllOrdersPath | src/services/OrderService.js:5-8 | the path is "/orders?" and the four `name=value` parameters joined by '&' |
| OrderService.QueryReadsBack | src/services/OrderService.js:5-8 | splitting the query on '&' gives pageNumber, pageSize, sortBy and sortDir in order, and the page numbers parse back |
| Store.FilteredProducts | src/pages/Store.js:13-15 | a product is shown iff it is in the list and passes the filter, as many times as it occurs there, in the order received |
| Store.AllShowsEverything | src/pages/Store.js:14-16 | with "all" every product shows, in order |
| Store.CategoryFilter | src/pages/Store.js:10-16 | otherwise a product shows iff its category equals the filter ignoring case, with its multiplicity, in the received order; the sort choice plays no part |
| Store.StockLabel | src/pages/Store.js:184 | "In Stock" iff the stock is above 10, else "Only … left" |
| Store.StockClass | src/pages/Store.js:183 | success colour iff the label is "In Stock", danger otherwise |
| Store.LowStockReadsBack | src/pages/Store.js:184 | the number in "Only … left" is the stock and reads back with `parseInt` |

## Left out

- Network and sockets. The HTTP wrappers, the STOMP client on the inventory screen and the
  EventSource stream of the bell are not modelled. Each request's outcome is a parameter,
  and a pushed message is the argument of one method call.
- The analytics "generate" request and the one-second wait before the daily request. The
  result of that request is ignored in all branches.
- `Date`, time zones and locale formatting. `formatDateForBackend` takes the calendar fields
  as numbers. The seven-day window arithmetic, `toLocaleString` and relative times are not
  modelled.
- Floating point. Revenues and amounts are exact `real`s. NaN appears only as an unparsable
  `parseInt` (None). `toFixed`, discount percentages and the chart maths are not modelled.
- React state timing. Each handler reads the state as it is when the handler runs.
  Overlapping requests are not modelled.
- Toasts, navigation, `localStorage`, `setTimeout` and SweetAlert dialogs. Only the text of
  a toast or the route is returned where it decides something.
- `Text.IsWhitespace` lists the ECMAScript white space and line terminators by code point.
  Strings are sequences of characters, not UTF-16 code units. `toLowerCase` maps ASCII
  letters only.
- `Payment.SpaceAfterFours` reads `.` as any character. The text has no line terminators
  then, because white space has already been removed.
- `Payment.PaymentMethod`: `selectedPayment` is modelled as a datatype, because only '' and
  the six method ids are ever stored in it.
- `Payment.ValidatePaymentDetails` first gathers the set of failing fields and then builds
  `newErrors` from that set in one step. Each key's message is fixed, so the object is the
  same as the one built key by key. Only the order in which keys were added is lost.
- `Text.ParseInt` skips leading white space and reads an optional '+' or '-' sign and the
  decimal digits up to the first non-digit. Hexadecimal prefixes ("0x") are not modelled.
- `Returns.WithInput`: the amount input delivers text, which the source compares with 0 and
  sends as typed; the model takes the amount as the number that text denotes.
- Returns.RefundCell: when `refundIssued` is set but the amount is missing, the source throws
  while rendering; the model shows 0 instead.
- The `statusColors` lookup of the returns screen is modelled as a comparison with the four
  keys. Inherited object keys such as "toString" are not modelled.
- `Inventory.OnInventoryMessage` returns whether a reload and a warning happen. The text of
  the pushed warning is not modelled.
- The inventory create/edit modal is not modelled: `handleInputChange`, `handleSubmit`,
  `handleEdit` and "Add New Item". It only copies fields into a form and posts them.
- "Initialize All Products" (`handleInitializeInventory`) is not modelled. It posts the
  initialize request, reloads the inventory, fetches the low-stock entries again and shows
  an info toast counting the entries with quantity above 0 (with no upper bound, unlike the
  `<= 5` bound of `FetchInventory`'s low-stock list) and those with quantity 0.
- The "-1" button. `Inventory.QuickDisabled` describes the button being disabled at zero
  stock, and `Inventory.MinusOneDisabledWhenNoChange` relates it to the quantity sent, but
  `QuickUpdate` takes any quantity and does not enforce it.
- The step of 0.01 on the refund amount field is not part of `Returns.Submittable`: the
  browser also refuses an amount that is not a whole number of cents, which the model lets
  through.
- The quick stock dialog of the admin product row. It sends a difference, while the
  inventory screen's quick update sends an absolute quantity to the same PATCH endpoint.
  Both are modelled as written.
- Rendering props such as the description and cover image inputs of the category form are
  not modelled.

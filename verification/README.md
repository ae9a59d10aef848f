# Canteen pre-ordering: the client-side decision logic

This project models the browser side of a college canteen's pre-ordering
application. Students browse the day's menu, fill a cart, pick a pickup slot
and pay. They receive a payment token and a QR payload, and may cancel for a
status-dependent refund until two hours before pickup. Staff look orders up
by token at the counter, move orders through their statuses, and manage
slots, menu items and the e-mail whitelist.

All persistence runs in a hosted database and its remote procedures. Neither
is part of this model. What is modelled is the logic the pages and helper
libraries apply around them:

- the cancellation gates and the refund table;
- the time arithmetic;
- the token and QR codec;
- the validators;
- the cart, menu, checkout and admin state changes.

Everything is stated as pure functions over immutable datatypes:

- Time is integer minutes. A date or time the application would parse is an
  `Option<int>`, where `None` is an unparsable text.
- Money is an exact `real`.
- The clock, the random text, today's weekday and the outcome of every
  database call are parameters.
- A database table is a sequence of rows.

One module per source file:

- `Types`: the records and enumerations.
- `DateUtils`, `OrderStatusUtils`, `TokenGenerator` (with `Base36` and
  `Json`) and `EmailValidator`: the libraries.
- `RefundPolicy`: the refund table that two pages write out alike.
- One module per page or component.
- `OrderUpdates`: the table update the admin pages share.
- `Seqs` and `Wrappers`: generic helpers.

In these places the code enforces less than an ordering system usually
would, and the model follows the code as written:

- Any status may be set from any status, and setting the current status
  again sends the notification and email again.
- Completing an order at the counter never sets `token_used`. The token keeps
  finding the order, which is then reported as already picked up.
- Placing an order reserves nothing. The client never changes a slot's
  booking count and releases nothing when a later step fails.
- The empty-cart check lives on the cart page, not in the checkout handler.
- Cash-on-pickup eligibility is decided by a remote procedure. The page only
  falls back to card when it is refused.

## Model

| member | source | states |
|---|---|---|
| Types.StatusNameRoundTrip | src/types/types.ts:3 | the six stored status names and their recognition are inverse; a string names a status exactly when it is that status's stored name |
| DateUtils.CanCancelOrder | src/lib/date-utils.ts:78-87 | cancellation is allowed only for a parsable pickup, and, with a non-negative window, only for a pickup after now |
| DateUtils.CancelWindowBoundary | src/lib/date-utils.ts:78-87 | with the default two hours, allowed iff strictly more than 120 minutes remain; exactly 120 is too late; a past or unparsable pickup never qualifies |
| DateUtils.CancelMonotone | src/lib/date-utils.ts:84-86 | if cancellation is allowed, it stays allowed when asked earlier or for a later pickup |
| DateUtils.CanPlaceOrder | src/lib/date-utils.ts:43-49 | true iff the session start parses and now plus the cutoff is strictly before it |
| DateUtils.IsWithinSessionTime | src/lib/date-utils.ts:34-40 | true iff both ends parse and now lies strictly between them |
| DateUtils.SessionBoundsExcluded | src/lib/date-utils.ts:34-40 | the session's start and end instants themselves are outside it |
| DateUtils.IsAvailableOnDay | src/lib/date-utils.ts:95-98 | true iff the given weekday occurs in the list |
| DateUtils.GetTimeSlots | src/lib/date-utils.ts:52-75 | the slots are exactly the grid points start + k·interval before end that lie at least 30 minutes after now, strictly increasing; none for an empty or unparsable session |
| OrderStatusUtils.StatusLabel | src/lib/order-status-utils.ts:3-14 | a known status gets its fixed label; a key inherited from `Object.prototype` such as "constructor" yields the inherited member; any other string is returned unchanged |
| OrderStatusUtils.InheritedKeysReachPrototype | src/lib/order-status-utils.ts:3-27 | no status is named like an inherited key, and both lookups return the inherited member for such a key |
| OrderStatusUtils.ShownTextIsLabelOrStatus | src/lib/order-status-utils.ts:3-27 | text shown as a label is a status's label or the string itself, and text shown as a description is empty or a status's description |
| OrderStatusUtils.LabelsDistinct | src/lib/order-status-utils.ts:4-11 | the six labels are pairwise distinct, and pending reads "Not Yet Started Preparing" |
| OrderStatusUtils.UnknownCanMimicLabel | src/lib/order-status-utils.ts:13 | because unknown strings pass through, the unknown "Confirmed" is shown like the status confirmed |
| OrderStatusUtils.StatusDescription | src/lib/order-status-utils.ts:16-27 | the status's description for a known status, the inherited member for an inherited key, and empty exactly for every other string |
| OrderStatusUtils.IsPreparationStarted | src/lib/order-status-utils.ts:29-31 | true exactly for preparing and ready |
| OrderStatusUtils.CanOrderBeCancelled | src/lib/order-status-utils.ts:33-35 | true exactly for pending and preparing |
| Base36.DecodeEncode | src/lib/token-generator.ts:3-5 | the upper-cased base-36 text of a clock reading decodes back to that reading |
| TokenGenerator.Substring | src/lib/token-generator.ts:4 | indices are clamped into the string; in range the result is the slice, and every character comes from the string |
| TokenGenerator.RandomSegment | src/lib/token-generator.ts:4 | at most thirteen characters, all lower-case base-36 digits when the random text is what the number printer produces |
| TokenGenerator.GeneratePaymentToken | src/lib/token-generator.ts:2-6 | the token is the upper-cased base-36 clock, a dash and the upper-cased random segment |
| TokenGenerator.TokenShape | src/lib/token-generator.ts:3-5 | every character is an upper-case base-36 digit or the dash, and the only dash sits right after the timestamp digits |
| TokenGenerator.TokenRoundTrip | src/lib/token-generator.ts:2-6 | splitting a token at its dash gives back the clock reading and the upper-cased random segment |
| TokenGenerator.GenerateOrderQRData | src/lib/token-generator.ts:9-15 | the payload is a JSON object text |
| TokenGenerator.VerifyOrderQRData | src/lib/token-generator.ts:18-28 | a pair comes back iff the text parses to an object whose orderId and token are both present and truthy; otherwise null, never an exception |
| TokenGenerator.QrRoundTrip | src/lib/token-generator.ts:9-28 | verifying a generated payload returns the order id and token exactly when both are non-empty, and null otherwise |
| TokenGenerator.QrTimestampIrrelevant | src/lib/token-generator.ts:9-15 | payloads differing only in their timestamp verify alike |
| Json.StringifyRoundTrip | src/lib/token-generator.ts:10-20 | whatever the serialiser writes for a flat object of scalars, the parser reads back unchanged |
| EmailValidator.SritMatchesPattern | src/lib/email-validator.ts:2-6 | accepted iff the address is a non-empty run of letters, digits, '.', '_' or '-' followed by "@srit.ac.in" |
| EmailValidator.SritRejectsTrailing | src/lib/email-validator.ts:4 | the match is anchored: anything appended to an accepted address is rejected |
| EmailValidator.SritIsStrict | src/lib/email-validator.ts:4 | the domain is case-sensitive and the local part may not be empty |
| EmailValidator.SritSingleAt | src/lib/email-validator.ts:4 | an accepted address has exactly one '@', the one before the domain |
| EmailValidator.ExtractUsername | src/lib/email-validator.ts:9-11 | the result is a prefix without '@', followed by '@' unless it is the whole string |
| EmailValidator.UsernameOfSrit | src/lib/email-validator.ts:9-11 | for an accepted address the username followed by the domain gives the address back |
| EmailValidator.EmailMatchesPattern | src/lib/email-validator.ts:14-17 | valid iff the address is local '@' host '.' tld, all three non-empty and free of white space and '@' |
| EmailValidator.SritIsValidEmail | src/lib/email-validator.ts:2-17 | every accepted campus address is a valid address |
| RefundPolicy.RefundPercentage | src/pages/OrderConfirmation.tsx:97-113 | 100 exactly for pending and confirmed, 50 exactly for preparing, 0 for ready, completed and cancelled |
| RefundPolicy.RefundFor | src/pages/OrderConfirmation.tsx:97-113 | the amount is the total times the percentage over 100, so it lies between 0 and a non-negative total |
| RefundPolicy.RefundAmountByStatus | src/pages/OrderHistory.tsx:104-118 | the whole total before preparation, half while preparing, nothing afterwards |
| RefundPolicy.RefundNonIncreasing | src/pages/OrderHistory.tsx:104-118 | along pending, confirmed, preparing, ready the refund never grows |
| CancelOrderDialog.ScenarioFor | src/components/ui/CancelOrderDialog.tsx:33-57 | exactly one scenario: "ready" is no refund, "preparing" is partial, every other string, known or not, is full refund |
| CancelOrderDialog.DisplayedFigures | src/components/ui/CancelOrderDialog.tsx:60-146 | no refund shows 0 (0%) and retains the total; partial shows the refund and retains the rest of the total; full shows the refund and no retained row |
| CancelOrderDialog.ReadyIgnoresRefundProp | src/components/ui/CancelOrderDialog.tsx:60-89 | for a ready order the figures do not depend on the refund passed in |
| CancelOrderDialog.DialogAgreesWithPolicy | src/components/ui/CancelOrderDialog.tsx:33-146 | for the four statuses the pages let through, the scenario matches the refund table and the printed figures add up to the total |
| CancelOrderDialog.TerminalStatusShowsFullRefundText | src/components/ui/CancelOrderDialog.tsx:33-57 | completed and cancelled would get the full-refund text next to a 0% refund |
| OrderConfirmation.PageRefundInfo | src/pages/OrderConfirmation.tsx:97-113 | zero without an order, the shared refund table otherwise |
| OrderConfirmation.CanCancelThisOrder | src/pages/OrderConfirmation.tsx:115-125 | true iff an order is loaded, it is not completed or cancelled, and more than 120 minutes remain before pickup |
| OrderConfirmation.HandleCancelOrder | src/pages/OrderConfirmation.tsx:43-70 | no order, the time error, the status error or the dialog, the time window being tested first |
| OrderConfirmation.DialogOpensIffCancellable | src/pages/OrderConfirmation.tsx:43-125 | the dialog opens exactly when the button's own visibility test holds |
| OrderConfirmation.TimeCheckedBeforeStatus | src/pages/OrderConfirmation.tsx:47-66 | a completed or cancelled order outside the window reports the time error, inside it the status error |
| OrderConfirmation.PageDisagreesWithStatusUtility | src/pages/OrderConfirmation.tsx:115-125 | inside the window the page lets confirmed and ready orders be cancelled though the status utility says no; where the utility says yes the page agrees |
| OrderConfirmation.ConfirmCancelOrder | src/pages/OrderConfirmation.tsx:72-95 | the procedure is called iff an order is loaded and a user is signed in (otherwise `user!.id` throws first), and the page moves to the order list iff the call was made and succeeded |
| OrderConfirmation.NoticeAsWritten | src/pages/OrderConfirmation.tsx:258-266 | the half-refund notice is chosen exactly for preparing and ready |
| OrderConfirmation.ReadyNoticeOverpromises | src/pages/OrderConfirmation.tsx:262-264 | for a cancellable ready order the notice promises 50% while the refund is 0% |
| OrderConfirmation.CorrectedNoticeMatchesRefund | src/pages/OrderConfirmation.tsx:258-266 | with a third text for ready orders, the notice promises exactly the refunded percentage |
| OrderHistory.HistoryRefundInfo | src/pages/OrderHistory.tsx:104-118 | the percentage is the table's, and the amount lies between 0 and a non-negative total |
| OrderHistory.SameRefundAsConfirmation | src/pages/OrderHistory.tsx:104-118 | both pages compute the same refund for the same order |
| OrderHistory.CanCancelThisOrder | src/pages/OrderHistory.tsx:120-130 | true iff not completed or cancelled and more than 120 minutes remain |
| OrderHistory.SameGateAsConfirmation | src/pages/OrderHistory.tsx:120-130 | both pages decide cancellability alike |
| OrderHistory.HandleCancelOrder | src/pages/OrderHistory.tsx:50-76 | time first, then status; only when both pass is the order selected and the dialog opened, otherwise the state is unchanged |
| OrderHistory.SameOutcomeAsConfirmation | src/pages/OrderHistory.tsx:50-76 | the history page opens the dialog in exactly the cases the confirmation page does |
| OrderHistory.ConfirmCancelOrder | src/pages/OrderHistory.tsx:78-102 | with a selection the selection and in-progress id are cleared whatever the outcome; the procedure is called iff there is a selection and a signed-in user, and the list reloads iff that call succeeded |
| OrderHistory.RefundLine | src/pages/OrderHistory.tsx:186-190 | shown iff cancelled with a recorded amount; a missing or empty refund status reads "pending" |
| OrderHistory.AlertsAgreeWithRefund | src/pages/OrderHistory.tsx:214-229 | the two alerts never show together, only for a cancellable order, and each names the table's refund |
| Cart.RemoveItem | src/pages/Cart.tsx:46-53 | every line of the item goes; every other line stays, in order and with its number of copies, so the cart shrinks by exactly the item's line count |
| Cart.SetQuantity | src/pages/Cart.tsx:40-43 | the item's lines get the new quantity, other lines and the length are unchanged |
| Cart.UpdateQuantity | src/pages/Cart.tsx:34-44 | quantity 0 removes the item, any other number is written into its lines |
| Cart.ClearCart | src/pages/Cart.tsx:55-61 | the cart becomes empty |
| Cart.ClearedCartBlocksCheckout | src/pages/Cart.tsx:55-76 | a cleared cart totals 0 and cannot be taken to checkout |
| Cart.Total | src/pages/Cart.tsx:63-65 | 0 for the empty cart, non-negative for non-negative prices and quantities |
| Cart.TotalSplit | src/pages/Cart.tsx:63-65 | the total is the total of the item's lines plus that of the others |
| Cart.SetQuantityKeepsOthers | src/pages/Cart.tsx:40-43 | setting a quantity leaves the other items' lines as they were |
| Cart.UpdateChangesTotalByLine | src/pages/Cart.tsx:34-65 | updating a single line changes the total by exactly that line's old and new worth |
| Cart.HandleCheckout | src/pages/Cart.tsx:67-77 | checkout proceeds iff the cart is not empty |
| Cart.QuantityFromField | src/pages/Cart.tsx:142 | a typed number other than 0 is kept, text that is not a number and 0 become 1 |
| Cart.FieldNeverRemoves | src/pages/Cart.tsx:142 | typing a quantity never removes a line |
| Cart.MinusButton | src/pages/Cart.tsx:135 | on a line of quantity 1 the minus button removes the item; otherwise every line of the item gets that line's quantity less one and the other lines are unchanged |
| Cart.PlusThenMinusRestores | src/pages/Cart.tsx:135-149 | with the item on one line, plus then minus gives the cart back unless a press reaches 0 |
| Cart.PlusButton | src/pages/Cart.tsx:149 | on a line of quantity -1 the plus button removes the item; otherwise every line of the item gets that line's quantity plus one and the other lines are unchanged |
| Cart.ButtonsMoveTotalByPrice | src/pages/Cart.tsx:135-149 | with the item on one line, plus adds one portion's price to the total and minus, above quantity 1, takes one off |
| Menu.FindLine | src/pages/Menu.tsx:92 | the first line for the item, or none when no line is for it |
| Menu.AddToCart | src/pages/Menu.tsx:88-97 | the first line for the item gains one and nothing else changes, or a line of quantity 1 is appended |
| Menu.AddToStoredCart | src/pages/Menu.tsx:89-97 | without a stored cart the result is the single new line; with one, the result is that cart after `addToCart`; either way the cart holds exactly one portion more |
| Menu.AddRaisesQuantityByOne | src/pages/Menu.tsx:92-97 | adding raises the number of portions by exactly one |
| Menu.AddKeepsIdsUnique | src/pages/Menu.tsx:92-97 | adding keeps the lines' items distinct |
| Menu.FilterItemsIsOneFilter | src/pages/Menu.tsx:60-86 | the list shown is the order-preserving sub-list of exactly the items passing every active filter |
| Menu.NoSelectionShowsAll | src/pages/Menu.tsx:60-86 | with every selection at 'all' and no search text the list is unchanged |
| Menu.SearchIgnoresCase | src/pages/Menu.tsx:70-75 | the search matches alike whatever the letter case of the query |
| Menu.AbbrevTable | src/pages/Menu.tsx:123 | the seven abbreviations are Mon … Sun, all distinct |
| Menu.FormatAvailableDays | src/pages/Menu.tsx:120-124 | a missing, empty or seven-entry list reads "All days" |
| Menu.JoinParseRoundTrip | src/pages/Menu.tsx:123 | the joined abbreviations read back as the days in order |
| Menu.FormatRoundTrip | src/pages/Menu.tsx:120-124 | any caption other than "All days" names exactly the listed days in order |
| Menu.SevenCopiesReadAllDays | src/pages/Menu.tsx:122 | the length test ignores the entries: seven Mondays read "All days" |
| Checkout.SlotInfoFor | src/pages/Checkout.tsx:114-126 | a failed check stores ten of ten free, a successful one the row's figures |
| Checkout.LoadSlotAvailability | src/pages/Checkout.tsx:111-129 | one entry per offered slot, each the outcome of checking that slot |
| Checkout.UncheckedSlotIsOpen | src/pages/Checkout.tsx:111-129 | a slot the availability procedure answers with no row counts as available |
| Checkout.CashFallback | src/pages/Checkout.tsx:86-89 | a refusal moves a cash selection to card and leaves other methods alone |
| Checkout.PlaceOrderGate | src/pages/Checkout.tsx:135-156 | login first, then a chosen slot, then a known and available slot; proceeds iff all hold |
| Checkout.BuildOrder | src/pages/Checkout.tsx:161-177 | pending, paid, at the chosen slot for today, with the cart's total, the fresh token and a QR payload for the order id "temp" |
| Checkout.BuildOrderItems | src/pages/Checkout.tsx:181-187 | one item per cart line in cart order, with its item, quantity and price |
| Checkout.ItemsMatchOrderTotal | src/pages/Checkout.tsx:165-187 | the items add up to the order's total |
| Checkout.QrCarriesTokenNotOrderId | src/pages/Checkout.tsx:162-163 | the payload reads back as the order id "temp" and the order's own payment token |
| Checkout.PlaceOrder | src/pages/Checkout.tsx:135-204 | nothing is created unless the gate passes; once it passes the inserted order is the one BuildOrder makes; the cart is cleared iff the order insert succeeds, and then the items are BuildOrderItems under the new id, whatever became of their insert |
| Api.MessageOr | src/db/api.ts:289 | a non-empty message is returned as it is, and an empty one is replaced by the fallback |
| Api.CreateOrder | src/db/api.ts:280-297 | an error or a missing row is thrown, with their own messages; otherwise the row |
| Api.CreateOrderItems | src/db/api.ts:299-310 | never throws: an error or a non-array gives no items |
| Api.CancelOrder | src/db/api.ts:384-405 | an error or an empty answer is thrown; otherwise the first row |
| Api.ValidateCashOnPickup | src/db/api.ts:420-437 | never throws: an error or an empty answer counts as not allowed, with its message |
| Api.CheckSlotAvailability | src/db/api.ts:712-721 | fails iff the call errs; an empty answer gives ten of ten free, otherwise the first row |
| Api.GetLowStockItems | src/db/api.ts:453-466 | when the filtered query fails, exactly the fetched rows strictly below their threshold, in order and with their multiplicity, and none when the fallback fetch returns nothing |
| Api.AtThresholdIsNotLow | src/db/api.ts:462 | an item exactly at its threshold is not low on stock |
| Api.GetDashboardStats | src/db/api.ts:667-697 | the order counts are the numbers of rows fetched, a failed query counting as none; the revenues sum every row's amount; with no rows every count is 0; each status count is at most the total |
| Api.DashboardAddOrder | src/db/api.ts:675-687 | one more order row raises the total by one and the revenue by its amount; pending or confirmed raises only the pending count, completed or cancelled only its own count, preparing or ready none of them |
| Api.DashboardAddTodayOrder | src/db/api.ts:676-688 | one more row for today raises today's count by one and today's revenue by its amount, and nothing else |
| Api.DashboardAddStock | src/db/api.ts:677-684 | one more inventory row raises the low-stock count exactly when its quantity is strictly below its threshold, and nothing else |
| Api.DashboardCountsBounded | src/db/api.ts:682-688 | pending (with confirmed), completed and cancelled together never exceed the total |
| Api.RevenueCountsEveryStatus | src/db/api.ts:680 | revenue includes orders of every status, cancelled ones too |
| OrderUpdates.UpdateWhereId | src/pages/admin/OrderPickup.tsx:73-79 | rows carrying the id are rewritten, every other row is kept |
| OrderUpdates.FindById | src/pages/admin/OrderManagement.tsx:55 | an order with the id such that no earlier order carries it, and none iff no order carries it |
| OrderUpdates.UniqueRowRewritten | src/pages/admin/OrderPickup.tsx:73-79 | when one row carries the id, the update rewrites that row alone |
| OrderUpdates.UpdateOrder | src/db/api.ts:353-366 | a row comes back iff the call succeeds and exactly one row carries the id; then that row is rewritten, otherwise nothing changes |
| OrderPickup.Classify | src/pages/admin/OrderPickup.tsx:47-56 | the order is shown, with the picked-up or cancelled error, and with no error iff it can still be completed |
| OrderPickup.SearchOrder | src/pages/admin/OrderPickup.tsx:23-64 | blank input stops with an error; otherwise the single exact match on token or QR payload is shown, no match or several give their errors |
| OrderPickup.CompleteOrder | src/pages/admin/OrderPickup.tsx:66-133 | only the rows with the order's id change, and in them only status and update time; the notification, the email with the old status and the reset follow only a successful update |
| OrderPickup.TokenNeverMarkedUsed | src/pages/admin/OrderPickup.tsx:73-79 | completion leaves every row's token_used, payment token and QR payload as they were |
| OrderPickup.CompletingKeepsMatches | src/pages/admin/OrderPickup.tsx:73-79 | the rows matching a token after completion are the matching rows before it, updated |
| OrderPickup.SearchAfterCompletion | src/pages/admin/OrderPickup.tsx:23-64 | looking up a just-completed order's token finds it and reports it already picked up |
| OrderManagement.FilterOrders | src/pages/admin/OrderManagement.tsx:45-51 | 'all' keeps the list; a status keeps exactly the orders in it, in order and with their multiplicity |
| OrderManagement.FilterViewsPartition | src/pages/admin/OrderManagement.tsx:45-51 | the six status views add up to the whole list |
| OrderManagement.HandleStatusChange | src/pages/admin/OrderManagement.tsx:53-112 | an unknown id does nothing; notification, email with the loaded status and reload follow exactly a returned row |
| OrderManagement.AnyTransitionAccepted | src/pages/admin/OrderManagement.tsx:53-63 | from any status, terminal ones included, a successful change writes the new status into that row alone |
| OrderManagement.EmailCarriesLoadedStatus | src/pages/admin/OrderManagement.tsx:55-88 | the email's old status is the one the page loaded and its new status the one asked for |
| SlotManagement.Divide | src/pages/admin/SlotManagement.tsx:147 | division by zero gives an infinity of the dividend's sign, or NaN for 0 / 0 |
| SlotManagement.Min | src/pages/admin/SlotManagement.tsx:353 | NaN stays NaN, plus infinity is capped at the bound, minus infinity stays minus infinity, a number is the smaller of the two |
| SlotManagement.UtilizationBands | src/pages/admin/SlotManagement.tsx:146-151 | with capacity: destructive iff full, secondary iff from 80% up to full, default below 80% |
| SlotManagement.ZeroCapacityBadge | src/pages/admin/SlotManagement.tsx:146-151 | with no capacity an empty slot shows default and a booked one destructive |
| SlotManagement.BarAgreesWithBadge | src/pages/admin/SlotManagement.tsx:345-351 | with capacity the bar's colour and the badge agree band for band; an empty zero-capacity slot shows a red bar beside a default badge |
| SlotManagement.BarWidthCapped | src/pages/admin/SlotManagement.tsx:353 | with capacity the width is at most 100 and is the utilisation while not over-booked; 0 of 0 gives NaN |
| SlotManagement.GroupSlotsByDate | src/pages/admin/SlotManagement.tsx:153-162 | one entry per date, the entries in the order their dates first appear among the slots, each holding exactly that date's slots in their order, and every slot in the entry of its date |
| SlotManagement.AddSlotPreserves | src/pages/admin/SlotManagement.tsx:155-160 | one step of the loop keeps the grouping exact |
| SlotManagement.CardsAddUp | src/pages/admin/SlotManagement.tsx:247-269 | available plus fully booked is the total slot count |
| SlotManagement.BookingsAreInUndeletableSlots | src/pages/admin/SlotManagement.tsx:368-375 | deletable slots hold no bookings, the others hold them all |
| SlotManagement.BookingsWithinCapacity | src/pages/admin/SlotManagement.tsx:279 | with every slot within its capacity the bookings card never exceeds the total capacity |
| MenuManagement.DayToggle | src/pages/admin/MenuManagement.tsx:187-194 | a listed day is removed everywhere and the list shrinks by its number of copies, other days keeping theirs; an unlisted one is appended |
| MenuManagement.ToggleTwice | src/pages/admin/MenuManagement.tsx:187-194 | toggling twice restores which days are listed, and the list itself when the day was absent |
| MenuManagement.ImageCheck | src/pages/admin/MenuManagement.tsx:163-185 | size first: over 1 MiB is refused, then a type not starting "image/", and only a file passing both is kept |
| MenuManagement.DefaultForm | src/pages/admin/MenuManagement.tsx:32-42 | empty fields, available, all seven days |
| MenuManagement.DefaultFormOffersEveryDay | src/pages/admin/MenuManagement.tsx:145-161 | an item from the default form is offered every weekday and captioned "All days" |
| Register.SubmitChecks | src/pages/Register.tsx:28-44 | the domain suffix, then the confirmation, then a length of at least 6; sign-up iff all three pass |
| Register.HandleSubmit | src/pages/Register.tsx:24-65 | a failed check or sign-up error is shown; after a successful sign-up, the login page exactly when the automatic sign-in fails and the original destination exactly when it succeeds |
| Register.GateWeakerThanValidator | src/pages/Register.tsx:29 | every valid campus address passes the suffix test, and so does the bare domain, which the validator rejects |
| UserManagement.HandleAddToWhitelist | src/pages/admin/UserManagement.tsx:51-67 | refused without a signed-in user or the campus suffix; success clears and closes the form, anything else leaves it |
| UserManagement.RoleOptionsAreTheRoles | src/pages/admin/UserManagement.tsx:130-134 | the selector offers the five roles, each once |
| UserManagement.OwnRoleLocked | src/pages/admin/UserManagement.tsx:124 | the selector is locked exactly on the acting admin's own row |
| Header.IsAdmin | src/components/common/Header.tsx:30 | true iff a profile is loaded and its role is admin |
| Header.IsStaff | src/components/common/Header.tsx:31 | false without a profile |
| Header.RoleTests | src/components/common/Header.tsx:30-31 | admins are staff; staff and student roles and no profile are neither; kitchen staff and cashiers are staff but not admins |
| MainLayout.BadgeCount | src/components/layouts/MainLayout.tsx:12-39 | 0 for a missing, unreadable or empty cart, non-negative for non-negative quantities |
| MainLayout.SumIsTotalQuantity | src/components/layouts/MainLayout.tsx:18 | the left fold over the lines is their total quantity |
| MainLayout.BadgeCountsUnits | src/components/layouts/MainLayout.tsx:31 | the badge counts portions, not lines: adding an item raises it by one |
| Home.FeaturedItems | src/pages/Home.tsx:19-24 | at most four, all offered today, a prefix of today's items, exactly four when four or more are offered |
| Home.FeaturedInMenuOrder | src/pages/Home.tsx:22-23 | the featured items come from the menu in its order |

## Left out

- All database and storage calls, realtime channels and the remote
  procedures' bodies. Their outcomes are parameters; no reservation, token
  redemption or slot release is invented.
- Parsing of dates and times and the weekday of a date. Instants are integer
  minutes, and the weekday is an input. The sub-minute truncation in the
  minute difference is not modelled.
- Floating point. Money and the utilisation ratio are exact; rounding of the
  displayed amounts and the percentage label is not modelled.
- Json: only flat objects of strings, integers, booleans and null. Nested
  values, arrays, fractions, exponents and escaped surrogate pairs read as
  unparsable.
- Letter case is folded for ASCII only. String lengths count characters,
  not UTF-16 units.
- OrderPickup.SearchOrder: the input is matched against the payment token
  and the QR payload as a plain value. The code instead pastes the input
  unquoted into a PostgREST `or` filter (src/pages/admin/OrderPickup.tsx:38),
  and that filter text is not modelled. Every payload that
  TokenGenerator.GenerateOrderQRData builds contains commas and double
  quotes, which break that filter. So a search by scanned QR payload, which
  the model answers with the order, ends in the application with the query
  error "Error searching for order". Only a search by payment token (base-36
  letters, digits and a dash) behaves as modelled.
- Rendering, toasts, navigation, local-storage writes and the `cartUpdated`
  event. Only the state they carry is kept.
- The status-email function and its templates.
- Whether a status email was delivered. Nothing after the request depends
  on it.
- The notification insert's own failure. The code ignores it.
- Cart.Total sums from the head of the list. The page folds from the left,
  which is the same value in exact arithmetic.
- SlotManagement.GroupSlotsByDate: the grouped record is a list of entries
  in first-seen order. Record key ordering (integer-like keys first) and
  inherited keys are not modelled.
- MainLayout.BadgeCount: quantities are integers. A stored quantity that is
  not a number, which would yield NaN or string concatenation, is not
  modelled.
- DateUtils.GetTimeSlots requires a positive interval for a non-empty
  session, because the code never terminates otherwise.
- Api.GetLowStockItems: the primary query filters against a remote value.
  Its result is a parameter.
- The unused `isNotStarted` flag in the cancel dialog.
- Image upload and preview, the menu form's save, slot creation, capacity
  change and deletion calls.
- Role change, whitelist removal, and the other CRUD pages: the dashboard
  view, settings, profile, analytics and inventory.
- The popular-item badges on the menu page.
- Header.IsStaff: its contract states only that a profile is needed.
  Header.RoleTests states which roles count.

## Findings

| source | as written | input that shows it | evidently intended | confidence | as-written member | corrected member |
|---|---|---|---|---|---|---|
| src/pages/OrderConfirmation.tsx:262-264 | the notice above the cancel button promises a 50% refund for both preparing and ready orders | a ready order whose pickup is more than two hours away: the notice says 50%, while the page's refund table, the cancel dialog and the order-history alert all give 0% | a no-refund notice for ready orders, as the order-history page shows | not executed | OrderConfirmation.ReadyNoticeOverpromises | OrderConfirmation.CorrectedNoticeMatchesRefund |

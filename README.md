# Order lifecycle engine — a Dafny model

This project models the order/payment lifecycle of a Django shop back end.

**The engine.** `OrderService` runs five operations over a database of customers, orders, line items and payments: create an order, process its payment, cancel it, refund it, complete it. Each operation checks the order's status against a closed set of statuses. It then updates the order's status, notes and version and writes payment rows. Everything runs inside one database transaction, so an operation either commits all of its writes or raises and leaves the database as it was.

**The entity rules.** The engine relies on the rules of the order models: `calculate_totals` (12% tax rounded to the cent), the `clean` validators, `can_be_cancelled` / `can_be_refunded`, and the auto-total of `OrderItem.save`.

**The user model.** A separate, small core is the custom `User` model: its display names, its `clean` validation, `save`, and `invalidate_all_sessions`.

Files (one module each):

- `wrappers.dfy`: `Option` and `Result`.
- `text.dfy`: the Python string operations the core uses (`isdigit`, `startswith`, `upper`, `lower`, `rfind`, `strip`, zero-padded decimals).
- `base_models.dfy`: the primary key every model inherits from `BaseModel`.
- `money.dfy`: integer cents, half-even rounding, the tax, and formatting amounts into notes.
- `identifiers.dfy`: `generate_order_number` and `generate_transaction_id`.
- `order_models.dfy`: the order entities, their enums, their `clean` rules, `calculate_totals`, `OrderItem.save` and the status machine.
- `user_models.dfy`: the `User` model.
- `order_service.dfy`: the engine, as a class `Store` holding customers and orders (maps by primary key) and items and payments (sequences in creation order).

## How the engine is modelled

- **Money.** All amounts are integer cents. Every amount in the source has two decimal places, so nothing is lost. The source rounds the tax with `quantize` under the default context, which is half-even. `TaxIsNearestCent` shows that 12% of a whole number of cents is never exactly half a cent, so the rounding mode never matters.
- **Rollback.** Every operation returns a `Result`. An error leaves all four collections unchanged, because the transaction rolls back.
  - `CreateOrder` inserts the customer and the order before it checks the item list, as the source does. It then restores the snapshot it took.
- **The newest payment.** Payments are ordered by `-created_at`, so `.first()` picks the newest matching payment. In the model that is the last match in the creation-ordered sequence (`NewestIndex`).
- **Inputs.** The clock, `uuid4()`, `timezone.now()`, new primary keys and the payment gateway's answer are all parameters:
  - The gateway stub in the source always approves; it becomes the parameter `approved`.
  - A taken unique value (primary key, order number, transaction id, a customer's user) makes the database raise. The model returns `Err(Conflict)` with nothing changed.
  - A guest customer whose email, name or phone is `None` breaks the NOT NULL columns of the customer table. The model returns `Err(CustomerFieldMissing)` with nothing changed. SQLite checks NOT NULL before uniqueness, so this error comes before a taken key or user.
- **A declined payment.** The source writes FAILED to the payment and the order, then raises inside the atomic block. Those FAILED writes never reach the database, so in the model a decline leaves the database unchanged.
- **Invariants every operation preserves:**
  - `Valid`: primary keys, foreign keys, unique order numbers, unique transaction ids and unique customer users.
  - `EntitiesClean`: every row passes its `clean` rule and its non-negative amount validators, and every order's subtotal is the sum of its items.
  - `EngineStatuses`: no committed order is PROCESSING or FAILED, and every order's version is at most its lifecycle stage (so at most three).
  - `RefundsBounded`: each refund row belongs to a REFUNDED order, refunds at most its total, and is that order's only refund row.
- **Repeated refunds.** `refund_order` only compares the amount with the order total, never with earlier refunds. Through the engine this is still safe: a refunded order is REFUNDED and can never be refunded again, which `RefundsBounded` and `RefundTwice` prove.
- **Negative quantities.** `OrderItem.quantity` is a positive-integer column, which the database guards with `CHECK ("quantity" >= 0)`. An item with a negative quantity makes `OrderItem.objects.create` raise inside the item loop, so `create_order` fails (`QuantityRejected`) after the empty-list check and before the payment is inserted, and every write is rolled back.
- **Email normalisation.** `User.clean` first calls the inherited `clean`, which normalises the email: a missing email becomes "", and an address with an '@' is stripped and the part after its last '@' lower-cased. The uniqueness test compares the normalised email, and `save` stores it.
- **A quirk kept as written.** A negative refund amount passes the `> total` check. The request serializer is what rejects it (amount ≥ 0.01), and the serializer is outside this model.

## Model

| member | source | states |
|---|---|---|
| Money.DivRoundHalfEven | apps/order/models.py:177 | `quantize` under ROUND_HALF_EVEN: the result is within half a unit of the exact quotient, and ties go to the even neighbour |
| Money.TaxIsNearestCent | apps/order/models.py:177 | the tax is within half a cent of 12% of the subtotal and is never a tie, so it equals the half-up rounding too |
| Money.TaxBounds | apps/order/models.py:115-121 | a non-negative subtotal has a tax between 0 and the subtotal (the `MinValueValidator(0.00)` on the tax holds) |
| Money.TaxCents | apps/order/models.py:177 | the tax of `calculate_totals`; characterised by `TaxIsNearestCent` (within half a cent of 12%, never a tie) and `TaxBounds` |
| Money.TaxExamples | apps/order/models.py:177 | 1050.00 is taxed 126.00, 250.00 is taxed 30.00, 0.04 is taxed 0.00, 0.05 is taxed 0.01 |
| Money.FormatCents | apps/order/services.py:350 | the amount written into the refund note ends in a point followed by two digits |
| Money.FormatCentsRoundTrip | apps/order/services.py:350 | the refund amount written into the notes reads back as exactly that amount |
| Money.UnsignedRoundTrip | apps/order/services.py:350 | the unsigned part of a formatted amount reads back as the absolute amount |
| Text.PadDigits | apps/order/services.py:57 | a `%Y`/`%m`-style field is exactly `w` decimal digits |
| Text.PadDigitsRoundTrip | apps/order/services.py:57 | a zero-padded field reads back as the number it was made from |
| Text.Decimal | apps/order/services.py:350 | the integer part of an amount is a non-empty digit string |
| Text.DecimalRoundTrip | apps/order/services.py:350 | the integer part reads back as the number it was made from |
| Text.Upper | apps/order/services.py:58 | `upper()` keeps the length and upper-cases each character in place |
| Text.UpperHex | apps/order/services.py:58 | upper-casing lower-case hex digits gives upper-case hex digits and is injective |
| Text.SkipSpace | apps/user/models.py:58 | the index of the first non-whitespace character at or after a position; everything skipped is whitespace |
| Text.SkipSpaceBack | apps/user/models.py:58 | the index just past the last non-whitespace character before a position; everything skipped is whitespace |
| Text.Strip | apps/user/models.py:58 | `strip()` leaves no whitespace at either end and never lengthens the string |
| Text.StripHas | apps/user/models.py:64 | `strip()` keeps every non-whitespace character, so an address has an '@' exactly when its strip has one |
| Text.Lower | apps/user/models.py:64 | `lower()` (ASCII letters) keeps the length and lower-cases each character in place |
| Text.LowerIdempotent | apps/user/models.py:64 | lower-casing twice is lower-casing once |
| Text.RFind | apps/user/models.py:64 | `rsplit('@', 1)` splits at the last '@': the index holds '@' and no later character does, or there is none (-1) |
| Text.StripEmptyIff | apps/user/models.py:58 | `strip()` gives the empty string exactly when the input is all whitespace |
| Text.StripKeeps | apps/user/models.py:58 | a string with no whitespace at its ends is its own strip |
| Identifiers.Stamp | apps/order/services.py:57 | `strftime('%Y%m%d%H%M%S')` is 14 digits |
| Identifiers.IdentifierShape | apps/order/services.py:54-66 | a generated identifier is the prefix, a dash, 14 digits, a dash and `width` upper-case hex digits |
| Identifiers.OrderNumber | apps/order/services.py:54-59 | `generate_order_number`; characterised by `OrderNumberShape` and `IdentifierInjective` |
| Identifiers.TransactionId | apps/order/services.py:61-66 | `generate_transaction_id`; characterised by `TransactionIdShape` and `IdentifierInjective` |
| Identifiers.OrderNumberShape | apps/order/services.py:54-59 | an order number is 25 characters: "ORD-", 14 digits, "-", 6 upper-case hex digits |
| Identifiers.TransactionIdShape | apps/order/services.py:61-66 | a transaction id is 27 characters: "TXN-", 14 digits, "-", 8 upper-case hex digits |
| Identifiers.StampInjective | apps/order/services.py:57 | different clock readings give different timestamps |
| Identifiers.IdentifierInjective | apps/order/services.py:54-66 | two identifiers are equal only when the clock readings and the used UUID digits are, so uniqueness rests on those alone |
| Identifiers.IdentifierParts | apps/order/services.py:59 | the timestamp and the suffix sit at fixed positions of an identifier |
| OrderModels.RemovePlusAndSpacesDigits | apps/order/models.py:70 | after removing '+' and ' ', the phone is all digits exactly when it used only digits, '+' and ' ', and it is non-empty exactly when it had another character |
| OrderModels.CustomerPhoneOk | apps/order/models.py:67-73 | `Customer.clean`'s phone rule; characterised by `CustomerPhoneOkIff` |
| OrderModels.OrderClean | apps/order/models.py:163-171 | `Order.clean`: the total is within a cent of subtotal + tax + shipping; `CalculateTotals` proves its result passes it |
| OrderModels.LineTotalOk | apps/order/models.py:247-255 | `OrderItem.clean`: the line total is within a cent of unit price × quantity; `SavedTotalSpec` says when a saved total passes it |
| OrderModels.PaymentClean | apps/order/models.py:353-360 | `Payment.clean`: a COMPLETED payment has a processing time; every store invariant includes it |
| OrderModels.SavedTotal | apps/order/models.py:257-261 | the total `OrderItem.save` stores; characterised by `SavedTotalSpec` |
| OrderModels.CustomerPhoneOkIff | apps/order/models.py:67-73 | `Customer.clean` accepts a phone exactly when it is empty, or uses only digits, '+' and ' ' and has at least one digit |
| OrderModels.SavedTotalSpec | apps/order/models.py:247-261 | `save` fills a missing or zero total with unit price × quantity and keeps any other; the stored total passes `clean` exactly when it was filled in or already within a cent; saving again changes nothing |
| OrderModels.SumTotalsNonNegative | apps/order/models.py:176 | non-negative line totals sum to a non-negative subtotal |
| OrderModels.SumTotalsAppend | apps/order/models.py:176 | the subtotal of two batches of items is the sum of their subtotals |
| OrderModels.CalculateTotals | apps/order/models.py:163-179 | the subtotal is the sum of the line totals; the tax is 12% of it to the nearest cent; the total is subtotal + tax + shipping; nothing else changes; `Order.clean` accepts the result; non-negative lines and shipping give non-negative amounts |
| OrderModels.CanBeCancelled | apps/order/models.py:181-187 | `can_be_cancelled`; characterised by `GuardsMatchTransitions` |
| OrderModels.CanBeRefunded | apps/order/models.py:189-191 | `can_be_refunded`; characterised by `GuardsMatchTransitions` |
| OrderModels.GuardsMatchTransitions | apps/order/models.py:181-191 | `can_be_cancelled` holds exactly for PENDING, PROCESSING and CONFIRMED, and `can_be_refunded` exactly for COMPLETED; these are exactly the states with a cancel or refund edge |
| OrderModels.PathMovesForward | apps/order/models.py:181-191 | along the status table (whose edges the engine's writes follow, by `ChargeFrame`, `CancelFrame`, `RefundFrame` and `CompleteOrder`), every step moves strictly forward, so a status history never repeats a status and has at most three steps |
| UserModels.Str | apps/user/models.py:53-54 | `__str__`; characterised by `StrMatchesFullName` |
| UserModels.FullName | apps/user/models.py:56-58 | `full_name`; characterised by `FullNameSpec` |
| UserModels.FullNameSpec | apps/user/models.py:56-58 | `full_name` is "first last" stripped, and the phone number exactly when that is all whitespace |
| UserModels.StrMatchesFullName | apps/user/models.py:53-58 | `__str__` is the phone number when either name is empty, and agrees with `full_name` when both names are present and unpadded |
| UserModels.NormalizeEmail | apps/user/models.py:64 | the inherited `clean` normalises the email: a missing one becomes "", one without '@' is kept as it is |
| UserModels.NormalizeEmailIdempotent | apps/user/models.py:64 | normalising a normalised email changes nothing, and nothing after its last '@' is upper-case |
| UserModels.Clean | apps/user/models.py:60-74 | `clean`; characterised by `CleanSpec` and `DomainCaseCollides` |
| UserModels.CleanSpec | apps/user/models.py:60-74 | `clean` passes exactly when the phone is empty or starts with 998 and no other user holds the normalised email; a bad prefix is reported first; the user's own stored row never counts against it; cleaning the normalised instance gives the same verdict |
| UserModels.DomainCaseCollides | apps/user/models.py:64-72 | with "a@b" stored for one user, another user's "a@B" is refused as taken |
| UserModels.FullCleanError | apps/user/models.py:76-80 | `full_clean` as modelled: the required phone, `clean`, then phone uniqueness; `StoredUserRevalidates` and `Save` use it |
| UserModels.StoredUserRevalidates | apps/user/models.py:76-81 | a stored user saved again unchanged passes validation |
| UserModels.SaveKeepsValid | apps/user/models.py:76-81 | writing a user with a valid phone and a normalised, untaken email keeps keys, phones and emails valid and unique |
| UserModels.ClearTokenKeepsValid | apps/user/models.py:83-88 | clearing a stored user's token keeps the table valid |
| UserModels.UserDirectory.constructor | apps/user/models.py:10-26 | an empty user table satisfies the table's invariants |
| UserModels.UserDirectory.Save | apps/user/models.py:76-81 | `full_clean` runs first and leaves the instance's email normalised; the normalised row is written only when it passes; the invariants are kept |
| UserModels.UserDirectory.InvalidateAllSessions | apps/user/models.py:83-88 | the instance's token is cleared and its email normalised; only the token column of the stored row changes, and only when validation passes and the row exists |
| OrderService.CustomerForUser | apps/order/services.py:42-49 | the customer created for a user; `GetOrCreateCustomerFromUser` states its fields |
| OrderService.NewItems | apps/order/services.py:131-144 | one row per input, in input order, for the new order, each with total = unit price × quantity |
| OrderService.ItemsOf | apps/order/models.py:175 | `order.items.all()` holds only that order's items |
| OrderService.ItemsOfAppend | apps/order/models.py:175 | an order's items in two batches of rows are its items in each batch, in order |
| OrderService.ItemsOfOnly | apps/order/models.py:175 | a batch with none of an order's rows adds none of its items; a batch of only its rows adds all of them |
| OrderService.NewestIndex | apps/order/services.py:192-195 | `.first()` under `-created_at` picks the newest payment of the order with the status, or there is none |
| OrderService.CancelOpenPayments | apps/order/services.py:283-289 | the bulk cancellation of open payments; characterised by `CancelOpenPaymentsSpec` |
| OrderService.CancelNotes | apps/order/services.py:278-279 | the old notes are kept; an empty reason adds nothing, a non-empty one is appended at the end |
| OrderService.RefundNoteReadsBack | apps/order/services.py:350 | the refund note keeps the old notes in front, appends the reason and the amount after them, and the amount at its end reads back as exactly the amount refunded |
| OrderService.RefundAmount | apps/order/services.py:324 | a given non-zero amount is refunded as given; no amount, or zero, refunds the order total; so the refund is zero only for a zero total |
| OrderService.CancelOpenPaymentsSpec | apps/order/services.py:283-289 | after the bulk update no payment of the order is open; exactly its PENDING and PROCESSING payments became CANCELLED with "Order cancelled"; every other payment is untouched |
| OrderService.ChooseCustomer | apps/order/services.py:102-116 | an unknown customer id fails with "Customer not found"; no id and no data fails with "Customer data required"; a guest field left `None` fails on the NOT NULL columns; otherwise the new guest customer is built from the data and linked to the signed-in user, unless its key or that user is taken; each error exactly when its condition holds |
| OrderService.GuestWithoutFieldsFails | apps/order/views.py:201-205 | a guest checkout with all three customer fields `None` (a non-empty `customer_data`) is refused at the customer insert |
| OrderService.AddCustomerKeepsValid | apps/order/services.py:111-116 | inserting a customer under a new key with an unlinked user keeps the database constraints |
| OrderService.ItemsOfFreshOrder | apps/order/services.py:131-146 | the items of the new order are exactly the new rows |
| OrderService.ItemsOfOtherOrders | apps/order/services.py:131-144 | the new rows add no item to any other order |
| OrderService.NewItemsClean | apps/order/services.py:132-134 | rows created from serializer-checked inputs pass `OrderItem.clean` and have positive totals |
| OrderService.CreatedOrderKeepsValid | apps/order/services.py:119-156 | inserting the order, its items and its payment keeps keys, foreign keys and unique columns |
| OrderService.CreatedOrderKeepsRefunds | apps/order/services.py:150-156 | a new PENDING payment keeps the refund bound |
| OrderService.CreatedOrderKeepsClean | apps/order/services.py:131-147 | the priced order, its clean items and its PENDING payment keep every row clean, and every subtotal matches its items |
| OrderService.CreatedOrderKeepsInvariants | apps/order/services.py:119-156 | order creation keeps all four invariants |
| OrderService.UpdateOrderKeepsValid | apps/order/services.py:277-281 | changing an order's status, notes and version keeps the database constraints |
| OrderService.UpdateOrderKeepsClean | apps/order/services.py:277-281 | those changes touch no amount, so every row stays clean |
| OrderService.UpdateOrderKeepsRefunds | apps/order/services.py:215-217 | re-statusing an order that has no refund row keeps the refund bound |
| OrderService.VersionsBounded | apps/order/services.py:216-217 | under `EngineStatuses` no order's version exceeds three |
| OrderService.UpdateOrderKeepsStatuses | apps/order/services.py:385-387 | a committed status reached by moving forward with one version bump keeps `EngineStatuses`, version bound included |
| OrderService.UpdateOrderKeepsInvariants | apps/order/services.py:380-387 | a status/notes/version change of an order that is not REFUNDED keeps all four invariants |
| OrderService.UpdatePaymentKeepsInvariants | apps/order/services.py:209-213 | completing a PENDING payment with a processing time keeps all invariants |
| OrderService.CancelOpenKeepsInvariants | apps/order/services.py:283-289 | the bulk cancellation of open payments keeps all invariants |
| OrderService.CancelOpenKeepsValid | apps/order/services.py:283-289 | it keeps the database constraints |
| OrderService.CancelOpenKeepsClean | apps/order/services.py:283-289 | it keeps every row clean |
| OrderService.CancelOpenKeepsRefunds | apps/order/services.py:283-289 | it keeps the refund bound |
| OrderService.RefundKeepsValid | apps/order/services.py:336-352 | appending the refund row under a new transaction id keeps the database constraints |
| OrderService.RefundKeepsClean | apps/order/services.py:336-352 | the refund row is not COMPLETED, so every row stays clean |
| OrderService.RefundKeepsRefunds | apps/order/services.py:319-352 | a COMPLETED order has no refund row yet, so its single refund of at most its total keeps the refund bound |
| OrderService.ConfirmKeepsInvariants | apps/order/services.py:209-217 | completing the payment and confirming its order keeps all four invariants |
| OrderService.CancelKeepsInvariants | apps/order/services.py:277-289 | cancelling the order and its open payments keeps all four invariants |
| OrderService.RefundKeepsInvariants | apps/order/services.py:336-352 | refunding a COMPLETED order by at most its total keeps all four invariants |
| OrderService.PlacedOrderTax | apps/order/services.py:146-147 | the created order carries exactly the tax `calculate_totals` computes, and its total is subtotal + tax + shipping |
| OrderService.ChargeFrame | apps/order/services.py:209-217 | an approved payment confirms its order with one version bump (an edge of the status table exactly when the order was PENDING or PROCESSING), completes exactly the chosen payment with its time and gateway, and touches no other order or payment |
| OrderService.CancelFrame | apps/order/services.py:277-289 | a cancellation bumps the version once (an edge of the status table exactly when `can_be_cancelled` held), leaves a status that cannot be cancelled again, keeps the notes when no reason is given, and changes exactly the order's open payments |
| OrderService.RefundFrame | apps/order/services.py:336-352 | a refund bumps the version once (an edge of the status table exactly when `can_be_refunded` held), leaves a status that cannot be refunded again, keeps every existing payment and appends one REFUNDED row for minus the amount, copying method, currency and gateway |
| OrderService.Store.constructor | apps/order/models.py:11-361 | the empty database satisfies all four invariants |
| OrderService.Store.AddItems | apps/order/services.py:131-144 | the loop appends exactly one row per input, in order, and succeeds exactly when no quantity is negative; otherwise it stops at the first negative quantity with the rows before it written |
| OrderService.Store.PriceOrder | apps/order/services.py:131-147 | after the items are added, the order is priced from exactly its items and stored |
| OrderService.Store.FillOrder | apps/order/services.py:131-156 | items, pricing and the PENDING payment for the total; a negative quantity, then a taken transaction id, rolls the order back |
| OrderService.Store.InsertOrder | apps/order/services.py:111-156 | customer, order, items and payment are inserted, or a conflict, an empty item list or a negative quantity leaves everything unchanged |
| OrderService.Store.CreateOrder | apps/order/services.py:68-163 | the errors in source order (unknown customer, missing data, a guest field left `None`, conflicts, empty items, a negative quantity, a taken transaction id), each leaving the database unchanged; on success a PENDING version-0 order priced from one row per item and one PENDING payment for its total; all four invariants kept |
| OrderService.Store.ProcessPayment | apps/order/services.py:165-238 | unknown order, a status other than PENDING/PROCESSING, no PENDING payment and a declined payment each fail with nothing changed; on approval the newest PENDING payment becomes COMPLETED with gateway and time, the order CONFIRMED with version + 1, and nothing else changes |
| OrderService.Store.Charge | apps/order/services.py:209-217 | the committed writes of an approved payment, keeping all four invariants |
| OrderService.Store.CancelOrder | apps/order/services.py:253-297 | unknown order and a non-cancellable status fail with nothing changed; otherwise the order is CANCELLED with version + 1, the reason is noted only when non-empty, and exactly its open payments are cancelled |
| OrderService.Store.RefundOrder | apps/order/services.py:299-360 | a non-COMPLETED order, an amount over the total and a missing COMPLETED payment each fail with nothing changed; otherwise the amount defaults to the total when absent or zero, a REFUNDED row for minus it copies the newest completed payment, and the order is REFUNDED with version + 1 and the reason and amount noted |
| OrderService.Store.RefundUnder | apps/order/services.py:316-352 | the checks and writes of `refund_order` once its transaction id is drawn |
| OrderService.Store.RefundChecked | apps/order/services.py:325-352 | for a refundable order: an amount above the total, a missing completed payment or a taken transaction id leave the store unchanged with their own error; otherwise the refund is committed against the newest completed payment |
| OrderService.Store.Refund | apps/order/services.py:336-352 | the committed writes of a refund, keeping all four invariants |
| OrderService.Store.CompleteOrder | apps/order/services.py:362-395 | only a CONFIRMED order becomes COMPLETED, with version + 1; anything else fails with nothing changed |
| OrderService.Store.GetOrCreateCustomerFromUser | apps/order/services.py:30-52 | no user gives no customer; a user's existing customer is returned unchanged; otherwise a customer is created with the user's email (or "phone@placeholder.com"), full name and phone, and afterwards the user has a customer |
| OrderService.CancelTwice | apps/order/services.py:272-275 | after a successful cancellation, cancelling again, with any reason, fails with "cannot be cancelled in current status: CANCELLED"; after a failed one, the second fails the same way |
| OrderService.RefundTwice | apps/order/services.py:319-322 | after a successful refund, refunding again, with any reason and amount, fails with "cannot be refunded in current status: REFUNDED" |

## Left out

- HTTP views, routing, pagination and authentication are not part of this model. They only decide which arguments reach the engine.
- The request serializers are not part of this model. Their bounds (quantity ≥ 1, unit price ≥ 0.01, shipping ≥ 0) appear as hypotheses where `CreateOrder` promises that rows stay clean.
- Row locks (`select_for_update`), `F('version')` expressions and concurrency are not modelled. Every call in this model runs alone.
- `refresh_from_db` is not modelled: the value returned is the value stored.
- Clocks, UUIDs, primary keys and the payment gateway are parameters, not generators.
  - Clock readings before year 1000 are excluded, because `%Y` padding for them depends on the platform.
- OrderService.Store.ProcessPayment: the transaction-internal writes of PROCESSING (before the gateway call) and FAILED (on decline) are not modelled one by one. Only the committed result is stated, because those writes are always overwritten or rolled back before commit.
- Localized message texts and the exception re-wrapping (`Order creation failed: …`) are reduced to `Error` tags.
- The JSON contents of `gateway_response` are reduced to tags, and item `metadata` is left out.
- `created_at` and `updated_at` are not stored. Creation order is the order of the payment and item sequences.
- `max_digits=10` (amounts below 10^8) is not modelled: amounts are unbounded integers.
- Field validators that `objects.create` never runs are not store invariants:
  - `Customer.clean` and `EmailValidator` (`Customer.clean` is modelled as a predicate, with a lemma).
  - `max_length` limits.
  - `Payment.amount ≥ 0.01`: a refund row's negative amount would fail it.
- `str.isdigit` is modelled on ASCII digits only; Unicode digits are not modelled.
- The `hasattr` fallbacks of `get_or_create_customer_from_user` are not modelled: the `User` model always has `full_name` and `phone_number`.
- An unauthenticated user is modelled as no user (`None`).
- UserModels.CleanSpec: the phone is not NFKC-normalised before the 998 test, as the inherited `clean` does; the model treats that normalisation as the identity, which it is on ASCII phones. Python's `lower()` is modelled on ASCII letters only.
- UserModels.UserDirectory.Save: stores the phone as given rather than NFKC-normalised, for the same reason.
- UserModels.UserDirectory.InvalidateAllSessions: leaves the instance's phone as given rather than NFKC-normalised, for the same reason.
- The `EmailValidator` of `User.email` is not modelled: `full_clean` would also reject a malformed non-empty email.
- `User.full_clean` is modelled as: the required phone, `clean`, and phone uniqueness. Password and other `AbstractUser` fields are not modelled. The `unique_user_identity` constraint follows from phone uniqueness.

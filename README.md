# Cleaning service: orders, pricing and the validation around them

A Dafny model of the order and pricing domain of a Django cleaning-service
site, with the small validation and selection rules around it:

- **Pricing** (`models.dfy`, module `CleaningModels`). An order's total is
  the sum of `price_at_order × quantity` over its items, less an optional promo
  code, clamped at 0. An order that has never been stored totals 0. An `Order` class
  caches that total in `totalAmount` on every `save`. An `OrderItem` class
  freezes the catalog price into `priceAtOrder` the first time it is saved,
  and writes its row into the order's items, keeping one row per service.
- **Phone numbers** (`models.dfy` over `regex.dfy`). The validator
  `^\+375(:?44|29|33)\d{7}$` is given as a regular-expression term, with
  matching semantics for the constructs it uses. It is proved equal to a
  plain description of the strings it accepts.
- **Order submission** (`order_forms.dfy`, module `CleaningForms`):
  - the order form's required fields;
  - the promo-code field (only active codes are offered, and a chosen code
    must be valid);
  - the item formset (at least one row, quantity at least 1, no service
    twice, with the error on the later row). A checker loop is proved
    equal to a declarative statement of these rules.
- **Client profile form** (`client_forms.dfy`, module `ClientProfileForms`):
  the contact person is required exactly for companies.
- **Timezone selection** (`tz.dfy`, module `GlobalsUtils`): the staff
  profile wins over the client profile; with neither, the result is `""`.

Modelling choices:

- Money is `real`: the source uses exact decimals.
- A primary key is a `nat`, with 0 for "not stored" (Python's `not self.pk`).
- Times are opaque integers.
- `PromoCode.is_valid` is called but not defined in the repository. The
  model takes it as a parameter `isValid`.
- `Order.items` stands for the rows `self.items.all()` reads. `Order.stored`
  is the order's own database row, so `save(update_fields=...)` can be
  stated column by column.
- Django behaviour that the repository relies on is modelled explicitly:
  - `save(update_fields=...)` on an unsaved record fails, and with no
    fields it writes nothing;
  - an item cannot be stored before its order;
  - the `unique_together` constraint refuses a second row for the same
    service;
  - `add_error` drops the field from `cleaned_data`;
  - an inline formset skips unchanged extra rows, counts only changed rows
    towards `min_num`, and checks uniqueness only among valid rows.

## Model

| member | source | states |
|---|---|---|
| CleaningModels.PhoneValidatorAccepts | cleaning_service/models.py:8 | the validator accepts exactly `+375`, then `:44`, `44`, `29` or `33`, then seven digits, optionally followed by one newline (Python's `$`) |
| CleaningModels.OperatorGroupMatches | cleaning_service/models.py:8 | the operator group `(:?44, 29, 33 alternatives)` matches exactly `:44`, `44`, `29` and `33` |
| CleaningModels.OptionalColonMatches | cleaning_service/models.py:8 | the optional colon belongs to the `44` branch only |
| CleaningModels.NumberPatternMatches | cleaning_service/models.py:8 | the whole pattern matches `+375`, a string the group matches, then seven digits |
| CleaningModels.GroupThenDigits | cleaning_service/models.py:8 | a group followed by `\d{n}` matches exactly when the group matches all but the last `n` characters and those are digits |
| CleaningModels.PhoneNumberAccepted | cleaning_service/models.py:8 | `+375`, any of the four operator codes and seven digits is accepted, with or without one trailing newline |
| CleaningModels.LengthTwelveRejected | cleaning_service/models.py:8 | no string of length 12 is accepted |
| CleaningModels.WrongCodeRejected | cleaning_service/models.py:8 | a string without a trailing newline whose characters between `+375` and the last seven are not an operator code is refused |
| CleaningModels.DoubleNewlineRejected | cleaning_service/models.py:8 | a string ending in two newlines is refused |
| CleaningModels.PhoneCoreLength | cleaning_service/models.py:8 | an accepted number has 13 characters, or 14 in the `+375:44` form |
| CleaningModels.PhoneAccepted | tests/test_models.py:55-72 | the test numbers `+375291234567` and `+375441234567` are accepted, and so are `+375:441234567` and a number with one trailing newline |
| CleaningModels.PhoneRejected | cleaning_service/models.py:8 | an unknown operator code, a digit too few, two trailing newlines and a colon before `29` are all refused |
| CleaningModels.IntendedPhoneValidatorAccepts | cleaning_service/models.py:8 | with the group written as a non-capturing group of `44`, `29` and `33` the validator accepts exactly `+375`, then `44`, `29` or `33`, then seven digits (and one optional newline) |
| CleaningModels.CoresDiffer | cleaning_service/models.py:8 | every number of the intended form is one of the written form, and the only extra numbers start `+375:44` |
| CleaningModels.ValidatorsDiffer | cleaning_service/models.py:8 | the intended validator accepts a subset of what the written one accepts; they differ only on strings starting `+375:44` |
| CleaningModels.ColonNumberDiscrepancy | cleaning_service/models.py:8 | `+375:441234567` is accepted as written and refused as intended |
| CleaningModels.NewPromoCode | cleaning_service/models.py:97-105 | a new promo code is active, has no use limit and has been used 0 times |
| CleaningModels.OrderTotal | cleaning_service/models.py:147-159 | the total is never negative |
| CleaningModels.UnsavedOrderTotal | cleaning_service/models.py:148-149 | an order without a primary key totals 0, whatever its items and promo |
| CleaningModels.TotalWithoutPromo | cleaning_service/models.py:151-159 | without a promo the total is max(subtotal, 0); with non-negative prices it is exactly the subtotal; with no items it is 0 |
| CleaningModels.TotalWithFixedPromo | cleaning_service/models.py:153-159 | a FIXED code gives max(subtotal − value, 0) |
| CleaningModels.TotalWithPercentagePromo | cleaning_service/models.py:156-159 | any other discount type gives max(subtotal − subtotal·value/100, 0) |
| CleaningModels.PromoNeverRaisesTotal | cleaning_service/models.py:153-159 | with non-negative prices and a non-negative value, a promo code never raises the total |
| CleaningModels.SubtotalAppend | cleaning_service/models.py:151 | the sum over two item lists is the sum of their sums |
| CleaningModels.SubtotalRemove | cleaning_service/models.py:151 | removing one item removes its line total from the subtotal |
| CleaningModels.SubtotalPermutation | cleaning_service/models.py:151 | the subtotal does not depend on the order in which items are returned |
| CleaningModels.SubtotalNonNegative | cleaning_service/models.py:27 | non-negative prices give a non-negative subtotal |
| CleaningModels.PricingExamples | tests/test_models.py:141-177 | 100 × 2 without a code gives 200; 100 with a FIXED 50 code gives 50 |
| CleaningModels.PromoExamples | cleaning_service/models.py:153-159 | 30 with a FIXED 50 code is clamped to 0; 200 with a 20 percent code gives 160 |
| CleaningModels.EmptyOrderTotal | cleaning_service/models.py:151-159 | a stored order without items totals 0 exactly when its promo is not a negative FIXED value |
| CleaningModels.FindRow | cleaning_service/models.py:173 | the index of the stored item with a given key, or -1 exactly when there is none |
| CleaningModels.StoreRow | cleaning_service/models.py:179-188 | writing an item row fails with a unique violation exactly when another row holds the same service; otherwise the row is present, other rows are kept and nothing else is added |
| CleaningModels.StoreRowKeepsWellFormed | cleaning_service/models.py:179-180 | storing a row keeps keys distinct and services unique within the order |
| CleaningModels.StoreFirstRow | cleaning_service/models.py:188 | the first item of an order is inserted as it is |
| CleaningModels.UpdateRow | cleaning_service/models.py:164 | `update_fields` writes exactly the named columns and keeps the others |
| CleaningModels.UpdateTotalOnly | cleaning_service/models.py:164 | updating only `total_amount` leaves every other column of the stored order as it was |
| CleaningModels.Order.CalculateTotal | cleaning_service/models.py:147-159 | `calculate_total` is never negative, and is 0 for an order without a key |
| CleaningModels.Order.constructor | cleaning_service/models.py:132-142 | a new order is unsaved, pending, unpaid, with total 0 and no items |
| CleaningModels.Order.Save | cleaning_service/models.py:166-168 | `save` caches the total computed before the write, stores every column, keeps the key or takes the new one, and changes nothing else |
| CleaningModels.Order.SaveFields | cleaning_service/models.py:166-168 | `save(update_fields=...)` caches `calculate_total()`, stores only the named columns, fails on an unsaved order and writes nothing when no columns are named |
| CleaningModels.Order.SaveCalculateTotal | cleaning_service/models.py:161-164 | afterwards `total_amount == calculate_total()`, and the stored row differs from before only in `total_amount` |
| CleaningModels.RecalculateTotal | cleaning_service/admin.py:62-65 | the admin recalculation ends with the same cached and stored total as `save_calculate_total` |
| CleaningModels.OrderItem.constructor | cleaning_service/models.py:175 | a new item is unsaved; the quantity defaults to 1 |
| CleaningModels.OrderItem.Save | cleaning_service/models.py:185-188 | a new item whose price is unset or zero takes the service's price, otherwise the price is unchanged; the row is written into the order's items exactly when the order is stored, the price is set and no other row holds the service |
| CleaningModels.TotalCalculationScenario | tests/test_models.py:141-154 | an item of price 100 and quantity 2, then `save_calculate_total`, stores a total of 200 |
| CleaningModels.FixedPromoScenario | tests/test_models.py:156-177 | subtotal 100 with a FIXED 50 code stores a total of 50 |
| CleaningModels.FrozenPriceScenario | tests/test_models.py:194-200 | an item saved without a price takes the service price 100 and keeps quantity 3 |
| CleaningForms.ActivePromoCodes | cleaning_service/forms.py:7-8 | the choice list holds exactly the active codes |
| CleaningForms.FindPromo | cleaning_service/forms.py:7-8 | a submitted id selects a code of the choice list with that id, and finds nothing exactly when no choice has it |
| CleaningForms.CleanPromoCode | cleaning_service/forms.py:7-17 | no selection gives None; a selected code is returned only when it is an active choice that is valid; errors arise only for a selection |
| CleaningForms.PromoAccepted | cleaning_service/forms.py:13-17 | an active, valid code is returned unchanged |
| CleaningForms.PromoRejected | cleaning_service/forms.py:14-16 | an active code that is not valid is refused with "This promo code is expired or invalid" |
| CleaningForms.InactivePromoNotOffered | cleaning_service/forms.py:7-8 | an inactive code cannot be chosen |
| CleaningForms.OrderFormErrors | cleaning_service/forms.py:6-21 | the address is in error exactly when blank or holding a NUL character, the work date exactly when missing, the promo exactly when its cleaning fails; a blank address and a missing date carry "This field is required.", a non-blank address with a NUL "Null characters are not allowed." |
| CleaningForms.NulAddressRejected | cleaning_service/models.py:130 | an address `"a\0"` is not blank but is refused with "Null characters are not allowed." and nothing else |
| CleaningForms.EmptyOrderFormRejected | tests/test_forms.py:50-54 | an empty order form has errors on address and work date |
| CleaningForms.OrderFormWithValidPromoAccepted | tests/test_forms.py:42-48 | a form with an address, a date and an active valid code has no errors |
| CleaningForms.FieldErrors | cleaning_service/models.py:174-175 | a row's fields are clean exactly when it names a catalog service and a quantity of at least 1 |
| CleaningForms.ValidateRows | cleaning_service/forms.py:28-35 | the first validation pass gives every row its field errors and counts the changed rows |
| CleaningForms.CheckUniqueServices | cleaning_service/models.py:179-180 | the uniqueness pass flags exactly the valid rows whose service an earlier valid row already holds, with one formset message per flagged row |
| CleaningForms.DuplicateMessages | cleaning_service/models.py:179-180 | the formset-wide duplicate errors are all "duplicate data" messages, at most one per row |
| CleaningForms.NoDuplicateMessages | cleaning_service/models.py:179-180 | there is no duplicate-data message exactly when no valid row repeats the service of an earlier one |
| CleaningForms.DuplicateMessageAt | cleaning_service/models.py:179-180 | every repeated row puts a duplicate-data message into the formset errors |
| CleaningForms.ValidateItemFormset | cleaning_service/forms.py:28-40 | the checker's per-row errors equal the declarative rules; its formset errors are the too-few error when fewer than one row is filled in, else one duplicate-data message per repeated row |
| CleaningForms.FormsetValidIff | cleaning_service/forms.py:28-40 | the formset has no errors exactly when at least one row is filled in, every filled row is valid, and no two filled rows share a service |
| CleaningForms.QuantityErrorReported | cleaning_service/models.py:175 | a quantity below 1 puts an error on that row (the form field's "greater than or equal to 0" for a negative one, the model's "greater than or equal to 1" for 0), and the row takes no part in the duplicate check |
| CleaningForms.DuplicateOnLaterRow | cleaning_service/models.py:179-180 | two valid rows with one service put the duplicate error on the later row and "Please correct the duplicate data for order and service, which must be unique." (the pair of `unique_together`) among the formset errors (and no too-few error), and never put the row error on the first row with that service |
| CleaningForms.ChangedCountPositive | cleaning_service/forms.py:34-35 | one filled-in row meets the minimum |
| CleaningForms.EmptyFormsetRejected | tests/test_forms.py:71-81 | no rows gives the "Please submit at least 1 form." error |
| CleaningForms.ZeroQuantityRejected | tests/test_forms.py:83-94 | quantity 0 gives exactly the "greater than or equal to 1" error on that row |
| CleaningForms.NegativeQuantityRejected | cleaning_service/models.py:175 | a negative quantity gives exactly the form field's "Ensure this value is greater than or equal to 0." error on that row, since `PositiveIntegerField` gives its form field a bound of 0 |
| CleaningForms.DistinctServicesAccepted | tests/test_forms.py:96-106 | two rows with distinct services and valid quantities are accepted |
| CleaningForms.SameServiceTwiceRejected | tests/test_forms.py:108-120 | the same service twice flags the second row |
| CleaningForms.SameServiceThriceRejected | cleaning_service/models.py:179-180 | the same service three times gives exactly two duplicate-data formset messages |
| CleaningForms.DuplicateMessage | tests/test_forms.py:108-120 | the row error mentions "duplicate" |
| ClientProfileForms.AppendError | client_profile/forms.py:38 | an added error is appended to its field's list and no other field's list changes |
| ClientProfileForms.NeedsContactPersonCases | client_profile/forms.py:33-38 | COMPANY with an empty, null or missing contact person needs one; COMPANY with a non-empty one, another type or no type does not |
| ClientProfileForms.ClientForm.constructor | client_profile/forms.py:24-30 | the contact person is required exactly for a stored instance of type COMPANY |
| ClientProfileForms.ClientForm.AddError | client_profile/forms.py:38 | `add_error` appends the message and removes the field from the cleaned data |
| ClientProfileForms.ClientForm.Clean | client_profile/forms.py:32-40 | a company without a contact person gets exactly that one error on `contact_person`; otherwise nothing changes; every other cleaned field is returned unchanged |
| GlobalsUtils.GetTz | globals/utils.py:1-11 | the staff timezone when there is a staff profile, else the client timezone, else `""` |
| GlobalsUtils.StaffProfileTakesPrecedence | globals/utils.py:3-5 | with a staff profile, the client profile does not matter |
| GlobalsUtils.TzComesFromAProfile | globals/utils.py:1-11 | the result is always `""` or the timezone of a profile the user has |

## Left out

- Views, URL routing, templates, the admin UI other than the recalculation step, outbound HTTP calls, the statistics chart, the timezone middleware, signals, account registration and file logging: framework plumbing and I/O with no pricing or validation logic.
- `PromoCode.is_valid` is not defined in the repository: it is a parameter of the form functions, not a definition.
- The `timezone` fields of clients and staff are not declared in the models: a profile is modelled as just its timezone string.
- The views that show orders by role (`OrderView`, `AddOrderView` and the catalog views) are not part of this model.
- The order status and payment status are enumerated only; the source has no transition rules, so there is no lifecycle to model.
- Decimal quantisation to two places, `max_digits` overflow, the order's UUID and all timestamps are persistence details left out.
- Python's `\d` also matches non-ASCII decimal digits; the model's digit class is ASCII `0`–`9`.
- The item formset is modelled for a new order only: no rows are initial (already stored) forms. With initial forms, Django skips an unchanged row only from index max(initial forms, `min_num`) on, and never treats an initial row as empty.
- The formset's `absolute_max` of 2000 rows is not modelled: above it Django ignores the surplus rows and reports "Please submit at most 1000 forms."
- The quantity's upper bound, which comes from the database backend's integer range, is not modelled: the quantity is an unbounded integer.
- Choice-field validation of `client_type` and the other model fields of the client form are not modelled; `Clean` starts from whatever the field cleaning produced.
- CleaningModels.Order.Save: the claim `totalAmount == CalculateTotal()` after the call is stated only for an order that was already stored, or whose promo is not a negative FIXED value. On the first save the total is computed before the key exists, so it is 0, while the stored order's total with a negative FIXED value is positive.
- The phone validator is modelled with the pattern as written; the intended pattern is modelled beside it (see Findings) and nothing else uses either one.

## Findings

| source | as written | input that shows it | evidently intended | confidence | as-written member | corrected member |
|---|---|---|---|---|---|---|
| cleaning_service/models.py:8 | the operator group is written `(:?` rather than `(?:`, which makes a colon optional before `44` | `+375:441234567` is accepted | a non-capturing group, accepting only `+375`, an operator code and seven digits | medium, not executed | CleaningModels.ColonNumberDiscrepancy | CleaningModels.IntendedPhoneValidatorAccepts |

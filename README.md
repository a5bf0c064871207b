# Hotel booking client logic, modelled in Dafny

This project models the client-side booking logic of a hotel website, found in
two browser scripts: `app/static/js/reservas.js` and `app/static/js/main.js`.
Every read of a page input becomes a parameter. What remains is sequential and
deterministic, and Dafny 4.11 proves properties of it.

- **Reservation wizard** (`ReservationForm`). This is a three-step state
  machine: dates and guests, then personal information, then payment. A step
  advances only when its validator passes. On each successful step the wizard
  adds that step's fields to a `formData` record and copies the record into
  session storage.
- **Step validators**:
  - dates: both set, check-out after check-in, guests chosen;
  - personal information: four non-blank fields, an `a@b.c` email, a phone
    with at least ten digits;
  - payment: card length, expiry month, expiry date, CVV length, checked in
    that order.
- **Pricing**: nights, subtotal, 15% tax, total. The wizard's calculator falls
  back to a price of 250; the page's real-time calculator returns null instead.
- **Input masks**: card number, expiry, CVV and phone.
- **The generic form validator** `validateForm`, with its email and tel rules.
- **Reservation cart** (`ReservationCart`). This is a list persisted in local
  storage, with a count badge.

Modules, one file each:

- `Wrappers`: `Option`. It stands for JavaScript's `null`, `undefined` and
  `NaN`.
- `Text`: the JavaScript string primitives the scripts use:
  - `\s`, which is also the set `trim` removes;
  - `replace(/…/g, '')` as `Filter`;
  - `substring(0, n)`;
  - `length` in UTF-16 code units;
  - `indexOf`;
  - `parseInt` in full: leading whitespace, sign, a `0x` prefix, and NaN as
    `None`.
- `Rules`: the email and tel rules and `validateForm` (main.js).
- `Masks`: the four input masks.
- `StepChecks`: the three wizard validators.
- `Pricing`: both price calculators.
- `Wizard`: the `ReservationForm` class, the step display, the date pickers
  (`DateInputs` class) and the guests listener.
- `Cart`: the `ReservationCart` class.

State that the source updates in place is modelled as classes whose methods
carry `modifies` clauses:

- the wizard's step, record, session store and submitted flag;
- the date inputs;
- the cart's items, store and badge.

`validateForm` and `validatePersonalInfo` loop over fields while updating a
flag. They are methods with loops, specified against a per-field function.
Everything else is a function, with lemmas about it.

Some behaviour of the code worth knowing:

- The phone mask formats `(XXX) XXX-XXXX` only for exactly ten digits. Its
  pattern needs ten, so fewer than ten digits are left bare.
- `validateForm`'s tel rule counts allowed characters, not digits. It asks for
  ten or more characters drawn from digits, `-`, `+`, `(` and `)`, once
  whitespace is removed. The digit count belongs to the wizard's
  `validatePersonalInfo`.
- The card number `4111 1111 1111` has 12 digits and is rejected for its length
  (`StepChecks.ShortCardRejected`).
- `validateCurrentStep` replaces each validator's specific message with its
  generic one. The model records why a step failed (`StepError`), but the page
  always ends up showing the generic text.

Two consequences of the code that the proofs make explicit:

- A masked phone with an extension always fails `validateForm`'s tel rule. The
  rule does not allow the `x` that the phone mask inserts
  (`Masks.MaskedExtensionFailsTelRule`).
- An incomplete expiry passes `validatePayment` when the month is in range.
  This covers `1` or `12/`, which is what the expiry mask shows after one or two
  keystrokes. The year is then NaN, and comparisons with NaN are false
  (`StepChecks.IncompleteExpiryAccepted`).

## Model

| member | source | states |
|---|---|---|
| `Text.TrimBlank` | app/static/js/main.js:76 | `trim()` gives the empty (falsy) string exactly when every character is whitespace |
| `Text.ParseIntDecimal` | app/static/js/reservas.js:206-212 | `parseInt` of a non-empty string of decimal digits is the number it spells |
| `Text.ParseIntNoDigits` | app/static/js/reservas.js:206-212 | `parseInt` of a string whose first character is neither whitespace, a sign nor a digit is NaN |
| `Text.IndexOfAt` | app/static/js/reservas.js:202 | the search that `split('/')` relies on stops at the first `/` |
| `Rules.EmailRuleMatchesRegex` | app/static/js/main.js:79-84 | the email scanner accepts exactly `a + "@" + b + "." + c` with `a`, `b`, `c` non-empty and free of whitespace and `@` (both directions) |
| `Rules.EmailHasOneAt` | app/static/js/main.js:80-81 | an accepted address contains exactly one `@` |
| `Rules.TelRuleIgnoresSpace` | app/static/js/main.js:85-87 | the tel rule judges the value with whitespace removed, so removing whitespace first changes nothing |
| `Rules.TenHyphensPassTelRule` | app/static/js/main.js:85-87 | the tel rule counts characters, not digits: ten hyphens pass with no digit at all |
| `Rules.BlankFieldFails` | app/static/js/main.js:76-78 | a required field made only of whitespace is reported missing, whatever its type |
| `Rules.ValidateForm` | app/static/js/main.js:61-95 | a missing form is valid; otherwise every required field is checked with no early exit, each gets the blank/email/tel verdict of its type, and the form is valid iff no field failed |
| `Masks.CardMaskIsBlocks` | app/static/js/reservas.js:391-399 | spacing every complete group of four and then trimming gives blocks of four joined by single spaces |
| `Masks.CardMaskDigits` | app/static/js/reservas.js:392-393 | the card mask keeps exactly the first 16 digits of the input, in order |
| `Masks.CardMaskLayout` | app/static/js/reservas.js:395-396 | the masked card has length `n + (n-1)/4` for `n` kept digits, a space exactly at every fifth position, digits elsewhere, and no trailing space |
| `Masks.CardMaskIdempotent` | app/static/js/reservas.js:391-399 | masking a masked card number changes nothing |
| `Masks.ExpiryMaskDigits` | app/static/js/reservas.js:403-411 | fewer than two digits are returned bare; otherwise the output is the first two digits, a `/` at index 2, then digits three and four when present, so its digits are the first four of the input |
| `Masks.ExpiryMaskIdempotent` | app/static/js/reservas.js:403-411 | masking a masked expiry changes nothing |
| `Masks.CvvMaskIdempotent` | app/static/js/reservas.js:415-419 | the CVV mask yields at most four digits and is idempotent |
| `Masks.PhoneMaskLayout` | app/static/js/main.js:179-190 | fewer than ten digits stay bare, exactly ten become `(XXX) XXX-XXXX`, 11 to 15 get ` xREST` appended; later digits are dropped |
| `Masks.PhoneMaskDigits` | app/static/js/main.js:179-182 | the phone mask carries exactly the first 15 digits of the input, in order |
| `Masks.PhoneMaskIdempotent` | app/static/js/main.js:177-194 | masking a masked phone number changes nothing |
| `Masks.MaskedTenDigitsPassTelRule` | app/static/js/main.js:85-91 | a phone masked from exactly ten digits passes `validateForm`'s tel rule |
| `Masks.MaskedExtensionFailsTelRule` | app/static/js/main.js:85-91 | a phone masked from more than ten digits fails the tel rule because of its `x` |
| `StepChecks.DatesCheck` | app/static/js/reservas.js:135-150 | the dates step passes iff both dates and the guest count are set and check-out is after check-in; it reports an order violation iff all are set and check-out is not after check-in |
| `StepChecks.PersonalInfoValidIff` | app/static/js/reservas.js:152-184 | personal information passes iff the four fields are non-blank after trimming, the untrimmed email has the `a@b.c` shape and the phone has at least ten digits |
| `StepChecks.ValidatePersonalInfo` | app/static/js/reservas.js:152-184 | all four fields are visited in order with no early exit, each gets its own verdict, and the result is true iff none failed |
| `StepChecks.SplitExpiry` | app/static/js/reservas.js:202 | `split('/')` yields an `undefined` year exactly when the expiry has no `/` |
| `StepChecks.ExpiryCheck` | app/static/js/reservas.js:202-215 | the expiry part can only pass, report an invalid month, or report an expired card |
| `StepChecks.PaymentCheck` | app/static/js/reservas.js:186-224 | an empty field is reported exactly when the card without whitespace, the expiry or the CVV is empty; an invalid card number exactly when all are filled and the card is not 15 to 19 UTF-16 units; an expiry error is the expiry check's verdict; an invalid CVV exactly when everything before passes and the CVV is not 3 to 4 units; the payment is accepted iff every stage passes |
| `StepChecks.MaskedCardDigits` | app/static/js/reservas.js:187 | removing whitespace from a masked card number gives back the digits the mask kept |
| `StepChecks.MaskedExpirySplit` | app/static/js/reservas.js:202 | a complete masked expiry splits into its two digit pairs |
| `StepChecks.MaskedExpiryCheck` | app/static/js/reservas.js:202-215 | a complete masked expiry passes iff its month is 1 to 12 and (year, month) is not before today |
| `StepChecks.MaskedPaymentCheck` | app/static/js/reservas.js:186-224 | with masked inputs and a complete expiry, payment passes iff the card has 15 or more digits, the month is 1 to 12, the date is not past and the CVV has 3 or more digits |
| `StepChecks.MaskedCardAndCvvPass` | app/static/js/reservas.js:191-221 | with a valid masked card and CVV and a non-empty expiry that passes, the payment is accepted |
| `StepChecks.ExpiryCheckOfNumbers` | app/static/js/reservas.js:206-215 | when month and year both parse, the expiry passes iff the month is 1 to 12 and (year, month) is not before today |
| `StepChecks.MonthOnlyExpiryPasses` | app/static/js/reservas.js:202-215 | an expiry of month digits without `/` has an undefined year and passes for any month 1 to 12, whatever today is |
| `StepChecks.EmptyYearExpiryPasses` | app/static/js/reservas.js:202-215 | an expiry `MM/` has an empty year, which parses to NaN, and passes for any month 1 to 12, whatever today is |
| `StepChecks.OneDigitExpiryPasses` | app/static/js/reservas.js:202-215 | the expiry `1` has no year, so the check passes for every current date |
| `StepChecks.TwoDigitExpiryPasses` | app/static/js/reservas.js:202-215 | the expiry `12/` has an empty year, NaN, so the check passes for every current date |
| `StepChecks.IncompleteExpiryAccepted` | app/static/js/reservas.js:186-224 | a valid masked card and CVV with the expiry `1` or `12/` are accepted |
| `StepChecks.ShortCardRejected` | app/static/js/reservas.js:196-199 | a masked card number of 1 to 14 digits is rejected for its length before expiry and CVV are looked at |
| `Pricing.PriceFor` | app/static/js/reservas.js:262-264 | taxes are 15% of the subtotal and the total is 115% of it |
| `Pricing.PriceIsLinear` | app/static/js/reservas.js:262-264 | subtotal, taxes and total for `n` nights are `n` times those for one night |
| `Pricing.TotalCoversSubtotal` | app/static/js/reservas.js:262-264 | with a non-negative price and at least one night, 0 ≤ subtotal ≤ total |
| `Pricing.StayQuote` | app/static/js/reservas.js:256-264 | a quote exists iff both dates are set and check-out is after check-in; it has at least one night, `nights = checkOut - checkIn`, and is price × nights plus tax |
| `Pricing.ThreeNightsAt250` | app/static/js/reservas.js:256-264 | three nights at 250 cost 750 plus 112.50 tax, 862.50 in total |
| `Pricing.WizardUnitPrice` | app/static/js/reservas.js:254 | `|| 250`: a NaN or zero price becomes 250, any other price is kept |
| `Pricing.RealTimePrice` | app/static/js/reservas.js:465-490 | a result exists iff the parsed price is positive, both dates are set and check-out is after check-in; otherwise null |
| `Pricing.CalculatorsAgree` | app/static/js/reservas.js:465-490 | with a positive page price the real-time calculator and the wizard's calculator give the same quote |
| `Pricing.CalculatorsDisagreeWithoutPrice` | app/static/js/reservas.js:254 | with no readable price and a valid stay, the wizard prices at 250 a night while the real-time calculator returns null |
| `Wizard.StepIndicators` | app/static/js/reservas.js:72-82 | one mark per step indicator |
| `Wizard.StepDisplayAt` | app/static/js/reservas.js:70-88 | indicator `i` is active iff step `i` is current, completed iff it comes earlier; section `i` is shown iff step `i` is current |
| `Wizard.StepDisplayCounts` | app/static/js/reservas.js:70-88 | on `n` indicators, one is active when the current step is within them, and `min(n, current-1)` are completed; one section is shown |
| `Wizard.StepDisplayWellFormed` | app/static/js/reservas.js:70-88 | with the three steps, exactly one step is active, `current - 1` are completed and one section is visible |
| `Wizard.StepValues` | app/static/js/reservas.js:226-245 | each step writes exactly its own keys: dates and guests, the five personal fields, or the three card fields |
| `Wizard.PriceValues` | app/static/js/reservas.js:283-286 | the price calculation writes exactly `nights`, `subtotal`, `taxes` and `total` |
| `Wizard.PriceKeysAreNotStepKeys` | app/static/js/reservas.js:226-286 | the price keys never coincide with a step's keys |
| `Wizard.ReservationForm.constructor` | app/static/js/reservas.js:4-9 | the wizard starts at step 1 with an empty record, not submitted, and sees the session store an earlier page left |
| `Wizard.ReservationForm.RestoreSaved` | app/static/js/reservas.js:432-435 | a saved session record replaces `formData` |
| `Wizard.ReservationForm.ValidateCurrentStep` | app/static/js/reservas.js:113-133 | the result is the verdict of the current step's validator |
| `Wizard.ReservationForm.SaveStepData` | app/static/js/reservas.js:226-249 | only the current step's keys are written, other keys keep their values, none is removed, and the session store equals `formData` afterwards |
| `Wizard.ReservationForm.NextStep` | app/static/js/reservas.js:91-103 | on failure nothing changes; on success the step's data is saved and the step goes up by one, or at step 3 stays and sets `submitted`; `1 ≤ currentStep ≤ 3` is kept |
| `Wizard.ReservationForm.PrevStep` | app/static/js/reservas.js:105-111 | at step 1 nothing changes, otherwise the step goes down by exactly one |
| `Wizard.ReservationForm.CalculatePrice` | app/static/js/reservas.js:251-289 | with a quote (fallback price 250) the four amounts are recorded, otherwise `formData` is unchanged |
| `Wizard.CorrectedCheckOut` | app/static/js/reservas.js:43-45 | an empty check-out stays empty; a set one ends after check-in; one already after check-in is untouched; any other is moved to check-in + 1 |
| `Wizard.CorrectedStayIsPriced` | app/static/js/reservas.js:36-47 | after the check-in listener, a set check-out always leaves at least one night to price |
| `Wizard.DateInputs.constructor` | app/static/js/reservas.js:17-33 | check-in defaults to today and check-out to tomorrow, each also its minimum |
| `Wizard.DateInputs.OnCheckInChange` | app/static/js/reservas.js:36-47 | an empty check-in changes nothing; otherwise check-out's minimum becomes check-in + 1 and check-out is corrected |
| `Wizard.GuestsUI` | app/static/js/reservas.js:291-302 | the count is shown as given, and additional guests are shown iff the count is a number above 1 |
| `Wizard.GuestsChangedAsWrittenIgnoresSelection` | app/static/js/reservas.js:61-63 | the listener as written shows NaN and hides additional guests whatever is selected |
| `Wizard.GuestsChangedShowsSelection` | app/static/js/reservas.js:291-302 | parsing the selection, the count shows the number selected and additional guests appear iff it is above 1 |
| `Wizard.GuestsListenerDiscrepancy` | app/static/js/reservas.js:61-63 | selecting 2 guests shows the additional block as intended but not as written |
| `Cart.BadgeFor` | app/static/js/main.js:247-250 | a badge shows the count and is visible iff the count is positive |
| `Cart.SpliceStart` | app/static/js/main.js:224 | `splice` starts at the index when it is in range, at the length past the end, and counts from the end for a negative index, clamped at 0 |
| `Cart.Spliced` | app/static/js/main.js:224 | `splice(index, 1)` removes one item at the start position when there is one, keeping the rest in order |
| `Cart.SplicedInRange` | app/static/js/main.js:223-227 | for `0 ≤ i < length` exactly item `i` is removed; for `i ≥ length` the list is unchanged |
| `Cart.SplicedNegative` | app/static/js/main.js:223-227 | a negative index removes the item that far from the end, or the first item when it reaches past the start |
| `Cart.ReservationCart.constructor` | app/static/js/main.js:205-207 | the cart loads the stored list, or the empty list when none is stored |
| `Cart.ReservationCart.GetCount` | app/static/js/main.js:239-241 | the count is the number of items |
| `Cart.ReservationCart.Save` | app/static/js/main.js:235-237 | the store holds the list in memory |
| `Cart.ReservationCart.UpdateCartCount` | app/static/js/main.js:243-251 | every badge shows the item count and is visible iff it is positive |
| `Cart.ReservationCart.AddItem` | app/static/js/main.js:209-221 | exactly one item is appended at the end, earlier items are unchanged, the store equals the items and the badge is refreshed |
| `Cart.ReservationCart.RemoveItem` | app/static/js/main.js:223-227 | the items become `splice(index, 1)` of the old items and are persisted |
| `Cart.ReservationCart.Clear` | app/static/js/main.js:229-233 | the cart becomes empty with count 0, the empty list is persisted and the badge hidden |
| `Cart.Reload` | app/static/js/main.js:205-237 | save then load round-trips: a cart built from the store holds the same items |

## Left out

- Reading and writing the page is not modelled: inputs, classes, styles, error
  annotations and the banner text. Each input read is a parameter. The error
  annotations appear only as the per-field verdicts returned by
  `ValidateForm` and `ValidatePersonalInfo`.
- Elements missing from the wizard page are not modelled. `validatePersonalInfo`
  would throw on one, and `saveStepData` would record `undefined`. The wizard
  page is assumed to hold all its inputs.
- `submitForm` is reduced to the `submitted` flag. Its delay, busy button and
  redirect are timers and navigation. `showStepError`'s auto-hide and
  `showNotification` are left out for the same reason.
- The clock is a parameter. The current year and month for the expiry check are `Today`, today's date for the pickers is a day number, and the cart's `addedAt` is an integer reading rather than an ISO string.
- `updatePriceDisplay` (reservas.js:496-515) only writes `calculateRealTimePrice`'s result into the page. The result itself is `Pricing.RealTimePrice`.
- The `selectRoom` request is network input and is left out.
- The header, smooth-scroll, reveal-on-scroll and current-year effects of
  main.js are page decoration and are left out.
- JavaScript `Date` is not modelled. Dates are day numbers, and `None` is an
  empty input. ISO dates parse to UTC midnight, so the night count is the
  difference of day numbers. How local time zones affect `setDate` is left out.
- The second default-date pass at page load (reservas.js:447-462) is left out.
  It only fills inputs that are still empty, and the wizard's own date setup
  has already filled them.
- `parseFloat` of the price text is left out. The parsed price is a parameter,
  with `None` for NaN.
- Prices are exact reals. Binary floating-point rounding and `toFixed(2)`
  formatting are left out.
- JSON serialisation is not modelled. The session and local stores hold the
  record and the list themselves.
- Refilling inputs from the saved record (reservas.js:437-443) is DOM writing.
  Only `formData := saved` is modelled.
- `Pricing.PriceFor`: amounts are exact reals, so it does not capture the
  floating-point error of `subtotal * 0.15`.
- app/app.py is a route and a 404 handler and is not part of this model.

## Findings

| source | as written | input that shows it | evidently intended | confidence | as-written member | corrected member |
|---|---|---|---|---|---|---|
| app/static/js/reservas.js:61-63 | the guests `change` listener is `.bind(this)` to the form, so `parseInt(this.value)` parses the form's undefined `value` and always gives NaN | selecting 2 guests | parse the select's own value and show the additional-guests block for more than one guest | high, not executed | `Wizard.GuestsChangedAsWritten` (shown by `Wizard.GuestsChangedAsWrittenIgnoresSelection`) | `Wizard.GuestsChanged` (proved by `Wizard.GuestsChangedShowsSelection`) |

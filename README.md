# Add-funds controller

A Dafny model of the controller behind the "add funds" page of the Voltrix
wallet (`js/addFunds.js`). The user tops up a balance kept in the browser's
key-value storage. The model covers these parts of the page:

- **Field formatters** (module `Formatters`). They decide what the
  card-number, expiry, CVV and custom-amount fields hold after each keystroke.
  The card number is grouped in blocks of four and cut at 19 characters. The
  expiry is written `MM/YY`. The CVV keeps its digits only. The custom amount
  is read as the decimal value of its digits. The clamp at Rp 100,000,000
  applies only when the whole field text is a bare numeral, as after a paste.
  Once the field shows grouped text such as `1.500.000`, the clamp no longer
  fires (see Findings).
- **Validity** (module `Validation`). This is `validateForm`'s verdict. The
  amount must reach Rp 10,000. Only for the card method, the card number needs
  at least 13 non-space characters, the expiry exactly 5 characters, the CVV at
  least 3 characters and the trimmed name at least 2 characters.
- **Payment outcome** (module `Payment`). It maps the checked payment method to
  its simulated gateway. The card gateway declines numbers that start with
  4111; every other gateway, and an unknown method, approves.
- **Balance slot** (module `BalanceStore`). The storage is a
  `map<string, string>`. The key `voltrixBalance` holds the balance as a
  decimal numeral, and a missing or empty slot reads as 0.
- **Controller** (module `AddFunds`). The class `AddFunds.Controller` holds the
  page's state: `selectedAmount`, `currentBalance` (`balance`), the
  preset buttons' `selected` flags (an array), the field texts, the checked
  method, the button's `disabled` flag, the storage, and the attempts still
  waiting for their gateway. Its methods are the event handlers. The
  `async processPayment` is split at its `await`. `Click` runs up to the
  `await`. `Resolve` runs the rest once the gateway settles, so input events
  can arrive in between. Each handler states its whole new state as a `Form`
  record. The pure functions `Clicked`, `Resolved` and `ResolvedIntended`
  describe the payment steps, and lemmas about them carry the properties.
- **Scenarios** (module `Scenarios`). These are short sessions driven
  through the handlers, over an example catalogue of preset amounts: a
  wallet top-up from a freshly loaded page, an amount below the minimum, a
  pasted amount above the ceiling, and a second attempt started while the
  first is still in flight. A declined card is shown in two parts:
  `TestCardFields` shows that the test card's fields make a valid form, and
  `SubmitDeclined` submits any idle valid form that the gateway declines.

The model follows the code where it departs from the intended behaviour:

- After a payment, the button should again be enabled only for a valid
  form. The code sets `disabled = false` in `finally` (line 387) whatever
  the form holds. `AddFunds.Resolved` models the code.
- A fault during an attempt should leave the balance as it was. In the
  code, an exception thrown by `localStorage.setItem` (line 372) comes after
  `currentBalance` has already grown (line 371). `AddFunds.Resolved` keeps
  that credit.
- A payment should be one step during which the button stays disabled. In
  the code, any input event during the `await` runs `validateForm` and can
  enable the button again, so a second attempt can start before the first
  settles (`Scenarios.SecondAttemptWhileInFlight`). The card number and
  `selectedAmount` are read when the gateway settles, not when the button
  is clicked.
- An amount above Rp 100,000,000 should be capped. The clamp reads the field
  with `parseFloat`, which takes the first grouping dot for a decimal point
  and stops at the second, so it reads a grouped amount as less than 1000
  and typed amounts are never capped (`Formatters.CustomAmountEscapesClamp`).

Each of these has a corrected definition beside the as-written one; the
Findings table names both.

## Model

| member | source | states |
|---|---|---|
| Text.Filter | js/addFunds.js:98 | removing every character outside a class leaves a string no longer than the input, made only of characters of the class |
| Text.Digits | js/addFunds.js:117 | `replace(/\D/g, '')` leaves only ASCII digits and never lengthens the text |
| Text.RemoveSpaces | js/addFunds.js:142 | `replace(/\s/g, '')` leaves no whitespace and never lengthens the text |
| Text.FilterConcat | js/addFunds.js:98 | removing characters works piecewise over a concatenation |
| Text.FilterKeepsAll | js/addFunds.js:98 | removing characters from a text that has none of them changes nothing |
| Text.FilterFilter | js/addFunds.js:98 | a narrower filter applied first is absorbed by a wider one applied after it |
| Text.DigitsIdempotent | js/addFunds.js:98 | stripping non-digits twice is stripping once, and stripping whitespace first changes nothing |
| Text.DigitsOfDigits | js/addFunds.js:117 | a text of digits is left as it is by both strippers |
| Text.DigitsConcat | js/addFunds.js:98 | both strippers work piecewise over a concatenation |
| Text.TrimStart | js/addFunds.js:145 | the result is a suffix of the input that does not start with whitespace, and everything dropped is whitespace |
| Text.TrimEnd | js/addFunds.js:145 | the result is a prefix of the input that does not end with whitespace, and everything dropped is whitespace |
| Text.Trim | js/addFunds.js:145 | `trim()` never lengthens, leaves no whitespace at either end, and is empty exactly when the input is all whitespace |
| Text.DigitValue | js/addFunds.js:398 | a digit's value is below 10 |
| Text.DigitChar | js/addFunds.js:372 | the character written for a value below 10 is a digit with that value |
| Text.DecimalValue | js/addFunds.js:398 | `parseInt` of a digit string, leading zeros allowed, is 0 exactly when every digit is 0 (inverse of `toString`: `DecimalRoundTrip`, `DecimalCanonical`) |
| Text.DecimalString | js/addFunds.js:372 | `toString()` of a whole number is a non-empty run of digits without a leading zero |
| Text.DecimalRoundTrip | js/addFunds.js:372 | reading back the numeral written for `n` gives `n` |
| Text.DecimalPositive | js/addFunds.js:50 | a numeral that does not start with 0 has a value of at least 1 |
| Text.DecimalCanonical | js/addFunds.js:50 | a numeral without leading zeros is exactly what `toString()` writes for its value |
| Formatters.GroupBy4 | js/addFunds.js:99 | the grouped text has `n + (n - 1) / 4` characters for `n` digits; every fifth character is a space and the rest are the digits in order |
| Formatters.GroupedAfterBlock | js/addFunds.js:99 | a block of four and a space in front of a grouping of the rest is a grouping of the whole |
| Formatters.FormatCardNumber | js/addFunds.js:100 | the card-number field holds at most 19 characters |
| Formatters.CardDigits | js/addFunds.js:98-100 | the kept digits are the first `min(n, 16)` typed digits, in order |
| Formatters.GroupedDigits | js/addFunds.js:99 | removing the separators from a grouping gives the digits back |
| Formatters.GroupTruncated | js/addFunds.js:100 | cutting the grouping of more than 16 digits at 19 characters is the grouping of the first 16 digits |
| Formatters.CardNumberGrouping | js/addFunds.js:98-100 | the card-number formatter groups the first 16 typed digits |
| Formatters.GroupedShape | js/addFunds.js:99 | a grouping has a space exactly at every fifth position, digits elsewhere, and no trailing space |
| Formatters.CardNumberShape | js/addFunds.js:98-100 | a formatted card number has at most 19 characters, single spaces before each new block of four, digits elsewhere, ends with a digit, and its digits are the first (at most 16) digits typed |
| Formatters.CardNumberIdempotent | js/addFunds.js:97-103 | formatting a formatted card number changes nothing |
| Formatters.EmptyFieldsFormatted | js/addFunds.js:203-204 | the emptied card-number and expiry fields are already formatted |
| Formatters.FormatExpiry | js/addFunds.js:107-110 | the expiry field never holds more than 5 characters, and a slash is its third character whenever it has more than two (full shape: `ExpiryShape`) |
| Formatters.ExpiryShape | js/addFunds.js:107-110 | with fewer than two digits the field shows them as typed; otherwise two digits, a slash and up to two digits; its digits are the first (at most 4) digits typed |
| Formatters.ExpiryIdempotent | js/addFunds.js:106-113 | formatting a formatted expiry changes nothing |
| Formatters.ExpiryComplete | js/addFunds.js:143 | the expiry has 5 characters exactly when at least 4 digits were typed, and then it has the shape `MM/YY` |
| Formatters.ParseCustomAmount | js/addFunds.js:393-400 | a text without digits reads as 0; digits without a leading zero are exactly the numeral of the amount read (more: `CustomAmountOfNumeral`, `CustomAmountIgnoresSeparator`) |
| Formatters.CustomAmountOfNumeral | js/addFunds.js:393-398 | the numeral of `n` reads back as the amount `n` |
| Formatters.CustomAmountIgnoresSeparator | js/addFunds.js:393 | inserting a non-digit (such as a grouping dot) does not change the amount read |
| Formatters.CustomAmountReread | js/addFunds.js:396-398 | re-reading a shown text whose digits are the numeral of `n` gives `n` |
| Formatters.ClampCustomText | js/addFunds.js:246-249 | the clamp either leaves the text alone or writes the ceiling's numeral; a bare numeral comes out as a numeral whose value is its own capped at 100,000,000 |
| Formatters.CustomAmount | js/addFunds.js:246-249 | a text holding anything but digits passes the clamp and reads as its digits' value; as written this holds for a text whose leading number `parseFloat` reads as NaN or within [0, 100,000,000], such as grouped text (for numerals: `CustomAmountCapped`) |
| Formatters.CustomFieldText | js/addFunds.js:393-397 | the field shows the locale text of the amount read; a text left without digits is kept as it is and the amount is 0 |
| Formatters.CustomAmountCapped | js/addFunds.js:246-249 | for a field text of digits alone (a paste), the amount is its value capped at Rp 100,000,000 |
| Formatters.CustomAmountEscapesClamp | js/addFunds.js:246-249 | as written, a numeral with a grouping dot after at most eight digits, which `parseFloat` reads below the ceiling, escapes the clamp, so its amount is the full value of its digits |
| Formatters.GroupedAboveCeiling | js/addFunds.js:246-249 | as written, the numeral of any amount above 100,000,000 with a grouping dot in it reads as that whole amount, above the ceiling |
| Formatters.CustomAmountIntended | js/addFunds.js:246-249 | as intended, the amount never exceeds 100,000,000, and an amount within the ceiling is read unchanged |
| Formatters.CustomAmountIntendedAgrees | js/addFunds.js:246-249 | the intended amount equals the as-written one for every numeral, and is the as-written one capped for every text |
| Validation.IsValid | js/addFunds.js:139-147 | a valid form reaches the Rp 10,000 minimum, and for every method but card, validity is the minimum alone (card fields: `ValidityOfTypedFields`) |
| Validation.ValidityOfTypedFields | js/addFunds.js:137-151 | validity holds iff the amount is at least 10,000 and, for the card method only, at least 13 card digits, 4 expiry digits and 3 CVV digits were typed and the trimmed name has at least 2 characters; a valid card form has an `MM/YY` expiry |
| Payment.GatewayFor | js/addFunds.js:295-310 | the card gateway is chosen exactly for `card`; the default branch exactly for a value outside the six listed methods |
| Payment.Approves | js/addFunds.js:313-355 | every gateway but the card gateway approves; the card gateway declines only a number that starts with 4111 once whitespace is removed |
| Payment.PaymentSucceeds | js/addFunds.js:294-355 | an attempt fails exactly when the method is `card` and the card number without whitespace starts with 4111 |
| Payment.DeclinedTypedCard | js/addFunds.js:317-321 | with the card field formatted from the typed text, an attempt fails exactly when the method is `card` and the typed digits start with 4111 |
| BalanceStore.LoadBalance | js/addFunds.js:49-50 | a missing slot reads as 0, and a slot that reads as a number holds only digits |
| BalanceStore.SaveBalance | js/addFunds.js:372 | writing the balance adds or replaces only the `voltrixBalance` key |
| BalanceStore.SaveThenLoad | js/addFunds.js:372 | what is saved loads back as the same balance |
| BalanceStore.LoadThenSave | js/addFunds.js:49-50 | saving the balance just loaded from a canonical numeral leaves the storage unchanged |
| AddFunds.Reset | js/addFunds.js:194-206 | the reset form has amount 0 and is invalid; the balance, the slot, the attempts, the notice and the button are untouched |
| AddFunds.Clicked | js/addFunds.js:154-157 | after a click the button is disabled; exactly one attempt is added when it was enabled and none when it was disabled; nothing else changes |
| AddFunds.Resolved | js/addFunds.js:367-388 | as written, the attempt leaves the queue, the button is enabled, and the balance grows by the amount whenever the gateway approves, even if the slot write throws (further: `ResolvedSettles`) |
| AddFunds.ResolvedIntended | js/addFunds.js:367-388 | as intended, the attempt leaves the queue, the button is gated by validity, and the balance grows by the amount exactly when the attempt commits (further: `IntendedSettles`) |
| AddFunds.ResolvedSettles | js/addFunds.js:367-388 | as written: the button is enabled after every outcome; a committed attempt credits exactly the amount shown when it settles, stores it and resets the form; a declined one changes only the notice; a throwing write keeps the form and the slot but still credits the balance |
| AddFunds.ResolvedEnablesInvalidForm | js/addFunds.js:387 | as written, a committed attempt leaves the button enabled on a form that is invalid because its amount is 0 |
| AddFunds.ResolvedFaultKeepsCredit | js/addFunds.js:371-372 | as written, an approved attempt whose slot write throws reports an error, yet the balance has grown and no longer matches the slot |
| AddFunds.RetryAfterFaultCreditsTwice | js/addFunds.js:367-388 | as written, retrying after that error credits and stores the amount twice for one intended top-up |
| AddFunds.IntendedSettles | js/addFunds.js:367-388 | as intended: the button is gated by validity after every outcome; a committed attempt credits the amount, stores it, resets the form and leaves the button disabled; an attempt that does not commit changes only the notice |
| AddFunds.IntendedKeepsSynced | js/addFunds.js:367-388 | as intended, the slot keeps matching the balance, and the balance grows by the amount exactly when the attempt commits |
| AddFunds.EditReopensInFlight | js/addFunds.js:150-157 | as written, an edit during an attempt that leaves the form valid enables the button, and a click starts a second attempt |
| AddFunds.RegatedIntended | js/addFunds.js:137-151 | as intended, the validator keeps the button disabled while an attempt is in flight and otherwise disables it exactly for an invalid form; nothing else changes |
| AddFunds.IntendedSingleFlight | js/addFunds.js:137-157 | with the intended validator, every input event, a click and the intended settlement keep at most one attempt in flight, with the button disabled exactly while one is or the form is invalid |
| AddFunds.Controller.constructor | js/addFunds.js:24-29 | after loading, the balance is read from the slot, the card method is checked, every field is empty, no preset is selected and the button is disabled |
| AddFunds.Controller.ValidateForm | js/addFunds.js:137-151 | the button is disabled exactly when the form is invalid |
| AddFunds.Controller.ValidateFormIntended | js/addFunds.js:137-151 | as intended, the new state is `RegatedIntended` of the old one: disabled while an attempt is in flight |
| AddFunds.Controller.ClearSelection | js/addFunds.js:62 | no preset button keeps the `selected` class |
| AddFunds.Controller.OnPresetClick | js/addFunds.js:59-72 | exactly the clicked preset is selected, the custom field is emptied, the amount is the preset's, and the button is re-gated |
| AddFunds.Controller.OnCustomInput | js/addFunds.js:392-407 | no preset is selected, the amount is the clamped typed amount, the field shows its formatted text, and the button is re-gated |
| AddFunds.Controller.SetCustom | js/addFunds.js:396-400 | the field shows the given text, the amount is the given amount, and the button is re-gated |
| AddFunds.Controller.OnPaymentChange | js/addFunds.js:85-94 | only the checked method changes, and the button is re-gated |
| AddFunds.Controller.OnCardNumberInput | js/addFunds.js:97-103 | the field holds the formatted text, which the formatter leaves unchanged, and the button is re-gated |
| AddFunds.Controller.OnExpiryInput | js/addFunds.js:106-113 | the field holds the formatted text, which the formatter leaves unchanged, and the button is re-gated |
| AddFunds.Controller.OnCvvInput | js/addFunds.js:116-119 | the field holds only the typed digits, and the button is re-gated |
| AddFunds.Controller.OnNameInput | js/addFunds.js:122-124 | only the name changes, and the button is re-gated |
| AddFunds.Controller.Click | js/addFunds.js:154-157 | a click on a disabled button does nothing; otherwise the button is disabled and an attempt for the checked method starts |
| AddFunds.Controller.ResetForm | js/addFunds.js:192-211 | amount 0, no preset, empty fields, card method checked, and the button disabled; the emptied card-number and expiry fields are left as their formatters would leave them |
| AddFunds.Controller.Commit | js/addFunds.js:371-377 | the balance and the slot take the new balance, and the form is reset |
| AddFunds.Controller.Resolve | js/addFunds.js:358-389 | the new state is `Resolved` of the old one (as written); the selection is cleared on commit and kept otherwise |
| AddFunds.Controller.ResolveIntended | js/addFunds.js:358-389 | the new state is `ResolvedIntended` of the old one (as intended); the selection is cleared on commit and kept otherwise |
| Scenarios.PresetTopUpByWallet | js/addFunds.js:358-389 | as written, a wallet top-up of a preset of at least the minimum grows the balance by the preset, stores it and resets the form to amount 0, yet leaves the button enabled |
| Scenarios.BelowMinimumStaysDisabled | js/addFunds.js:139 | typing 7500 sets the amount to 7500 and keeps the button disabled |
| Scenarios.TypedAmountValue | js/addFunds.js:393-398 | the typed text 7500 reads as the amount 7500 |
| Scenarios.SecondAttemptWhileInFlight | js/addFunds.js:59-72 | a preset click during a wallet attempt re-runs the validator, which re-enables the button, and a second click starts a second concurrent attempt |
| Scenarios.AmountAboveCeiling | js/addFunds.js:245-256 | the whole text 150000000 entered in one input event (a paste) gives the amount 100,000,000, and the field shows its numeral |
| Scenarios.AboveCeilingPasted | js/addFunds.js:246-249 | a field text of digits alone whose value is above 100,000,000 (150000000, say) is clamped to the amount 100,000,000, and the field shows the ceiling's numeral |
| Scenarios.TestCardFields | js/addFunds.js:317-321 | a 16-digit card number starting with 4111 with complete fields makes a valid form that the card gateway declines |
| Scenarios.SubmitDeclined | js/addFunds.js:379-387 | as written, a declined attempt from an idle, enabled form keeps the balance and the amount, reports failure and leaves the button enabled |

## Left out

- Fee and total arithmetic (`updateTotals`, lines 126-134). It multiplies IEEE doubles by 0.029 and only fills display text.
- `Intl.NumberFormat` (lines 32-44, 396). The currency and grouping formats are locale code outside the model. The controller takes the formatter as the constructor parameter `formatNumber`, and the scenarios use the plain numeral for it.
- Formatters.ClampCustomText: clamps only a text of digits alone; texts whose leading number `parseFloat` reads above the ceiling (`150000000.5`, `2e9`, ` 150000000`) or below 0 (`-5`) pass through, where the code writes the ceiling or empties the field. Modelling them needs `parseFloat`'s grammar and double arithmetic.
- Formatters.CustomAmount: for those same texts the model reads the digits' value (1,500,000,005, 29, 150,000,000 and 5 for the texts above) where the code gives 100,000,000 or 0.
- AddFunds.Controller.OnCustomInput: the clamp listener (lines 245-256) is modelled exactly for a text made of digits alone. Any other text passes through unclamped. That matches the code when `parseFloat` reads a number between 0 and 100,000,000 or NaN, as for a grouped `1.500.000`. It does not match for a text whose leading number is out of range: a leading minus sign (`-5`, which the code empties to amount 0 and the model reads as 5), a fraction or exponent above the ceiling (`150000000.5`, `2e9`), or trailing text after a large numeral. Modelling these needs `parseFloat`'s grammar and double arithmetic.
- The `parseFloat` assignment of the first custom-amount listener (line 79) and the `validateForm` calls at lines 81 and 255. The last listener (lines 392-407) overwrites both before any other event can run.
- BalanceStore.LoadBalance: a slot holding anything other than a plain numeral (a fraction, a sign, an exponent, text that `parseFloat` reads as NaN) gives `None`, and the constructor requires a numeral slot. Balances are whole numbers of rupiah.
- Double precision: amounts and balances are unbounded naturals. Above 2^53 JavaScript loses precision, and `toString` switches to exponent form from 10^21. Neither is modelled.
- Timers and promises (lines 313-355). The delays are dropped, and each gateway keeps only the boolean it resolves with. Attempts may settle in any order: `Resolve` takes the index of the attempt that settles.
- The first `processPayment` (lines 161-189). The later declaration at line 358 is hoisted over it.
- DOM work: the balance and totals display, the loading spinner, the modal with its close button and the Escape key (lines 213-230), notifications (lines 259-291), focus styling (lines 232-242) and showing or hiding the card details. `notice` records only which notification is raised.
- The exceptions `processPayment` can meet are reduced to one: `localStorage.setItem` throwing (the `storeFails` parameter). The DOM calls after it are taken not to throw.
- Whitespace is ASCII only (space, tab, line feed, vertical tab, form feed, carriage return). `\s` and `trim()` also remove other Unicode spaces. Strings are sequences of characters, not UTF-16 code units.
- The page's initial HTML is taken to have every field empty and the card method checked. The preset amounts are given as naturals in page order, which is how `parseFloat(dataset.amount)` reads them.

## Findings

| source | as written | input that shows it | evidently intended | confidence | as-written member | corrected member |
|---|---|---|---|---|---|---|
| js/addFunds.js:387 | `finally` enables the button after every outcome, including after a successful top-up that has just reset the form | a successful wallet top-up: the form is reset to amount 0, which is invalid, yet the button is enabled, and a click starts a zero top-up | re-run `validateForm`, so that the button stays disabled on the emptied form | not executed | AddFunds.ResolvedEnablesInvalidForm | AddFunds.IntendedSettles |
| js/addFunds.js:150-157 | every input listener re-runs `validateForm`, which sets `disabled` from the form alone, so an edit during the `await` re-enables the button and a click starts a second attempt | a wallet attempt in flight, then a click on another preset (line 70): the button is enabled and a second click makes two attempts in flight | keep the button disabled while an attempt is in flight | not executed | Scenarios.SecondAttemptWhileInFlight | AddFunds.IntendedSingleFlight |
| js/addFunds.js:246-249 | the clamp compares `parseFloat` of the field text with 100,000,000; after four typed digits the field holds grouped text, where `parseFloat` takes the first dot for a decimal point and stops at the second, reading less than 1000, so the clamp never fires for a typed amount | typing up to `15.000.0000`: `parseFloat` reads 15.000 as 15, no clamp, and the next listener sets the amount to 150,000,000 | cap the amount at 100,000,000 whatever the text | not executed | Formatters.GroupedAboveCeiling | Formatters.CustomAmountIntended |
| js/addFunds.js:371-372 | the balance in memory grows before the slot is written; if `setItem` throws, the error notification is shown but the balance stays grown, and the form is not reset | an approved attempt of Rp 50,000 with a storage that refuses the write: `currentBalance` in memory is 50,000 ahead of the slot while the display, whose update at line 373 is skipped, is unchanged; retrying credits 100,000 in total | commit the balance only after the slot has been written | not executed | AddFunds.ResolvedFaultKeepsCredit | AddFunds.IntendedKeepsSynced |

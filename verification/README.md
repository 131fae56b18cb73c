# Storefront core in Dafny

This is a Dafny model of the logic inside a React storefront. It covers four parts:

- **The cart store** (`src/CartContext.tsx`). This is `cartReducer` over `ADD_ITEM`, `REMOVE_ITEM`, `UPDATE_QUANTITY` and `CLEAR_CART`. Its `total` and `itemCount` are recomputed by `calculateCartTotals` after every change. Prices are integers (cents).
- **The checkout dialog** (`src/Checkout.tsx`), which has several pieces:
  - the two validators `validateShippingInfo` and `validatePaymentInfo`;
  - the card-number display transform `formatCardNumber`;
  - the three-step wizard (shipping → payment → review), with its Continue and Back buttons and the form inputs;
  - the order snapshot taken by `handlePlaceOrder`.
- **The sign-in form** (`src/Login.tsx`): `validateForm`, the error clearing in `handleChange`, and the guard that lets `onLogin` run only after validation passes.
- **The sign-up form** (`src/Registration.tsx`): the same three pieces, with the guard in front of the registration request.

The regular expressions the validators use are written out as predicates in module `Patterns`:

- `\S+@\S+\.\S+` is unanchored, so it holds when some substring is in its language.
- The ZIP pattern is `^\d{5}(-\d{4})?$`.
- The expiry pattern is `^(0[1-9]|1[0-2])\/\d{2}$`.
- The CVV pattern is `^\d{3,4}$`.
- The card pattern is `^\d{4}\s?\d{4}\s?\d{4}\s?\d{4}$`.

Where a compiled predicate is phrased differently from the language it stands for, a lemma proves the two agree on every string. Examples:

- The email check looks for an `@` and a `.` with non-whitespace neighbours.
- The card pattern, applied after removing whitespace, is the same as "exactly sixteen ASCII digits".

`\s` and `trim()` use the WhiteSpace and LineTerminator characters of ECMA-262 (sections 12.2 and 12.3). JavaScript's `length` is counted in UTF-16 code units.

Each module follows one source file or one shared concern:

| module | contents |
|---|---|
| `Wrappers` | `Option` |
| `Text` | whitespace, digits, `trim`, `replace(/\s/g, '')`, `replace(/[^0-9]/g, '')`, UTF-16 length |
| `Patterns` | the regular expressions |
| `Cart`, `CartProperties` | the reducer and what each action promises |
| `CardFormat` | `formatCardNumber` |
| `Forms` | field-keyed error maps, shared message helpers, `handleChange` error clearing |
| `CheckoutValidation` | the two checkout validators |
| `CheckoutWizard` | the dialog's state machine and order placement |
| `Credentials` | email and password rules shared by the two account forms |
| `Login`, `Registration` | the account forms |

Some behaviours of the code are easy to mistake for something else. The model follows the code in each case:

- **Checkout errors are never cleared.** They are replaced only when a Continue fails. A successful Continue keeps the old messages, and typing into a checkout input does not clear them either. Coming back to the shipping form after fixing it therefore shows the messages of the earlier failed attempt. `CheckoutWizard.SuccessKeepsOldErrors` states this.
- **Account forms blank an error instead of removing it.** In the login and registration forms, `handleChange` sets the field's message to `""` and the key stays in the map. A blank message renders as no error.
- **`formatCardNumber` with fewer than four digits returns the digits alone.** It does not group them: `"abc123"` becomes `"123"` (`CardFormat.FormatsShortInput`).
- **The account forms test the email untrimmed.** An email of spaces is reported as "Please enter a valid email", not as missing. The first and last names are trimmed (`Registration.SpacesAreTreatedDifferently`).
- **The order total is not recomputed.** The order takes the cart's `total` field as it stands.

## Model

| member | source | states |
|---|---|---|
| Text.Trim | src/Checkout.tsx:456 | `trim()` gives `""` exactly when every character is whitespace, and a non-empty result neither starts nor ends with whitespace |
| Text.StripWhitespace | src/Checkout.tsx:473 | `replace(/\s/g, '')` leaves no whitespace, keeps a whitespace-free string as it is and turns a blank string into `""` |
| Text.KeepDigits | src/Checkout.tsx:488 | `replace(/[^0-9]/gi, '')` leaves only ASCII digits, keeps a digit string as it is, and maps one character to itself if it is a digit and to `""` otherwise |
| Text.KeepDigitsAppend | src/Checkout.tsx:488 | the digit filter distributes over concatenation, so with the one-character case it is fixed on every string |
| Text.StripWhitespaceAppend | src/Checkout.tsx:473 | whitespace removal distributes over concatenation |
| Text.KeepDigitsIgnoresWhitespace | src/Checkout.tsx:488 | removing whitespace before keeping the digits does not change which digits are kept |
| Text.Utf16Length | src/Login.tsx:53 | `password.length` counts one code unit for a character of the Basic Multilingual Plane and two for any other; it lies between one and two per character and is 0 only for the empty string |
| Text.Utf16LengthAppend | src/Login.tsx:53 | the length of a concatenation is the sum of the lengths |
| Text.Utf16LengthOfBmp | src/Login.tsx:53 | a string without characters outside the Basic Multilingual Plane has one code unit per character |
| Patterns.EmailShapeIsPatternMatch | src/Checkout.tsx:459 | the compiled email check holds exactly when some substring is in the language of `\S+@\S+\.\S+`; a matching string is never blank |
| Patterns.DigitGroupsWithoutWhitespace | src/Checkout.tsx:473 | on a string without whitespace, `\d{4}(\s?\d{4}){n-1}` matches exactly the strings of 4n digits |
| Patterns.CardPatternAfterStrip | src/Checkout.tsx:473 | the card pattern applied after removing whitespace accepts exactly sixteen ASCII digits |
| Patterns.ExpiryIsMonthSlashYear | src/Checkout.tsx:477 | the expiry pattern is two digits whose value is a month 1 to 12, a slash and two digits |
| Cart.FoldTotal | src/CartContext.tsx:33 | the `reduce` from an accumulator adds Σ price × quantity to it |
| Cart.FoldCount | src/CartContext.tsx:34 | the `reduce` from an accumulator adds Σ quantity to it |
| Cart.CalculateCartTotals | src/CartContext.tsx:32-36 | `total` is Σ price × quantity and `itemCount` is Σ quantity over the items |
| Cart.CreateUpdatedState | src/CartContext.tsx:38-46 | the new state holds the given items, and its derived fields equal their sums |
| Cart.RemoveId | src/CartContext.tsx:68 | after the filter no line has the id, and every remaining line was there before |
| Cart.KeepPositive | src/CartContext.tsx:77 | after the filter every quantity is at least 1, and every remaining line was there before |
| Cart.Add | src/CartContext.tsx:50-65 | after `ADD_ITEM` the product's id is in the cart and the totals are consistent |
| Cart.Remove | src/CartContext.tsx:67-70 | after `REMOVE_ITEM` the id is gone and the totals are consistent |
| Cart.Update | src/CartContext.tsx:72-80 | after `UPDATE_QUANTITY` every quantity is at least 1 and the totals are consistent |
| Cart.Clear | src/CartContext.tsx:82-83 | `CLEAR_CART` gives no lines, total 0 and item count 0 |
| Cart.Reduce | src/CartContext.tsx:48-88 | after every action the derived fields equal their sums |
| CartProperties.SumsAppend | src/CartContext.tsx:32-36 | both sums split over concatenation |
| CartProperties.SumsWithout | src/CartContext.tsx:32-36 | dropping one line subtracts its contribution from both sums |
| CartProperties.SumsReplace | src/CartContext.tsx:32-36 | replacing one line swaps its contribution in both sums |
| CartProperties.RemoveIdAbsent | src/CartContext.tsx:68 | filtering out an absent id returns the lines unchanged |
| CartProperties.RemoveIdPresent | src/CartContext.tsx:68 | with unique ids, filtering out a present id drops exactly that line and keeps the order of the rest |
| CartProperties.KeepPositiveAll | src/CartContext.tsx:77 | the filter keeps lines that are all positive unchanged |
| CartProperties.KeepPositiveDropsOne | src/CartContext.tsx:77 | when only one line is non-positive, the filter drops exactly that line |
| CartProperties.AddExisting | src/CartContext.tsx:51-59 | adding a present product increments only its line by 1, with the length and order unchanged; the item count grows by 1 and the total by the price |
| CartProperties.AddNew | src/CartContext.tsx:60-63 | adding a new product appends it with quantity 1; the item count grows by 1 and the total by the price |
| CartProperties.AddTwice | src/CartContext.tsx:51-63 | adding the same new product twice gives one appended line with quantity 2 |
| CartProperties.RemovePresent | src/CartContext.tsx:67-70 | removing a present id drops exactly its line, keeping the others in order, and subtracts its price × quantity and its quantity |
| CartProperties.RemoveAbsent | src/CartContext.tsx:67-70 | removing an absent id leaves the lines unchanged |
| CartProperties.UpdatePresent | src/CartContext.tsx:72-79 | a quantity q > 0 replaces only that line's quantity; q ≤ 0 removes exactly that line |
| CartProperties.UpdateAbsent | src/CartContext.tsx:72-79 | with all quantities at least 1, updating an unknown id leaves the lines unchanged |
| CartProperties.ClearEmpties | src/CartContext.tsx:82-83 | `CLEAR_CART` from any state gives the initial empty state, which is valid |
| CartProperties.ValidInitial | src/CartContext.tsx:25-29 | the initial state has unique ids, positive quantities and consistent totals |
| CartProperties.AddPreservesValid | src/CartContext.tsx:50-65 | `ADD_ITEM` keeps ids unique, quantities at least 1 and totals consistent |
| CartProperties.RemovePreservesValid | src/CartContext.tsx:67-70 | `REMOVE_ITEM` keeps the invariants |
| CartProperties.UpdatePreservesValid | src/CartContext.tsx:72-80 | `UPDATE_QUANTITY` keeps the invariants, for any requested quantity |
| CartProperties.ReducePreservesValid | src/CartContext.tsx:48-88 | every action keeps the invariants |
| CartProperties.UniqueWithout | src/CartContext.tsx:68 | dropping a line keeps ids unique |
| CartProperties.RunPreservesValid | src/CartContext.tsx:48-88 | any sequence of actions keeps the invariants |
| CartProperties.ValidBounds | src/CartContext.tsx:32-36 | with non-negative prices, the total is non-negative and the item count is at least the number of lines |
| CartProperties.AddTwiceThenRemove | src/CartContext.tsx:48-88 | a product added twice gives one line with quantity 2 and total 20; removing it gives the empty cart |
| CardFormat.DigitRunLength | src/Checkout.tsx:489 | the run measured is all digits and stops at a non-digit or at the end |
| CardFormat.FirstDigitMatchFrom | src/Checkout.tsx:489-490 | the first match of `\d{4,16}` has 4 to 16 digits |
| CardFormat.Chunks | src/Checkout.tsx:492-494 | the loop makes ⌈n/4⌉ pieces of 1 to 4 characters each |
| CardFormat.FormatCardNumber | src/Checkout.tsx:487-500 | one to three digits typed alone come back unchanged |
| CardFormat.KeptDigits | src/Checkout.tsx:488-490 | the digits the transform keeps are at most sixteen ASCII digits |
| CardFormat.FirstMatchOfDigits | src/Checkout.tsx:489-490 | on a digit string, the first match is its first min(16, n) digits when n ≥ 4, and there is none otherwise |
| CardFormat.SingleChunk | src/Checkout.tsx:492-497 | one to four characters form a single group, which is joined back unchanged |
| CardFormat.StripJoinedChunks | src/Checkout.tsx:492-497 | the groups joined with spaces, read back without spaces, give the digits |
| CardFormat.JoinedChunksLength | src/Checkout.tsx:492-497 | joining n digits in fours adds one space per group boundary: n + (n−1)/4 characters |
| CardFormat.FormatKeepsDigits | src/Checkout.tsx:487-500 | the result has at most 19 characters and keeps exactly the first min(16, n) digits; with n ≥ 4 they are grouped in fours, otherwise they come back alone |
| CardFormat.FormatIdempotent | src/Checkout.tsx:311 | formatting an already formatted value leaves it unchanged |
| CardFormat.JoinChunksStep | src/Checkout.tsx:492-497 | past the first four characters, the joined groups are the first group, a space and the rest joined |
| CardFormat.JoinSixteen | src/Checkout.tsx:492-497 | sixteen characters are joined as four groups of four with single spaces |
| CardFormat.FormatsSixteenDigits | src/Checkout.tsx:487-500 | sixteen digits typed in a row come back as `dddd dddd dddd dddd` |
| CardFormat.FormatsShortInput | src/Checkout.tsx:496-499 | `"abc123"` formats to `"123"` |
| Forms.RequiredError | src/Checkout.tsx:456 | a required field gets its message exactly when it is blank |
| Forms.PatternError | src/Checkout.tsx:458-459 | a field gets the "required" message when blank and the format message when it is non-blank and fails its pattern |
| Forms.Entry | src/Login.tsx:45-55 | one `if` contributes its key exactly when its check fails, with that check's message |
| Forms.ClearFieldError | src/Login.tsx:33-39 | the keys are unchanged, other fields' messages are unchanged, and the edited field's message becomes `""` |
| CheckoutValidation.ShippingFieldMeetsSpec | src/Checkout.tsx:456-464 | each shipping `if` gives the message of the reference rule: blank ⇒ required; a non-blank email with no match ⇒ invalid; a non-blank ZIP not matching `^\d{5}(-\d{4})?$` ⇒ invalid format |
| CheckoutValidation.ShippingFieldsMeetSpec | src/Checkout.tsx:456-464 | the same for every field at once |
| CheckoutValidation.ValidateShippingInfo | src/Checkout.tsx:453-467 | the keys are among the seven validated fields; each field has an error exactly when the reference rule gives one, with that message |
| CheckoutValidation.ValidShippingHasNoErrors | src/Checkout.tsx:453-467 | a valid shipping form gets the empty map |
| CheckoutValidation.NoErrorsMeansValidShipping | src/Checkout.tsx:453-467 | the empty map means every required field is non-blank, the email matches and the ZIP code has the right format |
| CheckoutValidation.ShippingAcceptsExactlyValid | src/Checkout.tsx:453-467 | the empty map is returned if and only if the shipping form is valid |
| CheckoutValidation.ShippingIgnoresCountry | src/Checkout.tsx:453-467 | changing the country never changes the errors |
| CheckoutValidation.ShippingReportsOnlyBadFields | src/Checkout.tsx:458-464 | an email "bad" and ZIP "1" with the other fields filled give exactly those two format errors |
| CheckoutValidation.PaymentFieldMeetsSpec | src/Checkout.tsx:472-482 | each payment `if` gives the message of the reference rule: the card number must be sixteen digits without whitespace, the expiry a month 1 to 12 with a two-digit year, the CVV three or four digits, and the name non-blank |
| CheckoutValidation.PaymentFieldsMeetSpec | src/Checkout.tsx:472-482 | the same for every field at once |
| CheckoutValidation.ValidatePaymentInfo | src/Checkout.tsx:469-485 | the keys are among the four payment fields; each field has an error exactly when the reference rule gives one, with that message |
| CheckoutValidation.ValidPaymentHasNoErrors | src/Checkout.tsx:469-485 | a valid payment form gets the empty map |
| CheckoutValidation.NoErrorsMeansValidPayment | src/Checkout.tsx:469-485 | the empty map means the payment form is valid |
| CheckoutValidation.PaymentAcceptsExactlyValid | src/Checkout.tsx:469-485 | the empty map is returned if and only if the payment form is valid |
| CheckoutValidation.FormattedCardAccepted | src/Checkout.tsx:472-474 | text typed through the card formatter is accepted exactly when it held at least sixteen digits |
| CheckoutWizard.SetShippingValue | src/Checkout.tsx:208-291 | the edited shipping input reads back the typed text and no other input changes |
| CheckoutWizard.SetPaymentValue | src/Checkout.tsx:311-351 | the edited payment input reads back the stored text and no other input changes |
| CheckoutWizard.Next | src/Checkout.tsx:101-121 | the step changes only on a Continue or Back button |
| CheckoutWizard.PlaceOrder | src/Checkout.tsx:123-140 | an order exists exactly on the review step; it carries the cart's items and total and both forms as they stand; the cart is then empty |
| CheckoutWizard.ShippingNextGated | src/Checkout.tsx:101-110 | Continue moves to payment if and only if the shipping form is valid; otherwise the step stays and the errors become the validator's; on success the errors are kept |
| CheckoutWizard.PaymentNextGated | src/Checkout.tsx:112-121 | Review Order moves to review if and only if the payment form is valid; otherwise the step stays and the errors become the validator's |
| CheckoutWizard.BackIsUnconditional | src/Checkout.tsx:417-428 | Back always moves one step back and keeps both forms and the errors |
| CheckoutWizard.EditChangesOneInput | src/Checkout.tsx:208-351 | typing changes only the edited input of the form on screen, storing a card number formatted; the step, the errors and the other form are unchanged, and nothing is editable on review |
| CheckoutWizard.InitialInvariant | src/Checkout.tsx:81-99 | the dialog starts on the shipping step, where the invariant holds |
| CheckoutWizard.NextPreservesInvariant | src/Checkout.tsx:101-121 | every event keeps "past shipping ⇒ shipping valid; on review ⇒ payment valid" |
| CheckoutWizard.RunPreservesInvariant | src/Checkout.tsx:171-181 | any sequence of events keeps the invariant |
| CheckoutWizard.OrdersAreValid | src/Checkout.tsx:128-137 | from the opened dialog, any placed order has a valid shipping form, a valid payment form and the cart's items, and leaves an empty cart |
| CheckoutWizard.OrderTotalIsSum | src/Checkout.tsx:128-135 | with a consistent cart, the order's total is Σ price × quantity over its items |
| CheckoutWizard.NextKeepsErrorKeysKnown | src/Checkout.tsx:99-121 | the error map only ever holds keys of the validated fields |
| CheckoutWizard.SuccessKeepsOldErrors | src/Checkout.tsx:101-110 | a successful Continue followed by Back restores the dialog exactly, old messages included |
| CheckoutWizard.FirstFailure | src/Checkout.tsx:456 | Continue with an empty first name stays on shipping and reports "First name is required" |
| Credentials.EmailError | src/Login.tsx:45-49 | an email gets an error exactly when it contains no match of the pattern: "Email is required" when empty, "Please enter a valid email" otherwise |
| Credentials.PasswordError | src/Login.tsx:51-55 | a password gets an error exactly when it has fewer than 6 UTF-16 code units: "Password is required" when empty, the length message otherwise |
| Credentials.BmpPasswordLength | src/Login.tsx:51-55 | for a password without characters outside the Basic Multilingual Plane, an error is reported exactly when it has fewer than six characters |
| Credentials.SpacesEmailIsInvalid | src/Login.tsx:45-49 | an email of spaces is invalid, not missing |
| Credentials.PasswordLengthInCodeUnits | src/Login.tsx:53 | six characters always suffice, three characters outside the BMP suffice, and five ASCII characters do not |
| Login.ValidateForm | src/Login.tsx:42-59 | the keys are among email and password; each has an error exactly when its rule fails, with the source's messages |
| Login.ValidateFormAcceptsExactlyValid | src/Login.tsx:57-58 | `validateForm` returns true if and only if the email matches and the password is long enough |
| Login.HandleChange | src/Login.tsx:27-40 | only the named field takes the typed value; the error keys are unchanged, other messages are unchanged, and the named field's message is blanked |
| Login.HandleSubmit | src/Login.tsx:61-79 | the errors become the validator's; `onLogin` is called if and only if the form is valid, with the form data unchanged |
| Login.EmptyFormReportsBoth | src/Login.tsx:42-59 | submitting the empty form reports both fields as required and does not log in |
| Login.TypingClearsOnlyThatError | src/Login.tsx:33-39 | typing into the same field again leaves the error map as the first keystroke left it |
| Registration.FieldsMeetSpec | src/Registration.tsx:53-71 | each `if` gives the message of the reference rule: blank names are required; the email and password rules are the same as for sign-in |
| Registration.ValidateForm | src/Registration.tsx:50-75 | the keys are among the four fields; each field has an error exactly when the reference rule gives one, with that message |
| Registration.ValidateFormAcceptsExactlyValid | src/Registration.tsx:73-74 | `validateForm` returns true if and only if both names are non-blank, the email matches and the password is long enough |
| Registration.SetFieldValue | src/Registration.tsx:37-40 | the named field takes the typed value and the other fields are unchanged |
| Registration.HandleChange | src/Registration.tsx:35-48 | only the named field changes; the error keys are unchanged, other messages are unchanged, and the named field's message is blanked |
| Registration.HandleSubmit | src/Registration.tsx:77-93 | the errors become the validator's; the request is sent, with the form data as its body, if and only if the form is valid |
| Registration.SpacesAreTreatedDifferently | src/Registration.tsx:53-65 | a first name of spaces is "required" while an email of spaces is "invalid" |

## Left out

- Rendering, CSS, overlay clicks and the close button are left out: they are display, not logic. The component that opens the dialog is not part of this model, so whether its state survives closing and reopening is not modelled.
- Prices are integer cents, not JavaScript floating-point numbers. The sums are exact.
- Quantities and ids are integers, not JavaScript numbers. A fractional quantity is left out. For example, `UPDATE_QUANTITY` with 0.5 would keep the line, since `Math.max(0, 0.5) > 0` (src/CartContext.tsx:75-77), and would break "every quantity is at least 1". Every caller in the source passes integers: the quantity buttons pass `item.quantity - 1` and `item.quantity + 1` (src/Cart.tsx:54, src/Cart.tsx:62), and a new line starts at quantity 1 (src/CartContext.tsx:61).
- `trim()` and `\s` use the fixed ECMA-262 whitespace set. The Unicode "Zs" category is written out as the code points it held when the model was written.
- The order's id and timestamp come from `Date.now()` and `new Date().toISOString()`. They are parameters of `CheckoutWizard.PlaceOrder`.
- `CheckoutWizard.PlaceOrder` treats placing an order as one step. It leaves out three things:
  - the `isProcessing` flag that disables the Place Order button;
  - the two-second `delay`;
  - the `onOrderComplete` callback.
- During the two-second delay the Back button stays enabled. The order is built from the cart and forms as they were at the click, because the closure captured them. The model gives the same snapshot, but does not model edits made during the delay.
- The `maxLength` attributes of the card (19), expiry (5) and CVV (4) inputs are left out: they are browser input limits, not logic. `CardFormat.FormatKeepsDigits` shows the formatted card number is at most 19 characters anyway.
- The login's one-second `setTimeout`, the registration's `fetch` to `/auth/register`, the `isLoading` flags and the `catch` branches are left out; so is the "general" error those branches set. `Login.HandleSubmit` and `Registration.HandleSubmit` end at the point where `onLogin` is called or the request is sent.
- `Registration.HandleSubmit` does not model `onRegistration()`, which runs after the network call.
- `formatPrice`, `formatDate` and other `Intl` formatting are left out: they are locale library calls.
- The `ShippingInfo` type in `src/types.ts`, whose fields differ from the checkout's own, is not part of this model. The checkout's local type is the one its validator reads.
- The session handling in `App.tsx`, the product list, the cart and confirmation views, `config.ts` and the fixture data are not part of this model.
- `CheckoutWizard.EditChangesOneInput` treats `e.target.value` as whatever the user typed. The model does not constrain input to what a browser field can produce.

# UrDesire storefront: browser-storage state rules

UrDesire is a browser storefront whose pages keep all of their state in the
browser's two storage tiers. The durable tier (`localStorage`) outlives the
browser. The session tier (`sessionStorage`) is cleared when the browsing
session ends. This project models the rules these pages apply to that
storage, page controller by page controller:

- `UrDesireAuth` (module `Auth`, `auth.dfy`): the account store kept under
  `urdesire_user_<pseudonyme>`, login and registration with their ordered
  validation gates, the current-user entry `urdesire_current_user` in one of the two tiers, logout,
  and restoring the current-user entry at start-up.
- `ForgotPassword` (module `PasswordReset`, `forgot_password.dfy`): the
  three-step recovery form (identify, answer, done). Escape goes back from
  step 2. The secret answer is compared without regard to case, and only the
  password is overwritten.
- `UrDesireProfile` (module `Profile`, `profile.dfy`): the per-user address
  book (append, replace at index, splice-delete, set default), the bio update
  in the `urdesire_users` table, the order filter and the status labels.
- `UrDesireCheckout` (module `Checkout`, `checkout.dfy`): the cart subtotal,
  count and shipping cost, the collected order and its identifiers, appending
  the order to the per-user and all-orders lists, clearing the cart, and the
  submission guards.
- `UrDesireOrderTracking` (module `OrderTracking`, `order_tracking.dfy`): order
  loading and selection, the status timeline, the timer-driven status updates,
  the replace-by-id write-back, the append-only message log with its seed
  message, and the status texts and delivery estimate.

Shared modules:

- `Records` (`records.dfy`): the stored records.
- `Storage` (`storage.dfy`): the key families, typed readers, and a
  `WebStorage` class per tier.
- `Text` (`text.dfy`): JavaScript's `trim`, string length, case mapping, and
  decimal rendering of integers.

**How each controller is modelled.** Each page controller is a Dafny class.
Its fields are the ones the page updates in place, and it holds references to
the storage tiers it writes. Every method is proved to leave the state that a
pure function of the old state gives (`AfterLogin`, `AfterSaveAddress`,
`AfterScheduledUpdate`, …). The properties the pages promise are stated about
those functions: validation order, frames ("nothing else changes"), tier
choice, list invariants and round trips.

Other modelling choices:

- Loops over arrays (`forEach` clearing defaults, the form validation loop)
  are methods with loop invariants, proved equal to their specification
  functions.
- JSON encoding is an abstract codec. Documents are stored already parsed, as
  the `Doc` datatype. A store invariant (`Storage.WellTyped`) says that each
  key family holds its own kind of document.
- Timestamps (`Date.now()`, `new Date()`) are an integer parameter `now`, one
  per step.
- Each timer callback body is one synchronous step.

Where the design description and the code disagree, the model follows the code:

- **Status updates can go backwards.** A scheduled update is refused only once
  the status is `delivered`. A later timer can therefore set `preparing` after
  `shipping` (`OrderTracking.StatusCanRegress`). The status does not only move
  forward.
- **The current-user entry can be in both tiers.** Logging in without "remember me"
  writes only the session tier and leaves an older durable current-user entry in place.
  That older entry wins at the next restore
  (`Auth.StaleDurableEntryWins`). The current-user entry is therefore not held in
  exactly one tier.
- **Corrupt JSON is not treated as absent.** `JSON.parse` on a malformed
  document throws. Most pages do not catch it. The exception is checkout:
  `handleOrderSubmission` (`assets/js/checkout.js:171-188`) wraps
  `processOrder` in `try`/`catch`, so a corrupt per-user order list ends in
  the error message with the cart kept. A corrupt all-orders list is caught
  too, but only after the per-user list has already been written. The model
  does not treat a corrupt document as an absent one, and it does not model
  these failure paths: ill-typed documents are excluded by the store
  invariant instead.
- **Profile reads keys that nothing writes.** `urdesire_users` and
  `urdesire_orders` are written by no other page; the other pages write
  per-user keys. These keys are modelled as written
  (`Profile.ProfileOrdersKeyIsNotAUserList`).
- **The two "confirmed" labels differ.** The tracking page and the profile
  page label the status "confirmed" differently
  (`OrderTracking.ConfirmedLabelsDiffer`).

## Model

| member | source | states |
|---|---|---|
| Text.Trim | assets/js/auth.js:35 | `trim()`: the result is no longer than the input and neither starts nor ends with a JavaScript white-space or line-terminator character |
| Text.TrimIsInfix | assets/js/auth.js:35 | the trimmed string is a slice of the input with only white space cut off on either side |
| Text.TrimEmptyIffBlank | assets/js/forgot-password.js:34-36 | a trimmed field is empty exactly when the typed text is all white space |
| Text.TrimIdempotent | assets/js/auth.js:96-100 | trimming twice is trimming once |
| Text.JsLength | assets/js/auth.js:47 | `.length` counts UTF-16 code units: between one and two per character, exactly one per character when every character is in the Basic Multilingual Plane, and more than the character count when some character is outside it |
| Text.JsLengthConcat | assets/js/auth.js:122 | the code-unit length of a concatenation is the sum of the parts' lengths |
| Text.ToLower | assets/js/forgot-password.js:89 | `toLowerCase()` keeps the length (every modelled letter lower-cases to one letter) |
| Text.LowerForgetsCase | assets/js/forgot-password.js:89 | lower-casing is idempotent, and it erases an earlier upper-casing of any text without a sharp s or a micro sign |
| Text.LowerCommutesWithTrim | assets/js/forgot-password.js:65 | trimming and lower-casing can be done in either order |
| Text.ToUpper | assets/js/checkout.js:257 | `toUpperCase()` gives at least one and at most two letters per character |
| Text.UpperOf | assets/js/checkout.js:257 | the capital of one character is two letters exactly for the sharp s (`SS`), one letter otherwise |
| Text.UpperConcat | assets/js/checkout.js:257 | upper-casing a concatenation upper-cases each part |
| Text.UpperLength | assets/js/checkout.js:257 | upper-casing keeps the length exactly when the text has no sharp s |
| Text.SharpSUpper | assets/js/checkout.js:257 | `"ß".toUpperCase()` is `"SS"`, which does not lower-case back to `"ß"` |
| Text.Decimal | assets/js/checkout.js:216 | `toString()` of a non-negative integer is a non-empty digit string without a leading zero |
| Text.DecimalRoundTrip | assets/js/checkout.js:216 | reading back the decimal rendering gives the number |
| Text.Last | assets/js/checkout.js:259 | `slice(-k)` is the last k characters, or the whole string when shorter |
| Text.LastDigitsValue | assets/js/checkout.js:259 | the last k digits of a rendered number denote the number modulo 10^k |
| Storage.UserKeyInjective | assets/js/auth.js:203 | distinct pseudonymes are stored under distinct keys |
| Storage.UserKeyShape | assets/js/auth.js:203 | the account key is `urdesire_` + `user_` + pseudonyme |
| Storage.UserAtMeansPresent | assets/js/auth.js:208-212 | in a well-typed store, a user is found exactly when the key is present, and the record found has that pseudonyme |
| Storage.OrdersFits | assets/js/checkout.js:276-289 | a per-user orders key is never the all-orders key, so the two appends never touch the same list |
| Auth.WithUser | assets/js/auth.js:202-206 | `saveUser` writes the record under its account key and leaves every other key unchanged |
| Auth.SaveThenGet | assets/js/auth.js:202-212 | after saving a user, looking that pseudonyme up returns the saved record; other pseudonymes read as before |
| Auth.LoginUserTiers | assets/js/auth.js:214-231 | with remember, the durable current-user entry is set and the session tier is untouched; without it, the session current-user entry is set and the durable current-user entry is unchanged; the user is re-saved and becomes current with `lastLogin = now` |
| Auth.LoginUserResavesOnlyLastLogin | assets/js/auth.js:214-231 | logging a user in leaves every other account record unchanged |
| Auth.LogoutClears | assets/js/auth.js:191-199 | after logout neither tier holds the current-user entry, no one is logged in, and a later restore logs no one in |
| Auth.AfterCheckCurrentUser | assets/js/auth.js:236-243 | restore changes neither tier; with no current-user entry it changes nothing; otherwise the current user is the stored record of the pseudonyme it holds, or none |
| Auth.RestorePrefersDurable | assets/js/auth.js:236-243 | when the durable tier holds a current-user entry, the session tier has no influence on the restored user |
| Auth.LoginThenRestore | assets/js/auth.js:214-243 | after a login that remembers (or with no durable current-user entry), a page reload restores that user with the new `lastLogin` |
| Auth.StaleDurableEntryWins | assets/js/auth.js:214-243 | a session-only login under an older durable current-user entry for someone else is lost at the next restore, which picks the durable current-user entry's user |
| Auth.LoginCheck | assets/js/auth.js:42-53 | login is refused for an empty field first, then for a pseudonyme shorter than 3, and passes exactly otherwise |
| Auth.LoginValidationPrecedesLookup | assets/js/auth.js:42-53 | a refusal by the field checks does not depend on the stored state at all |
| Auth.RefusedLoginChangesNothing | assets/js/auth.js:59-72 | a refused login changes neither tier nor the current user |
| Auth.LoginSucceedsIff | assets/js/auth.js:32-83 | a login succeeds exactly when the checks pass, the trimmed pseudonyme is stored and the password is exactly the stored one |
| Auth.LoginUnknownIff | assets/js/auth.js:62-66 | a login is refused as an unknown pseudonyme exactly when the checks pass and no account is stored under the trimmed pseudonyme |
| Auth.LoginWrongPasswordIff | assets/js/auth.js:68-72 | a login is refused for a wrong password exactly when the checks pass, the account is stored and its password differs from the typed one |
| Auth.RegisterCheck | assets/js/auth.js:106-146 | the six registration gates in their order: each error is reported exactly when all earlier gates pass and its own fails, and registration passes exactly when all pass |
| Auth.RefusedRegistrationChangesNothing | assets/js/auth.js:106-146 | a refused registration changes neither tier nor the current user |
| Auth.RegistrationStoresInputs | assets/js/auth.js:151-175 | a registration stores the trimmed pseudonyme and answer and the given password and question, with both dates `now`; the durable current-user entry names the new user, the session tier is untouched and the user is current |
| Auth.RegisterThenLogin | assets/js/auth.js:32-175 | after registering, logging in with the same pseudonyme and password succeeds and makes that user current |
| Auth.RegisterTwiceRefused | assets/js/auth.js:143-146 | registering the same pseudonyme again is refused as taken and changes nothing |
| Auth.UrDesireAuth.constructor | assets/js/auth.js:8-21 | a new controller over the two tiers has restored the current user from the stored current-user entry |
| Auth.UrDesireAuth.GetUserByPseudonyme | assets/js/auth.js:208-212 | a record is returned exactly when the account key is stored, and it is that stored record with that pseudonyme |
| Auth.UrDesireAuth.IsLoggedIn | assets/js/auth.js:358-360 | true exactly when there is a current user |
| Auth.UrDesireAuth.SaveUser | assets/js/auth.js:202-206 | the durable tier becomes `WithUser` of the old one; nothing else changes |
| Auth.UrDesireAuth.LoginUser | assets/js/auth.js:214-234 | the new state is `AfterLoginUser` of the old state |
| Auth.UrDesireAuth.LogoutUser | assets/js/auth.js:191-199 | the new state is `AfterLogout` of the old state |
| Auth.UrDesireAuth.CheckCurrentUser | assets/js/auth.js:236-260 | the new state is `AfterCheckCurrentUser` of the old state |
| Auth.UrDesireAuth.HandleLogin | assets/js/auth.js:32-83 | the new state and outcome are `AfterLogin` of the old state and the form fields |
| Auth.UrDesireAuth.CompleteLogin | assets/js/auth.js:59-75 | the timer body: the new state and outcome are `LoginLookup` of the old state |
| Auth.UrDesireAuth.HandleRegister | assets/js/auth.js:93-176 | the new state and outcome are `AfterRegister` of the old state and the form fields |
| Auth.UrDesireAuth.CompleteRegistration | assets/js/auth.js:151-175 | the timer body: the new state is `CreateAccount` of the old state |
| PasswordReset.AccountKeyIsUserKey | assets/js/forgot-password.js:95-101 | the recovery page writes under the same key the account store uses |
| PasswordReset.AfterVerify | assets/js/forgot-password.js:33-54 | a refused verification leaves the step and candidate unchanged; verification never writes storage |
| PasswordReset.VerifySucceedsIff | assets/js/forgot-password.js:33-54 | verification succeeds exactly for a non-blank pseudonyme with a stored account; it then shows step 2 with that account as candidate |
| PasswordReset.ResetCheck | assets/js/forgot-password.js:71-92 | the reset gates in their order (empty field, new password under 6, confirmation differs, answer differs ignoring case), each reported exactly when the earlier ones pass |
| PasswordReset.AfterReset | assets/js/forgot-password.js:56-103 | with no verified account the reset is refused as unverified; it succeeds exactly when an account is verified and `ResetCheck` passes; a refused reset changes nothing |
| PasswordReset.AnswerIgnoresCase | assets/js/forgot-password.js:65-89 | two typed answers equal after trimming and lower-casing give the same result |
| PasswordReset.AnswerExamples | assets/js/forgot-password.js:89 | with stored answer "Blue", "blue" and "BLUE" are accepted and "Green" is refused |
| PasswordReset.ResetChangesOnlyPassword | assets/js/forgot-password.js:95-101 | a successful reset shows step 3 and stores the candidate with only the password changed; every other account is unchanged |
| PasswordReset.ResetThenLogin | assets/js/forgot-password.js:33-103 | after a reset, login with the new password succeeds and login with any other password is refused as a wrong password |
| PasswordReset.EscapeGoesBack | assets/js/forgot-password.js:115-124 | Escape on step 2 returns to step 1 and forgets the candidate; any other key, or any other step, changes nothing |
| PasswordReset.ForgotPassword.constructor | assets/js/forgot-password.js:7-10 | the page starts on step 1 with no candidate |
| PasswordReset.ForgotPassword.VerifyPseudonyme | assets/js/forgot-password.js:33-54 | the new state and outcome are `AfterVerify` of the old state |
| PasswordReset.ForgotPassword.ResetPassword | assets/js/forgot-password.js:56-103 | the new state and outcome are `AfterReset` of the old state |
| PasswordReset.ForgotPassword.HandleKeydown | assets/js/forgot-password.js:115-124 | the new state is `AfterKeydown` of the old state |
| Profile.WriteList | assets/js/profile.js:390-391 | writing a user's list back changes only that user's entry of the addresses map |
| Profile.ClearOthers | assets/js/profile.js:384-388 | only `isDefault` flags change; every address except the kept one ends non-default, and the kept one is untouched |
| Profile.ClearOtherDefaults | assets/js/profile.js:384-388 | the loop computes `ClearOthers` |
| Profile.MarkDefault | assets/js/profile.js:416-418 | same length, only flags change, and an address is default exactly at the chosen index |
| Profile.SetDefaultFlags | assets/js/profile.js:416-418 | the loop computes `MarkDefault` |
| Profile.SpliceStart | assets/js/profile.js:403 | `splice`'s start index: an index in range as given, a negative one counted from the end, the length for an index past the end, and 0 for a negative index beyond the start |
| Profile.SpliceOne | assets/js/profile.js:403 | `splice(i, 1)` removes the element at the start index when there is one, keeping order; otherwise the list is unchanged |
| Profile.AfterSaveAddress | assets/js/profile.js:343-396 | refused exactly when a required field is empty, and then nothing changes; otherwise the form closes, only the user's entry is rewritten, and it becomes the saved list |
| Profile.SaveAddressPlacement | assets/js/profile.js:375-388 | the address is appended when not editing, or replaces exactly the edited index; other addresses are kept, with their default flag cleared when the new one is default |
| Profile.SaveAddressKeepsOneDefault | assets/js/profile.js:375-388 | a default address is the only default afterwards; at most one default is preserved |
| Profile.AfterDeleteAddress | assets/js/profile.js:398-409 | only the user's entry is rewritten, to the list spliced at the index |
| Profile.DeleteRemovesExactly | assets/js/profile.js:403 | for an index in range, exactly that element is removed and the others keep their order |
| Profile.DeleteKeepsOneDefault | assets/js/profile.js:398-409 | deleting keeps "at most one default" |
| Profile.AfterSetDefaultAddress | assets/js/profile.js:411-425 | only the user's entry is rewritten, to the list with the default set at the index |
| Profile.SetDefaultExactlyOne | assets/js/profile.js:416-418 | for an index in range, exactly that address is default; an out-of-range index leaves none |
| Profile.AfterSaveProfileInfo | assets/js/profile.js:252-266 | with no entry for the user nothing changes; otherwise only that user's `bio` in `urdesire_users` is set, the page bio follows, and every other key and user is unchanged |
| Profile.UserOrders | assets/js/profile.js:86-90 | a row is among the user's orders exactly when it is a stored row whose username is the user |
| Profile.UserOrdersConcat | assets/js/profile.js:86-90 | the filter keeps the stored order and every repeated row: filtering a concatenation filters each part, and one row is kept exactly when its username is the user |
| Profile.ProfileStatusText | assets/js/profile.js:465-474 | the five known statuses map to their labels and any other status to itself |
| Profile.ProfileOrdersKeyIsNotAUserList | assets/js/profile.js:87 | the key the profile reads orders from is never a per-user orders key, so placed orders do not appear there |
| Profile.UrDesireProfile.constructor | assets/js/profile.js:7-36 | the page starts for the logged-in user with no bio and no address form open |
| Profile.UrDesireProfile.ShowAddressForm | assets/js/profile.js:298-317 | the form opens for the given index, or for a new address |
| Profile.UrDesireProfile.HideAddressForm | assets/js/profile.js:319-322 | the form closes and the edited index is forgotten |
| Profile.UrDesireProfile.SaveAddress | assets/js/profile.js:343-396 | the new state and outcome are `AfterSaveAddress` of the old state |
| Profile.UrDesireProfile.DeleteAddress | assets/js/profile.js:398-409 | the new state is `AfterDeleteAddress` of the old state |
| Profile.UrDesireProfile.SetDefaultAddress | assets/js/profile.js:411-425 | the new state is `AfterSetDefaultAddress` of the old state |
| Profile.UrDesireProfile.SaveProfileInfo | assets/js/profile.js:252-266 | the new state is `AfterSaveProfileInfo` of the old state |
| Checkout.SubtotalAppend | assets/js/checkout.js:96-101 | the subtotal of a concatenation is the sum of the subtotals |
| Checkout.SubtotalOfLines | assets/js/checkout.js:96-101 | an empty cart costs 0 and a one-line cart costs price times quantity |
| Checkout.SubtotalNonNegative | assets/js/checkout.js:96-101 | a cart of non-negative prices and quantities has a non-negative subtotal |
| Checkout.CartCountAppend | assets/js/checkout.js:45-48 | the count is 0 for an empty cart and adds over concatenation |
| Checkout.ShippingCost | assets/js/checkout.js:90-94 | 5000 exactly when express is checked, 0 exactly when it is not |
| Checkout.First | assets/js/checkout.js:257 | `substring(0, k)`: the first k characters, or the whole string when shorter |
| Checkout.CustomerIdShape | assets/js/checkout.js:253-261 | `CID_`, then the first three characters upper-cased (one to two letters each), then `_`, then digits worth `now` mod 10^6 (six of them once `now` ≥ 100000) |
| Checkout.CollectOrderData | assets/js/checkout.js:206-251 | the order holds the cart, total = subtotal + shipping, status `confirmed`, method `express` exactly when express, the privacy flags and customer id, and an id `URD` followed by the digits of `now` |
| Checkout.AfterSaveOrder | assets/js/checkout.js:274-290 | the order is appended at the end of the user's list and of the all-orders list; every other key is unchanged |
| Checkout.AfterClearCart | assets/js/checkout.js:292-296 | the cart key is gone, the cart is empty with count 0, and every other key is unchanged |
| Checkout.AfterSubmission | assets/js/checkout.js:149-189 | refused for no user first, then an empty cart, then an invalid form, each exactly when its guard fails; a refusal changes nothing |
| Checkout.SubmissionSavesOrder | assets/js/checkout.js:149-189 | a valid submission appends the collected order to both lists and clears the cart |
| Checkout.ClearingKeepsOrders | assets/js/checkout.js:292-296 | clearing the cart does not touch the order lists |
| Checkout.ValidateForm | assets/js/checkout.js:191-204 | the form is valid exactly when every required field is non-blank after trimming |
| Checkout.UrDesireCheckout.constructor | assets/js/checkout.js:7-40 | the page starts with the stored cart and shipping 0 |
| Checkout.UrDesireCheckout.UpdateShippingCost | assets/js/checkout.js:90-94 | the shipping cost becomes `ShippingCost` of the express box; nothing else changes |
| Checkout.UrDesireCheckout.SaveOrder | assets/js/checkout.js:274-290 | the durable tier becomes `AfterSaveOrder` of the old one |
| Checkout.UrDesireCheckout.ClearCart | assets/js/checkout.js:292-296 | the new state is `AfterClearCart` of the old state |
| Checkout.UrDesireCheckout.HandleOrderSubmission | assets/js/checkout.js:149-189 | the new state and outcome are `AfterSubmission` of the old state |
| OrderTracking.FindIndex | assets/js/order.js:459-461 | the index of the first order with the id, or -1 exactly when none has it |
| OrderTracking.FindOrder | assets/js/order.js:89-94 | `find`: none exactly when no order has the id; otherwise the first listed order with that id |
| OrderTracking.InsertNewest | assets/js/order.js:40 | inserting adds exactly the new order: the result holds the list's orders plus it, as a multiset |
| OrderTracking.InsertKeepsNewestFirst | assets/js/order.js:40 | inserting into a newest-first list keeps it newest first |
| OrderTracking.SortNewestFirst | assets/js/order.js:40 | the sort is a permutation of the user's orders, newest first |
| OrderTracking.AfterLoadUserOrders | assets/js/order.js:31-86 | with no viewer nothing loads; otherwise the orders are the user's stored orders sorted newest first, the order named in the address is selected, else a lone order is selected, else nothing is selected, and the state is consistent |
| OrderTracking.AfterSelectOrder | assets/js/order.js:88-99 | selects the first order with the id; with none the selection is cleared and nothing else changes; otherwise its messages are loaded and non-empty |
| OrderTracking.AfterLoadMessages | assets/js/order.js:218-231 | stored messages are loaded as they are; with none, exactly the one driver seed message is shown and stored |
| OrderTracking.AfterAddMessage | assets/js/order.js:307-317 | exactly one message is appended and the whole log is stored under the order's messages key; every other key is unchanged |
| OrderTracking.AfterSendMessage | assets/js/order.js:291-305 | refused, changing nothing, exactly when the trimmed input is empty or no order is selected; otherwise the trimmed text is added as a customer message |
| OrderTracking.MessagesAppendOnly | assets/js/order.js:291-317 | sending never removes or changes earlier messages and adds at most one |
| OrderTracking.AfterSaveOrderUpdate | assets/js/order.js:455-470 | replaces only the listed order with the selected order's id, keeps the length, and writes the list back; with no match nothing changes |
| OrderTracking.AfterScheduledUpdate | assets/js/order.js:429-437 | a delivered or absent order is left alone; otherwise the status becomes the scheduled one and its driver message is appended; consistency is kept |
| OrderTracking.ScheduledUpdateReplacesById | assets/js/order.js:429-470 | an update changes only the status of the selected order's entry in the list and stores the list |
| OrderTracking.DeliveredIsFinal | assets/js/order.js:429-437 | once delivered, any sequence of scheduled updates changes nothing |
| OrderTracking.StatusCanRegress | assets/js/order.js:407-437 | the `preparing` update applied to a shipping order sets it back to `preparing` |
| OrderTracking.TimelineClasses | assets/js/order.js:191-205 | one class per timeline step |
| OrderTracking.TimelineMarks | assets/js/order.js:191-205 | step j is completed exactly when j is before the status's index and active exactly at it; an unknown status marks none |
| OrderTracking.IndexOf | assets/js/order.js:193 | `indexOf`: the first position of the value, or -1 exactly when it is absent |
| OrderTracking.StatusText | assets/js/order.js:514-522 | known statuses map to their tracking labels and any other status to itself |
| OrderTracking.DriverStatus | assets/js/order.js:524-532 | known statuses map to their driver labels and any other status to itself |
| OrderTracking.DeliveryEstimate | assets/js/order.js:534-541 | "15-30 min" while shipping, otherwise "24-48h" for express and "3-5 jours" for standard |
| OrderTracking.EstimateOfPlacedOrder | assets/js/order.js:534-541 | a freshly placed order's estimate follows its express choice |
| OrderTracking.PlacedOrderIsTracked | assets/js/order.js:31-47 | an order placed at checkout is listed, and can be found, when its owner opens the tracking page |
| OrderTracking.ConfirmedLabelsDiffer | assets/js/order.js:514-522 | the tracking page labels `confirmed` as "Confirmée" while the profile page shows it unchanged |
| OrderTracking.UrDesireOrderTracking.constructor | assets/js/order.js:7-13 | the page starts with the viewer's orders loaded as `AfterLoadUserOrders` gives |
| OrderTracking.UrDesireOrderTracking.LoadUserOrders | assets/js/order.js:31-56 | the new state is `AfterLoadUserOrders` of the old state |
| OrderTracking.UrDesireOrderTracking.SelectOrder | assets/js/order.js:88-99 | the new state and outcome are `AfterSelectOrder` of the old state, and the state is consistent |
| OrderTracking.UrDesireOrderTracking.LoadOrderMessages | assets/js/order.js:218-231 | the new state is `AfterLoadMessages` of the old state |
| OrderTracking.UrDesireOrderTracking.AddMessage | assets/js/order.js:307-317 | the new state is `AfterAddMessage` of the old state |
| OrderTracking.UrDesireOrderTracking.SendMessage | assets/js/order.js:291-305 | the new state and outcome are `AfterSendMessage` of the old state |
| OrderTracking.UrDesireOrderTracking.ApplyScheduledUpdate | assets/js/order.js:429-437 | the new state is `AfterScheduledUpdate` of the old state |
| OrderTracking.UrDesireOrderTracking.SaveOrderUpdate | assets/js/order.js:455-470 | the new state is `AfterSaveOrderUpdate` of the old state |

## Left out

- Page rendering is not modelled: DOM reads and writes, HTML templating, `escapeHtml`, button loading states, notifications and `window.location` redirects. Form values are method parameters instead.
- Timers, `async`/`await` and the delay in `processOrder` are not modelled. Each callback body is one synchronous step, and which scheduled update fires is the parameter `k`.
- The canned driver replies (`addDriverResponse`) and `simulateDriverMovement` are left out. They choose text with `Math.random`.
- `requestLocation`, `simulateCall`, `showTrackingMap`, `downloadReceipt`/`generateReceipt` and `contactSupport` are left out. They only display things or use browser APIs (`Blob`, `URL.createObjectURL`).
- Price, date and time formatting (`Intl.NumberFormat`, `toLocale*`, `formatDate`, `formatTime`, `addMinutes`) is left out.
- Clock readings are the parameter `now`. One `now` serves a whole step, so an order's id, customer id and timestamp share it. Timestamps are integers rather than ISO date strings, and the orders list is sorted by that integer.
- `URLSearchParams` is not modelled. The order id in the page address is the parameter `urlOrder`.
- `UrDesireProfile.changePassword` is left out. It calls `changePassword` on the account store, which `auth.js` does not define.
- `updateAvatar` is left out. It depends on `FileReader`.
- `loadUserStats`, `displayUserInfo`, `loadAddresses` and `fillAddressForm` are left out. They only read and display.
- The `checkAuthentication` redirects of the profile, checkout and tracking pages are not modelled. The logged-in user is a parameter.
- The JSON text itself is not modelled, and neither is a malformed or ill-typed stored document. Documents are stored parsed, and `Storage.WellTyped` keeps each key family to its own document kind.
- Prices are integers (the currency has no minor unit). Fractional and non-finite prices are not modelled.
- Text.ToLower: case mapping covers ASCII and Latin-1 letters, plus the capitals U+0178 and U+039C that upper-casing produces from them, because JavaScript's full Unicode case tables are not modelled.
- Text.ToUpper: maps ASCII and Latin-1 letters only, including the three without a Latin-1 capital (ß to `SS`, ÿ to U+0178, µ to U+039C); letters outside Latin-1 are left unchanged, because JavaScript's full Unicode case tables are not modelled.
- Text.LowerForgetsCase: the round trip through upper case is stated only for text without ß or µ, because in JavaScript those two lower-case back to `ss` and U+03BC, not to themselves (`Text.SharpSUpper`).
- Checkout.First: counts characters rather than UTF-16 code units, so `substring` on text outside the Basic Multilingual Plane is not modelled.
- Profile.AfterSaveAddress: requires the edited index to be at most the list's length. The page would pad the array with holes for a larger index, and holes are not modelled.
- Profile.UrDesireProfile.SaveAddress: carries the same requirement as `Profile.AfterSaveAddress`.
- Profile.SpliceOne: takes an integer index. The `NaN` and fractional indices that JavaScript's `splice` also accepts are not modelled.
- Profile.ProfileStatusText: treats only the five listed statuses as known. Lookups that hit inherited object properties such as `"constructor"` are not modelled.
- OrderTracking.StatusText: has the same restriction on inherited object properties.
- OrderTracking.DriverStatus: has the same restriction on inherited object properties.
- Profile.AfterSaveProfileInfo: treats the users table as a plain map, so inherited-property lookups there are not modelled.
- OrderTracking.SortNewestFirst: states a permutation ordered newest first but not the stability of JavaScript's sort among equal timestamps.
- OrderTracking.AfterLoadUserOrders: requires that no order is selected yet, as on page load.
- PasswordReset.AfterKeydown: clearing the pseudonyme input on Escape is display only and is not modelled.
- Several browser tabs racing on the same keys are not modelled. The pages are single-threaded.

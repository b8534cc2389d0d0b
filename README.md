# Encontra+ subscriptions, modelled in Dafny

Encontra+ is a marketplace where service professionals register and can pay
for a premium listing. This project models its subscription lifecycle over
two tables, `professionals` (tier and payment-gateway customer id) and
`subscriptions` (id, professional, status, window, timestamps). Three server
routes change those tables:

- the AbacatePay webhook (`billing.created`, `billing.paid`, `billing.canceled`, `billing.failed`);
- create-subscription, with its CPF generator;
- the expiration sweep.

The model also covers the pure helpers of three pages: the registration
form's phone, CPF and CEP masks; the professional area's initials and phone
display; and the search page's category toggle and listing filter.

Layout:

- `common.dfy`: `Option`.
- `text.dfy`: digits, ASCII case mapping and substring search.
- `register_form.dfy`, `profile_display.dfy`, `search.dfy`: the page helpers.
- `tables.dfy`: the two tables, and a single `UPDATE ... WHERE` primitive (`UpdateRows`).
- `webhook.dfy`, `creation.dfy`, `sweep.dfy`: the routes. Each is a function from the tables, the request and the outcome of every fallible call to the new tables and the answer, with lemmas stating its properties.
- `store.dfy`: the class `Store`. Its fields are the two tables and its methods run each route statement by statement. Each method is proved to end in exactly the state and answer that the route's function gives.

Database errors and gateway replies are parameters, e.g. `WebhookFaults`,
`CreateFaults`, `SweepFaults` and `Gateway`. Time is integer milliseconds
`now`. `Math.random` becomes the nine base digits `cpfBase`.

Behaviour of the code worth knowing, which the model follows:

- Every handler error reaches the webhook route's `catch`, which answers 500 with whatever the handler had already written (`Webhook.AuthorizedRunsHandler`).
- A second delivery of the same `billing.paid` throws and writes nothing only when the professional had one pending subscription. With two pending rows, the redelivery activates the other one (`Webhook.DuplicatePaidActivatesOtherPending`).
- The renewal check of create-subscription uses `.single()`, which errors with PGRST116 both for no row and for more than one row. So only exactly one active row is renewed, and otherwise a row is inserted (`Creation.RecordSubscription`).
- `billing.paid` only logs an error of its clean-up update and still activates the chosen row, so a professional can end with two active subscriptions (`Webhook.PaidCleanupFailureLeavesTwoActive`). The routes accept such a table: the store's methods require only unique ids, and they keep "at most one active subscription per professional" whenever it held before (for the webhook, whenever the clean-up succeeds).

## Model

| member | source | states |
|---|---|---|
| Text.Take | app/area-profissional/page.tsx:196 | `substring(0, n)`: the result is a prefix of the input, of length min(length, n) |
| Text.Digits | components/auth/register-form.tsx:158 | `replace(/\D/g, "")` leaves only digits and never lengthens the text |
| Text.DigitsConcat | components/auth/register-form.tsx:158 | stripping non-digits distributes over concatenation |
| Text.DigitsOfDigitString | components/auth/register-form.tsx:286-287 | stripping a text that is all digits returns it unchanged |
| Text.DigitsOfSeparators | components/auth/register-form.tsx:165-168 | a separator such as `(`, `) `, `.` or `-` contributes no digit |
| Text.DigitsAcrossSeparator | components/auth/register-form.tsx:183-189 | the digits of `a + sep + b` are those of `a` followed by those of `b` |
| Text.Lower | app/buscar/page.tsx:64-66 | `toLowerCase` keeps the length |
| Text.Upper | app/area-profissional/page.tsx:195 | `toUpperCase` keeps the length |
| Text.Contains | app/buscar/page.tsx:64-66 | `includes`: a text is found only in a text at least as long |
| Text.ContainsIffOccurs | app/buscar/page.tsx:64-66 | `includes` holds exactly when the searched text occurs as a slice at some index |
| RegisterForm.FormatPhone | components/auth/register-form.tsx:157-168 | at most 15 characters; up to 2 digits are shown bare; otherwise `(` at 0, `)` at 3, a space at 4, a `-` at 10 once there are more than 7 digits, digits everywhere else, and the length is the digit count (capped at 11) plus the separators |
| RegisterForm.FormatCpf | components/auth/register-form.tsx:172-190 | at most 14 characters; up to 3 digits are shown bare; otherwise `.` at 3, `.` at 7 past 6 digits, `-` at 11 past 9 digits, digits everywhere else, and the length is the digit count (capped at 11) plus the separators |
| RegisterForm.FormatCep | components/auth/register-form.tsx:213-219 | at most 9 characters; up to 5 digits are shown bare; otherwise `-` at 5, digits everywhere else, and the length is the digit count (capped at 8) plus one |
| RegisterForm.SlicesAreDigits | components/auth/register-form.tsx:160-167 | every slice of a digit string is a digit string |
| RegisterForm.PhoneAreaCodeDigits | components/auth/register-form.tsx:163 | the digits of `(` followed by the area code are the area code |
| RegisterForm.FormatPhoneKeepsDigits | components/auth/register-form.tsx:157-168 | the digits of the masked phone are the typed digits, cut to 11 |
| RegisterForm.FormatCpfKeepsDigits | components/auth/register-form.tsx:172-190 | the digits of the masked CPF are the typed digits, cut to 11 |
| RegisterForm.CpfThreeGroupsDigits | components/auth/register-form.tsx:180-183 | the digits of `ddd.ddd.rest` are the 7 to 9 digits it was built from |
| RegisterForm.CpfFourGroupsDigits | components/auth/register-form.tsx:186-189 | the digits of `ddd.ddd.ddd-dd` are the first 11 digits it was built from |
| RegisterForm.FormatCepKeepsDigits | components/auth/register-form.tsx:213-219 | the digits of the masked CEP are the typed digits, cut to 8 |
| RegisterForm.FormatPhoneIdempotent | components/auth/register-form.tsx:447-449 | masking an already masked phone changes nothing |
| RegisterForm.FormatCpfIdempotent | components/auth/register-form.tsx:473-475 | masking an already masked CPF changes nothing |
| RegisterForm.FormatCepIdempotent | components/auth/register-form.tsx:496-498 | masking an already masked CEP changes nothing |
| RegisterForm.CepLookupNeedsEightDigits | components/auth/register-form.tsx:499-501 | the address lookup fires exactly when at least 8 digits were typed, and then its own 8-digit check passes |
| RegisterForm.StoredDocumentsRemask | components/auth/register-form.tsx:286-287 | the stored cpf and cep are plain digit strings from which the masks rebuild exactly the text the form displayed |
| ProfileDisplay.SplitOnSpace | app/area-profissional/page.tsx:192 | `split(" ")` always yields at least one word |
| ProfileDisplay.SplitJoinRoundTrip | app/area-profissional/page.tsx:192 | joining the words with spaces gives the name back, and no word contains a space |
| ProfileDisplay.GetInitials | app/area-profissional/page.tsx:190-197 | at most two characters, none of them a lowercase ASCII letter |
| ProfileDisplay.FirstCharsOfSplit | app/area-profissional/page.tsx:193-194 | the first characters of the words are the characters that follow a space or start the name |
| ProfileDisplay.InitialsAreWordStarts | app/area-profissional/page.tsx:191-196 | the initials are the first two word starts, uppercased; empty words add nothing |
| ProfileDisplay.FormatPhone | app/area-profissional/page.tsx:200-207 | the display either shows the stored text unchanged or, for exactly 11 digits, a 15-character text |
| ProfileDisplay.DisplayPhoneKeepsOtherInput | app/area-profissional/page.tsx:201-203 | empty input, or a digit count other than 11, is shown unchanged |
| ProfileDisplay.DisplayPhoneElevenDigits | app/area-profissional/page.tsx:204-207 | with 11 digits the result has 15 characters, keeps the digits, and equals the registration mask |
| Search.RemoveAll | app/buscar/page.tsx:57 | `filter(c => c !== category)` removes every copy, keeps every other value, keeps the order |
| Search.ToggleCategory | app/buscar/page.tsx:55-59 | the toggled category's membership flips, every other category's stays, and a new category is appended at the end |
| Search.RemoveAllAbsentAppended | app/buscar/page.tsx:57-58 | removing a value that was just appended restores the list |
| Search.ToggleTwiceRestores | app/buscar/page.tsx:55-59 | toggling a new category twice restores the selection |
| Search.FilterListings | app/buscar/page.tsx:61-78 | the result is an order-preserving subsequence and holds exactly the listings that pass both tests |
| Search.EmptyFilterKeepsAll | app/buscar/page.tsx:61-78 | with no term and no selection every listing is shown |
| Search.LowercaseSelectionHidesAll | app/buscar/page.tsx:73-75 | with capitalised categories, a non-empty lowercase selection hides every listing |
| Search.CheckboxSelectionHidesAll | app/buscar/page.tsx:116 | ticking any one checkbox of the page hides all six listings, whatever the term |
| Search.FilterListingsCorrected | app/buscar/page.tsx:73-75 | the case-insensitive filter is an order-preserving subsequence that keeps exactly the matching listings |
| Search.CaptionLowersToValue | app/buscar/page.tsx:185-192 | each option's caption, lowercased, is its value, and the value is already lower case |
| Search.CorrectedCheckboxFindsItsCategory | app/buscar/page.tsx:185-245 | with the corrected filter, each checkbox shows at least one listing |
| Tables.Patch | app/api/webhooks/abacatepay/route.ts:160-179 | an UPDATE never changes a row's id, professional or creation time |
| Tables.UpdateRows | app/api/webhooks/abacatepay/route.ts:71-74 | an UPDATE keeps the table's length and order and patches exactly the rows its filter selects |
| Tables.UpdateKeepsKeys | app/api/check-expired-subscriptions/route.ts:32-38 | an UPDATE keeps ids unique and below the counter, and keeps every row's professional |
| Tables.ActiveOf | app/api/create-subscription/route.ts:182-188 | the active rows of one professional, no more and no less, and never more rows than the table |
| Tables.ActiveOfCounts | app/api/create-subscription/route.ts:182-188 | each active row of the professional is returned as many times as the table holds it, and no other row at all, so the count the renewal tests is exact |
| Tables.LatestPending | app/api/webhooks/abacatepay/route.ts:131-139 | none exactly when the professional has no pending row; otherwise a pending row of theirs with the greatest `created_at` |
| Tables.ExpiredActive | app/api/check-expired-subscriptions/route.ts:15-20 | exactly the active rows whose end date is before now |
| Tables.ExpiredActiveCounts | app/api/check-expired-subscriptions/route.ts:15-20 | each expired active row is returned as many times as the table holds it, and no other row, so `expiredCount` is the number of expired active rows |
| Tables.NewPendingRow | app/api/create-subscription/route.ts:218-229 | a pending row of the professional, created and updated now, whose window starts now and lasts 30 days |
| Tables.SetTier | app/api/webhooks/abacatepay/route.ts:149-152 | only the named professional's tier changes; a missing id matches nothing |
| Tables.SetCustomerId | app/api/create-subscription/route.ts:116-120 | only the named professional's customer id changes |
| Webhook.ParseEvent | app/api/webhooks/abacatepay/route.ts:40-55 | a known event is parsed back from its own name, and an unknown name matches no known event |
| Webhook.RemoveFirst | app/api/webhooks/abacatepay/route.ts:97 | `replace("prod-", "")` on a text that starts with the prefix drops exactly that prefix |
| Webhook.ResolveProfessionalId | app/api/webhooks/abacatepay/route.ts:87-106 | the metadata id wins; otherwise the first product's `prod-` id is stripped; the result is never empty |
| Webhook.ProductIdRoundTrip | app/api/webhooks/abacatepay/route.ts:90-99 | a payload without a metadata id whose first product is `prod-<id>` resolves to `<id>` |
| Webhook.ApplyCreated | app/api/webhooks/abacatepay/route.ts:67-80 | professionals untouched; completes exactly when metadata exists and the update succeeds |
| Webhook.ApplyPaid | app/api/webhooks/abacatepay/route.ts:82-228 | no row is added or removed; it completes only with metadata and a resolved id |
| Webhook.ApplyCanceled | app/api/webhooks/abacatepay/route.ts:230-247 | no row is added; it completes exactly when metadata exists |
| Webhook.ApplyFailed | app/api/webhooks/abacatepay/route.ts:249-263 | professionals untouched; it completes exactly when metadata exists |
| Webhook.ApplyWebhook | app/api/webhooks/abacatepay/route.ts:12-65 | the answer is always 200, 401 or 500 |
| Webhook.AuthorizedRunsHandler | app/api/webhooks/abacatepay/route.ts:36-64 | an authorised request never answers 401; each event name runs its handler, the tables end as the handler left them, and the answer is 500 exactly when the handler threw |
| Webhook.UnresolvedPaidAnswers500 | app/api/webhooks/abacatepay/route.ts:87-106 | a `billing.paid` without a resolvable professional id answers 500 and writes nothing |
| Webhook.MissingMetadataAnswers500 | app/api/webhooks/abacatepay/route.ts:67-80 | `billing.created`, `billing.canceled` or `billing.failed` without customer metadata answers 500 and writes nothing |
| Webhook.UnauthorizedChangesNothing | app/api/webhooks/abacatepay/route.ts:21-33 | a missing, empty or wrong secret answers 401 and changes nothing |
| Webhook.UnknownEventIgnored | app/api/webhooks/abacatepay/route.ts:53-57 | an unhandled event name answers 200 and changes nothing |
| Webhook.PaidEarlyFailureWritesNothing | app/api/webhooks/abacatepay/route.ts:101-157 | no resolvable id, a missing professional, a failed read, no pending row or a failed promotion: the handler throws and writes nothing |
| Webhook.PaidWritesEffect | app/api/webhooks/abacatepay/route.ts:148-187 | the three writes, row by row: the chosen row is activated and stamped, the professional's other active rows become inactive, and every other row is kept |
| Webhook.PaidWrites | app/api/webhooks/abacatepay/route.ts:148-187 | the three writes add no row, hand out no id and keep the set of professionals |
| Webhook.PaidEffect | app/api/webhooks/abacatepay/route.ts:131-228 | the professional becomes premium and each row changes as `PaidRow` says; the handler completes exactly when activation and notification succeed and metadata is present |
| Webhook.PaidLeavesSingleActive | app/api/webhooks/abacatepay/route.ts:131-187 | after the writes succeed, the latest pending row is the professional's only active row and the professional is premium |
| Webhook.PaidRowsSingleActive | app/api/webhooks/abacatepay/route.ts:159-179 | row by row: with both writes succeeding, the chosen row is the professional's only active row afterwards |
| Webhook.PaidWritesKeepAtMostOneActive | app/api/webhooks/abacatepay/route.ts:159-179 | the writes keep every professional to at most one active row when the clean-up succeeds |
| Webhook.PaidRowsKeepAtMostOne | app/api/webhooks/abacatepay/route.ts:159-179 | row by row: if every row becomes its paid-path image and the chosen row is the professional's, no professional ends with two active rows |
| Webhook.PaidKeepsAtMostOneActive | app/api/webhooks/abacatepay/route.ts:159-187 | `billing.paid` keeps every professional to at most one active row when the clean-up succeeds, whatever else fails |
| Webhook.SingleOwnerChangeKeepsAtMostOne | app/api/webhooks/abacatepay/route.ts:160-165 | changing only one professional's rows, and leaving them at most the kept row active, keeps the one-active invariant |
| Webhook.DuplicatePaidRejected | app/api/webhooks/abacatepay/route.ts:131-144 | redelivering a successful `billing.paid` for a professional with one pending row throws and changes nothing |
| Webhook.DuplicatePaidActivatesOtherPending | app/api/webhooks/abacatepay/route.ts:131-146 | with a second pending row the redelivery finds it, and completes exactly when metadata is present |
| Webhook.CreatedMarksPending | app/api/webhooks/abacatepay/route.ts:67-80 | every row of the metadata professional becomes pending and nothing else changes |
| Webhook.CancelVersusFail | app/api/webhooks/abacatepay/route.ts:230-263 | both complete; when the row update succeeds, each row of the professional changes only to status cancelled and every other row is kept, and when it fails no row changes; only cancel demotes to free; other professionals keep their records |
| Webhook.HandlersTouchOneProfessional | app/api/webhooks/abacatepay/route.ts:40-55 | a request only changes the professional it resolved, and only for paid or canceled |
| Webhook.WebhookKeepsWellFormed | app/api/webhooks/abacatepay/route.ts:12-65 | every request keeps ids unique, hands out no id and keeps the set of professionals |
| Webhook.WebhookKeepsOneActive | app/api/webhooks/abacatepay/route.ts:12-263 | when the clean-up update of `billing.paid` succeeds, every request keeps each professional to at most one active row |
| Webhook.StatusOfProfessionalKeepsOneActive | app/api/webhooks/abacatepay/route.ts:71-74 | moving all of one professional's rows to pending or cancelled creates no active row |
| Webhook.PaidCleanupFailureLeavesTwoActive | app/api/webhooks/abacatepay/route.ts:159-179 | with a failing clean-up update, a professional with an active and a pending row ends with both active, and the route answers 200 |
| Creation.DigitChar | app/api/create-subscription/route.ts:36 | a digit value becomes a digit character |
| Creation.DigitString | app/api/create-subscription/route.ts:36 | `join("")` of digits is an all-digit text of the same length |
| Creation.CheckDigit | app/api/create-subscription/route.ts:19-33 | the generator's check digit is a decimal digit |
| Creation.CpfDigits | app/api/create-subscription/route.ts:16-33 | eleven decimal digits that start with the nine base digits |
| Creation.CpfText | app/api/create-subscription/route.ts:36 | 14 characters with `.` after the third and sixth digits and `-` before the last two |
| Creation.GenerateValidCpf | app/api/create-subscription/route.ts:16-37 | the two loops and the formatting give `ddd.ddd.ddd-dd`: 14 characters whose digits are the base and both check digits, a valid CPF |
| Creation.CheckDigitIsValidatorDigit | app/api/create-subscription/route.ts:19-33 | `11 - sum % 11`, with 10 and 11 written as 0, is a digit and equals the usual validator's `(10 * sum % 11) % 10` |
| Creation.GeneratedCpfIsValid | app/api/create-subscription/route.ts:16-33 | the generated digits start with the base and pass the validator |
| Creation.GeneratedCpfMatchesFormMask | app/api/create-subscription/route.ts:36 | the text has 14 characters holding the 11 digits, and the registration form's CPF mask leaves it unchanged |
| Creation.ApplyCreate | app/api/create-subscription/route.ts:39-250 | a payment URL is answered only with the gateway's URL, and then the subscriptions and the id counter are exactly those `RecordSubscription` leaves; any other answer leaves them as they were; the billing names the user, `prod-<user>` and 1999 |
| Creation.RecordSubscription | app/api/create-subscription/route.ts:198-235 | the subscription write never touches professionals |
| Creation.CreateMissingInput | app/api/create-subscription/route.ts:45-50 | a missing user id or email answers 400 and writes nothing |
| Creation.CreateReusesStoredCustomer | app/api/create-subscription/route.ts:69-76 | a stored customer id is reused: no customer request, the professional's row is not written, the gateway's customer reply plays no part |
| Creation.CreateRegistersNewCustomer | app/api/create-subscription/route.ts:76-128 | otherwise a customer is requested with a valid generated CPF, and its id is stored; a refused customer call or a failed save writes nothing |
| Creation.CreateFailureWritesNoSubscription | app/api/create-subscription/route.ts:172-235 | a refused billing, a failed check or a failed write answers an error and writes no subscription row |
| Creation.CreateSucceedsExactly | app/api/create-subscription/route.ts:39-250 | the route answers the gateway's payment URL exactly when every step succeeds |
| Creation.NoActiveRowsNoActiveOf | app/api/create-subscription/route.ts:182-188 | with no active row of the professional the check finds nothing |
| Creation.ActiveCountAtMostOne | app/api/create-subscription/route.ts:182-188 | under the one-active invariant the check sees at most one row |
| Creation.RecordLeavesOnePendingWindow | app/api/create-subscription/route.ts:198-235 | under the one-active invariant, afterwards the professional has no active row and has a pending row whose window is [now, now + 30 days] |
| Creation.RecordChangesOnlyOneRow | app/api/create-subscription/route.ts:198-235 | renewal puts the single active row back to pending with the window [now, now + 30 days] and `updated_at` now, and keeps every other row; insertion appends a new pending row with a fresh id and keeps all others |
| Creation.RecordKeepsWellFormed | app/api/create-subscription/route.ts:198-235 | the subscription write keeps ids unique and below the counter and leaves the professionals alone |
| Creation.RecordKeepsOneActive | app/api/create-subscription/route.ts:198-235 | the subscription write keeps at most one active row per professional when that held before |
| Creation.CreateKeepsWellFormed | app/api/create-subscription/route.ts:39-250 | from any table with unique ids the route keeps ids unique and the set of professionals |
| Creation.CreateKeepsOneActive | app/api/create-subscription/route.ts:39-250 | the route keeps at most one active row per professional when that held before |
| Creation.EchoedBilling | app/api/create-subscription/route.ts:130-154 | the billing as echoed back carries the product's `prod-<id>` id |
| Creation.CreatedBillingResolvesToRequester | app/api/create-subscription/route.ts:135 | round trip: whether or not the echo carries the metadata id, the webhook resolves the requesting professional |
| Sweep.SweepStep | app/api/check-expired-subscriptions/route.ts:30-83 | one iteration never adds or removes a professional |
| Sweep.SweepAll | app/api/check-expired-subscriptions/route.ts:30-83 | the loop never adds or removes a professional |
| Sweep.ApplySweep | app/api/check-expired-subscriptions/route.ts:10-99 | the answer is an error exactly when the select failed; the count never exceeds the table |
| Sweep.SweepAllRows | app/api/check-expired-subscriptions/route.ts:30-46 | the loop closes, with `updated_at`, exactly the selected rows whose update succeeded |
| Sweep.SweepNeverActivates | app/api/check-expired-subscriptions/route.ts:30-83 | the sweep never makes a row active |
| Sweep.SweepAllProfessionals | app/api/check-expired-subscriptions/route.ts:48-82 | a professional is unchanged or only moved to free, and then owned a selected row and has no active row left |
| Sweep.SweepAllDemotes | app/api/check-expired-subscriptions/route.ts:48-82 | without failures every owner of a selected row left with no active row ends free |
| Sweep.ExpiredSelectionMatches | app/api/check-expired-subscriptions/route.ts:15-20 | with unique ids, each selected id names a row of the same professional |
| Sweep.ClosedIffExpired | app/api/check-expired-subscriptions/route.ts:15-46 | a row is closed exactly when it was expired and its update succeeded |
| Sweep.SweepEffect | app/api/check-expired-subscriptions/route.ts:15-88 | each expired active row whose update succeeds becomes inactive, every other row is kept, and the count is the number selected, failures included |
| Sweep.SweepFetchErrorChangesNothing | app/api/check-expired-subscriptions/route.ts:22-25 | a failed select answers an error and writes nothing |
| Sweep.SweepDemotesOnlyLapsed | app/api/check-expired-subscriptions/route.ts:48-82 | a professional moves to free only with an expired row and no active row left; one with an unexpired active row is untouched |
| Sweep.SweepCompletes | app/api/check-expired-subscriptions/route.ts:15-82 | without failures no expired active row remains, and every lapsed owner with no active row is free |
| Sweep.NothingExpiredSelectsNothing | app/api/check-expired-subscriptions/route.ts:15-20 | with no expired active row the select is empty |
| Sweep.SweepTwiceIsNoOp | app/api/check-expired-subscriptions/route.ts:15-38 | after a run whose updates succeeded, a second run at the same instant answers 0 and changes nothing |
| Sweep.SweepKeepsWellFormed | app/api/check-expired-subscriptions/route.ts:30-83 | from any table with unique ids the sweep keeps ids unique and below the counter |
| Sweep.SweepKeepsOneActive | app/api/check-expired-subscriptions/route.ts:30-83 | the sweep keeps at most one active row per professional when that held before |
| Store.Store.HandleBillingCreated | app/api/webhooks/abacatepay/route.ts:67-80 | the tables and outcome are those of `ApplyCreated` |
| Store.Store.HandleBillingPaid | app/api/webhooks/abacatepay/route.ts:82-228 | performed step by step, the tables and outcome are those of `ApplyPaid` |
| Store.Store.HandleBillingCanceled | app/api/webhooks/abacatepay/route.ts:230-247 | the tables and outcome are those of `ApplyCanceled` |
| Store.Store.HandleBillingFailed | app/api/webhooks/abacatepay/route.ts:249-263 | the tables and outcome are those of `ApplyFailed` |
| Store.Store.HandleWebhook | app/api/webhooks/abacatepay/route.ts:12-65 | the tables and status are those of `ApplyWebhook`; ids stay unique; at most one active row per professional is kept when it held before and the clean-up of `billing.paid` succeeds |
| Store.Store.CreateSubscription | app/api/create-subscription/route.ts:39-250 | performed step by step, calling the CPF generator, the result is that of `ApplyCreate` on any table with unique ids; ids stay unique, and at most one active row per professional is kept when it held before |
| Store.Store.CheckExpiredSubscriptions | app/api/check-expired-subscriptions/route.ts:10-99 | the loop with its `continue`s yields the tables and answer of `ApplySweep` on any table with unique ids; ids stay unique, and at most one active row per professional is kept when it held before |

## Left out

- HTTP, JSON parsing and response bodies. Only the status, the payment URL and the `expiredCount` are modelled. A body that is not JSON, which would answer 500, is not modelled.
- The Discord notification after `billing.paid` is modelled only as a call that may fail (`notifyFails`), or throw when metadata is missing. Its floating-point amount is not modelled.
- The ViaCEP request is not modelled. Only the condition that triggers it is (`CepLookupNeedsEightDigits`).
- Supabase and gateway calls are not modelled; their effect on the tables and their failure are. A write that errors is taken to write nothing.
- Every `new Date()` and `Date.now()` of one request is the same instant `now`, in integer milliseconds. ISO-8601 text comparison is integer comparison.
- UUID subscription ids are not modelled; ids come from a counter `nextId`.
- Concurrency between routes, and duplicate deliveries racing each other, are not modelled.
- `Tables.LatestPending`: when two pending rows share the greatest `created_at`, the model picks the first in table order. The database's order for ties is unspecified.
- `Webhook.ApplyCreated`, `Webhook.ApplyCanceled`, `Webhook.ApplyFailed`: a metadata object without `externalId` filters on a value that matches no row. It is not modelled as a filter on the literal text `undefined`.
- `Text.Lower`, `Text.Upper`: only ASCII letters are mapped. JavaScript's full Unicode case mapping (e.g. `É`) is not modelled.
- `ProfileDisplay.GetInitials`, `Text.Take`: a Dafny `string` is a sequence of Unicode characters, while `n[0]` and `substring(0, 2)` work on UTF-16 code units. A name starting with a character outside the Basic Multilingual Plane (an emoji, say) gives half a surrogate pair in the code and the whole character in the model.
- `ProfileDisplay.GetInitials`: `n[0]` of an empty word is `undefined`, and `join` writes it as nothing. The model gives the same result, and its contract states only the length and case bounds; the composition is stated by `InitialsAreWordStarts`.
- `Webhook.ApplyPaid`: the payload's `customer` object is assumed present. A payload without it throws before any write in the code.
- `Creation.ApplyCreate`: the professional's name and phone in the gateway requests are not modelled.
- The React components, forms, toasts, routing, zod schemas, uploads, auth flows, the verification bot and the duplicated `getInitials` copies are not modelled.

## Findings

| source | as written | input that shows it | evidently intended | confidence | as-written member | corrected member |
|---|---|---|---|---|---|---|
| app/buscar/page.tsx:73-75 | the category filter compares the selected checkbox values with the listing categories case-sensitively | tick "Eletricista": the selection is `["eletricista"]` (line 186), the listing category is `"Eletricista"` (line 199), so no listing is shown | a checkbox shows the listings of its category, i.e. the comparison ignores case | high, not executed | Search.CheckboxSelectionHidesAll | Search.CorrectedCheckboxFindsItsCategory |

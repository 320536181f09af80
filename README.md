# tourna-gaming: a verified model of its logic

The tourna-gaming site lists esports tournaments, registers players and
takes the entry fee through Razorpay. Most of it is presentation. This
project models the parts that make decisions:

- the helpers in `src/lib/utils.ts`:
  - the team fee;
  - the three player-ID validators (Riot ID, PUBG/BGMI ID, Free Fire UID);
  - the case-insensitive game-name dispatcher;
  - the price-tier label and colour.
- the payment-verification route. It checks that the fields are present,
  then compares the supplied signature with hex HMAC-SHA256 of
  `orderId|paymentId` under the configured secret. It answers 400, 400,
  200 or 500.
- the order-creation route. It checks that `amount` is a number, builds
  the gateway request (paise, `"INR"`, a `receipt_<timestamp>`, the notes)
  and echoes the gateway's order, or maps the gateway's error.
- the registration page. It rates password strength and runs the
  pre-submit checks of `handleSubmit` with its `error`/`isLoading` state.
- the tournament list page. It filters by game and tier, with "All" as a
  wildcard. It also shows a count label, the empty state and the slots
  remaining.

Files, one module each:

| file | module | models |
|---|---|---|
| `wrappers.dfy` | `Wrappers` | `Option`, for absent JSON fields and unset environment variables |
| `decimal.dfy` | `Decimal` | how JavaScript prints a non-negative integer below 10^21 (`${Date.now()}`, `{n}` in JSX for an array length; from 10^21 on JavaScript switches to exponent form, which these values never reach), and the parser that reads it back |
| `patterns.dfy` | `Patterns` | the regular-expression fragment the validators use: an anchored sequence of character classes, each with `{min,max}`. `FullMatch` says what `RegExp.test` answers |
| `game_ids.dfy` | `GameIds` | `src/lib/utils.ts` |
| `http.dfy` | `Http` | the responses of the two routes and the values their `catch` blocks receive |
| `payment_verify.dfy` | `PaymentVerify` | `src/app/api/payments/razorpay/verify/route.ts` |
| `create_order.dfy` | `CreateOrder` | `src/app/api/payments/razorpay/create-order/route.ts` |
| `register.dfy` | `Register` | `src/app/auth/register/page.tsx`; `handleSubmit` is a method of the class `RegisterForm` |
| `tournaments.dfy` | `Tournaments` | `src/app/tournaments/page.tsx` |

The outside world enters as parameters:

- HMAC-SHA256 with hex encoding is a parameter `hmac: (string, string) -> string`.
- The Razorpay client is a parameter `gateway: GatewayRequest -> GatewayOutcome`.
- `Date.now()` is a parameter `now: nat`.
- `process.env.RAZORPAY_KEY_SECRET` is a parameter `secret: Option<string>`.
- The outcome of the registration request and sign-in is a parameter `attempt: Attempt`.

Every property below therefore holds for every HMAC, every gateway
behaviour and every timestamp. The verification route is a function of
its request, the secret and the HMAC, so replaying the same request with
the same secret gives the same answer.

A design note on order creation: a caller might expect the amount to be
positive, but the code only checks `typeof amount === "number"`. Zero and
negative amounts therefore reach the gateway
(`CreateOrder.AnyNumberReachesGateway`).

## Model

| member | source | states |
|---|---|---|
| `GameIds.CalculateTeamFee` | src/lib/utils.ts:11-13 | no contract; the fee is the per-person fee times the player count, and `GameIds.TeamFeeIsLinear` states what that product promises |
| `GameIds.TeamFeeIsLinear` | src/lib/utils.ts:11-13 | a team with no players, or with a zero fee, pays 0; the fee is additive in the per-person fee and in the player count |
| `GameIds.ValidateRiotId` | src/lib/utils.ts:35-38 | no contract; the predicate is the explicit check (split at the last `#`), proved equal to the regex by `GameIds.RiotIdMatchesRegex` |
| `GameIds.ValidatePubgId` | src/lib/utils.ts:43-47 | no contract; proved equal to the regex by `GameIds.PubgIdMatchesRegex` |
| `GameIds.ValidateFreeFireUid` | src/lib/utils.ts:52-55 | no contract; proved equal to the regex by `GameIds.FreeFireUidMatchesRegex` |
| `GameIds.RiotIdMatchesRegex` | src/lib/utils.ts:35-38 | the explicit check agrees with `/^.{3,16}#[a-zA-Z0-9]{3,5}$/` on every string. The check: the string has a `#`; 3-5 ASCII letters/digits follow the last `#`; 3-16 non-line-terminator characters precede it. Both directions are proved |
| `GameIds.RiotIdLength` | src/lib/utils.ts:36 | every accepted Riot ID is 7 to 22 characters long |
| `GameIds.PubgIdMatchesRegex` | src/lib/utils.ts:43-47 | the PUBG check (length 5-30, every character in `A-Z a-z 0-9 _ -`) agrees with `/^[a-zA-Z0-9_-]{5,30}$/` |
| `GameIds.FreeFireUidMatchesRegex` | src/lib/utils.ts:52-55 | the Free Fire check (10-12 ASCII digits) agrees with `/^\d{10,12}$/` |
| `GameIds.FreeFireUidIsPubgId` | src/lib/utils.ts:43-55 | every valid Free Fire UID is also a valid PUBG/BGMI ID |
| `GameIds.RiotIdIsNeverPubgId` | src/lib/utils.ts:35-55 | no valid Riot ID is a valid PUBG ID or Free Fire UID, because it holds a `#` |
| `GameIds.ToLowerCase` | src/lib/utils.ts:61 | no contract; `toLowerCase` on ASCII letters, related to case-insensitive equality by `GameIds.GameValidatorSelection` |
| `GameIds.GetGameValidator` | src/lib/utils.ts:60-73 | no contract; the switch on the lower-cased name, stated by `GameIds.GameValidatorSelection`, `GameIds.GameValidatorIgnoresCase` and `GameIds.UnknownGameAcceptsEveryId` |
| `GameIds.GameValidatorSelection` | src/lib/utils.ts:60-69 | any casing of "valorant" selects the Riot validator and nothing else does. Any casing of "pubg"/"bgmi" selects the PUBG validator. Any casing of "freefire"/"free fire" selects the Free Fire validator |
| `GameIds.GameValidatorIgnoresCase` | src/lib/utils.ts:61 | two names that differ only in the case of their letters select the same validator |
| `GameIds.UnknownGameAcceptsEveryId` | src/lib/utils.ts:70-71 | every other game name selects the validator that accepts every ID |
| `GameIds.GetTierColor` | src/lib/utils.ts:78-89 | no contract; stated by `GameIds.TierMappingsAreTotal` and `GameIds.TierMappingsAreDistinct` |
| `GameIds.GetTierLabel` | src/lib/utils.ts:94-105 | no contract; stated by `GameIds.TierMappingsAreTotal`, `GameIds.TierMappingsAreDistinct` and `GameIds.TierLabelIdempotent` |
| `GameIds.TierMappingsAreTotal` | src/lib/utils.ts:78-105 | low, medium and high each get one of Grassroots/Challenger/Elite and one of the three neon colours, never the fallback |
| `GameIds.TierMappingsAreDistinct` | src/lib/utils.ts:78-105 | two different tiers get different labels and different colours |
| `GameIds.TierLabelIdempotent` | src/lib/utils.ts:94-104 | a string that is not a tier is its own label; labelling twice is labelling once |
| `PaymentVerify.Present` | src/app/api/payments/razorpay/verify/route.ts:15 | no contract; a field passes `!field` exactly when it is present and not empty, as used by `PaymentVerify.VerifyPayment` and `PaymentVerify.MissingFieldsNeverSign` |
| `PaymentVerify.SigningKey` | src/app/api/payments/razorpay/verify/route.ts:24 | no contract; the secret or the empty string, stated by `PaymentVerify.UnsetSecretIsEmptyKey` |
| `PaymentVerify.ExpectedSignature` | src/app/api/payments/razorpay/verify/route.ts:23-26 | no contract; the HMAC of the order id, a vertical bar and the payment id under the signing key, which `PaymentVerify.VerifyPayment` compares with the supplied signature |
| `PaymentVerify.VerifyPayment` | src/app/api/payments/razorpay/verify/route.ts:10-53 | the status is 200, 400 or 500. An unreadable body gives 500 with the error's message or "Verification failed". A missing or empty field gives 400 "Missing payment verification fields". 200 (with "Payment verified successfully") comes exactly when all three fields are non-empty and the signature equals hmac(secret or "", orderId, a vertical bar and paymentId) |
| `PaymentVerify.MissingFieldsNeverSign` | src/app/api/payments/razorpay/verify/route.ts:15-20 | with a field missing, the answer is the same for any two HMAC functions: the signature is never computed |
| `PaymentVerify.TamperedSignatureRejected` | src/app/api/payments/razorpay/verify/route.ts:28-33 | a signature that differs from the expected one in length or at any position gives 400 "Invalid signature": verification fails closed |
| `PaymentVerify.GenuineSignatureAccepted` | src/app/api/payments/razorpay/verify/route.ts:23-44 | the expected signature itself, sent with non-empty ids, gives 200 "Payment verified successfully". The lemma assumes the expected signature is non-empty, which a hex HMAC-SHA256 (64 characters) always is |
| `PaymentVerify.UnsetSecretIsEmptyKey` | src/app/api/payments/razorpay/verify/route.ts:24 | an unset secret behaves exactly like the empty secret |
| `PaymentVerify.SeparatorIsAmbiguous` | src/app/api/payments/razorpay/verify/route.ts:25 | ids that contain the separator (a vertical bar) can share a signed message. A signature for order o+bar+x and payment p also verifies order o with payment x+bar+p |
| `Http.CaughtMessage` | src/app/api/payments/razorpay/create-order/route.ts:44 | no contract; the thrown `Error`'s message, else the handler's fallback, stated by `CreateOrder.GatewayFailureIs500` and `PaymentVerify.VerifyPayment` |
| `CreateOrder.Receipt` | src/app/api/payments/razorpay/create-order/route.ts:30 | no contract; `receipt_` and the timestamp, read back by `CreateOrder.GatewayRequestContents` and told apart by `CreateOrder.ReceiptsDistinct` |
| `CreateOrder.BuildGatewayRequest` | src/app/api/payments/razorpay/create-order/route.ts:27-35 | no contract; the order the gateway is asked to create, stated by `CreateOrder.GatewayRequestContents` |
| `CreateOrder.RespondToGateway` | src/app/api/payments/razorpay/create-order/route.ts:37-49 | no contract; the gateway's order echoed with 200, or its error mapped to 500, stated by `CreateOrder.SuccessEchoesGateway` and `CreateOrder.GatewayFailureIs500` |
| `CreateOrder.RequestFor` | src/app/api/payments/razorpay/create-order/route.ts:20-35 | a gateway request is built exactly when the body is a truthy value whose `amount` is a number |
| `CreateOrder.CreateOrder` | src/app/api/payments/razorpay/create-order/route.ts:16-50 | the status is 200, 400 or 500. 400 "Invalid amount" comes exactly when the body is falsy or `amount` is not a number. Otherwise the answer is the response to the gateway's outcome for `RequestFor`. An unreadable body gives 500 with its message or "Failed to create order" |
| `CreateOrder.GatewayRequestContents` | src/app/api/payments/razorpay/create-order/route.ts:27-35 | the gateway amount is a multiple of 100 that divides back to the amount; the currency is always "INR". The timestamp can be read back from the receipt. The notes carry tournamentId and teamName unchanged |
| `CreateOrder.ReceiptsDistinct` | src/app/api/payments/razorpay/create-order/route.ts:30 | orders created at different milliseconds get different receipts |
| `CreateOrder.InvalidAmountNeverReachesGateway` | src/app/api/payments/razorpay/create-order/route.ts:20-22 | without a numeric amount the answer is 400 "Invalid amount" whatever the gateway does, so the gateway is not consulted |
| `CreateOrder.AnyNumberReachesGateway` | src/app/api/payments/razorpay/create-order/route.ts:20-35 | every numeric amount, zero and negative included, passes. The gateway receives amount * 100, "INR", the receipt and the notes |
| `CreateOrder.GatewayFailureIs500` | src/app/api/payments/razorpay/create-order/route.ts:42-49 | a gateway error gives 500 with the error's message, or "Failed to create order" for a thrown non-Error |
| `CreateOrder.SuccessEchoesGateway` | src/app/api/payments/razorpay/create-order/route.ts:37-41 | on success the response's orderId/amount/currency are the gateway's id/amount/currency, not recomputed values |
| `Decimal.ParseRender` | src/app/api/payments/razorpay/create-order/route.ts:30 | the decimal rendering of a timestamp parses back to it |
| `Decimal.RenderInjective` | src/app/api/payments/razorpay/create-order/route.ts:30 | distinct numbers render differently |
| `Register.GetPasswordStrength` | src/app/auth/register/page.tsx:19-27 | the result is one of the four (strength, label, colour) triples, with strength in 0..3. Strength is 0 exactly for the empty password. Strength 3 implies length >= 10, an ASCII capital and an ASCII digit |
| `Register.StrengthClassification` | src/app/auth/register/page.tsx:20-26 | length 1-5 is Weak and 6-9 is Medium. From 10 characters on, a password is Strong iff it has a capital and a digit, and Medium otherwise |
| `Register.ShortPasswordsRateByLengthOnly` | src/app/auth/register/page.tsx:20-22 | below ten characters two passwords of equal length rate the same, whatever their content |
| `Register.StrengthMonotone` | src/app/auth/register/page.tsx:19-27 | appending characters never lowers the strength |
| `Register.SubmitCheck` | src/app/auth/register/page.tsx:35-43 | the checks pass exactly when password and confirmation are equal and at least 6 long. A mismatch gives "Passwords don't match" whatever the length. Only when they match does a password under 6 give "Password must be at least 6 characters" |
| `Register.SubmittedPasswordAtLeastMedium` | src/app/auth/register/page.tsx:40-43 | a password that passes the checks has strength at least 2 |
| `Register.AttemptError` | src/app/auth/register/page.tsx:56-71 | a failed attempt always shows a non-empty message: the server's message, else "Registration failed"; a thrown error's message, else "Something went wrong". A completed sign-up shows none |
| `Register.RegisterForm.constructor` | src/app/auth/register/page.tsx:14-17 | the form starts with empty fields, no error, not loading |
| `Register.RegisterForm.SetPassword` | src/app/auth/register/page.tsx:194 | typing sets the password |
| `Register.RegisterForm.SetConfirmPassword` | src/app/auth/register/page.tsx:229 | typing sets the confirmation |
| `Register.RegisterForm.SetError` | src/app/auth/register/page.tsx:16 | `setError` appends its call to the log of setter calls and the error becomes the value |
| `Register.RegisterForm.SetIsLoading` | src/app/auth/register/page.tsx:17 | `setIsLoading` appends its call to the log of setter calls and the flag becomes the value |
| `Register.RegisterForm.HandleSubmit` | src/app/auth/register/page.tsx:31-75 | gives the exact sequence of setter calls. A failed check: clear the error, then set the check's message; no request and no loading change. Otherwise: clear the error, set loading true, set the failed attempt's message (if any), and set loading false last, so loading ends false. The final error is the failed attempt's message (or empty) after a request, and the check's message otherwise; a failed check leaves loading as it was. The page navigates only after a successful sign-in |
| `Register.RegisterForm.HandleSocialLogin` | src/app/auth/register/page.tsx:77-80 | `handleSocialLogin` appends one `setIsLoading(true)` to the log and leaves the error alone. No check comes first, and nothing resets the flag, so loading stays true whatever the external sign-in does |
| `Tournaments.Selected` | src/app/tournaments/page.tsx:111-113 | no contract; the filter callback, used by the contract of `Tournaments.FilterTournaments` |
| `Tournaments.FilterTournaments` | src/app/tournaments/page.tsx:110-114 | the result is an order-preserving subsequence of the input, no longer than it. It holds every entry whose game matches (or the game selection is "All") and whose tier matches (or the tier selection is "All"), and nothing else |
| `Tournaments.FilterKeepsMultiplicity` | src/app/tournaments/page.tsx:110-114 | each selected tournament occurs in the result as often as in the input, and an unselected one not at all (duplicates are kept, as `Array.prototype.filter` keeps them) |
| `Tournaments.AllAllShowsEverything` | src/app/tournaments/page.tsx:111-112 | with both selections "All" the list is returned unchanged |
| `Tournaments.FilterDistributes` | src/app/tournaments/page.tsx:110-114 | filtering a concatenation concatenates the filtered parts (order is kept) |
| `Tournaments.FilterIdempotent` | src/app/tournaments/page.tsx:110-114 | filtering the filtered list again changes nothing |
| `Tournaments.CountLabel` | src/app/tournaments/page.tsx:201 | no contract; stated by `Tournaments.CountLabelPlural` |
| `Tournaments.CountLabelPlural` | src/app/tournaments/page.tsx:201 | "Showing n tournament…" ends in "s" iff n is not 1 |
| `Tournaments.ShowsEmptyState` | src/app/tournaments/page.tsx:304 | no contract; stated by `Tournaments.EmptyStateExactlyWhenNothingMatches` |
| `Tournaments.EmptyStateExactlyWhenNothingMatches` | src/app/tournaments/page.tsx:304 | the empty-state block shows iff no tournament satisfies both conditions |
| `Tournaments.SlotsRemaining` | src/app/tournaments/page.tsx:288 | no contract; its range on the mock data is stated by `Tournaments.MockTournamentsWellFormed` |
| `Tournaments.MockTournamentsWellFormed` | src/app/tournaments/page.tsx:9-104 | every mock tournament has between 0 and maxTeams slots remaining (maxTeams - participants, line 288). Its game and tier are among the filter buttons, and minPlayers <= maxPlayers |

## Left out

- `cn` (clsx and tailwind-merge) and `formatCurrency` (`Intl.NumberFormat`, locale-dependent) in `src/lib/utils.ts` are not modelled.
- HMAC-SHA256 and its hex encoding are a parameter, not an implementation. So is the Razorpay client, with its own validation of the amount. So is `Date.now()`.
- The comparison of signatures is ordinary string equality, as in the code. Its timing is not modelled, and neither is constant-time comparison, which the code lacks.
- The database update and the WhatsApp invitation exist only as comments in the verification route, so they are not modelled.
- JSON parsing, `fetch`, `signIn`, `router.push`, `console.error`, React rendering and framer-motion are not modelled. Each parsed body is a datatype of the shapes the handlers distinguish.
- PaymentVerify.VerifyPayment: a field is `Option<string>`. JSON values of other types (a number, an object) in the three fields are not modelled, nor their truthiness or string conversion. A body of `null` makes destructuring throw; it is covered by `Unreadable` with the runtime's TypeError message.
- CreateOrder.CreateOrder: `amount` is an integer, and `tournamentId`/`teamName` are optional strings. JavaScript floating point is not modelled: fractional amounts, NaN and Infinity (all `typeof "number"`), and the rounding of `amount * 100`. Nor are notes of other JSON types.
- Register.SubmitCheck: its length test counts Unicode scalar values, not UTF-16 code units, as explained for HandleSubmit below.
- Register.GetPasswordStrength: lengths count Unicode scalar values, while JavaScript counts UTF-16 code units. A password with characters outside the Basic Multilingual Plane can rate higher in the browser than here.
- GameIds.ValidateRiotId: for the same reason, `.{3,16}` counts scalar values here and UTF-16 code units in JavaScript (the pattern has no `u` flag). Names with astral characters are not modelled exactly.
- GameIds.GetGameValidator: `toLowerCase` is modelled on ASCII letters only. Full Unicode lower-casing maps only two non-ASCII characters into ASCII: KELVIN SIGN becomes `k`, and U+0130 becomes `i` plus a combining dot. Neither can produce one of the five game names, so the validator selected is the same.
- Register.RegisterForm.HandleSubmit: React batches state updates, and the model applies each setter at once, keeping one ghost log of `setError`/`setIsLoading` calls in order. `router.push` is the returned flag, not an entry of that log. Like Register.SubmitCheck, it tests `password.length < 6` on Unicode scalar values, while JavaScript counts UTF-16 code units. For example, three emoji (with a matching confirmation) count as 6 in the browser and pass the check, but count as 3 here and are rejected. The name and email fields and the request body are not modelled.
- Register.RegisterForm.HandleSocialLogin: `handleSocialLogin` (page.tsx:77-80) sets `isLoading` to true and then awaits the external `signIn`, which is not modelled, nor is its provider argument. Nothing resets the flag afterwards, so a rejected social sign-in leaves the form loading. In the model `isLoading` changes only through `HandleSubmit` and `HandleSocialLogin`.
- GameIds.CalculateTeamFee: JavaScript numbers are modelled as unbounded integers. Fractional fees, NaN and Infinity, and floating-point rounding of the product are not modelled.
- Tournaments.SlotsRemaining: `maxTeams` and `participants` are unbounded integers rather than JavaScript numbers. For the integer values in the mock data, the subtraction is exact either way.
- Tournaments: the prize formatting with `toFixed` (line 244), the progress-bar percentage (line 284), date formatting and the card markup are display-only floating-point or locale work, and are not modelled.
- Everything under `src/components`, the layouts, the landing page, the admin page and the tailwind configuration is presentation and is not modelled.

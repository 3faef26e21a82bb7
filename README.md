# Christmas site payments — a Dafny model

This project models the server core of a "Christmas site" service. A family
creates a small greeting site, pays for it through the Mercado Pago gateway,
and the site becomes readable only once the payment is confirmed. The core has
five parts.

- **Webhook reconciliation** (`WebhookRoutes`). A gateway notification
  `{type, data.id}` is only a hint. The payment is fetched again and goes
  through a chain of guards:
  - the payment exists;
  - its status is `approved`;
  - the amount is within 0.01 of the server price;
  - the site id resolves from `external_reference`, or else through the
    preference;
  - the site exists;
  - the site is still PENDING.

  Only when every guard passes does that one site move from PENDING to
  APPROVED. The HTTP answer is always 200 `OK`.
- **Site creation and the access gate** (`SiteRoutes`). POST /create stores a
  PENDING site at the server's price with the placeholder preference `TEMP`,
  then patches in the gateway's preference id. GET /site/:id answers 400, 404
  or 402 unless the site is APPROVED. GET /site/:id/status reports the
  payment state.
- **The older payment and family routes** (`LegacyRoutes`):
  - POST /payment with its forced amount and description;
  - GET /payment/:id with its `simular=true` override;
  - POST /family, which assigns uploaded images to flagged wishes in order
    and builds a slug;
  - GET /family/:slug, whose JSON fields fall back to `[]`.
- **CORS** (`Cors`): the list of allowed origins and the per-request
  decision.
- **Configuration** (`Config`): `SITE_PRICE` and the two URL fallback chains.

Supporting modules:

- `Js` models the pieces of JavaScript the routes rely on: truthiness and
  `||`, `trim`, `\s`, `parseInt` and `String(n)`.
- `Json` models JSON values and property reads.
- `MercadoPago` models the gateway as lookups.
- `Db` models the three tables as classes over maps that the handlers update
  in place.
- `Lifecycle` states end-to-end properties of one site across the handlers.

Modelling choices:

- **Amounts** are Dafny `real`: `SITE_PRICE` is 29.90 and the tolerance is
  0.01.
- **The gateway** is a pair of maps from id to `Found(value) | Absent |
  Throws`. `Throws` stands for an SDK call that fails. The replies of
  `createPreference` and `processPayment` are parameters.
- **Parameters for I/O**: the clock (`createdAt`), the random draws
  (`nanoid(21)`, `nanoid(6)`), and `JSON.parse` / `JSON.stringify`. Parsing
  is a function that returns None where it throws.
- **Processing order**: notifications are processed one after another.
  `DeliverAll` runs any sequence of deliveries, each with the gateway's
  answers at that moment.
- **The handlers model the code as written**, including the two defects
  under "## Findings". The webhook's guard chain is specified once, as the
  functions `PaymentOutcome` and `Process`. Their `Guard` parameter selects
  the amount test as written (`AsWritten`, which lets a missing amount
  through) or the intended one (`Intended`), and every property of the
  chain is proved for both. The imperative `HandlePaymentNotification` runs
  against a `SiteTable` and is proved to produce exactly the `AsWritten`
  outcome and new table. POST /payment likewise sends the body as the code
  overrides it. The corrected override, `Override`, is proved separately.
- **String lengths**: `id.length` counts UTF-16 code units, so ids are
  measured with `Utf16Length`, not with Dafny's `|id|`, which counts code
  points.

## Model

| member | source | states |
|---|---|---|
| Config.GetFrontendUrl | server/config/constants.js:6-8 | never empty; FRONTEND_URL when it is set and non-empty, `http://localhost:5173` otherwise |
| Config.GetWebhookUrl | server/config/constants.js:11-13 | never empty; the first non-empty of WEBHOOK_URL and BACKEND_URL, else `http://localhost:3000` |
| Config.EmptyIsUnset | server/config/constants.js:6-13 | an environment value set to "" gives the same URL as an unset one, for each of the three variables |
| Cors.AllowedOrigins | server/middleware/cors.js:4-13 | three entries (the frontend URL or its default, then the two localhost origins) and a fourth, the production frontend, exactly when it is truthy |
| Cors.OriginDecision | server/middleware/cors.js:16-27 | allow iff the origin is missing or empty, or is in the list; every refusal carries the `Não permitido pelo CORS` error |
| Cors.NodeEnvIrrelevant | server/middleware/cors.js:18-23 | NODE_ENV never changes a decision: a missing origin is allowed in production too |
| Cors.ConfiguredOriginsAllowed | server/middleware/cors.js:4-27 | the configured frontend, both localhost origins and a set production frontend are always allowed |
| Cors.OnlyListedOrigins | server/middleware/cors.js:22-26 | with no production frontend, a present origin is allowed iff it is one of the three listed origins |
| Js.NullIfFalsy | server/routes.js:48-49 | `x \|\| null`: a kept value is the input and is non-empty; a truthy input is kept |
| Js.TrimStart | server/routes.js:160 | the result is no longer than the input and is empty or starts with a non-space |
| Js.TrimStartSuffix | server/routes.js:160 | the result of `trimStart` is a suffix of the input and everything it removed is white space |
| Js.TrimStartEmpty | server/routes.js:160 | `trimStart` gives "" only on a string made of white space |
| Js.TrimStartLast | server/routes.js:160 | when `trimStart` keeps anything, it keeps the input's last character |
| Js.TrimEnd | server/routes.js:160 | the result is a prefix of the input that ends with a non-space; everything removed is white space |
| Js.Trim | server/routes.js:160 | `trim()` gives a string with no white space at either end and no longer than the input; it is empty iff the input is all white space |
| Js.TrimStartAllSpace | server/routes.js:160 | leading white space before a non-space is exactly what `trimStart` removes |
| Js.TrimStartAppend | server/routes.js:160 | once `trimStart` stops inside a prefix, what follows is kept unchanged |
| Js.TrimEndAllSpace | server/routes.js:160 | trailing white space after a non-space is exactly what `trimEnd` removes |
| Js.TrimPadded | server/routes.js:160 | `trim` removes exactly the white-space padding around a string that starts and ends with non-space |
| Js.TrimNoSpace | server/routes.js:160 | `trim` leaves a string without white space unchanged |
| Js.ReplaceSpaceRuns | server/routes.js:160 | `replace(/\s+/g, '-')` leaves no white space and never lengthens the string; its exact result is pinned down by the four lemmas below |
| Js.ReplaceAllSpace | server/routes.js:160 | a non-empty run of white space on its own becomes exactly one dash |
| Js.ReplaceSplit | server/routes.js:160 | cut anywhere except inside a run of white space, the two pieces are replaced independently and concatenated |
| Js.ReplaceAtSpace | server/routes.js:160 | at a white-space character the replacement writes one dash and skips the rest of the run |
| Js.ReplaceSplitSpaceOnly | server/routes.js:160 | the piecewise replacement when the first piece is white space only |
| Js.ReplaceSplitAtSpace | server/routes.js:160 | the piecewise replacement when the first piece starts with a run of white space and goes on after it |
| Js.ReplaceKeepsEnds | server/routes.js:160 | a string that starts and ends with non-space keeps its first and last characters |
| Js.ReplaceWords | server/routes.js:160 | two words with white space between them become the words joined by one dash |
| Js.ReplaceSpaceRunsNoSpace | server/routes.js:160 | the replacement leaves a string without white space unchanged |
| Js.DigitPrefixLength | server/routes.js:76 | the length of the longest run of radix digits at the start of the string |
| Js.ParseInt | server/routes.js:76 | `parseInt`: NaN for a blank string; a negative result only after a leading minus; a leading digit 1-9 always gives a number that is not negative |
| Js.IntToString | server/routes.js:53 | `String(n)`: a minus sign exactly when `n` is negative, then decimal digits |
| Js.NatToString | server/routes.js:53 | `String(n)` of a natural number: at least one character, all decimal digits, no leading zero |
| Js.NatToStringValue | server/routes.js:53 | the decimal digits of `n` have the value `n` |
| Js.ParseUnsignedNatToString | server/routes.js:53 | the unsigned digits of `String(m)` read back as `m` |
| Js.ParseIntToString | server/routes.js:53 | `parseInt(String(n)) == n` for every integer written in plain decimal (JavaScript does so below 1e21): the stored `mp_payment_id` is the gateway id |
| Js.NonNumericIsNaN | server/routes.js:76-80 | a string without a decimal digit parses to NaN |
| Js.Utf16Length | server/routes/siteRoutes.js:79 | `s.length` in UTF-16 code units: between the number of characters and twice that |
| Js.Utf16LengthBmp | server/routes/siteRoutes.js:79 | on Basic Multilingual Plane characters, `length` is the number of characters |
| Json.Get | server/routes.js:144 | reading a property throws exactly on null; an object holding the key yields that field, an object without it yields undefined, and a defined value is always the object's own field |
| Db.SiteTable.Create | server/routes/siteRoutes.js:27-37 | inserts the row iff its id is free, otherwise fails with the table unchanged |
| Db.SiteTable.FindUnique | server/routes/webhookRoutes.js:98-100 | finds a row iff the id is stored, and returns that row |
| Db.SiteTable.SetPreferenceId | server/routes/siteRoutes.js:47-50 | replaces only `mp_preference_id` of an existing row; otherwise fails with the table unchanged |
| Db.SiteTable.MarkApproved | server/routes/webhookRoutes.js:109-116 | sets only status APPROVED and `mp_payment_id` on an existing row; otherwise fails with the table unchanged |
| Db.PaymentTable.Create | server/routes.js:51-58 | the new row gets a fresh auto-incremented id; no other row changes |
| Db.PaymentTable.SetStatus | server/routes.js:96-99 | replaces only the status of the given row |
| Db.FamilyTable.Create | server/routes.js:166-176 | every attempt draws the next id, as a PostgreSQL sequence does; a taken slug fails with the rows unchanged; otherwise the row is stored under its slug with the drawn id |
| WebhookRoutes.AmountAcceptedAsWritten | server/routes/webhookRoutes.js:73-80 | the guard as written accepts a payment with no amount (NaN comparisons are false) |
| WebhookRoutes.AmountAccepted | server/routes/webhookRoutes.js:73-80 | accepted iff an amount is present and lies within 0.01 of SITE_PRICE (never the stored price) |
| WebhookRoutes.MissingAmountPassesAsWritten | server/routes/webhookRoutes.js:73-80 | the written and the corrected guard disagree exactly on a payment without an amount |
| WebhookRoutes.AmountOk | server/routes/webhookRoutes.js:73-80 | the selected guard passes iff the amount lies within 0.01 of SITE_PRICE, or, as written only, the amount is missing |
| WebhookRoutes.ResolveSiteId | server/routes/webhookRoutes.js:84-95 | a truthy `external_reference` wins; otherwise, when `preference_id` is truthy and the preference is found with a truthy `external_reference`, that reference is the site id; a preference that cannot be fetched fails the lookup; with neither id, nothing resolves; a resolved id is never empty |
| WebhookRoutes.VerifiedIsFunctional | server/routes/webhookRoutes.js:59-95 | one payment can be verified for at most one site |
| WebhookRoutes.PaymentOutcome | server/routes/webhookRoutes.js:59-121 | under either guard: approves only a stored PENDING site that the gateway verified; for a verified site the outcome is approve, already approved or not found according to the store |
| WebhookRoutes.GuardsDisagreeOnlyOnMissingAmount | server/routes/webhookRoutes.js:73-80 | the chain as written and the intended chain decide differently only on an approved payment with no amount, which the intended chain stops with AmountMismatch |
| WebhookRoutes.MissingAmountApprovesAsWritten | server/routes/webhookRoutes.js:73-116 | on a concrete store, an approved payment with no amount approves its PENDING site as written, and changes nothing under the intended guard |
| WebhookRoutes.Approve | server/routes/webhookRoutes.js:111-114 | the update sets APPROVED and the notified payment id, and changes no other modelled field (the `updatedAt` stamp is left out) |
| WebhookRoutes.Dispatch | server/routes/webhookRoutes.js:36-49 | only type `payment` with an id reaches the payment handler; every other type is dropped |
| WebhookRoutes.Process | server/routes/webhookRoutes.js:36-125 | under either guard: no site is added or removed; non-payment types change nothing; APPROVED sites never change; any changed site was PENDING, verified under that guard, and gets APPROVED with the notified id; a verified PENDING site is approved |
| WebhookRoutes.AtMostOneSiteChanges | server/routes/webhookRoutes.js:107-116 | a notification changes at most one site |
| WebhookRoutes.FailedGuardChangesNothing | server/routes/webhookRoutes.js:61-105 | under either guard: a missing or failing payment, a non-approved status, an amount the guard refuses, an unresolved reference or an unknown site leaves the store unchanged |
| WebhookRoutes.SecondDeliveryAlreadyApproved | server/routes/webhookRoutes.js:107-121 | a notification that approved a site finds it already approved when delivered again |
| WebhookRoutes.RedeliveryIsNoOp | server/routes/webhookRoutes.js:107-121 | processing the same notification twice leaves the store as processing it once |
| WebhookRoutes.DeliverAll | server/routes/webhookRoutes.js:107-116 | over any sequence of deliveries: no site appears or disappears, status never returns to PENDING, and a site PENDING at the end was never touched |
| WebhookRoutes.RepeatedDeliveryIsOneDelivery | server/routes/webhookRoutes.js:107-121 | k >= 1 deliveries of one notification have the effect of one |
| WebhookRoutes.ApprovalNeedsVerifiedPayment | server/routes/webhookRoutes.js:59-116 | under either guard: a site that goes from PENDING to APPROVED over any deliveries was approved by a `payment` notification verified for that site under that guard, and stores its id |
| WebhookRoutes.HandlePaymentNotification | server/routes/webhookRoutes.js:54-125 | the imperative guard chain, with the amount test as written, produces exactly the `AsWritten` PaymentOutcome, and its update of the table is exactly that outcome's effect |
| WebhookRoutes.ProcessWebhookNotification | server/routes/webhookRoutes.js:36-49 | returns the `AsWritten` Dispatch outcome and leaves the table exactly as `AsWritten` Process says |
| WebhookRoutes.ReceiveWebhook | server/routes/webhookRoutes.js:14-31 | always 200 `OK`, on the normal and the exception path; the table changes only by processing a well-formed body, as written |
| SiteRoutes.CreateSite | server/routes/siteRoutes.js:16-67 | a taken id fails with nothing stored; otherwise a new PENDING site at SITE_PRICE holds the client's content; success iff the gateway answered, with its preference id stored and returned and `init_point \|\| sandbox_init_point`; a gateway failure leaves `TEMP`; other rows are untouched |
| SiteRoutes.PendingSite | server/routes/siteRoutes.js:27-37 | the first write: the client's content, PENDING, SITE_PRICE, preference `TEMP`, no payment id |
| SiteRoutes.InitPoint | server/routes/siteRoutes.js:57 | `init_point` when it is truthy, otherwise `sandbox_init_point` |
| SiteRoutes.NanoIdLength | server/routes/siteRoutes.js:24 | an id drawn by `nanoid(21)` from its URL-safe alphabet has `length` 21 |
| SiteRoutes.Create | server/routes/siteRoutes.js:16-67 | the imperative handler's response and new table equal CreateSite's |
| SiteRoutes.GetSite | server/routes/siteRoutes.js:74-116 | 400 iff `id.length` in UTF-16 code units is not 21; 404 iff the id is unknown; the content iff APPROVED, and then exactly id, name, message, photo and creation time; otherwise 402 with only the status and preference id |
| SiteRoutes.GetSiteStatus | server/routes/siteRoutes.js:122-149 | the same 400 (UTF-16 length) and 404 conditions; otherwise the status and the preference id, approved or not |
| SiteRoutes.ReadsAgree | server/routes/siteRoutes.js:74-141 | both reads reject the same ids; a non-approved site's 402 carries what the status endpoint reports |
| SiteRoutes.CreatedIdIsReadable | server/routes/siteRoutes.js:24-89 | an id drawn by `nanoid(21)` has the length the reads accept, so a created site is never answered 400 or 404 |
| SiteRoutes.EmojiIdPassesLengthCheck | server/routes/siteRoutes.js:79-89 | twenty characters ending in an emoji have `length` 21, so an unknown such id is answered 404 by both reads, not 400 |
| Lifecycle.CreatedSiteIsGated | server/routes/siteRoutes.js:16-99 | right after creation the site is answered with 402, PENDING and the stored preference id (or `TEMP`) |
| Lifecycle.VerifiedPaymentOpensSite | server/routes/webhookRoutes.js:54-121 | a verified payment notification for a PENDING site makes its content readable as it was stored, under either guard |
| Lifecycle.CreateThenPay | server/routes/webhookRoutes.js:59-121 | create, then an approved payment of SITE_PRICE referencing the new id: the site goes from 402 to readable, with the payment id stored, under either guard |
| Lifecycle.CreateThenPayViaPreference | server/routes/webhookRoutes.js:84-95 | create, then an approved payment of SITE_PRICE that carries no `external_reference` but the site's preference id, which the gateway answers with the new site's id: the site goes from 402 to readable, with the payment id stored, under either guard |
| Lifecycle.DuplicateDeliveryChangesNoRead | server/routes/webhookRoutes.js:107-121 | a duplicate delivery does not change any read, under either guard |
| Lifecycle.UnderpaymentKeepsSiteLocked | server/routes/webhookRoutes.js:73-80 | a payment of 10.00 changes nothing, under either guard |
| Lifecycle.PendingStaysGated | server/routes/siteRoutes.js:92-99 | a site still PENDING after any deliveries is still answered with 402 and its original preference id, under either guard |
| LegacyRoutes.ChargedAmount | server/payment.js:14-22 | the amount charged is `formData`'s amount when that is truthy, otherwise the top-level amount |
| LegacyRoutes.OverrideAsWritten | server/routes.js:37-38 | the override replaces the top-level amount and description and leaves `formData` untouched |
| LegacyRoutes.OverrideAsWrittenChargesPriceIff | server/routes.js:37-40 | as written, 29.90 is charged iff `formData` is absent, has a falsy amount, or already holds 29.90 |
| LegacyRoutes.ClientAmountChargedAsWritten | server/routes.js:37-40 | as written, a truthy amount inside `formData` is what gets charged, despite the override |
| LegacyRoutes.OneCentChargedAsWritten | server/routes.js:37-40 | as written, a body with `formData.transaction_amount = 0.01` is charged 0.01 |
| LegacyRoutes.Override | server/routes.js:37-38 | whatever the body, the charged amount is 29.90 and the description `Natal da Família` |
| LegacyRoutes.RecordFor | server/routes.js:46-58 | the stored record has the gateway's status and `mp_payment_id` equal to `String(id)`, which parses back to the gateway id; each QR field is kept when truthy and null otherwise |
| LegacyRoutes.PostPayment | server/routes.js:31-72 | sends the body as the code overrides it (`formData` untouched); a gateway failure answers 500 with the table unchanged; otherwise one fresh record is added and echoed |
| LegacyRoutes.ReadPayment | server/routes.js:75-108 | 400 iff `parseInt` gives NaN; 404 iff the id is unknown; otherwise the stored record, with status `approved` iff `simular` is `true` |
| LegacyRoutes.NonNumericPaymentIdRejected | server/routes.js:76-80 | an id without digits is answered with 400 |
| LegacyRoutes.GetPayment | server/routes.js:75-108 | answers ReadPayment; only the simulate branch writes, and it writes back exactly the approved record |
| LegacyRoutes.AssignedWishesShape | server/routes.js:142-151 | the mapped list fails exactly on a null wish, keeps its length, and each changed wish is the k-th flagged one with `/uploads/` + file k as image |
| LegacyRoutes.AssignWishImages | server/routes.js:142-151 | the list keeps its length; the k-th flagged wish takes `/uploads/` + the k-th file and icon null while files remain; every other wish is unchanged; a null wish makes the map throw |
| LegacyRoutes.WishesData | server/routes.js:138-155 | an empty or unparsable field gives `[]`; a parsed non-array is kept as parsed; a parsed list is the mapped list, or the list unmapped when a null wish makes the map throw |
| LegacyRoutes.BuildWishesData | server/routes.js:138-155 | the imperative parse-then-map equals WishesData |
| LegacyRoutes.PhotoList | server/routes.js:134-135 | one `/uploads/<file>` path per photo, in order |
| LegacyRoutes.CleanName | server/routes.js:160 | the cleaned name has no white space, is empty iff the name is all white space, and begins and ends with the first and last non-space characters of the name |
| LegacyRoutes.CleanNameIdempotent | server/routes.js:160 | cleaning a clean name changes nothing |
| LegacyRoutes.CleanNameJoinsWords | server/routes.js:160 | two words with white space between and around them clean to the words joined by one dash |
| LegacyRoutes.JoinWithDash | server/routes.js:163 | `a-b`: `a`, then a dash, then `b`; no white space when neither part has any |
| LegacyRoutes.Slug | server/routes.js:157-163 | the cleaned name, a dash and the short code, with no white space when the code has none |
| LegacyRoutes.CheckFamily | server/routes.js:123-132 | each outcome exactly when its case holds: missing fields iff the name or payment id is missing or empty; NaN iff both are present and the id does not parse; unknown payment (400) iff it parses to an id that is not stored; passing iff it parses to a stored id |
| LegacyRoutes.CheckIgnoresPaymentStatus | server/routes.js:128-132 | the check depends on the payment's existence only, never on its status |
| LegacyRoutes.FamilyRow | server/routes.js:165-175 | the stored row: the name as given, its slug, the payment id, the photo list and the wishes as JSON text, and the link and message, each null when empty |
| LegacyRoutes.PostFamily | server/routes.js:117-192 | 400 for missing fields or an unknown payment, 500 for a NaN id or a taken slug, with no write on those paths; otherwise the family row is stored under its slug with the next id |
| LegacyRoutes.ParseOrEmpty | server/routes.js:210-226 | an empty or unparsable field is `[]`, otherwise the parsed value |
| LegacyRoutes.ReadFamily | server/routes.js:195-238 | 404 iff the slug is unknown; otherwise the row with its wishes and photos parsed, each falling back to `[]` |
| LegacyRoutes.CreatedFamilyReadsBack | server/routes.js:165-232 | when parsing undoes serialising on the stored photos and wishes, GET /family/:slug returns the stored row with the wishes and photos POST /family built |

## Left out

- Floating point: amounts are exact reals. With JavaScript doubles, `Math.abs(29.91 - 29.90)` is slightly above 0.01, so 29.91 is refused while 29.89 is accepted. The model accepts both ends of the interval.
- Concurrency is not modelled: notifications are processed one at a time. This leaves out the unawaited `processWebhookNotification` call and the window between reading a site and updating it.
- Logging (`console`) is dropped, and so are the outcome messages it prints.
- Rate limiting, Helmet headers (`server/middleware/security.js`), request validation and sanitising (`server/validators/siteValidator.js`) and the server bootstrap (`server/index.js`) are not part of this model. Validated `familyName`, `message` and `photoUrl` are inputs.
- `server/services/mercadopago.js` and most of `server/payment.js` (SDK calls, the random payer e-mail) are not part of this model. The gateway is a set of lookups and replies; only the amount selection in `server/payment.js` is modelled, because of the second finding.
- Database errors other than a taken key (connection loss, timeouts) are not modelled.
- POST /family: a payment id that parses to NaN is answered 500, because the database rejects a NaN key. This is assumed, not derived from code in this model.
- POST /family: `req.files` being undefined (a request that is not multipart) is not modelled; the file lists are always given.
- POST /payment: body fields other than the amount and the description are not modelled; they pass to the gateway untouched.
- Webhook: `data.id` is taken as a string; a numeric id would reach the gateway as a number.
- Js.ParseInt: digits beyond double precision are read exactly, without rounding.
- Js.IntToString: always writes plain decimal digits; JavaScript's `String(n)` switches to exponent form when |n| >= 1e21 (so `parseInt(String(1e21))` is 1), which is not modelled. Js.ParseIntToString is therefore stated for the model's decimal form, which agrees with JavaScript only below 1e21.
- WebhookRoutes.Approve: Prisma's automatic `updatedAt` timestamp is not a field of the model's `Site`, so the update is stated to change no other modelled field.
- LegacyRoutes.Slug: the short code's length of 6 is not stated, because the `nanoid(6)` draw is a parameter.
- LegacyRoutes.RecordFor: the gateway id is an integer; a non-integer id is not modelled.
- The `credentials`, `methods` and `allowedHeaders` settings of the CORS options are plain configuration and are not modelled.

## Findings

| source | as written | input that shows it | evidently intended | confidence | as-written member | corrected member |
|---|---|---|---|---|---|---|
| server/routes/webhookRoutes.js:73-80 | `Math.abs(payment.transaction_amount - SITE_PRICE) > 0.01` aborts; a missing amount gives NaN, and NaN > 0.01 is false, so processing continues | an approved payment with no `transaction_amount` whose `external_reference` is a PENDING site: the site is approved | a payment without an amount is refused | not executed | WebhookRoutes.MissingAmountApprovesAsWritten | WebhookRoutes.AmountAccepted |
| server/routes.js:37-38 | the override sets the top-level `transaction_amount`, but the gateway client charges `formData.transaction_amount` when that is truthy (server/payment.js:15,21) | a body with `formData: {transaction_amount: 0.01}` is charged 0.01 | every payment is charged 29.90 | not executed | LegacyRoutes.OneCentChargedAsWritten | LegacyRoutes.Override |

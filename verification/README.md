# Fund, investor and investment records: a Dafny model of the write core

This project models the sequential logic underneath a small record-keeping service for funds, investors and investments. The Express/Prisma glue is left out. What is modelled:

- **Idempotency replay cache** (`idempotency.dfy`, module `Idempotency`). A map from client key to `{statusCode, body, expiresAt}`. A request without a key, or with an empty one, passes straight through. A live record (`now <= expiresAt`) is replayed verbatim with the `Idempotency-Key` header, and the write does not run. An expired record is deleted, and the request then proceeds as a miss. On a miss, the wrapped `res.json` records the status in effect and the body, insert-only, for 24 hours (86 400 000 ms). The response body type is a parameter.
- **Domain store** (`domain.dfy`, module `Domain`). There are three tables: funds, investors and investments. Each is a sequence of rows in insertion order. `Valid` states the store's constraints: unique ids, unique investor emails, and every investment referring to an existing fund and investor. Each service call returns a `Tx`, which is the result or error together with the store afterwards.
- **Services** (`fundservice.dfy`, `investorservice.dfy`, `investmentservice.dfy`):
  - fund create, with the status defaulting to Fundraising;
  - fund overwrite, with no transition rule;
  - fund lookup, and the lists ordered by `createdAt` descending;
  - investor create, with an exact mapping from investor-type label to enum;
  - the guarded, transactional investment create, which checks that the fund exists, then that it is not Closed, then that the investor exists, and only then inserts;
  - the per-fund investment listing.
- **Request schemas** (`validators.dfy`, module `Validators`). These work over parsed JSON: integer ranges, strict positivity, enum membership, and the anchored pattern `^\d{4}-\d{2}-\d{2}$`. The pattern is modelled as a small matcher and proved equal to a positional shape check.
- **Transformers** (`transformers.dfy`, `amounts.dfy`):
  - the wire rendering of rows;
  - the `FamilyOffice` ↔ `"Family Office"` label;
  - lenient label parsing after JavaScript `\s` whitespace is removed;
  - `toFixed(2)`, modelled as rounding half-up to whole cents and rendering a canonical integer part, a `.` and two digits, with round trips proved in both directions.
- **Error handler** (`errors.dfy`, modules `Errors` and `ErrorHandler`). A total classification of a thrown error into status and body. The typed classes are tested before the storage codes P2002, P2025 and P2014. Everything else is a 500, and its message is hidden in production.
- **Write orchestration** (`app.dfy`, module `App`). The write routes validate, call the service, and render either the row or the classified error. `Serve` wraps a route in the cache, and its contract states that the composition is exactly the abstract cache step `Idempotency.Step`.

Generated ids and creation timestamps are parameters of each operation (`freshId`, `now`). An id that is already taken is treated as a primary-key violation (P2002), and the store is left unchanged. E-mail and UUID syntax are parameters too (`Validators.Checks`). So is the runtime's reading of an investment date (`InvestmentService.DateParser`): `new Date(s)` rendered back as a calendar day, or nothing for an Invalid Date. The day it reads is what is stored and answered. A date it cannot read makes the storage client refuse the insert.

## Behaviour worth knowing

- **A failed first attempt consumes its key.** The error handler writes its response through the wrapped `res.json` (src/lib/errorHandler.ts:14,19,24,32,48,53,58,68). The wrapper records every response, whatever its status (src/lib/idempotency.ts:40-50). So a 400, 404, 409 or 500 is replayed to every retry under the same key for 24 hours. This holds even when the retry has a corrected body. `App.FailedAttemptIsReplayed` states this.
- **Expiry boundary.** A record is live while `expiresAt >= now`, because the code tests `expiresAt < new Date()`. At the instant `now == expiresAt` the record is therefore still replayed. See `Idempotency.LiveAtExpiryInstant`.
- **Recording is insert-only and best effort.** An insert that hits an existing key fails, the failure is only logged, and the existing record stays (`Idempotency.Insert`). There is no conflict error towards the caller.
- **Impossible dates.** The schema checks only the shape `YYYY-MM-DD`. What happens next depends on how the runtime reads the date. A day that overflows its month, such as "2024-02-30", is rolled into the next month by the runtime's parser: 2024-03-01 is stored and answered (`App.ParsedDateAnswered`). A date the parser cannot read, such as "2024-13-45", yields an Invalid Date. The storage client then refuses the insert with an error that has no code, so the answer is 500 and the transaction leaves the store as it was (`App.ImpossibleDateRefused`).
- **A dead comparison.** `transformInvestorTypeFromApi` compares the whitespace-stripped text with `'Family Office'`. That comparison can never succeed (`Transformers.SpacedLabelNeverSeen`). It is harmless, because `'FamilyOffice'` is accepted anyway.

## Model

| member | source | states |
|---|---|---|
| Idempotency.Check | src/lib/idempotency.ts:9-37 | No key or an empty key passes through. A live record (`now <= expiresAt`) is replayed with its own status, its body and the key header. An expired record is removed and the request proceeds as a miss whose store lacks the key. |
| Idempotency.Insert | src/lib/idempotency.ts:43-55 | Recording is insert-only. An existing record for the key is kept, never overwritten. Otherwise the new record is added. No other key changes. |
| Idempotency.Respond | src/lib/idempotency.ts:39-58 | The wrapped `res.json` sends the body with the key header and whatever status is in effect, with no success filter. A key absent from the store afterwards maps to that status and body, expiring 86 400 000 ms after `now`. A key already present leaves the store unchanged. |
| Idempotency.Step | src/lib/idempotency.ts:9-60 | One request through the cache. Without a usable key, the write's response goes out with no header and the store is unchanged. A record with `now <= expiresAt` is replayed with its status, its body and the key header, and the store is unchanged. Otherwise the write's response goes out with the header, and the key now maps to it for 24 hours, replacing any expired record. |
| Idempotency.LiveAtExpiryInstant | src/lib/idempotency.ts:28 | A record is still live at its expiry instant and expired one millisecond later. |
| Idempotency.ExpiredIsMiss | src/lib/idempotency.ts:28-29 | With an expired record, the request behaves exactly as with that record deleted. |
| Idempotency.OtherKeysUntouched | src/lib/idempotency.ts:23-51 | Lookup and recording use the request's key alone. Every other key keeps its presence and its record. |
| Idempotency.RepeatReplays | src/lib/idempotency.ts:23-58 | After any request under a key, a second request under that key before the stored expiry is a replay: it gets the first response, and the cache stays the same. |
| Idempotency.FreshKeyReplayedForLifetime | src/lib/idempotency.ts:39-50 | The first response under a fresh key is replayed for the full 24 hours. |
| ErrorHandler.Classify | src/lib/errorHandler.ts:12-71 | NotFound gives 404, BusinessRule 400 and Conflict 409, each with its own message. Validation gives 400 "Invalid request data" with the issues. Storage code P2002 gives 409 "Resource already exists", P2025 gives 404 "Resource not found", and P2014 gives 400 "Required relation missing". Anything else gives 500 "Internal server error". |
| ErrorHandler.StatusesAreClientOrServerErrors | src/lib/errorHandler.ts:12-71 | Every error is answered with 400, 404, 409 or 500. |
| ErrorHandler.TypedErrorsIgnoreCode | src/lib/errorHandler.ts:12-60 | The typed classes take precedence: a typed error's `code` never affects its classification. |
| ErrorHandler.InternalIffUnrecognised | src/lib/errorHandler.ts:43-71 | The status is 500 exactly when the error is untyped and carries no recognised storage code, including a plain error with no code. |
| ErrorHandler.ProductionHidesOnlyInternalDetail | src/lib/errorHandler.ts:63-71 | Production mode changes only 500 bodies, and there it exactly removes the error's own message. |
| Amounts.FormatAmount | src/lib/transformers.ts:8 | `toFixed(2)` yields the two-decimal shape and reads back as the amount rounded half-up to cents. |
| Amounts.ParseFormatCents | src/lib/transformers.ts:32 | Every rendering of a cent count has a canonical integer part, a '.' and two digits, and parses back to that count. |
| Amounts.FormatParseCents | src/lib/transformers.ts:32 | Every string of that shape is the rendering of the count it parses to. |
| Amounts.DecimalValueOfNatToDecimal | src/lib/transformers.ts:8 | The integer part is canonical (no superfluous leading zero) and denotes the number rendered. |
| Amounts.NatToDecimalOfDecimalValue | src/lib/transformers.ts:8 | Every canonical digit string is the rendering of the number it denotes. |
| Transformers.FundToApi | src/lib/transformers.ts:3-12 | id, name, vintage year, status and creation time are copied. The target size is rendered with two decimals, rounded half-up. |
| Transformers.InvestorToApi | src/lib/transformers.ts:14-25 | id, name, email and creation time are copied. The type is rendered as its wire label. |
| Transformers.InvestmentToApi | src/lib/transformers.ts:27-35 | id, investor id and fund id are copied, and so is the stored calendar day, which is the day the runtime read from the request. The amount is rendered with two decimals. |
| Transformers.InvestorTypeLabel | src/lib/transformers.ts:18-21 | FamilyOffice is rendered as "Family Office". Every other type is rendered as its enum name. |
| Transformers.StripWhitespace | src/lib/transformers.ts:38 | The result contains no JavaScript `\s` character and is no longer than the input. |
| Transformers.StripWhitespaceAppend | src/lib/transformers.ts:38 | Stripping whitespace distributes over concatenation. |
| Transformers.InvestorTypeFromApi | src/lib/transformers.ts:37-45 | A text is accepted exactly when its whitespace-stripped form is one of the three enum names, and then it maps to that enum. Otherwise the error is "Invalid investor type: " followed by the original text. |
| Transformers.SpacedLabelNeverSeen | src/lib/transformers.ts:38-39 | After stripping, the text can never equal "Family Office", so that comparison is dead. |
| Transformers.SpacedFamilyOffice | src/lib/transformers.ts:38-41 | Any whitespace before, inside or after "FamilyOffice" still maps to FamilyOffice. |
| Transformers.InvestorTypeRoundTrip | src/lib/transformers.ts:14-45 | Parsing the wire label of each investor type gives that type back. |
| Transformers.InvestorRoundTrip | src/lib/transformers.ts:14-45 | Parsing the rendered investor's type label gives the stored type. |
| Validators.ParseFundStatus | src/lib/validators.ts:3 | Exactly "Fundraising", "Investing" and "Closed" are statuses, and each names the status of the same name. |
| Validators.DatePatternIsShape | src/lib/validators.ts:35-37 | The anchored pattern accepts exactly the 10-character strings with digits at positions 0-3, 5-6 and 8-9 and '-' at positions 4 and 7. There is no month or day range check. |
| Validators.DateExamples | src/lib/validators.ts:35-37 | "2024-03-15" has the date shape and "2024/03/15" does not. "2024-13-45" has it too, because months and days are not range-checked. |
| Validators.ValidateFundCreate | src/lib/validators.ts:11-16 | The body is accepted if and only if it is an object, name is a non-empty string, vintage_year is an integer in [1900, 2100], target_size_usd is strictly positive, and status is absent or one of the three statuses. The input is taken over unchanged, and an absent status becomes Fundraising. |
| Validators.ValidateFundUpdate | src/lib/validators.ts:18-24 | As for create, plus a UUID id, and the status is required. |
| Validators.ValidateInvestorCreate | src/lib/validators.ts:26-30 | The body is accepted if and only if name is non-empty, investor_type is one of the three labels, and email passes the e-mail check. The fields are taken over unchanged. |
| Validators.ValidateInvestmentCreate | src/lib/validators.ts:32-38 | The body is accepted if and only if investor_id passes the UUID check, amount_usd is strictly positive, and investment_date matches the date pattern. An accepted date has the date shape. |
| Validators.InvestorTypeLabelsAgree | src/lib/validators.ts:5-9 | The schema's label enum accepts exactly the labels the investor service can map. |
| Tables.SortDesc | src/services/fundService.ts:21-25 | Ordering by `createdAt` descending yields a permutation of the rows that is sorted newest first. |
| FundService.List | src/services/fundService.ts:21-25 | All funds, as a permutation of the table, sorted by `createdAt` descending. |
| FundService.GetById | src/services/fundService.ts:27-31 | A fund is returned if and only if one with that id exists, and it is that fund. |
| FundService.Create | src/services/fundService.ts:33-58 | Exactly one fund is appended. Name, vintage year and target are stored unchanged. The status is the given one, or Fundraising when none is given. A taken id is a P2002 error with the store unchanged. |
| FundService.Update | src/services/fundService.ts:60-79 | Name, vintage year, target and status of the fund with the given id are overwritten, and its creation time is kept. Every other fund, and both other tables, are unchanged. A missing id is a P2025 error with the store unchanged. There is no transition rule. |
| FundService.CreatePreservesValid | src/services/fundService.ts:43-50 | Creating a fund keeps unique ids and every investment's references. |
| FundService.UpdatePreservesValid | src/services/fundService.ts:63-71 | An update keeps ids, and so keeps every reference and constraint. |
| FundService.GetAfterUpdate | src/services/fundService.ts:63-71 | After an update, looking up the id yields the updated fund. |
| InvestorService.List | src/services/investorService.ts:12-16 | All investors, as a permutation of the table, sorted by `createdAt` descending. |
| InvestorService.ParseInvestorType | src/services/investorService.ts:24-37 | Exact mapping: an accepted text is the wire label of its result. Any other text fails with "Invalid investor type: " followed by the text. |
| InvestorService.ParseInvestorTypeInverse | src/services/investorService.ts:24-37 | The exact mapping accepts a text for a type if and only if the text is that type's wire label. |
| InvestorService.ExactAgreesWithLenient | src/services/investorService.ts:24-37 | Whatever the exact mapping accepts, the lenient transformer maps to the same type. |
| InvestorService.EnumNameIsNotALabel | src/services/investorService.ts:24-37 | "FamilyOffice" is rejected by the exact mapping, although the transformer accepts it. |
| InvestorService.Create | src/services/investorService.ts:18-53 | An unknown type label fails before any insert. A taken email or id is a P2002 error. Every failure leaves the store unchanged. Success appends exactly one investor with the given name and email and the mapped type. |
| InvestorService.CreatePreservesValid | src/services/investorService.ts:39-45 | Creating an investor keeps unique ids, unique emails and every reference. |
| InvestorService.DuplicateEmailRefused | tests/integration/api.test.ts:153-176 | A second investor with an email already on file is refused, as P2002 when the type is valid, and the store is unchanged. |
| InvestmentService.ListByFund | src/services/investmentService.ts:13-18 | The result is exactly the investments whose fundId is the given fund, each as often as it is stored, newest first. |
| InvestmentService.Create | src/services/investmentService.ts:20-71 | A missing fund gives NotFound "Fund not found". A Closed fund gives BusinessRule "Cannot invest in a closed fund". A missing investor gives NotFound "Investor not found". A date the runtime reads as an Invalid Date makes the insert fail with an uncoded error. Then a taken id gives P2002. The checks run in that order. Any failure leaves the store unchanged. Success appends exactly one investment carrying the given fund, investor and amount and the calendar day the runtime read from the date, and happens exactly when every check passes. |
| InvestmentService.CreatePreservesValid | src/services/investmentService.ts:56-63 | An inserted investment refers to an existing fund and investor and has a fresh id. |
| InvestmentService.ClosedFundRefuses | src/services/investmentService.ts:39-45 | A Closed fund refuses every investment, even one naming a missing investor, and its listing is unchanged. |
| InvestmentService.OpenFundAccepts | src/services/investmentService.ts:39-63 | A Fundraising or Investing fund always accepts an investment from an existing investor with a date the runtime parses. |
| InvestmentService.ListAfterCreate | tests/integration/investmentWorkflow.test.ts:35-53 | After a creation, the fund's listing gains exactly the new investment, and every other fund's listing is unchanged. |
| App.Route | src/routes/funds.ts:35-51 | A schema error is answered as the error handler writes it, before the service runs. Otherwise the answer is the service's: its row rendered with 201 for POST or 200 for PUT, together with the store it left, or its error classified with the store unchanged. The investor route (src/routes/investors.ts:17-24) and the investment route (src/routes/investments.ts:22-34) follow the same pattern. An empty fund id in the investment route is answered 400 "Fund ID required". |
| App.Serve | src/lib/idempotency.ts:9-60 | The cache wrapped around a route is exactly `Idempotency.Step` applied to the route's status and body. The route changes the store only when the request is not replayed. |
| App.ServePreservesValid | src/services/investmentService.ts:29-71 | Every write request, replayed or not, keeps the store's constraints. |
| App.DuplicateRequestRunsOnce | tests/integration/idempotency.test.ts:126-150 | A second request under the same key within the lifetime gets the first status and body, and the write runs only once. |
| App.FailedAttemptIsReplayed | src/lib/idempotency.ts:39-50 | A failing first request records its error response. A retry under that key within 24 hours, even with another body, gets the error replayed and changes nothing. |
| App.ClosedFundRouteRefuses | tests/integration/api.test.ts:246-270 | Through the route, an investment in a Closed fund is answered 400 "Cannot invest in a closed fund", and the store is unchanged. |
| App.IdempotentFundCreation | tests/integration/idempotency.test.ts:7-35 | Creating a fund twice under one key gives identical 201 responses carrying the rendered fund. The store ends with exactly the old funds plus that one fund, built from the body with the first request's id and time. |
| App.CloseThenInvestRefused | tests/integration/investmentWorkflow.test.ts:55-71 | An update can set any fund to Closed. Investing in it afterwards is refused with the store unchanged. |
| App.ImpossibleDateRefused | src/services/investmentService.ts:56-63 | An investment in an open fund from an existing investor, with a date the runtime cannot parse, is answered 500 "Internal server error" and leaves the store unchanged. |
| App.ParsedDateAnswered | src/services/investmentService.ts:56-63 | An accepted investment is answered 201 with the calendar day the runtime read from the date, and that day is what is appended to the store. For "2024-02-30" that day is 2024-03-01. |
| App.UnmountedCreatesTwice | src/app.ts:39-41 | With the routes mounted without the cache, as written, the same fund creation sent twice creates two funds and gives two different answers, whatever key is sent. |

## Findings

| source | as written | input that shows it | evidently intended | confidence | as-written member | corrected member |
|---|---|---|---|---|---|---|
| src/app.ts:39-41 | The routers are mounted without `idempotencyMiddleware`, so the `Idempotency-Key` header is ignored. | The same POST /funds body sent twice under one key creates two funds with different ids. | The write routes sit behind the cache, as tests/integration/idempotency.test.ts:7-35 expects. A repeat answers with the first response and creates nothing. | not executed | App.UnmountedCreatesTwice | App.IdempotentFundCreation |

The rest of the model uses the corrected arrangement: `App.Serve` puts the cache in front of `App.Route`.

## Left out

- Concurrency. The non-atomic lookup-then-insert race in the cache, and the isolation and row locking of the investment transaction, are not modelled. Requests are sequential, and the transaction appears only as "a failure leaves the store unchanged".
- The cache insert is fire-and-forget in the source. Here it is a synchronous insert-if-absent, and its logging is omitted.
- The clock. The source reads it twice per request, once for the expiry test and once for the new record's expiry. The model uses one reading, `now`.
- JSON serialisation of cached bodies (`JSON.stringify` / `JSON.parse`). It is taken to return the same body.
- The `Idempotency-Key` header arriving as several values is not modelled. The key is an optional string.
- E-mail and UUID syntax checks are caller-supplied predicates.
- Prisma-generated ids and timestamps are parameters.
- `Date` handling. `toISOString` rendering of `createdAt` is not modelled, and timestamps stay integers. The calendar arithmetic of `new Date(investment_date)` is the parameter `InvestmentService.DateParser`, not a model of the parser. The model fixes only what is done with its answer: the day it reads is stored and rendered, and an Invalid Date is refused.
- InvestmentService.InvalidDateError: its message is a placeholder, not the storage client's wording. The message is visible only outside production, and the status, 500, does not depend on it.
- The `version` and `updatedAt` columns are not modelled.
- Validation issue details. The model lists the names of the failing fields, not zod's messages or issue codes.
- Validators.Json: JSON numbers are exact reals here, not IEEE doubles. The source parses `target_size_usd` and `amount_usd` to the nearest double and stores `Number.prototype.toString()` of it (src/services/fundService.ts:47,68; src/services/investmentService.ts:60). So the stored and rendered amount can differ from the model's when the literal is not exactly representable. Examples: `0.00499999999999999999` becomes the double nearest 0.005, rendered "0.01" where the model renders "0.00". `12345678901234567890` is stored as 12345678901234567000.
- Amounts.FormatAmount: the amount it rounds is the exact value of the JSON literal, not the double the source would store (see `Validators.Json` above).
- Amounts.FormatAmount: negative amounts are not modelled. Stored amounts have type `Money`, which is non-negative, because every write path requires a strictly positive amount. Rounding is half-up, which is the decimal library's default.
- `uuidParamSchema` and `fundIdParamSchema` are not modelled, because no route uses them.
- GET routes, health checks, the catch-all 404 route, the analytics routes, the seed script, logging, configuration and security middleware are outside this model.
- App.ClosedFundRouteRefuses requires a non-empty fund id. An empty path parameter is answered earlier with 400 "Fund ID required". Express never routes such a request, but the model keeps that branch.
- The schema-level unique constraint on investor emails comes from the storage schema, which is not part of this model. It is modelled as the duplicate-email test describes it.

# Lead intake handler — a Dafny model

This project models the lead-capture endpoint `POST /api/lead` of a small
Next.js application. The endpoint receives a JSON body `{ name, email, phone }`.
It validates the body against a schema. The phone is normalised by deleting
every non-digit character and must then hold at least seven digits. When the
body is valid and a webhook URL is configured, the endpoint forwards the
normalised lead as a JSON POST to that webhook. It then maps the outcome to a
reply `{ ok, error? }` with status 200, 400, 500 or 502.

The handler is a straight chain of guards, so the model is pure: datatypes,
functions and lemmas in four modules.

- `Wrappers` (`wrappers.dfy`): `Option` and `Result`.
- `Text` (`text.dfy`): the JavaScript string operations the handler uses.
  These are the `\d` class, `includes`, `substring(0, n)`, and how a status
  number is rendered in a template literal. `ParseDecimal` is the inverse of
  that rendering.
- `LeadSchema` (`lead_schema.dfy`): the schema. `CheckName`, `CheckEmail` and
  `CheckPhone` are the three field rules. `SchemaIssues` lists every issue in
  key order, as the schema library collects them. `SafeParse` returns the
  validated lead or those issues. `FirstMessage` is the text the handler
  reports.
- `LeadRoute` (`lead_route.dfy`): the handler. `Handle` takes five inputs:
  the body, the configured URL, the email test, the library's wording of type
  failures, and `send`. `send` stands for the outbound HTTP call: it maps an
  outbound request to what came back. `Handle` returns the outbound request it
  made, if any, together with the reply. `ClassifyDownstream` maps the
  webhook's outcome to the reply.

Two points of the code the model keeps as written:

- The schema library checks all three fields and collects one issue per
  failing field; the handler reports the first (app/api/lead/route.ts:19-23).
  `SchemaIssues` keeps that shape, and `FirstFailingFieldWins` states the
  ordering.
- An empty `WEBHOOK_URL` counts as unset (`!webhookUrl`,
  app/api/lead/route.ts:37), as in `IsConfigured`.

## Model

| member | source | states |
|---|---|---|
| `Text.IsDigit` | app/api/lead/route.ts:10 | `\d`: the ASCII digits 0-9; `LeadSchema.NormalizePhoneCounts` and `LeadSchema.NormalizePhoneFixedPoint` state that the transform keeps exactly these |
| `Text.IncludesIff` | app/api/lead/route.ts:83 | the `includes` scan finds the marker text exactly when it occurs at some position of the body |
| `Text.Includes` | app/api/lead/route.ts:83 | `includes`: a left-to-right scan for the marker text; `Text.IncludesIff` states that it finds it exactly when it occurs |
| `Text.Prefix` | app/api/lead/route.ts:93 | `substring(0, n)` gives a prefix of the text whose length is n, or the whole text when it is shorter |
| `Text.ToDecimal` | app/api/lead/route.ts:94 | the status is rendered as a non-empty string of decimal digits without a leading zero |
| `Text.DecimalRoundTrip` | app/api/lead/route.ts:94 | reading the rendered status back as a number gives the status |
| `Text.DecimalInjective` | app/api/lead/route.ts:94 | two different statuses never render the same way |
| `LeadSchema.NormalizePhone` | app/api/lead/route.ts:10 | the normalised phone holds only digits and is no longer than the input |
| `LeadSchema.NormalizePhoneCounts` | app/api/lead/route.ts:10 | the normalised phone holds each digit as many times as the input does, and no other character |
| `LeadSchema.NormalizePhoneConcat` | app/api/lead/route.ts:10 | normalisation works piece by piece, so the digits stay in their original order |
| `LeadSchema.NormalizePhoneFixedPoint` | app/api/lead/route.ts:10 | normalisation leaves a string unchanged exactly when it is all digits |
| `LeadSchema.NormalizePhoneIdempotent` | app/api/lead/route.ts:10 | normalising a second time changes nothing |
| `LeadSchema.CheckName` | app/api/lead/route.ts:6 | name passes exactly when it is a non-empty string, and then it is kept as given; an empty string fails with "Name is required"; anything else is a type failure on name |
| `LeadSchema.CheckEmail` | app/api/lead/route.ts:7 | email passes exactly when it is a string the email test accepts, and then it is kept as given; any other string fails with the email message |
| `LeadSchema.CheckPhone` | app/api/lead/route.ts:8-11 | a phone string passes exactly when its normalised form has at least 7 digits, and the validated phone is that normalised form; any other string fails with the digit-count message |
| `LeadSchema.FormattedPhoneNormalized` | app/api/lead/route.ts:10 | "(555) 123-4567" normalises to "5551234567" |
| `LeadSchema.FormattedPhoneAccepted` | app/api/lead/route.ts:8-11 | "(555) 123-4567" passes the phone rule as "5551234567" |
| `LeadSchema.ShortPhoneRejected` | app/api/lead/route.ts:8-11 | "123" fails with "Phone number must be at least 7 digits", and that issue is raised whatever name and email hold |
| `LeadSchema.SchemaIssues` | app/api/lead/route.ts:5-12 | a body that is not an object raises exactly one issue; for an object, every failing field check puts its issue in the list, every issue comes from a failing check, and the issues follow the key order name, email, phone with at most one per field |
| `LeadSchema.SafeParse` | app/api/lead/route.ts:19 | validation fails exactly when some issue is raised and then returns every issue; on success each field rule passed and the lead holds their values |
| `LeadSchema.Message` | app/api/lead/route.ts:6-11 | the messages of the three rules, word for word, and the library's own wording for type failures; `LeadSchema.FixedMessagesIdentifyIssue`, `LeadSchema.ShortPhoneRejected` and `LeadSchema.EmptyNameReportedFirst` state them |
| `LeadSchema.FixedMessagesIdentifyIssue` | app/api/lead/route.ts:6-11 | the three rule messages are distinct, so the reported text tells which rule failed |
| `LeadSchema.FirstMessage` | app/api/lead/route.ts:22-23 | the reported text is the first issue's message, or "Validation error" when that message is missing or empty; it is never empty |
| `LeadSchema.FirstFailingFieldWins` | app/api/lead/route.ts:5-12 | the first issue is that of the first failing field in the order name, email, phone; no issue is raised exactly when all three pass |
| `LeadSchema.ValidExactly` | app/api/lead/route.ts:5-12 | a body is valid exactly when it is an object with a non-empty name, an email the test accepts and a phone with at least 7 digits; the lead is then (name, email, normalised phone) |
| `LeadSchema.EmptyNameReportedFirst` | app/api/lead/route.ts:22-23 | an empty name with email "bad" and phone "1" is reported as "Name is required" |
| `LeadRoute.IsOkStatus` | app/api/lead/route.ts:78 | `response.ok`: the status is in 200..299; `LeadRoute.ClassifyDownstream` states that the reply is ok exactly then |
| `LeadRoute.IsConfigured` | app/api/lead/route.ts:37 | the URL is set and non-empty; `LeadRoute.MissingUrlRejected` states what happens otherwise |
| `LeadRoute.PayloadOf` | app/api/lead/route.ts:45-49 | the payload holds exactly the validated name, email and phone; `LeadRoute.ValidBodyForwarded` states the request sent |
| `LeadRoute.StatusMessage` | app/api/lead/route.ts:93-94 | the failing-status message; `LeadRoute.FailingStatusReported` and `LeadRoute.FailingStatusReadsBack` state its shape |
| `LeadRoute.ClassifyDownstream` | app/api/lead/route.ts:63-105 | the outcome of the webhook call yields 200 or 502; the reply is ok exactly when the webhook responded with a status in 200..299, and only then has no error |
| `LeadRoute.Handle` | app/api/lead/route.ts:14-113 | the status is always 200, 400, 500 or 502; ok exactly when the status is 200, and exactly when there is no error; a request is sent exactly when the body parses, passes the schema, and the URL is set and non-empty; ok exactly when that request was answered with a status in 200..299 |
| `LeadRoute.StatusMeaning` | app/api/lead/route.ts:14-113 | 400 means an invalid body; 500 means an unparsable body, or a valid one with no URL; 502 means the call was made and did not succeed |
| `LeadRoute.MalformedBodyIsServerError` | app/api/lead/route.ts:16 | a body that is not JSON reaches the catch-all and gets 500 "Server error occurred", with nothing sent |
| `LeadRoute.InvalidBodyRejected` | app/api/lead/route.ts:19-28 | an invalid body gets 400 and the first issue's message, with nothing sent; the reply is the same whatever the URL and the webhook would do |
| `LeadRoute.MissingUrlRejected` | app/api/lead/route.ts:33-42 | a valid body with an unset or empty URL gets 500 "Webhook URL is not configured", with nothing sent, whatever the webhook would do |
| `LeadRoute.ValidBodyForwarded` | app/api/lead/route.ts:45-62 | a valid body is posted to the URL with Content-Type application/json and a payload of exactly the name, the email and the normalised phone; the reply is the classification of what came back |
| `LeadRoute.ConnectionFailureReported` | app/api/lead/route.ts:63-72 | a call that fails to connect gets 502 with "Failed to connect to webhook: " followed by the error's message, or by "Unknown error" when the thrown value is not an Error |
| `LeadRoute.ScenarioNotListeningExactly` | app/api/lead/route.ts:82-91 | the fixed "Make scenario is not listening…" message is given exactly for status 410 with a body containing "There is no scenario listening" |
| `LeadRoute.FailingStatusReported` | app/api/lead/route.ts:93-102 | any other non-ok status gets 502 with "Failed to send to webhook (Status: N)"; that is followed by " - " and the first at most 200 characters of the body, and by nothing when the body is empty or unreadable |
| `LeadRoute.FailingStatusReadsBack` | app/api/lead/route.ts:94 | the digits quoted in that message read back as the webhook's status |
| `LeadRoute.GoneWithoutMarker` | app/api/lead/route.ts:83-94 | a 410 without the marker text is reported like any other failing status |
| `LeadRoute.OverloadedReported` | app/api/lead/route.ts:93-102 | a 503 with body "overloaded" gets 502 and a message containing both "503" and "overloaded" |
| `LeadRoute.EmptyNameAnswered` | app/api/lead/route.ts:19-28 | the handler answers an empty name with a bad email and a short phone with 400 "Name is required", sending nothing |

## Left out

- The `fetch` call, `async`/`await` and the `NextRequest`/`NextResponse` types are network I/O and framework plumbing. The call is the parameter `send`, the reply is the record `Response`, and the outbound body is the record `Payload` rather than its `JSON.stringify` text.
- The email-format regular expression belongs to the schema library, whose source is not part of this model. It is the parameter `isEmail`.
- The schema library's own messages for a missing field, a non-string field or a body that is not an object are not part of this model. They are the parameter `typeMessage`, and such a failure still gives status 400.
- Parsing the request text is not modelled. The body is given as `Malformed` or as the parsed value, which is reduced to what the schema looks at: its three keys, or the fact that it is not an object.
- Reading `process.env.WEBHOOK_URL` is not modelled. The URL is an optional string parameter.
- The `console.log` and `console.error` calls are logging only and are left out. So is any exception one of them might throw: in the model only a malformed body reaches the catch-all.
- `Text.Prefix`: counts characters, not the UTF-16 code units JavaScript counts, so for a body with characters outside the Basic Multilingual Plane the model's 200-character preview can be longer than the source's and never splits a surrogate pair. `LeadSchema.CheckName` likewise counts characters for the non-empty test, which gives the same result.
- The webhook's status is any natural number. Fetch delivers statuses in 200..599 only, so the model allows more inputs than can occur and claims nothing that depends on the range.
- app/layout.tsx is page scaffolding with no logic and is not part of this model.

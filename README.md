# Waitlist signup: a Dafny model

This project models the two pieces of logic of a small waitlist site.

- **The waitlist endpoint** (`POST` and `GET` of `/api/waitlist`). `POST` reads `email` and `consent` from the JSON body. It accepts the email when it matches the regular expression `^\S+@\S+\.\S+$`, and then answers `{ok: true}` with status 200. Otherwise it answers status 400 with `{ok: false, error: "Invalid email"}`. Any exception, such as a body that is not JSON, becomes status 400 with `{ok: false, error: <the exception's message, or "Bad Request">}`. `GET` always answers `{ok: true}`.
- **The form's `submit` handler** (the client page). It clears the error, then checks for an empty email and then for a missing consent. If both checks pass it sets `loading`, posts `{email, consent}`, and sets `success` or an error text from the outcome. It always clears `loading` at the end. The submit button is disabled while `loading` holds.

Modules:

- `EmailPattern` (email_pattern.dfy): the regular expression as a left-to-right automaton (`Scan`, `Matches`). `EmailShaped` characterises it by indices: no whitespace, and an `@` at index `i >= 1` with a `.` at index `j` where `i + 2 <= j <= |s| - 2`. `ScanClassifies` proves by induction what each automaton phase means, so `Matches(s) <==> EmailShaped(s)`. `Composed` and `Decompose` tie both to the pattern's own reading: three non-empty runs of non-whitespace joined by `@` and `.`. Whitespace is ECMAScript's `\s` set, that is, the WhiteSpace and LineTerminator code points.
- `Route` (route.dfy): the endpoint as pure functions from the outcome of reading the body to a response envelope `(status, ok, error)`.
- `WaitlistPage` (waitlist_page.dfy): the form. The pure functions `Begin` (up to the request), `Complete` (after it), `AfterSubmit` and `AfterPress` specify the handler. The class `WaitlistForm` holds the five state fields and updates them in place, and each of its methods is proved equal to those functions.
- `ClientServer` (client_server.dfy): the form's request answered by the endpoint. A press with a non-empty email and consent joins exactly when the endpoint accepts the email. Otherwise the form shows "Failed to join waitlist", not the endpoint's own error text.

The code does not store or deduplicate signups. It does not normalise the email, does not check consent, has no `name` or `useCase` fields and has no 503 path. The persistence step at app/api/waitlist/route.ts:11 is a TODO.

## Model

| member | source | states |
|---|---|---|
| `EmailPattern.Matches` | app/api/waitlist/route.ts:7 | the regex test accepts exactly the strings with no whitespace and an `@` at index ≥ 1 followed, at least two positions later, by a `.` that is not the last character |
| `EmailPattern.ScanClassifies` | app/api/waitlist/route.ts:7 | after reading any prefix, the automaton's phase is exactly how much of `\S+@\S+\.\S+` that prefix covers, and it is Rejected once any whitespace has been read |
| `EmailPattern.Composed` | app/api/waitlist/route.ts:7 | every `local@domain.tld` with three non-empty whitespace-free parts is accepted |
| `EmailPattern.Decompose` | app/api/waitlist/route.ts:7 | every accepted string splits as `local@domain.tld` with three non-empty whitespace-free parts |
| `EmailPattern.AcceptedIsLongEnough` | app/api/waitlist/route.ts:7 | an accepted email has length ≥ 5 and a `.` somewhere after an `@` |
| `EmailPattern.RejectsWithoutAt` | app/api/waitlist/route.ts:7 | a string without `@` is rejected |
| `EmailPattern.RejectsWithoutDotAfterAt` | app/api/waitlist/route.ts:7 | a string with no `.` after any `@` is rejected |
| `EmailPattern.RejectsWhitespace` | app/api/waitlist/route.ts:7 | a string with a whitespace character anywhere is rejected |
| `EmailPattern.AsciiWhitespace` | app/api/waitlist/route.ts:7 | space, tab, CR and LF are whitespace to `\S` |
| `Route.Post` | app/api/waitlist/route.ts:3-19 | the status is 200 or 400; `ok` holds exactly at 200 and exactly when there is no error; a parsed body is accepted exactly when its email is present and email-shaped, and is otherwise answered "Invalid email"; a failed read yields its message, or "Bad Request" if it has none |
| `Route.Get` | app/api/waitlist/route.ts:21-23 | `GET` answers 200 `{ok: true}` with no error and depends on no input |
| `Route.PostIgnoresConsent` | app/api/waitlist/route.ts:5-12 | the answer does not depend on `consent` |
| `Route.MissingEmailRejected` | app/api/waitlist/route.ts:7-8 | a missing or empty email is answered 400 "Invalid email" |
| `Route.EmptyEmailFailsPattern` | app/api/waitlist/route.ts:7 | the empty string also fails the pattern, so the `!email` test changes nothing for strings |
| `Route.AcceptedWithoutConsent` | app/api/waitlist/route.ts:5-12 | a well-formed email with `consent: false` is still answered 200 `{ok: true}` |
| `Route.ScenarioAccepted` | app/api/waitlist/route.ts:7-12 | `{"email": "a@b.co", "consent": true}` is answered 200 `{ok: true}` |
| `Route.ScenarioRejected` | app/api/waitlist/route.ts:7-8 | `{"email": "not-an-email", "consent": true}` is answered 400 "Invalid email" |
| `WaitlistPage.ShownMessage` | app/waitlist/page.tsx:34 | the error shown for an exception is the exception's message when that is non-empty and "Something went wrong." when it is empty, so it is never empty |
| `WaitlistPage.Begin` | app/waitlist/page.tsx:11-30 | a request is sent exactly when the email is non-empty and consent is given, and it carries exactly the current email and consent; sending sets `loading` and leaves the error empty; otherwise `loading` is unchanged and the error is the email message for an empty email (it takes precedence), else the consent message; `success` is never changed |
| `WaitlistPage.Complete` | app/waitlist/page.tsx:25-37 | `loading` ends false; an ok response sets `success` and adds no error; a non-ok response shows "Failed to join waitlist"; a thrown error shows its message, or "Something went wrong." when that is empty; a failure leaves `success` unchanged |
| `WaitlistPage.AfterSubmit` | app/waitlist/page.tsx:11-38 | the whole handler sends the request `Begin` sends; after a sent request the state is `Complete` applied to `Begin`'s state, so `loading` is false and the failure texts are those of `Complete`; when nothing is sent the state is the one `Begin` left |
| `WaitlistPage.AfterPress` | app/waitlist/page.tsx:76 | while `loading` holds, a press changes nothing and sends nothing; otherwise it runs the handler |
| `WaitlistPage.SubmitClearsError` | app/waitlist/page.tsx:13 | the handler's result does not depend on the error shown before it ran |
| `WaitlistPage.EmptyEmailTakesPrecedence` | app/waitlist/page.tsx:15-18 | an empty email sets "Please enter a valid email." whatever the consent, sends nothing and changes nothing else |
| `WaitlistPage.MissingConsentReported` | app/waitlist/page.tsx:19-22 | a non-empty email without consent sets "Please agree to receive updates.", sends nothing and changes nothing else |
| `WaitlistPage.GuardsPassed` | app/waitlist/page.tsx:24-37 | once both checks pass, the request is `{email, consent: true}`, `loading` ends false, an ok response sets `success` with an empty error, any failure leaves `success` unchanged, a non-ok response leaves "Failed to join waitlist" and a thrown error leaves its message or "Something went wrong." |
| `WaitlistPage.NoSecondRequestWhileLoading` | app/waitlist/page.tsx:76 | between sending a request and its outcome the button is disabled, and a press sends nothing |
| `WaitlistPage.PressKeepsIdle` | app/waitlist/page.tsx:35-37 | from an idle form, the form is idle again after any press |
| `WaitlistPage.WaitlistForm.constructor` | app/waitlist/page.tsx:5-9 | the form starts with an empty email, no consent, not loading, no success and no error |
| `WaitlistPage.WaitlistForm.ChangeEmail` | app/waitlist/page.tsx:60 | editing the email changes only `email` |
| `WaitlistPage.WaitlistForm.ChangeConsent` | app/waitlist/page.tsx:67 | ticking the checkbox changes only `consent` |
| `WaitlistPage.WaitlistForm.SubmitDisabled` | app/waitlist/page.tsx:76 | the button is disabled exactly while `loading` holds |
| `WaitlistPage.WaitlistForm.BeginSubmit` | app/waitlist/page.tsx:11-30 | the in-place updates up to the request leave the state and the request that `Begin` specifies |
| `WaitlistPage.WaitlistForm.CompleteSubmit` | app/waitlist/page.tsx:25-37 | the in-place updates of the try, catch and finally blocks leave the state that `Complete` specifies |
| `WaitlistPage.WaitlistForm.Submit` | app/waitlist/page.tsx:11-38 | the whole handler leaves the state and the request that `AfterSubmit` specifies |
| `WaitlistPage.WaitlistForm.Press` | app/waitlist/page.tsx:74-80 | a button press leaves the state and the request that `AfterPress` specifies |
| `ClientServer.Deliver` | app/waitlist/page.tsx:26-30 | the endpoint reads back exactly the email and consent the form sent |
| `ClientServer.Receive` | app/waitlist/page.tsx:31 | the endpoint's 200 is an ok response to the form, and its 400 is not |
| `ClientServer.Exchange` | app/waitlist/page.tsx:26-31 | a press answered by the endpoint does nothing while the button is disabled, leaves the guard's state when a guard fails, and otherwise sends `{email, consent}`, ends idle, and reaches `success` exactly when the form had it or the endpoint accepts the email, showing "Failed to join waitlist" when it does not |
| `ClientServer.JoinsExactlyWhenAccepted` | app/waitlist/page.tsx:26-34 | with a non-empty email and consent, the form reaches `success` exactly when the email is email-shaped; otherwise it shows "Failed to join waitlist"; either way it ends idle |

## Left out

- Persistence, deduplication, email normalisation, consent enforcement, `name`/`useCase` fields, retries and a 503 answer: the code has none of these.
- Reading the request body (`req.json()`), building the response (`NextResponse.json`) and `fetch`: framework and runtime calls. Their results are inputs (`Route.Body`, `WaitlistPage.FetchOutcome`), and exception messages are opaque strings.
- An exception without a message is `ParseFailed(None)` on the endpoint. On the form, `Threw("")` stands for both an empty and an undefined message, since both are falsy to `||`.
- Non-string `email` values (numbers, objects) and how `RegExp.test` would coerce them: the model covers string-or-missing only.
- Network failures and statuses other than 200 and 400 reaching the form are covered only through the abstract `FetchOutcome` input.
- The interleaving of the two halves of `submit` with other events while the request is outstanding: the model gives the halves (`Begin`, `Complete`) and the button press, but does not model the event queue. React's batching of state updates is not modelled either; each setter is an assignment.
- The JSX rendering: the form is hidden once `success` holds, the browser's own `type="email"`/`required` validation, app/layout.tsx and app/page.tsx.
- Strings are sequences of Unicode scalar values, whereas JavaScript strings are UTF-16 code units: acceptance and lengths agree for well-formed text, but a lone surrogate (which `JSON.parse` can produce) has no representation here.
- `e.preventDefault()` (app/waitlist/page.tsx:12), which stops the browser's own form navigation, is not modelled.

# Chat agent callback relay: a Dafny model

This project models the server- and client-side core of a real-estate chat
assistant that hands each user message to an external workflow engine (n8n)
and waits for the engine's answer through a callback endpoint.

- **Dispatch** (`lib/webhook.ts`). `WebhookService.sendMessage` POSTs the
  trimmed message, with the user id and the service's session id, to the
  engine. Each accepted POST is followed by a poll for the answer. Any failure
  inside an attempt, a failed poll included, leads to a fresh submission. There
  are at most three attempts, with back-off waits of 1000 ms and 2000 ms.
- **Polling** (`lib/responsePoller.ts`). `ResponsePoller.pollForResponse`
  GETs the callback endpoint up to `maxAttempts` times. It has a total timeout
  and a cancellation flag. A 5xx or a "no answer yet" means wait and retry.
  Other errors are swallowed, except on the last attempt. A map of the polls
  in flight supports cancelling one session or all of them.
- **Callback endpoint** (`app/api/webhook/response/route.ts`). POST checks
  run in a fixed order:
  - three header guards;
  - a per-IP rate limit;
  - that the body parses;
  - eight field checks.

  A valid result is stored under its session id, and the last write wins. GET
  hands a stored result out exactly once. A sweep drops results stamped more
  than five minutes ago.
- **Ingress guards** (`app/api/webhook/response/middleware.ts`). This file
  covers:
  - client-IP extraction;
  - the content-type, user-agent and content-length checks;
  - the fixed-window rate limiter (100 requests per minute per IP) and its
    cleanup.
- **Upload endpoint** (`app/api/files/upload/route.ts`). Multipart uploads are
  checked for file, session id, MIME type and size, in that order. They are
  stored in a process-wide map under a fresh id. Entries older than one hour
  are swept after each upload.
- **Helpers** (`lib/utils.ts`): `isValidWebhookResponse` and
  `getErrorMessage`.

Each file that changes state step by step becomes a class with the same map
fields and methods. The classes are `RateLimiter`, `ResponseStore`,
`ResponsePoller`, `WebhookService` and `TempFileStore`. Each method is proved
against a pure reference function of the old state and its inputs, and the
properties are proved as lemmas about those functions. The same holds for the
loops: the poll loop, the retry loop and the sweeps are `while` loops proved
equal to recursive or set-comprehension specifications.

Several pieces of the runtime are modelled explicitly:
- JavaScript truthiness, property reads on JSON values, template-literal text,
  `String.prototype.trim`, `split(...)[0]`, `split(...).pop()`, `includes` and
  `parseInt(s, 10)` are written out in `js.dfy` and `text.dfy`.
- A single rule, "the first failing check decides", is stated once in
  `guards.dfy`. Every handler's nested conditionals are proved equal to it.

The clock, the network and randomness are inputs:
- every operation takes the current instant `now` as a parameter;
- the outcome of every fetch is given per attempt;
- fresh ids are parameters.

The model follows the code as written, including these behaviours that may
look unintended:
- GET hands out a stored result whatever its age. Only the five-minute sweep
  removes stale results (`ResponseRoute.StaleResultStillDelivered`).
- A 4xx answer to a poll is not fatal. Its error is swallowed and retried like
  any other thrown error, except on the last attempt
  (`Poller.ClientErrorRetried`).
- A failed poll is retried by dispatch. It is rethrown inside the same `try`
  as a failed POST, so the message is submitted again
  (`Webhook.FailedPollResubmits`).
- A second poll for the same session does not abort the first. It only
  replaces the first poll's map entry (`Poller.SecondPollSupersedes`).
- The timeout is checked only at the top of each attempt. The abort flag is
  checked right after it.

## Model

| member | source | states |
|---|---|---|
| `Guards.FirstFailureSpec` | app/api/webhook/response/route.ts:55-172 | The reference for every guard chain: no rejection iff every check passes; otherwise the rejection of the earliest failing check, with all checks before it passing. |
| `Guards.FirstFailureAt` | app/api/webhook/response/route.ts:55-172 | A failing check whose predecessors all pass decides the outcome. |
| `Guards.AllPass` | app/api/webhook/response/route.ts:55-172 | When every check passes there is no rejection. |
| `Guards.PrefixFailureDecides` | app/api/webhook/response/route.ts:55-100 | A failure among the earlier checks decides, whatever follows. |
| `Guards.AllPassPrefix` | app/api/webhook/response/route.ts:55-100 | When the earlier checks all pass, the later checks alone decide. |
| `Utils.IsValidWebhookResponse` | lib/utils.ts:31-38 | A falsy input is returned itself (so the result is falsy). Otherwise the result is a boolean, and it is truthy iff the input is an object whose `response` is a string and whose `success` is a boolean. |
| `Utils.EmptyResponseIsValid` | lib/utils.ts:35 | Only types are checked: an empty `response` string is still valid. |
| `Utils.GetErrorMessage` | lib/utils.ts:41-45 | A truthy `message` wins. A string is returned as it is. Anything else, including an object with an empty message, gives "Error desconocido". The result is never an empty string unless the input was one. |
| `Utils.ErrorObjectMessage` | lib/utils.ts:41-45 | For an `Error`, the message is its own text, or "Error desconocido" when that text is empty. |
| `Js.Truthy` | app/api/webhook/response/route.ts:105 | `null` and `undefined` are never truthy; every array and object, even an empty one, is. |
| `Js.Get` | app/api/webhook/response/route.ts:105 | A property read yields `undefined` on anything that is not an object, and on an object either `undefined` or one of its own properties. |
| `Text.Contains` | app/api/webhook/response/middleware.ts:70 | `includes` of the empty string is true, and a needle longer than the text is never included. |
| `Text.Lower` | app/api/webhook/response/middleware.ts:85 | `toLowerCase` keeps the length. |
| `Text.LowerSpec` | app/api/webhook/response/middleware.ts:85 | After lower-casing no ASCII capital is left, each capital has become a small letter, and every other character is kept. |
| `Text.FirstField` | app/api/webhook/response/middleware.ts:29 | `split(sep)[0]` is a prefix without the separator, followed in the input by a separator unless it is the whole input. |
| `Text.TrimStart` | app/api/webhook/response/middleware.ts:29 | The result is a suffix of the input that does not start with white space, and everything dropped is white space. |
| `Text.TrimEnd` | app/api/webhook/response/middleware.ts:29 | The result is a prefix of the input that does not end with white space, and everything dropped is white space. |
| `Text.Trim` | app/api/webhook/response/middleware.ts:29 | `trim()` is never longer than its input and has no white space at either end. |
| `Text.ParseInt` | app/api/webhook/response/middleware.ts:97 | `parseInt(s, 10)` gives a number iff, after the leading white space, the text starts with a digit, or with a sign followed by a digit. |
| `Text.ContainsIffOccurs` | app/api/webhook/response/middleware.ts:70 | The scanning `includes` is true iff the needle occurs at some index. |
| `Text.TrimIsInnerSlice` | app/api/webhook/response/middleware.ts:29 | `trim()` yields a contiguous slice of its input with no white space at either end. |
| `Text.LastField` | app/api/files/upload/route.ts:66 | `split(sep).pop()` is the suffix after the last separator. It contains no separator, and the character before it is a separator unless it is the whole string. |
| `Text.ParseIntShow` | app/api/webhook/response/middleware.ts:97 | `parseInt` reads back every decimal rendering of a natural number. |
| `Text.ParseIntShowInt` | app/api/webhook/response/middleware.ts:97 | `parseInt` reads back every signed decimal rendering. |
| `Text.ParseIntNonNumeric` | app/api/webhook/response/middleware.ts:97 | Text that starts with neither white space, a sign nor a digit parses to NaN. |
| `Middleware.GetClientIP` | app/api/webhook/response/middleware.ts:23-38 | The order is: a non-empty `x-forwarded-for` (its first comma-separated element, without commas); else a non-empty `x-real-ip` as is; else the connection IP; else "unknown". |
| `Middleware.ForwardedAddress` | app/api/webhook/response/middleware.ts:28-29 | With a forwarded header, the IP is the trimmed text before its first comma. |
| `Middleware.TrimmedFirstElement` | app/api/webhook/response/middleware.ts:29 | The trimmed first element is a slice of the header that lies before its first comma and has no white space at either end. |
| `Middleware.TrimmedPieces` | app/api/webhook/response/middleware.ts:29 | Cutting at the first comma and then trimming both ends leaves a slice of the header with only white space around it, inside the first element. |
| `Middleware.ValidateContentType` | app/api/webhook/response/middleware.ts:68-71 | True iff a content-type is present and contains "application/json" at some index. |
| `Middleware.ValidateUserAgent` | app/api/webhook/response/middleware.ts:73-91 | True when no user-agent is present. Otherwise false iff its ASCII-lowercased form contains one of the five blocked words. |
| `Middleware.BlockedInAnyCase` | app/api/webhook/response/middleware.ts:85-88 | A blocked word written in any letter case inside the user-agent makes the check fail. |
| `Middleware.ValidateRequestSize` | app/api/webhook/response/middleware.ts:93-103 | An absent or empty content-length passes. A non-numeric one fails (NaN compares false). Any value `parseInt` reads, leading white space, sign, leading zeros and trailing text included, passes iff the number read is at most 10240. |
| `Middleware.DecimalLengthLimit` | app/api/webhook/response/middleware.ts:96-99 | A decimal content-length n passes iff n ≤ 10240. |
| `Middleware.NextBucket` | app/api/webhook/response/middleware.ts:44-56 | An unexpired bucket (`now ≤ resetTime`) is counted up by one. A missing or expired one is replaced by a fresh bucket with count 1 and reset at `now + 60000`. |
| `Middleware.Verdict` | app/api/webhook/response/middleware.ts:58-65 | `remaining` is never negative. Allowed iff count ≤ 100. An allowed verdict has `remaining = 100 - count`, and it is 0 from the 100th call on. The reset time is the bucket's. |
| `Middleware.ReplayOthersUntouched` | app/api/webhook/response/middleware.ts:44-56 | Any number of calls for one IP leave every other IP's bucket as it was. |
| `Middleware.ReplayWithinWindow` | app/api/webhook/response/middleware.ts:47-56 | In one window, the k-th call leaves the bucket at count k, with a reset time fixed by the window's first call. |
| `Middleware.WindowVerdicts` | app/api/webhook/response/middleware.ts:47-65 | In one window, calls 1..100 are allowed with `remaining` 99..0 and calls from 101 on are denied. The reset time is the same for the whole window. |
| `Middleware.WindowReset` | app/api/webhook/response/middleware.ts:47-53 | The first call after the window has passed is allowed with 99 remaining and a new reset time. |
| `Middleware.RateLimiter.constructor` | app/api/webhook/response/middleware.ts:4 | The store starts empty. |
| `Middleware.RateLimiter.CheckRateLimit` | app/api/webhook/response/middleware.ts:40-66 | The IP's bucket becomes `NextBucket`, no other bucket changes, and the verdict is that bucket's. |
| `Middleware.Unexpired` | app/api/webhook/response/middleware.ts:14-21 | The cleanup keeps exactly the buckets whose window has not passed (`now ≤ resetTime`), each unchanged. |
| `Middleware.RateLimiter.Cleanup` | app/api/webhook/response/middleware.ts:14-21 | Removes exactly the buckets with `now > resetTime`. |
| `ResponseRoute.CeilSeconds` | app/api/webhook/response/route.ts:86 | `Math.ceil(ms / 1000)`: the least whole number of seconds covering `ms`, negative values included. |
| `ResponseRoute.HeaderGuard` | app/api/webhook/response/route.ts:55-77 | The header guards in order (content-type 400, user-agent 403, size 413); the first that fails decides. |
| `ResponseRoute.FieldGuard` | app/api/webhook/response/route.ts:105-124 | The required-field checks in order: `sessionId` and `response` must be non-empty strings, `success` a boolean; the first that fails decides the 400. |
| `ResponseRoute.StampGuard` | app/api/webhook/response/route.ts:131-148 | An unparseable timestamp gives "timestamp inválido"; otherwise one more than five minutes old gives "Respuesta demasiado antigua". |
| `ResponseRoute.DataGuard` | app/api/webhook/response/route.ts:150-172 | With a truthy `data`, a truthy `properties`, `suggestions` or `actions` that is not an array gives that list's 400, in that order; a falsy `data` passes. |
| `ResponseRoute.ValidateBody` | app/api/webhook/response/route.ts:105-172 | The eight body checks in order; the first failing one decides the 400. A body that passes is stored as received, under its session id and its effective time. |
| `ResponseRoute.AcceptedBodyShape` | app/api/webhook/response/route.ts:105-124 | A stored body is an object whose `sessionId` is a non-empty string, whose `response` is a string and whose `success` is a boolean. |
| `ResponseRoute.TimestampDefaultsAndFuture` | app/api/webhook/response/route.ts:127-148 | A missing timestamp defaults to the arrival instant, and a timestamp in the future passes the age check. |
| `ResponseRoute.Decide` | app/api/webhook/response/route.ts:55-175 | The whole POST: the rejection is that of the first failing check among headers, rate limit (429 with retry-after), a readable body (500 with the caught error's message) and the body checks. A result is accepted only when all pass, and it is then the one `ValidateBody` builds from the parsed body. |
| `ResponseRoute.Deposit` | app/api/webhook/response/route.ts:175 | An accepted result is set under its session id and overwrites an earlier one. No other session changes, and a rejection changes nothing. |
| `ResponseRoute.DeliveredJson` | app/api/webhook/response/route.ts:244-247 | The GET reply is an object whose keys are exactly the stored body's plus `hasResponse`, carrying every stored property. `hasResponse` is true unless the stored body has its own. |
| `ResponseRoute.Withdraw` | app/api/webhook/response/route.ts:213-247 | No session id: 400, store unchanged. Unknown session: `hasResponse:false`, store unchanged. Known session: the stored result is delivered and that entry alone is removed. |
| `ResponseRoute.SingleDelivery` | app/api/webhook/response/route.ts:226-247 | A stored result is delivered once; an immediate second GET finds nothing. |
| `ResponseRoute.LastWriteWins` | app/api/webhook/response/route.ts:175 | Of two results stored for one session, GET delivers the later. |
| `ResponseRoute.StaleResultStillDelivered` | app/api/webhook/response/route.ts:40-48 | GET applies no age check: a result the sweep would delete is still delivered until the sweep runs. |
| `ResponseRoute.OwnHasResponseOverrides` | app/api/webhook/response/route.ts:244-247 | A stored body carrying `hasResponse:false` is delivered (and removed) with `hasResponse:false`. |
| `ResponseRoute.Recent` | app/api/webhook/response/route.ts:40-48 | The sweep keeps exactly the results stamped no earlier than five minutes ago, each unchanged. |
| `ResponseRoute.ResponseStore.constructor` | app/api/webhook/response/route.ts:37 | The store starts empty. |
| `ResponseRoute.ResponseStore.Post` | app/api/webhook/response/route.ts:50-211 | A header rejection touches neither the limiter nor the store. Otherwise the limiter counts the call, the reply is that of `Decide` with the limiter's verdict, and the store changes by `Deposit`. |
| `ResponseRoute.ResponseStore.Get` | app/api/webhook/response/route.ts:213-260 | The reply and the new store are those of `Withdraw`. |
| `ResponseRoute.ResponseStore.Sweep` | app/api/webhook/response/route.ts:40-48 | Removes exactly the results stamped before `now - 5 min`. |
| `Poller.Merge` | lib/responsePoller.ts:9-13 | Each field the caller sets overrides the default (1000 ms, 30 attempts, 30000 ms); the others keep it. |
| `Poller.AttemptStep` | lib/responsePoller.ts:44-98 | A 5xx means continue. Another non-2xx throws `HTTP <status>: <text>`. A network error throws its message. An ok reply whose body does not parse throws the parse error, and a `null` body throws the TypeError of reading `hasResponse`. An ok object with a falsy `hasResponse` means continue; a truthy one delivers its `response`, `success`, `error` and `data`. |
| `Poller.PollFrom` | lib/responsePoller.ts:33-102 | The poll loop from a given attempt on: a delivered answer always comes with at least one fetch. |
| `Poller.FetchBound` | lib/responsePoller.ts:33-54 | One poll issues at most `maxAttempts` fetches, and none when `maxAttempts` is not positive. |
| `Poller.DeliveredByLastFetch` | lib/responsePoller.ts:72-87 | A delivered answer is that of the last fetch; no earlier fetch delivered, so no fetch follows the first answer. |
| `Poller.FirstAnswerDelivered` | lib/responsePoller.ts:72-87 | When attempt k is the first started attempt whose body has a truthy `hasResponse`, the poll returns that answer after one fetch per attempt up to k, and no fetch follows. |
| `Poller.NoFetchAfterAbort` | lib/responsePoller.ts:39-42 | Once the abort flag is seen at the top of attempt k, no fetch of attempt k or later is issued. |
| `Poller.ExhaustsWhenNeverAnswered` | lib/responsePoller.ts:60-102 | When every attempt meets a 5xx or `hasResponse:false`, the poll makes all its fetches, then fails with "No se recibió respuesta después de N intentos". |
| `Poller.ThrownStepRetriedUnlessLast` | lib/responsePoller.ts:89-98 | An error thrown inside an attempt is swallowed and the loop goes on, except on the last attempt, where the poll fails with it. |
| `Poller.TimeoutCheckedBeforeAbort` | lib/responsePoller.ts:34-42 | An attempt that is both late and cancelled reports the timeout. |
| `Poller.ClientErrorRetried` | lib/responsePoller.ts:65-98 | A 404 on attempt 1 does not end the poll: an answer on attempt 2 is delivered, after two fetches. |
| `Poller.RunPoll` | lib/responsePoller.ts:33-102 | The loop's outcome and fetch count equal the recursive specification `PollFrom`. |
| `Poller.PollHandle.constructor` | lib/responsePoller.ts:26-27 | A new controller is not aborted and records the poll's start. |
| `Poller.PollHandle.Abort` | lib/responsePoller.ts:114 | Sets the abort flag. |
| `Poller.ResponsePoller.constructor` | lib/responsePoller.ts:16-19 | No poll is in flight. |
| `Poller.ResponsePoller.Register` | lib/responsePoller.ts:30 | The session's entry becomes a fresh, unaborted controller and replaces any earlier entry. |
| `Poller.ResponsePoller.Unregister` | lib/responsePoller.ts:104-107 | The session's entry is removed. |
| `Poller.ResponsePoller.PollForResponse` | lib/responsePoller.ts:21-108 | The outcome is `PollFrom` with the merged config, and the session has no entry afterwards. |
| `Poller.ResponsePoller.CancelPolling` | lib/responsePoller.ts:111-120 | True iff the session had an entry. That controller alone is aborted and its entry removed. Otherwise nothing changes. |
| `Poller.ResponsePoller.CancelAllPolling` | lib/responsePoller.ts:123-129 | Every controller in flight is aborted and the map is emptied. |
| `Poller.SecondPollSupersedes` | lib/responsePoller.ts:30-120 | A second poll for a session leaves the first poll's controller unaborted; a later cancel reaches only the second. |
| `Webhook.RequestData` | lib/webhook.ts:17-23 | The request carries the trimmed message and the service's session id. `userId` falls back to "anonymous" when it is absent or empty. |
| `Webhook.PollFailureText` | lib/webhook.ts:61-63 | A failed poll is rethrown as "Error esperando respuesta: " followed by its message, or "Error desconocido" when that is empty. |
| `Webhook.AttemptResult` | lib/webhook.ts:29-64 | One attempt's `try` as a value: the poll's answer, or the message of what the attempt throws. Its properties are stated by `AttemptOutcomes`, the next row. |
| `Webhook.AttemptOutcomes` | lib/webhook.ts:29-64 | A rejected POST throws its message. A non-2xx throws `HTTP <status>: <text>`. An accepted POST yields an answer iff its poll delivers one, and then that answer; a failed poll throws the prefixed poll error. |
| `Webhook.FinalMessage` | lib/webhook.ts:82 | The last error's message, or "Error al conectar con el webhook" when there is none or it is empty. |
| `Webhook.SendFrom` | lib/webhook.ts:28-87 | The retry loop from a given attempt on: whatever it throws is an `ApiError` with status 500 and code "WEBHOOK_ERROR", and it makes at least one POST while attempts remain. |
| `Webhook.Send` | lib/webhook.ts:17-88 | `sendMessage` makes at least one POST, and what it throws is always an `ApiError` with status 500 and code "WEBHOOK_ERROR". |
| `Webhook.ResumeAnswered` | lib/webhook.ts:54-60 | An answer on an attempt ends the loop there: one more POST, no more waits, that answer. |
| `Webhook.ResumeFailed` | lib/webhook.ts:65-76 | A failure on an attempt records its message as the last error, counts one more POST and the back-off wait, and moves on to the next attempt. |
| `Webhook.SubmissionsAndWaits` | lib/webhook.ts:28-76 | From attempt a on, 1..(4 - a) POSTs are made, and the waits between them are `RETRY_DELAY * k` for each failed attempt k but the last. |
| `Webhook.AtMostThreeSubmissions` | lib/webhook.ts:28-76 | One to three POSTs. The waits are 1000 ms, then 2000 ms, and none follows the last POST. |
| `Webhook.FirstAnswerReturned` | lib/webhook.ts:54-60 | The answer is that of the first attempt that got one; every earlier attempt failed, and no POST follows it. |
| `Webhook.AllFailedGivesApiError` | lib/webhook.ts:80-87 | When all three attempts fail, the thrown `ApiError` has status 500, code "WEBHOOK_ERROR" and the third failure's message (or the fallback), after three POSTs. |
| `Webhook.FailedPollResubmits` | lib/webhook.ts:61-66 | An accepted POST whose poll fails is followed by a second POST. |
| `Webhook.WebhookService.constructor` | lib/webhook.ts:9-11 | The service starts with the given fresh session id and the shared poller. |
| `Webhook.WebhookService.Submit` | lib/webhook.ts:29-64 | One attempt's result is `AttemptResult`. The poller's map loses at most the session's entry. |
| `Webhook.WebhookService.SendMessage` | lib/webhook.ts:17-88 | The request is `RequestData`. The result, POST count and waits equal the specification `Send`, and every POST carries the same session id. The poller's map loses at most the session's entry. |
| `Webhook.WebhookService.Retry` | lib/webhook.ts:28-87 | The loop's result, POST count and waits equal the recursive specification `Send`; the poller's map loses at most the session's entry. |
| `Webhook.WebhookService.ResetSession` | lib/webhook.ts:104-111 | The old session's poll is aborted and forgotten before the id is replaced. Every other poll in flight keeps its abort flag. |
| `Webhook.WebhookService.CancelPendingOperations` | lib/webhook.ts:119-121 | The current session's poll is aborted and forgotten; the id stays. Every other poll in flight keeps its abort flag. |
| `Upload.ValidateUpload` | app/api/files/upload/route.ts:30-62 | The four checks in order (file, session id, type, size), the first failing one decides. Passing means a file part of an allowed type, at most 10 MiB, with a session id. |
| `Upload.KindOf` | app/api/files/upload/route.ts:100 | The kind is image only for an image type, and for an accepted type it is audio exactly when the type is in the audio list. |
| `Upload.Extension` | app/api/files/upload/route.ts:66 | The extension is a suffix of the name without a dot, preceded by a dot unless it is the whole name. |
| `Upload.Describe` | app/api/files/upload/route.ts:97-112 | The reply's file carries the fresh id, the url "/api/files/" + id, the file's name, size and MIME type and the session id; its kind is image iff the type is in the image list. |
| `Upload.Respond` | app/api/files/upload/route.ts:22-139 | An unreadable form gives 500 with the error's message. A failing check gives 400 with its text. A form that passes every check is described, by `Describe`, under the fresh id. |
| `Upload.TypeListsDisjoint` | app/api/files/upload/route.ts:15-100 | No type is both image and audio, and the kind is image exactly for the image list. |
| `Upload.SizeLimitInclusive` | app/api/files/upload/route.ts:20-62 | Exactly 10 MiB is accepted; one byte more is refused. |
| `Upload.FileCheckedFirst` | app/api/files/upload/route.ts:30-42 | A missing file is reported before a missing session id. |
| `Upload.TextAsFileRefused` | app/api/files/upload/route.ts:27-54 | A text field sent as `file` has no MIME type and is refused as a disallowed type. |
| `Upload.ExtensionIsLastSegment` | app/api/files/upload/route.ts:66 | The extension is the part after the last dot and has no dot. A name without a dot is its own extension. |
| `Upload.AcceptedReplyEchoes` | app/api/files/upload/route.ts:97-112 | An accepted reply carries the fresh id, the url "/api/files/" + id, and the file's name, size, MIME type and session id. Its kind is image iff the type is in the image list. |
| `Upload.NewEntrySurvivesSweep` | app/api/files/upload/route.ts:85-94 | The entry stored at `now` survives the sweep that follows it. |
| `Upload.Unexpired` | app/api/files/upload/route.ts:89-94 | The sweep keeps exactly the files uploaded no earlier than one hour ago, each unchanged. |
| `Upload.TempFileStore.constructor` | app/api/files/upload/route.ts:85 | The store starts empty. |
| `Upload.TempFileStore.Post` | app/api/files/upload/route.ts:22-139 | The reply is `Respond`. A refused or unreadable request leaves the store unchanged. An accepted one inserts the file under the fresh id, then sweeps. |
| `Upload.TempFileStore.Sweep` | app/api/files/upload/route.ts:89-94 | Removes exactly the entries uploaded strictly before `now - 1 h`. |

## Left out

- User interface, layout and demo pages, the voice widget, and the chat's keyword fallback reply: rendering only.
- Next.js request and response plumbing is not modelled. A request is a record of optional header strings, an already parsed body and (for POST) the parsed timestamp. This leaves out:
  - the security and CORS headers;
  - the rate-limit response headers (their values are the fields of `Throttled`);
  - the OPTIONS, HEAD and health-check handlers;
  - the success reply's `message` and `receivedAt` fields, and the fixed `error` text of the 500 reply (its `details` are modelled);
  - for a `null` body, the 500's `details` are V8's TypeError wording; the JSON parse error's text is an input.
- The clock, timers and `setInterval` are not modelled. Every operation takes the instant `now`, and each sweep is a method a caller runs. The `interval` delay between polls has no observable effect apart from the clock values the probes carry.
- `fetch`, `AbortController` and the 30-second submission timeout are not modelled. The outcome of each POST and GET is an input, and a fired timeout is a failed POST.
- Cancellation while a poll is running (a `cancelPolling` from elsewhere) is not modelled as an interleaving. It appears as the abort flag in the probes of later attempts.
- Date parsing is not modelled. The POST handler is given `new Date(timestamp).getTime()` as a number, or as absent for NaN. ISO formatting of instants is left out, and the outgoing request's timestamp is the instant itself.
- `ResponseRoute.ValidateBody`: the ISO timestamp the handler writes into a body that had none is not added to the stored body. The stored `time` records that instant, so the GET reply lacks that one `timestamp` property.
- `toLowerCase` is ASCII only; Unicode case mapping is not modelled.
- `randomUUID`, `Math.random` session ids, the file bytes and their base64 text (section 4 of RFC 4648) are not modelled. Ids are caller-supplied fresh values, and the reply omits the `base64` field.
- Logging and `logRequest`: no behavioural effect.
- Numbers are unbounded integers. Floating point and NaN appear only where the source depends on them: `parseInt`, date parsing and `Math.ceil`.
- `getActivePollingStats`, `getPollingStats`, `healthCheck` and `getSessionId`: read-only diagnostics. The session id is the `sessionId` field itself.
- Explicitly `undefined` keys in a partial polling config, which override the default with `undefined`: not modelled.
- `Poller.AttemptStep`: the JSON parse error and the `TypeError` of a JSON `null` body are given by their message text only. For a null body the text is the V8 wording.
- A file sent under `sessionId` is echoed as that form entry; its JSON serialization (`{}`) is not modelled.
- File retrieval by id (`app/api/files/[fileId]/route.ts`) is not part of this model. Neither is the rest of `lib/utils.ts` (`formatTime`, `scrollToBottom`, `cn`, `delay`).

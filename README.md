# Blackjack client API layer: session bootstrap and request dispatch

A Dafny model of `src/api/api-calls.ts`, the network layer of a blackjack
game client. The file does three things.

- It keeps a durable client identity under the `localStorage` key `cid` and
  creates it on first use.
- `initializeSessionAPI` bootstraps a server session against a backend that may
  be cold-starting. A single in-flight slot ensures that concurrent callers share
  one operation. That operation makes up to 12 attempts, pausing 5000 ms
  between consecutive attempts.
- `callApiEndpoint` dispatches every request. For POST it merges `clientId` and
  a fresh `idempotencyKey` into the body, and it sends `X-Client-Id` when an
  identity is stored. It classifies the response: success, a 204 empty result,
  or a typed `HttpError`. On success it clears the endpoint's idempotency
  marker `ik_<endpoint>` from `sessionStorage`. It logs every failure except the
  benign "No more split hands." 400.

Several things the code does not produce itself are inputs to the model:
- what `generateUUID()` and `crypto.randomUUID()` return;
- whether `fetch` produced a response and, if so, its status and status text;
- what `response.json()` makes of the body.

Files, one module each:

- `wrappers.dfy` (`Wrappers`): `Option`.
- `json.dfy` (`Json`): JSON values, JavaScript truthiness, property access,
  object spread and decimal printing.
- `identity.dfy` (`Identity`): get-or-create of the `cid` identity, and its
  stability over repeated calls.
- `dispatch.dfy` (`Dispatch`): `callApiEndpoint` as pure functions covering
  request building, response classification and error-log counting; also
  `forceRestart` and the `HttpError` shape.
- `retry.dfy` (`Retry`): the 12-attempt retry loop as a method, proved against
  the recursive function `RetryFrom`, plus the requests each attempt sends.
- `session.dfy` (`Session`): the bootstrap coordinator as a state machine with
  `Request` and `Settle` events, its invariant (at most one unsettled operation,
  and it is the one in the slot), and the deduplication and freshness lemmas.
- `client.dfy` (`ApiCalls`): the class `ApiClient`. Its fields are the module's
  state and the two browser stores. Its methods are the entry points, each
  specified by the functions above.

Points where the code behaves differently from what a reader might expect,
all modelled as the code has them:
- After 12 failures the last attempt's error is rethrown unchanged. It is not
  wrapped in a distinct "bootstrap exhausted" error.
- A non-benign `HttpError` is logged twice: once inside the `try` block (line
  269) and again in the outer `catch` (line 290).
- `response.ok` already covers status 204, so the test `ok || status === 204`
  reduces to `ok`.
- An error response whose body is the JSON literal `null` does not become an
  `HttpError`. Reading `errorData.message` (line 266) throws a `TypeError`
  first. That error is logged once and rethrown.
- On a success status the marker is removed before the body is parsed (lines
  245-253). A success body that is not JSON therefore rejects with the marker
  already cleared.
- In each bootstrap attempt, the `clientId` that `initializeSessionAPI` passes
  is overridden by the one the dispatcher reads from storage (line 226).
  `Session.Inv` shows the two are equal while an operation is in flight.

## Model

| member | source | states |
|---|---|---|
| `Identity.ResolveClientId` | src/api/api-calls.ts:22-35 | the id sent is the one the store now holds; exactly one write, of the generated id, iff `cid` was absent or empty; otherwise the store is unchanged and the stored id is sent; no other key changes |
| `Identity.RepeatedResolutionIsStable` | src/api/api-calls.ts:22-29 | repeated get-or-creates with non-empty generated ids all return the same id, with exactly one write if none was stored before and none otherwise |
| `Identity.StableOnceStored` | src/api/api-calls.ts:22-29 | once an identity is stored, any number of get-or-creates return it and never write |
| `Dispatch.IsPostIffCaseVariant` | src/api/api-calls.ts:221 | `method.toUpperCase() === "POST"` holds exactly for the 4-letter spellings of POST in any mix of letter cases |
| `Dispatch.BuildRequest` | src/api/api-calls.ts:217-240 | `X-Client-Id` is sent iff a non-empty id is stored, with that id; for POST the body is the original object's fields (none for a non-object) with `clientId` (stored id or null) and `idempotencyKey` (the drawn key) overriding; other methods send the body unmodified, or none if falsy |
| `Dispatch.CallApiEndpoint` | src/api/api-calls.ts:206-297 | success iff an ok status (204 included) whose body parses or is 204, giving `{}` for 204 and the parsed body otherwise; marker cleared iff ok status and endpoint is not the bootstrap endpoint; non-ok is an `HttpError` with the status, the status text defaulted to "Ismeretlen hiba", the payload (or the non-JSON message) and the payload's message or the status line; transport failures pass through; no log iff success or the 400 "No more split hands." error |
| `Dispatch.HttpErrorsAreLoggedTwice` | src/api/api-calls.ts:268-294 | a non-benign `HttpError` produces two error log entries, every other failure one |
| `Dispatch.ForceRestart` | src/api/api-calls.ts:184-195 | with no stored id (or an empty one) it fails with "No id." and sends nothing; otherwise it POSTs to /api/force_restart with the stored id in body and header |
| `Retry.InitRequest` | src/api/api-calls.ts:44-48 | each attempt POSTs to /api/initialize_session with the stored id as `clientId` and its own drawn key as `idempotencyKey` |
| `Retry.InitAttempt` | src/api/api-calls.ts:44-48 | an attempt's call sends `InitRequest` and never clears an idempotency marker (the bootstrap endpoint is exempt, line 245) |
| `Retry.AttemptRequestAt` | src/api/api-calls.ts:42-48 | the k-th request of a bootstrap is attempt k's request, carrying attempt k's key |
| `Retry.DistinctKeysMakeDistinctRequests` | src/api/api-calls.ts:221-228 | with a key drawn per dispatcher call, no two attempts of one bootstrap send the same request |
| `Retry.RetryFrom` | src/api/api-calls.ts:39-61 | 1 to 12 attempts, one pause fewer than attempts; the outcome is the last attempt's, unchanged; all earlier attempts failed; a failure surfaces only after all 12 attempts; the exhaustion error is logged exactly when the outcome is a failure |
| `Retry.FirstSuccessIsReturned` | src/api/api-calls.ts:42-48 | the first successful attempt's result is returned after k+1 attempts and k pauses, and no attempt follows it |
| `Retry.ExhaustionSurfacesLastError` | src/api/api-calls.ts:49-55 | if all 12 attempts fail, the 12th attempt's error surfaces unchanged after 12 attempts and exactly 11 pauses, with the exhaustion error logged |
| `Retry.InitializeWithRetries` | src/api/api-calls.ts:38-63 | the loop returns `RetryFrom`'s outcome, attempt count and exhaustion log, having waited 5000 ms per pause; the fallback throw after the loop is unreachable |
| `Session.AtMostOneInFlight` | src/api/api-calls.ts:15-19 | under the invariant, the unsettled operations are exactly the one in the slot, if any |
| `Session.Request` | src/api/api-calls.ts:13-66 | an occupied slot is joined, nothing changes and no identity is resolved (lines 15-19); a vacant slot is claimed at once (line 66, before the first suspension) by a new operation holding and sending the identity resolved at lines 22-37; the slot is occupied afterwards; the invariant is preserved |
| `Session.Settle` | src/api/api-calls.ts:68-70 | settling records the outcome for the operation's handle and vacates the slot whatever the outcome; the invariant is preserved and nothing remains pending |
| `Session.RequestsWhileInFlightJoin` | src/api/api-calls.ts:15-19 | any number of calls during an in-flight operation all join it and change nothing |
| `Session.ConcurrentRequestsShareOneOperation` | src/api/api-calls.ts:13-74 | calls before anything settles share one operation, started by the first call only if the slot was vacant, and all receive its one outcome |
| `Session.RequestAfterSettleStartsFresh` | src/api/api-calls.ts:66-70 | a call after settlement starts a new operation, distinct from the settled one |
| `ApiCalls.ApiClient.constructor` | src/api/api-calls.ts:5 | a fresh page has nothing in flight and keeps the browser's stores |
| `ApiCalls.ApiClient.InitializeSession` | src/api/api-calls.ts:13-74 | the new state and reply are those of `Session.Request`, so the inline get-or-create of lines 22-29 writes `localStorage` as `ResolveClientId` does; `sessionStorage` is untouched; the invariant is kept |
| `ApiCalls.ApiClient.SettleInitialization` | src/api/api-calls.ts:38-70 | the operation's outcome, attempt count, waiting time and exhaustion log are the retry loop's over its attempts' dispatcher outcomes; the requests sent are one `InitRequest` per attempt made, pairwise distinct when the drawn keys are; the new state is `Session.Settle`'s; `sessionStorage` is untouched |
| `ApiCalls.ApiClient.CallApiEndpoint` | src/api/api-calls.ts:206-297 | the call is `Dispatch.CallApiEndpoint` with the stored identity; `ik_<endpoint>` is removed from `sessionStorage` exactly when the call clears the marker, and nothing else changes |
| `ApiCalls.ApiClient.ForceRestart` | src/api/api-calls.ts:184-195 | the result is `Dispatch.ForceRestart`'s with the stored identity; without an id `sessionStorage` is untouched |

## Left out

- Network I/O: the URL built from the base URL (line 211), `credentials: 'omit'`, and `fetch` itself. An exchange is an input: a rejection, or a response's status, status text and parse outcome.
- Promises, `await` and `setTimeout`. Pauses are counted, and time in milliseconds is summed; no real time passes. An operation settling and its `finally` handler emptying the slot are one event, so the microtask gap between them is not modelled. In that gap, a caller can still be handed the already-settled promise.
- Randomness: `generateUUID` and `crypto.randomUUID` are parameters. They are the generated identity and each attempt's idempotency key.
- JSON serialisation and parsing: only the parse outcome and the resulting value are modelled. Numbers are integers (no fractions or NaN), and key order in objects is not kept.
- Console output: the number of the dispatcher's `console.error` entries is modelled (`Call.errorLogs`), and so is the retry loop's exhaustion `console.error` at line 53 (`RetryTrace.exhaustionLogged`). The text of these messages and the `console.info`/`console.warn` lines are left out.
- The 17 pass-through action functions `setBet` … `setRestart` (lines 76-182). Each is one dispatcher call with a fixed endpoint.
- The default argument `method = "GET"` of `callApiEndpoint`: every call in the file passes its method explicitly.
- Storage failures (an unavailable `localStorage`, quota errors) are left out, and so are writes by other code or tabs while an operation is in flight; `Session.Inv` relies on there being none.
- The optional `response.error` field of `HttpError` (line 201): the dispatcher never sets it.
- Dispatch.IsPostIffCaseVariant: `toUpperCase` is modelled on ASCII letters only. JavaScript's full Unicode mapping also turns some non-ASCII letters into S or T (for example U+017F), and those spellings are not modelled.
- Dispatch.CallApiEndpoint: when `payload.message` is a truthy non-string, `new Error(...)` converts it to a string. The model keeps the JSON value itself as the message.
- vite.config.ts: development-server proxy configuration with no behaviour to verify.

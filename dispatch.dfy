/** The generic request dispatcher `callApiEndpoint` (src/api/api-calls.ts:206-297),
    the `HttpError` it throws (lines 197-204) and `forceRestart` (lines 184-195).
    The network exchange is an input: what `fetch` produced and what
    `response.json()` would parse the body as. */
module Dispatch {
  import opened Wrappers
  import opened Json

  const InitEndpoint: string := "/api/initialize_session"
  const ForceRestartEndpoint: string := "/api/force_restart"
  const NoContent: nat := 204
  const BadRequest: nat := 400

  /** Texts the dispatcher puts into errors it builds. */
  const NonJsonMessage: string := "Ismeretlen API válasz formátum (nem JSON)."
  const UnknownStatusText: string := "Ismeretlen hiba"
  const NoMoreSplitHands: string := "No more split hands."
  const NoIdMessage: string := "No id."

  /** The payload synthesised when an error body is not JSON. */
  const NonJsonPayload: Value := Obj(map["message" := Str(NonJsonMessage)])

  // ---------------------------------------------------------------- requests

  /** `String.prototype.toUpperCase` on the ASCII letters. */
  function UpperChar(c: char): char
  {
    if 'a' <= c <= 'z' then (c as int - 32) as char else c
  }

  function Upper(s: string): string
  {
    if s == [] then [] else [UpperChar(s[0])] + Upper(s[1..])
  }

  /** `method.toUpperCase() === "POST"`. */
  predicate IsPost(verb: string)
  {
    Upper(verb) == "POST"
  }

  lemma {:induction false} UpperAt(s: string, i: nat)
    requires i < |s|
    ensures |Upper(s)| == |s| && Upper(s)[i] == UpperChar(s[i])
  {
    if i > 0 {
      UpperAt(s[1..], i - 1);
    } else if |s| > 1 {
      UpperAt(s[1..], 0);
    }
  }

  lemma {:induction false} UpperLength(s: string)
    ensures |Upper(s)| == |s|
  {
    if s != [] {
      UpperLength(s[1..]);
    }
  }

  /** A method is POST exactly when it spells "POST" in any mix of upper- and
      lower-case ASCII letters. */
  lemma IsPostIffCaseVariant(verb: string)
    ensures IsPost(verb) <==>
      |verb| == 4 && forall i :: 0 <= i < 4 ==> verb[i] == "POST"[i] || verb[i] == "post"[i]
  {
    UpperLength(verb);
    if |verb| == 4 {
      forall i | 0 <= i < 4
        ensures Upper(verb)[i] == UpperChar(verb[i])
      {
        UpperAt(verb, i);
      }
      if IsPost(verb) {
        assert forall i :: 0 <= i < 4 ==> UpperChar(verb[i]) == "POST"[i];
      } else {
        assert exists i :: 0 <= i < 4 && Upper(verb)[i] != "POST"[i];
      }
    }
  }

  /** A request as `fetch` is given it: the path, the method, the headers and
      the JSON body (absent when the final body is falsy). */
  datatype HttpRequest = HttpRequest(endpoint: string, verb: string, headers: map<string, string>, body: Option<Value>)

  /** The value `clientId: clientId` puts into a body: the stored identity, or
      `null` when none is stored. */
  function ClientIdValue(stored: Option<string>): Value
  {
    match stored
    case Some(id) => Str(id)
    case None => Null
  }

  /** The fields a POST body starts from: the original body's own fields when it
      is an object (an array spreads into index-keyed fields), none otherwise. */
  function OriginalFields(body: Option<Value>): map<string, Value>
  {
    match body
    case Some(v) => if Truthy(v) then SpreadFields(v) else map[]
    case None => map[]
  }

  /** `finalBody` of lines 219-229: for POST the original fields with `clientId`
      and `idempotencyKey` added last, so that they override same-named fields;
      the body as given for any other method. */
  function FinalBody(verb: string, body: Option<Value>, stored: Option<string>, key: string): Option<Value>
  {
    if IsPost(verb) then
      Some(Obj(OriginalFields(body)["clientId" := ClientIdValue(stored)]["idempotencyKey" := Str(key)]))
    else body
  }

  /** The headers of lines 234-237. */
  function Headers(stored: Option<string>): map<string, string>
  {
    var base := map["Content-Type" := "application/json"];
    if stored.Some? && stored.value != "" then base["X-Client-Id" := stored.value] else base
  }

  /** The request `callApiEndpoint(endpoint, method, body)` sends, given the
      identity stored under `cid` and the key `crypto.randomUUID()` would draw
      (drawn, and used, only for POST). */
  function BuildRequest(endpoint: string, verb: string, body: Option<Value>,
                        stored: Option<string>, key: string): (r: HttpRequest)
    ensures r.endpoint == endpoint && r.verb == verb
    // header rule: X-Client-Id is sent exactly when a non-empty identity is stored
    ensures "Content-Type" in r.headers && r.headers["Content-Type"] == "application/json"
    ensures r.headers.Keys <= {"Content-Type", "X-Client-Id"}
    ensures "X-Client-Id" in r.headers <==> stored.Some? && stored.value != ""
    ensures "X-Client-Id" in r.headers ==> r.headers["X-Client-Id"] == stored.value
    // POST: the original fields, overridden by the identity and a fresh key
    ensures IsPost(verb) ==>
      && r.body.Some? && r.body.value.Obj?
      && r.body.value.fields.Keys == OriginalFields(body).Keys + {"clientId", "idempotencyKey"}
      && Field(r.body.value, "clientId") == Some(ClientIdValue(stored))
      && Field(r.body.value, "idempotencyKey") == Some(Str(key))
      && forall f :: f in OriginalFields(body) && f != "clientId" && f != "idempotencyKey" ==>
           r.body.value.fields[f] == OriginalFields(body)[f]
    // any other method: the body goes out unmodified (and not at all if falsy)
    ensures !IsPost(verb) ==> r.body == if body.Some? && Truthy(body.value) then body else None
  {
    var final := FinalBody(verb, body, stored, key);
    HttpRequest(endpoint, verb, Headers(stored),
            if final.Some? && Truthy(final.value) then final else None)
  }

  // --------------------------------------------------------------- responses

  /** What `response.json()` makes of a body. */
  datatype Parse = NotJson | Json(value: Value)

  /** What `fetch` produced: a rejection (no response at all), or a response
      with its status, status text and body. */
  datatype Exchange =
    | NetworkFailure(cause: string)
    | Received(status: nat, statusText: string, body: Parse)

  /** `response.ok`: a status in the range 200-299 (Fetch standard). */
  predicate IsOk(status: nat)
  {
    200 <= status <= 299
  }

  /** The failures a call can surface. */
  datatype Error =
    | HttpError(message: Value, status: nat, statusText: string, data: Value)  // lines 274-280
    | NetworkError(cause: string)                                             // `fetch` rejected
    | InvalidJson                            // a success body that `response.json()` rejects
    | NullErrorBody                          // TypeError: `errorData.message` of a JSON `null`
    | NoId(text: string)                     // `forceRestart` without a stored identity

  datatype Outcome = Resolved(value: Value) | Rejected(error: Error)

  /** The payload of a non-success response: the parsed body, or the
      synthesised non-JSON message. */
  function ErrorPayload(body: Parse): Value
  {
    match body
    case Json(v) => v
    case NotJson => NonJsonPayload
  }

  /** `response.statusText || "Ismeretlen hiba"`. */
  function EffectiveStatusText(statusText: string): string
  {
    if statusText == "" then UnknownStatusText else statusText
  }

  /** The message built from the status when the payload has none. */
  function StatusMessage(status: nat, statusText: string): string
  {
    "HTTP hiba! Státusz: " + Decimal(status) + " " + statusText + "."
  }

  /** A payload's own message, if it has a truthy one. */
  predicate HasMessage(payload: Value)
  {
    Field(payload, "message").Some? && Truthy(Field(payload, "message").value)
  }

  /** `errorData.message || "HTTP hiba! Státusz: <status> <statusText>."`. */
  function ErrorMessage(payload: Value, status: nat, statusText: string): Value
  {
    if HasMessage(payload) then Field(payload, "message").value else Str(StatusMessage(status, statusText))
  }

  /** The check of line 268, on the status and the payload. */
  predicate IsSplitHandsStatus(status: nat, payload: Value)
  {
    status == BadRequest && Field(payload, "error") == Some(Str(NoMoreSplitHands))
  }

  /** The check of lines 283-287, on the thrown error itself. */
  predicate IsBenignError(e: Error)
  {
    e.HttpError? && e.status == BadRequest && Field(e.data, "error") == Some(Str(NoMoreSplitHands))
  }

  /** How the `try` block of lines 242-281 settles, before the outer `catch`:
      the outcome, whether `ik_<endpoint>` is removed from `sessionStorage`, and
      the number of `console.error` calls made inside the block. */
  datatype Settlement = Settlement(outcome: Outcome, clearsMarker: bool, innerLogs: nat)

  function Classify(endpoint: string, exchange: Exchange): Settlement
  {
    match exchange
    case NetworkFailure(cause) => Settlement(Rejected(NetworkError(cause)), false, 0)
    case Received(status, text, body) =>
      if IsOk(status) || status == NoContent then
        var clears := endpoint != InitEndpoint;
        if status == NoContent then Settlement(Resolved(EmptyObject), clears, 0)
        else if body.Json? then Settlement(Resolved(body.value), clears, 0)
        else Settlement(Rejected(InvalidJson), clears, 0)
      else
        var payload := ErrorPayload(body);
        if payload.Null? then Settlement(Rejected(NullErrorBody), false, 0)
        else
          var statusText := EffectiveStatusText(text);
          var err := HttpError(ErrorMessage(payload, status, statusText), status, statusText, payload);
          Settlement(Rejected(err), false, if IsSplitHandsStatus(status, payload) then 0 else 1)
  }

  /** One call of `callApiEndpoint`: the request sent, how it settles, whether
      it clears the endpoint's idempotency marker, and how many error log
      entries it writes (the inner ones plus the outer `catch`'s). */
  datatype Call = Call(request: HttpRequest, outcome: Outcome, clearsMarker: bool, errorLogs: nat)

  /** The session-storage key of an endpoint's idempotency marker. */
  function MarkerKey(endpoint: string): string
  {
    "ik_" + endpoint
  }

  function CallApiEndpoint(endpoint: string, verb: string, body: Option<Value>,
                           stored: Option<string>, key: string, exchange: Exchange): (c: Call)
    ensures c.request == BuildRequest(endpoint, verb, body, stored, key)
    // success: an ok status (204 is one) whose body parses, or has none to parse
    ensures c.outcome.Resolved? <==>
      exchange.Received? && IsOk(exchange.status) && (exchange.status == NoContent || exchange.body.Json?)
    ensures c.outcome.Resolved? ==>
      c.outcome.value == if exchange.status == NoContent then EmptyObject else exchange.body.value
    // the marker goes on any ok status, even when the body then fails to parse,
    // except for the bootstrap endpoint
    ensures c.clearsMarker <==> exchange.Received? && IsOk(exchange.status) && endpoint != InitEndpoint
    // a non-ok status is an HttpError carrying status, defaulted status text and payload
    ensures exchange.Received? && !IsOk(exchange.status) && !ErrorPayload(exchange.body).Null? ==>
      && c.outcome.Rejected? && c.outcome.error.HttpError?
      && c.outcome.error.status == exchange.status
      && c.outcome.error.statusText == EffectiveStatusText(exchange.statusText)
      && (exchange.statusText == "" ==> c.outcome.error.statusText == UnknownStatusText)
      && (exchange.statusText != "" ==> c.outcome.error.statusText == exchange.statusText)
      && c.outcome.error.data == ErrorPayload(exchange.body)
      && (exchange.body.NotJson? ==> Field(c.outcome.error.data, "message") == Some(Str(NonJsonMessage)))
      // the message is the payload's own when it has one, else the status line
      && Truthy(c.outcome.error.message)
      && (HasMessage(c.outcome.error.data) ==> c.outcome.error.message == c.outcome.error.data.fields["message"])
      && (!HasMessage(c.outcome.error.data) ==>
            c.outcome.error.message == Str(StatusMessage(exchange.status, c.outcome.error.statusText)))
    // reading `.message` of a JSON `null` error body throws a TypeError instead
    ensures exchange.Received? && !IsOk(exchange.status) && ErrorPayload(exchange.body).Null? ==>
      c.outcome == Rejected(NullErrorBody)
    // an ok body that is not JSON rejects, after the marker is already gone
    ensures exchange.Received? && IsOk(exchange.status) && exchange.status != NoContent && exchange.body.NotJson? ==>
      c.outcome == Rejected(InvalidJson)
    // transport failures come back unchanged
    ensures exchange.NetworkFailure? ==> c.outcome == Rejected(NetworkError(exchange.cause))
    // logging is suppressed for the benign split-hands error alone: a 400 whose
    // payload's `error` is "No more split hands."
    ensures c.errorLogs == 0 <==> c.outcome.Resolved? || IsBenignError(c.outcome.error)
    ensures c.outcome.Rejected? && IsBenignError(c.outcome.error) <==>
      exchange.Received? && IsSplitHandsStatus(exchange.status, ErrorPayload(exchange.body))
  {
    var s := Classify(endpoint, exchange);
    var outerLogs := if s.outcome.Rejected? && !IsBenignError(s.outcome.error) then 1 else 0;
    Call(BuildRequest(endpoint, verb, body, stored, key), s.outcome, s.clearsMarker, s.innerLogs + outerLogs)
  }

  /** A non-benign HttpError is logged twice: inside the `try` block and again
      in the outer `catch`; every other failure once. */
  lemma HttpErrorsAreLoggedTwice(endpoint: string, verb: string, body: Option<Value>,
                                 stored: Option<string>, key: string, exchange: Exchange)
    ensures var c := CallApiEndpoint(endpoint, verb, body, stored, key, exchange);
      c.outcome.Rejected? && !IsBenignError(c.outcome.error) ==>
        c.errorLogs == if c.outcome.error.HttpError? then 2 else 1
  {
  }

  /** `forceRestart`: without a stored identity it fails with "No id." and
      sends nothing; otherwise it is a POST to /api/force_restart whose body
      carries the stored identity. */
  datatype Attempted = NotSent(error: Error) | Sent(call: Call)

  function ForceRestart(stored: Option<string>, key: string, exchange: Exchange): (r: Attempted)
    ensures r.NotSent? <==> stored.None? || stored.value == ""
    ensures r.NotSent? ==> r.error == NoId(NoIdMessage)
    ensures r.Sent? ==>
      && r.call.request.endpoint == ForceRestartEndpoint && r.call.request.verb == "POST"
      && r.call.request.body.Some?
      && Field(r.call.request.body.value, "clientId") == Some(Str(stored.value))
      && "X-Client-Id" in r.call.request.headers && r.call.request.headers["X-Client-Id"] == stored.value
  {
    if stored.None? || stored.value == "" then NotSent(NoId(NoIdMessage))
    else
      assert IsPost("POST");
      Sent(CallApiEndpoint(ForceRestartEndpoint, "POST", Some(Obj(map["clientId" := Str(stored.value)])),
                           stored, key, exchange))
  }
}

/** The bootstrap work that `initializeSessionAPI` caches (src/api/api-calls.ts:38-63):
    up to twelve POSTs to /api/initialize_session with a fixed 5000 ms pause
    between a failed attempt and the next. What each attempt meets on the
    network, and the idempotency key it draws, are inputs. */
module Retry {
  import opened Wrappers
  import opened Json
  import opened Dispatch

  const MaxRetries: nat := 12
  const DelayBetweenRetriesMs: nat := 5000

  /** One attempt's share of the outside world: the key `crypto.randomUUID()`
      yields for it and the exchange `fetch` performs. */
  datatype Round = Round(key: string, exchange: Exchange)

  /** The body the coordinator hands the dispatcher (line 47). */
  function InitBody(idToSend: string): Value
  {
    Obj(map["clientId" := Str(idToSend)])
  }

  /** The request one attempt sends, drawing `key` as its idempotency key. */
  function InitRequest(idToSend: string, stored: Option<string>, key: string): (r: HttpRequest)
    ensures r.endpoint == InitEndpoint && r.verb == "POST"
    ensures r.body.Some?
    // the dispatcher's stored identity overrides the `clientId` the coordinator passes
    ensures Field(r.body.value, "clientId") == Some(ClientIdValue(stored))
    // every attempt carries the key drawn for it
    ensures Field(r.body.value, "idempotencyKey") == Some(Str(key))
  {
    assert IsPost("POST");
    BuildRequest(InitEndpoint, "POST", Some(InitBody(idToSend)), stored, key)
  }

  /** The dispatcher call of one attempt (lines 44-48). */
  function InitAttempt(idToSend: string, stored: Option<string>, round: Round): (c: Call)
    ensures c.request == InitRequest(idToSend, stored, round.key)
    // the bootstrap endpoint owns no idempotency marker
    ensures !c.clearsMarker
  {
    CallApiEndpoint(InitEndpoint, "POST", Some(InitBody(idToSend)), stored, round.key, round.exchange)
  }

  /** What each attempt would settle to, attempt by attempt. */
  function AttemptOutcomes(idToSend: string, stored: Option<string>, rounds: seq<Round>): seq<Outcome>
  {
    seq(|rounds|, k requires 0 <= k < |rounds| => InitAttempt(idToSend, stored, rounds[k]).outcome)
  }

  /** The requests of the first `n` attempts, in order. */
  function AttemptRequests(idToSend: string, stored: Option<string>, rounds: seq<Round>, n: nat): (rs: seq<HttpRequest>)
    requires n <= |rounds|
    ensures |rs| == n
  {
    if n == 0 then [] else AttemptRequests(idToSend, stored, rounds, n - 1) + [InitRequest(idToSend, stored, rounds[n - 1].key)]
  }

  /** The `k`-th of the first `n` attempts sends attempt `k`'s request. */
  lemma {:induction false} AttemptRequestAt(idToSend: string, stored: Option<string>, rounds: seq<Round>, n: nat, k: nat)
    requires k < n <= |rounds|
    ensures AttemptRequests(idToSend, stored, rounds, n)[k] == InitRequest(idToSend, stored, rounds[k].key)
    decreases n
  {
    if k < n - 1 {
      AttemptRequestAt(idToSend, stored, rounds, n - 1, k);
    } else if n > 1 {
      AttemptRequestAt(idToSend, stored, rounds, n - 1, 0);
    }
  }

  /** Every round draws a different idempotency key. */
  predicate KeysDistinct(rounds: seq<Round>)
  {
    forall j, k :: 0 <= j < k < |rounds| ==> rounds[j].key != rounds[k].key
  }

  /** No two requests of `rs` are the same. */
  predicate RequestsDistinct(rs: seq<HttpRequest>)
  {
    forall j, k :: 0 <= j < k < |rs| ==> rs[j] != rs[k]
  }

  /** Idempotency keys are drawn afresh per attempt: when every attempt draws
      a different key, no two attempts of one bootstrap send the same request. */
  lemma DistinctKeysMakeDistinctRequests(idToSend: string, stored: Option<string>, rounds: seq<Round>, n: nat)
    requires n <= |rounds|
    ensures KeysDistinct(rounds) ==> RequestsDistinct(AttemptRequests(idToSend, stored, rounds, n))
  {
    forall j, k | 0 <= j < k < n && rounds[j].key != rounds[k].key
      ensures AttemptRequests(idToSend, stored, rounds, n)[j] != AttemptRequests(idToSend, stored, rounds, n)[k]
    {
      AttemptRequestAt(idToSend, stored, rounds, n, j);
      AttemptRequestAt(idToSend, stored, rounds, n, k);
      var a := InitRequest(idToSend, stored, rounds[j].key);
      var b := InitRequest(idToSend, stored, rounds[k].key);
      assert Field(a.body.value, "idempotencyKey") != Field(b.body.value, "idempotencyKey");
    }
  }

  /** How the retry loop ends: the outcome it settles with, how many attempts
      it made, how many pauses it took, and whether it wrote its own
      `console.error` on giving up (line 53). */
  datatype RetryTrace = RetryTrace(outcome: Outcome, attempts: nat, delays: nat, exhaustionLogged: bool)

  /** The loop from attempt `i` on, given every attempt's outcome. */
  function RetryFrom(outcomes: seq<Outcome>, i: nat): (t: RetryTrace)
    requires i < MaxRetries <= |outcomes|
    // at least one and at most twelve attempts, one pause between consecutive ones
    ensures i < t.attempts <= MaxRetries
    ensures t.delays == t.attempts - 1
    // the outcome is the last attempt's, unchanged, and every earlier one failed
    ensures t.outcome == outcomes[t.attempts - 1]
    ensures forall j :: i <= j < t.attempts - 1 ==> outcomes[j].Rejected?
    // a failure surfaces only once all twelve attempts are spent
    ensures t.outcome.Rejected? ==> t.attempts == MaxRetries
    // the loop logs its own error exactly when it gives up
    ensures t.exhaustionLogged <==> t.outcome.Rejected?
    decreases MaxRetries - i
  {
    if outcomes[i].Resolved? || i == MaxRetries - 1 then RetryTrace(outcomes[i], i + 1, i, outcomes[i].Rejected?)
    else RetryFrom(outcomes, i + 1)
  }

  /** The first successful attempt wins, with its result unchanged, and no
      attempt follows it. */
  lemma FirstSuccessIsReturned(outcomes: seq<Outcome>, k: nat)
    requires MaxRetries <= |outcomes| && k < MaxRetries
    requires outcomes[k].Resolved?
    requires forall j :: 0 <= j < k ==> outcomes[j].Rejected?
    ensures RetryFrom(outcomes, 0) == RetryTrace(outcomes[k], k + 1, k, false)
  {
  }

  /** If all twelve attempts fail, the twelfth attempt's error surfaces
      unchanged after exactly eleven pauses, and the loop logs that it gave up. */
  lemma ExhaustionSurfacesLastError(outcomes: seq<Outcome>)
    requires MaxRetries <= |outcomes|
    requires forall j :: 0 <= j < MaxRetries ==> outcomes[j].Rejected?
    ensures RetryFrom(outcomes, 0) == RetryTrace(outcomes[MaxRetries - 1], MaxRetries, MaxRetries - 1, true)
  {
  }

  /** The loop of lines 42-62, with `outcomes[i]` standing for how the
      dispatcher call of attempt `i` settles. Returns the settled outcome, the
      number of attempts made, the total time spent pausing and whether the
      exhaustion error was logged. */
  method InitializeWithRetries(outcomes: seq<Outcome>)
    returns (outcome: Outcome, attempts: nat, waitedMs: nat, loggedExhaustion: bool)
    requires MaxRetries <= |outcomes|
    ensures var t := RetryFrom(outcomes, 0);
      && outcome == t.outcome
      && attempts == t.attempts
      && waitedMs == t.delays * DelayBetweenRetriesMs
      && loggedExhaustion == t.exhaustionLogged
  {
    waitedMs := 0;
    var i := 0;
    while i < MaxRetries
      invariant i < MaxRetries
      invariant waitedMs == i * DelayBetweenRetriesMs
      invariant RetryFrom(outcomes, 0) == RetryFrom(outcomes, i)
    {
      attempts := i + 1;
      if outcomes[i].Resolved? || i == MaxRetries - 1 {
        // success is returned; the last attempt's error is rethrown unchanged
        outcome := outcomes[i];
        loggedExhaustion := outcome.Rejected?;
        return;
      }
      waitedMs := waitedMs + DelayBetweenRetriesMs;
      i := i + 1;
    }
    // the fallback error after the loop (line 62) cannot be reached
    assert false;
  }
}

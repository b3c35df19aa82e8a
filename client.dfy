/** The module-level state of src/api/api-calls.ts and the browser storage it
    uses, as one object: the in-flight slot (`runningInitializations`), the
    durable `localStorage` and the short-lived `sessionStorage`. Its methods
    are the module's entry points, each specified by the functions of
    `Identity`, `Dispatch`, `Retry` and `Session`. */
module ApiCalls {
  import opened Wrappers
  import opened Json
  import opened Identity
  import Dispatch
  import opened Retry
  import opened Session

  class ApiClient {
    var slot: Option<InFlight>
    var nextHandle: Handle
    var localStorage: map<string, string>
    var sessionStorage: map<string, string>
    var settled: map<Handle, Dispatch.Outcome>

    /** The coordinator state these fields hold. */
    function Model(): State
      reads this
    {
      State(slot, nextHandle, localStorage, settled)
    }

    predicate Valid()
      reads this
    {
      Inv(Model())
    }

    /** A fresh page: nothing in flight, whatever the browser has stored. */
    constructor (localStorage: map<string, string>, sessionStorage: map<string, string>)
      ensures Valid()
      ensures Model() == State(None, 0, localStorage, map[])
      ensures this.sessionStorage == sessionStorage
    {
      slot := None;
      nextHandle := 0;
      this.localStorage := localStorage;
      this.sessionStorage := sessionStorage;
      settled := map[];
    }

    /** `initializeSessionAPI` up to its first suspension (lines 13-74): join
        the operation in the slot, or resolve the identity (lines 22-29: read
        `cid`; if it is missing or empty, store `generated`, the value of
        `generateUUID()`, under it) and claim the slot for a new operation. */
    method InitializeSession(generated: string) returns (reply: Reply)
      requires Valid()
      modifies this
      ensures Valid()
      ensures Model() == Request(old(Model()), generated).after
      ensures reply == Request(old(Model()), generated).reply
      ensures sessionStorage == old(sessionStorage)
    {
      if slot.Some? {
        reply := Joined(slot.value.handle);
        return;
      }
      var clientId;
      var stored := StoredClientId(localStorage);
      if stored.None? || stored.value == "" {
        clientId := generated;
        localStorage := localStorage[ClientIdKey := clientId];
      } else {
        clientId := stored.value;
      }
      var handle := nextHandle;
      nextHandle := nextHandle + 1;
      slot := Some(InFlight(handle, clientId));
      reply := Started(handle, clientId);
    }

    /** The operation in the slot runs to the end of its retry loop (lines
        38-63), given what each attempt meets, and the `finally` handler
        (lines 68-70) vacates the slot. Also returns the requests the attempts
        sent. Attempts go to the bootstrap endpoint, which owns no idempotency
        marker, so `sessionStorage` is untouched. */
    method SettleInitialization(rounds: seq<Round>)
      returns (outcome: Dispatch.Outcome, attempts: nat, waitedMs: nat, loggedExhaustion: bool,
               requests: seq<Dispatch.HttpRequest>)
      requires Valid() && slot.Some? && MaxRetries <= |rounds|
      modifies this
      ensures Valid() && slot.None?
      ensures outcome == OperationOutcome(old(Model()), rounds)
      ensures Model() == Settle(old(Model()), outcome)
      ensures var t := RetryFrom(AttemptOutcomes(old(slot).value.clientId, StoredClientId(old(localStorage)), rounds), 0);
        attempts == t.attempts && waitedMs == t.delays * DelayBetweenRetriesMs
        && loggedExhaustion == t.exhaustionLogged
      // one request per attempt made, each carrying the key drawn for it
      ensures requests == AttemptRequests(old(slot).value.clientId, StoredClientId(old(localStorage)), rounds, attempts)
      ensures KeysDistinct(rounds) ==> RequestsDistinct(requests)
      ensures sessionStorage == old(sessionStorage)
    {
      var op := slot.value;
      var stored := StoredClientId(localStorage);
      outcome, attempts, waitedMs, loggedExhaustion := InitializeWithRetries(AttemptOutcomes(op.clientId, stored, rounds));
      requests := AttemptRequests(op.clientId, stored, rounds, attempts);
      DistinctKeysMakeDistinctRequests(op.clientId, stored, rounds, attempts);
      settled := settled[op.handle := outcome];
      slot := None;
    }

    /** `callApiEndpoint` (lines 206-297) with the identity currently stored:
        on an ok status it removes `ik_<endpoint>` from `sessionStorage`
        (except for the bootstrap endpoint) and nothing else changes. */
    method CallApiEndpoint(endpoint: string, verb: string, body: Option<Value>, key: string, exchange: Dispatch.Exchange)
      returns (call: Dispatch.Call)
      modifies this`sessionStorage
      ensures call == Dispatch.CallApiEndpoint(endpoint, verb, body, StoredClientId(localStorage), key, exchange)
      ensures sessionStorage ==
        if call.clearsMarker then old(sessionStorage) - {Dispatch.MarkerKey(endpoint)} else old(sessionStorage)
    {
      call := Dispatch.CallApiEndpoint(endpoint, verb, body, StoredClientId(localStorage), key, exchange);
      if call.clearsMarker {
        sessionStorage := sessionStorage - {Dispatch.MarkerKey(endpoint)};
      }
    }

    /** `forceRestart` (lines 184-195): fail with "No id." before any call
        when no identity is stored, else POST it to /api/force_restart. */
    method ForceRestart(key: string, exchange: Dispatch.Exchange) returns (r: Dispatch.Attempted)
      modifies this`sessionStorage
      ensures r == Dispatch.ForceRestart(StoredClientId(localStorage), key, exchange)
      ensures r.NotSent? ==> sessionStorage == old(sessionStorage)
      ensures r.Sent? ==>
        sessionStorage == if r.call.clearsMarker
                          then old(sessionStorage) - {Dispatch.MarkerKey(Dispatch.ForceRestartEndpoint)}
                          else old(sessionStorage)
    {
      var stored := StoredClientId(localStorage);
      if stored.None? || stored.value == "" {
        return Dispatch.NotSent(Dispatch.NoId(Dispatch.NoIdMessage));
      }
      var call := CallApiEndpoint(Dispatch.ForceRestartEndpoint, "POST",
                                  Some(Obj(map["clientId" := Str(stored.value)])), key, exchange);
      r := Dispatch.Sent(call);
    }
  }
}

/** The session bootstrap coordinator of `initializeSessionAPI`
    (src/api/api-calls.ts:5-8, 13-74) as a state machine. The `Map` used with
    the single key `__sik__` is one optional slot; a request either joins the
    operation in the slot or, with nothing awaited between the check and the
    claim, resolves the identity and claims the slot for a new operation; the
    operation settling vacates the slot. Operations are named by handles, and
    `settled` records the outcome every holder of a handle receives. */
module Session {
  import opened Wrappers
  import opened Identity
  import opened Dispatch
  import opened Retry

  /** Names one bootstrap operation (one promise). */
  type Handle = nat

  /** The operation in the slot and the identity its attempts send. */
  datatype InFlight = InFlight(handle: Handle, clientId: string)

  datatype State = State(
    slot: Option<InFlight>,            // `runningInitializations.get("__sik__")`
    nextHandle: Handle,                // handles 0 .. nextHandle-1 have been started
    localStorage: map<string, string>, // the durable store holding `cid`
    settled: map<Handle, Outcome>)     // how each settled operation ended

  /** At most one operation is unsettled and it is the one in the slot; while
      it runs, the store holds the identity it sends. */
  predicate Inv(s: State)
  {
    && (forall h :: h in s.settled ==> h < s.nextHandle)
    && (forall h: Handle :: h < s.nextHandle ==> h in s.settled || (s.slot.Some? && s.slot.value.handle == h))
    && (s.slot.Some? ==>
          && s.slot.value.handle + 1 == s.nextHandle
          && s.slot.value.handle !in s.settled
          && StoredClientId(s.localStorage) == Some(s.slot.value.clientId))
  }

  /** The operations started and not yet settled. */
  function Pending(s: State): set<Handle>
  {
    set h: Handle | h < s.nextHandle && h !in s.settled
  }

  lemma AtMostOneInFlight(s: State)
    requires Inv(s)
    ensures Pending(s) == if s.slot.Some? then {s.slot.value.handle} else {}
  {
  }

  /** What a caller of `initializeSessionAPI` gets: the operation already in
      the slot, or a new one together with the identity it sends. */
  datatype Reply = Joined(handle: Handle) | Started(handle: Handle, clientId: string)

  datatype Requested = Requested(after: State, reply: Reply)

  /** One call of `initializeSessionAPI` up to its first suspension, with
      `generated` the value `generateUUID()` would return. */
  function Request(s: State, generated: string): (r: Requested)
    // a call always leaves the slot occupied by the operation it was handed
    ensures r.after.slot.Some? && r.after.slot.value.handle == r.reply.handle
    // an occupied slot is joined: the same operation, and nothing at all changes
    ensures s.slot.Some? ==> r.reply == Joined(s.slot.value.handle) && r.after == s
    // a vacant slot is claimed by a brand-new operation
    ensures r.reply.Started? <==> s.slot.None?
    ensures r.reply.Started? ==>
      && r.reply.handle == s.nextHandle && r.after.nextHandle == s.nextHandle + 1
      && r.after.slot.value.clientId == r.reply.clientId
      && r.reply.clientId == ResolveClientId(s.localStorage, generated).clientId
      && r.after.localStorage == ResolveClientId(s.localStorage, generated).store
    // no call settles anything
    ensures r.after.settled == s.settled
    ensures Inv(s) ==> Inv(r.after)
  {
    match s.slot
    case Some(op) => Requested(s, Joined(op.handle))
    case None =>
      var resolved := ResolveClientId(s.localStorage, generated);
      var op := InFlight(s.nextHandle, resolved.clientId);
      Requested(State(Some(op), s.nextHandle + 1, resolved.store, s.settled), Started(op.handle, op.clientId))
  }

  /** The operation in the slot settles with `outcome`; the `finally` handler
      empties the slot whatever the outcome. */
  function Settle(s: State, outcome: Outcome): (r: State)
    requires s.slot.Some?
    ensures r.slot.None?
    ensures r.settled == s.settled[s.slot.value.handle := outcome]
    ensures r.nextHandle == s.nextHandle && r.localStorage == s.localStorage
    ensures Inv(s) ==> Inv(r) && Pending(r) == {}
  {
    State(None, s.nextHandle, s.localStorage, s.settled[s.slot.value.handle := outcome])
  }

  /** How the operation in the slot ends, given what each of its attempts
      meets: the retry loop over the dispatcher calls its attempts make, with
      the identity it resolved and the identity the store holds. */
  function OperationOutcome(s: State, rounds: seq<Round>): Outcome
    requires s.slot.Some? && MaxRetries <= |rounds|
  {
    RetryFrom(AttemptOutcomes(s.slot.value.clientId, StoredClientId(s.localStorage), rounds), 0).outcome
  }

  /** `n` calls of `initializeSessionAPI` made one after another before
      anything settles. */
  function RequestAll(s: State, generated: seq<string>): (r: (State, seq<Reply>))
    ensures |r.1| == |generated|
    decreases |generated|
  {
    if generated == [] then (s, [])
    else
      var first := Request(s, generated[0]);
      var rest := RequestAll(first.after, generated[1..]);
      (rest.0, [first.reply] + rest.1)
  }

  /** While an operation is in flight, any number of calls all join it and
      change nothing. */
  lemma {:induction false} RequestsWhileInFlightJoin(s: State, generated: seq<string>)
    requires s.slot.Some?
    ensures RequestAll(s, generated).0 == s
    ensures forall k :: 0 <= k < |generated| ==> RequestAll(s, generated).1[k] == Joined(s.slot.value.handle)
    decreases |generated|
  {
    if generated != [] {
      RequestsWhileInFlightJoin(s, generated[1..]);
    }
  }

  /** Deduplication: calls issued before anything settles share one operation.
      At most the first starts one (exactly when the slot was vacant), every
      call is handed the same operation, and when it settles every caller
      receives the same outcome. */
  lemma ConcurrentRequestsShareOneOperation(s: State, generated: seq<string>, outcome: Outcome)
    requires Inv(s) && generated != []
    ensures var (after, replies) := RequestAll(s, generated);
      && Inv(after)
      && (replies[0].Started? <==> s.slot.None?)
      && (forall k :: 0 < k < |replies| ==> replies[k].Joined?)
      && (forall k :: 0 <= k < |replies| ==> replies[k].handle == replies[0].handle)
      && after.slot.Some? && after.slot.value.handle == replies[0].handle
      && after.nextHandle == s.nextHandle + (if s.slot.None? then 1 else 0)
      && (forall k :: 0 <= k < |replies| ==>
            replies[k].handle in Settle(after, outcome).settled &&
            Settle(after, outcome).settled[replies[k].handle] == outcome)
  {
    var first := Request(s, generated[0]);
    RequestsWhileInFlightJoin(first.after, generated[1..]);
  }

  /** Freshness: a call made after the operation settled starts a new
      operation rather than returning the settled one. */
  lemma RequestAfterSettleStartsFresh(s: State, outcome: Outcome, generated: string)
    requires Inv(s) && s.slot.Some?
    ensures var r := Request(Settle(s, outcome), generated);
      && r.reply.Started?
      && r.reply.handle != s.slot.value.handle
      && r.reply.handle !in r.after.settled
  {
  }
}

/** The durable client identity kept in `localStorage` under the key `cid`
    (src/api/api-calls.ts:10, 22-29). */
module Identity {
  import opened Wrappers

  /** The `localStorage` key of the client identity. */
  const ClientIdKey: string := "cid"

  /** `localStorage.getItem("cid")`: the stored value, or `None` for `null`. */
  function StoredClientId(store: map<string, string>): Option<string>
  {
    if ClientIdKey in store then Some(store[ClientIdKey]) else None
  }

  /** The identity counts as present only when stored and non-empty
      (`!clientStorageId` is true for both `null` and `""`). */
  predicate HasClientId(store: map<string, string>)
  {
    ClientIdKey in store && store[ClientIdKey] != ""
  }

  /** The outcome of one get-or-create: the identity to send, the store
      afterwards, and whether `localStorage.setItem` was called. */
  datatype Resolution = Resolution(clientId: string, store: map<string, string>, wrote: bool)

  /** Get-or-create of the client identity, with `generated` standing for the
      value `generateUUID()` returns when it is called. */
  function ResolveClientId(store: map<string, string>, generated: string): (r: Resolution)
    // the identity sent is always the one the store now holds
    ensures ClientIdKey in r.store && r.store[ClientIdKey] == r.clientId
    // exactly one write, of the generated value, when the identity was absent or empty
    ensures r.wrote <==> !HasClientId(store)
    ensures r.wrote ==> r.clientId == generated
    // otherwise the store is untouched and the stored value is sent
    ensures !r.wrote ==> r.store == store && r.clientId == store[ClientIdKey]
    // no other key is ever touched
    ensures forall k :: k != ClientIdKey ==> (k in r.store <==> k in store)
    ensures forall k :: k != ClientIdKey && k in store ==> r.store[k] == store[k]
  {
    if HasClientId(store) then Resolution(store[ClientIdKey], store, false)
    else Resolution(generated, store[ClientIdKey := generated], true)
  }

  /** The identities and number of writes of successive get-or-creates, the
      k-th drawing `generated[k]` if it has to create one. */
  datatype Resolutions = Resolutions(clientIds: seq<string>, store: map<string, string>, writes: nat)

  function ResolveEach(store: map<string, string>, generated: seq<string>): (r: Resolutions)
    ensures |r.clientIds| == |generated|
    decreases |generated|
  {
    if generated == [] then Resolutions([], store, 0)
    else
      var first := ResolveClientId(store, generated[0]);
      var rest := ResolveEach(first.store, generated[1..]);
      Resolutions([first.clientId] + rest.clientIds, rest.store,
                  rest.writes + (if first.wrote then 1 else 0))
  }

  /** Identity stability: as long as the generator never yields an empty
      string (a UUID never is), every get-or-create returns the same identity,
      and the store is written at most once, on the first call, exactly when no
      identity was stored before. */
  lemma {:induction false} RepeatedResolutionIsStable(store: map<string, string>, generated: seq<string>)
    requires generated != []
    requires forall k :: 0 <= k < |generated| ==> generated[k] != ""
    ensures var r := ResolveEach(store, generated);
      && r.clientIds[0] == (if HasClientId(store) then store[ClientIdKey] else generated[0])
      && (forall k :: 0 <= k < |r.clientIds| ==> r.clientIds[k] == r.clientIds[0])
      && r.writes == (if HasClientId(store) then 0 else 1)
      && StoredClientId(r.store) == Some(r.clientIds[0])
  {
    var first := ResolveClientId(store, generated[0]);
    assert HasClientId(first.store);
    StableOnceStored(first.store, generated[1..]);
  }

  /** Once an identity is stored, get-or-create never writes and always
      returns it. */
  lemma {:induction false} StableOnceStored(store: map<string, string>, generated: seq<string>)
    requires HasClientId(store)
    ensures var r := ResolveEach(store, generated);
      && (forall k :: 0 <= k < |r.clientIds| ==> r.clientIds[k] == store[ClientIdKey])
      && r.writes == 0 && r.store == store
    decreases |generated|
  {
    if generated != [] {
      StableOnceStored(store, generated[1..]);
    }
  }
}

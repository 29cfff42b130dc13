/** The in-flight registry (async_hardened_client/dedup.py). */
module Dedup {
  import opened Models
  import opened Storage

  datatype Future = Pending | Resolved(response: int) | Failed(error: ErrorKind)

  /** `inflight` maps a key to the number of its shared future. */
  datatype Registry = Registry(
    inflight: map<Key, nat>,
    futures: map<nat, Future>,
    dedupHits: nat,
    uniqueRequests: nat)

  const EMPTY_REGISTRY := Registry(map[], map[], 0, 0)

  /** `existing is not None and not existing.done()`. */
  predicate IsPending(reg: Registry, key: Key) {
    key in reg.inflight && reg.inflight[key] in reg.futures && reg.futures[reg.inflight[key]] == Pending
  }

  /** The registry after `get_or_create(key)`; `id` numbers the future it would create. */
  function GetOrCreate(reg: Registry, key: Key, id: nat): Registry {
    if IsPending(reg, key) then reg.(dedupHits := reg.dedupHits + 1)
    else reg.(inflight := reg.inflight[key := id],
              futures := reg.futures[id := Pending],
              uniqueRequests := reg.uniqueRequests + 1)
  }

  /** `resolve` and `fail`: pop the key, then settle its future unless it is already done. */
  function Settle(reg: Registry, key: Key, outcome: Future): Registry {
    if IsPending(reg, key)
    then reg.(inflight := reg.inflight - {key}, futures := reg.futures[reg.inflight[key] := outcome])
    else reg.(inflight := reg.inflight - {key})
  }
}

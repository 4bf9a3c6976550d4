/** getSessionId: the per-channel session identifier, kept in durable key-value storage
    (src/hooks/useWeniSocket.ts). The storage is a map and the uuid generator a given value. */
module Session {
  import opened Opt

  const StoragePrefix := "weni_session_"

  /** The storage key of a channel's session identifier. */
  function StorageKey(channelUuid: string): (k: string)
    ensures HasPrefix(StoragePrefix, k) && k[|StoragePrefix|..] == channelUuid
  {
    StoragePrefix + channelUuid
  }

  /** The outcome of one lookup: the identifier, the storage afterwards, and whether
      the freshId identifier was consumed. */
  datatype Lookup = Lookup(id: string, storage: map<string, string>, drewFresh: bool)

  /** `config.sessionId || storage[key]`, else `freshId`, which is then stored under the key. */
  function GetSessionId(channelUuid: string, explicit: Option<string>,
                        storage: map<string, string>, freshId: string): (r: Lookup)
    ensures Truthy(explicit) ==> r.id == explicit.value && r.storage == storage && !r.drewFresh
    ensures !Truthy(explicit) && Truthy(Stored(storage, channelUuid)) ==>
              r.id == storage[StorageKey(channelUuid)] && r.storage == storage && !r.drewFresh
    ensures r.drewFresh <==> !Truthy(explicit) && !Truthy(Stored(storage, channelUuid))
    ensures r.drewFresh ==> r.id == freshId && r.storage == storage[StorageKey(channelUuid) := freshId]
  {
    var found := OrElse(explicit, Stored(storage, channelUuid));
    if Truthy(found) then Lookup(found.value, storage, false)
    else Lookup(freshId, storage[StorageKey(channelUuid) := freshId], true)
  }

  /** `localStorage.getItem(key)`. */
  function Stored(storage: map<string, string>, channelUuid: string): Option<string> {
    if StorageKey(channelUuid) in storage then Some(storage[StorageKey(channelUuid)]) else None
  }

  /** Distinct channels never share a storage key. */
  lemma KeysDistinct(a: string, b: string)
    requires a != b
    ensures StorageKey(a) != StorageKey(b)
  {
  }

  /** Without an explicit id, a second lookup returns the first one's identifier and
      leaves the storage alone: the identifier is stable across reconnects. */
  lemma {:induction false} LookupIdempotent(channelUuid: string, storage: map<string, string>,
                                            fresh1: string, fresh2: string)
    requires fresh1 != ""
    ensures var first := GetSessionId(channelUuid, None, storage, fresh1);
            var second := GetSessionId(channelUuid, None, first.storage, fresh2);
            second.id == first.id && second.storage == first.storage && !second.drewFresh
  {
    var first := GetSessionId(channelUuid, None, storage, fresh1);
    assert StorageKey(channelUuid) in first.storage && first.storage[StorageKey(channelUuid)] == first.id;
  }

  /** A lookup changes at most the channel's own key, and never a non-empty stored value. */
  lemma {:induction false} LookupOnlyWritesOwnKey(channelUuid: string, explicit: Option<string>,
                                                  storage: map<string, string>, freshId: string, other: string)
    requires other != StorageKey(channelUuid)
    ensures var r := GetSessionId(channelUuid, explicit, storage, freshId);
            (other in r.storage <==> other in storage) &&
            (other in storage ==> r.storage[other] == storage[other]) &&
            (Truthy(Stored(storage, channelUuid)) ==> r.storage == storage)
  {
  }
}

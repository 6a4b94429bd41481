/** The status cache: `RedisCommandeDao` over a key-value store of strings. */
module Cache {
  import opened Wrappers
  import opened Models
  import opened Errors
  import Text

  const KeyPrefix := "commande:"
  const KeySuffix := ":status"

  /** `getKey`: the cache key of an order's status. */
  function Key(id: CommandeId): string {
    KeyPrefix + Text.IntToString(id) + KeySuffix
  }

  /** The order id a cache key belongs to, if it is a status key. */
  function KeyId(key: string): Option<CommandeId> {
    match Text.Between(KeyPrefix, KeySuffix, key)
    case Some(digits) => Text.ParseInt(digits)
    case None => None
  }

  /** Reading the id back from a key gives the id it was built from. */
  lemma KeyIdOfKey(id: CommandeId)
    ensures KeyId(Key(id)) == Some(id)
  {
    Text.BetweenOfConcat(KeyPrefix, Text.IntToString(id), KeySuffix);
    Text.ParseIntOfIntToString(id);
  }

  /** Distinct orders have distinct cache keys. */
  lemma KeyInjective(a: CommandeId, b: CommandeId)
    ensures Key(a) == Key(b) ==> a == b
  {
    KeyIdOfKey(a);
    KeyIdOfKey(b);
  }

  /** What `client.get(getKey(id))` returns from the store `entries`. */
  function Lookup(entries: map<string, string>, id: CommandeId): Option<string> {
    if Key(id) in entries then Some(entries[Key(id)]) else None
  }

  /** The store after `client.set(getKey(id), status)`. */
  function Stored(entries: map<string, string>, id: CommandeId, status: CommandeStatus): map<string, string> {
    entries[Key(id) := StatusName(status)]
  }

  /** A read after a write of the same id returns the status written, which parses back to it. */
  lemma LookupStored(entries: map<string, string>, id: CommandeId, status: CommandeStatus)
    ensures Lookup(Stored(entries, id, status), id) == Some(StatusName(status))
    ensures ParseStatus(Lookup(Stored(entries, id, status), id).value) == Some(status)
  {
    ParseStatusName(status);
  }

  /** A write for one order leaves every other order's entry as it was. */
  lemma LookupStoredOther(entries: map<string, string>, id: CommandeId, status: CommandeStatus, other: CommandeId)
    requires other != id
    ensures Lookup(Stored(entries, id, status), other) == Lookup(entries, other)
  {
    KeyInjective(id, other);
  }

  class RedisCommandeDao {
    /** The key-value store the client talks to. */
    var entries: map<string, string>

    constructor ()
      ensures entries == map[]
    {
      entries := map[];
    }

    /** `setStatus`: overwrites the order's key with the status string; rethrows a client error. */
    method SetStatus(id: CommandeId, status: CommandeStatus, fault: Option<Fault>) returns (r: Outcome<Fault>)
      modifies this
      ensures fault.Some? ==> r == Fail(fault.value) && unchanged(this)
      ensures fault.None? ==> r == Pass && entries == Stored(old(entries), id, status)
    {
      if fault.Some? {
        return Fail(fault.value);
      }
      var key := Key(id);
      entries := entries[key := StatusName(status)];
      r := Pass;
    }

    /** `getStatus`: the string under the order's key, or none; rethrows a client error. */
    method GetStatus(id: CommandeId, fault: Option<Fault>) returns (r: Result<Option<string>, Fault>)
      ensures fault.Some? ==> r == Failure(fault.value)
      ensures fault.None? && Key(id) in entries ==> r == Success(Some(entries[Key(id)]))
      ensures fault.None? && Key(id) !in entries ==> r == Success(None)
      ensures fault.None? ==> r == Success(Lookup(entries, id))
    {
      if fault.Some? {
        return Failure(fault.value);
      }
      var key := Key(id);
      if key in entries {
        r := Success(Some(entries[key]));
      } else {
        r := Success(None);
      }
    }
  }
}

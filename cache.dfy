/** The in-memory TTL cache (lib/cache.ts): a table from keys to entries that
    carry an absolute expiry instant, with lazy expiry on every read, an
    explicit sweep, and the `withCache` wrapper around a producer. Time is the
    parameter `now`, in milliseconds. */
module Cache {
  import opened Wrappers
  import opened JsBuiltins

  /** One stored value and the last instant at which it is still visible. */
  datatype Entry = Entry(data: Json, expiresAt: int)

  /** `set`'s default time to live, in seconds. */
  const DefaultTtlSeconds: int := 3600

  /** `key` has an entry that readers may still see at `now`. An entry is
      visible up to and including its expiry instant. */
  predicate IsFresh(m: map<string, Entry>, key: string, now: int) {
    key in m && now <= m[key].expiresAt
  }

  /** What `get` returns: the stored data while fresh, `null` otherwise. */
  function Lookup(m: map<string, Entry>, key: string, now: int): Json {
    if IsFresh(m, key, now) then m[key].data else Null
  }

  /** The table after a read of `key` at `now`: an expired entry for `key` is
      removed, and only that one. */
  function AfterRead(m: map<string, Entry>, key: string, now: int): (m': map<string, Entry>)
    ensures key in m' <==> IsFresh(m, key, now)
    ensures forall k :: k in m' ==> k in m && m'[k] == m[k]
    ensures forall k :: k in m && k != key ==> k in m'
  {
    if key in m && now > m[key].expiresAt then m - {key} else m
  }

  /** The table after `set(key, value, ttlSeconds)` at `now`. */
  function Put(m: map<string, Entry>, key: string, value: Json, ttlSeconds: int, now: int): (m': map<string, Entry>)
    ensures key in m' && m'[key] == Entry(value, now + ttlSeconds * 1000)
    ensures forall k :: k != key ==> (k in m' <==> k in m) && (k in m ==> m'[k] == m[k])
  {
    m[key := Entry(value, now + ttlSeconds * 1000)]
  }

  /** The table after a sweep at `now`: exactly the fresh entries, untouched. */
  function Sweep(m: map<string, Entry>, now: int): (m': map<string, Entry>)
    ensures forall k :: k in m' <==> IsFresh(m, k, now)
    ensures forall k :: k in m' ==> k in m && m'[k] == m[k]
  {
    map k | k in m && now <= m[k].expiresAt :: m[k]
  }

  /** A value written with a time to live is read back until its expiry
      instant, and never after. */
  lemma ReadAfterWrite(m: map<string, Entry>, key: string, value: Json, ttlSeconds: int, now: int, later: int)
    ensures Lookup(Put(m, key, value, ttlSeconds, now), key, later)
            == if later <= now + ttlSeconds * 1000 then value else Null
  {
  }

  /** Reading a fresh entry leaves the table as it was, so repeated reads
      within the time to live all return the same value. */
  lemma ReadsOfFreshEntryAreStable(m: map<string, Entry>, key: string, now: int, later: int)
    requires IsFresh(m, key, later) && now <= later
    ensures AfterRead(m, key, now) == m
    ensures Lookup(m, key, now) == Lookup(m, key, later) == m[key].data
  {
  }

  /** Lazy deletion on read never changes what a later read sees, for any
      key. */
  lemma {:induction false} ReadDoesNotChangeLaterReads(m: map<string, Entry>, key: string, now: int, k: string, later: int)
    requires now <= later
    ensures Lookup(AfterRead(m, key, now), k, later) == Lookup(m, k, later)
  {
    if k == key && key in m && now > m[key].expiresAt {
      assert !IsFresh(m, k, later);
    }
  }

  /** The sweep is only memory reclamation: reads at or after the sweep's
      instant see the same values with or without it. */
  lemma {:induction false} SweepDoesNotChangeLaterReads(m: map<string, Entry>, now: int, k: string, later: int)
    requires now <= later
    ensures Lookup(Sweep(m, now), k, later) == Lookup(m, k, later)
  {
    if k in m && now > m[k].expiresAt {
      assert k !in Sweep(m, now);
    }
  }

  /** `has` and `get` agree on every key whose stored data is not `null`;
      a fresh entry that stores `null` is present for `has` while `get`
      answers `null`. */
  lemma HasAgreesWithGet(m: map<string, Entry>, key: string, now: int)
    ensures Lookup(m, key, now) != Null ==> IsFresh(m, key, now)
    ensures key in m && m[key].data != Null ==> (IsFresh(m, key, now) <==> Lookup(m, key, now) != Null)
    ensures IsFresh(m, key, now) && m[key].data == Null ==> Lookup(m, key, now) == Null
  {
  }

  /** `SimpleCache`: the mutable table behind the process-wide `cache`. */
  class SimpleCache {
    var entries: map<string, Entry>

    constructor ()
      ensures entries == map[]
    {
      entries := map[];
    }

    /** `get`: the stored data if present and unexpired, else `null`; an
        expired entry found on the way is deleted. */
    method Get(key: string, now: int) returns (data: Json)
      modifies this
      ensures data == Lookup(old(entries), key, now)
      ensures data != Null ==> IsFresh(old(entries), key, now) && data == old(entries)[key].data
      ensures entries == AfterRead(old(entries), key, now)
    {
      if key !in entries {
        return Null;
      }
      var entry := entries[key];
      if now > entry.expiresAt {
        entries := entries - {key};
        return Null;
      }
      return entry.data;
    }

    /** `set`: (over)writes the entry for `key`, expiring `ttlSeconds`
        seconds after `now`. */
    method Set(key: string, value: Json, now: int, ttlSeconds: int := DefaultTtlSeconds)
      modifies this
      ensures entries == Put(old(entries), key, value, ttlSeconds, now)
      ensures Lookup(entries, key, now + ttlSeconds * 1000) == value
    {
      var expiresAt := now + ttlSeconds * 1000;
      entries := entries[key := Entry(value, expiresAt)];
    }

    /** `has`: whether a fresh entry exists, with the same lazy deletion as
        `get`. */
    method Has(key: string, now: int) returns (present: bool)
      modifies this
      ensures present == IsFresh(old(entries), key, now)
      ensures entries == AfterRead(old(entries), key, now)
    {
      if key !in entries {
        return false;
      }
      if now > entries[key].expiresAt {
        entries := entries - {key};
        return false;
      }
      return true;
    }

    /** `delete`: removes `key` only; deleting twice is deleting once. */
    method Delete(key: string)
      modifies this
      ensures entries == old(entries) - {key}
      ensures key !in entries
    {
      entries := entries - {key};
    }

    /** `clear`: removes every entry. */
    method Clear()
      modifies this
      ensures entries == map[]
    {
      entries := map[];
    }

    /** `cleanup`: collects the keys of the expired entries, then deletes
        them. */
    method Cleanup(now: int)
      modifies this
      ensures entries == Sweep(old(entries), now)
    {
      var pending := entries.Keys;
      var keysToDelete: seq<string> := [];
      while pending != {}
        invariant pending <= entries.Keys
        invariant entries == old(entries)
        invariant forall k :: k in keysToDelete <==> k in entries && k !in pending && now > entries[k].expiresAt
        decreases pending
      {
        var key :| key in pending;
        if now > entries[key].expiresAt {
          keysToDelete := keysToDelete + [key];
        }
        pending := pending - {key};
      }
      var i := 0;
      while i < |keysToDelete|
        invariant 0 <= i <= |keysToDelete|
        invariant forall k :: k in entries <==> k in old(entries) && k !in keysToDelete[..i]
        invariant forall k :: k in entries ==> entries[k] == old(entries)[k]
      {
        assert keysToDelete[..i + 1] == keysToDelete[..i] + [keysToDelete[i]];
        entries := entries - {keysToDelete[i]};
        i := i + 1;
      }
      assert keysToDelete[..i] == keysToDelete;
    }
  }

  /** `withCache(key, fn, ttlSeconds)`: a hit (a fresh, non-`null` value) is
      returned without invoking the producer; otherwise the producer's
      outcome `produce` is used, and only a successful value is stored, with
      its time to live counted from `doneAt`, the instant the producer
      finished. `produced` tells whether the producer was invoked. */
  method WithCache(store: SimpleCache, key: string, produce: Result<Json, string>, now: int, doneAt: int,
                   ttlSeconds: int := DefaultTtlSeconds)
    returns (result: Result<Json, string>, produced: bool)
    modifies store
    ensures produced <==> Lookup(old(store.entries), key, now) == Null
    ensures !produced ==> result == Success(Lookup(old(store.entries), key, now))
                          && store.entries == old(store.entries)
    ensures produced ==> result == produce
    ensures produced && produce.Success? ==>
              store.entries == Put(AfterRead(old(store.entries), key, now), key, produce.value, ttlSeconds, doneAt)
    ensures produced && produce.Failure? ==> store.entries == AfterRead(old(store.entries), key, now)
  {
    var cached := store.Get(key, now);
    if cached != Null {
      return Success(cached), false;
    }
    produced := true;
    if produce.Failure? {
      return produce, produced;
    }
    var data := produce.value;
    store.Set(key, data, doneAt, ttlSeconds);
    return Success(data), produced;
  }
}

/** The in-memory token cache shared by the API services
    (backend/api/api/utils/cache.py): a module-level dictionary from a key to
    an entry stamped with the time it was stored. */
module TokenCache {
  import opened Common

  /** `CACHE_TIMEOUT`: five minutes, in seconds. */
  const CACHE_TIMEOUT: real := 300.0

  /** The two shapes of entry the services store: the Graph `/me` answer
      under the bare token, and a workbook range under `geral_data_<token>`. */
  datatype Entry =
    | UserEntry(userData: map<string, Json>, timestamp: real)
    | DataEntry(data: Sheet, timestamp: real)

  /** An entry younger than the timeout at time `now`. */
  predicate IsFresh(e: Entry, now: real) {
    now - e.timestamp < CACHE_TIMEOUT
  }

  /** The keys `clear_expired_tokens` collects: entries at least the timeout old. */
  function ExpiredKeys(m: map<string, Entry>, now: real): (r: set<string>)
    ensures r <= m.Keys
    ensures forall k :: k in r <==> k in m && !IsFresh(m[k], now)
  {
    set k | k in m && !IsFresh(m[k], now)
  }

  /** The cache without its expired entries. */
  function Sweep(m: map<string, Entry>, now: real): (r: map<string, Entry>)
    ensures forall k :: k in r <==> k in m && IsFresh(m[k], now)
    ensures forall k :: k in r ==> r[k] == m[k]
  {
    map k | k in m && IsFresh(m[k], now) :: m[k]
  }

  /** Sweeping removes exactly the expired keys: the kept and the removed
      entries add up to the old cache. */
  lemma SweepCount(m: map<string, Entry>, now: real)
    ensures |Sweep(m, now)| + |ExpiredKeys(m, now)| == |m|
  {
    var kept := Sweep(m, now).Keys;
    var gone := ExpiredKeys(m, now);
    assert kept + gone == m.Keys;
    assert kept * gone == {};
    assert |kept + gone| == |kept| + |gone| - |kept * gone|;
    assert |Sweep(m, now)| == |kept|;
  }

  /** The sweep is the cache with its expired keys deleted. */
  lemma SweepDeletesExpired(m: map<string, Entry>, now: real)
    ensures Sweep(m, now) == m - ExpiredKeys(m, now)
  {
  }

  /** A second sweep at the same instant finds nothing to remove. */
  lemma SweepIdempotent(m: map<string, Entry>, now: real)
    ensures ExpiredKeys(Sweep(m, now), now) == {}
    ensures Sweep(Sweep(m, now), now) == Sweep(m, now)
  {
  }

  /** Deleting one more of the pending keys. */
  lemma DeleteOneMore(m: map<string, Entry>, expired: set<string>, pending: set<string>, k: string)
    requires k in pending && pending <= expired
    ensures (m - (expired - pending)) - {k} == m - (expired - (pending - {k}))
  {
  }

  class Cache {
    /** `token_cache` */
    var entries: map<string, Entry>

    constructor ()
      ensures entries == map[]
    {
      entries := map[];
    }

    /** `clear_expired_tokens`: deletes every expired entry and returns how
        many it deleted. */
    method ClearExpiredTokens(now: real) returns (removed: nat)
      modifies this
      ensures entries == Sweep(old(entries), now)
      ensures removed == |ExpiredKeys(old(entries), now)|
      ensures removed == |old(entries)| - |entries|
    {
      var expired := ExpiredKeys(entries, now);
      var pending := expired;
      ghost var start := entries;
      while pending != {}
        invariant pending <= expired
        invariant entries == start - (expired - pending)
        decreases pending
      {
        var k :| k in pending;
        DeleteOneMore(start, expired, pending, k);
        entries := entries - {k};
        pending := pending - {k};
      }
      assert expired - {} == expired;
      SweepDeletesExpired(start, now);
      SweepCount(start, now);
      removed := |expired|;
    }
  }
}

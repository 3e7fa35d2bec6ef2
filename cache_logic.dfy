/**
 * The lazy-expiry cache policy: a stored page is used while it is younger than the retention
 * window, and an expired one is removed when it is next read.  `GetCachedData` is the policy as
 * the cache test writes it; the lookup view runs the same steps on its own reads.
 */
module CacheLogic {
  import opened Api
  import opened CacheStore
  import CacheKey

  /** Three days in milliseconds. */
  const CacheRetentionMs: int := 3 * 24 * 60 * 60 * 1000

  /** The four answers of a lookup; `ParseError` is the exception JSON.parse throws on a corrupt slot. */
  datatype CacheRead<P> = Found(data: P) | Miss | Expired | ParseError

  predicate Fresh(timestamp: int, now: int) {
    now - timestamp < CacheRetentionMs
  }

  /** The policy on the storage contents: what a read of `slot` at `now` answers, and the contents after it. */
  function Lookup<P>(items: map<string, Entry<P>>, slot: string, now: int): (r: (CacheRead<P>, map<string, Entry<P>>))
    ensures r.0.Expired? <==> Present(items, slot) && items[slot].Stamped? && !Fresh(items[slot].timestamp, now)
    ensures r.0.Expired? ==> r.1 == items - {slot}
    ensures !r.0.Expired? ==> r.1 == items
    ensures r.0.Found? ==> Present(items, slot) && items[slot].Stamped? && items[slot].data == r.0.data && Fresh(items[slot].timestamp, now)
  {
    if !Present(items, slot) then (Miss, items)
    else if items[slot].Corrupt? then (ParseError, items)
    else if Fresh(items[slot].timestamp, now) then (Found(items[slot].data), items)
    else (Expired, items - {slot})
  }

  /** `getCachedData(key, now)` over the shared store. */
  method GetCachedData<P>(storage: LocalStorage<P>, key: string, now: int) returns (r: CacheRead<P>)
    modifies storage
    ensures (r, storage.items) == Lookup(old(storage.items), CacheKey.CachePrefix + key, now)
  {
    var slot := CacheKey.CachePrefix + key;
    var cached := storage.GetItem(slot);
    if cached.None? {
      return Miss;
    }
    var entry := cached.value;
    if entry.Corrupt? {
      return ParseError;
    }
    var age := now - entry.timestamp;
    if age < CacheRetentionMs {
      r := Found(entry.data);
    } else {
      storage.RemoveItem(slot);
      r := Expired;
    }
  }

  // ---------------------------------------------------------------- properties of the policy

  /** An absent or empty slot is a miss and nothing is removed. */
  lemma AbsentIsMiss<P>(items: map<string, Entry<P>>, slot: string, now: int)
    requires !Present(items, slot)
    ensures Lookup(items, slot, now) == (Miss, items)
  {
  }

  /** A fresh entry is a hit with the stored data, and the store is unchanged. */
  lemma FreshIsHit<P>(items: map<string, Entry<P>>, slot: string, t: int, d: P, now: int)
    requires slot in items && items[slot] == Stamped(t, d)
    ensures Lookup(items, slot, now).0 == Found(d) <==> now - t < CacheRetentionMs
    ensures now - t < CacheRetentionMs ==> Lookup(items, slot, now).1 == items
  {
  }

  /**
   * An expired entry is reported as expired and exactly its slot is removed, so a second read
   * at the same time is a plain miss.
   */
  lemma ExpiredIsEvicted<P>(items: map<string, Entry<P>>, slot: string, t: int, d: P, now: int)
    requires slot in items && items[slot] == Stamped(t, d)
    requires now - t >= CacheRetentionMs
    ensures Lookup(items, slot, now) == (Expired, items - {slot})
    ensures Lookup(Lookup(items, slot, now).1, slot, now) == (Miss, items - {slot})
  {
  }

  /** A corrupt entry makes the read throw, and is left where it is. */
  lemma CorruptIsKept<P>(items: map<string, Entry<P>>, slot: string, now: int)
    requires slot in items && items[slot] == Corrupt
    ensures Lookup(items, slot, now) == (ParseError, items)
  {
  }

  /** A read touches no slot other than its own. */
  lemma LookupTouchesOnlyItsSlot<P>(items: map<string, Entry<P>>, slot: string, now: int, other: string)
    requires other != slot
    ensures var after := Lookup(items, slot, now).1;
      (other in after <==> other in items) && (other in items ==> after[other] == items[other])
  {
  }

  /** Whatever is written with timestamp `t` is read back unchanged until the window closes, and not after. */
  lemma WriteThenRead<P>(items: map<string, Entry<P>>, slot: string, t: int, d: P, now: int)
    ensures var written := items[slot := Stamped(t, d)];
      Lookup(written, slot, now) ==
        if now - t < CacheRetentionMs then (Found(d), written) else (Expired, written - {slot})
  {
  }

  /** The boundaries the cache test checks: one hour before expiry is a hit, one second after is not. */
  lemma RetentionBoundary<P>(items: map<string, Entry<P>>, slot: string, t: int, d: P)
    ensures var written := items[slot := Stamped(t, d)];
      && Lookup(written, slot, t + 1000).0 == Found(d)
      && Lookup(written, slot, t + CacheRetentionMs - 1000 * 60 * 60).0 == Found(d)
      && Lookup(written, slot, t + CacheRetentionMs - 1).0 == Found(d)
      && Lookup(written, slot, t + CacheRetentionMs).0 == Expired
      && Lookup(written, slot, t + CacheRetentionMs + 1000).0 == Expired
  {
  }

  /** The five scenarios of the cache test, run against a fresh mock store. */
  method RunTests(now: int) returns (res1: CacheRead<Row>, res2: CacheRead<Row>, res3: CacheRead<Row>, res4: CacheRead<Row>)
    ensures res1 == Found(map["foo" := Str("bar")])
    ensures res2 == Found(map["foo" := Str("bar")])
    ensures res3 == Expired
    ensures res4 == Miss
  {
    var storage := new LocalStorage<Row>();
    var key := "test_params";
    var data := map["foo" := Str("bar")];
    storage.SetItem(CacheKey.CachePrefix + key, Stamped(now, data));
    res1 := GetCachedData(storage, key, now + 1000);
    var nearExpiry := now + (CacheRetentionMs - 1000 * 60 * 60);
    res2 := GetCachedData(storage, key, nearExpiry);
    var expiredTime := now + CacheRetentionMs + 1000;
    res3 := GetCachedData(storage, key, expiredTime);
    res4 := GetCachedData(storage, key, expiredTime);
  }
}

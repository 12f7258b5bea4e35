/** The server's single-slot price cache (`MemStorage`): one categorised
    price list and the instant it was saved, served only while younger
    than five minutes. The clock is a parameter. */
module Storage {
  import opened Util
  import opened Schema

  /** Five minutes, in milliseconds. */
  const TtlMillis: int := 5 * 60 * 1000

  /** What `getPrices` hands back: the cached data and its save time. */
  datatype CacheEntry = CacheEntry(data: CategorizedPrices, lastUpdated: int)

  /** The three states of the slot at a given instant. */
  datatype SlotState = Empty | Fresh | Expired

  /** The result of `getPrices` at instant `now` for slot contents
      `cache` saved at `lastUpdated`. */
  function Lookup(cache: Option<CategorizedPrices>, lastUpdated: int, now: int): Option<CacheEntry>
  {
    if cache.Some? && now - lastUpdated < TtlMillis then Some(CacheEntry(cache.value, lastUpdated))
    else None
  }

  /** The state of the slot at instant `now`. */
  function StateAt(cache: Option<CategorizedPrices>, lastUpdated: int, now: int): SlotState
  {
    if cache.None? then Empty
    else if now - lastUpdated < TtlMillis then Fresh
    else Expired
  }

  /** The slot is served exactly when it is fresh, and what is served is
      the stored data with its save time, not the read time. */
  lemma LookupServesOnlyFresh(cache: Option<CategorizedPrices>, lastUpdated: int, now: int)
    ensures Lookup(cache, lastUpdated, now).Some? <==> StateAt(cache, lastUpdated, now) == Fresh
    ensures Lookup(cache, lastUpdated, now).Some? ==>
      Lookup(cache, lastUpdated, now) == Some(CacheEntry(cache.value, lastUpdated))
  {
  }

  /** Before any save the slot is empty and nothing is served, at any time. */
  lemma EmptyServesNothing(lastUpdated: int, now: int)
    ensures StateAt(None, lastUpdated, now) == Empty
    ensures Lookup(None, lastUpdated, now) == None
  {
  }

  /** After saving `data` at `savedAt`, every read less than five minutes
      later returns `data` stamped `savedAt`; every read five minutes or
      more later returns nothing. */
  lemma SavedDataLifetime(data: CategorizedPrices, savedAt: int, now: int)
    ensures now - savedAt < TtlMillis ==> Lookup(Some(data), savedAt, now) == Some(CacheEntry(data, savedAt))
    ensures now - savedAt >= TtlMillis ==> Lookup(Some(data), savedAt, now) == None
  {
  }

  /** Time only moves the slot forward: once it is expired it stays
      expired at every later instant, and an empty slot stays empty. */
  lemma ExpiryIsPermanent(cache: Option<CategorizedPrices>, lastUpdated: int, now: int, later: int)
    requires now <= later
    requires StateAt(cache, lastUpdated, now) != Fresh
    ensures StateAt(cache, lastUpdated, later) == StateAt(cache, lastUpdated, now)
    ensures Lookup(cache, lastUpdated, later) == None
  {
  }

  class MemStorage {
    var cache: Option<CategorizedPrices>
    var lastUpdated: int

    /** A new store holds nothing. */
    constructor ()
      ensures cache == None && lastUpdated == 0
      ensures StateAt(cache, lastUpdated, 0) == Empty
    {
      cache := None;
      lastUpdated := 0;
    }

    /** `getPrices` read at instant `now`; it changes nothing. */
    method GetPrices(now: int) returns (r: Option<CacheEntry>)
      ensures r.Some? <==> cache.Some? && now - lastUpdated < TtlMillis
      ensures r.Some? ==> r.value.data == cache.value && r.value.lastUpdated == lastUpdated
      ensures r == Lookup(cache, lastUpdated, now)
    {
      if cache.Some? && now - lastUpdated < TtlMillis {
        r := Some(CacheEntry(cache.value, lastUpdated));
      } else {
        r := None;
      }
    }

    /** `savePrices` at instant `now`: both the data and the timestamp are
        replaced, so the slot is fresh and nothing of an earlier save remains. */
    method SavePrices(data: CategorizedPrices, now: int)
      modifies this
      ensures cache == Some(data) && lastUpdated == now
      ensures StateAt(cache, lastUpdated, now) == Fresh
    {
      cache := Some(data);
      lastUpdated := now;
    }
  }

  /** The slot's life cycle, empty -> fresh -> expired -> fresh, driven
      through the class with an explicit clock. */
  method LifeCycle(first: CategorizedPrices, second: CategorizedPrices)
  {
    var store := new MemStorage();
    var r := store.GetPrices(1000);
    assert r == None;
    store.SavePrices(first, 1000);
    r := store.GetPrices(1000 + TtlMillis - 1);
    assert r == Some(CacheEntry(first, 1000));
    r := store.GetPrices(1000 + TtlMillis);
    assert r == None;
    store.SavePrices(second, 2000 + TtlMillis);
    r := store.GetPrices(2000 + TtlMillis);
    assert r == Some(CacheEntry(second, 2000 + TtlMillis));
  }
}

/**
 * The offline snapshot of app/utils/productsCache.ts: save, load and clear one
 * record in the device's key-value store (React Native's AsyncStorage).
 *
 * Assumptions of the model: the store is a map from keys to already-decoded
 * records, so `JSON.stringify` followed by `JSON.parse` is the identity; a
 * failing storage call changes nothing and its failure is an explicit input,
 * as is the clock reading `Date.now()`.
 */
module ProductsCache {
  import opened Wrappers
  import opened Products

  const ProductsCacheKey := "products_cache"
  const ProductsCacheTimestampKey := "products_cache_timestamp"

  /** The stored record `{data, timestamp}`. */
  datatype CachedProductsData = CachedProductsData(data: ProductsResponse, timestamp: int)

  /** Which removal of `clearProductsCache` throws, if any; a throw skips the removals after it. */
  datatype ClearFault = NoFault | CacheKeyRemovalFails | TimestampKeyRemovalFails

  /**
   * The store, holding only records: the timestamp key is never written or read
   * by these functions (the source keeps a string there), so only whether it is
   * present matters, and its value is left abstract as a record.
   */
  type Storage = map<string, CachedProductsData>

  /** The store after `saveProductsToCache`: only the cache key is written. */
  function Saved(items: Storage, productsData: ProductsResponse, now: int, fails: bool): (r: Storage)
    ensures fails ==> r == items
    ensures !fails ==> ProductsCacheKey in r && r[ProductsCacheKey] == CachedProductsData(productsData, now)
    ensures r.Keys == if fails then items.Keys else items.Keys + {ProductsCacheKey}
    ensures forall k :: k in items && k != ProductsCacheKey ==> r[k] == items[k]
  {
    if fails then items else items[ProductsCacheKey := CachedProductsData(productsData, now)]
  }

  /** What `loadProductsFromCache` resolves to: the record, or null when absent or unreadable. */
  function Loaded(items: Storage, fails: bool): (r: Option<CachedProductsData>)
    ensures r.Some? <==> !fails && ProductsCacheKey in items
    ensures r.Some? ==> r.value == items[ProductsCacheKey]
  {
    if !fails && ProductsCacheKey in items then Some(items[ProductsCacheKey]) else None
  }

  /** The store after `clearProductsCache`: both keys go, unless a removal throws. */
  function Cleared(items: Storage, fault: ClearFault): (r: Storage)
    ensures fault != CacheKeyRemovalFails ==> ProductsCacheKey !in r
    ensures fault == NoFault ==> ProductsCacheTimestampKey !in r
    ensures fault == CacheKeyRemovalFails ==> r == items
    ensures fault == TimestampKeyRemovalFails ==>
              (ProductsCacheTimestampKey in r <==> ProductsCacheTimestampKey in items)
    ensures forall k :: k != ProductsCacheKey && k != ProductsCacheTimestampKey ==> (k in r <==> k in items)
    ensures r.Keys <= items.Keys
    ensures forall k :: k in r ==> r[k] == items[k]
  {
    match fault
    case NoFault => items - {ProductsCacheKey, ProductsCacheTimestampKey}
    case CacheKeyRemovalFails => items
    case TimestampKeyRemovalFails => items - {ProductsCacheKey}
  }

  // ---------------------------------------------------------------------------
  // Laws

  /** A successful save followed by a successful load returns what was saved, stamped with the save time. */
  lemma SaveThenLoad(items: Storage, productsData: ProductsResponse, now: int)
    ensures Loaded(Saved(items, productsData, now, false), false) == Some(CachedProductsData(productsData, now))
  {
  }

  /** After a clear whose first removal succeeded, a load finds nothing. */
  lemma ClearThenLoad(items: Storage, fault: ClearFault, fails: bool)
    requires fault != CacheKeyRemovalFails
    ensures Loaded(Cleared(items, fault), fails) == None
  {
  }

  /** Saving never writes the separate timestamp key. */
  lemma SaveLeavesTimestampKey(items: Storage, productsData: ProductsResponse, now: int, fails: bool)
    ensures var r := Saved(items, productsData, now, fails);
            && (ProductsCacheTimestampKey in r <==> ProductsCacheTimestampKey in items)
            && (ProductsCacheTimestampKey in r ==> r[ProductsCacheTimestampKey] == items[ProductsCacheTimestampKey])
  {
  }

  /** A call the app makes on the cache. */
  datatype CacheCall = Save(productsData: ProductsResponse, now: int, fails: bool) | Clear(fault: ClearFault)

  function Perform(items: Storage, call: CacheCall): Storage {
    match call
    case Save(d, now, fails) => Saved(items, d, now, fails)
    case Clear(fault) => Cleared(items, fault)
  }

  function PerformAll(items: Storage, calls: seq<CacheCall>): Storage
    decreases |calls|
  {
    if calls == [] then items else PerformAll(Perform(items, calls[0]), calls[1..])
  }

  /**
   * The snapshot a reader expects after `calls`, starting from `current`:
   * the last successful save, unless a clear removed it afterwards.
   */
  function LastSnapshot(current: Option<CachedProductsData>, calls: seq<CacheCall>): Option<CachedProductsData>
    decreases |calls|
  {
    if calls == [] then current
    else
      var next := match calls[0]
        case Save(d, now, fails) => if fails then current else Some(CachedProductsData(d, now))
        case Clear(fault) => if fault == CacheKeyRemovalFails then current else None;
      LastSnapshot(next, calls[1..])
  }

  /** Whatever sequence of saves and clears happens, a load returns the last surviving save. */
  lemma {:induction false} LoadSeesLastSave(items: Storage, calls: seq<CacheCall>)
    ensures Loaded(PerformAll(items, calls), false) == LastSnapshot(Loaded(items, false), calls)
    decreases |calls|
  {
    if calls != [] {
      LoadSeesLastSave(Perform(items, calls[0]), calls[1..]);
    }
  }

  // ---------------------------------------------------------------------------
  // The store and the three operations

  /** The device's key-value store, as far as the cache uses it. */
  class KeyValueStore {
    var items: Storage

    constructor (initial: Storage)
      ensures items == initial
    {
      items := initial;
    }

    /** saveProductsToCache; a storage failure is logged and swallowed. */
    method SaveProductsToCache(productsData: ProductsResponse, now: int, storageFails: bool)
      modifies this
      ensures items == Saved(old(items), productsData, now, storageFails)
    {
      var cacheData := CachedProductsData(productsData, now);
      if !storageFails {
        items := items[ProductsCacheKey := cacheData];
      }
    }

    /** loadProductsFromCache; never throws: a read failure gives null. */
    method LoadProductsFromCache(storageFails: bool) returns (r: Option<CachedProductsData>)
      ensures r == Loaded(items, storageFails)
      ensures r.Some? ==> r.value == items[ProductsCacheKey]
    {
      if storageFails {
        return None;
      }
      if ProductsCacheKey in items {
        return Some(items[ProductsCacheKey]);
      }
      return None;
    }

    /** clearProductsCache; a failing removal skips the rest and is swallowed. */
    method ClearProductsCache(fault: ClearFault)
      modifies this
      ensures items == Cleared(old(items), fault)
    {
      if fault == CacheKeyRemovalFails {
        return;
      }
      items := items - {ProductsCacheKey};
      if fault == TimestampKeyRemovalFails {
        return;
      }
      items := items - {ProductsCacheTimestampKey};
    }
  }
}

/** The on-disk cache of order names (bot/cache_manager.py). The cache file
    is the state of an `OrdersCache`; the clock and the outcome of the fetch
    from Airtable are inputs to each call. */
module Cache {
  import opened Wrappers

  /** CACHE_MAX_AGE, in seconds. */
  const MaxAge: real := 24.0 * 3600.0

  /** The cache file's content as `open(..., encoding="utf-8")` and
      `json.load` see it. */
  datatype Document =
    | Unreadable(error: string)                                  // reading raises: not UTF-8, no permission, a directory, ...
    | NotJson                                                    // UTF-8 text that is not JSON: JSONDecodeError
    | NotAnObject                                                // JSON without `.get`: a list, a number, ...
    | Object(updatedAt: Option<real>, orders: Option<seq<string>>) // a JSON object, with or without its keys

  /** The cache file: its modification time and its content. */
  datatype CacheFile = CacheFile(mtime: real, doc: Document)

  const NoGetMessage: string := "AttributeError: object has no attribute 'get'"

  /** `_is_cache_fresh`: the file exists and is younger than 24 hours. */
  predicate IsFresh(file: Option<CacheFile>, now: real)
  {
    file.Some? && now - file.value.mtime < MaxAge
  }

  /** `_load_from_cache`: the stored list. A missing file, a file that is not
      JSON and an object without "orders" give the empty list. A file whose
      reading raises (UnicodeDecodeError or an OSError other than
      FileNotFoundError) and a JSON document that is not an object, on which
      `data.get` raises, fail: the loader does not catch those exceptions. */
  function Load(file: Option<CacheFile>): Result<seq<string>>
  {
    match file
    case None => Ok([])
    case Some(f) =>
      match f.doc
      case Unreadable(error) => Err(error)
      case NotJson => Ok([])
      case NotAnObject => Err(NoGetMessage)
      case Object(_, orders) => if orders.Some? then Ok(orders.value) else Ok([])
  }

  /** The file `_fetch_and_cache` writes at time `now`. */
  function Written(now: real, orders: seq<string>): CacheFile
  {
    CacheFile(now, Object(Some(now), Some(orders)))
  }

  /** The result of a call together with the cache file it leaves behind. */
  datatype Outcome = Outcome(result: Result<seq<string>>, file: Option<CacheFile>)

  /** `_fetch_and_cache`: on a successful fetch the list is written and
      returned, otherwise the existing file, if any, is loaded. */
  function FetchAndCache(file: Option<CacheFile>, now: real, fetched: Result<seq<string>>): Outcome
  {
    match fetched
    case Ok(orders) => Outcome(Ok(orders), Some(Written(now, orders)))
    case Err(_) => Outcome(if file.Some? then Load(file) else Ok([]), file)
  }

  /** `get_orders`. */
  function GetOrders(file: Option<CacheFile>, now: real, fetched: Result<seq<string>>): Outcome
  {
    if IsFresh(file, now) then Outcome(Load(file), file) else FetchAndCache(file, now, fetched)
  }

  class OrdersCache {
    /** The cache file, `None` when it does not exist. */
    var file: Option<CacheFile>

    constructor (initial: Option<CacheFile>)
      ensures file == initial
    {
      file := initial;
    }

    method IsCacheFresh(now: real) returns (young: bool)
      ensures young <==> file.Some? && now - file.value.mtime < MaxAge
    {
      if file.None? {
        return false;
      }
      var age := now - file.value.mtime;
      young := age < MaxAge;
    }

    method LoadFromCache() returns (orders: Result<seq<string>>)
      ensures orders == Load(file)
    {
      if file.None? {
        return Ok([]);
      }
      match file.value.doc {
        case Unreadable(error) => orders := Err(error);
        case NotJson => orders := Ok([]);
        case NotAnObject => orders := Err(NoGetMessage);
        case Object(_, stored) => orders := if stored.Some? then Ok(stored.value) else Ok([]);
      }
    }

    /** `fetched` is what `AirtableClient.get_order_names` returned or raised. */
    method FetchAndCacheOrders(now: real, fetched: Result<seq<string>>) returns (orders: Result<seq<string>>)
      modifies this
      ensures orders == FetchAndCache(old(file), now, fetched).result
      ensures file == FetchAndCache(old(file), now, fetched).file
    {
      if fetched.Ok? {
        file := Some(Written(now, fetched.value));
        return fetched;
      }
      if file.Some? {
        orders := LoadFromCache();
      } else {
        orders := Ok([]);
      }
    }

    method GetOrdersNow(now: real, fetched: Result<seq<string>>) returns (orders: Result<seq<string>>)
      modifies this
      ensures orders == GetOrders(old(file), now, fetched).result
      ensures file == GetOrders(old(file), now, fetched).file
    {
      var young := IsCacheFresh(now);
      if young {
        orders := LoadFromCache();
      } else {
        orders := FetchAndCacheOrders(now, fetched);
      }
    }
  }

  /** A missing file is never fresh; a file written at `t` is fresh for
      strictly less than 24 hours after `t` and stale from then on. */
  lemma FreshnessWindow(t: real, orders: seq<string>, now: real)
    ensures !IsFresh(None, now)
    ensures t <= now ==> (IsFresh(Some(Written(t, orders)), now) <==> now < t + MaxAge)
    ensures IsFresh(Some(Written(t, orders)), t + MaxAge - 1.0)
    ensures !IsFresh(Some(Written(t, orders)), t + MaxAge)
  {
  }

  /** A fresh cache is served as it is stored: the fetch outcome plays no
      part, and the file stays as it was. */
  lemma FreshCacheIsServedWithoutFetch(file: Option<CacheFile>, now: real, f1: Result<seq<string>>, f2: Result<seq<string>>)
    requires IsFresh(file, now)
    ensures GetOrders(file, now, f1) == GetOrders(file, now, f2) == Outcome(Load(file), file)
  {
  }

  /** A stale or missing cache with a successful fetch: the fetched list is
      returned unchanged and the file is overwritten with it, stamped `now`. */
  lemma StaleCacheIsRefreshed(file: Option<CacheFile>, now: real, orders: seq<string>)
    requires !IsFresh(file, now)
    ensures GetOrders(file, now, Ok(orders)) == Outcome(Ok(orders), Some(Written(now, orders)))
  {
  }

  /** When the fetch fails the cache file is left alone; an existing file,
      however old, is loaded, and without a file the result is empty. */
  lemma FailedFetchFallsBack(file: Option<CacheFile>, now: real, e: string)
    requires !IsFresh(file, now)
    ensures GetOrders(file, now, Err(e)).file == file
    ensures file.Some? ==> GetOrders(file, now, Err(e)).result == Load(file)
    ensures file.None? ==> GetOrders(file, now, Err(e)).result == Ok([])
  {
  }

  /** Loading never fails on a missing file, a file that is not JSON or an
      object without "orders"; it fails exactly on a file whose reading
      raises, with that error, and on JSON that is not an object. */
  lemma LoadFailsOnlyOnUncaughtErrors(file: Option<CacheFile>)
    ensures Load(file).Err? <==> file.Some? && (file.value.doc.Unreadable? || file.value.doc.NotAnObject?)
    ensures file.Some? && file.value.doc.Unreadable? ==> Load(file) == Err(file.value.doc.error)
    ensures (file.None? || file.value.doc.NotJson? || (file.value.doc.Object? && file.value.doc.orders.None?)) ==>
              Load(file) == Ok([])
  {
  }

  /** What a successful fetch writes is what a later load reads back, and a
      later call within 24 hours serves it without fetching, whatever a fetch
      would have returned. */
  lemma WrittenListIsReadBack(file: Option<CacheFile>, now: real, orders: seq<string>, later: real, fetched: Result<seq<string>>)
    requires !IsFresh(file, now)
    requires now <= later < now + MaxAge
    ensures Load(GetOrders(file, now, Ok(orders)).file) == Ok(orders)
    ensures GetOrders(GetOrders(file, now, Ok(orders)).file, later, fetched).result == Ok(orders)
  {
  }
}

/** The offline-tolerant loader of the task list: a string-keyed persistent
    store that never fails outward, the remote list fetch, and the read-through
    loader that prefers the network and falls back to the stored snapshot. */
module FetchTodos {
  import opened Types

  const AllTodosKey := "all-todos"
  const TimestampKey := "todos-timestamp"
  const FetchFailedMessage := "Failed to fetch"
  const NoOfflineDataMessage := "No offline data available"

  /** The body of the list endpoint; only its `todos` field is read. */
  datatype ListPayload = ListPayload(todos: Option<seq<Todo>>)

  /** A value the store holds after `JSON.parse`: a task list or a timestamp. */
  datatype Stored = StoredTodos(todos: seq<Todo>) | StoredTimestamp(millis: int)

  /** The store's contents: a key maps to `None` when its text is empty or is
      not valid JSON. */
  type Items = map<string, Option<Stored>>

  /** What `getItem(key)` returns: nothing without storage, for a missing key
      or for text that does not parse. */
  function Lookup(isClient: bool, items: Items, key: string): (r: Option<Stored>)
    ensures !isClient || key !in items ==> r == None
    ensures r.Some? <==> isClient && key in items && items[key].Some?
    ensures r.Some? ==> r == items[key]
  {
    if isClient && key in items then items[key] else None
  }

  /** The store after `setItem(key, value)`; `fits` is false when the write
      throws (quota exceeded), which leaves the store as it was. */
  function Store(isClient: bool, items: Items, key: string, value: Stored, fits: bool): (r: Items)
    ensures !(isClient && fits) ==> r == items
    ensures isClient && fits ==> r.Keys == items.Keys + {key}
    ensures isClient && fits ==> Lookup(isClient, r, key) == Some(value)
    ensures forall k :: k in items && k != key ==> k in r && r[k] == items[k]
  {
    if isClient && fits then items[key := Some(value)] else items
  }

  /** The stored list as the loader sees it (`if (cached)`: any list, even an
      empty one, is a hit). */
  function CachedList(v: Option<Stored>): (r: Option<seq<Todo>>)
    ensures r.Some? <==> v.Some? && v.value.StoredTodos?
    ensures r.Some? ==> r.value == v.value.todos
  {
    match v
    case Some(StoredTodos(list)) => Some(list)
    case _ => None
  }

  function CachedTodos(isClient: bool, items: Items): Option<seq<Todo>> {
    CachedList(Lookup(isClient, items, AllTodosKey))
  }

  /** `fetchMyTodos`: a non-ok status throws before the body is read; a body
      without `todos` gives the empty list. */
  function FetchMyTodos(reply: Reply<ListPayload>): (r: Result<seq<Todo>, Error>)
    ensures r.Success? <==> reply.Response? && reply.ok && reply.body.Some?
    ensures r.Success? ==> r.value == (if reply.body.value.todos.Some? then reply.body.value.todos.value else [])
    ensures reply.NetworkError? ==> r == Failure(NetworkFailure(reply.reason))
    ensures reply.Response? && !reply.ok ==> r == Failure(Thrown(FetchFailedMessage))
    ensures reply.Response? && reply.ok && reply.body.None? ==> r == Failure(BadJson)
  {
    match reply
    case NetworkError(reason) => Failure(NetworkFailure(reason))
    case Response(ok, body) =>
      if !ok then Failure(Thrown(FetchFailedMessage))
      else match body
        case None => Failure(BadJson)
        case Some(payload) =>
          match payload.todos
          case Some(list) => Success(list)
          case None => Success([])
  }

  /** The online flag: `navigator.onLine`, or true where there is no `navigator`. */
  function IsOnline(navigator: Option<bool>): (online: bool)
    ensures navigator.None? ==> online
    ensures navigator.Some? ==> online == navigator.value
  {
    match navigator
    case None => true
    case Some(onLine) => onLine
  }

  datatype LoadOutcome = LoadOutcome(result: Result<seq<Todo>, Error>, items: Items)

  /** `fetchCachedTodos` as a function of its inputs: the store's availability
      and contents, the online flag, the remote reply, the clock and whether
      each of the two writes fits. */
  function Load(isClient: bool, items: Items, online: bool, remote: Reply<ListPayload>,
                now: int, listFits: bool, stampFits: bool): (o: LoadOutcome)
    // online and fetched: the fetched list, written with the timestamp
    ensures online && FetchMyTodos(remote).Success? ==> o.result == FetchMyTodos(remote)
    ensures online && FetchMyTodos(remote).Success? && isClient && listFits ==>
              CachedTodos(isClient, o.items) == Some(FetchMyTodos(remote).value)
    ensures online && FetchMyTodos(remote).Success? && isClient && stampFits ==>
              Lookup(isClient, o.items, TimestampKey) == Some(StoredTimestamp(now))
    ensures online && FetchMyTodos(remote).Success? ==>
              o.items == Store(isClient, Store(isClient, items, AllTodosKey, StoredTodos(FetchMyTodos(remote).value), listFits),
                               TimestampKey, StoredTimestamp(now), stampFits)
    ensures forall k :: k in items && k != AllTodosKey && k != TimestampKey ==>
              k in o.items && o.items[k] == items[k]
    // no key but the two written ones is added; a write that throws is swallowed
    ensures o.items.Keys <= items.Keys + {AllTodosKey, TimestampKey}
    ensures !isClient ==> o.items == items
    ensures !listFits ==> (AllTodosKey in o.items <==> AllTodosKey in items)
    ensures !listFits && AllTodosKey in items ==> o.items[AllTodosKey] == items[AllTodosKey]
    ensures !stampFits ==> (TimestampKey in o.items <==> TimestampKey in items)
    ensures !stampFits && TimestampKey in items ==> o.items[TimestampKey] == items[TimestampKey]
    // every other path leaves the store alone
    ensures !(online && FetchMyTodos(remote).Success?) ==> o.items == items
    // offline: the snapshot or "No offline data available"
    ensures !online && CachedTodos(isClient, items).Some? ==>
              o.result == Success(CachedTodos(isClient, items).value)
    ensures !online && CachedTodos(isClient, items).None? ==>
              o.result == Failure(Thrown(NoOfflineDataMessage))
    // online but the fetch failed: the snapshot or the fetch's own error
    ensures online && FetchMyTodos(remote).Failure? && CachedTodos(isClient, items).Some? ==>
              o.result == Success(CachedTodos(isClient, items).value)
    ensures online && FetchMyTodos(remote).Failure? && CachedTodos(isClient, items).None? ==>
              o.result == Failure(FetchMyTodos(remote).error)
    // a load fails only when no snapshot is stored
    ensures o.result.Failure? ==> CachedTodos(isClient, items).None?
  {
    var fetched := if online then FetchMyTodos(remote) else Failure(Thrown(NoOfflineDataMessage));
    match fetched
    case Success(list) =>
      var written := Store(isClient, items, AllTodosKey, StoredTodos(list), listFits);
      LoadOutcome(Success(list), Store(isClient, written, TimestampKey, StoredTimestamp(now), stampFits))
    case Failure(e) =>
      match CachedTodos(isClient, items)
      case Some(cached) => LoadOutcome(Success(cached), items)
      case None => LoadOutcome(Failure(e), items)
  }

  /** Offline, the remote is never consulted: the reply, the clock and the
      write outcomes make no difference. */
  lemma OfflineIgnoresRemote(isClient: bool, items: Items, remote1: Reply<ListPayload>, remote2: Reply<ListPayload>,
                             now1: int, now2: int, listFits1: bool, listFits2: bool, stampFits1: bool, stampFits2: bool)
    ensures Load(isClient, items, false, remote1, now1, listFits1, stampFits1)
         == Load(isClient, items, false, remote2, now2, listFits2, stampFits2)
  {
  }

  /** After an online load that fetched a list into working storage, every
      later load that cannot reach the remote, offline or failing, returns
      that same list. */
  lemma SnapshotServesLaterLoads(items: Items, remote: Reply<ListPayload>, now: int, stampFits: bool,
                                 online2: bool, remote2: Reply<ListPayload>, now2: int,
                                 listFits2: bool, stampFits2: bool)
    requires FetchMyTodos(remote).Success?
    requires !online2 || FetchMyTodos(remote2).Failure?
    ensures var first := Load(true, items, true, remote, now, true, stampFits);
            Load(true, first.items, online2, remote2, now2, listFits2, stampFits2).result == first.result
  {
    var first := Load(true, items, true, remote, now, true, stampFits);
    assert CachedTodos(true, first.items) == Some(FetchMyTodos(remote).value);
  }

  /** The page's persistent store: `localStorage` behind a check that it
      exists (`isClient`). */
  class TodoStorage {
    const isClient: bool
    var items: Items

    constructor (isClient: bool, items: Items)
      ensures this.isClient == isClient && this.items == items
    {
      this.isClient := isClient;
      this.items := items;
    }

    /** `getItem`: never fails outward. */
    method GetItem(key: string) returns (r: Option<Stored>)
      ensures r == Lookup(isClient, items, key)
    {
      if !isClient {
        return None;
      }
      if key in items {
        r := items[key];
      } else {
        r := None;
      }
    }

    /** `setItem`: a write that throws is swallowed. */
    method SetItem(key: string, value: Stored, fits: bool)
      modifies this
      ensures items == Store(isClient, old(items), key, value, fits)
    {
      if !isClient {
        return;
      }
      if fits {
        items := items[key := Some(value)];
      }
    }
  }

  /** `fetchCachedTodos`: the try block either returns or throws; the catch
      re-reads the store and returns the snapshot or rethrows. */
  method FetchCachedTodos(storage: TodoStorage, navigator: Option<bool>, remote: Reply<ListPayload>,
                          now: int, listFits: bool, stampFits: bool)
    returns (r: Result<seq<Todo>, Error>)
    modifies storage
    ensures LoadOutcome(r, storage.items)
         == Load(storage.isClient, old(storage.items), IsOnline(navigator), remote, now, listFits, stampFits)
  {
    var thrown: Error;
    if !IsOnline(navigator) {
      var cached := storage.GetItem(AllTodosKey);
      if CachedList(cached).Some? {
        return Success(CachedList(cached).value);
      }
      thrown := Thrown(NoOfflineDataMessage);
    } else {
      var fetched := FetchMyTodos(remote);
      if fetched.Success? {
        storage.SetItem(AllTodosKey, StoredTodos(fetched.value), listFits);
        storage.SetItem(TimestampKey, StoredTimestamp(now), stampFits);
        return Success(fetched.value);
      }
      thrown := fetched.error;
    }
    // catch
    var cached := storage.GetItem(AllTodosKey);
    if CachedList(cached).Some? {
      return Success(CachedList(cached).value);
    }
    return Failure(thrown);
  }

  /** The round trip on the imperative loader: a load online that fetches
      `list`, then a load offline, on one working store; both return `list`. */
  method OnlineThenOffline(list: seq<Todo>, now1: int, now2: int)
    returns (first: Result<seq<Todo>, Error>, second: Result<seq<Todo>, Error>)
    ensures first == Success(list)
    ensures second == first
  {
    var storage := new TodoStorage(true, map[]);
    var reply := Response(true, Some(ListPayload(Some(list))));
    first := FetchCachedTodos(storage, Some(true), reply, now1, true, true);
    second := FetchCachedTodos(storage, Some(false), NetworkError("offline"), now2, true, true);
  }
}

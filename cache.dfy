/** The Redis cache the API services share, and the two cache-aside
  * patterns they follow: one record looked up by id, and one list kept
  * under a fixed key. */
module Cache {
  import opened Common
  import opened Values
  import opened Entities

  /** What a key holds once its JSON text is read back: a serialised model
    * instance, or a JSON list of objects. */
  datatype Cached =
    | FilmJson(film: FilmDetail)
    | GenreJson(genre: Genre)
    | PersonJson(person: Person)
    | ListJson(items: seq<Row>)

  /** A value and the expiry (seconds) it was set with. */
  datatype Entry = Entry(value: Cached, expire: nat)

  /** Every service sets its entries to live five minutes. */
  const CacheExpire: nat := 60 * 5

  /** What a service raises instead of answering. */
  datatype ServiceError =
    | CorruptCacheEntry(key: string)   // the cached JSON is not the model or list expected
    | NotJson(key: string)             // `json.loads(None)` on a key that is not set
    | MalformedResponse                // a search response without `hits`

  function Read(entries: map<string, Entry>, key: string): Option<Cached>
  {
    if key in entries then Some(entries[key].value) else None
  }

  /** Every entry carries the services' expiry. */
  predicate AllExpire(entries: map<string, Entry>)
  {
    forall k :: k in entries ==> entries[k].expire == CacheExpire
  }

  /** The Redis connection: `get` and `set` on a map of entries. */
  class Redis {
    var entries: map<string, Entry>

    constructor(initial: map<string, Entry>)
      ensures entries == initial
    {
      entries := initial;
    }

    method Get(key: string) returns (data: Option<Cached>)
      ensures data == Read(entries, key)
    {
      data := if key in entries then Some(entries[key].value) else None;
    }

    method Set(key: string, value: Cached, expire: nat)
      modifies this
      ensures entries == old(entries)[key := Entry(value, expire)]
    {
      entries := entries[key := Entry(value, expire)];
    }
  }

  /** `parse_raw` of each model: the cached JSON read as that model. */
  function FilmOf(data: Cached): Option<FilmDetail>
  {
    if data.FilmJson? then Some(data.film) else None
  }

  function GenreOf(data: Cached): Option<Genre>
  {
    if data.GenreJson? then Some(data.genre) else None
  }

  function PersonOf(data: Cached): Option<Person>
  {
    if data.PersonJson? then Some(data.person) else None
  }

  /** A service's answer and the cache it leaves behind. */
  datatype Answer<T> = Answer(value: T, entries: map<string, Entry>)

  /** What the caller receives. */
  function ValueOf<T>(a: Result<Answer<T>, ServiceError>): Result<T, ServiceError>
  {
    match a
    case Ok(ans) => Ok(ans.value)
    case Err(e) => Err(e)
  }

  /** The cache after the call: a call that raises has written nothing. */
  function EntriesAfter<T>(entries: map<string, Entry>, a: Result<Answer<T>, ServiceError>): map<string, Entry>
  {
    if a.Ok? then a.value.entries else entries
  }

  /** `get_by_id` of the film, genre and person services: the record cached
    * under `id` if there is one (`parse` is the model's `parse_raw`, None
    * when the JSON is not that model), otherwise the record the index
    * holds under `id`, which is then cached under its own key `keyOf`;
    * None when neither has it. */
  function CacheAside<T>(entries: map<string, Entry>, id: string, parse: Cached -> Option<T>,
                         index: map<string, T>, wrap: T -> Cached, keyOf: T -> string)
    : Result<Answer<Option<T>>, ServiceError>
  {
    match Read(entries, id)
    case Some(data) =>
      (match parse(data)
       case None => Err(CorruptCacheEntry(id))
       case Some(x) => Ok(Answer(Some(x), entries)))
    case None =>
      if id !in index then Ok(Answer(None, entries))
      else
        var x := index[id];
        Ok(Answer(Some(x), entries[keyOf(x) := Entry(wrap(x), CacheExpire)]))
  }

  /** A cached record is returned as it is: the index is not consulted and
    * the cache is not written. */
  lemma CacheHitIgnoresIndex<T>(entries: map<string, Entry>, id: string, parse: Cached -> Option<T>,
                                index: map<string, T>, other: map<string, T>, wrap: T -> Cached, keyOf: T -> string)
    requires Read(entries, id).Some? && parse(Read(entries, id).value).Some?
    ensures CacheAside(entries, id, parse, index, wrap, keyOf) == CacheAside(entries, id, parse, other, wrap, keyOf)
    ensures CacheAside(entries, id, parse, index, wrap, keyOf) == Ok(Answer(parse(Read(entries, id).value), entries))
  {
  }

  /** None exactly when the id is in neither the cache nor the index, and
    * then nothing is written. */
  lemma CacheAsideNone<T>(entries: map<string, Entry>, id: string, parse: Cached -> Option<T>,
                          index: map<string, T>, wrap: T -> Cached, keyOf: T -> string)
    ensures var r := CacheAside(entries, id, parse, index, wrap, keyOf);
            r.Ok? && r.value.value.None? <==> Read(entries, id).None? && id !in index
    ensures var r := CacheAside(entries, id, parse, index, wrap, keyOf);
            r.Ok? && r.value.value.None? ==> r.value.entries == entries
  {
  }

  /** A record found only in the index is returned and cached under its
    * own key with the five-minute expiry; nothing else changes. */
  lemma CacheAsideFill<T>(entries: map<string, Entry>, id: string, parse: Cached -> Option<T>,
                          index: map<string, T>, wrap: T -> Cached, keyOf: T -> string)
    requires Read(entries, id).None? && id in index
    ensures var r := CacheAside(entries, id, parse, index, wrap, keyOf);
            && r == Ok(Answer(Some(index[id]), r.value.entries))
            && keyOf(index[id]) in r.value.entries
            && r.value.entries[keyOf(index[id])] == Entry(wrap(index[id]), CacheExpire)
            && (forall k :: k in entries && k != keyOf(index[id]) ==> k in r.value.entries && r.value.entries[k] == entries[k])
            && (forall k :: k in r.value.entries ==> k in entries || k == keyOf(index[id]))
  {
  }

  /** Cache-aside completes a round trip: once a record kept under its own
    * id has been fetched from the index, asking again answers it from the
    * cache, whatever the index holds by then. */
  lemma {:induction false} CacheAsideRoundTrip<T>(entries: map<string, Entry>, id: string, parse: Cached -> Option<T>,
                                                  index: map<string, T>, later: map<string, T>,
                                                  wrap: T -> Cached, keyOf: T -> string)
    requires Read(entries, id).None? && id in index
    requires keyOf(index[id]) == id
    requires parse(wrap(index[id])) == Some(index[id])
    ensures var r := CacheAside(entries, id, parse, index, wrap, keyOf);
            r.Ok? && CacheAside(r.value.entries, id, parse, later, wrap, keyOf) == Ok(Answer(Some(index[id]), r.value.entries))
  {
    var r := CacheAside(entries, id, parse, index, wrap, keyOf);
    assert Read(r.value.entries, id) == Some(wrap(index[id]));
  }

  /** The lookup keeps every entry at the services' expiry. */
  lemma CacheAsideExpiry<T>(entries: map<string, Entry>, id: string, parse: Cached -> Option<T>,
                            index: map<string, T>, wrap: T -> Cached, keyOf: T -> string)
    requires AllExpire(entries)
    ensures var r := CacheAside(entries, id, parse, index, wrap, keyOf);
            r.Ok? ==> AllExpire(r.value.entries)
  {
  }

  /** `_films_from_cache` and the corrected genres read: no entry, or a
    * JSON list that is empty (falsy), is a miss; a non-empty list is a
    * hit; anything else is not the list the caller expects. */
  function ListFromCache(entries: map<string, Entry>, key: string): (r: Result<Option<seq<Row>>, ServiceError>)
    ensures r.Ok? && r.value.Some? ==> r.value.value != []
    ensures Read(entries, key).None? ==> r == Ok(None)
    ensures Read(entries, key) == Some(ListJson([])) ==> r == Ok(None)
    ensures r.Err? <==> Read(entries, key).Some? && !Read(entries, key).value.ListJson?
    ensures r.Ok? && r.value.Some? ==> Read(entries, key) == Some(ListJson(r.value.value))
  {
    match Read(entries, key)
    case None => Ok(None)
    case Some(data) =>
      if !data.ListJson? then Err(CorruptCacheEntry(key))
      else if data.items == [] then Ok(None)
      else Ok(Some(data.items))
  }

  /** `get_all_films` and `get_all`: a cache hit is returned; on a miss the
    * `fetched` list is returned and stored under `key`, even when empty. */
  function ListCacheAside(entries: map<string, Entry>, key: string, fetched: Result<seq<Row>, ServiceError>)
    : Result<Answer<seq<Row>>, ServiceError>
  {
    match ListFromCache(entries, key)
    case Err(e) => Err(e)
    case Ok(Some(items)) => Ok(Answer(items, entries))
    case Ok(None) =>
      match fetched
      case Err(e) => Err(e)
      case Ok(xs) => Ok(Answer(xs, entries[key := Entry(ListJson(xs), CacheExpire)]))
  }

  /** A non-empty list fetched on a miss is answered from the cache by the
    * next call, whatever would be fetched then. */
  lemma ListRoundTrip(entries: map<string, Entry>, key: string, xs: seq<Row>, later: Result<seq<Row>, ServiceError>)
    requires ListFromCache(entries, key) == Ok(None)
    requires xs != []
    ensures var r := ListCacheAside(entries, key, Ok(xs));
            r.Ok? && ListCacheAside(r.value.entries, key, later) == Ok(Answer(xs, r.value.entries))
  {
    var r := ListCacheAside(entries, key, Ok(xs));
    assert Read(r.value.entries, key) == Some(ListJson(xs));
  }

  /** An empty list fetched on a miss is still stored, but since an empty
    * list is falsy the next call misses again and fetches anew. */
  lemma EmptyListStoredButMissed(entries: map<string, Entry>, key: string, later: Result<seq<Row>, ServiceError>)
    requires ListFromCache(entries, key) == Ok(None)
    ensures var r := ListCacheAside(entries, key, Ok([]));
            && r == Ok(Answer([], entries[key := Entry(ListJson([]), CacheExpire)]))
            && ListCacheAside(r.value.entries, key, later)
               == (match later
                   case Err(e) => Err(e)
                   case Ok(ys) => Ok(Answer(ys, entries[key := Entry(ListJson(ys), CacheExpire)])))
  {
    var r := ListCacheAside(entries, key, Ok([]));
    assert ListFromCache(r.value.entries, key) == Ok(None);
    assert r.value.entries[key := Entry(ListJson([]), CacheExpire)] == r.value.entries;
    if later.Ok? {
      assert r.value.entries[key := Entry(ListJson(later.value), CacheExpire)]
          == entries[key := Entry(ListJson(later.value), CacheExpire)];
    }
  }

  lemma ListCacheAsideExpiry(entries: map<string, Entry>, key: string, fetched: Result<seq<Row>, ServiceError>)
    requires AllExpire(entries)
    ensures var r := ListCacheAside(entries, key, fetched);
            r.Ok? ==> AllExpire(r.value.entries)
  {
  }
}

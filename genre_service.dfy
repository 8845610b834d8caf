/** The genre services: one genre by id (cache-aside), and the list of all
  * genres kept under the single key `genres`. */
module GenreServices {
  import opened Common
  import opened Values
  import opened Entities
  import opened Cache
  import opened Search

  /** The one key the genre list is read from and written to. */
  const GenresKey: string := "genres"

  /** How many genres the listing asks the index for. */
  const GenresPageSize: int := 26

  /** `{'size': 26, "query": {"match_all": {}}}` on the `genres` index; the
    * body's `size` is the page size the cluster applies. */
  const GenresRequest: SearchRequest :=
    SearchRequest("genres", 0, GenresPageSize,
      Object([Member("size", Number("26")), Member("query", Object([Member("match_all", Object([]))]))]))

  /** `get_by_id` of `GenreService` on cache `entries`: the genre is cached
    * under its `uuid`. */
  function GenreById(entries: map<string, Entry>, c: Cluster, id: string): Result<Answer<Option<Genre>>, ServiceError>
  {
    CacheAside(entries, id, GenreOf, c.genres, (g: Genre) => GenreJson(g), (g: Genre) => g.uuid)
  }

  /** `_get_genres_from_elastic`: every hit's source; no index, no genres. */
  function GenresFromElastic(c: Cluster): Result<seq<Row>, ServiceError>
  {
    match c.searchGenres(GenresRequest)
    case NotFound => Ok([])
    case Falsy => Err(MalformedResponse)
    case Hits(sources) => Ok(sources)
  }

  /** `_genres_from_cache` as written: `json.loads` runs before the emptiness
    * check, so a key that is not set raises instead of being a miss. */
  function GenresFromCacheAsWritten(entries: map<string, Entry>): Result<Option<seq<Row>>, ServiceError>
  {
    if GenresKey !in entries then Err(NotJson(GenresKey)) else ListFromCache(entries, GenresKey)
  }

  /** `get_all` as written. */
  function AllGenresAsWritten(entries: map<string, Entry>, c: Cluster): Result<Answer<seq<Row>>, ServiceError>
  {
    match GenresFromCacheAsWritten(entries)
    case Err(e) => Err(e)
    case Ok(Some(items)) => Ok(Answer(items, entries))
    case Ok(None) =>
      match GenresFromElastic(c)
      case Err(e) => Err(e)
      case Ok(xs) => Ok(Answer(xs, entries[GenresKey := Entry(ListJson(xs), CacheExpire)]))
  }

  /** As written, `get_all` on a cache without the `genres` key raises,
    * whatever the index holds; and since only `get_all` writes that key, a
    * cold cache never gets a genre list. */
  lemma AllGenresAsWrittenFailsCold(entries: map<string, Entry>, c: Cluster)
    requires GenresKey !in entries
    ensures AllGenresAsWritten(entries, c) == Err(NotJson(GenresKey))
    ensures EntriesAfter(entries, AllGenresAsWritten(entries, c)) == entries
  {
  }

  /** `get_all` with the missing key read as a miss. */
  function AllGenres(entries: map<string, Entry>, c: Cluster): Result<Answer<seq<Row>>, ServiceError>
  {
    ListCacheAside(entries, GenresKey, GenresFromElastic(c))
  }

  /** Where the key is set, the corrected `get_all` behaves as written. */
  lemma AllGenresAgreesWhenWarm(entries: map<string, Entry>, c: Cluster)
    requires GenresKey in entries
    ensures AllGenres(entries, c) == AllGenresAsWritten(entries, c)
  {
  }

  /** On a cold cache the corrected `get_all` fetches the genres, at most 26
    * of them when the cluster honours the page size, and stores them under
    * `genres`; once that list is non-empty the next call is answered from
    * the cache. */
  lemma AllGenresWarmsCache(entries: map<string, Entry>, c: Cluster)
    requires GenresKey !in entries
    requires HonoursSize(c.searchGenres)
    ensures var r := AllGenres(entries, c);
            r.Ok? ==>
              && |r.value.value| <= GenresPageSize
              && r.value.entries == entries[GenresKey := Entry(ListJson(r.value.value), CacheExpire)]
              && (r.value.value != [] ==> AllGenres(r.value.entries, c) == Ok(Answer(r.value.value, r.value.entries)))
  {
    var r := AllGenres(entries, c);
    if c.searchGenres(GenresRequest).Hits? {
      assert |c.searchGenres(GenresRequest).sources| <= GenresRequest.size;
    }
    if r.Ok? && r.value.value != [] {
      ListRoundTrip(entries, GenresKey, r.value.value, GenresFromElastic(c));
    }
  }

  class GenreService {
    const redis: Redis
    const elastic: Cluster

    constructor(redis: Redis, elastic: Cluster)
      ensures this.redis == redis && this.elastic == elastic
    {
      this.redis := redis;
      this.elastic := elastic;
    }

    /** The genre from the cache, else from the index (and then cached). */
    method GetById(genreId: string) returns (r: Result<Option<Genre>, ServiceError>)
      modifies redis
      ensures var a := GenreById(old(redis.entries), elastic, genreId);
              r == ValueOf(a) && redis.entries == EntriesAfter(old(redis.entries), a)
    {
      var data := redis.Get(genreId);
      if data.Some? {
        var genre := GenreOf(data.value);
        if genre.None? {
          return Err(CorruptCacheEntry(genreId));
        }
        return Ok(genre);
      }
      if genreId !in elastic.genres {
        return Ok(None);
      }
      var genre := elastic.genres[genreId];
      redis.Set(genre.uuid, GenreJson(genre), CacheExpire);
      r := Ok(Some(genre));
    }
  }

  class GenresServices {
    const redis: Redis
    const elastic: Cluster

    constructor(redis: Redis, elastic: Cluster)
      ensures this.redis == redis && this.elastic == elastic
    {
      this.redis := redis;
      this.elastic := elastic;
    }

    /** The source of every hit of the genres search, in order. */
    method GenresFromHits() returns (r: Result<seq<Row>, ServiceError>)
      ensures r == GenresFromElastic(elastic)
    {
      var docs := elastic.searchGenres(GenresRequest);
      if docs.NotFound? {
        return Ok([]);
      }
      if docs.Falsy? {
        return Err(MalformedResponse);
      }
      var genres: seq<Row> := [];
      for i := 0 to |docs.sources|
        invariant genres == docs.sources[..i]
      {
        genres := genres + [docs.sources[i]];
      }
      assert docs.sources[..|docs.sources|] == docs.sources;
      r := Ok(genres);
    }

    /** The genre list from the cache, else from the index (and then
      * cached, even when empty). */
    method GetAll() returns (r: Result<seq<Row>, ServiceError>)
      modifies redis
      ensures var a := AllGenres(old(redis.entries), elastic);
              r == ValueOf(a) && redis.entries == EntriesAfter(old(redis.entries), a)
    {
      var data := redis.Get(GenresKey);
      if data.Some? && !data.value.ListJson? {
        return Err(CorruptCacheEntry(GenresKey));
      }
      if data.Some? && data.value.items != [] {
        return Ok(data.value.items);
      }
      var genres := GenresFromHits();
      if genres.Err? {
        return genres;
      }
      redis.Set(GenresKey, ListJson(genres.value), CacheExpire);
      r := genres;
    }
  }
}

/** The person service: the shared base service's cache-aside lookup and
  * empty listing, a person's films one by one, and a search by name. */
module PersonServices {
  import opened Common
  import opened Values
  import opened Entities
  import opened Cache
  import opened Search
  import opened FilmServices

  /** The persons index (the name the person model declares). */
  const PersonsIndex: string := "persons"

  /** `get_by_id` of the base service for persons: the person is cached
    * under its `id`. */
  function PersonById(entries: map<string, Entry>, c: Cluster, id: string): Result<Answer<Option<Person>>, ServiceError>
  {
    CacheAside(entries, id, PersonOf, c.persons, (p: Person) => PersonJson(p), (p: Person) => p.id)
  }

  /** `get_list` of the base service: no records, whatever the sort. */
  function GetList(sort: string): (r: seq<Person>)
    ensures |r| == 0
  {
    []
  }

  /** The result of a call and the cache after it, also when it raised
    * (earlier writes stay). */
  datatype Outcome<T> = Outcome(result: Result<T, ServiceError>, entries: map<string, Entry>)

  /** `FilmService.get_by_id` of each id in turn, each on the cache the
    * previous lookups left; the first error ends the list. */
  function FilmsByIds(entries: map<string, Entry>, c: Cluster, ids: seq<string>): (o: Outcome<seq<Option<FilmDetail>>>)
    ensures o.result.Ok? ==> |o.result.value| == |ids|
  {
    if ids == [] then Outcome(Ok([]), entries)
    else
      var prev := FilmsByIds(entries, c, ids[..|ids| - 1]);
      if prev.result.Err? then prev
      else
        match FilmById(prev.entries, c, ids[|ids| - 1])
        case Err(e) => Outcome(Err(e), prev.entries)
        case Ok(a) => Outcome(Ok(prev.result.value + [a.value]), a.entries)
  }

  /** The film lookups only ever write films under ids the index has. */
  lemma {:induction false} FilmsByIdsFrame(entries: map<string, Entry>, c: Cluster, ids: seq<string>, k: string)
    requires KeyedByUuid(c.movies)
    requires k !in c.movies
    ensures Read(FilmsByIds(entries, c, ids).entries, k) == Read(entries, k)
  {
    if ids != [] {
      FilmsByIdsFrame(entries, c, ids[..|ids| - 1], k);
    }
  }

  /** The film list keeps one entry per id, in order: an id that is in
    * neither the cache nor the index gives None there, and is not dropped;
    * every other id gives its film. */
  lemma {:induction false} FilmsByIdsMissing(entries: map<string, Entry>, c: Cluster, ids: seq<string>, i: nat)
    requires KeyedByUuid(c.movies)
    requires FilmsByIds(entries, c, ids).result.Ok?
    requires i < |ids|
    ensures FilmsByIds(entries, c, ids).result.value[i].None? <==> Read(entries, ids[i]).None? && ids[i] !in c.movies
  {
    var init := ids[..|ids| - 1];
    var prev := FilmsByIds(entries, c, init);
    if i == |ids| - 1 {
      if ids[i] !in c.movies {
        FilmsByIdsFrame(entries, c, init, ids[i]);
      }
      CacheAsideNone(prev.entries, ids[i], FilmOf, c.movies, (f: FilmDetail) => FilmJson(f), (f: FilmDetail) => f.uuid);
    } else {
      FilmsByIdsMissing(entries, c, init, i);
      assert init[i] == ids[i];
    }
  }

  /** Once the first lookup fails, the later ids are not looked up. */
  lemma {:induction false} FilmsByIdsStopsAtError(entries: map<string, Entry>, c: Cluster, ids: seq<string>, k: nat)
    requires k <= |ids|
    requires FilmsByIds(entries, c, ids[..k]).result.Err?
    ensures FilmsByIds(entries, c, ids) == FilmsByIds(entries, c, ids[..k])
    decreases |ids|
  {
    if k < |ids| {
      var init := ids[..|ids| - 1];
      assert init[..k] == ids[..k];
      FilmsByIdsStopsAtError(entries, c, init, k);
    } else {
      assert ids[..k] == ids;
    }
  }

  /** The film list of a person found: `Some` of the lookups' result. */
  function SomeFilms(films: Outcome<seq<Option<FilmDetail>>>): Outcome<Option<seq<Option<FilmDetail>>>>
  {
    match films.result
    case Err(e) => Outcome(Err(e), films.entries)
    case Ok(fs) => Outcome(Ok(Some(fs)), films.entries)
  }

  /** `get_film_list_by_id` on cache `entries`: None when the person is
    * nowhere; otherwise the person is cached first, then each film id is
    * looked up. */
  function FilmListById(entries: map<string, Entry>, c: Cluster, id: string): Outcome<Option<seq<Option<FilmDetail>>>>
  {
    match PersonById(entries, c, id)
    case Err(e) => Outcome(Err(e), entries)
    case Ok(a) =>
      if a.value.None? then Outcome(Ok(None), a.entries)
      else SomeFilms(FilmsByIds(a.entries, c, a.value.value.filmIds))
  }

  /** None exactly when the person is in neither the cache nor the index;
    * a person found only in the index is in the cache before its films are
    * looked up; a cached person's films are looked up on the cache as it
    * was. */
  lemma FilmListByIdShape(entries: map<string, Entry>, c: Cluster, id: string)
    ensures var o := FilmListById(entries, c, id);
            (o.result.Ok? && o.result.value.None?) <==> (Read(entries, id).None? && id !in c.persons)
    ensures Read(entries, id).None? && id in c.persons ==>
              var p := c.persons[id];
              FilmListById(entries, c, id) == SomeFilms(FilmsByIds(entries[p.id := Entry(PersonJson(p), CacheExpire)], c, p.filmIds))
    ensures Read(entries, id).Some? && PersonOf(Read(entries, id).value).Some? ==>
              var p := PersonOf(Read(entries, id).value).value;
              FilmListById(entries, c, id) == SomeFilms(FilmsByIds(entries, c, p.filmIds))
  {
    CacheAsideNone(entries, id, PersonOf, c.persons, (p: Person) => PersonJson(p), (p: Person) => p.id);
  }

  /** The search `search_by_name` sends: a fuzzy match on `full_name`. */
  function PersonsRequest(query: Option<string>, number: int, size: int): SearchRequest
  {
    var text := if query.Some? then Str(query.value) else Null;
    SearchRequest(PersonsIndex, Paginate(size, number), size,
      Object([Member("match", Object([Member("full_name",
        Object([Member("query", text), Member("fuzziness", Str("auto"))]))]))]))
  }

  /** `search_by_name`'s answer: None when there is no index or no
    * response; otherwise the persons of the hits, in order. */
  function PersonsByName(c: Cluster, query: Option<string>, number: int, size: int): Option<seq<Person>>
  {
    match c.searchPersons(PersonsRequest(query, number, size))
    case Hits(persons) => Some(persons)
    case _ => None
  }

  /** With the default page (number 1, size 50) the search starts at the
    * first person and, from a cluster that honours the page size, returns
    * at most 50; None exactly when the cluster has no answer, and
    * otherwise the hit list as it is, an empty one included. */
  lemma SearchByNameDefaultPage(c: Cluster, query: Option<string>)
    requires HonoursSize(c.searchPersons)
    ensures PersonsRequest(query, 1, 50).from == 0 && PersonsRequest(query, 1, 50).size == 50
    ensures var r := PersonsByName(c, query, 1, 50);
            (r.None? <==> !c.searchPersons(PersonsRequest(query, 1, 50)).Hits?) && (r.Some? ==> |r.value| <= 50)
    ensures c.searchPersons(PersonsRequest(query, 1, 50)).Hits? ==>
              PersonsByName(c, query, 1, 50) == Some(c.searchPersons(PersonsRequest(query, 1, 50)).sources)
  {
    var req := PersonsRequest(query, 1, 50);
    if c.searchPersons(req).Hits? {
      assert |c.searchPersons(req).sources| <= req.size;
    }
  }

  class PersonService {
    const redis: Redis
    const elastic: Cluster

    constructor(redis: Redis, elastic: Cluster)
      ensures this.redis == redis && this.elastic == elastic
    {
      this.redis := redis;
      this.elastic := elastic;
    }

    /** The base service's `get_by_id`: from the cache, else from the index
      * (and then cached). */
    method GetById(personId: string) returns (r: Result<Option<Person>, ServiceError>)
      modifies redis
      ensures var a := PersonById(old(redis.entries), elastic, personId);
              r == ValueOf(a) && redis.entries == EntriesAfter(old(redis.entries), a)
    {
      var data := redis.Get(personId);
      if data.Some? {
        var person := PersonOf(data.value);
        if person.None? {
          return Err(CorruptCacheEntry(personId));
        }
        return Ok(person);
      }
      if personId !in elastic.persons {
        return Ok(None);
      }
      var person := elastic.persons[personId];
      redis.Set(person.id, PersonJson(person), CacheExpire);
      r := Ok(Some(person));
    }

    /** The films of a person, looked up one by one through the film
      * service on the same cache. */
    method GetFilmListById(personId: string) returns (r: Result<Option<seq<Option<FilmDetail>>>, ServiceError>)
      modifies redis
      ensures var o := FilmListById(old(redis.entries), elastic, personId);
              r == o.result && redis.entries == o.entries
    {
      var person := GetById(personId);
      if person.Err? {
        return Err(person.error);
      }
      if person.value.None? {
        return Ok(None);
      }
      var ids := person.value.value.filmIds;
      var filmService := new FilmService(redis, elastic);
      ghost var start := redis.entries;
      var films: seq<Option<FilmDetail>> := [];
      for i := 0 to |ids|
        invariant FilmsByIds(start, elastic, ids[..i]) == Outcome(Ok(films), redis.entries)
      {
        var film := filmService.GetById(ids[i]);
        assert ids[..i + 1][..i] == ids[..i];
        if film.Err? {
          FilmsByIdsStopsAtError(start, elastic, ids, i + 1);
          return Err(film.error);
        }
        films := films + [film.value];
      }
      assert ids[..|ids|] == ids;
      r := Ok(Some(films));
    }

    /** `search_by_name`, with its default page. */
    method SearchByName(query: Option<string>, number: int := 1, size: int := 50) returns (r: Option<seq<Person>>)
      ensures r == PersonsByName(elastic, query, number, size)
    {
      var doc := elastic.searchPersons(PersonsRequest(query, number, size));
      if doc.NotFound? || doc.Falsy? {
        return None;
      }
      r := Some(doc.sources);
    }
  }
}

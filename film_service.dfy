/** The film services: one film by id (cache-aside), and a page of films
  * for a title search, a genre filter or the whole catalogue, cached under
  * a key built from the request. */
module FilmServices {
  import opened Common
  import opened Values
  import opened Strings
  import opened Entities
  import opened Cache
  import opened Search

  /** The films index. */
  const MoviesIndex: string := "movies"

  /** The parameters of `get_all_films`. */
  datatype FilmsQuery = FilmsQuery(query: Option<string>, genre: Option<string>, reverse: string, size: int, number: int)

  /** `{"sort": [{"imdb_rating": {"order": reverse}}]}`'s list. */
  function RatingSort(reverse: string): Value
  {
    Array([Object([Member("imdb_rating", Object([Member("order", Str(reverse))]))])])
  }

  /** `{"nested": {"path": "genre", "query": {"bool": {"must": [{"match": {"genre.uuid": genre}}]}}}}` */
  function NestedGenre(genre: string): Value
  {
    var must := Array([Object([Member("match", Object([Member("genre.uuid", Str(genre))]))])]);
    Object([Member("nested", Object([
      Member("path", Str("genre")),
      Member("query", Object([Member("bool", Object([Member("must", must)]))]))]))])
  }

  /** `{"bool": {"must": {"match": {"title": {"query": query}}}}}` */
  function TitleMatch(query: string): Value
  {
    Object([Member("bool", Object([Member("must",
      Object([Member("match", Object([Member("title", Object([Member("query", Str(query))]))]))]))]))])
  }

  /** `{"match_all": {}}` */
  const MatchAll: Value := Object([Member("match_all", Object([]))])

  /** `get_elastic_query`: a genre filter first, else a title match, else
    * everything; only the title match leaves the hits unsorted. */
  function ElasticQuery(query: Option<string>, genre: Option<string>, reverse: string): Value
  {
    if Truthy(genre) then Object([Member("sort", RatingSort(reverse)), Member("query", NestedGenre(genre.value))])
    else if Truthy(query) then Object([Member("query", TitleMatch(query.value))])
    else Object([Member("sort", RatingSort(reverse)), Member("query", MatchAll)])
  }

  /** Which films a body asks for, read back from the body itself. */
  datatype Filter = ByGenre(uuid: string) | ByTitle(text: string) | All | Other

  function FilterOf(body: Value): Filter
  {
    var query := Field(body, "query");
    match At(At(At(At(query, "nested"), "query"), "bool"), "must")
    case Some(Array(musts)) =>
      var uuid := if |musts| == 1 then At(Field(musts[0], "match"), "genre.uuid") else None;
      if uuid.Some? && uuid.value.Str? then ByGenre(uuid.value.chars) else Other
    case _ =>
      match At(At(At(At(At(query, "bool"), "must"), "match"), "title"), "query")
      case Some(Str(text)) => ByTitle(text)
      case _ => if At(query, "match_all") == Some(Object([])) then All else Other
  }

  /** The sort order a body asks for, if it sorts at all. */
  function SortOrderOf(body: Value): Option<Value>
  {
    match Field(body, "sort")
    case Some(Array(sorts)) => if |sorts| >= 1 then At(Field(sorts[0], "imdb_rating"), "order") else None
    case _ => None
  }

  /** The filter the request's parameters select, genre before title. */
  function EffectiveFilter(query: Option<string>, genre: Option<string>): Filter
  {
    if Truthy(genre) then ByGenre(genre.value) else if Truthy(query) then ByTitle(query.value) else All
  }

  /** The body filters by genre when one is given, else matches the title
    * when a query is given, else matches everything; whenever it sorts, it
    * sorts by rating in the `reverse` order, and it sorts unless it is a
    * title match. */
  lemma ElasticQueryPrecedence(query: Option<string>, genre: Option<string>, reverse: string)
    ensures FilterOf(ElasticQuery(query, genre, reverse)) == EffectiveFilter(query, genre)
    ensures SortOrderOf(ElasticQuery(query, genre, reverse))
            == if EffectiveFilter(query, genre).ByTitle? then None else Some(Str(reverse))
  {
    var order := Object([Member("order", Str(reverse))]);
    var sortBy := Object([Member("imdb_rating", order)]);
    FieldOfOne("imdb_rating", order, "imdb_rating");
    FieldOfOne("order", Str(reverse), "order");
    assert RatingSort(reverse) == Array([sortBy]);
    if Truthy(genre) {
      var g := genre.value;
      var matchG := Object([Member("genre.uuid", Str(g))]);
      var must := Array([Object([Member("match", matchG)])]);
      var boolG := Object([Member("must", must)]);
      var inner := Object([Member("bool", boolG)]);
      var nested := Object([Member("path", Str("genre")), Member("query", inner)]);
      FieldOfTwo("sort", RatingSort(reverse), "query", NestedGenre(g), "query");
      FieldOfTwo("sort", RatingSort(reverse), "query", NestedGenre(g), "sort");
      FieldOfOne("nested", nested, "nested");
      FieldOfTwo("path", Str("genre"), "query", inner, "query");
      FieldOfOne("bool", boolG, "bool");
      FieldOfOne("must", must, "must");
      FieldOfOne("match", matchG, "match");
      FieldOfOne("genre.uuid", Str(g), "genre.uuid");
    } else if Truthy(query) {
      var t := query.value;
      var title := Object([Member("title", Object([Member("query", Str(t))]))]);
      var matchT := Object([Member("match", title)]);
      var boolT := Object([Member("must", matchT)]);
      FieldOfOne("query", TitleMatch(t), "query");
      FieldOfOne("query", TitleMatch(t), "sort");
      FieldOfOne("bool", boolT, "nested");
      FieldOfOne("bool", boolT, "bool");
      FieldOfOne("must", matchT, "must");
      FieldOfOne("match", title, "match");
      FieldOfOne("title", Object([Member("query", Str(t))]), "title");
      FieldOfOne("query", Str(t), "query");
    } else {
      FieldOfTwo("sort", RatingSort(reverse), "query", MatchAll, "query");
      FieldOfTwo("sort", RatingSort(reverse), "query", MatchAll, "sort");
      FieldOfOne("match_all", Object([]), "nested");
      FieldOfOne("match_all", Object([]), "bool");
      FieldOfOne("match_all", Object([]), "match_all");
    }
  }

  /** The search `_get_films_from_elastic` sends. */
  function FilmsRequest(q: FilmsQuery): SearchRequest
  {
    SearchRequest(MoviesIndex, Paginate(q.size, q.number), q.size, ElasticQuery(q.query, q.genre, q.reverse))
  }

  /** The cache key `get_all_films` reads and writes, as written: the
    * fields run together, and a query takes precedence over a genre. */
  function CacheKeyAsWritten(q: FilmsQuery): string
  {
    var redisKey := q.reverse + IntToString(q.number) + IntToString(q.size)
      + (if Truthy(q.query) then q.query.value else if Truthy(q.genre) then q.genre.value else "");
    "films" + redisKey
  }

  /** Page 1 of 23 films and page 12 of 3 films share a key, so one is
    * answered with the other's cached films. */
  lemma CacheKeyAsWrittenCollides()
    ensures var a := FilmsQuery(None, None, "desc", 23, 1);
            var b := FilmsQuery(None, None, "desc", 3, 12);
            CacheKeyAsWritten(a) == CacheKeyAsWritten(b) == "filmsdesc123"
            && FilmsRequest(a).from == 0 && FilmsRequest(b).from == 33
  {
    var a := FilmsQuery(None, None, "desc", 23, 1);
    var b := FilmsQuery(None, None, "desc", 3, 12);
    CollidingNumbers();
    assert CacheKeyAsWritten(a) == "films" + ("desc" + "1" + "23" + "");
    assert CacheKeyAsWritten(b) == "films" + ("desc" + "12" + "3" + "");
    CollidingKeysJoin();
  }

  lemma CollidingNumbers()
    ensures IntToString(1) == "1" && IntToString(3) == "3" && IntToString(12) == "12" && IntToString(23) == "23"
  {
    assert NatToString(12) == NatToString(1) + [DigitChar(2)];
    assert NatToString(23) == NatToString(2) + [DigitChar(3)];
  }

  lemma CollidingKeysJoin()
    ensures "films" + ("desc" + "1" + "23" + "") == "filmsdesc123"
    ensures "films" + ("desc" + "12" + "3" + "") == "filmsdesc123"
  {
  }

  /** With both a query and a genre, the key follows the query while the
    * body follows the genre: two genres share a key but not a search. */
  lemma CacheKeyAsWrittenIgnoresGenre(query: string, g1: string, g2: string, reverse: string, size: int, number: int)
    requires query != "" && g1 != "" && g2 != "" && g1 != g2
    ensures var a := FilmsQuery(Some(query), Some(g1), reverse, size, number);
            var b := FilmsQuery(Some(query), Some(g2), reverse, size, number);
            CacheKeyAsWritten(a) == CacheKeyAsWritten(b)
            && FilterOf(FilmsRequest(a).body) == ByGenre(g1) && FilterOf(FilmsRequest(b).body) == ByGenre(g2)
  {
    ElasticQueryPrecedence(Some(query), Some(g1), reverse);
    ElasticQueryPrecedence(Some(query), Some(g2), reverse);
  }

  /** The filter part of the corrected key. */
  function FilterSuffix(f: Filter): string
  {
    match f
    case ByGenre(g) => "||genre::" + g
    case ByTitle(t) => "||query::" + t
    case _ => ""
  }

  /** The cache key with each field labelled and separated, and the same
    * genre-before-query precedence as the body, e.g.
    * `films||reverse::desc||page_number::2||page_size::10`. */
  function CacheKey(q: FilmsQuery): string
  {
    "films||reverse::" + q.reverse + "|" + KeyTail(IntToString(q.number), IntToString(q.size), EffectiveFilter(q.query, q.genre))
  }

  /** The default listing's second page is cached under the labelled key
    * the functional test looks for. */
  lemma CacheKeyOfSecondPage()
    ensures CacheKey(FilmsQuery(None, None, "desc", 10, 2)) == "films||reverse::desc||page_number::2||page_size::10"
  {
    var q := FilmsQuery(None, None, "desc", 10, 2);
    assert EffectiveFilter(q.query, q.genre) == All;
    SecondPageTail();
    assert CacheKey(q) == "films||reverse::desc|" + "|page_number::2||page_size::10";
    SecondPageJoin();
  }

  lemma SecondPageJoin()
    ensures "films||reverse::desc|" + "|page_number::2||page_size::10" == "films||reverse::desc||page_number::2||page_size::10"
  {
  }

  lemma SecondPageTail()
    ensures KeyTail(IntToString(2), IntToString(10), All) == "|page_number::2||page_size::10"
  {
    assert IntToString(2) == "2";
    assert NatToString(10) == NatToString(1) + [DigitChar(0)] == "10";
  }

  /** The corrected key after the order: `|page_number::N||page_size::S` and the filter. */
  function KeyTail(number: string, size: string, f: Filter): string
  {
    "|page_number::" + number + "||page_size::" + size + FilterSuffix(f)
  }

  lemma FilterSuffixInjective(f1: Filter, f2: Filter)
    requires f1 != Other && f2 != Other
    requires FilterSuffix(f1) == FilterSuffix(f2)
    ensures f1 == f2
  {
    var s := FilterSuffix(f1);
    if s != "" {
      assert f1.ByGenre? <==> s[2] == 'g';
      assert f2.ByGenre? <==> s[2] == 'g';
      if f1.ByGenre? {
        StripPrefix("||genre::", f1.uuid, f2.uuid);
      } else {
        StripPrefix("||query::", f1.text, f2.text);
      }
    }
  }

  /** The page size and the filter can be read back from what follows
    * `||page_size::`. */
  lemma PageSizeInjective(s1: string, f1: Filter, s2: string, f2: Filter)
    requires '|' !in s1 && '|' !in s2
    requires f1 != Other && f2 != Other
    requires "||page_size::" + (s1 + FilterSuffix(f1)) == "||page_size::" + (s2 + FilterSuffix(f2))
    ensures s1 == s2 && f1 == f2
  {
    var x1, x2 := FilterSuffix(f1), FilterSuffix(f2);
    StripPrefix("||page_size::", s1 + x1, s2 + x2);
    BarFreeSplit(s1, x1, s2, x2);
    FilterSuffixInjective(f1, f2);
  }

  /** The corrected key's tail, grouped from the right. */
  lemma KeyTailShape(n: string, s: string, f: Filter)
    ensures KeyTail(n, s, f) == "|page_number::" + (n + ("||page_size::" + (s + FilterSuffix(f))))
  {
  }

  /** The page fields and the filter can be read back from what follows
    * the order in a corrected key. */
  lemma KeyTailInjective(n1: string, s1: string, f1: Filter, n2: string, s2: string, f2: Filter)
    requires '|' !in n1 && '|' !in s1 && '|' !in n2 && '|' !in s2
    requires f1 != Other && f2 != Other
    requires KeyTail(n1, s1, f1) == KeyTail(n2, s2, f2)
    ensures n1 == n2 && s1 == s2 && f1 == f2
  {
    var size1, size2 := "||page_size::" + (s1 + FilterSuffix(f1)), "||page_size::" + (s2 + FilterSuffix(f2));
    KeyTailShape(n1, s1, f1);
    KeyTailShape(n2, s2, f2);
    StripPrefix("|page_number::", n1 + size1, n2 + size2);
    BarFreeSplit(n1, size1, n2, size2);
    PageSizeInjective(s1, f1, s2, f2);
  }

  /** The order can be read back from the head of a corrected key. */
  lemma KeyHeadInjective(r1: string, t1: string, r2: string, t2: string)
    requires '|' !in r1 && '|' !in r2
    requires "films||reverse::" + r1 + "|" + t1 == "films||reverse::" + r2 + "|" + t2
    ensures r1 == r2 && t1 == t2
  {
    assert "films||reverse::" + r1 + "|" + t1 == "films||reverse::" + (r1 + ("|" + t1));
    assert "films||reverse::" + r2 + "|" + t2 == "films||reverse::" + (r2 + ("|" + t2));
    StripPrefix("films||reverse::", r1 + ("|" + t1), r2 + ("|" + t2));
    BarFreeSplit(r1, "|" + t1, r2, "|" + t2);
    StripPrefix("|", t1, t2);
  }

  /** A corrected key determines the order, the page and the filter. */
  lemma CacheKeyInjective(a: FilmsQuery, b: FilmsQuery)
    requires '|' !in a.reverse && '|' !in b.reverse
    requires CacheKey(a) == CacheKey(b)
    ensures a.reverse == b.reverse && a.number == b.number && a.size == b.size
    ensures EffectiveFilter(a.query, a.genre) == EffectiveFilter(b.query, b.genre)
  {
    var na, sa, fa := IntToString(a.number), IntToString(a.size), EffectiveFilter(a.query, a.genre);
    var nb, sb, fb := IntToString(b.number), IntToString(b.size), EffectiveFilter(b.query, b.genre);
    KeyHeadInjective(a.reverse, KeyTail(na, sa, fa), b.reverse, KeyTail(nb, sb, fb));
    KeyTailInjective(na, sa, fa, nb, sb, fb);
    IntToStringInjective(a.number, b.number);
    IntToStringInjective(a.size, b.size);
  }

  /** Requests that share a key send the same search (for `reverse` texts
    * without '|', which covers every order `film_list` passes), so a
    * cached page is always the page asked for. */
  lemma CacheKeySound(a: FilmsQuery, b: FilmsQuery)
    requires '|' !in a.reverse && '|' !in b.reverse
    requires CacheKey(a) == CacheKey(b)
    ensures FilmsRequest(a) == FilmsRequest(b)
  {
    CacheKeyInjective(a, b);
  }

  /** `_get_films_from_elastic`'s outcome: no index means no films; a
    * response without hits fails. */
  function FilmsFromElastic(c: Cluster, req: SearchRequest): Result<seq<Row>, ServiceError>
  {
    match c.searchFilms(req)
    case NotFound => Ok([])
    case Falsy => Err(MalformedResponse)
    case Hits(sources) => Ok(sources)
  }

  /** `get_all_films` on cache `entries`. */
  function AllFilms(entries: map<string, Entry>, c: Cluster, q: FilmsQuery): Result<Answer<seq<Row>>, ServiceError>
  {
    ListCacheAside(entries, CacheKey(q), FilmsFromElastic(c, FilmsRequest(q)))
  }

  /** `get_all_films` as written, reading and writing the run-together key. */
  function AllFilmsAsWritten(entries: map<string, Entry>, c: Cluster, q: FilmsQuery): Result<Answer<seq<Row>>, ServiceError>
  {
    ListCacheAside(entries, CacheKeyAsWritten(q), FilmsFromElastic(c, FilmsRequest(q)))
  }

  /** As written, once page 1 of 23 films has been fetched and cached, a
    * request for page 12 of 3 films is answered with those films, although
    * it asks for a different search, whatever the cluster holds by then. */
  lemma AllFilmsAsWrittenServesOtherPage(entries: map<string, Entry>, c: Cluster, later: Cluster, films: seq<Row>)
    requires ListFromCache(entries, "filmsdesc123") == Ok(None)
    requires FilmsFromElastic(c, FilmsRequest(FilmsQuery(None, None, "desc", 23, 1))) == Ok(films) && films != []
    ensures var a := FilmsQuery(None, None, "desc", 23, 1);
            var b := FilmsQuery(None, None, "desc", 3, 12);
            var r := AllFilmsAsWritten(entries, c, a);
            && FilmsRequest(a) != FilmsRequest(b)
            && r.Ok? && r.value.value == films
            && AllFilmsAsWritten(r.value.entries, later, b) == Ok(Answer(films, r.value.entries))
  {
    var a := FilmsQuery(None, None, "desc", 23, 1);
    var b := FilmsQuery(None, None, "desc", 3, 12);
    CacheKeyAsWrittenCollides();
    ListRoundTrip(entries, "filmsdesc123", films, FilmsFromElastic(later, FilmsRequest(b)));
  }

  /** A page fetched on a miss holds at most `size` films when the cluster
    * honours the page size. */
  lemma AllFilmsPageBounded(entries: map<string, Entry>, c: Cluster, q: FilmsQuery)
    requires HonoursSize(c.searchFilms) && 0 <= q.size
    requires ListFromCache(entries, CacheKey(q)) == Ok(None)
    ensures var r := AllFilms(entries, c, q);
            r.Ok? ==> |r.value.value| <= q.size && r.value.entries[CacheKey(q)] == Entry(ListJson(r.value.value), CacheExpire)
  {
    var req := FilmsRequest(q);
    if c.searchFilms(req).Hits? {
      assert |c.searchFilms(req).sources| <= req.size;
    }
  }

  /** `get_by_id` of `FilmService` on cache `entries`: the film is cached
    * under its `uuid`. */
  function FilmById(entries: map<string, Entry>, c: Cluster, id: string): Result<Answer<Option<FilmDetail>>, ServiceError>
  {
    CacheAside(entries, id, FilmOf, c.movies, (f: FilmDetail) => FilmJson(f), (f: FilmDetail) => f.uuid)
  }

  /** Every film of the index is stored under its own `uuid`, as the
    * synchronisation job stores them. */
  ghost predicate KeyedByUuid(movies: map<string, FilmDetail>)
  {
    forall k :: k in movies ==> movies[k].uuid == k
  }

  class FilmService {
    const redis: Redis
    const elastic: Cluster

    constructor(redis: Redis, elastic: Cluster)
      ensures this.redis == redis && this.elastic == elastic
    {
      this.redis := redis;
      this.elastic := elastic;
    }

    /** The film from the cache, else from the index (and then cached). */
    method GetById(filmId: string) returns (r: Result<Option<FilmDetail>, ServiceError>)
      modifies redis
      ensures var a := FilmById(old(redis.entries), elastic, filmId);
              r == ValueOf(a) && redis.entries == EntriesAfter(old(redis.entries), a)
    {
      var data := redis.Get(filmId);
      if data.Some? {
        var film := FilmOf(data.value);
        if film.None? {
          return Err(CorruptCacheEntry(filmId));
        }
        return Ok(film);
      }
      if filmId !in elastic.movies {
        return Ok(None);
      }
      var film := elastic.movies[filmId];
      redis.Set(film.uuid, FilmJson(film), CacheExpire);
      r := Ok(Some(film));
    }
  }

  class FilmsServices {
    const redis: Redis
    const elastic: Cluster

    constructor(redis: Redis, elastic: Cluster)
      ensures this.redis == redis && this.elastic == elastic
    {
      this.redis := redis;
      this.elastic := elastic;
    }

    /** The hits of a films search, one film per hit, in order. */
    method FilmsFromHits(req: SearchRequest) returns (r: Result<seq<Row>, ServiceError>)
      ensures r == FilmsFromElastic(elastic, req)
    {
      var docs := elastic.searchFilms(req);
      if docs.NotFound? {
        return Ok([]);
      }
      if docs.Falsy? {
        return Err(MalformedResponse);
      }
      var films: seq<Row> := [];
      for i := 0 to |docs.sources|
        invariant films == docs.sources[..i]
      {
        films := films + [docs.sources[i]];
      }
      assert docs.sources[..|docs.sources|] == docs.sources;
      r := Ok(films);
    }

    /** A page of films, from the cache or from the index (and then cached,
      * even when empty). */
    method GetAllFilms(query: Option<string>, genre: Option<string>, reverse: string, size: int, number: int)
        returns (r: Result<seq<Row>, ServiceError>)
      modifies redis
      ensures var a := AllFilms(old(redis.entries), elastic, FilmsQuery(query, genre, reverse, size, number));
              r == ValueOf(a) && redis.entries == EntriesAfter(old(redis.entries), a)
    {
      var q := FilmsQuery(query, genre, reverse, size, number);
      var key := CacheKey(q);
      var data := redis.Get(key);
      if data.Some? && !data.value.ListJson? {
        return Err(CorruptCacheEntry(key));
      }
      if data.Some? && data.value.items != [] {
        return Ok(data.value.items);
      }
      var films := FilmsFromHits(FilmsRequest(q));
      if films.Err? {
        return films;
      }
      redis.Set(key, ListJson(films.value), CacheExpire);
      r := films;
    }
  }
}

/** The films endpoints: the list handler, which turns the `sort` parameter
  * into an order and projects each film, its unrouted duplicate, which
  * returns the service's films as they are, and the two detail handlers,
  * which answer 404 for a film that is nowhere. */
module FilmsApi {
  import opened Common
  import opened Values
  import opened Entities
  import opened Cache
  import opened Search
  import opened FilmServices

  /** What a handler answers instead of a body. */
  datatype ApiError =
    | HttpNotFound(detail: string)   // 404
    | SortIndexError                 // `sort[0]` on an empty `sort`
    | MissingField(key: string)      // a cached or indexed film without a projected field
    | ServiceFailed(error: ServiceError)

  /** The parameters the list handler hands to the service. */
  datatype Normalised = Normalised(genre: Option<string>, reverse: string)

  /** `film_list`'s parameter handling: a title search drops the genre and
    * the order; otherwise a leading '-' in `sort` asks for descending
    * order and anything else for ascending; an empty `sort` fails. */
  function Normalise(query: Option<string>, genre: Option<string>, sort: string): (r: Result<Normalised, ApiError>)
    ensures r.Err? <==> !Truthy(query) && sort == ""
    ensures r.Err? ==> r.error == SortIndexError
    ensures r.Ok? ==> r.value.reverse == "" || r.value.reverse == "asc" || r.value.reverse == "desc"
    ensures r.Ok? && Truthy(query) ==> r.value == Normalised(None, "")
    ensures r.Ok? && !Truthy(query) ==> r.value.genre == genre
    ensures r.Ok? && !Truthy(query) ==> (r.value.reverse == "desc" <==> sort[0] == '-')
    ensures r.Ok? && !Truthy(query) ==> (r.value.reverse == "asc" <==> sort[0] != '-')
  {
    if Truthy(query) then Ok(Normalised(None, ""))
    else if sort == "" then Err(SortIndexError)
    else Ok(Normalised(genre, if sort[0] == '-' then "desc" else "asc"))
  }

  /** The handler's defaults (sort by descending rating) ask for the
    * descending order and keep the genre filter. */
  lemma DefaultSortIsDescending(genre: Option<string>)
    ensures Normalise(None, genre, "-imdb_rating") == Ok(Normalised(genre, "desc"))
  {
  }

  /** After normalisation a title search never carries a genre, so the
    * order in which the key and the body test query and genre does not
    * matter; and two normalised requests with the same key send the same
    * search. */
  lemma NormalisedRequestsKeySound(q1: Option<string>, g1: Option<string>, sort1: string, size1: int, number1: int,
                                   q2: Option<string>, g2: Option<string>, sort2: string, size2: int, number2: int)
    requires Normalise(q1, g1, sort1).Ok? && Normalise(q2, g2, sort2).Ok?
    ensures !(Truthy(q1) && Truthy(Normalise(q1, g1, sort1).value.genre))
    ensures var n1, n2 := Normalise(q1, g1, sort1).value, Normalise(q2, g2, sort2).value;
            var a, b := FilmsQuery(q1, n1.genre, n1.reverse, size1, number1), FilmsQuery(q2, n2.genre, n2.reverse, size2, number2);
            CacheKey(a) == CacheKey(b) ==> FilmsRequest(a) == FilmsRequest(b)
  {
    var n1, n2 := Normalise(q1, g1, sort1).value, Normalise(q2, g2, sort2).value;
    var a, b := FilmsQuery(q1, n1.genre, n1.reverse, size1, number1), FilmsQuery(q2, n2.genre, n2.reverse, size2, number2);
    if CacheKey(a) == CacheKey(b) {
      CacheKeySound(a, b);
    }
  }

  /** A film of the list response. */
  datatype FilmApi = FilmApi(uuid: Value, title: Value, imdbRating: Value)

  predicate Projectable(film: Row)
  {
    "id" in film && "title" in film && "imdb_rating" in film
  }

  /** The list response: each film's `id`, `title` and `imdb_rating`, in
    * order; a film without one of them fails the request. */
  function ProjectFilms(films: seq<Row>): (r: Result<seq<FilmApi>, ApiError>)
    ensures r.Ok? <==> forall i :: 0 <= i < |films| ==> Projectable(films[i])
    ensures r.Ok? ==> |r.value| == |films|
    ensures r.Ok? ==> forall i :: 0 <= i < |films| ==>
              r.value[i] == FilmApi(films[i]["id"], films[i]["title"], films[i]["imdb_rating"])
  {
    if films == [] then Ok([])
    else
      var last := films[|films| - 1];
      match ProjectFilms(films[..|films| - 1])
      case Err(e) => Err(e)
      case Ok(init) =>
        if "id" !in last then Err(MissingField("id"))
        else if "title" !in last then Err(MissingField("title"))
        else if "imdb_rating" !in last then Err(MissingField("imdb_rating"))
        else Ok(init + [FilmApi(last["id"], last["title"], last["imdb_rating"])])
  }

  /** The detail response of `api/v1/films.py`. */
  datatype FilmDetailApi = FilmDetailApi(
    uuid: string,
    title: string,
    imdbRating: Value,
    description: string,
    genre: seq<Value>,
    actors: Option<seq<Value>>,
    writers: Option<seq<Value>>,
    directors: Option<seq<Value>>)

  const FilmNotFound: string := "film not found"

  /** `film_details`: 404 exactly when the service found no film; otherwise
    * its fields, with the film's `id` as `uuid`. */
  function FilmDetails(found: Option<FilmDetail>): (r: Result<FilmDetailApi, ApiError>)
    ensures r.Err? <==> found.None?
    ensures r.Err? ==> r.error == HttpNotFound(FilmNotFound)
    ensures r.Ok? ==> r.value.uuid == found.value.id
  {
    match found
    case None => Err(HttpNotFound(FilmNotFound))
    case Some(f) => Ok(FilmDetailApi(f.id, f.title, f.imdbRating, f.description, f.genre, f.actors, f.writers, f.directors))
  }

  /** `film_details` of the unrouted `api/v1/film.py`: the same, with the
    * film's `uuid` as `uuid`. */
  function FilmDetailsUnrouted(found: Option<FilmDetail>): (r: Result<FilmDetailApi, ApiError>)
    ensures r.Err? <==> found.None?
    ensures r.Err? ==> r.error == HttpNotFound(FilmNotFound)
    ensures r.Ok? ==> r.value.uuid == found.value.uuid
  {
    match found
    case None => Err(HttpNotFound(FilmNotFound))
    case Some(f) => Ok(FilmDetailApi(f.uuid, f.title, f.imdbRating, f.description, f.genre, f.actors, f.writers, f.directors))
  }

  /** Both detail handlers copy the other seven fields unchanged, and the
    * two agree whenever a film's `id` is its `uuid`. */
  lemma DetailHandlersAgree(found: Option<FilmDetail>)
    ensures found.Some? ==>
              var f, r := found.value, FilmDetails(found).value;
              && r.title == f.title && r.imdbRating == f.imdbRating && r.description == f.description
              && r.genre == f.genre && r.actors == f.actors && r.writers == f.writers && r.directors == f.directors
              && FilmDetailsUnrouted(found).value == r.(uuid := f.uuid)
    ensures found.Some? && found.value.id == found.value.uuid ==> FilmDetails(found) == FilmDetailsUnrouted(found)
  {
  }

  /** The list response for a service outcome. */
  function ListResponse(films: Result<seq<Row>, ServiceError>): Result<seq<FilmApi>, ApiError>
  {
    match films
    case Err(e) => Err(ServiceFailed(e))
    case Ok(fs) => ProjectFilms(fs)
  }

  /** `film_list`: normalise, ask the service, project. */
  method FilmList(service: FilmsServices, query: Option<string>, genre: Option<string>, sort: string := "-imdb_rating",
                  pageSize: int := 10, pageNumber: int := 1) returns (r: Result<seq<FilmApi>, ApiError>)
    modifies service.redis
    ensures match Normalise(query, genre, sort)
            case Err(e) => r == Err(e) && service.redis.entries == old(service.redis.entries)
            case Ok(n) =>
              var a := AllFilms(old(service.redis.entries), service.elastic, FilmsQuery(query, n.genre, n.reverse, pageSize, pageNumber));
              r == ListResponse(ValueOf(a)) && service.redis.entries == EntriesAfter(old(service.redis.entries), a)
  {
    var params := Normalise(query, genre, sort);
    if params.Err? {
      return Err(params.error);
    }
    var films := service.GetAllFilms(query, params.value.genre, params.value.reverse, pageSize, pageNumber);
    r := ListResponse(films);
  }

  /** `film_list` of the unrouted `api/v1/film.py`: the service's films as
    * they are. */
  method FilmListUnrouted(service: FilmsServices, query: Option<string>, genre: Option<string>, sort: string := "-imdb_rating",
                          pageSize: int := 10, pageNumber: int := 1) returns (r: Result<seq<Row>, ApiError>)
    modifies service.redis
    ensures match Normalise(query, genre, sort)
            case Err(e) => r == Err(e) && service.redis.entries == old(service.redis.entries)
            case Ok(n) =>
              var a := AllFilms(old(service.redis.entries), service.elastic, FilmsQuery(query, n.genre, n.reverse, pageSize, pageNumber));
              service.redis.entries == EntriesAfter(old(service.redis.entries), a)
              && (a.Ok? ==> r == Ok(a.value.value)) && (a.Err? ==> r == Err(ServiceFailed(a.error)))
  {
    var params := Normalise(query, genre, sort);
    if params.Err? {
      return Err(params.error);
    }
    var films := service.GetAllFilms(query, params.value.genre, params.value.reverse, pageSize, pageNumber);
    if films.Err? {
      return Err(ServiceFailed(films.error));
    }
    r := Ok(films.value);
  }

  /** `film_details` of either module: 404 for a film in neither the cache
    * nor the index. */
  method FilmDetailsHandler(service: FilmService, filmId: string, unrouted: bool) returns (r: Result<FilmDetailApi, ApiError>)
    modifies service.redis
    ensures var a := FilmById(old(service.redis.entries), service.elastic, filmId);
            service.redis.entries == EntriesAfter(old(service.redis.entries), a)
            && (a.Err? ==> r == Err(ServiceFailed(a.error)))
            && (a.Ok? ==> r == if unrouted then FilmDetailsUnrouted(a.value.value) else FilmDetails(a.value.value))
  {
    var film := service.GetById(filmId);
    if film.Err? {
      return Err(ServiceFailed(film.error));
    }
    r := if unrouted then FilmDetailsUnrouted(film.value) else FilmDetails(film.value);
  }
}

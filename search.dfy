/** The Elasticsearch cluster as the API services read it: documents
  * fetched by id and searches answered by the cluster. What a search
  * returns is the cluster's business; the model fixes only the request the
  * services send. */
module Search {
  import opened Values
  import opened Entities

  /** One search call: the index, the `from_` offset, the page size and the
    * query body. */
  datatype SearchRequest = SearchRequest(index: string, from: int, size: int, body: Value)

  /** The outcome of a search: `NotFoundError`, a falsy (empty) response, or
    * the `_source` of each hit in order. */
  datatype SearchOutcome<T> = NotFound | Falsy | Hits(sources: seq<T>)

  /** The cluster: `get` by index and id, and a search per index whose hits
    * are already read into the model the service builds from them. */
  datatype Cluster = Cluster(
    movies: map<string, FilmDetail>,
    genres: map<string, Genre>,
    persons: map<string, Person>,
    searchFilms: SearchRequest -> SearchOutcome<Row>,
    searchGenres: SearchRequest -> SearchOutcome<Row>,
    searchPersons: SearchRequest -> SearchOutcome<Person>)

  /** A search that never returns more hits than the page size asked for. */
  ghost predicate HonoursSize<T>(search: SearchRequest -> SearchOutcome<T>)
  {
    forall req :: search(req).Hits? ==> |search(req).sources| <= req.size
  }

  /** `paginate_elastic`: page 1 starts at 0, page n at `size * (n - 1)`. */
  function Paginate(size: int, number: int): int
  {
    if number == 1 then 0 else size * (number - 1)
  }

  /** The special case for page 1 is the general formula: the offset skips
    * the `number - 1` earlier pages; it is never negative for a page number
    * from 1 and a page size from 0, and pages follow each other without
    * gap or overlap. */
  lemma PaginateSkipsEarlierPages(size: int, number: int)
    ensures Paginate(size, number) == (number - 1) * size
    ensures number >= 1 && size >= 0 ==> Paginate(size, number) >= 0
    ensures Paginate(size, number + 1) == Paginate(size, number) + size
  {
    if number >= 1 && size >= 0 {
      assert (number - 1) * size >= 0;
    }
  }
}

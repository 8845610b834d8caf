/** The records the API serves: a film with its details, a genre and a
  * person, as the pydantic models hold them once validated. */
module Entities {
  import opened Common
  import opened Values

  /** `Film_Detail`: `id` comes from the shared base model, `uuid` from the
    * film document; rating and the list fields are kept as JSON values. */
  datatype FilmDetail = FilmDetail(
    id: string,
    uuid: string,
    title: string,
    imdbRating: Value,
    description: string,
    genre: seq<Value>,
    actors: Option<seq<Value>>,
    writers: Option<seq<Value>>,
    directors: Option<seq<Value>>)

  datatype Genre = Genre(uuid: string, name: string)

  /** A person and the ids of the films they took part in. */
  datatype Person = Person(id: string, fullName: string, filmIds: seq<string>)

  /** Python truthiness of an optional string: neither `None` nor `''`. */
  predicate Truthy(s: Option<string>)
  {
    s.Some? && s.value != ""
  }
}

/** The three entity kinds the job synchronises; their names are also the
  * watermark keys. */
module Kinds {

  const FilmWork: string := "film_work"
  const Genre: string := "genre"
  const Person: string := "person"

  /** The order in which one run visits the kinds (the insertion order of
    * the `states` dict). */
  const RunOrder: seq<string> := [FilmWork, Genre, Person]

  lemma RunOrderDistinct()
    ensures FilmWork != Genre && Genre != Person && FilmWork != Person
    ensures |RunOrder| == 3 && RunOrder[0] == FilmWork && RunOrder[1] == Genre && RunOrder[2] == Person
  {
  }
}

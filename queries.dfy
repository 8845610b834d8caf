/** The SQL text the synchronisation job sends: the denormalising film
  * query with its WHERE block, and the prequeries that find the films
  * touched by a changed genre or person. */
module Queries {
  import opened Common
  import opened Strings
  import opened Values
  import opened Timestamps

  datatype QueryError = IndexOutOfRange   // `where_block[-2]` on fewer than two characters

  /** Everything of the film query before its WHERE block. */
  const FilmQueryHead: string :=
    "SELECT "
    + "fw.id, "
    + "fw.rating, "
    + "fw.title, "
    + "fw.description, "
    + "ARRAY_AGG(DISTINCT jsonb_build_object('name', g.name, 'uuid', g.id)) AS genres, "
    + "ARRAY_AGG(DISTINCT p.full_name) FILTER (WHERE pfw.role = 'director') AS directors_names, "
    + "ARRAY_AGG(DISTINCT p.full_name) FILTER (WHERE pfw.role = 'actor') AS actors_names, "
    + "ARRAY_AGG(DISTINCT p.full_name) FILTER (WHERE pfw.role = 'writer') AS writers_names, "
    + "ARRAY_AGG(DISTINCT jsonb_build_object('uuid', p.id, 'full_name', p.full_name)) FILTER (WHERE pfw.role = 'director') AS directors, "
    + "ARRAY_AGG(DISTINCT jsonb_build_object('uuid', p.id, 'full_name', p.full_name)) FILTER (WHERE pfw.role = 'actor') AS actors, "
    + "ARRAY_AGG(DISTINCT jsonb_build_object('uuid', p.id, 'full_name', p.full_name)) FILTER (WHERE pfw.role = 'writer') AS writers "
    + "FROM content.film_work fw "
    + "LEFT JOIN content.person_film_work pfw ON pfw.film_work_id = fw.id "
    + "LEFT JOIN content.person p ON p.id = pfw.person_id "
    + "LEFT JOIN content.genre_film_work gfw ON gfw.film_work_id = fw.id "
    + "LEFT JOIN content.genre g ON g.id = gfw.genre_id "

  /** Everything after the WHERE block; no separator is put in between. */
  const FilmQueryTail: string := "GROUP BY fw.id"

  /** The film query around a WHERE block. */
  function Assemble(block: string): string
  {
    FilmQueryHead + block + FilmQueryTail
  }

  /** The WHERE block `make_query` embeds: a block whose second-to-last
    * character is a comma (a one-element Python tuple) loses all its
    * commas; any other block is kept. */
  function FixBlock(whereBlock: string): string
    requires |whereBlock| >= 2
  {
    if whereBlock[|whereBlock| - 2] == ',' then RemoveAll(whereBlock, ',') else whereBlock
  }

  /** `make_query`: the fixed-up block between head and tail; a block of
    * fewer than two characters fails. */
  function MakeQuery(whereBlock: string): (r: Result<string, QueryError>)
    ensures r.Ok? <==> |whereBlock| >= 2
    ensures r.Ok? ==> FilmQueryHead <= r.value
    ensures r.Ok? ==> |r.value| <= |FilmQueryHead| + |whereBlock| + |FilmQueryTail|
  {
    if |whereBlock| < 2 then Err(IndexOutOfRange) else Ok(Assemble(FixBlock(whereBlock)))
  }

  lemma MakeQueryKeepsBlock(whereBlock: string)
    requires |whereBlock| >= 2 && whereBlock[|whereBlock| - 2] != ','
    ensures MakeQuery(whereBlock) == Ok(Assemble(whereBlock))
  {
  }

  lemma MakeQueryStripsCommas(whereBlock: string)
    requires |whereBlock| >= 2 && whereBlock[|whereBlock| - 2] == ','
    ensures MakeQuery(whereBlock) == Ok(Assemble(RemoveAll(whereBlock, ',')))
    ensures ',' !in RemoveAll(whereBlock, ',')
  {
  }

  /** The WHERE block the job builds for a chunk of film ids. */
  function IdsBlock(ids: seq<Value>): string
  {
    "WHERE fw.id IN " + TupleRepr(ids)
  }

  /** An SQL list of quoted ids, `('a', 'b')`. */
  function SqlList(ids: seq<Value>): string
  {
    "(" + JoinReprs(ids) + ")"
  }

  lemma {:induction false} JoinReprsEndsWithQuote(ids: seq<Value>)
    requires ids != []
    requires forall i :: 0 <= i < |ids| ==> PlainText(ids[i])
    ensures var j := JoinReprs(ids); |j| >= 2 && j[|j| - 1] == '\''
  {
    if |ids| > 1 {
      JoinReprsEndsWithQuote(ids[1..]);
    }
  }

  /** The single-id fix-up: `WHERE fw.id IN ('x',)` loses exactly its
    * tuple comma. */
  lemma OneIdBlock(prefix: string, open: string, close: string)
    requires ',' !in prefix && ',' !in open
    requires close == ",)"
    ensures FixBlock(prefix + (open + close)) == prefix + (open + ")")
  {
    var b := prefix + (open + close);
    assert b[|b| - 2] == ',';
    RemoveAllAppend(prefix, open + close, ',');
    RemoveAllAppend(open, close, ',');
    RemoveAllAbsent(prefix, ',');
    RemoveAllAbsent(open, ',');
    assert RemoveAll(close, ',') == ")";
  }

  /** The fixed-up block of a chunk of plain text ids is an SQL list. */
  lemma ChunkBlockIsSqlList(ids: seq<Value>)
    requires ids != []
    requires forall i :: 0 <= i < |ids| ==> PlainText(ids[i])
    ensures FixBlock(IdsBlock(ids)) == "WHERE fw.id IN " + SqlList(ids)
  {
    var prefix := "WHERE fw.id IN ";
    if |ids| == 1 {
      var s := ids[0].chars;
      assert ',' !in s;
      var open := "(" + Quote(s);
      assert ',' !in open;
      OneIdBlock(prefix, open, ",)");
    } else {
      JoinReprsEndsWithQuote(ids);
      var j := JoinReprs(ids);
      var b := prefix + ("(" + j + ")");
      assert b[|b| - 2] == j[|j| - 1];
    }
  }

  /** For any non-empty chunk of plain text ids the film query receives a
    * well-formed SQL list: a one-element chunk loses exactly its tuple
    * comma, a longer chunk is left alone. */
  lemma ChunkQueryIsSqlList(ids: seq<Value>)
    requires ids != []
    requires forall i :: 0 <= i < |ids| ==> PlainText(ids[i])
    ensures MakeQuery(IdsBlock(ids)) == Ok(Assemble("WHERE fw.id IN " + SqlList(ids)))
  {
    ChunkBlockIsSqlList(ids);
  }

  /** The WHERE block of the film pass: rows changed after the watermark. */
  function UpdatedSinceBlock(since: Timestamp): string
  {
    "WHERE fw.updated_at > '" + DateText(since) + "'"
  }

  /** A timestamp never ends in a comma, so the film pass's block is kept as is. */
  lemma UpdatedSinceBlockKept(since: Timestamp)
    ensures FixBlock(UpdatedSinceBlock(since)) == UpdatedSinceBlock(since)
  {
    var b := UpdatedSinceBlock(since);
    assert b[|b| - 2] == DateText(since)[|DateText(since)| - 1];
    assert IsDigit(b[|b| - 2]);
  }

  lemma UpdatedSinceQuery(since: Timestamp)
    ensures MakeQuery(UpdatedSinceBlock(since)) == Ok(Assemble(UpdatedSinceBlock(since)))
  {
    UpdatedSinceBlockKept(since);
  }

  const GenreSelect: string := "SELECT fw.id AS fid, g.id AS gid, g.name AS name "

  const GenrePrequeryHead: string :=
    GenreSelect
    + "FROM content.genre_film_work gfw "
    + "LEFT JOIN content.film_work fw ON fw.id = gfw.film_work_id "
    + "LEFT JOIN content.genre g ON g.id = gfw.genre_id "
    + "WHERE g.updated_at > "

  const PersonSelect: string := "SELECT fw.id AS fid "

  const PersonPrequeryHead: string :=
    PersonSelect
    + "FROM content.person_film_work pfw "
    + "LEFT JOIN content.film_work fw ON fw.id = pfw.film_work_id "
    + "LEFT JOIN content.person p ON p.id = pfw.person_id "
    + "WHERE p.updated_at > "

  function PrequeryHead(index: string): string
  {
    if index == "genre" then GenrePrequeryHead else PersonPrequeryHead
  }

  function PrequeryTail(index: string): string
  {
    if index == "genre" then " GROUP BY fw.id, g.id" else " GROUP BY fw.id"
  }

  /** `make_prequery`: the junction query that yields, for every genre
    * (columns fid, gid, name) or person (column fid) changed after `since`,
    * the films linked to it; no query for any other kind. */
  function MakePrequery(index: string, since: Timestamp): (r: Option<string>)
    ensures r.Some? <==> index == "genre" || index == "person"
    ensures index == "genre" ==> GenreSelect <= r.value
    ensures index == "person" ==> PersonSelect <= r.value
  {
    if index == "genre" || index == "person" then
      Some(PrequeryHead(index) + Quote(DateText(since)) + PrequeryTail(index))
    else None
  }

  /** Both prequeries carry the watermark quoted right after `updated_at > `,
    * and different watermarks give different queries. */
  lemma PrequeryEmbedsSince(index: string, a: Timestamp, b: Timestamp)
    requires index == "genre" || index == "person"
    ensures MakePrequery(index, a).value == PrequeryHead(index) + "'" + DateText(a) + "'" + PrequeryTail(index)
    ensures MakePrequery(index, a) == MakePrequery(index, b) ==> a == b
  {
    var head, tail := PrequeryHead(index) + "'", "'" + PrequeryTail(index);
    Regroup(PrequeryHead(index), "'", DateText(a), "'", PrequeryTail(index));
    Regroup(PrequeryHead(index), "'", DateText(b), "'", PrequeryTail(index));
    if MakePrequery(index, a) == MakePrequery(index, b) {
      SameFrame(head, DateText(a), DateText(b), tail);
      DateTextInjective(a, b);
    }
  }
}

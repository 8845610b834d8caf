/** `etl_part2`: database rows become search documents, documents become
  * bulk `index` actions, and the actions go to the cluster in one call. */
module Documents {
  import opened Common
  import opened Values
  import opened Kinds
  import opened SearchIndex

  /** Why a load stops: a row lacks a column the transform reads (KeyError),
    * or the kind builds no document at all (the unbound local `object`). */
  datatype EtlError = MissingKey(key: string) | NoDocumentForState(state: string)

  /** The row columns the `film_work` literal reads, in evaluation order. */
  const FilmColumns: seq<string> := [
    "id", "rating", "genres", "title", "description", "directors_names",
    "actors_names", "writers_names", "directors", "actors", "writers"
  ]

  /** The row columns the `genre` literal reads. */
  const GenreColumns: seq<string> := ["gid", "name"]

  predicate HasColumns(row: Row, columns: seq<string>)
  {
    forall i :: 0 <= i < |columns| ==> columns[i] in row
  }

  /** The column whose lookup raises first, if any. */
  function FirstMissing(row: Row, columns: seq<string>): (r: Option<string>)
    ensures r.None? <==> HasColumns(row, columns)
    ensures r.Some? ==> exists i :: 0 <= i < |columns| && r.value == columns[i] && columns[i] !in row
                                    && HasColumns(row, columns[..i])
  {
    if columns == [] then None
    else if columns[0] !in row then
      assert HasColumns(row, columns[..0]);
      Some(columns[0])
    else
      var r := FirstMissing(row, columns[1..]);
      if r.Some? then
        var i :| 0 <= i < |columns[1..]| && r.value == columns[1..][i] && columns[1..][i] !in row
                 && HasColumns(row, columns[1..][..i]);
        assert columns[..i + 1] == [columns[0]] + columns[1..][..i];
        r
      else
        r
  }

  /** The `film_work` document: `id`, `rating` and `genres` renamed to
    * `uuid`, `imdb_rating` and `genre`, the other eight columns copied. */
  function FilmDocument(row: Row): (d: Row)
    requires HasColumns(row, FilmColumns)
  {
    assert FilmColumns[0] in row && FilmColumns[1] in row && FilmColumns[2] in row && FilmColumns[3] in row;
    assert FilmColumns[4] in row && FilmColumns[5] in row && FilmColumns[6] in row && FilmColumns[7] in row;
    assert FilmColumns[8] in row && FilmColumns[9] in row && FilmColumns[10] in row;
    map["uuid" := row["id"], "imdb_rating" := row["rating"], "genre" := row["genres"],
        "title" := row["title"], "description" := row["description"],
        "directors_names" := row["directors_names"], "actors_names" := row["actors_names"],
        "writers_names" := row["writers_names"], "directors" := row["directors"],
        "actors" := row["actors"], "writers" := row["writers"]]
  }

  /** The `genre` document. */
  function GenreDocument(row: Row): Row
    requires HasColumns(row, GenreColumns)
  {
    assert GenreColumns[0] in row && GenreColumns[1] in row;
    map["uuid" := row["gid"], "name" := row["name"]]
  }

  /** The document a row of the given kind becomes, or the first column it
    * lacks; a kind other than `film_work` and `genre` builds none. Every
    * document is keyed by `uuid` and carries no bulk metadata key. */
  function Transform(row: Row, state: string): (r: Result<Row, EtlError>)
    ensures r.Ok? ==> "uuid" in r.value && r.value.Keys !! MetaKeys
    ensures r.Ok? ==> state == FilmWork || state == Genre
    ensures state == FilmWork ==> (r.Ok? <==> HasColumns(row, FilmColumns))
    ensures state == Genre ==> (r.Ok? <==> HasColumns(row, GenreColumns))
    ensures r.Err? && state == FilmWork ==>
              exists i :: 0 <= i < |FilmColumns| && r.error == MissingKey(FilmColumns[i])
                          && FilmColumns[i] !in row && HasColumns(row, FilmColumns[..i])
    ensures r.Err? && state == Genre ==>
              exists i :: 0 <= i < |GenreColumns| && r.error == MissingKey(GenreColumns[i])
                          && GenreColumns[i] !in row && HasColumns(row, GenreColumns[..i])
  {
    if state == FilmWork then
      match FirstMissing(row, FilmColumns)
      case Some(column) => Err(MissingKey(column))
      case None => Ok(FilmDocument(row))
    else if state == Genre then
      match FirstMissing(row, GenreColumns)
      case Some(column) => Err(MissingKey(column))
      case None => Ok(GenreDocument(row))
    else Err(NoDocumentForState(state))
  }

  /** A film row becomes the document with `uuid`, `imdb_rating` and `genre`
    * taken from `id`, `rating` and `genres` and the other eight columns
    * copied under their own names; nothing else is in it. */
  lemma FilmRowDocument(row: Row)
    requires "id" in row && "rating" in row && "genres" in row && "title" in row && "description" in row
    requires "directors_names" in row && "actors_names" in row && "writers_names" in row
    requires "directors" in row && "actors" in row && "writers" in row
    ensures Transform(row, FilmWork).Ok?
    ensures var d := Transform(row, FilmWork).value;
            && d.Keys == {"uuid", "imdb_rating", "genre", "title", "description", "directors_names",
                          "actors_names", "writers_names", "directors", "actors", "writers"}
            && d["uuid"] == row["id"] && d["imdb_rating"] == row["rating"] && d["genre"] == row["genres"]
            && d["title"] == row["title"] && d["description"] == row["description"]
            && d["directors_names"] == row["directors_names"] && d["actors_names"] == row["actors_names"]
            && d["writers_names"] == row["writers_names"] && d["directors"] == row["directors"]
            && d["actors"] == row["actors"] && d["writers"] == row["writers"]
  {
    assert HasColumns(row, FilmColumns);
  }

  /** A genre summary becomes exactly `{uuid: gid, name: name}`. */
  lemma GenreRowDocument(row: Row)
    requires "gid" in row && "name" in row
    ensures Transform(row, Genre) == Ok(map["uuid" := row["gid"], "name" := row["name"]])
  {
    assert HasColumns(row, GenreColumns);
  }

  /** The literal reads `id` first: a row without it fails on `id` whatever
    * else it lacks. */
  lemma FilmRowWithoutId(row: Row)
    requires "id" !in row
    ensures Transform(row, FilmWork) == Err(MissingKey("id"))
  {
    assert FilmColumns[0] !in row;
  }

  /** The loop that fills `data_to_load`: every object transformed in order;
    * the first failure ends the call. */
  function BuildDocs(objects: seq<Row>, state: string): (r: Result<seq<Row>, EtlError>)
    ensures r.Ok? ==> |r.value| == |objects|
    ensures r.Ok? ==> forall i :: 0 <= i < |objects| ==> Transform(objects[i], state) == Ok(r.value[i])
    ensures r.Ok? ==> forall i :: 0 <= i < |objects| ==> "uuid" in r.value[i] && r.value[i].Keys !! MetaKeys
    ensures r.Err? ==> exists i :: 0 <= i < |objects| && Transform(objects[i], state) == Err(r.error)
  {
    if objects == [] then Ok([])
    else
      var init := objects[..|objects| - 1];
      assert forall i :: 0 <= i < |init| ==> init[i] == objects[i];
      match BuildDocs(init, state)
      case Err(e) => Err(e)
      case Ok(docs) =>
        match Transform(objects[|objects| - 1], state)
        case Err(e) => Err(e)
        case Ok(d) => Ok(docs + [d])
  }

  /** The index a kind's documents go to, if any. */
  function IndexFor(state: string): Option<string>
  {
    if state == FilmWork then Some("movies")
    else if state == Genre then Some("genres")
    else None
  }

  /** One record of `gendata`: the metadata first, then every document field. */
  function BulkRecord(doc: Row, index: string): Row
    requires "uuid" in doc
  {
    map["_id" := doc["uuid"], "_op_type" := Str("index"), "_index" := Str(index)] + doc
  }

  /** A document without metadata keys comes back out of its record intact,
    * stored under its index and its `uuid`. */
  lemma BulkRecordRoundTrip(doc: Row, index: string)
    requires "uuid" in doc && doc.Keys !! MetaKeys
    ensures IsIndexAction(BulkRecord(doc, index))
    ensures KeyOf(BulkRecord(doc, index)) == DocKey(index, doc["uuid"])
    ensures Source(BulkRecord(doc, index)) == doc
  {
    var rec := BulkRecord(doc, index);
    assert Source(rec).Keys == doc.Keys;
  }

  /** `gendata(index)`: one record per document, in document order. */
  function Records(docs: seq<Row>, index: string): (recs: seq<Row>)
    requires forall i :: 0 <= i < |docs| ==> "uuid" in docs[i]
    ensures |recs| == |docs|
    ensures forall i :: 0 <= i < |docs| ==> recs[i] == BulkRecord(docs[i], index)
  {
    if docs == [] then [] else Records(docs[..|docs| - 1], index) + [BulkRecord(docs[|docs| - 1], index)]
  }

  /** Every record built from transformed documents is an index action. */
  lemma RecordsAreIndexActions(docs: seq<Row>, index: string)
    requires forall i :: 0 <= i < |docs| ==> "uuid" in docs[i] && docs[i].Keys !! MetaKeys
    ensures AllIndexActions(Records(docs, index))
  {
    forall i | 0 <= i < |docs|
      ensures IsIndexAction(Records(docs, index)[i])
    {
      BulkRecordRoundTrip(docs[i], index);
    }
  }

  /** One call of `etl_part2`: build every document, then send one bulk call
    * to the kind's index; a kind without an index sends nothing. */
  function Part2(s: IndexState, objects: seq<Row>, state: string): Result<IndexState, EtlError>
  {
    match BuildDocs(objects, state)
    case Err(e) => Err(e)
    case Ok(docs) =>
      match IndexFor(state)
      case None => Ok(s)
      case Some(index) =>
        RecordsAreIndexActions(docs, index);
        Ok(Bulk(s, Records(docs, index)))
  }

  /** Transforming two lists one after the other transforms their
    * concatenation: it succeeds when both do, with both document lists in
    * turn. */
  lemma {:induction false} BuildDocsAppend(a: seq<Row>, b: seq<Row>, state: string)
    ensures BuildDocs(a + b, state).Ok? <==> BuildDocs(a, state).Ok? && BuildDocs(b, state).Ok?
    ensures BuildDocs(a + b, state).Ok? ==>
              BuildDocs(a + b, state).value == BuildDocs(a, state).value + BuildDocs(b, state).value
    decreases |b|
  {
    if b == [] {
      assert a + b == a;
    } else {
      var init := b[..|b| - 1];
      assert (a + b)[..|a + b| - 1] == a + init;
      assert (a + b)[|a + b| - 1] == b[|b| - 1];
      BuildDocsAppend(a, init, state);
      var ra, ri := BuildDocs(a, state), BuildDocs(init, state);
      var t := Transform(b[|b| - 1], state);
      if ra.Ok? && ri.Ok? && t.Ok? {
        assert (ra.value + ri.value) + [t.value] == ra.value + (ri.value + [t.value]);
      }
    }
  }

  /** `gendata` over two document lists yields the records of each in turn. */
  lemma RecordsAppend(a: seq<Row>, b: seq<Row>, index: string)
    requires Loadable(a) && Loadable(b)
    ensures Loadable(a + b)
    ensures Records(a + b, index) == Records(a, index) + Records(b, index)
  {
    assert Loadable(a + b) by {
      forall i | 0 <= i < |a + b|
        ensures "uuid" in (a + b)[i] && (a + b)[i].Keys !! MetaKeys
      {
        if i < |a| {
          assert (a + b)[i] == a[i];
        } else {
          assert (a + b)[i] == b[i - |a|];
        }
      }
    }
    var whole, parts := Records(a + b, index), Records(a, index) + Records(b, index);
    forall i | 0 <= i < |whole|
      ensures whole[i] == parts[i]
    {
      if i < |a| {
        assert (a + b)[i] == a[i];
      } else {
        assert (a + b)[i] == b[i - |a|];
      }
    }
  }

  /** Whether `etl_part2` succeeds, and what it leaves in the documents, depend
    * only on the documents stored before it. */
  lemma Part2SameDocs(x: IndexState, y: IndexState, objects: seq<Row>, state: string)
    requires x.docs == y.docs
    ensures Part2(x, objects, state).Ok? <==> Part2(y, objects, state).Ok?
    ensures Part2(x, objects, state).Ok? ==> Part2(x, objects, state).value.docs == Part2(y, objects, state).value.docs
  {
    var r := BuildDocs(objects, state);
    if r.Ok? && IndexFor(state).Some? {
      var recs := Records(r.value, IndexFor(state).value);
      RecordsAreIndexActions(r.value, IndexFor(state).value);
      BulkDocs(x, recs);
      BulkDocs(y, recs);
    }
  }

  /** Two `etl_part2` calls in a row store what one call on both lists
    * stores, and succeed exactly when it does. */
  lemma Part2Append(s: IndexState, a: seq<Row>, b: seq<Row>, state: string)
    ensures Part2(s, a + b, state).Ok? <==> Part2(s, a, state).Ok? && Part2(s, b, state).Ok?
    ensures Part2(s, a + b, state).Ok? ==>
              && Part2(Part2(s, a, state).value, b, state).Ok?
              && Part2(s, a + b, state).value.docs == Part2(Part2(s, a, state).value, b, state).value.docs
  {
    BuildDocsAppend(a, b, state);
    var rab := BuildDocs(a + b, state);
    if rab.Ok? && IndexFor(state).Some? {
      var index := IndexFor(state).value;
      var da, db := BuildDocs(a, state).value, BuildDocs(b, state).value;
      RecordsAreIndexActions(da, index);
      RecordsAreIndexActions(db, index);
      RecordsAppend(da, db, index);
      ApplyRecordsAppend(s.docs, Records(da, index), Records(db, index));
      var mid := Bulk(s, Records(da, index));
      BulkDocs(s, Records(da, index));
      BulkDocs(mid, Records(db, index));
      BulkDocs(s, Records(da + db, index));
    }
  }

  /** The person pass hands over its empty summary list: no document is
    * built and no request is sent. An empty batch of any kind sends none. */
  lemma {:induction false} EmptyLoadSendsNothing(s: IndexState, state: string)
    ensures Part2(s, [], state) == Ok(s)
  {
  }

  /** A non-empty list of person rows cannot be loaded. */
  lemma PersonRowsFail(s: IndexState, objects: seq<Row>)
    requires objects != []
    ensures Part2(s, objects, Person) == Err(NoDocumentForState(Person))
  {
    var r := BuildDocs(objects, Person);
    assert Transform(objects[0], Person).Err?;
    var i :| 0 <= i < |objects| && Transform(objects[i], Person) == Err(r.error);
  }

  /** Documents carrying their own `uuid` and no metadata key. */
  predicate Loadable(docs: seq<Row>)
  {
    forall i :: 0 <= i < |docs| ==> "uuid" in docs[i] && docs[i].Keys !! MetaKeys
  }

  /** No later document of the batch has the same `uuid`. */
  predicate LastOfItsId(docs: seq<Row>, i: nat)
    requires Loadable(docs) && i < |docs|
  {
    forall j :: i < j < |docs| ==> docs[j]["uuid"] != docs[i]["uuid"]
  }

  /** After the bulk call of a batch, every document that is the last of its
    * `uuid` in the batch is stored under that uuid in the index. */
  lemma BulkStoresDocs(s: IndexState, docs: seq<Row>, index: string, i: nat)
    requires Loadable(docs) && i < |docs| && LastOfItsId(docs, i)
    ensures AllIndexActions(Records(docs, index))
    ensures DocKey(index, docs[i]["uuid"]) in Bulk(s, Records(docs, index)).docs
    ensures Bulk(s, Records(docs, index)).docs[DocKey(index, docs[i]["uuid"])] == docs[i]
  {
    var recs := Records(docs, index);
    forall j | 0 <= j < |recs|
      ensures IsIndexAction(recs[j]) && KeyOf(recs[j]) == DocKey(index, docs[j]["uuid"]) && Source(recs[j]) == docs[j]
    {
      BulkRecordRoundTrip(docs[j], index);
    }
    LastWriteWins(s.docs, recs, i);
  }

  /** A successful `etl_part2` of a film or genre batch sends one request
    * exactly when the batch is not empty, and stores every document that
    * is the last of its `uuid` in the batch under that uuid in the kind's
    * index. */
  lemma Part2Stores(s: IndexState, objects: seq<Row>, state: string, i: nat)
    requires Part2(s, objects, state).Ok?
    requires state == FilmWork || state == Genre
    requires i < |objects| && LastOfItsId(BuildDocs(objects, state).value, i)
    ensures var s' := Part2(s, objects, state).value;
            var docs := BuildDocs(objects, state).value;
            && s'.requests == s.requests + [Records(docs, IndexFor(state).value)]
            && DocKey(IndexFor(state).value, docs[i]["uuid"]) in s'.docs
            && s'.docs[DocKey(IndexFor(state).value, docs[i]["uuid"])] == docs[i]
  {
    BulkStoresDocs(s, BuildDocs(objects, state).value, IndexFor(state).value, i);
  }

  /** Once a prefix of the batch fails, the whole batch fails the same way. */
  lemma {:induction false} BuildDocsPrefixErr(objects: seq<Row>, state: string, n: nat)
    requires n <= |objects| && BuildDocs(objects[..n], state).Err?
    ensures BuildDocs(objects, state) == BuildDocs(objects[..n], state)
    decreases |objects| - n
  {
    if n == |objects| {
      assert objects[..n] == objects;
    } else {
      var init := objects[..|objects| - 1];
      assert init[..n] == objects[..n];
      BuildDocsPrefixErr(init, state, n);
    }
  }

  /** `etl_part2` itself: transform the objects one by one into
    * `data_to_load`, then hand the records of the kind's index to the bulk
    * helper. A failure leaves the cluster as it was. */
  method EtlPart2(es: Elasticsearch, objects: seq<Row>, state: string) returns (r: Result<(), EtlError>)
    modifies es
    ensures var goal := Part2(old(es.state), objects, state);
            && (r.Ok? <==> goal.Ok?)
            && (goal.Ok? ==> es.state == goal.value)
            && (goal.Err? ==> r.error == goal.error && es.state == old(es.state))
  {
    var dataToLoad: seq<Row> := [];
    for i := 0 to |objects|
      invariant BuildDocs(objects[..i], state) == Ok(dataToLoad)
    {
      var doc := Transform(objects[i], state);
      assert objects[..i + 1][..i] == objects[..i];
      if doc.Err? {
        BuildDocsPrefixErr(objects, state, i + 1);
        return Err(doc.error);
      }
      dataToLoad := dataToLoad + [doc.value];
    }
    assert objects[..|objects|] == objects;
    LoadDocs(es, dataToLoad, state);
    return Ok(());
  }

  /** The bulk call that ends `etl_part2`: film documents go to `movies`,
    * genre documents to `genres`, and any other kind sends nothing. */
  method LoadDocs(es: Elasticsearch, docs: seq<Row>, state: string)
    requires Loadable(docs)
    modifies es
    ensures IndexFor(state).None? ==> es.state == old(es.state)
    ensures IndexFor(state).Some? ==> AllIndexActions(Records(docs, IndexFor(state).value))
    ensures IndexFor(state).Some? ==> es.state == Bulk(old(es.state), Records(docs, IndexFor(state).value))
  {
    if state == FilmWork {
      RecordsAreIndexActions(docs, "movies");
      es.BulkIndex(Records(docs, "movies"));
    } else if state == Genre {
      RecordsAreIndexActions(docs, "genres");
      es.BulkIndex(Records(docs, "genres"));
    }
  }
}

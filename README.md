# Online cinema: synchronisation job and cached read API

This project models two halves of an online-cinema back end and proves
properties of the model.

- **The synchronisation job** (`etl_part1` / `etl_part2`) copies films and
  genres from PostgreSQL into Elasticsearch. The job works in three kinds:
  `film_work`, `genre` and `person`. For each kind it:
  - reads the kind's watermark from Redis (`datetime.min` when absent);
  - detects the changed rows in pages of 100;
  - for genres and persons, expands the changed rows into the ids of the
    films they touch;
  - re-reads those films in chunks of 10 with the denormalising film
    query;
  - turns each row into an index document and bulk-indexes the batch;
  - only then moves the kind's watermark to the current time.
- **The read API** (FastAPI services) answers film, genre and person
  requests through a Redis cache with a five-minute expiry, in front of
  the Elasticsearch indices.

The job is modelled imperatively. Postgres cursors, the watermark store,
the clock and the cluster are classes whose methods are proved against
specification functions (`Etl.EtlRun`, `Documents.Part2`,
`SearchIndex.Bulk`). The specification functions carry the lemmas.

The services are classes over a shared `Redis` object. Each service method
is proved equal to a cache-aside function (`Cache.CacheAside`,
`Cache.ListCacheAside`). Each such function returns the answer and the
cache contents left behind. The handlers of `api/v1/films.py` and
`api/v1/film.py` are pure functions plus thin methods.

Modules, one per file:

- ETL support: `Common`, `Values` (JSON/Python values), `Strings`,
  `Timestamps`, `Kinds`.
- ETL core: `Queries` (SQL text), `Batching`, `Expansion` (detection
  loop), `SearchIndex` (the bulk target), `Documents` (`etl_part2`),
  `Stores` (cursor, watermark store, clock) and `Etl` (`etl_part1`).
- Serving side: `Entities`, `Cache`, `Search`, `FilmServices`,
  `GenreServices`, `PersonServices` and `FilmsApi`.

Three facts about the job's code that shape the model:

- The kinds run in the order film_work, genre, person, the insertion
  order of the `states` dict.
- The film ids detected for a genre or person pass are not
  de-duplicated, so a film touched by several rows is re-read once per
  row. Only the genre summaries are de-duplicated.
- A kind's watermark is the time read after its pass has loaded
  everything.

## Model

| member | source | states |
|---|---|---|
| Values.TupleRepr | 03_etl/postgres_to_es/etl.py:116-117 | `str(tuple(ids))` is parenthesised, and a one-element tuple keeps its trailing comma |
| Strings.RemoveAll | 03_etl/postgres_to_es/queries.py:7-8 | `replace(',', '')` leaves no comma, keeps every other character and never lengthens the text |
| Timestamps.IsoFormatRoundTrip | 03_etl/postgres_to_es/etl.py:73-82 | a watermark written with `isoformat` is read back by `fromisoformat` unchanged |
| Timestamps.DateTextInjective | 03_etl/postgres_to_es/etl.py:121 | distinct times are stored as distinct watermark texts |
| Kinds.RunOrderDistinct | 03_etl/postgres_to_es/etl.py:84-87 | the run visits three distinct kinds, in the order film_work, genre, person |
| Queries.MakeQuery | 03_etl/postgres_to_es/queries.py:4-31 | succeeds exactly when the block has at least two characters (`[-2]`); the film query starts with the fixed SELECT and is no longer than head, block and tail |
| Queries.Assemble | 03_etl/postgres_to_es/queries.py:11-31 | the film query text around a WHERE block; `Queries.MakeQuery` states its prefix and length |
| Queries.FixBlock | 03_etl/postgres_to_es/queries.py:7-8 | the comma fix-up; `Queries.MakeQueryKeepsBlock`, `Queries.MakeQueryStripsCommas` and `Queries.OneIdBlock` state both branches |
| Queries.MakeQueryKeepsBlock | 03_etl/postgres_to_es/queries.py:7-30 | a block whose second-to-last character is not a comma is embedded unchanged between head and tail |
| Queries.MakeQueryStripsCommas | 03_etl/postgres_to_es/queries.py:7-8 | otherwise every comma of the block is removed before it is embedded |
| Queries.OneIdBlock | 03_etl/postgres_to_es/queries.py:5-8 | the one-id tuple block `('x',)` loses exactly its tuple comma and becomes `('x')` |
| Queries.ChunkBlockIsSqlList | 03_etl/postgres_to_es/queries.py:5-8 | the fixed-up block of any non-empty chunk of plain ids is `WHERE fw.id IN` an SQL list, for one id or many |
| Queries.ChunkQueryIsSqlList | 03_etl/postgres_to_es/etl.py:115-117 | a chunk of ids gives `WHERE fw.id IN (...)` with a valid SQL list, for one id or many |
| Queries.UpdatedSinceBlockKept | 03_etl/postgres_to_es/queries.py:7-8 | the film pass's `updated_at > 'T'` block is not touched by the comma fix-up |
| Queries.UpdatedSinceQuery | 03_etl/postgres_to_es/etl.py:126-127 | the film pass's `updated_at > 'T'` block is embedded unchanged |
| Queries.MakePrequery | 03_etl/postgres_to_es/queries.py:34-58 | a prequery exists exactly for `genre` and `person`, and each selects the kind's columns |
| Queries.PrequeryEmbedsSince | 03_etl/postgres_to_es/queries.py:36-53 | the watermark is quoted into the prequery, and distinct watermarks give distinct prequeries |
| Batching.Chunks | 03_etl/postgres_to_es/etl.py:115-117 | the chunks concatenate back to the input; each holds 1 to n items, and all but the last hold exactly n |
| Batching.ChunkCount | 03_etl/postgres_to_es/etl.py:136 | `range(0, len, 10)` gives ⌈len/10⌉ chunks |
| Batching.ChunkAt | 03_etl/postgres_to_es/etl.py:136-137 | chunk k is the slice `[10k : min(10k+10, len)]` |
| Batching.ChunksEnd | 03_etl/postgres_to_es/etl.py:136 | once 10k reaches the length there is no chunk k |
| Batching.FlattenSnoc | 03_etl/postgres_to_es/etl.py:136-137 | flattening one more chunk appends its items |
| Expansion.FilmIds | 03_etl/postgres_to_es/etl.py:102-103 | one film id per detected row, in order and with repeats |
| Expansion.Summaries | 03_etl/postgres_to_es/etl.py:105-106 | one `{gid, name}` summary per row, in order |
| Expansion.AddAllNew | 03_etl/postgres_to_es/etl.py:107-108 | appending only unseen values keeps what was there, adds every input and adds nothing else |
| Expansion.AddAllNewDistinct | 03_etl/postgres_to_es/etl.py:107-108 | the genre list has no duplicates |
| Expansion.AddAllNewAppend | 03_etl/postgres_to_es/etl.py:99-108 | de-duplicating page by page equals de-duplicating all rows at once |
| Expansion.FirstOccurrenceOrder | 03_etl/postgres_to_es/etl.py:107-108 | the genres keep the order of their first occurrence |
| Expansion.ExpandSummaries | 03_etl/postgres_to_es/etl.py:95-110 | the genres collected are exactly the distinct summaries of the rows, in first-occurrence order; a person pass collects none |
| Expansion.LinkRowsAppend | 03_etl/postgres_to_es/etl.py:99-110 | a page split does not change whether the rows have the keys the loop reads |
| Expansion.FilmIdsAppend | 03_etl/postgres_to_es/etl.py:99-103 | film ids of two pages are the ids of each, concatenated |
| Expansion.SummariesAppend | 03_etl/postgres_to_es/etl.py:99-106 | summaries of two pages are those of each, concatenated |
| Expansion.LinkRowsSnoc | 03_etl/postgres_to_es/etl.py:102-108 | one more well-formed row extends the well-formed prefix, its film ids by the row's `fid` and, for genres, its summaries by the row's `{gid, name}` |
| Expansion.ExpandNextPage | 03_etl/postgres_to_es/etl.py:99-108 | folding one more well-formed page into the lists gives the expansion of all rows seen so far |
| Expansion.ExpandBadPage | 03_etl/postgres_to_es/etl.py:102-106 | a page with a row lacking a key fails the whole detection |
| Expansion.ExpandPage | 03_etl/postgres_to_es/etl.py:102-108 | the loop body over one page appends the page's ids and its unseen genres, or reports the KeyError |
| Expansion.Expand | 03_etl/postgres_to_es/etl.py:95-110 | the detection of all rows; `Expansion.ExpandSummaries` states what it collects, `Expansion.ExpandNextPage` and `Expansion.ExpandBadPage` how it extends page by page |
| SearchIndex.ApplyRecords | 03_etl/postgres_to_es/etl.py:23-29 | indexing keeps every existing document key and adds the key of every record |
| SearchIndex.LastWriteWins | 03_etl/postgres_to_es/etl.py:25-28 | a key holds the source of the last record with that `_index`/`_id` |
| SearchIndex.UntouchedKey | 03_etl/postgres_to_es/etl.py:25-28 | keys no record names are unchanged |
| SearchIndex.ApplyRecordsOverlay | 03_etl/postgres_to_es/etl.py:23-29 | indexing is an overlay of the batch's documents on the old index |
| SearchIndex.ApplyRecordsIdempotent | 03_etl/postgres_to_es/etl.py:26 | `index` actions are upserts: replaying a batch changes nothing |
| SearchIndex.ApplyRecordsAppend | 03_etl/postgres_to_es/etl.py:57-60 | indexing two batches in turn equals indexing their concatenation |
| SearchIndex.Bulk | 03_etl/postgres_to_es/etl.py:58-60 | `helpers.bulk`: the actions applied in order, one request unless empty; `SearchIndex.BulkDocs` and the `ApplyRecords` lemmas state what it stores |
| SearchIndex.BulkDocs | 03_etl/postgres_to_es/etl.py:58-60 | what a bulk call stores depends only on the documents before it |
| SearchIndex.Elasticsearch.BulkIndex | 03_etl/postgres_to_es/etl.py:58-60 | `helpers.bulk` applies the records and logs one request |
| Documents.FirstMissing | 03_etl/postgres_to_es/etl.py:36-53 | the first column the dict literal reads that the row lacks, or none exactly when all are present |
| Documents.Transform | 03_etl/postgres_to_es/etl.py:35-53 | a film or genre row with every column it reads becomes a document with a `uuid` and no metadata key; a missing column is a KeyError; other kinds build nothing |
| Documents.FilmRowDocument | 03_etl/postgres_to_es/etl.py:36-48 | the film document has exactly the eleven fields, with `id`, `rating` and `genres` renamed |
| Documents.GenreRowDocument | 03_etl/postgres_to_es/etl.py:50-53 | the genre document is exactly `{uuid: gid, name}` |
| Documents.FilmDocument | 03_etl/postgres_to_es/etl.py:36-48 | the film document literal; `Documents.FilmRowDocument` states its eleven fields |
| Documents.GenreDocument | 03_etl/postgres_to_es/etl.py:50-53 | the genre document literal; `Documents.GenreRowDocument` states it |
| Documents.FilmRowWithoutId | 03_etl/postgres_to_es/etl.py:37 | a film row without `id` fails on `id` |
| Documents.BuildDocs | 03_etl/postgres_to_es/etl.py:33-54 | every object is transformed, in order, or the failure of one of them is reported |
| Documents.BulkRecordRoundTrip | 03_etl/postgres_to_es/etl.py:25-28 | the bulk record is an index action under `(index, uuid)` whose source is the document |
| Documents.Records | 03_etl/postgres_to_es/etl.py:23-29 | `gendata` yields one record per document, in order |
| Documents.RecordsAreIndexActions | 03_etl/postgres_to_es/etl.py:26 | every record is an `index` action |
| Documents.EmptyLoadSendsNothing | 03_etl/postgres_to_es/etl.py:31-60 | an empty batch leaves the cluster unchanged (the person pass's empty genre list) |
| Documents.PersonRowsFail | 03_etl/postgres_to_es/etl.py:33-54 | a non-empty person batch has no document shape and fails |
| Documents.BulkStoresDocs | 03_etl/postgres_to_es/etl.py:23-29 | after the bulk call the last document of each uuid is stored under that uuid |
| Documents.Part2Stores | 03_etl/postgres_to_es/etl.py:19-60 | a successful film or genre load sends exactly one request and stores each document under its uuid in `movies`/`genres` |
| Documents.LoadDocs | 03_etl/postgres_to_es/etl.py:56-60 | film documents go to `movies`, genre documents to `genres`, each as one bulk of index actions; any other kind sends nothing |
| Documents.BuildDocsPrefixErr | 03_etl/postgres_to_es/etl.py:33-54 | the first failing object decides the failure |
| Documents.BuildDocsAppend | 03_etl/postgres_to_es/etl.py:33-54 | transforming two lists in turn is transforming their concatenation, which succeeds exactly when both do |
| Documents.RecordsAppend | 03_etl/postgres_to_es/etl.py:23-29 | `gendata` over two document lists yields the records of each in turn |
| Documents.Part2 | 03_etl/postgres_to_es/etl.py:19-60 | one `etl_part2` call; `Documents.Part2Stores`, `Documents.EmptyLoadSendsNothing`, `Documents.PersonRowsFail` and `Documents.Part2Append` state what it does |
| Documents.Part2SameDocs | 03_etl/postgres_to_es/etl.py:19-60 | whether `etl_part2` succeeds and what it stores depend only on the documents stored before it |
| Documents.Part2Append | 03_etl/postgres_to_es/etl.py:19-60 | two `etl_part2` calls in a row store what one call on both lists stores, and succeed exactly when it does |
| Documents.EtlPart2 | 03_etl/postgres_to_es/etl.py:19-60 | the method succeeds exactly when `Part2` does and leaves the cluster as `Part2` says |
| Stores.Cursor.Execute | 03_etl/postgres_to_es/etl.py:98 | `execute` makes the query's rows pending |
| Stores.Cursor.FetchMany | 03_etl/postgres_to_es/etl.py:100 | `fetchmany(n)` takes up to n pending rows from the front |
| Stores.Cursor.FetchAll | 03_etl/postgres_to_es/etl.py:119 | `fetchall` takes every pending row |
| Stores.WatermarkStore.Exists | 03_etl/postgres_to_es/etl.py:73 | `exists` is key membership |
| Stores.WatermarkStore.Set | 03_etl/postgres_to_es/etl.py:74 | `set` overwrites one key |
| Stores.WatermarkStore.Get | 03_etl/postgres_to_es/etl.py:80 | `get` returns the stored text or nothing |
| Stores.Clock.UtcNow | 03_etl/postgres_to_es/etl.py:121 | each reading returns the current time and time moves on |
| Etl.LoadBatches | 03_etl/postgres_to_es/etl.py:115-119 | loading the batches in turn only appends requests, at most one per batch; what it stores is given by `Etl.LoadBatchesFlatten` |
| Etl.LoadBatchesPrefixFails | 03_etl/postgres_to_es/etl.py:136-137 | once a batch fails, the later batches are not loaded |
| Etl.LoadBatchesStep | 03_etl/postgres_to_es/etl.py:136-137 | each batch is loaded on what the earlier ones left |
| Etl.LoadBatchesFlatten | 03_etl/postgres_to_es/etl.py:115-119 | chunking is transparent: loading the batches in turn succeeds exactly when one `etl_part2` of all their rows would, and then stores the same documents |
| Etl.FilmBatches | 03_etl/postgres_to_es/etl.py:115-119 | one re-read batch per chunk of 10 ids |
| Etl.FilmBatchAt | 03_etl/postgres_to_es/etl.py:115-119 | batch k is the re-read of chunk k of the ids |
| Etl.FilmPass | 03_etl/postgres_to_es/etl.py:124-137 | the film pass; `Etl.FilmPassLoadsAll` states what it stores |
| Etl.FilmPassLoadsAll | 03_etl/postgres_to_es/etl.py:124-137 | the film pass succeeds exactly when every changed film row becomes a document, and then stores what one load of all of them would |
| Etl.LinkedPass | 03_etl/postgres_to_es/etl.py:94-119 | a genre or person pass; `Etl.SyncLinked` is proved equal to it, and `Expansion.ExpandSummaries` and `Etl.LoadBatchesFlatten` state what it collects and stores |
| Etl.KindPass | 03_etl/postgres_to_es/etl.py:92-137 | the pass of each kind; `Etl.LinkedKindPass` and `Etl.FilmKindPass` state the dispatch |
| Etl.SyncStep | 03_etl/postgres_to_es/etl.py:92-138 | a failed pass ends the run at that kind; a successful one stamps the kind and goes on |
| Etl.Defaulted | 03_etl/postgres_to_es/etl.py:73-78 | after the three `exists`/`set` pairs every kind has a watermark, existing ones are kept, and new ones are `datetime.min` |
| Etl.ReadMarks | 03_etl/postgres_to_es/etl.py:80-82 | every watermark parses, or the first one that does not is reported |
| Etl.ReadRunOrder | 03_etl/postgres_to_es/etl.py:80-87 | the three reads, kind by kind, in run order |
| Etl.SyncProgress | 03_etl/postgres_to_es/etl.py:92-138 | the run completes exactly when every pass succeeds, and otherwise stops at the first kind whose pass failed |
| Etl.SyncUntouched | 03_etl/postgres_to_es/etl.py:121 | a kind whose pass did not complete keeps its watermark |
| Etl.SyncStamps | 03_etl/postgres_to_es/etl.py:121 | a kind that completed carries the time its pass finished |
| Etl.Sync | 03_etl/postgres_to_es/etl.py:92-138 | the passes with their watermark updates; `Etl.SyncProgress`, `Etl.SyncUntouched`, `Etl.SyncStamps` and `Etl.SyncMonotone` state what they do |
| Etl.SyncMonotone | 03_etl/postgres_to_es/etl.py:92-138 | the passes never move a readable watermark back and never leave one ahead of the clock |
| Etl.RunOrderStamps | 03_etl/postgres_to_es/etl.py:92-138 | in a completed run the three kinds carry successive times; an aborted kind keeps its old watermark and the kinds before it are stamped |
| Etl.WatermarksAfterRun | 03_etl/postgres_to_es/etl.py:64-138 | a watermark advances only after its kind's pass has loaded everything; a run that stops at a kind has stamped exactly the kinds before it, and that kind and every later kind keep their old watermarks; an unreadable watermark stops the run before any load |
| Etl.EtlRun | 03_etl/postgres_to_es/etl.py:64-138 | one run of `etl_part1`; `Etl.WatermarksAfterRun` and `Etl.WatermarksMonotone` state what it leaves |
| Etl.DefaultedNotAhead | 03_etl/postgres_to_es/etl.py:73-78 | the `datetime.min` defaults are not ahead of any clock |
| Etl.WatermarksMonotone | 03_etl/postgres_to_es/etl.py:64-138 | watermark monotonicity: with no watermark ahead of the clock, a run that reads its watermarks leaves every kind's watermark readable and no earlier than before, and no run leaves one ahead of the clock |
| Etl.CollectPages | 03_etl/postgres_to_es/etl.py:126-134 | the `fetchmany(100)` loop collects every row of the query, in order |
| Etl.LoadFilmRows | 03_etl/postgres_to_es/etl.py:136-137 | the film rows are loaded in chunks of 10, stopping at the first failure |
| Etl.SyncFilms | 03_etl/postgres_to_es/etl.py:124-137 | the film pass does what `FilmPass` says |
| Etl.DetectLinked | 03_etl/postgres_to_es/etl.py:95-110 | the detection loop collects the film ids and the distinct genres of every page, or fails exactly when a row lacks a key |
| Etl.LoadFilmSlice | 03_etl/postgres_to_es/etl.py:116-119 | one chunk of ids is re-read and loaded as film documents |
| Etl.LoadFilmChunk | 03_etl/postgres_to_es/etl.py:115-119 | the k-th iteration of the chunk loop loads batch k, and leaves the cluster alone if that load fails |
| Etl.LoadFilmIds | 03_etl/postgres_to_es/etl.py:115-119 | all chunks of detected film ids are re-read and loaded, stopping at the first failure |
| Etl.SyncLinked | 03_etl/postgres_to_es/etl.py:94-119 | a genre or person pass loads the changed genres, then the touched films |
| Etl.ReadWatermarks | 03_etl/postgres_to_es/etl.py:72-82 | the store is defaulted, then the watermarks are parsed in run order |
| Etl.RunPass | 03_etl/postgres_to_es/etl.py:92-137 | each kind gets the pass of its branch |
| Etl.LinkedKindPass | 03_etl/postgres_to_es/etl.py:94-121 | a genre or person kind takes the prequery branch |
| Etl.FilmKindPass | 03_etl/postgres_to_es/etl.py:124-138 | the film_work kind takes the updated-films branch |
| Etl.PassAndStamp | 03_etl/postgres_to_es/etl.py:92-138 | one pass, then its watermark is set to the clock's reading, only if it succeeded |
| Etl.RunPasses | 03_etl/postgres_to_es/etl.py:92-138 | the loop over the kinds ends in the state `Sync` describes |
| Etl.EtlPart1 | 03_etl/postgres_to_es/etl.py:64-138 | one run leaves the cluster, the watermark store and the clock as `EtlRun` says |
| Cache.Redis.Get | fastpapi-solution/src/services/base.py:58 | `get` returns the cached value of a key, or nothing |
| Cache.Redis.Set | fastpapi-solution/src/services/base.py:71 | `set` overwrites one key with its expiry |
| Cache.CacheHitIgnoresIndex | fastpapi-solution/src/services/base.py:31-43 | a cached record is answered from the cache; the index is not consulted and nothing is written |
| Cache.CacheAsideNone | fastpapi-solution/src/services/base.py:31-43 | None exactly when the id is in neither the cache nor the index, and then nothing is written |
| Cache.CacheAsideFill | fastpapi-solution/src/services/base.py:36-41 | a record found only in the index is cached under its own key with the five-minute expiry; no other entry changes |
| Cache.CacheAsideRoundTrip | fastpapi-solution/src/services/base.py:31-71 | after a fill, the next lookup is a hit, whatever the index holds by then |
| Cache.CacheAsideExpiry | fastpapi-solution/src/services/base.py:10 | every entry keeps the 60*5-second expiry |
| Cache.CacheAside | fastpapi-solution/src/services/base.py:31-43 | the record cache-aside lookup; the `Cache.CacheAside*` and `Cache.CacheHitIgnoresIndex` lemmas state it |
| Cache.ListFromCache | fastpapi-solution/src/services/films.py:158-165 | a hit is a non-empty list; an absent key or an empty list is a miss |
| Cache.ListRoundTrip | fastpapi-solution/src/services/films.py:124-133 | a non-empty list fetched on a miss is answered from the cache next time |
| Cache.EmptyListStoredButMissed | fastpapi-solution/src/services/films.py:127-133 | an empty result is still stored, but the next call misses and fetches again |
| Cache.ListCacheAsideExpiry | fastpapi-solution/src/services/films.py:169-172 | list entries keep the 60*5-second expiry |
| Cache.ListCacheAside | fastpapi-solution/src/services/films.py:124-133 | the list cache-aside of `get_all_films` and `get_all`; `Cache.ListRoundTrip`, `Cache.EmptyListStoredButMissed` and `Cache.ListCacheAsideExpiry` state it |
| Search.PaginateSkipsEarlierPages | fastpapi-solution/src/services/films.py:70-76 | the page-1 special case agrees with `size*(number-1)`; the offset is never negative; pages follow each other without gap or overlap |
| Search.Paginate | fastpapi-solution/src/services/films.py:70-76 | `paginate_elastic` (also base.py:24-28); its contract is `Search.PaginateSkipsEarlierPages` |
| FilmServices.ElasticQueryPrecedence | fastpapi-solution/src/services/films.py:78-110 | the body filters by genre when one is given, else by title, else matches all; it sorts by rating in the requested order unless it is a title match |
| FilmServices.ElasticQuery | fastpapi-solution/src/services/films.py:78-110 | `get_elastic_query`; `FilmServices.ElasticQueryPrecedence` states which filter and order it asks for |
| FilmServices.CacheKeyAsWrittenCollides | fastpapi-solution/src/services/films.py:118-125 | as written, page 1 of size 23 and page 12 of size 3 share the key `filmsdesc123` but send different searches |
| FilmServices.CacheKeyAsWrittenIgnoresGenre | fastpapi-solution/src/services/films.py:118-121 | as written, with both a query and a genre the key ignores the genre while the body filters by it |
| FilmServices.CacheKeyAsWritten | fastpapi-solution/src/services/films.py:118-125 | the key as written; `FilmServices.CacheKeyAsWrittenCollides` and `FilmServices.CacheKeyAsWrittenIgnoresGenre` show it is not injective |
| FilmServices.AllFilmsAsWritten | fastpapi-solution/src/services/films.py:112-133 | `get_all_films` with the key as written |
| FilmServices.AllFilmsAsWrittenServesOtherPage | fastpapi-solution/src/services/films.py:112-133 | as written, once page 1 of 23 films is cached, a request for page 12 of 3 films, a different search, is answered with those films |
| FilmServices.CacheKeyOfSecondPage | fastpapi-solution/tests/functional/src/test_film.py:157 | the corrected key of the default listing's page 2 is the labelled key the test expects |
| FilmServices.CacheKeySound | fastpapi-solution/src/services/films.py:117-133 | with the corrected key, equal keys mean equal searches, so a cached page is the page asked for |
| FilmServices.CacheKey | fastpapi-solution/src/services/films.py:117-125 | the corrected labelled key; `FilmServices.CacheKeySound` and `FilmServices.CacheKeyOfSecondPage` state it |
| FilmServices.AllFilmsPageBounded | fastpapi-solution/src/services/films.py:135-156 | a page fetched on a miss holds at most `page_size` films and is stored under the request's key |
| FilmServices.AllFilms | fastpapi-solution/src/services/films.py:112-133 | `get_all_films` with the corrected key; `FilmServices.AllFilmsPageBounded` and the list cache-aside lemmas state it |
| FilmServices.FilmById | fastpapi-solution/src/services/films.py:22-60 | the film lookup by id; the `Cache.CacheAside*` lemmas state it |
| FilmServices.FilmService.GetById | fastpapi-solution/src/services/films.py:22-60 | the method returns what the film cache-aside lookup says and leaves the cache as it says |
| FilmServices.FilmsServices.FilmsFromHits | fastpapi-solution/src/services/films.py:135-156 | one film per hit, in order; no index gives no films |
| FilmServices.FilmsServices.GetAllFilms | fastpapi-solution/src/services/films.py:112-133 | the method returns and caches what the list cache-aside under the request's key says, even an empty page |
| GenreServices.AllGenresAsWrittenFailsCold | fastpapi-solution/src/services/genres.py:57-63 | as written, `get_all` on a cache without `genres` raises and writes nothing |
| GenreServices.AllGenresAgreesWhenWarm | fastpapi-solution/src/services/genres.py:75-81 | where the key is set, the corrected read behaves as written |
| GenreServices.AllGenresWarmsCache | fastpapi-solution/src/services/genres.py:57-84 | corrected: a cold cache is filled with at most 26 genres under `genres`, and a non-empty list is then a hit |
| GenreServices.AllGenresAsWritten | fastpapi-solution/src/services/genres.py:57-81 | `get_all` as written; `GenreServices.AllGenresAsWrittenFailsCold` states its failure |
| GenreServices.AllGenres | fastpapi-solution/src/services/genres.py:57-84 | the corrected `get_all`; `GenreServices.AllGenresWarmsCache` and `GenreServices.AllGenresAgreesWhenWarm` state it |
| GenreServices.GenreById | fastpapi-solution/src/services/genres.py:21-49 | the genre lookup by id, cached under `uuid`; the `Cache.CacheAside*` lemmas state it |
| GenreServices.GenresFromElastic | fastpapi-solution/src/services/genres.py:65-73 | `_get_genres_from_elastic`; `GenreServices.GenresServices.GenresFromHits` is proved equal to it |
| GenreServices.GenreService.GetById | fastpapi-solution/src/services/genres.py:21-49 | the method follows the genre cache-aside lookup, keyed by `uuid` |
| GenreServices.GenresServices.GenresFromHits | fastpapi-solution/src/services/genres.py:65-73 | every hit's source, in order; no index gives none |
| GenreServices.GenresServices.GetAll | fastpapi-solution/src/services/genres.py:57-63 | the method follows the corrected list cache-aside under `genres` |
| PersonServices.GetList | fastpapi-solution/src/services/base.py:45-46 | the base listing is always empty |
| PersonServices.FilmsByIds | fastpapi-solution/src/services/persons.py:31-33 | one lookup per film id |
| PersonServices.FilmsByIdsFrame | fastpapi-solution/src/services/persons.py:33 | the film lookups write no key the film index lacks |
| PersonServices.FilmsByIdsMissing | fastpapi-solution/src/services/persons.py:33 | a film is None in the list exactly when it is in neither the cache nor the index; it is kept, not dropped |
| PersonServices.FilmsByIdsStopsAtError | fastpapi-solution/src/services/persons.py:33 | a failing lookup ends the comprehension |
| PersonServices.FilmListByIdShape | fastpapi-solution/src/services/persons.py:20-35 | None exactly when the person is nowhere; a person from the index is cached before its films are looked up |
| PersonServices.SearchByNameDefaultPage | fastpapi-solution/src/services/persons.py:37-59 | the defaults ask for the first 50 persons, and a cluster that honours the page size returns at most 50; None exactly when the cluster gives no hits response (NotFound or a falsy response); a response with an empty hit list gives an empty list |
| PersonServices.PersonsRequest | fastpapi-solution/src/services/persons.py:42-54 | the fuzzy `full_name` search; `PersonServices.SearchByNameDefaultPage` states its page |
| PersonServices.PersonsByName | fastpapi-solution/src/services/persons.py:37-59 | `search_by_name`'s answer; `PersonServices.SearchByNameDefaultPage` states it |
| PersonServices.PersonById | fastpapi-solution/src/services/base.py:31-71 | the person lookup by id; the `Cache.CacheAside*` lemmas state it |
| PersonServices.FilmListById | fastpapi-solution/src/services/persons.py:20-35 | `get_film_list_by_id`; `PersonServices.FilmListByIdShape` states it |
| PersonServices.PersonService.GetById | fastpapi-solution/src/services/base.py:31-71 | the method follows the person cache-aside lookup, keyed by `id` |
| PersonServices.PersonService.GetFilmListById | fastpapi-solution/src/services/persons.py:20-35 | the method returns and caches what `FilmListById` says |
| PersonServices.PersonService.SearchByName | fastpapi-solution/src/services/persons.py:37-59 | the method returns the persons of the fuzzy `full_name` search, or None |
| FilmsApi.Normalise | fastpapi-solution/src/api/v1/films.py:22-27 | a title search drops the genre and the order; otherwise a leading '-' means descending; an empty `sort` fails |
| FilmsApi.DefaultSortIsDescending | fastpapi-solution/src/api/v1/films.py:18-27 | the default `-imdb_rating` asks for descending order |
| FilmsApi.NormalisedRequestsKeySound | fastpapi-solution/src/api/v1/films.py:22-30 | after normalisation a title search carries no genre, and equal keys mean equal searches |
| FilmsApi.ProjectFilms | fastpapi-solution/src/api/v1/films.py:32-35 | one `{uuid, title, imdb_rating}` per film, in order, from `id`, `title` and `imdb_rating`; a missing field fails |
| FilmsApi.ListResponse | fastpapi-solution/src/api/v1/films.py:28-35 | the list answer for a service outcome; `FilmsApi.ProjectFilms` states the projection |
| FilmsApi.FilmDetails | fastpapi-solution/src/api/v1/films.py:43-54 | 404 exactly when no film was found; otherwise `uuid` is the film's `id` |
| FilmsApi.FilmDetailsUnrouted | fastpapi-solution/src/api/v1/film.py:53-64 | 404 exactly when no film was found; otherwise `uuid` is the film's `uuid` |
| FilmsApi.DetailHandlersAgree | fastpapi-solution/src/api/v1/film.py:59-64 | both detail handlers copy the other seven fields, and they agree when `id` equals `uuid` |
| FilmsApi.FilmList | fastpapi-solution/src/api/v1/films.py:14-35 | normalise, ask the film service, project; the cache changes as the service says |
| FilmsApi.FilmListUnrouted | fastpapi-solution/src/api/v1/film.py:27-45 | the service's films are returned unchanged |
| FilmsApi.FilmDetailsHandler | fastpapi-solution/src/api/v1/films.py:38-54 | the detail answer for the service's lookup, with the cache changed as the lookup says |

## Left out

- Retries: `backoff.on_exception` around `etl_part1` and `etl_part2` retries any exception forever. The model reports a failed pass as an aborted run and leaves scheduling to the caller. `try_connect`, the `while True`/`sleep(10)` loop and logging are outside the model.
- SQL evaluation: the cursor answers a query text through a given function. Postgres semantics, `DictCursor` typing and `ARRAY_AGG` grouping are not modelled.
- SearchIndex.Bulk: the model's bulk call always succeeds and applies every record. It stands for the eventual success of the `backoff` retry loop around `etl_part2` (etl.py:18). A `BulkIndexError` after part of a batch was applied, transport errors and `helpers.bulk`'s internal chunking (500 actions per request) are not modelled. A pass fails in the model only on a missing column (KeyError) or a kind without documents, and a run only on those or an unreadable watermark.
- Timestamps are natural-number ticks rendered as decimal digits. `isoformat`'s calendar text is not modelled. The clock advances by one tick per reading.
- String quoting: `Values.Repr` quotes strings without Python's escaping of quotes and backslashes.
- Kinds: a kind other than the three known ones would load nothing. The job never runs one.
- Redis expiry is recorded on each entry, but the passing of time and eviction are not modelled.
- Elasticsearch search semantics (scoring, fuzziness, nested matching) are not modelled. The cluster is a value whose searches are given functions; page bounds hold under the stated `HonoursSize` assumption.
- pydantic parsing and validation (`parse_raw`, `Film_Detail(**source)`, `json()`) are not modelled. Cached values are typed, and a value of the wrong shape is reported as a corrupt entry.
- async/await and concurrent requests are not modelled. Each call runs to completion on one cache.
- The persons router (`api/v1/persons.py`), the genres router and application start-up are not modelled; only their service calls are.
- Person model: `models/person.py` is not part of this model, so the persons index is taken to be `persons`, with `id`, `full_name` and `film_ids`.
- FilmServices.AllFilmsPageBounded: requires `page_size >= 0`. A negative size is not bounded. The list handler does not validate `page_size` (api/v1/films.py:19), so `?page_size=-1` reaches `get_all_films`; what the cluster answers then is outside the model.
- FilmServices.FilmsServices.GetAllFilms: uses the corrected cache key (see Findings), not the key as written.
- GenreServices.GenresServices.GetAll: treats an absent `genres` key as a miss (see Findings), not as the exception the code raises.

## Findings

| source | as written | input that shows it | evidently intended | confidence | as-written member | corrected member |
|---|---|---|---|---|---|---|
| fastpapi-solution/src/services/films.py:118-125 | the films key concatenates order, page number, page size and filter with no separators, and prefers the query over the genre while the body prefers the genre | `reverse="desc"`: page 1 of size 23 and page 12 of size 3 both use `filmsdesc123`; with a query, two genres share a key | a labelled key (`films\|\|reverse::desc\|\|page_number::2\|\|page_size::10`, as the functional test expects) with the body's precedence, so that equal keys mean equal searches | not executed | FilmServices.AllFilmsAsWrittenServesOtherPage | FilmServices.CacheKeySound |
| fastpapi-solution/src/services/genres.py:75-79 | `_genres_from_cache` calls `json.loads(data)` before testing `data`, so an absent key raises | any cache without the `genres` key (e.g. after a flush): `get_all` raises, and since only `get_all` writes the key it never gets filled | an absent key is a miss: fetch the genres, cache them, return them | not executed | GenreServices.AllGenresAsWrittenFailsCold | GenreServices.AllGenresWarmsCache |

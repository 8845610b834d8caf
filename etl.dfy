/** `etl_part1`: one run of the synchronisation job. For each kind, in the
  * order film_work, genre, person, it detects the rows changed since the
  * kind's watermark, loads the affected films (and changed genres) into
  * the search cluster in batches, and only then advances the watermark. */
module Etl {
  import opened Common
  import opened Values
  import opened Timestamps
  import opened Kinds
  import opened Queries
  import opened Batching
  import opened Expansion
  import opened SearchIndex
  import opened Documents
  import opened Stores

  /** How far a sequence of loads got: `ok` is false when one failed, and
    * `index` is what the cluster holds at that point. */
  datatype Progress = Progress(ok: bool, index: IndexState)

  /** `etl_part2` on each batch in turn; the first failure stops the pass
    * and the batches loaded before it stay loaded. Every load sends at most
    * one request. */
  function LoadBatches(s: IndexState, batches: seq<seq<Row>>, state: string): (p: Progress)
    ensures s.requests <= p.index.requests
    ensures |p.index.requests| <= |s.requests| + |batches|
  {
    if batches == [] then Progress(true, s)
    else
      var p := LoadBatches(s, batches[..|batches| - 1], state);
      if !p.ok then p
      else
        match Part2(p.index, batches[|batches| - 1], state)
        case Err(_) => Progress(false, p.index)
        case Ok(s') =>
          assert s'.requests == p.index.requests || s'.requests == p.index.requests + [s'.requests[|s'.requests| - 1]];
          Progress(true, s')
  }

  /** Once a prefix of the batches fails, the pass ends in that state. */
  lemma {:induction false} LoadBatchesPrefixFails(s: IndexState, batches: seq<seq<Row>>, state: string, n: nat)
    requires n <= |batches| && !LoadBatches(s, batches[..n], state).ok
    ensures LoadBatches(s, batches, state) == LoadBatches(s, batches[..n], state)
    decreases |batches| - n
  {
    if n == |batches| {
      assert batches[..n] == batches;
    } else {
      var init := batches[..|batches| - 1];
      assert init[..n] == batches[..n];
      LoadBatchesPrefixFails(s, init, state, n);
    }
  }

  /** One more batch: loaded on top of what the earlier batches left. */
  lemma LoadBatchesStep(s: IndexState, batches: seq<seq<Row>>, state: string, k: nat, current: IndexState)
    requires k < |batches| && LoadBatches(s, batches[..k], state) == Progress(true, current)
    ensures var r := Part2(current, batches[k], state);
            LoadBatches(s, batches[..k + 1], state) == if r.Ok? then Progress(true, r.value) else Progress(false, current)
  {
    assert batches[..k + 1][..k] == batches[..k];
  }

  /** Loading batches one after another stores what one `etl_part2` call on
    * all their rows stores, and succeeds exactly when that call would:
    * splitting into batches is transparent to the index. */
  lemma {:induction false} LoadBatchesFlatten(s: IndexState, batches: seq<seq<Row>>, state: string)
    ensures LoadBatches(s, batches, state).ok <==> Part2(s, Flatten(batches), state).Ok?
    ensures LoadBatches(s, batches, state).ok ==>
              LoadBatches(s, batches, state).index.docs == Part2(s, Flatten(batches), state).value.docs
    decreases |batches|
  {
    if batches == [] {
      EmptyLoadSendsNothing(s, state);
    } else {
      var init, last := batches[..|batches| - 1], batches[|batches| - 1];
      assert batches == init + [last];
      FlattenSnoc(init, last);
      LoadBatchesFlatten(s, init, state);
      Part2Append(s, Flatten(init), last, state);
      var p := LoadBatches(s, init, state);
      if p.ok {
        Part2SameDocs(p.index, Part2(s, Flatten(init), state).value, last, state);
      }
    }
  }

  /** The query of the film pass. */
  function FilmQuery(since: Timestamp): string
  {
    UpdatedSinceQuery(since);
    MakeQuery(UpdatedSinceBlock(since)).value
  }

  /** The film pass: every changed film row, in slices of ten. */
  function FilmPass(s: IndexState, since: Timestamp, results: string -> seq<Row>): Progress
  {
    LoadBatches(s, Chunks(results(FilmQuery(since)), ChunkSize), FilmWork)
  }

  /** The film pass succeeds exactly when every changed film row can be
    * turned into a document, and then the index holds what one bulk load
    * of all of them would store. */
  lemma FilmPassLoadsAll(s: IndexState, since: Timestamp, results: string -> seq<Row>)
    ensures var rows := results(FilmQuery(since));
            && (FilmPass(s, since, results).ok <==> Part2(s, rows, FilmWork).Ok?)
            && (FilmPass(s, since, results).ok ==>
                  FilmPass(s, since, results).index.docs == Part2(s, rows, FilmWork).value.docs)
  {
    var rows := results(FilmQuery(since));
    LoadBatchesFlatten(s, Chunks(rows, ChunkSize), FilmWork);
  }

  /** The query that fetches the full rows of one slice of film ids. */
  function ChunkQuery(ids: seq<Value>): string
  {
    assert |IdsBlock(ids)| >= 2 by {
      assert IdsBlock(ids) == "WHERE fw.id IN " + TupleRepr(ids);
    }
    MakeQuery(IdsBlock(ids)).value
  }

  /** The rows each slice of ten film ids fetches. */
  function FilmBatches(ids: seq<Value>, results: string -> seq<Row>): (batches: seq<seq<Row>>)
    ensures |batches| == |Chunks(ids, ChunkSize)|
  {
    var chunks := Chunks(ids, ChunkSize);
    seq(|chunks|, k requires 0 <= k < |chunks| => results(ChunkQuery(chunks[k])))
  }

  /** Batch `k` holds the rows of chunk `k`'s query. */
  lemma FilmBatchAt(ids: seq<Value>, results: string -> seq<Row>, k: nat, chunk: seq<Value>)
    requires k < |Chunks(ids, ChunkSize)| && chunk == Chunks(ids, ChunkSize)[k]
    ensures k < |FilmBatches(ids, results)|
    ensures FilmBatches(ids, results)[k] == results(ChunkQuery(chunk))
  {
  }

  /** A genre or person pass: expand the changed junction rows, load the
    * changed genres, then reload every affected film in slices of ten. */
  function LinkedPass(s: IndexState, kind: string, since: Timestamp, results: string -> seq<Row>): Progress
    requires kind == Genre || kind == Person
  {
    var rows := results(MakePrequery(kind, since).value);
    match Expand(rows, kind)
    case None => Progress(false, s)
    case Some(e) =>
      match Part2(s, e.summaries, kind)
      case Err(_) => Progress(false, s)
      case Ok(s') => LoadBatches(s', FilmBatches(e.filmIds, results), FilmWork)
  }

  /** The pass of one kind; the job runs no other kind, and a kind it
    * does not know would load nothing. */
  function KindPass(s: IndexState, kind: string, since: Timestamp, results: string -> seq<Row>): Progress
  {
    if kind == FilmWork then FilmPass(s, since, results)
    else if kind == Genre || kind == Person then LinkedPass(s, kind, since, results)
    else Progress(true, s)
  }

  /** The genre and person kinds run a linked pass. */
  lemma LinkedKindPass(s: IndexState, kind: string, since: Timestamp, results: string -> seq<Row>)
    requires kind == Genre || kind == Person
    ensures KindPass(s, kind, since, results) == LinkedPass(s, kind, since, results)
  {
  }

  /** The film_work kind runs the film pass. */
  lemma FilmKindPass(s: IndexState, since: Timestamp, results: string -> seq<Row>)
    ensures KindPass(s, FilmWork, since, results) == FilmPass(s, since, results)
  {
  }

  /** The passes over the database `results` describes, as one value. */
  function Passes(results: string -> seq<Row>): (IndexState, string, Timestamp) -> Progress
  {
    (s: IndexState, kind: string, since: Timestamp) => KindPass(s, kind, since, results)
  }

  /** How a run ends: every pass done, a pass that failed, or a stored
    * watermark that is not a timestamp. */
  datatype RunOutcome = Completed | Aborted(kind: string) | UnreadableWatermark(kind: string)

  datatype RunResult = RunResult(outcome: RunOutcome, index: IndexState, marks: map<string, string>, now: Timestamp)

  /** The passes from `kinds[0]` on: a kind's watermark becomes the current
    * time right after its pass succeeds; a failed pass ends the run. */
  function Sync(pass: (IndexState, string, Timestamp) -> Progress, s: IndexState, marks: map<string, string>,
                now: Timestamp, kinds: seq<string>, sinces: seq<Timestamp>): RunResult
    requires |kinds| == |sinces|
    decreases |kinds|
  {
    if kinds == [] then RunResult(Completed, s, marks, now)
    else
      var p := pass(s, kinds[0], sinces[0]);
      if !p.ok then RunResult(Aborted(kinds[0]), p.index, marks, now)
      else Sync(pass, p.index, marks[kinds[0] := DateText(now)], now + 1, kinds[1..], sinces[1..])
  }

  /** The first step of `Sync`. */
  lemma SyncStep(pass: (IndexState, string, Timestamp) -> Progress, s: IndexState, marks: map<string, string>,
                 now: Timestamp, kinds: seq<string>, sinces: seq<Timestamp>)
    requires |kinds| == |sinces| > 0
    ensures var p := pass(s, kinds[0], sinces[0]);
            && (!p.ok ==> Sync(pass, s, marks, now, kinds, sinces) == RunResult(Aborted(kinds[0]), p.index, marks, now))
            && (p.ok ==> Sync(pass, s, marks, now, kinds, sinces)
                         == Sync(pass, p.index, marks[kinds[0] := DateText(now)], now + 1, kinds[1..], sinces[1..]))
  {
  }

  /** The store after the three `exists`/`set` pairs: a kind without a
    * watermark gets `datetime.min`; every other entry is kept. */
  function Defaulted(marks: map<string, string>): (m: map<string, string>)
    ensures forall i :: 0 <= i < |RunOrder| ==> RunOrder[i] in m
    ensures forall k :: k in marks ==> k in m && m[k] == marks[k]
    ensures forall k :: k in m && k !in marks ==> m[k] == DateText(DatetimeMin)
  {
    var m1 := if FilmWork in marks then marks else marks[FilmWork := DateText(DatetimeMin)];
    var m2 := if Person in m1 then m1 else m1[Person := DateText(DatetimeMin)];
    if Genre in m2 then m2 else m2[Genre := DateText(DatetimeMin)]
  }

  /** The watermarks of `kinds`, read in order; the first unreadable one
    * is reported. */
  function ReadMarks(marks: map<string, string>, kinds: seq<string>): (r: Result<seq<Timestamp>, string>)
    requires forall i :: 0 <= i < |kinds| ==> kinds[i] in marks
    ensures r.Ok? ==> |r.value| == |kinds|
    ensures r.Ok? ==> forall i :: 0 <= i < |kinds| ==> FromIsoFormat(marks[kinds[i]]) == Some(r.value[i])
    ensures r.Err? ==> exists i :: 0 <= i < |kinds| && r.error == kinds[i] && FromIsoFormat(marks[kinds[i]]).None?
  {
    if kinds == [] then Ok([])
    else
      match FromIsoFormat(marks[kinds[0]])
      case None => Err(kinds[0])
      case Some(t) =>
        match ReadMarks(marks, kinds[1..])
        case Err(k) => Err(k)
        case Ok(ts) => Ok([t] + ts)
  }

  /** `ReadMarks` over the three kinds of a run, one kind at a time. */
  lemma ReadRunOrder(m: map<string, string>)
    requires FilmWork in m && Genre in m && Person in m
    ensures FromIsoFormat(m[FilmWork]).None? ==> ReadMarks(m, RunOrder) == Err(FilmWork)
    ensures FromIsoFormat(m[FilmWork]).Some? && FromIsoFormat(m[Genre]).None? ==> ReadMarks(m, RunOrder) == Err(Genre)
    ensures FromIsoFormat(m[FilmWork]).Some? && FromIsoFormat(m[Genre]).Some? && FromIsoFormat(m[Person]).None?
            ==> ReadMarks(m, RunOrder) == Err(Person)
    ensures FromIsoFormat(m[FilmWork]).Some? && FromIsoFormat(m[Genre]).Some? && FromIsoFormat(m[Person]).Some?
            ==> ReadMarks(m, RunOrder)
                == Ok([FromIsoFormat(m[FilmWork]).value, FromIsoFormat(m[Genre]).value, FromIsoFormat(m[Person]).value])
  {
    assert RunOrder[1..] == [Genre, Person];
    assert [Genre, Person][1..] == [Person];
    assert [Person][1..] == [];
    assert RunOrder[0] == FilmWork && [Genre, Person][0] == Genre && [Person][0] == Person;
    var f, g, p := FromIsoFormat(m[FilmWork]), FromIsoFormat(m[Genre]), FromIsoFormat(m[Person]);
    assert ReadMarks(m, []) == Ok([]);
    if p.Some? {
      assert ReadMarks(m, [Person]) == Ok([p.value] + []);
      assert [p.value] + [] == [p.value];
    }
    if g.Some? && p.Some? {
      assert ReadMarks(m, [Genre, Person]) == Ok([g.value] + [p.value]);
      assert [g.value] + [p.value] == [g.value, p.value];
    }
    if f.Some? && g.Some? && p.Some? {
      assert ReadMarks(m, RunOrder) == Ok([f.value] + [g.value, p.value]);
      assert [f.value] + [g.value, p.value] == [f.value, g.value, p.value];
    }
  }

  /** One run of `etl_part1` whose passes do what `pass` says (for the
    * job, `Passes(results)`). */
  function EtlRun(pass: (IndexState, string, Timestamp) -> Progress, s: IndexState, marks: map<string, string>,
                  now: Timestamp): RunResult
  {
    var m := Defaulted(marks);
    match ReadMarks(m, RunOrder)
    case Err(kind) => RunResult(UnreadableWatermark(kind), s, m, now)
    case Ok(sinces) => Sync(pass, s, m, now, RunOrder, sinces)
  }

  predicate DistinctKinds(kinds: seq<string>)
  {
    forall i, j :: 0 <= i < j < |kinds| ==> kinds[i] != kinds[j]
  }

  /** After the passes, `r.now - now` kinds have succeeded, one clock tick
    * each, and the run ends at the first kind whose pass failed. */
  lemma {:induction false} SyncProgress(pass: (IndexState, string, Timestamp) -> Progress, s: IndexState,
                                        marks: map<string, string>, now: Timestamp, kinds: seq<string>, sinces: seq<Timestamp>)
    requires |kinds| == |sinces|
    ensures var r := Sync(pass, s, marks, now, kinds, sinces);
            && now <= r.now <= now + |kinds|
            && (r.outcome == Completed <==> r.now == now + |kinds|)
            && (r.outcome != Completed ==> r.outcome == Aborted(kinds[r.now - now]))
    decreases |kinds|
  {
    if kinds != [] {
      var p := pass(s, kinds[0], sinces[0]);
      if p.ok {
        SyncProgress(pass, p.index, marks[kinds[0] := DateText(now)], now + 1, kinds[1..], sinces[1..]);
      }
    }
  }

  /** Keys of kinds that did not complete, and keys that are no kind, keep
    * their entries. */
  lemma {:induction false} SyncUntouched(pass: (IndexState, string, Timestamp) -> Progress, s: IndexState,
                                         marks: map<string, string>, now: Timestamp, kinds: seq<string>,
                                         sinces: seq<Timestamp>, k: string)
    requires |kinds| == |sinces|
    ensures var r := Sync(pass, s, marks, now, kinds, sinces);
            now <= r.now <= now + |kinds| && (k !in kinds[..r.now - now] ==>
              (k in r.marks <==> k in marks) && (k in marks ==> r.marks[k] == marks[k]))
    decreases |kinds|
  {
    SyncProgress(pass, s, marks, now, kinds, sinces);
    if kinds != [] {
      var p := pass(s, kinds[0], sinces[0]);
      if p.ok {
        var m' := marks[kinds[0] := DateText(now)];
        SyncUntouched(pass, p.index, m', now + 1, kinds[1..], sinces[1..], k);
        var r := Sync(pass, s, marks, now, kinds, sinces);
        var n := r.now - now;
        assert kinds[..n] == [kinds[0]] + kinds[1..][..n - 1];
      } else {
        assert kinds[..0] == [];
      }
    }
  }

  /** Every kind that completed carries the time its pass finished. */
  lemma {:induction false} SyncStamps(pass: (IndexState, string, Timestamp) -> Progress, s: IndexState,
                                      marks: map<string, string>, now: Timestamp, kinds: seq<string>,
                                      sinces: seq<Timestamp>, i: nat)
    requires |kinds| == |sinces| && DistinctKinds(kinds)
    requires now + i < Sync(pass, s, marks, now, kinds, sinces).now
    ensures i < |kinds|
    ensures var r := Sync(pass, s, marks, now, kinds, sinces);
            kinds[i] in r.marks && r.marks[kinds[i]] == DateText(now + i)
    decreases |kinds|
  {
    SyncProgress(pass, s, marks, now, kinds, sinces);
    SyncStep(pass, s, marks, now, kinds, sinces);
    var p := pass(s, kinds[0], sinces[0]);
    assert p.ok;
    var m' := marks[kinds[0] := DateText(now)];
    var tail, rest := kinds[1..], sinces[1..];
    var r := Sync(pass, p.index, m', now + 1, tail, rest);
    assert Sync(pass, s, marks, now, kinds, sinces) == r;
    if i == 0 {
      SyncUntouched(pass, p.index, m', now + 1, tail, rest, kinds[0]);
      assert kinds[0] !in tail[..r.now - (now + 1)];
    } else {
      SyncStamps(pass, p.index, m', now + 1, tail, rest, i - 1);
      assert tail[i - 1] == kinds[i];
    }
  }

  /** The three passes of a run, whatever each of them does to the cluster. */
  lemma RunOrderStamps(pass: (IndexState, string, Timestamp) -> Progress, s: IndexState,
                       m: map<string, string>, now: Timestamp, sinces: seq<Timestamp>)
    requires |sinces| == |RunOrder|
    requires forall i :: 0 <= i < |RunOrder| ==> RunOrder[i] in m
    ensures var r := Sync(pass, s, m, now, RunOrder, sinces);
            && (forall i :: 0 <= i < |RunOrder| ==> RunOrder[i] in r.marks)
            && (r.outcome == Completed ==>
                  forall i :: 0 <= i < |RunOrder| ==> r.marks[RunOrder[i]] == DateText(now + i))
            && (forall i :: 0 <= i < |RunOrder| && r.outcome == Aborted(RunOrder[i]) ==>
                  (forall j :: 0 <= j < i ==> r.marks[RunOrder[j]] == DateText(now + j))
                  && r.marks[RunOrder[i]] == m[RunOrder[i]])
  {
    RunOrderDistinct();
    SyncProgress(pass, s, m, now, RunOrder, sinces);
    var r := Sync(pass, s, m, now, RunOrder, sinces);
    forall i | 0 <= i < r.now - now
      ensures RunOrder[i] in r.marks && r.marks[RunOrder[i]] == DateText(now + i)
    {
      SyncStamps(pass, s, m, now, RunOrder, sinces, i);
    }
    forall i | 0 <= i < |RunOrder|
      ensures RunOrder[i] in r.marks
    {
      SyncUntouched(pass, s, m, now, RunOrder, sinces, RunOrder[i]);
    }
    forall i | 0 <= i < |RunOrder| && r.outcome == Aborted(RunOrder[i])
      ensures r.marks[RunOrder[i]] == m[RunOrder[i]]
    {
      assert RunOrder[r.now - now] == RunOrder[i];
      assert RunOrder[i] !in RunOrder[..r.now - now];
      SyncUntouched(pass, s, m, now, RunOrder, sinces, RunOrder[i]);
    }
  }

  /** A run's watermarks: nothing is read before every kind has one; a run
    * that completes stamps film_work, genre and person with three
    * successive clock readings; a run that stops at a kind has stamped
    * exactly the kinds before it, and that kind and every kind after it
    * keep their old watermarks. */
  lemma WatermarksAfterRun(pass: (IndexState, string, Timestamp) -> Progress, s: IndexState,
                           marks: map<string, string>, now: Timestamp)
    ensures var r := EtlRun(pass, s, marks, now);
            && (forall i :: 0 <= i < |RunOrder| ==> RunOrder[i] in r.marks)
            && (r.outcome == Completed ==>
                  forall i :: 0 <= i < |RunOrder| ==> r.marks[RunOrder[i]] == DateText(now + i))
            && (forall i :: 0 <= i < |RunOrder| && r.outcome == Aborted(RunOrder[i]) ==>
                  (forall j :: 0 <= j < i ==> r.marks[RunOrder[j]] == DateText(now + j))
                  && r.marks[RunOrder[i]] == Defaulted(marks)[RunOrder[i]])
            && (forall i, j :: 0 <= i < j < |RunOrder| && r.outcome == Aborted(RunOrder[i]) ==>
                  && RunOrder[j] in r.marks && RunOrder[j] in Defaulted(marks)
                  && r.marks[RunOrder[j]] == Defaulted(marks)[RunOrder[j]])
            && (r.outcome.UnreadableWatermark? ==> r.marks == Defaulted(marks) && r.index == s)
  {
    var m := Defaulted(marks);
    match ReadMarks(m, RunOrder)
    case Err(kind) =>
    case Ok(sinces) =>
      RunOrderStamps(pass, s, m, now, sinces);
      RunOrderDistinct();
      SyncProgress(pass, s, m, now, RunOrder, sinces);
      var r := Sync(pass, s, m, now, RunOrder, sinces);
      forall i, j | 0 <= i < j < |RunOrder| && r.outcome == Aborted(RunOrder[i])
        ensures RunOrder[j] in r.marks && r.marks[RunOrder[j]] == m[RunOrder[j]]
      {
        assert r.now - now == i;
        assert RunOrder[j] !in RunOrder[..i];
        SyncUntouched(pass, s, m, now, RunOrder, sinces, RunOrder[j]);
      }
  }

  /** No readable watermark lies after the clock. */
  predicate MarksNotAhead(marks: map<string, string>, now: Timestamp)
  {
    forall k :: k in marks && FromIsoFormat(marks[k]).Some? ==> FromIsoFormat(marks[k]).value <= now
  }

  /** The passes never move a watermark back, and they keep every
    * watermark at or before the clock. */
  lemma {:induction false} SyncMonotone(pass: (IndexState, string, Timestamp) -> Progress, s: IndexState,
                                        marks: map<string, string>, now: Timestamp, kinds: seq<string>,
                                        sinces: seq<Timestamp>)
    requires |kinds| == |sinces| && MarksNotAhead(marks, now)
    ensures var r := Sync(pass, s, marks, now, kinds, sinces);
            && MarksNotAhead(r.marks, r.now)
            && forall k :: k in marks && FromIsoFormat(marks[k]).Some? ==>
                 k in r.marks && FromIsoFormat(r.marks[k]).Some?
                 && FromIsoFormat(marks[k]).value <= FromIsoFormat(r.marks[k]).value
    decreases |kinds|
  {
    if kinds != [] {
      var p := pass(s, kinds[0], sinces[0]);
      if p.ok {
        IsoFormatRoundTrip(now);
        var m' := marks[kinds[0] := DateText(now)];
        assert MarksNotAhead(m', now + 1);
        SyncMonotone(pass, p.index, m', now + 1, kinds[1..], sinces[1..]);
      }
    }
  }

  /** Defaulting adds only `datetime.min`, which is before any clock. */
  lemma DefaultedNotAhead(marks: map<string, string>, now: Timestamp)
    requires MarksNotAhead(marks, now)
    ensures MarksNotAhead(Defaulted(marks), now)
  {
    IsoFormatRoundTrip(DatetimeMin);
  }

  /** Watermark monotonicity: when no stored watermark is ahead of the
    * clock, a run that reads its watermarks leaves each kind's watermark
    * readable and no earlier than it was, and no run leaves a watermark
    * ahead of the clock, so the next run starts from the same condition. */
  lemma WatermarksMonotone(pass: (IndexState, string, Timestamp) -> Progress, s: IndexState,
                           marks: map<string, string>, now: Timestamp)
    requires MarksNotAhead(marks, now)
    ensures var r := EtlRun(pass, s, marks, now);
            && MarksNotAhead(r.marks, r.now)
            && (!r.outcome.UnreadableWatermark? ==>
                  forall i :: 0 <= i < |RunOrder| ==>
                    && RunOrder[i] in r.marks
                    && FromIsoFormat(Defaulted(marks)[RunOrder[i]]).Some?
                    && FromIsoFormat(r.marks[RunOrder[i]]).Some?
                    && FromIsoFormat(Defaulted(marks)[RunOrder[i]]).value <= FromIsoFormat(r.marks[RunOrder[i]]).value)
  {
    var m := Defaulted(marks);
    DefaultedNotAhead(marks, now);
    match ReadMarks(m, RunOrder)
    case Err(kind) =>
    case Ok(sinces) =>
      SyncMonotone(pass, s, m, now, RunOrder, sinces);
  }

  /** The `while True: fetchmany(100)` loop of the film pass: every row the
    * query returns, page after page, up to the first empty page. */
  method CollectPages(cur: Cursor, query: string) returns (allFilms: seq<Row>)
    modifies cur
    ensures allFilms == cur.results(query)
  {
    cur.Execute(query);
    allFilms := [];
    while true
      invariant allFilms + cur.pending == cur.results(query)
      decreases |cur.pending|
    {
      var rows := cur.FetchMany(PageSize);
      if |rows| > 0 {
        allFilms := allFilms + rows;
      } else {
        assert allFilms == cur.results(query);
        break;
      }
    }
  }

  /** The `range(0, len(all_films), 10)` loop: `etl_part2` on each slice of
    * ten rows, stopping at the first failure. */
  method LoadFilmRows(es: Elasticsearch, allFilms: seq<Row>) returns (ok: bool)
    modifies es
    ensures Progress(ok, es.state) == LoadBatches(old(es.state), Chunks(allFilms, ChunkSize), FilmWork)
  {
    ghost var chunks := Chunks(allFilms, ChunkSize);
    var films := 0;
    ghost var k := 0;
    while films < |allFilms|
      invariant films == k * ChunkSize && k <= |chunks|
      invariant LoadBatches(old(es.state), chunks[..k], FilmWork) == Progress(true, es.state)
      decreases |allFilms| - films
    {
      ChunkAt(allFilms, k);
      LoadBatchesStep(old(es.state), chunks, FilmWork, k, es.state);
      var r := EtlPart2(es, allFilms[films..Min(films + ChunkSize, |allFilms|)], FilmWork);
      if r.Err? {
        LoadBatchesPrefixFails(old(es.state), chunks, FilmWork, k + 1);
        return false;
      }
      films := films + ChunkSize;
      k := k + 1;
    }
    ChunksEnd(allFilms, k);
    assert chunks[..k] == chunks;
    ok := true;
  }

  /** The film pass of `etl_part1`. */
  method SyncFilms(cur: Cursor, es: Elasticsearch, since: Timestamp) returns (ok: bool)
    modifies cur, es
    ensures Progress(ok, es.state) == FilmPass(old(es.state), since, cur.results)
  {
    UpdatedSinceQuery(since);
    var allFilms := CollectPages(cur, MakeQuery(UpdatedSinceBlock(since)).value);
    ok := LoadFilmRows(es, allFilms);
  }

  /** A page taken off the pending rows joins the rows seen so far. */
  lemma PageSplit(detected: seq<Row>, pending: seq<Row>, rows: seq<Row>, rest: seq<Row>)
    requires pending == rows + rest
    ensures detected + pending == (detected + rows) + rest
  {
  }

  /** The `while True: fetchmany(100)` loop of a genre or person pass: every
    * row adds its film id and, in the genre pass, its summary when new; a
    * row without a column the loop reads ends the pass. */
  method DetectLinked(cur: Cursor, query: string, kind: string) returns (ok: bool, filmsIds: seq<Value>, genres: seq<Row>)
    modifies cur
    ensures ok <==> Expand(cur.results(query), kind).Some?
    ensures ok ==> Expand(cur.results(query), kind).value == Expansion(filmsIds, genres)
  {
    filmsIds, genres := [], [];
    cur.Execute(query);
    ghost var detected: seq<Row> := [];
    while true
      invariant detected + cur.pending == cur.results(query)
      invariant Expand(detected, kind) == Some(Expansion(filmsIds, genres))
      decreases |cur.pending|
    {
      ghost var pending := cur.pending;
      var rows := cur.FetchMany(PageSize);
      PageSplit(detected, pending, rows, cur.pending);
      if |rows| > 0 {
        var pageOk;
        pageOk, filmsIds, genres := ExpandPage(rows, kind, filmsIds, genres);
        if !pageOk {
          ExpandBadPage(detected, rows, cur.pending, kind);
          return false, filmsIds, genres;
        }
        ExpandNextPage(detected, rows, kind);
        detected := detected + rows;
      } else {
        assert detected == cur.results(query);
        break;
      }
    }
    ok := true;
  }

  /** One slice of film ids: `execute` its query, `fetchall`, load the rows. */
  method LoadFilmSlice(cur: Cursor, es: Elasticsearch, chunk: seq<Value>) returns (ok: bool)
    modifies cur, es
    ensures var goal := Part2(old(es.state), cur.results(ChunkQuery(chunk)), FilmWork);
            && (ok <==> goal.Ok?)
            && es.state == (if ok then goal.value else old(es.state))
  {
    cur.Execute(ChunkQuery(chunk));
    var rows := cur.FetchAll();
    var r := EtlPart2(es, rows, FilmWork);
    ok := r.Ok?;
  }

  /** One iteration of the `range(0, len(films_ids), 10)` loop: the slice
    * starting at `films` is chunk `k`, and its rows are loaded. */
  method LoadFilmChunk(cur: Cursor, es: Elasticsearch, filmsIds: seq<Value>, films: nat, ghost k: nat)
    returns (ok: bool)
    requires films == k * ChunkSize && films < |filmsIds|
    modifies cur, es
    ensures k < |FilmBatches(filmsIds, cur.results)|
    ensures var r := Part2(old(es.state), FilmBatches(filmsIds, cur.results)[k], FilmWork);
            (ok <==> r.Ok?) && es.state == if ok then r.value else old(es.state)
  {
    ChunkAt(filmsIds, k);
    var slice := filmsIds[films..Min(films + ChunkSize, |filmsIds|)];
    FilmBatchAt(filmsIds, cur.results, k, slice);
    ok := LoadFilmSlice(cur, es, slice);
  }

  /** The `range(0, len(films_ids), 10)` loop: fetch the full rows of each
    * slice of ten film ids with `fetchall` and load them. */
  method LoadFilmIds(cur: Cursor, es: Elasticsearch, filmsIds: seq<Value>) returns (ok: bool)
    modifies cur, es
    ensures Progress(ok, es.state) == LoadBatches(old(es.state), FilmBatches(filmsIds, cur.results), FilmWork)
  {
    ghost var batches := FilmBatches(filmsIds, cur.results);
    var films := 0;
    ghost var k := 0;
    while films < |filmsIds|
      invariant films == k * ChunkSize && k <= |batches|
      invariant LoadBatches(old(es.state), batches[..k], FilmWork) == Progress(true, es.state)
      decreases |filmsIds| - films
    {
      ChunkAt(filmsIds, k);
      LoadBatchesStep(old(es.state), batches, FilmWork, k, es.state);
      var loaded := LoadFilmChunk(cur, es, filmsIds, films, k);
      if !loaded {
        LoadBatchesPrefixFails(old(es.state), batches, FilmWork, k + 1);
        return false;
      }
      films := films + ChunkSize;
      k := k + 1;
    }
    ChunksEnd(filmsIds, k);
    assert batches[..k] == batches;
    ok := true;
  }

  /** A genre or person pass of `etl_part1`. */
  method SyncLinked(cur: Cursor, es: Elasticsearch, kind: string, since: Timestamp) returns (ok: bool)
    requires kind == Genre || kind == Person
    modifies cur, es
    ensures Progress(ok, es.state) == LinkedPass(old(es.state), kind, since, cur.results)
  {
    var detected, filmsIds, genres := DetectLinked(cur, MakePrequery(kind, since).value, kind);
    if !detected {
      return false;
    }
    var loaded := EtlPart2(es, genres, kind);
    if loaded.Err? {
      return false;
    }
    ok := LoadFilmIds(cur, es, filmsIds);
  }

  /** The three `exists`/`set` pairs and the three reads of `etl_part1`:
    * the store ends up `Defaulted`, and the watermarks are parsed in run
    * order, the first unreadable one reported. */
  method ReadWatermarks(store: WatermarkStore) returns (r: Result<seq<Timestamp>, string>)
    modifies store
    ensures store.values == Defaulted(old(store.values))
    ensures r == ReadMarks(store.values, RunOrder)
  {
    var present := store.Exists(FilmWork);
    if !present {
      store.Set(FilmWork, DateText(DatetimeMin));
    }
    present := store.Exists(Person);
    if !present {
      store.Set(Person, DateText(DatetimeMin));
    }
    present := store.Exists(Genre);
    if !present {
      store.Set(Genre, DateText(DatetimeMin));
    }
    assert store.values == Defaulted(old(store.values));
    RunOrderDistinct();
    ReadRunOrder(store.values);
    var fw := store.Get(FilmWork);
    var g := store.Get(Genre);
    var p := store.Get(Person);
    var stateFw := FromIsoFormat(fw.value);
    if stateFw.None? {
      return Err(FilmWork);
    }
    var stateG := FromIsoFormat(g.value);
    if stateG.None? {
      return Err(Genre);
    }
    var stateP := FromIsoFormat(p.value);
    if stateP.None? {
      return Err(Person);
    }
    r := Ok([stateFw.value, stateG.value, stateP.value]);
  }

  /** The pass of one kind of a run, as `etl_part1` dispatches it. */
  method RunPass(cur: Cursor, es: Elasticsearch, kind: string, since: Timestamp) returns (ok: bool)
    requires kind in RunOrder
    modifies cur, es
    ensures Progress(ok, es.state) == KindPass(old(es.state), kind, since, cur.results)
  {
    if kind == Genre || kind == Person {
      LinkedKindPass(es.state, kind, since, cur.results);
      ok := SyncLinked(cur, es, kind, since);
    } else {
      assert kind == FilmWork;
      FilmKindPass(es.state, since, cur.results);
      ok := SyncFilms(cur, es, since);
    }
  }

  /** One iteration of `etl_part1`'s loop: the pass of `kind`, then, if it
    * succeeded, its watermark set to the current time. */
  method PassAndStamp(cur: Cursor, store: WatermarkStore, clock: Clock, es: Elasticsearch,
                      kind: string, since: Timestamp) returns (passed: bool)
    requires kind in RunOrder
    modifies cur, store, clock, es
    ensures var p := KindPass(old(es.state), kind, since, cur.results);
            && passed == p.ok && es.state == p.index
            && store.values == (if passed then old(store.values)[kind := DateText(old(clock.now))] else old(store.values))
            && clock.now == (if passed then old(clock.now) + 1 else old(clock.now))
  {
    passed := RunPass(cur, es, kind, since);
    if passed {
      var t := clock.UtcNow();
      store.Set(kind, DateText(t));
    }
  }

  /** The passes of `etl_part1` over `kinds` (the run order), each
    * followed by stamping its kind with a fresh clock reading. */
  method RunPasses(cur: Cursor, store: WatermarkStore, clock: Clock, es: Elasticsearch,
                   kinds: seq<string>, dates: seq<Timestamp>) returns (outcome: RunOutcome)
    requires |dates| == |kinds|
    requires forall i :: 0 <= i < |kinds| ==> kinds[i] in RunOrder
    modifies cur, store, clock, es
    ensures var r := Sync(Passes(cur.results), old(es.state), old(store.values), old(clock.now), kinds, dates);
            outcome == r.outcome && es.state == r.index && store.values == r.marks && clock.now == r.now
  {
    ghost var pass := Passes(cur.results);
    ghost var start := Sync(pass, es.state, store.values, clock.now, kinds, dates);
    for i := 0 to |kinds|
      invariant start == Sync(pass, es.state, store.values, clock.now, kinds[i..], dates[i..])
    {
      var kind := kinds[i];
      ghost var before := (es.state, store.values, clock.now);
      var passed := PassAndStamp(cur, store, clock, es, kind, dates[i]);
      SyncStep(pass, before.0, before.1, before.2, kinds[i..], dates[i..]);
      if !passed {
        return Aborted(kind);
      }
      assert kinds[i..][1..] == kinds[i + 1..] && dates[i..][1..] == dates[i + 1..];
    }
    outcome := Completed;
  }

  /** `etl_part1`: default the missing watermarks, read all three, then run
    * the passes in order, stamping each kind's watermark with the clock
    * right after its pass; a failed pass ends the run. */
  method EtlPart1(cur: Cursor, store: WatermarkStore, clock: Clock, es: Elasticsearch) returns (outcome: RunOutcome)
    modifies cur, store, clock, es
    ensures var r := EtlRun(Passes(cur.results), old(es.state), old(store.values), old(clock.now));
            outcome == r.outcome && es.state == r.index && store.values == r.marks && clock.now == r.now
  {
    var read := ReadWatermarks(store);
    if read.Err? {
      return UnreadableWatermark(read.error);
    }
    outcome := RunPasses(cur, store, clock, es, RunOrder, read.value);
  }
}

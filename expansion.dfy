/** Impact expansion of the genre and person passes: every junction row
  * detected as changed contributes its film id, and in the genre pass a
  * `{gid, name}` summary that is kept once per distinct value. */
module Expansion {
  import opened Common
  import opened Values
  import opened Kinds

  /** The keys `row['fid']` (and, in the genre pass, `row['gid']` and
    * `row['name']`) the loop reads. */
  predicate HasLinkKeys(row: Row, state: string)
  {
    "fid" in row && (state == Genre ==> "gid" in row && "name" in row)
  }

  predicate LinkRowsWellFormed(rows: seq<Row>, state: string)
  {
    forall i :: 0 <= i < |rows| ==> HasLinkKeys(rows[i], state)
  }

  /** The film id of every row, one per row, in row order. */
  function FilmIds(rows: seq<Row>): (ids: seq<Value>)
    requires forall i :: 0 <= i < |rows| ==> "fid" in rows[i]
    ensures |ids| == |rows|
    ensures forall i :: 0 <= i < |rows| ==> ids[i] == rows[i]["fid"]
  {
    if rows == [] then [] else [rows[0]["fid"]] + FilmIds(rows[1..])
  }

  /** The dict `{'gid': row['gid'], 'name': row['name']}`. */
  function Summary(row: Row): Row
    requires "gid" in row && "name" in row
  {
    map["gid" := row["gid"], "name" := row["name"]]
  }

  function Summaries(rows: seq<Row>): (sums: seq<Row>)
    requires forall i :: 0 <= i < |rows| ==> "gid" in rows[i] && "name" in rows[i]
    ensures |sums| == |rows|
    ensures forall i :: 0 <= i < |rows| ==> sums[i] == Summary(rows[i])
  {
    if rows == [] then [] else [Summary(rows[0])] + Summaries(rows[1..])
  }

  /** `if x not in acc: acc.append(x)`. */
  function AddIfNew<T(==)>(acc: seq<T>, x: T): seq<T>
  {
    if x in acc then acc else acc + [x]
  }

  /** `AddIfNew` applied to each element of `xs` in turn. */
  function AddAllNew<T(==)>(acc: seq<T>, xs: seq<T>): (r: seq<T>)
    ensures acc <= r
    ensures forall i :: 0 <= i < |r| ==> r[i] in acc || r[i] in xs
    ensures forall i :: 0 <= i < |xs| ==> xs[i] in r
  {
    if xs == [] then acc else AddIfNew(AddAllNew(acc, xs[..|xs| - 1]), xs[|xs| - 1])
  }

  predicate Distinct<T(==)>(xs: seq<T>)
  {
    forall i, j :: 0 <= i < j < |xs| ==> xs[i] != xs[j]
  }

  /** No summary is kept twice. */
  lemma {:induction false} AddAllNewDistinct<T>(acc: seq<T>, xs: seq<T>)
    requires Distinct(acc)
    ensures Distinct(AddAllNew(acc, xs))
  {
    if xs != [] {
      AddAllNewDistinct(acc, xs[..|xs| - 1]);
    }
  }

  /** Scanning two pages one after the other is scanning their concatenation. */
  lemma {:induction false} AddAllNewAppend<T>(acc: seq<T>, xs: seq<T>, ys: seq<T>)
    ensures AddAllNew(acc, xs + ys) == AddAllNew(AddAllNew(acc, xs), ys)
    decreases |ys|
  {
    if ys == [] {
      assert xs + ys == xs;
    } else {
      assert (xs + ys)[..|xs + ys| - 1] == xs + ys[..|ys| - 1];
      AddAllNewAppend(acc, xs, ys[..|ys| - 1]);
    }
  }

  /** The position of the first occurrence of `x` in `xs`. */
  function FirstIndex<T(==)>(xs: seq<T>, x: T): (i: nat)
    requires x in xs
    ensures i < |xs| && xs[i] == x && x !in xs[..i]
  {
    if xs[0] == x then 0 else 1 + FirstIndex(xs[1..], x)
  }

  lemma FirstIndexInPrefix<T>(xs: seq<T>, n: nat, x: T)
    requires n <= |xs| && x in xs[..n]
    ensures FirstIndex(xs, x) == FirstIndex(xs[..n], x)
  {
    var j := FirstIndex(xs[..n], x);
    assert xs[..n][j] == xs[j];
  }

  /** Every element of `r` occurs in `xs`, and `r` lists them in the order
    * of their first occurrence there. */
  predicate InFirstOccurrenceOrder<T(==)>(xs: seq<T>, r: seq<T>)
  {
    (forall k :: 0 <= k < |r| ==> r[k] in xs) &&
    forall i, j :: 0 <= i < j < |r| ==> FirstIndex(xs, r[i]) < FirstIndex(xs, r[j])
  }

  /** The kept summaries appear in the order of their first occurrence. */
  lemma {:induction false} FirstOccurrenceOrder<T>(xs: seq<T>)
    ensures InFirstOccurrenceOrder(xs, AddAllNew([], xs))
  {
    if xs != [] {
      var n := |xs| - 1;
      var init, last := xs[..n], xs[n];
      var r0 := AddAllNew([], init);
      FirstOccurrenceOrder(init);
      forall k | 0 <= k < |r0|
        ensures r0[k] in xs && FirstIndex(xs, r0[k]) == FirstIndex(init, r0[k]) < n
      {
        assert r0[k] in init;
        FirstIndexInPrefix(xs, n, r0[k]);
      }
      var r := AddAllNew([], xs);
      if last !in init {
        assert last !in r0;
        assert r == r0 + [last];
        assert FirstIndex(xs, last) == n;
      } else {
        assert r == r0;
      }
      forall i, j | 0 <= i < j < |r|
        ensures FirstIndex(xs, r[i]) < FirstIndex(xs, r[j])
      {
        assert r[i] == r0[i];
        if j < |r0| {
          assert r[j] == r0[j];
        }
      }
    }
  }

  /** What the detection loop of a genre or person pass collects. */
  datatype Expansion = Expansion(filmIds: seq<Value>, summaries: seq<Row>)

  /** The expansion of all detected rows: no result when some row lacks a
    * key the loop reads (a KeyError aborts the pass). */
  function Expand(rows: seq<Row>, state: string): Option<Expansion>
  {
    if LinkRowsWellFormed(rows, state) then
      Some(Expansion(FilmIds(rows), if state == Genre then AddAllNew([], Summaries(rows)) else []))
    else None
  }

  /** The genre summaries of a pass are exactly the distinct `{gid, name}`
    * values of its rows, each once, in first-occurrence order; the person
    * pass keeps none. */
  lemma ExpandSummaries(rows: seq<Row>, state: string)
    requires Expand(rows, state).Some?
    ensures var e := Expand(rows, state).value;
            && |e.filmIds| == |rows|
            && Distinct(e.summaries)
            && (state != Genre ==> e.summaries == [])
            && (state == Genre ==> forall s :: s in e.summaries <==> exists i :: 0 <= i < |rows| && s == Summary(rows[i]))
            && (state == Genre ==> InFirstOccurrenceOrder(Summaries(rows), e.summaries))
  {
    if state == Genre {
      var sums := Summaries(rows);
      AddAllNewDistinct([], sums);
      FirstOccurrenceOrder(sums);
      forall s
        ensures s in AddAllNew([], sums) <==> exists i :: 0 <= i < |rows| && s == Summary(rows[i])
      {
        if s in sums {
          var i :| 0 <= i < |sums| && sums[i] == s;
          assert s == Summary(rows[i]);
        }
      }
    }
  }

  /** One more row with the keys the loop reads extends the film ids and
    * the summaries by its own. */
  lemma LinkRowsSnoc(rows: seq<Row>, i: nat, state: string)
    requires i < |rows| && LinkRowsWellFormed(rows[..i], state) && HasLinkKeys(rows[i], state)
    ensures LinkRowsWellFormed(rows[..i + 1], state)
    ensures FilmIds(rows[..i + 1]) == FilmIds(rows[..i]) + [rows[i]["fid"]]
    ensures state == Genre ==> Summaries(rows[..i + 1]) == Summaries(rows[..i]) + [Summary(rows[i])]
  {
    assert rows[..i + 1] == rows[..i] + [rows[i]];
    LinkRowsAppend(rows[..i], [rows[i]], state);
    FilmIdsAppend(rows[..i], [rows[i]]);
    if state == Genre {
      SummariesAppend(rows[..i], [rows[i]]);
    }
  }

  lemma AddAllNewSnoc<T>(acc: seq<T>, xs: seq<T>, x: T)
    ensures AddAllNew(acc, xs + [x]) == AddIfNew(AddAllNew(acc, xs), x)
  {
    assert (xs + [x])[..|xs|] == xs;
  }

  /** The detection rows arrive in pages; what they yield does not depend
    * on where one page ends and the next begins. */
  lemma LinkRowsAppend(a: seq<Row>, b: seq<Row>, state: string)
    ensures LinkRowsWellFormed(a + b, state) <==> LinkRowsWellFormed(a, state) && LinkRowsWellFormed(b, state)
  {
    if LinkRowsWellFormed(a + b, state) {
      forall i | 0 <= i < |b|
        ensures HasLinkKeys(b[i], state)
      {
        assert (a + b)[|a| + i] == b[i];
      }
      forall i | 0 <= i < |a|
        ensures HasLinkKeys(a[i], state)
      {
        assert (a + b)[i] == a[i];
      }
    }
  }

  lemma FilmIdsAppend(a: seq<Row>, b: seq<Row>)
    requires forall i :: 0 <= i < |a| ==> "fid" in a[i]
    requires forall i :: 0 <= i < |b| ==> "fid" in b[i]
    ensures FilmIds(a + b) == FilmIds(a) + FilmIds(b)
  {
    assert forall i :: 0 <= i < |a + b| ==> "fid" in (a + b)[i];
  }

  lemma SummariesAppend(a: seq<Row>, b: seq<Row>)
    requires forall i :: 0 <= i < |a| ==> "gid" in a[i] && "name" in a[i]
    requires forall i :: 0 <= i < |b| ==> "gid" in b[i] && "name" in b[i]
    ensures Summaries(a + b) == Summaries(a) + Summaries(b)
  {
    assert forall i :: 0 <= i < |a + b| ==> "gid" in (a + b)[i] && "name" in (a + b)[i];
  }

  /** One more page of detected rows extends the film ids and the summaries
    * the way scanning the page on its own would. */
  lemma ExpandNextPage(detected: seq<Row>, rows: seq<Row>, state: string)
    requires Expand(detected, state).Some? && LinkRowsWellFormed(rows, state)
    ensures var e := Expand(detected, state).value;
            Expand(detected + rows, state)
              == Some(Expansion(e.filmIds + FilmIds(rows), if state == Genre then AddAllNew(e.summaries, Summaries(rows)) else []))
  {
    LinkRowsAppend(detected, rows, state);
    FilmIdsAppend(detected, rows);
    if state == Genre {
      SummariesAppend(detected, rows);
      AddAllNewAppend([], Summaries(detected), Summaries(rows));
    }
  }

  /** A page with a row that lacks a column spoils the whole detection. */
  lemma ExpandBadPage(detected: seq<Row>, rows: seq<Row>, rest: seq<Row>, state: string)
    requires !LinkRowsWellFormed(rows, state)
    ensures Expand(detected + rows + rest, state).None?
  {
    LinkRowsAppend(detected, rows, state);
    LinkRowsAppend(detected + rows, rest, state);
  }

  /** One `fetchmany` page of the detection loop: append every row's film
    * id and, in the genre pass, every new summary. `ok` is false when a row
    * lacks a key (the loop raises KeyError there). */
  method ExpandPage(rows: seq<Row>, state: string, filmIds: seq<Value>, summaries: seq<Row>)
    returns (ok: bool, filmIds': seq<Value>, summaries': seq<Row>)
    ensures ok == LinkRowsWellFormed(rows, state)
    ensures ok ==> filmIds' == filmIds + FilmIds(rows)
    ensures ok ==> summaries' == if state == Genre then AddAllNew(summaries, Summaries(rows)) else summaries
  {
    filmIds', summaries' := filmIds, summaries;
    for i := 0 to |rows|
      invariant LinkRowsWellFormed(rows[..i], state)
      invariant filmIds' == filmIds + FilmIds(rows[..i])
      invariant summaries' == if state == Genre then AddAllNew(summaries, Summaries(rows[..i])) else summaries
    {
      var row := rows[i];
      if "fid" !in row {
        return false, filmIds', summaries';
      }
      filmIds' := filmIds' + [row["fid"]];
      if state == Genre {
        if "gid" !in row || "name" !in row {
          return false, filmIds', summaries';
        }
        var genre := Summary(row);
        if genre !in summaries' {
          summaries' := summaries' + [genre];
        }
      }
      LinkRowsSnoc(rows, i, state);
      if state == Genre {
        AddAllNewSnoc(summaries, Summaries(rows[..i]), Summary(row));
      }
    }
    assert rows[..|rows|] == rows;
    ok := true;
  }
}

/** The Elasticsearch side of the synchronisation job as the bulk helper
  * sees it: a store of documents keyed by index name and document id, and
  * the bulk calls that carried at least one action. */
module SearchIndex {
  import opened Values

  /** Where a document lives: its index and its `_id`. */
  datatype DocKey = DocKey(index: string, id: Value)

  /** The action metadata a bulk record carries besides the document. */
  const MetaKeys: set<string> := {"_id", "_op_type", "_index"}

  /** A bulk record the helper accepts as an `index` action. */
  predicate IsIndexAction(rec: Row)
  {
    && "_id" in rec
    && "_index" in rec && rec["_index"].Str?
    && "_op_type" in rec && rec["_op_type"] == Str("index")
  }

  predicate AllIndexActions(recs: seq<Row>)
  {
    forall i :: 0 <= i < |recs| ==> IsIndexAction(recs[i])
  }

  function KeyOf(rec: Row): DocKey
    requires IsIndexAction(rec)
  {
    DocKey(rec["_index"].chars, rec["_id"])
  }

  /** The document an index action stores: the record without its metadata. */
  function Source(rec: Row): Row
  {
    rec - MetaKeys
  }

  /** Every action of a bulk call in turn: an `index` action creates or
    * replaces the document under its key. */
  function ApplyRecords(docs: map<DocKey, Row>, recs: seq<Row>): (r: map<DocKey, Row>)
    requires AllIndexActions(recs)
    ensures forall k :: k in docs ==> k in r
    ensures forall i :: 0 <= i < |recs| ==> KeyOf(recs[i]) in r
  {
    if recs == [] then docs
    else
      var last := recs[|recs| - 1];
      ApplyRecords(docs, recs[..|recs| - 1])[KeyOf(last) := Source(last)]
  }

  /** The last action for a key decides the document stored under it. */
  lemma {:induction false} LastWriteWins(docs: map<DocKey, Row>, recs: seq<Row>, i: nat)
    requires AllIndexActions(recs)
    requires i < |recs|
    requires forall j :: i < j < |recs| ==> KeyOf(recs[j]) != KeyOf(recs[i])
    ensures ApplyRecords(docs, recs)[KeyOf(recs[i])] == Source(recs[i])
  {
    if i < |recs| - 1 {
      LastWriteWins(docs, recs[..|recs| - 1], i);
    }
  }

  /** A key no action names keeps its document, or stays absent. */
  lemma {:induction false} UntouchedKey(docs: map<DocKey, Row>, recs: seq<Row>, k: DocKey)
    requires AllIndexActions(recs)
    requires forall j :: 0 <= j < |recs| ==> KeyOf(recs[j]) != k
    ensures k in ApplyRecords(docs, recs) <==> k in docs
    ensures k in docs ==> ApplyRecords(docs, recs)[k] == docs[k]
  {
    if recs != [] {
      UntouchedKey(docs, recs[..|recs| - 1], k);
    }
  }

  /** A bulk call overlays the documents it names on what was stored. */
  lemma {:induction false} ApplyRecordsOverlay(docs: map<DocKey, Row>, recs: seq<Row>)
    requires AllIndexActions(recs)
    ensures ApplyRecords(docs, recs) == docs + ApplyRecords(map[], recs)
  {
    if recs != [] {
      var last := recs[|recs| - 1];
      ApplyRecordsOverlay(docs, recs[..|recs| - 1]);
      var u := ApplyRecords(map[], recs[..|recs| - 1]);
      assert (docs + u)[KeyOf(last) := Source(last)] == docs + u[KeyOf(last) := Source(last)];
    }
  }

  /** Re-sending the same actions changes nothing: indexing is an upsert. */
  lemma ApplyRecordsIdempotent(docs: map<DocKey, Row>, recs: seq<Row>)
    requires AllIndexActions(recs)
    ensures ApplyRecords(ApplyRecords(docs, recs), recs) == ApplyRecords(docs, recs)
  {
    var u := ApplyRecords(map[], recs);
    ApplyRecordsOverlay(docs, recs);
    ApplyRecordsOverlay(docs + u, recs);
    assert (docs + u) + u == docs + u;
  }

  /** Two bulk calls in a row store what one call with both action lists does. */
  lemma {:induction false} ApplyRecordsAppend(docs: map<DocKey, Row>, a: seq<Row>, b: seq<Row>)
    requires AllIndexActions(a) && AllIndexActions(b)
    ensures AllIndexActions(a + b)
    ensures ApplyRecords(docs, a + b) == ApplyRecords(ApplyRecords(docs, a), b)
    decreases |b|
  {
    if b == [] {
      assert a + b == a;
    } else {
      assert (a + b)[..|a + b| - 1] == a + b[..|b| - 1];
      ApplyRecordsAppend(docs, a, b[..|b| - 1]);
    }
  }

  /** The cluster state the job can observe. */
  datatype IndexState = IndexState(docs: map<DocKey, Row>, requests: seq<seq<Row>>)

  /** `helpers.bulk(es, actions)`: the actions are applied in order; an empty
    * action stream sends no request at all. */
  function Bulk(s: IndexState, recs: seq<Row>): IndexState
    requires AllIndexActions(recs)
  {
    if recs == [] then s
    else IndexState(ApplyRecords(s.docs, recs), s.requests + [recs])
  }

  /** What a bulk call stores depends only on the documents before it. */
  lemma BulkDocs(s: IndexState, recs: seq<Row>)
    requires AllIndexActions(recs)
    ensures Bulk(s, recs).docs == ApplyRecords(s.docs, recs)
  {
  }

  /** The client object the job holds. */
  class Elasticsearch {
    var state: IndexState

    constructor(initial: IndexState)
      ensures state == initial
    {
      state := initial;
    }

    method BulkIndex(recs: seq<Row>)
      requires AllIndexActions(recs)
      modifies this
      ensures state == Bulk(old(state), recs)
    {
      state := Bulk(state, recs);
    }
  }
}

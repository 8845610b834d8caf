/** The stateful collaborators of the synchronisation job: the database
  * cursor, the Redis instance holding one watermark per kind, and the
  * clock. */
module Stores {
  import opened Common
  import opened Values
  import opened Timestamps

  /** A `DictCursor` over a database that does not change while the job
    * runs: `results(q)` are the rows query `q` returns, in order. */
  class Cursor {
    const results: string -> seq<Row>
    var pending: seq<Row>

    constructor(results: string -> seq<Row>)
      ensures this.results == results && pending == []
    {
      this.results := results;
      pending := [];
    }

    method Execute(query: string)
      modifies this
      ensures pending == results(query)
    {
      pending := results(query);
    }

    /** The next `size` rows, or fewer when fewer are left. */
    method FetchMany(size: nat) returns (rows: seq<Row>)
      modifies this
      ensures rows == old(pending)[..Min(size, |old(pending)|)]
      ensures pending == old(pending)[|rows|..]
    {
      rows := pending[..Min(size, |pending|)];
      pending := pending[|rows|..];
    }

    method FetchAll() returns (rows: seq<Row>)
      modifies this
      ensures rows == old(pending) && pending == []
    {
      rows := pending;
      pending := [];
    }
  }

  /** The key/value store the job keeps its watermarks in. */
  class WatermarkStore {
    var values: map<string, string>

    constructor(values: map<string, string>)
      ensures this.values == values
    {
      this.values := values;
    }

    method Exists(key: string) returns (present: bool)
      ensures present <==> key in values
    {
      present := key in values;
    }

    method Set(key: string, value: string)
      modifies this
      ensures values == old(values)[key := value]
    {
      values := values[key := value];
    }

    method Get(key: string) returns (value: Option<string>)
      ensures key in values ==> value == Some(values[key])
      ensures key !in values ==> value == None
    {
      value := if key in values then Some(values[key]) else None;
    }
  }

  /** `datetime.utcnow()`: every reading is later than the one before. */
  class Clock {
    var now: Timestamp

    constructor(start: Timestamp)
      ensures now == start
    {
      now := start;
    }

    method UtcNow() returns (t: Timestamp)
      modifies this
      ensures t == old(now) && now == old(now) + 1
    {
      t := now;
      now := now + 1;
    }
  }
}

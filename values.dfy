/** The loosely typed data the synchronisation job moves around: database
  * rows, documents and bulk records are all Python dicts from column or
  * field name to value. */
module Values {
  import opened Common

  /** A value as the database driver hands it over: NULL, a number (kept as
    * its literal), text, an aggregated array or a JSON object (kept in key
    * order, as Python dicts are). */
  datatype Value =
    | Null
    | Number(literal: string)
    | Str(chars: string)
    | Array(items: seq<Value>)
    | Object(entries: seq<Member>)

  /** One key/value pair of a JSON object. */
  datatype Member = Member(key: string, value: Value)

  /** A row, document or bulk record: a dict keyed by column or field name. */
  type Row = map<string, Value>

  function Quote(s: string): string { "'" + s + "'" }

  /** Python `repr` of a value (quote characters inside text are not escaped). */
  function Repr(v: Value): string
    decreases v, 1
  {
    match v
    case Null => "None"
    case Number(lit) => lit
    case Str(s) => Quote(s)
    case Array(items) => "[" + JoinReprs(items) + "]"
    case Object(entries) => "{" + JoinEntries(entries) + "}"
  }

  /** The reprs of `vs`, separated by ", ". */
  function JoinReprs(vs: seq<Value>): string
    decreases vs, 0
  {
    if vs == [] then ""
    else if |vs| == 1 then Repr(vs[0])
    else Repr(vs[0]) + ", " + JoinReprs(vs[1..])
  }

  function JoinEntries(es: seq<Member>): string
    decreases es, 0
  {
    if es == [] then ""
    else
      var entry := Quote(es[0].key) + ": " + Repr(es[0].value);
      if |es| == 1 then entry else entry + ", " + JoinEntries(es[1..])
  }

  /** Python `repr(tuple(vs))`: "()", "(x,)" for one element, "(x, y, ...)". */
  function TupleRepr(vs: seq<Value>): (r: string)
    ensures |r| >= 2 && r[0] == '(' && r[|r| - 1] == ')'
  {
    if |vs| == 1 then "(" + Repr(vs[0]) + ",)" else "(" + JoinReprs(vs) + ")"
  }

  /** Text that Python renders between plain single quotes and that holds no
    * comma (a uuid, for one). */
  predicate PlainText(v: Value)
  {
    v.Str? && forall c :: c in v.chars ==> c != ',' && c != '\'' && c != '\\'
  }

  /** `obj[key]` on a JSON object: the value of the first member named
    * `key`, or None (not an object, or no such member). */
  function Field(v: Value, key: string): Option<Value>
  {
    if v.Object? then FirstMember(v.entries, key) else None
  }

  function FirstMember(members: seq<Member>, key: string): Option<Value>
  {
    if members == [] then None
    else if members[0].key == key then Some(members[0].value)
    else FirstMember(members[1..], key)
  }

  /** Looking up a key of a one-member object. */
  lemma FieldOfOne(k: string, v: Value, key: string)
    ensures Field(Object([Member(k, v)]), key) == if k == key then Some(v) else None
  {
    var ms := [Member(k, v)];
    assert ms[1..] == [];
    assert FirstMember(ms[1..], key) == None;
    assert Field(Object(ms), key) == FirstMember(ms, key);
  }

  /** Looking up a key of a two-member object: the first member wins. */
  lemma FieldOfTwo(k1: string, v1: Value, k2: string, v2: Value, key: string)
    ensures Field(Object([Member(k1, v1), Member(k2, v2)]), key)
            == if k1 == key then Some(v1) else if k2 == key then Some(v2) else None
  {
    var ms := [Member(k1, v1), Member(k2, v2)];
    FieldOfOne(k2, v2, key);
    assert ms[1..] == [Member(k2, v2)];
    assert Field(Object(ms), key) == FirstMember(ms, key);
  }

  /** `obj[key]` on an optional value: None stays None. */
  function At(o: Option<Value>, key: string): Option<Value>
  {
    if o.Some? then Field(o.value, key) else None
  }
}

/** The JSON-like tree a chart specification is made of, and the table that
    a specification carries under its `data` key.

    A Python `None` stored under a dict key is modelled as the key mapped to
    `JNull`: the key is present, and the renderer sees `null`. */
module JsonData {

  import opened Results

  datatype Json =
    | JNull
    | JBool(b: bool)
    | JInt(i: int)
    | JStr(s: string)
    | JArr(items: seq<Json>)
    | JObj(fields: map<string, Json>)
    | JData(table: Table)

  /** An encoding object, or any other dict-shaped part of a specification. */
  type Dict = map<string, Json>

  /** One row of a table: column name to cell. */
  type Row = map<string, Json>

  /** A data frame: ordered column names, the storage type name of each
      column (pandas' `dtype.name`), and the rows. */
  datatype Table = Table(columns: seq<string>, dtypes: map<string, string>, rows: seq<Row>)

  /** Every named column has a storage type, and every row has exactly the
      table's columns. */
  ghost predicate ValidTable(t: Table) {
    && (forall c :: c in t.columns <==> c in t.dtypes)
    && (forall i :: 0 <= i < |t.rows| ==> t.rows[i].Keys == t.dtypes.Keys)
  }

  /** Python truthiness of a JSON-like value (a data frame never reaches a
      truth test in the builders). */
  predicate Truthy(j: Json) {
    match j
    case JNull => false
    case JBool(b) => b
    case JInt(i) => i != 0
    case JStr(s) => s != ""
    case JArr(items) => |items| > 0
    case JObj(fields) => |fields| > 0
    case JData(_) => true
  }

  /** Python's `x or y` on JSON-like values: the result is truthy exactly
      when one of the operands is, and it is one of them (the first when
      that one is truthy). */
  function Or(x: Json, y: Json): (r: Json)
    ensures Truthy(r) <==> Truthy(x) || Truthy(y)
    ensures r == x || r == y
    ensures Truthy(x) ==> r == x
  {
    if Truthy(x) then x else y
  }

  function OptInt(n: Option<int>): Json {
    match n
    case None => JNull
    case Some(v) => JInt(v)
  }

  function OptStr(s: Option<string>): Json {
    match s
    case None => JNull
    case Some(v) => JStr(v)
  }

  function StrList(names: seq<string>): (r: seq<Json>)
    ensures |r| == |names|
    ensures forall i :: 0 <= i < |names| ==> r[i] == JStr(names[i])
  {
    if names == [] then [] else [JStr(names[0])] + StrList(names[1..])
  }
}

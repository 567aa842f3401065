/** The wide-to-long reshaper: when several value columns are requested,
    the table is melted into one row per (original row, series) pair with
    the reserved columns `variable` (series name) and `value`. */
module Reshape {

  import opened Results
  import opened JsonData
  import opened Encoding

  const VarName := "variable"
  const ValueName := "value"

  /** The y (or bar value) argument: one channel argument, or a list or
      tuple of column names. */
  datatype SeriesArg = Single(arg: ChannelArg) | Several(names: seq<string>)

  /** Why a chart could not be built. */
  datatype Failure =
    | ColumnExists(name: string)  // a reserved melt column is already in the data
    | GroupNeedsWideData          // bar grouping by series without a melt

  datatype Melt = Melt(melted: bool, data: Table, valueEnc: Dict, seriesEnc: Json)

  /** A melt is attempted unless x or y is a custom dict or y is a string:
      a list (even one with a single name), a number or None is melted. */
  predicate Melts(x: ChannelArg, y: SeriesArg)
    ensures Melts(x, y) <==> !x.Obj? && (y.Several? || y.arg.Num? || y.arg.Absent?)
  {
    !x.Obj? && !(y.Single? && (y.arg.Obj? || y.arg.Str?))
  }

  /** A one-name list and the bare name differ: the list is melted, the
      string is taken as long-format data. */
  lemma OneNameListMelts(x: ChannelArg, name: string)
    requires !x.Obj?
    ensures Melts(x, Several([name])) && !Melts(x, Single(Str(name)))
    ensures AsListLike(Several([name])) == AsListLike(Single(Str(name)))
  {
  }

  predicate ReservedTaken(data: Table) {
    VarName in data.columns || ValueName in data.columns
  }

  /** `_as_list_like` on the y argument: a list or tuple is kept item by
      item, anything else becomes a one-element list. Its items are all
      strings exactly when y is a list or a single string, and it is empty
      only for an empty list. */
  function AsListLike(y: SeriesArg): (r: seq<ChannelArg>)
    ensures y.Single? ==> r == [y.arg]
    ensures y.Several? ==> |r| == |y.names| && forall i :: 0 <= i < |r| ==> r[i] == Str(y.names[i])
    ensures (forall i :: 0 <= i < |r| ==> r[i].Str?) <==> y.Several? || y.arg.Str?
    ensures |r| == 0 <==> y == Several([])
  {
    match y
    case Single(a) => assert [a][0] == a; [a]
    case Several(ns) => seq(|ns|, i requires 0 <= i < |ns| => Str(ns[i]))
  }

  /** The column names a list of string arguments spells. */
  function ArgNames(args: seq<ChannelArg>): (r: seq<string>)
    requires forall i :: 0 <= i < |args| ==> args[i].Str?
    ensures |r| == |args| && forall i :: 0 <= i < |r| ==> args[i] == Str(r[i])
  {
    seq(|args|, i requires 0 <= i < |args| && args[i].Str? => args[i].name)
  }

  /** Round trip: the value columns of a melt, read off the list-like form
      of a list y, are exactly the listed names, and a list of string
      arguments is the list-like form of its names. */
  lemma ListLikeNames(names: seq<string>, args: seq<ChannelArg>)
    requires forall i :: 0 <= i < |args| ==> args[i].Str?
    ensures ArgNames(AsListLike(Several(names))) == names
    ensures AsListLike(Several(ArgNames(args))) == args
  {
    var n := ArgNames(AsListLike(Several(names)));
    assert forall i :: 0 <= i < |n| ==> Str(n[i]) == Str(names[i]);
    var a := AsListLike(Several(ArgNames(args)));
    assert forall i :: 0 <= i < |a| ==> a[i] == args[i];
  }

  /** pandas finds every value column of a melt exactly when y is a list of
      columns: a single number or None would be looked up as a column name
      that no table of strings has. */
  lemma MeltValueVarsOk(data: Table, x: ChannelArg, y: SeriesArg)
    requires Melts(x, y)
    ensures (forall i :: 0 <= i < |AsListLike(y)| ==> AsListLike(y)[i].Str? && AsListLike(y)[i].name in data.columns)
        <==> y.Several? && forall n :: n in y.names ==> n in data.columns
  {
    if y.Several? {
      var r := AsListLike(y);
      assert forall n :: n in y.names ==> exists i :: 0 <= i < |r| && r[i] == Str(n);
    } else {
      assert AsListLike(y)[0] == y.arg;
    }
  }

  /** The pandas calls behind a melt fail unless the id column and every
      value column exist, and testing a dict for column membership fails
      too; the reserved-name check comes before pandas is asked. */
  ghost predicate MeltInputsOk(data: Table, x: ChannelArg, y: SeriesArg, keep: seq<ChannelArg>) {
    Melts(x, y) ==>
      && (forall i :: 0 <= i < |keep| ==> !keep[i].Obj?)
      && (!ReservedTaken(data) ==>
            && x.Str?
            && SplitSuffix(x.name).0 in data.columns
            && y.Several?
            && (forall n :: n in y.names ==> n in data.columns)
            && Distinct(IdVars(data, SplitSuffix(x.name).0, keep) + y.names))
  }

  /** No name occurs twice. pandas raises on a repeated id column and
      silently drops a repeated value column, so a melt is modelled only
      over distinct id and value columns. */
  predicate Distinct(s: seq<string>) {
    forall i, j :: 0 <= i < j < |s| ==> s[i] != s[j]
  }

  /** A melt the model admits names no value column twice, does not melt
      the x column into the values, and keeps no second copy of the x
      column (an opacity or size argument naming it, say). */
  lemma MeltRefusesRepeats(data: Table, x: ChannelArg, y: SeriesArg, keep: seq<ChannelArg>)
    requires Melts(x, y) && !ReservedTaken(data)
    requires MeltInputsOk(data, x, y, keep)
    ensures y.Several? && x.Str?
    ensures Distinct(y.names)
    ensures SplitSuffix(x.name).0 !in y.names
    ensures SplitSuffix(x.name).0 !in KeptColumns(data, keep)
  {
    var ids := IdVars(data, SplitSuffix(x.name).0, keep);
    var s := ids + y.names;
    assert s[0] == SplitSuffix(x.name).0;
    forall i, j | 0 <= i < j < |y.names|
      ensures y.names[i] != y.names[j]
    {
      assert s[|ids| + i] == y.names[i] && s[|ids| + j] == y.names[j];
    }
    forall i | 0 <= i < |y.names|
      ensures y.names[i] != s[0]
    {
      assert s[|ids| + i] == y.names[i];
    }
    var kept := KeptColumns(data, keep);
    forall i | 0 <= i < |kept|
      ensures kept[i] != s[0]
    {
      assert s[1 + i] == kept[i];
    }
  }

  /** The extra arguments that name columns of the table, in order: a
      name is kept exactly when it is a column and some argument is that
      string. */
  function KeptColumns(data: Table, keep: seq<ChannelArg>): (r: seq<string>)
    ensures forall c :: c in r <==> c in data.columns && Str(c) in keep
    ensures |r| <= |keep|
  {
    if keep == [] then []
    else
      var rest := KeptColumns(data, keep[1..]);
      assert keep == [keep[0]] + keep[1..];
      if keep[0].Str? && keep[0].name in data.columns then [keep[0].name] + rest else rest
  }

  /** The kept columns are an in-order filter of the arguments: keeping
      from two argument lists one after the other keeps from each in turn,
      and one argument is kept exactly when it is a string naming a column. */
  lemma {:induction false} KeptInOrder(data: Table, a: seq<ChannelArg>, b: seq<ChannelArg>)
    ensures KeptColumns(data, a + b) == KeptColumns(data, a) + KeptColumns(data, b)
    ensures |a| == 1 ==>
      KeptColumns(data, a) == (if a[0].Str? && a[0].name in data.columns then [a[0].name] else [])
    decreases |a|
  {
    if a == [] {
      assert a + b == b;
    } else {
      var head := if a[0].Str? && a[0].name in data.columns then [a[0].name] else [];
      assert (a + b)[0] == a[0];
      assert (a + b)[1..] == a[1..] + b;
      assert KeptColumns(data, a + b) == head + KeptColumns(data, a[1..] + b);
      KeptInOrder(data, a[1..], b);
      assert KeptColumns(data, a) == head + KeptColumns(data, a[1..]);
      ConcatAssoc(head, KeptColumns(data, a[1..]), KeptColumns(data, b));
      if |a| == 1 {
        assert a[1..] == [];
      }
    }
  }

  lemma ConcatAssoc<T>(x: seq<T>, y: seq<T>, z: seq<T>)
    ensures (x + y) + z == x + (y + z)
  {
  }

  function NameSet(names: seq<string>): set<string> {
    set n | n in names
  }

  ghost predicate RowsHave(rows: seq<Row>, keys: set<string>) {
    forall i :: 0 <= i < |rows| ==> keys <= rows[i].Keys
  }

  /** The long-format row for one original row and one series column. */
  function MeltRow(row: Row, ids: set<string>, name: string): Row
    requires ids <= row.Keys && name in row
  {
    (map c | c in ids :: row[c])[VarName := JStr(name)][ValueName := row[name]]
  }

  lemma MeltRowLookup(row: Row, ids: set<string>, name: string)
    requires ids <= row.Keys && name in row
    requires VarName !in ids && ValueName !in ids
    ensures MeltRow(row, ids, name).Keys == ids + {VarName, ValueName}
    ensures MeltRow(row, ids, name)[VarName] == JStr(name)
    ensures MeltRow(row, ids, name)[ValueName] == row[name]
    ensures forall c :: c in ids ==> MeltRow(row, ids, name)[c] == row[c]
  {
  }

  /** The block of long rows for one series column, one per original row. */
  function SeriesBlock(rows: seq<Row>, ids: set<string>, name: string): (r: seq<Row>)
    requires RowsHave(rows, ids + {name})
    ensures |r| == |rows|
    ensures forall i :: 0 <= i < |rows| ==> r[i] == MeltRow(rows[i], ids, name)
  {
    seq(|rows|, i requires 0 <= i < |rows| && RowsHave(rows, ids + {name}) => MeltRow(rows[i], ids, name))
  }

  lemma BlockIndex(rows: nat, j: nat, i: nat, total: nat)
    requires 0 < j < total && i < rows
    ensures (j - 1) * rows + i + rows == j * rows + i
    ensures j * rows + i < total * rows
  {
    assert (j - 1) * rows + rows == j * rows;
    assert j * rows + rows == (j + 1) * rows;
    MulMono(j + 1, total, rows);
  }

  lemma MulMono(a: nat, b: nat, c: nat)
    requires a <= b
    ensures a * c <= b * c
  {
  }

  /** All long rows, series by series (pandas stacks the value columns one
      after the other). */
  function MeltRows(rows: seq<Row>, ids: set<string>, names: seq<string>): (r: seq<Row>)
    requires RowsHave(rows, ids + NameSet(names))
    ensures |r| == |names| * |rows|
    ensures forall k :: 0 <= k < |r| ==> r[k].Keys == ids + {VarName, ValueName}
    decreases |names|
  {
    if names == [] then []
    else
      var r := SeriesBlock(rows, ids, names[0]) + MeltRows(rows, ids, names[1..]);
      assert |names| * |rows| == |rows| + (|names| - 1) * |rows|;
      r
  }

  /** Long row j * R + i comes from original row i and series j. */
  lemma {:induction false} MeltRowsAt(rows: seq<Row>, ids: set<string>, names: seq<string>, j: nat, i: nat)
    requires RowsHave(rows, ids + NameSet(names))
    requires j < |names| && i < |rows|
    ensures j * |rows| + i < |MeltRows(rows, ids, names)|
    ensures MeltRows(rows, ids, names)[j * |rows| + i] == MeltRow(rows[i], ids, names[j])
    decreases j
  {
    var head := SeriesBlock(rows, ids, names[0]);
    var tail := MeltRows(rows, ids, names[1..]);
    assert MeltRows(rows, ids, names) == head + tail;
    if j == 0 {
      MulMono(1, |names|, |rows|);
      ConcatLeft(head, tail, i);
    } else {
      MeltRowsAt(rows, ids, names[1..], j - 1, i);
      BlockIndex(|rows|, j, i, |names|);
      ProductOfNats(j - 1, |rows|);
      var k := (j - 1) * |rows| + i;
      ConcatRight(head, tail, k);
      assert names[1..][j - 1] == names[j];
      assert |head| + k == j * |rows| + i;
      assert (head + tail)[|head| + k] == MeltRow(rows[i], ids, names[j]);
    }
  }

  lemma ConcatLeft<T>(a: seq<T>, b: seq<T>, k: nat)
    requires k < |a|
    ensures (a + b)[k] == a[k]
  {
  }

  lemma ConcatRight<T>(a: seq<T>, b: seq<T>, k: nat)
    requires k < |b|
    ensures (a + b)[|a| + k] == b[k]
  {
  }

  /** Storage types pandas keeps numeric when value columns are stacked. */
  const NumericStorage: set<string> := {"float64", "float32", "int64", "int32", "int8"}

  /** The storage type of the stacked `value` column: the common type when
      all value columns agree, float64 for a numeric mix, object otherwise. */
  function ValueDtype(dtypes: seq<string>): string {
    if |dtypes| > 0 && forall i :: 0 <= i < |dtypes| ==> dtypes[i] == dtypes[0] then dtypes[0]
    else if |dtypes| > 0 && forall i :: 0 <= i < |dtypes| ==> dtypes[i] in NumericStorage then "float64"
    else "object"
  }

  function DtypesOf(data: Table, names: seq<string>): (r: seq<string>)
    requires forall n :: n in names ==> n in data.dtypes
    ensures |r| == |names|
    ensures forall i :: 0 <= i < |r| ==> r[i] == data.dtypes[names[i]]
  {
    if names == [] then [] else [data.dtypes[names[0]]] + DtypesOf(data, names[1..])
  }

  /** The id columns of a melt: the x column, then the kept columns. */
  function IdVars(data: Table, xName: string, keep: seq<ChannelArg>): seq<string> {
    [xName] + KeptColumns(data, keep)
  }

  /** `data.melt(id_vars, value_vars, "variable", "value")`. */
  function MeltTable(data: Table, xName: string, names: seq<string>, keep: seq<ChannelArg>): (r: Table)
    requires ValidTable(data)
    requires xName in data.columns
    requires forall n :: n in names ==> n in data.columns
    requires !ReservedTaken(data)
    requires Distinct(IdVars(data, xName, keep) + names)
    ensures ValidTable(r)
    ensures |r.rows| == |data.rows| * |names|
    ensures Distinct(r.columns)
    ensures r.columns == IdVars(data, xName, keep) + [VarName, ValueName]
    ensures r.dtypes[VarName] == "object"
    ensures ValueName in r.columns && r.dtypes[ValueName] == ValueDtype(DtypesOf(data, names))
  {
    var ids := NameSet(IdVars(data, xName, keep));
    assert RowsHave(data.rows, ids + NameSet(names));
    var rows := MeltRows(data.rows, ids, names);
    var columns := IdVars(data, xName, keep) + [VarName, ValueName];
    assert forall c :: c in columns <==> c in ids + {VarName, ValueName};
    LongColumnsDistinct(data, xName, names, keep);
    Table(columns, MeltDtypes(data, ids, names), rows)
  }

  /** The storage types of a melt: the id columns keep theirs, the series
      names are strings, and the values share the series' common type. */
  function MeltDtypes(data: Table, ids: set<string>, names: seq<string>): (r: map<string, string>)
    requires ids <= data.dtypes.Keys
    requires forall n :: n in names ==> n in data.dtypes
    ensures r.Keys == ids + {VarName, ValueName}
    ensures r[VarName] == "object" && r[ValueName] == ValueDtype(DtypesOf(data, names))
    ensures forall c :: c in ids && c != VarName && c != ValueName ==> r[c] == data.dtypes[c]
  {
    (map c | c in ids :: data.dtypes[c])[VarName := "object"][ValueName := ValueDtype(DtypesOf(data, names))]
  }

  /** The encoding of the stacked `value` column, its title suppressed and
      its type guessed from the column's storage type. */
  function ValueEncoding(long: Table): (r: Dict)
    requires ValidTable(long) && ValueName in long.columns
    ensures r.Keys == {"field", "type", "title"}
    ensures r["field"] == JStr(ValueName) && r["title"] == JNull
    ensures r["type"] == KindJson(DtypeKind(long.dtypes[ValueName]))
  {
    assert SplitSuffix(ValueName).1.None?;
    Clean(long, Str(ValueName), map["title" := JNull])
  }

  /** A list argument is neither a string, a number nor a dict, so cleaning
      it yields just the (empty) options. */
  function CleanSeries(data: Table, y: SeriesArg): (r: Dict)
    requires ValidTable(data)
    ensures y.Several? ==> r == map[]
  {
    match y
    case Single(a) => Clean(data, a, map[])
    case Several(_) => map[]
  }

  /** `_maybe_melt`: melt the table when several series are requested,
      refusing when a reserved column name is already taken. */
  function MaybeMelt(data: Table, x: ChannelArg, y: SeriesArg, legend: Json, keep: seq<ChannelArg>): (r: Result<Melt, Failure>)
    requires ValidTable(data)
    requires MeltInputsOk(data, x, y, keep)
    ensures !Melts(x, y) ==>
      && r.Ok?
      && !r.value.melted
      && r.value.data == data
      && r.value.seriesEnc == JNull
      && r.value.valueEnc == CleanSeries(data, y)
    ensures Melts(x, y) ==> (r.Err? <==> ReservedTaken(data))
    ensures Melts(x, y) && VarName in data.columns ==> r == Err(ColumnExists(VarName))
    ensures Melts(x, y) && VarName !in data.columns && ValueName in data.columns ==> r == Err(ColumnExists(ValueName))
    ensures r.Ok? ==> ValidTable(r.value.data) && r.value.melted == Melts(x, y)
    ensures r.Ok? && r.value.melted ==>
      && |r.value.data.rows| == |data.rows| * |y.names|
      && r.value.data.columns == IdVars(data, SplitSuffix(x.name).0, keep) + [VarName, ValueName]
      && r.value.valueEnc.Keys == {"field", "type", "title"}
      && r.value.valueEnc["field"] == JStr(ValueName)
      && r.value.valueEnc["title"] == JNull
      && r.value.valueEnc["type"] == KindJson(DtypeKind(ValueDtype(DtypesOf(data, y.names))))
      && r.value.seriesEnc == JObj(map["field" := JStr(VarName), "title" := JNull, "legend" := legend])
  {
    if !Melts(x, y) then
      Ok(Melt(false, data, CleanSeries(data, y), JNull))
    else if VarName in data.columns then
      Err(ColumnExists(VarName))
    else if ValueName in data.columns then
      Err(ColumnExists(ValueName))
    else
      ListLikeNames(y.names, []);
      var long := MeltTable(data, SplitSuffix(x.name).0, ArgNames(AsListLike(y)), keep);
      Ok(Melt(true, long, ValueEncoding(long), JObj(map["field" := JStr(VarName), "title" := JNull, "legend" := legend])))
  }

  /** Wide numeric data melts into a quantitative `value` axis: a common
      numeric storage type, or the float64 of a numeric mix, reads as
      quantitative. */
  lemma NumericMeltIsQuantitative(data: Table, x: ChannelArg, y: SeriesArg, legend: Json, keep: seq<ChannelArg>)
    requires ValidTable(data)
    requires MeltInputsOk(data, x, y, keep)
    requires Melts(x, y) && !ReservedTaken(data)
    requires |y.names| > 0 && forall n :: n in y.names ==> data.dtypes[n] in NumericStorage
    ensures MaybeMelt(data, x, y, legend, keep).Ok?
    ensures MaybeMelt(data, x, y, legend, keep).value.valueEnc["type"] == JStr(Quantitative)
  {
    var dts := DtypesOf(data, y.names);
    assert dts[0] == data.dtypes[y.names[0]];
    assert forall i :: 0 <= i < |dts| ==> dts[i] in NumericStorage;
    assert ValueDtype(dts) in NumericStorage;
    assert NumericStorage <= NumericDtypes && NumericStorage !! NominalDtypes;
  }

  /** The cell at row k, column c of a row sequence, or null outside it. */
  function Cell(rows: seq<Row>, k: int, c: string): Json {
    if 0 <= k < |rows| && c in rows[k] then rows[k][c] else JNull
  }

  /** The series cells of original row i, read back from a melt of `count`
      rows per series block. */
  function PivotValues(long: seq<Row>, count: nat, names: seq<string>, i: nat): (r: Row)
    ensures r.Keys == NameSet(names)
    decreases |names|
  {
    if names == [] then map[]
    else
      var rest := if count <= |long| then long[count..] else [];
      PivotValues(rest, count, names[1..], i)[names[0] := Cell(long, i, ValueName)]
  }

  /** Undo a melt of `count` original rows: the id columns come from the
      first series block and each series column from its own block. */
  function Pivot(long: seq<Row>, count: nat, ids: set<string>, names: seq<string>): (r: seq<Row>)
    ensures |r| == count
  {
    seq(count, i requires 0 <= i < count => (map c | c in ids :: Cell(long, i, c)) + PivotValues(long, count, names, i))
  }

  function Restrict(row: Row, keys: set<string>): Row {
    map c | c in keys && c in row :: row[c]
  }

  /** Reading the series blocks back gives each series' cell of row i. */
  lemma {:induction false} PivotValuesOfMelt(rows: seq<Row>, ids: set<string>, names: seq<string>, i: nat)
    requires RowsHave(rows, ids + NameSet(names))
    requires i < |rows|
    requires VarName !in ids && ValueName !in ids
    ensures PivotValues(MeltRows(rows, ids, names), |rows|, names, i) == Restrict(rows[i], NameSet(names))
    decreases |names|
  {
    if names != [] {
      var long := MeltRows(rows, ids, names);
      var block := SeriesBlock(rows, ids, names[0]);
      assert long == block + MeltRows(rows, ids, names[1..]);
      assert long[|rows|..] == MeltRows(rows, ids, names[1..]);
      var tail := PivotValues(MeltRows(rows, ids, names[1..]), |rows|, names[1..], i);
      PivotValuesOfMelt(rows, ids, names[1..], i);
      assert tail == Restrict(rows[i], NameSet(names[1..]));
      MeltRowLookup(rows[i], ids, names[0]);
      assert Cell(long, i, ValueName) == rows[i][names[0]];
      assert PivotValues(long, |rows|, names, i) == tail[names[0] := rows[i][names[0]]];
      assert NameSet(names) == NameSet(names[1..]) + {names[0]};
      RestrictAdd(rows[i], NameSet(names[1..]), names[0]);
    }
  }

  /** Restricting to one more present key adds exactly that key's entry. */
  lemma RestrictAdd(row: Row, keys: set<string>, c: string)
    requires c in row
    ensures Restrict(row, keys)[c := row[c]] == Restrict(row, keys + {c})
  {
  }

  /** Pivoting a melt back gives the original rows, restricted to the id and
      value columns: the melt loses nothing and invents nothing. */
  lemma PivotUndoesMelt(rows: seq<Row>, ids: set<string>, names: seq<string>)
    requires RowsHave(rows, ids + NameSet(names))
    requires |names| > 0
    requires VarName !in ids && ValueName !in ids
    ensures Pivot(MeltRows(rows, ids, names), |rows|, ids, names)
         == seq(|rows|, i requires 0 <= i < |rows| => Restrict(rows[i], ids + NameSet(names)))
  {
    var lhs := Pivot(MeltRows(rows, ids, names), |rows|, ids, names);
    var rhs := seq(|rows|, i requires 0 <= i < |rows| => Restrict(rows[i], ids + NameSet(names)));
    forall i | 0 <= i < |rows|
      ensures lhs[i] == rhs[i]
    {
      PivotRow(rows, ids, names, i);
    }
  }

  lemma PivotRow(rows: seq<Row>, ids: set<string>, names: seq<string>, i: nat)
    requires RowsHave(rows, ids + NameSet(names))
    requires |names| > 0 && i < |rows|
    requires VarName !in ids && ValueName !in ids
    ensures Pivot(MeltRows(rows, ids, names), |rows|, ids, names)[i] == Restrict(rows[i], ids + NameSet(names))
  {
    var long := MeltRows(rows, ids, names);
    PivotValuesOfMelt(rows, ids, names, i);
    assert long[i] == MeltRow(rows[i], ids, names[0]);
    MeltRowLookup(rows[i], ids, names[0]);
    var idPart := map c | c in ids :: Cell(long, i, c);
    assert idPart == Restrict(rows[i], ids);
    assert Restrict(rows[i], ids) + Restrict(rows[i], NameSet(names)) == Restrict(rows[i], ids + NameSet(names));
  }

  /** The contents of a melt: row j * R + i names series j, carries that
      series' cell of original row i, and copies row i's id columns. */
  lemma MeltContents(data: Table, x: ChannelArg, y: SeriesArg, legend: Json, keep: seq<ChannelArg>, j: nat, i: nat)
    requires ValidTable(data)
    requires MeltInputsOk(data, x, y, keep)
    requires Melts(x, y) && !ReservedTaken(data)
    requires j < |y.names| && i < |data.rows|
    ensures MaybeMelt(data, x, y, legend, keep).Ok?
    ensures 0 <= j * |data.rows| + i < |MaybeMelt(data, x, y, legend, keep).value.data.rows|
    ensures var row := MaybeMelt(data, x, y, legend, keep).value.data.rows[j * |data.rows| + i];
      VarName in row && row[VarName] == JStr(y.names[j])
    ensures var row := MaybeMelt(data, x, y, legend, keep).value.data.rows[j * |data.rows| + i];
      ValueName in row && y.names[j] in data.rows[i] && row[ValueName] == data.rows[i][y.names[j]]
    ensures var row := MaybeMelt(data, x, y, legend, keep).value.data.rows[j * |data.rows| + i];
      forall c :: c in IdVars(data, SplitSuffix(x.name).0, keep) ==> c in row && row[c] == data.rows[i][c]
  {
    var ids := NameSet(IdVars(data, SplitSuffix(x.name).0, keep));
    MaybeMeltRows(data, x, y, legend, keep);
    MeltRowsContents(data.rows, ids, y.names, j, i);
    var long := MaybeMelt(data, x, y, legend, keep).value.data.rows;
    var melted := MeltRows(data.rows, ids, y.names);
    var k := j * |data.rows| + i;
    assert long[k] == melted[k] == MeltRow(data.rows[i], ids, y.names[j]);
    assert forall c :: c in IdVars(data, SplitSuffix(x.name).0, keep) ==> c in ids;
  }

  /** A melt outcome's rows are the melt of the original rows over the id
      columns, which avoid the reserved names. */
  lemma MaybeMeltRows(data: Table, x: ChannelArg, y: SeriesArg, legend: Json, keep: seq<ChannelArg>)
    requires ValidTable(data)
    requires MeltInputsOk(data, x, y, keep)
    requires Melts(x, y) && !ReservedTaken(data)
    ensures MaybeMelt(data, x, y, legend, keep).Ok?
    ensures var ids := NameSet(IdVars(data, SplitSuffix(x.name).0, keep));
      && RowsHave(data.rows, ids + NameSet(y.names))
      && VarName !in ids && ValueName !in ids
      && MaybeMelt(data, x, y, legend, keep).value.data.rows == MeltRows(data.rows, ids, y.names)
  {
    var xName := SplitSuffix(x.name).0;
    ListLikeNames(y.names, []);
    assert MaybeMelt(data, x, y, legend, keep).value.data == MeltTable(data, xName, y.names, keep);
    MeltTableRows(data, xName, y.names, keep);
  }

  /** Row j * R + i of a melt, key by key. */
  lemma MeltRowsContents(rows: seq<Row>, ids: set<string>, names: seq<string>, j: nat, i: nat)
    requires RowsHave(rows, ids + NameSet(names))
    requires VarName !in ids && ValueName !in ids
    requires j < |names| && i < |rows|
    ensures 0 <= j * |rows| + i < |MeltRows(rows, ids, names)|
    ensures MeltRows(rows, ids, names)[j * |rows| + i] == MeltRow(rows[i], ids, names[j])
    ensures MeltRow(rows[i], ids, names[j]).Keys == ids + {VarName, ValueName}
    ensures MeltRow(rows[i], ids, names[j])[VarName] == JStr(names[j])
    ensures names[j] in rows[i] && MeltRow(rows[i], ids, names[j])[ValueName] == rows[i][names[j]]
    ensures forall c :: c in ids ==> MeltRow(rows[i], ids, names[j])[c] == rows[i][c]
  {
    MeltRowsAt(rows, ids, names, j, i);
    MeltRowLookup(rows[i], ids, names[j]);
    ProductOfNats(j, |rows|);
  }

  lemma ProductOfNats(a: nat, b: nat)
    ensures 0 <= a * b
  {
  }

  /** The long table's columns are distinct: the id columns are, and
      neither reserved name is among them. */
  lemma LongColumnsDistinct(data: Table, xName: string, names: seq<string>, keep: seq<ChannelArg>)
    requires xName in data.columns
    requires !ReservedTaken(data)
    requires Distinct(IdVars(data, xName, keep) + names)
    ensures Distinct(IdVars(data, xName, keep) + [VarName, ValueName])
  {
    var ids := IdVars(data, xName, keep);
    var s := ids + [VarName, ValueName];
    assert forall i :: 0 <= i < |ids| ==> (ids + names)[i] == ids[i];
    assert forall c :: c in ids ==> c in data.columns;
    forall i, j | 0 <= i < j < |s|
      ensures s[i] != s[j]
    {
      if j < |ids| {
        assert s[i] == (ids + names)[i] && s[j] == (ids + names)[j];
      } else if i < |ids| {
        assert s[i] in ids;
      }
    }
  }

  lemma MeltTableRows(data: Table, xName: string, names: seq<string>, keep: seq<ChannelArg>)
    requires ValidTable(data)
    requires xName in data.columns
    requires forall n :: n in names ==> n in data.columns
    requires !ReservedTaken(data)
    requires Distinct(IdVars(data, xName, keep) + names)
    ensures RowsHave(data.rows, NameSet(IdVars(data, xName, keep)) + NameSet(names))
    ensures MeltTable(data, xName, names, keep).rows == MeltRows(data.rows, NameSet(IdVars(data, xName, keep)), names)
  {
    assert RowsHave(data.rows, NameSet(IdVars(data, xName, keep)) + NameSet(names));
  }
}

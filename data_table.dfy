/** Validation and transformation of data-table rows and filters: unknown
    columns are rejected, cells are checked against their column's type by the
    field-type validator, `like`/`ilike` values are wrapped in wildcards and
    range conditions reject null. */
module DataTable {
  import opened Common

  /** A cell value as the service receives it. Dates are `Date` objects. */
  datatype Cell =
    | CNull
    | CUndefined
    | CStr(s: string)
    | CNum(n: int)
    | CBool(b: bool)
    | CDate(time: int)

  /** A row, as an object's entries in key order. */
  type Row = seq<(string, Cell)>

  datatype Column = Column(name: string, colType: string)

  datatype DataTableError =
    | ValidationError(reason: string)
    | TableNotFound(tableId: string)
    | NameConflict(name: string)
    | SizeLimitExceeded
    | CsvUnreadable(reason: string)
    | FileUpload(cause: DataTableError)

  datatype Validation = Valid(newValue: Cell) | Invalid(errorMessage: string)

  /** The collaborators of the validator: the column-type → field-type table,
      the field-type validator, the UTC ISO conversion of a validated date
      (`None` when it throws) and the text of a `Date`. */
  datatype Checker = Checker(
    fieldTypeOf: string -> Option<string>,
    validate: (string, Cell, string) -> Validation,
    toUtcIso: Cell -> Option<Cell>,
    dateText: int -> string)

  function Keys(row: Row): (ks: seq<string>)
    ensures |ks| == |row| && forall i :: 0 <= i < |row| ==> ks[i] == row[i].0
  {
    if row == [] then [] else [row[0].0] + Keys(row[1..])
  }

  /** `String(cell)` */
  function CellText(c: Cell, chk: Checker): string
  {
    match c
    case CNull => "null"
    case CUndefined => "undefined"
    case CStr(s) => s
    case CNum(n) => IntToString(n)
    case CBool(b) => if b then "true" else "false"
    case CDate(t) => chk.dateText(t)
  }

  // ---------------------------------------------------------------------------
  // Columns

  /** The system columns every table has, with their types. */
  const SystemColumns: seq<Column> := [Column("id", "number"), Column("createdAt", "date"), Column("updatedAt", "date")]

  /** The columns a row is checked against: the system columns first when asked for. */
  function AllColumns(columns: seq<Column>, includeSystemColumns: bool): (r: seq<Column>)
    ensures includeSystemColumns ==> r == SystemColumns + columns
    ensures !includeSystemColumns ==> r == columns
  {
    if includeSystemColumns then SystemColumns + columns else columns
  }

  function ColumnNames(columns: seq<Column>): (r: set<string>)
    ensures forall n :: n in r <==> exists i :: 0 <= i < |columns| && columns[i].name == n
  {
    set i | 0 <= i < |columns| :: columns[i].name
  }

  /** `new Map(columns.map((x) => [x.name, x.type]))`: a later column of the same
      name overrides an earlier one. */
  function ColumnTypes(columns: seq<Column>): (r: map<string, string>)
    ensures r.Keys == ColumnNames(columns)
  {
    if columns == [] then map[]
    else
      var front := columns[..|columns| - 1];
      var last := columns[|columns| - 1];
      assert columns == front + [last];
      ColumnTypes(front)[last.name := last.colType]
  }

  /** A column whose name no later column repeats gives that name its type. */
  lemma {:induction false} ColumnTypesLastWins(columns: seq<Column>, i: nat)
    requires i < |columns|
    requires forall j :: i < j < |columns| ==> columns[j].name != columns[i].name
    ensures ColumnTypes(columns)[columns[i].name] == columns[i].colType
    decreases |columns|
  {
    var n := |columns| - 1;
    var front, last := columns[..n], columns[n];
    assert columns == front + [last];
    assert ColumnTypes(columns) == ColumnTypes(front)[last.name := last.colType];
    if i < n {
      assert front[i] == columns[i];
      assert forall j :: i < j < |front| ==> front[j] == columns[j];
      ColumnTypesLastWins(front, i);
      assert last.name != columns[i].name;
    }
  }

  // ---------------------------------------------------------------------------
  // Cells

  /** A non-null cell of a `date` column that the validator accepts. */
  predicate ValidDateCell(cell: Cell, key: string, types: map<string, string>, chk: Checker)
  {
    cell != CNull && key in types && types[key] == "date" && chk.fieldTypeOf("date").Some? &&
    chk.validate(key, cell, chk.fieldTypeOf("date").value).Valid?
  }

  /** The validator's value for a cell `ValidDateCell` accepts. */
  function ValidatedDate(cell: Cell, key: string, types: map<string, string>, chk: Checker): Cell
    requires ValidDateCell(cell, key, types, chk)
  {
    chk.validate(key, cell, chk.fieldTypeOf("date").value).newValue
  }

  const DateMismatchSuffix := "' does not match column type 'date'"

  /** `validateAndTransformCell`: null stays null; a cell of an unknown column or
      of a type the validator has no field type for passes through; otherwise the
      validator decides, and a date is stored as its UTC ISO text unless
      date transformation is skipped for a `Date`. */
  function TransformCell(cell: Cell, key: string, types: map<string, string>, skipDateTransform: bool, chk: Checker)
    : (r: Result<Cell, DataTableError>)
    ensures cell == CNull ==> r == Ok(CNull)
    ensures cell != CNull && (key !in types || types[key] == "") ==> r == Ok(cell)
    ensures cell != CNull && key in types && types[key] != "" && chk.fieldTypeOf(types[key]).None? ==> r == Ok(cell)
    ensures r.Err? ==> r.error.ValidationError?
    ensures (cell != CNull && key in types && types[key] != "" && chk.fieldTypeOf(types[key]).Some? &&
             chk.validate(key, cell, chk.fieldTypeOf(types[key]).value).Invalid?) ==>
      r == Err(ValidationError("value '" + CellText(cell, chk) + "' does not match column type '" + types[key] + "': " +
                               chk.validate(key, cell, chk.fieldTypeOf(types[key]).value).errorMessage))
    ensures (cell != CNull && key in types && types[key] != "" && types[key] != "date" &&
             chk.fieldTypeOf(types[key]).Some? && chk.validate(key, cell, chk.fieldTypeOf(types[key]).value).Valid?) ==>
      r == Ok(chk.validate(key, cell, chk.fieldTypeOf(types[key]).value).newValue)
    ensures ValidDateCell(cell, key, types, chk) && skipDateTransform && cell.CDate? ==> r == Ok(cell)
    ensures (ValidDateCell(cell, key, types, chk) && !(skipDateTransform && cell.CDate?) &&
             chk.toUtcIso(ValidatedDate(cell, key, types, chk)).Some?) ==>
      r == Ok(chk.toUtcIso(ValidatedDate(cell, key, types, chk)).value)
    ensures (ValidDateCell(cell, key, types, chk) && !(skipDateTransform && cell.CDate?) &&
             chk.toUtcIso(ValidatedDate(cell, key, types, chk)).None?) ==>
      r == Err(ValidationError("value '" + CellText(cell, chk) + DateMismatchSuffix))
  {
    if cell == CNull then Ok(CNull)
    else if key !in types || types[key] == "" then Ok(cell)
    else
      var columnType := types[key];
      match chk.fieldTypeOf(columnType)
      case None => Ok(cell)
      case Some(fieldType) =>
        match chk.validate(key, cell, fieldType)
        case Invalid(msg) =>
          Err(ValidationError("value '" + CellText(cell, chk) + "' does not match column type '" + columnType + "': " + msg))
        case Valid(newValue) =>
          if columnType == "date" then
            if skipDateTransform && cell.CDate? then Ok(cell)
            else match chk.toUtcIso(newValue)
              case None => Err(ValidationError("value '" + CellText(cell, chk) + DateMismatchSuffix))
              case Some(iso) => Ok(iso)
          else Ok(newValue)
  }

  // ---------------------------------------------------------------------------
  // Rows

  /** The specification of one row's transformation: keys in order, each
      checked against the column names, then its cell transformed; the first
      failure wins. */
  function TransformRow(row: Row, names: set<string>, types: map<string, string>, skipDateTransform: bool, chk: Checker)
    : (r: Result<Row, DataTableError>)
    ensures r.Ok? ==> |r.value| == |row| && Keys(r.value) == Keys(row)
  {
    if row == [] then Ok([])
    else
      var (key, cell) := row[0];
      if key !in names then Err(ValidationError("unknown column name '" + key + "'"))
      else match TransformCell(cell, key, types, skipDateTransform, chk)
        case Err(e) => Err(e)
        case Ok(c) =>
          match TransformRow(row[1..], names, types, skipDateTransform, chk)
          case Err(e) => Err(e)
          case Ok(rest) =>
            assert Keys([(key, c)] + rest) == [key] + Keys(rest);
            Ok([(key, c)] + rest)
  }

  /** `r` with `prefix` put before its row. */
  function PrependRow(prefix: Row, r: Result<Row, DataTableError>): Result<Row, DataTableError>
  {
    match r
    case Ok(rest) => Ok(prefix + rest)
    case Err(e) => Err(e)
  }

  /** The key of a row that a transformation accepts. */
  predicate CellAccepted(entry: (string, Cell), names: set<string>, types: map<string, string>, skipDateTransform: bool, chk: Checker)
  {
    entry.0 in names && TransformCell(entry.1, entry.0, types, skipDateTransform, chk).Ok?
  }

  /** A row is accepted exactly when every key is a column and every cell
      validates; the result then has the same keys in the same order, each with
      its transformed cell. */
  lemma {:induction false} TransformRowAccepts(row: Row, names: set<string>, types: map<string, string>, skipDateTransform: bool, chk: Checker)
    ensures TransformRow(row, names, types, skipDateTransform, chk).Ok? <==>
      forall i :: 0 <= i < |row| ==> CellAccepted(row[i], names, types, skipDateTransform, chk)
    ensures TransformRow(row, names, types, skipDateTransform, chk).Ok? ==>
      var out := TransformRow(row, names, types, skipDateTransform, chk).value;
      |out| == |row| && Keys(out) == Keys(row) &&
      forall i :: 0 <= i < |row| ==> out[i].1 == TransformCell(row[i].1, row[i].0, types, skipDateTransform, chk).value
  {
    if row != [] {
      TransformRowAccepts(row[1..], names, types, skipDateTransform, chk);
      assert forall i :: 1 <= i < |row| ==> row[i] == row[1..][i - 1];
      var r := TransformRow(row, names, types, skipDateTransform, chk);
      if r.Ok? {
        var rest := TransformRow(row[1..], names, types, skipDateTransform, chk).value;
        assert r.value == [(row[0].0, TransformCell(row[0].1, row[0].0, types, skipDateTransform, chk).value)] + rest;
        assert Keys(r.value) == Keys(row);
      }
    }
  }

  /** The first key that is not a column, when every key before it was
      accepted, is reported by name. */
  lemma {:induction false} TransformRowUnknownColumn(row: Row, names: set<string>, types: map<string, string>,
                                                     skipDateTransform: bool, chk: Checker, i: nat)
    requires i < |row| && row[i].0 !in names
    requires forall j :: 0 <= j < i ==> CellAccepted(row[j], names, types, skipDateTransform, chk)
    ensures TransformRow(row, names, types, skipDateTransform, chk) == Err(ValidationError("unknown column name '" + row[i].0 + "'"))
  {
    if i > 0 {
      assert forall j :: 1 <= j < |row| ==> row[j] == row[1..][j - 1];
      TransformRowUnknownColumn(row[1..], names, types, skipDateTransform, chk, i - 1);
    }
  }

  lemma PrependRowEmpty(r: Result<Row, DataTableError>)
    ensures PrependRow([], r) == r
  {
    if r.Ok? {
      assert [] + r.value == r.value;
    }
  }

  /** One step of the row transformation, seen from position `i`. */
  lemma TransformRowStep(row: Row, i: nat, names: set<string>, types: map<string, string>, skipDateTransform: bool, chk: Checker,
                         prefix: Row)
    requires i < |row|
    requires row[i].0 in names && TransformCell(row[i].1, row[i].0, types, skipDateTransform, chk).Ok?
    ensures PrependRow(prefix, TransformRow(row[i..], names, types, skipDateTransform, chk)) ==
      PrependRow(prefix + [(row[i].0, TransformCell(row[i].1, row[i].0, types, skipDateTransform, chk).value)],
                 TransformRow(row[i + 1..], names, types, skipDateTransform, chk))
  {
    assert row[i..][0] == row[i] && row[i..][1..] == row[i + 1..];
    var next := TransformRow(row[i + 1..], names, types, skipDateTransform, chk);
    if next.Ok? {
      var e := (row[i].0, TransformCell(row[i].1, row[i].0, types, skipDateTransform, chk).value);
      assert prefix + ([e] + next.value) == (prefix + [e]) + next.value;
    }
  }

  /** `validateAndTransformRows` for one row: the loop over the row's keys
      that fills a fresh row. */
  method ValidateAndTransformRow(row: Row, names: set<string>, types: map<string, string>, skipDateTransform: bool, chk: Checker)
    returns (r: Result<Row, DataTableError>)
    ensures r == TransformRow(row, names, types, skipDateTransform, chk)
  {
    var transformed: Row := [];
    var i := 0;
    assert row[0..] == row;
    PrependRowEmpty(TransformRow(row, names, types, skipDateTransform, chk));
    while i < |row|
      invariant 0 <= i <= |row|
      invariant TransformRow(row, names, types, skipDateTransform, chk) ==
        PrependRow(transformed, TransformRow(row[i..], names, types, skipDateTransform, chk))
    {
      var (key, cell) := row[i];
      if key !in names {
        assert row[i..][0] == row[i];
        return Err(ValidationError("unknown column name '" + key + "'"));
      }
      var c := TransformCell(cell, key, types, skipDateTransform, chk);
      if c.Err? {
        assert row[i..][0] == row[i];
        return Err(c.error);
      }
      TransformRowStep(row, i, names, types, skipDateTransform, chk, transformed);
      transformed := transformed + [(key, c.value)];
      i := i + 1;
    }
    assert row[i..] == [];
    assert transformed + [] == transformed;
    r := Ok(transformed);
  }

  /** Every row in order, against the given column names and types; the first
      failing row's error wins. */
  function TransformAll(rows: seq<Row>, names: set<string>, types: map<string, string>, skipDateTransform: bool, chk: Checker)
    : (r: Result<seq<Row>, DataTableError>)
    ensures r.Ok? ==> |r.value| == |rows|
    ensures r.Ok? ==> forall i :: 0 <= i < |rows| ==> TransformRow(rows[i], names, types, skipDateTransform, chk) == Ok(r.value[i])
  {
    if rows == [] then Ok([])
    else
      match TransformRow(rows[0], names, types, skipDateTransform, chk)
      case Err(e) => Err(e)
      case Ok(first) =>
        assert forall i :: 1 <= i < |rows| ==> rows[i] == rows[1..][i - 1];
        match TransformAll(rows[1..], names, types, skipDateTransform, chk)
        case Err(e) => Err(e)
        case Ok(rest) => Ok([first] + rest)
  }

  /** Rows that each validate are accepted together. */
  lemma {:induction false} TransformAllAccepts(rows: seq<Row>, names: set<string>, types: map<string, string>,
                                               skipDateTransform: bool, chk: Checker)
    requires forall i :: 0 <= i < |rows| ==> TransformRow(rows[i], names, types, skipDateTransform, chk).Ok?
    ensures TransformAll(rows, names, types, skipDateTransform, chk).Ok?
  {
    if rows != [] {
      assert forall i :: 1 <= i < |rows| ==> rows[i] == rows[1..][i - 1];
      TransformAllAccepts(rows[1..], names, types, skipDateTransform, chk);
    }
  }

  /** The specification of `validateAndTransformRows`: every row in order
      against the table's columns (with the system columns when asked for);
      the first failing row's error wins. */
  function TransformRows(rows: seq<Row>, columns: seq<Column>, includeSystemColumns: bool, skipDateTransform: bool, chk: Checker)
    : (r: Result<seq<Row>, DataTableError>)
    ensures r.Ok? ==> |r.value| == |rows|
    ensures r.Ok? ==> forall i :: 0 <= i < |rows| ==>
      TransformRow(rows[i], ColumnNames(AllColumns(columns, includeSystemColumns)),
                   ColumnTypes(AllColumns(columns, includeSystemColumns)), skipDateTransform, chk) == Ok(r.value[i])
  {
    var all := AllColumns(columns, includeSystemColumns);
    TransformAll(rows, ColumnNames(all), ColumnTypes(all), skipDateTransform, chk)
  }
  /** `validateAndTransformRows` accepts the rows exactly when every row
      validates against the table's columns. */
  lemma TransformRowsAccepts(rows: seq<Row>, columns: seq<Column>, includeSystemColumns: bool, skipDateTransform: bool, chk: Checker)
    ensures TransformRows(rows, columns, includeSystemColumns, skipDateTransform, chk).Ok? <==>
      forall i :: 0 <= i < |rows| ==>
        TransformRow(rows[i], ColumnNames(AllColumns(columns, includeSystemColumns)),
                     ColumnTypes(AllColumns(columns, includeSystemColumns)), skipDateTransform, chk).Ok?
  {
    var all := AllColumns(columns, includeSystemColumns);
    if forall i :: 0 <= i < |rows| ==> TransformRow(rows[i], ColumnNames(all), ColumnTypes(all), skipDateTransform, chk).Ok? {
      TransformAllAccepts(rows, ColumnNames(all), ColumnTypes(all), skipDateTransform, chk);
    }
  }


  function PrependRows(prefix: seq<Row>, r: Result<seq<Row>, DataTableError>): Result<seq<Row>, DataTableError>
  {
    match r
    case Ok(rest) => Ok(prefix + rest)
    case Err(e) => Err(e)
  }

  lemma PrependRowsEmpty(r: Result<seq<Row>, DataTableError>)
    ensures PrependRows([], r) == r
  {
    if r.Ok? {
      assert [] + r.value == r.value;
    }
  }

  lemma TransformAllStep(rows: seq<Row>, i: nat, names: set<string>, types: map<string, string>, skipDateTransform: bool,
                         chk: Checker, prefix: seq<Row>)
    requires i < |rows|
    requires TransformRow(rows[i], names, types, skipDateTransform, chk).Ok?
    ensures PrependRows(prefix, TransformAll(rows[i..], names, types, skipDateTransform, chk)) ==
      PrependRows(prefix + [TransformRow(rows[i], names, types, skipDateTransform, chk).value],
                  TransformAll(rows[i + 1..], names, types, skipDateTransform, chk))
  {
    assert rows[i..][0] == rows[i] && rows[i..][1..] == rows[i + 1..];
    var next := TransformAll(rows[i + 1..], names, types, skipDateTransform, chk);
    if next.Ok? {
      var e := TransformRow(rows[i], names, types, skipDateTransform, chk).value;
      assert prefix + ([e] + next.value) == (prefix + [e]) + next.value;
    }
  }

  /** The first row that fails decides the error of the rows from it on. */
  lemma TransformAllStops(rows: seq<Row>, i: nat, names: set<string>, types: map<string, string>, skipDateTransform: bool,
                          chk: Checker, prefix: seq<Row>)
    requires i < |rows|
    requires TransformRow(rows[i], names, types, skipDateTransform, chk).Err?
    ensures PrependRows(prefix, TransformAll(rows[i..], names, types, skipDateTransform, chk)) ==
      Err(TransformRow(rows[i], names, types, skipDateTransform, chk).error)
  {
    assert rows[i..][0] == rows[i];
  }

  lemma TransformRowsUnfold(rows: seq<Row>, columns: seq<Column>, includeSystemColumns: bool, skipDateTransform: bool, chk: Checker)
    ensures TransformRows(rows, columns, includeSystemColumns, skipDateTransform, chk) ==
      TransformAll(rows, ColumnNames(AllColumns(columns, includeSystemColumns)),
                   ColumnTypes(AllColumns(columns, includeSystemColumns)), skipDateTransform, chk)
  {
  }

  method ValidateAndTransformRows(rows: seq<Row>, columns: seq<Column>, includeSystemColumns: bool,
                                  skipDateTransform: bool, chk: Checker)
    returns (r: Result<seq<Row>, DataTableError>)
    ensures r == TransformRows(rows, columns, includeSystemColumns, skipDateTransform, chk)
  {
    var all := AllColumns(columns, includeSystemColumns);
    var names := ColumnNames(all);
    var types := ColumnTypes(all);
    TransformRowsUnfold(rows, columns, includeSystemColumns, skipDateTransform, chk);
    var out: seq<Row> := [];
    var i := 0;
    assert rows[0..] == rows;
    PrependRowsEmpty(TransformAll(rows, names, types, skipDateTransform, chk));
    while i < |rows|
      invariant 0 <= i <= |rows|
      invariant TransformAll(rows, names, types, skipDateTransform, chk) ==
        PrependRows(out, TransformAll(rows[i..], names, types, skipDateTransform, chk))
    {
      var row := ValidateAndTransformRow(rows[i], names, types, skipDateTransform, chk);
      if row.Err? {
        TransformAllStops(rows, i, names, types, skipDateTransform, chk, out);
        return Err(row.error);
      }
      TransformAllStep(rows, i, names, types, skipDateTransform, chk, out);
      out := out + [row.value];
      i := i + 1;
    }
    assert rows[i..] == [];
    assert out + [] == out;
    r := Ok(out);
  }

  // ---------------------------------------------------------------------------
  // Filters

  datatype Condition = Eq | Neq | Like | ILike | Gt | Gte | Lt | Lte

  function ConditionName(c: Condition): string
  {
    match c
    case Eq => "EQ"
    case Neq => "NEQ"
    case Like => "LIKE"
    case ILike => "ILIKE"
    case Gt => "GT"
    case Gte => "GTE"
    case Lt => "LT"
    case Lte => "LTE"
  }

  datatype Filter = Filter(columnName: string, condition: Condition, value: Cell)

  /** A filter object: how its conditions combine, and the conditions. */
  datatype FilterObject = FilterObject(combinator: string, filters: seq<Filter>)

  predicate ContainsPercent(s: string)
  {
    exists i :: 0 <= i < |s| && s[i] == '%'
  }

  /** The checks on one filter given its transformed value: `like`/`ilike` need
      a string, wrapped in `%…%` unless it already holds a `%`; range
      conditions need a value; the rest pass. */
  function TransformFilter(f: Filter, value: Cell): (r: Result<Filter, DataTableError>)
    ensures r.Ok? ==> r.value.columnName == f.columnName && r.value.condition == f.condition
    ensures (f.condition == Like || f.condition == ILike) ==>
      (r.Ok? <==> value.CStr?) &&
      (value.CStr? && ContainsPercent(value.s) ==> r == Ok(f.(value := value))) &&
      (value.CStr? && !ContainsPercent(value.s) ==> r == Ok(f.(value := CStr("%" + value.s + "%")))) &&
      ((value == CNull || value == CUndefined) ==>
        r == Err(ValidationError(ConditionName(f.condition) + " filter value cannot be null or undefined")))
    ensures f.condition in {Gt, Gte, Lt, Lte} ==>
      (r.Ok? <==> value != CNull && value != CUndefined) && (r.Ok? ==> r.value == f.(value := value))
    ensures f.condition in {Eq, Neq} ==> r == Ok(f.(value := value))
  {
    if f.condition == Like || f.condition == ILike then
      if value == CNull || value == CUndefined then
        Err(ValidationError(ConditionName(f.condition) + " filter value cannot be null or undefined"))
      else if !value.CStr? then Err(ValidationError(ConditionName(f.condition) + " filter value must be a string"))
      else if ContainsPercent(value.s) then Ok(f.(value := value))
      else Ok(f.(value := CStr("%" + value.s + "%")))
    else if f.condition in {Gt, Gte, Lt, Lte} && (value == CNull || value == CUndefined) then
      Err(ValidationError(ConditionName(f.condition) + " filter value cannot be null or undefined"))
    else Ok(f.(value := value))
  }

  function FilterRow(f: Filter): Row
  {
    [(f.columnName, f.value)]
  }

  function FilterRows(filters: seq<Filter>): (rows: seq<Row>)
    ensures |rows| == |filters| && forall i :: 0 <= i < |filters| ==> rows[i] == FilterRow(filters[i])
  {
    if filters == [] then [] else [FilterRow(filters[0])] + FilterRows(filters[1..])
  }

  /** The transformed value of each filter's column in its one-key row. */
  function MapFilters(filters: seq<Filter>, rows: seq<Row>): (r: Result<seq<Filter>, DataTableError>)
    requires |rows| == |filters| && forall i :: 0 <= i < |rows| ==> |rows[i]| == 1
    ensures r.Ok? <==> forall i :: 0 <= i < |filters| ==> TransformFilter(filters[i], rows[i][0].1).Ok?
    ensures r.Ok? ==> (|r.value| == |filters| &&
      forall i :: 0 <= i < |filters| ==> Ok(r.value[i]) == TransformFilter(filters[i], rows[i][0].1))
  {
    if filters == [] then Ok([])
    else
      match TransformFilter(filters[0], rows[0][0].1)
      case Err(e) => Err(e)
      case Ok(f) =>
        assert forall i :: 1 <= i < |filters| ==> filters[i] == filters[1..][i - 1] && rows[i] == rows[1..][i - 1];
        match MapFilters(filters[1..], rows[1..])
        case Err(e) => Err(e)
        case Ok(rest) => Ok([f] + rest)
  }

  /** `validateAndTransformFilters`: every filter's value is validated as a
      one-key row (system columns allowed, dates left as `Date`s), then checked
      against its condition. Count, order, columns and conditions are kept. */
  function ValidateAndTransformFilters(fo: FilterObject, columns: seq<Column>, chk: Checker)
    : (r: Result<FilterObject, DataTableError>)
    ensures r.Ok? ==> r.value.combinator == fo.combinator && |r.value.filters| == |fo.filters|
    ensures r.Ok? ==> forall i :: 0 <= i < |fo.filters| ==>
      r.value.filters[i].columnName == fo.filters[i].columnName && r.value.filters[i].condition == fo.filters[i].condition
    ensures TransformRows(FilterRows(fo.filters), columns, true, true, chk).Err? ==>
      r == Err(TransformRows(FilterRows(fo.filters), columns, true, true, chk).error)
    ensures r.Ok? ==> (TransformRows(FilterRows(fo.filters), columns, true, true, chk).Ok? &&
      forall i :: 0 <= i < |fo.filters| ==>
        Ok(r.value.filters[i]) ==
          TransformFilter(fo.filters[i], TransformRows(FilterRows(fo.filters), columns, true, true, chk).value[i][0].1))
  {
    var rows := FilterRows(fo.filters);
    match TransformRows(rows, columns, true, true, chk)
    case Err(e) => Err(e)
    case Ok(transformed) =>
      assert forall i :: 0 <= i < |transformed| ==> |transformed[i]| == |rows[i]| == 1;
      match MapFilters(fo.filters, transformed)
      case Err(e) => Err(e)
      case Ok(filters) => Ok(fo.(filters := filters))
  }

  /** A one-key row whose key is a column and whose cell validates is
      transformed to that key and the transformed cell. */
  lemma TransformSingleRow(key: string, cell: Cell, names: set<string>, types: map<string, string>, skipDateTransform: bool, chk: Checker)
    requires key in names && TransformCell(cell, key, types, skipDateTransform, chk).Ok?
    ensures TransformRow([(key, cell)], names, types, skipDateTransform, chk) ==
      Ok([(key, TransformCell(cell, key, types, skipDateTransform, chk).value)])
  {
    var c := TransformCell(cell, key, types, skipDateTransform, chk).value;
    assert [(key, cell)][1..] == [];
    assert [(key, c)] + [] == [(key, c)];
  }

  /** Filters may name the system columns: they pass the column-name check. */
  lemma SystemColumnsFilterable(f: Filter, columns: seq<Column>)
    requires f.columnName in ColumnNames(SystemColumns)
    ensures f.columnName in ColumnNames(AllColumns(columns, true))
  {
    var k :| 0 <= k < |SystemColumns| && SystemColumns[k].name == f.columnName;
    assert AllColumns(columns, true)[k] == SystemColumns[k];
  }

  // ---------------------------------------------------------------------------
  // Update parameters

  datatype UpdateParams = UpdateParams(data: Row, filter: FilterObject)

  /** Validating a one-row list (without system columns or date skipping)
      is validating that row. */
  lemma TransformOneRow(row: Row, columns: seq<Column>, chk: Checker)
    ensures TransformRows([row], columns, false, false, chk) ==
      match TransformRow(row, ColumnNames(columns), ColumnTypes(columns), false, chk)
      case Ok(t) => Ok([t])
      case Err(e) => Err(e)
  {
    var names, types := ColumnNames(columns), ColumnTypes(columns);
    assert AllColumns(columns, false) == columns;
    assert TransformRows([row], columns, false, false, chk) == TransformAll([row], names, types, false, chk);
    assert [row][0] == row && [row][1..] == [];
    match TransformRow(row, names, types, false, chk)
    case Err(e) =>
    case Ok(t) =>
      assert TransformAll([], names, types, false, chk) == Ok([]);
      assert [t] + [] == [t];
  }

  const NoColumnsMessage := "No columns found for this data table or data table not found"
  const EmptyFilterMessage := "Filter must not be empty"
  const EmptyDataMessage := "Data columns must not be empty"

  /** The table has columns, the filter holds conditions and the data holds keys. */
  predicate UpdateInputsPresent(filter: Option<FilterObject>, data: Option<Row>, columns: seq<Column>)
  {
    columns != [] && filter.Some? && filter.value.filters != [] && data.Some? && data.value != []
  }

  /** `validateAndTransformUpdateParams`: the table must have columns, the
      filter must hold conditions and the data must hold keys, checked in that
      order; then the data row and the filter are transformed. */
  function ValidateAndTransformUpdateParams(filter: Option<FilterObject>, data: Option<Row>, columns: seq<Column>, chk: Checker)
    : (r: Result<UpdateParams, DataTableError>)
    ensures columns == [] ==>
      r == Err(ValidationError(NoColumnsMessage))
    ensures columns != [] && (filter.None? || filter.value.filters == []) ==>
      r == Err(ValidationError(EmptyFilterMessage))
    ensures columns != [] && filter.Some? && filter.value.filters != [] && (data.None? || data.value == []) ==>
      r == Err(ValidationError(EmptyDataMessage))
    ensures r.Ok? ==>
      data.Some? && filter.Some? &&
      TransformRow(data.value, ColumnNames(columns), ColumnTypes(columns), false, chk) == Ok(r.value.data) &&
      ValidateAndTransformFilters(filter.value, columns, chk) == Ok(r.value.filter)
  {
    if columns == [] then Err(ValidationError(NoColumnsMessage))
    else if filter.None? || filter.value.filters == [] then Err(ValidationError(EmptyFilterMessage))
    else if data.None? || data.value == [] then Err(ValidationError(EmptyDataMessage))
    else
      match TransformRows([data.value], columns, false, false, chk)
      case Err(e) => Err(e)
      case Ok(rows) =>
        match ValidateAndTransformFilters(filter.value, columns, chk)
        case Err(e) => Err(e)
        case Ok(f) => Ok(UpdateParams(rows[0], f))
  }
  /** Once the three inputs are present, the data row's error, then the
      filter's, is returned as it is, and otherwise both transformed values. */
  lemma UpdateParamsOutcome(filter: Option<FilterObject>, data: Option<Row>, columns: seq<Column>, chk: Checker)
    requires UpdateInputsPresent(filter, data, columns)
    ensures (TransformRow(data.value, ColumnNames(columns), ColumnTypes(columns), false, chk).Err? ==>
      ValidateAndTransformUpdateParams(filter, data, columns, chk) ==
        Err(TransformRow(data.value, ColumnNames(columns), ColumnTypes(columns), false, chk).error))
    ensures (TransformRow(data.value, ColumnNames(columns), ColumnTypes(columns), false, chk).Ok? &&
             ValidateAndTransformFilters(filter.value, columns, chk).Err? ==>
      ValidateAndTransformUpdateParams(filter, data, columns, chk) == Err(ValidateAndTransformFilters(filter.value, columns, chk).error))
    ensures (TransformRow(data.value, ColumnNames(columns), ColumnTypes(columns), false, chk).Ok? &&
             ValidateAndTransformFilters(filter.value, columns, chk).Ok? ==>
      ValidateAndTransformUpdateParams(filter, data, columns, chk) ==
        Ok(UpdateParams(TransformRow(data.value, ColumnNames(columns), ColumnTypes(columns), false, chk).value,
                        ValidateAndTransformFilters(filter.value, columns, chk).value)))
  {
    var row := TransformRow(data.value, ColumnNames(columns), ColumnTypes(columns), false, chk);
    var f := ValidateAndTransformFilters(filter.value, columns, chk);
    var r := ValidateAndTransformUpdateParams(filter, data, columns, chk);
    TransformOneRow(data.value, columns, chk);
    if row.Err? {
      assert r == Err(row.error);
    } else if f.Err? {
      assert r == Err(f.error);
    } else {
      assert r == Ok(UpdateParams(row.value, f.value));
    }
  }

  /** The update parameters are accepted exactly when the three inputs are
      present and the data row and the filter both validate. */
  lemma UpdateParamsAccepted(filter: Option<FilterObject>, data: Option<Row>, columns: seq<Column>, chk: Checker)
    ensures ValidateAndTransformUpdateParams(filter, data, columns, chk).Ok? <==>
      (UpdateInputsPresent(filter, data, columns) &&
       TransformRow(data.value, ColumnNames(columns), ColumnTypes(columns), false, chk).Ok? &&
       ValidateAndTransformFilters(filter.value, columns, chk).Ok?)
  {
    if UpdateInputsPresent(filter, data, columns) {
      UpdateParamsOutcome(filter, data, columns, chk);
    }
  }


}

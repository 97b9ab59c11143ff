/** The data-table service's table operations: creating a table (with a CSV
    import), inserting, updating, upserting and deleting rows. The repositories
    are seen through the calls the service makes on them, and the size
    validator through how often its cache is reset. */
module DataTableService {
  import opened Common
  import opened DataTable

  /** A call the service makes on its repositories or its file cleanup. */
  datatype RepoCall =
    | CreateTable(projectId: string, name: string, tableId: string)
    | DeleteTable(tableId: string)
    | DeleteFile(fileId: string)
    | InsertRows(tableId: string, rows: seq<Row>, returnType: string)
    | UpdateRows(tableId: string, data: Row, filter: FilterObject, returnData: bool)
    | DryRunUpsert(tableId: string, data: Row, filter: FilterObject)
    | DryRunUpdate(tableId: string, data: Row, filter: FilterObject)
    | DeleteRows(tableId: string, filter: FilterObject, returnData: bool, dryRun: bool)

  datatype UpsertOutcome = DryRunReported | Updated | Inserted

  /** What the service is told about the world for one call: whether the
      stored tables are within the size limit and whether the table exists in
      the project. */
  datatype Lookup = Lookup(withinSizeLimit: bool, tableExists: bool)

  /** The CSV file as the parser reads it: the column names, and the rows
      keyed by those names (either may fail to be read). */
  datatype CsvFile = CsvFile(columns: Result<seq<string>, string>, rows: Result<seq<Row>, string>)

  // ---------------------------------------------------------------------------
  // CSV import

  /** `columnMapping`: CSV column `i` maps to table column `i` when the table
      has one; a repeated CSV name keeps its last mapping. */
  function ColumnMapping(csvColumns: seq<string>, tableColumns: seq<Column>): (m: map<string, string>)
    ensures forall k :: k in m <==> exists i :: 0 <= i < |csvColumns| && i < |tableColumns| && csvColumns[i] == k
  {
    if csvColumns == [] then map[]
    else
      var i := |csvColumns| - 1;
      var m := ColumnMapping(csvColumns[..i], tableColumns);
      if i < |tableColumns| then m[csvColumns[i] := tableColumns[i].name] else m
  }

  /** CSV column `i` maps to the name of table column `i` unless a later CSV
      column of the same name overrides it. */
  lemma {:induction false} ColumnMappingByIndex(csvColumns: seq<string>, tableColumns: seq<Column>, i: nat)
    requires i < |csvColumns| && i < |tableColumns|
    requires forall j :: i < j < |csvColumns| && j < |tableColumns| ==> csvColumns[j] != csvColumns[i]
    ensures ColumnMapping(csvColumns, tableColumns)[csvColumns[i]] == tableColumns[i].name
    decreases |csvColumns|
  {
    var last := |csvColumns| - 1;
    var front := csvColumns[..last];
    if i < last {
      assert front[i] == csvColumns[i];
      assert forall j :: i < j < |front| ==> front[j] == csvColumns[j];
      ColumnMappingByIndex(front, tableColumns, i);
      if last < |tableColumns| {
        assert csvColumns[last] != csvColumns[i];
        assert ColumnMapping(csvColumns, tableColumns) ==
          ColumnMapping(front, tableColumns)[csvColumns[last] := tableColumns[last].name];
      } else {
        assert ColumnMapping(csvColumns, tableColumns) == ColumnMapping(front, tableColumns);
      }
    }
  }

  /** The forEach that fills the column mapping. */
  method BuildColumnMapping(csvColumns: seq<string>, tableColumns: seq<Column>) returns (mapping: map<string, string>)
    ensures mapping == ColumnMapping(csvColumns, tableColumns)
  {
    mapping := map[];
    var index := 0;
    while index < |csvColumns|
      invariant 0 <= index <= |csvColumns|
      invariant mapping == ColumnMapping(csvColumns[..index], tableColumns)
    {
      assert csvColumns[..index + 1][..index] == csvColumns[..index];
      if index < |tableColumns| {
        mapping := mapping[csvColumns[index] := tableColumns[index].name];
      }
      index := index + 1;
    }
    assert csvColumns[..index] == csvColumns;
  }

  /** `row[key]` on an object: the first entry of that key. */
  function EntryValue(row: Row, key: string): (r: Option<Cell>)
    ensures r.Some? <==> key in Keys(row)
  {
    if row == [] then None
    else if row[0].0 == key then Some(row[0].1)
    else
      assert Keys(row) == [row[0].0] + Keys(row[1..]);
      EntryValue(row[1..], key)
  }

  /** `row[key] = value` on an object: an existing key keeps its place. */
  function SetEntry(row: Row, key: string, value: Cell): (r: Row)
    ensures forall k :: k in Keys(r) <==> k in Keys(row) || k == key
    ensures EntryValue(r, key) == Some(value)
    ensures forall k :: k != key ==> EntryValue(r, k) == EntryValue(row, k)
  {
    if row == [] then [(key, value)]
    else if row[0].0 == key then [(key, value)] + row[1..]
    else
      var rest := SetEntry(row[1..], key, value);
      assert Keys(row) == [row[0].0] + Keys(row[1..]);
      assert Keys([row[0]] + rest) == [row[0].0] + Keys(rest);
      [row[0]] + rest
  }

  /** Some entry of `row` has a CSV column that the mapping sends to `k`. */
  predicate MappedFrom(row: Row, mapping: map<string, string>, k: string)
  {
    exists i :: 0 <= i < |row| && row[i].0 in mapping && mapping[row[i].0] == k
  }

  /** A CSV row renamed to table columns: entries whose CSV column has no
      (non-empty) mapping are dropped. */
  function MapCsvRow(row: Row, mapping: map<string, string>): (r: Row)
    ensures forall k :: k in Keys(r) ==> MappedFrom(row, mapping, k)
    ensures forall i :: 0 <= i < |row| && row[i].0 in mapping && mapping[row[i].0] != "" ==> mapping[row[i].0] in Keys(r)
  {
    if row == [] then []
    else
      var n := |row| - 1;
      var front := row[..n];
      var acc := MapCsvRow(front, mapping);
      var (name, value) := row[n];
      assert forall i :: 0 <= i < n ==> front[i] == row[i];
      assert forall k :: MappedFrom(front, mapping, k) ==> MappedFrom(row, mapping, k) by {
        forall k | MappedFrom(front, mapping, k) ensures MappedFrom(row, mapping, k) {
          var i :| 0 <= i < |front| && front[i].0 in mapping && mapping[front[i].0] == k;
          assert row[i] == front[i];
        }
      }
      if name in mapping && mapping[name] != "" then
        assert MappedFrom(row, mapping, mapping[name]) by { assert row[n].0 == name; }
        SetEntry(acc, mapping[name], value)
      else acc
  }

  /** A table column holds the value of the last CSV entry mapped to it. */
  lemma {:induction false} MapCsvRowLastWins(row: Row, mapping: map<string, string>, i: nat)
    requires i < |row| && row[i].0 in mapping && mapping[row[i].0] != ""
    requires forall j :: i < j < |row| && row[j].0 in mapping ==> mapping[row[j].0] != mapping[row[i].0]
    ensures EntryValue(MapCsvRow(row, mapping), mapping[row[i].0]) == Some(row[i].1)
    decreases |row|
  {
    var n := |row| - 1;
    var front := row[..n];
    var acc := MapCsvRow(front, mapping);
    var name := row[n].0;
    var mapped := name in mapping && mapping[name] != "";
    assert mapped ==> MapCsvRow(row, mapping) == SetEntry(acc, mapping[name], row[n].1);
    assert !mapped ==> MapCsvRow(row, mapping) == acc;
    if i < n {
      assert front[i] == row[i];
      assert forall j :: i < j < |front| ==> front[j] == row[j];
      MapCsvRowLastWins(front, mapping, i);
      assert mapped ==> mapping[name] != mapping[row[i].0];
    }
  }

  /** The for-of loop over a CSV row's entries. */
  method TransformCsvRow(row: Row, mapping: map<string, string>) returns (transformed: Row)
    ensures transformed == MapCsvRow(row, mapping)
  {
    transformed := [];
    var i := 0;
    while i < |row|
      invariant 0 <= i <= |row|
      invariant transformed == MapCsvRow(row[..i], mapping)
    {
      assert row[..i + 1][..i] == row[..i];
      var (name, value) := row[i];
      if name in mapping && mapping[name] != "" {
        transformed := SetEntry(transformed, mapping[name], value);
      }
      i := i + 1;
    }
    assert row[..i] == row;
  }

  /** Every CSV row renamed through the column mapping. */
  function ImportedRows(csvColumns: seq<string>, csvRows: seq<Row>, tableColumns: seq<Column>): (r: seq<Row>)
    ensures |r| == |csvRows|
    ensures forall i :: 0 <= i < |r| ==> r[i] == MapCsvRow(csvRows[i], ColumnMapping(csvColumns, tableColumns))
  {
    seq(|csvRows|, i requires 0 <= i < |csvRows| => MapCsvRow(csvRows[i], ColumnMapping(csvColumns, tableColumns)))
  }

  /** The `rows.map` that renames each parsed CSV row. */
  method RenameCsvRows(csvRows: seq<Row>, mapping: map<string, string>) returns (renamed: seq<Row>)
    ensures |renamed| == |csvRows|
    ensures forall j :: 0 <= j < |csvRows| ==> renamed[j] == MapCsvRow(csvRows[j], mapping)
  {
    renamed := [];
    var i := 0;
    while i < |csvRows|
      invariant 0 <= i <= |csvRows|
      invariant |renamed| == i && forall j :: 0 <= j < i ==> renamed[j] == MapCsvRow(csvRows[j], mapping)
    {
      var row := TransformCsvRow(csvRows[i], mapping);
      renamed := renamed + [row];
      i := i + 1;
    }
  }

  /** The checks of `deleteRows`, in order: the table must exist and the
      filter must be present and non-empty; the filter is then validated. */
  /** Message of the refusal to delete without a filter. */
  const DeleteFilterRequired := "Filter is required for delete operations to prevent accidental deletion of all data"

  function DeleteCheck(tableId: string, columns: seq<Column>, look: Lookup, filter: Option<FilterObject>, chk: Checker)
    : (r: Result<FilterObject, DataTableError>)
    ensures !look.tableExists ==> r == Err(TableNotFound(tableId))
    ensures look.tableExists && (filter.None? || filter.value.filters == []) ==>
      r == Err(ValidationError(DeleteFilterRequired))
    ensures r.Ok? ==> (look.tableExists && filter.Some? && filter.value.filters != [] &&
      r.value.combinator == filter.value.combinator && |r.value.filters| == |filter.value.filters|)
  {
    if !look.tableExists then Err(TableNotFound(tableId))
    else if filter.None? || filter.value.filters == [] then
      Err(ValidationError(DeleteFilterRequired))
    else ValidateAndTransformFilters(filter.value, columns, chk)
  }
  /** With the table present and a non-empty filter, the delete check is the
      validation of the filter against the table's columns. */
  lemma DeleteCheckValidates(tableId: string, columns: seq<Column>, look: Lookup, filter: Option<FilterObject>, chk: Checker)
    requires look.tableExists && filter.Some? && filter.value.filters != []
    ensures DeleteCheck(tableId, columns, look, filter, chk) == ValidateAndTransformFilters(filter.value, columns, chk)
  {
  }


  /** What `importDataFromFile` does to the repositories: the error it
      reports, or the calls it makes. The table's existence is checked first,
      then the CSV columns and rows are read; no rows means no insert;
      otherwise the renamed rows go through `insertRows` (size check, then
      validation) as one insert. */
  function ImportCalls(tableId: string, tableColumns: seq<Column>, csv: CsvFile, look: Lookup, chk: Checker)
    : (r: Result<seq<RepoCall>, DataTableError>)
    ensures !look.tableExists ==> r == Err(FileUpload(TableNotFound(tableId)))
    ensures look.tableExists && csv.columns.Err? ==> r == Err(FileUpload(CsvUnreadable(csv.columns.error)))
    ensures look.tableExists && csv.columns.Ok? && csv.rows.Err? ==> r == Err(FileUpload(CsvUnreadable(csv.rows.error)))
    ensures r.Err? ==> r.error.FileUpload?
    ensures look.tableExists && csv.columns.Ok? && csv.rows.Ok? && csv.rows.value == [] ==> r == Ok([])
    ensures look.tableExists && csv.columns.Ok? && csv.rows.Ok? && csv.rows.value != [] ==>
      (r.Ok? <==> look.withinSizeLimit &&
                  TransformRows(ImportedRows(csv.columns.value, csv.rows.value, tableColumns), tableColumns, false, false, chk).Ok?)
    ensures look.tableExists && csv.columns.Ok? && csv.rows.Ok? && csv.rows.value != [] && !look.withinSizeLimit ==>
      r == Err(FileUpload(SizeLimitExceeded))
    ensures r.Ok? && r.value != [] ==>
      csv.columns.Ok? && csv.rows.Ok? &&
      r.value == [InsertRows(tableId, TransformRows(ImportedRows(csv.columns.value, csv.rows.value, tableColumns),
                                                    tableColumns, false, false, chk).value, "count")]
  {
    if !look.tableExists then Err(FileUpload(TableNotFound(tableId)))
    else if csv.columns.Err? then Err(FileUpload(CsvUnreadable(csv.columns.error)))
    else if csv.rows.Err? then Err(FileUpload(CsvUnreadable(csv.rows.error)))
    else if csv.rows.value == [] then Ok([])
    else if !look.withinSizeLimit then Err(FileUpload(SizeLimitExceeded))
    else
      match TransformRows(ImportedRows(csv.columns.value, csv.rows.value, tableColumns), tableColumns, false, false, chk)
      case Err(e) => Err(FileUpload(e))
      case Ok(rows) => Ok([InsertRows(tableId, rows, "count")])
  }

  /** The service, as seen through its repository calls and size-cache resets. */
  class Service {
    var calls: seq<RepoCall>
    var sizeResets: nat

    constructor()
      ensures calls == [] && sizeResets == 0
    {
      calls := [];
      sizeResets := 0;
    }

    /** `insertRows`: size and existence checks, then every row validated
        (no system columns) and inserted in one call, asking the repository
        for `returnType` (`"count"` unless the caller says otherwise). */
    method InsertRowsOp(tableId: string, columns: seq<Column>, look: Lookup, rows: seq<Row>, returnType: string, chk: Checker)
      returns (r: Result<(), DataTableError>)
      modifies this
      ensures !look.withinSizeLimit ==> r == Err(SizeLimitExceeded)
      ensures look.withinSizeLimit && !look.tableExists ==> r == Err(TableNotFound(tableId))
      ensures look.withinSizeLimit && look.tableExists && TransformRows(rows, columns, false, false, chk).Err? ==>
        r == Err(TransformRows(rows, columns, false, false, chk).error)
      ensures r.Ok? <==> look.withinSizeLimit && look.tableExists && TransformRows(rows, columns, false, false, chk).Ok?
      ensures r.Ok? ==> (calls == old(calls) + [InsertRows(tableId, TransformRows(rows, columns, false, false, chk).value, returnType)] &&
                         sizeResets == old(sizeResets) + 1)
      ensures r.Err? ==> calls == old(calls) && sizeResets == old(sizeResets)
    {
      if !look.withinSizeLimit {
        return Err(SizeLimitExceeded);
      }
      if !look.tableExists {
        return Err(TableNotFound(tableId));
      }
      var transformed := ValidateAndTransformRows(rows, columns, false, false, chk);
      if transformed.Err? {
        return Err(transformed.error);
      }
      calls := calls + [InsertRows(tableId, transformed.value, returnType)];
      sizeResets := sizeResets + 1;
      r := Ok(());
    }

    /** `upsertRow`: update first; only when nothing was updated insert exactly
        `[data]`. A dry run only reports, and never resets the size cache. */
    method UpsertRow(tableId: string, columns: seq<Column>, look: Lookup, filter: Option<FilterObject>, data: Option<Row>,
                     returnData: bool, dryRun: bool, updatedCount: nat, chk: Checker)
      returns (r: Result<UpsertOutcome, DataTableError>)
      modifies this
      ensures !look.withinSizeLimit ==> r == Err(SizeLimitExceeded)
      ensures look.withinSizeLimit && !look.tableExists ==> r == Err(TableNotFound(tableId))
      ensures r.Err? ==> calls == old(calls) && sizeResets == old(sizeResets)
      ensures look.withinSizeLimit && look.tableExists ==>
        match ValidateAndTransformUpdateParams(filter, data, columns, chk)
        case Err(e) => r == Err(e)
        case Ok(p) =>
          if dryRun then
            r == Ok(DryRunReported) && calls == old(calls) + [DryRunUpsert(tableId, p.data, p.filter)] &&
            sizeResets == old(sizeResets)
          else if updatedCount > 0 then
            r == Ok(Updated) && calls == old(calls) + [UpdateRows(tableId, p.data, p.filter, true)] &&
            sizeResets == old(sizeResets) + 1
          else
            r == Ok(Inserted) &&
            calls == old(calls) + [UpdateRows(tableId, p.data, p.filter, true),
                                   InsertRows(tableId, [p.data], if returnData then "all" else "id")] &&
            sizeResets == old(sizeResets) + 1
    {
      if !look.withinSizeLimit {
        return Err(SizeLimitExceeded);
      }
      if !look.tableExists {
        return Err(TableNotFound(tableId));
      }
      var params := ValidateAndTransformUpdateParams(filter, data, columns, chk);
      if params.Err? {
        return Err(params.error);
      }
      var p := params.value;
      if dryRun {
        calls := calls + [DryRunUpsert(tableId, p.data, p.filter)];
        return Ok(DryRunReported);
      }
      var update := UpdateRows(tableId, p.data, p.filter, true);
      if updatedCount > 0 {
        calls := calls + [update];
        r := Ok(Updated);
      } else {
        calls := calls + [update, InsertRows(tableId, [p.data], if returnData then "all" else "id")];
        r := Ok(Inserted);
      }
      sizeResets := sizeResets + 1;
    }

    /** `updateRows`: validated parameters, then one update (or a dry run). */
    method UpdateRowsOp(tableId: string, columns: seq<Column>, look: Lookup, filter: Option<FilterObject>, data: Option<Row>,
                        returnData: bool, dryRun: bool, chk: Checker)
      returns (r: Result<(), DataTableError>)
      modifies this
      ensures !look.withinSizeLimit ==> r == Err(SizeLimitExceeded)
      ensures look.withinSizeLimit && !look.tableExists ==> r == Err(TableNotFound(tableId))
      ensures r.Err? ==> calls == old(calls) && sizeResets == old(sizeResets)
      ensures look.withinSizeLimit && look.tableExists ==>
        match ValidateAndTransformUpdateParams(filter, data, columns, chk)
        case Err(e) => r == Err(e)
        case Ok(p) =>
          r.Ok? &&
          (dryRun ==> calls == old(calls) + [DryRunUpdate(tableId, p.data, p.filter)] && sizeResets == old(sizeResets)) &&
          (!dryRun ==> (calls == old(calls) + [UpdateRows(tableId, p.data, p.filter, returnData)] &&
                        sizeResets == old(sizeResets) + 1))
    {
      if !look.withinSizeLimit {
        return Err(SizeLimitExceeded);
      }
      if !look.tableExists {
        return Err(TableNotFound(tableId));
      }
      var params := ValidateAndTransformUpdateParams(filter, data, columns, chk);
      if params.Err? {
        return Err(params.error);
      }
      var p := params.value;
      if dryRun {
        calls := calls + [DryRunUpdate(tableId, p.data, p.filter)];
      } else {
        calls := calls + [UpdateRows(tableId, p.data, p.filter, returnData)];
        sizeResets := sizeResets + 1;
      }
      r := Ok(());
    }

    /** `deleteRows`: no size check; an absent or empty filter is refused so
        that a delete never removes every row. */
    method DeleteRowsOp(tableId: string, columns: seq<Column>, look: Lookup, filter: Option<FilterObject>,
                        returnData: bool, dryRun: bool, chk: Checker)
      returns (r: Result<(), DataTableError>)
      modifies this
      ensures r.Err? ==> (DeleteCheck(tableId, columns, look, filter, chk) == Err(r.error) &&
        calls == old(calls) && sizeResets == old(sizeResets))
      ensures r.Ok? ==> (DeleteCheck(tableId, columns, look, filter, chk).Ok? &&
        calls == old(calls) + [DeleteRows(tableId, DeleteCheck(tableId, columns, look, filter, chk).value, returnData, dryRun)] &&
        sizeResets == old(sizeResets) + (if dryRun then 0 else 1))
    {
      var checked := DeleteCheck(tableId, columns, look, filter, chk);
      if checked.Err? {
        return Err(checked.error);
      }
      calls := calls + [DeleteRows(tableId, checked.value, returnData, dryRun)];
      if !dryRun {
        sizeResets := sizeResets + 1;
      }
      r := Ok(());
    }

    /** `importDataFromFile`: the table's columns are read first (which
        checks that the table exists); CSV columns are then mapped to table
        columns by position, every CSV row is renamed accordingly, and the rows
        are inserted when there are any; every failure is reported as a file
        upload error carrying the cause. */
    method ImportDataFromFile(tableId: string, tableColumns: seq<Column>, csv: CsvFile, look: Lookup, chk: Checker)
      returns (r: Result<(), DataTableError>)
      modifies this
      ensures r.Err? <==> ImportCalls(tableId, tableColumns, csv, look, chk).Err?
      ensures r.Err? ==> (r.error == ImportCalls(tableId, tableColumns, csv, look, chk).error &&
        calls == old(calls) && sizeResets == old(sizeResets))
      ensures r.Ok? ==> (calls == old(calls) + ImportCalls(tableId, tableColumns, csv, look, chk).value &&
        sizeResets == old(sizeResets) + |ImportCalls(tableId, tableColumns, csv, look, chk).value|)
    {
      if !look.tableExists {
        return Err(FileUpload(TableNotFound(tableId)));
      }
      if csv.columns.Err? {
        return Err(FileUpload(CsvUnreadable(csv.columns.error)));
      }
      var mapping := BuildColumnMapping(csv.columns.value, tableColumns);
      if csv.rows.Err? {
        return Err(FileUpload(CsvUnreadable(csv.rows.error)));
      }
      var renamed := RenameCsvRows(csv.rows.value, mapping);
      assert renamed == ImportedRows(csv.columns.value, csv.rows.value, tableColumns);
      if |renamed| > 0 {
        var inserted := InsertRowsOp(tableId, tableColumns, look, renamed, "count", chk);
        if inserted.Err? {
          return Err(FileUpload(inserted.error));
        }
      }
      r := Ok(());
    }

    /** `deleteDataTable`: an existing table is deleted and the size cache reset. */
    method DeleteDataTable(tableId: string, look: Lookup) returns (r: Result<(), DataTableError>)
      modifies this
      ensures r.Ok? <==> look.tableExists
      ensures !look.tableExists ==> r == Err(TableNotFound(tableId)) && calls == old(calls) && sizeResets == old(sizeResets)
      ensures look.tableExists ==> calls == old(calls) + [DeleteTable(tableId)] && sizeResets == old(sizeResets) + 1
    {
      if !look.tableExists {
        return Err(TableNotFound(tableId));
      }
      calls := calls + [DeleteTable(tableId)];
      sizeResets := sizeResets + 1;
      r := Ok(());
    }

    /** `createDataTable`: a name clash is refused; the table is created and,
        when a file is given, filled from it (the import sees the table just
        created); a failed import deletes the new table again (with its own
        size-cache reset) and fails; otherwise the file is deleted and the size
        cache reset. */
    method CreateDataTable(projectId: string, name: string, nameTaken: bool, newTableId: string,
                           tableColumns: seq<Column>, fileId: Option<string>, csv: CsvFile, withinSizeLimit: bool, chk: Checker)
      returns (r: Result<string, DataTableError>)
      modifies this
      ensures nameTaken ==> r == Err(NameConflict(name)) && calls == old(calls) && sizeResets == old(sizeResets)
      ensures !nameTaken && !IdTruthy(fileId) ==>
        r == Ok(newTableId) && calls == old(calls) + [CreateTable(projectId, name, newTableId)] &&
        sizeResets == old(sizeResets) + 1
      ensures (!nameTaken && IdTruthy(fileId) &&
               ImportCalls(newTableId, tableColumns, csv, Lookup(withinSizeLimit, true), chk).Ok?) ==>
        r == Ok(newTableId) &&
        calls == old(calls) + [CreateTable(projectId, name, newTableId)] +
                 ImportCalls(newTableId, tableColumns, csv, Lookup(withinSizeLimit, true), chk).value +
                 [DeleteFile(fileId.value)] &&
        sizeResets == old(sizeResets) + |ImportCalls(newTableId, tableColumns, csv, Lookup(withinSizeLimit, true), chk).value| + 1
      ensures (!nameTaken && IdTruthy(fileId) &&
               ImportCalls(newTableId, tableColumns, csv, Lookup(withinSizeLimit, true), chk).Err?) ==>
        r == Err(ImportCalls(newTableId, tableColumns, csv, Lookup(withinSizeLimit, true), chk).error) &&
        calls == old(calls) + [CreateTable(projectId, name, newTableId), DeleteTable(newTableId)] &&
        sizeResets == old(sizeResets) + 1
    {
      if nameTaken {
        return Err(NameConflict(name));
      }
      calls := calls + [CreateTable(projectId, name, newTableId)];
      if IdTruthy(fileId) {
        var created := Lookup(withinSizeLimit, true);
        var imported := ImportDataFromFile(newTableId, tableColumns, csv, created, chk);
        if imported.Err? {
          var _ := DeleteDataTable(newTableId, created);
          return Err(imported.error);
        }
        calls := calls + [DeleteFile(fileId.value)];
      }
      sizeResets := sizeResets + 1;
      r := Ok(newTableId);
    }
  }

  /** Renaming keeps only mapped columns: every key of a renamed row is the
      table column some CSV column of the row maps to. */
  lemma RenamedRowsUseTableColumns(row: Row, csvColumns: seq<string>, tableColumns: seq<Column>)
    ensures forall k :: k in Keys(MapCsvRow(row, ColumnMapping(csvColumns, tableColumns))) ==>
      exists i :: 0 <= i < |csvColumns| && i < |tableColumns| && tableColumns[i].name == k
  {
    var m := ColumnMapping(csvColumns, tableColumns);
    forall k | k in Keys(MapCsvRow(row, m))
      ensures exists i :: 0 <= i < |csvColumns| && i < |tableColumns| && tableColumns[i].name == k
    {
      assert MappedFrom(row, m, k);
      var j :| 0 <= j < |row| && row[j].0 in m && m[row[j].0] == k;
      ColumnMappingValues(csvColumns, tableColumns, row[j].0);
    }
  }

  lemma {:induction false} ColumnMappingValues(csvColumns: seq<string>, tableColumns: seq<Column>, c: string)
    requires c in ColumnMapping(csvColumns, tableColumns)
    ensures exists i :: (0 <= i < |csvColumns| && i < |tableColumns| && csvColumns[i] == c &&
                         tableColumns[i].name == ColumnMapping(csvColumns, tableColumns)[c])
    decreases |csvColumns|
  {
    var last := |csvColumns| - 1;
    if !(last < |tableColumns| && csvColumns[last] == c) {
      ColumnMappingValues(csvColumns[..last], tableColumns, c);
      var i :| 0 <= i < last && i < |tableColumns| && csvColumns[..last][i] == c &&
        tableColumns[i].name == ColumnMapping(csvColumns[..last], tableColumns)[c];
      assert csvColumns[i] == c;
    }
  }
}

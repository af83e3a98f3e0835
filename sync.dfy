/**
 * The manual import (`param_import` in app.py) and the synchronisation of
 * TblEmplacement it hands an imported location batch to
 * (`sync_tbl_emplacement_background`).
 *
 * The synchronisation runs in a thread in the application; here it runs
 * to completion right after the pending log entry is written. File saving,
 * `secure_filename`, the pandas readers, the schema lookup and the text of
 * BigQuery exceptions are parameters.
 */
module Sync {
  import opened Wrappers
  import opened Importer
  import opened Locations
  import opened History
  import opened LocationStore

  const LocationsTable: string := "TblEmplacement"
  const SyncStartedDetail: string := "Synchronisation asynchrone démarrée."

  /** What the readers give for the saved file: the CSV reader by encoding and separator, and the Excel and tab readers. */
  datatype Readers = Readers(csv: CsvOracle, excel: Result<Frame, string>, tab: Result<Frame, string>)

  /** The schema of a table: every field name, and the names of the INTEGER, FLOAT and NUMERIC ones. */
  datatype Schema = Schema(known: seq<string>, numeric: seq<string>)

  /** Where the import ends. */
  datatype ImportOutcome =
    | UnknownTable
    | NoUpload
    | CsvUnreadable(lastError: Option<string>)
    | UnsupportedFormat
    | ImportFailed(message: string)
    | NoMatchingColumn
    | NoRowsLeft
    | Loaded(lines: nat)
    | SyncStarted(lines: nat)

  /** The header cleaning applied to every column label. */
  function NormalizeHeader(f: Frame): (g: Frame)
    ensures g.rows == f.rows && |g.columns| == |f.columns|
    ensures forall j | 0 <= j < |g.columns| :: g.columns[j] == NormalizeColumn(f.columns[j])
  {
    f.(columns := seq(|f.columns|, j requires 0 <= j < |f.columns| => NormalizeColumn(f.columns[j])))
  }

  /** The frame the saved file reads as, or where reading stops. */
  function ReadUpload(name: string, readers: Readers): Result<Frame, ImportOutcome> {
    match ReaderFor(name)
    case CsvReader =>
      (match CsvDecision(readers.csv)
       case CsvOk(f, _) => Ok(f)
       case CsvFail(e) => Err(CsvUnreadable(e)))
    case ExcelReader => if readers.excel.Ok? then Ok(readers.excel.value) else Err(ImportFailed(readers.excel.error))
    case TabReader => if readers.tab.Ok? then Ok(readers.tab.value) else Err(ImportFailed(readers.tab.error))
    case NoReader => Err(UnsupportedFormat)
  }

  /** The gate on the form: a selected table among the active ones, and an uploaded file the extension gate accepts. */
  function Gate(active: seq<string>, selected: Option<string>, upload: Option<string>): Option<ImportOutcome> {
    if selected.None? || selected.value == "" || selected.value !in active then Some(UnknownTable)
    else if upload.None? || !AllowedFile(upload.value) then Some(NoUpload)
    else None
  }

  /** Everything `param_import` does to the file before writing anything: read, clean the header, keep the schema's columns, coerce. */
  function Prepare(f: Frame, schema: Result<Schema, string>, parse: string -> Option<int>): Result<Frame, ImportOutcome> {
    var g := NormalizeHeader(f);
    if schema.Err? then Err(ImportFailed(schema.error))
    else if KeepColumns(g.columns, schema.value.known) == [] then Err(NoMatchingColumn)
    else
      var selected := SelectColumns(g, schema.value.known);
      if RepeatsNumericField(selected.columns, schema.value.numeric) then Err(ImportFailed(NumericColumnError))
      else
        var kept := Coerced(selected, schema.value.numeric, parse);
        if |kept.rows| == 0 then Err(NoRowsLeft) else Ok(kept)
  }

  /** The whole pre-write decision, from the form to the frame to load. */
  function Planned(active: seq<string>, selected: Option<string>, upload: Option<string>, secure: string -> string,
                   readers: Readers, schemaOf: string -> Result<Schema, string>, parse: string -> Option<int>): Result<Frame, ImportOutcome>
  {
    var gate := Gate(active, selected, upload);
    if gate.Some? then Err(gate.value)
    else match ReadUpload(secure(upload.value), readers)
      case Err(o) => Err(o)
      case Ok(f) => Prepare(f, schemaOf(selected.value), parse)
  }

  /**
   * The frame an import writes holds exactly the file's cleaned column names
   * that the schema knows, in file order, each of them a normalised name,
   * and at least one row. The import goes on exactly when some column is
   * kept, no numeric field is kept twice and the file has a row; a file with
   * no such column, or with a numeric field under two headers that clean to
   * the same name, stops it first.
   */
  lemma PrepareMeaning(f: Frame, schema: Schema, parse: string -> Option<int>)
    ensures var kept := KeepColumns(NormalizeHeader(f).columns, schema.known);
      Prepare(f, Ok(schema), parse).Ok? <==> kept != [] && !RepeatsNumericField(kept, schema.numeric) && |f.rows| > 0
    ensures Prepare(f, Ok(schema), parse).Ok? ==>
      var g := Prepare(f, Ok(schema), parse).value;
      && g.columns == KeepColumns(NormalizeHeader(f).columns, schema.known)
      && (forall c | c in g.columns :: c in schema.known && IsNormalColumn(c))
      && (forall n | n in schema.numeric :: multiset(g.columns)[n] <= 1)
      && |g.rows| == |f.rows| > 0
    ensures KeepColumns(NormalizeHeader(f).columns, schema.known) == [] ==> Prepare(f, Ok(schema), parse) == Err(NoMatchingColumn)
    ensures var kept := KeepColumns(NormalizeHeader(f).columns, schema.known);
      kept != [] && RepeatsNumericField(kept, schema.numeric) ==> Prepare(f, Ok(schema), parse) == Err(ImportFailed(NumericColumnError))
    ensures var kept := KeepColumns(NormalizeHeader(f).columns, schema.known);
      |f.rows| == 0 && kept != [] && !RepeatsNumericField(kept, schema.numeric) ==> Prepare(f, Ok(schema), parse) == Err(NoRowsLeft)
  {
    var g := NormalizeHeader(f);
    forall c | c in KeepColumns(g.columns, schema.known) ensures IsNormalColumn(c) {
      var j :| 0 <= j < |g.columns| && g.columns[j] == c;
      NormalizeIsNormal(f.columns[j]);
    }
  }

  /** The batch the synchronisation stages: the location rows of the frame, cleaned. */
  function Staged(df: Frame): seq<Row> {
    Clean(RowsOf(df), df.columns)
  }

  /** Among untyped values, a batch holding every column the MERGE names always merges: the cleaning leaves no two rows with the same key. */
  lemma SyncFailsOnlyOnMissingColumn(target: seq<Row>, df: Frame)
    requires Missing(MergeColumns, df.columns) == []
    ensures Merge(target, Staged(df), df.columns) == Ok(Applied(target, Staged(df)))
  {
    assert MergeColumns[0] in MergeColumns && MergeColumns[1] in MergeColumns;
    assert MergeColumns[2] in MergeColumns && MergeColumns[3] in MergeColumns;
    AllKeysPresent(df.columns);
    CleanedBatchDistinct(RowsOf(df), df.columns);
    MergeSucceeds(target, Staged(df), df.columns);
  }

  lemma AllKeysPresent(columns: seq<string>)
    requires "Zone" in columns && "Allee" in columns && "Deplacement" in columns && "Niveau" in columns
    ensures PresentKeys(columns) == KeyFields
  {
    var ks := KeyFields;
    assert KeysIn(ks[3..], columns) == [Niveau] by { assert ks[3..][1..] == []; }
    assert KeysIn(ks[2..], columns) == [Deplacement, Niveau] by { assert ks[2..][1..] == ks[3..]; }
    assert KeysIn(ks[1..], columns) == [Allee, Deplacement, Niveau] by { assert ks[1..][1..] == ks[2..]; }
  }

  /** The dataset: the location table, the import log, every other table by name, and the staging table of the synchronisation. */
  class Dataset {
    const locations: LocationTable
    const log: ImportLog
    var tables: map<string, Frame>
    var staging: Option<seq<Row>>

    constructor(rows: seq<Row>)
      ensures fresh(locations) && fresh(log)
      ensures locations.rows == rows && log.entries == [] && tables == map[] && staging == None
    {
      locations := new LocationTable(rows);
      log := new ImportLog();
      tables := map[];
      staging := None;
    }

    /**
     * `sync_tbl_emplacement_background`: the cleaned batch is loaded into the
     * staging table and merged; on success the staging table is dropped and
     * the file's pending log entries are closed as succeeded with the cleaned
     * row count, otherwise they are closed as failed and the staging table
     * stays.
     */
    method SynchroniseLocations(df: Frame, file: string, describe: MergeError -> string)
      modifies this, locations, log
      ensures tables == old(tables)
      ensures Merge(old(locations.rows), Staged(df), df.columns).Ok? ==>
        && locations.rows == Merge(old(locations.rows), Staged(df), df.columns).value
        && staging == None
        && log.entries == SettledAll(old(log.entries), file, Synced(|Staged(df)|))
      ensures Merge(old(locations.rows), Staged(df), df.columns).Err? ==>
        && locations.rows == old(locations.rows)
        && staging == Some(Staged(df))
        && log.entries == SettledAll(old(log.entries), file, Crashed(describe(Merge(old(locations.rows), Staged(df), df.columns).error)))
    {
      var batch := Staged(df);
      staging := Some(batch);
      var error := locations.Synchronise(batch, df.columns);
      if error.None? {
        staging := None;
        log.Settle(file, Synced(|batch|));
      } else {
        log.Settle(file, Crashed(describe(error.value)));
      }
    }

    /** Everything `param_import` does before its first write, with the CSV fallback loop and the coercion loops. */
    static method Plan(active: seq<string>, selected: Option<string>, upload: Option<string>, secure: string -> string,
                       readers: Readers, schemaOf: string -> Result<Schema, string>, parse: string -> Option<int>)
      returns (plan: Result<Frame, ImportOutcome>)
      ensures plan == Planned(active, selected, upload, secure, readers, schemaOf, parse)
    {
      var gate := Gate(active, selected, upload);
      if gate.Some? {
        return Err(gate.value);
      }
      var name := secure(upload.value);
      var read := ReadUpload(name, readers);
      if ReaderFor(name) == CsvReader {
        var csv := ReadCsv(readers.csv);
        read := if csv.CsvOk? then Ok(csv.frame) else Err(CsvUnreadable(csv.lastError));
      }
      if read.Err? {
        return Err(read.error);
      }
      var f := NormalizeHeader(read.value);
      var schema := schemaOf(selected.value);
      if schema.Err? {
        return Err(ImportFailed(schema.error));
      }
      if KeepColumns(f.columns, schema.value.known) == [] {
        return Err(NoMatchingColumn);
      }
      var coerced := CoerceFrame(SelectColumns(f, schema.value.known), schema.value.numeric, parse);
      if coerced.Err? {
        return Err(ImportFailed(coerced.error));
      }
      var df := coerced.value;
      if |df.rows| == 0 {
        return Err(NoRowsLeft);
      }
      return Ok(df);
    }

    /**
     * `param_import` on a posted form. Nothing is written unless the
     * planned frame exists; then another table is replaced by the frame and
     * logged as succeeded, while TblEmplacement gets a pending log entry
     * and the synchronisation.
     */
    method Import(active: seq<string>, selected: Option<string>, upload: Option<string>, secure: string -> string,
                  readers: Readers, schemaOf: string -> Result<Schema, string>, parse: string -> Option<int>,
                  user: string, describe: MergeError -> string)
      returns (outcome: ImportOutcome)
      modifies this, locations, log
      ensures var plan := Planned(active, selected, upload, secure, readers, schemaOf, parse);
        plan.Err? ==>
          && outcome == plan.error
          && tables == old(tables) && staging == old(staging)
          && locations.rows == old(locations.rows) && log.entries == old(log.entries)
      ensures var plan := Planned(active, selected, upload, secure, readers, schemaOf, parse);
        plan.Ok? && selected.value != LocationsTable ==>
          && outcome == Loaded(|plan.value.rows|)
          && tables == old(tables)[selected.value := plan.value] && staging == old(staging)
          && locations.rows == old(locations.rows)
          && log.entries == old(log.entries) + [Entry(selected.value, user, Succeeded, None, |plan.value.rows|, secure(upload.value))]
      ensures var plan := Planned(active, selected, upload, secure, readers, schemaOf, parse);
        plan.Ok? && selected.value == LocationsTable ==>
          && outcome == SyncStarted(|plan.value.rows|)
          && tables == old(tables)
          && var pending := Entry(LocationsTable, user, Pending, Some(SyncStartedDetail), |plan.value.rows|, secure(upload.value));
             var merged := Merge(old(locations.rows), Staged(plan.value), plan.value.columns);
             var closed := if merged.Ok? then Synced(|Staged(plan.value)|) else Crashed(describe(merged.error));
             && locations.rows == (if merged.Ok? then merged.value else old(locations.rows))
             && log.entries == SettledAll(old(log.entries) + [pending], secure(upload.value), closed)
    {
      var plan := Plan(active, selected, upload, secure, readers, schemaOf, parse);
      if plan.Err? {
        return plan.error;
      }
      var table := selected.value;
      var name := secure(upload.value);
      var df := plan.value;
      var lines := |df.rows|;
      if table == LocationsTable {
        StartSync(df, name, user, describe);
        outcome := SyncStarted(lines);
      } else {
        tables := tables[table := df];
        log.Record(Entry(table, user, Succeeded, None, lines, name));
        outcome := Loaded(lines);
      }
    }

    /** The TblEmplacement branch: the pending log entry, then the synchronisation. */
    method StartSync(df: Frame, file: string, user: string, describe: MergeError -> string)
      modifies this, locations, log
      ensures tables == old(tables)
      ensures var pending := Entry(LocationsTable, user, Pending, Some(SyncStartedDetail), |df.rows|, file);
        var merged := Merge(old(locations.rows), Staged(df), df.columns);
        var closed := if merged.Ok? then Synced(|Staged(df)|) else Crashed(describe(merged.error));
        && locations.rows == (if merged.Ok? then merged.value else old(locations.rows))
        && log.entries == SettledAll(old(log.entries) + [pending], file, closed)
    {
      log.Record(Entry(LocationsTable, user, Pending, Some(SyncStartedDetail), |df.rows|, file));
      SynchroniseLocations(df, file, describe);
    }
  }
}

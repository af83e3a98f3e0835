/**
 * The cleaning pipeline of the manual import page (`param_import` in app.py):
 * the upload extension gate, the choice of reader, the CSV encoding and
 * delimiter fallback, the column-name normalisation, the filter against the
 * destination table's schema and the per-column type coercion.
 */
module Importer {
  import opened Wrappers
  import opened Text

  // ---------------------------------------------------------------------------
  // Extension gate and reader choice
  // ---------------------------------------------------------------------------

  const AllowedExtensions: set<string> := {"csv", "xlsx", "xls", "txt"}

  /** `filename.rsplit('.', 1)[1]` when the name has a dot: the text after the last dot. */
  function AfterLastDot(name: string): (r: string)
    ensures '.' !in r
    decreases |name|
  {
    if name == [] || name[|name| - 1] == '.' then []
    else AfterLastDot(name[..|name| - 1]) + [name[|name| - 1]]
  }

  /** `allowed_file`: the name has a dot and its last extension, lower-cased, is one of the four accepted. */
  predicate AllowedFile(name: string) {
    '.' in name && Lower(AfterLastDot(name)) in AllowedExtensions
  }

  /** The extension is everything after the last dot, whatever the stem holds. */
  lemma {:induction false} AfterLastDotOfJoin(stem: string, ext: string)
    requires '.' !in ext
    ensures AfterLastDot(stem + "." + ext) == ext
    decreases |ext|
  {
    var name := stem + "." + ext;
    if ext == [] {
      assert name[|name| - 1] == '.';
    } else {
      assert name[..|name| - 1] == stem + "." + ext[..|ext| - 1];
      AfterLastDotOfJoin(stem, ext[..|ext| - 1]);
      assert ext == ext[..|ext| - 1] + [ext[|ext| - 1]];
    }
  }

  /** The gate accepts `stem.ext` exactly when `ext`, in lower case, is an accepted extension, and refuses a name without a dot. */
  lemma AllowedFileOfJoin(stem: string, ext: string, bare: string)
    requires '.' !in ext && '.' !in bare
    ensures AllowedFile(stem + "." + ext) <==> Lower(ext) in AllowedExtensions
    ensures !AllowedFile(bare)
  {
    AfterLastDotOfJoin(stem, ext);
    assert (stem + "." + ext)[|stem|] == '.';
  }

  datatype Reader = CsvReader | ExcelReader | TabReader | NoReader

  predicate EndsWith(s: string, suffix: string) {
    |suffix| <= |s| && s[|s| - |suffix|..] == suffix
  }

  /** The reader picked by the (case-sensitive) `endswith` tests on the saved name. */
  function ReaderFor(name: string): Reader {
    if EndsWith(name, ".csv") then CsvReader
    else if EndsWith(name, ".xls") || EndsWith(name, ".xlsx") then ExcelReader
    else if EndsWith(name, ".txt") then TabReader
    else NoReader
  }

  /**
   * A lower-case accepted extension always finds its reader, but the gate
   * lower-cases and the dispatch does not: `STOCK.CSV` passes the gate and is
   * then refused as an unsupported format.
   */
  lemma ReaderForExtensions(stem: string)
    ensures ReaderFor(stem + ".csv") == CsvReader
    ensures ReaderFor(stem + ".xls") == ExcelReader && ReaderFor(stem + ".xlsx") == ExcelReader
    ensures ReaderFor(stem + ".txt") == TabReader
    ensures AllowedFile("STOCK.CSV") && ReaderFor("STOCK.CSV") == NoReader
  {
    var n := stem + ".csv";
    assert n[|n| - 4..] == ".csv";
    n := stem + ".xls";
    assert n[|n| - 4..] == ".xls";
    assert !EndsWith(n, ".csv") by { assert n[|n| - 1] == 's'; }
    n := stem + ".xlsx";
    assert n[|n| - 5..] == ".xlsx";
    assert !EndsWith(n, ".csv") && !EndsWith(n, ".xls") by { assert n[|n| - 1] == 'x'; }
    n := stem + ".txt";
    assert n[|n| - 4..] == ".txt";
    assert !EndsWith(n, ".csv") && !EndsWith(n, ".xls") && !EndsWith(n, ".xlsx") by { assert n[|n| - 1] == 't'; }
    AllowedFileOfJoin("STOCK", "CSV", "");
    assert "STOCK" + "." + "CSV" == "STOCK.CSV";
    assert Lower("CSV") == "csv";
  }

  // ---------------------------------------------------------------------------
  // Column-name normalisation
  // ---------------------------------------------------------------------------

  /** The characters of the class `[0-9a-zA-Z_]`. */
  predicate IsWordChar(c: char) {
    ('0' <= c <= '9') || ('a' <= c <= 'z') || ('A' <= c <= 'Z') || c == '_'
  }

  predicate IsUnderscore(c: char) {
    c == '_'
  }

  predicate WordOnly(s: string) {
    forall i | 0 <= i < |s| :: IsWordChar(s[i])
  }

  predicate NoDoubleUnderscore(s: string) {
    forall i | 0 <= i < |s| - 1 :: !(s[i] == '_' && s[i + 1] == '_')
  }

  /** A column name the normalisation produces: word characters only, no `__`, no `_` at either end. */
  predicate IsNormalColumn(s: string) {
    WordOnly(s) && NoDoubleUnderscore(s) && (s == [] || (s[0] != '_' && s[|s| - 1] != '_'))
  }

  /** `re.sub('[^0-9a-zA-Z_]', '_', s)`. */
  function ReplaceNonWord(s: string): string {
    seq(|s|, i requires 0 <= i < |s| => if IsWordChar(s[i]) then s[i] else '_')
  }

  /** `re.sub('_{2,}', '_', s)`: every run of underscores shrinks to one. */
  function CollapseUnderscores(s: string): string
    decreases |s|
  {
    if |s| <= 1 then s
    else if s[0] == '_' && s[1] == '_' then CollapseUnderscores(s[1..])
    else [s[0]] + CollapseUnderscores(s[1..])
  }

  /** The header cleaning chain: `strip()`, non-word characters to `_`, runs of `_` collapsed, `strip('_')`. */
  function NormalizeColumn(s: string): string {
    Strip(CollapseUnderscores(ReplaceNonWord(Trim(s))), IsUnderscore)
  }

  lemma {:induction false} CollapseFacts(s: string)
    ensures var r := CollapseUnderscores(s);
      && (forall c | c in r :: c in s)
      && NoDoubleUnderscore(r)
      && (|s| > 0 ==> |r| > 0 && r[0] == s[0])
    decreases |s|
  {
    if |s| > 1 {
      CollapseFacts(s[1..]);
      var t := CollapseUnderscores(s[1..]);
      forall c | c in t ensures c in s {
        var i :| 0 <= i < |t| && t[i] == c;
        assert c in s[1..];
      }
    }
  }

  lemma {:induction false} CollapseNoop(s: string)
    requires NoDoubleUnderscore(s)
    ensures CollapseUnderscores(s) == s
    decreases |s|
  {
    if |s| > 1 {
      assert !(s[0] == '_' && s[1] == '_');
      CollapseNoop(s[1..]);
      assert s == [s[0]] + s[1..];
    }
  }

  /** Every normalised name is word characters only, has no `__` and no `_` at either end. */
  lemma NormalizeIsNormal(s: string)
    ensures IsNormalColumn(NormalizeColumn(s))
  {
    var t := ReplaceNonWord(Trim(s));
    var c := CollapseUnderscores(t);
    CollapseFacts(t);
    assert WordOnly(c) by {
      forall i | 0 <= i < |c| ensures IsWordChar(c[i]) {
        assert c[i] in t;
      }
    }
    StripSlice(c, IsUnderscore);
  }

  /** A name already in normal form is left unchanged. */
  lemma NormalizeFixesNormal(s: string)
    requires IsNormalColumn(s)
    ensures NormalizeColumn(s) == s
  {
    if s != [] {
      assert !IsSpace(s[0]) && !IsSpace(s[|s| - 1]) by {
        assert IsWordChar(s[0]) && IsWordChar(s[|s| - 1]);
      }
    }
    StripNoop(s, IsSpace);
    assert ReplaceNonWord(s) == s;
    CollapseNoop(s);
    StripNoop(s, IsUnderscore);
  }

  /** Normalising twice is normalising once. */
  lemma NormalizeIdempotent(s: string)
    ensures NormalizeColumn(NormalizeColumn(s)) == NormalizeColumn(s)
  {
    NormalizeIsNormal(s);
    NormalizeFixesNormal(NormalizeColumn(s));
  }

  // ---------------------------------------------------------------------------
  // Frames, schema filter and coercion
  // ---------------------------------------------------------------------------

  /** One value of a data frame or a table: missing (`NaN`/`None`/`NULL`), an integer, a boolean or a string. */
  datatype Cell = Null | Num(n: int) | Flag(b: bool) | Text(s: string)

  /** A data frame: column labels and rows of cells, one per column position. */
  datatype Frame = Frame(columns: seq<string>, rows: seq<seq<Cell>>)

  /** `[c for c in columns if c in known]`. */
  function KeepColumns(columns: seq<string>, known: seq<string>): (r: seq<string>)
    ensures forall c :: c in r <==> c in columns && c in known
  {
    if columns == [] then []
    else (if columns[0] in known then [columns[0]] else []) + KeepColumns(columns[1..], known)
  }

  /** The kept columns keep the file's order: filtering a concatenation is concatenating the filtered parts. */
  lemma {:induction false} KeepColumnsAppend(a: seq<string>, b: seq<string>, known: seq<string>)
    ensures KeepColumns(a + b, known) == KeepColumns(a, known) + KeepColumns(b, known)
    decreases |a|
  {
    if a != [] {
      assert (a + b)[1..] == a[1..] + b;
      KeepColumnsAppend(a[1..], b, known);
    } else {
      assert a + b == b;
    }
  }

  /** `df[keep_cols]`: the positions whose label is a schema field, in order. */
  function SelectPositions(columns: seq<string>, known: seq<string>, from: nat): (r: seq<nat>)
    requires from <= |columns|
    ensures forall k | 0 <= k < |r| :: from <= r[k] < |columns|
    decreases |columns| - from
  {
    if from == |columns| then []
    else if columns[from] in known then [from] + SelectPositions(columns, known, from + 1)
    else SelectPositions(columns, known, from + 1)
  }

  function CellAt(row: seq<Cell>, j: nat): Cell {
    if j < |row| then row[j] else Null
  }

  /** The labels at the given positions. */
  function Labels(columns: seq<string>, ps: seq<nat>): (r: seq<string>)
    requires forall k | 0 <= k < |ps| :: ps[k] < |columns|
    ensures |r| == |ps|
  {
    if ps == [] then [] else [columns[ps[0]]] + Labels(columns, ps[1..])
  }

  /** The positions picked by `df[keep_cols]` carry exactly the kept labels, in file order. */
  lemma {:induction false} SelectedLabels(columns: seq<string>, known: seq<string>, from: nat)
    requires from <= |columns|
    ensures Labels(columns, SelectPositions(columns, known, from)) == KeepColumns(columns[from..], known)
    decreases |columns| - from
  {
    if from < |columns| {
      var rest := SelectPositions(columns, known, from + 1);
      SelectedLabels(columns, known, from + 1);
      var tail := columns[from..];
      assert tail[0] == columns[from] && tail[1..] == columns[from + 1..];
      if columns[from] in known {
        assert ([from] + rest)[1..] == rest;
      }
    }
  }

  /** `df[keep_cols]`: a rectangular frame holding the kept columns, row for row. */
  function SelectColumns(f: Frame, known: seq<string>): (g: Frame)
    ensures WellFormed(g) && |g.rows| == |f.rows|
    ensures g.columns == KeepColumns(f.columns, known)
  {
    var ps := SelectPositions(f.columns, known, 0);
    SelectedLabels(f.columns, known, 0);
    assert f.columns[0..] == f.columns;
    Frame(Labels(f.columns, ps),
          seq(|f.rows|, i requires 0 <= i < |f.rows| => seq(|ps|, k requires 0 <= k < |ps| => CellAt(f.rows[i], ps[k]))))
  }

  /** `replace('', NaN)` then `pd.to_numeric(errors='coerce')`, with `parse` the number parser. */
  function ToNumeric(c: Cell, parse: string -> Option<int>): (r: Cell)
    ensures !r.Text?
  {
    match c
    case Null => Null
    case Num(n) => Num(n)
    case Flag(b) => Flag(b)
    case Text(s) =>
      if s == "" then Null
      else match parse(s)
        case Some(n) => Num(n)
        case None => Null
  }

  /** Coercing an already numeric cell changes nothing. */
  lemma ToNumericIdempotent(c: Cell, parse: string -> Option<int>)
    ensures ToNumeric(ToNumeric(c, parse), parse) == ToNumeric(c, parse)
  {
  }

  /** `fillna("").astype(str)`. */
  function Stringify(c: Cell): (r: Cell)
    ensures r.Text?
  {
    match c
    case Null => Text("")
    case Num(n) => Text(IntText(n))
    case Flag(b) => Text(if b then "True" else "False")
    case Text(s) => Text(s)
  }

  /** A pandas frame is rectangular: every row has one cell per column label. */
  predicate WellFormed(f: Frame) {
    forall i | 0 <= i < |f.rows| :: |f.rows[i]| == |f.columns|
  }

  /** A boolean read as a number, as numpy does once the column holds a number or a gap too. */
  function AsNumber(c: Cell): (r: Cell)
    ensures !r.Flag?
  {
    if c.Flag? then Num(if c.b then 1 else 0) else c
  }

  /** Position `j` of every row. */
  function ColumnAt(rows: seq<seq<Cell>>, j: nat): (col: seq<Cell>)
    requires forall i | 0 <= i < |rows| :: j < |rows[i]|
    ensures |col| == |rows| && forall i | 0 <= i < |rows| :: col[i] == rows[i][j]
  {
    seq(|rows|, i requires 0 <= i < |rows| => rows[i][j])
  }

  /**
   * `pd.to_numeric(errors='coerce')` on a whole column: every cell is coerced,
   * and the booleans stay booleans only when the column holds nothing else;
   * beside a number or a gap they become 1 and 0.
   */
  function NumericColumn(col: seq<Cell>, parse: string -> Option<int>): (r: seq<Cell>)
    ensures |r| == |col|
  {
    var coerced := seq(|col|, i requires 0 <= i < |col| => ToNumeric(col[i], parse));
    if forall i | 0 <= i < |coerced| :: coerced[i].Flag? then coerced
    else seq(|coerced|, i requires 0 <= i < |coerced| => AsNumber(coerced[i]))
  }

  /**
   * A coerced column holds no string, and holds booleans only or none: every
   * other cell is coerced as on its own, and a boolean is kept or becomes 1
   * or 0.
   */
  lemma NumericColumnMeaning(col: seq<Cell>, parse: string -> Option<int>)
    ensures var r := NumericColumn(col, parse);
      && (forall i | 0 <= i < |col| :: !col[i].Flag? ==> r[i] == ToNumeric(col[i], parse))
      && (forall i | 0 <= i < |col| :: col[i].Flag? ==> r[i] == col[i] || r[i] == Num(if col[i].b then 1 else 0))
      && (forall i | 0 <= i < |r| :: !r[i].Text?)
      && ((forall i | 0 <= i < |r| :: r[i].Flag?) || (forall i | 0 <= i < |r| :: !r[i].Flag?))
  {
  }

  /** Coercing an already coerced column changes nothing. */
  lemma NumericColumnIdempotent(col: seq<Cell>, parse: string -> Option<int>)
    ensures NumericColumn(NumericColumn(col, parse), parse) == NumericColumn(col, parse)
  {
    var r := NumericColumn(col, parse);
    NumericColumnMeaning(col, parse);
    var coerced := seq(|r|, k requires 0 <= k < |r| => ToNumeric(r[k], parse));
    assert coerced == r;
    if forall k | 0 <= k < |r| :: r[k].Flag? {
    } else {
      assert forall k | 0 <= k < |r| :: AsNumber(r[k]) == r[k];
    }
  }

  /** pandas gives a column the `object` dtype when it holds a string, or a boolean beside a number or a gap. */
  predicate IsObjectColumn(rows: seq<seq<Cell>>, j: nat) {
    || (exists i | 0 <= i < |rows| :: j < |rows[i]| && rows[i][j].Text?)
    || ((exists i | 0 <= i < |rows| :: j < |rows[i]| && rows[i][j].Flag?)
        && (exists i | 0 <= i < |rows| :: j < |rows[i]| && !rows[i][j].Flag?))
  }

  /** What a cell becomes in the first coercion loop. */
  function ParsedCell(f: Frame, numeric: seq<string>, i: nat, j: nat, parse: string -> Option<int>): Cell
    requires WellFormed(f) && i < |f.rows| && j < |f.columns|
  {
    if f.columns[j] in numeric then NumericColumn(ColumnAt(f.rows, j), parse)[i] else f.rows[i][j]
  }

  /** What a cell becomes once every numeric schema field has been parsed and every `object` column has had its gaps filled. */
  function CoercedCell(f: Frame, numeric: seq<string>, i: nat, j: nat, parse: string -> Option<int>): Cell
    requires WellFormed(f) && i < |f.rows| && j < |f.columns|
  {
    if f.columns[j] in numeric then ParsedCell(f, numeric, i, j, parse)
    else if IsObjectColumn(f.rows, j) then Stringify(f.rows[i][j])
    else f.rows[i][j]
  }

  function Coerced(f: Frame, numeric: seq<string>, parse: string -> Option<int>): Frame
    requires WellFormed(f)
  {
    Frame(f.columns,
          seq(|f.rows|, i requires 0 <= i < |f.rows| =>
            seq(|f.columns|, j requires 0 <= j < |f.columns| => CoercedCell(f, numeric, i, j, parse))))
  }

  /** `df[col] = pd.to_numeric(df[col])` for the position labelled `col`. */
  function MapLabel(rows: seq<seq<Cell>>, columns: seq<string>, col: string, parse: string -> Option<int>): (r: seq<seq<Cell>>)
    requires forall i | 0 <= i < |rows| :: |rows[i]| == |columns|
    ensures |r| == |rows| && forall i | 0 <= i < |r| :: |r[i]| == |columns|
  {
    seq(|rows|, i requires 0 <= i < |rows| =>
      seq(|columns|, j requires 0 <= j < |columns| =>
        if columns[j] == col then NumericColumn(ColumnAt(rows, j), parse)[i] else rows[i][j]))
  }

  function MapPosition(rows: seq<seq<Cell>>, j: nat): (r: seq<seq<Cell>>)
    ensures |r| == |rows| && forall i | 0 <= i < |rows| :: |r[i]| == |rows[i]|
  {
    seq(|rows|, i requires 0 <= i < |rows| =>
      if j < |rows[i]| then rows[i][j := Stringify(rows[i][j])] else rows[i])
  }

  /** The message of the TypeError `pd.to_numeric` raises when it is handed a frame instead of a column. */
  const NumericColumnError: string := "arg must be a list, tuple, 1-d array, or Series"

  /** A numeric schema field labels two columns or more, so `df[col]` is a frame and `pd.to_numeric` raises. */
  predicate RepeatsNumericField(columns: seq<string>, numeric: seq<string>) {
    exists n | n in numeric :: multiset(columns)[n] >= 2
  }

  /**
   * The first coercion loop: every numeric schema field present in the frame
   * is parsed and the other cells are kept; a field that labels two columns
   * raises instead.
   */
  method ParseNumericFields(f: Frame, numeric: seq<string>, parse: string -> Option<int>) returns (r: Result<seq<seq<Cell>>, string>)
    requires WellFormed(f)
    ensures r.Err? <==> RepeatsNumericField(f.columns, numeric)
    ensures r.Err? ==> r.error == NumericColumnError
    ensures r.Ok? ==> ColumnsParsed(f, r.value, numeric, parse)
  {
    var rows := f.rows;
    for k := 0 to |numeric|
      invariant ColumnsParsed(f, rows, numeric[..k], parse)
      invariant !RepeatsNumericField(f.columns, numeric[..k])
    {
      var col := numeric[k];
      RepeatsStep(f.columns, numeric, k);
      if multiset(f.columns)[col] >= 2 {
        return Err(NumericColumnError);
      }
      ParseStep(f, rows, numeric, k, parse);
      if col in f.columns {
        rows := MapLabel(rows, f.columns, col, parse);
      }
    }
    assert numeric[..|numeric|] == numeric;
    return Ok(rows);
  }

  /** Whether the fields up to `k` repeat is decided one field at a time. */
  lemma RepeatsStep(columns: seq<string>, numeric: seq<string>, k: nat)
    requires k < |numeric|
    ensures RepeatsNumericField(columns, numeric[..k + 1])
      <==> RepeatsNumericField(columns, numeric[..k]) || multiset(columns)[numeric[k]] >= 2
    ensures multiset(columns)[numeric[k]] >= 2 ==> RepeatsNumericField(columns, numeric)
  {
    assert numeric[..k + 1] == numeric[..k] + [numeric[k]];
    assert numeric[k] in numeric;
  }

  /** `rows` has the shape of `f`, and its columns are those of `f` with the fields in `done` coerced. */
  predicate ColumnsParsed(f: Frame, rows: seq<seq<Cell>>, done: seq<string>, parse: string -> Option<int>) {
    && WellFormed(f) && |rows| == |f.rows| && (forall i | 0 <= i < |rows| :: |rows[i]| == |f.columns|)
    && forall j | 0 <= j < |f.columns| ::
      ColumnAt(rows, j) == if f.columns[j] in done then NumericColumn(ColumnAt(f.rows, j), parse) else ColumnAt(f.rows, j)
  }

  /** One pass of the first coercion loop coerces one more field, when the frame holds it. */
  lemma ParseStep(f: Frame, rows: seq<seq<Cell>>, numeric: seq<string>, k: nat, parse: string -> Option<int>)
    requires k < |numeric| && ColumnsParsed(f, rows, numeric[..k], parse)
    ensures var col := numeric[k];
      ColumnsParsed(f, if col in f.columns then MapLabel(rows, f.columns, col, parse) else rows, numeric[..k + 1], parse)
  {
    var col := numeric[k];
    var done := numeric[..k];
    assert numeric[..k + 1] == done + [col];
    var next := if col in f.columns then MapLabel(rows, f.columns, col, parse) else rows;
    forall j | 0 <= j < |f.columns|
      ensures ColumnAt(next, j) == if f.columns[j] in done + [col] then NumericColumn(ColumnAt(f.rows, j), parse) else ColumnAt(f.rows, j)
    {
      if f.columns[j] == col {
        MapLabelColumn(rows, f.columns, col, parse, j);
        NumericColumnIdempotent(ColumnAt(f.rows, j), parse);
      } else if col in f.columns {
        MapLabelColumn(rows, f.columns, col, parse, j);
      }
    }
  }

  /** `MapLabel` coerces the column labelled `col` and keeps the others. */
  lemma MapLabelColumn(rows: seq<seq<Cell>>, columns: seq<string>, col: string, parse: string -> Option<int>, j: nat)
    requires forall i | 0 <= i < |rows| :: |rows[i]| == |columns|
    requires j < |columns|
    ensures ColumnAt(MapLabel(rows, columns, col, parse), j)
      == if columns[j] == col then NumericColumn(ColumnAt(rows, j), parse) else ColumnAt(rows, j)
  {
  }

  /** Once every field is coerced, each cell is `ParsedCell`. */
  lemma ParsedCells(f: Frame, rows: seq<seq<Cell>>, numeric: seq<string>, parse: string -> Option<int>)
    requires ColumnsParsed(f, rows, numeric, parse)
    ensures |rows| == |f.rows| && forall i | 0 <= i < |rows| :: |rows[i]| == |f.columns|
    ensures forall i, j | 0 <= i < |rows| && 0 <= j < |f.columns| :: rows[i][j] == ParsedCell(f, numeric, i, j, parse)
  {
    forall i, j | 0 <= i < |rows| && 0 <= j < |f.columns|
      ensures rows[i][j] == ParsedCell(f, numeric, i, j, parse)
    {
      assert rows[i][j] == ColumnAt(rows, j)[i];
    }
  }

  /**
   * The second coercion loop: `select_dtypes(include=["object"])` is evaluated
   * once, then every column it named has its gaps filled and its values
   * turned to text.
   */
  method StringifyObjectColumns(parsed: seq<seq<Cell>>, width: nat) returns (rows: seq<seq<Cell>>)
    requires forall i | 0 <= i < |parsed| :: |parsed[i]| == width
    ensures |rows| == |parsed| && forall i | 0 <= i < |rows| :: |rows[i]| == width
    ensures forall i, m | 0 <= i < |rows| && 0 <= m < width ::
      rows[i][m] == if IsObjectColumn(parsed, m) then Stringify(parsed[i][m]) else parsed[i][m]
  {
    var isObject := seq(width, j requires 0 <= j < width => IsObjectColumn(parsed, j));
    rows := parsed;
    for j := 0 to width
      invariant |rows| == |parsed|
      invariant forall i | 0 <= i < |rows| :: |rows[i]| == width
      invariant forall i, m {:trigger rows[i][m]} | 0 <= i < |rows| && 0 <= m < |rows[i]| ::
        rows[i][m] == if m < j && isObject[m] then Stringify(parsed[i][m]) else parsed[i][m]
    {
      var before := rows;
      if isObject[j] {
        rows := MapPosition(rows, j);
      }
      forall i | 0 <= i < |rows| && isObject[j]
        ensures rows[i] == before[i][j := Stringify(before[i][j])]
      {
      }
    }
  }

  /**
   * The two coercion loops: every numeric schema field present in the frame
   * is parsed (unparsable and empty text become missing), then every column
   * pandas types as `object` has its gaps filled with `""` and its values
   * turned to text. A numeric field that labels two columns raises.
   */
  method CoerceFrame(f: Frame, numeric: seq<string>, parse: string -> Option<int>) returns (g: Result<Frame, string>)
    requires WellFormed(f)
    ensures RepeatsNumericField(f.columns, numeric) ==> g == Err(NumericColumnError)
    ensures !RepeatsNumericField(f.columns, numeric) ==> g == Ok(Coerced(f, numeric, parse))
  {
    var r := ParseNumericFields(f, numeric, parse);
    if r.Err? {
      return Err(r.error);
    }
    var parsed := r.value;
    ParsedCells(f, parsed, numeric, parse);
    var rows := StringifyObjectColumns(parsed, |f.columns|);
    var spec := Coerced(f, numeric, parse);
    forall i | 0 <= i < |rows|
      ensures rows[i] == spec.rows[i]
    {
      forall j | 0 <= j < |f.columns|
        ensures rows[i][j] == CoercedCell(f, numeric, i, j, parse)
      {
        ObjectColumnsAfterParsing(f, numeric, parse, parsed, j);
      }
    }
    assert rows == spec.rows;
    return Ok(Frame(f.columns, rows));
  }

  /**
   * After the numeric pass a column is typed `object` exactly when it is not
   * a numeric field and was typed `object` before: a parsed numeric field
   * holds no string and mixes no boolean with anything else.
   */
  lemma ObjectColumnsAfterParsing(f: Frame, numeric: seq<string>, parse: string -> Option<int>, parsed: seq<seq<Cell>>, j: nat)
    requires WellFormed(f) && |parsed| == |f.rows|
    requires forall i | 0 <= i < |parsed| :: |parsed[i]| == |f.columns|
    requires forall i, m | 0 <= i < |parsed| && 0 <= m < |f.columns| :: parsed[i][m] == ParsedCell(f, numeric, i, m, parse)
    requires j < |f.columns|
    ensures IsObjectColumn(parsed, j) <==> f.columns[j] !in numeric && IsObjectColumn(f.rows, j)
  {
    if f.columns[j] in numeric {
      var col := NumericColumn(ColumnAt(f.rows, j), parse);
      NumericColumnMeaning(ColumnAt(f.rows, j), parse);
      forall i | 0 <= i < |parsed| ensures parsed[i][j] == col[i] {
        assert parsed[i][j] == ParsedCell(f, numeric, i, j, parse);
      }
      assert forall i | 0 <= i < |parsed| :: !parsed[i][j].Text?;
      assert (forall i | 0 <= i < |parsed| :: parsed[i][j].Flag?) || (forall i | 0 <= i < |parsed| :: !parsed[i][j].Flag?);
    } else {
      assert forall i | 0 <= i < |parsed| :: parsed[i][j] == f.rows[i][j] by {
        forall i | 0 <= i < |parsed| ensures parsed[i][j] == f.rows[i][j] {
          assert parsed[i][j] == ParsedCell(f, numeric, i, j, parse);
        }
      }
    }
  }

  /**
   * After coercion, a numeric field holds no string and keeps booleans only
   * when it holds nothing else; every other column typed `object` holds
   * nothing but strings, and the rest are unchanged; the labels and the
   * number of rows do not change.
   */
  lemma CoercedTypes(f: Frame, numeric: seq<string>, parse: string -> Option<int>, i: nat, j: nat)
    requires WellFormed(f) && i < |f.rows| && j < |f.columns|
    ensures var g := Coerced(f, numeric, parse);
      && g.columns == f.columns && |g.rows| == |f.rows| && |g.rows[i]| == |f.rows[i]|
      && (f.columns[j] in numeric ==> !g.rows[i][j].Text?)
      && (f.columns[j] in numeric && g.rows[i][j].Flag? ==> forall k | 0 <= k < |g.rows| :: g.rows[k][j].Flag?)
      && (f.columns[j] !in numeric && IsObjectColumn(f.rows, j) ==> g.rows[i][j].Text?)
      && (f.columns[j] !in numeric && !IsObjectColumn(f.rows, j) ==> g.rows[i][j] == f.rows[i][j])
  {
    var g := Coerced(f, numeric, parse);
    if f.columns[j] in numeric {
      var col := NumericColumn(ColumnAt(f.rows, j), parse);
      NumericColumnMeaning(ColumnAt(f.rows, j), parse);
      assert forall k | 0 <= k < |g.rows| :: g.rows[k][j] == col[k];
    }
  }

  /**
   * A column outside the numeric fields that holds a boolean and a gap is
   * typed `object`, so the boolean becomes `"True"` or `"False"` and the gap
   * becomes `""`.
   */
  lemma BooleanWithGapBecomesText(f: Frame, numeric: seq<string>, parse: string -> Option<int>, a: nat, b: nat, j: nat)
    requires WellFormed(f) && a < |f.rows| && b < |f.rows| && j < |f.columns|
    requires f.columns[j] !in numeric && f.rows[a][j].Flag? && f.rows[b][j].Null?
    ensures var g := Coerced(f, numeric, parse);
      && g.rows[a][j] == Text(if f.rows[a][j].b then "True" else "False")
      && g.rows[b][j] == Text("")
  {
    assert IsObjectColumn(f.rows, j);
  }

  // ---------------------------------------------------------------------------
  // CSV encoding and delimiter fallback
  // ---------------------------------------------------------------------------

  const Encodings: seq<string> := ["utf-16", "utf-8-sig", "cp1252", "latin1"]

  /** What `pd.read_csv(path, sep, encoding)` does: a frame, or the message of the exception it raises. */
  type CsvOracle = (string, char) -> Result<Frame, string>

  /** The outcome of one encoding: a frame with more than one column, an exception, or neither. */
  datatype Attempt = Accepted(frame: Frame) | Raised(message: string) | Rejected

  /** One pass of the loop: `;` first, and `,` only if `;` produced exactly one column. */
  function TryEncoding(read: CsvOracle, enc: string): (r: Attempt)
    ensures r.Accepted? ==> |r.frame.columns| > 1
  {
    match read(enc, ';')
    case Err(e) => Raised(e)
    case Ok(f) =>
      if |f.columns| == 1 then
        match read(enc, ',')
        case Err(e) => Raised(e)
        case Ok(g) => if |g.columns| > 1 then Accepted(g) else Rejected
      else if |f.columns| > 1 then Accepted(f)
      else Rejected
  }

  /** The comma is never tried when the semicolon read gave anything but a single column. */
  lemma CommaOnlyAfterOneColumn(read1: CsvOracle, read2: CsvOracle, enc: string)
    requires read1(enc, ';') == read2(enc, ';')
    requires !(read1(enc, ';').Ok? && |read1(enc, ';').value.columns| == 1)
    ensures TryEncoding(read1, enc) == TryEncoding(read2, enc)
  {
  }

  /** The first encoding whose attempt is accepted. */
  function FirstAccepted(read: CsvOracle, encs: seq<string>): (r: Option<nat>)
    ensures r.Some? ==> r.value < |encs| && TryEncoding(read, encs[r.value]).Accepted?
    ensures r.Some? ==> forall i | 0 <= i < r.value :: !TryEncoding(read, encs[i]).Accepted?
    ensures r.None? ==> forall i | 0 <= i < |encs| :: !TryEncoding(read, encs[i]).Accepted?
  {
    if encs == [] then None
    else if TryEncoding(read, encs[0]).Accepted? then Some(0)
    else match FirstAccepted(read, encs[1..])
      case Some(k) => Some(k + 1)
      case None => None
  }

  /** The message of the last encoding whose attempt raised. */
  function LastRaised(read: CsvOracle, encs: seq<string>): (r: Option<string>)
    ensures r.Some? ==> exists k | 0 <= k < |encs| ::
      (TryEncoding(read, encs[k]) == Raised(r.value) && forall i | k < i < |encs| :: !TryEncoding(read, encs[i]).Raised?)
    ensures r.None? ==> forall i | 0 <= i < |encs| :: !TryEncoding(read, encs[i]).Raised?
  {
    if encs == [] then None
    else
      var a := TryEncoding(read, encs[|encs| - 1]);
      if a.Raised? then Some(a.message)
      else
        var r := LastRaised(read, encs[..|encs| - 1]);
        assert forall i | 0 <= i < |encs| - 1 :: encs[..|encs| - 1][i] == encs[i];
        r
  }

  datatype CsvRead = CsvOk(frame: Frame, encoding: string) | CsvFail(lastError: Option<string>)

  /** The CSV reader's decision over all four encodings. */
  function CsvDecision(read: CsvOracle): CsvRead {
    match FirstAccepted(read, Encodings)
    case Some(k) => CsvOk(TryEncoding(read, Encodings[k]).frame, Encodings[k])
    case None => CsvFail(LastRaised(read, Encodings))
  }

  /** The loop over the encodings, as `param_import` runs it. */
  method ReadCsv(read: CsvOracle) returns (r: CsvRead)
    ensures r == CsvDecision(read)
  {
    var lastErr: Option<string> := None;
    var k := 0;
    while k < |Encodings|
      invariant 0 <= k <= |Encodings|
      invariant forall i | 0 <= i < k :: !TryEncoding(read, Encodings[i]).Accepted?
      invariant lastErr == LastRaised(read, Encodings[..k])
    {
      var enc := Encodings[k];
      assert Encodings[..k + 1][..k] == Encodings[..k];
      var attempt := read(enc, ';');
      if attempt.Ok? && |attempt.value.columns| == 1 {
        attempt := read(enc, ',');
      }
      if attempt.Err? {
        lastErr := Some(attempt.error);
      } else if |attempt.value.columns| > 1 {
        FirstAcceptedAt(read, Encodings, k);
        return CsvOk(attempt.value, enc);
      }
      k := k + 1;
    }
    assert Encodings[..k] == Encodings;
    return CsvFail(lastErr);
  }

  lemma FirstAcceptedAt(read: CsvOracle, encs: seq<string>, k: nat)
    requires k < |encs| && TryEncoding(read, encs[k]).Accepted?
    requires forall i | 0 <= i < k :: !TryEncoding(read, encs[i]).Accepted?
    ensures FirstAccepted(read, encs) == Some(k)
  {
  }

  /**
   * The reader's promise: a frame read with the first accepted encoding has
   * more than one column and no earlier encoding was accepted; a failure
   * means no encoding was accepted and carries the last exception raised,
   * if any.
   */
  lemma CsvDecisionMeaning(read: CsvOracle)
    ensures var d := CsvDecision(read);
      && (d.CsvOk? ==> (|d.frame.columns| > 1
            && exists k | 0 <= k < |Encodings| :: (Encodings[k] == d.encoding
                 && TryEncoding(read, Encodings[k]) == Accepted(d.frame)
                 && forall i | 0 <= i < k :: !TryEncoding(read, Encodings[i]).Accepted?)))
      && (d.CsvFail? ==> forall i | 0 <= i < |Encodings| :: !TryEncoding(read, Encodings[i]).Accepted?)
      && (d.CsvFail? && d.lastError.None? ==> forall i | 0 <= i < |Encodings| :: TryEncoding(read, Encodings[i]) == Rejected)
  {
    var d := CsvDecision(read);
    if d.CsvOk? {
      var k := FirstAccepted(read, Encodings).value;
      assert Encodings[k] == d.encoding;
    }
  }
}

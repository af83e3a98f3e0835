/**
 * The location table (TblEmplacement) and the two rules that reconcile an
 * imported batch with it (`sync_tbl_emplacement_background` in app.py): the
 * cleaning of the batch and the conditional MERGE that upserts it.
 *
 * A table is a sequence of rows, each row a record from column name to cell;
 * a column a row does not hold reads as NULL.
 */
module Locations {
  import opened Wrappers
  import opened Text
  import opened Importer

  /** The columns of TblEmplacement the core reads or writes; any other column is `Other`. */
  datatype Column =
    | Zone | Allee | Deplacement | Niveau
    | PoidsLimiteTotal | Hauteur | Largeur | Profondeur | PoidsLimiteUnitaire | X | Y | Z
    | Type1 | Type2 | Type3 | Palette
    | Other(name: string)

  function Name(c: Column): string {
    match c
    case Zone => "Zone"
    case Allee => "Allee"
    case Deplacement => "Deplacement"
    case Niveau => "Niveau"
    case PoidsLimiteTotal => "PoidsLimiteTotal"
    case Hauteur => "Hauteur"
    case Largeur => "Largeur"
    case Profondeur => "Profondeur"
    case PoidsLimiteUnitaire => "PoidsLimiteUnitaire"
    case X => "X"
    case Y => "Y"
    case Z => "Z"
    case Type1 => "Type1"
    case Type2 => "Type2"
    case Type3 => "Type3"
    case Palette => "Palette"
    case Other(n) => n
  }

  /** The column a label names. */
  function ColumnOf(heading: string): (c: Column)
    ensures Name(c) == heading
  {
    if heading == "Zone" then Zone
    else if heading == "Allee" then Allee
    else if heading == "Deplacement" then Deplacement
    else if heading == "Niveau" then Niveau
    else if heading == "PoidsLimiteTotal" then PoidsLimiteTotal
    else if heading == "Hauteur" then Hauteur
    else if heading == "Largeur" then Largeur
    else if heading == "Profondeur" then Profondeur
    else if heading == "PoidsLimiteUnitaire" then PoidsLimiteUnitaire
    else if heading == "X" then X
    else if heading == "Y" then Y
    else if heading == "Z" then Z
    else if heading == "Type1" then Type1
    else if heading == "Type2" then Type2
    else if heading == "Type3" then Type3
    else if heading == "Palette" then Palette
    else Other(heading)
  }

  /** A heading determines its column: two headings name the same column only when they are equal. */
  lemma ColumnOfInjective(a: string, b: string)
    ensures ColumnOf(a) == ColumnOf(b) <==> a == b
  {
  }

  /** A location row: the sixteen columns the core names, and the others by label. */
  datatype Row = Row(
    zone: Cell, allee: Cell, deplacement: Cell, niveau: Cell,
    poidsLimiteTotal: Cell, hauteur: Cell, largeur: Cell, profondeur: Cell, poidsLimiteUnitaire: Cell,
    x: Cell, y: Cell, z: Cell,
    type1: Cell, type2: Cell, type3: Cell, palette: Cell,
    others: map<string, Cell>)

  /** The row with every column NULL. */
  const EmptyRow: Row :=
    Row(Null, Null, Null, Null, Null, Null, Null, Null, Null, Null, Null, Null, Null, Null, Null, Null, map[])

  /** The cell of column `c`; a column the row does not hold reads as NULL. */
  function Get(r: Row, c: Column): Cell {
    match c
    case Zone => r.zone
    case Allee => r.allee
    case Deplacement => r.deplacement
    case Niveau => r.niveau
    case PoidsLimiteTotal => r.poidsLimiteTotal
    case Hauteur => r.hauteur
    case Largeur => r.largeur
    case Profondeur => r.profondeur
    case PoidsLimiteUnitaire => r.poidsLimiteUnitaire
    case X => r.x
    case Y => r.y
    case Z => r.z
    case Type1 => r.type1
    case Type2 => r.type2
    case Type3 => r.type3
    case Palette => r.palette
    case Other(n) => if n in r.others then r.others[n] else Null
  }

  /** The row with column `c` set to `v`. */
  function Set(r: Row, c: Column, v: Cell): (u: Row)
    ensures Get(u, c) == v
    ensures forall d | d != c :: Get(u, d) == Get(r, d)
  {
    match c
    case Zone => r.(zone := v)
    case Allee => r.(allee := v)
    case Deplacement => r.(deplacement := v)
    case Niveau => r.(niveau := v)
    case PoidsLimiteTotal => r.(poidsLimiteTotal := v)
    case Hauteur => r.(hauteur := v)
    case Largeur => r.(largeur := v)
    case Profondeur => r.(profondeur := v)
    case PoidsLimiteUnitaire => r.(poidsLimiteUnitaire := v)
    case X => r.(x := v)
    case Y => r.(y := v)
    case Z => r.(z := v)
    case Type1 => r.(type1 := v)
    case Type2 => r.(type2 := v)
    case Type3 => r.(type3 := v)
    case Palette => r.(palette := v)
    case Other(n) => r.(others := r.others[n := v])
  }

  /** A frame row as a location row; when a label repeats, the first column wins. */
  function RowOf(columns: seq<string>, cells: seq<Cell>): (r: Row)
    ensures forall j | 0 <= j < |columns| && j < |cells| && (forall i | 0 <= i < j :: columns[i] != columns[j]) ::
      Get(r, ColumnOf(columns[j])) == cells[j]
    decreases |columns|
  {
    if columns == [] || cells == [] then EmptyRow
    else
      var r := Set(RowOf(columns[1..], cells[1..]), ColumnOf(columns[0]), cells[0]);
      assert forall j | 1 <= j < |columns| && j < |cells| && columns[0] != columns[j] ::
        ColumnOf(columns[0]) != ColumnOf(columns[j]) by {
        forall j | 1 <= j < |columns| && j < |cells| && columns[0] != columns[j] ensures ColumnOf(columns[0]) != ColumnOf(columns[j]) {
          ColumnOfInjective(columns[0], columns[j]);
        }
      }
      r
  }

  function RowsOf(f: Frame): (r: seq<Row>)
    ensures |r| == |f.rows|
  {
    seq(|f.rows|, i requires 0 <= i < |f.rows| => RowOf(f.columns, f.rows[i]))
  }

  /** The natural key of a location. */
  const KeyFields: seq<Column> := [Zone, Allee, Deplacement, Niveau]

  /** The key columns a batch with these labels holds, in key order. */
  function PresentKeys(columns: seq<string>): (ks: seq<Column>)
    ensures forall k :: k in ks <==> k in KeyFields && Name(k) in columns
  {
    KeysIn(KeyFields, columns)
  }

  function KeysIn(ks: seq<Column>, columns: seq<string>): (r: seq<Column>)
    ensures forall k :: k in r <==> k in ks && Name(k) in columns
  {
    if ks == [] then []
    else (if Name(ks[0]) in columns then [ks[0]] else []) + KeysIn(ks[1..], columns)
  }

  /** The values of the given key columns, in order. */
  function KeyOf(r: Row, ks: seq<Column>): (k: seq<Cell>)
    ensures |k| == |ks|
  {
    seq(|ks|, i requires 0 <= i < |ks| => Get(r, ks[i]))
  }

  // ---------------------------------------------------------------------------
  // Cleaning
  // ---------------------------------------------------------------------------

  /** `Zone` is missing, or only whitespace once printed. */
  predicate BlankZone(c: Cell) {
    c.Null? || (c.Text? && Trim(c.s) == "")
  }

  function DropBlankZones(rows: seq<Row>): (r: seq<Row>)
    ensures forall x :: x in r <==> x in rows && !BlankZone(Get(x, Zone))
  {
    if rows == [] then []
    else (if BlankZone(Get(rows[0], Zone)) then [] else [rows[0]]) + DropBlankZones(rows[1..])
  }

  predicate HasKey(rows: seq<Row>, ks: seq<Column>, k: seq<Cell>) {
    exists i | 0 <= i < |rows| :: KeyOf(rows[i], ks) == k
  }

  /** `drop_duplicates(subset=ks, keep="last")`: a row survives when no later row has its key. */
  function DedupLast(rows: seq<Row>, ks: seq<Column>): seq<Row> {
    if rows == [] then []
    else if HasKey(rows[1..], ks, KeyOf(rows[0], ks)) then DedupLast(rows[1..], ks)
    else [rows[0]] + DedupLast(rows[1..], ks)
  }

  /** The batch cleaning: rows with a blank `Zone` go, then duplicates on the key columns present, keeping the last. */
  function Clean(rows: seq<Row>, columns: seq<string>): seq<Row> {
    var zoned := if "Zone" in columns then DropBlankZones(rows) else rows;
    var ks := PresentKeys(columns);
    if ks == [] then zoned else DedupLast(zoned, ks)
  }

  /** The position of the last row with key `k`. */
  function LastIndex(rows: seq<Row>, ks: seq<Column>, k: seq<Cell>): (p: nat)
    requires HasKey(rows, ks, k)
    ensures p < |rows| && KeyOf(rows[p], ks) == k
    ensures forall j | p < j < |rows| :: KeyOf(rows[j], ks) != k
  {
    if KeyOf(rows[|rows| - 1], ks) == k then |rows| - 1
    else
      var init := rows[..|rows| - 1];
      assert forall i | 0 <= i < |init| :: init[i] == rows[i];
      LastIndex(init, ks, k)
  }

  /** Only one position can be the last occurrence of a key. */
  lemma LastIndexUnique(rows: seq<Row>, ks: seq<Column>, k: seq<Cell>, p: nat)
    requires p < |rows| && KeyOf(rows[p], ks) == k
    requires forall j | p < j < |rows| :: KeyOf(rows[j], ks) != k
    ensures HasKey(rows, ks, k) && LastIndex(rows, ks, k) == p
  {
  }

  lemma HasKeyAppend(a: seq<Row>, b: seq<Row>, ks: seq<Column>, k: seq<Cell>)
    ensures HasKey(a + b, ks, k) <==> HasKey(a, ks, k) || HasKey(b, ks, k)
  {
    if HasKey(a + b, ks, k) {
      var i :| 0 <= i < |a + b| && KeyOf((a + b)[i], ks) == k;
      if i >= |a| {
        assert b[i - |a|] == (a + b)[i];
      }
    }
    if HasKey(b, ks, k) {
      var i :| 0 <= i < |b| && KeyOf(b[i], ks) == k;
      assert (a + b)[|a| + i] == b[i];
    }
    if HasKey(a, ks, k) {
      var i :| 0 <= i < |a| && KeyOf(a[i], ks) == k;
      assert (a + b)[i] == a[i];
    }
  }

  lemma {:induction false} DedupKeepsRowsAndKeys(rows: seq<Row>, ks: seq<Column>)
    ensures forall x | x in DedupLast(rows, ks) :: x in rows
    ensures forall k :: HasKey(DedupLast(rows, ks), ks, k) <==> HasKey(rows, ks, k)
  {
    if rows != [] {
      var tail := DedupLast(rows[1..], ks);
      DedupKeepsRowsAndKeys(rows[1..], ks);
      assert rows == [rows[0]] + rows[1..];
      forall k ensures HasKey(DedupLast(rows, ks), ks, k) <==> HasKey(rows, ks, k) {
        HasKeyAppend([rows[0]], rows[1..], ks, k);
        HasKeyAppend([rows[0]], tail, ks, k);
        assert HasKey([rows[0]], ks, k) <==> KeyOf(rows[0], ks) == k;
      }
    }
  }

  /** After deduplication no two rows share a key. */
  lemma {:induction false} DedupDistinct(rows: seq<Row>, ks: seq<Column>)
    ensures forall i, j | 0 <= i < j < |DedupLast(rows, ks)| ::
      KeyOf(DedupLast(rows, ks)[i], ks) != KeyOf(DedupLast(rows, ks)[j], ks)
  {
    if rows != [] {
      DedupDistinct(rows[1..], ks);
      DedupKeepsRowsAndKeys(rows[1..], ks);
      var tail := DedupLast(rows[1..], ks);
      if !HasKey(rows[1..], ks, KeyOf(rows[0], ks)) {
        forall j | 0 <= j < |tail| ensures KeyOf(tail[j], ks) != KeyOf(rows[0], ks) {
          assert HasKey(tail, ks, KeyOf(tail[j], ks));
        }
      }
    }
  }

  /** `x` is the last row of `rows` with its key. */
  predicate LastOfItsKey(rows: seq<Row>, ks: seq<Column>, x: Row) {
    HasKey(rows, ks, KeyOf(x, ks)) && x == rows[LastIndex(rows, ks, KeyOf(x, ks))]
  }

  /** The last occurrence in the tail is still the last occurrence once a row is put in front. */
  lemma LastOfItsKeyCons(r: Row, tail: seq<Row>, ks: seq<Column>, x: Row)
    requires LastOfItsKey(tail, ks, x)
    ensures LastOfItsKey([r] + tail, ks, x)
  {
    var rows := [r] + tail;
    var k := KeyOf(x, ks);
    var p := LastIndex(tail, ks, k);
    assert rows[p + 1] == tail[p];
    forall j | p + 1 < j < |rows| ensures KeyOf(rows[j], ks) != k {
      assert rows[j] == tail[j - 1];
    }
    LastIndexUnique(rows, ks, k, p + 1);
  }

  /** Every row that survives deduplication is the last row of the batch with its key. */
  lemma {:induction false} DedupKeepsLast(rows: seq<Row>, ks: seq<Column>)
    ensures forall x | x in DedupLast(rows, ks) :: LastOfItsKey(rows, ks, x)
  {
    if rows != [] {
      var tail := rows[1..];
      assert rows == [rows[0]] + tail;
      DedupKeepsLast(tail, ks);
      forall x | x in DedupLast(tail, ks) ensures LastOfItsKey(rows, ks, x) {
        LastOfItsKeyCons(rows[0], tail, ks, x);
      }
      if !HasKey(tail, ks, KeyOf(rows[0], ks)) {
        forall j | 0 < j < |rows| ensures KeyOf(rows[j], ks) != KeyOf(rows[0], ks) {
          assert rows[j] == tail[j - 1];
        }
        LastIndexUnique(rows, ks, KeyOf(rows[0], ks), 0);
      }
    }
  }

  /**
   * What cleaning promises: no surviving row has a blank `Zone` (when the
   * batch has that column); when some key column is present, no two rows
   * share the key columns present, each survivor is the last row of the
   * zone-filtered batch with its key, and every key of that batch survives.
   */
  lemma CleanMeaning(rows: seq<Row>, columns: seq<string>)
    ensures var c := Clean(rows, columns);
      var zoned := if "Zone" in columns then DropBlankZones(rows) else rows;
      var ks := PresentKeys(columns);
      && (forall x | x in c :: x in rows)
      && ("Zone" in columns ==> forall x | x in c :: !BlankZone(Get(x, Zone)))
      && (ks != [] ==> forall i, j | 0 <= i < j < |c| :: KeyOf(c[i], ks) != KeyOf(c[j], ks))
      && (ks != [] ==> forall x | x in c :: LastOfItsKey(zoned, ks, x))
      && (ks != [] ==> forall k :: HasKey(c, ks, k) <==> HasKey(zoned, ks, k))
  {
    var zoned := if "Zone" in columns then DropBlankZones(rows) else rows;
    DedupKeepsRowsAndKeys(zoned, PresentKeys(columns));
    DedupDistinct(zoned, PresentKeys(columns));
    DedupKeepsLast(zoned, PresentKeys(columns));
  }

  // ---------------------------------------------------------------------------
  // The conditional MERGE
  // ---------------------------------------------------------------------------

  /** Columns updated with `COALESCE(S.c, T.c)`. */
  predicate Coalesced(c: Column) {
    c.PoidsLimiteTotal? || c.Hauteur? || c.Largeur? || c.Profondeur? || c.PoidsLimiteUnitaire?
    || c.X? || c.Y? || c.Z? || c.Palette?
  }

  /** Columns updated with `IFNULL(NULLIF(CAST(S.c AS STRING), ''), T.c)`. */
  predicate TypeColumn(c: Column) {
    c.Type1? || c.Type2? || c.Type3?
  }

  predicate KeyColumn(c: Column) {
    c.Zone? || c.Allee? || c.Deplacement? || c.Niveau?
  }

  /** Every column the MERGE statement reads from the staging table, by label. */
  const MergeColumns: seq<string> :=
    ["Zone", "Allee", "Deplacement", "Niveau", "PoidsLimiteTotal", "Hauteur", "Largeur", "Profondeur",
     "PoidsLimiteUnitaire", "X", "Y", "Z", "Type1", "Type2", "Type3", "Palette"]

  /** The labels of `wanted` that `columns` lacks, in order. */
  function Missing(wanted: seq<string>, columns: seq<string>): (r: seq<string>)
    ensures forall c :: c in r <==> c in wanted && c !in columns
  {
    if wanted == [] then []
    else (if wanted[0] in columns then [] else [wanted[0]]) + Missing(wanted[1..], columns)
  }

  /** `CAST(c AS STRING)`. */
  function CastText(c: Cell): (r: Cell)
    ensures r.Null? <==> c.Null?
    ensures !r.Num? && !r.Flag?
  {
    match c
    case Null => Null
    case Num(n) => Text(IntText(n))
    case Flag(b) => Text(if b then "true" else "false")
    case Text(s) => Text(s)
  }

  /** NULL or the empty string: what `NULLIF(x, '')` turns into NULL. */
  predicate NoText(c: Cell) {
    c.Null? || (c.Text? && c.s == "")
  }

  /** Casting to text never produces the empty string from a number or a flag. */
  lemma CastTextNoText(c: Cell)
    ensures NoText(CastText(c)) <==> NoText(c)
  {
  }

  /**
   * The value a matched update writes into `field`: `COALESCE(S.c, T.c)` for
   * coalesced columns and `IFNULL(NULLIF(CAST(S.c AS STRING), ''), T.c)` for
   * type columns (by `CastTextNoText` the test may be made before the cast).
   */
  function MergedValue(field: Column, current: Cell, incoming: Cell): Cell {
    if TypeColumn(field) then (if NoText(incoming) then current else CastText(incoming))
    else if incoming.Null? then current
    else incoming
  }

  /** `WHEN MATCHED THEN UPDATE SET ...`. */
  function Patch(t: Row, s: Row): Row {
    t.(poidsLimiteTotal := MergedValue(PoidsLimiteTotal, t.poidsLimiteTotal, s.poidsLimiteTotal),
       hauteur := MergedValue(Hauteur, t.hauteur, s.hauteur),
       largeur := MergedValue(Largeur, t.largeur, s.largeur),
       profondeur := MergedValue(Profondeur, t.profondeur, s.profondeur),
       poidsLimiteUnitaire := MergedValue(PoidsLimiteUnitaire, t.poidsLimiteUnitaire, s.poidsLimiteUnitaire),
       x := MergedValue(X, t.x, s.x),
       y := MergedValue(Y, t.y, s.y),
       z := MergedValue(Z, t.z, s.z),
       type1 := MergedValue(Type1, t.type1, s.type1),
       type2 := MergedValue(Type2, t.type2, s.type2),
       type3 := MergedValue(Type3, t.type3, s.type3),
       palette := MergedValue(Palette, t.palette, s.palette))
  }

  /** `WHEN NOT MATCHED BY TARGET THEN INSERT ...`: the sixteen columns, the types as text, nothing else. */
  function NewRow(s: Row): Row {
    Row(s.zone, s.allee, s.deplacement, s.niveau,
        s.poidsLimiteTotal, s.hauteur, s.largeur, s.profondeur, s.poidsLimiteUnitaire,
        s.x, s.y, s.z,
        CastText(s.type1), CastText(s.type2), CastText(s.type3), s.palette,
        map[])
  }

  predicate KeyComplete(r: Row) {
    !r.zone.Null? && !r.allee.Null? && !r.deplacement.Null? && !r.niveau.Null?
  }

  predicate SameKey(a: Row, b: Row) {
    a.zone == b.zone && a.allee == b.allee && a.deplacement == b.deplacement && a.niveau == b.niveau
  }

  /** The `ON` clause: four equalities, none of which holds on NULL. */
  predicate Matches(t: Row, s: Row) {
    KeyComplete(t) && SameKey(t, s)
  }

  function MatchesOf(t: Row, source: seq<Row>): (r: seq<Row>)
    ensures forall x :: x in r <==> x in source && Matches(t, x)
  {
    if source == [] then []
    else (if Matches(t, source[0]) then [source[0]] else []) + MatchesOf(t, source[1..])
  }

  predicate MatchedBy(target: seq<Row>, s: Row) {
    exists i | 0 <= i < |target| :: Matches(target[i], s)
  }

  function Updated(t: Row, source: seq<Row>): Row {
    var ms := MatchesOf(t, source);
    if ms == [] then t else Patch(t, ms[0])
  }

  /** The rows the MERGE inserts, in batch order. */
  function Insertions(target: seq<Row>, source: seq<Row>): (r: seq<Row>)
    ensures forall x :: x in r <==> exists s | s in source :: !MatchedBy(target, s) && x == NewRow(s)
  {
    if source == [] then []
    else (if MatchedBy(target, source[0]) then [] else [NewRow(source[0])]) + Insertions(target, source[1..])
  }

  datatype MergeError = MissingColumn(name: string) | AmbiguousMatch

  /**
   * The MERGE of the staging rows into the location table: it fails when the
   * staging table lacks a column the statement names, or when a location
   * matches two staged rows; otherwise matched locations are patched and
   * unmatched staged rows appended.
   */
  function Merge(target: seq<Row>, source: seq<Row>, columns: seq<string>): Result<seq<Row>, MergeError> {
    var missing := Missing(MergeColumns, columns);
    if missing != [] then Err(MissingColumn(missing[0]))
    else if exists i | 0 <= i < |target| :: |MatchesOf(target[i], source)| > 1 then Err(AmbiguousMatch)
    else Ok(Applied(target, source))
  }

  /** The table after the MERGE when it succeeds. */
  function Applied(target: seq<Row>, source: seq<Row>): (m: seq<Row>)
    ensures |m| == |target| + |Insertions(target, source)|
  {
    seq(|target|, i requires 0 <= i < |target| => Updated(target[i], source)) + Insertions(target, source)
  }

  /**
   * The field-by-field effect of a matched update: coalesced fields take the
   * staged value unless it is NULL; type fields take the staged value as text
   * unless that is NULL or empty; every other field, the key included, is kept.
   */
  lemma PatchFields(t: Row, s: Row, c: Column)
    ensures Coalesced(c) && !Get(s, c).Null? ==> Get(Patch(t, s), c) == Get(s, c)
    ensures Coalesced(c) && Get(s, c).Null? ==> Get(Patch(t, s), c) == Get(t, c)
    ensures TypeColumn(c) && !NoText(Get(s, c)) ==> Get(Patch(t, s), c) == CastText(Get(s, c))
    ensures TypeColumn(c) && NoText(Get(s, c)) ==> Get(Patch(t, s), c) == Get(t, c)
    ensures !Coalesced(c) && !TypeColumn(c) ==> Get(Patch(t, s), c) == Get(t, c)
  {
    PatchGet(t, s, c);
  }

  lemma PatchGet(t: Row, s: Row, c: Column)
    ensures Get(Patch(t, s), c) == if Coalesced(c) || TypeColumn(c) then MergedValue(c, Get(t, c), Get(s, c)) else Get(t, c)
  {
  }

  /** Patching with the same staged row twice is patching once. */
  lemma PatchIdempotent(t: Row, s: Row)
    ensures Patch(Patch(t, s), s) == Patch(t, s)
  {
  }

  lemma KeyUnchangedByPatch(t: Row, s: Row)
    ensures SameKey(Patch(t, s), t) && (KeyComplete(Patch(t, s)) <==> KeyComplete(t))
  {
  }

  /** An inserted row has the key of the staged row it came from, and patching it with that row changes nothing. */
  lemma NewRowSettled(s: Row)
    ensures SameKey(NewRow(s), s) && (KeyComplete(NewRow(s)) <==> KeyComplete(s))
    ensures Patch(NewRow(s), s) == NewRow(s)
  {
  }

  predicate DistinctKeys(rows: seq<Row>) {
    forall i, j | 0 <= i < j < |rows| :: !SameKey(rows[i], rows[j])
  }

  lemma {:induction false} NoMatches(t: Row, source: seq<Row>)
    requires forall x | x in source :: !Matches(t, x)
    ensures MatchesOf(t, source) == []
  {
    if source != [] {
      assert source[0] in source;
      NoMatches(t, source[1..]);
    }
  }

  /** With distinct staged keys a location matches at most one staged row. */
  lemma {:induction false} AtMostOneMatch(t: Row, source: seq<Row>)
    requires DistinctKeys(source)
    ensures |MatchesOf(t, source)| <= 1
  {
    if source != [] {
      AtMostOneMatch(t, source[1..]);
      if Matches(t, source[0]) {
        forall x | x in source[1..] ensures !Matches(t, x) {
          var j :| 0 <= j < |source[1..]| && source[1..][j] == x;
          assert source[j + 1] == x;
        }
        NoMatches(t, source[1..]);
      }
    }
  }

  /** Matching depends on the key alone. */
  lemma SameKeySameMatches(t: Row, u: Row, source: seq<Row>)
    requires SameKey(t, u)
    ensures MatchesOf(t, source) == MatchesOf(u, source)
  {
  }

  lemma NoAmbiguity(target: seq<Row>, source: seq<Row>)
    requires DistinctKeys(source)
    ensures !exists i | 0 <= i < |target| :: |MatchesOf(target[i], source)| > 1
  {
    forall i | 0 <= i < |target| ensures |MatchesOf(target[i], source)| <= 1 {
      AtMostOneMatch(target[i], source);
    }
  }

  /** Among untyped values, a batch with distinct keys holding every column the statement names merges without error. */
  lemma MergeSucceeds(target: seq<Row>, source: seq<Row>, columns: seq<string>)
    requires Missing(MergeColumns, columns) == []
    requires DistinctKeys(source)
    ensures Merge(target, source, columns) == Ok(Applied(target, source))
  {
    NoAmbiguity(target, source);
  }

  /**
   * What a successful merge does to the table: a location no staged row
   * matches keeps its values, a location matched by the single staged row `s`
   * becomes `Patch(t, s)`, and exactly the staged rows that match no location
   * are appended, in batch order.
   */
  lemma MergeMeaning(target: seq<Row>, source: seq<Row>)
    requires DistinctKeys(source)
    ensures forall i | 0 <= i < |target| :: MatchesOf(target[i], source) == [] ==> Applied(target, source)[i] == target[i]
    ensures forall i, s | 0 <= i < |target| && s in source && Matches(target[i], s) ::
      Applied(target, source)[i] == Patch(target[i], s)
    ensures Applied(target, source)[|target|..] == Insertions(target, source)
  {
    var m := Applied(target, source);
    forall i, s | 0 <= i < |target| && s in source && Matches(target[i], s) ensures m[i] == Patch(target[i], s) {
      AtMostOneMatch(target[i], source);
      assert s in MatchesOf(target[i], source);
    }
  }

  /** A staged row with a complete key is the only match of its own key in a batch with distinct keys. */
  lemma SelfMatches(s: Row, source: seq<Row>)
    requires DistinctKeys(source)
    requires s in source && KeyComplete(s)
    ensures MatchesOf(s, source) == [s]
  {
    var r := MatchesOf(s, source);
    AtMostOneMatch(s, source);
    assert s in r;
  }

  /** A row of the merged table is settled: updating it again with the same batch changes nothing. */
  lemma SettledRow(target: seq<Row>, source: seq<Row>, i: nat)
    requires DistinctKeys(source)
    requires forall s | s in source :: KeyComplete(s)
    requires i < |Applied(target, source)|
    ensures Updated(Applied(target, source)[i], source) == Applied(target, source)[i]
  {
    var m := Applied(target, source);
    if i < |target| {
      var t := target[i];
      var ms := MatchesOf(t, source);
      if ms != [] {
        KeyUnchangedByPatch(t, ms[0]);
        SameKeySameMatches(Patch(t, ms[0]), t, source);
        PatchIdempotent(t, ms[0]);
      }
    } else {
      var ins := Insertions(target, source);
      assert m[i] == ins[i - |target|];
      assert m[i] in ins;
      var s :| s in source && !MatchedBy(target, s) && m[i] == NewRow(s);
      NewRowSettled(s);
      SameKeySameMatches(m[i], s, source);
      SelfMatches(s, source);
    }
  }

  /** After a merge every staged row with a complete key matches some row of the table. */
  lemma MatchedAfterMerge(target: seq<Row>, source: seq<Row>, s: Row)
    requires KeyComplete(s)
    requires s in source
    ensures MatchedBy(Applied(target, source), s)
  {
    var m := Applied(target, source);
    if MatchedBy(target, s) {
      var i :| 0 <= i < |target| && Matches(target[i], s);
      var ms := MatchesOf(target[i], source);
      assert s in ms;
      KeyUnchangedByPatch(target[i], ms[0]);
      assert Matches(m[i], s);
    } else {
      var ins := Insertions(target, source);
      assert NewRow(s) in ins;
      var k :| 0 <= k < |ins| && ins[k] == NewRow(s);
      NewRowSettled(s);
      assert m[|target| + k] == NewRow(s);
      assert Matches(m[|target| + k], s);
    }
  }

  lemma {:induction false} InsertionsEmpty(m: seq<Row>, source: seq<Row>)
    requires forall s | s in source :: MatchedBy(m, s)
    ensures Insertions(m, source) == []
  {
    if source != [] {
      assert source[0] in source;
      InsertionsEmpty(m, source[1..]);
    }
  }

  /**
   * Merging the same batch twice gives the table a single merge gives, as
   * long as no staged key column is NULL (a NULL key never matches, so such a
   * row would be inserted again).
   */
  lemma MergeIdempotent(target: seq<Row>, source: seq<Row>, columns: seq<string>)
    requires Missing(MergeColumns, columns) == []
    requires DistinctKeys(source)
    requires forall s | s in source :: KeyComplete(s)
    ensures Merge(target, source, columns).Ok?
    ensures Merge(Merge(target, source, columns).value, source, columns) == Merge(target, source, columns)
  {
    MergeSucceeds(target, source, columns);
    var m := Applied(target, source);
    MergeSucceeds(m, source, columns);
    forall s | s in source ensures MatchedBy(m, s) {
      MatchedAfterMerge(target, source, s);
    }
    InsertionsEmpty(m, source);
    forall i | 0 <= i < |m| ensures Updated(m[i], source) == m[i] {
      SettledRow(target, source, i);
    }
    AppliedSettled(m, source);
  }

  lemma AppliedSettled(m: seq<Row>, source: seq<Row>)
    requires Insertions(m, source) == []
    requires forall i | 0 <= i < |m| :: Updated(m[i], source) == m[i]
    ensures Applied(m, source) == m
  {
  }

  /** Equal values in all four key columns give equal key tuples. */
  lemma SameKeyOf(a: Row, b: Row)
    ensures SameKey(a, b) <==> KeyOf(a, KeyFields) == KeyOf(b, KeyFields)
  {
    if KeyOf(a, KeyFields) == KeyOf(b, KeyFields) {
      assert KeyOf(a, KeyFields)[0] == KeyOf(b, KeyFields)[0];
      assert KeyOf(a, KeyFields)[1] == KeyOf(b, KeyFields)[1];
      assert KeyOf(a, KeyFields)[2] == KeyOf(b, KeyFields)[2];
      assert KeyOf(a, KeyFields)[3] == KeyOf(b, KeyFields)[3];
    }
  }

  /** A cleaned batch that holds all four key columns has distinct keys, so its MERGE cannot be ambiguous. */
  lemma CleanedBatchDistinct(rows: seq<Row>, columns: seq<string>)
    requires PresentKeys(columns) == KeyFields
    ensures DistinctKeys(Clean(rows, columns))
  {
    var zoned := if "Zone" in columns then DropBlankZones(rows) else rows;
    var c := Clean(rows, columns);
    DedupDistinct(zoned, KeyFields);
    forall i, j | 0 <= i < j < |c| ensures !SameKey(c[i], c[j]) {
      SameKeyOf(c[i], c[j]);
    }
  }

  // ---------------------------------------------------------------------------
  // Bulk updates: UPDATE T SET ... FROM UNNEST([...]) AS N WHERE ...
  // ---------------------------------------------------------------------------

  /** `LOWER(TRIM(T.Zone)) = LOWER(TRIM(N.Zone))`; a NULL zone matches nothing. */
  predicate ZoneMatches(t: Cell, n: Cell) {
    t.Text? && n.Text? && Lower(Trim(t.s)) == Lower(Trim(n.s))
  }

  /** The WHERE clause of the bulk updates: staged row `n` targets location `t`. */
  predicate Targets(n: Row, t: Row) {
    && ZoneMatches(t.zone, n.zone)
    && !t.allee.Null? && t.allee == n.allee
    && !t.deplacement.Null? && t.deplacement == n.deplacement
    && !t.niveau.Null? && t.niveau == n.niveau
  }

  function TargetsOf(t: Row, news: seq<Row>): (r: seq<Row>)
    ensures forall x :: x in r <==> x in news && Targets(x, t)
  {
    if news == [] then []
    else (if Targets(news[0], t) then [news[0]] else []) + TargetsOf(t, news[1..])
  }

  lemma {:induction false} NoTargets(t: Row, news: seq<Row>)
    requires forall n | n in news :: !Targets(n, t)
    ensures TargetsOf(t, news) == []
  {
    if news != [] {
      assert news[0] in news;
      NoTargets(t, news[1..]);
    }
  }

  /** The right-hand side of one `SET` clause: `COALESCE(N.c, T.c)` or a constant. */
  datatype Expr = FromStaged | Constant(value: Cell)

  /** A `SET` list: at most one clause per column. */
  type SetList = map<Column, Expr>

  /** The value a clause on column `c` writes; every right-hand side reads the row as it was before the update. */
  function Assigned(t: Row, n: Row, c: Column, e: Expr): (v: Cell)
    ensures e.FromStaged? ==> v == (if Get(n, c).Null? then Get(t, c) else Get(n, c))
    ensures e.Constant? ==> v == e.value
  {
    match e
    case FromStaged => if Get(n, c).Null? then Get(t, c) else Get(n, c)
    case Constant(v) => v
  }

  function Written(t: Row, n: Row, sets: SetList, c: Column): Cell {
    if c in sets then Assigned(t, n, c, sets[c]) else Get(t, c)
  }

  /** Location `t` after the `SET` list, evaluated against staged row `n`; only the sixteen named columns are settable. */
  function ApplySets(t: Row, n: Row, sets: SetList): (u: Row)
    ensures forall c: Column | !c.Other? :: Get(u, c) == Written(t, n, sets, c)
    ensures u.others == t.others
  {
    Row(Written(t, n, sets, Zone), Written(t, n, sets, Allee), Written(t, n, sets, Deplacement),
        Written(t, n, sets, Niveau), Written(t, n, sets, PoidsLimiteTotal), Written(t, n, sets, Hauteur),
        Written(t, n, sets, Largeur), Written(t, n, sets, Profondeur), Written(t, n, sets, PoidsLimiteUnitaire),
        Written(t, n, sets, X), Written(t, n, sets, Y), Written(t, n, sets, Z),
        Written(t, n, sets, Type1), Written(t, n, sets, Type2), Written(t, n, sets, Type3),
        Written(t, n, sets, Palette), t.others)
  }

  /**
   * The bulk update: it fails when a location is targeted by two staged
   * rows; otherwise each targeted location gets the `SET` list evaluated
   * against its staged row and every other location is kept.
   */
  function BulkUpdate(table: seq<Row>, news: seq<Row>, sets: SetList): Result<seq<Row>, MergeError> {
    if exists i | 0 <= i < |table| :: |TargetsOf(table[i], news)| > 1 then Err(AmbiguousMatch)
    else Ok(seq(|table|, i requires 0 <= i < |table| =>
      var ns := TargetsOf(table[i], news);
      if ns == [] then table[i] else ApplySets(table[i], ns[0], sets)))
  }

  /** Each location of a successful bulk update is either kept or rewritten by the `SET` list with its one staged row. */
  lemma BulkUpdateRows(table: seq<Row>, news: seq<Row>, sets: SetList)
    requires BulkUpdate(table, news, sets).Ok?
    ensures |BulkUpdate(table, news, sets).value| == |table|
    ensures forall i | 0 <= i < |table| && (forall n | n in news :: !Targets(n, table[i])) ::
      BulkUpdate(table, news, sets).value[i] == table[i]
    ensures forall i, n | 0 <= i < |table| && n in news && Targets(n, table[i]) ::
      BulkUpdate(table, news, sets).value[i] == ApplySets(table[i], n, sets)
  {
    var u := BulkUpdate(table, news, sets).value;
    forall i | 0 <= i < |table| && (forall n | n in news :: !Targets(n, table[i])) ensures u[i] == table[i] {
      NoTargets(table[i], news);
    }
    forall i, n | 0 <= i < |table| && n in news && Targets(n, table[i])
      ensures u[i] == ApplySets(table[i], n, sets)
    {
      var ns := TargetsOf(table[i], news);
      assert n in ns;
      assert |ns| <= 1;
    }
  }

  /**
   * What a successful bulk update does to a targeted location: each listed
   * column is set to its clause's value and every other column is kept.
   */
  lemma BulkUpdateMeaning(table: seq<Row>, news: seq<Row>, sets: SetList)
    requires BulkUpdate(table, news, sets).Ok?
    ensures forall i, n, c | 0 <= i < |table| && n in news && Targets(n, table[i]) && c in sets && !c.Other? ::
      Get(BulkUpdate(table, news, sets).value[i], c) == Assigned(table[i], n, c, sets[c])
    ensures forall i, n, c | 0 <= i < |table| && n in news && Targets(n, table[i]) && c !in sets ::
      Get(BulkUpdate(table, news, sets).value[i], c) == Get(table[i], c)
  {
    BulkUpdateRows(table, news, sets);
  }
}

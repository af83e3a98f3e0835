/**
 * The request side of the two bulk-update endpoints of detail_emplacement.py:
 * how each JSON entry becomes a staged row of the `UNNEST` list, and which
 * `SET` clauses the coordinate endpoint selects.
 *
 * Float parsing is not modelled: a parser oracle maps the text `float()`
 * would read to a number, or to nothing where `float()` raises.
 */
module BulkRequests {
  import opened Wrappers
  import opened Text
  import opened Values
  import opened Importer
  import opened Locations

  /** A JSON object of the request body. */
  type Object = map<string, Json>

  /** `obj.get(key)`: a missing key reads as `None`. */
  function Field(o: Object, key: string): Json {
    if key in o then o[key] else JNull
  }

  /** `str(obj.get("Zone", "")).strip()`: a missing zone is empty, an explicit `null` prints as "None". */
  function ZoneText(o: Object): string {
    if "Zone" in o then Trim(PyStr(o["Zone"])) else ""
  }

  /** `to_str_or_null`: the trimmed text, or nothing for `None` and for blank text. */
  function StrOrNull(v: Json): (r: Option<string>)
    ensures v.JNull? ==> r == None
    ensures r.Some? ==> r.value != "" && Trim(r.value) == r.value
    ensures !v.JNull? && Trim(PyStr(v)) != "" ==> r == Some(Trim(PyStr(v)))
  {
    TrimIdempotent(PyStr(v));
    if v.JNull? then None
    else
      var s := Trim(PyStr(v));
      if s == "" then None else Some(s)
  }

  /** `float()` on the given text; nothing where it raises. */
  type FloatParser = string -> Option<int>

  /** The French decimal comma read as a point. */
  function CommaAsPoint(s: string): (r: string)
    ensures |r| == |s| && ',' !in r
  {
    seq(|s|, i requires 0 <= i < |s| => if s[i] == ',' then '.' else s[i])
  }

  /** `to_float_or_null`: nothing for `None` and blank text, otherwise the parse of the trimmed text with commas as points. */
  function FloatOrNull(v: Json, parse: FloatParser): (r: Option<int>)
    ensures v.JNull? || Trim(PyStr(v)) == "" ==> r == None
  {
    if v.JNull? then None
    else
      var s := Trim(PyStr(v));
      if s == "" then None else parse(CommaAsPoint(s))
  }

  function NumCell(v: Option<int>): (c: Cell)
    ensures c.Null? <==> v.None?
  {
    if v.Some? then Num(v.value) else Null
  }

  function TextCell(v: Option<string>): (c: Cell)
    ensures c.Null? <==> v.None?
  {
    if v.Some? then Text(v.value) else Null
  }

  // ---------------------------------------------------------------------------
  // api_update_detail_emplacement
  // ---------------------------------------------------------------------------

  /** The palette of a detail change: `None` gives NULL, otherwise the flag says whether the value is an accepted spelling (so "" is FALSE). */
  function DetailPalette(v: Json): (c: Cell)
    ensures v.JNull? ==> c.Null?
    ensures !v.JNull? ==> c == Flag(PaletteChecked(v))
  {
    if v.JNull? then Null else Flag(PaletteChecked(v))
  }

  /** The staged row of one change; a key number `int()` rejects reads as 0. */
  function DetailRow(c: Object, parse: FloatParser): Row {
    EmptyRow.(
      zone := Text(ZoneText(c)),
      allee := Num(ToInt(Field(c, "Allee")).GetOr(0)),
      deplacement := Num(ToInt(Field(c, "Deplacement")).GetOr(0)),
      niveau := Num(ToInt(Field(c, "Niveau")).GetOr(0)),
      x := NumCell(FloatOrNull(Field(c, "X"), parse)),
      y := NumCell(FloatOrNull(Field(c, "Y"), parse)),
      z := NumCell(FloatOrNull(Field(c, "Z"), parse)),
      poidsLimiteUnitaire := NumCell(FloatOrNull(Field(c, "PoidsLimiteUnitaire"), parse)),
      type1 := TextCell(StrOrNull(Field(c, "Type1"))),
      type2 := TextCell(StrOrNull(Field(c, "Type2"))),
      type3 := TextCell(StrOrNull(Field(c, "Type3"))),
      palette := DetailPalette(Field(c, "Palette")))
  }

  /** The columns both bulk updates may write. */
  const Editable: set<Column> := {X, Y, Z, PoidsLimiteUnitaire, Type1, Type2, Type3, Palette}

  /** The fixed `SET` list of the detail update: every editable column coalesced from the staged row. */
  const DetailSets: SetList := map c | c in Editable :: FromStaged

  /**
   * What a staged detail row carries: its key from the change (0 where
   * `int()` fails), blank or missing text as NULL so the update keeps the
   * stored value, and every column outside the update NULL.
   */
  lemma DetailRowMeaning(c: Object, parse: FloatParser)
    ensures var r := DetailRow(c, parse);
      && r.zone == Text(ZoneText(c))
      && (ToInt(Field(c, "Allee")).Some? ==> r.allee == Num(ToInt(Field(c, "Allee")).value))
      && (ToInt(Field(c, "Allee")).None? ==> r.allee == Num(0))
      && (Field(c, "X").JNull? ==> r.x.Null?)
      && (StrOrNull(Field(c, "Type1")).None? <==> r.type1.Null?)
      && (Field(c, "Palette").JNull? ==> r.palette.Null?)
      && r.hauteur.Null? && r.largeur.Null? && r.others == map[]
  {
  }

  /** An empty palette in a detail change is not an accepted spelling, so it writes FALSE rather than keeping the stored value. */
  lemma DetailPaletteEmpty()
    ensures DetailPalette(JStr("")) == Flag(false)
  {
    assert Lower("") == "";
  }

  /** Building the `UNNEST` list of the detail update, one change at a time. */
  method BuildDetailRows(changes: seq<Object>, parse: FloatParser) returns (rows: seq<Row>)
    ensures |rows| == |changes|
    ensures forall i | 0 <= i < |changes| :: rows[i] == DetailRow(changes[i], parse)
  {
    rows := [];
    for i := 0 to |changes|
      invariant |rows| == i
      invariant forall k | 0 <= k < i :: rows[k] == DetailRow(changes[k], parse)
    {
      rows := rows + [DetailRow(changes[i], parse)];
    }
  }

  // ---------------------------------------------------------------------------
  // api_update_coords
  // ---------------------------------------------------------------------------

  /** The staged row of one coordinate entry; nothing when a key number is rejected by `int()`, which breaks the query. */
  function CoordRow(c: Object, parse: FloatParser): (r: Option<Row>)
    ensures r.Some? <==>
      ToInt(Field(c, "Allee")).Some? && ToInt(Field(c, "Deplacement")).Some? && ToInt(Field(c, "Niveau")).Some?
  {
    var allee := ToInt(Field(c, "Allee"));
    var dep := ToInt(Field(c, "Deplacement"));
    var niv := ToInt(Field(c, "Niveau"));
    if allee.None? || dep.None? || niv.None? then None
    else Some(EmptyRow.(
      zone := Text(ZoneText(c)),
      allee := Num(allee.value),
      deplacement := Num(dep.value),
      niveau := Num(niv.value),
      x := NumCell(FloatOrNull(Field(c, "X"), parse)),
      y := NumCell(FloatOrNull(Field(c, "Y"), parse)),
      z := NumCell(FloatOrNull(Field(c, "Z"), parse))))
  }

  /** The staged rows of all entries, or nothing when one of them is rejected. */
  function CoordRows(coords: seq<Object>, parse: FloatParser): (r: Option<seq<Row>>)
    ensures r.Some? <==> forall i | 0 <= i < |coords| :: CoordRow(coords[i], parse).Some?
    ensures r.Some? ==> |r.value| == |coords|
    ensures r.Some? ==> forall i | 0 <= i < |coords| :: Some(r.value[i]) == CoordRow(coords[i], parse)
    decreases |coords|
  {
    if coords == [] then Some([])
    else
      var n := |coords| - 1;
      assert forall i | 0 <= i < n :: coords[..n][i] == coords[i];
      match (CoordRows(coords[..n], parse), CoordRow(coords[n], parse))
      case (Some(rows), Some(row)) => Some(rows + [row])
      case _ => None
  }

  /** `for c in coords: struct_rows.append(...)`; an entry `int()` rejects makes the query fail. */
  method BuildCoordRows(coords: seq<Object>, parse: FloatParser) returns (r: Option<seq<Row>>)
    ensures r == CoordRows(coords, parse)
  {
    var rows: seq<Row> := [];
    for i := 0 to |coords|
      invariant CoordRows(coords[..i], parse) == Some(rows)
    {
      assert coords[..i + 1][..i] == coords[..i];
      var row := CoordRow(coords[i], parse);
      if row.None? {
        return None;
      }
      rows := rows + [row.value];
    }
    assert coords[..|coords|] == coords;
    r := Some(rows);
  }

  /** `c.get("X") not in (None, "")`. */
  predicate GivesX(c: Object) {
    Field(c, "X") != JNull && Field(c, "X") != JStr("")
  }

  /** `any(c.get("X") not in (None, "") for c in coords)`, as a loop that stops at the first hit. */
  method AnyGivesX(coords: seq<Object>) returns (found: bool)
    ensures found <==> exists i | 0 <= i < |coords| :: GivesX(coords[i])
  {
    found := false;
    var i := 0;
    while i < |coords| && !found
      invariant 0 <= i <= |coords|
      invariant found <==> exists k | 0 <= k < i :: GivesX(coords[k])
    {
      found := GivesX(coords[i]);
      i := i + 1;
    }
  }

  /** The palette written by the coordinate update: `None` and "" write NULL, anything else the flag. */
  function CoordPalette(v: Json): (c: Cell)
    ensures v.JNull? || v == JStr("") ==> c.Null?
    ensures !v.JNull? && v != JStr("") ==> c == Flag(PaletteChecked(v))
  {
    if v.JNull? || v == JStr("") then Null else Flag(PaletteChecked(v))
  }

  /** What the coordinate update reads from its request before choosing clauses. */
  datatype CoordRequest = CoordRequest(
    hasXyz: bool, unitWeight: Option<int>, type1: Option<string>, type2: Option<string>, type3: Option<string>,
    palette: Json)

  function ReadCoordRequest(req: Object, coords: seq<Object>, parse: FloatParser): CoordRequest {
    CoordRequest(
      exists i | 0 <= i < |coords| :: GivesX(coords[i]),
      FloatOrNull(Field(req, "poids_limite_unitaire"), parse),
      StrOrNull(Field(req, "type1")), StrOrNull(Field(req, "type2")), StrOrNull(Field(req, "type3")),
      Field(req, "palette"))
  }

  /** Reading the request fields and scanning the entries for an X value. */
  method ReadCoords(req: Object, coords: seq<Object>, parse: FloatParser) returns (q: CoordRequest)
    ensures q == ReadCoordRequest(req, coords, parse)
  {
    var hasXyz := AnyGivesX(coords);
    q := CoordRequest(hasXyz, FloatOrNull(Field(req, "poids_limite_unitaire"), parse),
      StrOrNull(Field(req, "type1")), StrOrNull(Field(req, "type2")), StrOrNull(Field(req, "type3")),
      Field(req, "palette"));
  }

  /** One `if ...: set_parts.append(...)` step. */
  function AddIf(sets: SetList, cond: bool, c: Column, e: Expr): SetList {
    if cond then sets[c := e] else sets
  }

  /** The `SET` list of the coordinate update. */
  function CoordSets(q: CoordRequest): SetList {
    var xyz := AddIf(AddIf(AddIf(map[], q.hasXyz, X, FromStaged), q.hasXyz, Y, FromStaged), q.hasXyz, Z, FromStaged);
    var w := AddIf(xyz, q.unitWeight.Some?, PoidsLimiteUnitaire, Constant(NumCell(q.unitWeight)));
    var a1 := AddIf(w, q.type1.Some?, Type1, Constant(TextCell(q.type1)));
    var a2 := AddIf(a1, q.type2.Some?, Type2, Constant(TextCell(q.type2)));
    var a3 := AddIf(a2, q.type3.Some?, Type3, Constant(TextCell(q.type3)));
    AddIf(a3, !q.palette.JNull?, Palette, Constant(CoordPalette(q.palette)))
  }

  /** Building the `SET` list clause by clause, as the handler appends to `set_parts`. */
  method BuildCoordSets(q: CoordRequest) returns (sets: SetList)
    ensures sets == CoordSets(q)
  {
    sets := map[];
    if q.hasXyz {
      sets := sets[X := FromStaged][Y := FromStaged][Z := FromStaged];
    }
    ghost var w := AddIf(AddIf(AddIf(map[], q.hasXyz, X, FromStaged), q.hasXyz, Y, FromStaged), q.hasXyz, Z, FromStaged);
    assert sets == w;
    if q.unitWeight.Some? {
      sets := sets[PoidsLimiteUnitaire := Constant(Num(q.unitWeight.value))];
    }
    w := AddIf(w, q.unitWeight.Some?, PoidsLimiteUnitaire, Constant(NumCell(q.unitWeight)));
    assert sets == w;
    if q.type1.Some? {
      sets := sets[Type1 := Constant(Text(q.type1.value))];
    }
    w := AddIf(w, q.type1.Some?, Type1, Constant(TextCell(q.type1)));
    assert sets == w;
    if q.type2.Some? {
      sets := sets[Type2 := Constant(Text(q.type2.value))];
    }
    w := AddIf(w, q.type2.Some?, Type2, Constant(TextCell(q.type2)));
    assert sets == w;
    if q.type3.Some? {
      sets := sets[Type3 := Constant(Text(q.type3.value))];
    }
    w := AddIf(w, q.type3.Some?, Type3, Constant(TextCell(q.type3)));
    assert sets == w;
    if !q.palette.JNull? {
      sets := sets[Palette := Constant(CoordPalette(q.palette))];
    }
  }

  /** The coordinate update writes X, Y and Z, coalesced from the entries, exactly when some entry gives an X, and never a column outside the editable ones. */
  lemma CoordSetsXyz(q: CoordRequest)
    ensures CoordSets(q).Keys <= Editable
    ensures X in CoordSets(q) <==> q.hasXyz
    ensures Y in CoordSets(q) <==> q.hasXyz
    ensures Z in CoordSets(q) <==> q.hasXyz
    ensures q.hasXyz ==> CoordSets(q)[X] == FromStaged && CoordSets(q)[Y] == FromStaged && CoordSets(q)[Z] == FromStaged
  {
  }

  /** The unit weight and the types are written as constants exactly when they were given. */
  lemma CoordSetsConstants(q: CoordRequest)
    ensures PoidsLimiteUnitaire in CoordSets(q) <==> q.unitWeight.Some?
    ensures Type1 in CoordSets(q) <==> q.type1.Some?
    ensures Type2 in CoordSets(q) <==> q.type2.Some?
    ensures Type3 in CoordSets(q) <==> q.type3.Some?
    ensures q.unitWeight.Some? ==> CoordSets(q)[PoidsLimiteUnitaire] == Constant(Num(q.unitWeight.value))
    ensures q.type1.Some? ==> CoordSets(q)[Type1] == Constant(Text(q.type1.value))
  {
  }

  /** The palette clause is present whenever the body has a palette, and an empty palette writes NULL. */
  lemma CoordSetsPalette(q: CoordRequest)
    ensures Palette in CoordSets(q) <==> !q.palette.JNull?
    ensures q.palette == JStr("") ==> CoordSets(q)[Palette] == Constant(Null)
    ensures !q.palette.JNull? && q.palette != JStr("") ==> CoordSets(q)[Palette] == Constant(Flag(PaletteChecked(q.palette)))
  {
  }

  /** An empty `SET` list, which the handler rejects, is exactly a request that gives nothing to write. */
  lemma CoordSetsEmpty(q: CoordRequest)
    ensures CoordSets(q) == map[] <==>
      !q.hasXyz && q.unitWeight.None? && q.type1.None? && q.type2.None? && q.type3.None? && q.palette.JNull?
  {
    CoordSetsXyz(q);
    CoordSetsConstants(q);
    CoordSetsPalette(q);
  }
}

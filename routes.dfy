/**
 * The route handlers of routes.py over in-memory tables: the location list
 * the route editor offers (`api_lists`), adding a primary route together with
 * its generated secondary segments (`add_route_simple`), and the whitelisted
 * partial update of a primary route (`update_route_simple`).
 */
module Routes {
  import opened Wrappers
  import opened Values
  import opened Ordering
  import opened Labels
  import opened RouteGen

  // ---------------------------------------------------------------------------
  // api_lists
  // ---------------------------------------------------------------------------

  /** A row of TblEmplacement as the list query sees it; every column may be NULL. */
  datatype StoredLocation = StoredLocation(
    zone: Option<string>, allee: Option<int>, deplacement: Option<int>, niveau: Option<int>,
    x: Option<real>, y: Option<real>, z: Option<real>)

  /** A row the query returns: `WHERE Zone IS NOT NULL AND Allee IS NOT NULL`. */
  datatype QueryRow = QueryRow(
    zone: string, allee: int, deplacement: Option<int>, niveau: Option<int>,
    x: Option<real>, y: Option<real>, z: Option<real>)

  function Queried(t: StoredLocation): Option<QueryRow> {
    if t.zone.None? || t.allee.None? then None
    else Some(QueryRow(t.zone.value, t.allee.value, t.deplacement, t.niveau, t.x, t.y, t.z))
  }

  /** The rows of the list query, in table order. */
  function Select(table: seq<StoredLocation>): (r: seq<QueryRow>)
    ensures forall q :: q in r <==> exists t | t in table :: Queried(t) == Some(q)
  {
    if table == [] then []
    else
      var t := table[|table| - 1];
      assert table == table[..|table| - 1] + [t];
      Select(table[..|table| - 1]) + (if Queried(t).Some? then [Queried(t).value] else [])
  }

  /** One entry of `emplacements`; its `label` is `LabelOf` of the entry. */
  datatype Listed = Listed(place: Place, x: real, y: real, z: real)

  /** The `label` key of an entry, built from its zone, aisle, bay and level. */
  function LabelOf(e: Listed): string {
    Label(e.place)
  }

  /** `float(v or 0)`. */
  function OrZero(v: Option<real>): real {
    if v.Some? then v.value else 0.0
  }

  /** The entry for one row; `int(None)` raises `TypeError` for a NULL bay or level. */
  function ListedOf(q: QueryRow): (r: Option<Listed>)
    ensures r.None? <==> q.deplacement.None? || q.niveau.None?
  {
    if q.deplacement.None? || q.niveau.None? then None
    else
      var p := Place(q.zone, q.allee, q.deplacement.value, q.niveau.value);
      Some(Listed(p, OrZero(q.x), OrZero(q.y), OrZero(q.z)))
  }

  /** The `emplacements` list, or `None` when the loop raises. */
  function Listing(rows: seq<QueryRow>): Option<seq<Listed>> {
    if rows == [] then Some([])
    else
      var init := Listing(rows[..|rows| - 1]);
      var last := ListedOf(rows[|rows| - 1]);
      if init.Some? && last.Some? then Some(init.value + [last.value]) else None
  }

  /** A row with a NULL bay or level, which `int()` refuses. */
  predicate Unlistable(q: QueryRow) {
    q.deplacement.None? || q.niveau.None?
  }

  /** One step of the loop: the row either fails or is appended. */
  lemma ListingStep(rows: seq<QueryRow>)
    requires rows != []
    ensures Listing(rows).None? <==> Listing(rows[..|rows| - 1]).None? || Unlistable(rows[|rows| - 1])
  {
  }

  /** The loop fails exactly when some row has a NULL bay or level. */
  lemma {:induction false} ListingFails(rows: seq<QueryRow>)
    ensures Listing(rows).None? <==> exists i | 0 <= i < |rows| :: Unlistable(rows[i])
    decreases |rows|
  {
    if rows != [] {
      var init := rows[..|rows| - 1];
      ListingFails(init);
      ListingStep(rows);
      if Listing(init).None? {
        var i :| 0 <= i < |init| && Unlistable(init[i]);
        assert rows[i] == init[i];
      } else if !Unlistable(rows[|init|]) {
        forall i | 0 <= i < |rows| ensures !Unlistable(rows[i]) {
          if i < |init| {
            assert rows[i] == init[i];
          }
        }
      }
    }
  }

  /** Otherwise it lists every row, in order. */
  lemma {:induction false} ListingEntries(rows: seq<QueryRow>)
    requires Listing(rows).Some?
    ensures |Listing(rows).value| == |rows|
    ensures forall i | 0 <= i < |rows| :: ListedOf(rows[i]) == Some(Listing(rows).value[i])
    decreases |rows|
  {
    if rows != [] {
      var init := rows[..|rows| - 1];
      ListingEntries(init);
      assert forall i | 0 <= i < |init| :: init[i] == rows[i];
    }
  }

  /** `for r in emps: emplacements.append({...})`. */
  method ListLocations(rows: seq<QueryRow>) returns (r: Option<seq<Listed>>)
    ensures r == Listing(rows)
  {
    var es: seq<Listed> := [];
    for i := 0 to |rows|
      invariant Listing(rows[..i]) == Some(es)
    {
      var l := ListedOf(rows[i]);
      if l.None? {
        ListingFails(rows);
        return None;
      }
      assert rows[..i + 1][..i] == rows[..i];
      es := es + [l.value];
    }
    assert rows[..|rows|] == rows;
    r := Some(es);
  }

  function ZonesOf(es: seq<Listed>): (r: seq<string>)
    ensures |r| == |es| && forall i | 0 <= i < |es| :: r[i] == es[i].place.zone
  {
    seq(|es|, i requires 0 <= i < |es| => es[i].place.zone)
  }

  function AisleNumbersOf(es: seq<Listed>): (r: seq<int>)
    ensures |r| == |es| && forall i | 0 <= i < |es| :: r[i] == es[i].place.allee
  {
    seq(|es|, i requires 0 <= i < |es| => es[i].place.allee)
  }

  /** The answer of `api_lists`, less the engine list. */
  datatype ListsReply = ListsFailed | Lists(zones: seq<string>, allees: seq<int>, emplacements: seq<Listed>)

  function ApiLists(table: seq<StoredLocation>): ListsReply {
    match Listing(Select(table))
    case None => ListsFailed
    case Some(es) => Lists(SortedStrings(ZonesOf(es)), SortedInts(AisleNumbersOf(es)), es)
  }

  /** The handler: the loop, then `sorted(list({...}))` of the zones and of the aisles. */
  method AnswerLists(table: seq<StoredLocation>) returns (reply: ListsReply)
    ensures reply == ApiLists(table)
  {
    var listing := ListLocations(Select(table));
    if listing.None? {
      return ListsFailed;
    }
    var es := listing.value;
    reply := Lists(SortedStrings(ZonesOf(es)), SortedInts(AisleNumbersOf(es)), es);
  }

  /** `api_lists` answers 500 exactly when a returned row has a NULL bay or level. */
  lemma ApiListsFails(table: seq<StoredLocation>)
    ensures ApiLists(table).ListsFailed? <==>
      exists q | q in Select(table) :: Unlistable(q)
  {
    var rows := Select(table);
    ListingFails(rows);
    if exists q | q in rows :: Unlistable(q) {
      var q :| q in rows && Unlistable(q);
      var i :| 0 <= i < |rows| && rows[i] == q;
    }
    if exists i | 0 <= i < |rows| :: Unlistable(rows[i]) {
      var i :| 0 <= i < |rows| && Unlistable(rows[i]);
      assert rows[i] in rows;
    }
  }

  lemma ZonesOfRows(rows: seq<QueryRow>, es: seq<Listed>)
    requires |es| == |rows| && forall i | 0 <= i < |rows| :: ListedOf(rows[i]) == Some(es[i])
    ensures forall z :: z in ZonesOf(es) <==> exists q | q in rows :: q.zone == z
  {
    forall z ensures z in ZonesOf(es) <==> exists q | q in rows :: q.zone == z {
      if z in ZonesOf(es) {
        var i :| 0 <= i < |es| && ZonesOf(es)[i] == z;
        assert rows[i] in rows && rows[i].zone == z;
      }
      if exists q | q in rows :: q.zone == z {
        var q :| q in rows && q.zone == z;
        var i :| 0 <= i < |rows| && rows[i] == q;
        assert ZonesOf(es)[i] == z;
      }
    }
  }

  lemma AislesOfRows(rows: seq<QueryRow>, es: seq<Listed>)
    requires |es| == |rows| && forall i | 0 <= i < |rows| :: ListedOf(rows[i]) == Some(es[i])
    ensures forall a :: a in AisleNumbersOf(es) <==> exists q | q in rows :: q.allee == a
  {
    forall a ensures a in AisleNumbersOf(es) <==> exists q | q in rows :: q.allee == a {
      if a in AisleNumbersOf(es) {
        var i :| 0 <= i < |es| && AisleNumbersOf(es)[i] == a;
        assert rows[i] in rows && rows[i].allee == a;
      }
      if exists q | q in rows :: q.allee == a {
        var q :| q in rows && q.allee == a;
        var i :| 0 <= i < |rows| && rows[i] == q;
        assert AisleNumbersOf(es)[i] == a;
      }
    }
  }

  /**
   * A successful `api_lists` lists every returned row in order, and its
   * `zones` and `allees` are strictly increasing lists holding each zone and
   * each aisle of the returned rows once.
   */
  lemma ApiListsMeaning(table: seq<StoredLocation>)
    requires ApiLists(table).Lists?
    ensures var r := ApiLists(table);
      && |r.emplacements| == |Select(table)|
      && (forall i | 0 <= i < |r.emplacements| :: Some(r.emplacements[i]) == ListedOf(Select(table)[i]))
      && StrictlySorted(LexLess, r.zones)
      && StrictlySorted(IntLess, r.allees)
      && (forall z :: z in r.zones <==> exists q | q in Select(table) :: q.zone == z)
      && (forall a :: a in r.allees <==> exists q | q in Select(table) :: q.allee == a)
  {
    var rows := Select(table);
    ListingEntries(rows);
    ZonesOfRows(rows, Listing(rows).value);
    AislesOfRows(rows, Listing(rows).value);
  }

  /**
   * Every listed label is read back by `parse_emp` to the place it was built
   * from, provided its zone has no `-` and its numbers are non-negative.
   */
  lemma ListedLabelsParse(table: seq<StoredLocation>)
    requires ApiLists(table).Lists?
    ensures forall e | e in ApiLists(table).emplacements ::
      ('-' !in e.place.zone && e.place.allee >= 0 && e.place.deplacement >= 0 && e.place.niveau >= 0) ==>
        ParseEmp(JStr(LabelOf(e))) == Found(e.place)
  {
    var rows := Select(table);
    var es := ApiLists(table).emplacements;
    ListingEntries(rows);
    forall e | e in es && '-' !in e.place.zone && e.place.allee >= 0 && e.place.deplacement >= 0 && e.place.niveau >= 0
      ensures ParseEmp(JStr(LabelOf(e))) == Found(e.place)
    {
      var i :| 0 <= i < |es| && es[i] == e;
      assert ListedOf(rows[i]) == Some(e);
      LabelRoundTrip(e.place);
    }
  }

  // ---------------------------------------------------------------------------
  // update_route_simple: the whitelisted SET list
  // ---------------------------------------------------------------------------

  /** A JSON request body that is an object. */
  type Body = map<string, Json>

  /** The columns `update_route_simple` may set, in the order it tries them. */
  const RouteFields: seq<string> := [
    "NomRoute", "ZoneDepart", "ZoneArrivee", "AlleeGauche", "AlleeDroite",
    "DeplacementDeb", "NiveauDeb", "DeplacementFin", "NiveauFin",
    "XDeb", "YDeb", "ZDeb", "XFin", "YFin", "ZFin",
    "LargeurAllee", "TypeEngin", "SensUnique", "SensDirection"]

  /** The fields of `fields` the body holds, in the order of `fields`. */
  function Present(data: Body, fields: seq<string>): (r: seq<string>)
    ensures forall f :: f in r <==> f in fields && f in data
  {
    if fields == [] then []
    else
      var f := fields[|fields| - 1];
      assert fields == fields[..|fields| - 1] + [f];
      Present(data, fields[..|fields| - 1]) + (if f in data then [f] else [])
  }

  /** The body's values of `fields`, in the same order. */
  function ValuesOf(data: Body, fields: seq<string>): (r: seq<Json>)
    requires forall f | f in fields :: f in data
    ensures |r| == |fields| && forall i | 0 <= i < |fields| :: r[i] == data[fields[i]]
  {
    seq(|fields|, i requires 0 <= i < |fields| => data[fields[i]])
  }

  /** `x` comes before `y` in `ws`. */
  predicate Before(ws: seq<string>, x: string, y: string) {
    exists a, b | 0 <= a < b < |ws| :: ws[a] == x && ws[b] == y
  }

  /** The chosen fields keep the order of the list they are chosen from. */
  lemma {:induction false} PresentInOrder(data: Body, fields: seq<string>)
    ensures forall i, j | 0 <= i < j < |Present(data, fields)| ::
      Before(fields, Present(data, fields)[i], Present(data, fields)[j])
    decreases |fields|
  {
    if fields != [] {
      var init := fields[..|fields| - 1];
      var f := fields[|fields| - 1];
      var p := Present(data, init);
      var r := Present(data, fields);
      PresentInOrder(data, init);
      forall i, j | 0 <= i < j < |r| ensures Before(fields, r[i], r[j]) {
        if j < |p| {
          assert r[i] == p[i] && r[j] == p[j];
          assert Before(init, p[i], p[j]);
          var a, b :| 0 <= a < b < |init| && init[a] == r[i] && init[b] == r[j];
          assert fields[a] == r[i] && fields[b] == r[j];
        } else {
          assert r[i] in p;
          var a :| 0 <= a < |init| && init[a] == r[i];
          assert fields[a] == r[i] && fields[|fields| - 1] == r[j];
        }
      }
    }
  }

  /**
   * The loop of `update_route_simple` over the field list `names`:
   * `updates.append(f"{field}=%s")` and `values.append(data[field])` for
   * each name the body holds.
   */
  method CollectUpdates(data: Body, names: seq<string>) returns (fields: seq<string>, values: seq<Json>)
    ensures fields == Present(data, names)
    ensures values == ValuesOf(data, fields)
  {
    fields, values := [], [];
    for i := 0 to |names|
      invariant fields == Present(data, names[..i])
      invariant values == ValuesOf(data, fields)
    {
      assert names[..i + 1][..i] == names[..i];
      if names[i] in data {
        fields := fields + [names[i]];
        values := values + [data[names[i]]];
      }
    }
    assert names[..|names|] == names;
  }

  /**
   * The statement's parameters are the body's values of the chosen fields in
   * whitelist order, then the route id: exactly the whitelisted keys of the
   * body are set, and nothing else reaches the SET list.
   */
  lemma UpdateParameters(data: Body, id: string)
    ensures var fields := Present(data, RouteFields);
      var params := ValuesOf(data, fields) + [JStr(id)];
      && (forall f :: f in fields <==> f in RouteFields && f in data)
      && (forall i, j | 0 <= i < j < |fields| :: Before(RouteFields, fields[i], fields[j]))
      && |params| == |fields| + 1
      && params[|fields|] == JStr(id)
      && (forall i | 0 <= i < |fields| :: params[i] == data[fields[i]])
  {
    PresentInOrder(data, RouteFields);
  }

  // ---------------------------------------------------------------------------
  // The route tables
  // ---------------------------------------------------------------------------

  /** A row of TblRouteSimple, column name to value. */
  type Record = map<string, Json>

  /** The HTTP outcome: 200, 400, or 500. */
  datatype Reply = Done | BadRequest | ServerError

  /** `data.get(key)`. */
  function Get(data: Body, key: string): Json {
    if key in data then data[key] else JNull
  }

  function PlaceOf(p: Parsed): Option<Place> {
    if p.Found? then Some(p.place) else None
  }

  function ZoneOr(p: Option<Place>): Json {
    if p.Some? then JStr(p.value.zone) else JNull
  }

  function AisleOr(p: Option<Place>): Json {
    if p.Some? then JInt(p.value.allee) else JNull
  }

  function BayOr(p: Option<Place>): Json {
    if p.Some? then JInt(p.value.deplacement) else JNull
  }

  function LevelOr(p: Option<Place>): Json {
    if p.Some? then JInt(p.value.niveau) else JNull
  }

  /** The columns `add_route_simple` copies from the body (`data.get`, SensUnique as a boolean). */
  function CopiedColumns(data: Body): Record {
    map[
      "XDeb" := Get(data, "XDeb"), "YDeb" := Get(data, "YDeb"), "ZDeb" := Get(data, "ZDeb"),
      "XFin" := Get(data, "XFin"), "YFin" := Get(data, "YFin"), "ZFin" := Get(data, "ZFin"),
      "LargeurAllee" := Get(data, "LargeurAllee"), "TypeEngin" := Get(data, "TypeEngin"),
      "SensUnique" := JBool(Truthy(Get(data, "SensUnique"))), "SensDirection" := Get(data, "SensDirection")]
  }

  /** The columns taken from the start endpoint (None when `parse_emp` found no place). */
  function StartColumns(emp1: Option<Place>): Record {
    map["ZoneDepart" := ZoneOr(emp1), "AlleeGauche" := AisleOr(emp1), "DeplacementDeb" := BayOr(emp1), "NiveauDeb" := LevelOr(emp1)]
  }

  /** The columns taken from the end endpoint. */
  function EndColumns(emp2: Option<Place>): Record {
    map["ZoneArrivee" := ZoneOr(emp2), "AlleeDroite" := AisleOr(emp2), "DeplacementFin" := BayOr(emp2), "NiveauFin" := LevelOr(emp2)]
  }

  /** The row `add_route_simple` inserts: the new id, the name, both endpoints and the copied columns. */
  function PrimaryRecord(data: Body, id: string, emp1: Option<Place>, emp2: Option<Place>): Record
    requires "NomRoute" in data
  {
    CopiedColumns(data) + map["IdRoute" := JStr(id), "NomRoute" := data["NomRoute"]] + StartColumns(emp1) + EndColumns(emp2)
  }

  /** The end endpoint's columns are looked up in `EndColumns`, which is applied last. */
  lemma EndColumnsWin(base: Record, emp2: Option<Place>)
    ensures var r := base + EndColumns(emp2);
      && r["ZoneArrivee"] == ZoneOr(emp2) && r["AlleeDroite"] == AisleOr(emp2)
      && r["DeplacementFin"] == BayOr(emp2) && r["NiveauFin"] == LevelOr(emp2)
  {
  }

  /** A column the end endpoint does not set keeps its value. */
  lemma EndColumnsKeep(base: Record, emp2: Option<Place>, k: string)
    requires k in base && k in {"IdRoute", "NomRoute", "ZoneDepart", "AlleeGauche", "DeplacementDeb", "NiveauDeb"}
    ensures (base + EndColumns(emp2))[k] == base[k]
  {
    assert EndColumns(emp2).Keys == {"ZoneArrivee", "AlleeDroite", "DeplacementFin", "NiveauFin"};
  }

  /** The start endpoint's columns are looked up in `StartColumns`. */
  lemma StartColumnsWin(base: Record, emp1: Option<Place>)
    ensures var r := base + StartColumns(emp1);
      && r["ZoneDepart"] == ZoneOr(emp1) && r["AlleeGauche"] == AisleOr(emp1)
      && r["DeplacementDeb"] == BayOr(emp1) && r["NiveauDeb"] == LevelOr(emp1)
  {
  }

  /** The inserted row holds the id, the name and the two endpoints' zone, aisle, bay and level. */
  lemma PrimaryRecordFields(data: Body, id: string, emp1: Option<Place>, emp2: Option<Place>)
    requires "NomRoute" in data
    ensures var r := PrimaryRecord(data, id, emp1, emp2);
      && r["IdRoute"] == JStr(id) && r["NomRoute"] == data["NomRoute"]
      && r["ZoneDepart"] == ZoneOr(emp1) && r["AlleeGauche"] == AisleOr(emp1)
      && r["DeplacementDeb"] == BayOr(emp1) && r["NiveauDeb"] == LevelOr(emp1)
      && r["ZoneArrivee"] == ZoneOr(emp2) && r["AlleeDroite"] == AisleOr(emp2)
      && r["DeplacementFin"] == BayOr(emp2) && r["NiveauFin"] == LevelOr(emp2)
  {
    var named := CopiedColumns(data) + map["IdRoute" := JStr(id), "NomRoute" := data["NomRoute"]];
    var base := named + StartColumns(emp1);
    StartColumnsWin(named, emp1);
    StartColumnsKeep(named, emp1, "IdRoute");
    StartColumnsKeep(named, emp1, "NomRoute");
    EndColumnsWin(base, emp2);
    EndColumnsKeep(base, emp2, "IdRoute");
    EndColumnsKeep(base, emp2, "NomRoute");
    EndColumnsKeep(base, emp2, "ZoneDepart");
    EndColumnsKeep(base, emp2, "AlleeGauche");
    EndColumnsKeep(base, emp2, "DeplacementDeb");
    EndColumnsKeep(base, emp2, "NiveauDeb");
  }

  /** The id and the name are not start columns. */
  lemma StartColumnsKeep(base: Record, emp1: Option<Place>, k: string)
    requires k in base && k in {"IdRoute", "NomRoute"}
    ensures (base + StartColumns(emp1))[k] == base[k]
  {
    assert StartColumns(emp1).Keys == {"ZoneDepart", "AlleeGauche", "DeplacementDeb", "NiveauDeb"};
  }

  /** What the secondary segments copy from the new route. */
  function CarriedOf(data: Body, id: string): Carried {
    Carried(id, Get(data, "LargeurAllee"), Get(data, "TypeEngin"), Truthy(Get(data, "SensUnique")), Get(data, "SensDirection"))
  }

  /** The two tables a route handler changes. */
  datatype Tables = Tables(routes: seq<Record>, segments: seq<Segment>)

  /** The body passes the `if not data or "NomRoute" not in data` guard. */
  predicate Named(body: Option<Body>) {
    body.Some? && body.value != map[] && "NomRoute" in body.value
  }

  /**
   * `add_route_simple` with route id `id`, against the locations `sites`. An
   * absent or empty body, or one without NomRoute, is refused before any
   * write; an endpoint `parse_emp` cannot read raises before any write. The
   * primary row is committed before the generator runs, and the generator's
   * failures are only logged.
   */
  function AddRoute(t: Tables, body: Option<Body>, id: string, sites: seq<Site>): (Tables, Reply) {
    if !Named(body) then (t, BadRequest)
    else
      var data := body.value;
      var emp1, emp2 := ParseEmp(Get(data, "EmpDeb")), ParseEmp(Get(data, "EmpFin"));
      if emp1.Raises? || emp2.Raises? then (t, ServerError)
      else
        var routes := t.routes + [PrimaryRecord(data, id, PlaceOf(emp1), PlaceOf(emp2))];
        match SecondaryRoutes(PlaceOf(emp1), PlaceOf(emp2), sites, CarriedOf(data, id))
        case Created(segs) => (Tables(routes, t.segments + segs), Done)
        case _ => (Tables(routes, t.segments), Done)
  }

  /** The row the SET list leaves: each field in turn takes its value. */
  function Assigned(r: Record, fields: seq<string>, values: seq<Json>): Record
    requires |fields| == |values|
  {
    if fields == [] then r
    else Assigned(r, fields[..|fields| - 1], values[..|values| - 1])[fields[|fields| - 1] := values[|values| - 1]]
  }

  predicate HasId(r: Record, id: Json) {
    "IdRoute" in r && r["IdRoute"] == id
  }

  /** `UPDATE TblRouteSimple SET f1=%s, ..., fn=%s WHERE IdRoute=%s` with parameters `params`. */
  function Execute(routes: seq<Record>, fields: seq<string>, params: seq<Json>): (r: seq<Record>)
    requires |params| == |fields| + 1
    ensures |r| == |routes|
  {
    seq(|routes|, i requires 0 <= i < |routes| =>
      if HasId(routes[i], params[|fields|]) then Assigned(routes[i], fields, params[..|fields|]) else routes[i])
  }

  /**
   * `update_route_simple`: a missing body raises inside the handler (500), a
   * body with no whitelisted field is refused (400), and nothing is written
   * in either case.
   */
  function UpdateRoute(routes: seq<Record>, body: Option<Body>, id: string): (seq<Record>, Reply) {
    if body.None? then (routes, ServerError)
    else
      var fields := Present(body.value, RouteFields);
      if fields == [] then (routes, BadRequest)
      else (Execute(routes, fields, ValuesOf(body.value, fields) + [JStr(id)]), Done)
  }

  /**
   * What an accepted update should leave in a route row, stated directly:
   * every whitelisted column the body names takes the body's value, every
   * other column keeps its value.
   */
  function Updated(r: Record, data: Body, names: seq<string>): Record {
    map k | k in r.Keys + data.Keys && (k in r || k in names) ::
      if k in names && k in data then data[k] else r[k]
  }

  /**
   * Setting each field in turn to the body's value for it leaves the body's
   * value in every field named, whether or not a field repeats, and keeps
   * every other column.
   */
  lemma {:induction false} AssignedFrom(r: Record, data: Body, fields: seq<string>)
    requires forall f | f in fields :: f in data
    ensures var a := Assigned(r, fields, ValuesOf(data, fields));
      && (forall k :: k in a <==> k in r || k in fields)
      && (forall k | k in fields :: a[k] == data[k])
      && (forall k | k in r && k !in fields :: a[k] == r[k])
    decreases |fields|
  {
    if fields != [] {
      var n := |fields| - 1;
      var init := fields[..n];
      assert ValuesOf(data, fields)[..n] == ValuesOf(data, init);
      AssignedFrom(r, data, init);
      assert fields == init + [fields[n]];
    }
  }

  /** The positional SET list leaves exactly the row `Updated` describes. */
  lemma AssignedIsUpdated(r: Record, data: Body, names: seq<string>)
    ensures var fields := Present(data, names);
      Assigned(r, fields, ValuesOf(data, fields)) == Updated(r, data, names)
  {
    var fields := Present(data, names);
    var a := Assigned(r, fields, ValuesOf(data, fields));
    var u := Updated(r, data, names);
    AssignedFrom(r, data, fields);
    UpdatedMeaning(r, data, names);
    forall k ensures k in a <==> k in u {
      assert k in fields <==> k in names && k in data;
    }
    forall k | k in a ensures a[k] == u[k] {
      assert k in fields <==> k in names && k in data;
    }
  }

  /**
   * An update without a body, or whose body names no whitelisted column,
   * writes nothing; only the second is a 400.
   */
  lemma UpdateRefusals(routes: seq<Record>, body: Option<Body>, id: string)
    ensures UpdateRoute(routes, body, id).1 == BadRequest <==>
      body.Some? && forall f | f in RouteFields :: f !in body.value
    ensures UpdateRoute(routes, body, id).1 != Done ==> UpdateRoute(routes, body, id).0 == routes
  {
    if body.Some? && Present(body.value, RouteFields) != [] {
      assert Present(body.value, RouteFields)[0] in Present(body.value, RouteFields);
    }
  }

  /**
   * An accepted update leaves each row with the route's id as `Updated`
   * describes, and every other row as it was; no row is added or removed.
   */
  lemma UpdateRouteMeaning(routes: seq<Record>, body: Option<Body>, id: string)
    requires UpdateRoute(routes, body, id).1 == Done
    ensures var after := UpdateRoute(routes, body, id).0;
      && |after| == |routes|
      && forall i | 0 <= i < |routes| ::
        after[i] == if HasId(routes[i], JStr(id)) then Updated(routes[i], body.value, RouteFields) else routes[i]
  {
    var data := body.value;
    var fields := Present(data, RouteFields);
    var values := ValuesOf(data, fields);
    var params := values + [JStr(id)];
    assert params[..|fields|] == values && params[|fields|] == JStr(id);
    forall i | 0 <= i < |routes| && HasId(routes[i], JStr(id))
      ensures Execute(routes, fields, params)[i] == Updated(routes[i], data, RouteFields)
    {
      AssignedIsUpdated(routes[i], data, RouteFields);
    }
  }

  /** The reference row: the whitelisted columns the body names take its values, the rest are kept. */
  lemma UpdatedMeaning(r: Record, data: Body, names: seq<string>)
    ensures forall k :: k in Updated(r, data, names) <==> k in r || (k in names && k in data)
    ensures forall k | k in names && k in data :: Updated(r, data, names)[k] == data[k]
    ensures forall k | k in r && !(k in names && k in data) :: Updated(r, data, names)[k] == r[k]
  {
  }

  /**
   * The handlers over the two tables: TblRouteSimple as `routes` and
   * TblRouteSecondaire as `segments`.
   */
  class RouteTables {
    var routes: seq<Record>
    var segments: seq<Segment>

    constructor()
      ensures routes == [] && segments == []
    {
      routes, segments := [], [];
    }

    /** `add_route_simple`, with the fresh route id `id` and the current locations `sites`. */
    method Add(body: Option<Body>, id: string, sites: seq<Site>) returns (reply: Reply)
      modifies this
      ensures (Tables(routes, segments), reply) == AddRoute(Tables(old(routes), old(segments)), body, id, sites)
    {
      if !Named(body) {
        return BadRequest;
      }
      var data := body.value;
      var emp1, emp2 := ParseEmp(Get(data, "EmpDeb")), ParseEmp(Get(data, "EmpFin"));
      if emp1.Raises? || emp2.Raises? {
        return ServerError;
      }
      routes := routes + [PrimaryRecord(data, id, PlaceOf(emp1), PlaceOf(emp2))];
      var generation := SecondaryRoutes(PlaceOf(emp1), PlaceOf(emp2), sites, CarriedOf(data, id));
      if generation.Created? {
        var c := CarriedOf(data, id);
        var found := InZones(sites, PlaceOf(emp1).value.zone, PlaceOf(emp2).value.zone);
        var segs := GenerateSegments(found, c, Half(c.width).value);
        segments := segments + segs;
      }
      reply := Done;
    }

    /** `update_route_simple` for the route `id`. */
    method Update(body: Option<Body>, id: string) returns (reply: Reply)
      modifies this
      ensures (routes, reply) == UpdateRoute(old(routes), body, id)
      ensures segments == old(segments)
    {
      if body.None? {
        return ServerError;
      }
      var fields, values := CollectUpdates(body.value, RouteFields);
      if fields == [] {
        return BadRequest;
      }
      values := values + [JStr(id)];
      routes := Execute(routes, fields, values);
      reply := Done;
    }
  }

  /** A body that fails the NomRoute guard, or an endpoint that raises, leaves both tables as they were. */
  lemma AddRouteRefusals(t: Tables, body: Option<Body>, id: string, sites: seq<Site>)
    ensures !Named(body) ==> AddRoute(t, body, id, sites) == (t, BadRequest)
    ensures AddRoute(t, body, id, sites).1 != Done ==> AddRoute(t, body, id, sites).0 == t
  {
  }

  /**
   * Once the guard passes and both endpoints are read, the reply is success
   * whatever the generator does: exactly one primary row is added, and the
   * secondary table grows by the generated segments or not at all.
   */
  lemma AddRouteAccepted(t: Tables, body: Option<Body>, id: string, sites: seq<Site>)
    requires Named(body)
    requires !ParseEmp(Get(body.value, "EmpDeb")).Raises? && !ParseEmp(Get(body.value, "EmpFin")).Raises?
    ensures var data := body.value;
      var emp1, emp2 := PlaceOf(ParseEmp(Get(data, "EmpDeb"))), PlaceOf(ParseEmp(Get(data, "EmpFin")));
      var g := SecondaryRoutes(emp1, emp2, sites, CarriedOf(data, id));
      AddRoute(t, body, id, sites) ==
        (Tables(t.routes + [PrimaryRecord(data, id, emp1, emp2)], t.segments + (if g.Created? then g.segments else [])), Done)
  {
    var g := SecondaryRoutes(PlaceOf(ParseEmp(Get(body.value, "EmpDeb"))), PlaceOf(ParseEmp(Get(body.value, "EmpFin"))), sites, CarriedOf(body.value, id));
    if !g.Created? {
      assert t.segments + [] == t.segments;
    }
  }

  /**
   * An accepted route gets the given id and name, and every segment generated
   * for it points back to it and lies in one of its two endpoint zones.
   */
  lemma AddRouteMeaning(t: Tables, body: Option<Body>, id: string, sites: seq<Site>)
    requires Named(body)
    requires !ParseEmp(Get(body.value, "EmpDeb")).Raises? && !ParseEmp(Get(body.value, "EmpFin")).Raises?
    ensures var after := AddRoute(t, body, id, sites).0;
      && |after.routes| == |t.routes| + 1
      && after.routes[|t.routes|]["IdRoute"] == JStr(id)
      && after.routes[|t.routes|]["NomRoute"] == body.value["NomRoute"]
      && after.segments[..|t.segments|] == t.segments
      && forall seg | seg in after.segments[|t.segments|..] ::
        && seg.carried.principal == id
        && (seg.zone == ParseEmp(Get(body.value, "EmpDeb")).place.zone || seg.zone == ParseEmp(Get(body.value, "EmpFin")).place.zone)
  {
    var data := body.value;
    var e1, e2 := ParseEmp(Get(data, "EmpDeb")), ParseEmp(Get(data, "EmpFin"));
    var g := SecondaryRoutes(PlaceOf(e1), PlaceOf(e2), sites, CarriedOf(data, id));
    AddRouteAccepted(t, body, id, sites);
    PrimaryRecordFields(data, id, PlaceOf(e1), PlaceOf(e2));
    var added := if g.Created? then g.segments else [];
    assert (t.segments + added)[|t.segments|..] == added;
    if g.Created? {
      SecondaryRoutesMeaning(PlaceOf(e1).value, PlaceOf(e2).value, sites, CarriedOf(data, id));
    }
  }

  /** A body whose two endpoints `parse_emp` reads as places adds the row built from those places. */
  lemma AddRouteBetween(t: Tables, body: Body, id: string, sites: seq<Site>, p1: Place, p2: Place)
    requires "NomRoute" in body
    requires ParseEmp(Get(body, "EmpDeb")) == Found(p1) && ParseEmp(Get(body, "EmpFin")) == Found(p2)
    ensures var after := AddRoute(t, Some(body), id, sites).0;
      after.routes == t.routes + [PrimaryRecord(body, id, Some(p1), Some(p2))]
  {
    assert body != map[] by {
      assert "NomRoute" in body.Keys;
    }
    AddRouteAccepted(t, Some(body), id, sites);
  }

  /**
   * A route drawn between two listed labels records the exact endpoints:
   * ZoneDepart, AlleeGauche, DeplacementDeb and NiveauDeb from the first,
   * ZoneArrivee, AlleeDroite, DeplacementFin and NiveauFin from the second.
   */
  lemma RouteBetweenLabels(t: Tables, body: Body, id: string, sites: seq<Site>, p1: Place, p2: Place)
    requires "NomRoute" in body
    requires "EmpDeb" in body && body["EmpDeb"] == JStr(Label(p1))
    requires "EmpFin" in body && body["EmpFin"] == JStr(Label(p2))
    requires '-' !in p1.zone && p1.allee >= 0 && p1.deplacement >= 0 && p1.niveau >= 0
    requires '-' !in p2.zone && p2.allee >= 0 && p2.deplacement >= 0 && p2.niveau >= 0
    ensures var after := AddRoute(t, Some(body), id, sites).0;
      && |after.routes| == |t.routes| + 1
      && after.routes[..|t.routes|] == t.routes
      && after.routes[|t.routes|]["ZoneDepart"] == JStr(p1.zone)
      && after.routes[|t.routes|]["AlleeGauche"] == JInt(p1.allee)
      && after.routes[|t.routes|]["DeplacementDeb"] == JInt(p1.deplacement)
      && after.routes[|t.routes|]["NiveauDeb"] == JInt(p1.niveau)
      && after.routes[|t.routes|]["ZoneArrivee"] == JStr(p2.zone)
      && after.routes[|t.routes|]["AlleeDroite"] == JInt(p2.allee)
      && after.routes[|t.routes|]["DeplacementFin"] == JInt(p2.deplacement)
      && after.routes[|t.routes|]["NiveauFin"] == JInt(p2.niveau)
  {
    LabelParses(p1);
    LabelParses(p2);
    AddRouteBetween(t, body, id, sites, p1, p2);
    PrimaryRecordFields(body, id, Some(p1), Some(p2));
  }
}

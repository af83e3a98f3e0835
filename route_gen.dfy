/**
 * `_create_routes_secondaires` (routes.py): from every location of the two
 * endpoint zones of a primary route, one "parallele" segment between each pair
 * of neighbouring bays of an aisle level and one "perpendiculaire" spur per
 * location, all inserted together or not at all.
 */
module RouteGen {
  import opened Wrappers
  import opened Values
  import opened Ordering
  import opened Labels

  /** A row of `SELECT Zone, Allee, Deplacement, Niveau, X, Y, Z FROM TblEmplacement`. */
  datatype Site = Site(place: Place, x: real, y: real, z: real)

  datatype Point = Point(x: real, y: real, z: real)

  function PointOf(e: Site): Point {
    Point(e.x, e.y, e.z)
  }

  /** The TypeRoute column: "parallele" or "perpendiculaire". */
  datatype Kind = Parallel | Perpendicular

  function KindName(k: Kind): string {
    match k
    case Parallel => "parallele"
    case Perpendicular => "perpendiculaire"
  }

  /** What every segment copies from its primary route: IdRoutePrincipale, Largeur, TypeEngin, SensUnique, SensDirection. */
  datatype Carried = Carried(principal: string, width: Json, engin: Json, oneWay: bool, direction: Json)

  /**
   * A row of TblRouteSecondaire, less its random IdRouteSecondaire. The
   * EmpSource and EmpCible columns hold the labels of `source` and `target`
   * (`EmpSource`, `EmpCible`).
   */
  datatype Segment = Segment(
    kind: Kind, zone: string, allee: int, side: string,
    source: Place, target: Option<Place>, start: Point, end: Point, carried: Carried)

  /** The EmpSource column. */
  function EmpSource(seg: Segment): string {
    Label(seg.source)
  }

  /** The EmpCible column: NULL for a spur. */
  function EmpCible(seg: Segment): Option<string> {
    if seg.target.Some? then Some(Label(seg.target.value)) else None
  }

  /** The Cote column: "pair" for an even bay, "impair" for an odd one. */
  function SideOf(bay: int): string {
    if bay % 2 == 0 then "pair" else "impair"
  }

  /** `largeur / 2.0`: a number (a boolean counts as 0 or 1); `None` and text raise `TypeError`. */
  function Half(width: Json): (r: Option<real>)
    ensures r.None? <==> width.JNull? || width.JStr?
    ensures width.JInt? ==> r == Some(width.i as real / 2.0)
  {
    match width
    case JNull => None
    case JBool(b) => Some(if b then 0.5 else 0.0)
    case JInt(i) => Some(i as real / 2.0)
    case JFloat(f, _) => Some(f / 2.0)
    case JStr(_) => None
  }

  /** `WHERE Zone IN (%s, %s)`, in table order. */
  function InZones(sites: seq<Site>, z1: string, z2: string): (r: seq<Site>)
    ensures forall e :: e in r <==> e in sites && (e.place.zone == z1 || e.place.zone == z2)
  {
    if sites == [] then []
    else
      var e := sites[|sites| - 1];
      assert sites == sites[..|sites| - 1] + [e];
      InZones(sites[..|sites| - 1], z1, z2) + (if e.place.zone == z1 || e.place.zone == z2 then [e] else [])
  }

  /** The key of `groupby(["zone", "allee", "niveau"])`. */
  datatype GroupKey = GroupKey(zone: string, allee: int, niveau: int)

  function KeyOf(e: Site): GroupKey {
    GroupKey(e.place.zone, e.place.allee, e.place.niveau)
  }

  /** The order `groupby` visits its groups in: by zone text, then aisle, then level. */
  predicate KeyLess(a: GroupKey, b: GroupKey) {
    || LexLess(a.zone, b.zone)
    || (a.zone == b.zone && a.allee < b.allee)
    || (a.zone == b.zone && a.allee == b.allee && a.niveau < b.niveau)
  }

  lemma KeyIsStrictTotalOrder()
    ensures StrictTotalOrder(KeyLess)
  {
    forall a: GroupKey ensures !KeyLess(a, a) {
      LexIrreflexive(a.zone);
    }
    forall a: GroupKey, b: GroupKey, c: GroupKey | KeyLess(a, b) && KeyLess(b, c) ensures KeyLess(a, c) {
      if LexLess(a.zone, b.zone) && LexLess(b.zone, c.zone) {
        LexTransitive(a.zone, b.zone, c.zone);
      }
    }
    forall a: GroupKey, b: GroupKey | a != b ensures KeyLess(a, b) || KeyLess(b, a) {
      if a.zone != b.zone {
        LexTotal(a.zone, b.zone);
      }
    }
  }

  function KeysOf(sites: seq<Site>): (r: seq<GroupKey>)
    ensures |r| == |sites| && forall i | 0 <= i < |sites| :: r[i] == KeyOf(sites[i])
  {
    seq(|sites|, i requires 0 <= i < |sites| => KeyOf(sites[i]))
  }

  /** The groups' keys, each once, in the order `groupby` visits them. */
  function GroupKeys(sites: seq<Site>): (r: seq<GroupKey>)
    ensures StrictlySorted(KeyLess, r)
    ensures forall k :: k in r <==> k in KeysOf(sites)
  {
    KeyIsStrictTotalOrder();
    SortedDistinct(KeyLess, KeysOf(sites))
  }

  /** The rows of one group, in table order. */
  function Members(sites: seq<Site>, k: GroupKey): (r: seq<Site>)
    ensures forall e :: e in r <==> e in sites && KeyOf(e) == k
  {
    if sites == [] then []
    else
      var e := sites[|sites| - 1];
      assert sites == sites[..|sites| - 1] + [e];
      Members(sites[..|sites| - 1], k) + (if KeyOf(e) == k then [e] else [])
  }

  predicate BayOrdered(g: seq<Site>) {
    forall i, j | 0 <= i < j < |g| :: g[i].place.deplacement <= g[j].place.deplacement
  }

  /** Puts `e` before the first row whose bay is not smaller. */
  function InsertByBay(e: Site, g: seq<Site>): (r: seq<Site>)
    ensures multiset(r) == multiset(g) + multiset{e}
  {
    if g == [] || e.place.deplacement <= g[0].place.deplacement then [e] + g
    else
      assert g == [g[0]] + g[1..];
      [g[0]] + InsertByBay(e, g[1..])
  }

  lemma InsertedBelow(e: Site, g: seq<Site>, bound: int)
    requires forall j | 0 <= j < |g| :: bound <= g[j].place.deplacement
    requires bound <= e.place.deplacement
    ensures forall x | x in InsertByBay(e, g) :: bound <= x.place.deplacement
  {
    forall x | x in InsertByBay(e, g) ensures bound <= x.place.deplacement {
      assert x in multiset(InsertByBay(e, g));
      assert x == e || x in multiset(g);
    }
  }

  lemma {:induction false} InsertByBayOrdered(e: Site, g: seq<Site>)
    requires BayOrdered(g)
    ensures BayOrdered(InsertByBay(e, g))
    decreases |g|
  {
    if g != [] && e.place.deplacement > g[0].place.deplacement {
      var t := InsertByBay(e, g[1..]);
      InsertByBayOrdered(e, g[1..]);
      InsertedBelow(e, g[1..], g[0].place.deplacement);
      assert forall j | 0 <= j < |t| :: t[j] in t;
      assert BayOrdered([g[0]] + t);
    }
  }

  /** `grp.sort_values("deplacement")`: the rows by bay, a permutation of the group. */
  function SortByBay(g: seq<Site>): (r: seq<Site>)
    ensures multiset(r) == multiset(g)
    ensures BayOrdered(r)
  {
    if g == [] then []
    else
      assert g == [g[0]] + g[1..];
      InsertByBayOrdered(g[0], SortByBay(g[1..]));
      InsertByBay(g[0], SortByBay(g[1..]))
  }

  /** One group of the generator: the rows with key `k`, by bay. */
  function Group(sites: seq<Site>, k: GroupKey): (r: seq<Site>)
    ensures BayOrdered(r)
    ensures |r| == |Members(sites, k)|
    ensures forall e :: e in r <==> e in sites && KeyOf(e) == k
  {
    var m := Members(sites, k);
    var r := SortByBay(m);
    assert |r| == |multiset(r)| == |multiset(m)| == |m|;
    forall e ensures e in r <==> e in m {
      assert e in r <==> e in multiset(r);
      assert e in m <==> e in multiset(m);
    }
    r
  }

  /** The place whose label the generator writes for a row of group `k`: the group's zone and aisle, the row's bay and level. */
  function GroupPlace(k: GroupKey, e: Site): Place {
    Place(k.zone, k.allee, e.place.deplacement, e.place.niveau)
  }

  /** The "parallele" segment from row `i` of a group to row `i + 1`. */
  function LinkAt(k: GroupKey, g: seq<Site>, i: nat, c: Carried): Segment
    requires i + 1 < |g|
  {
    Segment(Parallel, k.zone, k.allee, SideOf(g[i].place.deplacement),
      GroupPlace(k, g[i]), Some(GroupPlace(k, g[i + 1])), PointOf(g[i]), PointOf(g[i + 1]), c)
  }

  /** The "perpendiculaire" spur of a row: no EmpCible, the end shifted by half the aisle width along x. */
  function SpurOf(k: GroupKey, e: Site, c: Carried, half: real): Segment {
    Segment(Perpendicular, k.zone, k.allee, SideOf(e.place.deplacement),
      GroupPlace(k, e), None, PointOf(e), Point(e.x + half, e.y, e.z), c)
  }

  function Links(k: GroupKey, g: seq<Site>, c: Carried): seq<Segment> {
    if g == [] then [] else seq(|g| - 1, i requires 0 <= i < |g| - 1 => LinkAt(k, g, i, c))
  }

  function Spurs(k: GroupKey, g: seq<Site>, c: Carried, half: real): seq<Segment> {
    seq(|g|, i requires 0 <= i < |g| => SpurOf(k, g[i], c, half))
  }

  /** What one group adds: its links, then its spurs. */
  function Block(k: GroupKey, g: seq<Site>, c: Carried, half: real): seq<Segment> {
    Links(k, g, c) + Spurs(k, g, c, half)
  }

  /** The blocks of the groups `keys`, in that order. */
  function SegmentsFor(sites: seq<Site>, keys: seq<GroupKey>, c: Carried, half: real): seq<Segment> {
    if keys == [] then []
    else
      var k := keys[|keys| - 1];
      SegmentsFor(sites, keys[..|keys| - 1], c, half) + Block(k, Group(sites, k), c, half)
  }

  /** The `routes` list the generator builds from the selected rows. */
  function Segments(sites: seq<Site>, c: Carried, half: real): seq<Segment> {
    SegmentsFor(sites, GroupKeys(sites), c, half)
  }

  /** How a generation ends: an exception it logs, the early return on no rows, or the inserted segments. */
  datatype Generation = Crashed | NothingFound | Created(segments: seq<Segment>)

  /**
   * The whole generator. A missing endpoint place fails at `emp1["Zone"]`, an
   * aisle width that is not a number fails at the first spur; either way the
   * exception is caught before `executemany`, so nothing is inserted.
   */
  function SecondaryRoutes(emp1: Option<Place>, emp2: Option<Place>, sites: seq<Site>, c: Carried): Generation
  {
    if emp1.None? || emp2.None? then Crashed
    else
      var found := InZones(sites, emp1.value.zone, emp2.value.zone);
      if found == [] then NothingFound
      else match Half(c.width)
        case None => Crashed
        case Some(h) => Created(Segments(found, c, h))
  }

  // ---------------------------------------------------------------------------
  // The loops of the generator
  // ---------------------------------------------------------------------------

  /** `for i in range(len(grp) - 1)`: the links between consecutive rows. */
  method AppendLinks(routes0: seq<Segment>, k: GroupKey, g: seq<Site>, c: Carried) returns (routes: seq<Segment>)
    ensures routes == routes0 + Links(k, g, c)
  {
    routes := routes0;
    if g != [] {
      var links := Links(k, g, c);
      for i := 0 to |g| - 1
        invariant routes == routes0 + links[..i]
      {
        var link := LinkAt(k, g, i, c);
        assert link == links[i];
        assert links[..i + 1] == links[..i] + [link];
        routes := routes + [link];
      }
      assert links[..|g| - 1] == links;
    }
  }

  /** `for _, e in grp.iterrows()`: one spur per row. */
  method AppendSpurs(routes0: seq<Segment>, k: GroupKey, g: seq<Site>, c: Carried, half: real) returns (routes: seq<Segment>)
    ensures routes == routes0 + Spurs(k, g, c, half)
  {
    routes := routes0;
    var spurs := Spurs(k, g, c, half);
    for i := 0 to |g|
      invariant routes == routes0 + spurs[..i]
    {
      ghost var next := spurs[..i + 1];
      assert spurs[i] == SpurOf(k, g[i], c, half);
      routes := routes + [spurs[i]];
      assert next == spurs[..i] + [spurs[i]];
    }
    assert spurs[..|g|] == spurs;
  }

  /** The two inner loops of one group. */
  method AppendBlock(routes0: seq<Segment>, k: GroupKey, g: seq<Site>, c: Carried, half: real) returns (routes: seq<Segment>)
    ensures routes == routes0 + Block(k, g, c, half)
  {
    routes := AppendLinks(routes0, k, g, c);
    routes := AppendSpurs(routes, k, g, c, half);
  }

  /** The outer loop over the groups, in `groupby` order. */
  method GenerateSegments(sites: seq<Site>, c: Carried, half: real) returns (routes: seq<Segment>)
    ensures routes == Segments(sites, c, half)
  {
    var keys := GroupKeys(sites);
    routes := [];
    for j := 0 to |keys|
      invariant routes == SegmentsFor(sites, keys[..j], c, half)
    {
      SegmentsForStep(sites, keys, j, c, half);
      var g := Group(sites, keys[j]);
      routes := AppendBlock(routes, keys[j], g, c, half);
    }
    assert keys[..|keys|] == keys;
  }

  /** One more group adds its block at the end. */
  lemma SegmentsForStep(sites: seq<Site>, keys: seq<GroupKey>, j: nat, c: Carried, half: real)
    requires j < |keys|
    ensures SegmentsFor(sites, keys[..j + 1], c, half) ==
      SegmentsFor(sites, keys[..j], c, half) + Block(keys[j], Group(sites, keys[j]), c, half)
  {
    assert keys[..j + 1][..j] == keys[..j];
  }

  // ---------------------------------------------------------------------------
  // How many segments: 2·N − (number of groups)
  // ---------------------------------------------------------------------------

  /** The sizes of the groups `keys`, added up. */
  function SizeSum(sites: seq<Site>, keys: seq<GroupKey>): nat {
    if keys == [] then 0
    else SizeSum(sites, keys[..|keys| - 1]) + |Members(sites, keys[|keys| - 1])|
  }

  /** A group of `n` rows adds `n - 1` links and `n` spurs. */
  lemma {:induction false} SegmentsForLength(sites: seq<Site>, keys: seq<GroupKey>, c: Carried, half: real)
    requires forall k | k in keys :: Members(sites, k) != []
    ensures |SegmentsFor(sites, keys, c, half)| == 2 * SizeSum(sites, keys) - |keys|
    decreases |keys|
  {
    if keys != [] {
      var init := keys[..|keys| - 1];
      forall k | k in init ensures Members(sites, k) != [] {
        assert k in keys;
      }
      SegmentsForLength(sites, init, c, half);
    }
  }

  /** One more row adds one to the size of the groups of its key. */
  lemma {:induction false} SizeSumSnoc(sites: seq<Site>, e: Site, keys: seq<GroupKey>)
    ensures SizeSum(sites + [e], keys) == SizeSum(sites, keys) + multiset(keys)[KeyOf(e)]
    decreases |keys|
  {
    if keys != [] {
      var init := keys[..|keys| - 1];
      SizeSumSnoc(sites, e, init);
      assert (sites + [e])[..|sites|] == sites;
      assert keys == init + [keys[|keys| - 1]];
    }
  }

  lemma {:induction false} DistinctOnce(keys: seq<GroupKey>, x: GroupKey)
    requires forall i, j | 0 <= i < j < |keys| :: keys[i] != keys[j]
    ensures multiset(keys)[x] == if x in keys then 1 else 0
    decreases |keys|
  {
    if keys != [] {
      var init := keys[..|keys| - 1];
      DistinctOnce(init, x);
      assert keys == init + [keys[|keys| - 1]];
      assert keys[|keys| - 1] !in init;
    }
  }

  /** The groups of distinct keys that cover every row hold every row once. */
  lemma {:induction false} SizeSumCovers(sites: seq<Site>, keys: seq<GroupKey>)
    requires forall i, j | 0 <= i < j < |keys| :: keys[i] != keys[j]
    requires forall e | e in sites :: KeyOf(e) in keys
    ensures SizeSum(sites, keys) == |sites|
    decreases |sites|
  {
    if sites == [] {
      SizeSumOfNothing(keys);
    } else {
      var init := sites[..|sites| - 1];
      var e := sites[|sites| - 1];
      assert sites == init + [e];
      SizeSumCovers(init, keys);
      SizeSumSnoc(init, e, keys);
      DistinctOnce(keys, KeyOf(e));
    }
  }

  lemma {:induction false} SizeSumOfNothing(keys: seq<GroupKey>)
    ensures SizeSum([], keys) == 0
    decreases |keys|
  {
    if keys != [] {
      SizeSumOfNothing(keys[..|keys| - 1]);
    }
  }

  /** The generator makes `2·N − G` segments from `N` rows in `G` groups. */
  lemma SegmentCount(sites: seq<Site>, c: Carried, half: real)
    ensures |Segments(sites, c, half)| == 2 * |sites| - |GroupKeys(sites)|
  {
    var keys := GroupKeys(sites);
    forall i, j | 0 <= i < j < |keys| ensures keys[i] != keys[j] {
      assert KeyLess(keys[i], keys[j]);
      KeyIsStrictTotalOrder();
    }
    forall e | e in sites ensures KeyOf(e) in keys {
      var i :| 0 <= i < |sites| && sites[i] == e;
      assert KeysOf(sites)[i] == KeyOf(e);
    }
    forall k | k in keys ensures Members(sites, k) != [] {
      var i :| 0 <= i < |sites| && KeysOf(sites)[i] == k;
      assert sites[i] in Members(sites, k);
    }
    SizeSumCovers(sites, keys);
    SegmentsForLength(sites, keys, c, half);
  }

  // ---------------------------------------------------------------------------
  // What each segment is
  // ---------------------------------------------------------------------------

  /** `seg` starts at row `a`: zone, aisle, side, EmpSource and start point are `a`'s. */
  predicate StartsAt(seg: Segment, a: Site) {
    && seg.zone == a.place.zone
    && seg.allee == a.place.allee
    && seg.side == SideOf(a.place.deplacement)
    && seg.source == a.place
    && seg.start == PointOf(a)
  }

  /** A spur of `a`: perpendicular, no EmpCible, ending half an aisle width further along x. */
  predicate IsSpurOf(seg: Segment, a: Site, half: real) {
    seg.kind == Perpendicular && StartsAt(seg, a) && seg.target.None? && seg.end == Point(a.x + half, a.y, a.z)
  }

  /** `a` and `b` are neighbouring bays of one aisle level: no row of that level lies strictly between them. */
  predicate Neighbours(sites: seq<Site>, a: Site, b: Site) {
    && a in sites && b in sites
    && KeyOf(a) == KeyOf(b)
    && a.place.deplacement <= b.place.deplacement
    && forall m | m in sites && KeyOf(m) == KeyOf(a) ::
         !(a.place.deplacement < m.place.deplacement < b.place.deplacement)
  }

  /** A link from `a` to `b`: parallel, EmpCible the label of `b`, ending at `b`. */
  predicate IsLinkOf(seg: Segment, a: Site, b: Site) {
    seg.kind == Parallel && StartsAt(seg, a) && seg.target == Some(b.place) && seg.end == PointOf(b)
  }

  /** What every generated segment is: a spur of a selected row or a link between neighbours, carrying the route's fields. */
  predicate Justified(seg: Segment, sites: seq<Site>, c: Carried, half: real) {
    && seg.carried == c
    && ((exists a | a in sites :: IsSpurOf(seg, a, half)) || (exists a, b | a in sites && b in sites && Neighbours(sites, a, b) :: IsLinkOf(seg, a, b)))
  }

  lemma SpursJustified(sites: seq<Site>, k: GroupKey, c: Carried, half: real)
    ensures forall seg | seg in Spurs(k, Group(sites, k), c, half) :: Justified(seg, sites, c, half)
  {
    var g := Group(sites, k);
    var spurs := Spurs(k, g, c, half);
    forall seg | seg in spurs ensures Justified(seg, sites, c, half) {
      var i :| 0 <= i < |spurs| && spurs[i] == seg;
      assert g[i] in g;
      assert GroupPlace(k, g[i]) == g[i].place;
      assert IsSpurOf(seg, g[i], half);
    }
  }

  /** Rows `i` and `i + 1` of a group are neighbours among all selected rows. */
  lemma ConsecutiveAreNeighbours(sites: seq<Site>, k: GroupKey, i: nat)
    requires i + 1 < |Group(sites, k)|
    ensures Neighbours(sites, Group(sites, k)[i], Group(sites, k)[i + 1])
  {
    var g := Group(sites, k);
    var a, b := g[i], g[i + 1];
    assert a in g && b in g;
    forall m | m in sites && KeyOf(m) == KeyOf(a)
      ensures !(a.place.deplacement < m.place.deplacement < b.place.deplacement)
    {
      assert m in g;
      var j :| 0 <= j < |g| && g[j] == m;
      assert j <= i || i + 1 <= j;
    }
  }

  lemma LinkJustified(sites: seq<Site>, k: GroupKey, c: Carried, half: real, i: nat)
    requires i + 1 < |Group(sites, k)|
    ensures Justified(LinkAt(k, Group(sites, k), i, c), sites, c, half)
  {
    var g := Group(sites, k);
    ConsecutiveAreNeighbours(sites, k, i);
    assert g[i] in g && g[i + 1] in g;
    assert GroupPlace(k, g[i]) == g[i].place;
    assert GroupPlace(k, g[i + 1]) == g[i + 1].place;
    assert IsLinkOf(LinkAt(k, g, i, c), g[i], g[i + 1]);
  }

  lemma LinksJustified(sites: seq<Site>, k: GroupKey, c: Carried, half: real)
    ensures forall seg | seg in Links(k, Group(sites, k), c) :: Justified(seg, sites, c, half)
  {
    var g := Group(sites, k);
    var links := Links(k, g, c);
    forall seg | seg in links ensures Justified(seg, sites, c, half) {
      var i :| 0 <= i < |links| && links[i] == seg;
      LinkJustified(sites, k, c, half, i);
    }
  }

  lemma {:induction false} SegmentsForJustified(sites: seq<Site>, keys: seq<GroupKey>, c: Carried, half: real)
    ensures forall seg | seg in SegmentsFor(sites, keys, c, half) :: Justified(seg, sites, c, half)
    decreases |keys|
  {
    if keys != [] {
      var k := keys[|keys| - 1];
      SegmentsForJustified(sites, keys[..|keys| - 1], c, half);
      SpursJustified(sites, k, c, half);
      LinksJustified(sites, k, c, half);
    }
  }

  /**
   * Every generated segment carries the primary route's fields and is either
   * the spur of a selected row or the link from a row to the next bay of the
   * same zone, aisle and level.
   */
  lemma SegmentsMeaning(sites: seq<Site>, c: Carried, half: real)
    ensures forall seg | seg in Segments(sites, c, half) :: Justified(seg, sites, c, half)
  {
    SegmentsForJustified(sites, GroupKeys(sites), c, half);
  }

  lemma {:induction false} BlockInSegmentsFor(sites: seq<Site>, keys: seq<GroupKey>, k: GroupKey, c: Carried, half: real)
    requires k in keys
    ensures forall seg | seg in Block(k, Group(sites, k), c, half) :: seg in SegmentsFor(sites, keys, c, half)
    decreases |keys|
  {
    var last := keys[|keys| - 1];
    if k != last {
      assert k in keys[..|keys| - 1] by {
        var i :| 0 <= i < |keys| && keys[i] == k;
        assert keys[..|keys| - 1][i] == k;
      }
      BlockInSegmentsFor(sites, keys[..|keys| - 1], k, c, half);
    }
  }

  /** Every selected row, whatever its bay, gets its spur. */
  lemma EveryRowGetsSpur(sites: seq<Site>, c: Carried, half: real)
    ensures forall a | a in sites :: SpurOf(KeyOf(a), a, c, half) in Segments(sites, c, half)
  {
    forall a | a in sites ensures SpurOf(KeyOf(a), a, c, half) in Segments(sites, c, half) {
      var k := KeyOf(a);
      var g := Group(sites, k);
      var i :| 0 <= i < |sites| && sites[i] == a;
      assert KeysOf(sites)[i] == k;
      assert a in g;
      var j :| 0 <= j < |g| && g[j] == a;
      var block := Block(k, g, c, half);
      assert block[|Links(k, g, c)| + j] == SpurOf(k, a, c, half);
      BlockInSegmentsFor(sites, GroupKeys(sites), k, c, half);
    }
  }

  /**
   * Every location of the two endpoint zones gets a spur, with no restriction
   * to the bays between the route's two ends; and every segment comes from a
   * location of those zones.
   */
  lemma SecondaryRoutesMeaning(p1: Place, p2: Place, sites: seq<Site>, c: Carried)
    requires SecondaryRoutes(Some(p1), Some(p2), sites, c).Created?
    ensures var h := Half(c.width).value;
      forall a | a in sites && (a.place.zone == p1.zone || a.place.zone == p2.zone) ::
        SpurOf(KeyOf(a), a, c, h) in SecondaryRoutes(Some(p1), Some(p2), sites, c).segments
    ensures forall seg | seg in SecondaryRoutes(Some(p1), Some(p2), sites, c).segments ::
      seg.carried == c && (seg.zone == p1.zone || seg.zone == p2.zone)
  {
    var found := InZones(sites, p1.zone, p2.zone);
    var h := Half(c.width).value;
    EveryRowGetsSpur(found, c, h);
    SegmentsMeaning(found, c, h);
    forall seg | seg in Segments(found, c, h) ensures seg.zone == p1.zone || seg.zone == p2.zone {
      assert Justified(seg, found, c, h);
    }
  }
}

/**
 * The exceptional-sales events of app.py: the per-reference events
 * (TblEvenementVenteRef) with their "exactly one of Evolution and
 * Qte_en_plus" rule, the per-supplier events (TblEvenementVenteFournisseur)
 * with their validation order, the `COALESCE(MAX(id), 0) + 1` numbering
 * shared by the event tables, and the product-family options.
 *
 * Request values stay JSON values: the BigQuery client's conversion of a
 * parameter to its declared type is not modelled.
 */
module SalesEvents {
  import opened Wrappers
  import opened Text
  import opened Values
  import opened Ordering
  import opened BulkRequests

  // ---------------------------------------------------------------------------
  // Identifiers
  // ---------------------------------------------------------------------------

  /** `MAX(id)` over the stored identifiers; nothing for an empty table. */
  function MaxId(ids: seq<int>): (m: Option<int>)
    ensures m.None? <==> ids == []
    ensures m.Some? ==> m.value in ids && forall i | 0 <= i < |ids| :: ids[i] <= m.value
  {
    if ids == [] then None
    else
      var rest := MaxId(ids[1..]);
      if rest.None? || ids[0] >= rest.value then Some(ids[0]) else rest
  }

  /** `COALESCE(MAX(id), 0) + 1`. */
  function NextId(ids: seq<int>): int {
    MaxId(ids).GetOr(0) + 1
  }

  /** The next identifier is larger than every stored one, so it is new; an empty table starts at 1. */
  lemma NextIdFresh(ids: seq<int>)
    ensures forall i | 0 <= i < |ids| :: NextId(ids) > ids[i]
    ensures NextId(ids) !in ids
    ensures ids == [] ==> NextId(ids) == 1
    ensures ids != [] ==> NextId(ids) - 1 in ids
  {
  }

  // ---------------------------------------------------------------------------
  // Events per reference
  // ---------------------------------------------------------------------------

  /** A row of TblEvenementVenteRef. */
  datatype RefEvent = RefEvent(
    id: int, reference: Json, evolution: Json, extra: Json, lines: Json, from: Json, to: Json, flux: Json)

  /** Why a reference event is refused. */
  datatype RefRefusal = MissingId | BothGiven | NoneGiven | UnknownReference(reference: Json)

  /** The update's reply; `RefBadId` is the 500 of a query whose INT64 identifier BigQuery cannot bind. */
  datatype RefReply = RefRefused(why: RefRefusal) | RefSaved | RefBadId

  /** The rule both endpoints apply: exactly one of Evolution and Qte_en_plus is truthy, so 0 and "" count as absent. */
  predicate ExactlyOne(evolution: Json, extra: Json) {
    Truthy(evolution) != Truthy(extra)
  }

  /** The exclusivity check, in the handlers' order: both given first, then neither. */
  function Exclusivity(evolution: Json, extra: Json): (r: Option<RefRefusal>)
    ensures r.None? <==> ExactlyOne(evolution, extra)
    ensures r == Some(BothGiven) <==> Truthy(evolution) && Truthy(extra)
  {
    if Truthy(evolution) && Truthy(extra) then Some(BothGiven)
    else if !Truthy(evolution) && !Truthy(extra) then Some(NoneGiven)
    else None
  }

  /** `WHERE Reference=@r` against TblProduit: only a text reference can match. */
  predicate KnownReference(products: seq<string>, reference: Json) {
    reference.JStr? && reference.s in products
  }

  /** `data.get("LignesPrepEnPlus") or 0`. */
  function LinesOrZero(v: Json): (r: Json)
    ensures Truthy(v) ==> r == v
    ensures !Truthy(v) ==> r == JInt(0)
  {
    if Truthy(v) then v else JInt(0)
  }

  /** The event a body describes, under the given identifier. */
  function RefEventOf(id: int, body: Object): RefEvent {
    RefEvent(id, Field(body, "Reference"), Field(body, "Evolution"), Field(body, "Qte_en_plus"),
             LinesOrZero(Field(body, "LignesPrepEnPlus")), Field(body, "DateDu"), Field(body, "DateAu"), Field(body, "TypeFlux"))
  }

  function RefIds(events: seq<RefEvent>): (ids: seq<int>)
    ensures |ids| == |events|
    ensures forall i | 0 <= i < |events| :: ids[i] == events[i].id
  {
    seq(|events|, i requires 0 <= i < |events| => events[i].id)
  }

  predicate UniqueIds(events: seq<RefEvent>) {
    forall i, j | 0 <= i < j < |events| :: events[i].id != events[j].id
  }

  /** `api_ventes_exceptionnelles_ref_add`: its reply and the table afterwards. */
  function RefAdd(events: seq<RefEvent>, products: seq<string>, body: Object): (seq<RefEvent>, RefReply) {
    var check := Exclusivity(Field(body, "Evolution"), Field(body, "Qte_en_plus"));
    if check.Some? then (events, RefRefused(check.value))
    else if !KnownReference(products, Field(body, "Reference")) then (events, RefRefused(UnknownReference(Field(body, "Reference"))))
    else (events + [RefEventOf(NextId(RefIds(events)), body)], RefSaved)
  }

  /** The row an update writes: every field from the body, the identifier kept. */
  function Rewritten(e: RefEvent, id: int, body: Object): RefEvent {
    if e.id == id then RefEventOf(id, body) else e
  }

  /** `api_ventes_exceptionnelles_ref_update`: its reply and the table afterwards. */
  function RefUpdate(events: seq<RefEvent>, products: seq<string>, body: Object): (seq<RefEvent>, RefReply) {
    var id := Field(body, "IDEvenementRef");
    if !Truthy(id) then (events, RefRefused(MissingId))
    else
      var check := Exclusivity(Field(body, "Evolution"), Field(body, "Qte_en_plus"));
      if check.Some? then (events, RefRefused(check.value))
      else if !KnownReference(products, Field(body, "Reference")) then (events, RefRefused(UnknownReference(Field(body, "Reference"))))
      else if Int64Param(id).None? then (events, RefBadId)
      else (seq(|events|, i requires 0 <= i < |events| => Rewritten(events[i], Int64Param(id).value, body)), RefSaved)
  }

  /**
   * The add saves an event only when exactly one of Evolution and
   * Qte_en_plus is truthy and the reference is a known product; the saved
   * event gets a new identifier, so identifiers stay unique.
   */
  lemma RefAddMeaning(events: seq<RefEvent>, products: seq<string>, body: Object)
    ensures var (after, reply) := RefAdd(events, products, body);
      && (reply == RefSaved <==> ExactlyOne(Field(body, "Evolution"), Field(body, "Qte_en_plus")) && KnownReference(products, Field(body, "Reference")))
      && (reply != RefSaved ==> after == events)
      && (reply == RefSaved ==> |after| == |events| + 1 && after[..|events|] == events && after[|events|].id !in RefIds(events))
      && (UniqueIds(events) ==> UniqueIds(after))
  {
    var (after, reply) := RefAdd(events, products, body);
    NextIdFresh(RefIds(events));
    if reply == RefSaved {
      assert after[..|events|] == events;
      forall i | 0 <= i < |events| ensures after[i].id != after[|events|].id {
        assert after[i].id == RefIds(events)[i];
      }
    }
  }

  /**
   * The update applies the same exclusivity rule after its identifier check;
   * once the reference is known, the query fails exactly when BigQuery cannot
   * bind the identifier as an INT64, and otherwise rewrites every field of
   * the events with that identifier and nothing else, keeping the identifiers.
   */
  lemma RefUpdateMeaning(events: seq<RefEvent>, products: seq<string>, body: Object)
    ensures var (after, reply) := RefUpdate(events, products, body);
      && (!Truthy(Field(body, "IDEvenementRef")) ==> reply == RefRefused(MissingId))
      && (Truthy(Field(body, "IDEvenementRef")) && !ExactlyOne(Field(body, "Evolution"), Field(body, "Qte_en_plus")) ==>
            reply == RefRefused(Exclusivity(Field(body, "Evolution"), Field(body, "Qte_en_plus")).value))
      && (reply == RefSaved ==> ExactlyOne(Field(body, "Evolution"), Field(body, "Qte_en_plus")) && KnownReference(products, Field(body, "Reference")))
      && (reply == RefBadId <==>
            Truthy(Field(body, "IDEvenementRef")) && ExactlyOne(Field(body, "Evolution"), Field(body, "Qte_en_plus"))
            && KnownReference(products, Field(body, "Reference")) && Int64Param(Field(body, "IDEvenementRef")).None?)
      && (reply == RefSaved ==> forall i | 0 <= i < |events| ::
            after[i] == Rewritten(events[i], Int64Param(Field(body, "IDEvenementRef")).value, body))
      && (reply != RefSaved ==> after == events)
      && |after| == |events| && RefIds(after) == RefIds(events)
  {
  }

  /** The two endpoints agree: a body the add refuses for exclusivity, the update refuses for the same reason. */
  lemma ExclusivitySharedByAddAndUpdate(events: seq<RefEvent>, products: seq<string>, body: Object)
    requires Truthy(Field(body, "IDEvenementRef"))
    requires RefAdd(events, products, body).1.RefRefused?
    ensures RefUpdate(events, products, body).1 == RefAdd(events, products, body).1
  {
  }

  /** TblEvenementVenteRef. */
  class RefEvents {
    var events: seq<RefEvent>

    constructor(initial: seq<RefEvent>)
      ensures events == initial
    {
      events := initial;
    }

    method Add(products: seq<string>, body: Object) returns (reply: RefReply)
      modifies this
      ensures (events, reply) == RefAdd(old(events), products, body)
    {
      var check := Exclusivity(Field(body, "Evolution"), Field(body, "Qte_en_plus"));
      if check.Some? {
        return RefRefused(check.value);
      }
      if !KnownReference(products, Field(body, "Reference")) {
        return RefRefused(UnknownReference(Field(body, "Reference")));
      }
      var id := NextId(RefIds(events));
      events := events + [RefEventOf(id, body)];
      return RefSaved;
    }

    method Update(products: seq<string>, body: Object) returns (reply: RefReply)
      modifies this
      ensures (events, reply) == RefUpdate(old(events), products, body)
    {
      var id := Field(body, "IDEvenementRef");
      if !Truthy(id) {
        return RefRefused(MissingId);
      }
      var check := Exclusivity(Field(body, "Evolution"), Field(body, "Qte_en_plus"));
      if check.Some? {
        return RefRefused(check.value);
      }
      if !KnownReference(products, Field(body, "Reference")) {
        return RefRefused(UnknownReference(Field(body, "Reference")));
      }
      if Int64Param(id).None? {
        return RefBadId;
      }
      events := RewriteAll(events, Int64Param(id).value, body);
      return RefSaved;
    }
  }

  /** `UPDATE ... WHERE IDEvenementRef = @id`, row by row. */
  method RewriteAll(events: seq<RefEvent>, id: int, body: Object) returns (after: seq<RefEvent>)
    ensures after == seq(|events|, i requires 0 <= i < |events| => Rewritten(events[i], id, body))
  {
    after := [];
    for i := 0 to |events|
      invariant |after| == i
      invariant forall k | 0 <= k < i :: after[k] == Rewritten(events[k], id, body)
    {
      after := after + [Rewritten(events[i], id, body)];
    }
  }

  // ---------------------------------------------------------------------------
  // Events per supplier
  // ---------------------------------------------------------------------------

  /** The product columns the supplier and family endpoints read. */
  datatype Product = Product(supplierNumber: Option<string>, supplierName: Option<string>,
                             family1: Option<string>, family2: Option<string>, family3: Option<string>)

  /** A row of TblEvenementVenteFournisseur. */
  datatype SupplierEvent = SupplierEvent(
    id: int, number: Option<string>, name: Option<string>, evolution: Json, from: Json, to: Json, flux: Json)

  datatype SupplierRefusal = NoSupplier | NoEvolution | NoDates | UnknownSupplier

  datatype SupplierReply = SupplierRefused(why: SupplierRefusal) | SupplierSaved

  /** The validation, in the handler's order: supplier, then Evolution, then both dates. */
  function SupplierCheck(number: Json, name: Json, evolution: Json, from: Json, to: Json): Option<SupplierRefusal> {
    if !Truthy(number) && !Truthy(name) then Some(NoSupplier)
    else if !Truthy(evolution) then Some(NoEvolution)
    else if !Truthy(from) || !Truthy(to) then Some(NoDates)
    else None
  }

  /** `NFournisseur=@n OR LOWER(TRIM(NomFournisseur))=LOWER(TRIM(@nom))`; NULL on either side matches nothing. */
  predicate SupplierMatches(p: Product, number: Json, name: Json) {
    (number.JStr? && p.supplierNumber == Some(number.s))
    || (name.JStr? && p.supplierName.Some? && Lower(Trim(p.supplierName.value)) == Lower(Trim(name.s)))
  }

  /** `LIMIT 1`: the first matching product in table order. */
  function FirstSupplier(products: seq<Product>, number: Json, name: Json): (r: Option<Product>)
    ensures r.Some? ==> r.value in products && SupplierMatches(r.value, number, name)
    ensures r.None? ==> forall i | 0 <= i < |products| :: !SupplierMatches(products[i], number, name)
  {
    if products == [] then None
    else if SupplierMatches(products[0], number, name) then Some(products[0])
    else FirstSupplier(products[1..], number, name)
  }

  function SupplierIds(events: seq<SupplierEvent>): (ids: seq<int>)
    ensures |ids| == |events|
    ensures forall i | 0 <= i < |events| :: ids[i] == events[i].id
  {
    seq(|events|, i requires 0 <= i < |events| => events[i].id)
  }

  /** `api_ventes_fournisseur_add`: its reply and the table afterwards. */
  function SupplierAdd(events: seq<SupplierEvent>, products: seq<Product>, body: Object): (seq<SupplierEvent>, SupplierReply) {
    var number := Field(body, "NFournisseur");
    var name := Field(body, "NomFournisseur");
    var check := SupplierCheck(number, name, Field(body, "Evolution"), Field(body, "DateDu"), Field(body, "DateAu"));
    if check.Some? then (events, SupplierRefused(check.value))
    else match FirstSupplier(products, number, name)
      case None => (events, SupplierRefused(UnknownSupplier))
      case Some(p) =>
        var flux := if Truthy(Field(body, "TypeFlux")) then Field(body, "TypeFlux") else JStr("Tous");
        (events + [SupplierEvent(NextId(SupplierIds(events)), p.supplierNumber, p.supplierName,
                                 Field(body, "Evolution"), Field(body, "DateDu"), Field(body, "DateAu"), flux)],
         SupplierSaved)
  }

  /**
   * The first failing check decides the refusal: a missing supplier is
   * reported before a missing Evolution, which is reported before missing
   * dates, and the lookup only runs once all three pass. Past the checks
   * the event is saved exactly when some product matches, and refused as an
   * unknown supplier otherwise. A saved event carries the matched product's
   * supplier number and name, a new identifier, the body's Evolution and
   * dates, and its flow type, or "Tous" when none was given.
   */
  lemma SupplierAddMeaning(events: seq<SupplierEvent>, products: seq<Product>, body: Object)
    ensures var (after, reply) := SupplierAdd(events, products, body);
      var number := Field(body, "NFournisseur");
      var name := Field(body, "NomFournisseur");
      && (!Truthy(number) && !Truthy(name) ==> reply == SupplierRefused(NoSupplier))
      && ((Truthy(number) || Truthy(name)) && !Truthy(Field(body, "Evolution")) ==> reply == SupplierRefused(NoEvolution))
      && (var datesMissing := !Truthy(Field(body, "DateDu")) || !Truthy(Field(body, "DateAu"));
          (Truthy(number) || Truthy(name)) && Truthy(Field(body, "Evolution")) && datesMissing ==> reply == SupplierRefused(NoDates))
      && (var checked := SupplierCheck(number, name, Field(body, "Evolution"), Field(body, "DateDu"), Field(body, "DateAu")) == None;
          && (checked ==> (reply == SupplierSaved <==> exists p | p in products :: SupplierMatches(p, number, name)))
          && (checked ==> (reply == SupplierRefused(UnknownSupplier) <==> forall p | p in products :: !SupplierMatches(p, number, name))))
      && (reply != SupplierSaved ==> after == events)
      && (reply == SupplierSaved ==>
            && |after| == |events| + 1 && after[..|events|] == events
            && after[|events|].id !in SupplierIds(events)
            && (exists p | p in products :: SupplierMatches(p, number, name)
                  && after[|events|].number == p.supplierNumber && after[|events|].name == p.supplierName)
            && after[|events|].evolution == Field(body, "Evolution")
            && after[|events|].from == Field(body, "DateDu") && after[|events|].to == Field(body, "DateAu")
            && (Truthy(Field(body, "TypeFlux")) ==> after[|events|].flux == Field(body, "TypeFlux"))
            && (!Truthy(Field(body, "TypeFlux")) ==> after[|events|].flux == JStr("Tous")))
  {
    var (after, reply) := SupplierAdd(events, products, body);
    NextIdFresh(SupplierIds(events));
    var number := Field(body, "NFournisseur");
    var name := Field(body, "NomFournisseur");
    if FirstSupplier(products, number, name).None? {
      forall p | p in products ensures !SupplierMatches(p, number, name) {
        var i :| 0 <= i < |products| && products[i] == p;
      }
    }
    if reply == SupplierSaved {
      assert after[..|events|] == events;
    }
  }

  // ---------------------------------------------------------------------------
  // Family options
  // ---------------------------------------------------------------------------

  /** What `if v: f.add(v)` contributes. */
  function Kept(v: Option<string>): (r: seq<string>)
    ensures forall w :: w in r <==> v == Some(w) && w != ""
  {
    if Given(v) then [v.value] else []
  }

  /** Which family column of a product: 1, 2 or 3. */
  function FamilyOf(p: Product, level: nat): Option<string> {
    if level == 1 then p.family1 else if level == 2 then p.family2 else p.family3
  }

  /** The truthy values of one family column, in table order. */
  function FamilyValues(products: seq<Product>, level: nat): seq<string>
    decreases |products|
  {
    if products == [] then []
    else FamilyValues(products[..|products| - 1], level) + Kept(FamilyOf(products[|products| - 1], level))
  }

  /** The values collected for a column are exactly the truthy values some product has there. */
  lemma {:induction false} FamilyValuesMembers(products: seq<Product>, level: nat, v: string)
    ensures v in FamilyValues(products, level) <==>
      exists i | 0 <= i < |products| :: FamilyOf(products[i], level) == Some(v) && v != ""
    decreases |products|
  {
    if products != [] {
      var n := |products| - 1;
      var init := products[..n];
      FamilyValuesMembers(init, level, v);
      if exists i | 0 <= i < n :: FamilyOf(init[i], level) == Some(v) && v != "" {
        var i :| 0 <= i < n && FamilyOf(init[i], level) == Some(v) && v != "";
        assert products[i] == init[i];
      }
      if exists i | 0 <= i < |products| :: FamilyOf(products[i], level) == Some(v) && v != "" {
        var i :| 0 <= i < |products| && FamilyOf(products[i], level) == Some(v) && v != "";
        if i < n {
          assert init[i] == products[i];
        }
      }
    }
  }

  /** The options `api_familles_options` sends for the three family columns. */
  datatype Families = Families(family1: seq<string>, family2: seq<string>, family3: seq<string>)

  function FamilyOptions(products: seq<Product>): Families {
    Families(SortedStrings(FamilyValues(products, 1)), SortedStrings(FamilyValues(products, 2)), SortedStrings(FamilyValues(products, 3)))
  }

  /** The options of each family column are strictly increasing and are exactly its truthy values. */
  lemma FamilyOptionsMeaning(products: seq<Product>, level: nat, v: string)
    requires 1 <= level <= 3
    ensures var f := FamilyOptions(products);
      var options := if level == 1 then f.family1 else if level == 2 then f.family2 else f.family3;
      && StrictlySorted(LexLess, options)
      && (v in options <==> exists i | 0 <= i < |products| :: FamilyOf(products[i], level) == Some(v) && v != "")
  {
    var values := FamilyValues(products, level);
    var options := SortedStrings(values);
    assert options == (var f := FamilyOptions(products);
      if level == 1 then f.family1 else if level == 2 then f.family2 else f.family3);
    FamilyValuesMembers(products, level, v);
    assert v in options <==> v in values;
  }

  /** `set.add` when the value is truthy. */
  method AddFamily(seen: seq<string>, v: Option<string>) returns (r: seq<string>)
    ensures forall w :: w in r <==> w in seen || w in Kept(v)
  {
    r := seen;
    if Given(v) && v.value !in seen {
      r := seen + [v.value];
    }
  }

  /** `api_familles_options`: one pass over the products filling three sets, each sent sorted. */
  method CollectFamilies(products: seq<Product>) returns (f: Families)
    ensures f == FamilyOptions(products)
  {
    var f1, f2, f3 := [], [], [];
    for i := 0 to |products|
      invariant forall w :: w in f1 <==> w in FamilyValues(products[..i], 1)
      invariant forall w :: w in f2 <==> w in FamilyValues(products[..i], 2)
      invariant forall w :: w in f3 <==> w in FamilyValues(products[..i], 3)
    {
      assert products[..i + 1][..i] == products[..i];
      f1 := AddFamily(f1, products[i].family1);
      f2 := AddFamily(f2, products[i].family2);
      f3 := AddFamily(f3, products[i].family3);
    }
    assert products[..|products|] == products;
    SortedStringsSameMembers(f1, FamilyValues(products, 1));
    SortedStringsSameMembers(f2, FamilyValues(products, 2));
    SortedStringsSameMembers(f3, FamilyValues(products, 3));
    f := Families(SortedStrings(f1), SortedStrings(f2), SortedStrings(f3));
  }
}

/**
 * The query builders of detail_emplacement.py: the number recogniser
 * `_is_number`, the filters read from the DataTables query string, the
 * `WHERE` conditions and parameters `_build_where_and_params` decides on
 * (as tags, not SQL text), and the Type1 / Type2 / Type3 hierarchy of
 * `api_detail_emplacement_lists`.
 */
module Filters {
  import opened Wrappers
  import opened Text
  import opened Values
  import opened Reference

  // ---------------------------------------------------------------------------
  // `_is_number`
  // ---------------------------------------------------------------------------

  /** One or more decimal digits: `\d+`. */
  predicate Digits(s: string) {
    |s| > 0 && AllDigits(s)
  }

  /** `\d+(\.\d+)?`: digits, optionally followed by a point and more digits. */
  predicate UnsignedNumber(u: string) {
    Digits(u) || exists k | 0 < k < |u| :: u[k] == '.' && Digits(u[..k]) && Digits(u[k + 1..])
  }

  /** `^-?\d+(\.\d+)?$` on the whole text. */
  predicate NumberText(t: string) {
    UnsignedNumber(t) || (|t| > 0 && t[0] == '-' && UnsignedNumber(t[1..]))
  }

  /** `_is_number` on a query-string value, which is always text. */
  predicate IsNumber(s: string) {
    s != "" && NumberText(Trim(s))
  }

  /** Once `strip()` leaves a number without a point, it is a signed run of digits. */
  lemma WholeNumberParses(s: string)
    requires IsNumber(s) && '.' !in Trim(s)
    ensures ParseSigned(Trim(s)).Some?
  {
    var t := Trim(s);
    forall k | 0 <= k < |t| ensures t[k] != '.' {
      assert t[k] in t;
    }
    if |t| > 0 {
      var u := t[1..];
      forall k | 0 <= k < |u| ensures u[k] != '.' {
        assert u[k] == t[k + 1];
      }
    }
  }

  /**
   * `int()` reads a number without a point exactly when its own stripping,
   * which keeps U+001C to U+001F, leaves what `strip()` leaves; it then reads
   * that text.
   */
  lemma IsNumberWhole(s: string)
    requires IsNumber(s) && '.' !in Trim(s)
    ensures PyInt(s).Some? <==> IntTrim(s) == Trim(s)
    ensures PyInt(s).Some? ==> PyInt(s) == ParseSigned(Trim(s))
  {
    WholeNumberParses(s);
    if PyInt(s).Some? {
      PyIntTrimmed(s);
    }
  }

  /** A number with a point is one `int()` rejects. */
  lemma IsNumberFraction(s: string)
    requires '.' in Trim(s)
    ensures PyInt(s).None?
  {
    var t := Trim(s);
    var k :| 0 <= k < |t| && t[k] == '.';
    assert !AllDigits(t);
    if |t| > 0 && (t[0] == '-' || t[0] == '+') {
      assert k > 0 && t[1..][k - 1] == '.';
      assert !AllDigits(t[1..]);
    }
    assert ParseSigned(t).None?;
    if PyInt(s).Some? {
      PyIntTrimmed(s);
    }
  }

  /** A trailing U+001C passes `_is_number`, whose `strip()` removes it, and makes `int()` raise. */
  lemma SeparatorAfterNumber()
    ensures IsNumber("12\U{1C}") && PyInt("12\U{1C}").None?
  {
    var s := "12\U{1C}";
    assert Trim(s) == "12" by {
      StripLeftNoop(s, IsSpace);
      assert StripRight(s, IsSpace) == StripRight("12", IsSpace);
      StripRightNoop("12", IsSpace);
    }
    assert Digits("12");
    assert IntTrim(s) == s by {
      StripNoop(s, IsIntSpace);
    }
    assert !IsDigit(s[2]);
  }

  /** Surrounding spaces are ignored, and a sign and a fractional part are accepted. */
  lemma IsNumberAccepts()
    ensures IsNumber(" 12 ") && IsNumber("-3.25")
  {
    assert Trim(" 12 ") == "12" by {
      assert StripLeft(" 12 ", IsSpace) == "12 ";
      assert StripRight("12 ", IsSpace) == "12";
    }
    assert Digits("12");
    var n := "-3.25";
    StripNoop(n, IsSpace);
    assert n[1..][1] == '.' && Digits(n[1..][..1]) && Digits(n[1..][2..]);
  }

  /** The empty text, a point without digits on both sides, and letters are rejected. */
  lemma IsNumberRejects()
    ensures !IsNumber("") && !IsNumber("1.") && !IsNumber(".5") && !IsNumber("A12")
  {
    StripNoop("1.", IsSpace);
    assert !Digits("1.") by { assert !IsDigit("1."[1]); }
    StripNoop(".5", IsSpace);
    assert !Digits(".5") by { assert !IsDigit(".5"[0]); }
    StripNoop("A12", IsSpace);
    assert !Digits("A12") by { assert !IsDigit("A12"[0]); }
  }

  // ---------------------------------------------------------------------------
  // `_filters_from_args`
  // ---------------------------------------------------------------------------

  /** The filters sent by the DataTables front end; a missing argument reads as "". */
  datatype FilterSet = FilterSet(
    zone: string, allee: string, depFrom: string, depTo: string, nivFrom: string, nivTo: string,
    type1: string, type2: string, type3: string, pictogramme: string, search: string)

  /** `args.get(key, "")`. */
  function Arg(args: map<string, string>, key: string): string {
    if key in args then args[key] else ""
  }

  function FiltersFromArgs(args: map<string, string>): FilterSet {
    FilterSet(Arg(args, "zone"), Arg(args, "allee"), Arg(args, "deplacement_from"), Arg(args, "deplacement_to"),
              Arg(args, "niveau_from"), Arg(args, "niveau_to"), Arg(args, "type1"), Arg(args, "type2"),
              Arg(args, "type3"), Arg(args, "pictogramme"), Arg(args, "search[value]"))
  }

  /** The filter set with nothing selected. */
  const NoFilters: FilterSet := FilterSet("", "", "", "", "", "", "", "", "", "", "")

  /** The global search is read from `search[value]`, and a query string without arguments selects nothing. */
  lemma FiltersFromArgsMeaning(args: map<string, string>)
    ensures FiltersFromArgs(map[]) == NoFilters
    ensures "search" in args && "search[value]" !in args ==> FiltersFromArgs(args).search == ""
    ensures "search[value]" in args ==> FiltersFromArgs(args).search == args["search[value]"]
  {
  }

  // ---------------------------------------------------------------------------
  // `_build_where_and_params`
  // ---------------------------------------------------------------------------

  /** The conditions the builder can emit, one tag per appended clause. */
  datatype Cond =
    | ZoneIs              // LOWER(e.Zone) = LOWER(@zone)
    | AlleeIs             // e.Allee = @allee
    | DeplacementBetween  // e.Deplacement BETWEEN @dep_from AND @dep_to
    | DeplacementIs       // e.Deplacement = @dep_from_eq
    | NiveauBetween       // e.Niveau BETWEEN @niv_from AND @niv_to
    | Type1Is | Type2Is | Type3Is
    | PictogrammeIs       // p.NomPicto = @pictogramme
    | SearchLike(pattern: string)  // the text inlined in four LIKE '%...%' tests

  datatype ParamValue = PText(s: string) | PInt(i: int)

  /** A named query parameter. */
  datatype Param = Param(name: string, value: ParamValue)

  datatype Where = Where(conds: seq<Cond>, params: seq<Param>)

  /** The placeholders a condition refers to, in order. */
  function Placeholders(c: Cond): seq<string> {
    match c
    case ZoneIs => ["zone"]
    case AlleeIs => ["allee"]
    case DeplacementBetween => ["dep_from", "dep_to"]
    case DeplacementIs => ["dep_from_eq"]
    case NiveauBetween => ["niv_from", "niv_to"]
    case Type1Is => ["type1"]
    case Type2Is => ["type2"]
    case Type3Is => ["type3"]
    case PictogrammeIs => ["pictogramme"]
    case SearchLike(_) => []
  }

  function AllPlaceholders(conds: seq<Cond>): seq<string> {
    if conds == [] then [] else AllPlaceholders(conds[..|conds| - 1]) + Placeholders(conds[|conds| - 1])
  }

  function Names(params: seq<Param>): (r: seq<string>)
    ensures |r| == |params|
    ensures forall i | 0 <= i < |params| :: r[i] == params[i].name
  {
    seq(|params|, i requires 0 <= i < |params| => params[i].name)
  }

  /** `search.replace("'", "")`. */
  function WithoutQuotes(s: string): (r: string)
    ensures '\'' !in r
    ensures |r| <= |s|
    ensures '\'' !in s ==> r == s
  {
    if s == [] then []
    else (if s[0] == '\'' then [] else [s[0]]) + WithoutQuotes(s[1..])
  }

  /** One builder step: a condition with its parameters when `cond` holds, nothing otherwise. */
  function Step(cond: bool, c: Cond, ps: seq<Param>): Where {
    if cond then Where([c], ps) else Where([], [])
  }

  /** The clauses of `a` followed by those of `b`. */
  function Join(a: Where, b: Where): Where {
    Where(a.conds + b.conds, a.params + b.params)
  }

  /** `_as_int_or_none` on a query-string value. */
  function ArgInt(s: string): Option<int> {
    AsIntOrNone(JStr(s))
  }

  /**
   * The numeric filters once read: the allee when `_is_number` accepts it
   * and `int()` reads it, and the four bounds through `_as_int_or_none`.
   */
  datatype Numbers = Numbers(allee: Option<int>, depFrom: Option<int>, depTo: Option<int>, nivFrom: Option<int>, nivTo: Option<int>)

  function NumbersOf(f: FilterSet): Numbers {
    Numbers(if IsNumber(f.allee) then PyInt(f.allee) else None,
            ArgInt(f.depFrom), ArgInt(f.depTo), ArgInt(f.nivFrom), ArgInt(f.nivTo))
  }

  function ZoneStep(f: FilterSet): Where {
    Step(f.zone != "", ZoneIs, [Param("zone", PText(f.zone))])
  }

  function AlleeStep(n: Numbers): Where {
    if n.allee.Some? then Where([AlleeIs], [Param("allee", PInt(n.allee.value))]) else Where([], [])
  }

  function DeplacementStep(n: Numbers): Where {
    var from, to := n.depFrom, n.depTo;
    if from.Some? && to.Some? then
      Where([DeplacementBetween], [Param("dep_from", PInt(from.value)), Param("dep_to", PInt(to.value))])
    else if from.Some? then Where([DeplacementIs], [Param("dep_from_eq", PInt(from.value))])
    else Where([], [])
  }

  function NiveauStep(n: Numbers): Where {
    var from, to := n.nivFrom, n.nivTo;
    if from.Some? && to.Some? then
      Where([NiveauBetween], [Param("niv_from", PInt(from.value)), Param("niv_to", PInt(to.value))])
    else Where([], [])
  }

  function Type1Step(f: FilterSet): Where {
    Step(f.type1 != "", Type1Is, [Param("type1", PText(f.type1))])
  }

  function Type2Step(f: FilterSet): Where {
    Step(f.type2 != "", Type2Is, [Param("type2", PText(f.type2))])
  }

  function Type3Step(f: FilterSet): Where {
    Step(f.type3 != "", Type3Is, [Param("type3", PText(f.type3))])
  }

  function PictogrammeStep(f: FilterSet): Where {
    Step(f.pictogramme != "", PictogrammeIs, [Param("pictogramme", PText(f.pictogramme))])
  }

  function SearchStep(f: FilterSet): Where {
    Step(f.search != "", SearchLike(WithoutQuotes(f.search)), [])
  }

  /** The builder's steps, in its order; the position of each is its slot. */
  function Steps(f: FilterSet, n: Numbers): (ws: seq<Where>)
    ensures |ws| == 9
  {
    [ZoneStep(f), AlleeStep(n), DeplacementStep(n), NiveauStep(n),
     Type1Step(f), Type2Step(f), Type3Step(f), PictogrammeStep(f), SearchStep(f)]
  }

  /** The clauses of the steps, one after the other. */
  function JoinAll(ws: seq<Where>): Where {
    if ws == [] then Where([], []) else Join(JoinAll(ws[..|ws| - 1]), ws[|ws| - 1])
  }

  function Clauses(f: FilterSet, n: Numbers): Where {
    JoinAll(Steps(f, n))
  }

  /** The conditions and parameters of the filter set; `None` where `int()` raises on an allee `_is_number` let through. */
  function WhereAndParams(f: FilterSet): Option<Where> {
    if IsNumber(f.allee) && PyInt(f.allee).None? then None else Some(Clauses(f, NumbersOf(f)))
  }

  /** One more step joined to the clauses so far. */
  lemma JoinAllNext(ws: seq<Where>, k: nat)
    requires k < |ws|
    ensures JoinAll(ws[..k + 1]) == Join(JoinAll(ws[..k]), ws[k])
  {
    assert ws[..k + 1][..k] == ws[..k];
  }

  /**
   * `_build_where_and_params`: `int()` raising on the allee ends it; otherwise
   * the clauses are appended step by step.
   */
  method BuildWhereAndParams(f: FilterSet) returns (r: Option<Where>)
    ensures r == WhereAndParams(f)
  {
    if IsNumber(f.allee) && PyInt(f.allee).None? {
      return None;
    }
    var n := Numbers(if IsNumber(f.allee) then PyInt(f.allee) else None,
                     ArgInt(f.depFrom), ArgInt(f.depTo), ArgInt(f.nivFrom), ArgInt(f.nivTo));
    var conds, params := AppendClauses(f, n);
    r := Some(Where(conds, params));
  }

  /** The appends of `_build_where_and_params`, once the numeric filters are read. */
  method AppendClauses(f: FilterSet, n: Numbers) returns (conds: seq<Cond>, params: seq<Param>)
    ensures Where(conds, params) == Clauses(f, n)
  {
    conds, params := AppendRangeClauses(f, n);
    conds, params := AppendTypeClauses(f, conds, params);
    ghost var w := Join(Join(Join(RangeClauses(f, n), Type1Step(f)), Type2Step(f)), Type3Step(f));
    if f.pictogramme != "" {
      conds := conds + [PictogrammeIs];
      params := params + [Param("pictogramme", PText(f.pictogramme))];
    }
    w := Join(w, PictogrammeStep(f));
    assert Where(conds, params) == w;
    if f.search != "" {
      conds := conds + [SearchLike(WithoutQuotes(f.search))];
    }
    w := Join(w, SearchStep(f));
    assert Where(conds, params) == w;
    ClausesUnrolled(f, n);
  }

  /** The appends for the three type filters. */
  method AppendTypeClauses(f: FilterSet, conds0: seq<Cond>, params0: seq<Param>) returns (conds: seq<Cond>, params: seq<Param>)
    ensures Where(conds, params) == Join(Join(Join(Where(conds0, params0), Type1Step(f)), Type2Step(f)), Type3Step(f))
  {
    conds, params := conds0, params0;
    if f.type1 != "" {
      conds := conds + [Type1Is];
      params := params + [Param("type1", PText(f.type1))];
    }
    ghost var w := Join(Where(conds0, params0), Type1Step(f));
    assert Where(conds, params) == w;
    if f.type2 != "" {
      conds := conds + [Type2Is];
      params := params + [Param("type2", PText(f.type2))];
    }
    w := Join(w, Type2Step(f));
    assert Where(conds, params) == w;
    if f.type3 != "" {
      conds := conds + [Type3Is];
      params := params + [Param("type3", PText(f.type3))];
    }
    w := Join(w, Type3Step(f));
    assert Where(conds, params) == w;
  }

  /** The appends for the zone, allee, deplacement and niveau filters. */
  method AppendRangeClauses(f: FilterSet, n: Numbers) returns (conds: seq<Cond>, params: seq<Param>)
    ensures Where(conds, params) == RangeClauses(f, n)
  {
    conds, params := [], [];
    if f.zone != "" {
      conds := conds + [ZoneIs];
      params := params + [Param("zone", PText(f.zone))];
    }
    ghost var w := ZoneStep(f);
    assert Where(conds, params) == w;
    if n.allee.Some? {
      conds := conds + [AlleeIs];
      params := params + [Param("allee", PInt(n.allee.value))];
    }
    w := Join(w, AlleeStep(n));
    assert Where(conds, params) == w;
    if n.depFrom.Some? && n.depTo.Some? {
      conds := conds + [DeplacementBetween];
      params := params + [Param("dep_from", PInt(n.depFrom.value)), Param("dep_to", PInt(n.depTo.value))];
    } else if n.depFrom.Some? {
      conds := conds + [DeplacementIs];
      params := params + [Param("dep_from_eq", PInt(n.depFrom.value))];
    }
    w := Join(w, DeplacementStep(n));
    assert Where(conds, params) == w;
    if n.nivFrom.Some? && n.nivTo.Some? {
      conds := conds + [NiveauBetween];
      params := params + [Param("niv_from", PInt(n.nivFrom.value)), Param("niv_to", PInt(n.nivTo.value))];
    }
    w := Join(w, NiveauStep(n));
    assert Where(conds, params) == w;
  }

  /** The first four steps joined. */
  function RangeClauses(f: FilterSet, n: Numbers): Where {
    Join(Join(Join(ZoneStep(f), AlleeStep(n)), DeplacementStep(n)), NiveauStep(n))
  }

  /** The joined steps, written out one after the other. */
  lemma ClausesUnrolled(f: FilterSet, n: Numbers)
    ensures Clauses(f, n) ==
      Join(Join(Join(Join(Join(RangeClauses(f, n), Type1Step(f)), Type2Step(f)), Type3Step(f)), PictogrammeStep(f)), SearchStep(f))
  {
    var ws := Steps(f, n);
    assert JoinAll(ws[..0]) == Where([], []);
    JoinAllNext(ws, 0);
    assert JoinAll(ws[..1]) == ZoneStep(f) by {
      assert Join(Where([], []), ZoneStep(f)) == ZoneStep(f);
    }
    JoinAllNext(ws, 1);
    JoinAllNext(ws, 2);
    JoinAllNext(ws, 3);
    assert JoinAll(ws[..4]) == RangeClauses(f, n);
    JoinAllNext(ws, 4);
    JoinAllNext(ws, 5);
    JoinAllNext(ws, 6);
    JoinAllNext(ws, 7);
    JoinAllNext(ws, 8);
    assert ws[..9] == ws;
  }

  /** With nothing selected there is no condition and no parameter. */
  lemma NoFiltersNoConditions()
    ensures WhereAndParams(NoFilters) == Some(Where([], []))
  {
    var ws := Steps(NoFilters, NumbersOf(NoFilters));
    assert !IsNumber("");
    assert ArgInt("").None?;
    forall k | 0 <= k < 9 ensures ws[k] == Where([], []) {
    }
    JoinAllEmpty(ws);
  }

  lemma {:induction false} JoinAllEmpty(ws: seq<Where>)
    requires forall k | 0 <= k < |ws| :: ws[k] == Where([], [])
    ensures JoinAll(ws) == Where([], [])
    decreases |ws|
  {
    if ws != [] {
      JoinAllEmpty(ws[..|ws| - 1]);
    }
  }

  /**
   * The builder fails exactly when the allee passes `_is_number` but `int()`
   * refuses it: it carries a fractional part, or whitespace that `strip()`
   * removes and `int()` keeps.
   */
  lemma WhereFailsOnUnreadableAllee(f: FilterSet)
    ensures WhereAndParams(f).None? <==> IsNumber(f.allee) && ('.' in Trim(f.allee) || IntTrim(f.allee) != Trim(f.allee))
  {
    if IsNumber(f.allee) {
      if '.' in Trim(f.allee) {
        IsNumberFraction(f.allee);
      } else {
        IsNumberWhole(f.allee);
      }
    }
  }

  /** The builder's slot for each condition; the two deplacement forms share one. */
  function Slot(c: Cond): nat {
    match c
    case ZoneIs => 0
    case AlleeIs => 1
    case DeplacementBetween => 2
    case DeplacementIs => 2
    case NiveauBetween => 3
    case Type1Is => 4
    case Type2Is => 5
    case Type3Is => 6
    case PictogrammeIs => 7
    case SearchLike(_) => 8
  }

  /** At most one condition, in slot `k`. */
  predicate InSlot(w: Where, k: nat) {
    |w.conds| <= 1 && forall i | 0 <= i < |w.conds| :: Slot(w.conds[i]) == k
  }

  /** Each step emits at most one condition, of its own slot. */
  lemma StepsInSlots(f: FilterSet, n: Numbers)
    ensures forall k | 0 <= k < 9 :: InSlot(Steps(f, n)[k], k)
  {
  }

  /** A condition is in the joined clauses exactly when some step emitted it. */
  lemma {:induction false} JoinAllMember(ws: seq<Where>, c: Cond)
    ensures c in JoinAll(ws).conds <==> exists k | 0 <= k < |ws| :: c in ws[k].conds
    decreases |ws|
  {
    if ws != [] {
      var m := |ws| - 1;
      JoinAllMember(ws[..m], c);
      if exists k | 0 <= k < m :: c in ws[..m][k].conds {
        var k :| 0 <= k < m && c in ws[..m][k].conds;
        assert ws[k] == ws[..m][k];
      }
      if exists k | 0 <= k < |ws| :: c in ws[k].conds {
        var k :| 0 <= k < |ws| && c in ws[k].conds;
        if k < m {
          assert ws[..m][k] == ws[k];
        }
      }
    }
  }

  /** Conditions in strictly increasing slots, all below `bound`. */
  predicate SlottedBelow(conds: seq<Cond>, bound: nat) {
    && (forall i, j | 0 <= i < j < |conds| :: Slot(conds[i]) < Slot(conds[j]))
    && (forall i | 0 <= i < |conds| :: Slot(conds[i]) < bound)
  }

  /** Steps each in their own slot join into conditions in increasing slots. */
  lemma {:induction false} JoinAllSlotted(ws: seq<Where>)
    requires forall k | 0 <= k < |ws| :: InSlot(ws[k], k)
    ensures SlottedBelow(JoinAll(ws).conds, |ws|)
    decreases |ws|
  {
    if ws != [] {
      var m := |ws| - 1;
      assert forall k | 0 <= k < m :: ws[..m][k] == ws[k];
      JoinAllSlotted(ws[..m]);
    }
  }

  /** A condition lies in the slot of the step that emitted it. */
  lemma ClausesMember(f: FilterSet, n: Numbers, c: Cond)
    ensures c in Clauses(f, n).conds <==> c in Steps(f, n)[Slot(c)].conds
  {
    var ws := Steps(f, n);
    JoinAllMember(ws, c);
    StepsInSlots(f, n);
    if c in Clauses(f, n).conds {
      var k :| 0 <= k < |ws| && c in ws[k].conds;
      var i :| 0 <= i < |ws[k].conds| && ws[k].conds[i] == c;
      assert Slot(c) == k;
    }
  }

  /** The filters on the location key: the zone when given, the allee when it is a number, a range for deplacement when both bounds read as integers and an equality when only the lower one does, niveau only with both bounds. */
  lemma WhereRangeConditions(f: FilterSet, n: Numbers)
    ensures var conds := Clauses(f, n).conds;
      && (ZoneIs in conds <==> f.zone != "")
      && (AlleeIs in conds <==> n.allee.Some?)
      && (DeplacementBetween in conds <==> n.depFrom.Some? && n.depTo.Some?)
      && (DeplacementIs in conds <==> n.depFrom.Some? && n.depTo.None?)
      && (NiveauBetween in conds <==> n.nivFrom.Some? && n.nivTo.Some?)
  {
    ClausesMember(f, n, ZoneIs);
    ClausesMember(f, n, AlleeIs);
    ClausesMember(f, n, DeplacementBetween);
    ClausesMember(f, n, DeplacementIs);
    ClausesMember(f, n, NiveauBetween);
  }

  /** The text filters: one condition per non-empty filter. */
  lemma WhereTextConditions(f: FilterSet, n: Numbers)
    ensures var conds := Clauses(f, n).conds;
      && (Type1Is in conds <==> f.type1 != "")
      && (Type2Is in conds <==> f.type2 != "")
      && (Type3Is in conds <==> f.type3 != "")
      && (PictogrammeIs in conds <==> f.pictogramme != "")
  {
    ClausesMember(f, n, Type1Is);
    ClausesMember(f, n, Type2Is);
    ClausesMember(f, n, Type3Is);
    ClausesMember(f, n, PictogrammeIs);
  }

  /** The global search adds one condition exactly when it is non-empty, carrying the search text with its quotes removed. */
  lemma WhereSearchCondition(f: FilterSet, n: Numbers)
    ensures var conds := Clauses(f, n).conds;
      && (SearchLike(WithoutQuotes(f.search)) in conds <==> f.search != "")
      && (forall c | c in conds && c.SearchLike? :: c.pattern == WithoutQuotes(f.search))
  {
    ClausesMember(f, n, SearchLike(WithoutQuotes(f.search)));
    forall c | c in Clauses(f, n).conds && c.SearchLike? ensures c.pattern == WithoutQuotes(f.search) {
      ClausesMember(f, n, c);
    }
  }

  /** Each condition is emitted at most once, in the builder's order. */
  lemma WhereConditionsDistinct(f: FilterSet, n: Numbers)
    ensures var conds := Clauses(f, n).conds;
      forall i, j | 0 <= i < j < |conds| :: conds[i] != conds[j] && Slot(conds[i]) < Slot(conds[j])
  {
    StepsInSlots(f, n);
    JoinAllSlotted(Steps(f, n));
  }

  /** Placeholders of a list of conditions split over a concatenation. */
  lemma {:induction false} AllPlaceholdersAppend(a: seq<Cond>, b: seq<Cond>)
    ensures AllPlaceholders(a + b) == AllPlaceholders(a) + AllPlaceholders(b)
    decreases |b|
  {
    if b != [] {
      var n := |b| - 1;
      assert (a + b)[..|a + b| - 1] == a + b[..n];
      assert (a + b)[|a + b| - 1] == b[n];
      AllPlaceholdersAppend(a, b[..n]);
      calc {
        AllPlaceholders(a + b);
        AllPlaceholders(a + b[..n]) + Placeholders(b[n]);
        (AllPlaceholders(a) + AllPlaceholders(b[..n])) + Placeholders(b[n]);
        AllPlaceholders(a) + (AllPlaceholders(b[..n]) + Placeholders(b[n]));
        AllPlaceholders(a) + AllPlaceholders(b);
      }
    } else {
      assert a + b == a;
    }
  }

  /** A clause list binds exactly the placeholders its conditions use, in order. */
  predicate Binds(w: Where) {
    Names(w.params) == AllPlaceholders(w.conds)
  }

  lemma JoinBinds(a: Where, b: Where)
    requires Binds(a) && Binds(b)
    ensures Binds(Join(a, b))
  {
    AllPlaceholdersAppend(a.conds, b.conds);
    assert Names(a.params + b.params) == Names(a.params) + Names(b.params);
  }

  /** A step with no condition and no parameter, or one condition and exactly its parameters, binds what it uses. */
  lemma StepBinds(w: Where)
    requires w.conds == [] ==> w.params == []
    requires |w.conds| <= 1
    requires |w.conds| == 1 ==> Names(w.params) == Placeholders(w.conds[0])
    ensures Binds(w)
  {
    if |w.conds| == 1 {
      assert w.conds[..0] == [];
    }
  }

  lemma {:induction false} JoinAllBinds(ws: seq<Where>)
    requires forall k | 0 <= k < |ws| :: Binds(ws[k])
    ensures Binds(JoinAll(ws))
    decreases |ws|
  {
    if ws != [] {
      var m := |ws| - 1;
      var init := ws[..m];
      forall k | 0 <= k < m ensures Binds(init[k]) {
        assert init[k] == ws[k];
      }
      JoinAllBinds(init);
      assert Binds(ws[m]);
      JoinBinds(JoinAll(init), ws[m]);
    }
  }

  lemma KeyStepsBind(f: FilterSet, n: Numbers)
    ensures forall k | 0 <= k < 3 :: Binds(Steps(f, n)[k])
  {
    StepBinds(ZoneStep(f));
    StepBinds(AlleeStep(n));
    StepBinds(DeplacementStep(n));
  }

  lemma MiddleStepsBind(f: FilterSet, n: Numbers)
    ensures forall k | 3 <= k < 6 :: Binds(Steps(f, n)[k])
  {
    StepBinds(NiveauStep(n));
    StepBinds(Type1Step(f));
    StepBinds(Type2Step(f));
  }

  lemma LastStepsBind(f: FilterSet, n: Numbers)
    ensures forall k | 6 <= k < 9 :: Binds(Steps(f, n)[k])
  {
    StepBinds(Type3Step(f));
    StepBinds(PictogrammeStep(f));
    StepBinds(SearchStep(f));
  }

  /**
   * The parameters are exactly the placeholders of the conditions, in order:
   * the query never refers to an unbound parameter and binds none it does
   * not use (the search text is inlined and has none).
   */
  lemma WhereBindsEveryPlaceholder(f: FilterSet, n: Numbers)
    ensures Binds(Clauses(f, n))
  {
    KeyStepsBind(f, n);
    MiddleStepsBind(f, n);
    LastStepsBind(f, n);
    JoinAllBinds(Steps(f, n));
  }

  // ---------------------------------------------------------------------------
  // Type hierarchy
  // ---------------------------------------------------------------------------

  /** `{ Type1: { Type2: [Type3, ...] } }`. */
  type TypeTree = map<string, map<string, seq<string>>>

  /** `types.setdefault(t1, {}).setdefault(t2 or "", []).append(t3 or "")`, skipped when Type1 is falsy. */
  function AddType(h: TypeTree, r: TypeRow): TypeTree {
    if !Given(r.type1) then h
    else
      var t1 := r.type1.value;
      var inner := if t1 in h then h[t1] else map[];
      var t2 := OrEmpty(r.type2);
      var leaves := if t2 in inner then inner[t2] else [];
      h[t1 := inner[t2 := leaves + [OrEmpty(r.type3)]]]
  }

  /** The hierarchy after the loop over the rows. */
  function Hierarchy(rows: seq<TypeRow>): TypeTree {
    if rows == [] then map[] else AddType(Hierarchy(rows[..|rows| - 1]), rows[|rows| - 1])
  }

  /** Whether a row is filed under `t1` and `t2`. */
  predicate FiledUnder(r: TypeRow, t1: string, t2: string) {
    Given(r.type1) && r.type1.value == t1 && OrEmpty(r.type2) == t2
  }

  /** The Type3 values of the rows filed under `t1` and `t2`, in input order. */
  function Leaves(rows: seq<TypeRow>, t1: string, t2: string): seq<string> {
    if rows == [] then []
    else
      var last := rows[|rows| - 1];
      Leaves(rows[..|rows| - 1], t1, t2) + (if FiledUnder(last, t1, t2) then [OrEmpty(last.type3)] else [])
  }

  /**
   * The hierarchy files each row with a truthy Type1 under its Type1 and
   * `Type2 or ""`: a pair is present exactly when some row is filed under
   * it, and then lists those rows' `Type3 or ""` in input order.
   */
  lemma {:induction false} HierarchyMeaning(rows: seq<TypeRow>, t1: string, t2: string)
    ensures var h := Hierarchy(rows);
      && (t1 in h ==> t1 != "")
      && ((t1 in h && t2 in h[t1]) <==> Leaves(rows, t1, t2) != [])
      && (t1 in h && t2 in h[t1] ==> h[t1][t2] == Leaves(rows, t1, t2))
    decreases |rows|
  {
    if rows != [] {
      HierarchyMeaning(rows[..|rows| - 1], t1, t2);
    }
  }

  /** A Type1 is a key exactly when some row carries it; rows with an empty or missing Type1 are skipped. */
  lemma {:induction false} HierarchyKeys(rows: seq<TypeRow>, t1: string)
    ensures t1 in Hierarchy(rows) <==> exists i | 0 <= i < |rows| :: rows[i].type1 == Some(t1) && t1 != ""
    decreases |rows|
  {
    if rows != [] {
      var init := rows[..|rows| - 1];
      HierarchyKeys(init, t1);
      if exists i | 0 <= i < |init| :: init[i].type1 == Some(t1) && t1 != "" {
        var i :| 0 <= i < |init| && init[i].type1 == Some(t1) && t1 != "";
        assert rows[i] == init[i];
      }
      if exists i | 0 <= i < |rows| :: rows[i].type1 == Some(t1) && t1 != "" {
        var i :| 0 <= i < |rows| && rows[i].type1 == Some(t1) && t1 != "";
        if i < |init| {
          assert init[i] == rows[i];
        }
      }
    }
  }

  /** The loop of `api_detail_emplacement_lists`. */
  method BuildHierarchy(rows: seq<TypeRow>) returns (types: TypeTree)
    ensures types == Hierarchy(rows)
  {
    types := map[];
    for i := 0 to |rows|
      invariant types == Hierarchy(rows[..i])
    {
      assert rows[..i + 1][..i] == rows[..i];
      var r := rows[i];
      if !Given(r.type1) {
        continue;
      }
      var t1 := r.type1.value;
      var inner := if t1 in types then types[t1] else map[];
      var t2 := OrEmpty(r.type2);
      var leaves := if t2 in inner then inner[t2] else [];
      types := types[t1 := inner[t2 := leaves + [OrEmpty(r.type3)]]];
    }
    assert rows[..|rows|] == rows;
  }
}

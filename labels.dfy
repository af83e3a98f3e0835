/**
 * The text label of a location, `zone-AAA-DDDD-NN` (`api_lists` and the
 * secondary-route generator in routes.py), and `parse_emp`, which reads such
 * a label back when a primary route is added.
 */
module Labels {
  import opened Wrappers
  import opened Text
  import opened Values

  /** The key of a location in TblEmplacement: Zone, Allee, Deplacement, Niveau. */
  datatype Place = Place(zone: string, allee: int, deplacement: int, niveau: int)

  /**
   * The label: the zone, then the aisle, bay and level zero-padded to widths
   * 3, 4 and 2, joined by `-`. `str(n).zfill(w)` and `f"{n:0wd}"` agree on
   * integers, so the generator's labels are the same text.
   */
  function Label(p: Place): string {
    p.zone + "-" + ZFill(IntText(p.allee), 3) + "-" + ZFill(IntText(p.deplacement), 4) + "-" + ZFill(IntText(p.niveau), 2)
  }

  /** What `parse_emp` makes of a body value: `None`, a place, or an exception that escapes the handler. */
  datatype Parsed = NoPlace | Found(place: Place) | Raises

  /**
   * `parse_emp`: a falsy value, or a text that does not split into exactly
   * four `-`-separated parts, gives `None`; otherwise part 0 is the zone and
   * `int()` of parts 1 to 3 the numbers. A truthy non-text value has no
   * `split`, and a part `int()` refuses raises `ValueError`.
   */
  function ParseEmp(emp: Json): (r: Parsed)
    ensures r.NoPlace? <==> !Truthy(emp) || (emp.JStr? && |Split(emp.s, '-')| != 4)
    ensures r.Found? ==> emp.JStr? && |Split(emp.s, '-')| == 4 && r.place.zone == Split(emp.s, '-')[0]
    ensures r.Found? ==> Some(r.place.allee) == PyInt(Split(emp.s, '-')[1])
    ensures r.Found? ==> Some(r.place.deplacement) == PyInt(Split(emp.s, '-')[2])
    ensures r.Found? ==> Some(r.place.niveau) == PyInt(Split(emp.s, '-')[3])
  {
    if !Truthy(emp) then NoPlace
    else if !emp.JStr? then Raises
    else
      var parts := Split(emp.s, '-');
      if |parts| != 4 then NoPlace
      else
        match (PyInt(parts[1]), PyInt(parts[2]), PyInt(parts[3]))
        case (Some(a), Some(d), Some(n)) => Found(Place(parts[0], a, d, n))
        case _ => Raises
  }

  /** Splitting on `sep` gives one more part than there are separators. */
  lemma {:induction false} SplitLength(s: string, sep: char)
    ensures |Split(s, sep)| == multiset(s)[sep] + 1
    decreases |s|
  {
    if s != [] {
      SplitLength(s[1..], sep);
      assert s == [s[0]] + s[1..];
    }
  }

  lemma NoDashInDigits(s: string)
    requires AllDigits(s)
    ensures multiset(s)['-'] == 0
  {
    forall i | 0 <= i < |s| ensures s[i] != '-' {
      assert IsDigit(s[i]);
    }
  }

  /** A padded number holds a `-` exactly when it is negative. */
  lemma DashesOfNumber(n: int, width: nat)
    ensures multiset(ZFill(IntText(n), width))['-'] == if n < 0 then 1 else 0
  {
    if n >= 0 {
      var d := Decimal(n);
      ZFillNonNegative(n, width);
      NoDashInDigits(Zeros(if |d| >= width then 0 else width - |d|) + d);
    } else {
      var d := Decimal(-n);
      ZFillNegative(-n, width);
      NoDashInDigits(Zeros(if |d| + 1 >= width then 0 else width - |d| - 1) + d);
    }
  }

  /** The label holds the zone's dashes, the three separators and one sign per negative number. */
  lemma LabelDashes(p: Place)
    ensures multiset(Label(p))['-'] ==
      multiset(p.zone)['-'] + 3 + (if p.allee < 0 then 1 else 0) + (if p.deplacement < 0 then 1 else 0) + (if p.niveau < 0 then 1 else 0)
  {
    DashesOfNumber(p.allee, 3);
    DashesOfNumber(p.deplacement, 4);
    DashesOfNumber(p.niveau, 2);
  }

  /** Four dash-free texts joined by `-` split back into those four texts. */
  lemma SplitFour(z: string, a: string, d: string, n: string)
    requires '-' !in z && '-' !in a && '-' !in d && '-' !in n
    ensures Split(z + "-" + a + "-" + d + "-" + n, '-') == [z, a, d, n]
  {
    assert z + "-" + a + "-" + d + "-" + n == z + ['-'] + (a + ['-'] + (d + ['-'] + n));
    SplitJoin(z, '-', a + ['-'] + (d + ['-'] + n));
    SplitJoin(a, '-', d + ['-'] + n);
    SplitJoin(d, '-', n);
    SplitNoSeparator(n, '-');
  }

  /** Splitting a dash-free zone and three non-negative padded numbers gives back the four parts. */
  lemma SplitLabel(p: Place)
    requires '-' !in p.zone && p.allee >= 0 && p.deplacement >= 0 && p.niveau >= 0
    ensures Split(Label(p), '-') ==
      [p.zone, ZFill(IntText(p.allee), 3), ZFill(IntText(p.deplacement), 4), ZFill(IntText(p.niveau), 2)]
  {
    var a, d, n := ZFill(IntText(p.allee), 3), ZFill(IntText(p.deplacement), 4), ZFill(IntText(p.niveau), 2);
    DashesOfNumber(p.allee, 3);
    DashesOfNumber(p.deplacement, 4);
    DashesOfNumber(p.niveau, 2);
    assert '-' !in a && '-' !in d && '-' !in n;
    SplitFour(p.zone, a, d, n);
  }

  /** A text that splits into a zone and three integers parses to that place. */
  lemma ParseFourParts(s: string, p: Place, a: string, d: string, n: string)
    requires s != [] && Split(s, '-') == [p.zone, a, d, n]
    requires PyInt(a) == Some(p.allee) && PyInt(d) == Some(p.deplacement) && PyInt(n) == Some(p.niveau)
    ensures ParseEmp(JStr(s)) == Found(p)
  {
  }

  /** A label whose zone has no `-` and whose numbers are non-negative reads back to its place. */
  lemma LabelParses(p: Place)
    requires '-' !in p.zone && p.allee >= 0 && p.deplacement >= 0 && p.niveau >= 0
    ensures ParseEmp(JStr(Label(p))) == Found(p)
  {
    var a, d, n := ZFill(IntText(p.allee), 3), ZFill(IntText(p.deplacement), 4), ZFill(IntText(p.niveau), 2);
    SplitLabel(p);
    PyIntZFill(p.allee, 3);
    PyIntZFill(p.deplacement, 4);
    PyIntZFill(p.niveau, 2);
    ParseFourParts(Label(p), p, a, d, n);
  }

  /** Any other label splits into five parts or more, which `parse_emp` turns into `None`. */
  lemma LabelRefused(p: Place)
    requires '-' in p.zone || p.allee < 0 || p.deplacement < 0 || p.niveau < 0
    ensures ParseEmp(JStr(Label(p))) == NoPlace
  {
    var l := Label(p);
    SplitLength(l, '-');
    LabelDashes(p);
    assert '-' in p.zone ==> multiset(p.zone)['-'] >= 1;
    assert |Split(l, '-')| >= 5;
  }

  /**
   * `parse_emp` reads a label back to its place exactly when the zone has no
   * `-` and the three numbers are non-negative.
   */
  lemma LabelRoundTrip(p: Place)
    ensures ParseEmp(JStr(Label(p))) == Found(p) <==>
      '-' !in p.zone && p.allee >= 0 && p.deplacement >= 0 && p.niveau >= 0
  {
    if '-' !in p.zone && p.allee >= 0 && p.deplacement >= 0 && p.niveau >= 0 {
      LabelParses(p);
    } else {
      LabelRefused(p);
    }
  }
}

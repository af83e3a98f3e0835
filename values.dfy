/**
 * JSON request values as the Flask handlers see them after `request.get_json()`,
 * and the Python conversions the handlers apply to them: truthiness, `str()`,
 * `int()`, `(v or "").strip()` and the palette flag spelling.
 */
module Values {
  import opened Wrappers
  import opened Text

  /**
   * A scalar JSON value. A float carries the text Python's `str()` gives for
   * it, since float formatting is not part of this model.
   */
  datatype Json =
    | JNull
    | JBool(b: bool)
    | JInt(i: int)
    | JFloat(f: real, repr: string)
    | JStr(s: string)

  /** Python truthiness: `None`, `False`, `0`, `0.0` and `""` are false. */
  predicate Truthy(v: Json) {
    match v
    case JNull => false
    case JBool(b) => b
    case JInt(i) => i != 0
    case JFloat(f, _) => f != 0.0
    case JStr(s) => s != []
  }

  /** Python's `str(v)`. */
  function PyStr(v: Json): string {
    match v
    case JNull => "None"
    case JBool(b) => if b then "True" else "False"
    case JInt(i) => IntText(i)
    case JFloat(_, repr) => repr
    case JStr(s) => s
  }

  /** Truncation toward zero, as Python's `int()` does to a float. */
  function Truncate(f: real): int {
    if f >= 0.0 then f.Floor else -((-f).Floor)
  }

  /** Python's `int(v)`; `None` where it raises. */
  function ToInt(v: Json): Option<int> {
    match v
    case JNull => None
    case JBool(b) => Some(if b then 1 else 0)
    case JInt(i) => Some(i)
    case JFloat(f, _) => Some(Truncate(f))
    case JStr(s) => PyInt(s)
  }

  /**
   * The value BigQuery binds to an INT64 query parameter. The client sends a
   * Python `int` as `str(value)` and anything else unchanged, and BigQuery
   * reads the text as an optionally signed run of decimal digits. A boolean
   * is a Python `int` whose `str()` is "True" or "False", so it binds nothing,
   * and neither do `None`, a float or other text: the query raises.
   */
  function Int64Param(v: Json): Option<int> {
    match v
    case JInt(i) => Some(i)
    case JBool(b) => ParseSigned(if b then "True" else "False")
    case JStr(s) => ParseSigned(s)
    case _ => None
  }

  /**
   * Where BigQuery binds an INT64 parameter, Python's `int()` reads the same
   * value; the converse fails on booleans, floats and padded text.
   */
  lemma Int64ParamIsInt(v: Json)
    requires Int64Param(v).Some?
    ensures ToInt(v) == Int64Param(v) && (v.JInt? || v.JStr?)
  {
    if v.JStr? {
      ParseSignedEnds(v.s);
      StripNoop(v.s, IsIntSpace);
    }
  }

  /** The decimal text of an integer binds that integer. */
  lemma Int64ParamOfText(n: int)
    ensures Int64Param(JStr(IntText(n))) == Some(n) && Int64Param(JInt(n)) == Some(n)
  {
    var t := IntText(n);
    PyIntZFill(n, 0);
    assert ZFill(t, 0) == t;
    if n >= 0 {
      PaddedDecimal(0, n);
      assert Zeros(0) + Decimal(n) == t;
      DigitsTrimmed(t);
    } else {
      PaddedDecimal(0, -n);
      assert Zeros(0) + Decimal(-n) == Decimal(-n);
      TrimNegativeDigits(Decimal(-n));
    }
  }

  /** `_as_int_or_none`: `None` and `""` give no value, and so does anything `int()` rejects. */
  function AsIntOrNone(v: Json): (r: Option<int>)
    ensures v == JNull || v == JStr("") ==> r == None
    ensures v != JNull && v != JStr("") ==> r == ToInt(v)
  {
    if v == JNull || v == JStr("") then None else ToInt(v)
  }

  /** The printed form of an integer reads back as that integer. */
  lemma AsIntOrNoneOfText(n: int)
    ensures AsIntOrNone(JStr(IntText(n))) == Some(n)
    ensures AsIntOrNone(JInt(n)) == Some(n)
  {
    PyIntZFill(n, 0);
    assert ZFill(IntText(n), 0) == IntText(n);
    assert IntText(n) != "" by {
      if n < 0 { assert |IntText(n)| == 1 + |Decimal(-n)|; }
    }
  }

  /** Truthiness of a nullable text column: present and non-empty. */
  predicate Given(v: Option<string>) {
    v.Some? && v.value != ""
  }

  /** `v or ""` on a nullable text column. */
  function OrEmpty(v: Option<string>): (r: string)
    ensures Given(v) ==> r == v.value
    ensures !Given(v) ==> r == ""
  {
    if v.Some? then v.value else ""
  }

  /** `(v or "").strip()` on a request field; `None` where `.strip()` meets a non-string and raises. */
  function StrippedOrEmpty(v: Json): (r: Option<string>)
    ensures !Truthy(v) ==> r == Some("")
    ensures Truthy(v) && v.JStr? ==> r == Some(Trim(v.s))
    ensures Truthy(v) && !v.JStr? ==> r == None
  {
    if !Truthy(v) then Some("")
    else if v.JStr? then Some(Trim(v.s))
    else None
  }

  /** The spellings a palette flag is set with, once lower-cased. */
  const PaletteOn: set<string> := {"1", "true", "yes", "on"}

  /** `str(v).lower() in ("1", "true", "yes", "on")`. */
  predicate PaletteChecked(v: Json) {
    Lower(PyStr(v)) in PaletteOn
  }

  /** Which values set the palette flag: `True`, the integer 1, and the four spellings in any letter case. */
  lemma PaletteCheckedCases(v: Json)
    requires !v.JFloat?
    ensures v.JNull? ==> !PaletteChecked(v)
    ensures v.JBool? ==> (PaletteChecked(v) <==> v.b)
    ensures v.JInt? ==> (PaletteChecked(v) <==> v.i == 1)
    ensures v.JStr? ==> (PaletteChecked(v) <==> Lower(v.s) in PaletteOn)
  {
    match v
    case JNull =>
      assert Lower("None") == "none";
    case JBool(b) =>
      assert Lower("True") == "true";
      assert Lower("False") == "false";
    case JInt(i) =>
      if i == 1 {
        assert IntText(1) == "1";
        assert Lower("1") == "1";
      } else {
        IntTextNotFlag(i);
      }
    case JStr(s) =>
  }

  /** No integer other than 1 prints as one of the palette spellings. */
  lemma IntTextNotFlag(i: int)
    requires i != 1
    ensures Lower(IntText(i)) !in PaletteOn
  {
    var t := IntText(i);
    if i >= 0 {
      var d := Decimal(i);
      assert IsDigit(Lower(t)[0]);
      if |d| == 1 {
        assert ValueOf(d) == i by { ValueOfDecimal(i); }
        assert ValueOf(d) == ValueOf(d[..0]) * 10 + (d[0] as int - '0' as int);
        assert Lower(t) == [d[0]];
      }
    } else {
      assert Lower(t)[0] == '-';
    }
  }
}

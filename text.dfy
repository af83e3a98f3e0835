/**
 * The handful of Python string primitives the handlers rely on: `strip`,
 * `lower`, `split`, `int(...)`, `str(int)` and `zfill`. Whitespace is
 * Python's; letters and digits are the ASCII ones.
 */
module Text {
  import opened Wrappers

  /**
   * `str.isspace`, the whitespace `str.strip()` removes: TAB to CR, the
   * information separators U+001C to U+001F, the space, and the Unicode
   * separators U+0085, U+00A0, U+1680, U+2000 to U+200A, U+2028, U+2029,
   * U+202F, U+205F and U+3000.
   */
  predicate IsSpace(c: char) {
    || '\t' <= c <= '\r' || '\U{1C}' <= c <= ' '
    || c == '\U{85}' || c == '\U{A0}' || c == '\U{1680}' || '\U{2000}' <= c <= '\U{200A}'
    || c == '\U{2028}' || c == '\U{2029}' || c == '\U{202F}' || c == '\U{205F}' || c == '\U{3000}'
  }

  /**
   * The whitespace `int()` skips around its digits. Below U+007F it is C's
   * `isspace` (TAB to CR and the space); above, every `isspace` character.
   * So U+001C to U+001F, which `strip()` removes, are not skipped.
   */
  predicate IsIntSpace(c: char) {
    IsSpace(c) && !('\U{1C}' <= c <= '\U{1F}')
  }

  /** `s.lstrip(chars)` where `drop` says which characters are in `chars`. */
  function StripLeft(s: string, drop: char -> bool): string
    decreases |s|
  {
    if |s| > 0 && drop(s[0]) then StripLeft(s[1..], drop) else s
  }

  /** `s.rstrip(chars)`. */
  function StripRight(s: string, drop: char -> bool): string
    decreases |s|
  {
    if |s| > 0 && drop(s[|s| - 1]) then StripRight(s[..|s| - 1], drop) else s
  }

  /** `s.strip(chars)`. */
  function Strip(s: string, drop: char -> bool): string {
    StripRight(StripLeft(s, drop), drop)
  }

  /** `lstrip` removes a prefix and leaves a string that starts with a kept character. */
  lemma {:induction false} StripLeftSuffix(s: string, drop: char -> bool)
    ensures var r := StripLeft(s, drop);
      |r| <= |s| && r == s[|s| - |r|..] && (r == [] || !drop(r[0]))
    decreases |s|
  {
    if |s| > 0 && drop(s[0]) {
      StripLeftSuffix(s[1..], drop);
    }
  }

  /** `rstrip` removes a suffix and leaves a string that ends with a kept character. */
  lemma {:induction false} StripRightPrefix(s: string, drop: char -> bool)
    ensures var r := StripRight(s, drop);
      |r| <= |s| && r == s[..|r|] && (r == [] || !drop(r[|r| - 1]))
    decreases |s|
  {
    if |s| > 0 && drop(s[|s| - 1]) {
      StripRightPrefix(s[..|s| - 1], drop);
    }
  }

  /** Where `s.strip(chars)` starts inside `s`. */
  function StripStart(s: string, drop: char -> bool): int {
    |s| - |StripLeft(s, drop)|
  }

  /** `strip` keeps a contiguous slice of `s` that neither starts nor ends with a dropped character. */
  lemma StripSlice(s: string, drop: char -> bool)
    ensures var r := Strip(s, drop); var a := StripStart(s, drop);
      0 <= a <= a + |r| <= |s| && r == s[a..a + |r|]
      && (r == [] || (!drop(r[0]) && !drop(r[|r| - 1])))
  {
    var l := StripLeft(s, drop);
    StripLeftSuffix(s, drop);
    StripRightPrefix(l, drop);
    var r := StripRight(l, drop);
    assert r == s[|s| - |l|..|s| - |l| + |r|];
  }

  lemma StripLeftNoop(s: string, drop: char -> bool)
    requires s == [] || !drop(s[0])
    ensures StripLeft(s, drop) == s
  {
  }

  lemma StripRightNoop(s: string, drop: char -> bool)
    requires s == [] || !drop(s[|s| - 1])
    ensures StripRight(s, drop) == s
  {
  }

  /** Stripping is the identity on a string whose ends are already kept characters. */
  lemma StripNoop(s: string, drop: char -> bool)
    requires s == [] || (!drop(s[0]) && !drop(s[|s| - 1]))
    ensures Strip(s, drop) == s
  {
    StripLeftNoop(s, drop);
    StripRightNoop(s, drop);
  }

  /** Python's `str.strip()` with no argument. */
  function Trim(s: string): string {
    Strip(s, IsSpace)
  }

  /** A stripped string has no whitespace at either end, so stripping it again changes nothing. */
  lemma TrimIdempotent(s: string)
    ensures Trim(Trim(s)) == Trim(s)
  {
    StripSlice(s, IsSpace);
    StripNoop(Trim(s), IsSpace);
  }

  function LowerChar(c: char): char {
    if 'A' <= c <= 'Z' then (c as int + 32) as char else c
  }

  /** `str.lower()` on ASCII letters. */
  function Lower(s: string): string {
    seq(|s|, i requires 0 <= i < |s| => LowerChar(s[i]))
  }

  predicate IsDigit(c: char) {
    '0' <= c <= '9'
  }

  predicate AllDigits(s: string) {
    forall i | 0 <= i < |s| :: IsDigit(s[i])
  }

  function DigitChar(d: nat): (c: char)
    requires d < 10
    ensures IsDigit(c)
  {
    ('0' as int + d) as char
  }

  /** The value of a string of decimal digits, leading zeros allowed. */
  function ValueOf(s: string): nat
    requires AllDigits(s)
    decreases |s|
  {
    if s == [] then 0 else ValueOf(s[..|s| - 1]) * 10 + (s[|s| - 1] as int - '0' as int)
  }

  /** The shortest decimal spelling of `n`, as `str(n)` prints it. */
  function Decimal(n: nat): (r: string)
    ensures |r| > 0 && AllDigits(r)
    decreases n
  {
    if n < 10 then [DigitChar(n)] else Decimal(n / 10) + [DigitChar(n % 10)]
  }

  lemma {:induction false} ValueOfDecimal(n: nat)
    ensures ValueOf(Decimal(n)) == n
    decreases n
  {
    if n >= 10 {
      var d := Decimal(n);
      assert d[..|d| - 1] == Decimal(n / 10);
      ValueOfDecimal(n / 10);
    }
  }

  function Zeros(k: nat): (r: string)
    ensures |r| == k && AllDigits(r)
  {
    seq(k, _ => '0')
  }

  lemma {:induction false} ValueOfZeros(k: nat)
    ensures ValueOf(Zeros(k)) == 0
    decreases k
  {
    if k > 0 {
      assert Zeros(k)[..k - 1] == Zeros(k - 1);
      ValueOfZeros(k - 1);
    }
  }

  /** Leading zeros do not change the value of a digit string. */
  lemma {:induction false} ValueOfPadded(k: nat, s: string)
    requires AllDigits(s)
    ensures AllDigits(Zeros(k) + s) && ValueOf(Zeros(k) + s) == ValueOf(s)
    decreases |s|
  {
    if s == [] {
      assert Zeros(k) + s == Zeros(k);
      ValueOfZeros(k);
    } else {
      var t := Zeros(k) + s;
      assert t[..|t| - 1] == Zeros(k) + s[..|s| - 1];
      ValueOfPadded(k, s[..|s| - 1]);
    }
  }

  /** `str(n)` for a Python int. */
  function IntText(n: int): string {
    if n >= 0 then Decimal(n) else "-" + Decimal(-n)
  }

  /** `s.zfill(width)`: zeros go after a leading sign, and a long enough string is unchanged. */
  function ZFill(s: string, width: nat): string {
    if |s| >= width then s
    else if |s| > 0 && (s[0] == '-' || s[0] == '+') then [s[0]] + Zeros(width - |s|) + s[1..]
    else Zeros(width - |s|) + s
  }

  /** The value of a non-empty run of decimal digits, `None` for anything else. */
  function DigitsValue(s: string): Option<int> {
    if |s| > 0 && AllDigits(s) then Some(ValueOf(s) as int) else None
  }

  function Negated(v: Option<int>): Option<int> {
    match v
    case Some(n) => Some(-n)
    case None => None
  }

  /** `int(t)` once surrounding whitespace is gone: an optional sign, then decimal digits. */
  function ParseSigned(t: string): Option<int> {
    if |t| > 0 && t[0] == '-' then Negated(DigitsValue(t[1..]))
    else if |t| > 0 && t[0] == '+' then DigitsValue(t[1..])
    else DigitsValue(t)
  }

  /** What `int()` strips before reading its digits. */
  function IntTrim(s: string): string {
    Strip(s, IsIntSpace)
  }

  /** Python's `int(s)` on a string, `None` where it raises `ValueError`. */
  function PyInt(s: string): Option<int> {
    ParseSigned(IntTrim(s))
  }

  /** Everything `lstrip` removed is a dropped character. */
  lemma {:induction false} StripLeftDropped(s: string, drop: char -> bool)
    ensures forall i | 0 <= i < StripStart(s, drop) :: drop(s[i])
    decreases |s|
  {
    if |s| > 0 && drop(s[0]) {
      StripLeftDropped(s[1..], drop);
      forall i | 1 <= i < StripStart(s, drop) ensures drop(s[i]) {
        assert s[i] == s[1..][i - 1];
      }
    }
  }

  /** Everything `rstrip` removed is a dropped character. */
  lemma {:induction false} StripRightDropped(s: string, drop: char -> bool)
    ensures forall i | |StripRight(s, drop)| <= i < |s| :: drop(s[i])
    decreases |s|
  {
    if |s| > 0 && drop(s[|s| - 1]) {
      StripRightDropped(s[..|s| - 1], drop);
    }
  }

  /** `lstrip` stops at the first kept character. */
  lemma {:induction false} StripLeftAt(s: string, drop: char -> bool, b: nat)
    requires b < |s| && !drop(s[b])
    requires forall i | 0 <= i < b :: drop(s[i])
    ensures StripLeft(s, drop) == s[b..]
    decreases b
  {
    if b > 0 {
      assert s[1..][b - 1..] == s[b..];
      StripLeftAt(s[1..], drop, b - 1);
    }
  }

  /** `rstrip` stops at the last kept character. */
  lemma {:induction false} StripRightAt(s: string, drop: char -> bool, e: nat)
    requires 0 < e <= |s| && !drop(s[e - 1])
    requires forall i | e <= i < |s| :: drop(s[i])
    ensures StripRight(s, drop) == s[..e]
    decreases |s| - e
  {
    if e < |s| {
      assert s[..|s| - 1][..e] == s[..e];
      StripRightAt(s[..|s| - 1], drop, e);
    }
  }

  /** A text `int()` reads starts with a sign or a digit and ends with a digit. */
  lemma ParseSignedEnds(t: string)
    requires ParseSigned(t).Some?
    ensures |t| > 0 && IsDigit(t[|t| - 1]) && (IsDigit(t[0]) || t[0] == '-' || t[0] == '+')
  {
    if t[0] == '-' || t[0] == '+' {
      assert t[1..][|t[1..]| - 1] == t[|t| - 1];
    }
  }

  /**
   * Whatever `int()` reads, `strip()` leaves the same text: the characters
   * `int()` skips are whitespace, and a sign or digit is not.
   */
  lemma PyIntTrimmed(s: string)
    requires PyInt(s).Some?
    ensures IntTrim(s) == Trim(s) && PyInt(s) == ParseSigned(Trim(s))
  {
    var u := IntTrim(s);
    var b := StripStart(s, IsIntSpace);
    ParseSignedEnds(u);
    StripSlice(s, IsIntSpace);
    StripLeftDropped(s, IsIntSpace);
    var l := StripLeft(s, IsIntSpace);
    StripLeftSuffix(s, IsIntSpace);
    StripRightDropped(l, IsIntSpace);
    StripLeftAt(s, IsSpace, b);
    var e := b + |u|;
    forall i | e <= i < |s| ensures IsSpace(s[i]) {
      assert s[i] == l[i - b];
    }
    assert s[b..][e - b - 1] == u[|u| - 1];
    forall i | e - b <= i < |s[b..]| ensures IsSpace(s[b..][i]) {
      assert s[b..][i] == s[b + i];
    }
    StripRightAt(s[b..], IsSpace, e - b);
    assert s[b..][..e - b] == u;
  }

  lemma DigitsTrimmed(s: string)
    requires AllDigits(s)
    ensures Trim(s) == s && IntTrim(s) == s
  {
    if s != [] {
      assert IsDigit(s[0]) && IsDigit(s[|s| - 1]);
    }
    StripNoop(s, IsSpace);
    StripNoop(s, IsIntSpace);
  }

  /** `int(t)` of a plain digit string is its value. */
  lemma PyIntDigits(t: string)
    requires |t| > 0 && AllDigits(t)
    ensures PyInt(t) == Some(ValueOf(t) as int)
  {
    DigitsTrimmed(t);
    assert IsDigit(t[0]);
  }

  lemma TrimNegativeDigits(t: string)
    requires |t| > 0 && AllDigits(t)
    ensures Trim("-" + t) == "-" + t && IntTrim("-" + t) == "-" + t
  {
    var s := "-" + t;
    assert s[|s| - 1] == t[|t| - 1];
    assert IsDigit(t[|t| - 1]);
    StripNoop(s, IsSpace);
    StripNoop(s, IsIntSpace);
  }

  lemma ParseNegativeDigits(t: string)
    requires |t| > 0 && AllDigits(t)
    ensures ParseSigned("-" + t) == Some(-(ValueOf(t) as int))
  {
    assert ("-" + t)[1..] == t;
  }

  /** `int("-" + t)` of a digit string `t` is minus its value. */
  lemma PyIntNegativeDigits(t: string)
    requires |t| > 0 && AllDigits(t)
    ensures PyInt("-" + t) == Some(-(ValueOf(t) as int))
  {
    TrimNegativeDigits(t);
    ParseNegativeDigits(t);
  }

  lemma PaddedDecimal(k: nat, m: nat)
    ensures |Zeros(k) + Decimal(m)| > 0 && AllDigits(Zeros(k) + Decimal(m))
    ensures ValueOf(Zeros(k) + Decimal(m)) == m
  {
    ValueOfPadded(k, Decimal(m));
    ValueOfDecimal(m);
  }

  lemma PyIntOfValue(t: string, m: nat)
    requires |t| > 0 && AllDigits(t) && ValueOf(t) == m
    ensures PyInt(t) == Some(m as int)
  {
    PyIntDigits(t);
  }

  lemma PyIntNegativeOfValue(t: string, m: nat)
    requires |t| > 0 && AllDigits(t) && ValueOf(t) == m
    ensures PyInt("-" + t) == Some(-(m as int))
  {
    PyIntNegativeDigits(t);
  }

  lemma PyIntPaddedDecimal(k: nat, m: nat)
    ensures PyInt(Zeros(k) + Decimal(m)) == Some(m as int)
  {
    PaddedDecimal(k, m);
    PyIntOfValue(Zeros(k) + Decimal(m), m);
  }

  lemma PyIntNegativePaddedDecimal(k: nat, m: nat)
    ensures PyInt("-" + (Zeros(k) + Decimal(m))) == Some(-(m as int))
  {
    PaddedDecimal(k, m);
    PyIntNegativeOfValue(Zeros(k) + Decimal(m), m);
  }

  lemma ZFillNonNegative(n: nat, width: nat)
    ensures var d := Decimal(n);
      ZFill(IntText(n), width) == Zeros(if |d| >= width then 0 else width - |d|) + d
  {
    var d := Decimal(n);
    assert IsDigit(d[0]);
  }

  lemma ZFillNegative(n: nat, width: nat)
    requires n > 0
    ensures var d := Decimal(n);
      ZFill(IntText(-(n as int)), width) == "-" + (Zeros(if |d| + 1 >= width then 0 else width - |d| - 1) + d)
  {
    var t := "-" + Decimal(n);
    assert IntText(-(n as int)) == t;
    assert t[1..] == Decimal(n);
  }

  lemma PyIntZFillNonNegative(n: nat, width: nat)
    ensures PyInt(ZFill(IntText(n), width)) == Some(n as int)
  {
    var d := Decimal(n);
    ZFillNonNegative(n, width);
    PyIntPaddedDecimal(if |d| >= width then 0 else width - |d|, n);
  }

  lemma PyIntZFillNegative(n: nat, width: nat)
    requires n > 0
    ensures PyInt(ZFill(IntText(-(n as int)), width)) == Some(-(n as int))
  {
    var d := Decimal(n);
    ZFillNegative(n, width);
    PyIntNegativePaddedDecimal(if |d| + 1 >= width then 0 else width - |d| - 1, n);
  }

  /** `int(str(n).zfill(w)) == n`: zero-padding a printed integer keeps its value. */
  lemma PyIntZFill(n: int, width: nat)
    ensures PyInt(ZFill(IntText(n), width)) == Some(n)
  {
    if n >= 0 {
      PyIntZFillNonNegative(n, width);
    } else {
      PyIntZFillNegative(-n, width);
    }
  }

  /** Python's `s.split(sep)` for a one-character separator. */
  function Split(s: string, sep: char): (r: seq<string>)
    ensures |r| >= 1
  {
    if s == [] then [[]]
    else
      var rest := Split(s[1..], sep);
      if s[0] == sep then [[]] + rest else [[s[0]] + rest[0]] + rest[1..]
  }

  lemma {:induction false} SplitNoSeparator(a: string, sep: char)
    requires sep !in a
    ensures Split(a, sep) == [a]
  {
    if a != [] {
      SplitNoSeparator(a[1..], sep);
      assert [a[0]] + a[1..] == a;
    }
  }

  /** Splitting `a + sep + b` peels `a` off when `a` holds no separator. */
  lemma {:induction false} SplitJoin(a: string, sep: char, b: string)
    requires sep !in a
    ensures Split(a + [sep] + b, sep) == [a] + Split(b, sep)
  {
    if a == [] {
      assert a + [sep] + b == [sep] + b;
      assert ([sep] + b)[1..] == b;
    } else {
      assert (a + [sep] + b)[1..] == a[1..] + [sep] + b;
      SplitJoin(a[1..], sep, b);
      assert [a[0]] + a[1..] == a;
    }
  }
}

/**
 * Python's `sorted(set(...))`: the strictly increasing list of the distinct
 * values of a collection, for any strict total order (numbers compare by
 * value, strings by code point).
 */
module Ordering {

  /** Python's `<` on `str`: lexicographic order on code points, a proper prefix first. */
  predicate LexLess(a: string, b: string)
    decreases |a|
  {
    if a == [] then b != []
    else if b == [] then false
    else if a[0] == b[0] then LexLess(a[1..], b[1..])
    else a[0] < b[0]
  }

  predicate IntLess(a: int, b: int) {
    a < b
  }

  ghost predicate StrictTotalOrder<T(!new)>(lt: (T, T) -> bool) {
    && (forall x :: !lt(x, x))
    && (forall x, y, z :: lt(x, y) && lt(y, z) ==> lt(x, z))
    && (forall x, y :: x != y ==> lt(x, y) || lt(y, x))
  }

  lemma {:induction false} LexIrreflexive(a: string)
    ensures !LexLess(a, a)
    decreases |a|
  {
    if a != [] {
      LexIrreflexive(a[1..]);
    }
  }

  lemma {:induction false} LexTransitive(a: string, b: string, c: string)
    requires LexLess(a, b) && LexLess(b, c)
    ensures LexLess(a, c)
    decreases |a|
  {
    if a != [] && b != [] && c != [] && a[0] == b[0] && b[0] == c[0] {
      LexTransitive(a[1..], b[1..], c[1..]);
    }
  }

  lemma {:induction false} LexTotal(a: string, b: string)
    requires a != b
    ensures LexLess(a, b) || LexLess(b, a)
    decreases |a|
  {
    if a != [] && b != [] && a[0] == b[0] {
      assert a == [a[0]] + a[1..] && b == [b[0]] + b[1..];
      LexTotal(a[1..], b[1..]);
    }
  }

  lemma LexIsStrictTotalOrder()
    ensures StrictTotalOrder(LexLess)
  {
    forall x: string { LexIrreflexive(x); }
    forall x: string, y: string, z: string | LexLess(x, y) && LexLess(y, z) { LexTransitive(x, y, z); }
    forall x: string, y: string | x != y { LexTotal(x, y); }
  }

  lemma IntIsStrictTotalOrder()
    ensures StrictTotalOrder(IntLess)
  {
  }

  ghost predicate StrictlySorted<T>(lt: (T, T) -> bool, s: seq<T>) {
    forall i, j | 0 <= i < j < |s| :: lt(s[i], s[j])
  }

  /** Adds `x` to a strictly increasing list, unless it is already there. */
  function Insert<T(==)>(lt: (T, T) -> bool, x: T, s: seq<T>): seq<T> {
    if s == [] then [x]
    else if x == s[0] then s
    else if lt(x, s[0]) then [x] + s
    else [s[0]] + Insert(lt, x, s[1..])
  }

  lemma {:induction false} InsertKeepsSorted<T(!new)>(lt: (T, T) -> bool, x: T, s: seq<T>)
    requires StrictTotalOrder(lt) && StrictlySorted(lt, s)
    ensures StrictlySorted(lt, Insert(lt, x, s))
    ensures forall y :: y in Insert(lt, x, s) <==> y == x || y in s
  {
    if s != [] && x != s[0] && !lt(x, s[0]) {
      InsertKeepsSorted(lt, x, s[1..]);
      var t := Insert(lt, x, s[1..]);
      assert lt(s[0], x);
      forall j | 0 < j < |[s[0]] + t| ensures lt(([s[0]] + t)[0], ([s[0]] + t)[j]) {
        assert t[j - 1] in t;
      }
    } else if s != [] && x != s[0] {
      forall j | 0 < j < |[x] + s| ensures lt(([x] + s)[0], ([x] + s)[j]) {
        assert j - 1 == 0 || lt(s[0], s[j - 1]);
      }
    }
  }

  /** `sorted(set(xs))`: the distinct values of `xs`, each once, in increasing order. */
  function SortedDistinct<T(==,!new)>(lt: (T, T) -> bool, xs: seq<T>): (r: seq<T>)
    requires StrictTotalOrder(lt)
    ensures StrictlySorted(lt, r)
    ensures forall y :: y in r <==> y in xs
  {
    if xs == [] then []
    else
      var rest := SortedDistinct(lt, xs[..|xs| - 1]);
      InsertKeepsSorted(lt, xs[|xs| - 1], rest);
      assert xs == xs[..|xs| - 1] + [xs[|xs| - 1]];
      Insert(lt, xs[|xs| - 1], rest)
  }

  lemma SortedHeadIsLeast<T(!new)>(lt: (T, T) -> bool, s: seq<T>, y: T)
    requires StrictTotalOrder(lt) && StrictlySorted(lt, s) && y in s
    ensures !lt(y, s[0])
  {
    var i :| 0 <= i < |s| && s[i] == y;
    if i > 0 {
      assert lt(s[0], y);
    }
  }

  /**
   * A strictly increasing list is determined by its elements: the result of
   * `sorted(set(...))` does not depend on the order the values arrived in.
   */
  lemma {:induction false} SortedUnique<T(!new)>(lt: (T, T) -> bool, a: seq<T>, b: seq<T>)
    requires StrictTotalOrder(lt)
    requires StrictlySorted(lt, a) && StrictlySorted(lt, b)
    requires forall y :: y in a <==> y in b
    ensures a == b
    decreases |a|
  {
    assert a != [] ==> a[0] in b;
    assert b != [] ==> b[0] in a;
    if a != [] && b != [] {
      SortedHeadIsLeast(lt, a, b[0]);
      SortedHeadIsLeast(lt, b, a[0]);
      forall y ensures y in a[1..] <==> y in b[1..] {
        if y in a[1..] {
          var i :| 1 <= i < |a| && a[i] == y;
          assert lt(a[0], y);
          assert y in b && y != b[0];
          var j :| 0 <= j < |b| && b[j] == y;
          assert b[1..][j - 1] == y;
        }
        if y in b[1..] {
          var j :| 1 <= j < |b| && b[j] == y;
          assert lt(b[0], y);
          assert y in a && y != a[0];
          var i :| 0 <= i < |a| && a[i] == y;
          assert a[1..][i - 1] == y;
        }
      }
      SortedUnique(lt, a[1..], b[1..]);
      assert a == [a[0]] + a[1..] && b == [b[0]] + b[1..];
    }
  }

  /** `sorted(set(xs))` on text, which Python orders code point by code point. */
  function SortedStrings(xs: seq<string>): (r: seq<string>)
    ensures StrictlySorted(LexLess, r)
    ensures forall y :: y in r <==> y in xs
  {
    LexIsStrictTotalOrder();
    SortedDistinct(LexLess, xs)
  }

  /** Two lists with the same values give the same sorted text list. */
  lemma SortedStringsSameMembers(xs: seq<string>, ys: seq<string>)
    requires forall y :: y in xs <==> y in ys
    ensures SortedStrings(xs) == SortedStrings(ys)
  {
    LexIsStrictTotalOrder();
    SortedUnique(LexLess, SortedStrings(xs), SortedStrings(ys));
  }

  /** `sorted(set(xs))` on integers. */
  function SortedInts(xs: seq<int>): (r: seq<int>)
    ensures StrictlySorted(IntLess, r)
    ensures forall y :: y in r <==> y in xs
  {
    IntIsStrictTotalOrder();
    SortedDistinct(IntLess, xs)
  }
}

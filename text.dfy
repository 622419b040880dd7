/**
 * Text utilities the client relies on: joining pieces, decimal rendering of
 * integers (Go's `%d`), and the byte-wise ordering that `sort.Strings` uses.
 */
module Text {
  import opened Wrappers

  // ---------------------------------------------------------------------
  // Joining

  /** `strings.Join`: the parts with `sep` between consecutive ones. */
  function Join(sep: string, parts: seq<string>): string
  {
    if |parts| == 0 then ""
    else if |parts| == 1 then parts[0]
    else parts[0] + sep + Join(sep, parts[1..])
  }

  /** The parts written one after another, with no separator. */
  function Concat(parts: seq<string>): string
  {
    if |parts| == 0 then "" else parts[0] + Concat(parts[1..])
  }

  lemma {:induction false} ConcatAppend(a: seq<string>, b: seq<string>)
    ensures Concat(a + b) == Concat(a) + Concat(b)
  {
    if |a| == 0 {
      assert a + b == b;
    } else {
      assert (a + b)[1..] == a[1..] + b;
      ConcatAppend(a[1..], b);
    }
  }

  /** Joining two non-empty lists puts exactly one separator between them. */
  lemma {:induction false} JoinAppend(sep: string, a: seq<string>, b: seq<string>)
    requires |a| > 0 && |b| > 0
    ensures Join(sep, a + b) == Join(sep, a) + sep + Join(sep, b)
  {
    if |a| == 1 {
      assert (a + b)[1..] == b;
    } else {
      assert (a + b)[1..] == a[1..] + b;
      JoinAppend(sep, a[1..], b);
    }
  }

  /** A joined list written in place of one element reads as its items
      written there. */
  lemma JoinSplice(sep: string, a: seq<string>, m: seq<string>, b: seq<string>)
    requires |m| > 0
    ensures Join(sep, a + ([Join(sep, m)] + b)) == Join(sep, a + (m + b))
  {
    var j := Join(sep, m);
    if |a| > 0 && |b| > 0 {
      JoinAppend(sep, a, [j] + b);
      JoinAppend(sep, [j], b);
      JoinAppend(sep, a, m + b);
      JoinAppend(sep, m, b);
    } else if |a| > 0 {
      JoinAppend(sep, a, [j]);
      JoinAppend(sep, a, m);
      assert [j] + b == [j] && m + b == m;
    } else if |b| > 0 {
      JoinAppend(sep, [j], b);
      JoinAppend(sep, m, b);
      assert a + ([j] + b) == [j] + b && a + (m + b) == m + b;
    } else {
      assert a + ([j] + b) == [j];
      assert a + (m + b) == m;
    }
  }

  // ---------------------------------------------------------------------
  // Decimal integers

  predicate IsDigit(c: char)
  {
    '0' <= c <= '9'
  }

  predicate AllDigits(s: string)
  {
    forall i | 0 <= i < |s| :: IsDigit(s[i])
  }

  function DigitChar(d: nat): char
    requires d < 10
  {
    (('0' as int) + d) as char
  }

  function DigitValue(c: char): nat
    requires IsDigit(c)
  {
    (c as int) - ('0' as int)
  }

  /** The decimal digits of `n`, most significant first, without leading zeros. */
  function NatToString(n: nat): (s: string)
    ensures |s| > 0 && AllDigits(s)
    ensures s[0] == '0' ==> n == 0
    decreases n
  {
    if n < 10 then [DigitChar(n)] else NatToString(n / 10) + [DigitChar(n % 10)]
  }

  /** Go's `%d`: a minus sign for negative values, then the digits. */
  function IntToString(n: int): (s: string)
    ensures |s| > 0
    ensures n < 0 <==> s[0] == '-'
    ensures n < 0 ==> AllDigits(s[1..])
    ensures n >= 0 ==> AllDigits(s)
  {
    if n < 0 then "-" + NatToString(-n) else NatToString(n)
  }

  /** The value of a string of decimal digits. */
  function ParseNat(s: string): nat
    requires AllDigits(s)
    decreases |s|
  {
    if |s| == 0 then 0 else 10 * ParseNat(s[..|s| - 1]) + DigitValue(s[|s| - 1])
  }

  /** Reads back what `IntToString` writes; `None` for anything else. */
  function ParseInt(s: string): Option<int>
  {
    if |s| > 1 && s[0] == '-' && AllDigits(s[1..]) then
      var magnitude: int := ParseNat(s[1..]);
      Some(-magnitude)
    else if |s| > 0 && AllDigits(s) then Some(ParseNat(s))
    else None
  }

  lemma {:induction false} NatRoundTrip(n: nat)
    ensures ParseNat(NatToString(n)) == n
  {
    if n >= 10 {
      var s := NatToString(n);
      assert s[..|s| - 1] == NatToString(n / 10);
      NatRoundTrip(n / 10);
    }
  }

  /** Decimal rendering loses nothing: the integer can be read back. */
  lemma IntRoundTrip(n: int)
    ensures ParseInt(IntToString(n)) == Some(n)
  {
    if n < 0 {
      NatRoundTrip(-n);
      assert IntToString(n)[1..] == NatToString(-n);
    } else {
      NatRoundTrip(n);
    }
  }

  // ---------------------------------------------------------------------
  // String order (Go compares strings byte by byte in UTF-8; for Unicode
  // scalar values that is the same as comparing code points one by one)

  /** `a < b` as Go compares strings. */
  predicate Below(a: string, b: string)
    decreases |a|
  {
    if |a| == 0 then |b| > 0
    else if |b| == 0 then false
    else if a[0] != b[0] then a[0] < b[0]
    else Below(a[1..], b[1..])
  }

  lemma {:induction false} BelowIrreflexive(a: string)
    ensures !Below(a, a)
    decreases |a|
  {
    if |a| > 0 {
      BelowIrreflexive(a[1..]);
    }
  }

  lemma {:induction false} BelowAsymmetric(a: string, b: string)
    requires Below(a, b)
    ensures !Below(b, a)
    decreases |a|
  {
    if |a| > 0 && a[0] == b[0] {
      BelowAsymmetric(a[1..], b[1..]);
    }
  }

  lemma {:induction false} BelowTransitive(a: string, b: string, c: string)
    requires Below(a, b) && Below(b, c)
    ensures Below(a, c)
    decreases |a|
  {
    if |a| > 0 && a[0] == b[0] && b[0] == c[0] {
      BelowTransitive(a[1..], b[1..], c[1..]);
    }
  }

  lemma {:induction false} BelowTotal(a: string, b: string)
    requires a != b
    ensures Below(a, b) || Below(b, a)
    decreases |a|
  {
    if |a| > 0 && |b| > 0 && a[0] == b[0] {
      assert a == [a[0]] + a[1..] && b == [b[0]] + b[1..];
      BelowTotal(a[1..], b[1..]);
    }
  }

  predicate StrictlySorted(s: seq<string>)
  {
    forall i, j | 0 <= i < j < |s| :: Below(s[i], s[j])
  }

  predicate IsLeast(m: string, names: set<string>)
  {
    m in names && forall y | y in names && y != m :: Below(m, y)
  }

  lemma {:induction false} LeastExists(names: set<string>)
    requires names != {}
    ensures exists m :: IsLeast(m, names)
    decreases names
  {
    var x :| x in names;
    if names == {x} {
      assert IsLeast(x, names);
    } else {
      var rest := names - {x};
      LeastExists(rest);
      var m :| IsLeast(m, rest);
      if Below(x, m) {
        forall y | y in names && y != x
          ensures Below(x, y)
        {
          if y != m {
            BelowTransitive(x, m, y);
          }
        }
        assert IsLeast(x, names);
      } else {
        BelowTotal(x, m);
        assert IsLeast(m, names);
      }
    }
  }

  lemma LeastUnique(m1: string, m2: string, names: set<string>)
    requires IsLeast(m1, names) && IsLeast(m2, names)
    ensures m1 == m2
  {
    if m1 != m2 {
      BelowAsymmetric(m1, m2);
    }
  }

  /** The least name of a non-empty set. */
  function Least(names: set<string>): (m: string)
    requires names != {}
    ensures IsLeast(m, names)
  {
    LeastExists(names);
    forall m1, m2 | IsLeast(m1, names) && IsLeast(m2, names)
      ensures m1 == m2
    {
      LeastUnique(m1, m2, names);
    }
    var m :| IsLeast(m, names);
    m
  }

  /** The names of a set in ascending order, each once: the order in which a
      sorted key list enumerates a map. */
  function SortedNames(names: set<string>): (r: seq<string>)
    ensures StrictlySorted(r)
    ensures |r| == |names|
    ensures forall x :: x in r <==> x in names
    decreases names
  {
    if names == {} then []
    else
      var m := Least(names);
      [m] + SortedNames(names - {m})
  }

  /** Two ascending lists of the same names are the same list. */
  lemma {:induction false} SortedUnique(a: seq<string>, b: seq<string>)
    requires StrictlySorted(a) && StrictlySorted(b) && |a| == |b|
    requires forall x :: x in a <==> x in b
    ensures a == b
    decreases |a|
  {
    if |a| > 0 {
      assert a[0] in a;
      assert |b| > 0;
      if a[0] != b[0] {
        assert a[0] in b;
        assert b[0] in a;
        var k :| 0 <= k < |b| && b[k] == a[0];
        var j :| 0 <= j < |a| && a[j] == b[0];
        assert k > 0 && j > 0;
        BelowAsymmetric(b[0], a[0]);
        assert false;
      }
      forall x
        ensures x in a[1..] <==> x in b[1..]
      {
        if x in a[1..] {
          var i :| 1 <= i < |a| && a[i] == x;
          BelowIrreflexive(a[0]);
          assert x != a[0];
          assert x in b;
        }
        if x in b[1..] {
          var i :| 1 <= i < |b| && b[i] == x;
          BelowIrreflexive(b[0]);
          assert x != b[0];
          assert x in a;
        }
      }
      SortedUnique(a[1..], b[1..]);
      assert a == [a[0]] + a[1..] && b == [b[0]] + b[1..];
    }
  }

  /** The sorted names of a union, when every name of `lo` is below every name
      of `hi`, are those of `lo` followed by those of `hi`. */
  lemma SortedNamesSplit(lo: set<string>, hi: set<string>)
    requires forall x, y | x in lo && y in hi :: Below(x, y)
    ensures SortedNames(lo + hi) == SortedNames(lo) + SortedNames(hi)
  {
    var a, b := SortedNames(lo), SortedNames(hi);
    assert lo * hi == {} by {
      forall x | x in lo && x in hi
        ensures false
      {
        BelowIrreflexive(x);
      }
    }
    assert |lo + hi| == |lo| + |hi|;
    forall i, j | 0 <= i < j < |a + b|
      ensures Below((a + b)[i], (a + b)[j])
    {
      if j < |a| || i >= |a| {
      } else {
        assert (a + b)[i] in lo && (a + b)[j] in hi;
      }
    }
    SortedUnique(SortedNames(lo + hi), a + b);
  }

  // ---------------------------------------------------------------------
  // Sorting a list of distinct names (what `sort.Strings` does to map keys)

  predicate Distinct(s: seq<string>)
  {
    forall i, j | 0 <= i < j < |s| :: s[i] != s[j]
  }

  /** Inserts `x` at its place in an ascending list. */
  function Insert(x: string, s: seq<string>): (r: seq<string>)
    requires StrictlySorted(s) && x !in s
    ensures StrictlySorted(r)
    ensures |r| == |s| + 1
    ensures forall y :: y in r <==> y == x || y in s
  {
    if |s| == 0 then [x]
    else if Below(x, s[0]) then
      forall j | 0 < j < |s|
        ensures Below(x, s[j])
      {
        BelowTransitive(x, s[0], s[j]);
      }
      [x] + s
    else
      BelowTotal(x, s[0]);
      var t := Insert(x, s[1..]);
      assert s[0] !in s[1..] by {
        forall j | 1 <= j < |s|
          ensures s[j] != s[0]
        {
          BelowIrreflexive(s[0]);
        }
      }
      forall j | 0 <= j < |t|
        ensures Below(s[0], t[j])
      {
        assert t[j] in t;
      }
      [s[0]] + t
  }

  /** Insertion sort of distinct names into ascending order. */
  function SortDistinct(s: seq<string>): (r: seq<string>)
    requires Distinct(s)
    ensures StrictlySorted(r)
    ensures |r| == |s|
    ensures forall y :: y in r <==> y in s
  {
    if |s| == 0 then []
    else
      assert s[0] !in s[1..];
      Insert(s[0], SortDistinct(s[1..]))
  }
}

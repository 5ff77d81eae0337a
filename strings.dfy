/**
 * The two string facilities the builders rely on: Swift's `<` on `String`
 * (used by `keys.sorted()`), taken as lexicographic order on characters, and
 * the decimal rendering of an `Int` in string interpolation.
 */
module Strings {

  // ---------------------------------------------------------------------------
  // Lexicographic order.
  // ---------------------------------------------------------------------------

  /** Strict lexicographic order on character codes; a proper prefix comes first. */
  predicate Less(a: string, b: string)
    decreases |a|
  {
    if a == [] then b != []
    else if b == [] then false
    else if a[0] == b[0] then Less(a[1..], b[1..])
    else a[0] < b[0]
  }

  lemma {:induction false} LessIrreflexive(a: string)
    ensures !Less(a, a)
    decreases |a|
  {
    if a != [] {
      LessIrreflexive(a[1..]);
    }
  }

  lemma {:induction false} LessTransitive(a: string, b: string, c: string)
    requires Less(a, b) && Less(b, c)
    ensures Less(a, c)
    decreases |a|
  {
    if a != [] && b != [] && c != [] && a[0] == b[0] && b[0] == c[0] {
      LessTransitive(a[1..], b[1..], c[1..]);
    }
  }

  /** Any two different strings are ordered one way or the other. */
  lemma {:induction false} LessTotal(a: string, b: string)
    requires a != b
    ensures Less(a, b) || Less(b, a)
    decreases |a|
  {
    if a != [] && b != [] && a[0] == b[0] {
      assert a == [a[0]] + a[1..] && b == [b[0]] + b[1..];
      LessTotal(a[1..], b[1..]);
    }
  }

  lemma LessAsymmetric(a: string, b: string)
    requires Less(a, b)
    ensures !Less(b, a)
  {
    if Less(b, a) {
      LessTransitive(a, b, a);
      LessIrreflexive(a);
    }
  }

  /** `k` is the least element of `s`. */
  predicate IsLeast(k: string, s: set<string>) {
    k in s && forall y :: y in s && y != k ==> Less(k, y)
  }

  /** Every finite non-empty set of strings has a least element. */
  lemma {:induction false} LeastExists(s: set<string>)
    requires s != {}
    ensures exists k :: IsLeast(k, s)
    decreases |s|
  {
    var x :| x in s;
    var rest := s - {x};
    if rest == {} {
      assert s == {x};
      assert IsLeast(x, s);
    } else {
      LeastExists(rest);
      var m :| IsLeast(m, rest);
      if Less(x, m) {
        forall y | y in s && y != x
          ensures Less(x, y)
        {
          if y != m {
            LessTransitive(x, m, y);
          }
        }
        assert IsLeast(x, s);
      } else {
        LessTotal(x, m);
        assert IsLeast(m, s);
      }
    }
  }

  lemma LeastUnique(k: string, k': string, s: set<string>)
    requires IsLeast(k, s) && IsLeast(k', s)
    ensures k == k'
  {
    if k != k' {
      LessAsymmetric(k, k');
    }
  }

  ghost function Least(s: set<string>): (k: string)
    requires s != {}
    ensures IsLeast(k, s)
  {
    LeastExists(s);
    var k :| IsLeast(k, s); k
  }

  /** `s.sorted()`: the elements of `s` in ascending order. */
  ghost function SortedKeys(s: set<string>): (r: seq<string>)
    decreases |s|
  {
    if s == {} then []
    else
      var k := Least(s);
      [k] + SortedKeys(s - {k})
  }

  /** Each element is less than every later one. */
  ghost predicate StrictlyAscending(r: seq<string>) {
    forall i, j :: 0 <= i < j < |r| ==> Less(r[i], r[j])
  }

  /** `sorted()` lists every element of the set exactly once, in ascending order. */
  lemma {:induction false} SortedKeysSpec(s: set<string>)
    ensures |SortedKeys(s)| == |s|
    ensures forall x :: x in SortedKeys(s) <==> x in s
    ensures StrictlyAscending(SortedKeys(s))
    decreases |s|
  {
    if s != {} {
      var k := Least(s);
      var rest := SortedKeys(s - {k});
      SortedKeysSpec(s - {k});
      var r := [k] + rest;
      assert SortedKeys(s) == r;
      forall i, j | 0 <= i < j < |r|
        ensures Less(r[i], r[j])
      {
        if i == 0 {
          assert r[j] in s - {k};
        } else {
          assert r[i] == rest[i - 1] && r[j] == rest[j - 1];
        }
      }
    }
  }

  /** Every position of the sorted list holds an element of the set. */
  lemma SortedKeysMembers(s: set<string>)
    ensures forall i :: 0 <= i < |SortedKeys(s)| ==> SortedKeys(s)[i] in s
  {
    SortedKeysSpec(s);
  }

  /** Taking the least remaining key first is how the sorted listing starts. */
  lemma SortedKeysUnfold(k: string, s: set<string>)
    requires IsLeast(k, s)
    ensures SortedKeys(s) == [k] + SortedKeys(s - {k})
  {
    LeastUnique(k, Least(s), s);
  }

  // ---------------------------------------------------------------------------
  // Decimal rendering of a natural number.
  // ---------------------------------------------------------------------------

  function Digit(d: nat): (c: char)
    requires d < 10
  {
    "0123456789"[d]
  }

  /** `"\(n)"` for a non-negative `Int`. */
  function NatToString(n: nat): (r: string)
    ensures |r| >= 1
    ensures (|r| == 1) <==> n < 10
    decreases n
  {
    if n < 10 then [Digit(n)] else NatToString(n / 10) + [Digit(n % 10)]
  }

  lemma DigitInjective(a: nat, b: nat)
    requires a < 10 && b < 10 && Digit(a) == Digit(b)
    ensures a == b
  {
  }

  /** Different numbers render differently, so `"<key>-<idx>"` never collides. */
  lemma {:induction false} NatToStringInjective(a: nat, b: nat)
    requires NatToString(a) == NatToString(b)
    ensures a == b
    decreases a
  {
    var ra, rb := NatToString(a), NatToString(b);
    if a < 10 || b < 10 {
      assert a < 10 && b < 10;
      DigitInjective(a, b);
    } else {
      var n := |ra| - 1;
      assert ra[..n] == NatToString(a / 10) && rb[..n] == NatToString(b / 10);
      assert ra[n] == Digit(a % 10) && rb[n] == Digit(b % 10);
      NatToStringInjective(a / 10, b / 10);
      DigitInjective(a % 10, b % 10);
    }
  }
}

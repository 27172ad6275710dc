/**
 * String order and sorted keys, as JavaScript's default sort has them: by UTF-16
 * code unit, a total order in which every set of strings has a least member, so
 * that its members have exactly one ascending listing.  Also the decimal text of
 * a natural number, which different numbers never share.
 */
module Text {
  import opened Prelude

  /**
   * A character's place in UTF-16 code unit order: characters beyond the basic
   * plane start with a surrogate, so they come before U+E000.
   */
  function Rank(c: char): int {
    var n := c as int;
    if n < 0xE000 then n else if n >= 0x1_0000 then n - 0x2000 else n + 0x10_0000
  }

  predicate AtMost(a: string, b: string) {
    a == "" || (b != "" && (Rank(a[0]) < Rank(b[0]) || (a[0] == b[0] && AtMost(a[1..], b[1..]))))
  }

  lemma {:induction false} AtMostAntisymmetric(a: string, b: string)
    requires AtMost(a, b) && AtMost(b, a)
    ensures a == b
  {
    if a != "" && b != "" {
      AtMostAntisymmetric(a[1..], b[1..]);
    }
  }

  lemma {:induction false} AtMostTotal(a: string, b: string)
    ensures AtMost(a, b) || AtMost(b, a)
  {
    if a != "" && b != "" && a[0] == b[0] {
      AtMostTotal(a[1..], b[1..]);
    }
  }

  lemma {:induction false} AtMostTransitive(a: string, b: string, c: string)
    requires AtMost(a, b) && AtMost(b, c)
    ensures AtMost(a, c)
  {
    if a != "" && a[0] == b[0] && b[0] == c[0] {
      AtMostTransitive(a[1..], b[1..], c[1..]);
    }
  }

  ghost predicate IsLeast(s: set<string>, k: string) {
    k in s && forall k' :: k' in s ==> AtMost(k, k')
  }

  lemma {:induction false} LeastExists(s: set<string>)
    requires s != {}
    ensures exists k :: IsLeast(s, k)
  {
    var x :| x in s;
    AtMostTotal(x, x);
    if s == {x} {
      assert IsLeast(s, x);
    } else {
      LeastExists(s - {x});
      var y :| IsLeast(s - {x}, y);
      AtMostTotal(x, y);
      if AtMost(x, y) {
        forall k | k in s ensures AtMost(x, k) {
          if k != x {
            AtMostTransitive(x, y, k);
          }
        }
        assert IsLeast(s, x);
      } else {
        assert IsLeast(s, y);
      }
    }
  }

  lemma {:induction false} LeastUnique(s: set<string>, a: string, b: string)
    requires IsLeast(s, a) && IsLeast(s, b)
    ensures a == b
  {
    AtMostAntisymmetric(a, b);
  }

  /** The members of a set in ascending order. */
  ghost function SortedKeys(s: set<string>): seq<string> {
    if s == {} then [] else [Least(s)] + SortedKeys(s - {Least(s)})
  }

  ghost function Least(s: set<string>): (k: string)
    requires s != {}
    ensures IsLeast(s, k)
  {
    LeastExists(s);
    var k :| IsLeast(s, k);
    k
  }

  lemma {:induction false} SortedStep(s: set<string>, k: string)
    requires IsLeast(s, k)
    ensures SortedKeys(s) == [k] + SortedKeys(s - {k})
  {
    LeastUnique(s, Least(s), k);
  }

  lemma {:induction false} SortedMember(s: set<string>, k: string)
    ensures k in SortedKeys(s) <==> k in s
  {
    if s != {} {
      SortedMember(s - {Least(s)}, k);
    }
  }

  /** The sorted keys are the members of the set, each once, in ascending order. */
  lemma {:induction false} SortedIsSorted(s: set<string>)
    ensures NoDup(SortedKeys(s)) && Elements(SortedKeys(s)) == s
    ensures forall i, j :: 0 <= i < j < |SortedKeys(s)| ==> AtMost(SortedKeys(s)[i], SortedKeys(s)[j])
  {
    if s != {} {
      var k, rest := Least(s), SortedKeys(s - {Least(s)});
      SortedIsSorted(s - {k});
      assert forall i :: 0 <= i < |rest| ==> rest[i] in Elements(rest);
      assert Elements([k] + rest) == {k} + Elements(rest);
    }
  }

  /** The default sort of a list of distinct keys. */
  method Sort(s: set<string>) returns (r: seq<string>)
    ensures r == SortedKeys(s)
  {
    r := [];
    var rest := s;
    while rest != {}
      invariant r + SortedKeys(rest) == SortedKeys(s)
      decreases rest
    {
      ghost var least := Least(rest);
      var k :| k in rest && forall k' :: k' in rest ==> AtMost(k, k');
      SortedStep(rest, k);
      assert r + ([k] + SortedKeys(rest - {k})) == r + [k] + SortedKeys(rest - {k});
      r, rest := r + [k], rest - {k};
    }
  }

  // ----- decimal text -----------------------------------------------------

  function Decimal(n: nat): string {
    (if n < 10 then "" else Decimal(n / 10)) + ["0123456789"[n % 10]]
  }

  lemma {:induction false} DecimalUnique(m: nat, n: nat)
    requires Decimal(m) == Decimal(n)
    ensures m == n
  {
    var s, t := Decimal(m), Decimal(n);
    assert s[|s| - 1] == "0123456789"[m % 10] && t[|t| - 1] == "0123456789"[n % 10];
    assert forall i, j :: 0 <= i < j < 10 ==> "0123456789"[i] != "0123456789"[j];
    assert m % 10 == n % 10;
    assert s[..|s| - 1] == t[..|t| - 1];
    assert s[..|s| - 1] == if m < 10 then "" else Decimal(m / 10);
    assert t[..|t| - 1] == if n < 10 then "" else Decimal(n / 10);
    if m >= 10 && n >= 10 {
      DecimalUnique(m / 10, n / 10);
    }
  }
}

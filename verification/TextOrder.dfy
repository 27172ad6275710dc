/** The text orders of the program and of its database are those of UTF-16 code units and UTF-8 bytes. */
module TextOrder {
  import opened Text
  import opened SqliteStore

  /** The first difference is in favour of `u`. */
  ghost predicate Before(u: seq<int>, v: seq<int>) {
    exists k: nat :: DiffersAt(u, v, k)
  }

  predicate DiffersAt(u: seq<int>, v: seq<int>, k: nat) {
    k < |u| && k < |v| && u[..k] == v[..k] && u[k] < v[k]
  }

  /** Lexicographic order. */
  ghost predicate LexAtMost(u: seq<int>, v: seq<int>) {
    u <= v || Before(u, v)
  }

  lemma {:induction false} SameHead(p: seq<int>, u: seq<int>, v: seq<int>)
    ensures LexAtMost(p + u, p + v) <==> LexAtMost(u, v)
  {
    var pu, pv := p + u, p + v;
    if Before(u, v) {
      var k: nat :| DiffersAt(u, v, k);
      assert pu[..|p| + k] == p + u[..k] && pv[..|p| + k] == p + v[..k];
      assert DiffersAt(pu, pv, |p| + k);
    }
    if Before(pu, pv) {
      var k: nat :| DiffersAt(pu, pv, k);
      assert k >= |p|;
      assert u[..k - |p|] == pu[..k][|p|..] && v[..k - |p|] == pv[..k][|p|..];
      assert DiffersAt(u, v, k - |p|);
    }
    if pu <= pv {
      assert u == pv[..|pu|][|p|..];
    }
  }

  lemma {:induction false} HeadsDecide(p: seq<int>, q: seq<int>, u: seq<int>, v: seq<int>)
    requires Before(p, q)
    ensures LexAtMost(p + u, q + v) && !LexAtMost(q + v, p + u)
  {
    var pu, qv := p + u, q + v;
    var k: nat :| DiffersAt(p, q, k);
    assert pu[..k] == p[..k] && qv[..k] == q[..k];
    assert DiffersAt(pu, qv, k);
    forall i | 0 <= i < k ensures pu[i] == qv[i] {
      assert pu[..k][i] == qv[..k][i];
    }
    forall m: nat ensures !DiffersAt(qv, pu, m) {
      assert k < m <= |pu| && m <= |qv| ==> pu[..m][k] == pu[k] && qv[..m][k] == qv[k];
    }
  }

  // ----- UTF-16 -----------------------------------------------------------

  /** A character's code units: itself, or a surrogate pair. */
  function Units(c: char): (us: seq<int>)
    ensures us != []
  {
    var n := c as int;
    if n < 0x1_0000 then [n] else [0xD800 + (n - 0x1_0000) / 0x400, 0xDC00 + (n - 0x1_0000) % 0x400]
  }

  function Utf16(s: string): seq<int> {
    if s == "" then [] else Units(s[0]) + Utf16(s[1..])
  }

  lemma {:induction false} UnitsOrdered(c: char, d: char)
    requires Rank(c) < Rank(d)
    ensures Before(Units(c), Units(d))
  {
    var k := if (c as int) >= 0x1_0000 && (d as int) >= 0x1_0000 && Units(c)[0] == Units(d)[0] then 1 else 0;
    assert DiffersAt(Units(c), Units(d), k);
  }

  /** The program compares keys as JavaScript compares strings: by code unit. */
  lemma {:induction false} KeysCompareByCodeUnit(a: string, b: string)
    ensures AtMost(a, b) <==> LexAtMost(Utf16(a), Utf16(b))
  {
    if a != "" && b != "" {
      var u, v := Utf16(a[1..]), Utf16(b[1..]);
      if a[0] == b[0] {
        KeysCompareByCodeUnit(a[1..], b[1..]);
        SameHead(Units(a[0]), u, v);
      } else if Rank(a[0]) < Rank(b[0]) {
        UnitsOrdered(a[0], b[0]);
        HeadsDecide(Units(a[0]), Units(b[0]), u, v);
      } else {
        UnitsOrdered(b[0], a[0]);
        HeadsDecide(Units(b[0]), Units(a[0]), v, u);
      }
    }
  }

  // ----- UTF-8 ------------------------------------------------------------

  /** A character's bytes, section 3 of RFC 3629. */
  function Bytes(c: char): (bs: seq<int>)
    ensures bs != []
  {
    var n := c as int;
    if n < 0x80 then [n]
    else if n < 0x800 then [0xC0 + n / 0x40, 0x80 + n % 0x40]
    else if n < 0x1_0000 then [0xE0 + n / 0x40 / 0x40, 0x80 + n / 0x40 % 0x40, 0x80 + n % 0x40]
    else [0xF0 + n / 0x40 / 0x40 / 0x40, 0x80 + n / 0x40 / 0x40 % 0x40, 0x80 + n / 0x40 % 0x40, 0x80 + n % 0x40]
  }

  function Utf8(s: string): seq<int> {
    if s == "" then [] else Bytes(s[0]) + Utf8(s[1..])
  }

  lemma {:induction false} SixBits(m: nat, n: nat)
    requires m < n
    ensures m / 0x40 < n / 0x40 || (m / 0x40 == n / 0x40 && m % 0x40 < n % 0x40)
  {
  }

  lemma {:induction false} FirstByte(c: char)
    ensures var n, b := c as int, Bytes(c)[0];
      && (n < 0x80 <==> b < 0x80) && (0x80 <= n < 0x800 <==> 0xC0 <= b < 0xE0)
      && (0x800 <= n < 0x1_0000 <==> 0xE0 <= b < 0xF0) && (0x1_0000 <= n <==> 0xF0 <= b)
  {
  }

  lemma {:induction false} BytesOrdered(c: char, d: char)
    requires c < d
    ensures Before(Bytes(c), Bytes(d))
  {
    var p, q, m, n := Bytes(c), Bytes(d), c as int, d as int;
    FirstByte(c);
    FirstByte(d);
    if p[0] < q[0] {
      assert DiffersAt(p, q, 0);
    } else {
      SixBits(m, n);
      if m / 0x40 != n / 0x40 {
        SixBits(m / 0x40, n / 0x40);
        if m / 0x40 / 0x40 != n / 0x40 / 0x40 {
          SixBits(m / 0x40 / 0x40, n / 0x40 / 0x40);
        }
      }
      SameLengthOrdered(p, q);
    }
  }

  /** Byte strings of one length compare at the first byte in which they differ. */
  lemma {:induction false} SameLengthOrdered(p: seq<int>, q: seq<int>)
    requires 1 <= |p| == |q| <= 4 && p[0] <= q[0]
    requires p[0] == q[0] ==> |p| > 1 && p[1] <= q[1]
    requires p[0] == q[0] && p[1] == q[1] ==> |p| > 2 && p[2] <= q[2]
    requires p[0] == q[0] && p[1] == q[1] && p[2] == q[2] ==> |p| > 3 && p[3] < q[3]
    ensures Before(p, q)
  {
    var k := if p[0] < q[0] then 0 else if p[1] < q[1] then 1 else if p[2] < q[2] then 2 else 3;
    assert DiffersAt(p, q, k);
  }

  /** The database compares times by their UTF-8 bytes. */
  lemma {:induction false} TimesCompareByByte(a: string, b: string)
    ensures NotAfter(a, b) <==> LexAtMost(Utf8(a), Utf8(b))
  {
    if a != "" && b != "" {
      var u, v := Utf8(a[1..]), Utf8(b[1..]);
      if a[0] == b[0] {
        TimesCompareByByte(a[1..], b[1..]);
        SameHead(Bytes(a[0]), u, v);
      } else if a[0] < b[0] {
        BytesOrdered(a[0], b[0]);
        HeadsDecide(Bytes(a[0]), Bytes(b[0]), u, v);
      } else {
        BytesOrdered(b[0], a[0]);
        HeadsDecide(Bytes(b[0]), Bytes(a[0]), v, u);
      }
    }
  }
}

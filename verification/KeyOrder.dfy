/** The order in which canonical text prints the keys of an object. */
module KeyOrder {
  import opened Prelude
  import opened Text
  import opened CanonicalJson

  function Keys(members: seq<Member>): (keys: seq<string>)
    ensures |keys| == |members|
  {
    seq(|members|, i requires 0 <= i < |members| => members[i].key)
  }

  predicate AllIndices(keys: seq<string>) {
    forall i :: 0 <= i < |keys| ==> IsIndex(keys[i])
  }

  predicate NoIndices(keys: seq<string>) {
    forall i :: 0 <= i < |keys| ==> !IsIndex(keys[i])
  }

  predicate ByValue(keys: seq<string>) {
    forall i, j :: 0 <= i < j < |keys| ==> DecimalValue(keys[i]) < DecimalValue(keys[j])
  }

  predicate Ascending(keys: seq<string>) {
    forall i, j :: 0 <= i < j < |keys| ==> AtMost(keys[i], keys[j]) && keys[i] != keys[j]
  }

  /** Index keys by value, then the other keys in ascending order. */
  ghost predicate IndicesFirst(indices: seq<string>, others: seq<string>) {
    AllIndices(indices) && ByValue(indices) && NoIndices(others) && Ascending(others)
  }

  // ----- decimal values ---------------------------------------------------

  lemma {:induction false} ValueBelow(k: string)
    requires forall i :: 0 <= i < |k| ==> Digit(k[i])
    ensures k != "" && k[0] != '0' ==> DecimalValue(k) > 0
  {
    if k != "" && k[0] != '0' {
      var front := k[..|k| - 1];
      if front != "" {
        ValueBelow(front);
      }
    }
  }

  /** Different index keys have different values. */
  lemma {:induction false} IndexByValue(a: string, b: string)
    requires IsIndex(a) && IsIndex(b) && DecimalValue(a) == DecimalValue(b)
    ensures a == b
  {
    SameDigits(a, b);
  }

  predicate Canonical(k: string) {
    k != "" && (forall i :: 0 <= i < |k| ==> Digit(k[i])) && (k[0] == '0' ==> k == "0")
  }

  lemma {:induction false} SameDigits(a: string, b: string)
    requires Canonical(a) && Canonical(b) && DecimalValue(a) == DecimalValue(b)
    ensures a == b
    decreases |a|
  {
    var u, v := a[..|a| - 1], b[..|b| - 1];
    assert a == u + [a[|a| - 1]] && b == v + [b[|b| - 1]];
    assert forall i :: 0 <= i < |u| ==> u[i] == a[i];
    assert forall i :: 0 <= i < |v| ==> v[i] == b[i];
    LastDigit(a);
    LastDigit(b);
    assert DecimalValue(u) == DecimalValue(v) && a[|a| - 1] == b[|b| - 1];
    if u != "" && v != "" {
      assert u[0] == a[0] && v[0] == b[0];
      SameDigits(u, v);
    } else if u != "" {
      assert u[0] == a[0];
      ValueBelow(u);
    } else if v != "" {
      assert v[0] == b[0];
      ValueBelow(v);
    }
  }

  lemma {:induction false} LastDigit(k: string)
    requires Canonical(k)
    ensures DecimalValue(k) / 10 == DecimalValue(k[..|k| - 1]) && DecimalValue(k) % 10 == k[|k| - 1] as int - '0' as int
  {
    assert Digit(k[|k| - 1]);
  }

  lemma {:induction false} DigitOf(i: nat)
    requires i < 10
    ensures var c := "0123456789"[i]; Digit(c) && c as int - '0' as int == i
  {
  }

  lemma {:induction false} OneDigitMore(k: string, d: char)
    requires Digit(d) && (k == "" || (Canonical(k) && k[0] != '0'))
    ensures Canonical(k + [d]) && DecimalValue(k + [d]) == 10 * DecimalValue(k) + (d as int - '0' as int)
    ensures k != "" ==> (k + [d])[0] != '0'
  {
    assert (k + [d])[..|k|] == k;
  }

  lemma {:induction false} DecimalIsCanonical(n: nat)
    ensures Canonical(Decimal(n)) && DecimalValue(Decimal(n)) == n && (n > 0 ==> Decimal(n)[0] != '0')
  {
    DigitOf(n % 10);
    var front := if n < 10 then "" else Decimal(n / 10);
    if n >= 10 {
      DecimalIsCanonical(n / 10);
    }
    OneDigitMore(front, "0123456789"[n % 10]);
  }

  /** Index keys are the decimals of the numbers below 2^32 - 1. */
  lemma {:induction false} IndexKeysAreDecimals(k: string)
    ensures IsIndex(k) <==> exists n: nat :: n < 0xFFFF_FFFF && k == Decimal(n)
  {
    if IsIndex(k) {
      DecimalIsCanonical(DecimalValue(k));
      SameDigits(k, Decimal(DecimalValue(k)));
    }
    if n: nat :| n < 0xFFFF_FFFF && k == Decimal(n) {
      DecimalIsCanonical(n);
    }
  }

  // ----- one assignment ---------------------------------------------------

  lemma {:induction false} KeysConcat(a: seq<Member>, b: seq<Member>)
    ensures Keys(a + b) == Keys(a) + Keys(b)
  {
  }

  /** What inserting an index key does to the keys. */
  function InsertKey(keys: seq<string>, k: string): seq<string> {
    if keys == [] then [k]
    else if IsIndex(keys[0]) && DecimalValue(keys[0]) < DecimalValue(k) then [keys[0]] + InsertKey(keys[1..], k)
    else [k] + keys
  }

  lemma {:induction false} KeysInserted(members: seq<Member>, m: Member)
    ensures Keys(InsertIndex(members, m)) == InsertKey(Keys(members), m.key)
  {
    if members == [] {
      assert Keys([m]) == [m.key];
    } else {
      var first, rest := members[0], members[1..];
      assert Keys(rest) == Keys(members)[1..];
      KeysInserted(rest, m);
      KeysConcat([first], InsertIndex(rest, m));
      KeysConcat([m], members);
      assert Keys([first]) == [first.key] && Keys([m]) == [m.key];
    }
  }

  /** An index key goes among the index keys, before all others. */
  lemma {:induction false} InsertKeyBefore(indices: seq<string>, others: seq<string>, k: string)
    requires AllIndices(indices) && NoIndices(others)
    ensures InsertKey(indices + others, k) == InsertKey(indices, k) + others
  {
    var keys := indices + others;
    if indices == [] {
      assert keys == others;
    } else {
      assert keys[0] == indices[0] && keys[1..] == indices[1..] + others;
      InsertKeyBefore(indices[1..], others, k);
    }
  }

  /** It goes there by value. */
  lemma {:induction false} InsertKeyByValue(indices: seq<string>, k: string)
    requires AllIndices(indices) && ByValue(indices) && IsIndex(k) && k !in indices
    ensures var indices' := InsertKey(indices, k);
      AllIndices(indices') && ByValue(indices') && Elements(indices') == Elements(indices) + {k}
  {
    if indices != [] {
      var first, rest := indices[0], indices[1..];
      assert indices == [first] + rest;
      if DecimalValue(first) < DecimalValue(k) {
        assert forall i :: 0 <= i < |rest| ==> rest[i] == indices[i + 1];
        InsertKeyByValue(rest, k);
        FirstBelow(first, rest, k);
      } else if DecimalValue(first) == DecimalValue(k) {
        IndexByValue(first, k);
      }
    }
  }

  lemma {:induction false} FirstBelow(first: string, rest: seq<string>, k: string)
    requires IsIndex(first) && (forall i :: 0 <= i < |rest| ==> DecimalValue(first) < DecimalValue(rest[i])) &&
      DecimalValue(first) < DecimalValue(k)
    requires var tail := InsertKey(rest, k); AllIndices(tail) && ByValue(tail) && Elements(tail) == Elements(rest) + {k}
    ensures var indices' := [first] + InsertKey(rest, k);
      AllIndices(indices') && ByValue(indices') && Elements(indices') == Elements([first] + rest) + {k}
  {
    var tail := InsertKey(rest, k);
    forall j | 0 <= j < |tail| ensures DecimalValue(first) < DecimalValue(tail[j]) {
      assert tail[j] in Elements(tail);
    }
    assert Elements([first] + tail) == {first} + Elements(tail);
    assert Elements([first] + rest) == {first} + Elements(rest);
  }

  // ----- all assignments --------------------------------------------------

  /** The keys of `members` are the index keys in `indices`, by value, and then `others`, ascending. */
  ghost predicate KeysAre(members: seq<Member>, indices: seq<string>, others: seq<string>) {
    Keys(members) == indices + others && IndicesFirst(indices, others)
  }

  ghost predicate AllAtMost(keys: seq<string>, k: string) {
    forall i :: 0 <= i < |keys| ==> AtMost(keys[i], k)
  }

  /** Assigning a fresh key that sorts after the other keys keeps the order. */
  lemma {:induction false} PutOrdered(out: seq<Member>, m: Member, indices: seq<string>, others: seq<string>)
    returns (indices': seq<string>, others': seq<string>)
    requires KeysAre(out, indices, others) && m.key !in Keys(out) && AllAtMost(others, m.key)
    ensures KeysAre(Put(out, m), indices', others')
    ensures Elements(indices') + Elements(others') == Elements(indices) + Elements(others) + ({m.key} - {PROTO})
    ensures others' == others || others' == others + [m.key]
  {
    indices', others' := indices, others;
    if m.key != PROTO {
      FreshKey(out, m.key);
      if IsIndex(m.key) {
        KeysInserted(out, m);
        assert forall x :: x in indices ==> x in Keys(out);
        InsertKeyBefore(indices, others, m.key);
        InsertKeyByValue(indices, m.key);
        indices' := InsertKey(indices, m.key);
      } else {
        KeysConcat(out, [m]);
        assert Keys([m]) == [m.key];
        others' := others + [m.key];
        assert Keys(out + [m]) == indices + others';
      }
    }
  }

  lemma {:induction false} FreshKey(out: seq<Member>, k: string)
    ensures HasKey(out, k) <==> k in Keys(out)
  {
    if HasKey(out, k) {
      var i :| 0 <= i < |out| && out[i].key == k;
      assert Keys(out)[i] == k;
    }
  }

  /** Assigning fresh keys in ascending order keeps the index keys first by value and the others ascending. */
  lemma {:induction false} BuildOrdered(keys: seq<string>, children: map<string, Tree>, out: seq<Member>,
                                        indices: seq<string>, others: seq<string>)
    returns (indices': seq<string>, others': seq<string>)
    requires forall k :: k in keys ==> k in children && k !in Keys(out)
    requires Ascending(keys) && forall k :: k in keys ==> AllAtMost(others, k)
    requires KeysAre(out, indices, others) && PROTO !in Elements(indices) + Elements(others)
    ensures KeysAre(Build(keys, children, out), indices', others')
    ensures Elements(indices') + Elements(others') == Elements(indices) + Elements(others) + Elements(keys) - {PROTO}
    decreases |keys|
  {
    indices', others' := indices, others;
    if keys != [] {
      var k, rest := keys[0], keys[1..];
      assert k in keys && keys == [k] + rest;
      var m := Member(k, children[k]);
      indices', others' := PutOrdered(out, m, indices, others);
      KeysOfLists(out, indices, others);
      KeysOfLists(Put(out, m), indices', others');
      StillFresh(keys, out, Put(out, m), others, others');
      indices', others' := BuildOrdered(rest, children, Put(out, m), indices', others');
      assert Elements(keys) == {k} + Elements(rest);
    }
  }

  /** The keys still to come are fresh after the first is assigned, and sort after the other keys. */
  lemma {:induction false} StillFresh(keys: seq<string>, out: seq<Member>, next: seq<Member>, others: seq<string>,
      others': seq<string>)
    requires keys != [] && Ascending(keys) && forall k :: k in keys ==> k !in Keys(out) && AllAtMost(others, k)
    requires Elements(Keys(next)) <= Elements(Keys(out)) + {keys[0]}
    requires others' == others || others' == others + [keys[0]]
    ensures Ascending(keys[1..]) && forall k :: k in keys[1..] ==> k !in Keys(next) && AllAtMost(others', k)
  {
    var rest := keys[1..];
    assert forall i :: 0 <= i < |rest| ==> rest[i] == keys[i + 1];
    forall k | k in rest ensures k !in Keys(next) && AllAtMost(others', k) {
      var i :| 0 <= i < |rest| && rest[i] == k;
      assert keys[i + 1] == k && k in keys && AtMost(keys[0], k) && keys[0] != k;
      assert k !in Elements(Keys(next));
    }
  }

  lemma {:induction false} KeysOfLists(members: seq<Member>, indices: seq<string>, others: seq<string>)
    requires Keys(members) == indices + others
    ensures Elements(Keys(members)) == Elements(indices) + Elements(others)
    ensures forall x :: x in Keys(members) <==> x in Elements(indices) + Elements(others)
  {
  }

  // ----- the printed order ------------------------------------------------

  /** The keys canonical text keeps of an object, in the order it prints them. */
  ghost function PrintedKeys(members: seq<Member>): seq<string> {
    SortedObject(members);
    Keys(SortKeys(TObj(members)).members)
  }

  /** All keys of an object but `__proto__`. */
  ghost function KeptKeys(members: seq<Member>): set<string> {
    Children(members).Keys - {PROTO}
  }

  /**
   * Canonical text prints the index keys first, by value, then the other keys in ascending order;
   * nothing is lost but `__proto__`.
   */
  lemma {:induction false} PrintedOrder(members: seq<Member>) returns (indices: seq<string>, others: seq<string>)
    ensures PrintedKeys(members) == indices + others && IndicesFirst(indices, others)
    ensures Elements(indices) + Elements(others) == KeptKeys(members)
  {
    SortedByChildren(members);
    var children := SortChildren(members);
    var keys := SortedKeys(children.Keys);
    SortedIsSorted(children.Keys);
    SortedMembers(children.Keys, keys);
    BuildChildren(children.Keys, children, []);
    indices, others := BuildOrdered(keys, children, [], [], []);
  }

  lemma {:induction false} SortedMembers(s: set<string>, keys: seq<string>)
    requires Elements(keys) == s
    ensures forall k :: k in keys <==> k in s
  {
    assert forall k :: k in keys <==> k in Elements(keys);
  }

  /** In the sort's order `x` comes before the index key `y`, and by value it does not. */
  predicate OutOfOrder(x: string, y: string) {
    x != y && IsIndex(y) && AtMost(x, y) && !(IsIndex(x) && DecimalValue(x) < DecimalValue(y))
  }

  /**
   * The keys are printed in sorted order exactly when no key sorts before an index
   * key unless it is itself an index of smaller value.
   */
  lemma {:induction false} PrintedInSortedOrder(members: seq<Member>)
    ensures PrintedKeys(members) == SortedKeys(KeptKeys(members))
       <==> forall x, y :: x in KeptKeys(members) && y in KeptKeys(members) ==> !OutOfOrder(x, y)
  {
    var kept := KeptKeys(members);
    var indices, others := PrintedOrder(members);
    var printed := indices + others;
    assert Elements(printed) == Elements(indices) + Elements(others);
    if printed == SortedKeys(kept) {
      SortedIsSorted(kept);
      forall x, y | x in kept && y in kept ensures !OutOfOrder(x, y) {
        SortedTellsOrder(indices, others, x, y);
      }
    } else if forall x, y :: x in kept && y in kept ==> !OutOfOrder(x, y) {
      OrderedIsAscending(indices, others);
      AscendingIsSorted(printed, kept);
    }
  }

  /** A list of the members of a set in strictly ascending order is its sorted list. */
  lemma {:induction false} AscendingIsSorted(keys: seq<string>, s: set<string>)
    requires Ascending(keys) && Elements(keys) == s
    ensures keys == SortedKeys(s)
    decreases |keys|
  {
    if keys != [] {
      var k, rest := keys[0], keys[1..];
      assert keys == [k] + rest;
      forall x | x in s ensures AtMost(k, x) {
        assert x in keys;
        AtMostTotal(k, k);
      }
      assert k in Elements(keys);
      SortedStep(s, k);
      forall i, j | 0 <= i < j < |rest| ensures AtMost(rest[i], rest[j]) && rest[i] != rest[j] {
        assert rest[i] == keys[i + 1] && rest[j] == keys[j + 1];
      }
      forall x ensures x in Elements(rest) <==> x in s - {k} {
        if x in rest {
          var i :| 0 <= i < |rest| && rest[i] == x;
          assert keys[i + 1] == x;
        }
      }
      AscendingIsSorted(rest, s - {k});
    }
  }

  lemma {:induction false} OrderedIsAscending(indices: seq<string>, others: seq<string>)
    requires IndicesFirst(indices, others)
    requires forall x, y :: x in indices + others && y in indices + others ==> !OutOfOrder(x, y)
    ensures Ascending(indices + others)
  {
    var printed := indices + others;
    forall i, j | 0 <= i < j < |printed| ensures AtMost(printed[i], printed[j]) && printed[i] != printed[j] {
      if i < |indices| {
        assert printed[i] == indices[i] && IsIndex(indices[i]);
        if j < |indices| {
          assert printed[j] == indices[j];
        } else {
          assert printed[j] == others[j - |indices|];
        }
        AtMostTotal(printed[i], printed[j]);
        assert !OutOfOrder(printed[j], printed[i]);
      } else {
        assert printed[i] == others[i - |indices|] && printed[j] == others[j - |indices|];
      }
    }
  }

  lemma {:induction false} SortedTellsOrder(indices: seq<string>, others: seq<string>, x: string, y: string)
    requires IndicesFirst(indices, others) && x in indices + others && y in indices + others
    requires forall i, j :: 0 <= i < j < |indices + others| ==> AtMost((indices + others)[i], (indices + others)[j])
    ensures !OutOfOrder(x, y)
  {
    var printed := indices + others;
    if x != y && IsIndex(y) && AtMost(x, y) {
      var i :| 0 <= i < |printed| && printed[i] == x;
      var j :| 0 <= j < |printed| && printed[j] == y;
      if j < |indices| && i < j {
        assert printed[i] == indices[i] && printed[j] == indices[j];
      } else if j < |indices| {
        AtMostAntisymmetric(x, y);
      }
    }
  }

  /** An object with the keys 9 and 10: the sort puts 10 first, the text 9. */
  lemma {:induction false} NineBeforeTen(x: Tree, y: Tree)
    ensures var members := [Member("10", x), Member("9", y)];
      PrintedKeys(members) == ["9", "10"] && SortedKeys(KeptKeys(members)) == ["10", "9"]
  {
    var members := [Member("10", x), Member("9", y)];
    TwoChildren(members[0], members[1]);
    assert KeptKeys(members) == {"9", "10"};
    NineAndTen();
    AscendingIsSorted(["10", "9"], {"9", "10"});
    var indices, others := PrintedOrder(members);
    OnlyNineAndTen(indices, others);
  }

  lemma {:induction false} TwoChildren(a: Member, b: Member)
    ensures Children([a, b]).Keys == {a.key, b.key}
  {
    ChildrenConcat([a], [b]);
    assert [a] + [b] == [a, b] && [a][..0] == [] && [b][..0] == [];
  }

  lemma {:induction false} NineAndTen()
    ensures IsIndex("9") && IsIndex("10") && DecimalValue("9") == 9 && DecimalValue("10") == 10
    ensures AtMost("10", "9") && "10" != "9"
  {
    assert "9"[..0] == "" && "10"[..1] == "1" && "1"[..0] == "";
    assert DecimalValue("1") == 1;
  }

  lemma {:induction false} NotEmpty(keys: seq<string>)
    requires keys != []
    ensures Elements(keys) != {}
  {
    assert keys[0] in Elements(keys);
  }

  lemma {:induction false} IndexNotAmong(others: seq<string>, k: string)
    requires NoIndices(others) && IsIndex(k)
    ensures k !in Elements(others)
  {
  }

  lemma {:induction false} OnlyNineAndTen(indices: seq<string>, others: seq<string>)
    requires IndicesFirst(indices, others) && Elements(indices) + Elements(others) == {"9", "10"}
    ensures indices + others == ["9", "10"]
  {
    NineAndTen();
    IndexNotAmong(others, "9");
    IndexNotAmong(others, "10");
    assert Elements(indices) == {"9", "10"} && Elements(others) == {};
    ElementsSize(indices);
    assert |indices| == 2;
    if others != [] {
      NotEmpty(others);
    }
    assert "9" in Elements(indices) && "10" in Elements(indices);
    var i :| 0 <= i < |indices| && indices[i] == "9";
    var j :| 0 <= j < |indices| && indices[j] == "10";
    assert i < j;
  }
}

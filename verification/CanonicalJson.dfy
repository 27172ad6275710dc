/**
 * Canonical JSON text: object keys sorted at every depth, then printed.  Two
 * values have the same text exactly when they are equal up to key order, the
 * key `__proto__` apart.
 */
module CanonicalJson {
  import opened Prelude
  import opened Json
  import opened Text

  // ----- values as the program holds them ---------------------------------

  predicate NumberChar(c: char) {
    '0' <= c <= '9' || c == '-' || c == '+' || c == '.' || c == 'e' || c == 'E'
  }

  predicate IsNumberText(t: string) {
    t != "" && forall i :: 0 <= i < |t| ==> NumberChar(t[i])
  }

  /** A finite number, by the text it prints as. */
  type NumberText = t: string | IsNumberText(t) witness "0"

  /** A value whose objects keep their members in property order. */
  datatype Tree =
    | TNull
    | TBool(b: bool)
    | TNum(n: NumberText)
    | TStr(s: string)
    | TArr(items: seq<Tree>)
    | TObj(members: seq<Member>)

  datatype Member = Member(key: string, value: Tree)

  type JsonText = Value<NumberText>

  /** The JSON value a tree stands for; of members with one key the last counts. */
  function Denote(t: Tree): JsonText
    decreases t
  {
    match t
    case TNull => Null
    case TBool(b) => Bool(b)
    case TNum(n) => Num(n)
    case TStr(s) => Str(s)
    case TArr(items) => Arr(DenoteItems(items))
    case TObj(members) => Obj(DenoteMembers(members))
  }

  function DenoteItems(items: seq<Tree>): (r: seq<JsonText>)
    ensures |r| == |items|
    decreases items
  {
    if items == [] then [] else [Denote(items[0])] + DenoteItems(items[1..])
  }

  function DenoteMembers(members: seq<Member>): map<string, JsonText>
    decreases members
  {
    if members == [] then map[]
    else
      var last := members[|members| - 1];
      DenoteMembers(members[..|members| - 1])[last.key := Denote(last.value)]
  }

  const PROTO := "__proto__"

  /** A value without the key `__proto__` at any depth. */
  function WithoutProto(v: JsonText): JsonText {
    match v
    case Arr(items) => Arr(seq(|items|, i requires 0 <= i < |items| => WithoutProto(items[i])))
    case Obj(members) => Obj(map k | k in members && k != "__proto__" :: WithoutProto(members[k]))
    case _ => v
  }

  // ----- objects under assignment -----------------------------------------

  predicate Digit(c: char) {
    '0' <= c <= '9'
  }

  function DecimalValue(k: string): nat {
    if k == "" then 0
    else 10 * DecimalValue(k[..|k| - 1]) + (if Digit(k[|k| - 1]) then k[|k| - 1] as int - '0' as int else 0)
  }

  /** Array-index keys: canonical decimals below 2^32 - 1. */
  predicate IsIndex(k: string) {
    && k != "" && (forall i :: 0 <= i < |k| ==> Digit(k[i]))
    && (k[0] == '0' ==> k == "0")
    && DecimalValue(k) < 0xFFFF_FFFF
  }

  /** Index keys come first, by value; other keys follow in order of insertion. */
  function InsertIndex(members: seq<Member>, m: Member): seq<Member> {
    if members == [] then [m]
    else if IsIndex(members[0].key) && DecimalValue(members[0].key) < DecimalValue(m.key)
      then [members[0]] + InsertIndex(members[1..], m)
    else [m] + members
  }

  function Replace(members: seq<Member>, m: Member): seq<Member> {
    if members == [] then []
    else [if members[0].key == m.key then m else members[0]] + Replace(members[1..], m)
  }

  predicate HasKey(members: seq<Member>, k: string) {
    exists i :: 0 <= i < |members| && members[i].key == k
  }

  /** `out[key] = value`; assigning to `__proto__` creates no property. */
  function Put(members: seq<Member>, m: Member): seq<Member> {
    if m.key == PROTO then members
    else if HasKey(members, m.key) then Replace(members, m)
    else if IsIndex(m.key) then InsertIndex(members, m)
    else members + [m]
  }

  // ----- sorting keys -----------------------------------------------------

  function Build(keys: seq<string>, children: map<string, Tree>, out: seq<Member>): seq<Member>
    requires forall k :: k in keys ==> k in children
    decreases |keys|
  {
    if keys == [] then out
    else Build(keys[1..], children, Put(out, Member(keys[0], children[keys[0]])))
  }

  ghost function SortKeys(t: Tree): Tree
    decreases t
  {
    match t
    case TArr(items) => TArr(SortItems(items))
    case TObj(members) =>
      var children := SortChildren(members);
      BuildChildren(children.Keys, children, []);
      TObj(Build(SortedKeys(children.Keys), children, []))
    case _ => t
  }

  ghost function SortItems(items: seq<Tree>): (r: seq<Tree>)
    ensures |r| == |items|
    decreases items
  {
    if items == [] then [] else [SortKeys(items[0])] + SortItems(items[1..])
  }

  /** The sorted value of every key. */
  ghost function SortChildren(members: seq<Member>): map<string, Tree>
    decreases members
  {
    if members == [] then map[]
    else
      var last := members[|members| - 1];
      SortChildren(members[..|members| - 1])[last.key := SortKeys(last.value)]
  }

  // ----- printing ---------------------------------------------------------

  function HexDigit(n: nat): char
    requires n < 16
  {
    "0123456789abcdef"[n]
  }

  /** Section 7 of RFC 8259: quotes, backslashes and control characters are escaped. */
  function EscapeChar(c: char): string {
    if c == '"' then "\\\""
    else if c == '\\' then "\\\\"
    else if c == 8 as char then "\\b"
    else if c == 9 as char then "\\t"
    else if c == 10 as char then "\\n"
    else if c == 12 as char then "\\f"
    else if c == 13 as char then "\\r"
    else if c < ' ' then "\\u00" + [HexDigit(c as int / 16), HexDigit(c as int % 16)]
    else [c]
  }

  function Escape(s: string): string {
    if s == "" then "" else EscapeChar(s[0]) + Escape(s[1..])
  }

  function Quote(s: string): string {
    "\"" + Escape(s) + "\""
  }

  function Print(t: Tree): string
    decreases t
  {
    match t
    case TNull => "null"
    case TBool(b) => if b then "true" else "false"
    case TNum(n) => n
    case TStr(s) => Quote(s)
    case TArr(items) => "[" + PrintItems(items, true)
    case TObj(members) => "{" + PrintMembers(members, true)
  }

  function PrintItems(items: seq<Tree>, first: bool): string
    decreases items
  {
    if items == [] then "]"
    else (if first then "" else ",") + Print(items[0]) + PrintItems(items[1..], false)
  }

  function PrintMembers(members: seq<Member>, first: bool): string
    decreases members
  {
    if members == [] then "}"
    else
      (if first then "" else ",") + (Quote(members[0].key) + ":" + Print(members[0].value))
      + PrintMembers(members[1..], false)
  }

  ghost function CanonicalJson(t: Tree): string {
    Print(SortKeys(t))
  }

  /** The children a list of members gives to its keys. */
  function Children(members: seq<Member>): map<string, Tree> {
    if members == [] then map[]
    else Children(members[..|members| - 1])[members[|members| - 1].key := members[|members| - 1].value]
  }

  // ----- what canonical text means ----------------------------------------

  /** Sorting keys, with a loop filling a fresh object. */
  method SortKeysOf(t: Tree) returns (r: Tree)
    ensures r == SortKeys(t)
    decreases t
  {
    match t {
      case TArr(items) =>
        var out: seq<Tree> := [];
        for i := 0 to |items|
          invariant |out| == i && forall j :: 0 <= j < i ==> out[j] == SortKeys(items[j])
        {
          var item := SortKeysOf(items[i]);
          out := out + [item];
        }
        forall j | 0 <= j < |items| ensures out[j] == SortItems(items)[j] {
          ItemsPointwise(items, j);
        }
        assert out == SortItems(items);
        return TArr(out);
      case TObj(members) =>
        var children := Children(members);
        SortedByChildren(members);
        ghost var sorted := SortChildren(members);
        BuildChildren(sorted.Keys, sorted, []);
        var keys := Sort(children.Keys);
        var out: seq<Member> := [];
        assert keys[0..] == keys;
        for i := 0 to |keys|
          invariant Build(keys, sorted, []) == Build(keys[i..], sorted, out)
        {
          assert keys[i] in keys && keys[i] in children;
          ChildSmaller(members, keys[i]);
          ghost var n :| 0 <= n < |members| && members[n].value == children[keys[i]];
          assert children[keys[i]] < t by {
            assert members[n].value < members[n];
          }
          var value := SortKeysOf(children[keys[i]]);
          assert keys[i..][1..] == keys[i + 1..];
          out := Put(out, Member(keys[i], value));
        }
        return TObj(out);
      case _ => return t;
    }
  }

  /** Sorting keys changes nothing but member order, and drops `__proto__`. */
  lemma {:induction false} SortKeysKeepsMeaning(t: Tree)
    ensures Denote(SortKeys(t)) == WithoutProto(Denote(t))
    decreases t
  {
    match t {
      case TArr(items) =>
        forall i | 0 <= i < |items| ensures Denote(SortItems(items)[i]) == WithoutProto(DenoteItems(items)[i]) {
          ItemsPointwise(items, i);
          SortKeysKeepsMeaning(items[i]);
        }
        forall i | 0 <= i < |items| ensures DenoteItems(SortItems(items))[i] == Denote(SortItems(items)[i]) {
          ItemsPointwise(SortItems(items), i);
        }
      case TObj(members) =>
        forall k | k in Children(members)
          ensures Denote(SortKeys(Children(members)[k])) == WithoutProto(Denote(Children(members)[k]))
        {
          ChildSmaller(members, k);
          var i :| 0 <= i < |members| && members[i].value == Children(members)[k];
          SortKeysKeepsMeaning(members[i].value);
        }
        SortedObjectMeaning(members);
      case _ =>
    }
  }

  lemma {:induction false} EqualValuesSortAlike(a: Tree, b: Tree)
    requires WithoutProto(Denote(a)) == WithoutProto(Denote(b))
    ensures SortKeys(a) == SortKeys(b)
    decreases a
  {
    match a {
      case TArr(items) =>
        assert WithoutProto(Denote(b)).Arr? && b.TArr?;
        forall i | 0 <= i < |items| ensures |b.items| == |items| && SortKeys(items[i]) == SortKeys(b.items[i]) {
          ItemsPointwise(items, i);
          assert |WithoutProto(Denote(a)).items| == |items| && |WithoutProto(Denote(b)).items| == |b.items|;
          ItemsPointwise(b.items, i);
          assert WithoutProto(Denote(a)).items[i] == WithoutProto(Denote(b)).items[i];
          EqualValuesSortAlike(items[i], b.items[i]);
        }
        assert |items| == |WithoutProto(Denote(a)).items| == |WithoutProto(Denote(b)).items| == |b.items|;
        SortItemsAlike(items, b.items);
      case TObj(members) =>
        assert WithoutProto(Denote(b)).Obj? && b.TObj?;
        EqualObjectsSortAlike(members, b.members);
      case _ =>
    }
  }

  /** Printing is unambiguous even inside a longer text (sections 4 to 7 of RFC 8259). */
  lemma {:induction false} PrintUnambiguous(x: Tree, y: Tree, s: string, t: string)
    requires Print(x) + s == Print(y) + t && Stops(s) && Stops(t)
    ensures x == y && s == t
    decreases x, 1
  {
    PrintHead(x);
    PrintHead(y);
    assert (Print(x) + s)[0] == Head(x) && (Print(y) + t)[0] == Head(y);
    SameKind(x, y);
    match x {
      case TNum(n) => NumberUnambiguous(n, y.n, s, t);
      case TStr(str) => QuoteUnambiguous(str, y.s, s, t);
      case TArr(items) =>
        ArraySplit(items, s);
        ArraySplit(y.items, t);
        SamePrefix("[", PrintItems(items, true) + s, PrintItems(y.items, true) + t);
        ItemsUnambiguous(items, y.items, true, s, t);
      case TObj(members) =>
        ObjectSplit(members, s);
        ObjectSplit(y.members, t);
        SamePrefix("{", PrintMembers(members, true) + s, PrintMembers(y.members, true) + t);
        MembersUnambiguous(members, y.members, true, s, t);
      case TNull => SamePrefix("null", s, t);
      case TBool(_) => SamePrefix(Print(x), s, t);
    }
  }

  lemma {:induction false} PrintInjective(x: Tree, y: Tree)
    requires Print(x) == Print(y)
    ensures x == y
  {
    assert Print(x) + "" == Print(y) + "";
    PrintUnambiguous(x, y, "", "");
  }

  /**
   * Two values have the same canonical text exactly when they are the same JSON
   * value, objects taken as unordered, once `__proto__` is left out everywhere.
   */
  lemma {:induction false} CanonicalIffEqual(a: Tree, b: Tree)
    ensures CanonicalJson(a) == CanonicalJson(b) <==> WithoutProto(Denote(a)) == WithoutProto(Denote(b))
  {
    if CanonicalJson(a) == CanonicalJson(b) {
      PrintInjective(SortKeys(a), SortKeys(b));
      SortKeysKeepsMeaning(a);
      SortKeysKeepsMeaning(b);
    }
    if WithoutProto(Denote(a)) == WithoutProto(Denote(b)) {
      EqualValuesSortAlike(a, b);
    }
  }

  predicate ProtoFree(v: JsonText) {
    match v
    case Arr(items) => forall i :: 0 <= i < |items| ==> ProtoFree(items[i])
    case Obj(members) => "__proto__" !in members && forall k :: k in members ==> ProtoFree(members[k])
    case _ => true
  }

  /** Away from `__proto__`, canonical text decides equality up to key order. */
  lemma {:induction false} CanonicalIffEqualUpToOrder(a: Tree, b: Tree)
    requires ProtoFree(Denote(a)) && ProtoFree(Denote(b))
    ensures CanonicalJson(a) == CanonicalJson(b) <==> Denote(a) == Denote(b)
  {
    CanonicalIffEqual(a, b);
    ProtoFreeUnchanged(Denote(a));
    ProtoFreeUnchanged(Denote(b));
  }

  /** With it, different values can share their canonical text. */
  lemma {:induction false} ProtoIsLost()
    ensures var a, b := TObj([Member("__proto__", TNull)]), TObj([]);
      Denote(a) != Denote(b) && CanonicalJson(a) == CanonicalJson(b)
  {
    var a, b := TObj([Member(PROTO, TNull)]), TObj([]);
    assert [Member(PROTO, TNull)][..0] == [];
    assert PROTO in DenoteMembers(a.members) && PROTO !in DenoteMembers(b.members);
    assert WithoutProto(Denote(a)).members == map[] == WithoutProto(Denote(b)).members;
    CanonicalIffEqual(a, b);
  }

  /**
   * The leaf test of the run differ, textual inequality, is inequality of values
   * whenever the two are not both objects and not both arrays.
   */
  lemma {:induction false} LeafTextDecides(a: Tree, b: Tree)
    requires !(a.TObj? && b.TObj?) && !(a.TArr? && b.TArr?)
    ensures Print(a) == Print(b) <==> Denote(a) == Denote(b)
  {
    if Print(a) == Print(b) {
      PrintInjective(a, b);
    }
  }

  // ----- sorting keeps the meaning ----------------------------------------

  lemma {:induction false} ChildrenKeys(members: seq<Member>, k: string)
    ensures k in Children(members) <==> HasKey(members, k)
  {
    if members != [] {
      var n := |members| - 1;
      ChildrenKeys(members[..n], k);
      if HasKey(members[..n], k) {
        var i :| 0 <= i < n && members[..n][i].key == k;
        assert members[i].key == k;
      }
      if HasKey(members, k) && members[n].key != k {
        var i :| 0 <= i < |members| && members[i].key == k;
        assert members[..n][i].key == k;
      }
    }
  }

  lemma {:induction false} ChildrenConcat(a: seq<Member>, b: seq<Member>)
    ensures Children(a + b) == Children(a) + Children(b)
  {
    if b == [] {
      assert a + b == a;
    } else {
      var n := |b| - 1;
      assert (a + b)[..|a + b| - 1] == a + b[..n];
      ChildrenConcat(a, b[..n]);
    }
  }

  lemma {:induction false} ChildrenCons(m: Member, members: seq<Member>)
    requires m.key !in Children(members)
    ensures Children([m] + members) == Children(members)[m.key := m.value]
  {
    ChildrenConcat([m], members);
    assert [m][..0] == [];
    assert Children([m]) == map[m.key := m.value];
  }

  lemma {:induction false} ChildrenFirst(members: seq<Member>)
    requires members != []
    ensures members[0].key in Children(members)
    ensures Children(members) == map[members[0].key := members[0].value] + Children(members[1..])
  {
    ChildrenKeys(members, members[0].key);
    assert members == [members[0]] + members[1..];
    ChildrenConcat([members[0]], members[1..]);
    assert [members[0]][..0] == [];
  }

  lemma {:induction false} InsertIndexChildren(members: seq<Member>, m: Member)
    requires m.key !in Children(members)
    ensures Children(InsertIndex(members, m)) == Children(members)[m.key := m.value]
  {
    if members == [] {
      assert [m][..0] == [];
    } else if IsIndex(members[0].key) && DecimalValue(members[0].key) < DecimalValue(m.key) {
      ChildrenFirst(members);
      InsertIndexChildren(members[1..], m);
      AfterFirst(members[0], members[1..], m, InsertIndex(members[1..], m));
      assert members == [members[0]] + members[1..];
    } else {
      ChildrenCons(m, members);
    }
  }

  lemma {:induction false} AfterFirst(first: Member, rest: seq<Member>, m: Member, inserted: seq<Member>)
    requires Children(inserted) == Children(rest)[m.key := m.value]
    ensures Children([first] + inserted) == Children([first] + rest)[m.key := m.value]
  {
    ChildrenConcat([first], inserted);
    ChildrenConcat([first], rest);
    UpdateLast(Children([first]), Children(rest), m.key, m.value);
  }

  lemma {:induction false} UpdateLast<K, V>(a: map<K, V>, b: map<K, V>, k: K, v: V)
    ensures a + b[k := v] == (a + b)[k := v]
  {
  }

  /** Assignment to a fresh key adds exactly that property, unless it is `__proto__`. */
  lemma {:induction false} PutChildren(members: seq<Member>, m: Member)
    requires m.key !in Children(members)
    ensures Children(Put(members, m)) ==
      if m.key == PROTO then Children(members) else Children(members)[m.key := m.value]
  {
    ChildrenKeys(members, m.key);
    if m.key != PROTO {
      if IsIndex(m.key) {
        InsertIndexChildren(members, m);
      } else {
        assert (members + [m])[..|members|] == members;
      }
    }
  }

  /** The chosen keys with their children, `__proto__` left out. */
  function Chosen(keys: set<string>, children: map<string, Tree>): map<string, Tree>
    requires keys <= children.Keys
  {
    map k | k in keys && k != PROTO :: children[k]
  }

  lemma {:induction false} BuildChildren(keys: set<string>, children: map<string, Tree>, out: seq<Member>)
    requires keys <= children.Keys && keys !! Children(out).Keys
    ensures forall k :: k in SortedKeys(keys) ==> k in children
    ensures Children(Build(SortedKeys(keys), children, out)) == Children(out) + Chosen(keys, children)
  {
    forall k | k in SortedKeys(keys) ensures k in children {
      SortedMember(keys, k);
    }
    if keys != {} {
      var k := Least(keys);
      var m := Member(k, children[k]);
      PutChildren(out, m);
      BuildChildren(keys - {k}, children, Put(out, m));
      assert ([k] + SortedKeys(keys - {k}))[1..] == SortedKeys(keys - {k});
      ChosenStep(keys, children, Children(out), k);
    }
  }

  lemma {:induction false} ChosenStep(keys: set<string>, children: map<string, Tree>, before: map<string, Tree>,
      k: string)
    requires keys <= children.Keys && k in keys && keys !! before.Keys
    ensures (if k == PROTO then before else before[k := children[k]]) + Chosen(keys - {k}, children) ==
      before + Chosen(keys, children)
  {
  }

  /** Denotation goes member by member. */
  lemma {:induction false} DenoteByChildren(members: seq<Member>)
    ensures DenoteMembers(members).Keys == Children(members).Keys
    ensures forall k :: k in Children(members) ==> DenoteMembers(members)[k] == Denote(Children(members)[k])
  {
    if members != [] {
      DenoteByChildren(members[..|members| - 1]);
    }
  }

  lemma {:induction false} SortedByChildren(members: seq<Member>)
    ensures SortChildren(members).Keys == Children(members).Keys
    ensures forall k :: k in Children(members) ==> SortChildren(members)[k] == SortKeys(Children(members)[k])
  {
    if members != [] {
      SortedByChildren(members[..|members| - 1]);
    }
  }

  lemma {:induction false} ChildSmaller(members: seq<Member>, k: string)
    requires k in Children(members)
    ensures exists i :: 0 <= i < |members| && members[i].value == Children(members)[k]
  {
    var n := |members| - 1;
    if members[n].key != k {
      ChildSmaller(members[..n], k);
      var i :| 0 <= i < n && members[..n][i].value == Children(members[..n])[k];
      assert members[i].value == Children(members)[k];
    } else {
      assert members[n].value == Children(members)[k];
    }
  }

  lemma {:induction false} ItemsPointwise(items: seq<Tree>, i: nat)
    requires i < |items|
    ensures DenoteItems(items)[i] == Denote(items[i])
    ensures SortItems(items)[i] == SortKeys(items[i])
  {
    if i > 0 {
      ItemsPointwise(items[1..], i - 1);
    }
  }

  /** The sorted object, as a map. */
  lemma {:induction false} SortedObject(members: seq<Member>)
    ensures SortKeys(TObj(members)).TObj?
    ensures var out := Children(SortKeys(TObj(members)).members);
      && out.Keys == Children(members).Keys - {PROTO}
      && forall k :: k in out ==> out[k] == SortKeys(Children(members)[k])
  {
    SortedByChildren(members);
    var children := SortChildren(members);
    BuildChildren(children.Keys, children, []);
  }

  lemma {:induction false} SortedObjectMeaning(members: seq<Member>)
    requires forall k :: k in Children(members) ==>
      Denote(SortKeys(Children(members)[k])) == WithoutProto(Denote(Children(members)[k]))
    ensures Denote(SortKeys(TObj(members))) == WithoutProto(Denote(TObj(members)))
  {
    SortedObject(members);
    var out := SortKeys(TObj(members)).members;
    DenoteByChildren(members);
    DenoteByChildren(out);
    assert DenoteMembers(out) == WithoutProto(Denote(TObj(members))).members;
  }

  // ----- equal values sort alike ------------------------------------------

  lemma {:induction false} BuildSkipsProto(keys: set<string>, children: map<string, Tree>, out: seq<Member>)
    requires keys <= children.Keys
    ensures forall k :: k in SortedKeys(keys) ==> k in children
    ensures forall k :: k in SortedKeys(keys - {PROTO}) ==> k in children
    ensures Build(SortedKeys(keys), children, out) == Build(SortedKeys(keys - {PROTO}), children, out)
  {
    forall k | k in SortedKeys(keys) ensures k in children {
      SortedMember(keys, k);
    }
    forall k | k in SortedKeys(keys - {PROTO}) ensures k in children {
      SortedMember(keys - {PROTO}, k);
    }
    if keys != {} {
      var k := Least(keys);
      var next := Put(out, Member(k, children[k]));
      BuildSkipsProto(keys - {k}, children, next);
      assert ([k] + SortedKeys(keys - {k}))[1..] == SortedKeys(keys - {k});
      if k == PROTO {
        assert keys - {k} - {PROTO} == keys - {PROTO};
      } else {
        assert IsLeast(keys - {PROTO}, k);
        SortedStep(keys - {PROTO}, k);
        assert keys - {PROTO} - {k} == keys - {k} - {PROTO};
        assert ([k] + SortedKeys(keys - {PROTO} - {k}))[1..] == SortedKeys(keys - {PROTO} - {k});
      }
    }
  }

  lemma {:induction false} BuildSame(keys: seq<string>, a: map<string, Tree>, b: map<string, Tree>, out: seq<Member>)
    requires forall k :: k in keys ==> k in a && k in b && a[k] == b[k]
    ensures Build(keys, a, out) == Build(keys, b, out)
    decreases |keys|
  {
    if keys != [] {
      assert keys[0] in keys;
      BuildSame(keys[1..], a, b, Put(out, Member(keys[0], a[keys[0]])));
    }
  }

  lemma {:induction false} EqualMembersSortAlike(a: seq<Member>, b: seq<Member>)
    requires Children(a).Keys - {PROTO} == Children(b).Keys - {PROTO}
    requires forall k :: k in Children(a) && k in Children(b) && k != PROTO ==>
      SortKeys(Children(a)[k]) == SortKeys(Children(b)[k])
    ensures SortKeys(TObj(a)) == SortKeys(TObj(b))
  {
    SortedByChildren(a);
    SortedByChildren(b);
    var ca, cb := SortChildren(a), SortChildren(b);
    BuildChildren(ca.Keys, ca, []);
    BuildChildren(cb.Keys, cb, []);
    BuildSkipsProto(ca.Keys, ca, []);
    BuildSkipsProto(cb.Keys, cb, []);
    var keys := ca.Keys - {PROTO};
    assert keys == cb.Keys - {PROTO};
    forall k | k in SortedKeys(keys) ensures k in ca && k in cb && ca[k] == cb[k] {
      SortedMember(keys, k);
      assert k in Children(a) && k in Children(b);
    }
    BuildSame(SortedKeys(keys), ca, cb, []);
  }

  lemma {:induction false} SortItemsAlike(a: seq<Tree>, b: seq<Tree>)
    requires |a| == |b| && forall i :: 0 <= i < |a| ==> SortKeys(a[i]) == SortKeys(b[i])
    ensures SortItems(a) == SortItems(b)
  {
    forall i | 0 <= i < |a| ensures SortItems(a)[i] == SortItems(b)[i] {
      ItemsPointwise(a, i);
      ItemsPointwise(b, i);
    }
  }

  lemma {:induction false} EqualObjectsSortAlike(a: seq<Member>, b: seq<Member>)
    requires WithoutProto(Denote(TObj(a))) == WithoutProto(Denote(TObj(b)))
    ensures SortKeys(TObj(a)) == SortKeys(TObj(b))
    decreases a
  {
    DenoteByChildren(a);
    DenoteByChildren(b);
    var va, vb := WithoutProto(Denote(TObj(a))).members, WithoutProto(Denote(TObj(b))).members;
    assert va.Keys == Children(a).Keys - {PROTO} && vb.Keys == Children(b).Keys - {PROTO};
    forall k | k in Children(a) && k in Children(b) && k != PROTO
      ensures SortKeys(Children(a)[k]) == SortKeys(Children(b)[k])
    {
      assert k in va && va[k] == vb[k];
      ChildSmaller(a, k);
      var i :| 0 <= i < |a| && a[i].value == Children(a)[k];
      EqualValuesSortAlike(a[i].value, Children(b)[k]);
    }
    EqualMembersSortAlike(a, b);
  }

  // ----- the text is unambiguous ------------------------------------------

  lemma {:induction false} SamePrefix(p: string, a: string, b: string)
    requires p + a == p + b
    ensures a == b
  {
    assert a == (p + a)[|p|..] && b == (p + b)[|p|..];
  }

  lemma {:induction false} EscapeCharUnambiguous(c: char, d: char, a: string, b: string)
    requires EscapeChar(c) + a == EscapeChar(d) + b
    ensures c == d && a == b
  {
    var u := EscapeChar(c) + a;
    assert u[0] == EscapeChar(c)[0] == EscapeChar(d)[0];
    if u[0] == '\\' {
      assert u[1] == EscapeChar(c)[1] == EscapeChar(d)[1];
      if u[1] == 'u' {
        assert u[4] == EscapeChar(c)[4] == EscapeChar(d)[4];
        assert u[5] == EscapeChar(c)[5] == EscapeChar(d)[5];
        HexUnambiguous(c as int, d as int);
      }
    }
    SamePrefix(EscapeChar(c), a, b);
  }

  lemma {:induction false} HexUnambiguous(m: nat, n: nat)
    requires m < 32 && n < 32
    requires HexDigit(m / 16) == HexDigit(n / 16) && HexDigit(m % 16) == HexDigit(n % 16)
    ensures m == n
  {
    HexInjective(m / 16, n / 16);
    HexInjective(m % 16, n % 16);
  }

  lemma {:induction false} HexInjective(m: nat, n: nat)
    requires m < 16 && n < 16 && HexDigit(m) == HexDigit(n)
    ensures m == n
  {
    assert forall i :: 0 <= i < 10 ==> "0123456789abcdef"[i] as int == '0' as int + i;
    assert forall i :: 10 <= i < 16 ==> "0123456789abcdef"[i] as int == 'a' as int + i - 10;
  }

  /** A string's escaped text and what follows it, one character at a time. */
  lemma {:induction false} EscapeSplit(x: string, s: string)
    requires x != ""
    ensures Escape(x) + "\"" + s == EscapeChar(x[0]) + (Escape(x[1..]) + "\"" + s)
  {
  }

  lemma {:induction false} EscapeEnd(x: string, s: string)
    ensures (Escape(x) + "\"" + s)[0] == '"' <==> x == ""
  {
    if x != "" {
      EscapeSplit(x, s);
      assert EscapeChar(x[0]) != "" && EscapeChar(x[0])[0] != '"';
    }
  }

  lemma {:induction false} EscapeUnambiguous(x: string, y: string, s: string, t: string)
    requires Escape(x) + "\"" + s == Escape(y) + "\"" + t
    ensures x == y && s == t
  {
    EscapeEnd(x, s);
    EscapeEnd(y, t);
    if x == "" {
      assert Escape(x) + "\"" + s == "\"" + s && Escape(y) + "\"" + t == "\"" + t;
      SamePrefix("\"", s, t);
    } else {
      EscapeSplit(x, s);
      EscapeSplit(y, t);
      EscapeCharUnambiguous(x[0], y[0], Escape(x[1..]) + "\"" + s, Escape(y[1..]) + "\"" + t);
      EscapeUnambiguous(x[1..], y[1..], s, t);
      assert x == [x[0]] + x[1..] && y == [y[0]] + y[1..];
    }
  }

  lemma {:induction false} QuoteSplit(x: string, s: string)
    ensures Quote(x) + s == "\"" + (Escape(x) + "\"" + s)
  {
  }

  lemma {:induction false} QuoteUnambiguous(x: string, y: string, s: string, t: string)
    requires Quote(x) + s == Quote(y) + t
    ensures x == y && s == t
  {
    QuoteSplit(x, s);
    QuoteSplit(y, t);
    SamePrefix("\"", Escape(x) + "\"" + s, Escape(y) + "\"" + t);
    EscapeUnambiguous(x, y, s, t);
  }

  /** What may follow a value: nothing, or a character that no number contains. */
  predicate Stops(s: string) {
    s == "" || !NumberChar(s[0])
  }

  lemma {:induction false} NumberNoLonger(m: NumberText, n: NumberText, s: string, t: string)
    requires m + s == n + t && Stops(s)
    ensures |n| <= |m|
  {
    var u := m + s;
    assert forall i :: 0 <= i < |n| ==> u[i] == n[i];
    assert s != "" ==> u[|m|] == s[0];
  }

  lemma {:induction false} NumberUnambiguous(m: NumberText, n: NumberText, s: string, t: string)
    requires m + s == n + t && Stops(s) && Stops(t)
    ensures m == n && s == t
  {
    NumberNoLonger(m, n, s, t);
    NumberNoLonger(n, m, t, s);
    var u := m + s;
    assert m == u[..|m|] && n == u[..|n|];
    SamePrefix(m, s, t);
  }

  /** The first character tells the kind of value. */
  function Head(t: Tree): char {
    match t
    case TNull => 'n'
    case TBool(b) => if b then 't' else 'f'
    case TNum(n) => n[0]
    case TStr(_) => '"'
    case TArr(_) => '['
    case TObj(_) => '{'
  }

  lemma {:induction false} PrintHead(t: Tree)
    ensures Print(t) != "" && Print(t)[0] == Head(t)
    ensures Head(t) != ']' && Head(t) != '}' && Head(t) != ','
  {
    if t.TNum? {
      assert NumberChar(t.n[0]);
    }
  }

  lemma {:induction false} ArraySplit(items: seq<Tree>, s: string)
    ensures Print(TArr(items)) + s == "[" + (PrintItems(items, true) + s)
  {
  }

  lemma {:induction false} ObjectSplit(members: seq<Member>, s: string)
    ensures Print(TObj(members)) + s == "{" + (PrintMembers(members, true) + s)
  {
  }

  lemma {:induction false} SameKind(x: Tree, y: Tree)
    requires Head(x) == Head(y)
    ensures x.TNull? <==> y.TNull?
    ensures x.TBool? <==> y.TBool?
    ensures x.TBool? ==> x == y
    ensures x.TNum? <==> y.TNum?
    ensures x.TStr? <==> y.TStr?
    ensures x.TArr? <==> y.TArr?
    ensures x.TObj? <==> y.TObj?
  {
    if x.TNum? {
      assert NumberChar(x.n[0]);
    }
    if y.TNum? {
      assert NumberChar(y.n[0]);
    }
  }

  /** The text after the first item of a list: what remains, behind its separator. */
  lemma {:induction false} RestStops(items: seq<Tree>, s: string)
    ensures Stops(PrintItems(items, false) + s)
  {
    if items != [] {
      assert (PrintItems(items, false) + s)[0] == ',';
    }
  }

  function Separator(first: bool): string {
    if first then "" else ","
  }

  lemma {:induction false} ItemsSplit(items: seq<Tree>, first: bool, s: string)
    requires items != []
    ensures PrintItems(items, first) + s == Separator(first) + (Print(items[0]) + (PrintItems(items[1..], false) + s))
  {
  }

  lemma {:induction false} ItemsUnambiguous(a: seq<Tree>, b: seq<Tree>, first: bool, s: string, t: string)
    requires PrintItems(a, first) + s == PrintItems(b, first) + t
    ensures a == b && s == t
    decreases a, 0
  {
    ItemsEnd(a, first, s);
    ItemsEnd(b, first, t);
    if a == [] {
      SamePrefix("]", s, t);
    } else {
      var ra, rb := PrintItems(a[1..], false) + s, PrintItems(b[1..], false) + t;
      ItemsSplit(a, first, s);
      ItemsSplit(b, first, t);
      SamePrefix(Separator(first), Print(a[0]) + ra, Print(b[0]) + rb);
      RestStops(a[1..], s);
      RestStops(b[1..], t);
      PrintUnambiguous(a[0], b[0], ra, rb);
      ItemsUnambiguous(a[1..], b[1..], false, s, t);
      assert a == [a[0]] + a[1..] && b == [b[0]] + b[1..];
    }
  }

  /** A list of items starts with its closing bracket exactly when it is empty. */
  lemma {:induction false} ItemsEnd(items: seq<Tree>, first: bool, s: string)
    ensures var u := PrintItems(items, first) + s; u != "" && (u[0] == ']' <==> items == [])
  {
    if items != [] {
      PrintHead(items[0]);
      ItemsSplit(items, first, s);
    }
  }

  lemma {:induction false} MembersSplit(members: seq<Member>, first: bool, s: string)
    requires members != []
    ensures var m := members[0];
      PrintMembers(members, first) + s
      == Separator(first) + (Quote(m.key) + (":" + (Print(m.value) + (PrintMembers(members[1..], false) + s))))
  {
  }

  lemma {:induction false} MemberUnambiguous(m: Member, n: Member, a: string, b: string)
    requires Quote(m.key) + (":" + (Print(m.value) + a)) == Quote(n.key) + (":" + (Print(n.value) + b))
    requires Stops(a) && Stops(b)
    ensures m == n && a == b
    decreases m, 2
  {
    QuoteUnambiguous(m.key, n.key, ":" + (Print(m.value) + a), ":" + (Print(n.value) + b));
    SamePrefix(":", Print(m.value) + a, Print(n.value) + b);
    PrintUnambiguous(m.value, n.value, a, b);
  }

  lemma {:induction false} MembersUnambiguous(a: seq<Member>, b: seq<Member>, first: bool, s: string, t: string)
    requires PrintMembers(a, first) + s == PrintMembers(b, first) + t
    ensures a == b && s == t
    decreases a, 0
  {
    MembersEnd(a, first, s);
    MembersEnd(b, first, t);
    if a == [] {
      SamePrefix("}", s, t);
    } else {
      var ra, rb := PrintMembers(a[1..], false) + s, PrintMembers(b[1..], false) + t;
      MembersSplit(a, first, s);
      MembersSplit(b, first, t);
      SamePrefix(Separator(first), Quote(a[0].key) + (":" + (Print(a[0].value) + ra)),
        Quote(b[0].key) + (":" + (Print(b[0].value) + rb)));
      MembersStop(a[1..], s);
      MembersStop(b[1..], t);
      MemberUnambiguous(a[0], b[0], ra, rb);
      MembersUnambiguous(a[1..], b[1..], false, s, t);
      assert a == [a[0]] + a[1..] && b == [b[0]] + b[1..];
    }
  }

  lemma {:induction false} MembersStop(members: seq<Member>, s: string)
    ensures Stops(PrintMembers(members, false) + s)
  {
    if members != [] {
      assert (PrintMembers(members, false) + s)[0] == ',';
    }
  }

  lemma {:induction false} MembersEnd(members: seq<Member>, first: bool, s: string)
    ensures var u := PrintMembers(members, first) + s; u != "" && (u[0] == '}' <==> members == [])
  {
    if members != [] {
      MembersSplit(members, first, s);
      assert Quote(members[0].key)[0] == '"';
    }
  }

  lemma {:induction false} ProtoFreeUnchanged(v: JsonText)
    requires ProtoFree(v)
    ensures WithoutProto(v) == v
  {
    match v {
      case Arr(items) =>
        forall i | 0 <= i < |items| ensures WithoutProto(items[i]) == items[i] {
          ProtoFreeUnchanged(items[i]);
        }
      case Obj(members) =>
        forall k | k in members ensures WithoutProto(members[k]) == members[k] {
          ProtoFreeUnchanged(members[k]);
        }
      case _ =>
    }
  }
}

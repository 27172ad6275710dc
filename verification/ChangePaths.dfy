/** The printed paths of a diff, and when they tell places apart. */
module ChangePaths {
  import opened Prelude
  import opened Json
  import opened Text
  import opened RunDiffer

  // ----- printing ---------------------------------------------------------

  /** The text of a place one step below the place printed as `base`. */
  function StepText(base: string, step: Step): string {
    match step
    case Key(k) => if base == "$" then k else base + "." + k
    case Index(i) => base + "[" + Decimal(i) + "]"
  }

  /** The text the tool prints for a path, threaded down from `$` at the root. */
  function PathText(p: Path, base: string): string
    decreases |p|
  {
    if p == [] then base else PathText(p[1..], StepText(base, p[0]))
  }

  lemma {:induction false} PathTextConcat(p: Path, q: Path, base: string)
    ensures PathText(p + q, base) == PathText(q, PathText(p, base))
    decreases |p|
  {
    if p == [] {
      assert p + q == q;
    } else {
      assert (p + q)[1..] == p[1..] + q;
      PathTextConcat(p[1..], q, StepText(base, p[0]));
    }
  }

  lemma {:induction false} PathTextSnoc(p: Path, step: Step, base: string)
    ensures PathText(p + [step], base) == StepText(PathText(p, base), step)
  {
    PathTextConcat(p, [step], base);
    assert [step][1..] == [];
  }

  // ----- where texts clash ------------------------------------------------

  /** A first step by the key `$` leaves no trace: every path shares its text with a longer one. */
  lemma {:induction false} RootKeyVanishes(p: Path)
    ensures PathText([Key("$")] + p, "$") == PathText(p, "$")
  {
    assert ([Key("$")] + p)[1..] == p;
  }

  /** A dotted key prints like its two parts, unless it starts a path with the part `$`. */
  lemma {:induction false} DottedKeyPrintsAsTwo(before: Path, u: string, v: string, after: Path)
    requires PathText(before, "$") != "$" || u != "$"
    ensures PathText(before + [Key(u + "." + v)] + after, "$") == PathText(before + [Key(u), Key(v)] + after, "$")
  {
    var base := PathText(before, "$");
    PathTextSnoc(before, Key(u + "." + v), "$");
    PathTextSnoc(before, Key(u), "$");
    PathTextSnoc(before + [Key(u)], Key(v), "$");
    assert before + [Key(u)] + [Key(v)] == before + [Key(u), Key(v)];
    PathTextConcat(before + [Key(u + "." + v)], after, "$");
    PathTextConcat(before + [Key(u), Key(v)], after, "$");
    if base != "$" {
      DottedIsNotRoot(base, u);
      assert base + "." + (u + "." + v) == base + "." + u + "." + v;
    }
  }

  lemma {:induction false} DottedIsNotRoot(base: string, u: string)
    ensures base + "." + u != "$"
  {
    assert (base + "." + u)[|base|] == '.';
  }

  /** A key that ends in a bracketed number prints like the key and the position. */
  lemma {:induction false} BracketedKeyPrintsAsTwo(before: Path, u: string, i: nat, after: Path)
    ensures PathText(before + [Key(u + "[" + Decimal(i) + "]")] + after, "$") ==
      PathText(before + [Key(u), Index(i)] + after, "$")
  {
    var one := Key(u + "[" + Decimal(i) + "]");
    PathTextSnoc(before, one, "$");
    PathTextSnoc(before, Key(u), "$");
    PathTextSnoc(before + [Key(u)], Index(i), "$");
    assert before + [Key(u)] + [Index(i)] == before + [Key(u), Index(i)];
    BracketAppended(PathText(before, "$"), u, i);
    PathTextConcat(before + [one], after, "$");
    PathTextConcat(before + [Key(u), Index(i)], after, "$");
  }

  lemma {:induction false} BracketAppended(base: string, u: string, i: nat)
    ensures StepText(base, Key(u + "[" + Decimal(i) + "]")) == StepText(StepText(base, Key(u)), Index(i))
  {
    var d := Decimal(i);
    assert base + "." + (u + "[" + d + "]") == base + "." + u + "[" + d + "]";
  }

  // ----- where texts tell places apart ------------------------------------

  predicate Separator(c: char) {
    c == '.' || c == '['
  }

  predicate PlainText(s: string) {
    forall i :: 0 <= i < |s| ==> !Separator(s[i])
  }

  predicate PlainStep(step: Step) {
    step.Key? ==> PlainText(step.key)
  }

  /** No key of the path holds a dot or an opening bracket. */
  predicate PlainPath(p: Path) {
    forall i :: 0 <= i < |p| ==> PlainStep(p[i])
  }

  /** The path does not start with the key that prints like the root. */
  predicate Rooted(p: Path) {
    p != [] ==> p[0] != Key("$")
  }

  /** Only the root prints as the root. */
  lemma {:induction false} OnlyRootPrintsAsRoot(p: Path)
    requires Rooted(p)
    ensures PathText(p, "$") == "$" <==> p == []
    decreases |p|
  {
    if p != [] {
      var front, last := p[..|p| - 1], p[|p| - 1];
      assert p == front + [last];
      PathTextSnoc(front, last, "$");
      OnlyRootPrintsAsRoot(front);
      StepLeavesRoot(PathText(front, "$"), last);
    }
  }

  lemma {:induction false} StepLeavesRoot(base: string, step: Step)
    requires base == "$" ==> step != Key("$")
    ensures StepText(base, step) != "$"
  {
    match step {
      case Key(k) =>
        if base != "$" {
          DottedIsNotRoot(base, k);
        }
      case Index(i) =>
        assert StepText(base, step)[|base|] == '[';
    }
  }

  lemma {:induction false} LastSeparator(x: string, c: char, s: string, y: string, d: char, t: string)
    requires x + [c] + s == y + [d] + t && Separator(c) && Separator(d) && PlainText(s) && PlainText(t)
    ensures x == y && c == d && s == t
  {
    var all := x + [c] + s;
    assert all[|x|] == c && all[|y|] == d;
    NoneAfter(x, c, s);
    NoneAfter(y, d, t);
    assert all[|x| + 1..] == s && all[|y| + 1..] == t;
    assert all[..|x|] == x && all[..|y|] == y;
  }

  lemma {:induction false} NoneAfter(x: string, c: char, s: string)
    requires PlainText(s)
    ensures forall j :: |x| < j < |x + [c] + s| ==> !Separator((x + [c] + s)[j])
  {
    assert forall j :: |x| < j < |x + [c] + s| ==> (x + [c] + s)[j] == s[j - |x| - 1];
  }

  lemma {:induction false} NotPlain(x: string, c: char, s: string)
    requires Separator(c)
    ensures !PlainText(x + [c] + s)
  {
    assert (x + [c] + s)[|x|] == c;
  }

  lemma {:induction false} DecimalIsPlain(n: nat)
    ensures PlainText(Decimal(n))
  {
    if n >= 10 {
      DecimalIsPlain(n / 10);
    }
  }

  /** What a plain step appends after the separator. */
  ghost function Tail(step: Step): string {
    match step
    case Key(k) => k
    case Index(i) => Decimal(i) + "]"
  }

  ghost function SeparatorOf(step: Step): char {
    if step.Key? then '.' else '['
  }

  lemma {:induction false} StepTextSplits(base: string, step: Step)
    requires PlainStep(step) && (base == "$" ==> step.Index?)
    ensures StepText(base, step) == base + [SeparatorOf(step)] + Tail(step) && PlainText(Tail(step))
  {
    if step.Index? {
      DecimalIsPlain(step.index);
      assert base + "[" + Decimal(step.index) + "]" == base + "[" + (Decimal(step.index) + "]");
    }
  }

  lemma {:induction false} TailTellsStep(a: Step, b: Step)
    requires SeparatorOf(a) == SeparatorOf(b) && Tail(a) == Tail(b)
    ensures a == b
  {
    if a.Index? {
      assert Tail(a)[..|Tail(a)| - 1] == Decimal(a.index) && Tail(b)[..|Tail(b)| - 1] == Decimal(b.index);
      DecimalUnique(a.index, b.index);
    }
  }

  /** A path of a single plain key prints as that key, without any separator. */
  predicate SingleKey(p: Path) {
    |p| == 1 && p[0].Key?
  }

  lemma {:induction false} SeparatedText(p: Path)
    requires PlainPath(p) && Rooted(p) && p != [] && !SingleKey(p)
    ensures var step, base := p[|p| - 1], PathText(p[..|p| - 1], "$");
      PathText(p, "$") == base + [SeparatorOf(step)] + Tail(step) && PlainText(Tail(step))
  {
    var front, last := p[..|p| - 1], p[|p| - 1];
    assert p == front + [last];
    PathTextSnoc(front, last, "$");
    OnlyRootPrintsAsRoot(front);
    StepTextSplits(PathText(front, "$"), last);
  }

  /** Exactly the root and the single keys print without a separator. */
  lemma {:induction false} ShortPath(p: Path)
    requires PlainPath(p) && Rooted(p)
    ensures PlainText(PathText(p, "$")) <==> p == [] || SingleKey(p)
    ensures p == [] || SingleKey(p) ==> PathText(p, "$") == if p == [] then "$" else p[0].key
  {
    if p == [] || SingleKey(p) {
      if p != [] {
        assert p[1..] == [] && PlainStep(p[0]);
      }
    } else {
      SeparatedText(p);
      NotPlain(PathText(p[..|p| - 1], "$"), SeparatorOf(p[|p| - 1]), Tail(p[|p| - 1]));
    }
  }

  /** Among paths of plain keys, none of which starts with the key `$`, a text names one place. */
  lemma {:induction false} PlainTextsTellApart(p: Path, q: Path)
    requires PlainPath(p) && Rooted(p) && PlainPath(q) && Rooted(q)
    ensures PathText(p, "$") == PathText(q, "$") <==> p == q
    decreases |p|, 1
  {
    if PathText(p, "$") == PathText(q, "$") {
      ShortPath(p);
      ShortPath(q);
      if p == [] || SingleKey(p) {
        SameShortPath(p, q);
      } else {
        SameLongPath(p, q);
      }
    }
  }

  lemma {:induction false} SameShortPath(p: Path, q: Path)
    requires Rooted(p) && Rooted(q) && (p == [] || SingleKey(p)) && (q == [] || SingleKey(q))
    requires (if p == [] then "$" else p[0].key) == (if q == [] then "$" else q[0].key)
    ensures p == q
  {
  }

  lemma {:induction false} SameLongPath(p: Path, q: Path)
    requires PlainPath(p) && Rooted(p) && p != [] && !SingleKey(p)
    requires PlainPath(q) && Rooted(q) && q != [] && !SingleKey(q)
    requires PathText(p, "$") == PathText(q, "$")
    ensures p == q
    decreases |p|, 0
  {
    var x, a, y, b := p[..|p| - 1], p[|p| - 1], q[..|q| - 1], q[|q| - 1];
    SeparatedText(p);
    SeparatedText(q);
    SameEnds(PathText(x, "$"), a, PathText(y, "$"), b);
    PlainTextsTellApart(x, y);
    assert p == x + [a] && q == y + [b];
  }

  lemma {:induction false} SameEnds(x: string, a: Step, y: string, b: Step)
    requires PlainText(Tail(a)) && PlainText(Tail(b))
    requires x + [SeparatorOf(a)] + Tail(a) == y + [SeparatorOf(b)] + Tail(b)
    ensures x == y && a == b
  {
    LastSeparator(x, SeparatorOf(a), Tail(a), y, SeparatorOf(b), Tail(b));
    TailTellsStep(a, b);
  }

  // ----- exactly which texts are a path's own -----------------------------

  /** At position `j`, a dot after a part other than `$`, or the bracketed number the key ends with. */
  ghost predicate SplitsAt(k: string, j: nat)
    requires j < |k|
  {
    (k[j] == '.' && k[..j] != "$") || (k[j] == '[' && exists i: nat :: k[j + 1..] == Decimal(i) + "]")
  }

  /** The key prints like two steps. */
  ghost predicate Splits(k: string) {
    exists j: nat :: j < |k| && SplitsAt(k, j)
  }

  ghost predicate StandsAlone(p: Path) {
    forall q :: Rooted(q) && PathText(q, "$") == PathText(p, "$") ==> q == p
  }

  /**
   * Among all paths that do not start with the key `$`, a path has its text to
   * itself exactly when it is the root or a single key that does not print like
   * two steps.
   */
  lemma {:induction false} TextStandsAlone(p: Path)
    requires Rooted(p)
    ensures StandsAlone(p) <==> p == [] || (SingleKey(p) && !Splits(p[0].key))
  {
    if p == [] || (SingleKey(p) && !Splits(p[0].key)) {
      forall q | Rooted(q) && PathText(q, "$") == PathText(p, "$") ensures q == p {
        OnlyRootPrintsAsRoot(p);
        OnlyRootPrintsAsRoot(q);
        if p != [] {
          assert p[1..] == [];
          UnsplitOwnsItsText(p[0].key, q);
        }
      }
    } else {
      var q := AnotherPath(p);
      assert q != p;
    }
  }

  lemma {:induction false} UnsplitOwnsItsText(k: string, q: Path)
    requires !Splits(k) && Rooted(q) && q != [] && PathText(q, "$") == k
    ensures q == [Key(k)]
  {
    var front, last := q[..|q| - 1], q[|q| - 1];
    assert q == front + [last];
    PathTextSnoc(front, last, "$");
    OnlyRootPrintsAsRoot(front);
    var base := PathText(front, "$");
    if last.Index? {
      assert k[|base|] == '[' && k[|base| + 1..] == Decimal(last.index) + "]";
      assert SplitsAt(k, |base|);
    } else if front != [] {
      assert k[|base|] == '.' && k[..|base|] == base;
      assert SplitsAt(k, |base|);
    }
  }

  /** Another path with the same text, for a path of several steps, of a position, or of a key that splits. */
  lemma {:induction false} AnotherPath(p: Path) returns (q: Path)
    requires Rooted(p) && p != [] && (SingleKey(p) ==> Splits(p[0].key))
    ensures Rooted(q) && q != p && PathText(q, "$") == PathText(p, "$")
  {
    OnlyRootPrintsAsRoot(p);
    if SingleKey(p) {
      var k := p[0].key;
      assert p == [Key(k)];
      var j: nat :| j < |k| && SplitsAt(k, j);
      if k[j] == '.' && k[..j] != "$" {
        q := SplitAtDot(k, j);
      } else {
        q := SplitAtBracket(k, j);
      }
    } else {
      q := [Key(PathText(p, "$"))];
      assert q[1..] == [];
    }
  }

  lemma {:induction false} SplitAtDot(k: string, j: nat) returns (q: Path)
    requires j < |k| && k[j] == '.' && k[..j] != "$"
    ensures Rooted(q) && q != [Key(k)] && PathText(q, "$") == PathText([Key(k)], "$")
  {
    var u, v := k[..j], k[j + 1..];
    assert k == u + "." + v;
    DottedKeyPrintsAsTwo([], u, v, []);
    q := [Key(u), Key(v)];
    assert [] + [Key(k)] + [] == [Key(k)] && [] + q + [] == q;
  }

  lemma {:induction false} SplitAtBracket(k: string, j: nat) returns (q: Path)
    requires j < |k| && k[j] == '[' && exists i: nat :: k[j + 1..] == Decimal(i) + "]"
    ensures Rooted(q) && q != [Key(k)] && PathText(q, "$") == PathText([Key(k)], "$")
  {
    var i: nat :| k[j + 1..] == Decimal(i) + "]";
    var u := k[..j];
    BracketParts(k, j, Decimal(i));
    BracketedKeyPrintsAsTwo([], u, i, []);
    q := [Key(u), Index(i)];
    assert [] + [Key(k)] + [] == [Key(k)] && [] + q + [] == q;
    if u == "$" {
      RootKeyVanishes([Index(i)]);
      assert [Key("$")] + [Index(i)] == q;
      q := [Index(i)];
    }
  }

  lemma {:induction false} BracketParts(k: string, j: nat, d: string)
    requires j < |k| && k[j] == '[' && k[j + 1..] == d + "]"
    ensures k == k[..j] + "[" + d + "]"
  {
    assert k == k[..j] + [k[j]] + k[j + 1..];
    assert k[..j] + "[" + (d + "]") == k[..j] + "[" + d + "]";
  }

  // ----- whole diffs ------------------------------------------------------

  /** Every key of the value, at any depth, is free of dots and opening brackets. */
  ghost predicate PlainKeys<N>(v: Value<N>) {
    match v
    case Obj(members) => forall k :: k in members ==> PlainText(k) && PlainKeys(members[k])
    case Arr(items) => forall i :: 0 <= i < |items| ==> PlainKeys(items[i])
    case _ => true
  }

  /** No two changes are at one place. */
  ghost predicate PathsApart<N>(cs: seq<Change<N>>) {
    forall i, j :: 0 <= i < j < |cs| ==> cs[i].path != cs[j].path
  }

  ghost predicate PathsPlain<N>(cs: seq<Change<N>>) {
    forall i :: 0 <= i < |cs| ==> PlainPath(cs[i].path)
  }

  /** Every change is below a key of `keys`. */
  ghost predicate BelowKeys<N>(cs: seq<Change<N>>, keys: seq<string>) {
    forall i :: 0 <= i < |cs| ==> cs[i].path != [] && cs[i].path[0].Key? && cs[i].path[0].key in keys
  }

  /** Every change is below a position from `n` on. */
  ghost predicate BelowPositions<N>(cs: seq<Change<N>>, n: nat) {
    forall i :: 0 <= i < |cs| ==> cs[i].path != [] && cs[i].path[0].Index? && cs[i].path[0].index >= n
  }

  lemma {:induction false} ApartBelow<N>(step: Step, delta: seq<Change<N>>, rest: seq<Change<N>>)
    requires PathsApart(delta) && PathsApart(rest)
    requires forall i :: 0 <= i < |rest| ==> rest[i].path != [] && rest[i].path[0] != step
    ensures PathsApart(Prefixed([step], delta) + rest)
  {
    var moved := Prefixed([step], delta);
    var all := moved + rest;
    forall i, j | 0 <= i < j < |all| ensures all[i].path != all[j].path {
      if j < |moved| {
        assert all[i].path[1..] == delta[i].path && all[j].path[1..] == delta[j].path;
      } else if i < |moved| {
        assert all[i].path[0] == step && all[j] == rest[j - |moved|];
      } else {
        assert all[i] == rest[i - |moved|] && all[j] == rest[j - |moved|];
      }
    }
  }

  /** A walk reports each place once. */
  lemma {:induction false} WalkPathsApart<N>(a: Value<N>, b: Value<N>)
    ensures PathsApart(Walk(a, b, []))
    decreases a, 1, 0
  {
    if a.Obj? && b.Obj? {
      SortedIsSorted(a.members.Keys + b.members.Keys);
      KeyPathsApart(a, b.members, SortedKeys(a.members.Keys + b.members.Keys));
    } else if a.Arr? && b.Arr? {
      ItemPathsApart(a, b.items, 0);
    }
  }

  lemma {:induction false} KeyPathsApart<N>(a: Value<N>, b: map<string, Value<N>>, keys: seq<string>)
    requires a.Obj? && NoDup(keys)
    ensures PathsApart(WalkKeys(a, b, keys, [])) && BelowKeys(WalkKeys(a, b, keys, []), keys)
    decreases a, 0, |keys|
  {
    if keys != [] {
      var k, rest := keys[0], keys[1..];
      assert keys == [k] + rest;
      assert forall i :: 0 <= i < |rest| ==> rest[i] == keys[i + 1];
      KeyPathsApart(a, b, rest);
      if k in a.members && k in b {
        WalkPathsApart(a.members[k], b[k]);
      }
      KeyDeltaPrefixed(a, b, k);
      ApartBelow(Key(k), KeyDelta(a, b, k), WalkKeys(a, b, rest, []));
    }
  }

  lemma {:induction false} ItemPathsApart<N>(a: Value<N>, b: seq<Value<N>>, i: nat)
    requires a.Arr?
    ensures PathsApart(WalkItems(a, b, i, [])) && BelowPositions(WalkItems(a, b, i, []), i)
    decreases a, 0, |a.items| + |b| - i
  {
    if i < |a.items| || i < |b| {
      ItemPathsApart(a, b, i + 1);
      if i < |a.items| && i < |b| {
        WalkPathsApart(a.items[i], b[i]);
      }
      ItemDeltaPrefixed(a, b, i);
      ApartBelow(Index(i), ItemDelta(a, b, i), WalkItems(a, b, i + 1, []));
    }
  }

  lemma {:induction false} PlainBelow<N>(step: Step, delta: seq<Change<N>>, rest: seq<Change<N>>)
    requires PlainStep(step) && PathsPlain(delta) && PathsPlain(rest)
    ensures PathsPlain(Prefixed([step], delta) + rest)
  {
    var moved := Prefixed([step], delta);
    forall i | 0 <= i < |moved| ensures PlainPath(moved[i].path) {
      assert moved[i].path == [step] + delta[i].path;
      assert PlainPath(delta[i].path);
    }
  }

  /** A walk between values of plain keys has plain paths. */
  lemma {:induction false} WalkPathsPlain<N>(a: Value<N>, b: Value<N>)
    requires PlainKeys(a) && PlainKeys(b)
    ensures PathsPlain(Walk(a, b, []))
    decreases a, 1, 0
  {
    if a.Obj? && b.Obj? {
      var union := a.members.Keys + b.members.Keys;
      forall k | k in SortedKeys(union) ensures PlainText(k) {
        SortedMember(union, k);
      }
      KeyPathsPlain(a, b, SortedKeys(union));
    } else if a.Arr? && b.Arr? {
      ItemPathsPlain(a, b, 0);
    }
  }

  lemma {:induction false} KeyPathsPlain<N>(a: Value<N>, b: Value<N>, keys: seq<string>)
    requires a.Obj? && b.Obj? && PlainKeys(a) && PlainKeys(b) && forall k :: k in keys ==> PlainText(k)
    ensures PathsPlain(WalkKeys(a, b.members, keys, []))
    decreases a, 0, |keys|
  {
    if keys != [] {
      var k, rest := keys[0], keys[1..];
      assert keys == [k] + rest;
      KeyPathsPlain(a, b, rest);
      if k in a.members && k in b.members {
        WalkPathsPlain(a.members[k], b.members[k]);
      }
      KeyDeltaPrefixed(a, b.members, k);
      PlainBelow(Key(k), KeyDelta(a, b.members, k), WalkKeys(a, b.members, rest, []));
    }
  }

  lemma {:induction false} ItemPathsPlain<N>(a: Value<N>, b: Value<N>, i: nat)
    requires a.Arr? && b.Arr? && PlainKeys(a) && PlainKeys(b)
    ensures PathsPlain(WalkItems(a, b.items, i, []))
    decreases a, 0, |a.items| + |b.items| - i
  {
    if i < |a.items| || i < |b.items| {
      ItemPathsPlain(a, b, i + 1);
      if i < |a.items| && i < |b.items| {
        WalkPathsPlain(a.items[i], b.items[i]);
      }
      ItemDeltaPrefixed(a, b.items, i);
      PlainBelow(Index(i), ItemDelta(a, b.items, i), WalkItems(a, b.items, i + 1, []));
    }
  }

  ghost predicate NoRootKey<N>(v: Value<N>) {
    v.Obj? ==> "$" !in v.members
  }

  /** Between values of plain keys, without a top-level `$`, the printed paths of a diff are all different. */
  lemma {:induction false} DiffTextsApart<N>(a: Value<N>, b: Value<N>, i: nat, j: nat)
    requires PlainKeys(a) && PlainKeys(b) && NoRootKey(a) && NoRootKey(b)
    requires i < j < |Walk(a, b, [])|
    ensures PathText(Walk(a, b, [])[i].path, "$") != PathText(Walk(a, b, [])[j].path, "$")
  {
    var cs := Walk(a, b, []);
    WalkPathsApart(a, b);
    WalkPathsPlain(a, b);
    WalkPathsRooted(a, b);
    PlainTextsTellApart(cs[i].path, cs[j].path);
  }

  lemma {:induction false} WalkPathsRooted<N>(a: Value<N>, b: Value<N>)
    requires NoRootKey(a) && NoRootKey(b)
    ensures forall i :: 0 <= i < |Walk(a, b, [])| ==> Rooted(Walk(a, b, [])[i].path)
  {
    if a.Obj? && b.Obj? {
      var union := a.members.Keys + b.members.Keys;
      SortedIsSorted(union);
      KeyPathsApart(a, b.members, SortedKeys(union));
      SortedMember(union, "$");
    } else if a.Arr? && b.Arr? {
      ItemPathsApart(a, b.items, 0);
    }
  }

  /** Without plain keys it fails: a diff can print one path for two changes. */
  lemma {:induction false} DiffTextsCanClash<N>(x: Value<N>, y: Value<N>)
    requires x != y && !(x.Obj? && y.Obj?) && !(x.Arr? && y.Arr?)
    ensures var a, b :=
      Obj(map["a" := Obj(map["b" := x]), "a.b" := x]), Obj(map["a" := Obj(map["b" := y]), "a.b" := y]);
      && Walk(a, b, []) == [Changed([Key("a"), Key("b")], x, y), Changed([Key("a.b")], x, y)]
      && PathText([Key("a"), Key("b")], "$") == PathText([Key("a.b")], "$")
  {
    var a, b := Obj(map["a" := Obj(map["b" := x]), "a.b" := x]), Obj(map["a" := Obj(map["b" := y]), "a.b" := y]);
    TwoKeys();
    assert a.members.Keys + b.members.Keys == {"a", "a.b"};
    TwoKeyWalk(a, b.members, x, y);
    DottedKeyPrintsAsTwo([], "a", "b", []);
    assert [] + [Key("a.b")] + [] == [Key("a.b")] && [] + [Key("a"), Key("b")] + [] == [Key("a"), Key("b")];
    assert "a" + "." + "b" == "a.b";
  }

  lemma {:induction false} TwoKeyWalk<N>(a: Value<N>, b: map<string, Value<N>>, x: Value<N>, y: Value<N>)
    requires x != y && !(x.Obj? && y.Obj?) && !(x.Arr? && y.Arr?)
    requires a == Obj(map["a" := Obj(map["b" := x]), "a.b" := x]) && b == map["a" := Obj(map["b" := y]), "a.b" := y]
    ensures WalkKeys(a, b, ["a", "a.b"], []) == [Changed([Key("a"), Key("b")], x, y), Changed([Key("a.b")], x, y)]
  {
    assert [] + [Key("a")] == [Key("a")] && [Key("a")] + [Key("b")] == [Key("a"), Key("b")] &&
      [] + [Key("a.b")] == [Key("a.b")];
    assert a.members["a"] == Obj(map["b" := x]) && b["a"] == Obj(map["b" := y]);
    OneKeyWalk(x, y, "b", [Key("a")]);
    assert KeyChanges(a, b, "a", []) == [Changed([Key("a"), Key("b")], x, y)];
    assert Walk(x, y, [Key("a.b")]) == [Changed([Key("a.b")], x, y)];
    assert KeyChanges(a, b, "a.b", []) == [Changed([Key("a.b")], x, y)];
    assert ["a", "a.b"][1..] == ["a.b"] && ["a.b"][1..] == [];
    assert WalkKeys(a, b, ["a.b"], []) == [Changed([Key("a.b")], x, y)] + WalkKeys(a, b, [], []);
  }

  lemma {:induction false} TwoKeys()
    ensures SortedKeys({"a", "a.b"}) == ["a", "a.b"]
  {
    assert AtMost("a", "a") && AtMost("a", "a.b") && AtMost("a.b", "a.b");
    SortedStep({"a", "a.b"}, "a");
    assert {"a", "a.b"} - {"a"} == {"a.b"};
    SortedStep({"a.b"}, "a.b");
    assert {"a.b"} - {"a.b"} == {};
  }

  lemma {:induction false} OneKeyWalk<N>(x: Value<N>, y: Value<N>, k: string, path: Path)
    requires x != y && !(x.Obj? && y.Obj?) && !(x.Arr? && y.Arr?)
    ensures Walk(Obj(map[k := x]), Obj(map[k := y]), path) == [Changed(path + [Key(k)], x, y)]
  {
    var a, b := Obj(map[k := x]), Obj(map[k := y]);
    AtMostTotal(k, k);
    SortedStep({k}, k);
    assert {k} - {k} == {} && a.members.Keys + b.members.Keys == {k};
    assert SortedKeys({k}) == [k] && [k][1..] == [];
    assert Walk(x, y, path + [Key(k)]) == [Changed(path + [Key(k)], x, y)];
    assert KeyChanges(a, b.members, k, path) == [Changed(path + [Key(k)], x, y)];
    assert WalkKeys(a, b.members, [k], path) == [Changed(path + [Key(k)], x, y)] + WalkKeys(a, b.members, [], path);
  }
}

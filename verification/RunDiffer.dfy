/** The structural diff of parsed outputs, and of whole runs. */
module RunDiffer {
  import opened Prelude
  import opened Json
  import opened Text

  datatype Step = Key(key: string) | Index(index: nat)
  type Path = seq<Step>

  /** A change at a path; a missing side stands for `undefined`. */
  datatype Change<N> =
    | Added(path: Path, b: Value<N>)
    | Removed(path: Path, a: Value<N>)
    | Changed(path: Path, a: Value<N>, b: Value<N>)

  // ----- walk -------------------------------------------------------------

  /**
   * The changes from `a` to `b`, in order: keys of either side ascending,
   * array items by position, leaves compared as values.
   */
  ghost function Walk<N>(a: Value<N>, b: Value<N>, path: Path): seq<Change<N>>
    decreases a, 1, 0
  {
    if a.Obj? && b.Obj? then WalkKeys(a, b.members, SortedKeys(a.members.Keys + b.members.Keys), path)
    else if a.Arr? && b.Arr? then WalkItems(a, b.items, 0, path)
    else if a != b then [Changed(path, a, b)]
    else []
  }

  ghost function WalkKeys<N>(a: Value<N>, b: map<string, Value<N>>, keys: seq<string>, path: Path): seq<Change<N>>
    requires a.Obj?
    decreases a, 0, |keys|
  {
    if keys == [] then []
    else
      KeyChanges(a, b, keys[0], path) + WalkKeys(a, b, keys[1..], path)
  }

  /** The changes under one key. */
  ghost function KeyChanges<N>(a: Value<N>, b: map<string, Value<N>>, k: string, path: Path): seq<Change<N>>
    requires a.Obj?
    decreases a, 0, 0
  {
    if k in a.members && k !in b then [Removed(path + [Key(k)], a.members[k])]
    else if k !in a.members && k in b then [Added(path + [Key(k)], b[k])]
    else if k in a.members && k in b then Walk(a.members[k], b[k], path + [Key(k)])
    else []
  }

  ghost function WalkItems<N>(a: Value<N>, b: seq<Value<N>>, i: nat, path: Path): seq<Change<N>>
    requires a.Arr?
    decreases a, 0, |a.items| + |b| - i
  {
    if i >= |a.items| && i >= |b| then []
    else
      ItemChanges(a, b, i, path) + WalkItems(a, b, i + 1, path)
  }

  /** The changes at one position. */
  ghost function ItemChanges<N>(a: Value<N>, b: seq<Value<N>>, i: nat, path: Path): seq<Change<N>>
    requires a.Arr? && (i < |a.items| || i < |b|)
    decreases a, 0, 0
  {
    if i >= |b| then [Removed(path + [Index(i)], a.items[i])]
    else if i >= |a.items| then [Added(path + [Index(i)], b[i])]
    else Walk(a.items[i], b[i], path + [Index(i)])
  }

  /** The accumulator the walk pushes its changes onto. */
  class ChangeLog<N(==)> {
    var items: seq<Change<N>>

    constructor ()
      ensures items == []
    {
      items := [];
    }

    method Push(c: Change<N>)
      modifies this
      ensures items == old(items) + [c]
    {
      items := items + [c];
    }

    method WalkValues(a: Value<N>, b: Value<N>, path: Path)
      modifies this
      ensures items == old(items) + Walk(a, b, path)
      decreases a, 1, 0
    {
      if a.Obj? && b.Obj? {
        var keys := Sort(a.members.Keys + b.members.Keys);
        forall k | k in keys ensures k in a.members || k in b.members {
          SortedMember(a.members.Keys + b.members.Keys, k);
        }
        WalkObjects(a, b, keys, path);
      } else if a.Arr? && b.Arr? {
        WalkArrays(a, b, path);
      } else if a != b {
        Push(Changed(path, a, b));
      }
    }

    method WalkObjects(a: Value<N>, b: Value<N>, keys: seq<string>, path: Path)
      requires a.Obj? && b.Obj? && forall k :: k in keys ==> k in a.members || k in b.members
      modifies this
      ensures items == old(items) + WalkKeys(a, b.members, keys, path)
      decreases a, 0, 0
    {
      assert keys[0..] == keys;
      for i := 0 to |keys|
        invariant items + WalkKeys(a, b.members, keys[i..], path) == old(items) + WalkKeys(a, b.members, keys, path)
      {
        var k := keys[i];
        assert k in keys;
        assert keys[i..][0] == k && keys[i..][1..] == keys[i + 1..];
        var child := path + [Key(k)];
        ghost var before := items;
        if k in a.members && k !in b.members {
          Push(Removed(child, a.members[k]));
        } else if k !in a.members && k in b.members {
          Push(Added(child, b.members[k]));
        } else {
          WalkValues(a.members[k], b.members[k], child);
        }
        ghost var here := items[|before|..];
        assert items == before + here;
        assert WalkKeys(a, b.members, keys[i..], path) == here + WalkKeys(a, b.members, keys[i + 1..], path);
      }
    }

    method WalkArrays(a: Value<N>, b: Value<N>, path: Path)
      requires a.Arr? && b.Arr?
      modifies this
      ensures items == old(items) + WalkItems(a, b.items, 0, path)
      decreases a, 0, 0
    {
      var len := if |a.items| > |b.items| then |a.items| else |b.items|;
      for i := 0 to len
        invariant items + WalkItems(a, b.items, i, path) == old(items) + WalkItems(a, b.items, 0, path)
      {
        var child := path + [Index(i)];
        ghost var before := items;
        if i < |a.items| && i >= |b.items| {
          Push(Removed(child, a.items[i]));
        } else if i >= |a.items| && i < |b.items| {
          Push(Added(child, b.items[i]));
        } else {
          WalkValues(a.items[i], b.items[i], child);
        }
        ghost var here := items[|before|..];
        assert items == before + here;
        assert WalkItems(a, b.items, i, path) == here + WalkItems(a, b.items, i + 1, path);
      }
    }
  }

  /** The diff of two parsed outputs. */
  method DiffParsed<N(==)>(a: Value<N>, b: Value<N>) returns (changes: seq<Change<N>>)
    ensures changes == Walk(a, b, [])
  {
    var log := new ChangeLog<N>();
    log.WalkValues(a, b, []);
    changes := log.items;
  }

  // ----- the diff as a patch ----------------------------------------------

  function WithPath<N>(c: Change<N>, p: Path): Change<N> {
    c.(path := p)
  }

  /** The changes below `step`, seen from there. */
  function Below<N>(cs: seq<Change<N>>, step: Step): seq<Change<N>> {
    if cs == [] then []
    else
      (if cs[0].path != [] && cs[0].path[0] == step then [WithPath(cs[0], cs[0].path[1..])] else [])
      + Below(cs[1..], step)
  }

  /** The change at the root, if there is one. */
  function AtRoot<N>(cs: seq<Change<N>>): Option<Change<N>> {
    if cs == [] then None else if cs[0].path == [] then Some(cs[0]) else AtRoot(cs[1..])
  }

  /** The keys directly below the root that the changes mention. */
  function KeysBelow<N>(cs: seq<Change<N>>): set<string> {
    if cs == [] then {}
    else (if cs[0].path != [] && cs[0].path[0].Key? then {cs[0].path[0].key} else {}) + KeysBelow(cs[1..])
  }

  /** The items added directly below the root, in order. */
  function ItemsAdded<N>(cs: seq<Change<N>>): seq<Value<N>> {
    if cs == [] then []
    else (if cs[0].Added? && |cs[0].path| == 1 && cs[0].path[0].Index? then [cs[0].b] else []) + ItemsAdded(cs[1..])
  }

  /**
   * Apply changes addressed by the paths of `v` itself: replace where changed,
   * drop where removed, add where added, and descend elsewhere.
   */
  function Patch<N>(v: Value<N>, cs: seq<Change<N>>): Value<N>
    decreases v, 1, 0
  {
    match AtRoot(cs)
    case Some(Changed(_, _, b)) => b
    case _ =>
      match v
      case Obj(members) =>
        Obj(map k | k in members.Keys + KeysBelow(cs) && PatchMember(v, cs, k).Some? :: PatchMember(v, cs, k).value)
      case Arr(items) => Arr(PatchItems(v, cs, 0) + ItemsAdded(cs))
      case _ => v
  }

  function PatchMember<N>(v: Value<N>, cs: seq<Change<N>>, k: string): Option<Value<N>>
    requires v.Obj?
    decreases v, 0, 0
  {
    var below := Below(cs, Key(k));
    match AtRoot(below)
    case Some(Removed(_, _)) => None
    case Some(Added(_, b)) => Some(b)
    case _ => if k in v.members then Some(Patch(v.members[k], below)) else None
  }

  function PatchItems<N>(v: Value<N>, cs: seq<Change<N>>, i: nat): seq<Value<N>>
    requires v.Arr? && i <= |v.items|
    decreases v, 0, |v.items| - i
  {
    if i == |v.items| then []
    else
      var below := Below(cs, Index(i));
      (if AtRoot(below).Some? && AtRoot(below).value.Removed? then [] else [Patch(v.items[i], below)])
      + PatchItems(v, cs, i + 1)
  }

  function Prefixed<N>(p: Path, cs: seq<Change<N>>): seq<Change<N>> {
    seq(|cs|, i requires 0 <= i < |cs| => WithPath(cs[i], p + cs[i].path))
  }

  lemma {:induction false} PrefixedConcat<N>(p: Path, a: seq<Change<N>>, b: seq<Change<N>>)
    ensures Prefixed(p, a + b) == Prefixed(p, a) + Prefixed(p, b)
  {
  }

  lemma {:induction false} PrefixedTwice<N>(p: Path, q: Path, cs: seq<Change<N>>)
    ensures Prefixed(p, Prefixed(q, cs)) == Prefixed(p + q, cs)
  {
    forall i | 0 <= i < |cs| ensures Prefixed(p, Prefixed(q, cs))[i] == Prefixed(p + q, cs)[i] {
      assert p + (q + cs[i].path) == p + q + cs[i].path;
    }
  }

  /** The walk threads its base path through and looks at it no further. */
  lemma {:induction false} WalkRelative<N>(a: Value<N>, b: Value<N>, path: Path)
    ensures Walk(a, b, path) == Prefixed(path, Walk(a, b, []))
    decreases a, 1, 0
  {
    if a.Obj? && b.Obj? {
      WalkKeysRelative(a, b.members, SortedKeys(a.members.Keys + b.members.Keys), path);
    } else if a.Arr? && b.Arr? {
      WalkItemsRelative(a, b.items, 0, path);
    } else {
      assert path + [] == path;
    }
  }

  lemma {:induction false} ChildRelative<N>(a: Value<N>, b: Value<N>, path: Path, step: Step)
    requires Walk(a, b, path + [step]) == Prefixed(path + [step], Walk(a, b, []))
    requires Walk(a, b, [step]) == Prefixed([step], Walk(a, b, []))
    ensures Walk(a, b, path + [step]) == Prefixed(path, Walk(a, b, [step]))
  {
    PrefixedTwice(path, [step], Walk(a, b, []));
  }

  lemma {:induction false} WalkKeysRelative<N>(a: Value<N>, b: map<string, Value<N>>, keys: seq<string>, path: Path)
    requires a.Obj?
    ensures WalkKeys(a, b, keys, path) == Prefixed(path, WalkKeys(a, b, keys, []))
    decreases a, 0, |keys|
  {
    if keys != [] {
      var k := keys[0];
      assert [] + [Key(k)] == [Key(k)];
      if k in a.members && k in b {
        WalkRelative(a.members[k], b[k], path + [Key(k)]);
        WalkRelative(a.members[k], b[k], [Key(k)]);
        ChildRelative(a.members[k], b[k], path, Key(k));
      }
      WalkKeysRelative(a, b, keys[1..], path);
      PrefixedConcat(path, KeyChanges(a, b, k, []), WalkKeys(a, b, keys[1..], []));
    }
  }

  lemma {:induction false} WalkItemsRelative<N>(a: Value<N>, b: seq<Value<N>>, i: nat, path: Path)
    requires a.Arr?
    ensures WalkItems(a, b, i, path) == Prefixed(path, WalkItems(a, b, i, []))
    decreases a, 0, |a.items| + |b| - i
  {
    if i < |a.items| || i < |b| {
      assert [] + [Index(i)] == [Index(i)];
      if i < |a.items| && i < |b| {
        WalkRelative(a.items[i], b[i], path + [Index(i)]);
        WalkRelative(a.items[i], b[i], [Index(i)]);
        ChildRelative(a.items[i], b[i], path, Index(i));
      }
      WalkItemsRelative(a, b, i + 1, path);
      PrefixedConcat(path, ItemChanges(a, b, i, []), WalkItems(a, b, i + 1, []));
    }
  }

  // ----- reading the changes of a walk ------------------------------------

  lemma {:induction false} BelowConcat<N>(a: seq<Change<N>>, b: seq<Change<N>>, step: Step)
    ensures Below(a + b, step) == Below(a, step) + Below(b, step)
  {
    if a == [] {
      assert a + b == b;
    } else {
      assert (a + b)[1..] == a[1..] + b;
      BelowConcat(a[1..], b, step);
    }
  }

  lemma {:induction false} AtRootConcat<N>(a: seq<Change<N>>, b: seq<Change<N>>)
    ensures AtRoot(a + b) == if AtRoot(a).Some? then AtRoot(a) else AtRoot(b)
  {
    if a == [] {
      assert a + b == b;
    } else {
      assert (a + b)[1..] == a[1..] + b;
      AtRootConcat(a[1..], b);
    }
  }

  lemma {:induction false} KeysBelowConcat<N>(a: seq<Change<N>>, b: seq<Change<N>>)
    ensures KeysBelow(a + b) == KeysBelow(a) + KeysBelow(b)
  {
    if a == [] {
      assert a + b == b;
    } else {
      assert (a + b)[1..] == a[1..] + b;
      KeysBelowConcat(a[1..], b);
    }
  }

  lemma {:induction false} ItemsAddedConcat<N>(a: seq<Change<N>>, b: seq<Change<N>>)
    ensures ItemsAdded(a + b) == ItemsAdded(a) + ItemsAdded(b)
  {
    if a == [] {
      assert a + b == b;
    } else {
      assert (a + b)[1..] == a[1..] + b;
      ItemsAddedConcat(a[1..], b);
    }
  }

  /** Changes moved under `step` are found below it and nowhere else. */
  lemma {:induction false} BelowPrefixed<N>(step: Step, other: Step, cs: seq<Change<N>>)
    ensures Below(Prefixed([step], cs), other) == if other == step then cs else []
    ensures AtRoot(Prefixed([step], cs)) == None
    ensures KeysBelow(Prefixed([step], cs)) <= if step.Key? then {step.key} else {}
    ensures cs != [] && step.Key? ==> step.key in KeysBelow(Prefixed([step], cs))
  {
    if cs != [] {
      var moved := Prefixed([step], cs);
      assert moved[1..] == Prefixed([step], cs[1..]);
      assert moved[0].path[1..] == cs[0].path;
      BelowPrefixed(step, other, cs[1..]);
    }
  }

  /** No item is added at the root itself. */
  ghost predicate RootOnlyChanged<N>(cs: seq<Change<N>>) {
    forall i :: 0 <= i < |cs| && cs[i].path == [] ==> cs[i].Changed?
  }

  lemma {:induction false} NoneAddedBelow<N>(step: Step, cs: seq<Change<N>>)
    requires RootOnlyChanged(cs)
    ensures ItemsAdded(Prefixed([step], cs)) == []
  {
    if cs != [] {
      assert Prefixed([step], cs)[1..] == Prefixed([step], cs[1..]);
      assert forall i :: 0 <= i < |cs[1..]| ==> cs[1..][i] == cs[i + 1];
      NoneAddedBelow(step, cs[1..]);
    }
  }

  /** The changes under one key, seen from that key. */
  ghost function KeyDelta<N>(a: Value<N>, b: map<string, Value<N>>, k: string): seq<Change<N>>
    requires a.Obj?
  {
    if k in a.members && k !in b then [Removed([], a.members[k])]
    else if k !in a.members && k in b then [Added([], b[k])]
    else if k in a.members && k in b then Walk(a.members[k], b[k], [])
    else []
  }

  ghost function ItemDelta<N>(a: Value<N>, b: seq<Value<N>>, i: nat): seq<Change<N>>
    requires a.Arr? && (i < |a.items| || i < |b|)
  {
    if i >= |b| then [Removed([], a.items[i])]
    else if i >= |a.items| then [Added([], b[i])]
    else Walk(a.items[i], b[i], [])
  }

  lemma {:induction false} KeyDeltaPrefixed<N>(a: Value<N>, b: map<string, Value<N>>, k: string)
    requires a.Obj?
    ensures KeyChanges(a, b, k, []) == Prefixed([Key(k)], KeyDelta(a, b, k))
  {
    assert [] + [Key(k)] == [Key(k)] && [Key(k)] + [] == [Key(k)];
    if k in a.members && k in b {
      WalkRelative(a.members[k], b[k], [Key(k)]);
    }
  }

  lemma {:induction false} ItemDeltaPrefixed<N>(a: Value<N>, b: seq<Value<N>>, i: nat)
    requires a.Arr? && (i < |a.items| || i < |b|)
    ensures ItemChanges(a, b, i, []) == Prefixed([Index(i)], ItemDelta(a, b, i))
  {
    assert [] + [Index(i)] == [Index(i)] && [Index(i)] + [] == [Index(i)];
    if i < |a.items| && i < |b| {
      WalkRelative(a.items[i], b[i], [Index(i)]);
    }
  }

  lemma {:induction false} BelowWalkKeys<N>(a: Value<N>, b: map<string, Value<N>>, keys: seq<string>, k: string)
    requires a.Obj? && NoDup(keys)
    ensures Below(WalkKeys(a, b, keys, []), Key(k)) == if k in keys then KeyDelta(a, b, k) else []
    ensures AtRoot(WalkKeys(a, b, keys, [])) == None
    decreases |keys|
  {
    if keys != [] {
      var here, rest := KeyChanges(a, b, keys[0], []), WalkKeys(a, b, keys[1..], []);
      KeyDeltaPrefixed(a, b, keys[0]);
      BelowPrefixed(Key(keys[0]), Key(k), KeyDelta(a, b, keys[0]));
      assert keys == [keys[0]] + keys[1..];
      assert forall i :: 0 <= i < |keys[1..]| ==> keys[1..][i] == keys[i + 1];
      BelowWalkKeys(a, b, keys[1..], k);
      BelowConcat(here, rest, Key(k));
      AtRootConcat(here, rest);
    }
  }

  lemma {:induction false} KeysOfWalkKeys<N>(a: Value<N>, b: map<string, Value<N>>, keys: seq<string>, k: string)
    requires a.Obj?
    ensures KeysBelow(WalkKeys(a, b, keys, [])) <= Elements(keys)
    ensures k in keys && k !in a.members && k in b ==> k in KeysBelow(WalkKeys(a, b, keys, []))
    decreases |keys|
  {
    if keys != [] {
      KeyDeltaPrefixed(a, b, keys[0]);
      BelowPrefixed(Key(keys[0]), Key(k), KeyDelta(a, b, keys[0]));
      assert keys == [keys[0]] + keys[1..];
      KeysOfWalkKeys(a, b, keys[1..], k);
      KeysBelowConcat(KeyChanges(a, b, keys[0], []), WalkKeys(a, b, keys[1..], []));
    }
  }

  /** The walk over the positions from `i` on, if any are left. */
  lemma {:induction false} WalkItemsStep<N>(a: Value<N>, b: seq<Value<N>>, i: nat)
    requires a.Arr?
    ensures i >= |a.items| && i >= |b| ==> WalkItems(a, b, i, []) == []
    ensures i < |a.items| || i < |b| ==>
      WalkItems(a, b, i, []) == Prefixed([Index(i)], ItemDelta(a, b, i)) + WalkItems(a, b, i + 1, [])
  {
    if i < |a.items| || i < |b| {
      ItemDeltaPrefixed(a, b, i);
    }
  }

  lemma {:induction false} BelowFirst<N>(i: nat, j: nat, delta: seq<Change<N>>, rest: seq<Change<N>>)
    ensures Below(Prefixed([Index(i)], delta) + rest, Index(j)) ==
      (if i == j then delta else []) + Below(rest, Index(j))
    ensures AtRoot(Prefixed([Index(i)], delta) + rest) == AtRoot(rest)
  {
    BelowPrefixed(Index(i), Index(j), delta);
    BelowConcat(Prefixed([Index(i)], delta), rest, Index(j));
    AtRootConcat(Prefixed([Index(i)], delta), rest);
  }

  lemma {:induction false} BelowWalkItems<N>(a: Value<N>, b: seq<Value<N>>, i: nat, j: nat)
    requires a.Arr?
    ensures AtRoot(WalkItems(a, b, i, [])) == None
    ensures j < i || (j >= |a.items| && j >= |b|) ==> Below(WalkItems(a, b, i, []), Index(j)) == []
    ensures i <= j && (j < |a.items| || j < |b|) ==> Below(WalkItems(a, b, i, []), Index(j)) == ItemDelta(a, b, j)
    decreases |a.items| + |b| - i
  {
    WalkItemsStep(a, b, i);
    if i < |a.items| || i < |b| {
      BelowWalkItems(a, b, i + 1, j);
      BelowFirst(i, j, ItemDelta(a, b, i), WalkItems(a, b, i + 1, []));
    }
  }

  lemma {:induction false} RootOfWalk<N>(a: Value<N>, b: Value<N>)
    ensures var cs := Walk(a, b, []);
      && RootOnlyChanged(cs)
      && AtRoot(cs) == if (a.Obj? && b.Obj?) || (a.Arr? && b.Arr?) || a == b then None else Some(Changed([], a, b))
  {
    var cs := Walk(a, b, []);
    if a.Obj? && b.Obj? {
      var keys := SortedKeys(a.members.Keys + b.members.Keys);
      SortedIsSorted(a.members.Keys + b.members.Keys);
      BelowWalkKeys(a, b.members, keys, "");
      RootFree(cs);
    } else if a.Arr? && b.Arr? {
      BelowWalkItems(a, b.items, 0, 0);
      RootFree(cs);
    }
  }

  lemma {:induction false} RootFree<N>(cs: seq<Change<N>>)
    requires AtRoot(cs) == None
    ensures forall i :: 0 <= i < |cs| ==> cs[i].path != []
  {
    if cs != [] {
      RootFree(cs[1..]);
      assert forall i :: 1 <= i < |cs| ==> cs[i] == cs[1..][i - 1];
    }
  }

  /** The items of `b` from position `i` on that `a` does not have. */
  function Beyond<N>(a: Value<N>, b: seq<Value<N>>, i: nat): seq<Value<N>>
    requires a.Arr?
  {
    var n := if i < |a.items| then |a.items| else i;
    if n < |b| then b[n..] else []
  }

  lemma {:induction false} BeyondStep<N>(a: Value<N>, b: seq<Value<N>>, i: nat)
    requires a.Arr? && (i < |a.items| || i < |b|)
    ensures Beyond(a, b, i) == (if i >= |a.items| then [b[i]] else []) + Beyond(a, b, i + 1)
  {
  }

  lemma {:induction false} AddedByDelta<N>(a: Value<N>, b: seq<Value<N>>, i: nat)
    requires a.Arr? && (i < |a.items| || i < |b|)
    ensures ItemsAdded(Prefixed([Index(i)], ItemDelta(a, b, i))) == if i >= |a.items| then [b[i]] else []
  {
    if i < |a.items| && i < |b| {
      RootOfWalk(a.items[i], b[i]);
      NoneAddedBelow(Index(i), ItemDelta(a, b, i));
    }
  }

  lemma {:induction false} AddedByWalkItems<N>(a: Value<N>, b: seq<Value<N>>, i: nat)
    requires a.Arr?
    ensures ItemsAdded(WalkItems(a, b, i, [])) == Beyond(a, b, i)
    decreases |a.items| + |b| - i
  {
    WalkItemsStep(a, b, i);
    if i < |a.items| || i < |b| {
      AddedByDelta(a, b, i);
      AddedByWalkItems(a, b, i + 1);
      ItemsAddedConcat(Prefixed([Index(i)], ItemDelta(a, b, i)), WalkItems(a, b, i + 1, []));
      BeyondStep(a, b, i);
    }
  }

  // ----- the main results -------------------------------------------------

  lemma {:induction false} PatchNothing<N>(v: Value<N>)
    ensures Patch(v, []) == v
    decreases v, 1
  {
    match v {
      case Obj(members) =>
        forall k | k in members ensures PatchMember(v, [], k) == Some(members[k]) {
          PatchNothing(members[k]);
        }
      case Arr(items) => PatchNoItems(v, 0);
      case _ =>
    }
  }

  lemma {:induction false} PatchNoItems<N>(v: Value<N>, i: nat)
    requires v.Arr? && i <= |v.items|
    ensures PatchItems(v, [], i) == v.items[i..]
    decreases v, 0, |v.items| - i
  {
    if i < |v.items| {
      PatchNothing(v.items[i]);
      PatchNoItems(v, i + 1);
    }
  }

  /** What patching a member comes to, when the patch turns the object into `target`. */
  ghost predicate Rebuilds<N>(v: Value<N>, cs: seq<Change<N>>, target: map<string, Value<N>>, k: string)
    requires v.Obj?
  {
    PatchMember(v, cs, k) == if k in target then Some(target[k]) else None
  }

  lemma {:induction false} PatchedObject<N>(v: Value<N>, cs: seq<Change<N>>, target: map<string, Value<N>>)
    requires v.Obj? && AtRoot(cs) == None
    requires target.Keys <= v.members.Keys + KeysBelow(cs)
    requires forall k {:trigger Rebuilds(v, cs, target, k)} :: k in v.members.Keys + KeysBelow(cs) ==>
      Rebuilds(v, cs, target, k)
    ensures Patch(v, cs) == Obj(target)
  {
    var patched := map k | k in v.members.Keys + KeysBelow(cs) && PatchMember(v, cs, k).Some? ::
      PatchMember(v, cs, k).value;
    assert Patch(v, cs) == Obj(patched);
    forall k | k in v.members.Keys + KeysBelow(cs)
      ensures PatchMember(v, cs, k) == if k in target then Some(target[k]) else None
    {
      assert Rebuilds(v, cs, target, k);
    }
    assert patched == target;
  }

  /** What the changes between two objects say about one key. */
  lemma {:induction false} ObjectWalkAt<N>(a: Value<N>, b: Value<N>, k: string)
    requires a.Obj? && b.Obj?
    ensures var cs := Walk(a, b, []); var union := a.members.Keys + b.members.Keys;
      && (k in union ==> Below(cs, Key(k)) == KeyDelta(a, b.members, k))
      && AtRoot(cs) == None && KeysBelow(cs) <= union
      && (k in b.members ==> k in a.members.Keys + KeysBelow(cs))
  {
    var union := a.members.Keys + b.members.Keys;
    SortedIsSorted(union);
    SortedMember(union, k);
    BelowWalkKeys(a, b.members, SortedKeys(union), k);
    KeysOfWalkKeys(a, b.members, SortedKeys(union), k);
  }

  lemma {:induction false} ArrayWalkAt<N>(a: Value<N>, b: Value<N>, i: nat)
    requires a.Arr? && b.Arr? && i < |a.items|
    ensures Below(Walk(a, b, []), Index(i)) == ItemDelta(a, b.items, i)
  {
    BelowWalkItems(a, b.items, 0, i);
  }

  /** A delta of a key or an item removes, adds, or leaves the work to the value below. */
  lemma {:induction false} RootOfValueDelta<N>(a: Value<N>, b: Value<N>)
    ensures var root := AtRoot(Walk(a, b, [])); root.Some? ==> root.value.Changed?
  {
    RootOfWalk(a, b);
  }

  /** Applying the changes of `Walk(a, b)` to `a` yields exactly `b`. */
  lemma {:induction false} WalkIsCompletePatch<N>(a: Value<N>, b: Value<N>)
    ensures Patch(a, Walk(a, b, [])) == b
    decreases a, 2, 0
  {
    if a.Obj? && b.Obj? {
      ObjectPatched(a, b);
    } else if a.Arr? && b.Arr? {
      ArrayPatched(a, b);
    } else if a == b {
      PatchNothing(a);
    }
  }

  lemma {:induction false} ObjectPatched<N>(a: Value<N>, b: Value<N>)
    requires a.Obj? && b.Obj?
    ensures Patch(a, Walk(a, b, [])) == b
    decreases a, 1, 0
  {
    var cs := Walk(a, b, []);
    ObjectWalkAt(a, b, "");
    forall k | k in b.members ensures k in a.members.Keys + KeysBelow(cs) {
      ObjectWalkAt(a, b, k);
    }
    forall k {:trigger Rebuilds(a, cs, b.members, k)} | k in a.members.Keys + KeysBelow(cs)
      ensures Rebuilds(a, cs, b.members, k)
    {
      MemberPatched(a, b, k);
    }
    PatchedObject(a, cs, b.members);
  }

  lemma {:induction false} MemberPatched<N>(a: Value<N>, b: Value<N>, k: string)
    requires a.Obj? && b.Obj? && k in a.members.Keys + b.members.Keys
    ensures Rebuilds(a, Walk(a, b, []), b.members, k)
    decreases a, 0, 0
  {
    ObjectWalkAt(a, b, k);
    if k in a.members && k in b.members {
      RootOfValueDelta(a.members[k], b.members[k]);
      WalkIsCompletePatch(a.members[k], b.members[k]);
    }
  }

  lemma {:induction false} PatchedArray<N>(v: Value<N>, cs: seq<Change<N>>, kept: seq<Value<N>>, added: seq<Value<N>>)
    requires v.Arr? && AtRoot(cs) == None && PatchItems(v, cs, 0) == kept && ItemsAdded(cs) == added
    ensures Patch(v, cs) == Arr(kept + added)
  {
  }

  lemma {:induction false} ArrayPatched<N>(a: Value<N>, b: Value<N>)
    requires a.Arr? && b.Arr?
    ensures Patch(a, Walk(a, b, [])) == b
    decreases a, 1, 0
  {
    RootOfWalk(a, b);
    ItemsPatched(a, b, 0);
    AddedByWalkItems(a, b.items, 0);
    var n := if |a.items| < |b.items| then |a.items| else |b.items|;
    assert b.items[0..] == b.items && b.items[|b.items|..] == [];
    PatchedArray(a, Walk(a, b, []), b.items[0..n], b.items[n..]);
    assert b.items == b.items[0..n] + b.items[n..];
  }

  lemma {:induction false} ItemsPatched<N>(a: Value<N>, b: Value<N>, i: nat)
    requires a.Arr? && b.Arr? && i <= |a.items|
    ensures PatchItems(a, Walk(a, b, []), i)
         == if i >= |b.items| then [] else if |a.items| < |b.items| then b.items[i..|a.items|] else b.items[i..]
    decreases a, 0, |a.items| - i
  {
    if i < |a.items| {
      ItemPatched(a, b, i);
      ItemsPatched(a, b, i + 1);
    }
  }

  /** The text of `PatchItems` at one position. */
  lemma {:induction false} ItemPatched<N>(a: Value<N>, b: Value<N>, i: nat)
    requires a.Arr? && b.Arr? && i < |a.items|
    ensures var cs := Walk(a, b, []);
      PatchItems(a, cs, i) == (if i < |b.items| then [b.items[i]] else []) + PatchItems(a, cs, i + 1)
    decreases a, 0, 0
  {
    ArrayWalkAt(a, b, i);
    if i < |b.items| {
      RootOfValueDelta(a.items[i], b.items[i]);
      WalkIsCompletePatch(a.items[i], b.items[i]);
    }
  }

  /** A change with its sides exchanged. */
  function Mirror<N>(c: Change<N>): Change<N> {
    match c
    case Added(p, b) => Removed(p, b)
    case Removed(p, a) => Added(p, a)
    case Changed(p, a, b) => Changed(p, b, a)
  }

  function Mirrored<N>(cs: seq<Change<N>>): seq<Change<N>> {
    seq(|cs|, i requires 0 <= i < |cs| => Mirror(cs[i]))
  }

  lemma {:induction false} MirroredConcat<N>(a: seq<Change<N>>, b: seq<Change<N>>)
    ensures Mirrored(a + b) == Mirrored(a) + Mirrored(b)
  {
  }

  /** The walk the other way is the same list with added and removed, and the two sides, exchanged. */
  lemma {:induction false} WalkMirrors<N>(a: Value<N>, b: Value<N>, path: Path)
    ensures Walk(b, a, path) == Mirrored(Walk(a, b, path))
    decreases a, 1, 0
  {
    if a.Obj? && b.Obj? {
      assert b.members.Keys + a.members.Keys == a.members.Keys + b.members.Keys;
      WalkKeysMirror(a, b, SortedKeys(a.members.Keys + b.members.Keys), path);
    } else if a.Arr? && b.Arr? {
      WalkItemsMirror(a, b, 0, path);
    }
  }

  lemma {:induction false} WalkKeysMirror<N>(a: Value<N>, b: Value<N>, keys: seq<string>, path: Path)
    requires a.Obj? && b.Obj?
    ensures WalkKeys(b, a.members, keys, path) == Mirrored(WalkKeys(a, b.members, keys, path))
    decreases a, 0, |keys|
  {
    if keys != [] {
      var k := keys[0];
      if k in a.members && k in b.members {
        WalkMirrors(a.members[k], b.members[k], path + [Key(k)]);
      }
      WalkKeysMirror(a, b, keys[1..], path);
      MirroredConcat(KeyChanges(a, b.members, k, path), WalkKeys(a, b.members, keys[1..], path));
    }
  }

  lemma {:induction false} WalkItemsMirror<N>(a: Value<N>, b: Value<N>, i: nat, path: Path)
    requires a.Arr? && b.Arr?
    ensures WalkItems(b, a.items, i, path) == Mirrored(WalkItems(a, b.items, i, path))
    decreases a, 0, |a.items| + |b.items| - i
  {
    if i < |a.items| || i < |b.items| {
      if i < |a.items| && i < |b.items| {
        WalkMirrors(a.items[i], b.items[i], path + [Index(i)]);
      }
      WalkItemsMirror(a, b, i + 1, path);
      MirroredConcat(ItemChanges(a, b.items, i, path), WalkItems(a, b.items, i + 1, path));
    }
  }

  /** Nothing is reported exactly between equal values. */
  lemma {:induction false} NoChangeMeansEqual<N>(a: Value<N>, b: Value<N>)
    ensures Walk(a, b, []) == [] <==> a == b
  {
    if Walk(a, b, []) == [] {
      WalkIsCompletePatch(a, b);
      PatchNothing(a);
    } else if a == b {
      WalkSelf(a, []);
    }
  }

  lemma {:induction false} WalkSelf<N>(a: Value<N>, path: Path)
    ensures Walk(a, a, path) == []
    decreases a, 1, 0
  {
    if a.Obj? {
      WalkKeysSelf(a, SortedKeys(a.members.Keys + a.members.Keys), path);
    } else if a.Arr? {
      WalkItemsSelf(a, 0, path);
    }
  }

  lemma {:induction false} WalkKeysSelf<N>(a: Value<N>, keys: seq<string>, path: Path)
    requires a.Obj?
    ensures WalkKeys(a, a.members, keys, path) == []
    decreases a, 0, |keys|
  {
    if keys != [] {
      if keys[0] in a.members {
        WalkSelf(a.members[keys[0]], path + [Key(keys[0])]);
      }
      WalkKeysSelf(a, keys[1..], path);
    }
  }

  lemma {:induction false} WalkItemsSelf<N>(a: Value<N>, i: nat, path: Path)
    requires a.Arr?
    ensures WalkItems(a, a.items, i, path) == []
    decreases a, 0, |a.items| + |a.items| - i
  {
    if i < |a.items| {
      WalkSelf(a.items[i], path + [Index(i)]);
      WalkItemsSelf(a, i + 1, path);
    }
  }
}

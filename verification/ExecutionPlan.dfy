/** Dependency levels (`topoLevels`) and the execution plan built from them. */
module ExecutionPlan {
  import opened Prelude
  import opened Graph

  datatype PlanError =
    | UnknownDependency(channel: Id, dependency: Id)
    | CyclicDependencies(remaining: set<Id>)
    | UnknownProvider(channel: Id)
    | NoProviders

  /** The channels whose id is in `ids`, in declared order. */
  function Select(cs: seq<Channel>, ids: set<Id>): seq<Channel> {
    if cs == [] then []
    else (if cs[0].id in ids then [cs[0]] else []) + Select(cs[1..], ids)
  }

  lemma {:induction false} SelectMember(cs: seq<Channel>, ids: set<Id>, c: Channel)
    ensures c in Select(cs, ids) <==> c in cs && c.id in ids
  {
    if cs != [] {
      assert cs == [cs[0]] + cs[1..];
      SelectMember(cs[1..], ids, c);
    }
  }

  /** The channels first resolved by round `k + 1`, in declared order. */
  ghost function Layer(cs: seq<Channel>, k: nat): seq<Channel> {
    Select(cs, Stage(cs, k + 1) - Stage(cs, k))
  }

  ghost predicate Layers(cs: seq<Channel>, levels: seq<seq<Channel>>) {
    forall k {:trigger levels[k]} :: 0 <= k < |levels| ==> levels[k] == Layer(cs, k) && levels[k] != []
  }

  // ----- topoLevels -------------------------------------------------------

  /** The indegree table counts, for every unresolved channel, its unresolved dependencies. */
  ghost predicate Tracks(cs: seq<Channel>, indegree: map<Id, int>, remaining: set<Id>) {
    forall c :: c in cs ==>
      c.id in indegree && (c.id in remaining ==> indegree[c.id] == CountIn(c.dependsOn, remaining))
  }

  /** Channel `x` depends on `d`, which no channel declares. */
  ghost predicate Dangling(cs: seq<Channel>, x: Id, d: Id) {
    DependsOn(cs, x, d) && d !in Ids(cs)
  }

  method CountDependencies(cs: seq<Channel>) returns (r: Result<map<Id, int>, PlanError>)
    ensures r.Failure? <==> !Known(cs)
    ensures r.Failure? ==> r.error.UnknownDependency? && Dangling(cs, r.error.channel, r.error.dependency)
    ensures r.Success? ==> r.value == EntryCounts(cs)
    ensures r.Success? ==> r.value.Keys == Ids(cs) && (Distinct(cs) ==> Tracks(cs, r.value, Ids(cs)))
  {
    var indegree: map<Id, int> := map[];
    for i := 0 to |cs|
      invariant indegree.Keys == Ids(cs[..i]) && indegree == EntryCounts(cs[..i])
      invariant forall c, d :: c in cs[..i] && d in c.dependsOn ==> d in Ids(cs)
      invariant Distinct(cs) ==> forall c :: c in cs[..i] ==> c.id in indegree && indegree[c.id] == |c.dependsOn|
    {
      var c := cs[i];
      var deg := 0;
      for j := 0 to |c.dependsOn|
        invariant deg == j && forall d :: d in c.dependsOn[..j] ==> d in Ids(cs)
      {
        if c.dependsOn[j] !in Ids(cs) {
          assert c in cs;
          return Failure(UnknownDependency(c.id, c.dependsOn[j]));
        }
        deg := deg + 1;
      }
      assert cs[..i + 1] == cs[..i] + [c];
      assert forall e :: e in cs[..i + 1] <==> e in cs[..i] || e == c;
      indegree := indegree[c.id := deg];
    }
    assert cs[..|cs|] == cs;
    forall c | c in cs ensures CountIn(c.dependsOn, Ids(cs)) == |c.dependsOn| {
      CountInAll(c.dependsOn, Ids(cs));
    }
    r := Success(indegree);
  }

  /** Decrement one channel's indegree, once per occurrence of a ready id. */
  method DecrementChannel(c: Channel, ready: set<Id>, indegree: map<Id, int>) returns (next: map<Id, int>)
    requires c.id in indegree
    ensures next.Keys == indegree.Keys
    ensures forall x :: x in next ==> next[x] == indegree[x] - (if x == c.id then CountIn(c.dependsOn, ready) else 0)
  {
    next := indegree;
    for j := 0 to |c.dependsOn|
      invariant next.Keys == indegree.Keys
      invariant forall x :: x in next ==>
        next[x] == indegree[x] - (if x == c.id then CountIn(c.dependsOn[..j], ready) else 0)
    {
      assert c.dependsOn[..j + 1] == c.dependsOn[..j] + [c.dependsOn[j]];
      CountInSnoc(c.dependsOn[..j], c.dependsOn[j], ready);
      if c.dependsOn[j] in ready {
        next := next[c.id := next[c.id] - 1];
      }
    }
    assert c.dependsOn[..|c.dependsOn|] == c.dependsOn;
  }

  /** The indegree a channel must have after the sweep. */
  ghost predicate Swept(c: Channel, ready: set<Id>, remaining: set<Id>, indegree: map<Id, int>, next: map<Id, int>)
    requires c.id in indegree && c.id in next
  {
    c.id in remaining ==> next[c.id] == indegree[c.id] - CountIn(c.dependsOn, ready)
  }

  /** One sweep over the channels still remaining. */
  method Decrement(cs: seq<Channel>, ready: set<Id>, remaining: set<Id>, indegree: map<Id, int>)
    returns (next: map<Id, int>)
    requires indegree.Keys == Ids(cs)
    ensures next.Keys == indegree.Keys
    ensures Distinct(cs) ==>
      forall j {:trigger cs[j]} :: 0 <= j < |cs| ==> Swept(cs[j], ready, remaining, indegree, next)
  {
    next := indegree;
    for i := 0 to |cs|
      invariant next.Keys == indegree.Keys
      invariant Distinct(cs) ==> forall j {:trigger cs[j]} :: i <= j < |cs| ==> next[cs[j].id] == indegree[cs[j].id]
      invariant Distinct(cs) ==>
        forall j {:trigger cs[j]} :: 0 <= j < i ==> Swept(cs[j], ready, remaining, indegree, next)
    {
      if cs[i].id in remaining {
        next := DecrementChannel(cs[i], ready, next);
      }
    }
  }

  lemma {:induction false} SweepTracks(cs: seq<Channel>, ready: set<Id>, remaining: set<Id>, indegree: map<Id, int>,
      next: map<Id, int>)
    requires indegree.Keys == next.Keys == Ids(cs) && ready <= remaining
    requires Tracks(cs, indegree, remaining)
    requires forall j {:trigger cs[j]} :: 0 <= j < |cs| ==> Swept(cs[j], ready, remaining - ready, indegree, next)
    ensures Tracks(cs, next, remaining - ready)
  {
    forall c | c in cs && c.id in remaining - ready ensures next[c.id] == CountIn(c.dependsOn, remaining - ready) {
      var j :| 0 <= j < |cs| && cs[j] == c;
      CountInSplit(c.dependsOn, remaining, ready);
    }
  }

  /** With a faithful indegree table, the ready ids are those the next round resolves. */
  lemma {:induction false} ReadyIsNextStage(cs: seq<Channel>, indegree: map<Id, int>, k: nat)
    requires Distinct(cs) && indegree.Keys == Ids(cs) && Known(cs)
    requires Tracks(cs, indegree, Ids(cs) - Stage(cs, k))
    ensures ReadyIds(Ids(cs) - Stage(cs, k), indegree) == Stage(cs, k + 1) - Stage(cs, k)
  {
    var remaining := Ids(cs) - Stage(cs, k);
    forall c | c in cs && c.id in remaining ensures indegree[c.id] == 0 <==> c.id in Stage(cs, k + 1) {
      StageOf(cs, c, k + 1);
      CountInZero(c.dependsOn, remaining);
      assert Met(c, Stage(cs, k)) <==> forall d :: d in c.dependsOn ==> d !in remaining;
    }
    StageKnown(cs, k + 1);
  }

  function ReadyIds(remaining: set<Id>, indegree: map<Id, int>): set<Id>
    requires remaining <= indegree.Keys
  {
    set x | x in remaining && indegree[x] == 0
  }

  /** What holds at the head of the loop over levels. */
  ghost predicate Progress(cs: seq<Channel>, levels: seq<seq<Channel>>, remaining: set<Id>, indegree: map<Id, int>) {
    && remaining == Ids(cs) - Stage(cs, |levels|)
    && Tracks(cs, indegree, remaining)
    && Layers(cs, levels)
  }

  lemma {:induction false} Advance(cs: seq<Channel>, levels: seq<seq<Channel>>, remaining: set<Id>,
                                   indegree: map<Id, int>, next: map<Id, int>)
    requires Distinct(cs) && Known(cs) && indegree.Keys == next.Keys == Ids(cs)
    requires Progress(cs, levels, remaining, indegree)
    requires var ready := ReadyIds(remaining, indegree);
      Select(cs, ready) != [] &&
      forall j {:trigger cs[j]} :: 0 <= j < |cs| ==> Swept(cs[j], ready, remaining - ready, indegree, next)
    ensures var ready := ReadyIds(remaining, indegree);
      Progress(cs, levels + [Select(cs, ready)], remaining - ready, next)
  {
    var k, ready := |levels|, ReadyIds(remaining, indegree);
    ReadyIsNextStage(cs, indegree, k);
    StageGrows(cs, k, k + 1);
    SweepTracks(cs, ready, remaining, indegree, next);
    assert remaining - ready == Ids(cs) - Stage(cs, k + 1);
    LayersSnoc(cs, levels, Select(cs, ready));
  }

  lemma {:induction false} LayersSnoc(cs: seq<Channel>, levels: seq<seq<Channel>>, level: seq<Channel>)
    requires Layers(cs, levels) && level != []
    requires level == Layer(cs, |levels|)
    ensures Layers(cs, levels + [level])
  {
  }

  /**
   * Kahn's algorithm, level by level.  With distinct ids it fails exactly on an
   * unknown dependency or a cycle, names exactly the channels that reach a
   * cycle, and otherwise returns the layers.
   */
  /** Every id counts as free of dependencies, as an id does whose last channel has none. */
  predicate NothingCounted(cs: seq<Channel>) {
    forall x :: x in EntryCounts(cs) ==> EntryCounts(cs)[x] == 0
  }

  method TopoLevels(cs: seq<Channel>) returns (r: Result<seq<seq<Channel>>, PlanError>)
    ensures r.Failure? && r.error.UnknownDependency? <==> !Known(cs)
    ensures r.Failure? && r.error.UnknownDependency? ==> Dangling(cs, r.error.channel, r.error.dependency)
    ensures Distinct(cs) && Known(cs) ==> (r.Failure? <==> Cyclic(cs))
    ensures Distinct(cs) && r.Failure? && r.error.CyclicDependencies? ==>
              r.error.remaining != {} && r.error.remaining <= Ids(cs) &&
              forall x :: x in Ids(cs) ==> (x in r.error.remaining <==> ReachesCycle(cs, x))
    ensures Distinct(cs) && r.Success? ==> Layers(cs, r.value) && Stage(cs, |r.value|) == Ids(cs)
    ensures Known(cs) && cs != [] && NothingCounted(cs) ==> r == Success([cs])
  {
    var counted := CountDependencies(cs);
    if counted.Failure? {
      return Failure(counted.error);
    }
    var indegree := counted.value;
    var levels: seq<seq<Channel>> := [];
    var remaining := Ids(cs);
    assert cs != [] ==> cs[0] in cs && cs[0].id in Ids(cs);
    while remaining != {}
      invariant remaining <= Ids(cs) && indegree.Keys == Ids(cs)
      invariant Distinct(cs) ==> Progress(cs, levels, remaining, indegree)
      invariant NothingCounted(cs) && cs != [] ==>
        if levels == [] then remaining == Ids(cs) && indegree == EntryCounts(cs) else levels == [cs] && remaining == {}
      decreases remaining
    {
      var readyIds := ReadyIds(remaining, indegree);
      var ready := Select(cs, readyIds);
      if NothingCounted(cs) && levels == [] {
        SelectAll(cs, readyIds);
      }
      if |ready| == 0 {
        if Distinct(cs) {
          ReadyIsNextStage(cs, indegree, |levels|);
          NothingReady(cs, |levels|);
        }
        return Failure(CyclicDependencies(remaining));
      }
      SelectMember(cs, readyIds, ready[0]);
      var next := Decrement(cs, readyIds, remaining - readyIds, indegree);
      if Distinct(cs) {
        Advance(cs, levels, remaining, indegree, next);
      }
      levels, remaining, indegree := levels + [ready], remaining - readyIds, next;
    }
    if Distinct(cs) {
      AllResolved(cs, |levels|);
    }
    return Success(levels);
  }

  lemma {:induction false} NothingReady(cs: seq<Channel>, k: nat)
    requires Distinct(cs) && Known(cs) && Ids(cs) - Stage(cs, k) != {}
    requires Layer(cs, k) == []
    ensures Cyclic(cs)
    ensures forall x :: x in Ids(cs) ==> (x !in Stage(cs, k) <==> ReachesCycle(cs, x))
  {
    StageGrows(cs, k, k + 1);
    forall c | c in cs ensures c.id !in Stage(cs, k + 1) - Stage(cs, k) {
      SelectMember(cs, Stage(cs, k + 1) - Stage(cs, k), c);
    }
    StageKnown(cs, k + 1);
    assert Stage(cs, k + 1) == Stage(cs, k);
    AcyclicIffResolved(cs, k);
    forall x | x in Ids(cs) ensures x !in Stage(cs, k) <==> ReachesCycle(cs, x) {
      UnresolvedReachCycles(cs, k, x);
    }
  }

  lemma {:induction false} AllResolved(cs: seq<Channel>, k: nat)
    requires Distinct(cs) && Known(cs) && Ids(cs) - Stage(cs, k) == {}
    ensures Stage(cs, k) == Ids(cs) && !Cyclic(cs)
  {
    StageGrows(cs, k, k + 1);
    StageKnown(cs, k);
    StageKnown(cs, k + 1);
    assert forall x :: x in Ids(cs) - Stage(cs, k) <==> x in Ids(cs) && x !in Stage(cs, k);
    assert Stage(cs, k + 1) == Stage(cs, k);
    AcyclicIffResolved(cs, k);
  }

  // ----- What the levels mean ---------------------------------------------

  lemma {:induction false} LayerMember(cs: seq<Channel>, levels: seq<seq<Channel>>, k: nat, c: Channel)
    requires Layers(cs, levels) && k < |levels|
    ensures c in levels[k] <==> c in cs && c.id in Stage(cs, k + 1) && c.id !in Stage(cs, k)
  {
    assert levels[k] == Layer(cs, k);
    SelectMember(cs, Stage(cs, k + 1) - Stage(cs, k), c);
  }

  /** The round that first resolves a channel of stage `n`. */
  lemma {:induction false} FirstStage(cs: seq<Channel>, x: Id, n: nat) returns (k: nat)
    requires x in Stage(cs, n)
    ensures k < n && x in Stage(cs, k + 1) && x !in Stage(cs, k)
    decreases n
  {
    if x in Stage(cs, n - 1) {
      k := FirstStage(cs, x, n - 1);
    } else {
      k := n - 1;
    }
  }

  lemma {:induction false} LevelOf(cs: seq<Channel>, levels: seq<seq<Channel>>, c: Channel, n: nat) returns (k: nat)
    requires Layers(cs, levels) && c in cs && n <= |levels| && c.id in Stage(cs, n)
    ensures k < n && c in levels[k]
  {
    k := FirstStage(cs, c.id, n);
    LayerMember(cs, levels, k, c);
  }

  /** Every dependency of a channel sits in a strictly earlier level. */
  ghost predicate Ordered(levels: seq<seq<Channel>>) {
    forall k, c, d :: 0 <= k < |levels| && c in levels[k] && d in c.dependsOn ==> d in Ids(Flatten(levels[..k]))
  }

  lemma {:induction false} LayersOrdered(cs: seq<Channel>, levels: seq<seq<Channel>>)
    requires Distinct(cs) && Known(cs) && Layers(cs, levels)
    ensures Ordered(levels)
  {
    forall k, c, d | 0 <= k < |levels| && c in levels[k] && d in c.dependsOn
      ensures d in Ids(Flatten(levels[..k]))
    {
      LayerMember(cs, levels, k, c);
      StageOf(cs, c, k + 1);
      StageKnown(cs, k);
      var e :| e in cs && e.id == d;
      var j := LevelOf(cs, levels, e, k);
      assert levels[..k][j] == levels[j];
      InFlatten(levels[..k], j, e);
    }
  }

  lemma {:induction false} InFlatten<T>(xss: seq<seq<T>>, k: nat, x: T)
    requires k < |xss| && x in xss[k]
    ensures x in Flatten(xss)
  {
    if k > 0 {
      assert xss[1..][k - 1] == xss[k];
      InFlatten(xss[1..], k - 1, x);
    }
  }

  /** A channel's level index is the length of its longest dependency chain. */
  lemma {:induction false} LevelIsLongestChain(cs: seq<Channel>, levels: seq<seq<Channel>>, k: nat, c: Channel)
    requires Distinct(cs) && Known(cs) && Layers(cs, levels) && k < |levels| && c in levels[k]
    ensures exists p :: Chain(cs, p) && p[0] == c.id && |p| == k + 1
    ensures forall p :: Chain(cs, p) && p[0] == c.id ==> |p| <= k + 1
  {
    LayerMember(cs, levels, k, c);
    var q := LongChain(cs, c.id, k);
    forall p | Chain(cs, p) && p[0] == c.id ensures |p| <= k + 1 {
      ChainBound(cs, p, k + 1);
    }
  }

  /** A rank that strictly falls along every dependency: any other valid layering. */
  ghost predicate Ranks(cs: seq<Channel>, rank: map<Id, nat>) {
    && Ids(cs) <= rank.Keys
    && forall c, d :: c in cs && d in c.dependsOn && d in rank ==> rank[d] < rank[c.id]
  }

  /** No valid layering puts a channel earlier, so none has fewer levels. */
  lemma {:induction false} LayersAreFewest(cs: seq<Channel>, levels: seq<seq<Channel>>, rank: map<Id, nat>, n: nat)
    requires Distinct(cs) && Known(cs) && Layers(cs, levels) && Ranks(cs, rank)
    requires forall c :: c in cs ==> rank[c.id] < n
    ensures forall k, c :: 0 <= k < |levels| && c in levels[k] ==> c in cs && k <= rank[c.id]
    ensures |levels| <= n
  {
    forall k, c | 0 <= k < |levels| && c in levels[k] ensures c in cs && k <= rank[c.id] {
      LayerMember(cs, levels, k, c);
      RankBoundsLevel(cs, rank, c, k);
    }
    if |levels| > 0 {
      var k := |levels| - 1;
      var c := levels[k][0];
      assert c in levels[k];
      LayerMember(cs, levels, k, c);
    }
  }

  lemma {:induction false} RankBoundsLevel(cs: seq<Channel>, rank: map<Id, nat>, c: Channel, k: nat)
    requires Distinct(cs) && Known(cs) && Ranks(cs, rank) && c in cs && c.id !in Stage(cs, k)
    ensures k <= rank[c.id]
    decreases k
  {
    if k > 0 {
      StageOf(cs, c, k);
      var d :| d in c.dependsOn && d !in Stage(cs, k - 1);
      assert d in Ids(cs);
      var e :| e in cs && e.id == d;
      RankBoundsLevel(cs, rank, e, k - 1);
    }
  }

  lemma {:induction false} SelectUnion(cs: seq<Channel>, a: set<Id>, b: set<Id>)
    requires a !! b
    ensures multiset(Select(cs, a + b)) == multiset(Select(cs, a)) + multiset(Select(cs, b))
  {
    if cs != [] {
      SelectUnion(cs[1..], a, b);
    }
  }

  lemma {:induction false} SelectAll(cs: seq<Channel>, ids: set<Id>)
    requires Ids(cs) <= ids
    ensures Select(cs, ids) == cs
  {
    if cs != [] {
      assert cs[0] in cs;
      forall c | c in cs[1..] ensures c.id in ids {
        assert c in cs;
      }
      SelectAll(cs[1..], ids);
    }
  }

  /** The members of the levels before `k`. */
  ghost function MembersBefore(levels: seq<seq<Channel>>, k: nat): multiset<Channel>
    requires k <= |levels|
  {
    if k == 0 then multiset{} else MembersBefore(levels, k - 1) + multiset(levels[k - 1])
  }

  lemma {:induction false} MembersBeforeFlatten(levels: seq<seq<Channel>>, k: nat)
    requires k <= |levels|
    ensures MembersBefore(levels, k) == multiset(Flatten(levels[..k]))
  {
    if k > 0 {
      MembersBeforeFlatten(levels, k - 1);
      assert levels[..k] == levels[..k - 1] + [levels[k - 1]];
      FlattenSnoc(levels[..k - 1], levels[k - 1]);
    }
  }

  /** The members of the levels before `k`, against those of stage `k`. */
  ghost predicate SameMembers(cs: seq<Channel>, levels: seq<seq<Channel>>, k: nat)
    requires k <= |levels|
  {
    MembersBefore(levels, k) == multiset(Select(cs, Stage(cs, k)))
  }

  lemma {:induction false} FlattenedLayers(cs: seq<Channel>, levels: seq<seq<Channel>>, k: nat)
    requires k <= |levels| && forall i: nat {:trigger IsLayer(cs, levels, i)} :: i < |levels| ==> IsLayer(cs, levels, i)
    ensures SameMembers(cs, levels, k)
  {
    if k == 0 {
      NoLevelsYet(cs, levels);
    } else {
      FlattenedLayers(cs, levels, k - 1);
      assert IsLayer(cs, levels, k - 1);
      OneLevelMore(cs, levels, k - 1);
    }
  }

  ghost predicate IsLayer(cs: seq<Channel>, levels: seq<seq<Channel>>, k: nat) {
    k < |levels| && levels[k] == Layer(cs, k)
  }

  lemma {:induction false} NoLevelsYet(cs: seq<Channel>, levels: seq<seq<Channel>>)
    ensures SameMembers(cs, levels, 0)
  {
    NothingSelected(cs);
  }

  lemma {:induction false} OneLevelMore(cs: seq<Channel>, levels: seq<seq<Channel>>, k: nat)
    requires k < |levels| && IsLayer(cs, levels, k) && SameMembers(cs, levels, k)
    ensures SameMembers(cs, levels, k + 1)
  {
    LayerAdds(cs, k);
  }

  lemma {:induction false} LayerAdds(cs: seq<Channel>, k: nat)
    ensures multiset(Select(cs, Stage(cs, k + 1))) == multiset(Select(cs, Stage(cs, k))) + multiset(Layer(cs, k))
  {
    StageGrows(cs, k, k + 1);
    SelectUnion(cs, Stage(cs, k), Stage(cs, k + 1) - Stage(cs, k));
    assert Stage(cs, k) + (Stage(cs, k + 1) - Stage(cs, k)) == Stage(cs, k + 1);
  }

  lemma {:induction false} NothingSelected(cs: seq<Channel>)
    ensures Select(cs, {}) == []
  {
    if cs != [] {
      NothingSelected(cs[1..]);
    }
  }

  /** The levels hold every channel exactly once. */
  lemma {:induction false} LayersPartition(cs: seq<Channel>, levels: seq<seq<Channel>>)
    requires Distinct(cs) && Layers(cs, levels) && Stage(cs, |levels|) == Ids(cs)
    ensures multiset(Flatten(levels)) == multiset(cs)
    ensures Distinct(Flatten(levels))
    ensures forall j, k, c :: 0 <= j < k < |levels| && c in levels[j] ==> c !in levels[k]
  {
    forall i: nat | i < |levels| ensures IsLayer(cs, levels, i) {
    }
    FlattenedLayers(cs, levels, |levels|);
    MembersBeforeFlatten(levels, |levels|);
    assert levels[..|levels|] == levels;
    SelectAll(cs, Ids(cs));
    DistinctRearranged(Flatten(levels), cs);
    LayersDisjoint(cs, levels);
  }

  lemma {:induction false} OneLevelOnly(cs: seq<Channel>, levels: seq<seq<Channel>>, j: nat, k: nat, c: Channel)
    requires Layers(cs, levels) && j < k < |levels| && c in levels[j]
    ensures c !in levels[k]
  {
    LayerMember(cs, levels, j, c);
    LayerMember(cs, levels, k, c);
    StageGrows(cs, j + 1, k);
  }

  lemma {:induction false} LayersDisjoint(cs: seq<Channel>, levels: seq<seq<Channel>>)
    requires Layers(cs, levels)
    ensures forall j, k, c :: 0 <= j < k < |levels| && c in levels[j] ==> c !in levels[k]
  {
    forall j, k, c | 0 <= j < k < |levels| && c in levels[j] ensures c !in levels[k] {
      OneLevelOnly(cs, levels, j, k, c);
    }
  }

  lemma {:induction false} DistinctRearranged(a: seq<Channel>, b: seq<Channel>)
    requires Distinct(b) && multiset(a) == multiset(b)
    ensures Distinct(a)
  {
    forall i, j | 0 <= i < j < |a| ensures a[i].id != a[j].id {
      if a[i].id == a[j].id {
        assert a[i] in multiset(a) && a[j] in multiset(a);
        SameChannel(b, a[i], a[j]);
        assert a == a[..i] + [a[i]] + a[i + 1..];
        assert a[i + 1..][j - i - 1] == a[j];
        assert multiset(a)[a[i]] >= 2;
        OnceEach(b, a[i]);
      }
    }
  }

  lemma {:induction false} OnceEach(cs: seq<Channel>, c: Channel)
    requires Distinct(cs)
    ensures multiset(cs)[c] <= 1
  {
    if cs != [] {
      var rest := cs[1..];
      assert cs == [cs[0]] + rest;
      OnceEach(rest, c);
      if c == cs[0] {
        assert forall j :: 0 <= j < |rest| ==> rest[j] == cs[j + 1];
        assert c !in rest;
      }
    }
  }

  // ----- providers --------------------------------------------------------

  /** A channel as declared; a provider named by the empty string counts as none. */
  datatype ChannelSpec = ChannelSpec(id: Id, dependsOn: seq<Id>, provider: Option<Id>)

  predicate NamesProvider(c: ChannelSpec) {
    c.provider.Some? && c.provider.value != ""
  }

  /** The first of `ids` that is declared. */
  function FirstDeclared(ids: seq<Id>, declared: seq<Id>): Option<Id> {
    if ids == [] then None else if ids[0] in declared then Some(ids[0]) else FirstDeclared(ids[1..], declared)
  }

  /** The provider a channel gets. */
  function ProviderOf(declared: seq<Id>, allowed: Option<seq<Id>>, c: ChannelSpec): Result<Id, PlanError> {
    if NamesProvider(c) then
      if c.provider.value in declared then Success(c.provider.value) else Failure(UnknownProvider(c.id))
    else
      var first := if allowed.Some? then FirstDeclared(allowed.value, declared) else None;
      if first.Some? then Success(first.value)
      else if declared == [] then Failure(NoProviders)
      else Success(declared[0])
  }

  method ResolveProvider(declared: seq<Id>, allowed: Option<seq<Id>>, c: ChannelSpec) returns (r: Result<Id, PlanError>)
    ensures r == ProviderOf(declared, allowed, c)
  {
    if NamesProvider(c) {
      return if c.provider.value in declared then Success(c.provider.value) else Failure(UnknownProvider(c.id));
    }
    if allowed.Some? && |allowed.value| > 0 {
      var ids := allowed.value;
      for i := 0 to |ids|
        invariant FirstDeclared(ids, declared) == FirstDeclared(ids[i..], declared)
      {
        if ids[i] in declared {
          return Success(ids[i]);
        }
        assert ids[i..][1..] == ids[i + 1..];
      }
    }
    return if declared == [] then Failure(NoProviders) else Success(declared[0]);
  }

  ghost predicate IsFirstDeclared(ids: seq<Id>, declared: seq<Id>, p: Id) {
    exists i :: 0 <= i < |ids| && ids[i] == p && p in declared && forall j :: 0 <= j < i ==> ids[j] !in declared
  }

  lemma {:induction false} FirstDeclaredIsFirst(ids: seq<Id>, declared: seq<Id>)
    ensures FirstDeclared(ids, declared).None? <==> forall x :: x in ids ==> x !in declared
    ensures FirstDeclared(ids, declared).Some? ==> IsFirstDeclared(ids, declared, FirstDeclared(ids, declared).value)
  {
    if ids != [] {
      var rest := ids[1..];
      assert ids == [ids[0]] + rest;
      FirstDeclaredIsFirst(rest, declared);
      if ids[0] !in declared && FirstDeclared(rest, declared).Some? {
        var p := FirstDeclared(rest, declared).value;
        var i :| 0 <= i < |rest| && rest[i] == p && forall j :: 0 <= j < i ==> rest[j] !in declared;
        assert ids[i + 1] == p;
        assert forall j :: 0 < j < i + 1 ==> ids[j] == rest[j - 1];
      }
    }
  }

  /**
   * A channel's own provider comes first and must be declared; then the first
   * allowed one that is declared; then the first declared.  Whatever is chosen is
   * declared, and nothing is chosen only for an unknown name or without providers.
   */
  lemma {:induction false} ProviderPrecedence(declared: seq<Id>, allowed: Option<seq<Id>>, c: ChannelSpec)
    ensures var r := ProviderOf(declared, allowed, c);
      var named := c.provider.Some? && c.provider.value != "";
      && (r.Success? ==> r.value in declared)
      && (named ==>
        (r.Success? <==> c.provider.value in declared) && (r.Success? ==> r.value == c.provider.value))
      && (!named ==> (r.Success? <==> declared != []))
      && (!named && allowed.Some? && (exists x :: x in allowed.value && x in declared) ==>
            IsFirstDeclared(allowed.value, declared, r.value))
      && (!named && r.Success? && (allowed.None? || forall x :: x in allowed.value ==> x !in declared) ==>
            r.value == declared[0])
  {
    if allowed.Some? {
      FirstDeclaredIsFirst(allowed.value, declared);
    }
  }

  /** The channels with their providers, or the first failure in declared order. */
  function Resolved(declared: seq<Id>, allowed: Option<seq<Id>>, cs: seq<ChannelSpec>):
      (r: Result<seq<Channel>, PlanError>)
    ensures r.Success? ==> |r.value| == |cs| && forall i :: 0 <= i < |cs| ==>
      r.value[i].id == cs[i].id && r.value[i].dependsOn == cs[i].dependsOn &&
        ProviderOf(declared, allowed, cs[i]) == Success(r.value[i].provider)
    ensures r.Failure? ==> exists i :: 0 <= i < |cs| && ProviderOf(declared, allowed, cs[i]) == Failure(r.error)
  {
    if cs == [] then Success([])
    else
      var front := Resolved(declared, allowed, cs[..|cs| - 1]);
      if front.Failure? then front
      else
        var c := cs[|cs| - 1];
        var p := ProviderOf(declared, allowed, c);
        if p.Failure? then Failure(p.error) else Success(front.value + [Channel(c.id, c.dependsOn, p.value)])
  }

  method ResolveChannels(declared: seq<Id>, allowed: Option<seq<Id>>, cs: seq<ChannelSpec>)
    returns (r: Result<seq<Channel>, PlanError>)
    ensures r == Resolved(declared, allowed, cs)
  {
    var channels: seq<Channel> := [];
    for i := 0 to |cs|
      invariant Resolved(declared, allowed, cs[..i]) == Success(channels)
    {
      var p := ResolveProvider(declared, allowed, cs[i]);
      assert cs[..i + 1][..i] == cs[..i];
      if p.Failure? {
        FailureStays(declared, allowed, cs, i + 1);
        return Failure(p.error);
      }
      channels := channels + [Channel(cs[i].id, cs[i].dependsOn, p.value)];
    }
    assert cs[..|cs|] == cs;
    return Success(channels);
  }

  lemma {:induction false} FailureStays(declared: seq<Id>, allowed: Option<seq<Id>>, cs: seq<ChannelSpec>, n: nat)
    requires n <= |cs| && Resolved(declared, allowed, cs[..n]).Failure?
    ensures Resolved(declared, allowed, cs) == Resolved(declared, allowed, cs[..n])
    decreases |cs|
  {
    if n == |cs| {
      assert cs[..n] == cs;
    } else {
      assert cs[..|cs| - 1][..n] == cs[..n];
      FailureStays(declared, allowed, cs[..|cs| - 1], n);
    }
  }

  /** The distinct ids, each where it first occurs. */
  function FirstUses(ids: seq<Id>): seq<Id> {
    if ids == [] then []
    else
      var uses := FirstUses(ids[..|ids| - 1]);
      if ids[|ids| - 1] in uses then uses else uses + [ids[|ids| - 1]]
  }

  ghost predicate FirstAt(ids: seq<Id>, x: Id, k: nat) {
    k < |ids| && ids[k] == x && x !in ids[..k]
  }

  /** What stands earlier in `uses` first occurs earlier in `ids`. */
  ghost predicate OccurInOrder(ids: seq<Id>, uses: seq<Id>) {
    forall i: nat, j: nat, k: nat, l: nat ::
      i < j < |uses| && FirstAt(ids, uses[i], k) && FirstAt(ids, uses[j], l) ==> k < l
  }

  /** They are the ids, each once, in the order of their first occurrences. */
  lemma {:induction false} FirstUsesInOrder(ids: seq<Id>)
    ensures NoDup(FirstUses(ids)) && forall x :: x in FirstUses(ids) <==> x in ids
    ensures OccurInOrder(ids, FirstUses(ids))
  {
    if ids != [] {
      var front, last := ids[..|ids| - 1], ids[|ids| - 1];
      assert ids == front + [last];
      FirstUsesInOrder(front);
      var older, uses := FirstUses(front), FirstUses(ids);
      forall i: nat, j: nat, k: nat, l: nat | i < j < |uses| && FirstAt(ids, uses[i], k) && FirstAt(ids, uses[j], l)
        ensures k < l
      {
        FirstAtFront(front, last, uses[i], k);
        FirstAtFront(front, last, uses[j], l);
        assert uses[i] == older[i] && older[i] in older && FirstAt(front, older[i], k);
        if j < |older| {
          assert uses[j] == older[j] && older[j] in older && FirstAt(front, older[j], l);
        } else {
          assert uses[j] == last && last !in older && l == |front|;
        }
      }
    }
  }

  lemma {:induction false} FirstAtFront(front: seq<Id>, last: Id, x: Id, k: nat)
    requires FirstAt(front + [last], x, k)
    ensures x in front ==> FirstAt(front, x, k)
    ensures x !in front ==> k == |front|
  {
    assert k <= |front| && (front + [last])[..k] == front[..k];
    assert front[..|front|] == front;
  }

  /** The providers in use, channel by channel and then the synthesis. */
  function ProviderList(cs: seq<Channel>, synthesis: Option<Channel>): seq<Id> {
    seq(|cs|, i requires 0 <= i < |cs| => cs[i].provider) + (if synthesis.Some? then [synthesis.value.provider] else [])
  }

  /** The providers of the channels and the synthesis, each once, as they first come into use. */
  method UsedProviders(cs: seq<Channel>, synthesis: Option<Channel>) returns (used: seq<Id>)
    ensures used == FirstUses(ProviderList(cs, synthesis))
    ensures NoDup(used)
    ensures forall p :: p in used <==>
      (exists c :: c in cs && c.provider == p) || (synthesis.Some? && synthesis.value.provider == p)
  {
    used := [];
    ghost var all := ProviderList(cs, synthesis);
    for i := 0 to |cs|
      invariant used == FirstUses(all[..i])
    {
      assert all[..i + 1][..i] == all[..i];
      if cs[i].provider !in used {
        used := used + [cs[i].provider];
      }
    }
    if synthesis.Some? {
      assert all[..|all| - 1] == all[..|cs|];
      if synthesis.value.provider !in used {
        used := used + [synthesis.value.provider];
      }
    }
    assert all[..|cs|] == all || synthesis.Some?;
    FirstUsesInOrder(all);
    ListedProviders(cs, synthesis);
  }

  lemma {:induction false} ListedProviders(cs: seq<Channel>, synthesis: Option<Channel>)
    ensures forall p :: p in ProviderList(cs, synthesis) <==>
      (exists c :: c in cs && c.provider == p) || (synthesis.Some? && synthesis.value.provider == p)
  {
    var all := ProviderList(cs, synthesis);
    forall c | c in cs ensures c.provider in all {
      var i :| 0 <= i < |cs| && cs[i] == c;
      assert all[i] == c.provider;
    }
    if synthesis.Some? {
      assert all[|cs|] == synthesis.value.provider;
    }
  }

  // ----- buildExecutionPlan -----------------------------------------------

  /** The parts of a pipeline definition the plan is built from; of a provider only its id matters here. */
  datatype Pipeline = Pipeline(
    providers: seq<Id>,
    channels: seq<ChannelSpec>,
    synthesis: Option<ChannelSpec>,
    recursionEnabled: bool,
    maxDepth: Option<nat>,
    carryForwardStrategy: Option<string>)

  datatype Options = Options(providers: Option<seq<Id>>, depth: Option<nat>)

  datatype Plan = Plan(
    channels: seq<Channel>,
    levels: seq<seq<Channel>>,
    isDag: bool,
    topoOrder: seq<Id>,
    synthesis: Option<Channel>,
    maxDepth: nat,
    recursionEnabled: bool,
    carryForwardStrategy: Option<string>,
    providers: seq<Id>)

  predicate HasDependencies(cs: seq<Channel>) {
    exists c :: c in cs && c.dependsOn != []
  }

  function IdList(cs: seq<Channel>): (r: seq<Id>) {
    seq(|cs|, i requires 0 <= i < |cs| => cs[i].id)
  }

  /** What a run relies on: each channel once, after everything it depends on. */
  ghost predicate Sound(plan: Plan) {
    && multiset(Flatten(plan.levels)) == multiset(plan.channels)
    && Distinct(Flatten(plan.levels))
    && Ordered(plan.levels)
  }

  /** The synthesis with its provider, if there is one. */
  function ResolvedSynthesis(spec: Pipeline, allowed: Option<seq<Id>>): Result<Option<Channel>, PlanError> {
    match spec.synthesis
    case None => Success(None)
    case Some(c) =>
      var p := ProviderOf(spec.providers, allowed, c);
      if p.Failure? then Failure(p.error) else Success(Some(Channel(c.id, c.dependsOn, p.value)))
  }

  method LayerChannels(cs: seq<Channel>) returns (r: Result<(bool, seq<seq<Channel>>), PlanError>)
    ensures Distinct(cs) ==> (r.Success? <==> Known(cs) && !Cyclic(cs))
    ensures r.Success? ==>
      var (isDag, levels) := r.value;
      && (isDag <==> HasDependencies(cs))
      && (Distinct(cs) ==> Layers(cs, levels) && Stage(cs, |levels|) == Ids(cs))
      && (!isDag ==> Flatten(levels) == cs && |levels| <= 1)
  {
    if HasDependencies(cs) {
      var layered := TopoLevels(cs);
      if layered.Failure? {
        return Failure(layered.error);
      }
      if Distinct(cs) {
        AllStagedAcyclic(cs, |layered.value|);
      }
      return Success((true, layered.value));
    }
    var levels := if |cs| > 0 then [cs] else [];
    FlatLayers(cs, levels);
    return Success((false, levels));
  }

  /**
   * Providers are resolved first, in declared order; then the levels, which for
   * distinct ids exist exactly when the graph is known and acyclic; then the
   * provider of the synthesis.
   */
  method BuildExecutionPlan(spec: Pipeline, options: Options) returns (r: Result<Plan, PlanError>)
    ensures var resolved := Resolved(spec.providers, options.providers, spec.channels);
      resolved.Failure? ==> r == Failure(resolved.error)
    ensures var resolved := Resolved(spec.providers, options.providers, spec.channels);
      resolved.Success? && Distinct(resolved.value) ==>
        (r.Success? <==>
          Known(resolved.value) && !Cyclic(resolved.value) && ResolvedSynthesis(spec, options.providers).Success?)
    ensures r.Success? ==>
      var plan := r.value;
      && Resolved(spec.providers, options.providers, spec.channels) == Success(plan.channels)
      && ResolvedSynthesis(spec, options.providers) == Success(plan.synthesis)
      && plan.recursionEnabled == spec.recursionEnabled && plan.carryForwardStrategy == spec.carryForwardStrategy
      && plan.topoOrder == IdList(Flatten(plan.levels))
      && (options.depth.Some? ==> plan.maxDepth == options.depth.value)
      && (options.depth.None? && spec.maxDepth.Some? ==> plan.maxDepth == spec.maxDepth.value)
      && (options.depth.None? && spec.maxDepth.None? ==> plan.maxDepth == 1)
      && (Distinct(plan.channels) ==> Sound(plan) && Layers(plan.channels, plan.levels))
      && (!plan.isDag <==> forall c :: c in plan.channels ==> c.dependsOn == [])
      && (!plan.isDag ==> Flatten(plan.levels) == plan.channels && |plan.levels| <= 1)
    ensures r.Success? ==> r.value.providers == FirstUses(ProviderList(r.value.channels, r.value.synthesis))
    ensures r.Success? ==> NoDup(r.value.providers) && forall p :: p in r.value.providers <==>
      || (exists c :: c in r.value.channels && c.provider == p)
      || (r.value.synthesis.Some? && r.value.synthesis.value.provider == p)
  {
    var resolved := ResolveChannels(spec.providers, options.providers, spec.channels);
    if resolved.Failure? {
      return Failure(resolved.error);
    }
    var cs := resolved.value;
    var layered := LayerChannels(cs);
    if layered.Failure? {
      return Failure(layered.error);
    }
    var (isDag, levels) := layered.value;
    if Distinct(cs) {
      LayersPartition(cs, levels);
      LayersOrdered(cs, levels);
    }
    var synthesis: Option<Channel> := None;
    if spec.synthesis.Some? {
      var c := spec.synthesis.value;
      var p := ResolveProvider(spec.providers, options.providers, c);
      if p.Failure? {
        return Failure(p.error);
      }
      synthesis := Some(Channel(c.id, c.dependsOn, p.value));
    }
    var maxDepth: nat :=
      if options.depth.Some? then options.depth.value else if spec.maxDepth.Some? then spec.maxDepth.value else 1;
    var used := UsedProviders(cs, synthesis);
    return Success(Plan(cs, levels, isDag, IdList(Flatten(levels)), synthesis, maxDepth, spec.recursionEnabled,
                        spec.carryForwardStrategy, used));
  }

  lemma {:induction false} AllStagedAcyclic(cs: seq<Channel>, k: nat)
    requires Distinct(cs) && Known(cs) && Stage(cs, k) == Ids(cs)
    ensures !Cyclic(cs)
  {
    AllResolved(cs, k);
  }

  /** A pipeline without dependencies is one level in declared order. */
  lemma {:induction false} FlatLayers(cs: seq<Channel>, levels: seq<seq<Channel>>)
    requires !HasDependencies(cs)
    requires levels == if |cs| > 0 then [cs] else []
    ensures Layers(cs, levels) && Stage(cs, |levels|) == Ids(cs) && Flatten(levels) == cs
    ensures Known(cs)
    ensures !Cyclic(cs)
  {
    assert forall c :: c in cs ==> Met(c, {});
    assert Stage(cs, 0) == {};
    StageKnown(cs, 1);
    forall c | c in cs ensures c.id in Stage(cs, 1) {
      ResolvableMember(cs, {}, c.id);
    }
    assert Stage(cs, 1) == Ids(cs);
    SelectAll(cs, Ids(cs));
    assert Stage(cs, 1) - Stage(cs, 0) == Ids(cs);
    if |cs| > 0 {
      assert Flatten([cs]) == cs + Flatten([]);
    }
    assert forall x, y :: !DependsOn(cs, x, y);
    assert forall p :: Chain(cs, p) && |p| > 1 ==> DependsOn(cs, p[0], p[0 + 1]);
  }
}

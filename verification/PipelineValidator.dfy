/** Graph validation: unknown dependencies and cycles. */
module PipelineValidator {
  import opened Prelude
  import opened Graph
  import ExecutionPlan

  datatype GraphIssue =
    | UnknownDependency(channel: Id, dependency: Id)
    | CyclicDependencies(among: seq<Id>)

  /** One issue per occurrence of an unknown id in a `dependsOn` list. */
  function UnknownIn(c: Channel, deps: seq<Id>, known: set<Id>): (r: seq<GraphIssue>)
    ensures r == [] <==> Elements(deps) <= known
  {
    if deps == [] then []
    else
      assert deps == [deps[0]] + deps[1..];
      (if deps[0] in known then [] else [UnknownDependency(c.id, deps[0])]) + UnknownIn(c, deps[1..], known)
  }

  function UnknownIssues(cs: seq<Channel>, known: set<Id>): seq<GraphIssue> {
    if cs == [] then [] else UnknownIn(cs[0], cs[0].dependsOn, known) + UnknownIssues(cs[1..], known)
  }

  lemma {:induction false} UnknownIssuesEmpty(cs: seq<Channel>, known: set<Id>)
    ensures UnknownIssues(cs, known) == [] <==> forall c :: c in cs ==> Elements(c.dependsOn) <= known
  {
    if cs != [] {
      assert cs == [cs[0]] + cs[1..];
      UnknownIssuesEmpty(cs[1..], known);
    }
  }

  lemma {:induction false} KnownMeansNoUnknown(cs: seq<Channel>)
    ensures UnknownIssues(cs, Ids(cs)) == [] <==> Known(cs)
  {
    UnknownIssuesEmpty(cs, Ids(cs));
    assert Known(cs) <==> forall c :: c in cs ==> Elements(c.dependsOn) <= Ids(cs);
  }

  lemma {:induction false} UnknownInSnoc(c: Channel, deps: seq<Id>, d: Id, known: set<Id>)
    ensures UnknownIn(c, deps + [d], known)
         == UnknownIn(c, deps, known) + (if d in known then [] else [UnknownDependency(c.id, d)])
  {
    if deps == [] {
      assert [] + [d] == [d];
    } else {
      assert (deps + [d])[1..] == deps[1..] + [d];
      UnknownInSnoc(c, deps[1..], d, known);
    }
  }

  lemma {:induction false} UnknownIssuesSnoc(cs: seq<Channel>, c: Channel, known: set<Id>)
    ensures UnknownIssues(cs + [c], known) == UnknownIssues(cs, known) + UnknownIn(c, c.dependsOn, known)
  {
    if cs == [] {
      assert [] + [c] == [c];
      assert UnknownIssues([], known) == [];
    } else {
      assert (cs + [c])[1..] == cs[1..] + [c];
      UnknownIssuesSnoc(cs[1..], c, known);
    }
  }

  method FindUnknownIn(c: Channel, known: set<Id>) returns (issues: seq<GraphIssue>)
    ensures issues == UnknownIn(c, c.dependsOn, known)
  {
    issues := [];
    for j := 0 to |c.dependsOn|
      invariant issues == UnknownIn(c, c.dependsOn[..j], known)
    {
      assert c.dependsOn[..j + 1] == c.dependsOn[..j] + [c.dependsOn[j]];
      UnknownInSnoc(c, c.dependsOn[..j], c.dependsOn[j], known);
      if c.dependsOn[j] !in known {
        issues := issues + [UnknownDependency(c.id, c.dependsOn[j])];
      }
    }
    assert c.dependsOn[..|c.dependsOn|] == c.dependsOn;
  }

  method FindUnknown(cs: seq<Channel>) returns (issues: seq<GraphIssue>)
    ensures issues == UnknownIssues(cs, Ids(cs))
    ensures issues == [] <==> Known(cs)
  {
    var known := Ids(cs);
    issues := [];
    for i := 0 to |cs|
      invariant issues == UnknownIssues(cs[..i], known)
    {
      var here := FindUnknownIn(cs[i], known);
      assert cs[..i + 1] == cs[..i] + [cs[i]];
      UnknownIssuesSnoc(cs[..i], cs[i], known);
      issues := issues + here;
    }
    assert cs[..|cs|] == cs;
    KnownMeansNoUnknown(cs);
  }

  // ----- the queue --------------------------------------------------------

  /** True of every input: the queue holds distinct, unremoved ids whose count has reached zero. */
  ghost predicate QueueOk(cs: seq<Channel>, queue: seq<Id>, removed: set<Id>, indegree: map<Id, int>) {
    && indegree.Keys == Ids(cs)
    && NoDup(queue)
    && removed <= Ids(cs)
    && (forall x :: x in queue ==> x in Ids(cs) && x !in removed && indegree[x] <= 0)
  }

  /** With distinct ids, the count of an unremoved channel: its entries less its removed dependencies. */
  ghost predicate Counted(c: Channel, queue: seq<Id>, removed: set<Id>, indegree: map<Id, int>) {
    c.id in indegree && (c.id !in removed ==>
      indegree[c.id] == |c.dependsOn| - |Elements(c.dependsOn) * removed| && (c.id in queue <==> indegree[c.id] == 0))
  }

  /** A removed channel repeats no dependency, and Kahn's rounds resolve it too. */
  ghost predicate Resolved(cs: seq<Channel>, removed: set<Id>) {
    (exists n: nat :: StagedBy(cs, removed, n)) && RepeatFree(cs, removed)
  }

  ghost predicate StagedBy(cs: seq<Channel>, removed: set<Id>, n: nat) {
    removed <= Stage(cs, n)
  }

  ghost predicate RepeatFree(cs: seq<Channel>, removed: set<Id>) {
    forall c :: c in cs && c.id in removed ==> NoDup(c.dependsOn)
  }

  method InitialCounts(cs: seq<Channel>) returns (indegree: map<Id, int>, queue: seq<Id>)
    requires Known(cs)
    ensures QueueOk(cs, queue, {}, indegree)
    ensures Distinct(cs) ==> forall c :: c in cs ==> Counted(c, queue, {}, indegree)
  {
    var keys: seq<Id>;
    indegree, keys := CountEntries(cs);
    assert forall x :: x in keys ==> x in Elements(keys);
    queue := [];
    for i := 0 to |keys|
      invariant NoDup(queue)
      invariant forall x :: x in queue <==> x in keys[..i] && indegree[x] == 0
    {
      assert keys[..i + 1] == keys[..i] + [keys[i]];
      if indegree[keys[i]] == 0 {
        queue := queue + [keys[i]];
      }
    }
    assert keys[..|keys|] == keys;
    forall c | Distinct(cs) && c in cs ensures Counted(c, queue, {}, indegree) {
      CountsEveryEntry(cs, c);
      assert c.id in Elements(keys);
      assert Elements(c.dependsOn) * {} == {};
    }
  }

  /** The ids of the channels, each once. */
  ghost predicate KeysOf(cs: seq<Channel>, keys: seq<Id>) {
    Ids(cs) == Elements(keys) && NoDup(keys)
  }

  lemma {:induction false} OneKeyMore(cs: seq<Channel>, c: Channel, keys: seq<Id>)
    requires KeysOf(cs, keys)
    ensures KeysOf(cs + [c], if c.id in Ids(cs) then keys else keys + [c.id])
  {
    OneIdMore(cs, c);
    assert Elements(keys + [c.id]) == Elements(keys) + {c.id};
    assert forall i :: 0 <= i < |keys| ==> keys[i] in Elements(keys);
  }

  lemma {:induction false} CountsEveryId(cs: seq<Channel>)
    ensures EntryCounts(cs).Keys == Ids(cs)
  {
    if cs != [] {
      var front, last := cs[..|cs| - 1], cs[|cs| - 1];
      assert cs == front + [last];
      CountsEveryId(front);
      OneIdMore(front, last);
    }
  }

  lemma {:induction false} CountsEveryEntry(cs: seq<Channel>, c: Channel)
    requires Distinct(cs) && c in cs
    ensures c.id in EntryCounts(cs) && EntryCounts(cs)[c.id] == |c.dependsOn|
  {
    var front, last := cs[..|cs| - 1], cs[|cs| - 1];
    if c != last {
      var i :| 0 <= i < |cs| && cs[i] == c;
      assert front[i] == c;
      CountsEveryEntry(front, c);
      SameChannel(cs, c, if c.id == last.id then last else c);
    }
  }

  lemma {:induction false} OneIdMore(cs: seq<Channel>, c: Channel)
    ensures Ids(cs + [c]) == Ids(cs) + {c.id}
  {
    assert forall x :: x in cs + [c] <==> x in cs || x == c;
  }

  /** The indegree map, with its keys in insertion order. */
  method CountEntries(cs: seq<Channel>) returns (indegree: map<Id, int>, keys: seq<Id>)
    ensures indegree == EntryCounts(cs) && indegree.Keys == Ids(cs) && KeysOf(cs, keys)
  {
    indegree := map[];
    keys := [];
    for i := 0 to |cs|
      invariant indegree == EntryCounts(cs[..i]) && KeysOf(cs[..i], keys)
    {
      assert cs[..i + 1] == cs[..i] + [cs[i]];
      OneKeyMore(cs[..i], cs[i], keys);
      CountsEveryId(cs[..i]);
      if cs[i].id !in indegree {
        keys := keys + [cs[i].id];
      }
      indegree := indegree[cs[i].id := |cs[i].dependsOn|];
    }
    assert cs[..|cs|] == cs;
    CountsEveryId(cs);
  }

  /** What the sweep after removing `id` does to the channel `c`. */
  ghost predicate Relaxed(c: Channel, id: Id, removed: set<Id>, queue: seq<Id>, indegree: map<Id, int>,
                          queue': seq<Id>, indegree': map<Id, int>)
    requires c.id in indegree && c.id in indegree'
  {
    c.id !in removed ==>
      && indegree'[c.id] == indegree[c.id] - (if id in c.dependsOn then 1 else 0)
      && (c.id in queue' <==> c.id in queue || (id in c.dependsOn && indegree[c.id] == 1))
  }

  ghost predicate AllRelaxed(cs: seq<Channel>, id: Id, removed: set<Id>, queue: seq<Id>, indegree: map<Id, int>,
                             queue': seq<Id>, indegree': map<Id, int>) {
    forall j {:trigger cs[j]} :: 0 <= j < |cs| ==>
      cs[j].id in indegree && cs[j].id in indegree' && Relaxed(cs[j], id, removed, queue, indegree, queue', indegree')
  }

  method Release(cs: seq<Channel>, id: Id, removed: set<Id>, queue: seq<Id>, indegree: map<Id, int>)
    returns (queue': seq<Id>, indegree': map<Id, int>)
    requires QueueOk(cs, queue, removed, indegree)
    ensures QueueOk(cs, queue', removed, indegree')
    ensures Distinct(cs) ==> AllRelaxed(cs, id, removed, queue, indegree, queue', indegree')
  {
    queue', indegree' := queue, indegree;
    for i := 0 to |cs|
      invariant QueueOk(cs, queue', removed, indegree')
      invariant Distinct(cs) ==> forall j {:trigger cs[j]} :: i <= j < |cs| ==>
        indegree'[cs[j].id] == indegree[cs[j].id] && (cs[j].id in queue' <==> cs[j].id in queue)
      invariant Distinct(cs) ==> forall j {:trigger cs[j]} :: 0 <= j < i ==>
        Relaxed(cs[j], id, removed, queue, indegree, queue', indegree')
    {
      if cs[i].id !in removed && id in cs[i].dependsOn {
        var next := indegree'[cs[i].id] - 1;
        indegree' := indegree'[cs[i].id := next];
        if next == 0 {
          queue' := queue' + [cs[i].id];
        }
      }
    }
  }

  lemma {:induction false} ReleaseCounts(cs: seq<Channel>, c: Channel, id: Id, removed: set<Id>, queue: seq<Id>,
      indegree: map<Id, int>, queue': seq<Id>, indegree': map<Id, int>)
    requires id !in removed && id !in queue && c.id != id && c.id in indegree && c.id in indegree'
    requires Counted(c, [id] + queue, removed, indegree)
    requires Relaxed(c, id, removed + {id}, queue, indegree, queue', indegree')
    ensures Counted(c, queue', removed + {id}, indegree')
  {
    var deps := Elements(c.dependsOn);
    if c.id !in removed {
      if id in c.dependsOn {
        assert deps * (removed + {id}) == deps * removed + {id};
        ElementsSize(c.dependsOn);
        SubsetSize(deps * (removed + {id}), deps);
        assert indegree'[c.id] == |c.dependsOn| - |deps * (removed + {id})|;
      } else {
        assert deps * (removed + {id}) == deps * removed;
      }
      assert c.id in [id] + queue <==> c.id in queue;
    }
  }

  /** The removed channel had every dependency removed before it, each listed once. */
  lemma {:induction false} RemovedIsResolved(cs: seq<Channel>, c: Channel, removed: set<Id>)
    requires Distinct(cs) && c in cs && c.id !in removed && Resolved(cs, removed)
    requires |c.dependsOn| == |Elements(c.dependsOn) * removed|
    ensures Resolved(cs, removed + {c.id})
  {
    AllRemoved(c, removed);
    var n: nat :| StagedBy(cs, removed, n);
    StagedNext(cs, c, removed, n);
    OneMoreRepeatFree(cs, c, removed);
  }

  lemma {:induction false} OneMoreRepeatFree(cs: seq<Channel>, c: Channel, removed: set<Id>)
    requires Distinct(cs) && c in cs && NoDup(c.dependsOn) && RepeatFree(cs, removed)
    ensures RepeatFree(cs, removed + {c.id})
  {
    forall e | e in cs && e.id in removed + {c.id} ensures NoDup(e.dependsOn) {
      if e.id == c.id {
        SameChannel(cs, c, e);
      }
    }
  }

  lemma {:induction false} AllRemoved(c: Channel, removed: set<Id>)
    requires |c.dependsOn| == |Elements(c.dependsOn) * removed|
    ensures NoDup(c.dependsOn) && Elements(c.dependsOn) <= removed
  {
    var deps := Elements(c.dependsOn);
    ElementsSize(c.dependsOn);
    SubsetSize(deps * removed, deps);
    assert deps * removed == deps;
  }

  lemma {:induction false} StagedNext(cs: seq<Channel>, c: Channel, removed: set<Id>, n: nat)
    requires Distinct(cs) && c in cs && Elements(c.dependsOn) <= removed && StagedBy(cs, removed, n)
    ensures StagedBy(cs, removed + {c.id}, n + 1)
  {
    forall d | d in c.dependsOn ensures d in Stage(cs, n) {
      assert d in Elements(c.dependsOn);
    }
    StageOf(cs, c, n + 1);
    StageGrows(cs, n, n + 1);
  }

  /** What holds at the head of the queue loop when ids are distinct. */
  ghost predicate Consistent(cs: seq<Channel>, queue: seq<Id>, removed: set<Id>, indegree: map<Id, int>) {
    && (forall j {:trigger cs[j]} :: 0 <= j < |cs| ==> Counted(cs[j], queue, removed, indegree))
    && Resolved(cs, removed)
  }

  lemma {:induction false} PopKeepsConsistent(cs: seq<Channel>, id: Id, removed: set<Id>, queue: seq<Id>,
      indegree: map<Id, int>, queue': seq<Id>, indegree': map<Id, int>)
    requires Distinct(cs) && Consistent(cs, [id] + queue, removed, indegree)
    requires QueueOk(cs, [id] + queue, removed, indegree) && QueueOk(cs, queue', removed + {id}, indegree')
    requires AllRelaxed(cs, id, removed + {id}, queue, indegree, queue', indegree')
    ensures Consistent(cs, queue', removed + {id}, indegree')
  {
    assert ([id] + queue)[0] == id;
    assert id in [id] + queue;
    assert forall j :: 0 <= j < |queue| ==> queue[j] == ([id] + queue)[j + 1];
    var i :| 0 <= i < |cs| && cs[i].id == id;
    RemovedIsResolved(cs, cs[i], removed);
    forall j {:trigger cs[j]} | 0 <= j < |cs| ensures Counted(cs[j], queue', removed + {id}, indegree') {
      if cs[j].id != id {
        ReleaseCounts(cs, cs[j], id, removed, queue, indegree, queue', indegree');
      }
    }
  }

  lemma {:induction false} PopKeepsOk(cs: seq<Channel>, queue: seq<Id>, removed: set<Id>, indegree: map<Id, int>)
    requires QueueOk(cs, queue, removed, indegree) && queue != []
    ensures queue[0] !in removed && queue[0] in Ids(cs)
    ensures QueueOk(cs, queue[1..], removed + {queue[0]}, indegree)
  {
    assert queue[0] in queue;
    assert forall j :: 0 <= j < |queue| - 1 ==> queue[1..][j] == queue[j + 1];
  }

  lemma {:induction false} IdsSize(cs: seq<Channel>)
    ensures |Ids(cs)| <= |cs|
    ensures |Ids(cs)| == |cs| <==> Distinct(cs)
  {
    var ids := ExecutionPlan.IdList(cs);
    ElementsSize(ids);
    assert Elements(ids) == Ids(cs) by {
      forall c | c in cs ensures c.id in ids {
        var i :| 0 <= i < |cs| && cs[i] == c;
        assert ids[i] == c.id;
      }
    }
    assert NoDup(ids) <==> Distinct(cs) by {
      assert forall i :: 0 <= i < |cs| ==> ids[i] == cs[i].id;
    }
  }

  /** When the queue runs dry on a repeat-free graph, what is left is what reaches a cycle. */
  lemma {:induction false} LeftoverReachesCycle(cs: seq<Channel>, removed: set<Id>, indegree: map<Id, int>)
    requires Distinct(cs) && Known(cs) && NoRepeats(cs) && removed <= Ids(cs)
    requires Consistent(cs, [], removed, indegree)
    ensures forall x :: x in Ids(cs) ==> (x !in removed <==> ReachesCycle(cs, x))
    ensures removed == Ids(cs) <==> !Cyclic(cs)
  {
    var k := SomeRoundIdles(cs);
    RemovedAreStaged(cs, removed, indegree, k);
    AcyclicIffResolved(cs, k);
    forall x | x in Ids(cs) ensures x !in removed <==> ReachesCycle(cs, x) {
      UnresolvedReachCycles(cs, k, x);
    }
  }

  lemma {:induction false} RemovedAreStaged(cs: seq<Channel>, removed: set<Id>, indegree: map<Id, int>, k: nat)
    requires Distinct(cs) && Known(cs) && NoRepeats(cs) && removed <= Ids(cs)
    requires Consistent(cs, [], removed, indegree) && !Grows(cs, k)
    ensures removed == Stage(cs, k)
  {
    forall x | x in Ids(cs) - removed ensures FeedsOn(cs, x, Ids(cs) - removed) {
      var c :| c in cs && c.id == x;
      UnremovedFeeds(cs, c, removed, indegree);
    }
    StuckForever(cs, Ids(cs) - removed, k);
    StageKnown(cs, k);
    var n: nat :| StagedBy(cs, removed, n);
    EarlierThanStall(cs, n, k);
  }

  lemma {:induction false} EarlierThanStall(cs: seq<Channel>, n: nat, k: nat)
    requires !Grows(cs, k)
    ensures Stage(cs, n) <= Stage(cs, k)
  {
    StageGrows(cs, n, k + n);
    StageStalls(cs, k, k + n);
  }

  lemma {:induction false} RemovedRepeatsNothing(cs: seq<Channel>, removed: set<Id>)
    requires Resolved(cs, removed) && removed == Ids(cs)
    ensures NoRepeats(cs)
  {
  }

  lemma {:induction false} UnremovedFeeds(cs: seq<Channel>, c: Channel, removed: set<Id>, indegree: map<Id, int>)
    requires Known(cs) && NoRepeats(cs) && c in cs && c.id !in removed
    requires Consistent(cs, [], removed, indegree)
    ensures FeedsOn(cs, c.id, Ids(cs) - removed)
  {
    var j :| 0 <= j < |cs| && cs[j] == c;
    assert Counted(cs[j], [], removed, indegree);
    var deps := Elements(c.dependsOn);
    ElementsSize(c.dependsOn);
    assert deps * removed != deps;
    var d :| d in deps && d !in removed;
    assert DependsOn(cs, c.id, d);
  }

  /** The ids of the channels outside `removed`, one entry per channel. */
  function Unremoved(cs: seq<Channel>, removed: set<Id>): (r: seq<Id>)
    ensures forall x :: x in r <==> x in Ids(cs) && x !in removed
  {
    if cs == [] then []
    else
      assert cs == [cs[0]] + cs[1..];
      (if cs[0].id in removed then [] else [cs[0].id]) + Unremoved(cs[1..], removed)
  }

  /** One turn of the queue loop: shift the front id, release what depends on it. */
  method ShiftAndRelease(cs: seq<Channel>, queue: seq<Id>, removed: set<Id>, indegree: map<Id, int>)
    returns (queue': seq<Id>, indegree': map<Id, int>)
    requires queue != [] && QueueOk(cs, queue, removed, indegree)
    requires Distinct(cs) ==> Consistent(cs, queue, removed, indegree)
    ensures queue[0] in Ids(cs) && queue[0] !in removed
    ensures QueueOk(cs, queue', removed + {queue[0]}, indegree')
    ensures Distinct(cs) ==> Consistent(cs, queue', removed + {queue[0]}, indegree')
  {
    var id, rest := queue[0], queue[1..];
    assert queue == [id] + rest;
    PopKeepsOk(cs, queue, removed, indegree);
    queue', indegree' := Release(cs, id, removed + {id}, rest, indegree);
    if Distinct(cs) {
      PopKeepsConsistent(cs, id, removed, rest, indegree, queue', indegree');
    }
  }

  /** `removed` is everything when the graph is sound; on a repeat-free graph it misses what reaches a cycle. */
  ghost predicate ExactlyOrderable(cs: seq<Channel>, removed: set<Id>) {
    && removed <= Ids(cs)
    && (removed == Ids(cs) <==> NoRepeats(cs) && !Cyclic(cs))
    && (NoRepeats(cs) ==> forall x :: x in Ids(cs) ==> (x !in removed <==> ReachesCycle(cs, x)))
  }

  lemma {:induction false} Drained(cs: seq<Channel>, removed: set<Id>, indegree: map<Id, int>)
    requires Distinct(cs) && Known(cs) && removed <= Ids(cs)
    requires Consistent(cs, [], removed, indegree)
    ensures ExactlyOrderable(cs, removed)
  {
    if NoRepeats(cs) {
      LeftoverReachesCycle(cs, removed, indegree);
    } else if removed == Ids(cs) {
      RemovedRepeatsNothing(cs, removed);
    }
  }

  /** The queue loop: removes, one by one, the ids whose dependencies are all removed. */
  method DrainQueue(cs: seq<Channel>) returns (removed: set<Id>, resolved: nat)
    requires Known(cs)
    ensures resolved == |removed| && removed <= Ids(cs)
    ensures Distinct(cs) ==> ExactlyOrderable(cs, removed)
  {
    var indegree, queue := InitialCounts(cs);
    resolved := 0;
    removed := {};
    if Distinct(cs) {
      NothingRemoved(cs, queue, indegree);
    }
    while |queue| > 0
      invariant QueueOk(cs, queue, removed, indegree) && resolved == |removed|
      invariant Distinct(cs) ==> Consistent(cs, queue, removed, indegree)
      decreases Ids(cs) - removed
    {
      var id := queue[0];
      queue, indegree := ShiftAndRelease(cs, queue, removed, indegree);
      removed := removed + {id};
      resolved := resolved + 1;
    }
    if Distinct(cs) {
      assert queue == [];
      Drained(cs, removed, indegree);
    }
  }

  lemma {:induction false} NothingRemoved(cs: seq<Channel>, queue: seq<Id>, indegree: map<Id, int>)
    requires forall c :: c in cs ==> Counted(c, queue, {}, indegree)
    ensures Consistent(cs, queue, {}, indegree)
  {
    assert StagedBy(cs, {}, 0);
  }

  /**
   * No issue is reported exactly when ids are distinct, every dependency is
   * known, no `dependsOn` repeats an id and the graph is acyclic.
   */
  method DetectGraphIssues(cs: seq<Channel>) returns (issues: seq<GraphIssue>)
    ensures issues == [] <==> Distinct(cs) && Known(cs) && NoRepeats(cs) && !Cyclic(cs)
    ensures !Known(cs) ==> issues == UnknownIssues(cs, Ids(cs))
    ensures Known(cs) && issues != [] ==> |issues| == 1 && issues[0].CyclicDependencies?
    ensures Known(cs) && issues != [] && Distinct(cs) && NoRepeats(cs) ==>
      forall x :: x in issues[0].among <==> x in Ids(cs) && ReachesCycle(cs, x)
  {
    issues := FindUnknown(cs);
    if |issues| > 0 {
      return;
    }
    var removed, resolved := DrainQueue(cs);
    IdsSize(cs);
    SubsetSize(removed, Ids(cs));
    if resolved < |cs| {
      issues := [CyclicDependencies(Unremoved(cs, removed))];
    }
  }

  /**
   * A validated pipeline always plans.  On distinct ids the two checks decide
   * alike exactly when no dependency is repeated or the planner has its own
   * reason to refuse: what the validator alone refuses is a repeat in an
   * otherwise sound graph.
   */
  method ValidateThenPlan(cs: seq<Channel>)
    returns (issues: seq<GraphIssue>, plan: Result<seq<seq<Channel>>, ExecutionPlan.PlanError>)
    ensures issues == [] ==> plan.Success?
    ensures Distinct(cs) ==> ((issues == [] <==> plan.Success?) <==> NoRepeats(cs) || Cyclic(cs) || !Known(cs))
  {
    issues := DetectGraphIssues(cs);
    plan := ExecutionPlan.TopoLevels(cs);
  }

  const REPEATED := [Channel("a", [], "p"), Channel("b", ["a", "a"], "p")]

  /** The two checks do part: this pipeline is sound but for a repeated dependency. */
  lemma {:induction false} RepeatedDependency()
    ensures Distinct(REPEATED) && Known(REPEATED) && !Cyclic(REPEATED) && !NoRepeats(REPEATED)
  {
    var b := REPEATED[1];
    assert b in REPEATED && b.dependsOn[0] == b.dependsOn[1];
    assert Ids(REPEATED) == {"a", "b"} by {
      assert REPEATED[0] in REPEATED && REPEATED[1] in REPEATED;
    }
    assert forall x, y :: DependsOn(REPEATED, x, y) ==> x == "b" && y == "a";
    forall p | Chain(REPEATED, p) && |p| > 1 ensures p[0] != p[|p| - 1] {
      assert DependsOn(REPEATED, p[0], p[1]);
      assert DependsOn(REPEATED, p[|p| - 2], p[|p| - 1]);
    }
  }
}

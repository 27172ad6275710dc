/** The `dependsOn` graph of a pipeline: chains, cycles and the stages of Kahn's algorithm. */
module Graph {
  import opened Prelude

  /** A planned channel: its id, the ids it depends on, and the provider resolved for it. */
  datatype Channel = Channel(id: Id, dependsOn: seq<Id>, provider: Id)

  function Ids(cs: seq<Channel>): set<Id> {
    set c | c in cs :: c.id
  }

  ghost predicate Distinct(cs: seq<Channel>) {
    forall i, j :: 0 <= i < j < |cs| ==> cs[i].id != cs[j].id
  }

  ghost predicate Known(cs: seq<Channel>) {
    forall c, d :: c in cs && d in c.dependsOn ==> d in Ids(cs)
  }

  ghost predicate NoRepeats(cs: seq<Channel>) {
    forall c :: c in cs ==> NoDup(c.dependsOn)
  }

  /** The entries counted per id; a repeated id keeps its last count. */
  function EntryCounts(cs: seq<Channel>): map<Id, int> {
    if cs == [] then map[]
    else
      var last := cs[|cs| - 1];
      EntryCounts(cs[..|cs| - 1])[last.id := |last.dependsOn|]
  }

  ghost predicate DependsOn(cs: seq<Channel>, x: Id, y: Id) {
    exists c :: c in cs && c.id == x && y in c.dependsOn
  }

  /** A walk along dependencies, starting at a channel of the pipeline. */
  ghost predicate Chain(cs: seq<Channel>, p: seq<Id>) {
    && |p| > 0
    && p[0] in Ids(cs)
    && forall i :: 0 <= i < |p| - 1 ==> DependsOn(cs, p[i], p[i + 1])
  }

  /** A chain from `x` whose last node already occurs at position `i`. */
  ghost predicate Lasso(cs: seq<Channel>, x: Id, p: seq<Id>, i: nat) {
    Chain(cs, p) && p[0] == x && i < |p| - 1 && p[i] == p[|p| - 1]
  }

  ghost predicate ReachesCycle(cs: seq<Channel>, x: Id) {
    exists p, i :: Lasso(cs, x, p, i)
  }

  /** Some channel depends on itself through one or more dependencies. */
  ghost predicate Cyclic(cs: seq<Channel>) {
    exists p :: Chain(cs, p) && |p| > 1 && p[0] == p[|p| - 1]
  }

  predicate Met(c: Channel, done: set<Id>) {
    forall d :: d in c.dependsOn ==> d in done
  }

  /** The ids whose dependencies are all in `done`. */
  function Resolvable(cs: seq<Channel>, done: set<Id>): set<Id> {
    if cs == [] then {}
    else (if Met(cs[0], done) then {cs[0].id} else {}) + Resolvable(cs[1..], done)
  }

  lemma {:induction false} ResolvableMember(cs: seq<Channel>, done: set<Id>, x: Id)
    ensures x in Resolvable(cs, done) <==> exists c :: c in cs && c.id == x && Met(c, done)
  {
    if cs != [] {
      var rest := cs[1..];
      ResolvableMember(rest, done, x);
      assert cs == [cs[0]] + rest;
      if x in Resolvable(rest, done) {
        var c :| c in rest && c.id == x && Met(c, done);
        assert c in cs;
      }
    }
  }

  /** The ids resolved by the first `k` rounds of Kahn's algorithm. */
  ghost function Stage(cs: seq<Channel>, k: nat): set<Id> {
    if k == 0 then {} else Resolvable(cs, Stage(cs, k - 1))
  }

  lemma {:induction false} StageKnown(cs: seq<Channel>, k: nat)
    ensures Stage(cs, k) <= Ids(cs)
  {
    if k > 0 {
      forall x | x in Stage(cs, k) ensures x in Ids(cs) {
        ResolvableMember(cs, Stage(cs, k - 1), x);
      }
    }
  }

  lemma {:induction false} SameChannel(cs: seq<Channel>, c: Channel, d: Channel)
    requires Distinct(cs) && c in cs && d in cs && c.id == d.id
    ensures c == d
  {
    var i :| 0 <= i < |cs| && cs[i] == c;
    var j :| 0 <= j < |cs| && cs[j] == d;
  }

  /** With distinct ids, a channel is staged exactly when its dependencies are staged earlier. */
  lemma {:induction false} StageOf(cs: seq<Channel>, c: Channel, k: nat)
    requires Distinct(cs) && c in cs && k > 0
    ensures c.id in Stage(cs, k) <==> Met(c, Stage(cs, k - 1))
  {
    ResolvableMember(cs, Stage(cs, k - 1), c.id);
    if c.id in Stage(cs, k) {
      var e :| e in cs && e.id == c.id && Met(e, Stage(cs, k - 1));
      SameChannel(cs, c, e);
    }
  }

  lemma {:induction false} ResolvableGrows(cs: seq<Channel>, done: set<Id>, more: set<Id>)
    requires done <= more
    ensures Resolvable(cs, done) <= Resolvable(cs, more)
  {
    forall x | x in Resolvable(cs, done) ensures x in Resolvable(cs, more) {
      ResolvableMember(cs, done, x);
      ResolvableMember(cs, more, x);
      var c :| c in cs && c.id == x && Met(c, done);
      assert Met(c, more);
    }
  }

  lemma {:induction false} StageGrows(cs: seq<Channel>, k: nat, m: nat)
    requires k <= m
    ensures Stage(cs, k) <= Stage(cs, m)
    decreases m
  {
    if k != m && k != 0 {
      StageGrows(cs, k - 1, m - 1);
      ResolvableGrows(cs, Stage(cs, k - 1), Stage(cs, m - 1));
    }
  }

  lemma {:induction false} StageStalls(cs: seq<Channel>, k: nat, m: nat)
    requires !Grows(cs, k) && k <= m
    ensures Stage(cs, m) == Stage(cs, k)
    decreases m
  {
    if k < m {
      StageStalls(cs, k, m - 1);
      assert Stage(cs, m) == Resolvable(cs, Stage(cs, k)) == Stage(cs, k + 1);
    }
  }

  /** A channel not resolved after `k` rounds starts a chain of `k + 1` nodes. */
  lemma {:induction false} LongChain(cs: seq<Channel>, x: Id, k: nat) returns (p: seq<Id>)
    requires Distinct(cs) && Known(cs) && x in Ids(cs) && x !in Stage(cs, k)
    ensures Chain(cs, p) && p[0] == x && |p| == k + 1
    decreases k
  {
    if k == 0 {
      p := [x];
    } else {
      var c :| c in cs && c.id == x;
      StageOf(cs, c, k);
      var d :| d in c.dependsOn && d !in Stage(cs, k - 1);
      var q := LongChain(cs, d, k - 1);
      p := [x] + q;
      forall i | 0 <= i < |p| - 1 ensures DependsOn(cs, p[i], p[i + 1]) {
        if i > 0 {
          assert p[i] == q[i - 1] && p[i + 1] == q[i];
        }
      }
    }
  }

  /** A channel resolved within `k` rounds starts no chain of more than `k` nodes. */
  lemma {:induction false} ChainBound(cs: seq<Channel>, p: seq<Id>, k: nat)
    requires Distinct(cs) && Chain(cs, p) && p[0] in Stage(cs, k)
    ensures |p| <= k
    decreases k
  {
    if |p| > 1 {
      assert DependsOn(cs, p[0], p[1]);
      var c :| c in cs && c.id == p[0] && p[1] in c.dependsOn;
      StageOf(cs, c, k);
      var q := p[1..];
      forall i | 0 <= i < |q| - 1 ensures DependsOn(cs, q[i], q[i + 1]) {
        assert q[i] == p[i + 1] && q[i + 1] == p[i + 2];
      }
      StageKnown(cs, k - 1);
      ChainBound(cs, q, k - 1);
    }
  }

  /** `x` depends on a member of `stuck`. */
  ghost predicate FeedsOn(cs: seq<Channel>, x: Id, stuck: set<Id>) {
    exists y :: y in stuck && DependsOn(cs, x, y)
  }

  lemma {:induction false} StuckStep(cs: seq<Channel>, stuck: set<Id>, x: Id, k: nat)
    requires Distinct(cs) && k > 0 && stuck !! Stage(cs, k - 1)
    requires FeedsOn(cs, x, stuck)
    ensures x !in Stage(cs, k)
  {
    var y :| y in stuck && DependsOn(cs, x, y);
    var c :| c in cs && c.id == x && y in c.dependsOn;
    StageOf(cs, c, k);
  }

  /** Ids that each depend on one of their own number are never resolved. */
  lemma {:induction false} StuckForever(cs: seq<Channel>, stuck: set<Id>, k: nat)
    requires Distinct(cs)
    requires forall x {:trigger FeedsOn(cs, x, stuck)} :: x in stuck ==> FeedsOn(cs, x, stuck)
    ensures stuck !! Stage(cs, k)
    decreases k
  {
    if k > 0 {
      StuckForever(cs, stuck, k - 1);
      forall x | x in stuck ensures x !in Stage(cs, k) {
        assert FeedsOn(cs, x, stuck);
        StuckStep(cs, stuck, x, k);
      }
    }
  }

  /** What can reach a cycle is never resolved. */
  lemma {:induction false} LassoNeverStaged(cs: seq<Channel>, x: Id, p: seq<Id>, i: nat, k: nat)
    requires Distinct(cs) && Lasso(cs, x, p, i)
    ensures x !in Stage(cs, k)
  {
    var stuck := Elements(p);
    forall y | y in stuck ensures FeedsOn(cs, y, stuck) {
      var j :| 0 <= j < |p| && p[j] == y;
      var n := if j == |p| - 1 then i else j;
      assert p[n] == y && DependsOn(cs, p[n], p[n + 1]) && p[n + 1] in stuck;
    }
    StuckForever(cs, stuck, k);
  }

  /** Once a round resolves nothing, every unresolved channel reaches a cycle. */
  lemma {:induction false} StalledReachesCycle(cs: seq<Channel>, x: Id, k: nat)
    requires Distinct(cs) && Known(cs) && x in Ids(cs)
    requires !Grows(cs, k) && x !in Stage(cs, k)
    ensures ReachesCycle(cs, x)
  {
    var n := |Ids(cs)|;
    if n >= k {
      StageStalls(cs, k, n);
    } else {
      StageGrows(cs, n, k);
    }
    var p := LongChain(cs, x, n);
    forall y | y in p ensures y in Ids(cs) {
      var j :| 0 <= j < |p| && p[j] == y;
      if j > 0 {
        assert DependsOn(cs, p[j - 1], p[j]);
      }
    }
    var i, j := Pigeonhole(p, Ids(cs));
    assert Lasso(cs, x, p[..j + 1], i);
  }

  ghost predicate Grows(cs: seq<Channel>, i: nat) {
    Stage(cs, i + 1) != Stage(cs, i)
  }

  /** Every round before the first idle one resolves at least one more id. */
  lemma {:induction false} FirstIdleRound(cs: seq<Channel>, k: nat) returns (i: nat)
    ensures i <= k
    ensures Grows(cs, i) ==> i == k
    ensures |Stage(cs, i)| >= i
  {
    if k == 0 {
      i := 0;
    } else {
      i := FirstIdleRound(cs, k - 1);
      if Grows(cs, i) {
        StageGrows(cs, i, i + 1);
        SubsetSize(Stage(cs, i), Stage(cs, i + 1));
        i := k;
      }
    }
  }

  /** Some round within the first `|Ids(cs)| + 1` resolves nothing new. */
  lemma {:induction false} SomeRoundIdles(cs: seq<Channel>) returns (k: nat)
    ensures k <= |Ids(cs)| && !Grows(cs, k)
  {
    k := FirstIdleRound(cs, |Ids(cs)|);
    StageKnown(cs, k);
    StageKnown(cs, k + 1);
    SubsetSize(Stage(cs, k), Ids(cs));
    if Grows(cs, k) {
      StageGrows(cs, k, k + 1);
    }
  }

  /** After an idle round the unresolved channels are exactly those that reach a cycle. */
  lemma {:induction false} UnresolvedReachCycles(cs: seq<Channel>, k: nat, x: Id)
    requires Distinct(cs) && Known(cs) && x in Ids(cs)
    requires !Grows(cs, k)
    ensures x !in Stage(cs, k) <==> ReachesCycle(cs, x)
  {
    if x !in Stage(cs, k) {
      StalledReachesCycle(cs, x, k);
    } else if ReachesCycle(cs, x) {
      var p, i :| Lasso(cs, x, p, i);
      LassoNeverStaged(cs, x, p, i, k);
    }
  }

  /** With distinct ids and known dependencies, acyclic means that the rounds resolve every channel. */
  lemma {:induction false} AcyclicIffResolved(cs: seq<Channel>, k: nat)
    requires Distinct(cs) && Known(cs)
    requires !Grows(cs, k)
    ensures Cyclic(cs) <==> Stage(cs, k) != Ids(cs)
  {
    StageKnown(cs, k);
    if Cyclic(cs) {
      var p :| Chain(cs, p) && |p| > 1 && p[0] == p[|p| - 1];
      assert Lasso(cs, p[0], p, 0);
      UnresolvedReachCycles(cs, k, p[0]);
    }
    if Stage(cs, k) != Ids(cs) {
      var x :| x in Ids(cs) && x !in Stage(cs, k);
      UnresolvedReachCycles(cs, k, x);
      var p, i :| Lasso(cs, x, p, i);
      CycleOfLasso(cs, x, p, i);
    }
  }

  lemma {:induction false} CycleOfLasso(cs: seq<Channel>, x: Id, p: seq<Id>, i: nat)
    requires Known(cs) && Lasso(cs, x, p, i)
    ensures Cyclic(cs)
  {
    var q := p[i..];
    if i > 0 {
      assert DependsOn(cs, p[i - 1], p[i]);
    }
    forall j | 0 <= j < |q| - 1 ensures DependsOn(cs, q[j], q[j + 1]) {
      assert q[j] == p[i + j] && q[j + 1] == p[i + j + 1];
    }
    assert Chain(cs, q) && |q| > 1 && q[0] == q[|q| - 1];
  }
}

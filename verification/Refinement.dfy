/** Over every run, a concurrent execution refines the sequential one. */
module Refinement {
  import opened Prelude
  import opened Graph
  import opened RunModel
  import opened LevelOutcomes
  import opened RunResults
  import EP = ExecutionPlan
  import L = Limiter
  import C = Coverage
  import O = RunOrder

  // ----- the sequential reference -----------------------------------------

  /** One round, the topological order run one channel at a time. */
  function ReferenceRound(env: Env, st: Run): Run {
    var started := StartRound(st);
    var carried := CarriedAt(env, started.depth);
    var ready := CarryForward(started, carried, env.plan.channels);
    Synthesize(env, SequentialLevel(env, ready, NotCarried(Flatten(env.plan.levels), carried)))
  }

  lemma {:induction false} ReferenceDeepens(env: Env, st: Run)
    ensures ReferenceRound(env, st).depth == st.depth + 1
  {
    var started := StartRound(st);
    var carried := CarriedAt(env, started.depth);
    CarryKeepsDepth(started, carried, env.plan.channels);
    var ready, toRun :=
      CarryForward(started, carried, env.plan.channels), NotCarried(Flatten(env.plan.levels), carried);
    SequentialKeepsDepth(env, ready, toRun);
    SynthesisKeepsDepth(env, SequentialLevel(env, ready, toRun));
  }

  function ReferenceRounds(env: Env, st: Run): Run
    decreases env.plan.maxDepth - st.depth
  {
    var next := ReferenceRound(env, st);
    if GoesOn(env, next) then
      ReferenceDeepens(env, st);
      ReferenceRounds(env, next)
    else next
  }

  function Reference(env: Env): Run {
    ReferenceRounds(env, Initial)
  }

  // ----- hypotheses -------------------------------------------------------

  /** Different channels save under different references. */
  ghost predicate DistinctRefs(cs: seq<Channel>) {
    forall c, d :: c in cs && d in cs && RawRef(c) == RawRef(d) ==> c.id == d.id
  }

  ghost predicate Comparable(env: Env) {
    && C.Undisturbed(env) && Deterministic(env)
    && EP.Sound(env.plan) && DistinctRefs(env.plan.channels)
    && forall x :: x in LastById(env.carried) ==> OwnRef(env.plan.channels, LastById(env.carried)[x])
  }

  /** The two environments may differ in caps, schedule and clock only. */
  ghost predicate SameButSchedule(env: Env, ref: Env) {
    && env.plan == ref.plan && env.policies == ref.policies && env.maxRuntimeMs == ref.maxRuntimeMs
    && env.maxCostUsd == ref.maxCostUsd && env.carried == ref.carried && env.execute == ref.execute
    && env.signalled == ref.signalled
  }

  // ----- what does not depend on the schedule -----------------------------

  /**
   * With no policies, no abort, no runtime ceiling, a sound plan, distinct raw
   * references and deterministic providers, every interleaving of every level
   * records the same channels and synthesis, and saves the same raw outputs, as
   * running the topological order one channel at a time.
   */
  lemma {:induction false} ConcurrentRefinesSequential(env: Env, ref: Env)
    requires Comparable(env) && SameButSchedule(env, ref)
    ensures var concurrent, sequential := Execute(env), Reference(ref);
      && concurrent.channels == sequential.channels
      && concurrent.synthesis == sequential.synthesis
      && concurrent.store == sequential.store
      && concurrent.depth == sequential.depth
  {
    RoundsRefine(env, ref, Initial, Initial);
  }

  /** Hence caps and schedule cannot be observed in the results. */
  lemma {:induction false} ScheduleDoesNotMatter(env: Env, other: Env)
    requires Comparable(env) && SameButSchedule(env, other)
    ensures Execute(env).channels == Execute(other).channels && Execute(env).synthesis == Execute(other).synthesis
  {
    ConcurrentRefinesSequential(env, other);
    ConcurrentRefinesSequential(other, other);
  }

  /** No channel of `ran` saves under the reference of a channel of `cs` with another id. */
  ghost predicate RefsCompatible(ran: seq<Channel>, cs: seq<Channel>) {
    forall c, d :: c in ran && d in cs && RawRef(c) == RawRef(d) ==> c.id == d.id
  }

  /**
   * What a run carries or records refers to no raw output of another channel of
   * `cs`, be these its own channels or those of another plan.
   */
  lemma {:induction false} ResultsOwnTheirRefs(env: Env, cs: seq<Channel>)
    requires RefsCompatible(Flatten(env.plan.levels), cs)
    requires forall r :: r in env.carried ==> OwnRef(cs, r)
    ensures forall r :: r in Execute(env).channels ==> OwnRef(cs, r)
  {
    var own: Property := (r, isSynthesis) => isSynthesis || OwnRef(cs, r);
    assert env.plan.synthesis.Some? ==> Yields(env, own, [env.plan.synthesis.value], true);
    EveryResult(env, own);
  }

  /**
   * So refinement carries over to resuming, also under a plan that resolves other
   * providers: what a prior run recorded, be it aborted or under policies, is fit
   * to be carried forward when the references of the two plans are compatible.
   */
  lemma {:induction false} ResumedRunsRefineToo(prior: Env, env: Env, ref: Env)
    requires RefsCompatible(Flatten(prior.plan.levels), env.plan.channels)
    requires forall r :: r in prior.carried ==> OwnRef(env.plan.channels, r)
    requires env.carried == C.OkResults(Execute(prior).channels)
    requires Comparable(env.(carried := [])) && SameButSchedule(env, ref)
    ensures var concurrent, sequential := Execute(env), Reference(ref);
      && concurrent.channels == sequential.channels
      && concurrent.synthesis == sequential.synthesis
      && concurrent.store == sequential.store
      && concurrent.depth == sequential.depth
  {
    ResultsOwnTheirRefs(prior, env.plan.channels);
    forall x | x in LastById(env.carried) ensures OwnRef(env.plan.channels, LastById(env.carried)[x]) {
      LastByIdKey(env.carried, x);
      C.OkResultsAmong(Execute(prior).channels, LastById(env.carried)[x]);
    }
    ConcurrentRefinesSequential(env, ref);
  }

  /** Under the plan of the prior run, distinct references are compatible with themselves. */
  lemma {:induction false} SamePlanIsCompatible(plan: EP.Plan)
    requires EP.Sound(plan) && DistinctRefs(plan.channels)
    ensures RefsCompatible(Flatten(plan.levels), plan.channels)
  {
    forall c | c in Flatten(plan.levels) ensures c in plan.channels {
      assert c in multiset(Flatten(plan.levels));
    }
  }

  /**
   * Channels are saved under one name exactly when their ids and providers,
   * joined by a dot, sanitise alike, position by position.
   */
  lemma {:induction false} RawRefsCollide(c: Channel, d: Channel)
    ensures var a, b := c.id + "." + c.provider, d.id + "." + d.provider;
      RawRef(c) == RawRef(d) <==> |a| == |b| && forall i :: 0 <= i < |a| ==> SafeOf(a[i]) == SafeOf(b[i])
  {
    var a, b := SafeKey(c.id + "." + c.provider), SafeKey(d.id + "." + d.provider);
    SafeKeysAlike(c.id + "." + c.provider, d.id + "." + d.provider);
    if RawRef(c) == RawRef(d) {
      assert RawRef(c)[4..|RawRef(c)| - 4] == a && RawRef(d)[4..|RawRef(d)| - 4] == b;
    }
  }

  /**
   * So distinct channels can share a reference, because sanitising merges their ids or because the dot
   * falls elsewhere.
   */
  lemma {:induction false} RawRefsCanCollide()
    ensures RawRef(Channel("a/b", [], "p")) == RawRef(Channel("a_b", [], "p"))
    ensures RawRef(Channel("a.b", [], "c")) == RawRef(Channel("a", [], "b.c"))
  {
    RawRefsCollide(Channel("a/b", [], "p"), Channel("a_b", [], "p"));
    assert "a.b" + "." + "c" == "a" + "." + "b.c";
  }

  lemma {:induction false} SafeKeysAlike(a: string, b: string)
    ensures SafeKey(a) == SafeKey(b) <==> |a| == |b| && forall i :: 0 <= i < |a| ==> SafeOf(a[i]) == SafeOf(b[i])
  {
    if a != "" && b != "" {
      SafeKeysAlike(a[1..], b[1..]);
      var u, v := SafeKey(a), SafeKey(b);
      assert u[1..] == SafeKey(a[1..]) && v[1..] == SafeKey(b[1..]);
      assert forall i :: 0 <= i < |a[1..]| ==> a[1..][i] == a[i + 1];
      assert forall i :: 0 <= i < |b[1..]| ==> b[1..][i] == b[i + 1];
      if |a| == |b| && forall i :: 0 <= i < |a| ==> SafeOf(a[i]) == SafeOf(b[i]) {
        assert SafeOf(a[0]) == SafeOf(b[0]);
      }
      if u == v {
        assert u[0] == v[0];
        forall i | 0 <= i < |a| ensures |a| == |b| && SafeOf(a[i]) == SafeOf(b[i]) {
          if i > 0 {
            assert SafeOf(a[1..][i - 1]) == SafeOf(b[1..][i - 1]);
          }
        }
      }
    }
  }

  // ----- levels, rounds, runs ---------------------------------------------

  lemma {:induction false} SavedBySame(env: Env, ref: Env, store: map<string, string>, cs: seq<Channel>,
      reqs: seq<Request>, phase: seq<L.Phase>, n: nat)
    requires env.execute == ref.execute && n <= |cs| == |reqs| == |phase|
    ensures Saved(env, store, cs, reqs, phase, n) == Saved(ref, store, cs, reqs, phase, n)
  {
    if n > 0 {
      SavedBySame(env, ref, store, cs, reqs, phase, n - 1);
    }
  }

  lemma {:induction false} OutcomesAgree(env: Env, ref: Env, a: Run, b: Run, cs: seq<Channel>)
    requires env.execute == ref.execute && Agree(a, b)
    ensures Agree(LevelOutcome(env, a, cs, |cs|), LevelOutcome(ref, b, cs, |cs|))
  {
    var reqs := Requests(a, cs);
    forall i | 0 <= i < |cs| ensures Requests(b, cs)[i] == reqs[i] {
      RequestAgrees(a, b, cs[i]);
    }
    assert Requests(b, cs) == reqs;
    assert Results(env, cs, reqs) == Results(ref, cs, reqs);
    SavedBySame(env, ref, a.store, cs, reqs, Finished(|cs|), |cs|);
    var store := Saved(env, a.store, cs, reqs, Finished(|cs|), |cs|);
    RecordAllAgrees(a.(store := store), b.(store := store), Results(env, cs, reqs)[..|cs|]);
  }

  lemma {:induction false} RecordAllRefsOk(plan: seq<Channel>, st: Run, rs: seq<Option<ChannelResult>>)
    requires RefsOk(plan, st) && forall i :: 0 <= i < |rs| && rs[i].Some? ==> OwnRef(plan, rs[i].value)
    ensures RefsOk(plan, RecordAll(st, rs))
    decreases |rs|
  {
    if rs != [] {
      RecordAllRefsOk(plan, Record(st, rs[0]), rs[1..]);
    }
  }

  /** What a level needs for its order not to matter. */
  ghost predicate Orderless(env: Env, st: Run, cs: seq<Channel>) {
    && Independent(cs) && Distinct(cs) && RefsOk(env.plan.channels, st)
    && forall e :: e in cs ==> e in env.plan.channels
  }

  lemma {:induction false} LevelRefines(env: Env, ref: Env, a: Run, b: Run, toRun: seq<Channel>)
    requires Comparable(env) && SameButSchedule(env, ref) && Agree(a, b) && Orderless(env, a, toRun)
    ensures Agree(ConcurrentLevel(env, a, toRun), SequentialLevel(ref, b, toRun))
    ensures RefsOk(env.plan.channels, ConcurrentLevel(env, a, toRun))
  {
    forall j, k | 0 <= j < k < |toRun| ensures RawRef(toRun[j]) != RawRef(toRun[k]) {
      assert toRun[j] in toRun && toRun[k] in toRun;
    }
    ConcurrentOutcome(env, a, toRun);
    assert toRun[..|toRun|] == toRun;
    SequentialOutcome(ref, b, toRun, |toRun|);
    OutcomesAgree(env, ref, a, b, toRun);
    OutcomeRefsOk(env, a, toRun);
  }

  lemma {:induction false} OutcomeRefsOk(env: Env, st: Run, cs: seq<Channel>)
    requires DistinctRefs(env.plan.channels) && RefsOk(env.plan.channels, st)
    requires forall e :: e in cs ==> e in env.plan.channels
    ensures RefsOk(env.plan.channels, LevelOutcome(env, st, cs, |cs|))
  {
    var reqs := Requests(st, cs);
    var rs := Results(env, cs, reqs)[..|cs|];
    forall i | 0 <= i < |rs| ensures OwnRef(env.plan.channels, rs[i].value) {
      assert cs[i] in cs;
      assert rs[i].value.channelId == cs[i].id;
    }
    RecordAllRefsOk(env.plan.channels, st.(store := Saved(env, st.store, cs, reqs, Finished(|cs|), |cs|)), rs);
  }

  lemma {:induction false} DistinctNotCarried(cs: seq<Channel>, carried: map<Id, ChannelResult>)
    requires Distinct(cs)
    ensures Distinct(NotCarried(cs, carried))
  {
    if cs != [] {
      var rest := cs[1..];
      forall i, j | 0 <= i < j < |rest| ensures rest[i].id != rest[j].id {
        assert cs[i + 1].id != cs[j + 1].id;
      }
      DistinctNotCarried(rest, carried);
      forall k | 0 <= k < |NotCarried(rest, carried)| ensures NotCarried(rest, carried)[k].id != cs[0].id {
        NotCarriedMember(rest, carried, NotCarried(rest, carried)[k]);
        var m :| 0 <= m < |rest| && rest[m] == NotCarried(rest, carried)[k];
        assert cs[m + 1] == rest[m];
      }
    }
  }

  lemma {:induction false} DistinctParts(a: seq<Channel>, b: seq<Channel>)
    requires Distinct(a + b)
    ensures Distinct(a) && Distinct(b) && Ids(a) !! Ids(b)
  {
    forall i, j | 0 <= i < j < |a| ensures a[i].id != a[j].id {
      assert (a + b)[i].id != (a + b)[j].id;
    }
    forall i, j | 0 <= i < j < |b| ensures b[i].id != b[j].id {
      assert (a + b)[|a| + i].id != (a + b)[|a| + j].id;
    }
    forall x | x in Ids(a) ensures x !in Ids(b) {
      var i :| 0 <= i < |a| && a[i].id == x;
      forall j | 0 <= j < |b| ensures b[j].id != x {
        assert (a + b)[i].id != (a + b)[|a| + j].id;
      }
    }
  }

  /** The levels still to run, against what has run. */
  ghost predicate Ahead(env: Env, levels: seq<seq<Channel>>, earlier: set<Id>) {
    && O.OrderedAfter(levels, earlier)
    && Distinct(Flatten(levels)) && earlier !! Ids(Flatten(levels))
    && forall c :: c in Flatten(levels) ==> c in env.plan.channels
  }

  lemma {:induction false} AheadSplits(env: Env, levels: seq<seq<Channel>>, earlier: set<Id>)
    requires levels != [] && Ahead(env, levels, earlier)
    ensures O.DependOn(levels[0], earlier) && Distinct(levels[0]) && earlier !! Ids(levels[0])
    ensures forall c :: c in levels[0] ==> c in env.plan.channels
    ensures Ahead(env, levels[1..], earlier + Ids(levels[0]))
  {
    O.OrderedTail(levels, earlier);
    DistinctParts(levels[0], Flatten(levels[1..]));
    assert Ids(Flatten(levels)) == Ids(levels[0]) + Ids(Flatten(levels[1..]));
  }

  lemma {:induction false} OrderlessLevel(env: Env, st: Run, level: seq<Channel>, carried: map<Id, ChannelResult>,
      earlier: set<Id>)
    requires O.DependOn(level, earlier) && Distinct(level) && earlier !! Ids(level) && RefsOk(env.plan.channels, st)
    requires forall c :: c in level ==> c in env.plan.channels
    ensures Orderless(env, st, NotCarried(level, carried))
  {
    var toRun := NotCarried(level, carried);
    DistinctNotCarried(level, carried);
    forall c | c in toRun ensures c in level {
      NotCarriedMember(level, carried, c);
    }
    forall c, d, e | c in toRun && e in toRun && d in c.dependsOn ensures e.id != d {
      assert d in earlier && e.id in Ids(level);
    }
  }

  lemma {:induction false} LevelsRefine(env: Env, ref: Env, a: Run, b: Run, levels: seq<seq<Channel>>, earlier: set<Id>)
    requires Comparable(env) && SameButSchedule(env, ref) && Agree(a, b)
    requires RefsOk(env.plan.channels, a) && Ahead(env, levels, earlier)
    ensures Agree(RunLevels(env, a, levels),
      SequentialLevel(ref, b, NotCarried(Flatten(levels), CarriedAt(env, a.depth))))
    decreases |levels|
  {
    if levels != [] {
      var carried := CarriedAt(env, a.depth);
      var toRun, rest := NotCarried(levels[0], carried), NotCarried(Flatten(levels[1..]), carried);
      AheadSplits(env, levels, earlier);
      OrderlessLevel(env, a, levels[0], carried, earlier);
      LevelRefines(env, ref, a, b, toRun);
      SequentialKeepsDepth(ref, b, toRun);
      var a', b' := ConcurrentLevel(env, a, toRun), SequentialLevel(ref, b, toRun);
      LevelsRefine(env, ref, a', b', levels[1..], earlier + Ids(levels[0]));
      FirstLevelApart(env, ref, a, b, levels, toRun, rest);
    }
  }

  lemma {:induction false} FirstLevelApart(env: Env, ref: Env, a: Run, b: Run, levels: seq<seq<Channel>>,
      toRun: seq<Channel>, rest: seq<Channel>)
    requires C.Undisturbed(env) && C.Undisturbed(ref) && Deterministic(ref) && levels != [] && Agree(a, b)
    requires toRun == NotCarried(levels[0], CarriedAt(env, a.depth))
    requires rest == NotCarried(Flatten(levels[1..]), CarriedAt(env, a.depth))
    ensures RunLevels(env, a, levels) == RunLevels(env, ConcurrentLevel(env, a, toRun), levels[1..])
    ensures SequentialLevel(ref, b, NotCarried(Flatten(levels), CarriedAt(env, a.depth)))
         == SequentialLevel(ref, SequentialLevel(ref, b, toRun), rest)
  {
    C.NotCarriedConcat(levels[0], Flatten(levels[1..]), CarriedAt(env, a.depth));
    SequentialConcat(ref, b, toRun, rest);
  }

  lemma {:induction false} CarryAgrees(env: Env, a: Run, b: Run, cs: seq<Channel>)
    requires Comparable(env) && Agree(a, b) && RefsOk(env.plan.channels, a)
    ensures var carried := CarriedAt(env, a.depth);
      Agree(CarryForward(a, carried, cs), CarryForward(b, carried, cs)) &&
        RefsOk(env.plan.channels, CarryForward(a, carried, cs))
    decreases |cs|
  {
    var carried := CarriedAt(env, a.depth);
    if cs != [] {
      if cs[0].id !in carried {
        CarryAgrees(env, a, b, cs[1..]);
      } else {
        LastByIdKey(env.carried, cs[0].id);
        var r := carried[cs[0].id];
        var a', b' := Record(a, Some(r)), Record(b, Some(r));
        CarryAgrees(env, a'.(journal := a'.journal + [Carried(a.depth, r.channelId, r)]),
                    b'.(journal := b'.journal + [Carried(b.depth, r.channelId, r)]), cs[1..]);
      }
    }
  }

  lemma {:induction false} SynthesisAgrees(env: Env, ref: Env, a: Run, b: Run)
    requires Comparable(env) && SameButSchedule(env, ref) && Agree(a, b)
    ensures Agree(Synthesize(env, a), Synthesize(ref, b))
  {
    if env.plan.synthesis.Some? {
      var c := env.plan.synthesis.value;
      var req := Request(c, true, map[], Summaries(a.round), PreviousSynthesis(a), a.depth);
      GateOpens(env, a, c, true, req);
      GateOpens(ref, b, c, true, req);
    }
  }

  lemma {:induction false} PlanIsAhead(env: Env)
    requires EP.Sound(env.plan)
    ensures Ahead(env, env.plan.levels, {})
  {
    forall c | c in Flatten(env.plan.levels) ensures c in env.plan.channels {
      assert c in multiset(Flatten(env.plan.levels));
    }
  }

  lemma {:induction false} RoundRefines(env: Env, ref: Env, a: Run, b: Run)
    requires Comparable(env) && SameButSchedule(env, ref) && Agree(a, b)
    ensures Agree(RunRound(env, a), ReferenceRound(ref, b))
  {
    var sa, sb := StartRound(a), StartRound(b);
    var carried := CarriedAt(env, sa.depth);
    CarryAgrees(env, sa, sb, env.plan.channels);
    CarryKeepsDepth(sa, carried, env.plan.channels);
    var ra, rb := CarryForward(sa, carried, env.plan.channels), CarryForward(sb, carried, env.plan.channels);
    PlanIsAhead(env);
    LevelsRefine(env, ref, ra, rb, env.plan.levels, {});
    SynthesisAgrees(env, ref, RunLevels(env, ra, env.plan.levels),
      SequentialLevel(ref, rb, NotCarried(Flatten(env.plan.levels), carried)));
  }

  lemma {:induction false} RoundsRefine(env: Env, ref: Env, a: Run, b: Run)
    requires Comparable(env) && SameButSchedule(env, ref) && Agree(a, b)
    ensures Agree(RunRounds(env, a), ReferenceRounds(ref, b))
    decreases env.plan.maxDepth - a.depth
  {
    RoundRefines(env, ref, a, b);
    RoundDeepens(env, a);
    ReferenceDeepens(ref, b);
    var na, nb := RunRound(env, a), ReferenceRound(ref, b);
    assert TotalCost(na) == TotalCost(nb);
    if GoesOn(env, na) {
      RoundsRefine(env, ref, na, nb);
    }
  }
}

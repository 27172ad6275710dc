/**
 * Over every run: a channel executes only after everything it depends on, and no
 * channel is missed.  At the end of each level every member has a result, was
 * skipped by a policy, or the run is aborted; the next level only depends on such
 * members, and nothing executes once the run is aborted.
 */
module RunOrder {
  import opened Prelude
  import opened Graph
  import opened RunModel
  import EP = ExecutionPlan
  import L = Limiter

  /** A policy skipped channel `d` in round `depth`. */
  ghost predicate SkippedAt(journal: seq<Event>, depth: nat, d: Id) {
    exists i :: 0 <= i < |journal| && SkipEvent(journal[i], depth, d)
  }

  predicate SkipEvent(e: Event, depth: nat, d: Id) {
    && e.Gated? && e.depth == depth && e.channelId == d && !e.executed
    && e.decisions != [] && e.decisions[|e.decisions| - 1].ruling == Before(Skip)
  }

  /** Channel `d` has a result in the current round, or a policy skipped it there. */
  ghost predicate Covered(st: Run, d: Id) {
    d in st.completed || SkippedAt(st.journal, st.depth, d)
  }

  /** A channel that went ahead after `journal` found all it depends on, what a policy had skipped by then aside. */
  ghost predicate Supplied(journal: seq<Event>, e: Event) {
    e.Gated? && e.executed && !e.isSynthesis ==>
      forall d :: d in e.dependsOn ==> d in e.available || SkippedAt(journal, e.depth, d)
  }

  ghost predicate AllSupplied(journal: seq<Event>) {
    forall i {:trigger journal[i]} :: 0 <= i < |journal| ==> Supplied(journal[..i], journal[i])
  }

  /** `later` happens in the same round, after `st`. */
  ghost predicate Extends(st: Run, later: Run) {
    && st.journal <= later.journal
    && st.depth == later.depth
    && st.completed.Keys <= later.completed.Keys
    && (st.aborted ==> later.aborted)
  }

  lemma {:induction false} SkippedStays(journal: seq<Event>, later: seq<Event>, depth: nat, d: Id)
    requires journal <= later && SkippedAt(journal, depth, d)
    ensures SkippedAt(later, depth, d)
  {
    var i :| 0 <= i < |journal| && SkipEvent(journal[i], depth, d);
    assert later[i] == journal[i];
  }

  lemma {:induction false} CoveredStays(st: Run, later: Run, d: Id)
    requires Extends(st, later) && Covered(st, d)
    ensures Covered(later, d)
  {
    if d !in st.completed {
      SkippedStays(st.journal, later.journal, st.depth, d);
    }
  }

  lemma {:induction false} SuppliedSnoc(journal: seq<Event>, e: Event)
    requires AllSupplied(journal) && Supplied(journal, e)
    ensures AllSupplied(journal + [e])
  {
    var j := journal + [e];
    forall i {:trigger j[i]} | 0 <= i < |j| ensures Supplied(j[..i], j[i]) {
      assert j[..i] == journal[..i];
    }
    assert journal[..|journal|] == journal;
  }

  // ----- one channel ------------------------------------------------------

  lemma {:induction false} HooksEnd(ps: seq<Policy>, ctx: BeforeContext)
    ensures var (ds, decision) := BeforeHooks(ps, ctx);
      decision != Proceed ==> ds != [] && ds[|ds| - 1].ruling == Before(decision)
  {
    if ps != [] {
      HooksEnd(ps[1..], ctx);
    }
  }

  /** Admitting a channel whose dependencies are covered. */
  lemma {:induction false} AdmitSupplied(env: Env, st: Run, c: Channel, isSynthesis: bool)
    requires AllSupplied(st.journal)
    requires !isSynthesis ==> forall d :: d in c.dependsOn ==> Covered(st, d)
    ensures var (st', go) := Admit(env, st, c, isSynthesis);
      && Extends(st, st') && st'.completed == st.completed && AllSupplied(st'.journal)
      && (!go && !st'.aborted ==> SkippedAt(st'.journal, st.depth, c.id))
  {
    HooksEnd(env.policies, BeforeContext(c.id, isSynthesis, st.depth, st.channels));
    var (st', go) := Admit(env, st, c, isSynthesis);
    var e := st'.journal[|st.journal|];
    assert Supplied(st.journal, e);
    SuppliedSnoc(st.journal, e);
    if !go && !st'.aborted {
      assert SkipEvent(st'.journal[|st.journal|], st.depth, c.id);
    }
  }

  lemma {:induction false} ReviewSupplied(env: Env, st: Run, c: Channel, isSynthesis: bool, req: Request, t: nat,
      result: ChannelResult)
    requires AllSupplied(st.journal)
    ensures var st' := Review(env, st, c, isSynthesis, req, t, result);
      Extends(st, st') && st'.completed == st.completed && AllSupplied(st'.journal)
  {
    var st' := Review(env, st, c, isSynthesis, req, t, result);
    SuppliedSnoc(st.journal, st'.journal[|st.journal|]);
  }

  lemma {:induction false} GatedSupplied(env: Env, st: Run, c: Channel, isSynthesis: bool, req: Request)
    requires AllSupplied(st.journal)
    requires !isSynthesis ==> st.aborted || forall d :: d in c.dependsOn ==> Covered(st, d)
    ensures var (st', r) := RunGated(env, st, c, isSynthesis, req);
      && Extends(st, st') && st'.completed == st.completed && AllSupplied(st'.journal)
      && (r.Some? ==> r.value.channelId == c.id)
      && (r.None? && !st'.aborted ==> SkippedAt(st'.journal, st.depth, c.id))
  {
    var s := Sense(env, st);
    if !s.aborted {
      forall d | !isSynthesis && d in c.dependsOn ensures Covered(s, d) {
        assert Covered(st, d);
      }
      AdmitSupplied(env, s, c, isSynthesis);
      var (admitted, go) := Admit(env, s, c, isSynthesis);
      if go {
        var (performed, result) := Perform(env, admitted, c, req);
        ReviewSupplied(env, performed, c, isSynthesis, req, admitted.tick, result);
      }
    }
  }

  // ----- one level --------------------------------------------------------

  /** Every channel of `cs` is covered, unless the run is aborted. */
  ghost predicate Settled(st: Run, ids: set<Id>) {
    st.aborted || forall d :: d in ids ==> Covered(st, d)
  }

  lemma {:induction false} SettledStays(st: Run, later: Run, ids: set<Id>)
    requires Extends(st, later) && Settled(st, ids)
    ensures Settled(later, ids)
  {
    if !later.aborted {
      forall d | d in ids ensures Covered(later, d) {
        CoveredStays(st, later, d);
      }
    }
  }

  /** The dependencies of these channels are among `earlier`. */
  ghost predicate DependOn(cs: seq<Channel>, earlier: set<Id>) {
    forall c, d :: c in cs && d in c.dependsOn ==> d in earlier
  }

  lemma {:induction false} SequentialSettles(env: Env, st: Run, toRun: seq<Channel>, earlier: set<Id>)
    requires AllSupplied(st.journal) && Settled(st, earlier) && DependOn(toRun, earlier)
    ensures var st' := SequentialLevel(env, st, toRun);
      Extends(st, st') && AllSupplied(st'.journal) && (!st'.halted ==> Settled(st', Ids(toRun)))
    decreases |toRun|
  {
    if toRun != [] {
      var c, rest := toRun[0], toRun[1..];
      assert toRun == [c] + rest && c in toRun;
      var req := ChannelRequest(st, c);
      GatedSupplied(env, st, c, false, req);
      var (gated, r) := RunGated(env, st, c, false, req);
      var recorded := Record(gated, r);
      assert Extends(st, recorded) && Settled(recorded, {c.id});
      if !recorded.halted {
        SettledStays(st, recorded, earlier);
        forall e, d | e in rest && d in e.dependsOn ensures d in earlier {
          assert e in toRun;
        }
        SequentialSettles(env, recorded, rest, earlier);
        var st' := SequentialLevel(env, recorded, rest);
        SettledStays(recorded, st', {c.id});
        assert Ids(toRun) == {c.id} + Ids(rest);
      }
    }
  }

  /** While a level is in flight nothing is recorded, and a finished task without a result means an abort. */
  ghost predicate InFlight(env: Env, f: Flight, toRun: seq<Channel>, reqs: seq<Request>, st: Run, earlier: set<Id>) {
    && FlightOk(env, f, toRun, reqs)
    && Extends(st, f.run) && f.run.completed == st.completed
    && AllSupplied(f.run.journal)
    && Settled(f.run, earlier)
    && forall i: nat :: i < |toRun| ==> TaskOk(f, toRun[i], i)
  }

  ghost predicate TaskOk(f: Flight, c: Channel, i: nat)
    requires i < |f.tasks.phase| == |f.results|
  {
    && (f.results[i].Some? ==> f.results[i].value.channelId == c.id)
    && (f.tasks.phase[i] == L.Running ==> i in f.live || f.run.aborted)
    && (f.tasks.phase[i] == L.Done ==> f.results[i].Some? || f.run.aborted)
  }

  lemma {:induction false} MoveInFlight(env: Env, f: Flight, toRun: seq<Channel>, reqs: seq<Request>, st: Run,
      earlier: set<Id>, i: nat)
    requires env.policies == [] && DependOn(toRun, earlier)
    requires InFlight(env, f, toRun, reqs, st, earlier) && L.Enabled(env.caps, f.tasks, i)
    ensures InFlight(env, MoveTask(env, f, toRun, reqs, i), toRun, reqs, st, earlier)
  {
    var f' := MoveTask(env, f, toRun, reqs, i);
    var c := toRun[i];
    assert TaskOk(f, toRun[i], i);
    match f'.tasks.phase[i] {
      case Running =>
        var s := Sense(env, f.run);
        if !s.aborted {
          forall d | d in c.dependsOn ensures Covered(s, d) {
            assert Covered(f.run, d);
          }
          AdmitSupplied(env, s, c, false);
        }
        SettledStays(f.run, f'.run, earlier);
      case Done =>
        if i in f.live {
          var (performed, result) := Perform(env, f.run, c, reqs[i]);
          ReviewSupplied(env, performed, c, false, reqs[i], f.run.tick, result);
        }
        SettledStays(f.run, f'.run, earlier);
      case _ =>
    }
    assert Extends(f.run, f'.run);
    forall k: nat | k < |toRun| ensures TaskOk(f', toRun[k], k) {
      assert TaskOk(f, toRun[k], k);
    }
  }

  lemma {:induction false} DrainInFlight(env: Env, f: Flight, toRun: seq<Channel>, reqs: seq<Request>, st: Run,
      earlier: set<Id>)
    requires env.policies == [] && DependOn(toRun, earlier)
    requires InFlight(env, f, toRun, reqs, st, earlier)
    ensures InFlight(env, Drain(env, f, toRun, reqs), toRun, reqs, st, earlier)
    decreases L.Remaining(f.tasks.phase)
  {
    if !L.AllDone(f.tasks.phase) {
      var i := NextTask(env, f);
      MoveInFlight(env, f, toRun, reqs, st, earlier, i);
      DrainInFlight(env, MoveTask(env, f, toRun, reqs, i), toRun, reqs, st, earlier);
    }
  }

  /** Recording the results of a level. */
  lemma {:induction false} RecordAllExtends(st: Run, rs: seq<Option<ChannelResult>>)
    ensures var st' := RecordAll(st, rs);
      && Extends(st, st') && st'.journal == st.journal && st'.aborted == st.aborted && st'.halted == st.halted
      && forall i :: 0 <= i < |rs| && rs[i].Some? ==> rs[i].value.channelId in st'.completed
    decreases |rs|
  {
    if rs != [] {
      RecordAllExtends(Record(st, rs[0]), rs[1..]);
      var st' := RecordAll(st, rs);
      forall i | 0 <= i < |rs| && rs[i].Some? ensures rs[i].value.channelId in st'.completed {
        if i > 0 {
          assert rs[1..][i - 1] == rs[i];
        }
      }
    }
  }

  lemma {:induction false} ConcurrentSettles(env: Env, st: Run, toRun: seq<Channel>, earlier: set<Id>)
    requires env.policies == [] && AllSupplied(st.journal) && Settled(st, earlier) && DependOn(toRun, earlier)
    ensures var st' := ConcurrentLevel(env, st, toRun);
      Extends(st, st') && AllSupplied(st'.journal) && Settled(st', Ids(toRun))
  {
    var reqs := Requests(st, toRun);
    var f := TakeOff(env, st, toRun);
    assert forall i :: 0 <= i < |toRun| ==> f.tasks.phase[i] == L.Queued && f.results[i].None?;
    assert Settled(f.run, earlier);
    assert InFlight(env, f, toRun, reqs, st, earlier) by {
      forall i: nat | i < |toRun| ensures TaskOk(f, toRun[i], i) {
        assert f.tasks.phase[i] == L.Queued && f.results[i].None?;
      }
    }
    DrainInFlight(env, f, toRun, reqs, st, earlier);
    var g := Drain(env, f, toRun, reqs);
    RecordAllExtends(g.run, g.results);
    var st' := RecordAll(g.run, g.results);
    if !st'.aborted {
      forall d | d in Ids(toRun) ensures Covered(st', d) {
        var c :| c in toRun && c.id == d;
        var i :| 0 <= i < |toRun| && toRun[i] == c;
        assert g.tasks.phase[i] == L.Done && TaskOk(g, toRun[i], i);
      }
    }
  }

  // ----- one round --------------------------------------------------------

  /** Carried channels of the plan are covered before the first level starts. */
  ghost predicate CarriedCovered(env: Env, st: Run) {
    forall c :: c in env.plan.channels && c.id in CarriedAt(env, st.depth) ==> c.id in st.completed
  }

  lemma {:induction false} LevelSettles(env: Env, st: Run, level: seq<Channel>, earlier: set<Id>)
    requires AllSupplied(st.journal) && Settled(st, earlier) && DependOn(level, earlier) && CarriedCovered(env, st)
    requires forall c :: c in level ==> c in env.plan.channels
    ensures var st' := RunLevel(env, st, NotCarried(level, CarriedAt(env, st.depth)));
      && Extends(st, st') && AllSupplied(st'.journal) && CarriedCovered(env, st')
      && (!st'.halted ==> Settled(st', earlier + Ids(level)))
  {
    var carried := CarriedAt(env, st.depth);
    var toRun := NotCarried(level, carried);
    forall c | c in toRun ensures c in level {
      NotCarriedMember(level, carried, c);
    }
    if env.policies != [] {
      SequentialSettles(env, st, toRun, earlier);
    } else {
      ConcurrentSettles(env, st, toRun, earlier);
    }
    var st' := RunLevel(env, st, toRun);
    SettledStays(st, st', earlier);
    if !st'.halted && !st'.aborted {
      forall d | d in Ids(level) ensures Covered(st', d) {
        var c :| c in level && c.id == d;
        NotCarriedMember(level, carried, c);
        if c in toRun {
          assert d in Ids(toRun);
        }
      }
    }
  }

  /** The levels ahead depend only on what is already settled and on one another. */
  ghost predicate OrderedAfter(levels: seq<seq<Channel>>, earlier: set<Id>) {
    forall k, c, d :: 0 <= k < |levels| && c in levels[k] && d in c.dependsOn ==>
      d in earlier + Ids(Flatten(levels[..k]))
  }

  lemma {:induction false} OrderedTail(levels: seq<seq<Channel>>, earlier: set<Id>)
    requires levels != [] && OrderedAfter(levels, earlier)
    ensures DependOn(levels[0], earlier)
    ensures OrderedAfter(levels[1..], earlier + Ids(levels[0]))
  {
    forall c, d | c in levels[0] && d in c.dependsOn ensures d in earlier {
      assert levels[..0] == [];
    }
    var rest := levels[1..];
    forall k, c: Channel, d | 0 <= k < |rest| && c in rest[k] && d in c.dependsOn
      ensures d in earlier + Ids(levels[0]) + Ids(Flatten(rest[..k]))
    {
      assert rest[k] == levels[k + 1];
      assert levels[..k + 1] == [levels[0]] + rest[..k];
      assert Flatten(levels[..k + 1]) == levels[0] + Flatten(rest[..k]);
      assert d in earlier + Ids(Flatten(levels[..k + 1]));
    }
  }

  lemma {:induction false} LevelsSettle(env: Env, st: Run, levels: seq<seq<Channel>>, earlier: set<Id>)
    requires AllSupplied(st.journal) && (!st.halted ==> Settled(st, earlier)) && OrderedAfter(levels, earlier) &&
      CarriedCovered(env, st)
    requires forall k, c :: 0 <= k < |levels| && c in levels[k] ==> c in env.plan.channels
    ensures AllSupplied(RunLevels(env, st, levels).journal)
    decreases |levels|
  {
    if levels != [] && !st.halted {
      OrderedTail(levels, earlier);
      LevelSettles(env, st, levels[0], earlier);
      var st' := RunLevel(env, st, NotCarried(levels[0], CarriedAt(env, st.depth)));
      forall k, c | 0 <= k < |levels[1..]| && c in levels[1..][k] ensures c in env.plan.channels {
        assert c in levels[k + 1];
      }
      LevelsSettle(env, st', levels[1..], earlier + Ids(levels[0]));
    }
  }

  lemma {:induction false} CarryCovers(env: Env, st: Run, cs: seq<Channel>)
    requires AllSupplied(st.journal)
    ensures var st' := CarryForward(st, CarriedAt(env, st.depth), cs);
      && Extends(st, st') && AllSupplied(st'.journal) && st'.halted == st.halted
      && forall c :: c in cs && c.id in CarriedAt(env, st.depth) ==> c.id in st'.completed
    decreases |cs|
  {
    var carried := CarriedAt(env, st.depth);
    if cs != [] {
      assert cs == [cs[0]] + cs[1..];
      if cs[0].id !in carried {
        CarryCovers(env, st, cs[1..]);
      } else {
        LastByIdKey(env.carried, cs[0].id);
        var r := carried[cs[0].id];
        var s := Record(st, Some(r));
        var e := Carried(st.depth, r.channelId, r);
        SuppliedSnoc(st.journal, e);
        CarryCovers(env, s.(journal := s.journal + [e]), cs[1..]);
      }
    }
  }

  lemma {:induction false} PlannedInLevels(plan: EP.Plan, k: nat, c: Channel)
    requires EP.Sound(plan) && k < |plan.levels| && c in plan.levels[k]
    ensures c in plan.channels
  {
    EP.InFlatten(plan.levels, k, c);
    assert c in multiset(Flatten(plan.levels));
  }

  lemma {:induction false} RoundSupplied(env: Env, st: Run)
    requires EP.Sound(env.plan) && AllSupplied(st.journal)
    ensures AllSupplied(RunRound(env, st).journal)
  {
    var started := StartRound(st);
    CarryCovers(env, started, env.plan.channels);
    var ready := CarryForward(started, CarriedAt(env, started.depth), env.plan.channels);
    forall k, c | 0 <= k < |env.plan.levels| && c in env.plan.levels[k] ensures c in env.plan.channels {
      PlannedInLevels(env.plan, k, c);
    }
    LevelsSettle(env, ready, env.plan.levels, {});
    var leveled := RunLevels(env, ready, env.plan.levels);
    if env.plan.synthesis.Some? && !leveled.halted {
      var c := env.plan.synthesis.value;
      GatedSupplied(env, leveled, c, true,
        Request(c, true, map[], Summaries(leveled.round), PreviousSynthesis(leveled), leveled.depth));
    }
  }

  lemma {:induction false} RoundsSupplied(env: Env, st: Run)
    requires EP.Sound(env.plan) && AllSupplied(st.journal)
    ensures AllSupplied(RunRounds(env, st).journal)
    decreases env.plan.maxDepth - st.depth
  {
    RoundSupplied(env, st);
    var next := RunRound(env, st);
    if GoesOn(env, next) {
      RoundDeepens(env, st);
      RoundsSupplied(env, next);
    }
  }

  /**
   * Over every run of a sound plan, fresh or resumed, with or without policies,
   * under every schedule and every abort: when a channel executes, each id it
   * depends on already has a result from the same round, unless a policy skipped
   * that id in the same round.
   */
  lemma {:induction false} DependenciesComeFirst(env: Env)
    requires EP.Sound(env.plan)
    ensures AllSupplied(Execute(env).journal)
  {
    RoundsSupplied(env, Initial);
  }

  // ----- repeated ids -----------------------------------------------------

  /** Channel `b` is declared twice, the first time depending on `a`. */
  const REPEATED_ID := [Channel("b", ["a"], "p"), Channel("b", [], "p"), Channel("a", [], "p")]

  /** The planner puts all of it on one level, since the last count of `b` is zero. */
  method PlanRepeatedId() returns (r: Result<seq<seq<Channel>>, EP.PlanError>)
    ensures r == Success([REPEATED_ID])
  {
    assert REPEATED_ID[0] in REPEATED_ID && REPEATED_ID[1] in REPEATED_ID && REPEATED_ID[2] in REPEATED_ID;
    assert Ids(REPEATED_ID) == {"a", "b"};
    RepeatedIdCounts();
    r := EP.TopoLevels(REPEATED_ID);
  }

  lemma {:induction false} RepeatedIdCounts()
    ensures EntryCounts(REPEATED_ID) == map["a" := 0, "b" := 0]
  {
    var one, two := REPEATED_ID[..1], REPEATED_ID[..2];
    assert one[..0] == [] && two[..1] == one && REPEATED_ID[..2] == two;
    assert EntryCounts(one) == map["b" := 1];
    assert EntryCounts(two) == map["b" := 0];
  }

  /** A policy that halts after every channel. */
  const HALTING := Policy("halting", None, Some(ctx => Verdict(Halt, "")))

  /** On such a plan a channel does execute before what it depends on, so distinct ids are needed. */
  lemma {:induction false} RepeatedIdRunsEarly(env: Env)
    requires env.plan.levels == [REPEATED_ID] && env.plan.synthesis.None?
    requires env.policies == [HALTING] && env.carried == [] && !env.signalled(0)
    ensures !AllSupplied(Execute(env).journal)
  {
    var started := StartRound(Initial);
    NothingToCarry(started, env.plan.channels);
    var c := REPEATED_ID[0];
    var st := SequentialLevel(env, started, REPEATED_ID);
    AllToRun(REPEATED_ID);
    assert RunLevel(env, started, REPEATED_ID) == st;
    FirstHalts(env, started, c);
    assert st.halted && [REPEATED_ID][1..] == [];
    assert RunLevels(env, started, [REPEATED_ID]) == st;
    assert RunRound(env, Initial) == st;
    assert Execute(env).journal == st.journal;
    assert "a" in st.journal[0].dependsOn;
    assert st.journal[..0] == [];
    assert !Supplied(st.journal[..0], st.journal[0]);
  }

  lemma {:induction false} NothingToCarry(st: Run, cs: seq<Channel>)
    ensures CarryForward(st, map[], cs) == st
    decreases |cs|
  {
    if cs != [] {
      NothingToCarry(st, cs[1..]);
    }
  }

  lemma {:induction false} AllToRun(cs: seq<Channel>)
    ensures NotCarried(cs, map[]) == cs
  {
    if cs != [] {
      AllToRun(cs[1..]);
    }
  }

  lemma {:induction false} FirstHalts(env: Env, st: Run, c: Channel)
    requires env.policies == [HALTING] && st == StartRound(Initial) && !env.signalled(0)
    ensures var (gated, r) := RunGated(env, st, c, false, ChannelRequest(st, c));
      && gated.halted && |gated.journal| == 2
      && gated.journal[0] == Gated(1, c.id, false, c.dependsOn, {}, 0.0, [], true)
  {
    var s := Sense(env, st);
    var req := ChannelRequest(st, c);
    assert env.policies[1..] == [] && env.policies[0] == HALTING;
    assert BeforeHooks([], BeforeContext(c.id, false, s.depth, s.channels)) == ([], Proceed);
    assert BeforeHooks(env.policies, BeforeContext(c.id, false, s.depth, s.channels)) == ([], Proceed);
    var (admitted, go) := Admit(env, s, c, false);
    var (performed, result) := Perform(env, admitted, c, req);
    var ctx := AfterContext(c.id, false, performed.depth, result, performed.channels + [result]);
    assert AfterHooks([], ctx) == ([], false);
    assert AfterHooks(env.policies, ctx).1;
  }
}

/**
 * What an undisturbed run records, and what a resumed run carries forward: each
 * round records every planned channel once, whether carried or executed, and a
 * carried channel keeps its last ok result and is not executed again in round 1.
 */
module Coverage {
  import opened Prelude
  import opened Graph
  import opened RunModel
  import EP = ExecutionPlan
  import L = Limiter

  /** No enforcement policy and no external abort. */
  ghost predicate Undisturbed(env: Env) {
    env.policies == [] && forall t :: !env.signalled(t)
  }

  /** `later` differs from `st` in its clock, journal and store at most, and nothing has stopped it. */
  ghost predicate Steady(st: Run, later: Run) {
    && later.channels == st.channels && later.completed == st.completed && later.round == st.round
    && later.synthesis == st.synthesis && later.policy == st.policy && later.depth == st.depth
    && !later.aborted && !later.halted
  }

  // ----- levels -----------------------------------------------------------

  ghost predicate OnTrack(f: Flight, c: Channel, i: nat)
    requires i < |f.tasks.phase| == |f.results|
  {
    && (f.tasks.phase[i] == L.Running ==> i in f.live)
    && (f.tasks.phase[i] == L.Done ==> f.results[i].Some?)
    && (f.results[i].Some? ==> f.results[i].value.channelId == c.id)
  }

  ghost predicate SmoothFlight(env: Env, f: Flight, toRun: seq<Channel>, reqs: seq<Request>, st: Run) {
    && FlightOk(env, f, toRun, reqs)
    && Steady(st, f.run)
    && forall i: nat :: i < |toRun| ==> OnTrack(f, toRun[i], i)
  }

  lemma {:induction false} MoveSmooth(env: Env, f: Flight, toRun: seq<Channel>, reqs: seq<Request>, st: Run, i: nat)
    requires Undisturbed(env) && SmoothFlight(env, f, toRun, reqs, st) && L.Enabled(env.caps, f.tasks, i)
    ensures SmoothFlight(env, MoveTask(env, f, toRun, reqs, i), toRun, reqs, st)
  {
    var f' := MoveTask(env, f, toRun, reqs, i);
    assert OnTrack(f, toRun[i], i);
    forall k: nat | k < |toRun| ensures OnTrack(f', toRun[k], k) {
      assert OnTrack(f, toRun[k], k);
    }
  }

  lemma {:induction false} DrainSmooth(env: Env, f: Flight, toRun: seq<Channel>, reqs: seq<Request>, st: Run)
    requires Undisturbed(env) && SmoothFlight(env, f, toRun, reqs, st)
    ensures SmoothFlight(env, Drain(env, f, toRun, reqs), toRun, reqs, st)
    decreases L.Remaining(f.tasks.phase)
  {
    if !L.AllDone(f.tasks.phase) {
      var i := NextTask(env, f);
      MoveSmooth(env, f, toRun, reqs, st, i);
      DrainSmooth(env, MoveTask(env, f, toRun, reqs, i), toRun, reqs, st);
    }
  }

  lemma {:induction false} TakeOffSmooth(env: Env, st: Run, toRun: seq<Channel>)
    requires !st.aborted && !st.halted
    ensures SmoothFlight(env, TakeOff(env, st, toRun), toRun, Requests(st, toRun), st)
  {
    var f := TakeOff(env, st, toRun);
    forall i: nat | i < |toRun| ensures OnTrack(f, toRun[i], i) {
      assert f.tasks.phase[i] == L.Queued && f.results[i].None?;
    }
  }

  /** What a round has added so far. */
  ghost predicate Added(st: Run, later: Run, ids: seq<Id>) {
    && |st.channels| <= |later.channels|
    && later.channels[..|st.channels|] == st.channels
    && ResultIds(later.channels[|st.channels|..]) == ids
    && later.depth == st.depth && later.policy == st.policy
    && !later.aborted && !later.halted
  }

  lemma {:induction false} AddedTrans(a: Run, b: Run, c: Run, xs: seq<Id>, ys: seq<Id>)
    requires Added(a, b, xs) && Added(b, c, ys)
    ensures Added(a, c, xs + ys)
  {
    var m, n := |a.channels|, |b.channels|;
    assert c.channels[..m] == c.channels[..n][..m];
    assert c.channels[m..] == b.channels[m..] + c.channels[n..];
    assert ResultIds(b.channels[m..] + c.channels[n..]) == ResultIds(b.channels[m..]) + ResultIds(c.channels[n..]);
  }

  lemma {:induction false} AddedThen(a: Run, b: Run, c: Run, xs: seq<Channel>, ys: seq<Channel>)
    requires Added(a, b, EP.IdList(xs)) && Added(b, c, EP.IdList(ys))
    ensures Added(a, c, EP.IdList(xs + ys))
  {
    AddedTrans(a, b, c, EP.IdList(xs), EP.IdList(ys));
    assert EP.IdList(xs) + EP.IdList(ys) == EP.IdList(xs + ys);
  }

  lemma {:induction false} RecordAllAdds(st: Run, rs: seq<Option<ChannelResult>>, cs: seq<Channel>)
    requires |rs| == |cs| && !st.aborted && !st.halted
    requires forall i :: 0 <= i < |rs| ==> rs[i].Some? && rs[i].value.channelId == cs[i].id
    ensures Added(st, RecordAll(st, rs), EP.IdList(cs))
    decreases |rs|
  {
    if rs == [] {
      assert ResultIds(st.channels[|st.channels|..]) == [] == EP.IdList(cs);
    } else {
      var next := Record(st, rs[0]);
      assert next.channels[|st.channels|..] == [rs[0].value];
      assert Added(st, next, [cs[0].id]);
      RecordAllAdds(next, rs[1..], cs[1..]);
      AddedTrans(st, next, RecordAll(next, rs[1..]), [cs[0].id], EP.IdList(cs[1..]));
      assert [cs[0].id] + EP.IdList(cs[1..]) == EP.IdList(cs);
    }
  }

  lemma {:induction false} LevelAdds(env: Env, st: Run, toRun: seq<Channel>)
    requires Undisturbed(env) && !st.aborted && !st.halted
    ensures Added(st, RunLevel(env, st, toRun), EP.IdList(toRun))
  {
    var reqs := Requests(st, toRun);
    var f := TakeOff(env, st, toRun);
    TakeOffSmooth(env, st, toRun);
    DrainSmooth(env, f, toRun, reqs, st);
    var g := Drain(env, f, toRun, reqs);
    forall i | 0 <= i < |toRun| ensures g.results[i].Some? && g.results[i].value.channelId == toRun[i].id {
      assert OnTrack(g, toRun[i], i);
    }
    RecordAllAdds(g.run, g.results, toRun);
    assert Added(st, RecordAll(g.run, g.results), EP.IdList(toRun));
  }

  // ----- rounds -----------------------------------------------------------

  function NotCarriedLevels(levels: seq<seq<Channel>>, carried: map<Id, ChannelResult>): seq<Channel> {
    if levels == [] then [] else NotCarried(levels[0], carried) + NotCarriedLevels(levels[1..], carried)
  }

  function OnlyCarried(cs: seq<Channel>, carried: map<Id, ChannelResult>): seq<Channel> {
    if cs == [] then []
    else (if cs[0].id in carried then [cs[0]] else []) + OnlyCarried(cs[1..], carried)
  }

  lemma {:induction false} LevelsAdd(env: Env, st: Run, levels: seq<seq<Channel>>)
    requires Undisturbed(env) && !st.aborted && !st.halted
    ensures Added(st, RunLevels(env, st, levels), EP.IdList(NotCarriedLevels(levels, CarriedAt(env, st.depth))))
    decreases |levels|
  {
    var carried := CarriedAt(env, st.depth);
    if levels == [] {
      assert ResultIds(st.channels[|st.channels|..]) == [];
    } else {
      var toRun := NotCarried(levels[0], carried);
      LevelAdds(env, st, toRun);
      var next := RunLevel(env, st, toRun);
      LevelsAdd(env, next, levels[1..]);
      AddedThen(st, next, RunLevels(env, next, levels[1..]), toRun, NotCarriedLevels(levels[1..], carried));
    }
  }

  lemma {:induction false} CarryAdds(env: Env, st: Run, cs: seq<Channel>)
    requires !st.aborted && !st.halted
    ensures Added(st, CarryForward(st, CarriedAt(env, st.depth), cs),
      EP.IdList(OnlyCarried(cs, CarriedAt(env, st.depth))))
    decreases |cs|
  {
    var carried := CarriedAt(env, st.depth);
    if cs == [] {
      assert ResultIds(st.channels[|st.channels|..]) == [];
    } else if cs[0].id !in carried {
      CarryAdds(env, st, cs[1..]);
    } else {
      LastByIdKey(env.carried, cs[0].id);
      var r := carried[cs[0].id];
      var s := Record(st, Some(r));
      var next := s.(journal := s.journal + [Carried(st.depth, r.channelId, r)]);
      assert next.channels[|st.channels|..] == [r];
      assert Added(st, next, [cs[0].id]);
      CarryAdds(env, next, cs[1..]);
      var rest := OnlyCarried(cs[1..], carried);
      AddedTrans(st, next, CarryForward(next, carried, cs[1..]), [cs[0].id], EP.IdList(rest));
      assert [cs[0].id] + EP.IdList(rest) == EP.IdList([cs[0]] + rest);
    }
  }

  lemma {:induction false} SplitByCarried(cs: seq<Channel>, carried: map<Id, ChannelResult>)
    ensures multiset(OnlyCarried(cs, carried)) + multiset(NotCarried(cs, carried)) == multiset(cs)
  {
    if cs != [] {
      var head, rest := [cs[0]], cs[1..];
      SplitByCarried(rest, carried);
      assert cs == head + rest;
      if cs[0].id in carried {
        assert OnlyCarried(cs, carried) == head + OnlyCarried(rest, carried);
        assert NotCarried(cs, carried) == NotCarried(rest, carried);
      } else {
        assert OnlyCarried(cs, carried) == OnlyCarried(rest, carried);
        assert NotCarried(cs, carried) == head + NotCarried(rest, carried);
      }
    }
  }

  lemma {:induction false} NotCarriedFlattened(levels: seq<seq<Channel>>, carried: map<Id, ChannelResult>)
    ensures NotCarriedLevels(levels, carried) == NotCarried(Flatten(levels), carried)
  {
    if levels != [] {
      NotCarriedFlattened(levels[1..], carried);
      NotCarriedConcat(levels[0], Flatten(levels[1..]), carried);
    }
  }

  lemma {:induction false} NotCarriedConcat(a: seq<Channel>, b: seq<Channel>, carried: map<Id, ChannelResult>)
    ensures NotCarried(a + b, carried) == NotCarried(a, carried) + NotCarried(b, carried)
  {
    if a == [] {
      assert a + b == b;
    } else {
      assert (a + b)[1..] == a[1..] + b;
      NotCarriedConcat(a[1..], b, carried);
    }
  }

  lemma {:induction false} NotCarriedRearranged(a: seq<Channel>, b: seq<Channel>, carried: map<Id, ChannelResult>)
    requires multiset(a) == multiset(b)
    ensures multiset(NotCarried(a, carried)) == multiset(NotCarried(b, carried))
  {
    SplitByCarried(a, carried);
    SplitByCarried(b, carried);
    forall c: Channel ensures multiset(NotCarried(a, carried))[c] == multiset(NotCarried(b, carried))[c] {
      CarriedApart(a, carried, c);
      CarriedApart(b, carried, c);
      assert multiset(a)[c] == multiset(b)[c];
    }
  }

  lemma {:induction false} CarriedApart(cs: seq<Channel>, carried: map<Id, ChannelResult>, c: Channel)
    ensures multiset(NotCarried(cs, carried))[c] == if c.id in carried then 0 else multiset(cs)[c]
  {
    if cs != [] {
      CarriedApart(cs[1..], carried, c);
      assert cs == [cs[0]] + cs[1..];
    }
  }

  /** How often an id is recorded. */
  function Times(rs: seq<ChannelResult>, x: Id): nat {
    multiset(ResultIds(rs))[x]
  }

  function Without<T>(xs: seq<T>, k: nat): seq<T>
    requires k < |xs|
  {
    xs[..k] + xs[k + 1..]
  }

  lemma {:induction false} WithoutOne<T>(xs: seq<T>, k: nat)
    requires k < |xs|
    ensures multiset(xs) == multiset{xs[k]} + multiset(Without(xs, k))
  {
    assert xs == xs[..k] + [xs[k]] + xs[k + 1..];
  }

  lemma {:induction false} IdsRearranged(a: seq<Channel>, b: seq<Channel>)
    requires multiset(a) == multiset(b)
    ensures multiset(EP.IdList(a)) == multiset(EP.IdList(b))
    decreases |a|
  {
    if a == [] {
      assert |multiset(b)| == 0;
    } else {
      assert a[0] in multiset(b);
      var k :| 0 <= k < |b| && b[k] == a[0];
      WithoutOne(a, 0);
      WithoutOne(b, k);
      RemoveBoth(multiset(Without(a, 0)), multiset(Without(b, k)), a[0]);
      IdsRearranged(Without(a, 0), Without(b, k));
      IdsWithoutOne(a, 0);
      IdsWithoutOne(b, k);
    }
  }

  lemma {:induction false} RemoveBoth<T>(a: multiset<T>, b: multiset<T>, x: T)
    requires multiset{x} + a == multiset{x} + b
    ensures a == b
  {
    assert a == multiset{x} + a - multiset{x};
    assert b == multiset{x} + b - multiset{x};
  }

  lemma {:induction false} IdsWithoutOne(cs: seq<Channel>, k: nat)
    requires k < |cs|
    ensures multiset(EP.IdList(cs)) == multiset{cs[k].id} + multiset(EP.IdList(Without(cs, k)))
  {
    WithoutOne(EP.IdList(cs), k);
    assert Without(EP.IdList(cs), k) == EP.IdList(Without(cs, k));
  }

  lemma {:induction false} RoundAdds(env: Env, st: Run) returns (ids: seq<Id>)
    requires Undisturbed(env) && EP.Sound(env.plan) && !st.aborted && !st.halted
    ensures var next := RunRound(env, st);
      && |st.channels| <= |next.channels| && next.channels[..|st.channels|] == st.channels
      && ResultIds(next.channels[|st.channels|..]) == ids
      && next.policy == st.policy && !next.aborted && !next.halted
    ensures multiset(ids) == multiset(EP.IdList(env.plan.channels))
  {
    var started := StartRound(st);
    var carried := CarriedAt(env, started.depth);
    var leveled := RunLevels(env, CarryForward(started, carried, env.plan.channels), env.plan.levels);
    ids := PlannedIds(env.plan, carried);
    CarryAndLevelsAdd(env, started);
    PlannedIdsRearranged(env.plan, carried);
    SynthesisAddsNothing(env, leveled);
  }

  /** The ids a round records, carried channels first. */
  function PlannedIds(plan: EP.Plan, carried: map<Id, ChannelResult>): seq<Id> {
    EP.IdList(OnlyCarried(plan.channels, carried)) + EP.IdList(NotCarriedLevels(plan.levels, carried))
  }

  lemma {:induction false} CarryAndLevelsAdd(env: Env, started: Run)
    requires Undisturbed(env) && EP.Sound(env.plan) && !started.aborted && !started.halted
    ensures var carried := CarriedAt(env, started.depth);
      Added(started, RunLevels(env, CarryForward(started, carried, env.plan.channels), env.plan.levels),
        PlannedIds(env.plan, carried))
  {
    var carried := CarriedAt(env, started.depth);
    var ready := CarryForward(started, carried, env.plan.channels);
    CarryAdds(env, started, env.plan.channels);
    LevelsAdd(env, ready, env.plan.levels);
    AddedTrans(started, ready, RunLevels(env, ready, env.plan.levels),
               EP.IdList(OnlyCarried(env.plan.channels, carried)),
               EP.IdList(NotCarriedLevels(env.plan.levels, carried)));
  }

  lemma {:induction false} PlannedIdsRearranged(plan: EP.Plan, carried: map<Id, ChannelResult>)
    requires EP.Sound(plan)
    ensures multiset(PlannedIds(plan, carried)) == multiset(EP.IdList(plan.channels))
  {
    var xs, ys := OnlyCarried(plan.channels, carried), NotCarriedLevels(plan.levels, carried);
    assert PlannedIds(plan, carried) == EP.IdList(xs + ys);
    NotCarriedFlattened(plan.levels, carried);
    NotCarriedRearranged(Flatten(plan.levels), plan.channels, carried);
    SplitByCarried(plan.channels, carried);
    IdsRearranged(xs + ys, plan.channels);
  }

  lemma {:induction false} SynthesisAddsNothing(env: Env, st: Run)
    requires Undisturbed(env) && !st.aborted && !st.halted
    ensures var next := Synthesize(env, st);
      next.channels == st.channels && next.policy == st.policy && !next.aborted && !next.halted
  {
  }

  lemma {:induction false} OneRoundMore(env: Env, st: Run, x: Id, n: nat)
    requires Undisturbed(env) && EP.Sound(env.plan) && !st.aborted && !st.halted
    requires n == multiset(EP.IdList(env.plan.channels))[x]
    ensures var next := RunRound(env, st);
      Times(next.channels, x) == Times(st.channels, x) + n && next.policy == st.policy && !next.aborted && !next.halted
  {
    var next := RunRound(env, st);
    var ids := RoundAdds(env, st);
    TimesAfter(st.channels, next.channels, ids, x);
  }

  lemma {:induction false} TimesAfter(before: seq<ChannelResult>, after: seq<ChannelResult>, ids: seq<Id>, x: Id)
    requires |before| <= |after| && after[..|before|] == before && ResultIds(after[|before|..]) == ids
    ensures Times(after, x) == Times(before, x) + multiset(ids)[x]
  {
    assert after == before + after[|before|..];
    assert ResultIds(after) == ResultIds(before) + ids;
  }

  /** The tally after some rounds. */
  ghost predicate Tallied(st: Run, x: Id, n: nat) {
    Times(st.channels, x) == st.depth * n && st.policy == [] && !st.aborted && !st.halted
  }

  lemma {:induction false} TallyStep(st: Run, next: Run, x: Id, n: nat)
    requires Tallied(st, x, n) && next.depth == st.depth + 1
    requires Times(next.channels, x) == Times(st.channels, x) + n && next.policy == st.policy && !next.aborted &&
      !next.halted
    ensures Tallied(next, x, n)
  {
    assert (st.depth + 1) * n == st.depth * n + n;
  }

  lemma {:induction false} RoundsAdd(env: Env, st: Run, x: Id, n: nat)
    requires Undisturbed(env) && EP.Sound(env.plan) && Tallied(st, x, n)
    requires n == multiset(EP.IdList(env.plan.channels))[x]
    ensures Tallied(RunRounds(env, st), x, n)
    decreases env.plan.maxDepth - st.depth
  {
    var next := RunRound(env, st);
    RoundDeepens(env, st);
    OneRoundMore(env, st, x, n);
    TallyStep(st, next, x, n);
    if GoesOn(env, next) {
      RoundsAdd(env, next, x, n);
    }
  }

  /** Without policies and aborts every round records every planned channel exactly once. */
  lemma {:induction false} EveryChannelEveryRound(env: Env, x: Id)
    requires Undisturbed(env) && EP.Sound(env.plan)
    ensures Tallied(Execute(env), x, multiset(EP.IdList(env.plan.channels))[x])
  {
    assert ResultIds([]) == [];
    RoundsAdd(env, Initial, x, multiset(EP.IdList(env.plan.channels))[x]);
  }

  // ----- resume -----------------------------------------------------------

  /** In round 1 no channel with a carried result goes through its gate. */
  ghost predicate NotRerun(env: Env, journal: seq<Event>) {
    forall i {:trigger journal[i]} :: 0 <= i < |journal| ==> Fresh(env, journal[i])
  }

  ghost predicate Fresh(env: Env, e: Event) {
    e.Gated? && !e.isSynthesis ==> e.channelId !in CarriedAt(env, e.depth)
  }

  lemma {:induction false} GatedFresh(env: Env, st: Run, c: Channel, isSynthesis: bool, req: Request)
    requires NotRerun(env, st.journal) && (isSynthesis || c.id !in CarriedAt(env, st.depth))
    ensures var st' := RunGated(env, st, c, isSynthesis, req).0;
      NotRerun(env, st'.journal) && st'.depth == st.depth && st'.channels == st.channels
  {
  }

  lemma {:induction false} SequentialFresh(env: Env, st: Run, toRun: seq<Channel>)
    requires NotRerun(env, st.journal) && forall c :: c in toRun ==> c.id !in CarriedAt(env, st.depth)
    ensures var st' := SequentialLevel(env, st, toRun); NotRerun(env, st'.journal) && st.channels <= st'.channels
    decreases |toRun|
  {
    if toRun != [] {
      assert toRun == [toRun[0]] + toRun[1..];
      var req := ChannelRequest(st, toRun[0]);
      GatedFresh(env, st, toRun[0], false, req);
      var (gated, r) := RunGated(env, st, toRun[0], false, req);
      if !Record(gated, r).halted {
        SequentialFresh(env, Record(gated, r), toRun[1..]);
      }
    }
  }

  lemma {:induction false} DrainFresh(env: Env, f: Flight, toRun: seq<Channel>, reqs: seq<Request>)
    requires FlightOk(env, f, toRun, reqs)
    requires NotRerun(env, f.run.journal) && forall c :: c in toRun ==> c.id !in CarriedAt(env, f.run.depth)
    ensures var f' := Drain(env, f, toRun, reqs); NotRerun(env, f'.run.journal) && f'.run.channels == f.run.channels
    decreases L.Remaining(f.tasks.phase)
  {
    if !L.AllDone(f.tasks.phase) {
      var i := NextTask(env, f);
      assert toRun[i] in toRun;
      MoveFresh(env, f, toRun, reqs, i);
      DrainFresh(env, MoveTask(env, f, toRun, reqs, i), toRun, reqs);
    }
  }

  lemma {:induction false} MoveFresh(env: Env, f: Flight, toRun: seq<Channel>, reqs: seq<Request>, i: nat)
    requires FlightOk(env, f, toRun, reqs) && L.Enabled(env.caps, f.tasks, i)
    requires NotRerun(env, f.run.journal) && toRun[i].id !in CarriedAt(env, f.run.depth)
    ensures var f' := MoveTask(env, f, toRun, reqs, i);
      NotRerun(env, f'.run.journal) && f'.run.depth == f.run.depth && f'.run.channels == f.run.channels
  {
  }

  lemma {:induction false} RecordAllFresh(st: Run, rs: seq<Option<ChannelResult>>)
    ensures RecordAll(st, rs).journal == st.journal && st.channels <= RecordAll(st, rs).channels
    decreases |rs|
  {
    if rs != [] {
      RecordAllFresh(Record(st, rs[0]), rs[1..]);
    }
  }

  lemma {:induction false} LevelsFresh(env: Env, st: Run, levels: seq<seq<Channel>>)
    requires NotRerun(env, st.journal)
    ensures var st' := RunLevels(env, st, levels); NotRerun(env, st'.journal) && st.channels <= st'.channels
    decreases |levels|
  {
    if levels != [] && !st.halted {
      var toRun := NotCarried(levels[0], CarriedAt(env, st.depth));
      forall c | c in toRun ensures c.id !in CarriedAt(env, st.depth) {
        NotCarriedMember(levels[0], CarriedAt(env, st.depth), c);
      }
      if env.policies != [] {
        SequentialFresh(env, st, toRun);
      } else {
        var f := TakeOff(env, st, toRun);
        DrainFresh(env, f, toRun, Requests(st, toRun));
        var g := Drain(env, f, toRun, Requests(st, toRun));
        RecordAllFresh(g.run, g.results);
      }
      LevelsFresh(env, RunLevel(env, st, toRun), levels[1..]);
    }
  }

  lemma {:induction false} CarryFresh(env: Env, st: Run, carried: map<Id, ChannelResult>, cs: seq<Channel>)
    requires NotRerun(env, st.journal)
    ensures NotRerun(env, CarryForward(st, carried, cs).journal) &&
      st.channels <= CarryForward(st, carried, cs).channels
    decreases |cs|
  {
    if cs != [] {
      if cs[0].id !in carried {
        CarryFresh(env, st, carried, cs[1..]);
      } else {
        var r := carried[cs[0].id];
        var s := Record(st, Some(r));
        CarryFresh(env, s.(journal := s.journal + [Carried(st.depth, r.channelId, r)]), carried, cs[1..]);
      }
    }
  }

  lemma {:induction false} RoundsFresh(env: Env, st: Run)
    requires NotRerun(env, st.journal)
    ensures NotRerun(env, RunRounds(env, st).journal)
    ensures var started := StartRound(st);
      CarryForward(started, CarriedAt(env, started.depth), env.plan.channels).channels <= RunRounds(env, st).channels
    decreases env.plan.maxDepth - st.depth
  {
    var started := StartRound(st);
    CarryFresh(env, started, CarriedAt(env, started.depth), env.plan.channels);
    var ready := CarryForward(started, CarriedAt(env, started.depth), env.plan.channels);
    LevelsFresh(env, ready, env.plan.levels);
    SynthesisFresh(env, RunLevels(env, ready, env.plan.levels));
    var next := RunRound(env, st);
    if GoesOn(env, next) {
      RoundDeepens(env, st);
      RoundsFresh(env, next);
      CarryFresh(env, StartRound(next), CarriedAt(env, next.depth + 1), env.plan.channels);
    }
  }

  lemma {:induction false} SynthesisFresh(env: Env, st: Run)
    requires NotRerun(env, st.journal)
    ensures NotRerun(env, Synthesize(env, st).journal) && Synthesize(env, st).channels == st.channels
  {
    if env.plan.synthesis.Some? && !st.halted {
      var c := env.plan.synthesis.value;
      GatedFresh(env, st, c, true, Request(c, true, map[], Summaries(st.round), PreviousSynthesis(st), st.depth));
    }
  }

  /** Recorded results are only ever appended to. */
  lemma {:induction false} CarryRecords(st: Run, carried: map<Id, ChannelResult>, cs: seq<Channel>)
    ensures var st' := CarryForward(st, carried, cs);
      && st.channels <= st'.channels
      && forall c :: c in cs && c.id in carried ==> carried[c.id] in st'.channels[|st.channels|..]
    decreases |cs|
  {
    if cs != [] {
      assert cs == [cs[0]] + cs[1..];
      if cs[0].id !in carried {
        CarryRecords(st, carried, cs[1..]);
      } else {
        var r := carried[cs[0].id];
        var s := Record(st, Some(r));
        var next := s.(journal := s.journal + [Carried(st.depth, r.channelId, r)]);
        CarryRecords(next, carried, cs[1..]);
        var end := CarryForward(next, carried, cs[1..]);
        var tail := end.channels[|st.channels|..];
        assert tail[0] == r;
        forall c | c in cs && c.id in carried ensures carried[c.id] in tail {
          if c in cs[1..] {
            assert end.channels[|next.channels|..] == tail[1..];
          }
        }
      }
    }
  }

  /** The results of `rs` that are ok, and the last of them for an id. */
  function OkResults(rs: seq<ChannelResult>): seq<ChannelResult> {
    if rs == [] then []
    else OkResults(rs[..|rs| - 1]) + (if rs[|rs| - 1].status == StatusOk then [rs[|rs| - 1]] else [])
  }

  lemma {:induction false} OkResultsAmong(rs: seq<ChannelResult>, r: ChannelResult)
    ensures r in OkResults(rs) <==> r in rs && r.status == StatusOk
  {
    if rs != [] {
      assert rs == rs[..|rs| - 1] + [rs[|rs| - 1]];
      OkResultsAmong(rs[..|rs| - 1], r);
    }
  }

  predicate OkFor(r: ChannelResult, x: Id) {
    r.channelId == x && r.status == StatusOk
  }

  ghost predicate HasOk(rs: seq<ChannelResult>, x: Id) {
    exists i :: 0 <= i < |rs| && OkFor(rs[i], x)
  }

  ghost predicate IsLastOk(rs: seq<ChannelResult>, x: Id, r: ChannelResult) {
    exists i :: 0 <= i < |rs| && rs[i] == r && OkFor(r, x) && forall j :: i < j < |rs| ==> !OkFor(rs[j], x)
  }

  lemma {:induction false} LastOkSnoc(front: seq<ChannelResult>, last: ChannelResult, x: Id)
    ensures HasOk(front + [last], x) <==> HasOk(front, x) || OkFor(last, x)
    ensures OkFor(last, x) ==> IsLastOk(front + [last], x, last)
    ensures forall r :: !OkFor(last, x) && IsLastOk(front, x, r) ==> IsLastOk(front + [last], x, r)
  {
    var rs := front + [last];
    if HasOk(front, x) {
      var i :| 0 <= i < |front| && OkFor(front[i], x);
      assert OkFor(rs[i], x);
    }
    if OkFor(last, x) {
      assert OkFor(rs[|front|], x);
    }
    forall r | !OkFor(last, x) && IsLastOk(front, x, r) ensures IsLastOk(rs, x, r) {
      var i :| 0 <= i < |front| && front[i] == r && OkFor(r, x) && forall j :: i < j < |front| ==> !OkFor(front[j], x);
      assert rs[i] == r;
    }
  }

  /** Only the ok results of a prior run are carried, the last of each id. */
  lemma {:induction false} CarriesLastOk(rs: seq<ChannelResult>, x: Id)
    ensures x in LastById(OkResults(rs)) <==> HasOk(rs, x)
    ensures x in LastById(OkResults(rs)) ==> IsLastOk(rs, x, LastById(OkResults(rs))[x])
  {
    if rs != [] {
      var front, last := rs[..|rs| - 1], rs[|rs| - 1];
      assert rs == front + [last];
      CarriesLastOk(front, x);
      LastOkSnoc(front, last, x);
      CarriedSnoc(front, last);
    }
  }

  lemma {:induction false} CarriedSnoc(front: seq<ChannelResult>, last: ChannelResult)
    ensures var before := LastById(OkResults(front));
      LastById(OkResults(front + [last])) == if last.status == StatusOk then before[last.channelId := last] else before
  {
    assert (front + [last])[..|front|] == front;
    if last.status == StatusOk {
      assert (OkResults(front) + [last])[..|OkResults(front)|] == OkResults(front);
    } else {
      assert OkResults(front + [last]) == OkResults(front);
    }
  }

  /**
   * A run resumed from the results `prior` records first, unchanged, the last ok
   * result of every planned channel that has one, and its first round sends no
   * such channel through a gate.
   */
  lemma {:induction false} ResumeCarriesForward(env: Env, prior: seq<ChannelResult>, c: Channel)
    requires env.carried == OkResults(prior) && c in env.plan.channels
    requires c.id in LastById(env.carried)
    ensures var ready := CarryForward(StartRound(Initial), CarriedAt(env, 1), env.plan.channels);
      && ready.channels <= Execute(env).channels
      && LastById(env.carried)[c.id] in ready.channels
      && IsLastOk(prior, c.id, LastById(env.carried)[c.id])
    ensures NotRerun(env, Execute(env).journal)
  {
    CarriesLastOk(prior, c.id);
    CarryRecords(StartRound(Initial), CarriedAt(env, 1), env.plan.channels);
    RoundsFresh(env, Initial);
  }
}

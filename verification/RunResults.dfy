/**
 * What holds of every result a run can get holds of every result it records:
 * whatever planned channels and the synthesis may be answered, and what is carried
 * forward, is all that ever enters the results, over every schedule and policy.
 */
module RunResults {
  import opened Prelude
  import opened Graph
  import opened RunModel
  import L = Limiter

  /** A property of a result, which may depend on its being the synthesis. */
  type Property = (ChannelResult, bool) -> bool

  /** Whatever these channels are answered has the property. */
  ghost predicate Yields(env: Env, p: Property, cs: seq<Channel>, isSynthesis: bool) {
    forall c, req, t :: c in cs ==> p(Answer(env, c, req, t), isSynthesis)
  }

  /** So has every answer to a planned channel or the synthesis, and every carried result. */
  ghost predicate YieldsAll(env: Env, p: Property) {
    && Yields(env, p, Flatten(env.plan.levels), false)
    && (env.plan.synthesis.Some? ==> Yields(env, p, [env.plan.synthesis.value], true))
    && forall r :: r in env.carried ==> p(r, false)
  }

  ghost predicate Everywhere(st: Run, p: Property) {
    (forall r :: r in st.channels ==> p(r, false)) && (st.synthesis.Some? ==> p(st.synthesis.value, true))
  }

  lemma {:induction false} GatedYields(env: Env, st: Run, c: Channel, isSynthesis: bool, req: Request, p: Property)
    requires Yields(env, p, [c], isSynthesis)
    ensures var (st', r) := RunGated(env, st, c, isSynthesis, req);
      st'.channels == st.channels && st'.synthesis == st.synthesis && (r.Some? ==> p(r.value, isSynthesis))
  {
    var s := Sense(env, st);
    if !s.aborted {
      var (admitted, go) := Admit(env, s, c, isSynthesis);
      assert c in [c];
      assert p(Answer(env, c, req, admitted.tick), isSynthesis);
    }
  }

  lemma {:induction false} SequentialYields(env: Env, st: Run, toRun: seq<Channel>, p: Property)
    requires Yields(env, p, toRun, false) && Everywhere(st, p)
    ensures Everywhere(SequentialLevel(env, st, toRun), p)
    decreases |toRun|
  {
    if toRun != [] {
      assert toRun[0] in toRun;
      var req := ChannelRequest(st, toRun[0]);
      GatedYields(env, st, toRun[0], false, req, p);
      var (gated, r) := RunGated(env, st, toRun[0], false, req);
      if !Record(gated, r).halted {
        SequentialYields(env, Record(gated, r), toRun[1..], p);
      }
    }
  }

  ghost predicate ResultsHave(rs: seq<Option<ChannelResult>>, p: Property) {
    forall i :: 0 <= i < |rs| && rs[i].Some? ==> p(rs[i].value, false)
  }

  lemma {:induction false} DrainYields(env: Env, f: Flight, toRun: seq<Channel>, reqs: seq<Request>, p: Property)
    requires FlightOk(env, f, toRun, reqs) && Yields(env, p, toRun, false) && Everywhere(f.run, p) &&
      ResultsHave(f.results, p)
    ensures var f' := Drain(env, f, toRun, reqs); Everywhere(f'.run, p) && ResultsHave(f'.results, p)
    decreases L.Remaining(f.tasks.phase)
  {
    if !L.AllDone(f.tasks.phase) {
      var i := NextTask(env, f);
      assert p(Answer(env, toRun[i], reqs[i], f.run.tick), false);
      DrainYields(env, MoveTask(env, f, toRun, reqs, i), toRun, reqs, p);
    }
  }

  lemma {:induction false} RecordAllHas(st: Run, rs: seq<Option<ChannelResult>>, p: Property)
    requires Everywhere(st, p) && ResultsHave(rs, p)
    ensures Everywhere(RecordAll(st, rs), p)
    decreases |rs|
  {
    if rs != [] {
      RecordAllHas(Record(st, rs[0]), rs[1..], p);
    }
  }

  lemma {:induction false} LevelYields(env: Env, st: Run, toRun: seq<Channel>, p: Property)
    requires Yields(env, p, toRun, false) && Everywhere(st, p)
    ensures Everywhere(RunLevel(env, st, toRun), p)
  {
    if env.policies != [] {
      SequentialYields(env, st, toRun, p);
    } else {
      var f := TakeOff(env, st, toRun);
      DrainYields(env, f, toRun, Requests(st, toRun), p);
      var g := Drain(env, f, toRun, Requests(st, toRun));
      RecordAllHas(g.run, g.results, p);
    }
  }

  lemma {:induction false} LevelsYield(env: Env, st: Run, levels: seq<seq<Channel>>, p: Property)
    requires Yields(env, p, Flatten(levels), false) && Everywhere(st, p)
    ensures Everywhere(RunLevels(env, st, levels), p)
    decreases |levels|
  {
    if levels != [] && !st.halted {
      var toRun := NotCarried(levels[0], CarriedAt(env, st.depth));
      assert forall c :: c in levels[0] || c in Flatten(levels[1..]) ==> c in Flatten(levels);
      forall c | c in toRun ensures c in levels[0] {
        NotCarriedMember(levels[0], CarriedAt(env, st.depth), c);
      }
      LevelYields(env, st, toRun, p);
      LevelsYield(env, RunLevel(env, st, toRun), levels[1..], p);
    }
  }

  lemma {:induction false} CarryHas(env: Env, st: Run, cs: seq<Channel>, p: Property)
    requires (forall r :: r in env.carried ==> p(r, false)) && Everywhere(st, p)
    ensures Everywhere(CarryForward(st, CarriedAt(env, st.depth), cs), p)
    decreases |cs|
  {
    var carried := CarriedAt(env, st.depth);
    if cs != [] {
      if cs[0].id !in carried {
        CarryHas(env, st, cs[1..], p);
      } else {
        LastByIdKey(env.carried, cs[0].id);
        var r := carried[cs[0].id];
        var s := Record(st, Some(r));
        CarryHas(env, s.(journal := s.journal + [Carried(st.depth, r.channelId, r)]), cs[1..], p);
      }
    }
  }

  lemma {:induction false} SynthesisYields(env: Env, st: Run, p: Property)
    requires YieldsAll(env, p) && Everywhere(st, p)
    ensures Everywhere(Synthesize(env, st), p)
  {
    if env.plan.synthesis.Some? && !st.halted {
      var c := env.plan.synthesis.value;
      GatedYields(env, st, c, true, Request(c, true, map[], Summaries(st.round), PreviousSynthesis(st), st.depth), p);
    }
  }

  lemma {:induction false} RoundsYield(env: Env, st: Run, p: Property)
    requires YieldsAll(env, p) && Everywhere(st, p)
    ensures Everywhere(RunRounds(env, st), p)
    decreases env.plan.maxDepth - st.depth
  {
    var started := StartRound(st);
    CarryHas(env, started, env.plan.channels, p);
    var ready := CarryForward(started, CarriedAt(env, started.depth), env.plan.channels);
    LevelsYield(env, ready, env.plan.levels, p);
    SynthesisYields(env, RunLevels(env, ready, env.plan.levels), p);
    var next := RunRound(env, st);
    if GoesOn(env, next) {
      RoundDeepens(env, st);
      RoundsYield(env, next, p);
    }
  }

  /** Over every run: with policies or not, resumed, halted or aborted. */
  lemma {:induction false} EveryResult(env: Env, p: Property)
    requires YieldsAll(env, p)
    ensures Everywhere(Execute(env), p)
  {
    RoundsYield(env, Initial, p);
  }
}

/** The cost-budget policy, and how far a run under it can overshoot its budget. */
module CostBudget {
  import opened Prelude
  import opened Graph
  import opened RunModel

  datatype Config = Config(maxPerRun: Option<real>, maxPerChannel: Option<real>, safetyMargin: Option<real>)

  /** The per-run budget reduced by the safety margin. */
  function EffectivePerRunCeiling(cfg: Config): Option<real> {
    match cfg.maxPerRun
    case None => None
    case Some(max) =>
      var margin := if cfg.safetyMargin.Some? then cfg.safetyMargin.value else 0.0;
      Some(max * (1.0 - margin))
  }

  predicate Reached(cfg: Config, rs: seq<ChannelResult>) {
    var ceiling := EffectivePerRunCeiling(cfg);
    ceiling.Some? && SumCost(rs) >= ceiling.value
  }

  function BeforeChannel(cfg: Config, ctx: BeforeContext): Verdict<BeforeDecision> {
    if Reached(cfg, ctx.completed) then Verdict(Abort, "known run cost reached per-run ceiling")
    else Verdict(Proceed, "within cost budget")
  }

  function AfterChannel(cfg: Config, ctx: AfterContext): Verdict<AfterDecision> {
    var cost := if ctx.result.usage.costUsd.Some? then ctx.result.usage.costUsd.value else 0.0;
    if cfg.maxPerChannel.Some? && cost > cfg.maxPerChannel.value
      then Verdict(Halt, "channel cost exceeded per-channel ceiling")
    else if Reached(cfg, ctx.completed) then Verdict(Halt, "known run cost reached per-run ceiling")
    else Verdict(Continue, "within cost budget")
  }

  function CostBudgetPolicy(cfg: Config): Policy {
    Policy("cost-budget",
           Some((ctx: BeforeContext) => BeforeChannel(cfg, ctx)),
           Some((ctx: AfterContext) => AfterChannel(cfg, ctx)))
  }

  /** The accumulating loop behind the policy's known cost. */
  method SumCostLoop(rs: seq<ChannelResult>) returns (sum: real)
    ensures sum == SumCost(rs)
  {
    sum := 0.0;
    for i := 0 to |rs|
      invariant sum == SumCost(rs[..i])
    {
      assert rs[..i + 1][..i] == rs[..i];
      if rs[i].usage.costUsd.Some? {
        sum := sum + rs[i].usage.costUsd.value;
      }
    }
    assert rs[..|rs|] == rs;
  }

  // ----- hooks ------------------------------------------------------------

  lemma {:induction false} ProceedIsUnanimous(ps: seq<Policy>, ctx: BeforeContext, p: Policy)
    requires BeforeHooks(ps, ctx).1 == Proceed && p in ps && p.before.Some?
    ensures p.before.value(ctx).decision == Proceed
  {
    if ps[0] != p || ps[0].before.None? {
      assert ps == [ps[0]] + ps[1..];
      ProceedIsUnanimous(ps[1..], ctx, p);
    }
  }

  lemma {:induction false} AnyHaltHalts(ps: seq<Policy>, ctx: AfterContext, p: Policy)
    requires p in ps && p.after.Some? && p.after.value(ctx).decision == Halt
    ensures AfterHooks(ps, ctx).1
  {
    if ps[0] != p {
      assert ps == [ps[0]] + ps[1..];
      AnyHaltHalts(ps[1..], ctx, p);
    }
  }

  // ----- what the journal says about cost ---------------------------------

  /** The ids of the recorded channels, in order: carried or executed, syntheses apart. */
  function Recorded(journal: seq<Event>): seq<Id> {
    if journal == [] then []
    else
      var e := journal[|journal| - 1];
      Recorded(journal[..|journal| - 1])
      + (if e.Carried? || (e.Gated? && e.executed && !e.isSynthesis) then [e.channelId] else [])
  }

  predicate ExecutedChannel(e: Event) {
    e.Gated? && e.executed && !e.isSynthesis
  }

  /** The last channel executed, syntheses apart. */
  function LastExecuted(journal: seq<Event>): Option<Event> {
    if journal == [] then None
    else
      var e := journal[|journal| - 1];
      if ExecutedChannel(e) then Some(e) else LastExecuted(journal[..|journal| - 1])
  }

  ghost predicate Enforced(env: Env, cfg: Config) {
    CostBudgetPolicy(cfg) in env.policies && EffectivePerRunCeiling(cfg).Some?
  }

  /** Every execution started with the known cost strictly below the ceiling. */
  ghost predicate StartedBelow(journal: seq<Event>, ceiling: real) {
    forall i {:trigger journal[i]} :: 0 <= i < |journal| && journal[i].Gated? && journal[i].executed ==>
      journal[i].knownCost < ceiling
  }

  /** What the last executed channel found, and what holds if it did not halt the run. */
  ghost predicate LastStep(st: Run, ceiling: real) {
    var last := LastExecuted(st.journal);
    last.Some? ==>
      && st.channels != []
      && last.value.Gated?
      && SumCost(st.channels[..|st.channels| - 1]) == last.value.knownCost < ceiling
      && st.channels[|st.channels| - 1].channelId == last.value.channelId
      && (!st.halted ==> SumCost(st.channels) < ceiling)
  }

  ghost predicate BudgetOk(st: Run, ceiling: real) {
    && ResultIds(st.channels) == Recorded(st.journal)
    && StartedBelow(st.journal, ceiling)
    && LastStep(st, ceiling)
  }

  lemma {:induction false} JournalSnoc(journal: seq<Event>, e: Event)
    ensures Recorded(journal + [e]) ==
      Recorded(journal) + (if e.Carried? || ExecutedChannel(e) then [e.channelId] else [])
    ensures LastExecuted(journal + [e]) == if ExecutedChannel(e) then Some(e) else LastExecuted(journal)
  {
    assert (journal + [e])[..|journal|] == journal;
  }

  /** An event that executes nothing leaves the accounts as they are. */
  lemma {:induction false} IdleEventKeepsBudget(st: Run, st': Run, e: Event, ceiling: real)
    requires BudgetOk(st, ceiling)
    requires !e.Carried? && !(e.Gated? && e.executed)
    requires st'.journal == st.journal + [e] && st'.channels == st.channels && (st.halted ==> st'.halted)
    ensures BudgetOk(st', ceiling)
  {
    JournalSnoc(st.journal, e);
  }

  /** An executed synthesis does not join the results. */
  lemma {:induction false} SynthesisKeepsBudget(st: Run, st': Run, gate: Event, review: Event, ceiling: real)
    requires BudgetOk(st, ceiling) && !st.halted
    requires gate.Gated? && gate.isSynthesis && gate.knownCost < ceiling && review.Reviewed?
    requires st'.journal == st.journal + [gate] + [review] && st'.channels == st.channels
    ensures BudgetOk(st', ceiling)
  {
    JournalSnoc(st.journal, gate);
    JournalSnoc(st.journal + [gate], review);
  }

  /** An executed channel joins the results. */
  lemma {:induction false} ChannelKeepsBudget(st: Run, st': Run, gate: Event, review: Event, result: ChannelResult,
      ceiling: real)
    requires ResultIds(st.channels) == Recorded(st.journal) && StartedBelow(st.journal, ceiling)
    requires ExecutedChannel(gate) && gate.channelId == result.channelId && review.Reviewed?
    requires gate.knownCost == SumCost(st.channels) < ceiling
    requires st'.journal == st.journal + [gate] + [review] && st'.channels == st.channels + [result]
    requires !st'.halted ==> SumCost(st'.channels) < ceiling
    ensures BudgetOk(st', ceiling)
  {
    JournalSnoc(st.journal, gate);
    JournalSnoc(st.journal + [gate], review);
    assert st'.channels[..|st'.channels| - 1] == st.channels;
    assert ResultIds(st'.channels) == ResultIds(st.channels) + [result.channelId];
  }

  /** One gated channel or synthesis, with its recording, under an enforced budget. */
  lemma {:induction false} GatedKeepsBudget(env: Env, st: Run, c: Channel, isSynthesis: bool, req: Request, cfg: Config)
    requires Enforced(env, cfg) && !st.halted
    requires BudgetOk(st, EffectivePerRunCeiling(cfg).value)
    ensures var (gated, r) := RunGated(env, st, c, isSynthesis, req);
      BudgetOk(if isSynthesis then gated else Record(gated, r), EffectivePerRunCeiling(cfg).value)
  {
    var ceiling := EffectivePerRunCeiling(cfg).value;
    var s := Sense(env, st);
    if !s.aborted {
      var (admitted, go) := Admit(env, s, c, isSynthesis);
      var gate := admitted.journal[|s.journal|];
      if !go {
        IdleEventKeepsBudget(st, admitted, gate, ceiling);
      } else {
        var ctx := BeforeContext(c.id, isSynthesis, s.depth, s.channels);
        ProceedIsUnanimous(env.policies, ctx, CostBudgetPolicy(cfg));
        var (performed, result) := Perform(env, admitted, c, req);
        ReviewHaltsAtCeiling(env, performed, c, isSynthesis, req, admitted.tick, result, cfg);
        var reviewed := Review(env, performed, c, isSynthesis, req, admitted.tick, result);
        var review := reviewed.journal[|performed.journal|];
        if isSynthesis {
          SynthesisKeepsBudget(st, reviewed, gate, review, ceiling);
        } else {
          ChannelKeepsBudget(st, Record(reviewed, Some(result)), gate, review, result, ceiling);
        }
      }
    }
  }

  lemma {:induction false} ReviewHaltsAtCeiling(env: Env, st: Run, c: Channel, isSynthesis: bool, req: Request,
      t: nat, result: ChannelResult, cfg: Config)
    requires Enforced(env, cfg)
    ensures SumCost(st.channels + [result]) >= EffectivePerRunCeiling(cfg).value ==>
      Review(env, st, c, isSynthesis, req, t, result).halted
  {
    var ctx := AfterContext(c.id, isSynthesis, st.depth, result, st.channels + [result]);
    if SumCost(ctx.completed) >= EffectivePerRunCeiling(cfg).value {
      AnyHaltHalts(env.policies, ctx, CostBudgetPolicy(cfg));
    }
  }

  lemma {:induction false} SequentialKeepsBudget(env: Env, st: Run, toRun: seq<Channel>, cfg: Config)
    requires Enforced(env, cfg) && !st.halted && BudgetOk(st, EffectivePerRunCeiling(cfg).value)
    ensures BudgetOk(SequentialLevel(env, st, toRun), EffectivePerRunCeiling(cfg).value)
    decreases |toRun|
  {
    if toRun != [] {
      var req := ChannelRequest(st, toRun[0]);
      GatedKeepsBudget(env, st, toRun[0], false, req, cfg);
      var (gated, r) := RunGated(env, st, toRun[0], false, req);
      if !Record(gated, r).halted {
        SequentialKeepsBudget(env, Record(gated, r), toRun[1..], cfg);
      }
    }
  }

  lemma {:induction false} LevelsKeepBudget(env: Env, st: Run, levels: seq<seq<Channel>>, cfg: Config)
    requires Enforced(env, cfg) && BudgetOk(st, EffectivePerRunCeiling(cfg).value)
    ensures BudgetOk(RunLevels(env, st, levels), EffectivePerRunCeiling(cfg).value)
    decreases |levels|
  {
    if levels != [] && !st.halted {
      var toRun := NotCarried(levels[0], CarriedAt(env, st.depth));
      SequentialKeepsBudget(env, st, toRun, cfg);
      LevelsKeepBudget(env, SequentialLevel(env, st, toRun), levels[1..], cfg);
    }
  }

  lemma {:induction false} CarriedEventKeepsBudget(st: Run, st': Run, r: ChannelResult, ceiling: real)
    requires BudgetOk(st, ceiling) && LastExecuted(st.journal).None?
    requires st'.journal == st.journal + [Carried(st.depth, r.channelId, r)] && st'.channels == st.channels + [r]
    ensures BudgetOk(st', ceiling) && LastExecuted(st'.journal).None?
  {
    JournalSnoc(st.journal, Carried(st.depth, r.channelId, r));
    assert ResultIds(st'.channels) == ResultIds(st.channels) + [r.channelId];
  }

  /** Carrying forward happens before anything executes. */
  lemma {:induction false} CarryKeepsBudget(env: Env, st: Run, cs: seq<Channel>, ceiling: real)
    requires BudgetOk(st, ceiling) && (st.depth == 1 ==> LastExecuted(st.journal).None?)
    ensures BudgetOk(CarryForward(st, CarriedAt(env, st.depth), cs), ceiling)
    ensures CarryForward(st, CarriedAt(env, st.depth), cs).halted == st.halted
    decreases |cs|
  {
    var carried := CarriedAt(env, st.depth);
    if cs != [] {
      if cs[0].id !in carried {
        CarryKeepsBudget(env, st, cs[1..], ceiling);
      } else {
        LastByIdKey(env.carried, cs[0].id);
        var r := carried[cs[0].id];
        var s := Record(st, Some(r));
        var e := Carried(st.depth, r.channelId, r);
        var next := s.(journal := s.journal + [e]);
        CarriedEventKeepsBudget(st, next, r, ceiling);
        CarryKeepsBudget(env, next, cs[1..], ceiling);
      }
    }
  }

  lemma {:induction false} RoundKeepsBudget(env: Env, st: Run, cfg: Config)
    requires Enforced(env, cfg) && !st.halted && BudgetOk(st, EffectivePerRunCeiling(cfg).value)
    requires st.depth == 0 ==> st.journal == []
    ensures BudgetOk(RunRound(env, st), EffectivePerRunCeiling(cfg).value)
  {
    var ceiling := EffectivePerRunCeiling(cfg).value;
    var started := StartRound(st);
    assert BudgetOk(started, ceiling);
    CarryKeepsBudget(env, started, env.plan.channels, ceiling);
    var ready := CarryForward(started, CarriedAt(env, started.depth), env.plan.channels);
    LevelsKeepBudget(env, ready, env.plan.levels, cfg);
    var leveled := RunLevels(env, ready, env.plan.levels);
    SynthesizeKeepsBudget(env, leveled, cfg);
  }

  lemma {:induction false} SynthesizeKeepsBudget(env: Env, st: Run, cfg: Config)
    requires Enforced(env, cfg) && BudgetOk(st, EffectivePerRunCeiling(cfg).value)
    ensures BudgetOk(Synthesize(env, st), EffectivePerRunCeiling(cfg).value)
  {
    if env.plan.synthesis.Some? && !st.halted {
      var c := env.plan.synthesis.value;
      var req := Request(c, true, map[], Summaries(st.round), PreviousSynthesis(st), st.depth);
      GatedKeepsBudget(env, st, c, true, req, cfg);
      var (gated, r) := RunGated(env, st, c, true, req);
      SynthesisSetAside(gated, r, EffectivePerRunCeiling(cfg).value);
    }
  }

  /** Keeping the result of a synthesis changes nothing the budget looks at. */
  lemma {:induction false} SynthesisSetAside(st: Run, synthesis: Option<ChannelResult>, ceiling: real)
    requires BudgetOk(st, ceiling)
    ensures BudgetOk(st.(synthesis := synthesis), ceiling)
  {
  }

  lemma {:induction false} RoundsKeepBudget(env: Env, st: Run, cfg: Config)
    requires Enforced(env, cfg) && !st.halted && BudgetOk(st, EffectivePerRunCeiling(cfg).value)
    requires st.depth == 0 ==> st.journal == []
    ensures BudgetOk(RunRounds(env, st), EffectivePerRunCeiling(cfg).value)
    decreases env.plan.maxDepth - st.depth
  {
    RoundKeepsBudget(env, st, cfg);
    var next := RunRound(env, st);
    if GoesOn(env, next) {
      RoundDeepens(env, st);
      RoundsKeepBudget(env, next, cfg);
    }
  }

  /** What is left of a budget `max` when the margin of the configuration, none by default, is kept back. */
  ghost predicate IsRest(cfg: Config, max: real, rest: real) {
    match cfg.safetyMargin
    case None => rest == max
    case Some(margin) => rest == max * (1.0 - margin)
  }

  lemma {:induction false} CeilingIsTheRest(cfg: Config)
    ensures cfg.maxPerRun.None? ==> EffectivePerRunCeiling(cfg).None?
    ensures cfg.maxPerRun.Some? ==>
      EffectivePerRunCeiling(cfg).Some? && IsRest(cfg, cfg.maxPerRun.value, EffectivePerRunCeiling(cfg).value)
  {
  }

  /**
   * Wherever in the list of policies a per-run budget `m` is registered, on fresh
   * and on resumed runs, across all rounds: every execution starts with the known
   * cost strictly below what is left of it, so once a channel has executed the
   * total without the last executed channel is below that, and a run that was not
   * halted is below it outright.
   */
  lemma {:induction false} OvershootIsOneChannel(env: Env, cfg: Config, m: real, rest: real)
    requires CostBudgetPolicy(cfg) in env.policies && cfg.maxPerRun == Some(m) && IsRest(cfg, m, rest)
    ensures var st := Execute(env);
      && ResultIds(st.channels) == Recorded(st.journal)
      && StartedBelow(st.journal, rest)
      && (LastExecuted(st.journal).Some? ==>
            && st.channels != []
            && st.channels[|st.channels| - 1].channelId == LastExecuted(st.journal).value.channelId
            && SumCost(st.channels[..|st.channels| - 1]) < rest
            && (!st.halted ==> SumCost(st.channels) < rest))
  {
    CeilingIs(cfg, m, rest);
    BudgetKept(env, cfg);
  }

  lemma {:induction false} CeilingIs(cfg: Config, m: real, rest: real)
    requires cfg.maxPerRun == Some(m) && IsRest(cfg, m, rest)
    ensures EffectivePerRunCeiling(cfg) == Some(rest)
  {
    CeilingIsTheRest(cfg);
    OneRest(cfg, m, rest, EffectivePerRunCeiling(cfg).value);
  }

  lemma {:induction false} OneRest(cfg: Config, max: real, a: real, b: real)
    requires IsRest(cfg, max, a) && IsRest(cfg, max, b)
    ensures a == b
  {
    match cfg.safetyMargin
    case None =>
    case Some(margin) =>
      assert a == max * (1.0 - margin);
      assert b == max * (1.0 - margin);
  }

  lemma {:induction false} BudgetKept(env: Env, cfg: Config)
    requires Enforced(env, cfg)
    ensures BudgetOk(Execute(env), EffectivePerRunCeiling(cfg).value)
  {
    assert ResultIds([]) == Recorded([]);
    RoundsKeepBudget(env, Initial, cfg);
  }

  /** The known costs of `rs` have used up what is left of the budget, if there is one. */
  ghost predicate Spent(cfg: Config, rs: seq<ChannelResult>) {
    cfg.maxPerRun.Some? && exists rest :: IsRest(cfg, cfg.maxPerRun.value, rest) && SumCost(rs) >= rest
  }

  /**
   * The before-hook aborts exactly when the known cost has used up what is left of
   * the budget; the after-hook halts exactly then, or when the channel alone cost
   * more than a channel may.
   */
  lemma {:induction false} HooksFollowKnownCost(cfg: Config, ps: seq<Policy>, before: BeforeContext,
      after: AfterContext)
    requires ps == [CostBudgetPolicy(cfg)]
    ensures BeforeHooks(ps, before).1 == if Spent(cfg, before.completed) then Abort else Proceed
    ensures AfterHooks(ps, after).1 <==>
      || Spent(cfg, after.completed)
      || match (cfg.maxPerChannel, after.result.usage.costUsd)
         case (None, _) => false
         case (Some(most), Some(cost)) => cost > most
         case (Some(most), None) => 0.0 > most
  {
    CeilingIsTheRest(cfg);
    assert ps[1..] == [];
    assert BeforeHooks([], before) == ([], Proceed) && AfterHooks([], after) == ([], false);
    ReachedIsSpent(cfg, before.completed);
    ReachedIsSpent(cfg, after.completed);
  }

  lemma {:induction false} ReachedIsSpent(cfg: Config, rs: seq<ChannelResult>)
    ensures Reached(cfg, rs) <==> Spent(cfg, rs)
  {
    CeilingIsTheRest(cfg);
  }
}

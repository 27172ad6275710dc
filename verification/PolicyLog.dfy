/** What the policy log of a run looks like, and what stops a run. */
module PolicyLog {
  import opened Prelude
  import opened Graph
  import opened RunModel

  /** The ids of the policies with a before-hook, in registration order. */
  function BeforeIds(ps: seq<Policy>): seq<string> {
    if ps == [] then [] else (if ps[0].before.Some? then [ps[0].policyId] else []) + BeforeIds(ps[1..])
  }

  function AfterIds(ps: seq<Policy>): seq<string> {
    if ps == [] then [] else (if ps[0].after.Some? then [ps[0].policyId] else []) + AfterIds(ps[1..])
  }

  function PolicyIds(ds: seq<Decision>): (r: seq<string>)
    ensures |r| == |ds|
  {
    seq(|ds|, i requires 0 <= i < |ds| => ds[i].policyId)
  }

  ghost predicate AllProceed(ds: seq<Decision>) {
    forall i :: 0 <= i < |ds| ==> ds[i].ruling == Before(Proceed)
  }

  /** Before-entries of channel `x`: a prefix of the registered hooks, only the last of which may not proceed. */
  ghost predicate BeforeSegment(ps: seq<Policy>, x: Id, ds: seq<Decision>, executed: bool) {
    && |ds| <= |BeforeIds(ps)|
    && PolicyIds(ds) == BeforeIds(ps)[..|ds|]
    && (forall i :: 0 <= i < |ds| ==> ds[i].channelId == x && ds[i].ruling.Before?)
    && (if executed then AllProceed(ds) && |ds| == |BeforeIds(ps)|
        else ds != [] && AllProceed(ds[..|ds| - 1]) && ds[|ds| - 1].ruling.before != Proceed)
  }

  /** After-entries of channel `x`: one for every registered after-hook. */
  ghost predicate AfterSegment(ps: seq<Policy>, x: Id, ds: seq<Decision>) {
    && PolicyIds(ds) == AfterIds(ps)
    && forall i :: 0 <= i < |ds| ==> ds[i].channelId == x && ds[i].ruling.After?
  }

  lemma {:induction false} StoppedAtFirst(ps: seq<Policy>, x: Id, d: Decision)
    requires ps != [] && ps[0].before.Some? && d.policyId == ps[0].policyId && d.channelId == x
    requires d.ruling.Before? && d.ruling.before != Proceed
    ensures BeforeSegment(ps, x, [d], false)
  {
    assert [d][..0] == [];
    assert PolicyIds([d]) == BeforeIds(ps)[..1];
  }

  lemma {:induction false} WentOn(ps: seq<Policy>, x: Id, d: Decision, ds: seq<Decision>, executed: bool)
    requires ps != [] && ps[0].before.Some? && d.policyId == ps[0].policyId && d.channelId == x
    requires d.ruling == Before(Proceed) && BeforeSegment(ps[1..], x, ds, executed)
    ensures BeforeSegment(ps, x, [d] + ds, executed)
  {
    assert PolicyIds([d] + ds) == [ps[0].policyId] + PolicyIds(ds);
    assert !executed ==> ([d] + ds)[..|ds|] == [d] + ds[..|ds| - 1];
  }

  lemma {:induction false} BeforeHooksSegment(ps: seq<Policy>, ctx: BeforeContext)
    ensures var (ds, decision) := BeforeHooks(ps, ctx);
      && BeforeSegment(ps, ctx.channelId, ds, decision == Proceed)
      && (decision != Proceed ==> ds[|ds| - 1].ruling == Before(decision))
  {
    if ps != [] {
      var rest := ps[1..];
      BeforeHooksSegment(rest, ctx);
      if ps[0].before.Some? {
        var v := ps[0].before.value(ctx);
        var d := Decision(ps[0].policyId, ctx.channelId, Before(v.decision), v.reason);
        var (ds, decision) := BeforeHooks(rest, ctx);
        if v.decision != Proceed {
          StoppedAtFirst(ps, ctx.channelId, d);
        } else {
          WentOn(ps, ctx.channelId, d, ds, decision == Proceed);
        }
      }
    }
  }

  lemma {:induction false} AfterHooksSegment(ps: seq<Policy>, ctx: AfterContext)
    ensures var (ds, halt) := AfterHooks(ps, ctx);
      && AfterSegment(ps, ctx.channelId, ds)
      && (halt <==> exists i :: 0 <= i < |ds| && ds[i].ruling == After(Halt))
  {
    if ps != [] {
      var rest := ps[1..];
      AfterHooksSegment(rest, ctx);
      if ps[0].after.Some? {
        var v := ps[0].after.value(ctx);
        var d := Decision(ps[0].policyId, ctx.channelId, After(v.decision), v.reason);
        var (ds, halt) := AfterHooks(rest, ctx);
        assert PolicyIds([d] + ds) == [ps[0].policyId] + PolicyIds(ds);
        if v.decision == Halt {
          assert ([d] + ds)[0].ruling == After(Halt);
        } else if halt {
          var i :| 0 <= i < |ds| && ds[i].ruling == After(Halt);
          assert ([d] + ds)[i + 1].ruling == After(Halt);
        }
      }
    }
  }

  ghost predicate RuledBefore(ps: seq<Policy>, ctx: BeforeContext, d: Decision) {
    exists p :: p in ps && p.before.Some? &&
      var v := p.before.value(ctx); d == Decision(p.policyId, ctx.channelId, Before(v.decision), v.reason)
  }

  ghost predicate RuledAfter(ps: seq<Policy>, ctx: AfterContext, d: Decision) {
    exists p :: p in ps && p.after.Some? &&
      var v := p.after.value(ctx); d == Decision(p.policyId, ctx.channelId, After(v.decision), v.reason)
  }

  /** Each decision is what its policy's hook says of the context, with its reason. */
  lemma {:induction false} DecisionsAreVerdicts(ps: seq<Policy>, before: BeforeContext, after: AfterContext)
    ensures forall d :: d in BeforeHooks(ps, before).0 ==> RuledBefore(ps, before, d)
    ensures forall d :: d in AfterHooks(ps, after).0 ==> RuledAfter(ps, after, d)
  {
    if ps != [] {
      var rest := ps[1..];
      DecisionsAreVerdicts(rest, before, after);
      assert ps == [ps[0]] + rest;
      forall d | d in BeforeHooks(ps, before).0 ensures RuledBefore(ps, before, d) {
        assert d in BeforeHooks(rest, before).0 ==> RuledBefore(rest, before, d);
      }
      forall d | d in AfterHooks(ps, after).0 ensures RuledAfter(ps, after, d) {
        assert d in AfterHooks(rest, after).0 ==> RuledAfter(rest, after, d);
      }
    }
  }

  // ----- the journal ------------------------------------------------------

  function DecisionsOf(e: Event): seq<Decision> {
    if e.Carried? then [] else e.decisions
  }

  function Segments(journal: seq<Event>): (r: seq<seq<Decision>>)
    ensures |r| == |journal|
  {
    seq(|journal|, i requires 0 <= i < |journal| => DecisionsOf(journal[i]))
  }

  ghost predicate EventOk(ps: seq<Policy>, e: Event) {
    match e
    case Carried(_, _, _) => true
    case Gated(_, x, _, _, _, _, ds, executed) => BeforeSegment(ps, x, ds, executed)
    case Reviewed(_, x, _, ds, _, _, _) => AfterSegment(ps, x, ds)
  }

  predicate Stopping(d: Decision) {
    d.ruling == Before(Abort) || d.ruling == After(Halt)
  }

  /** The event holds an abort or a halt. */
  predicate Stops(e: Event) {
    exists i :: 0 <= i < |DecisionsOf(e)| && Stopping(DecisionsOf(e)[i])
  }

  predicate Reviews(e: Event, gate: Event)
    requires gate.Gated?
  {
    e.Reviewed? && e.channelId == gate.channelId && e.isSynthesis == gate.isSynthesis && e.depth == gate.depth
  }

  /** A channel that goes ahead is reviewed next, and only such a channel is reviewed. */
  ghost predicate PairedAt(journal: seq<Event>, i: nat)
    requires i < |journal|
  {
    var e := journal[i];
    && (e.Gated? && e.executed ==> i + 1 < |journal| && Reviews(journal[i + 1], e))
    && (e.Reviewed? ==>
      i > 0 && journal[i - 1].Gated? && journal[i - 1].executed && journal[i - 1].channelId == e.channelId)
  }

  predicate EndsStopped(journal: seq<Event>) {
    journal != [] && Stops(journal[|journal| - 1])
  }

  ghost predicate AllEventsOk(ps: seq<Policy>, journal: seq<Event>) {
    forall i {:trigger journal[i]} :: 0 <= i < |journal| ==> EventOk(ps, journal[i])
  }

  ghost predicate Paired(journal: seq<Event>) {
    forall i {:trigger PairedAt(journal, i)} :: 0 <= i < |journal| ==> PairedAt(journal, i)
  }

  /** No event before position `n` stops the run. */
  ghost predicate QuietBefore(journal: seq<Event>, n: int)
    requires n <= |journal|
  {
    forall i {:trigger journal[i]} :: 0 <= i < n ==> !Stops(journal[i])
  }

  /** The log is the concatenation of well-formed segments, and only the last event may stop the run. */
  ghost predicate LogOk(ps: seq<Policy>, journal: seq<Event>, log: seq<Decision>) {
    && log == Flatten(Segments(journal))
    && AllEventsOk(ps, journal)
    && Paired(journal)
    && QuietBefore(journal, |journal| - 1)
  }

  ghost predicate JournalOk(env: Env, st: Run) {
    && LogOk(env.policies, st.journal, st.policy)
    && (st.halted <==> EndsStopped(st.journal))
    && (st.halted ==> st.aborted && st.journal[|st.journal| - 1].depth == st.depth)
  }

  lemma {:induction false} SegmentsSnoc(journal: seq<Event>, e: Event)
    ensures Flatten(Segments(journal + [e])) == Flatten(Segments(journal)) + DecisionsOf(e)
  {
    assert Segments(journal + [e]) == Segments(journal) + [DecisionsOf(e)];
    FlattenSnoc(Segments(journal), DecisionsOf(e));
  }

  lemma {:induction false} GatedKeepsJournal(env: Env, st: Run, c: Channel, isSynthesis: bool, req: Request)
    requires JournalOk(env, st) && !st.halted
    ensures JournalOk(env, RunGated(env, st, c, isSynthesis, req).0)
  {
    var s := Sense(env, st);
    if !s.aborted {
      var ctx := BeforeContext(c.id, isSynthesis, s.depth, s.channels);
      BeforeHooksSegment(env.policies, ctx);
      var (admitted, go) := Admit(env, s, c, isSynthesis);
      var gate := admitted.journal[|s.journal|];
      SegmentsSnoc(s.journal, gate);
      if !go {
        StopOfGate(env.policies, gate);
        AppendKeepsOk(env, st, admitted, gate);
      } else {
        var (performed, result) := Perform(env, admitted, c, req);
        AfterHooksSegment(env.policies,
          AfterContext(c.id, isSynthesis, performed.depth, result, performed.channels + [result]));
        var reviewed := Review(env, performed, c, isSynthesis, req, admitted.tick, result);
        var review := reviewed.journal[|performed.journal|];
        SegmentsSnoc(performed.journal, review);
        StopOfGate(env.policies, gate);
        AppendPairKeepsOk(env, st, reviewed, gate, review);
      }
    }
  }

  lemma {:induction false} StopOfGate(ps: seq<Policy>, e: Event)
    requires e.Gated? && EventOk(ps, e)
    ensures e.executed ==> !Stops(e)
    ensures !e.executed ==> (Stops(e) <==> e.decisions[|e.decisions| - 1].ruling == Before(Abort))
  {
    if !e.executed {
      var n := |e.decisions| - 1;
      forall i | 0 <= i < n ensures !Stopping(e.decisions[i]) {
        assert e.decisions[..n][i].ruling == Before(Proceed);
      }
      assert Stopping(DecisionsOf(e)[n]) <==> e.decisions[n].ruling == Before(Abort);
    }
  }

  lemma {:induction false} PairedSnoc(journal: seq<Event>, e: Event)
    requires Paired(journal) && !(e.Gated? && e.executed) && !e.Reviewed?
    ensures Paired(journal + [e])
  {
    var j := journal + [e];
    forall i {:trigger PairedAt(j, i)} | 0 <= i < |j| ensures PairedAt(j, i) {
      if i < |journal| {
        assert PairedAt(journal, i);
      }
    }
  }

  lemma {:induction false} PairedSnocPair(journal: seq<Event>, gate: Event, review: Event)
    requires Paired(journal) && gate.Gated? && gate.executed && Reviews(review, gate)
    ensures Paired(journal + [gate] + [review])
  {
    var j := journal + [gate] + [review];
    forall i {:trigger PairedAt(j, i)} | 0 <= i < |j| ensures PairedAt(j, i) {
      if i < |journal| {
        assert PairedAt(journal, i);
      }
    }
  }

  lemma {:induction false} QuietSnoc(journal: seq<Event>, e: Event)
    requires QuietBefore(journal, |journal| - 1) && !EndsStopped(journal)
    ensures QuietBefore(journal + [e], |journal + [e]| - 1)
    ensures EndsStopped(journal + [e]) <==> Stops(e)
  {
  }

  lemma {:induction false} AppendKeepsOk(env: Env, st: Run, st': Run, e: Event)
    requires JournalOk(env, st) && !st.halted
    requires st'.journal == st.journal + [e] && st'.policy == Flatten(Segments(st'.journal)) && st'.depth == st.depth
    requires EventOk(env.policies, e) && !(e.Gated? && e.executed) && !e.Reviewed?
    requires st'.halted <==> Stops(e)
    requires st'.halted ==> st'.aborted && e.depth == st.depth
    ensures JournalOk(env, st')
  {
    PairedSnoc(st.journal, e);
    QuietSnoc(st.journal, e);
  }

  lemma {:induction false} AppendPairKeepsOk(env: Env, st: Run, st': Run, gate: Event, review: Event)
    requires JournalOk(env, st) && !st.halted
    requires st'.journal == st.journal + [gate] + [review] && st'.policy == Flatten(Segments(st'.journal)) &&
      st'.depth == st.depth
    requires gate.Gated? && gate.executed && EventOk(env.policies, gate) && !Stops(gate)
    requires Reviews(review, gate) && EventOk(env.policies, review) && gate.depth == st.depth
    requires st'.halted <==> Stops(review)
    requires st'.halted ==> st'.aborted
    ensures JournalOk(env, st')
  {
    PairedSnocPair(st.journal, gate, review);
    QuietSnoc(st.journal, gate);
    QuietSnoc(st.journal + [gate], review);
  }

  lemma {:induction false} SequentialKeepsJournal(env: Env, st: Run, toRun: seq<Channel>)
    requires JournalOk(env, st) && !st.halted
    ensures JournalOk(env, SequentialLevel(env, st, toRun))
    decreases |toRun|
  {
    if toRun != [] {
      var req := ChannelRequest(st, toRun[0]);
      GatedKeepsJournal(env, st, toRun[0], false, req);
      var (gated, r) := RunGated(env, st, toRun[0], false, req);
      if !gated.halted {
        SequentialKeepsJournal(env, Record(gated, r), toRun[1..]);
      }
    }
  }

  lemma {:induction false} LevelsKeepJournal(env: Env, st: Run, levels: seq<seq<Channel>>)
    requires env.policies != [] && JournalOk(env, st)
    ensures JournalOk(env, RunLevels(env, st, levels))
    decreases |levels|
  {
    if levels != [] && !st.halted {
      var toRun := NotCarried(levels[0], CarriedAt(env, st.depth));
      SequentialKeepsJournal(env, st, toRun);
      LevelsKeepJournal(env, SequentialLevel(env, st, toRun), levels[1..]);
    }
  }

  lemma {:induction false} CarryKeepsJournal(env: Env, st: Run, carried: map<Id, ChannelResult>, cs: seq<Channel>)
    requires JournalOk(env, st) && !st.halted
    ensures JournalOk(env, CarryForward(st, carried, cs)) && !CarryForward(st, carried, cs).halted
    decreases |cs|
  {
    if cs != [] {
      if cs[0].id !in carried {
        CarryKeepsJournal(env, st, carried, cs[1..]);
      } else {
        var r := carried[cs[0].id];
        var s := Record(st, Some(r));
        var e := Carried(st.depth, r.channelId, r);
        var next := s.(journal := s.journal + [e]);
        SegmentsSnoc(st.journal, e);
        AppendKeepsOk(env, st, next, e);
        CarryKeepsJournal(env, next, carried, cs[1..]);
      }
    }
  }

  lemma {:induction false} RoundKeepsJournal(env: Env, st: Run)
    requires env.policies != [] && JournalOk(env, st) && !st.halted
    ensures JournalOk(env, RunRound(env, st))
  {
    var started := StartRound(st);
    assert JournalOk(env, started);
    var carried := CarriedAt(env, started.depth);
    CarryKeepsJournal(env, started, carried, env.plan.channels);
    var ready := CarryForward(started, carried, env.plan.channels);
    LevelsKeepJournal(env, ready, env.plan.levels);
    var leveled := RunLevels(env, ready, env.plan.levels);
    if env.plan.synthesis.Some? && !leveled.halted {
      var c := env.plan.synthesis.value;
      GatedKeepsJournal(env, leveled, c, true,
        Request(c, true, map[], Summaries(leveled.round), PreviousSynthesis(leveled), leveled.depth));
    }
  }

  lemma {:induction false} RoundsKeepJournal(env: Env, st: Run)
    requires env.policies != [] && JournalOk(env, st) && !st.halted
    ensures JournalOk(env, RunRounds(env, st))
    decreases env.plan.maxDepth - st.depth
  {
    RoundKeepsJournal(env, st);
    var next := RunRound(env, st);
    if GoesOn(env, next) {
      RoundDeepens(env, st);
      RoundsKeepJournal(env, next);
    }
  }

  /**
   * Over every run with policies, the recorded decisions are the concatenation
   * of the segments of the gated channels, each in registration order; a channel
   * executes exactly when all its before-hooks proceeded; and an event holding an
   * abort or a halt is the last event of the run, in its last round.
   */
  lemma {:induction false} PolicyLogOfRun(env: Env)
    requires env.policies != []
    ensures JournalOk(env, Execute(env))
  {
    assert Segments([]) == [];
    RoundsKeepJournal(env, Initial);
  }

  // ----- the log itself ---------------------------------------------------

  lemma {:induction false} FlattenHasNoStop(journal: seq<Event>, p: nat)
    requires QuietBefore(journal, |journal|)
    requires p < |Flatten(Segments(journal))|
    ensures !Stopping(Flatten(Segments(journal))[p])
    decreases |journal|
  {
    if journal != [] {
      var n := |journal| - 1;
      var front, last := journal[..n], journal[n];
      assert journal == front + [last];
      SegmentsSnoc(front, last);
      var flat := Flatten(Segments(front));
      if p < |flat| {
        assert forall i :: 0 <= i < |front| ==> front[i] == journal[i];
        FlattenHasNoStop(front, p);
      } else {
        assert !Stops(journal[n]);
        assert DecisionsOf(last)[p - |flat|] == Flatten(Segments(journal))[p];
      }
    }
  }

  /**
   * In the log of a run, an abort is the last entry, and after a halt only
   * after-hook entries of the halting channel follow.
   */
  lemma {:induction false} NothingFollowsAStop(env: Env, p: nat, q: nat)
    requires env.policies != []
    requires var log := Execute(env).policy; p < q < |log| && Stopping(log[p])
    ensures var log := Execute(env).policy;
      log[p].ruling == After(Halt) && log[q].ruling.After? && log[q].channelId == log[p].channelId
  {
    PolicyLogOfRun(env);
    var st := Execute(env);
    StopIsInLastEvent(env, st, p, q);
  }

  /** Where a decision that has successors and stops the run must be: inside the last event. */
  lemma {:induction false} StopIsInLastEvent(env: Env, st: Run, p: nat, q: nat)
    requires JournalOk(env, st) && p < q < |st.policy| && Stopping(st.policy[p])
    ensures st.policy[p].ruling == After(Halt) && st.policy[q].ruling.After? &&
      st.policy[q].channelId == st.policy[p].channelId
  {
    var j := st.journal;
    assert j == [] ==> Segments(j) == [];
    var front, last := j[..|j| - 1], j[|j| - 1];
    assert j == front + [last];
    SegmentsSnoc(front, last);
    assert forall i :: 0 <= i < |front| ==> front[i] == j[i];
    StopPastFront(front, DecisionsOf(last), p);
    StopPastFlat(env.policies, Flatten(Segments(front)), last, st.policy, p, q);
  }

  lemma {:induction false} StopPastFlat(ps: seq<Policy>, flat: seq<Decision>, last: Event, log: seq<Decision>, p: nat,
      q: nat)
    requires EventOk(ps, last) && log == flat + DecisionsOf(last)
    requires |flat| <= p < q < |log| && Stopping(log[p])
    ensures log[p].ruling == After(Halt) && log[q].ruling.After? && log[q].channelId == log[p].channelId
  {
    StopInEvent(ps, last, p - |flat|, q - |flat|);
  }

  lemma {:induction false} StopPastFront(front: seq<Event>, last: seq<Decision>, p: nat)
    requires QuietBefore(front, |front|)
    requires p < |Flatten(Segments(front)) + last| && Stopping((Flatten(Segments(front)) + last)[p])
    ensures p >= |Flatten(Segments(front))|
  {
    if p < |Flatten(Segments(front))| {
      FlattenHasNoStop(front, p);
    }
  }

  lemma {:induction false} StopInEvent(ps: seq<Policy>, e: Event, a: nat, b: nat)
    requires EventOk(ps, e) && a < b < |DecisionsOf(e)| && Stopping(DecisionsOf(e)[a])
    ensures var ds := DecisionsOf(e);
      ds[a].ruling == After(Halt) && ds[b].ruling.After? && ds[b].channelId == ds[a].channelId
  {
    var ds := DecisionsOf(e);
    if e.Gated? && !e.executed {
      forall i | 0 <= i < |ds| - 1 ensures ds[i].ruling == Before(Proceed) {
        assert ds[..|ds| - 1][i] == ds[i];
      }
    }
  }

  /** How many rounds a run makes: one without recursion, else at most the depth bound. */
  lemma {:induction false} RoundsBounded(env: Env)
    ensures 1 <= Execute(env).depth
    ensures !env.plan.recursionEnabled ==> Execute(env).depth == 1
    ensures Execute(env).depth <= if env.plan.maxDepth > 1 then env.plan.maxDepth else 1
  {
    RoundsFrom(env, Initial);
  }

  lemma {:induction false} RoundsFrom(env: Env, st: Run)
    ensures var d := RunRounds(env, st).depth;
      && st.depth + 1 <= d
      && (!env.plan.recursionEnabled ==> d == st.depth + 1)
      && (d == st.depth + 1 || d <= env.plan.maxDepth)
    decreases env.plan.maxDepth - st.depth
  {
    RoundDeepens(env, st);
    var next := RunRound(env, st);
    if GoesOn(env, next) {
      RoundsFrom(env, next);
    }
  }

  /** The known cost, of the channels so far and the latest synthesis, has reached the ceiling. */
  ghost predicate CostReached(st: Run, ceiling: real) {
    var all := st.channels + (if st.synthesis.Some? then [st.synthesis.value] else []);
    (exists r :: r in all && r.usage.costUsd.Some?) && SumCost(all) >= ceiling
  }

  /** After `n` rounds nothing has stopped the run and no bound on recursion is reached. */
  ghost predicate MayGoOn(env: Env, st: Run, n: nat) {
    && !st.halted && env.plan.recursionEnabled && n < env.plan.maxDepth
    && (env.maxRuntimeMs.Some? ==> env.elapsedMs(n) < env.maxRuntimeMs.value)
    && (env.maxCostUsd.Some? ==> !CostReached(st, env.maxCostUsd.value))
  }

  /** `rs` are the states a run is in after each of its rounds from `st` on, and it stopped as soon as it had to. */
  ghost predicate RoundsFromTo(env: Env, st: Run, rs: seq<Run>, end: Run) {
    && rs != [] && rs[|rs| - 1] == end
    && forall i: nat :: i < |rs| ==> RoundAt(env, st, rs, i)
  }

  /** Round `i` starts where the one before ended, and there is another one exactly when the run may go on. */
  ghost predicate RoundAt(env: Env, st: Run, rs: seq<Run>, i: nat)
    requires i < |rs|
  {
    && rs[i] == RunRound(env, if i == 0 then st else rs[i - 1])
    && rs[i].depth == st.depth + 1 + i
    && (i + 1 < |rs| <==> MayGoOn(env, rs[i], st.depth + 1 + i))
  }

  /** A run goes on to another round exactly as long as nothing has stopped it and no bound is reached. */
  lemma {:induction false} StopsExactlyAtABound(env: Env)
    ensures exists rs :: RoundsFromTo(env, Initial, rs, Execute(env))
  {
    var rs := RoundsUntil(env, Initial);
    assert RoundsFromTo(env, Initial, rs, Execute(env));
  }

  lemma {:induction false} RoundsUntil(env: Env, st: Run) returns (rs: seq<Run>)
    ensures RoundsFromTo(env, st, rs, RunRounds(env, st))
    decreases env.plan.maxDepth - st.depth
  {
    RoundDeepens(env, st);
    var next := RunRound(env, st);
    if GoesOn(env, next) {
      var rest := RoundsUntil(env, next);
      rs := [next] + rest;
      MoreRounds(env, st, next, rest, RunRounds(env, next));
    } else {
      rs := [next];
    }
  }

  lemma {:induction false} MoreRounds(env: Env, st: Run, next: Run, rest: seq<Run>, end: Run)
    requires next == RunRound(env, st) && next.depth == st.depth + 1 && GoesOn(env, next)
    requires RoundsFromTo(env, next, rest, end)
    ensures RoundsFromTo(env, st, [next] + rest, end)
  {
    var rs := [next] + rest;
    forall i: nat | i < |rs| ensures RoundAt(env, st, rs, i) {
      if i > 0 {
        RoundLater(env, st, next, rest, i - 1);
      }
    }
  }

  lemma {:induction false} RoundLater(env: Env, st: Run, next: Run, rest: seq<Run>, i: nat)
    requires i < |rest| && RoundAt(env, next, rest, i) && next.depth == st.depth + 1
    ensures RoundAt(env, st, [next] + rest, i + 1)
  {
    assert ([next] + rest)[i + 1] == rest[i];
  }
}

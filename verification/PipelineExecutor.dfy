/** The executor itself: its fields are updated in place, round by round, as RunModel says. */
module PipelineExecutor {
  import opened Prelude
  import opened Graph
  import opened RunModel
  import L = Limiter
  import opened Coverage
  import opened RunStatus

  lemma {:induction false} AfterHooksConcat(a: seq<Policy>, b: seq<Policy>, ctx: AfterContext)
    ensures AfterHooks(a + b, ctx).0 == AfterHooks(a, ctx).0 + AfterHooks(b, ctx).0
    ensures AfterHooks(a + b, ctx).1 == (AfterHooks(a, ctx).1 || AfterHooks(b, ctx).1)
  {
    if a == [] {
      assert a + b == b;
    } else {
      assert (a + b)[1..] == a[1..] + b;
      AfterHooksConcat(a[1..], b, ctx);
    }
  }

  class PipelineExecutor {
    const env: Env

    var channels: seq<ChannelResult>
    var synthesis: Option<ChannelResult>
    var policy: seq<Decision>
    var depth: nat
    var halted: bool
    var aborted: bool
    var completed: map<Id, ChannelResult>
    var round: seq<Option<ChannelResult>>
    var store: map<string, string>
    var tick: nat
    var journal: seq<Event>

    function View(): Run
      reads this
    {
      Run(channels, synthesis, policy, depth, halted, aborted, completed, round, store, tick, journal)
    }

    constructor (env: Env)
      ensures this.env == env && View() == Initial
    {
      this.env := env;
      channels, synthesis, policy, depth, halted, aborted := [], None, [], 0, false, false;
      completed, round, store, tick, journal := map[], [], map[], 0, [];
    }

    /** The before-hooks in registration order; stops at the first that does not proceed. */
    method CallBeforeHooks(ctx: BeforeContext) returns (ds: seq<Decision>, decision: BeforeDecision)
      modifies this`policy
      ensures ds == BeforeHooks(env.policies, ctx).0 && decision == BeforeHooks(env.policies, ctx).1
      ensures policy == old(policy) + ds
    {
      decision := Proceed;
      ds := [];
      var i := 0;
      assert env.policies[0..] == env.policies;
      while i < |env.policies| && decision == Proceed
        invariant i <= |env.policies|
        invariant policy == old(policy) + ds
        invariant decision == Proceed ==>
          BeforeHooks(env.policies, ctx).0 == ds + BeforeHooks(env.policies[i..], ctx).0 &&
          BeforeHooks(env.policies, ctx).1 == BeforeHooks(env.policies[i..], ctx).1
        invariant decision != Proceed ==> BeforeHooks(env.policies, ctx) == (ds, decision)
      {
        var p := env.policies[i];
        assert env.policies[i..][1..] == env.policies[i + 1..];
        if p.before.Some? {
          var verdict := p.before.value(ctx);
          var d := Decision(p.policyId, ctx.channelId, Before(verdict.decision), verdict.reason);
          policy, ds, decision := policy + [d], ds + [d], verdict.decision;
        }
        i := i + 1;
      }
      assert i == |env.policies| ==> env.policies[i..] == [];
    }

    /** Ask the policies; the channel goes ahead exactly when all of them proceed. */
    method AskPolicies(c: Channel, isSynthesis: bool) returns (go: bool)
      modifies this
      ensures (View(), go) == Admit(env, old(View()), c, isSynthesis)
    {
      var known := SumCost(channels);
      var ds, decision := CallBeforeHooks(BeforeContext(c.id, isSynthesis, depth, channels));
      go := decision == Proceed;
      journal := journal + [Gated(depth, c.id, isSynthesis, c.dependsOn, completed.Keys, known, ds, go)];
      if decision == Abort {
        halted, aborted := true, true;
      }
    }

    /** One after-hook, if the policy has it. */
    method CallAfterHook(p: Policy, ctx: AfterContext) returns (ds: seq<Decision>)
      modifies this`policy, this`halted, this`aborted
      ensures ds == AfterHooks([p], ctx).0 && policy == old(policy) + ds
      ensures halted == (old(halted) || AfterHooks([p], ctx).1)
      ensures aborted == (old(aborted) || AfterHooks([p], ctx).1)
    {
      ds := [];
      assert [p][1..] == [];
      if p.after.Some? {
        var verdict := p.after.value(ctx);
        ds := [Decision(p.policyId, ctx.channelId, After(verdict.decision), verdict.reason)];
        policy := policy + ds;
        if verdict.decision == Halt {
          halted, aborted := true, true;
        }
      }
    }

    /** All the after-hooks in registration order; any of them may halt the run. */
    method CallAfterHooks(ctx: AfterContext) returns (ds: seq<Decision>)
      modifies this`policy, this`halted, this`aborted
      ensures ds == AfterHooks(env.policies, ctx).0 && policy == old(policy) + ds
      ensures halted == (old(halted) || AfterHooks(env.policies, ctx).1)
      ensures aborted == (old(aborted) || AfterHooks(env.policies, ctx).1)
    {
      ds := [];
      for i := 0 to |env.policies|
        invariant ds == AfterHooks(env.policies[..i], ctx).0 && policy == old(policy) + ds
        invariant halted == (old(halted) || AfterHooks(env.policies[..i], ctx).1)
        invariant aborted == (old(aborted) || AfterHooks(env.policies[..i], ctx).1)
      {
        var more := CallAfterHook(env.policies[i], ctx);
        assert env.policies[..i + 1] == env.policies[..i] + [env.policies[i]];
        AfterHooksConcat(env.policies[..i], [env.policies[i]], ctx);
        ds := ds + more;
      }
      assert env.policies[..|env.policies|] == env.policies;
    }

    method ReviewResult(c: Channel, isSynthesis: bool, req: Request, asked: nat, result: ChannelResult)
      modifies this
      ensures View() == Review(env, old(View()), c, isSynthesis, req, asked, result)
    {
      var ds := CallAfterHooks(AfterContext(c.id, isSynthesis, depth, result, channels + [result]));
      journal := journal + [Reviewed(depth, c.id, isSynthesis, ds, req, asked, result)];
    }

    method ObserveSignal()
      modifies this
      ensures View() == Sense(env, old(View()))
    {
      aborted := aborted || env.signalled(tick);
      tick := tick + 1;
    }

    /** Call the provider and save its raw output. */
    method RunOne(c: Channel, req: Request) returns (result: ChannelResult)
      modifies this
      ensures (View(), result) == Perform(env, old(View()), c, req)
    {
      var o := env.execute(req, tick);
      tick := tick + 1;
      var ref: Option<string> := None;
      if o.raw.Some? {
        store := store[RawRef(c) := o.raw.value];
        ref := Some(RawRef(c));
      }
      result := ChannelResult(c.id, o.provider, o.model, o.status, o.usage, ref, o.parsedOutput, o.schemaValid,
        o.validationErrors);
    }

    method RunGatedChannel(c: Channel, isSynthesis: bool, req: Request) returns (r: Option<ChannelResult>)
      modifies this
      ensures (View(), r) == RunGated(env, old(View()), c, isSynthesis, req)
    {
      ObserveSignal();
      if aborted {
        return None;
      }
      var go := AskPolicies(c, isSynthesis);
      if !go {
        return None;
      }
      var asked := tick;
      var result := RunOne(c, req);
      ReviewResult(c, isSynthesis, req, asked, result);
      return Some(result);
    }

    method RecordCompleted(r: Option<ChannelResult>)
      modifies this
      ensures View() == Record(old(View()), r)
    {
      round := round + [r];
      if r.Some? {
        channels := channels + [r.value];
        completed := completed[r.value.channelId := r.value];
      }
    }

    method RunSequentially(toRun: seq<Channel>)
      modifies this
      ensures View() == SequentialLevel(env, old(View()), toRun)
    {
      ghost var start := View();
      var i := 0;
      assert toRun[0..] == toRun;
      while i < |toRun|
        invariant i <= |toRun|
        invariant SequentialLevel(env, start, toRun) == SequentialLevel(env, View(), toRun[i..])
      {
        assert toRun[i..][1..] == toRun[i + 1..];
        var req := ChannelRequest(View(), toRun[i]);
        var r := RunGatedChannel(toRun[i], false, req);
        RecordCompleted(r);
        if halted {
          return;
        }
        i := i + 1;
      }
    }

    /** All channels of a level at once: the schedule decides which task moves next. */
    method RunConcurrently(toRun: seq<Channel>)
      modifies this
      ensures View() == ConcurrentLevel(env, old(View()), toRun)
    {
      ghost var start := View();
      var reqs := Requests(View(), toRun);
      ghost var first := TakeOff(env, start, toRun);
      var tasks := L.Launched(Providers(toRun));
      var results: seq<Option<ChannelResult>> := seq(|toRun|, i => None);
      var live: set<nat> := {};
      assert FlightOk(env, Flight(View(), tasks, results, live), toRun, reqs);
      while !L.AllDone(tasks.phase)
        invariant FlightOk(env, Flight(View(), tasks, results, live), toRun, reqs)
        invariant Drain(env, first, toRun, reqs) == Drain(env, Flight(View(), tasks, results, live), toRun, reqs)
        decreases L.Remaining(tasks.phase)
      {
        ghost var before := Flight(View(), tasks, results, live);
        var i := L.Choose(env.caps, tasks, env.schedule(tasks.phase, tick));
        L.StepSafe(env.caps, tasks, i);
        L.StepDrains(env.caps, tasks, i);
        var moved := L.Step(env.caps, tasks, i);
        if moved.phase[i] == L.Running {
          ObserveSignal();
          if !aborted {
            var go := AskPolicies(toRun[i], false);
            live := live + {i};
          }
        } else if moved.phase[i] == L.Done && i in live {
          var asked := tick;
          var result := RunOne(toRun[i], reqs[i]);
          ReviewResult(toRun[i], false, reqs[i], asked, result);
          results := results[i := Some(result)];
        }
        tasks := moved;
        assert Flight(View(), tasks, results, live) == MoveTask(env, before, toRun, reqs, i);
      }
      ghost var landed := Flight(View(), tasks, results, live);
      assert Drain(env, first, toRun, reqs) == landed;
      assert results[0..] == results;
      for k := 0 to |results|
        invariant RecordAll(landed.run, results) == RecordAll(View(), results[k..])
      {
        assert results[k..][1..] == results[k + 1..];
        RecordCompleted(results[k]);
      }
    }

    /** Splice in the carried results of this round. */
    method CarryForwardChannels(carried: map<Id, ChannelResult>)
      modifies this
      ensures View() == CarryForward(old(View()), carried, env.plan.channels)
    {
      ghost var start := View();
      var cs := env.plan.channels;
      assert cs[0..] == cs;
      for i := 0 to |cs|
        invariant CarryForward(start, carried, cs) == CarryForward(View(), carried, cs[i..])
      {
        assert cs[i..][1..] == cs[i + 1..];
        if cs[i].id in carried {
          RecordCompleted(Some(carried[cs[i].id]));
          journal := journal + [Carried(depth, carried[cs[i].id].channelId, carried[cs[i].id])];
        }
      }
    }

    method RunAllLevels()
      modifies this
      ensures View() == RunLevels(env, old(View()), env.plan.levels)
    {
      ghost var start := View();
      var levels := env.plan.levels;
      assert levels[0..] == levels;
      var i := 0;
      while i < |levels| && !halted
        invariant i <= |levels|
        invariant RunLevels(env, start, levels) == RunLevels(env, View(), levels[i..])
      {
        assert levels[i..][1..] == levels[i + 1..];
        var toRun := NotCarried(levels[i], CarriedAt(env, depth));
        if |env.policies| > 0 {
          RunSequentially(toRun);
        } else {
          RunConcurrently(toRun);
        }
        i := i + 1;
      }
    }

    method RunSynthesis()
      modifies this
      ensures View() == Synthesize(env, old(View()))
    {
      if env.plan.synthesis.Some? && !halted {
        var c := env.plan.synthesis.value;
        var req := Request(c, true, map[], Summaries(round), PreviousSynthesis(View()), depth);
        var r := RunGatedChannel(c, true, req);
        if r.Some? {
          synthesis := r;
        }
      }
    }

    method RunOneRound()
      modifies this
      ensures View() == RunRound(env, old(View()))
    {
      depth, completed, round := depth + 1, map[], [];
      assert View() == StartRound(old(View()));
      CarryForwardChannels(CarriedAt(env, depth));
      RunAllLevels();
      RunSynthesis();
    }

    /** The run loop: rounds until a halt, or until the recursion policy stops. */
    method RunPipeline() returns (report: Report)
      requires View() == Initial
      modifies this
      ensures View() == Execute(env)
      ensures var all := channels + (match synthesis case Some(r) => [r] case None => []);
        report.status == FinalStatus(all) && report.errors == InvalidEntries(all) &&
          (report.valid <==> report.errors == [])
    {
      var running := true;
      while running
        invariant running ==> RunRounds(env, View()) == Execute(env)
        invariant !running ==> View() == Execute(env)
        decreases running, env.plan.maxDepth - depth
      {
        RoundDeepens(env, View());
        RunOneRound();
        running := !halted;
        if running {
          var goOn := ShouldRecurse(depth, env.plan.maxDepth, env.elapsedMs(depth), TotalCost(View()),
            env.maxRuntimeMs, env.maxCostUsd);
          running := env.plan.recursionEnabled && goOn;
        }
      }
      report := ReportOn(Reported(View()));
    }
  }

  // ----- resume -----------------------------------------------------------

  /** The hashes a run recorded, per channel and in the order recorded. */
  datatype Source = Source(pipelineHash: string, promptHashes: seq<(Id, string)>, schemaHashes: seq<(Id, string)>)

  /** The hashes of the pipeline as it is now: prompts of all its channels, schemas of those that have one. */
  datatype Current = Current(pipelineHash: string, promptHashes: map<Id, string>, schemaHashes: map<Id, string>)

  datatype Asset = Prompt | Schema

  datatype Mismatch =
    | PipelineChanged(prior: string, current: string)
    | Gone(asset: Asset, channelId: Id)
    | Changed(asset: Asset, channelId: Id, prior: string, current: string)

  datatype ResumeError = RunNotFound | HashMismatch(mismatches: seq<Mismatch>)

  predicate Holds(entry: (Id, string), current: map<Id, string>) {
    entry.0 in current && current[entry.0] == entry.1
  }

  /** Every recorded hash still holds. */
  ghost predicate Unchanged(prior: Source, current: Current) {
    && prior.pipelineHash == current.pipelineHash
    && (forall e :: e in prior.promptHashes ==> Holds(e, current.promptHashes))
    && (forall e :: e in prior.schemaHashes ==> Holds(e, current.schemaHashes))
  }

  function MismatchAt(asset: Asset, e: (Id, string), current: map<Id, string>): seq<Mismatch> {
    if Holds(e, current) then []
    else [if e.0 in current then Changed(asset, e.0, e.1, current[e.0]) else Gone(asset, e.0)]
  }

  function PerEntry(asset: Asset, entries: seq<(Id, string)>, current: map<Id, string>): seq<seq<Mismatch>> {
    seq(|entries|, i requires 0 <= i < |entries| => MismatchAt(asset, entries[i], current))
  }

  /** One mismatch for each recorded hash that no longer holds, in order: pipeline, prompts, schemas. */
  function AllMismatches(prior: Source, current: Current): seq<Mismatch> {
    (if prior.pipelineHash == current.pipelineHash then []
     else [PipelineChanged(prior.pipelineHash, current.pipelineHash)])
    + Flatten(PerEntry(Prompt, prior.promptHashes, current.promptHashes))
    + Flatten(PerEntry(Schema, prior.schemaHashes, current.schemaHashes))
  }

  method AssetMismatches(asset: Asset, entries: seq<(Id, string)>, current: map<Id, string>) returns (ms: seq<Mismatch>)
    ensures ms == Flatten(PerEntry(asset, entries, current))
    ensures ms == [] <==> forall e :: e in entries ==> Holds(e, current)
  {
    ghost var lists := PerEntry(asset, entries, current);
    ms := [];
    for i := 0 to |entries|
      invariant ms == Flatten(lists[..i])
      invariant ms == [] <==> forall j :: 0 <= j < i ==> Holds(entries[j], current)
    {
      assert lists[..i + 1] == lists[..i] + [lists[i]];
      FlattenSnoc(lists[..i], lists[i]);
      var (x, hash) := entries[i];
      if x !in current {
        ms := ms + [Gone(asset, x)];
      } else if current[x] != hash {
        ms := ms + [Changed(asset, x, hash, current[x])];
      }
    }
    assert lists[..|entries|] == lists;
  }

  /** The mismatches are none exactly when every recorded hash still holds. */
  method Mismatches(prior: Source, current: Current) returns (ms: seq<Mismatch>)
    ensures ms == AllMismatches(prior, current)
    ensures ms == [] <==> Unchanged(prior, current)
  {
    ms := [];
    if prior.pipelineHash != current.pipelineHash {
      ms := [PipelineChanged(prior.pipelineHash, current.pipelineHash)];
    }
    var prompts := AssetMismatches(Prompt, prior.promptHashes, current.promptHashes);
    var schemas := AssetMismatches(Schema, prior.schemaHashes, current.schemaHashes);
    ms := ms + prompts + schemas;
  }

  datatype PriorRun = PriorRun(source: Source, channels: seq<ChannelResult>)

  /** The ok results of a run, in order. */
  method CompletedOf(rs: seq<ChannelResult>) returns (ok: seq<ChannelResult>)
    ensures ok == OkResults(rs)
  {
    ok := [];
    for i := 0 to |rs|
      invariant ok == OkResults(rs[..i])
    {
      assert rs[..i + 1][..i] == rs[..i];
      if rs[i].status == StatusOk {
        ok := ok + [rs[i]];
      }
    }
    assert rs[..|rs|] == rs;
  }

  /**
   * Resume a prior run: refused when it is not found or when any hash it
   * recorded has changed, all of which are named; otherwise a run that carries its ok results forward.
   */
  method Resume(prior: Option<PriorRun>, current: Current, env: Env) 
    returns (r: Result<(PipelineExecutor, Report), ResumeError>)
    ensures r == Failure(RunNotFound) <==> prior.None?
    ensures prior.Some? ==> (r.Failure? <==> !Unchanged(prior.value.source, current))
    ensures prior.Some? && r.Failure? ==> r.error == HashMismatch(AllMismatches(prior.value.source, current))
    ensures r.Success? ==>
      var (executor, report) := r.value;
      && fresh(executor) && executor.View() == Execute(env.(carried := OkResults(prior.value.channels)))
      && report.status == FinalStatus(Reported(executor.View())) &&
        report.errors == InvalidEntries(Reported(executor.View()))
      && (report.valid <==> report.errors == [])
  {
    if prior.None? {
      return Failure(RunNotFound);
    }
    var mismatches := Mismatches(prior.value.source, current);
    if |mismatches| > 0 {
      return Failure(HashMismatch(mismatches));
    }
    var ok := CompletedOf(prior.value.channels);
    var executor := new PipelineExecutor(env.(carried := ok));
    var report := executor.RunPipeline();
    return Success((executor, report));
  }
}

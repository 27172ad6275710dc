/**
 * One run of a pipeline, as a function of its environment: rounds of levels,
 * carried-forward channels, gated execution, synthesis, halt and abort.
 * Everything the executor does not decide itself (provider answers, the external
 * abort signal, the clock, the order in which concurrent tasks move) is a
 * function in the environment.
 */
module RunModel {
  import opened Prelude
  import opened Graph
  import opened ExecutionPlan
  import L = Limiter
  import Json

  type JsonValue = Json.Value<real>

  datatype Status = StatusOk | InvalidJson | SchemaError | Refused | Timeout | Error

  datatype Usage = Usage(inputTokens: Option<nat>, outputTokens: Option<nat>, costUsd: Option<real>)

  datatype ChannelResult = ChannelResult(
    channelId: Id,
    provider: string,
    model: Option<string>,
    status: Status,
    usage: Usage,
    rawOutputRef: Option<string>,
    parsedOutput: JsonValue,
    schemaValid: bool,
    validationErrors: seq<JsonValue>)

  // ----- policies ---------------------------------------------------------

  datatype BeforeDecision = Proceed | Skip | Abort
  datatype AfterDecision = Continue | Halt

  datatype BeforeContext = BeforeContext(channelId: Id, isSynthesis: bool, depth: nat, completed: seq<ChannelResult>)
  datatype AfterContext = AfterContext(channelId: Id, isSynthesis: bool, depth: nat, result: ChannelResult,
      completed: seq<ChannelResult>)
  datatype Verdict<D> = Verdict(decision: D, reason: string)

  /** An enforcement policy: either hook may be missing. */
  datatype Policy = Policy(
    policyId: string,
    before: Option<BeforeContext -> Verdict<BeforeDecision>>,
    after: Option<AfterContext -> Verdict<AfterDecision>>)

  datatype Ruling = Before(before: BeforeDecision) | After(after: AfterDecision)

  /** A recorded policy decision. */
  datatype Decision = Decision(policyId: string, channelId: Id, ruling: Ruling, reason: string)

  // ----- environment ------------------------------------------------------

  datatype Upstream = Upstream(parsed: JsonValue, raw: string)

  /** What a channel's prompt is rendered from. */
  datatype Request = Request(
    channel: Channel,
    isSynthesis: bool,
    upstream: map<Id, Upstream>,
    channelResults: seq<(Id, Status, JsonValue)>,
    previousSynthesis: Option<JsonValue>,
    depth: nat)

  /** What executing a channel yields; `raw` is what was saved, if anything was. */
  datatype Outcome = Outcome(
    provider: string,
    model: Option<string>,
    status: Status,
    usage: Usage,
    parsedOutput: JsonValue,
    schemaValid: bool,
    validationErrors: seq<JsonValue>,
    raw: Option<string>)

  datatype Env = Env(
    plan: Plan,
    policies: seq<Policy>,
    maxRuntimeMs: Option<real>,
    maxCostUsd: Option<real>,
    caps: L.Caps,
    carried: seq<ChannelResult>,
    execute: (Request, nat) -> Outcome,
    signalled: nat -> bool,
    elapsedMs: nat -> real,
    schedule: (seq<L.Phase>, nat) -> nat)

  // ----- state ------------------------------------------------------------

  /** The journal of a run: what was carried forward, gated, and answered and reviewed, in order. */
  datatype Event =
    | Carried(depth: nat, channelId: Id, result: ChannelResult)
    | Gated(depth: nat, channelId: Id, isSynthesis: bool, dependsOn: seq<Id>, available: set<Id>,
            knownCost: real, decisions: seq<Decision>, executed: bool)
    | Reviewed(depth: nat, channelId: Id, isSynthesis: bool, decisions: seq<Decision>,
               request: Request, asked: nat, result: ChannelResult)

  datatype Run = Run(
    channels: seq<ChannelResult>,
    synthesis: Option<ChannelResult>,
    policy: seq<Decision>,
    depth: nat,
    halted: bool,
    aborted: bool,
    completed: map<Id, ChannelResult>,
    round: seq<Option<ChannelResult>>,
    store: map<string, string>,
    tick: nat,
    journal: seq<Event>)

  const Initial: Run := Run([], None, [], 0, false, false, map[], [], map[], 0, [])

  /** The summed cost of the results whose cost is known. */
  function SumCost(rs: seq<ChannelResult>): real {
    if rs == [] then 0.0
    else SumCost(rs[..|rs| - 1]) + (match rs[|rs| - 1].usage.costUsd case Some(c) => c case None => 0.0)
  }

  function ResultIds(rs: seq<ChannelResult>): (ids: seq<Id>)
    ensures |ids| == |rs|
  {
    seq(|rs|, i requires 0 <= i < |rs| => rs[i].channelId)
  }

  function AnyCost(rs: seq<ChannelResult>): bool {
    exists r :: r in rs && r.usage.costUsd.Some?
  }

  // ----- raw output references ---------------------------------------------

  predicate SafeChar(c: char) {
    'a' <= c <= 'z' || 'A' <= c <= 'Z' || '0' <= c <= '9' || c == '.' || c == '_' || c == '-'
  }

  function SafeOf(c: char): char {
    if SafeChar(c) then c else '_'
  }

  function SafeKey(key: string): string {
    if key == "" then "" else [SafeOf(key[0])] + SafeKey(key[1..])
  }

  /** Where a channel's raw output is saved. */
  function RawRef(c: Channel): string {
    "raw/" + SafeKey(c.id + "." + c.provider) + ".txt"
  }

  const LOWER: string := "abcdefghijklmnopqrstuvwxyz"
  const UPPER: string := "ABCDEFGHIJKLMNOPQRSTUVWXYZ"
  const SAFE_CHARS: string := LOWER + UPPER + "0123456789._-"

  lemma {:induction false} LowerIsListed(c: char)
    ensures c in LOWER <==> 'a' <= c <= 'z'
  {
    assert 'a' <= c <= 'z' ==> LOWER[c as int - 'a' as int] == c;
  }

  lemma {:induction false} UpperIsListed(c: char)
    ensures c in UPPER <==> 'A' <= c <= 'Z'
  {
    assert 'A' <= c <= 'Z' ==> UPPER[c as int - 'A' as int] == c;
  }

  lemma {:induction false} SafeIsListed(c: char)
    ensures SafeChar(c) <==> c in SAFE_CHARS
  {
    LowerIsListed(c);
    UpperIsListed(c);
    assert "0123456789._-"[..10] == "0123456789" && "0123456789._-"[10..] == "._-";
  }

  /** A sanitised key keeps letters, digits, dots, underscores and hyphens; anything else becomes an underscore. */
  lemma {:induction false} SafeKeyAt(key: string)
    ensures |SafeKey(key)| == |key|
    ensures forall i :: 0 <= i < |key| ==> SafeKey(key)[i] == if key[i] in SAFE_CHARS then key[i] else '_'
  {
    if key != "" {
      SafeIsListed(key[0]);
      SafeKeyAt(key[1..]);
      var rest := SafeKey(key[1..]);
      forall i | 0 < i < |key| ensures SafeKey(key)[i] == if key[i] in SAFE_CHARS then key[i] else '_' {
        assert SafeKey(key)[i] == rest[i - 1] && key[i] == key[1..][i - 1];
      }
    }
  }

  /** Raw outputs lie in one directory, one text file for each sanitised pair of channel and provider. */
  lemma {:induction false} RawRefForm(c: Channel)
    ensures var key, ref := c.id + "." + c.provider, RawRef(c);
      && |ref| == 4 + |key| + 4 && ref[..4] == "raw/" && ref[4 + |key|..] == ".txt"
      && forall i :: 0 <= i < |key| ==> ref[4 + i] == if key[i] in SAFE_CHARS then key[i] else '_'
  {
    SafeKeyAt(c.id + "." + c.provider);
  }

  // ----- one gated channel ------------------------------------------------

  /** The before-hooks, in registration order, up to the first that does not proceed. */
  function BeforeHooks(ps: seq<Policy>, ctx: BeforeContext): (r: (seq<Decision>, BeforeDecision)) {
    if ps == [] then ([], Proceed)
    else match ps[0].before
      case None => BeforeHooks(ps[1..], ctx)
      case Some(hook) =>
        var v := hook(ctx);
        var d := Decision(ps[0].policyId, ctx.channelId, Before(v.decision), v.reason);
        if v.decision != Proceed then ([d], v.decision)
        else
          var (ds, decision) := BeforeHooks(ps[1..], ctx);
          ([d] + ds, decision)
  }

  /** All the after-hooks, in registration order. */
  function AfterHooks(ps: seq<Policy>, ctx: AfterContext): (r: (seq<Decision>, bool)) {
    if ps == [] then ([], false)
    else match ps[0].after
      case None => AfterHooks(ps[1..], ctx)
      case Some(hook) =>
        var v := hook(ctx);
        var d := Decision(ps[0].policyId, ctx.channelId, After(v.decision), v.reason);
        var (ds, halt) := AfterHooks(ps[1..], ctx);
        ([d] + ds, v.decision == Halt || halt)
  }

  /** Observe the abort signal; once seen it stays seen. */
  function Sense(env: Env, st: Run): Run {
    st.(aborted := st.aborted || env.signalled(st.tick), tick := st.tick + 1)
  }

  /** Run the before-hooks; the channel goes ahead exactly when all of them proceed. */
  function Admit(env: Env, st: Run, c: Channel, isSynthesis: bool): (r: (Run, bool)) {
    var (ds, decision) := BeforeHooks(env.policies, BeforeContext(c.id, isSynthesis, st.depth, st.channels));
    var event := Gated(st.depth, c.id, isSynthesis, c.dependsOn, st.completed.Keys, SumCost(st.channels), ds,
      decision == Proceed);
    (st.(policy := st.policy + ds,
         halted := st.halted || decision == Abort,
         aborted := st.aborted || decision == Abort,
         journal := st.journal + [event]),
     decision == Proceed)
  }

  /** The result of a channel whose provider is asked at time `t`. */
  function Answer(env: Env, c: Channel, req: Request, t: nat): ChannelResult {
    var o := env.execute(req, t);
    ChannelResult(c.id, o.provider, o.model, o.status, o.usage, if o.raw.Some? then Some(RawRef(c)) else None,
                  o.parsedOutput, o.schemaValid, o.validationErrors)
  }

  /** Call the provider and save what it said. */
  function Perform(env: Env, st: Run, c: Channel, req: Request): (r: (Run, ChannelResult)) {
    var o := env.execute(req, st.tick);
    (st.(store := if o.raw.Some? then st.store[RawRef(c) := o.raw.value] else st.store, tick := st.tick + 1),
     Answer(env, c, req, st.tick))
  }

  /** Run the after-hooks on the result just produced for `req`, asked at time `t`. */
  function Review(env: Env, st: Run, c: Channel, isSynthesis: bool, req: Request, t: nat, result: ChannelResult): Run {
    var (ds, halt) :=
      AfterHooks(env.policies, AfterContext(c.id, isSynthesis, st.depth, result, st.channels + [result]));
    st.(policy := st.policy + ds,
        halted := st.halted || halt,
        aborted := st.aborted || halt,
        journal := st.journal + [Reviewed(st.depth, c.id, isSynthesis, ds, req, t, result)])
  }

  /** A channel between its hooks; no result when the run is aborted or a policy stops it. */
  function RunGated(env: Env, st: Run, c: Channel, isSynthesis: bool, req: Request): (r: (Run, Option<ChannelResult>)) {
    var s := Sense(env, st);
    if s.aborted then (s, None)
    else
      var (admitted, go) := Admit(env, s, c, isSynthesis);
      if !go then (admitted, None)
      else
        var (performed, result) := Perform(env, admitted, c, req);
        (Review(env, performed, c, isSynthesis, req, admitted.tick, result), Some(result))
  }

  // ----- one level --------------------------------------------------------

  /** The outputs of the dependencies completed in this round. */
  function BuildUpstream(st: Run, c: Channel): map<Id, Upstream> {
    map d | d in c.dependsOn && d in st.completed ::
      var r := st.completed[d];
      var stored := r.rawOutputRef.Some? && r.rawOutputRef.value in st.store;
      Upstream(r.parsedOutput, if stored then st.store[r.rawOutputRef.value] else "")
  }

  function PreviousSynthesis(st: Run): Option<JsonValue> {
    if st.synthesis.Some? then Some(st.synthesis.value.parsedOutput) else None
  }

  function ChannelRequest(st: Run, c: Channel): Request {
    Request(c, false, BuildUpstream(st, c), [], PreviousSynthesis(st), st.depth)
  }

  /** Note a channel's outcome; a missing result is noted but recorded nowhere else. */
  function Record(st: Run, r: Option<ChannelResult>): Run {
    if r.Some?
    then
      st.(round := st.round + [r], channels := st.channels + [r.value],
          completed := st.completed[r.value.channelId := r.value])
    else st.(round := st.round + [r])
  }

  function RecordAll(st: Run, rs: seq<Option<ChannelResult>>): Run
    decreases |rs|
  {
    if rs == [] then st else RecordAll(Record(st, rs[0]), rs[1..])
  }

  /** With policies registered: one channel at a time, until a halt. */
  function SequentialLevel(env: Env, st: Run, toRun: seq<Channel>): Run
    decreases |toRun|
  {
    if toRun == [] then st
    else
      var (gated, r) := RunGated(env, st, toRun[0], false, ChannelRequest(st, toRun[0]));
      var recorded := Record(gated, r);
      if recorded.halted then recorded else SequentialLevel(env, recorded, toRun[1..])
  }

  /** A level in flight: the run, where each task stands, and what the finished ones returned. */
  datatype Flight = Flight(run: Run, tasks: L.State, results: seq<Option<ChannelResult>>, live: set<nat>)

  ghost predicate FlightOk(env: Env, f: Flight, toRun: seq<Channel>, reqs: seq<Request>) {
    && L.Safe(env.caps, f.tasks)
    && |f.tasks.phase| == |toRun| == |reqs| == |f.results|
  }

  /** A task takes its last slot: unless the run is aborted, its channel is live from here on. */
  function Launch(env: Env, f: Flight, c: Channel, i: nat): Flight {
    var s := Sense(env, f.run);
    if s.aborted then f.(run := s)
    else f.(run := Admit(env, s, c, false).0, live := f.live + {i})
  }

  /** A task ends: a live one has its provider's answer, the others have nothing. */
  function Land(env: Env, f: Flight, c: Channel, req: Request, i: nat): Flight
    requires i < |f.results|
  {
    if i in f.live then
      var (performed, result) := Perform(env, f.run, c, req);
      f.(run := Review(env, performed, c, false, req, f.run.tick, result), results := f.results[i := Some(result)])
    else f
  }

  function MoveTask(env: Env, f: Flight, toRun: seq<Channel>, reqs: seq<Request>, i: nat): (f': Flight)
    requires FlightOk(env, f, toRun, reqs) && L.Enabled(env.caps, f.tasks, i)
    ensures FlightOk(env, f', toRun, reqs)
    ensures L.Remaining(f'.tasks.phase) < L.Remaining(f.tasks.phase)
    ensures f'.tasks == L.Step(env.caps, f.tasks, i)
  {
    L.StepSafe(env.caps, f.tasks, i);
    L.StepDrains(env.caps, f.tasks, i);
    var tasks := L.Step(env.caps, f.tasks, i);
    var moved :=
      if tasks.phase[i] == L.Running then Launch(env, f, toRun[i], i)
      else if tasks.phase[i] == L.Done then Land(env, f, toRun[i], reqs[i], i)
      else f;
    moved.(tasks := tasks)
  }

  /** The task the environment's schedule moves next. */
  function NextTask(env: Env, f: Flight): (i: nat)
    requires L.Safe(env.caps, f.tasks) && !L.AllDone(f.tasks.phase)
    ensures L.Enabled(env.caps, f.tasks, i)
  {
    L.Choose(env.caps, f.tasks, env.schedule(f.tasks.phase, f.run.tick))
  }

  function Drain(env: Env, f: Flight, toRun: seq<Channel>, reqs: seq<Request>): (f': Flight)
    requires FlightOk(env, f, toRun, reqs)
    ensures FlightOk(env, f', toRun, reqs) && L.AllDone(f'.tasks.phase)
    decreases L.Remaining(f.tasks.phase)
  {
    if L.AllDone(f.tasks.phase) then f
    else Drain(env, MoveTask(env, f, toRun, reqs, NextTask(env, f)), toRun, reqs)
  }

  function Providers(cs: seq<Channel>): seq<Id> {
    seq(|cs|, i requires 0 <= i < |cs| => cs[i].provider)
  }

  function Requests(st: Run, cs: seq<Channel>): seq<Request> {
    seq(|cs|, i requires 0 <= i < |cs| => ChannelRequest(st, cs[i]))
  }

  function TakeOff(env: Env, st: Run, toRun: seq<Channel>): (f: Flight)
    ensures FlightOk(env, f, toRun, Requests(st, toRun))
  {
    L.LaunchedSafe(env.caps, Providers(toRun));
    Flight(st, L.Launched(Providers(toRun)), seq(|toRun|, i => None), {})
  }

  /** Without policies: all channels of the level at once, under the limiter. */
  function ConcurrentLevel(env: Env, st: Run, toRun: seq<Channel>): Run {
    var f := Drain(env, TakeOff(env, st, toRun), toRun, Requests(st, toRun));
    RecordAll(f.run, f.results)
  }

  function RunLevel(env: Env, st: Run, toRun: seq<Channel>): Run {
    if env.policies != [] then SequentialLevel(env, st, toRun) else ConcurrentLevel(env, st, toRun)
  }

  // ----- one round --------------------------------------------------------

  /** Results by id; the last one of an id wins. */
  function LastById(rs: seq<ChannelResult>): map<Id, ChannelResult> {
    if rs == [] then map[] else LastById(rs[..|rs| - 1])[rs[|rs| - 1].channelId := rs[|rs| - 1]]
  }

  lemma {:induction false} LastByIdKey(rs: seq<ChannelResult>, x: Id)
    requires x in LastById(rs)
    ensures LastById(rs)[x].channelId == x && LastById(rs)[x] in rs
  {
    if rs[|rs| - 1].channelId != x {
      LastByIdKey(rs[..|rs| - 1], x);
    }
  }

  function CarriedAt(env: Env, depth: nat): map<Id, ChannelResult> {
    if depth == 1 then LastById(env.carried) else map[]
  }

  function CarryForward(st: Run, carried: map<Id, ChannelResult>, cs: seq<Channel>): Run
    decreases |cs|
  {
    if cs == [] then st
    else if cs[0].id !in carried then CarryForward(st, carried, cs[1..])
    else
      var r := carried[cs[0].id];
      var s := Record(st, Some(r));
      CarryForward(s.(journal := s.journal + [Carried(st.depth, r.channelId, r)]), carried, cs[1..])
  }

  function NotCarried(cs: seq<Channel>, carried: map<Id, ChannelResult>): seq<Channel> {
    if cs == [] then []
    else (if cs[0].id in carried then [] else [cs[0]]) + NotCarried(cs[1..], carried)
  }

  lemma {:induction false} NotCarriedMember(cs: seq<Channel>, carried: map<Id, ChannelResult>, c: Channel)
    ensures c in NotCarried(cs, carried) <==> c in cs && c.id !in carried
  {
    if cs != [] {
      assert cs == [cs[0]] + cs[1..];
      NotCarriedMember(cs[1..], carried, c);
    }
  }

  function RunLevels(env: Env, st: Run, levels: seq<seq<Channel>>): Run
    decreases |levels|
  {
    if levels == [] || st.halted then st
    else RunLevels(env, RunLevel(env, st, NotCarried(levels[0], CarriedAt(env, st.depth))), levels[1..])
  }

  function Summaries(rs: seq<Option<ChannelResult>>): seq<(Id, Status, JsonValue)> {
    if rs == [] then []
    else
      (if rs[0].Some? then [(rs[0].value.channelId, rs[0].value.status, rs[0].value.parsedOutput)] else [])
      + Summaries(rs[1..])
  }

  function Synthesize(env: Env, st: Run): Run {
    if env.plan.synthesis.None? || st.halted then st
    else
      var c := env.plan.synthesis.value;
      var (s, r) := RunGated(env, st, c, true,
        Request(c, true, map[], Summaries(st.round), PreviousSynthesis(st), st.depth));
      if r.Some? then s.(synthesis := r) else s
  }

  function StartRound(st: Run): Run {
    st.(depth := st.depth + 1, completed := map[], round := [])
  }

  function RunRound(env: Env, st: Run): Run {
    var started := StartRound(st);
    var carried := CarryForward(started, CarriedAt(env, started.depth), env.plan.channels);
    Synthesize(env, RunLevels(env, carried, env.plan.levels))
  }

  // ----- the run ----------------------------------------------------------

  /** Recorded channel costs plus the latest synthesis; earlier syntheses are not in it. */
  function TotalCost(st: Run): Option<real> {
    var all := st.channels + (if st.synthesis.Some? then [st.synthesis.value] else []);
    if AnyCost(all) then Some(SumCost(all)) else None
  }

  /** The bounded recursion policy. */
  predicate ShouldRecurse(depth: nat, maxDepth: nat, elapsedMs: real, cost: Option<real>, maxRuntimeMs: Option<real>,
      maxCostUsd: Option<real>) {
    && depth < maxDepth
    && (maxRuntimeMs.Some? ==> elapsedMs < maxRuntimeMs.value)
    && (maxCostUsd.Some? && cost.Some? ==> cost.value < maxCostUsd.value)
  }

  predicate GoesOn(env: Env, st: Run) {
    && !st.halted
    && env.plan.recursionEnabled
    && ShouldRecurse(st.depth, env.plan.maxDepth, env.elapsedMs(st.depth), TotalCost(st), env.maxRuntimeMs,
      env.maxCostUsd)
  }

  lemma {:induction false} LevelsKeepDepth(env: Env, st: Run, levels: seq<seq<Channel>>)
    ensures RunLevels(env, st, levels).depth == st.depth
    decreases |levels|
  {
    if levels != [] && !st.halted {
      var toRun := NotCarried(levels[0], CarriedAt(env, st.depth));
      if env.policies != [] {
        SequentialKeepsDepth(env, st, toRun);
      } else {
        var f := TakeOff(env, st, toRun);
        DrainKeepsDepth(env, f, toRun, Requests(st, toRun));
        var g := Drain(env, f, toRun, Requests(st, toRun));
        RecordAllKeepsDepth(g.run, g.results);
      }
      LevelsKeepDepth(env, RunLevel(env, st, toRun), levels[1..]);
    }
  }

  lemma {:induction false} SequentialKeepsDepth(env: Env, st: Run, toRun: seq<Channel>)
    ensures SequentialLevel(env, st, toRun).depth == st.depth
    decreases |toRun|
  {
    if toRun != [] {
      var (gated, r) := RunGated(env, st, toRun[0], false, ChannelRequest(st, toRun[0]));
      if !Record(gated, r).halted {
        SequentialKeepsDepth(env, Record(gated, r), toRun[1..]);
      }
    }
  }

  lemma {:induction false} DrainKeepsDepth(env: Env, f: Flight, toRun: seq<Channel>, reqs: seq<Request>)
    requires FlightOk(env, f, toRun, reqs)
    ensures Drain(env, f, toRun, reqs).run.depth == f.run.depth
    decreases L.Remaining(f.tasks.phase)
  {
    if !L.AllDone(f.tasks.phase) {
      DrainKeepsDepth(env, MoveTask(env, f, toRun, reqs, NextTask(env, f)), toRun, reqs);
    }
  }

  lemma {:induction false} RecordAllKeepsDepth(st: Run, rs: seq<Option<ChannelResult>>)
    ensures RecordAll(st, rs).depth == st.depth
    decreases |rs|
  {
    if rs != [] {
      RecordAllKeepsDepth(Record(st, rs[0]), rs[1..]);
    }
  }

  lemma {:induction false} CarryKeepsDepth(st: Run, carried: map<Id, ChannelResult>, cs: seq<Channel>)
    ensures CarryForward(st, carried, cs).depth == st.depth
    decreases |cs|
  {
    if cs != [] {
      if cs[0].id !in carried {
        CarryKeepsDepth(st, carried, cs[1..]);
      } else {
        var r := carried[cs[0].id];
        var s := Record(st, Some(r));
        CarryKeepsDepth(s.(journal := s.journal + [Carried(st.depth, r.channelId, r)]), carried, cs[1..]);
      }
    }
  }

  lemma {:induction false} SynthesisKeepsDepth(env: Env, st: Run)
    ensures Synthesize(env, st).depth == st.depth
  {
  }

  lemma {:induction false} RoundDeepens(env: Env, st: Run)
    ensures RunRound(env, st).depth == st.depth + 1
  {
    var started := StartRound(st);
    var carried := CarriedAt(env, started.depth);
    CarryKeepsDepth(started, carried, env.plan.channels);
    var ready := CarryForward(started, carried, env.plan.channels);
    LevelsKeepDepth(env, ready, env.plan.levels);
    SynthesisKeepsDepth(env, RunLevels(env, ready, env.plan.levels));
  }

  /** Rounds until a halt or until the recursion policy stops. */
  function RunRounds(env: Env, st: Run): Run
    decreases env.plan.maxDepth - st.depth
  {
    var next := RunRound(env, st);
    if GoesOn(env, next) then
      RoundDeepens(env, st);
      RunRounds(env, next)
    else next
  }

  function Execute(env: Env): Run {
    RunRounds(env, Initial)
  }
}

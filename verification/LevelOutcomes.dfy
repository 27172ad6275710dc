/**
 * What one level of a plan comes to, run concurrently under any schedule and any
 * caps, or one channel at a time: the same results and the same saved texts.  A
 * task may move at any moment its limiters allow, and what it saves is visible to
 * others at once, so the argument is that channels of one level never ask for
 * each other's results, save under references of their own, and are recorded in
 * level order whatever order they finish in.
 */
module LevelOutcomes {
  import opened Prelude
  import opened Graph
  import opened RunModel
  import L = Limiter
  import C = Coverage

  // ----- hypotheses -------------------------------------------------------

  /** Providers answer by the request alone, and no wall-clock ceiling is set. */
  ghost predicate Deterministic(env: Env) {
    && env.maxRuntimeMs.None?
    && forall req, t, u :: env.execute(req, t) == env.execute(req, u)
  }

  /** A recorded result refers to no raw output but its own channel's. */
  ghost predicate OwnRef(cs: seq<Channel>, r: ChannelResult) {
    r.rawOutputRef.Some? ==> forall c :: c in cs && RawRef(c) == r.rawOutputRef.value ==> c.id == r.channelId
  }

  /** Equal up to the internal clock and the journal; nothing has stopped either. */
  ghost predicate Agree(a: Run, b: Run) {
    && a.channels == b.channels && a.synthesis == b.synthesis && a.policy == b.policy && a.depth == b.depth
    && a.completed == b.completed && a.round == b.round && a.store == b.store
    && !a.halted && !b.halted && !a.aborted && !b.aborted
  }

  // ----- what a level must produce ----------------------------------------

  function ResultOf(env: Env, c: Channel, req: Request): ChannelResult {
    Answer(env, c, req, 0)
  }

  function Write(env: Env, store: map<string, string>, c: Channel, req: Request): map<string, string> {
    var o := env.execute(req, 0);
    if o.raw.Some? then store[RawRef(c) := o.raw.value] else store
  }

  /** The store once those of the first `n` channels that are done have been saved. */
  function Saved(env: Env, store: map<string, string>, cs: seq<Channel>, reqs: seq<Request>, phase: seq<L.Phase>,
      n: nat): map<string, string>
    requires n <= |cs| == |reqs| == |phase|
  {
    if n == 0 then store
    else
      var before := Saved(env, store, cs, reqs, phase, n - 1);
      if phase[n - 1] == L.Done then Write(env, before, cs[n - 1], reqs[n - 1]) else before
  }

  function Results(env: Env, cs: seq<Channel>, reqs: seq<Request>): seq<Option<ChannelResult>>
    requires |cs| == |reqs|
  {
    seq(|cs|, i requires 0 <= i < |cs| => Some(ResultOf(env, cs[i], reqs[i])))
  }

  function Finished(n: nat): (phase: seq<L.Phase>)
    ensures |phase| == n
  {
    seq(n, i => L.Done)
  }

  /** What a level amounts to: all its saves, then all its results in order. */
  function LevelOutcome(env: Env, st: Run, cs: seq<Channel>, n: nat): Run
    requires n <= |cs|
  {
    var reqs := Requests(st, cs);
    RecordAll(st.(store := Saved(env, st.store, cs, reqs, Finished(|cs|), n)), Results(env, cs, reqs)[..n])
  }

  ghost predicate RefsApart(cs: seq<Channel>) {
    forall j, k :: 0 <= j < k < |cs| ==> RawRef(cs[j]) != RawRef(cs[k])
  }

  /** The results so far come from channels of the plan and name no foreign raw output. */
  ghost predicate RefsOk(cs: seq<Channel>, st: Run) {
    forall d :: d in st.completed ==> st.completed[d].channelId == d && OwnRef(cs, st.completed[d])
  }

  /** The channels of a level take nothing from one another. */
  ghost predicate Independent(cs: seq<Channel>) {
    forall c, d, e :: c in cs && e in cs && d in c.dependsOn ==> e.id != d
  }

  // ----- what a level comes to --------------------------------------------

  /** Whatever the schedule, a concurrent level comes to its outcome. */
  lemma {:induction false} ConcurrentOutcome(env: Env, st: Run, toRun: seq<Channel>)
    requires C.Undisturbed(env) && Deterministic(env) && !st.aborted && !st.halted && RefsApart(toRun)
    ensures Agree(ConcurrentLevel(env, st, toRun), LevelOutcome(env, st, toRun, |toRun|))
  {
    var reqs := Requests(st, toRun);
    var f := TakeOff(env, st, toRun);
    forall i: nat | i < |toRun| ensures Landed(env, f, toRun, reqs, i) {
      assert f.tasks.phase[i] == L.Queued;
    }
    NothingSaved(env, st.store, toRun, reqs, f.tasks.phase, |toRun|);
    DrainCruises(env, f, toRun, reqs, st);
    var g := Drain(env, f, toRun, reqs);
    assert g.tasks.phase == Finished(|toRun|);
    forall i | 0 <= i < |toRun| ensures g.results[i] == Results(env, toRun, reqs)[i] {
      assert Landed(env, g, toRun, reqs, i);
    }
    assert g.results == Results(env, toRun, reqs)[..|toRun|];
    RecordAllAgrees(g.run, st.(store := g.run.store), g.results);
  }

  /** A channel's request is the same whether or not others of its level have already run. */
  lemma {:induction false} RequestUnmoved(env: Env, st: Run, cs: seq<Channel>, n: nat, c: Channel)
    requires n <= |cs| && c in cs && Independent(cs) && RefsOk(env.plan.channels, st)
    requires forall e :: e in cs ==> e in env.plan.channels
    ensures ChannelRequest(LevelOutcome(env, st, cs, n), c) == ChannelRequest(st, c)
  {
    var after := LevelOutcome(env, st, cs, n);
    OutcomeKeeps(env, st, cs, n);
    forall d | d in c.dependsOn ensures UnmovedAt(st, after, d) {
      DependencyUnmoved(env, st, cs, n, c, d);
    }
    UpstreamUnmoved(st, after, c);
  }

  /** A dependency `d` has the same result in both, with the same raw output if it has one. */
  ghost predicate UnmovedAt(st: Run, after: Run, d: Id) {
    && (d in after.completed <==> d in st.completed)
    && (d in st.completed ==> after.completed[d] == st.completed[d])
    && (d in st.completed && st.completed[d].rawOutputRef.Some? ==>
          var ref := st.completed[d].rawOutputRef.value;
          (ref in after.store <==> ref in st.store) && (ref in st.store ==> after.store[ref] == st.store[ref]))
  }

  lemma {:induction false} UpstreamUnmoved(st: Run, after: Run, c: Channel)
    requires forall d :: d in c.dependsOn ==> UnmovedAt(st, after, d)
    ensures BuildUpstream(after, c) == BuildUpstream(st, c)
  {
    forall d | d in c.dependsOn && d in st.completed ensures BuildUpstream(after, c)[d] == BuildUpstream(st, c)[d] {
      assert UnmovedAt(st, after, d);
    }
    assert BuildUpstream(after, c).Keys == BuildUpstream(st, c).Keys;
  }

  lemma {:induction false} OutcomeKeeps(env: Env, st: Run, cs: seq<Channel>, n: nat)
    requires n <= |cs|
    ensures var after := LevelOutcome(env, st, cs, n);
      && after.store == Saved(env, st.store, cs, Requests(st, cs), Finished(|cs|), n)
      && after.synthesis == st.synthesis && after.depth == st.depth
  {
    var store := Saved(env, st.store, cs, Requests(st, cs), Finished(|cs|), n);
    RecordAllKeeps(st.(store := store), Results(env, cs, Requests(st, cs))[..n]);
  }

  lemma {:induction false} DependencyUnmoved(env: Env, st: Run, cs: seq<Channel>, n: nat, c: Channel, d: Id)
    requires n <= |cs| && c in cs && d in c.dependsOn && Independent(cs) && RefsOk(env.plan.channels, st)
    requires forall e :: e in cs ==> e in env.plan.channels
    ensures UnmovedAt(st, LevelOutcome(env, st, cs, n), d)
  {
    var reqs := Requests(st, cs);
    var rs := Results(env, cs, reqs)[..n];
    forall i | 0 <= i < |rs| ensures rs[i].value.channelId != d {
      assert rs[i].value.channelId == cs[i].id && cs[i] in cs;
    }
    OutcomeKeeps(env, st, cs, n);
    RecordAllElsewhere(st.(store := Saved(env, st.store, cs, reqs, Finished(|cs|), n)), rs, d);
    if d in st.completed && st.completed[d].rawOutputRef.Some? {
      var ref := st.completed[d].rawOutputRef.value;
      forall i | 0 <= i < n ensures RawRef(cs[i]) != ref {
        assert cs[i] in cs;
      }
      SavedElsewhere(env, st.store, cs, reqs, Finished(|cs|), n, ref);
    }
  }

  /** Without policies and aborts a gated channel simply runs. */
  lemma {:induction false} GateOpens(env: Env, st: Run, c: Channel, isSynthesis: bool, req: Request)
    requires C.Undisturbed(env) && Deterministic(env) && !st.aborted && !st.halted
    ensures var (st', r) := RunGated(env, st, c, isSynthesis, req);
      r == Some(ResultOf(env, c, req)) && Agree(st', st.(store := Write(env, st.store, c, req)))
  {
    var s := Sense(env, st);
    var (admitted, go) := Admit(env, s, c, isSynthesis);
    PerformIsTimeless(env, admitted, c, req);
  }

  lemma {:induction false} WritesCommute(env: Env, store: map<string, string>, c: Channel, creq: Request, d: Channel,
      dreq: Request)
    requires RawRef(c) != RawRef(d)
    ensures Write(env, Write(env, store, c, creq), d, dreq) == Write(env, Write(env, store, d, dreq), c, creq)
  {
  }

  // ----- caps -------------------------------------------------------------

  lemma {:induction false} MoveKeepsProviders(env: Env, f: Flight, cs: seq<Channel>, reqs: seq<Request>, i: nat)
    requires FlightOk(env, f, cs, reqs) && L.Enabled(env.caps, f.tasks, i)
    ensures MoveTask(env, f, cs, reqs, i).tasks.providers == f.tasks.providers
  {
  }

  /** A level in flight, `n` moves after it took off. */
  function FlightAfter(env: Env, st: Run, cs: seq<Channel>, n: nat): (f: Flight)
    ensures FlightOk(env, f, cs, Requests(st, cs)) && f.tasks.providers == Providers(cs)
  {
    if n == 0 then TakeOff(env, st, cs)
    else
      var f := FlightAfter(env, st, cs, n - 1);
      if L.AllDone(f.tasks.phase) then f
      else
        MoveKeepsProviders(env, f, cs, Requests(st, cs), NextTask(env, f));
        MoveTask(env, f, cs, Requests(st, cs), NextTask(env, f))
  }

  /** The channels of the level that run at this moment on provider `p`. */
  ghost function RunningNow(f: Flight, cs: seq<Channel>, p: Id): set<nat> {
    set i: nat | i < |cs| && i < |f.tasks.phase| && f.tasks.phase[i] == L.Running && cs[i].provider == p
  }

  /** Whatever the schedule, no more channels of a level run at once on a provider than its cap allows, nor overall. */
  lemma {:induction false} CapsHoldInFlight(env: Env, st: Run, cs: seq<Channel>, n: nat)
    ensures var f := FlightAfter(env, st, cs, n);
      && |L.Active(f.tasks.phase)| <= env.caps.global
      && forall p :: p in env.caps.perProvider ==> |RunningNow(f, cs, p)| <= env.caps.perProvider[p]
  {
    var f := FlightAfter(env, st, cs, n);
    forall p ensures RunningNow(f, cs, p) == L.RunningOn(f.tasks, p) {
    }
  }

  /** And a level ends in the last of these states. */
  lemma {:induction false} FlightEnds(env: Env, st: Run, cs: seq<Channel>, n: nat) returns (last: nat)
    ensures FlightAfter(env, st, cs, last) == Drain(env, FlightAfter(env, st, cs, n), cs, Requests(st, cs))
    decreases L.Remaining(FlightAfter(env, st, cs, n).tasks.phase)
  {
    last := n;
    var f := FlightAfter(env, st, cs, n);
    if !L.AllDone(f.tasks.phase) {
      assert FlightAfter(env, st, cs, n + 1) == MoveTask(env, f, cs, Requests(st, cs), NextTask(env, f));
      last := FlightEnds(env, st, cs, n + 1);
    }
  }

  // ----- saving --------------------------------------------------------

  /** Saves under different references commute. */
  lemma {:induction false} SavedOneMore(env: Env, store: map<string, string>, cs: seq<Channel>, reqs: seq<Request>,
      phase: seq<L.Phase>, i: nat, n: nat)
    requires n <= |cs| == |reqs| == |phase| && i < |cs| && phase[i] != L.Done
    requires forall j, k :: 0 <= j < k < |cs| ==> RawRef(cs[j]) != RawRef(cs[k])
    ensures Saved(env, store, cs, reqs, phase[i := L.Done], n)
         == if i < n then Write(env, Saved(env, store, cs, reqs, phase, n), cs[i], reqs[i])
           else Saved(env, store, cs, reqs, phase, n)
  {
    if n > 0 {
      SavedOneMore(env, store, cs, reqs, phase, i, n - 1);
      if i < n - 1 {
        assert RawRef(cs[i]) != RawRef(cs[n - 1]);
        WritesCommute(env, Saved(env, store, cs, reqs, phase, n - 1), cs[i], reqs[i], cs[n - 1], reqs[n - 1]);
      }
    }
  }

  /** Performing a channel yields its result and its save, whenever it happens. */
  lemma {:induction false} PerformIsTimeless(env: Env, st: Run, c: Channel, req: Request)
    requires Deterministic(env)
    ensures var (st', r) := Perform(env, st, c, req);
      r == ResultOf(env, c, req) && st' == st.(store := Write(env, st.store, c, req), tick := st.tick + 1)
  {
    assert env.execute(req, st.tick) == env.execute(req, 0);
    assert env.execute(req, Initial.tick) == env.execute(req, 0);
  }

  // ----- concurrent levels ------------------------------------------------

  ghost predicate Landed(env: Env, f: Flight, toRun: seq<Channel>, reqs: seq<Request>, i: nat)
    requires i < |f.tasks.phase| == |f.results| == |toRun| == |reqs|
  {
    && (f.tasks.phase[i] == L.Running ==> i in f.live)
    && (f.tasks.phase[i] == L.Done ==> f.results[i] == Some(ResultOf(env, toRun[i], reqs[i])))
  }

  ghost predicate Cruising(env: Env, f: Flight, toRun: seq<Channel>, reqs: seq<Request>, st: Run) {
    && FlightOk(env, f, toRun, reqs)
    && C.Steady(st, f.run)
    && f.run.store == Saved(env, st.store, toRun, reqs, f.tasks.phase, |toRun|)
    && forall i: nat :: i < |toRun| ==> Landed(env, f, toRun, reqs, i)
  }

  lemma {:induction false} SavedSamePhases(env: Env, store: map<string, string>, cs: seq<Channel>, reqs: seq<Request>,
      p: seq<L.Phase>, q: seq<L.Phase>, n: nat)
    requires n <= |cs| == |reqs| == |p| == |q|
    requires forall i :: 0 <= i < n ==> (p[i] == L.Done <==> q[i] == L.Done)
    ensures Saved(env, store, cs, reqs, p, n) == Saved(env, store, cs, reqs, q, n)
  {
    if n > 0 {
      SavedSamePhases(env, store, cs, reqs, p, q, n - 1);
    }
  }

  lemma {:induction false} MoveCruises(env: Env, f: Flight, toRun: seq<Channel>, reqs: seq<Request>, st: Run, i: nat)
    requires C.Undisturbed(env) && Deterministic(env)
    requires forall j, k :: 0 <= j < k < |toRun| ==> RawRef(toRun[j]) != RawRef(toRun[k])
    requires Cruising(env, f, toRun, reqs, st) && L.Enabled(env.caps, f.tasks, i)
    ensures Cruising(env, MoveTask(env, f, toRun, reqs, i), toRun, reqs, st)
  {
    var f' := MoveTask(env, f, toRun, reqs, i);
    assert Landed(env, f, toRun, reqs, i);
    if f'.tasks.phase[i] == L.Done {
      PerformIsTimeless(env, f.run, toRun[i], reqs[i]);
      SavedOneMore(env, st.store, toRun, reqs, f.tasks.phase, i, |toRun|);
    } else {
      SavedSamePhases(env, st.store, toRun, reqs, f.tasks.phase, f'.tasks.phase, |toRun|);
    }
    forall k: nat | k < |toRun| ensures Landed(env, f', toRun, reqs, k) {
      assert Landed(env, f, toRun, reqs, k);
    }
  }

  lemma {:induction false} DrainCruises(env: Env, f: Flight, toRun: seq<Channel>, reqs: seq<Request>, st: Run)
    requires C.Undisturbed(env) && Deterministic(env)
    requires forall j, k :: 0 <= j < k < |toRun| ==> RawRef(toRun[j]) != RawRef(toRun[k])
    requires Cruising(env, f, toRun, reqs, st)
    ensures Cruising(env, Drain(env, f, toRun, reqs), toRun, reqs, st)
    decreases L.Remaining(f.tasks.phase)
  {
    if !L.AllDone(f.tasks.phase) {
      var i := NextTask(env, f);
      MoveCruises(env, f, toRun, reqs, st, i);
      DrainCruises(env, MoveTask(env, f, toRun, reqs, i), toRun, reqs, st);
    }
  }

  lemma {:induction false} RecordAllAgrees(a: Run, b: Run, rs: seq<Option<ChannelResult>>)
    requires Agree(a, b)
    ensures Agree(RecordAll(a, rs), RecordAll(b, rs))
    decreases |rs|
  {
    if rs != [] {
      RecordAllAgrees(Record(a, rs[0]), Record(b, rs[0]), rs[1..]);
    }
  }

  lemma {:induction false} NothingSaved(env: Env, store: map<string, string>, cs: seq<Channel>, reqs: seq<Request>,
      phase: seq<L.Phase>, n: nat)
    requires n <= |cs| == |reqs| == |phase| && forall i :: 0 <= i < n ==> phase[i] != L.Done
    ensures Saved(env, store, cs, reqs, phase, n) == store
  {
    if n > 0 {
      NothingSaved(env, store, cs, reqs, phase, n - 1);
    }
  }

  // ----- one at a time ----------------------------------------------------

  lemma {:induction false} SequentialConcat(env: Env, st: Run, a: seq<Channel>, b: seq<Channel>)
    requires C.Undisturbed(env) && Deterministic(env) && !st.aborted && !st.halted
    ensures SequentialLevel(env, st, a + b) == SequentialLevel(env, SequentialLevel(env, st, a), b)
    ensures !SequentialLevel(env, st, a).aborted && !SequentialLevel(env, st, a).halted
    decreases |a|
  {
    if a == [] {
      assert a + b == b;
    } else {
      assert (a + b)[0] == a[0] && (a + b)[1..] == a[1..] + b;
      GateOpens(env, st, a[0], false, ChannelRequest(st, a[0]));
      var (gated, r) := RunGated(env, st, a[0], false, ChannelRequest(st, a[0]));
      SequentialConcat(env, Record(gated, r), a[1..], b);
    }
  }

  lemma {:induction false} RecordAllSnoc(st: Run, rs: seq<Option<ChannelResult>>, r: Option<ChannelResult>)
    ensures RecordAll(st, rs + [r]) == Record(RecordAll(st, rs), r)
    decreases |rs|
  {
    if rs == [] {
      assert [] + [r] == [r];
    } else {
      assert (rs + [r])[0] == rs[0] && (rs + [r])[1..] == rs[1..] + [r];
      RecordAllSnoc(Record(st, rs[0]), rs[1..], r);
    }
  }

  lemma {:induction false} RecordAllElsewhere(st: Run, rs: seq<Option<ChannelResult>>, d: Id)
    requires forall i :: 0 <= i < |rs| && rs[i].Some? ==> rs[i].value.channelId != d
    ensures var st' := RecordAll(st, rs);
      && (d in st'.completed <==> d in st.completed)
      && (d in st.completed ==> st'.completed[d] == st.completed[d])
      && st'.store == st.store && st'.synthesis == st.synthesis && st'.depth == st.depth
    decreases |rs|
  {
    if rs != [] {
      RecordAllElsewhere(Record(st, rs[0]), rs[1..], d);
    }
  }

  lemma {:induction false} RecordAllKeeps(st: Run, rs: seq<Option<ChannelResult>>)
    ensures var st' := RecordAll(st, rs);
      st'.store == st.store && st'.synthesis == st.synthesis && st'.depth == st.depth && st'.policy == st.policy
      && st'.aborted == st.aborted && st'.halted == st.halted
    decreases |rs|
  {
    if rs != [] {
      RecordAllKeeps(Record(st, rs[0]), rs[1..]);
    }
  }

  lemma {:induction false} SavedElsewhere(env: Env, store: map<string, string>, cs: seq<Channel>, reqs: seq<Request>,
      phase: seq<L.Phase>, n: nat, ref: string)
    requires n <= |cs| == |reqs| == |phase| && forall i :: 0 <= i < n ==> RawRef(cs[i]) != ref
    ensures var store' := Saved(env, store, cs, reqs, phase, n);
      (ref in store' <==> ref in store) && (ref in store ==> store'[ref] == store[ref])
  {
    if n > 0 {
      SavedElsewhere(env, store, cs, reqs, phase, n - 1, ref);
    }
  }

  lemma {:induction false} RequestAgrees(a: Run, b: Run, c: Channel)
    requires Agree(a, b)
    ensures ChannelRequest(a, c) == ChannelRequest(b, c)
  {
  }

  /** One at a time, the first `n` channels of a level come to the same outcome. */
  lemma {:induction false} SequentialOutcome(env: Env, st: Run, cs: seq<Channel>, n: nat)
    requires C.Undisturbed(env) && Deterministic(env) && !st.aborted && !st.halted && n <= |cs|
    requires Independent(cs) && RefsOk(env.plan.channels, st) && forall e :: e in cs ==> e in env.plan.channels
    ensures Agree(SequentialLevel(env, st, cs[..n]), LevelOutcome(env, st, cs, n))
  {
    var reqs := Requests(st, cs);
    if n == 0 {
      assert st.(store := st.store) == st;
    } else {
      var c, req := cs[n - 1], reqs[n - 1];
      SequentialOutcome(env, st, cs, n - 1);
      assert cs[..n] == cs[..n - 1] + [c];
      SequentialConcat(env, st, cs[..n - 1], [c]);
      var before, model := SequentialLevel(env, st, cs[..n - 1]), LevelOutcome(env, st, cs, n - 1);
      RequestUnmoved(env, st, cs, n - 1, c);
      RequestAgrees(before, model, c);
      OneStepOutcome(env, st, cs, n, before);
    }
  }

  lemma {:induction false} OneStepOutcome(env: Env, st: Run, cs: seq<Channel>, n: nat, before: Run)
    requires C.Undisturbed(env) && Deterministic(env) && 0 < n <= |cs|
    requires Agree(before, LevelOutcome(env, st, cs, n - 1))
    requires ChannelRequest(before, cs[n - 1]) == ChannelRequest(st, cs[n - 1])
    ensures Agree(SequentialLevel(env, before, [cs[n - 1]]), LevelOutcome(env, st, cs, n))
  {
    OneChannelLevel(env, before, cs[n - 1]);
    OutcomeOneMore(env, st, cs, n);
  }

  /** A run after channel `c` answered `req`. */
  ghost function Answered(env: Env, st: Run, c: Channel, req: Request): Run {
    Record(st.(store := Write(env, st.store, c, req)), Some(ResultOf(env, c, req)))
  }

  lemma {:induction false} OneChannelLevel(env: Env, st: Run, c: Channel)
    requires C.Undisturbed(env) && Deterministic(env) && !st.aborted && !st.halted
    ensures Agree(SequentialLevel(env, st, [c]), Answered(env, st, c, ChannelRequest(st, c)))
  {
    var req := ChannelRequest(st, c);
    GateOpens(env, st, c, false, req);
    var (gated, r) := RunGated(env, st, c, false, req);
    var recorded := Record(gated, r);
    assert [c][1..] == [];
    assert SequentialLevel(env, st, [c]) == recorded;
  }

  lemma {:induction false} OutcomeOneMore(env: Env, st: Run, cs: seq<Channel>, n: nat)
    requires 0 < n <= |cs|
    ensures LevelOutcome(env, st, cs, n) ==
      Answered(env, LevelOutcome(env, st, cs, n - 1), cs[n - 1], ChannelRequest(st, cs[n - 1]))
  {
    var c, req := cs[n - 1], ChannelRequest(st, cs[n - 1]);
    var reqs, rs := Requests(st, cs), Results(env, cs, Requests(st, cs));
    var r := Some(ResultOf(env, c, req));
    var store := Saved(env, st.store, cs, reqs, Finished(|cs|), n - 1);
    RecordAllKeeps(st.(store := store), rs[..n - 1]);
    assert rs[..n] == rs[..n - 1] + [r];
    RecordAllSnoc(st.(store := Write(env, store, c, req)), rs[..n - 1], r);
    RecordAllStore(st.(store := store), rs[..n - 1], Write(env, store, c, req));
  }

  /** Recording does not look at the store. */
  lemma {:induction false} RecordAllStore(st: Run, rs: seq<Option<ChannelResult>>, store: map<string, string>)
    ensures RecordAll(st.(store := store), rs) == RecordAll(st, rs).(store := store)
    decreases |rs|
  {
    if rs != [] {
      RecordAllStore(Record(st, rs[0]), rs[1..], store);
    }
  }
}

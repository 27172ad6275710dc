/** Over every run: what each channel and each synthesis is asked. */
module RunRequests {
  import opened Prelude
  import opened Graph
  import opened RunModel
  import opened Refinement
  import LO = LevelOutcomes
  import EP = ExecutionPlan
  import L = Limiter

  // ----- what a request must hold -----------------------------------------

  /** The event gave channel `d` its result in round `depth`: carried forward, or answered. */
  predicate Gives(e: Event, depth: nat, d: Id) {
    (e.Carried? || (e.Reviewed? && !e.isSynthesis)) && e.depth == depth && e.channelId == d
  }

  ghost predicate Given(journal: seq<Event>, depth: nat, d: Id) {
    exists j :: 0 <= j < |journal| && Gives(journal[j], depth, d)
  }

  /** What this run saved with the result: the provider's text if there was one, nothing for a carried result. */
  function TextOf(env: Env, e: Event): string {
    if e.Reviewed? && env.execute(e.request, e.asked).raw.Some? then env.execute(e.request, e.asked).raw.value else ""
  }

  /** The parsed output of the last synthesis answered so far. */
  function LatestSynthesis(journal: seq<Event>): Option<JsonValue> {
    if journal == [] then None
    else
      var e := journal[|journal| - 1];
      if e.Reviewed? && e.isSynthesis then Some(e.result.parsedOutput)
      else LatestSynthesis(journal[..|journal| - 1])
  }

  /** No two planned channels save under one reference, and no carried result refers to another's. */
  ghost predicate RefsOwned(env: Env) {
    && DistinctRefs(env.plan.channels)
    && forall r :: r in env.carried ==> LO.OwnRef(env.plan.channels, r)
  }

  /**
   * A channel is handed the outputs of exactly those of its dependencies that have
   * a result in its round, each with what that result parsed to and with the text
   * saved for it, and the output of the last synthesis.
   */
  ghost predicate ChannelAsked(env: Env, before: seq<Event>, depth: nat, req: Request) {
    && req.channel in env.plan.channels && !req.isSynthesis && req.depth == depth && req.channelResults == []
    && req.previousSynthesis == LatestSynthesis(before)
    && (forall d :: d in req.upstream <==> d in req.channel.dependsOn && Given(before, depth, d))
    && (forall j, d :: 0 <= j < |before| && d in req.channel.dependsOn && Gives(before[j], depth, d) ==>
          Handed(env, before[j], req, d))
  }

  ghost predicate Handed(env: Env, e: Event, req: Request, d: Id)
    requires !e.Gated?
  {
    && d in req.upstream
    && req.upstream[d].parsed == e.result.parsedOutput
    && (RefsOwned(env) ==> req.upstream[d].raw == TextOf(env, e))
  }

  /** A synthesis is shown the results of its round, in the order recorded, and the output of the last synthesis. */
  ghost predicate SynthesisAsked(env: Env, before: seq<Event>, channels: seq<ChannelResult>, depth: nat, req: Request) {
    && env.plan.synthesis == Some(req.channel) && req.isSynthesis && req.depth == depth && req.upstream == map[]
    && req.previousSynthesis == LatestSynthesis(before)
    && exists a: nat, b: nat :: ShownBetween(before, channels, depth, req, a, b)
  }

  ghost predicate ShownBetween(before: seq<Event>, channels: seq<ChannelResult>, depth: nat, req: Request, a: nat,
      b: nat)
  {
    && a <= b <= |channels|
    && ResultsOfRound(before, depth, channels[a..b])
    && |req.channelResults| == b - a
    && forall i :: 0 <= i < b - a ==>
         req.channelResults[i] == (channels[a + i].channelId, channels[a + i].status, channels[a + i].parsedOutput)
  }

  /** `rs` are the results channels were given in round `depth`, one for each such channel. */
  ghost predicate ResultsOfRound(journal: seq<Event>, depth: nat, rs: seq<ChannelResult>) {
    && OnePerChannel(rs)
    && (forall d :: Given(journal, depth, d) <==> Has(rs, d))
    && forall r, j :: r in rs && 0 <= j < |journal| && Gives(journal[j], depth, r.channelId) ==> journal[j].result == r
  }

  ghost predicate OnePerChannel(rs: seq<ChannelResult>) {
    forall i, j :: 0 <= i < j < |rs| ==> rs[i].channelId != rs[j].channelId
  }

  ghost predicate Has(rs: seq<ChannelResult>, d: Id) {
    exists r :: r in rs && r.channelId == d
  }

  /** The result is what the provider said when asked, recorded under the channel's own id and reference. */
  ghost predicate Answered(env: Env, e: Event)
    requires e.Reviewed?
  {
    var o, r := env.execute(e.request, e.asked), e.result;
    && r.channelId == e.channelId == e.request.channel.id
    && r.provider == o.provider && r.model == o.model && r.status == o.status && r.usage == o.usage
    && r.parsedOutput == o.parsedOutput && r.schemaValid == o.schemaValid && r.validationErrors == o.validationErrors
    && r.rawOutputRef == if o.raw.Some? then Some(RawRef(e.request.channel)) else None
  }

  ghost predicate EventAsked(env: Env, before: seq<Event>, channels: seq<ChannelResult>, e: Event) {
    e.Reviewed? ==>
      && Answered(env, e)
      && (if e.isSynthesis then SynthesisAsked(env, before, channels, e.depth, e.request)
          else ChannelAsked(env, before, e.depth, e.request))
  }

  ghost predicate AllAsked(env: Env, journal: seq<Event>, channels: seq<ChannelResult>) {
    forall i {:trigger journal[i]} :: 0 <= i < |journal| ==> EventAsked(env, journal[..i], channels, journal[i])
  }

  /**
   * Over every run of a sound plan, fresh or resumed, with or without policies,
   * under every schedule and every abort: each channel and each synthesis that was
   * answered had been asked just this, and its result is what the provider said.
   */
  lemma {:induction false} EveryRequest(env: Env)
    requires EP.Sound(env.plan)
    ensures AllAsked(env, Execute(env).journal, Execute(env).channels)
  {
    RoundsAsk(env, Initial);
  }

  // ----- what a run keeps -------------------------------------------------

  function TextIn(store: map<string, string>, r: ChannelResult): string {
    if r.rawOutputRef.Some? && r.rawOutputRef.value in store then store[r.rawOutputRef.value] else ""
  }

  /** The results `m` of the round are those the journal gave, with their texts in the store. */
  ghost predicate Holds(env: Env, st: Run, m: map<Id, ChannelResult>) {
    && (forall j, d :: 0 <= j < |st.journal| && Gives(st.journal[j], st.depth, d) ==> HeldFrom(env, st, m, j, d))
    && forall d :: d in m ==> HeldOwn(env, st, m, d)
  }

  ghost predicate HeldFrom(env: Env, st: Run, m: map<Id, ChannelResult>, j: nat, d: Id)
    requires j < |st.journal| && !st.journal[j].Gated?
  {
    && d in m && m[d] == st.journal[j].result
    && (RefsOwned(env) ==> TextIn(st.store, m[d]) == TextOf(env, st.journal[j]))
  }

  ghost predicate HeldOwn(env: Env, st: Run, m: map<Id, ChannelResult>, d: Id)
    requires d in m
  {
    && m[d].channelId == d && Given(st.journal, st.depth, d)
    && (RefsOwned(env) ==> LO.OwnRef(env.plan.channels, m[d]))
  }

  ghost predicate Settled(env: Env, st: Run) {
    && AllAsked(env, st.journal, st.channels)
    && PreviousSynthesis(st) == LatestSynthesis(st.journal)
    && forall j :: 0 <= j < |st.journal| ==> st.journal[j].depth <= st.depth
  }

  lemma {:induction false} AskedSnoc(env: Env, journal: seq<Event>, channels: seq<ChannelResult>, e: Event)
    requires AllAsked(env, journal, channels) && EventAsked(env, journal, channels, e)
    ensures AllAsked(env, journal + [e], channels)
  {
    var j := journal + [e];
    forall i {:trigger j[i]} | 0 <= i < |j| ensures EventAsked(env, j[..i], channels, j[i]) {
      assert j[..i] == journal[..i];
    }
    assert journal[..|journal|] == journal;
  }

  lemma {:induction false} AskedLater(env: Env, journal: seq<Event>, channels: seq<ChannelResult>,
      more: seq<ChannelResult>)
    requires AllAsked(env, journal, channels) && channels <= more
    ensures AllAsked(env, journal, more)
  {
    forall i {:trigger journal[i]} | 0 <= i < |journal| ensures EventAsked(env, journal[..i], more, journal[i]) {
      var e := journal[i];
      assert EventAsked(env, journal[..i], channels, e);
      if e.Reviewed? && e.isSynthesis {
        var a: nat, b: nat :| ShownBetween(journal[..i], channels, e.depth, e.request, a, b);
        assert more[a..b] == channels[a..b];
        assert ShownBetween(journal[..i], more, e.depth, e.request, a, b);
      }
    }
  }

  /** A later event gives `d` a result only if it is one that gives it. */
  lemma {:induction false} GivenSnoc(journal: seq<Event>, e: Event, depth: nat, d: Id)
    ensures Given(journal + [e], depth, d) <==> Given(journal, depth, d) || Gives(e, depth, d)
  {
    var j := journal + [e];
    if Given(journal, depth, d) {
      var i :| 0 <= i < |journal| && Gives(journal[i], depth, d);
      assert Gives(j[i], depth, d);
    }
    if Gives(e, depth, d) {
      assert Gives(j[|journal|], depth, d);
    }
  }

  /** What a request holds stays right when something else happens. */
  lemma {:induction false} AskedStays(env: Env, journal: seq<Event>, e: Event, depth: nat, req: Request)
    requires ChannelAsked(env, journal, depth, req)
    requires e.Reviewed? ==> !e.isSynthesis
    requires forall d :: d in req.channel.dependsOn ==> !Gives(e, depth, d)
    ensures ChannelAsked(env, journal + [e], depth, req)
  {
    var later := journal + [e];
    assert later[..|journal|] == journal;
    forall d ensures d in req.upstream <==> d in req.channel.dependsOn && Given(later, depth, d) {
      GivenSnoc(journal, e, depth, d);
    }
    forall j, d | 0 <= j < |later| && d in req.channel.dependsOn && Gives(later[j], depth, d)
      ensures Handed(env, later[j], req, d)
    {
      assert Gives(journal[j], depth, d);
    }
  }

  /** The request of a channel at the start of its level, or of its turn. */
  lemma {:induction false} RequestIsRight(env: Env, st: Run, c: Channel)
    requires Settled(env, st) && Holds(env, st, st.completed) && c in env.plan.channels
    ensures ChannelAsked(env, st.journal, st.depth, ChannelRequest(st, c))
  {
    var req := ChannelRequest(st, c);
    forall d ensures d in req.upstream <==> d in c.dependsOn && Given(st.journal, st.depth, d) {
      if d in req.upstream {
        assert HeldOwn(env, st, st.completed, d);
      }
      if Given(st.journal, st.depth, d) {
        var j :| 0 <= j < |st.journal| && Gives(st.journal[j], st.depth, d);
        assert HeldFrom(env, st, st.completed, j, d);
      }
    }
    forall j, d | 0 <= j < |st.journal| && d in c.dependsOn && Gives(st.journal[j], st.depth, d)
      ensures Handed(env, st.journal[j], req, d)
    {
      assert HeldFrom(env, st, st.completed, j, d);
    }
  }

  // ----- one channel ------------------------------------------------------

  lemma {:induction false} AdmitAsks(env: Env, st: Run, c: Channel, isSynthesis: bool, m: map<Id, ChannelResult>)
    requires Settled(env, st) && Holds(env, st, m)
    ensures var st' := Admit(env, st, c, isSynthesis).0;
      && Settled(env, st') && Holds(env, st', m) && st'.depth == st.depth && st'.channels == st.channels
      && st'.round == st.round && st'.completed == st.completed && st'.store == st.store
      && |st'.journal| == |st.journal| + 1 && st'.journal[..|st.journal|] == st.journal
      && st'.journal[|st.journal|].Gated?
  {
    var st' := Admit(env, st, c, isSynthesis).0;
    var e := st'.journal[|st.journal|];
    assert st'.journal == st.journal + [e];
    AskedSnoc(env, st.journal, st.channels, e);
    assert st'.journal[..|st'.journal| - 1] == st.journal;
    forall j, d | 0 <= j < |st'.journal| && Gives(st'.journal[j], st.depth, d) ensures HeldFrom(env, st', m, j, d) {
      assert HeldFrom(env, st, m, j, d);
    }
    forall d | d in m ensures HeldOwn(env, st', m, d) {
      assert HeldOwn(env, st, m, d);
      GivenSnoc(st.journal, e, st.depth, d);
    }
  }

  /** The provider is asked and its answer joins the results of the round. */
  ghost function Asking(env: Env, st: Run, c: Channel, isSynthesis: bool, req: Request): Run {
    Review(env, Perform(env, st, c, req).0, c, isSynthesis, req, st.tick, Perform(env, st, c, req).1)
  }

  lemma {:induction false} AnswerSettles(env: Env, st: Run, c: Channel, isSynthesis: bool, req: Request)
    requires AllAsked(env, st.journal, st.channels)
    requires forall j :: 0 <= j < |st.journal| ==> st.journal[j].depth <= st.depth
    requires req.channel == c
    requires if isSynthesis then SynthesisAsked(env, st.journal, st.channels, st.depth, req)
             else ChannelAsked(env, st.journal, st.depth, req)
    ensures var st' := Asking(env, st, c, isSynthesis, req);
      && AllAsked(env, st'.journal, st'.channels)
      && (forall j :: 0 <= j < |st'.journal| ==> st'.journal[j].depth <= st'.depth)
      && LatestSynthesis(st'.journal) ==
         if isSynthesis then Some(Answer(env, c, req, st.tick).parsedOutput) else LatestSynthesis(st.journal)
  {
    var st' := Asking(env, st, c, isSynthesis, req);
    var e := st'.journal[|st.journal|];
    assert st'.journal == st.journal + [e];
    assert st'.journal[..|st'.journal| - 1] == st.journal;
    AskedSnoc(env, st.journal, st.channels, e);
  }

  lemma {:induction false} AnswerHolds(env: Env, st: Run, c: Channel, req: Request, m: map<Id, ChannelResult>)
    requires Holds(env, st, m) && c in env.plan.channels && c.id !in m && req.channel == c
    ensures Holds(env, Asking(env, st, c, false, req), m[c.id := Answer(env, c, req, st.tick)])
  {
    var st', r := Asking(env, st, c, false, req), Answer(env, c, req, st.tick);
    var e, m' := st'.journal[|st.journal|], m[c.id := r];
    assert st'.journal == st.journal + [e];
    forall j, d | 0 <= j < |st'.journal| && Gives(st'.journal[j], st.depth, d) ensures HeldFrom(env, st', m', j, d) {
      if j < |st.journal| {
        assert HeldFrom(env, st, m, j, d) && HeldOwn(env, st, m, d);
        TextStays(env, st, c, req, m[d]);
      }
    }
    forall d | d in m' ensures HeldOwn(env, st', m', d) {
      GivenSnoc(st.journal, e, st.depth, d);
      if d != c.id {
        assert HeldOwn(env, st, m, d);
      }
    }
  }

  lemma {:induction false} AnswerJoins(env: Env, st: Run, c: Channel, req: Request, m: map<Id, ChannelResult>)
    requires Settled(env, st) && Holds(env, st, m) && c in env.plan.channels && c.id !in m
    requires ChannelAsked(env, st.journal, st.depth, req) && req.channel == c
    ensures var st', r := Asking(env, st, c, false, req), Answer(env, c, req, st.tick);
      Settled(env, st') && Holds(env, st', m[c.id := r])
  {
    AnswerSettles(env, st, c, false, req);
    AnswerHolds(env, st, c, req, m);
  }

  /** Saving an answer moves no text but its own. */
  lemma {:induction false} TextStays(env: Env, st: Run, c: Channel, req: Request, r: ChannelResult)
    requires RefsOwned(env) ==> LO.OwnRef(env.plan.channels, r)
    requires c in env.plan.channels && r.channelId != c.id
    ensures RefsOwned(env) ==> TextIn(Asking(env, st, c, false, req).store, r) == TextIn(st.store, r)
  {
  }

  // ----- one level --------------------------------------------------------

  /** The results recorded since position `start` are those of the round, in the order its synthesis will be shown. */
  ghost predicate RoundSoFar(st: Run, start: nat) {
    start <= |st.channels| && RoundIs(st.completed, st.round, st.channels[start..])
  }

  ghost predicate RoundIs(completed: map<Id, ChannelResult>, round: seq<Option<ChannelResult>>,
      rs: seq<ChannelResult>)
  {
    && Listed(Summaries(round), rs) && OnePerChannel(rs)
    && (forall r :: r in rs ==> r.channelId in completed && completed[r.channelId] == r)
    && forall d :: d in completed ==> Has(rs, d)
  }

  /** These are the summaries of `rs`. */
  ghost predicate Listed(summaries: seq<(Id, Status, JsonValue)>, rs: seq<ChannelResult>) {
    && |summaries| == |rs|
    && forall i :: 0 <= i < |rs| ==> summaries[i] == (rs[i].channelId, rs[i].status, rs[i].parsedOutput)
  }

  ghost predicate Boundary(env: Env, st: Run, start: nat) {
    Settled(env, st) && Holds(env, st, st.completed) && RoundSoFar(st, start)
  }

  function Summary(r: Option<ChannelResult>): seq<(Id, Status, JsonValue)> {
    if r.Some? then [(r.value.channelId, r.value.status, r.value.parsedOutput)] else []
  }

  lemma {:induction false} SummariesSnoc(rs: seq<Option<ChannelResult>>, r: Option<ChannelResult>)
    ensures Summaries(rs + [r]) == Summaries(rs) + Summary(r)
  {
    if rs == [] {
      assert [r][1..] == [];
    } else {
      assert (rs + [r])[1..] == rs[1..] + [r];
      SummariesSnoc(rs[1..], r);
      assert Summaries(rs) == Summary(rs[0]) + Summaries(rs[1..]);
    }
  }

  lemma {:induction false} RoundSnoc(completed: map<Id, ChannelResult>, round: seq<Option<ChannelResult>>,
      rs: seq<ChannelResult>, r: ChannelResult)
    requires RoundIs(completed, round, rs) && r.channelId !in completed
    ensures RoundIs(completed[r.channelId := r], round + [Some(r)], rs + [r])
  {
    SummariesSnoc(round, Some(r));
    var completed', rs' := completed[r.channelId := r], rs + [r];
    forall d | d in completed' ensures Has(rs', d) {
      if d == r.channelId {
        assert r in rs';
      } else {
        assert Has(rs, d);
        var q :| q in rs && q.channelId == d;
        assert q in rs';
      }
    }
    forall i | 0 <= i < |rs| ensures rs[i].channelId != r.channelId {
      assert rs[i] in rs;
    }
  }

  /** Recording a result. */
  lemma {:induction false} RecordJoins(st: Run, r: Option<ChannelResult>, start: nat)
    requires RoundSoFar(st, start) && (r.Some? ==> r.value.channelId !in st.completed)
    ensures RoundSoFar(Record(st, r), start)
  {
    var st', rs := Record(st, r), st.channels[start..];
    if r.Some? {
      RoundSnoc(st.completed, st.round, rs, r.value);
      assert st'.channels[start..] == rs + [r.value];
    } else {
      SummariesSnoc(st.round, None);
    }
  }

  /** Recording a result the journal has already given. */
  lemma {:induction false} RecordKeeps(env: Env, st: Run, r: Option<ChannelResult>, m: map<Id, ChannelResult>,
      start: nat)
    requires Settled(env, st) && RoundSoFar(st, start)
    requires Holds(env, st, m) && (r.Some? ==> r.value.channelId !in st.completed)
    ensures var st' := Record(st, r); Settled(env, st') && RoundSoFar(st', start) && Holds(env, st', m)
  {
    RecordJoins(st, r, start);
    var st' := Record(st, r);
    AskedLater(env, st.journal, st.channels, st'.channels);
    HoldsElsewhere(env, st, st', m);
  }

  lemma {:induction false} HoldsElsewhere(env: Env, st: Run, st': Run, m: map<Id, ChannelResult>)
    requires Holds(env, st, m) && st'.journal == st.journal && st'.depth == st.depth && st'.store == st.store
    ensures Holds(env, st', m)
  {
    forall j, d | 0 <= j < |st'.journal| && Gives(st'.journal[j], st'.depth, d) ensures HeldFrom(env, st', m, j, d) {
      assert HeldFrom(env, st, m, j, d);
    }
    forall d | d in m ensures HeldOwn(env, st', m, d) {
      assert HeldOwn(env, st, m, d);
    }
  }

  lemma {:induction false} GatedAsks(env: Env, st: Run, c: Channel, start: nat)
    requires Boundary(env, st, start) && c in env.plan.channels && c.id !in st.completed
    ensures var (gated, r) := RunGated(env, st, c, false, ChannelRequest(st, c));
      var st' := Record(gated, r);
      && Boundary(env, st', start) && st'.depth == st.depth
      && st'.completed.Keys <= st.completed.Keys + {c.id}
  {
    var req := ChannelRequest(st, c);
    var s := Sense(env, st);
    HoldsElsewhere(env, st, s, s.completed);
    if s.aborted {
      RecordKeeps(env, s, None, s.completed, start);
    } else {
      AdmitAsks(env, s, c, false, s.completed);
      var (admitted, go) := Admit(env, s, c, false);
      if !go {
        RecordKeeps(env, admitted, None, s.completed, start);
      } else {
        RequestIsRight(env, s, c);
        AskedStays(env, s.journal, admitted.journal[|s.journal|], s.depth, req);
        assert admitted.journal == s.journal + [admitted.journal[|s.journal|]];
        AnswerJoins(env, admitted, c, req, s.completed);
        var asked := Asking(env, admitted, c, false, req);
        var r := Answer(env, c, req, admitted.tick);
        RecordKeeps(env, asked, Some(r), s.completed[c.id := r], start);
      }
    }
  }

  lemma {:induction false} SequentialAsks(env: Env, st: Run, toRun: seq<Channel>, start: nat)
    requires Boundary(env, st, start) && Distinct(toRun) && st.completed.Keys !! Ids(toRun)
    requires forall c :: c in toRun ==> c in env.plan.channels
    ensures var st' := SequentialLevel(env, st, toRun);
      && Boundary(env, st', start) && st'.depth == st.depth
      && st'.completed.Keys <= st.completed.Keys + Ids(toRun)
    decreases |toRun|
  {
    if toRun != [] {
      var c, rest := toRun[0], toRun[1..];
      IdsSplit(toRun);
      assert c in toRun;
      GatedAsks(env, st, c, start);
      var (gated, r) := RunGated(env, st, c, false, ChannelRequest(st, c));
      var recorded := Record(gated, r);
      if !recorded.halted {
        SequentialAsks(env, recorded, rest, start);
      }
    }
  }

  /** What the journal has given so far: the results recorded before the level, and those of its finished tasks. */
  ghost predicate Merges(m: map<Id, ChannelResult>, completed: map<Id, ChannelResult>, cs: seq<Channel>,
      rs: seq<Option<ChannelResult>>)
  {
    && |rs| == |cs|
    && (forall d :: d in completed ==> d in m && m[d] == completed[d])
    && (forall d :: d in m ==> d in completed || d in Ids(cs))
    && forall i: nat :: i < |cs| ==> MergesAt(m, cs[i], rs[i])
  }

  predicate MergesAt(m: map<Id, ChannelResult>, c: Channel, r: Option<ChannelResult>) {
    && (r.Some? <==> c.id in m)
    && (r.Some? ==> r.value == m[c.id] && r.value.channelId == c.id)
  }

  lemma {:induction false} IdsSplit(cs: seq<Channel>)
    requires cs != [] && Distinct(cs)
    ensures Distinct(cs[1..]) && cs[0].id !in Ids(cs[1..]) && Ids(cs) == {cs[0].id} + Ids(cs[1..])
  {
    var c, rest := cs[0], cs[1..];
    assert cs == [c] + rest;
    DistinctParts([c], rest);
    assert c in [c] && Ids([c]) == {c.id};
  }

  lemma {:induction false} MergesRest(m: map<Id, ChannelResult>, completed: map<Id, ChannelResult>, cs: seq<Channel>,
      rs: seq<Option<ChannelResult>>)
    requires cs != [] && Distinct(cs) && Merges(m, completed, cs, rs) && cs[0].id !in completed
    ensures rs[0].Some? ==> Merges(m, completed[cs[0].id := rs[0].value], cs[1..], rs[1..])
    ensures rs[0].None? ==> Merges(m, completed, cs[1..], rs[1..])
  {
    IdsSplit(cs);
    assert MergesAt(m, cs[0], rs[0]);
    forall i: nat | i < |cs[1..]| ensures MergesAt(m, cs[1..][i], rs[1..][i]) {
      assert MergesAt(m, cs[i + 1], rs[i + 1]);
    }
  }

  lemma {:induction false} RecordAllAsks(env: Env, st: Run, cs: seq<Channel>, rs: seq<Option<ChannelResult>>,
      m: map<Id, ChannelResult>, start: nat)
    requires Settled(env, st) && RoundSoFar(st, start) && Holds(env, st, m)
    requires Distinct(cs) && st.completed.Keys !! Ids(cs) && Merges(m, st.completed, cs, rs)
    ensures var st' := RecordAll(st, rs);
      Settled(env, st') && RoundSoFar(st', start) && Holds(env, st', m) && st'.depth == st.depth && st'.completed == m
    decreases |rs|
  {
    if rs == [] {
      assert m == st.completed;
    } else {
      IdsSplit(cs);
      assert MergesAt(m, cs[0], rs[0]);
      MergesRest(m, st.completed, cs, rs);
      RecordKeeps(env, st, rs[0], m, start);
      RecordAllAsks(env, Record(st, rs[0]), cs[1..], rs[1..], m, start);
    }
  }

  /** A level in flight: nothing is recorded yet, and every request still tells what came before it. */
  ghost predicate Aloft(env: Env, f: Flight, cs: seq<Channel>, reqs: seq<Request>, st: Run, m: map<Id, ChannelResult>) {
    && FlightOk(env, f, cs, reqs)
    && f.run.depth == st.depth && f.run.completed == st.completed && f.run.round == st.round
    && f.run.channels == st.channels
    && Settled(env, f.run) && Holds(env, f.run, m) && Merges(m, st.completed, cs, f.results)
    && forall i: nat :: i < |cs| ==> AskedAt(env, f, cs[i], reqs[i], i)
  }

  ghost predicate AskedAt(env: Env, f: Flight, c: Channel, req: Request, i: nat)
    requires i < |f.tasks.phase| == |f.results|
  {
    && req.channel == c && ChannelAsked(env, f.run.journal, f.run.depth, req)
    && (f.results[i].Some? ==> f.tasks.phase[i] == L.Done)
  }

  /** The channels of a level: all planned, once each, none recorded yet, and none needing another. */
  ghost predicate Launchable(env: Env, cs: seq<Channel>, st: Run) {
    && Distinct(cs) && LO.Independent(cs) && st.completed.Keys !! Ids(cs)
    && forall c :: c in cs ==> c in env.plan.channels
  }

  lemma {:induction false} LandMerges(m: map<Id, ChannelResult>, completed: map<Id, ChannelResult>, cs: seq<Channel>,
      rs: seq<Option<ChannelResult>>, i: nat, r: ChannelResult)
    requires Merges(m, completed, cs, rs) && i < |cs| && Distinct(cs) && completed.Keys !! Ids(cs)
    requires r.channelId == cs[i].id
    ensures Merges(m[cs[i].id := r], completed, cs, rs[i := Some(r)])
  {
    var m', rs' := m[cs[i].id := r], rs[i := Some(r)];
    assert cs[i] in cs;
    forall k: nat | k < |cs| ensures MergesAt(m', cs[k], rs'[k]) {
      assert MergesAt(m, cs[k], rs[k]);
      if k != i {
        assert cs[k].id != cs[i].id;
      }
    }
  }

  lemma {:induction false} NotOfLevel(cs: seq<Channel>, c: Channel, d: Id)
    requires LO.Independent(cs) && c in cs && d in c.dependsOn
    ensures d !in Ids(cs)
  {
  }

  /** Every task's request outlives another event of its level. */
  lemma {:induction false} AllStayAsked(env: Env, f: Flight, f': Flight, cs: seq<Channel>, reqs: seq<Request>, e: Event)
    requires FlightOk(env, f, cs, reqs) && LO.Independent(cs) && (e.Reviewed? ==> !e.isSynthesis)
    requires |f'.tasks.phase| == |f'.results| == |cs|
    requires forall i: nat :: i < |cs| ==> AskedAt(env, f, cs[i], reqs[i], i)
    requires f'.run.journal == f.run.journal + [e] && f'.run.depth == f.run.depth
    requires e.Gated? || e.channelId in Ids(cs)
    requires forall i: nat :: i < |cs| && f'.results[i].Some? ==> f'.tasks.phase[i] == L.Done
    ensures forall i: nat :: i < |cs| ==> AskedAt(env, f', cs[i], reqs[i], i)
  {
    forall i: nat | i < |cs| ensures AskedAt(env, f', cs[i], reqs[i], i) {
      assert AskedAt(env, f, cs[i], reqs[i], i);
      forall d | d in cs[i].dependsOn ensures !Gives(e, f.run.depth, d) {
        NotOfLevel(cs, cs[i], d);
      }
      AskedStays(env, f.run.journal, e, f.run.depth, reqs[i]);
    }
  }

  lemma {:induction false} StillAsked(env: Env, f: Flight, f': Flight, cs: seq<Channel>, reqs: seq<Request>)
    requires FlightOk(env, f, cs, reqs) && FlightOk(env, f', cs, reqs)
    requires forall i: nat :: i < |cs| ==> AskedAt(env, f, cs[i], reqs[i], i)
    requires f'.run.journal == f.run.journal && f'.run.depth == f.run.depth && f'.results == f.results
    requires forall i: nat :: i < |cs| && f.tasks.phase[i] == L.Done ==> f'.tasks.phase[i] == L.Done
    ensures forall i: nat :: i < |cs| ==> AskedAt(env, f', cs[i], reqs[i], i)
  {
    forall i: nat | i < |cs| ensures AskedAt(env, f', cs[i], reqs[i], i) {
      assert AskedAt(env, f, cs[i], reqs[i], i);
    }
  }

  lemma {:induction false} LaunchAsks(env: Env, f: Flight, cs: seq<Channel>, reqs: seq<Request>, st: Run,
      m: map<Id, ChannelResult>, i: nat)
    requires Aloft(env, f, cs, reqs, st, m) && Launchable(env, cs, st) && L.Enabled(env.caps, f.tasks, i)
    requires L.Step(env.caps, f.tasks, i).phase[i] == L.Running
    ensures Aloft(env, MoveTask(env, f, cs, reqs, i), cs, reqs, st, m)
  {
    var f' := MoveTask(env, f, cs, reqs, i);
    var s := Sense(env, f.run);
    HoldsElsewhere(env, f.run, s, m);
    assert AskedAt(env, f, cs[i], reqs[i], i);
    if s.aborted {
      StillAsked(env, f, f', cs, reqs);
    } else {
      AdmitAsks(env, s, cs[i], false, m);
      assert f'.run.journal == f.run.journal + [f'.run.journal[|f.run.journal|]];
      AllStayAsked(env, f, f', cs, reqs, f'.run.journal[|f.run.journal|]);
    }
  }

  lemma {:induction false} LandAsks(env: Env, f: Flight, cs: seq<Channel>, reqs: seq<Request>, st: Run,
      m: map<Id, ChannelResult>, i: nat) returns (m': map<Id, ChannelResult>)
    requires Aloft(env, f, cs, reqs, st, m) && Launchable(env, cs, st) && L.Enabled(env.caps, f.tasks, i)
    requires L.Step(env.caps, f.tasks, i).phase[i] == L.Done
    ensures Aloft(env, MoveTask(env, f, cs, reqs, i), cs, reqs, st, m')
  {
    var f' := MoveTask(env, f, cs, reqs, i);
    var c := cs[i];
    assert c in cs && AskedAt(env, f, cs[i], reqs[i], i) && MergesAt(m, cs[i], f.results[i]);
    if i in f.live {
      var r := Answer(env, c, reqs[i], f.run.tick);
      m' := m[c.id := r];
      AnswerJoins(env, f.run, c, reqs[i], m);
      LandMerges(m, st.completed, cs, f.results, i, r);
      AllStayAsked(env, f, f', cs, reqs, f'.run.journal[|f.run.journal|]);
    } else {
      m' := m;
      StillAsked(env, f, f', cs, reqs);
    }
  }

  /** A task that waits for its provider's slot changes nothing else. */
  lemma {:induction false} WaitAsks(env: Env, f: Flight, cs: seq<Channel>, reqs: seq<Request>, st: Run,
      m: map<Id, ChannelResult>, i: nat)
    requires Aloft(env, f, cs, reqs, st, m) && L.Enabled(env.caps, f.tasks, i)
    requires var p := L.Step(env.caps, f.tasks, i).phase[i]; p != L.Running && p != L.Done
    ensures Aloft(env, MoveTask(env, f, cs, reqs, i), cs, reqs, st, m)
  {
    StillAsked(env, f, MoveTask(env, f, cs, reqs, i), cs, reqs);
  }

  lemma {:induction false} DrainAsks(env: Env, f: Flight, cs: seq<Channel>, reqs: seq<Request>, st: Run,
      m: map<Id, ChannelResult>) returns (m': map<Id, ChannelResult>)
    requires Aloft(env, f, cs, reqs, st, m) && Launchable(env, cs, st)
    ensures Aloft(env, Drain(env, f, cs, reqs), cs, reqs, st, m')
    decreases L.Remaining(f.tasks.phase)
  {
    m' := m;
    if !L.AllDone(f.tasks.phase) {
      var i := NextTask(env, f);
      var f' := MoveTask(env, f, cs, reqs, i);
      match f'.tasks.phase[i] {
        case Running => LaunchAsks(env, f, cs, reqs, st, m, i);
        case Done => m' := LandAsks(env, f, cs, reqs, st, m, i);
        case _ => WaitAsks(env, f, cs, reqs, st, m, i);
      }
      m' := DrainAsks(env, f', cs, reqs, st, m');
    }
  }

  lemma {:induction false} ConcurrentAsks(env: Env, st: Run, cs: seq<Channel>, start: nat)
    requires Boundary(env, st, start) && Launchable(env, cs, st)
    ensures var st' := ConcurrentLevel(env, st, cs);
      && Boundary(env, st', start) && st'.depth == st.depth
      && st'.completed.Keys <= st.completed.Keys + Ids(cs)
  {
    var f, reqs := TakeOff(env, st, cs), Requests(st, cs);
    forall i: nat | i < |cs| ensures AskedAt(env, f, cs[i], reqs[i], i) && MergesAt(st.completed, cs[i], f.results[i]) {
      assert cs[i] in cs;
      RequestIsRight(env, st, cs[i]);
    }
    var m := DrainAsks(env, f, cs, reqs, st, st.completed);
    var g := Drain(env, f, cs, reqs);
    RecordAllAsks(env, g.run, cs, g.results, m, start);
  }

  // ----- one round --------------------------------------------------------

  lemma {:induction false} LevelsAsk(env: Env, st: Run, levels: seq<seq<Channel>>, earlier: set<Id>, start: nat)
    requires Boundary(env, st, start) && Ahead(env, levels, earlier)
    requires forall d :: d in st.completed ==> d in CarriedAt(env, st.depth) || d in earlier
    ensures var st' := RunLevels(env, st, levels); Boundary(env, st', start) && st'.depth == st.depth
    decreases |levels|
  {
    if levels != [] && !st.halted {
      var carried := CarriedAt(env, st.depth);
      var toRun := NotCarried(levels[0], carried);
      AheadSplits(env, levels, earlier);
      DistinctNotCarried(levels[0], carried);
      forall c | c in toRun ensures c in levels[0] && c.id !in carried {
        NotCarriedMember(levels[0], carried, c);
      }
      forall d | d in Ids(toRun) ensures d in Ids(levels[0]) && d !in st.completed {
        var c :| c in toRun && c.id == d;
        assert c.id in Ids(levels[0]);
      }
      forall c, d, e | c in toRun && e in toRun && d in c.dependsOn ensures e.id != d {
        assert d in earlier && e.id in Ids(levels[0]);
      }
      if env.policies != [] {
        SequentialAsks(env, st, toRun, start);
      } else {
        ConcurrentAsks(env, st, toRun, start);
      }
      LevelsAsk(env, RunLevel(env, st, toRun), levels[1..], earlier + Ids(levels[0]), start);
    }
  }

  lemma {:induction false} CarryAsks(env: Env, st: Run, cs: seq<Channel>, start: nat)
    requires Boundary(env, st, start) && Distinct(cs) && st.completed.Keys !! Ids(cs)
    requires st.depth == 1 ==> st.store == map[]
    requires forall d :: d in st.completed ==> d in CarriedAt(env, st.depth)
    ensures var st' := CarryForward(st, CarriedAt(env, st.depth), cs);
      && Boundary(env, st', start) && st'.depth == st.depth
      && forall d :: d in st'.completed ==> d in CarriedAt(env, st.depth)
    decreases |cs|
  {
    var carried := CarriedAt(env, st.depth);
    if cs != [] {
      var c, rest := cs[0], cs[1..];
      IdsSplit(cs);
      if c.id !in carried {
        CarryAsks(env, st, rest, start);
      } else {
        LastByIdKey(env.carried, c.id);
        CarriedJoins(env, st, carried[c.id], start);
        var s := Record(st, Some(carried[c.id]));
        CarryAsks(env, s.(journal := s.journal + [Carried(st.depth, c.id, carried[c.id])]), rest, start);
      }
    }
  }

  lemma {:induction false} CarriedJoins(env: Env, st: Run, r: ChannelResult, start: nat)
    requires Boundary(env, st, start) && r in env.carried && r.channelId !in st.completed && st.store == map[]
    ensures var s := Record(st, Some(r));
      Boundary(env, s.(journal := s.journal + [Carried(st.depth, r.channelId, r)]), start)
  {
    RecordJoins(st, Some(r), start);
    var e, s := Carried(st.depth, r.channelId, r), Record(st, Some(r));
    var s' := s.(journal := s.journal + [e]);
    AskedLater(env, st.journal, st.channels, s.channels);
    AskedSnoc(env, s.journal, s.channels, e);
    assert s'.journal[..|s'.journal| - 1] == st.journal;
    CarriedHolds(env, st, r, s');
  }

  lemma {:induction false} CarriedHolds(env: Env, st: Run, r: ChannelResult, st': Run)
    requires Holds(env, st, st.completed) && r in env.carried && r.channelId !in st.completed && st.store == map[]
    requires st'.journal == st.journal + [Carried(st.depth, r.channelId, r)]
    requires st'.completed == st.completed[r.channelId := r] && st'.depth == st.depth && st'.store == st.store
    ensures Holds(env, st', st'.completed)
  {
    var m := st'.completed;
    forall j, d | 0 <= j < |st'.journal| && Gives(st'.journal[j], st.depth, d) ensures HeldFrom(env, st', m, j, d) {
      if j < |st.journal| {
        assert HeldFrom(env, st, st.completed, j, d);
      }
    }
    forall d | d in m ensures HeldOwn(env, st', m, d) {
      GivenSnoc(st.journal, st'.journal[|st.journal|], st.depth, d);
      if d != r.channelId {
        assert HeldOwn(env, st, st.completed, d);
      }
    }
  }

  // ----- synthesis and rounds ---------------------------------------------

  lemma {:induction false} RoundGiven(env: Env, st: Run, rs: seq<ChannelResult>)
    requires Holds(env, st, st.completed) && RoundIs(st.completed, st.round, rs)
    ensures ResultsOfRound(st.journal, st.depth, rs)
  {
    forall d ensures Given(st.journal, st.depth, d) <==> Has(rs, d) {
      if Given(st.journal, st.depth, d) {
        var j :| 0 <= j < |st.journal| && Gives(st.journal[j], st.depth, d);
        assert HeldFrom(env, st, st.completed, j, d);
      }
      if Has(rs, d) {
        assert HeldOwn(env, st, st.completed, d);
      }
    }
    forall r, j | r in rs && 0 <= j < |st.journal| && Gives(st.journal[j], st.depth, r.channelId)
      ensures st.journal[j].result == r
    {
      assert HeldFrom(env, st, st.completed, j, r.channelId);
    }
  }

  /** The segment of the results that a round recorded is the one its synthesis is shown. */
  lemma {:induction false} ShownTheRound(env: Env, st: Run, start: nat, req: Request)
    requires Boundary(env, st, start) && req.channelResults == Summaries(st.round)
    ensures ShownBetween(st.journal, st.channels, st.depth, req, start, |st.channels|)
  {
    var rs := st.channels[start..];
    RoundGiven(env, st, rs);
    assert st.channels[start..|st.channels|] == rs;
    assert forall i :: 0 <= i < |rs| ==> rs[i] == st.channels[start + i];
  }

  lemma {:induction false} ShownStays(journal: seq<Event>, e: Event, channels: seq<ChannelResult>, depth: nat,
      req: Request, a: nat, b: nat)
    requires ShownBetween(journal, channels, depth, req, a, b) && e.Gated?
    ensures ShownBetween(journal + [e], channels, depth, req, a, b)
  {
    forall d ensures Given(journal + [e], depth, d) <==> Given(journal, depth, d) {
      GivenSnoc(journal, e, depth, d);
    }
  }

  lemma {:induction false} SynthesisAsks(env: Env, st: Run, start: nat)
    requires Boundary(env, st, start)
    ensures Settled(env, Synthesize(env, st))
  {
    if env.plan.synthesis.Some? && !st.halted {
      var c := env.plan.synthesis.value;
      var req := Request(c, true, map[], Summaries(st.round), PreviousSynthesis(st), st.depth);
      ShownTheRound(env, st, start, req);
      var s := Sense(env, st);
      HoldsElsewhere(env, st, s, s.completed);
      if !s.aborted {
        AdmitAsks(env, s, c, true, s.completed);
        var (admitted, go) := Admit(env, s, c, true);
        var gate := admitted.journal[|s.journal|];
        assert admitted.journal == s.journal + [gate] && admitted.journal[..|admitted.journal| - 1] == s.journal;
        if go {
          ShownStays(s.journal, gate, s.channels, s.depth, req, start, |s.channels|);
          AnswerSettles(env, admitted, c, true, req);
        }
      }
    }
  }

  lemma {:induction false} StartAsks(env: Env, st: Run)
    requires Settled(env, st)
    ensures Boundary(env, StartRound(st), |st.channels|)
  {
    var started := StartRound(st);
    assert started.channels[|st.channels|..] == [];
    assert forall j :: 0 <= j < |started.journal| ==> started.journal[j].depth <= st.depth;
  }

  lemma {:induction false} RoundAsks(env: Env, st: Run)
    requires EP.Sound(env.plan) && Settled(env, st) && (st.depth == 0 ==> st.store == map[])
    ensures Settled(env, RunRound(env, st))
  {
    var started, start := StartRound(st), |st.channels|;
    StartAsks(env, st);
    EP.DistinctRearranged(env.plan.channels, Flatten(env.plan.levels));
    CarryAsks(env, started, env.plan.channels, start);
    var ready := CarryForward(started, CarriedAt(env, started.depth), env.plan.channels);
    PlanIsAhead(env);
    LevelsAsk(env, ready, env.plan.levels, {}, start);
    SynthesisAsks(env, RunLevels(env, ready, env.plan.levels), start);
  }

  lemma {:induction false} RoundsAsk(env: Env, st: Run)
    requires EP.Sound(env.plan) && Settled(env, st) && (st.depth == 0 ==> st.store == map[])
    ensures AllAsked(env, RunRounds(env, st).journal, RunRounds(env, st).channels)
    decreases env.plan.maxDepth - st.depth
  {
    RoundAsks(env, st);
    var next := RunRound(env, st);
    RoundDeepens(env, st);
    if GoesOn(env, next) {
      RoundsAsk(env, next);
    }
  }
}

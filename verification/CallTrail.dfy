/** Every call of a channel's life, and what is recorded of it. */
module CallTrail {
  import opened Prelude
  import opened RunModel
  import opened ChannelExecutor
  import C = ChannelExecutor
  import Json

  /** A call: the prompt, its number, and the answer with its parse, or what was thrown. */
  datatype Exchange = Exchange(prompt: string, n: nat, answer: Result<Checked, Fault>)

  /** A turn of the retry loop: its calls, and what was thrown in it, if anything was. */
  datatype Turn = Turn(calls: seq<Exchange>, fault: Option<Fault>)

  /** The provider, or else the validator, did answer so. */
  ghost predicate Happened(sv: Services, x: Exchange) {
    match x.answer
    case Success(c) => sv.call(x.prompt, x.n) == Success(c.response) && sv.parse(c.response.raw) == Success(c.parse)
    case Failure(f) =>
      || sv.call(x.prompt, x.n) == Failure(f)
      || exists response :: sv.call(x.prompt, x.n) == Success(response) && sv.parse(response.raw) == Failure(f)
  }

  /** An answer that is to be repaired: wrong in a way the configuration names, and no refusal. */
  predicate Wanting(cfg: Config, c: Checked) {
    && !c.response.refused
    && ((c.parse.outcome == NotJson && OnInvalidJson in cfg.repairOn)
        || (c.parse.outcome == NotSchema && OnSchemaError in cfg.repairOn))
  }

  /** Call `b` asks to repair what call `a` got. */
  predicate Mends(sv: Services, cfg: Config, prompt: string, a: Exchange, b: Exchange) {
    && a.answer.Success? && Wanting(cfg, a.answer.value)
    && b.prompt == sv.repairPrompt(prompt, a.answer.value.response.raw)
  }

  /** The calls of a turn from number `n` on: the channel's prompt, then repairs of the answer before. */
  ghost predicate Chained(sv: Services, cfg: Config, prompt: string, xs: seq<Exchange>, n: nat) {
    && 1 <= |xs| <= cfg.maxRepairs + 1
    && xs[0].prompt == prompt
    && (forall i {:trigger xs[i]} :: 0 <= i < |xs| ==> xs[i].n == n + i && Happened(sv, xs[i]))
    && forall i :: 0 < i < |xs| ==> Mends(sv, cfg, prompt, xs[i - 1], xs[i])
  }

  /** No further repair is asked for only when none is wanted or none is left. */
  predicate Ended(cfg: Config, xs: seq<Exchange>)
    requires xs != []
  {
    var last := xs[|xs| - 1].answer;
    last.Success? && Wanting(cfg, last.value) ==> |xs| == cfg.maxRepairs + 1
  }

  predicate Answered(t: Turn) {
    t.calls != [] && t.calls[|t.calls| - 1].answer.Success?
  }

  ghost predicate TurnOk(sv: Services, cfg: Config, prompt: string, t: Turn, n: nat, saves: nat) {
    && Chained(sv, cfg, prompt, t.calls, n) && Ended(cfg, t.calls)
    && t.fault == match t.calls[|t.calls| - 1].answer case Failure(f) => Some(f) case Success(_) => sv.save(saves)
  }

  predicate MayRetry(cfg: Config, f: Fault) {
    (f.isTimeout && TimeoutError in cfg.retryOn) || (!f.isTimeout && ProviderError in cfg.retryOn)
  }

  function CallsOf(ts: seq<Turn>): nat {
    if ts == [] then 0 else CallsOf(ts[..|ts| - 1]) + |ts[|ts| - 1].calls|
  }

  function SavesOf(ts: seq<Turn>): nat {
    if ts == [] then 0 else SavesOf(ts[..|ts| - 1]) + (if Answered(ts[|ts| - 1]) then 1 else 0)
  }

  /** Turn `k` is in order, and another one follows it only when what was thrown in it may be retried. */
  ghost predicate TurnAt(sv: Services, cfg: Config, prompt: string, ts: seq<Turn>, k: nat)
    requires k < |ts|
  {
    && TurnOk(sv, cfg, prompt, ts[k], CallsOf(ts[..k]), SavesOf(ts[..k]))
    && (k + 1 < |ts| ==> Retries(cfg, ts[k], k))
  }

  predicate Retries(cfg: Config, t: Turn, k: nat) {
    t.fault.Some? && MayRetry(cfg, t.fault.value) && k < cfg.retryAttempts
  }

  ghost predicate Trail(sv: Services, cfg: Config, prompt: string, ts: seq<Turn>) {
    && ts != []
    && (forall k: nat :: k < |ts| ==> TurnAt(sv, cfg, prompt, ts, k))
    && !Retries(cfg, ts[|ts| - 1], |ts| - 1)
  }

  /**
   * What a run is given, told from the last turn.  When its answer was saved: that
   * answer's usage, its model or else the declared one, its raw text, and what the
   * validator made of that text.  When something was thrown: nothing is known but
   * the message of what was thrown last.
   */
  ghost predicate Tells(sv: Services, ts: seq<Turn>, declaredModel: Option<string>, o: Outcome) {
    && ts != []
    && (ts[|ts| - 1].fault.None? ==> Answered(ts[|ts| - 1]) && SavedFrom(sv, ts[|ts| - 1].calls, declaredModel, o))
    && (ts[|ts| - 1].fault.Some? ==> LostTo(ts[|ts| - 1].fault.value, declaredModel, o))
  }

  ghost predicate LostTo(f: Fault, declaredModel: Option<string>, o: Outcome) {
    && o.status == (if f.isTimeout then Timeout else Error) && !o.schemaValid && o.parsedOutput == Json.Null
    && o.validationErrors == [Json.Str(f.message)]
    && o.model == declaredModel && o.usage == Usage(None, None, None) && o.raw == None
  }

  ghost predicate SavedFrom(sv: Services, xs: seq<Exchange>, declaredModel: Option<string>, o: Outcome)
    requires xs != [] && xs[|xs| - 1].answer.Success?
  {
    var x, c := xs[|xs| - 1], xs[|xs| - 1].answer.value;
    && sv.call(x.prompt, x.n) == Success(c.response)
    && sv.parse(c.response.raw) == Success(c.parse)
    && o.usage == c.response.usage
    && o.model == (match c.response.model case Some(m) => Some(m) case None => declaredModel)
    && o.raw == Some(c.response.raw)
    && o.parsedOutput == c.parse.parsed && o.validationErrors == c.parse.errors
    && (o.status == Refused <==> c.response.refused)
    && (o.status == StatusOk <==> !c.response.refused && c.parse.outcome == Valid)
    && (o.status == InvalidJson <==> !c.response.refused && c.parse.outcome == NotJson)
    && (o.status == SchemaError <==> !c.response.refused && c.parse.outcome == NotSchema)
    && (o.schemaValid <==> !c.response.refused && c.parse.outcome == Valid)
  }

  /** A repair counts as attempted when its turn got an answer in the end, saved or not. */
  ghost predicate RepairedIn(ts: seq<Turn>) {
    exists t :: t in ts && Answered(t) && |t.calls| > 1
  }

  /** For every channel: its calls are such a trail, and the record tells of it. */
  lemma {:induction false} RecordTellsTheTrail(sv: Services, cfg: Config, prompt: string, declaredModel: Option<string>,
      provider: string)
    returns (ts: seq<Turn>)
    ensures var life := Lifecycle(sv, cfg, prompt, Born, 0); var r := C.Record(life, declaredModel);
      && Trail(sv, cfg, prompt, ts) && Tells(sv, ts, declaredModel, ToOutcome(r, provider))
      && ToOutcome(r, provider).provider == provider
      && life.calls == CallsOf(ts) && life.saves == SavesOf(ts) && life.retries == |ts| - 1
      && (r.repairAttempted <==> RepairedIn(ts))
  {
    ts := Turns(sv, cfg, prompt, declaredModel, provider, Born, 0, []);
  }

  // ----- one turn ---------------------------------------------------------

  lemma {:induction false} ChainedSnoc(sv: Services, cfg: Config, prompt: string, xs: seq<Exchange>, n: nat,
      x: Exchange)
    requires Chained(sv, cfg, prompt, xs, n) && |xs| <= cfg.maxRepairs
    requires x.n == n + |xs| && Happened(sv, x) && Mends(sv, cfg, prompt, xs[|xs| - 1], x)
    ensures Chained(sv, cfg, prompt, xs + [x], n)
  {
  }

  lemma {:induction false} RepairCalls(sv: Services, cfg: Config, prompt: string, n: nat, before: seq<Exchange>,
      c: Checked)
    returns (xs: seq<Exchange>)
    requires Chained(sv, cfg, prompt, before, n) && before[|before| - 1].answer == Success(c)
    ensures var pass := Repairs(sv, cfg, prompt, c, |before| - 1, n + |before|);
      && Chained(sv, cfg, prompt, xs, n) && Ended(cfg, xs) && xs[|xs| - 1].answer == pass.end
      && |xs| == |before| + pass.calls && (pass.repaired <==> pass.calls > 0)
    decreases cfg.maxRepairs + 1 - |before|
  {
    xs := before;
    if Repairable(cfg, c) && |before| <= cfg.maxRepairs {
      var p := sv.repairPrompt(prompt, c.response.raw);
      var answer := CallAndValidate(sv, p, n + |before|);
      var x := Exchange(p, n + |before|, answer);
      ChainedSnoc(sv, cfg, prompt, before, n, x);
      xs := before + [x];
      if answer.Success? {
        xs := RepairCalls(sv, cfg, prompt, n, xs, answer.value);
      }
    }
  }

  lemma {:induction false} PassCalls(sv: Services, cfg: Config, prompt: string, n: nat) returns (xs: seq<Exchange>)
    ensures var pass := CallWithRepairs(sv, cfg, prompt, n);
      && Chained(sv, cfg, prompt, xs, n) && Ended(cfg, xs) && xs[|xs| - 1].answer == pass.end
      && |xs| == pass.calls && (pass.end.Success? ==> (pass.repaired <==> |xs| > 1))
  {
    var answer := CallAndValidate(sv, prompt, n);
    xs := [Exchange(prompt, n, answer)];
    if answer.Success? {
      xs := RepairCalls(sv, cfg, prompt, n, xs, answer.value);
    }
  }

  /** The life so far tells of the turns so far. */
  ghost predicate SoFar(l: Life, ts: seq<Turn>) {
    && l.calls == CallsOf(ts) && l.saves == SavesOf(ts)
    && (l.repairAttempted <==> RepairedIn(ts))
  }

  lemma {:induction false} RepairedSnoc(ts: seq<Turn>, t: Turn)
    ensures RepairedIn(ts + [t]) <==> RepairedIn(ts) || (Answered(t) && |t.calls| > 1)
  {
    if RepairedIn(ts) {
      var u :| u in ts && Answered(u) && |u.calls| > 1;
      assert u in ts + [t];
    }
    assert t in ts + [t];
  }

  lemma {:induction false} OneTurn(sv: Services, cfg: Config, prompt: string, l: Life, k: nat, before: seq<Turn>)
    returns (t: Turn)
    requires SoFar(l, before) && l.end.None? && l.stored.None?
    ensures var next := Try(sv, cfg, prompt, l, k);
      && TurnOk(sv, cfg, prompt, t, CallsOf(before), SavesOf(before)) && SoFar(next, before + [t])
      && (t.fault.Some? ==> next.end.None? && next.stored.None? && next.fault == t.fault)
      && (t.fault.None? ==>
            var end := t.calls[|t.calls| - 1].answer;
            end.Success? && next.end == Some(end.value) && next.stored == Some(end.value.response.raw))
      && next.retries == l.retries + if k == 0 then 0 else 1
  {
    var xs := PassCalls(sv, cfg, prompt, l.calls);
    var end := xs[|xs| - 1].answer;
    t := Turn(xs, if end.Failure? then Some(end.error) else sv.save(l.saves));
    assert (before + [t])[..|before|] == before;
    RepairedSnoc(before, t);
  }

  // ----- all turns --------------------------------------------------------

  lemma {:induction false} TurnStays(sv: Services, cfg: Config, prompt: string, ts: seq<Turn>, t: Turn, k: nat)
    requires k < |ts| && TurnAt(sv, cfg, prompt, ts, k) && (k + 1 == |ts| ==> Retries(cfg, ts[k], k))
    ensures TurnAt(sv, cfg, prompt, ts + [t], k)
  {
    assert (ts + [t])[..k] == ts[..k];
  }

  /** Every turn so far is in order and was to be retried. */
  ghost predicate Retried(sv: Services, cfg: Config, prompt: string, ts: seq<Turn>) {
    forall k: nat :: k < |ts| ==> TurnAt(sv, cfg, prompt, ts, k) && Retries(cfg, ts[k], k)
  }

  lemma {:induction false} TurnJoins(sv: Services, cfg: Config, prompt: string, ts: seq<Turn>, t: Turn)
    requires Retried(sv, cfg, prompt, ts) && TurnOk(sv, cfg, prompt, t, CallsOf(ts), SavesOf(ts))
    ensures if Retries(cfg, t, |ts|) then Retried(sv, cfg, prompt, ts + [t]) else Trail(sv, cfg, prompt, ts + [t])
  {
    forall k: nat | k < |ts + [t]| ensures TurnAt(sv, cfg, prompt, ts + [t], k) {
      if k < |ts| {
        TurnStays(sv, cfg, prompt, ts, t, k);
      } else {
        assert (ts + [t])[..k] == ts;
      }
    }
  }

  lemma {:induction false} Turns(sv: Services, cfg: Config, prompt: string, declaredModel: Option<string>,
      provider: string, l: Life, k: nat, before: seq<Turn>)
    returns (ts: seq<Turn>)
    requires SoFar(l, before) && |before| == k && l.retries == (if k == 0 then 0 else k - 1)
    requires l.end.None? && l.stored.None? && k <= cfg.retryAttempts && Retried(sv, cfg, prompt, before)
    ensures var life := Lifecycle(sv, cfg, prompt, l, k);
      && Trail(sv, cfg, prompt, ts) && SoFar(life, ts) && life.retries == |ts| - 1
      && Tells(sv, ts, declaredModel, ToOutcome(C.Record(life, declaredModel), provider))
    decreases cfg.retryAttempts - k
  {
    var t := OneTurn(sv, cfg, prompt, l, k, before);
    var next := Try(sv, cfg, prompt, l, k);
    ts := before + [t];
    TurnJoins(sv, cfg, prompt, before, t);
    if TriesAgain(cfg, next, k) {
      ts := Turns(sv, cfg, prompt, declaredModel, provider, next, k + 1, ts);
    } else {
      LastTells(sv, cfg, prompt, declaredModel, provider, next, before, t);
    }
  }

  lemma {:induction false} LastTells(sv: Services, cfg: Config, prompt: string, declaredModel: Option<string>,
      provider: string, l: Life, before: seq<Turn>, t: Turn)
    requires TurnOk(sv, cfg, prompt, t, CallsOf(before), SavesOf(before))
    requires t.fault.Some? ==> l.end.None? && l.stored.None? && l.fault == t.fault
    requires t.fault.None? ==>
      var end := t.calls[|t.calls| - 1].answer;
      end.Success? && l.end == Some(end.value) && l.stored == Some(end.value.response.raw)
    ensures Tells(sv, before + [t], declaredModel, ToOutcome(C.Record(l, declaredModel), provider))
  {
    var x := t.calls[|t.calls| - 1];
    assert Happened(sv, x);
  }
}

/**
 * The lifecycle of one channel: a retry loop with exponential backoff around a
 * repair loop, an attempt log across both, and the raw output saved at the end.
 */
module ChannelExecutor {
  import opened Prelude
  import opened RunModel

  datatype Response = Response(raw: string, model: Option<string>, usage: Usage, refused: bool)
  datatype ParseOutcome = Valid | NotJson | NotSchema
  datatype Parse = Parse(outcome: ParseOutcome, parsed: JsonValue, errors: seq<JsonValue>)

  /** Anything thrown; whether it counts as a timeout is all that matters about it. */
  datatype Fault = Fault(isTimeout: bool, message: string)

  datatype RetryCondition = ProviderError | TimeoutError
  datatype RepairCondition = OnSchemaError | OnInvalidJson

  datatype Config = Config(
    retryAttempts: nat,
    backoffMs: real,
    retryOn: set<RetryCondition>,
    maxRepairs: nat,
    repairOn: set<RepairCondition>)

  /** The provider by prompt and call number, the validator, the store by save number, the repair prompt. */
  datatype Services = Services(
    call: (string, nat) -> Result<Response, Fault>,
    parse: string -> Result<Parse, Fault>,
    save: nat -> Option<Fault>,
    repairPrompt: (string, string) -> string)

  datatype Kind = InitialTry | RetryTry | RepairTry
  datatype Attempt = Attempt(attempt: nat, kind: Kind, status: Status, backoffMs: real)

  datatype Checked = Checked(response: Response, parse: Parse)

  function CallAndValidate(sv: Services, prompt: string, n: nat): Result<Checked, Fault> {
    match sv.call(prompt, n)
    case Failure(f) => Failure(f)
    case Success(response) =>
      match sv.parse(response.raw)
      case Failure(f) => Failure(f)
      case Success(parse) => Success(Checked(response, parse))
  }

  function OutcomeToStatus(c: Checked): Status {
    if c.response.refused then Refused
    else match c.parse.outcome
      case Valid => StatusOk
      case NotJson => InvalidJson
      case NotSchema => SchemaError
  }

  function FaultStatus(f: Fault): Status {
    if f.isTimeout then Timeout else Error
  }

  // ----- the repair loop --------------------------------------------------

  /** What a pass of repairs did: how it ended, the statuses it logged, the calls it made. */
  datatype Pass = Pass(end: Result<Checked, Fault>, statuses: seq<Status>, calls: nat, repaired: bool)

  predicate Repairable(cfg: Config, c: Checked) {
    && c.parse.outcome != Valid && !c.response.refused
    && (if c.parse.outcome == NotJson then OnInvalidJson else OnSchemaError) in cfg.repairOn
  }

  function Repairs(sv: Services, cfg: Config, prompt: string, c: Checked, repairs: nat, n: nat): Pass
    decreases cfg.maxRepairs - repairs
  {
    if !Repairable(cfg, c) || repairs >= cfg.maxRepairs then Pass(Success(c), [], 0, false)
    else
      match CallAndValidate(sv, sv.repairPrompt(prompt, c.response.raw), n)
      case Failure(f) => Pass(Failure(f), [], 1, true)
      case Success(next) =>
        var rest := Repairs(sv, cfg, prompt, next, repairs + 1, n + 1);
        Pass(rest.end, [OutcomeToStatus(next)] + rest.statuses, 1 + rest.calls, true)
  }

  /** The initial call and its repairs. */
  function CallWithRepairs(sv: Services, cfg: Config, prompt: string, n: nat): Pass {
    match CallAndValidate(sv, prompt, n)
    case Failure(f) => Pass(Failure(f), [], 1, false)
    case Success(c) =>
      var rest := Repairs(sv, cfg, prompt, c, 0, n + 1);
      Pass(rest.end, [OutcomeToStatus(c)] + rest.statuses, 1 + rest.calls, rest.repaired)
  }

  // ----- the retry loop ---------------------------------------------------

  datatype Life = Life(
    log: seq<Attempt>,
    calls: nat,
    saves: nat,
    failedSaves: nat,
    retries: nat,
    slept: real,
    repairAttempted: bool,
    stored: Option<string>,
    end: Option<Checked>,
    fault: Option<Fault>)

  const Born: Life := Life([], 0, 0, 0, 0, 0.0, false, None, None, None)

  function Pow2(k: nat): real {
    if k == 0 then 1.0 else 2.0 * Pow2(k - 1)
  }

  /** The sleep before retry `k`, none before the first try. */
  function Backoff(cfg: Config, k: nat): real {
    if k == 0 then 0.0 else cfg.backoffMs * Pow2(k - 1)
  }

  /** Log entries for the statuses of a pass; its first entry is the initial call or a retry. */
  function Entries(log: seq<Attempt>, statuses: seq<Status>, first: bool, cfg: Config, k: nat): seq<Attempt>
    decreases |statuses|
  {
    if statuses == [] then log
    else
      Entries(log + [EntryOf(|log| + 1, statuses[0], first, cfg, k)], statuses[1..], false, cfg, k)
  }

  function EntryOf(attempt: nat, status: Status, first: bool, cfg: Config, k: nat): Attempt {
    if first then Attempt(attempt, if k == 0 then InitialTry else RetryTry, status, Backoff(cfg, k))
    else Attempt(attempt, RepairTry, status, 0.0)
  }

  function LogFault(log: seq<Attempt>, f: Fault, cfg: Config, k: nat): seq<Attempt> {
    log + [Attempt(|log| + 1, if k == 0 then InitialTry else RetryTry, FaultStatus(f), Backoff(cfg, k))]
  }

  /** Sleep before a retry. */
  function Woken(cfg: Config, l: Life, k: nat): Life {
    if k == 0 then l else l.(slept := l.slept + Backoff(cfg, k), retries := l.retries + 1)
  }

  /** Log what a pass did, then save its raw output; whatever was thrown is logged and kept as the fault. */
  function Settled(sv: Services, cfg: Config, l: Life, pass: Pass, k: nat): Life {
    var called := l.(log := Entries(l.log, pass.statuses, true, cfg, k), calls := l.calls + pass.calls);
    match pass.end
    case Failure(f) => called.(log := LogFault(called.log, f, cfg, k), fault := Some(f))
    case Success(c) =>
      var noted := called.(repairAttempted := called.repairAttempted || pass.repaired, saves := called.saves + 1);
      match sv.save(called.saves)
      case Some(f) =>
        noted.(log := LogFault(noted.log, f, cfg, k), fault := Some(f), failedSaves := noted.failedSaves + 1)
      case None => noted.(stored := Some(c.response.raw), end := Some(c))
  }

  /** One turn of the retry loop: sleep, call with repairs, save. */
  function Try(sv: Services, cfg: Config, prompt: string, l: Life, k: nat): Life {
    var woken := Woken(cfg, l, k);
    Settled(sv, cfg, woken, CallWithRepairs(sv, cfg, prompt, woken.calls), k)
  }

  predicate Retryable(cfg: Config, f: Fault) {
    (if f.isTimeout then TimeoutError else ProviderError) in cfg.retryOn
  }

  predicate TriesAgain(cfg: Config, l: Life, k: nat) {
    l.end.None? && l.fault.Some? && Retryable(cfg, l.fault.value) && k < cfg.retryAttempts
  }

  function Lifecycle(sv: Services, cfg: Config, prompt: string, l: Life, k: nat): Life
    decreases cfg.retryAttempts - k
  {
    var next := Try(sv, cfg, prompt, l, k);
    if TriesAgain(cfg, next, k) then Lifecycle(sv, cfg, prompt, next, k + 1) else next
  }

  /** What is recorded about a channel. */
  datatype Recorded = Recorded(
    status: Status,
    schemaValid: bool,
    parsedOutput: JsonValue,
    validationErrors: seq<JsonValue>,
    model: Option<string>,
    usage: Usage,
    stored: Option<string>,
    repairAttempted: bool,
    attempts: seq<Attempt>)

  /** The status and the schema flag of a saved answer, assigned side by side. */
  function Verdict(c: Checked): (Status, bool) {
    if c.response.refused then (Refused, false)
    else if c.parse.outcome == Valid then (StatusOk, true)
    else if c.parse.outcome == NotJson then (InvalidJson, false)
    else (SchemaError, false)
  }

  function Record(l: Life, declaredModel: Option<string>): Recorded {
    match l.end
    case Some(c) =>
      var (status, schemaValid) := Verdict(c);
      Recorded(status, schemaValid, c.parse.parsed, c.parse.errors,
               if c.response.model.Some? then c.response.model else declaredModel,
               c.response.usage, l.stored, l.repairAttempted, l.log)
    case None =>
      Recorded(if l.fault.Some? then FaultStatus(l.fault.value) else Error, false, Json.Null,
               if l.fault.Some? then [Json.Str(l.fault.value.message)] else [],
               declaredModel, Usage(None, None, None), None, l.repairAttempted, l.log)
  }

  // ----- the loops themselves ---------------------------------------------

  method RunWithRepair(sv: Services, cfg: Config, prompt: string, n: nat)
    returns (end: Result<Checked, Fault>, statuses: seq<Status>, calls: nat, repairAttempted: bool)
    ensures var pass := CallWithRepairs(sv, cfg, prompt, n);
      end == pass.end && statuses == pass.statuses && calls == pass.calls && repairAttempted == pass.repaired
  {
    end, statuses, calls, repairAttempted := CallAndValidate(sv, prompt, n), [], 1, false;
    if end.Failure? {
      return;
    }
    statuses := [OutcomeToStatus(end.value)];
    var repairs := 0;
    ghost var whole := Repairs(sv, cfg, prompt, end.value, 0, n + 1);
    while Repairable(cfg, end.value) && repairs < cfg.maxRepairs
      invariant end.Success? && repairs <= cfg.maxRepairs && calls == 1 + repairs
      invariant repairAttempted <==> repairs > 0
      invariant var rest := Repairs(sv, cfg, prompt, end.value, repairs, n + calls);
        && whole.end == rest.end
        && [OutcomeToStatus(CallAndValidate(sv, prompt, n).value)] + whole.statuses == statuses + rest.statuses
        && 1 + whole.calls == calls + rest.calls
        && whole.repaired == (repairAttempted || rest.repaired)
      decreases cfg.maxRepairs - repairs
    {
      ghost var rest := Repairs(sv, cfg, prompt, end.value, repairs, n + calls);
      repairs := repairs + 1;
      repairAttempted := true;
      end := CallAndValidate(sv, sv.repairPrompt(prompt, end.value.response.raw), n + calls);
      calls := calls + 1;
      if end.Failure? {
        assert rest.statuses == [];
        return;
      }
      var status := OutcomeToStatus(end.value);
      assert rest.statuses == [status] + rest.statuses[1..];
      assert statuses + ([status] + rest.statuses[1..]) == statuses + [status] + rest.statuses[1..];
      statuses := statuses + [status];
    }
  }

  /** The body of the retry loop: everything thrown inside it is caught, logged and kept as the fault. */
  method TryOnce(sv: Services, cfg: Config, prompt: string, l: Life, k: nat) returns (life: Life)
    ensures life == Try(sv, cfg, prompt, l, k)
  {
    life := l;
    if k > 0 {
      life := life.(slept := life.slept + Backoff(cfg, k), retries := life.retries + 1);
    }
    var end, statuses, calls, repaired := RunWithRepair(sv, cfg, prompt, life.calls);
    life := life.(log := Entries(life.log, statuses, true, cfg, k), calls := life.calls + calls);
    match end {
      case Failure(f) =>
        life := life.(log := LogFault(life.log, f, cfg, k), fault := Some(f));
      case Success(c) =>
        var saved := sv.save(life.saves);
        life := life.(saves := life.saves + 1, repairAttempted := life.repairAttempted || repaired);
        match saved {
          case None => life := life.(stored := Some(c.response.raw), end := Some(c));
          case Some(f) =>
            life := life.(log := LogFault(life.log, f, cfg, k), fault := Some(f), failedSaves := life.failedSaves + 1);
        }
    }
  }

  method ExecuteChannel(sv: Services, cfg: Config, prompt: string, declaredModel: Option<string>) returns (r: Recorded)
    ensures r == Record(Lifecycle(sv, cfg, prompt, Born, 0), declaredModel)
  {
    var life := Born;
    var retryIndex := 0;
    var running := true;
    while running
      invariant running ==> retryIndex <= cfg.retryAttempts
      invariant running ==> Lifecycle(sv, cfg, prompt, life, retryIndex) == Lifecycle(sv, cfg, prompt, Born, 0)
      invariant !running ==> life == Lifecycle(sv, cfg, prompt, Born, 0)
      decreases running, cfg.retryAttempts - retryIndex
    {
      life := TryOnce(sv, cfg, prompt, life, retryIndex);
      running := TriesAgain(cfg, life, retryIndex);
      retryIndex := retryIndex + 1;
    }
    return Record(life, declaredModel);
  }

  // ----- what the lifecycle guarantees ------------------------------------

  lemma {:induction false} RepairsBounded(sv: Services, cfg: Config, prompt: string, c: Checked, repairs: nat, n: nat)
    requires repairs <= cfg.maxRepairs
    ensures var p := Repairs(sv, cfg, prompt, c, repairs, n);
      && p.calls <= cfg.maxRepairs - repairs
      && |p.statuses| + (if p.end.Failure? then 1 else 0) == p.calls
      && (p.end.Success? && p.statuses != [] ==> p.statuses[|p.statuses| - 1] == OutcomeToStatus(p.end.value))
      && (p.end.Success? && p.statuses == [] ==> p.end.value == c)
      && (p.end.Success? && sv.parse(c.response.raw) == Success(c.parse) ==>
        sv.parse(p.end.value.response.raw) == Success(p.end.value.parse))
      && (p.end.Success? && Repairable(cfg, p.end.value) ==> p.calls == cfg.maxRepairs - repairs)
    decreases cfg.maxRepairs - repairs
  {
    if Repairable(cfg, c) && repairs < cfg.maxRepairs {
      match CallAndValidate(sv, sv.repairPrompt(prompt, c.response.raw), n) {
        case Failure(_) =>
        case Success(next) => RepairsBounded(sv, cfg, prompt, next, repairs + 1, n + 1);
      }
    }
  }

  /** What any pass guarantees. */
  ghost predicate PassOk(sv: Services, cfg: Config, p: Pass) {
    && 1 <= p.calls <= cfg.maxRepairs + 1
    && |p.statuses| + (if p.end.Failure? then 1 else 0) == p.calls
    && (p.end.Success? ==> p.statuses != [] && p.statuses[|p.statuses| - 1] == OutcomeToStatus(p.end.value))
    && (p.end.Success? ==> sv.parse(p.end.value.response.raw) == Success(p.end.value.parse))
    && (p.end.Success? && Repairable(cfg, p.end.value) ==> p.calls == cfg.maxRepairs + 1)
  }

  lemma {:induction false} PassBounded(sv: Services, cfg: Config, prompt: string, n: nat)
    ensures PassOk(sv, cfg, CallWithRepairs(sv, cfg, prompt, n))
  {
    match CallAndValidate(sv, prompt, n) {
      case Failure(_) =>
      case Success(c) => RepairsBounded(sv, cfg, prompt, c, 0, n + 1);
    }
  }

  ghost predicate Numbered(log: seq<Attempt>) {
    forall i {:trigger log[i]} :: 0 <= i < |log| ==> log[i].attempt == i + 1
  }

  lemma {:induction false} EntriesLogged(log: seq<Attempt>, statuses: seq<Status>, first: bool, cfg: Config, k: nat)
    requires Numbered(log)
    ensures var log' := Entries(log, statuses, first, cfg, k);
      && Numbered(log') && |log'| == |log| + |statuses|
      && (statuses != [] ==> log'[|log'| - 1].status == statuses[|statuses| - 1])
      && log <= log'
    decreases |statuses|
  {
    if statuses != [] {
      EntriesLogged(log + [EntryOf(|log| + 1, statuses[0], first, cfg, k)], statuses[1..], false, cfg, k);
    }
  }

  /** What holds after `k` retries have been made. */
  ghost predicate LifeOk(sv: Services, cfg: Config, l: Life, k: nat) {
    && Numbered(l.log)
    && |l.log| == l.calls + l.failedSaves
    && l.retries == k && l.slept == TotalBackoff(cfg, k)
    && (Reliable(sv) ==> l.failedSaves == 0)
  }

  /** The store never fails. */
  ghost predicate Reliable(sv: Services) {
    forall n :: sv.save(n).None?
  }

  /** How a life ends: its last log entry is its status, and its raw output is what was parsed. */
  ghost predicate EndOk(sv: Services, cfg: Config, l: Life) {
    && l.log != []
    && l.log[|l.log| - 1].status == Record(l, None).status
    && (l.end.Some? ==>
      l.stored == Some(l.end.value.response.raw) && sv.parse(l.stored.value) == Success(l.end.value.parse))
    && (l.end.None? ==> l.fault.Some? && l.stored.None?)
  }

  /** The sleep before the first `k` retries together. */
  function TotalBackoff(cfg: Config, k: nat): real {
    if k == 0 then 0.0 else TotalBackoff(cfg, k - 1) + Backoff(cfg, k)
  }

  lemma {:induction false} BackoffDoubles(cfg: Config, k: nat)
    ensures TotalBackoff(cfg, k) == cfg.backoffMs * (Pow2(k) - 1.0)
  {
    if k > 0 {
      BackoffDoubles(cfg, k - 1);
      var b, p := cfg.backoffMs, Pow2(k - 1);
      assert b * (p + p - 1.0) == b * (p - 1.0) + b * p;
    }
  }

  /** A life about to make its `k`-th retry, or its first try. */
  ghost predicate Pending(sv: Services, cfg: Config, l: Life, k: nat) {
    && l.end.None? && l.stored.None?
    && if k == 0 then l == Born else LifeOk(sv, cfg, l, k - 1)
  }

  lemma {:induction false} WokenOk(sv: Services, cfg: Config, l: Life, k: nat)
    requires Pending(sv, cfg, l, k)
    ensures LifeOk(sv, cfg, Woken(cfg, l, k), k)
  {
  }

  lemma {:induction false} SettledOk(sv: Services, cfg: Config, l: Life, pass: Pass, k: nat)
    requires LifeOk(sv, cfg, l, k) && l.end.None? && l.stored.None? && PassOk(sv, cfg, pass)
    ensures var next := Settled(sv, cfg, l, pass, k);
      LifeOk(sv, cfg, next, k) && EndOk(sv, cfg, next) && next.calls == l.calls + pass.calls
  {
    EntriesLogged(l.log, pass.statuses, true, cfg, k);
  }

  lemma {:induction false} TryOk(sv: Services, cfg: Config, prompt: string, l: Life, k: nat)
    requires Pending(sv, cfg, l, k)
    ensures var next := Try(sv, cfg, prompt, l, k);
      LifeOk(sv, cfg, next, k) && EndOk(sv, cfg, next) && l.calls < next.calls <= l.calls + cfg.maxRepairs + 1
  {
    WokenOk(sv, cfg, l, k);
    var woken := Woken(cfg, l, k);
    PassBounded(sv, cfg, prompt, woken.calls);
    SettledOk(sv, cfg, woken, CallWithRepairs(sv, cfg, prompt, woken.calls), k);
  }

  /** The most calls `tries` turns of the retry loop can make. */
  function CallBudget(tries: nat, perTry: nat): nat {
    if tries == 0 then 0 else perTry + CallBudget(tries - 1, perTry)
  }

  lemma {:induction false} CallBudgetIsProduct(tries: nat, perTry: nat)
    ensures CallBudget(tries, perTry) == tries * perTry
  {
    if tries > 0 {
      CallBudgetIsProduct(tries - 1, perTry);
      assert tries * perTry == (tries - 1) * perTry + perTry;
    }
  }

  /** The lifecycle is over, within its retries. */
  ghost predicate LifecycleDone(sv: Services, cfg: Config, l: Life) {
    l.retries <= cfg.retryAttempts && LifeOk(sv, cfg, l, l.retries) && EndOk(sv, cfg, l) &&
      !TriesAgain(cfg, l, l.retries)
  }

  lemma {:induction false} LifecycleOk(sv: Services, cfg: Config, prompt: string, l: Life, k: nat)
    requires Pending(sv, cfg, l, k) && k <= cfg.retryAttempts
    ensures LifecycleDone(sv, cfg, Lifecycle(sv, cfg, prompt, l, k))
    decreases cfg.retryAttempts - k
  {
    TryEndsOrPends(sv, cfg, prompt, l, k);
    var next := Try(sv, cfg, prompt, l, k);
    if TriesAgain(cfg, next, k) {
      LifecycleOk(sv, cfg, prompt, next, k + 1);
    }
  }

  lemma {:induction false} CallsWithin(sv: Services, cfg: Config, prompt: string, l: Life, k: nat)
    requires k <= cfg.retryAttempts
    ensures var budget := CallBudget(cfg.retryAttempts + 1 - k, cfg.maxRepairs + 1);
      l.calls < Lifecycle(sv, cfg, prompt, l, k).calls <= l.calls + budget
    decreases cfg.retryAttempts - k
  {
    TryCalls(sv, cfg, prompt, l, k);
    var next := Try(sv, cfg, prompt, l, k);
    if TriesAgain(cfg, next, k) {
      CallsWithin(sv, cfg, prompt, next, k + 1);
    }
  }

  lemma {:induction false} TryCalls(sv: Services, cfg: Config, prompt: string, l: Life, k: nat)
    ensures l.calls < Try(sv, cfg, prompt, l, k).calls <= l.calls + cfg.maxRepairs + 1
  {
    PassBounded(sv, cfg, prompt, l.calls);
  }

  lemma {:induction false} TryEndsOrPends(sv: Services, cfg: Config, prompt: string, l: Life, k: nat)
    requires Pending(sv, cfg, l, k) && k <= cfg.retryAttempts
    ensures var next := Try(sv, cfg, prompt, l, k);
      if TriesAgain(cfg, next, k) then Pending(sv, cfg, next, k + 1) else LifecycleDone(sv, cfg, next)
  {
    TryOk(sv, cfg, prompt, l, k);
  }

  /** With R retries and M repairs a channel makes at most (R + 1) * (M + 1) calls. */
  lemma {:induction false} CallsBounded(sv: Services, cfg: Config, prompt: string)
    ensures 1 <= Lifecycle(sv, cfg, prompt, Born, 0).calls <= (cfg.retryAttempts + 1) * (cfg.maxRepairs + 1)
  {
    CallsWithin(sv, cfg, prompt, Born, 0);
    CallBudgetIsProduct(cfg.retryAttempts + 1, cfg.maxRepairs + 1);
  }

  /**
   * The recorded status is the last logged one; schema-valid means status ok;
   * re-parsing the saved raw output gives the recorded output; and a channel ends
   * in an error only when that error may not be retried or no retry is left.
   */
  ghost predicate OutcomeOk(sv: Services, cfg: Config, life: Life, r: Recorded) {
    && r.attempts != [] && r.attempts[|r.attempts| - 1].status == r.status
    && (r.schemaValid <==> r.status == StatusOk)
    && (r.stored.Some? ==> exists p :: sv.parse(r.stored.value) == Success(p) && p.parsed == r.parsedOutput)
    && (r.stored.None? <==> r.status == Error || r.status == Timeout)
    && (r.stored.None? && life.retries < cfg.retryAttempts ==>
      (if r.status == Timeout then TimeoutError else ProviderError) !in cfg.retryOn)
  }

  lemma {:induction false} RecordedOutcome(sv: Services, cfg: Config, prompt: string, declaredModel: Option<string>)
    ensures var life := Lifecycle(sv, cfg, prompt, Born, 0); OutcomeOk(sv, cfg, life, Record(life, declaredModel))
  {
    LifecycleOk(sv, cfg, prompt, Born, 0);
    DoneIsRecorded(sv, cfg, Lifecycle(sv, cfg, prompt, Born, 0), declaredModel);
  }

  lemma {:induction false} DoneIsRecorded(sv: Services, cfg: Config, life: Life, declaredModel: Option<string>)
    requires LifecycleDone(sv, cfg, life)
    ensures OutcomeOk(sv, cfg, life, Record(life, declaredModel))
  {
  }

  /** A channel that ends unrepaired though repair is allowed has spent all the repairs of its last try. */
  lemma {:induction false} RepairsAreSpent(sv: Services, cfg: Config, prompt: string, l: Life, k: nat)
    ensures var next := Try(sv, cfg, prompt, l, k);
      next.end.Some? && Repairable(cfg, next.end.value) && l.end.None? ==> next.calls == l.calls + cfg.maxRepairs + 1
  {
    PassBounded(sv, cfg, prompt, l.calls);
  }

  // ----- as a provider of a run -------------------------------------------

  /** What a run sees of an executed channel. */
  function ToOutcome(r: Recorded, provider: string): Outcome {
    Outcome(provider, r.model, r.status, r.usage, r.parsedOutput, r.schemaValid, r.validationErrors, r.stored)
  }

  lemma {:induction false} OutcomeIsFaithful(sv: Services, cfg: Config, prompt: string, declaredModel: Option<string>,
      provider: string)
    ensures var o := ToOutcome(Record(Lifecycle(sv, cfg, prompt, Born, 0), declaredModel), provider);
      o.schemaValid <==> o.status == StatusOk
  {
    RecordedOutcome(sv, cfg, prompt, declaredModel);
  }
}

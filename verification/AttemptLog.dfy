/** The attempt log of a channel, entry by entry. */
module AttemptLog {
  import opened Prelude
  import opened RunModel
  import opened ChannelExecutor
  import Json

  /** The status of something thrown. */
  predicate Thrown(status: Status) {
    status == Error || status == Timeout
  }

  /** The entry is marked as the initial call or a retry, with the back-off slept before that try. */
  predicate Leads(e: Attempt, cfg: Config, k: nat) {
    e.kind == (if k == 0 then InitialTry else RetryTry) && e.backoffMs == Backoff(cfg, k)
  }

  predicate Mends(e: Attempt) {
    e.kind == RepairTry && e.backoffMs == 0.0
  }

  /**
   * The entries of try `k`: its first call, then its repairs; and when something
   * was thrown after the first call, the try's own kind and back-off once more.
   */
  ghost predicate TryEntries(es: seq<Attempt>, cfg: Config, k: nat) {
    && es != [] && Leads(es[0], cfg, k)
    && (forall i :: 0 < i < |es| ==> if Thrown(es[i].status) then Leads(es[i], cfg, k) else Mends(es[i]))
    && (forall i :: 0 <= i < |es| - 1 ==> !Thrown(es[i].status))
  }

  predicate EndsThrown(es: seq<Attempt>) {
    es != [] && Thrown(es[|es| - 1].status)
  }

  /** The log, try by try; what came before the last try ended in something thrown. */
  ghost predicate LogOfTries(log: seq<Attempt>, cfg: Config, tries: seq<seq<Attempt>>) {
    && log == Flatten(tries)
    && (forall k {:trigger tries[k]} :: 0 <= k < |tries| ==> TryEntries(tries[k], cfg, k))
    && (forall k {:trigger tries[k]} :: 0 <= k < |tries| - 1 ==> EndsThrown(tries[k]))
  }

  // ----- one try ----------------------------------------------------------

  /** What a provider answered is never logged as thrown. */
  ghost predicate NoneThrown(statuses: seq<Status>) {
    forall i :: 0 <= i < |statuses| ==> !Thrown(statuses[i])
  }

  lemma {:induction false} RepairsThrowNothing(sv: Services, cfg: Config, prompt: string, c: Checked, repairs: nat,
      n: nat)
    ensures NoneThrown(Repairs(sv, cfg, prompt, c, repairs, n).statuses)
    decreases cfg.maxRepairs - repairs
  {
    if Repairable(cfg, c) && repairs < cfg.maxRepairs {
      var end := CallAndValidate(sv, sv.repairPrompt(prompt, c.response.raw), n);
      if end.Success? {
        RepairsThrowNothing(sv, cfg, prompt, end.value, repairs + 1, n + 1);
      }
    }
  }

  lemma {:induction false} PassThrowsNothing(sv: Services, cfg: Config, prompt: string, n: nat)
    ensures var pass := CallWithRepairs(sv, cfg, prompt, n);
      NoneThrown(pass.statuses) && (pass.end.Success? ==> pass.statuses != [])
  {
    var end := CallAndValidate(sv, prompt, n);
    if end.Success? {
      RepairsThrowNothing(sv, cfg, prompt, end.value, 0, n + 1);
    }
  }

  /** The entries that the statuses of a pass add to the log. */
  ghost predicate PassEntries(es: seq<Attempt>, statuses: seq<Status>, first: bool, cfg: Config, k: nat) {
    && |es| == |statuses|
    && (forall i :: 0 <= i < |es| ==> es[i].status == statuses[i])
    && (forall i :: 0 <= i < |es| ==> if first && i == 0 then Leads(es[i], cfg, k) else Mends(es[i]))
  }

  lemma {:induction false} EntriesAdded(log: seq<Attempt>, statuses: seq<Status>, first: bool, cfg: Config, k: nat)
    returns (es: seq<Attempt>)
    ensures Entries(log, statuses, first, cfg, k) == log + es && PassEntries(es, statuses, first, cfg, k)
    decreases |statuses|
  {
    es := [];
    if statuses != [] {
      var e := EntryOf(|log| + 1, statuses[0], first, cfg, k);
      var rest := EntriesAdded(log + [e], statuses[1..], false, cfg, k);
      es := [e] + rest;
      assert log + [e] + rest == log + es;
    }
  }

  /** A try adds its entries to the log; they end in something thrown exactly when it saved nothing. */
  lemma {:induction false} TryAdded(sv: Services, cfg: Config, prompt: string, l: Life, k: nat)
    returns (es: seq<Attempt>)
    requires l.end.None?
    ensures var next := Try(sv, cfg, prompt, l, k);
      next.log == l.log + es && TryEntries(es, cfg, k) && (EndsThrown(es) <==> next.end.None?)
  {
    var woken := Woken(cfg, l, k);
    var pass := CallWithRepairs(sv, cfg, prompt, woken.calls);
    PassThrowsNothing(sv, cfg, prompt, woken.calls);
    es := EntriesAdded(l.log, pass.statuses, true, cfg, k);
    es := SettledEntries(sv, cfg, woken, pass, k, es);
  }

  lemma {:induction false} SettledEntries(sv: Services, cfg: Config, l: Life, pass: Pass, k: nat, noted: seq<Attempt>)
    returns (es: seq<Attempt>)
    requires l.end.None? && NoneThrown(pass.statuses) && (pass.end.Success? ==> pass.statuses != [])
    requires PassEntries(noted, pass.statuses, true, cfg, k) &&
      Entries(l.log, pass.statuses, true, cfg, k) == l.log + noted
    ensures var next := Settled(sv, cfg, l, pass, k);
      next.log == l.log + es && TryEntries(es, cfg, k) && (EndsThrown(es) <==> next.end.None?)
  {
    var next := Settled(sv, cfg, l, pass, k);
    if next.end.Some? {
      es := noted;
    } else {
      var thrown := next.log[|l.log + noted|];
      es := noted + [thrown];
      assert next.log == l.log + noted + [thrown] == l.log + es;
      FaultEntry(noted, pass.statuses, thrown, cfg, k);
    }
  }

  lemma {:induction false} FaultEntry(noted: seq<Attempt>, statuses: seq<Status>, thrown: Attempt, cfg: Config, k: nat)
    requires PassEntries(noted, statuses, true, cfg, k) && NoneThrown(statuses)
    requires Thrown(thrown.status) && Leads(thrown, cfg, k)
    ensures TryEntries(noted + [thrown], cfg, k)
  {
    var es := noted + [thrown];
    forall i | 0 < i < |es| ensures if Thrown(es[i].status) then Leads(es[i], cfg, k) else Mends(es[i]) {
      if i < |noted| {
        assert es[i] == noted[i];
      }
    }
  }

  // ----- all tries --------------------------------------------------------

  lemma {:induction false} TriesLogged(sv: Services, cfg: Config, prompt: string, l: Life, k: nat,
      before: seq<seq<Attempt>>)
    returns (tries: seq<seq<Attempt>>)
    requires k <= cfg.retryAttempts && l.end.None? && l.retries == if k == 0 then 0 else k - 1
    requires LogOfTries(l.log, cfg, before) && |before| == k && (k > 0 ==> EndsThrown(before[k - 1]))
    ensures var last := Lifecycle(sv, cfg, prompt, l, k);
      LogOfTries(last.log, cfg, tries) && |tries| == last.retries + 1
    decreases cfg.retryAttempts - k
  {
    var next := Try(sv, cfg, prompt, l, k);
    var es := TryAdded(sv, cfg, prompt, l, k);
    tries := before + [es];
    OneTryMore(l.log, cfg, before, es);
    if TriesAgain(cfg, next, k) {
      tries := TriesLogged(sv, cfg, prompt, next, k + 1, tries);
    }
  }

  lemma {:induction false} OneTryMore(log: seq<Attempt>, cfg: Config, before: seq<seq<Attempt>>, es: seq<Attempt>)
    requires LogOfTries(log, cfg, before) && (before != [] ==> EndsThrown(before[|before| - 1])) &&
      TryEntries(es, cfg, |before|)
    ensures LogOfTries(log + es, cfg, before + [es])
  {
    FlattenSnoc(before, es);
  }

  /**
   * Attempts are numbered from one, one for each call and each failed save, so
   * exactly one per call when the store does not fail; k performed retries sleep
   * backoff * (2^k - 1) in all.  The log runs through the tries in order, one more
   * than there were retries, each with the kinds and back-offs of its entries.
   */
  lemma {:induction false} AttemptsAreLogged(sv: Services, cfg: Config, prompt: string)
    returns (tries: seq<seq<Attempt>>)
    ensures var life := Lifecycle(sv, cfg, prompt, Born, 0);
      && Numbered(life.log) && |life.log| == life.calls + life.failedSaves
      && (Reliable(sv) ==> |life.log| == life.calls)
      && life.retries <= cfg.retryAttempts
      && life.slept == cfg.backoffMs * (Pow2(life.retries) - 1.0)
      && LogOfTries(life.log, cfg, tries) && |tries| == life.retries + 1
  {
    LifecycleOk(sv, cfg, prompt, Born, 0);
    BackoffDoubles(cfg, Lifecycle(sv, cfg, prompt, Born, 0).retries);
    tries := TriesLogged(sv, cfg, prompt, Born, 0, []);
  }

  // ----- logged and slept back-off ----------------------------------------

  /** The back-offs in the log together. */
  function Logged(log: seq<Attempt>): real {
    if log == [] then 0.0 else Logged(log[..|log| - 1]) + log[|log| - 1].backoffMs
  }

  /** Something was thrown after the first call of the try, so its back-off is logged twice. */
  predicate Twice(es: seq<Attempt>) {
    |es| > 1 && EndsThrown(es)
  }

  /** The back-offs that are logged once more than they were slept. */
  function Repeated(cfg: Config, tries: seq<seq<Attempt>>): real {
    if tries == [] then 0.0
    else
      var k := |tries| - 1;
      Repeated(cfg, tries[..k]) + (if Twice(tries[k]) then Backoff(cfg, k) else 0.0)
  }

  lemma {:induction false} LoggedConcat(a: seq<Attempt>, b: seq<Attempt>)
    ensures Logged(a + b) == Logged(a) + Logged(b)
  {
    if b == [] {
      assert a + b == a;
    } else {
      assert (a + b)[..|a + b| - 1] == a + b[..|b| - 1];
      LoggedConcat(a, b[..|b| - 1]);
    }
  }

  lemma {:induction false} OnlyMends(es: seq<Attempt>)
    requires forall i :: 0 <= i < |es| ==> es[i].backoffMs == 0.0
    ensures Logged(es) == 0.0
  {
    if es != [] {
      OnlyMends(es[..|es| - 1]);
    }
  }

  lemma {:induction false} LoggedOfTry(es: seq<Attempt>, cfg: Config, k: nat)
    requires TryEntries(es, cfg, k)
    ensures Logged(es) == Backoff(cfg, k) + (if Twice(es) then Backoff(cfg, k) else 0.0)
  {
    if |es| > 1 {
      var n := |es| - 1;
      var mends := es[1..n];
      forall i | 0 <= i < |mends| ensures mends[i].backoffMs == 0.0 {
        assert mends[i] == es[i + 1] && !Thrown(es[i + 1].status);
      }
      OnlyMends(mends);
      assert es == [es[0]] + mends + [es[n]];
      LoggedConcat([es[0]] + mends, [es[n]]);
      LoggedConcat([es[0]], mends);
      OneLogged(es[n]);
    }
    OneLogged(es[0]);
    assert |es| == 1 ==> es == [es[0]];
  }

  lemma {:induction false} OneLogged(e: Attempt)
    ensures Logged([e]) == e.backoffMs
  {
    assert [e][..0] == [];
  }

  lemma {:induction false} LoggedOfTries(log: seq<Attempt>, cfg: Config, tries: seq<seq<Attempt>>)
    requires LogOfTries(log, cfg, tries) && tries != []
    ensures Logged(log) == TotalBackoff(cfg, |tries| - 1) + Repeated(cfg, tries)
    decreases |tries|
  {
    var k := |tries| - 1;
    var front, es := tries[..k], tries[k];
    assert tries == front + [es];
    FlattenSnoc(front, es);
    LoggedConcat(Flatten(front), es);
    LoggedOfTry(es, cfg, k);
    if k > 0 {
      LoggedOfTries(Flatten(front), cfg, front);
    }
  }

  /**
   * The log shows the back-offs slept and, once more, those of the tries in which
   * something was thrown after the first call: never less than was slept, and at
   * most twice as much.
   */
  lemma {:induction false} LoggedBackoff(sv: Services, cfg: Config, prompt: string) returns (tries: seq<seq<Attempt>>)
    ensures var life := Lifecycle(sv, cfg, prompt, Born, 0);
      && LogOfTries(life.log, cfg, tries)
      && Logged(life.log) == life.slept + Repeated(cfg, tries)
      && (cfg.backoffMs >= 0.0 ==> life.slept <= Logged(life.log) <= 2.0 * life.slept)
  {
    LifecycleOk(sv, cfg, prompt, Born, 0);
    tries := TriesLogged(sv, cfg, prompt, Born, 0, []);
    LoggedOfTries(Lifecycle(sv, cfg, prompt, Born, 0).log, cfg, tries);
    if cfg.backoffMs >= 0.0 {
      RepeatedAtMostSlept(cfg, tries);
    }
  }

  lemma {:induction false} RepeatedAtMostSlept(cfg: Config, tries: seq<seq<Attempt>>)
    requires cfg.backoffMs >= 0.0 && tries != []
    ensures 0.0 <= Repeated(cfg, tries) <= TotalBackoff(cfg, |tries| - 1)
    decreases |tries|
  {
    var k := |tries| - 1;
    BackoffNotNegative(cfg, k);
    if k > 0 {
      RepeatedAtMostSlept(cfg, tries[..k]);
    }
  }

  lemma {:induction false} BackoffNotNegative(cfg: Config, k: nat)
    requires cfg.backoffMs >= 0.0
    ensures Backoff(cfg, k) >= 0.0
  {
    if k > 0 {
      PowerPositive(k - 1);
    }
  }

  lemma {:induction false} PowerPositive(k: nat)
    ensures Pow2(k) > 0.0
  {
    if k > 0 {
      PowerPositive(k - 1);
    }
  }

  // ----- when the log shows what was slept --------------------------------

  /** The log of the channel's life shows exactly the back-offs it slept. */
  ghost predicate ShowsSlept(sv: Services, cfg: Config, prompt: string) {
    var life := Lifecycle(sv, cfg, prompt, Born, 0);
    Logged(life.log) == life.slept
  }

  /** Logged back-off beyond what was slept. */
  function Excess(l: Life): real {
    Logged(l.log) - l.slept
  }

  lemma {:induction false} TryExcess(sv: Services, cfg: Config, prompt: string, l: Life, k: nat)
    returns (es: seq<Attempt>)
    requires l.end.None?
    ensures var next := Try(sv, cfg, prompt, l, k);
      && next.log == l.log + es && (EndsThrown(es) <==> next.end.None?)
      && Excess(next) == Excess(l) + (if Twice(es) then Backoff(cfg, k) else 0.0)
  {
    es := TryAdded(sv, cfg, prompt, l, k);
    TrySleeps(sv, cfg, prompt, l, k);
    ExcessAdded(l, Try(sv, cfg, prompt, l, k), es, cfg, k);
  }

  lemma {:induction false} TrySleeps(sv: Services, cfg: Config, prompt: string, l: Life, k: nat)
    ensures Try(sv, cfg, prompt, l, k).slept == l.slept + Backoff(cfg, k)
  {
  }

  lemma {:induction false} ExcessAdded(l: Life, next: Life, es: seq<Attempt>, cfg: Config, k: nat)
    requires next.log == l.log + es && TryEntries(es, cfg, k) && next.slept == l.slept + Backoff(cfg, k)
    ensures Excess(next) == Excess(l) + (if Twice(es) then Backoff(cfg, k) else 0.0)
  {
    LoggedOfTry(es, cfg, k);
    LoggedConcat(l.log, es);
  }

  lemma {:induction false} ExcessGrows(sv: Services, cfg: Config, prompt: string, l: Life, k: nat)
    requires cfg.backoffMs >= 0.0 && l.end.None?
    ensures Excess(Lifecycle(sv, cfg, prompt, l, k)) >= Excess(l)
    decreases cfg.retryAttempts - k
  {
    var es := TryExcess(sv, cfg, prompt, l, k);
    BackoffNotNegative(cfg, k);
    var next := Try(sv, cfg, prompt, l, k);
    if TriesAgain(cfg, next, k) {
      ExcessGrows(sv, cfg, prompt, next, k + 1);
    }
  }

  /** Without repairs every try is one call, so a reliable store leaves one entry for it. */
  lemma {:induction false} OneEntry(sv: Services, cfg: Config, prompt: string, l: Life, k: nat)
    requires Reliable(sv) && (cfg.maxRepairs == 0 || cfg.repairOn == {})
    ensures |Try(sv, cfg, prompt, l, k).log| == |l.log| + 1
  {
    var woken := Woken(cfg, l, k);
    var pass := CallWithRepairs(sv, cfg, prompt, woken.calls);
    var es := EntriesAdded(woken.log, pass.statuses, true, cfg, k);
  }

  lemma {:induction false} ExcessStays(sv: Services, cfg: Config, prompt: string, l: Life, k: nat)
    requires Reliable(sv) && (cfg.maxRepairs == 0 || cfg.repairOn == {}) && l.end.None?
    ensures Excess(Lifecycle(sv, cfg, prompt, l, k)) == Excess(l)
    decreases cfg.retryAttempts - k
  {
    var es := TryExcess(sv, cfg, prompt, l, k);
    OneEntry(sv, cfg, prompt, l, k);
    var next := Try(sv, cfg, prompt, l, k);
    if TriesAgain(cfg, next, k) {
      ExcessStays(sv, cfg, prompt, next, k + 1);
    }
  }

  /** The initial try sleeps and logs nothing, and without retries there is no other. */
  lemma {:induction false} NoRetriesNoExcess(sv: Services, cfg: Config, prompt: string)
    requires cfg.retryAttempts == 0 || cfg.retryOn == {}
    ensures ShowsSlept(sv, cfg, prompt)
  {
    var es := TryExcess(sv, cfg, prompt, Born, 0);
    assert !TriesAgain(cfg, Try(sv, cfg, prompt, Born, 0), 0);
  }

  lemma {:induction false} NoBackoffNoExcess(sv: Services, cfg: Config, prompt: string)
    requires cfg.backoffMs == 0.0
    ensures ShowsSlept(sv, cfg, prompt)
  {
    var tries := LoggedBackoff(sv, cfg, prompt);
    var same := AttemptsAreLogged(sv, cfg, prompt);
  }

  /** A first retry that logs two entries and throws leaves an excess for good. */
  lemma {:induction false} RetryLoggedTwice(sv: Services, cfg: Config, prompt: string)
    requires cfg.backoffMs > 0.0
    requires var first := Try(sv, cfg, prompt, Born, 0);
      TriesAgain(cfg, first, 0) &&
      var second := Try(sv, cfg, prompt, first, 1);
      second.end.None? && |second.log| == |first.log| + 2
    ensures !ShowsSlept(sv, cfg, prompt)
    ensures cfg.retryAttempts == 1 ==> SleptOnceLoggedTwice(cfg, Lifecycle(sv, cfg, prompt, Born, 0))
  {
    var first := Try(sv, cfg, prompt, Born, 0);
    var second := Try(sv, cfg, prompt, first, 1);
    var es := TryExcess(sv, cfg, prompt, Born, 0);
    var es' := TryExcess(sv, cfg, prompt, first, 1);
    assert Backoff(cfg, 1) == cfg.backoffMs;
    assert Excess(second) > 0.0;
    assert Lifecycle(sv, cfg, prompt, Born, 0) == Lifecycle(sv, cfg, prompt, first, 1);
    if TriesAgain(cfg, second, 1) {
      ExcessGrows(sv, cfg, prompt, second, 2);
    }
  }

  predicate SleptOnceLoggedTwice(cfg: Config, l: Life) {
    l.slept == cfg.backoffMs && Logged(l.log) == 2.0 * cfg.backoffMs
  }

  function NoUsage(): Usage {
    Usage(None, None, None)
  }

  /** A provider that throws, then answers, then throws, then answers; every answer parses as `outcome`. */
  function ThrowsInRepair(fault: Fault, outcome: ParseOutcome): Services {
    Services((p, n) => if n == 0 || n == 2 then Failure(fault) else Success(Response("", None, NoUsage(), false)),
             raw => Success(Parse(outcome, Json.Null, [])),
             n => None,
             (p, raw) => p)
  }

  /** A provider that throws once and a store that throws once. */
  function ThrowsInSave(fault: Fault): Services {
    Services((p, n) => if n == 0 then Failure(fault) else Success(Response("", None, NoUsage(), false)),
             raw => Success(Parse(Valid, Json.Null, [])),
             n => if n == 0 then Some(fault) else None,
             (p, raw) => p)
  }

  function FaultFor(condition: RetryCondition): Fault {
    Fault(condition == TimeoutError, "")
  }

  function OutcomeFor(condition: RepairCondition): ParseOutcome {
    if condition == OnInvalidJson then NotJson else NotSchema
  }

  lemma {:induction false} ThrownRepairIsLoggedTwice(cfg: Config, retry: RetryCondition, repair: RepairCondition)
    requires cfg.backoffMs > 0.0 && cfg.retryAttempts > 0 && retry in cfg.retryOn && cfg.maxRepairs > 0 &&
      repair in cfg.repairOn
    ensures var sv := ThrowsInRepair(FaultFor(retry), OutcomeFor(repair));
      && Reliable(sv) && !ShowsSlept(sv, cfg, "")
      && (cfg.retryAttempts == 1 ==> SleptOnceLoggedTwice(cfg, Lifecycle(sv, cfg, "", Born, 0)))
  {
    var sv := ThrowsInRepair(FaultFor(retry), OutcomeFor(repair));
    var first := Try(sv, cfg, "", Born, 0);
    assert first.calls == 1 && first.end.None? && first.fault == Some(FaultFor(retry));
    var c := Checked(Response("", None, NoUsage(), false), Parse(OutcomeFor(repair), Json.Null, []));
    assert CallAndValidate(sv, "", 1) == Success(c) && Repairable(cfg, c);
    assert Repairs(sv, cfg, "", c, 0, 2) == Pass(Failure(FaultFor(retry)), [], 1, true);
    var pass := CallWithRepairs(sv, cfg, "", 1);
    var es := EntriesAdded(first.log, pass.statuses, true, cfg, 1);
    RetryLoggedTwice(sv, cfg, "");
  }

  lemma {:induction false} ThrownSaveIsLoggedTwice(cfg: Config, retry: RetryCondition)
    requires cfg.backoffMs > 0.0 && cfg.retryAttempts > 0 && retry in cfg.retryOn
    ensures !ShowsSlept(ThrowsInSave(FaultFor(retry)), cfg, "")
  {
    var sv := ThrowsInSave(FaultFor(retry));
    var first := Try(sv, cfg, "", Born, 0);
    assert first.calls == 1 && first.end.None? && first.fault == Some(FaultFor(retry)) && first.saves == 0;
    var c := Checked(Response("", None, NoUsage(), false), Parse(Valid, Json.Null, []));
    assert CallAndValidate(sv, "", 1) == Success(c) && !Repairable(cfg, c);
    var pass := CallWithRepairs(sv, cfg, "", 1);
    assert pass == Pass(Success(c), [StatusOk], 1, false);
    var es := EntriesAdded(first.log, pass.statuses, true, cfg, 1);
    RetryLoggedTwice(sv, cfg, "");
  }

  /** With a reliable store, the configurations whose logs always show what was slept. */
  predicate ExactIfReliable(cfg: Config) {
    cfg.backoffMs == 0.0 || cfg.retryAttempts == 0 || cfg.retryOn == {} || cfg.maxRepairs == 0 || cfg.repairOn == {}
  }

  /** With any store. */
  predicate ExactAnyway(cfg: Config) {
    cfg.backoffMs == 0.0 || cfg.retryAttempts == 0 || cfg.retryOn == {}
  }

  /**
   * With a store that does not fail, logged and slept back-off agree in every life
   * exactly when there is no back-off, no retry or no repair.
   */
  lemma {:induction false} ExactWithReliableStore(cfg: Config)
    requires cfg.backoffMs >= 0.0
    ensures (forall sv, prompt :: Reliable(sv) ==> ShowsSlept(sv, cfg, prompt)) <==> ExactIfReliable(cfg)
  {
    if ExactIfReliable(cfg) {
      forall sv, prompt | Reliable(sv) ensures ShowsSlept(sv, cfg, prompt) {
        if cfg.backoffMs == 0.0 {
          NoBackoffNoExcess(sv, cfg, prompt);
        } else if cfg.retryAttempts == 0 || cfg.retryOn == {} {
          NoRetriesNoExcess(sv, cfg, prompt);
        } else {
          ExcessStays(sv, cfg, prompt, Born, 0);
        }
      }
    } else {
      var retry :| retry in cfg.retryOn;
      var repair :| repair in cfg.repairOn;
      ThrownRepairIsLoggedTwice(cfg, retry, repair);
    }
  }

  /** With a store that may fail, exactly when there is no back-off or no retry. */
  lemma {:induction false} ExactWithAnyStore(cfg: Config)
    requires cfg.backoffMs >= 0.0
    ensures (forall sv, prompt :: ShowsSlept(sv, cfg, prompt)) <==> ExactAnyway(cfg)
  {
    if ExactAnyway(cfg) {
      forall sv, prompt ensures ShowsSlept(sv, cfg, prompt) {
        if cfg.backoffMs == 0.0 {
          NoBackoffNoExcess(sv, cfg, prompt);
        } else {
          NoRetriesNoExcess(sv, cfg, prompt);
        }
      }
    } else {
      var retry :| retry in cfg.retryOn;
      ThrownSaveIsLoggedTwice(cfg, retry);
    }
  }

  /** One life in which a back-off of one millisecond is slept once and logged twice. */
  lemma {:induction false} LoggedTwiceSleptOnce()
    ensures var cfg := Config(1, 1.0, {ProviderError}, 1, {OnInvalidJson});
      var sv := ThrowsInRepair(FaultFor(ProviderError), NotJson);
      var life := Lifecycle(sv, cfg, "", Born, 0);
      Reliable(sv) && life.slept == 1.0 && Logged(life.log) == 2.0
  {
    ThrownRepairIsLoggedTwice(Config(1, 1.0, {ProviderError}, 1, {OnInvalidJson}), ProviderError, OnInvalidJson);
  }
}

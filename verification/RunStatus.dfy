/** The status a run ends with, and what it says about the recorded results. */
module RunStatus {
  import opened Prelude
  import opened RunModel
  import opened RunResults
  import CE = ChannelExecutor

  datatype FinalState = Completed | Failed | Partial

  predicate Invalid(r: ChannelResult) {
    !r.schemaValid && r.status != StatusOk
  }

  predicate Broken(r: ChannelResult) {
    r.status == Error || r.status == Timeout
  }

  /** The status of a run, from the results it recorded. */
  function FinalStatus(all: seq<ChannelResult>): FinalState {
    var valid := forall r :: r in all ==> !Invalid(r);
    var anyError := exists r :: r in all && Broken(r);
    var allError := |all| > 0 && forall r :: r in all ==> r.status != StatusOk;
    if allError then Failed else if anyError || !valid then Partial else Completed
  }

  /** A result is schema-valid exactly when its status is ok. */
  ghost predicate Sane(r: ChannelResult) {
    r.schemaValid <==> r.status == StatusOk
  }

  ghost predicate Faithful(all: seq<ChannelResult>) {
    forall r :: r in all ==> Sane(r)
  }

  /** Completed, failed and partial mean that all, none and some of the recorded results are ok. */
  lemma {:induction false} StatusCountsOk(all: seq<ChannelResult>)
    requires Faithful(all)
    ensures FinalStatus(all) == Completed <==> forall r :: r in all ==> r.status == StatusOk
    ensures FinalStatus(all) == Failed <==> all != [] && forall r :: r in all ==> r.status != StatusOk
    ensures FinalStatus(all) == Partial <==>
      (exists r :: r in all && r.status == StatusOk) && (exists r :: r in all && r.status != StatusOk)
  {
    if r :| r in all && r.status != StatusOk {
      assert Invalid(r);
    }
    assert all != [] ==> all[0] in all;
  }

  /**
   * Whatever the results are: a run failed when it has results and none is ok; it
   * completed when it did not fail and each result is ok or else passes for valid
   * without having been an error or a timeout.
   */
  lemma {:induction false} StatusOfAnyResults(all: seq<ChannelResult>)
    ensures FinalStatus(all) == Failed <==> all != [] && forall r :: r in all ==> r.status != StatusOk
    ensures FinalStatus(all) == Completed <==>
      && (all == [] || exists r :: r in all && r.status == StatusOk)
      && forall r :: r in all ==> r.status == StatusOk || (r.schemaValid && r.status != Error && r.status != Timeout)
  {
    assert all != [] ==> all[0] in all;
  }

  /** What the run says about validity: the id and status of every invalid result, in order. */
  function InvalidEntries(all: seq<ChannelResult>): seq<(Id, Status)> {
    if all == [] then []
    else
      var last := all[|all| - 1];
      InvalidEntries(all[..|all| - 1]) + (if Invalid(last) then [(last.channelId, last.status)] else [])
  }

  datatype Report = Report(status: FinalState, valid: bool, errors: seq<(Id, Status)>)

  method ReportOn(all: seq<ChannelResult>) returns (report: Report)
    ensures report.status == FinalStatus(all) && report.errors == InvalidEntries(all) &&
      (report.valid <==> report.errors == [])
  {
    var errors := [];
    for i := 0 to |all|
      invariant errors == InvalidEntries(all[..i])
    {
      assert all[..i + 1][..i] == all[..i];
      if Invalid(all[i]) {
        errors := errors + [(all[i].channelId, all[i].status)];
      }
    }
    assert all[..|all|] == all;
    report := Report(FinalStatus(all), |errors| == 0, errors);
  }

  /** The id and status of every result that is not ok, in order. */
  function Failures(all: seq<ChannelResult>): seq<(Id, Status)> {
    if all == [] then []
    else
      var last := all[|all| - 1];
      Failures(all[..|all| - 1]) + (if last.status != StatusOk then [(last.channelId, last.status)] else [])
  }

  /** The errors name the results that are not ok, one for each. */
  lemma {:induction false} ErrorsNameFailures(all: seq<ChannelResult>)
    requires Faithful(all)
    ensures InvalidEntries(all) == Failures(all)
  {
    if all != [] {
      FaithfulFront(all);
      ErrorsNameFailures(all[..|all| - 1]);
    }
  }

  lemma {:induction false} FaithfulFront(all: seq<ChannelResult>)
    requires Faithful(all) && all != []
    ensures Faithful(all[..|all| - 1]) && Sane(all[|all| - 1])
  {
    assert all[|all| - 1] in all;
    assert forall r :: r in all[..|all| - 1] ==> r in all;
  }

  /** A run is valid exactly when no result is invalid. */
  lemma {:induction false} ValidMeansNoneInvalid(all: seq<ChannelResult>)
    ensures InvalidEntries(all) == [] <==> forall r :: r in all ==> !Invalid(r)
  {
    if all != [] {
      var front, last := all[..|all| - 1], all[|all| - 1];
      assert all == front + [last];
      ValidMeansNoneInvalid(front);
    }
  }

  // ----- whole runs -------------------------------------------------------

  /** The results a run reports on: its channels and its synthesis. */
  function Reported(st: Run): seq<ChannelResult> {
    st.channels + (if st.synthesis.Some? then [st.synthesis.value] else [])
  }

  /** Providers report a valid schema exactly with status ok, and so do the carried results. */
  ghost predicate SaneSources(env: Env) {
    && (forall req, t :: env.execute(req, t).schemaValid <==> env.execute(req, t).status == StatusOk)
    && forall r :: r in env.carried ==> Sane(r)
  }

  /**
   * Over every run whose providers report as executed channels do, the final
   * status is completed, failed or partial exactly as all, none or some of the
   * reported results are ok, and completed when nothing was recorded.
   */
  lemma {:induction false} RunStatusCountsOk(env: Env)
    requires SaneSources(env)
    ensures var all := Execute(env).channels + (match Execute(env).synthesis case Some(r) => [r] case None => []);
      && (FinalStatus(all) == Completed <==> forall r :: r in all ==> r.status == StatusOk)
      && (FinalStatus(all) == Failed <==> all != [] && forall r :: r in all ==> r.status != StatusOk)
      && (FinalStatus(all) == Partial <==>
        (exists r :: r in all && r.status == StatusOk) && (exists r :: r in all && r.status != StatusOk))
  {
    EveryResult(env, (r, isSynthesis) => Sane(r));
    StatusCountsOk(Reported(Execute(env)));
  }

  // ----- executed channels ------------------------------------------------

  /** What each request is executed with: the services and settings of one channel's life. */
  datatype Executor = Executor(
    services: (Request, nat) -> CE.Services,
    config: Request -> CE.Config,
    prompt: Request -> string,
    declaredModel: Request -> Option<string>,
    provider: Request -> string)

  /** What a run is answered when each channel lives its whole life of calls, repairs and retries. */
  function LifeOutcome(x: Executor, req: Request, t: nat): Outcome {
    var life := CE.Lifecycle(x.services(req, t), x.config(req), x.prompt(req), CE.Born, 0);
    CE.ToOutcome(CE.Record(life, x.declaredModel(req)), x.provider(req))
  }

  /**
   * Over every run whose channels are executed so, fresh or carrying such results, the status counts
   * the ok results.
   */
  lemma {:induction false} ExecutedRunsCountOk(env: Env, x: Executor)
    requires forall req, t :: env.execute(req, t) == LifeOutcome(x, req, t)
    requires forall r :: r in env.carried ==> Sane(r)
    ensures Faithful(Reported(Execute(env)))
    ensures var all := Reported(Execute(env));
      && (FinalStatus(all) == Completed <==> forall r :: r in all ==> r.status == StatusOk)
      && (FinalStatus(all) == Failed <==> all != [] && forall r :: r in all ==> r.status != StatusOk)
  {
    forall req, t ensures env.execute(req, t).schemaValid <==> env.execute(req, t).status == StatusOk {
      CE.OutcomeIsFaithful(x.services(req, t), x.config(req), x.prompt(req), x.declaredModel(req), x.provider(req));
    }
    EveryResult(env, (r, isSynthesis) => Sane(r));
    RunStatusCountsOk(env);
  }
}

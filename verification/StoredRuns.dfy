/** Runs that are saved in the store when they end, and resumed from it. */
module StoredRuns {
  import opened Prelude
  import opened RunModel
  import opened RunStatus
  import opened RunRecord
  import opened PipelineExecutor
  import opened SqliteStore
  import C = Coverage

  /** What a record holds besides the run itself: its identity, its times and the hashes of what it ran. */
  datatype Tag = Tag(
    runId: Id,
    pipelineId: Id,
    source: Source,
    startedAt: string,
    completedAt: Option<string>)

  /** The record of a run. */
  function RecordOf(tag: Tag, st: Run): RunRecord {
    var all := Reported(st);
    RunRecord(tag.runId, tag.pipelineId, tag.source.pipelineHash, tag.source.promptHashes, tag.source.schemaHashes,
              FinalStatus(all), tag.startedAt, tag.completedAt, st.channels, st.synthesis, InvalidEntries(all) == [])
  }

  function SourceOf(r: RunRecord): Source {
    Source(r.pipelineHash, r.promptHashes, r.schemaHashes)
  }

  method SaveExecuted(tag: Tag, executor: PipelineExecutor, report: Report, store: SqliteResultStore)
    returns (record: RunRecord)
    requires store.Valid()
    requires var all := Reported(executor.View());
      report.status == FinalStatus(all) && (report.valid <==> InvalidEntries(all) == [])
    modifies store
    ensures record == RecordOf(tag, executor.View())
    ensures store.Valid() && store.log == old(store.log) + [Call.SaveRun(record)]
  {
    record := RunRecord(tag.runId, tag.pipelineId, tag.source.pipelineHash, tag.source.promptHashes,
                        tag.source.schemaHashes, report.status, tag.startedAt, tag.completedAt,
                        executor.channels, executor.synthesis, report.valid);
    store.SaveRun(record);
  }

  /** A run ends by saving its record, which the store then holds as the latest of its id. */
  method RunAndSave(tag: Tag, env: Env, store: SqliteResultStore) returns (record: RunRecord)
    requires store.Valid()
    modifies store
    ensures record == RecordOf(tag, Execute(env))
    ensures store.Valid() && store.log == old(store.log) + [Call.SaveRun(record)]
    ensures Latest(store.log, tag.runId) == Some(record)
  {
    var executor := new PipelineExecutor(env);
    var report := executor.RunPipeline();
    record := SaveExecuted(tag, executor, report, store);
    LatestAfterSave(old(store.log), record, tag.runId);
  }

  /**
   * Resuming reads the prior run from the store.  Nothing is saved when it is
   * refused: the run is unknown, or a hash it recorded no longer holds.  Otherwise
   * a run that carries the ok results of the latest record is executed and saved.
   */
  method ResumeAndSave(priorId: Id, current: Current, tag: Tag, env: Env, store: SqliteResultStore)
    returns (r: Result<RunRecord, ResumeError>)
    requires store.Valid()
    modifies store
    ensures store.Valid()
    ensures r.Failure? ==> store.log == old(store.log)
    ensures r == Failure(RunNotFound) <==> Latest(old(store.log), priorId).None?
    ensures Latest(old(store.log), priorId).Some? ==>
      var prior := Latest(old(store.log), priorId).value;
      && (r.Success? <==> Unchanged(SourceOf(prior), current))
      && (r.Failure? ==> r.error == HashMismatch(AllMismatches(SourceOf(prior), current)))
      && (r.Success? ==>
            && r.value == RecordOf(tag, Execute(env.(carried := C.OkResults(prior.channels))))
            && store.log == old(store.log) + [Call.SaveRun(r.value)])
  {
    var found := store.GetRun(priorId);
    var prior := if found.None? then None else Some(PriorRun(SourceOf(found.value), found.value.channels));
    var resumed := Resume(prior, current, env);
    if resumed.Failure? {
      return Failure(resumed.error);
    }
    var record := SaveExecuted(tag, resumed.value.0, resumed.value.1, store);
    return Success(record);
  }

  /**
   * Whatever else was saved meanwhile, a resume finds the run's own record as long
   * as its id was not saved again, with the hashes it ran under, and carries an id exactly when that run had an
   * ok result for it.
   */
  lemma {:induction false} ResumeCarriesTheSavedRun(before: seq<Call>, tag: Tag, env: Env, after: seq<Call>, x: Id)
    requires forall c :: c in after && c.SaveRun? ==> c.run.runId != tag.runId
    ensures var record := RecordOf(tag, Execute(env));
      Latest(before + [Call.SaveRun(record)] + after, tag.runId) == Some(record)
    ensures SourceOf(RecordOf(tag, Execute(env))) == tag.source
    ensures x in LastById(C.OkResults(RecordOf(tag, Execute(env)).channels)) <==> C.HasOk(Execute(env).channels, x)
  {
    LastSaveWins(before, RecordOf(tag, Execute(env)), after);
    C.CarriesLastOk(Execute(env).channels, x);
  }
}

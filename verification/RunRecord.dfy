/** The record of a finished run, as it is stored and compared. */
module RunRecord {
  import opened Prelude
  import opened RunModel
  import opened RunStatus

  datatype RunRecord = RunRecord(
    runId: Id,
    pipelineId: Id,
    pipelineHash: string,
    promptHashes: seq<(Id, string)>,
    schemaHashes: seq<(Id, string)>,
    status: FinalState,
    startedAt: string,
    completedAt: Option<string>,
    channels: seq<ChannelResult>,
    synthesis: Option<ChannelResult>,
    validationValid: bool)
}

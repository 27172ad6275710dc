/** The diff of two runs of one pipeline definition. */
module DiffRuns {
  import opened Prelude
  import opened Text
  import opened RunModel
  import opened RunStatus
  import opened RunRecord
  import RunDiffer

  /** The results of a run by channel id; the last of an id wins, and the synthesis after all of them. */
  function ChannelMap(r: RunRecord): map<Id, ChannelResult> {
    var m := LastById(r.channels);
    if r.synthesis.Some? then m[r.synthesis.value.channelId := r.synthesis.value] else m
  }

  method ChannelMapLoop(r: RunRecord) returns (m: map<Id, ChannelResult>)
    ensures m == ChannelMap(r)
  {
    m := map[];
    for i := 0 to |r.channels|
      invariant m == LastById(r.channels[..i])
    {
      assert r.channels[..i + 1][..i] == r.channels[..i];
      m := m[r.channels[i].channelId := r.channels[i]];
    }
    assert r.channels[..|r.channels|] == r.channels;
    if r.synthesis.Some? {
      m := m[r.synthesis.value.channelId := r.synthesis.value];
    }
  }

  datatype FieldDiff = FieldDiff(
    statusChanged: bool,
    schemaValidChanged: bool,
    providerChanged: bool,
    modelChanged: bool,
    parsedChanges: seq<RunDiffer.Change<real>>)

  datatype ChannelDiff = Both(channelId: Id, fields: FieldDiff) | OnlyA(channelId: Id) | OnlyB(channelId: Id)

  datatype RunDiff = RunDiff(statusChanged: bool, validationChanged: bool, channels: seq<ChannelDiff>, identical: bool)

  datatype Mismatch = PipelineMismatch(a: string, b: string)

  ghost function DiffChannel(a: ChannelResult, b: ChannelResult): FieldDiff {
    FieldDiff(a.status != b.status, a.schemaValid != b.schemaValid, a.provider != b.provider, a.model != b.model,
              RunDiffer.Walk(a.parsedOutput, b.parsedOutput, []))
  }

  predicate ChannelChanged(d: ChannelDiff) {
    d.Both? ==>
      || d.fields.statusChanged || d.fields.schemaValidChanged || d.fields.providerChanged || d.fields.modelChanged
      || |d.fields.parsedChanges| > 0
  }

  ghost function DiffAt(a: map<Id, ChannelResult>, b: map<Id, ChannelResult>, x: Id): ChannelDiff {
    if x in a && x in b then Both(x, DiffChannel(a[x], b[x]))
    else if x in a then OnlyA(x)
    else OnlyB(x)
  }

  /** What the comparison of two results of one channel looks at. */
  predicate SameResult(a: ChannelResult, b: ChannelResult) {
    && a.status == b.status && a.schemaValid == b.schemaValid && a.provider == b.provider && a.model == b.model
    && a.parsedOutput == b.parsedOutput
  }

  /** The two runs cannot be told apart by the comparison. */
  ghost predicate SameRun(a: RunRecord, b: RunRecord) {
    && a.status == b.status && a.validationValid == b.validationValid
    && ChannelMap(a).Keys == ChannelMap(b).Keys
    && forall x :: x in ChannelMap(a) ==> SameResult(ChannelMap(a)[x], ChannelMap(b)[x])
  }

  lemma {:induction false} ChannelUnchanged(a: map<Id, ChannelResult>, b: map<Id, ChannelResult>, x: Id)
    requires x in a || x in b
    ensures !ChannelChanged(DiffAt(a, b, x)) <==> x in a && x in b && SameResult(a[x], b[x])
  {
    if x in a && x in b {
      RunDiffer.NoChangeMeansEqual(a[x].parsedOutput, b[x].parsedOutput);
    }
  }

  method CompareChannel(a: map<Id, ChannelResult>, b: map<Id, ChannelResult>, x: Id) returns (d: ChannelDiff)
    requires x in a || x in b
    ensures d == DiffAt(a, b, x) && Tells(d, a, b, x)
  {
    if x in a && x in b {
      var changes := RunDiffer.DiffParsed(a[x].parsedOutput, b[x].parsedOutput);
      d := Both(x, FieldDiff(a[x].status != b[x].status, a[x].schemaValid != b[x].schemaValid,
                             a[x].provider != b[x].provider, a[x].model != b[x].model, changes));
    } else if x in a {
      d := OnlyA(x);
    } else {
      d := OnlyB(x);
    }
  }

  /** The difference names the run that lacks the channel, or says of each compared field whether it changed. */
  ghost predicate Tells(d: ChannelDiff, a: map<Id, ChannelResult>, b: map<Id, ChannelResult>, x: Id) {
    && d.channelId == x
    && (d.OnlyA? <==> x in a && x !in b) && (d.OnlyB? <==> x !in a && x in b)
    && (d.Both? ==> x in a && x in b && TellsFields(d.fields, a[x], b[x]))
  }

  ghost predicate TellsFields(d: FieldDiff, a: ChannelResult, b: ChannelResult) {
    && (d.statusChanged <==> a.status != b.status)
    && (d.schemaValidChanged <==> a.schemaValid != b.schemaValid)
    && (d.providerChanged <==> a.provider != b.provider)
    && (d.modelChanged <==> a.model != b.model)
    && d.parsedChanges == RunDiffer.Walk(a.parsedOutput, b.parsedOutput, [])
  }

  method CompareChannels(a: map<Id, ChannelResult>, b: map<Id, ChannelResult>, ids: seq<Id>)
    returns (channels: seq<ChannelDiff>, anyChanged: bool)
    requires ids == SortedKeys(a.Keys + b.Keys)
    ensures |channels| == |ids|
    ensures forall j :: 0 <= j < |ids| ==> channels[j] == DiffAt(a, b, ids[j]) && Tells(channels[j], a, b, ids[j])
    ensures anyChanged <==> exists j :: 0 <= j < |ids| && ChannelChanged(channels[j])
  {
    channels := [];
    anyChanged := false;
    for i := 0 to |ids|
      invariant |channels| == i
      invariant forall j :: 0 <= j < i ==> channels[j] == DiffAt(a, b, ids[j]) && Tells(channels[j], a, b, ids[j])
      invariant anyChanged <==> exists j :: 0 <= j < i && ChannelChanged(channels[j])
    {
      SortedMember(a.Keys + b.Keys, ids[i]);
      var d := CompareChannel(a, b, ids[i]);
      channels := channels + [d];
      anyChanged := anyChanged || ChannelChanged(d);
    }
  }

  /**
   * The diff is refused exactly when the pipeline hashes differ.  Otherwise it
   * lists the ids of both runs in ascending order, each with its own difference,
   * and calls the runs identical exactly when they are the same run.
   */
  method Diff(a: RunRecord, b: RunRecord) returns (r: Result<RunDiff, Mismatch>)
    ensures r.Failure? <==> a.pipelineHash != b.pipelineHash
    ensures r.Failure? ==> r.error == PipelineMismatch(a.pipelineHash, b.pipelineHash)
    ensures r.Success? ==>
      var ids := SortedKeys(ChannelMap(a).Keys + ChannelMap(b).Keys);
      && |r.value.channels| == |ids|
      && (forall i :: 0 <= i < |ids| ==> Tells(r.value.channels[i], ChannelMap(a), ChannelMap(b), ids[i]))
      && (r.value.statusChanged <==> a.status != b.status)
      && (r.value.validationChanged <==> a.validationValid != b.validationValid)
    ensures r.Success? ==> (r.value.identical <==> SameRun(a, b))
  {
    if a.pipelineHash != b.pipelineHash {
      return Failure(PipelineMismatch(a.pipelineHash, b.pipelineHash));
    }
    var ma := ChannelMapLoop(a);
    var mb := ChannelMapLoop(b);
    var ids := Sort(ma.Keys + mb.Keys);
    var channels, anyChanged := CompareChannels(ma, mb, ids);
    UnchangedMeansSame(ma, mb, ids, channels);
    SameEverywhere(ma, mb);
    assert anyChanged <==> !NoneChanged(channels);
    return Success(RunDiff(a.status != b.status, a.validationValid != b.validationValid, channels,
                           a.status == b.status && a.validationValid == b.validationValid && !anyChanged));
  }

  /** The two maps hold the same result of `x`. */
  predicate SameAt(a: map<Id, ChannelResult>, b: map<Id, ChannelResult>, x: Id) {
    x in a && x in b && SameResult(a[x], b[x])
  }

  predicate NoneChanged(channels: seq<ChannelDiff>) {
    forall j :: 0 <= j < |channels| ==> !ChannelChanged(channels[j])
  }

  lemma {:induction false} UnchangedMeansSame(a: map<Id, ChannelResult>, b: map<Id, ChannelResult>, ids: seq<Id>,
      channels: seq<ChannelDiff>)
    requires ids == SortedKeys(a.Keys + b.Keys) && |channels| == |ids|
    requires forall j :: 0 <= j < |ids| ==> channels[j] == DiffAt(a, b, ids[j])
    ensures NoneChanged(channels) <==> forall x :: x in a.Keys + b.Keys ==> SameAt(a, b, x)
  {
    SortedIsSorted(a.Keys + b.Keys);
    forall j: nat | j < |ids| ensures !ChannelChanged(channels[j]) <==> SameAt(a, b, ids[j]) {
      SortedMember(a.Keys + b.Keys, ids[j]);
      ChannelUnchanged(a, b, ids[j]);
    }
    AllAlike(a, b, ids, channels);
  }

  lemma {:induction false} AllAlike(a: map<Id, ChannelResult>, b: map<Id, ChannelResult>, ids: seq<Id>,
      channels: seq<ChannelDiff>)
    requires |channels| == |ids| && Elements(ids) == a.Keys + b.Keys
    requires forall j: nat :: j < |ids| ==> (!ChannelChanged(channels[j]) <==> SameAt(a, b, ids[j]))
    ensures NoneChanged(channels) <==> forall x :: x in a.Keys + b.Keys ==> SameAt(a, b, x)
  {
    forall j: nat | j < |ids| ensures ids[j] in a.Keys + b.Keys {
      assert ids[j] in Elements(ids);
    }
    if NoneChanged(channels) {
      forall x | x in a.Keys + b.Keys ensures SameAt(a, b, x) {
        assert x in Elements(ids);
        var j :| 0 <= j < |ids| && ids[j] == x;
      }
    }
  }

  lemma {:induction false} SameEverywhere(a: map<Id, ChannelResult>, b: map<Id, ChannelResult>)
    ensures (forall x :: x in a.Keys + b.Keys ==> SameAt(a, b, x))
       <==> a.Keys == b.Keys && forall x :: x in a ==> SameResult(a[x], b[x])
  {
    if forall x :: x in a.Keys + b.Keys ==> SameAt(a, b, x) {
      forall x ensures x in a.Keys <==> x in b.Keys {
        assert x in a.Keys + b.Keys ==> SameAt(a, b, x);
      }
      forall x | x in a ensures SameResult(a[x], b[x]) {
        assert x in a.Keys + b.Keys;
      }
    }
  }

  /** Being identical is an equivalence between runs. */
  lemma {:induction false} SameRunIsEquivalence(a: RunRecord, b: RunRecord, c: RunRecord)
    ensures SameRun(a, a)
    ensures SameRun(a, b) ==> SameRun(b, a)
    ensures SameRun(a, b) && SameRun(b, c) ==> SameRun(a, c)
  {
    if SameRun(a, b) && SameRun(b, c) {
      forall x | x in ChannelMap(a) ensures SameResult(ChannelMap(a)[x], ChannelMap(c)[x]) {
        assert x in ChannelMap(b);
      }
    }
  }
}

/** The indexed store: the runs table and the tables projected from it. */
module SqliteStore {
  import opened Prelude
  import opened RunModel
  import opened RunStatus
  import opened RunRecord

  // ------------------------------------------------------------------- tables

  /** A row of a table that is keyed or indexed by run. */
  datatype Row<C> = Row(runId: Id, cols: C)

  datatype RunCols = RunCols(pipelineId: Id, status: FinalState, startedAt: string, completedAt: Option<string>,
      result: RunRecord)

  datatype ChannelCols = ChannelCols(
    channelId: Id,
    isSynthesis: bool,
    provider: string,
    model: Option<string>,
    status: Status,
    schemaValid: bool,
    rawOutputRef: Option<string>,
    parsedOutput: JsonValue)

  datatype ErrorCols = ErrorCols(channelId: Id, error: JsonValue)

  datatype UsageCols = UsageCols(channelId: Id, isSynthesis: bool, usage: Usage)

  datatype RawCols = RawCols(ref: string, raw: string)

  datatype Tables = Tables(
    runs: seq<Row<RunCols>>,
    channels: seq<Row<ChannelCols>>,
    errors: seq<Row<ErrorCols>>,
    usage: seq<Row<UsageCols>>,
    raws: seq<Row<RawCols>>)

  /** What the table holds of one run. */
  function Of<C>(table: seq<Row<C>>, id: Id): seq<C> {
    if table == [] then []
    else (if table[0].runId == id then [table[0].cols] else []) + Of(table[1..], id)
  }

  /** `DELETE FROM table WHERE run_id = id`. */
  function Delete<C>(table: seq<Row<C>>, id: Id): seq<Row<C>> {
    if table == [] then []
    else (if table[0].runId == id then [] else [table[0]]) + Delete(table[1..], id)
  }

  /** The rows of one run. */
  function Rows<C>(id: Id, cols: seq<C>): seq<Row<C>> {
    seq(|cols|, i requires 0 <= i < |cols| => Row(id, cols[i]))
  }

  /** Insert a row, or on conflict with a row of its run replace that one's columns. */
  function Upsert<C>(table: seq<Row<C>>, row: Row<C>): seq<Row<C>> {
    if table == [] then [row]
    else if table[0].runId == row.runId then [row] + table[1..]
    else [table[0]] + Upsert(table[1..], row)
  }

  /** The same for the raw outputs, which are keyed by run and reference. */
  function UpsertRaw(table: seq<Row<RawCols>>, row: Row<RawCols>): seq<Row<RawCols>> {
    if table == [] then [row]
    else if table[0].runId == row.runId && table[0].cols.ref == row.cols.ref then [row] + table[1..]
    else [table[0]] + UpsertRaw(table[1..], row)
  }

  function FindRaw(table: seq<Row<RawCols>>, id: Id, ref: string): Option<string> {
    if table == [] then None
    else if table[0].runId == id && table[0].cols.ref == ref then Some(table[0].cols.raw)
    else FindRaw(table[1..], id, ref)
  }

  lemma {:induction false} OfAppend<C>(t: seq<Row<C>>, u: seq<Row<C>>, id: Id)
    ensures Of(t + u, id) == Of(t, id) + Of(u, id)
  {
    if t == [] {
      assert t + u == u;
    } else {
      var first := if t[0].runId == id then [t[0].cols] else [];
      assert (t + u)[1..] == t[1..] + u;
      OfAppend(t[1..], u, id);
      assert Of(t + u, id) == first + (Of(t[1..], id) + Of(u, id));
      assert Of(t + u, id) == (first + Of(t[1..], id)) + Of(u, id);
    }
  }

  lemma {:induction false} OfDelete<C>(t: seq<Row<C>>, gone: Id, id: Id)
    ensures Of(Delete(t, gone), id) == if id == gone then [] else Of(t, id)
  {
    if t != [] {
      OfDelete(t[1..], gone, id);
      var rest := Delete(t[1..], gone);
      if t[0].runId == gone {
        assert [] + rest == rest;
      } else {
        assert ([t[0]] + rest)[1..] == rest;
      }
    }
  }

  lemma {:induction false} OfRows<C>(owner: Id, cols: seq<C>, id: Id)
    ensures Of(Rows(owner, cols), id) == if id == owner then cols else []
  {
    if cols != [] {
      OfRows(owner, cols[1..], id);
      assert Rows(owner, cols)[1..] == Rows(owner, cols[1..]);
    }
  }

  lemma {:induction false} OfUpsert<C>(t: seq<Row<C>>, row: Row<C>, id: Id)
    requires |Of(t, row.runId)| <= 1
    ensures Of(Upsert(t, row), id) == if id == row.runId then [row.cols] else Of(t, id)
  {
    if t != [] {
      if t[0].runId == row.runId {
        assert ([row] + t[1..])[1..] == t[1..];
        assert |Of(t, row.runId)| == 1 + |Of(t[1..], row.runId)|;
      } else {
        OfUpsert(t[1..], row, id);
        assert ([t[0]] + Upsert(t[1..], row))[1..] == Upsert(t[1..], row);
      }
    }
  }

  lemma {:induction false} FindUpserted(t: seq<Row<RawCols>>, row: Row<RawCols>, id: Id, ref: string)
    ensures FindRaw(UpsertRaw(t, row), id, ref) ==
            if id == row.runId && ref == row.cols.ref then Some(row.cols.raw) else FindRaw(t, id, ref)
  {
    if t != [] {
      FindUpserted(t[1..], row, id, ref);
    }
  }

  // --------------------------------------------------------------- projection

  /** The results of a run, the synthesis marked and last. */
  function Entries(r: RunRecord): seq<(ChannelResult, bool)> {
    seq(|r.channels|, i requires 0 <= i < |r.channels| => (r.channels[i], false))
    + (if r.synthesis.Some? then [(r.synthesis.value, true)] else [])
  }

  function ChannelColsOf(e: (ChannelResult, bool)): ChannelCols {
    ChannelCols(e.0.channelId, e.1, e.0.provider, e.0.model, e.0.status, e.0.schemaValid, e.0.rawOutputRef,
      e.0.parsedOutput)
  }

  function UsageColsOf(e: (ChannelResult, bool)): UsageCols {
    UsageCols(e.0.channelId, e.1, e.0.usage)
  }

  function ErrorColsOf(e: (ChannelResult, bool)): seq<ErrorCols> {
    seq(|e.0.validationErrors|,
      i requires 0 <= i < |e.0.validationErrors| => ErrorCols(e.0.channelId, e.0.validationErrors[i]))
  }

  function ProjectChannels(es: seq<(ChannelResult, bool)>): seq<ChannelCols> {
    seq(|es|, i requires 0 <= i < |es| => ChannelColsOf(es[i]))
  }

  function ProjectUsage(es: seq<(ChannelResult, bool)>): seq<UsageCols> {
    seq(|es|, i requires 0 <= i < |es| => UsageColsOf(es[i]))
  }

  function ProjectErrors(es: seq<(ChannelResult, bool)>): seq<ErrorCols> {
    Flatten(seq(|es|, i requires 0 <= i < |es| => ErrorColsOf(es[i])))
  }

  function RunColsOf(r: RunRecord): RunCols {
    RunCols(r.pipelineId, r.status, r.startedAt, r.completedAt, r)
  }

  /** The tables after a run was saved. */
  function Saved(t: Tables, r: RunRecord): Tables {
    t.(runs := Upsert(t.runs, Row(r.runId, RunColsOf(r))),
       channels := Delete(t.channels, r.runId) + Rows(r.runId, ProjectChannels(Entries(r))),
       errors := Delete(t.errors, r.runId) + Rows(r.runId, ProjectErrors(Entries(r))),
       usage := Delete(t.usage, r.runId) + Rows(r.runId, ProjectUsage(Entries(r))))
  }

  function RefOf(channelKey: string): string {
    "raw/" + SafeKey(channelKey) + ".txt"
  }

  // ------------------------------------------------------------------ history

  datatype Call = SaveRun(run: RunRecord) | SaveRawOutput(runId: Id, channelKey: string, raw: string)

  /** The last saved version of a run. */
  function Latest(log: seq<Call>, id: Id): Option<RunRecord> {
    if log == [] then None
    else
      var last := log[|log| - 1];
      if last.SaveRun? && last.run.runId == id then Some(last.run) else Latest(log[..|log| - 1], id)
  }

  /** The raw text last saved under a reference of a run. */
  function LatestRaw(log: seq<Call>, id: Id, ref: string): Option<string> {
    if log == [] then None
    else
      var last := log[|log| - 1];
      if last.SaveRawOutput? && last.runId == id && RefOf(last.channelKey) == ref then Some(last.raw)
      else LatestRaw(log[..|log| - 1], id, ref)
  }

  function EntriesOf(run: Option<RunRecord>): seq<(ChannelResult, bool)> {
    if run.Some? then Entries(run.value) else []
  }

  /** Of run `id` the tables hold its latest version and the projection of that, and nothing else. */
  ghost predicate ReflectsAt(t: Tables, log: seq<Call>, id: Id) {
    var run := Latest(log, id);
    && Of(t.runs, id) == (if run.Some? then [RunColsOf(run.value)] else [])
    && Of(t.channels, id) == ProjectChannels(EntriesOf(run))
    && Of(t.errors, id) == ProjectErrors(EntriesOf(run))
    && Of(t.usage, id) == ProjectUsage(EntriesOf(run))
  }

  ghost predicate Reflects(t: Tables, log: seq<Call>) {
    && (forall id :: ReflectsAt(t, log, id))
    && (forall id, ref :: FindRaw(t.raws, id, ref) == LatestRaw(log, id, ref))
  }

  lemma {:induction false} SavedReflectsAt(t: Tables, log: seq<Call>, r: RunRecord, id: Id)
    requires ReflectsAt(t, log, r.runId) && ReflectsAt(t, log, id)
    ensures ReflectsAt(Saved(t, r), log + [SaveRun(r)], id)
  {
    var es := Entries(r);
    LatestAfterSave(log, r, id);
    OfUpsert(t.runs, Row(r.runId, RunColsOf(r)), id);
    OfReplaced(t.channels, r.runId, ProjectChannels(es), id);
    OfReplaced(t.errors, r.runId, ProjectErrors(es), id);
    OfReplaced(t.usage, r.runId, ProjectUsage(es), id);
  }

  lemma {:induction false} LatestAfterSave(log: seq<Call>, r: RunRecord, id: Id)
    ensures Latest(log + [SaveRun(r)], id) == if id == r.runId then Some(r) else Latest(log, id)
  {
    assert (log + [SaveRun(r)])[..|log|] == log;
  }

  lemma {:induction false} OfReplaced<C>(t: seq<Row<C>>, owner: Id, cols: seq<C>, id: Id)
    ensures Of(Delete(t, owner) + Rows(owner, cols), id) == if id == owner then cols else Of(t, id)
  {
    OfAppend(Delete(t, owner), Rows(owner, cols), id);
    OfDelete(t, owner, id);
    OfRows(owner, cols, id);
  }

  /** Saving a run, for the first time or again, keeps the tables to the history of calls. */
  lemma {:induction false} SaveRunKeepsReflecting(t: Tables, log: seq<Call>, r: RunRecord)
    requires Reflects(t, log)
    ensures Reflects(Saved(t, r), log + [SaveRun(r)])
  {
    assert (log + [SaveRun(r)])[..|log|] == log;
    forall id ensures ReflectsAt(Saved(t, r), log + [SaveRun(r)], id) {
      assert ReflectsAt(t, log, r.runId) && ReflectsAt(t, log, id);
      SavedReflectsAt(t, log, r, id);
    }
  }

  lemma {:induction false} SaveRawKeepsReflecting(t: Tables, log: seq<Call>, id: Id, key: string, raw: string)
    requires Reflects(t, log)
    ensures Reflects(t.(raws := UpsertRaw(t.raws, Row(id, RawCols(RefOf(key), raw)))),
      log + [SaveRawOutput(id, key, raw)])
  {
    var call := SaveRawOutput(id, key, raw);
    var after := t.(raws := UpsertRaw(t.raws, Row(id, RawCols(RefOf(key), raw))));
    assert (log + [call])[..|log|] == log;
    forall x ensures ReflectsAt(after, log + [call], x) {
      assert ReflectsAt(t, log, x);
    }
    forall x, ref ensures FindRaw(after.raws, x, ref) == LatestRaw(log + [call], x, ref) {
      FindUpserted(t.raws, Row(id, RawCols(RefOf(key), raw)), x, ref);
    }
  }

  /** What was saved stays the latest version until the run is saved again. */
  lemma {:induction false} LastSaveWins(before: seq<Call>, r: RunRecord, after: seq<Call>)
    requires forall c :: c in after && c.SaveRun? ==> c.run.runId != r.runId
    ensures Latest(before + [SaveRun(r)] + after, r.runId) == Some(r)
  {
    var log := before + [SaveRun(r)] + after;
    if after == [] {
      assert log[|log| - 1] == SaveRun(r);
    } else {
      var n := |after| - 1;
      assert log[..|log| - 1] == before + [SaveRun(r)] + after[..n];
      assert log[|log| - 1] == after[n] && after[n] in after;
      LastSaveWins(before, r, after[..n]);
    }
  }

  /** A raw output is kept until one is saved for the same run under a key with the same sanitised form. */
  lemma {:induction false} LastRawWins(before: seq<Call>, id: Id, key: string, raw: string, after: seq<Call>)
    requires forall c :: c in after && c.SaveRawOutput? ==> c.runId != id || SafeKey(c.channelKey) != SafeKey(key)
    ensures LatestRaw(before + [SaveRawOutput(id, key, raw)] + after, id, RefOf(key)) == Some(raw)
  {
    var call := SaveRawOutput(id, key, raw);
    var log := before + [call] + after;
    if after == [] {
      assert log[|log| - 1] == call;
    } else {
      var n := |after| - 1;
      assert log[..|log| - 1] == before + [call] + after[..n];
      assert log[|log| - 1] == after[n] && after[n] in after;
      LastRawWins(before, id, key, raw, after[..n]);
      if after[n].SaveRawOutput? && RefOf(after[n].channelKey) == RefOf(key) {
        RefIsInjective(SafeKey(after[n].channelKey), SafeKey(key));
      }
    }
  }

  lemma {:induction false} RefIsInjective(a: string, b: string)
    requires "raw/" + a + ".txt" == "raw/" + b + ".txt"
    ensures a == b
  {
    var s, t := "raw/" + a + ".txt", "raw/" + b + ".txt";
    assert |s| == |a| + 8 && |t| == |b| + 8;
    assert a == s[4..|s| - 4] && b == t[4..|t| - 4];
  }

  // ------------------------------------------------------------------ queries

  datatype RunFilter = RunFilter(
    pipelineId: Option<Id>,
    status: Option<FinalState>,
    startedAfter: Option<string>,
    startedBefore: Option<string>)

  const NO_FILTER := RunFilter(None, None, None, None)

  /** Text order in the database: by code point, which is the order of the UTF-8 bytes. */
  predicate NotAfter(a: string, b: string) {
    a == "" || (b != "" && (a[0] < b[0] || (a[0] == b[0] && NotAfter(a[1..], b[1..]))))
  }

  lemma {:induction false} NotAfterTotal(a: string, b: string)
    ensures NotAfter(a, b) || NotAfter(b, a)
  {
    if a != "" && b != "" && a[0] == b[0] {
      NotAfterTotal(a[1..], b[1..]);
    }
  }

  lemma {:induction false} NotAfterTransitive(a: string, b: string, c: string)
    requires NotAfter(a, b) && NotAfter(b, c)
    ensures NotAfter(a, c)
  {
    if a != "" && a[0] == b[0] && b[0] == c[0] {
      NotAfterTransitive(a[1..], b[1..], c[1..]);
    }
  }

  /** The filter on a run itself. */
  predicate Matches(f: RunFilter, r: RunRecord) {
    && (f.pipelineId.Some? ==> r.pipelineId == f.pipelineId.value)
    && (f.status.Some? ==> r.status == f.status.value)
    && (f.startedAfter.Some? ==> NotAfter(f.startedAfter.value, r.startedAt))
    && (f.startedBefore.Some? ==> NotAfter(r.startedAt, f.startedBefore.value))
  }

  /** The `WHERE` clause, on the columns of the runs table. */
  predicate Where(f: RunFilter, c: RunCols) {
    && (f.pipelineId.Some? ==> c.pipelineId == f.pipelineId.value)
    && (f.status.Some? ==> c.status == f.status.value)
    && (f.startedAfter.Some? ==> NotAfter(f.startedAfter.value, c.startedAt))
    && (f.startedBefore.Some? ==> NotAfter(c.startedAt, f.startedBefore.value))
  }

  function Selected(table: seq<Row<RunCols>>, f: RunFilter): seq<Row<RunCols>> {
    if table == [] then []
    else (if Where(f, table[0].cols) then [table[0]] else []) + Selected(table[1..], f)
  }

  /** `ORDER BY started_at DESC`; the order among equal times is not promised. */
  function Ordered(rows: seq<Row<RunCols>>): seq<Row<RunCols>> {
    if rows == [] then [] else Placed(rows[0], Ordered(rows[1..]))
  }

  function Placed(row: Row<RunCols>, rows: seq<Row<RunCols>>): seq<Row<RunCols>> {
    if rows == [] then [row]
    else if NotAfter(rows[0].cols.startedAt, row.cols.startedAt) then [row] + rows
    else [rows[0]] + Placed(row, rows[1..])
  }

  ghost predicate NewestFirst(rows: seq<Row<RunCols>>) {
    forall i, j :: 0 <= i < j < |rows| ==> NotAfter(rows[j].cols.startedAt, rows[i].cols.startedAt)
  }

  lemma {:induction false} PlacedMembers(row: Row<RunCols>, rows: seq<Row<RunCols>>)
    ensures multiset(Placed(row, rows)) == multiset{row} + multiset(rows)
  {
    if rows != [] {
      assert rows == [rows[0]] + rows[1..];
      if !NotAfter(rows[0].cols.startedAt, row.cols.startedAt) {
        PlacedMembers(row, rows[1..]);
      }
    }
  }

  ghost predicate NoneNewer(rows: seq<Row<RunCols>>, time: string) {
    forall row :: row in rows ==> NotAfter(row.cols.startedAt, time)
  }

  lemma {:induction false} FirstIsNewest(rows: seq<Row<RunCols>>)
    requires rows != [] && NewestFirst(rows)
    ensures NoneNewer(rows, rows[0].cols.startedAt) && NewestFirst(rows[1..])
  {
    NotAfterReflexive(rows[0].cols.startedAt);
  }

  lemma {:induction false} PutFirst(row: Row<RunCols>, rows: seq<Row<RunCols>>)
    requires NewestFirst(rows) && NoneNewer(rows, row.cols.startedAt)
    ensures NewestFirst([row] + rows)
  {
    var all := [row] + rows;
    forall i, j | 0 <= i < j < |all| ensures NotAfter(all[j].cols.startedAt, all[i].cols.startedAt) {
      assert all[j] == rows[j - 1] && rows[j - 1] in rows;
    }
  }

  lemma {:induction false} PlacedNewestFirst(row: Row<RunCols>, rows: seq<Row<RunCols>>)
    requires NewestFirst(rows)
    ensures NewestFirst(Placed(row, rows))
  {
    if rows != [] {
      var first := rows[0];
      FirstIsNewest(rows);
      if NotAfter(first.cols.startedAt, row.cols.startedAt) {
        forall r | r in rows ensures NotAfter(r.cols.startedAt, row.cols.startedAt) {
          NotAfterTransitive(r.cols.startedAt, first.cols.startedAt, row.cols.startedAt);
        }
        PutFirst(row, rows);
      } else {
        NotAfterTotal(first.cols.startedAt, row.cols.startedAt);
        PlacedNewestFirst(row, rows[1..]);
        PlacedMembers(row, rows[1..]);
        forall r | r in Placed(row, rows[1..]) ensures NotAfter(r.cols.startedAt, first.cols.startedAt) {
          assert r in multiset(Placed(row, rows[1..]));
          assert r == row || r in rows[1..];
        }
        PutFirst(first, Placed(row, rows[1..]));
      }
    }
  }

  lemma {:induction false} NotAfterReflexive(a: string)
    ensures NotAfter(a, a)
  {
    NotAfterTotal(a, a);
  }

  lemma {:induction false} OrderedNewestFirst(rows: seq<Row<RunCols>>)
    ensures NewestFirst(Ordered(rows)) && multiset(Ordered(rows)) == multiset(rows)
  {
    if rows != [] {
      OrderedNewestFirst(rows[1..]);
      PlacedNewestFirst(rows[0], Ordered(rows[1..]));
      PlacedMembers(rows[0], Ordered(rows[1..]));
      assert rows == [rows[0]] + rows[1..];
    }
  }

  function Ids(rows: seq<Row<RunCols>>): seq<Id> {
    if rows == [] then [] else [rows[0].runId] + Ids(rows[1..])
  }

  lemma {:induction false} IdsAt(rows: seq<Row<RunCols>>)
    ensures |Ids(rows)| == |rows|
    ensures forall i :: 0 <= i < |rows| ==> Ids(rows)[i] == rows[i].runId
  {
    if rows != [] {
      IdsAt(rows[1..]);
    }
  }

  lemma {:induction false} PlacedIds(row: Row<RunCols>, rows: seq<Row<RunCols>>)
    ensures multiset(Ids(Placed(row, rows))) == multiset{row.runId} + multiset(Ids(rows))
  {
    if rows != [] {
      if NotAfter(rows[0].cols.startedAt, row.cols.startedAt) {
        assert ([row] + rows)[1..] == rows;
      } else {
        PlacedIds(row, rows[1..]);
        assert ([rows[0]] + Placed(row, rows[1..]))[1..] == Placed(row, rows[1..]);
      }
    }
  }

  lemma {:induction false} OrderedIds(rows: seq<Row<RunCols>>)
    ensures multiset(Ids(Ordered(rows))) == multiset(Ids(rows))
  {
    if rows != [] {
      OrderedIds(rows[1..]);
      PlacedIds(rows[0], Ordered(rows[1..]));
    }
  }

  lemma {:induction false} SelectedCount(table: seq<Row<RunCols>>, f: RunFilter, id: Id)
    requires |Of(table, id)| <= 1
    ensures multiset(Ids(Selected(table, f)))[id] == if |Of(table, id)| == 1 && Where(f, Of(table, id)[0]) then 1 else 0
  {
    if table != [] {
      var row, rest := table[0], Selected(table[1..], f);
      SelectedCount(table[1..], f, id);
      if Where(f, row.cols) {
        assert ([row] + rest)[1..] == rest;
        assert Ids([row] + rest) == [row.runId] + Ids(rest);
      } else {
        assert [] + rest == rest;
      }
    }
  }

  lemma {:induction false} SelectedMember(table: seq<Row<RunCols>>, f: RunFilter, row: Row<RunCols>)
    requires row in Selected(table, f)
    ensures row.cols in Of(table, row.runId)
  {
    if row == table[0] {
    } else {
      SelectedMember(table[1..], f, row);
    }
  }

  ghost function StartedAt(log: seq<Call>, id: Id): string {
    var run := Latest(log, id);
    if run.Some? then run.value.startedAt else ""
  }

  /** `id` is listed once if its latest version passes the filter, and not otherwise. */
  ghost predicate ListedRight(log: seq<Call>, f: RunFilter, ids: seq<Id>, id: Id) {
    var run := Latest(log, id);
    multiset(ids)[id] == if run.Some? && Matches(f, run.value) then 1 else 0
  }

  /** The latest versions of the runs that pass the filter, newest first. */
  ghost predicate Listing(log: seq<Call>, f: RunFilter, ids: seq<Id>) {
    && (forall id :: ListedRight(log, f, ids, id))
    && (forall i, j :: 0 <= i < j < |ids| ==> NotAfter(StartedAt(log, ids[j]), StartedAt(log, ids[i])))
  }

  /** The query on the runs table answers for the history of calls. */
  lemma {:induction false} QueryListsTheLatest(t: Tables, log: seq<Call>, f: RunFilter)
    requires Reflects(t, log)
    ensures Listing(log, f, Ids(Ordered(Selected(t.runs, f))))
  {
    var selected := Selected(t.runs, f);
    var rows := Ordered(selected);
    OrderedIds(selected);
    OrderedNewestFirst(selected);
    IdsAt(rows);
    forall id ensures ListedRight(log, f, Ids(rows), id) {
      assert ReflectsAt(t, log, id);
      SelectedOnce(t, log, f, id);
    }
    forall i: nat | i < |rows| ensures rows[i].cols.startedAt == StartedAt(log, rows[i].runId) {
      assert rows[i] in multiset(rows);
      assert ReflectsAt(t, log, rows[i].runId);
      SelectedStartedAt(t, log, f, rows[i]);
    }
  }

  lemma {:induction false} SelectedOnce(t: Tables, log: seq<Call>, f: RunFilter, id: Id)
    requires ReflectsAt(t, log, id)
    ensures ListedRight(log, f, Ids(Selected(t.runs, f)), id)
  {
    SelectedCount(t.runs, f, id);
  }

  lemma {:induction false} SelectedStartedAt(t: Tables, log: seq<Call>, f: RunFilter, row: Row<RunCols>)
    requires row in Selected(t.runs, f) && ReflectsAt(t, log, row.runId)
    ensures row.cols.startedAt == StartedAt(log, row.runId)
  {
    SelectedMember(t.runs, f, row);
  }

  // -------------------------------------------------------------------- store

  class SqliteResultStore {
    var runs: seq<Row<RunCols>>
    var channels: seq<Row<ChannelCols>>
    var errors: seq<Row<ErrorCols>>
    var usage: seq<Row<UsageCols>>
    var raws: seq<Row<RawCols>>
    ghost var log: seq<Call>

    ghost function View(): Tables
      reads this
    {
      Tables(runs, channels, errors, usage, raws)
    }

    ghost predicate Valid()
      reads this
    {
      Reflects(View(), log)
    }

    constructor ()
      ensures Valid() && log == []
    {
      runs, channels, errors, usage, raws := [], [], [], [], [];
      log := [];
    }

    /** Insert or update the run, then delete and re-insert what is projected from it. */
    method SaveRun(r: RunRecord)
      requires Valid()
      modifies this
      ensures View() == Saved(old(View()), r)
      ensures Valid() && log == old(log) + [Call.SaveRun(r)]
    {
      SaveRunKeepsReflecting(View(), log, r);
      runs := Upsert(runs, Row(r.runId, RunCols(r.pipelineId, r.status, r.startedAt, r.completedAt, r)));
      Project(r);
      log := log + [Call.SaveRun(r)];
    }

    method Project(r: RunRecord)
      modifies this`channels, this`errors, this`usage
      ensures channels == Delete(old(channels), r.runId) + Rows(r.runId, ProjectChannels(Entries(r)))
      ensures errors == Delete(old(errors), r.runId) + Rows(r.runId, ProjectErrors(Entries(r)))
      ensures usage == Delete(old(usage), r.runId) + Rows(r.runId, ProjectUsage(Entries(r)))
    {
      var id := r.runId;
      channels := Delete(channels, id);
      errors := Delete(errors, id);
      usage := Delete(usage, id);
      ghost var es, base := Entries(r), View();
      for i := 0 to |r.channels|
        invariant Projected(base, id, es[..i])
      {
        assert es[..i + 1] == es[..i] + [(r.channels[i], false)];
        InsertEntry(id, r.channels[i], false, base, es[..i]);
      }
      if r.synthesis.Some? {
        assert es == es[..|r.channels|] + [(r.synthesis.value, true)];
        InsertEntry(id, r.synthesis.value, true, base, es[..|r.channels|]);
      } else {
        assert es == es[..|r.channels|];
      }
    }

    /** The projected tables are those of `base` with the rows of `es` appended. */
    ghost predicate Projected(base: Tables, id: Id, es: seq<(ChannelResult, bool)>)
      reads this
    {
      && channels == base.channels + Rows(id, ProjectChannels(es))
      && errors == base.errors + Rows(id, ProjectErrors(es))
      && usage == base.usage + Rows(id, ProjectUsage(es))
    }

    method InsertEntry(id: Id, c: ChannelResult, isSynthesis: bool, ghost base: Tables,
        ghost es: seq<(ChannelResult, bool)>)
      requires Projected(base, id, es)
      modifies this`channels, this`errors, this`usage
      ensures Projected(base, id, es + [(c, isSynthesis)])
    {
      ProjectionStep(id, es, (c, isSynthesis));
      InsertChannel(id, c, isSynthesis);
      InsertErrors(id, c, isSynthesis);
      InsertUsage(id, c, isSynthesis);
    }

    method InsertChannel(id: Id, c: ChannelResult, isSynthesis: bool)
      modifies this`channels
      ensures channels == old(channels) + [Row(id, ChannelColsOf((c, isSynthesis)))]
    {
      var row := ChannelCols(c.channelId, isSynthesis, c.provider, c.model, c.status, c.schemaValid, c.rawOutputRef,
        c.parsedOutput);
      channels := channels + [Row(id, row)];
    }

    method InsertErrors(id: Id, c: ChannelResult, isSynthesis: bool)
      modifies this`errors
      ensures errors == old(errors) + Rows(id, ErrorColsOf((c, isSynthesis)))
    {
      for j := 0 to |c.validationErrors|
        invariant errors == old(errors) + Rows(id, ErrorColsOf((c, isSynthesis)))[..j]
      {
        errors := errors + [Row(id, ErrorCols(c.channelId, c.validationErrors[j]))];
      }
    }

    method InsertUsage(id: Id, c: ChannelResult, isSynthesis: bool)
      modifies this`usage
      ensures usage == old(usage) + [Row(id, UsageColsOf((c, isSynthesis)))]
    {
      usage := usage + [Row(id, UsageCols(c.channelId, isSynthesis, c.usage))];
    }

    method GetRun(id: Id) returns (r: Option<RunRecord>)
      requires Valid()
      ensures r == Latest(log, id)
    {
      assert ReflectsAt(View(), log, id);
      var rows := Of(runs, id);
      r := if rows == [] then None else Some(rows[0].result);
    }

    /** Save a raw output under the sanitised key. */
    method SaveRawOutput(id: Id, channelKey: string, raw: string) returns (ref: string)
      requires Valid()
      modifies this`raws, this`log
      ensures ref == RefOf(channelKey)
      ensures Valid() && log == old(log) + [Call.SaveRawOutput(id, channelKey, raw)]
    {
      SaveRawKeepsReflecting(View(), log, id, channelKey, raw);
      ref := "raw/" + SafeKey(channelKey) + ".txt";
      raws := UpsertRaw(raws, Row(id, RawCols(ref, raw)));
      log := log + [Call.SaveRawOutput(id, channelKey, raw)];
    }

    method GetRawOutput(id: Id, ref: string) returns (raw: Option<string>)
      requires Valid()
      ensures raw == LatestRaw(log, id, ref)
    {
      raw := FindRaw(raws, id, ref);
    }

    method ListRunsFiltered(f: RunFilter) returns (ids: seq<Id>)
      requires Valid()
      ensures Listing(log, f, ids)
    {
      QueryListsTheLatest(View(), log, f);
      ids := Ids(Ordered(Selected(runs, f)));
    }

    method ListRuns() returns (ids: seq<Id>)
      requires Valid()
      ensures Listing(log, NO_FILTER, ids)
    {
      QueryListsTheLatest(View(), log, NO_FILTER);
      NoFilterSelectsAll(runs);
      ids := Ids(Ordered(runs));
    }
  }

  lemma {:induction false} NoFilterSelectsAll(table: seq<Row<RunCols>>)
    ensures Selected(table, NO_FILTER) == table
  {
    if table != [] {
      NoFilterSelectsAll(table[1..]);
    }
  }

  lemma {:induction false} ProjectionStep(id: Id, es: seq<(ChannelResult, bool)>, e: (ChannelResult, bool))
    ensures Rows(id, ProjectChannels(es + [e])) == Rows(id, ProjectChannels(es)) + [Row(id, ChannelColsOf(e))]
    ensures Rows(id, ProjectUsage(es + [e])) == Rows(id, ProjectUsage(es)) + [Row(id, UsageColsOf(e))]
    ensures Rows(id, ProjectErrors(es + [e])) == Rows(id, ProjectErrors(es)) + Rows(id, ErrorColsOf(e))
  {
    assert ProjectChannels(es + [e]) == ProjectChannels(es) + [ChannelColsOf(e)];
    assert ProjectUsage(es + [e]) == ProjectUsage(es) + [UsageColsOf(e)];
    ErrorsStep(es, e);
  }

  lemma {:induction false} ErrorsStep(es: seq<(ChannelResult, bool)>, e: (ChannelResult, bool))
    ensures ProjectErrors(es + [e]) == ProjectErrors(es) + ErrorColsOf(e)
  {
    var lists := seq(|es|, i requires 0 <= i < |es| => ErrorColsOf(es[i]));
    assert seq(|es + [e]|, i requires 0 <= i < |es + [e]| => ErrorColsOf((es + [e])[i])) == lists + [ErrorColsOf(e)];
    FlattenSnoc(lists, ErrorColsOf(e));
  }
}

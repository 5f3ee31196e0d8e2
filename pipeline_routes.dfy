/**
 * The pipeline routes: the `/run` idea guard, the `/cancel` guard and
 * update, the `/logs` cursor, and the `/status` view with its per-stage
 * summary (`computeStages`).
 */
module PipelineRoutes {
  import opened Wrappers
  import opened Strings
  import opened Json
  import opened Database
  import opened StoredJson
  import Orchestrator

  // ---------------------------------------------------------------------
  // POST /run

  const InvalidIdea := "Provide an \"idea\" string with at least 10 characters describing the app you want to build."

  /**
   * The `/run` guard on `req.body.idea` (None when the property is absent):
   * a string whose trimmed text is at least 10 UTF-16 units long is passed
   * on trimmed; anything else gets the 400 reply's message.
   */
  function CheckIdea(idea: Option<Json>): (r: Result<string>)
    ensures r.Err? ==> r.error == InvalidIdea
  {
    if idea.Some? && Truthy(idea.value) && idea.value.JStr? && Utf16Length(Trim(idea.value.s)) >= 10
    then Ok(Trim(idea.value.s))
    else Err(InvalidIdea)
  }

  /**
   * Only strings get through, and what gets through is the trimmed text: it
   * has no surrounding whitespace, is at least 10 units long, and the guard
   * passes it on unchanged a second time.
   */
  lemma IdeaAccepted(idea: Option<Json>)
    ensures CheckIdea(idea).Ok? ==> idea.Some? && idea.value.JStr? && CheckIdea(idea).value == Trim(idea.value.s)
    ensures CheckIdea(idea).Ok? ==>
      var t := CheckIdea(idea).value;
      && t != [] && !IsSpace(t[0]) && !IsSpace(t[|t| - 1])
      && Utf16Length(t) >= 10
      && CheckIdea(Some(JStr(t))) == Ok(t)
  {
    if CheckIdea(idea).Ok? {
      var t := Trim(idea.value.s);
      assert CheckIdea(idea) == Ok(t);
      assert Utf16Length([]) == 0;
      assert t != [];
      assert Trim(t) == t;
      IdeaOfText(t);
    }
  }

  /** Whitespace around an idea changes neither the verdict nor the idea passed on. */
  lemma IdeaPadding(a: string, s: string, b: string)
    requires AllSpaces(a) && AllSpaces(b)
    ensures CheckIdea(Some(JStr(a + s + b))) == CheckIdea(Some(JStr(s)))
  {
    TrimPadded(a, s, b);
    IdeaOfText(a + s + b);
    IdeaOfText(s);
  }

  /** For a string, only its trimmed text matters. */
  lemma IdeaOfText(x: string)
    ensures CheckIdea(Some(JStr(x))) == if Utf16Length(Trim(x)) >= 10 then Ok(Trim(x)) else Err(InvalidIdea)
  {
    if x == [] {
      assert Trim(x) == [];
    }
  }

  // ---------------------------------------------------------------------
  // POST /cancel/:id

  /** The statuses `/cancel` refuses to leave. */
  const Terminal: seq<string> := ["completed", "completed_with_warnings", "failed"]

  /** The cancel route's answers: 404, 400, `{status: 'cancelled'}`, or a 500 for a statement that throws. */
  datatype CancelReply = NoProject | Refused(message: string) | Cancelled | ServerError(message: string)

  /** The 400 message for a stored status the route refuses to cancel, or None. */
  function CancelRefusal(status: Cell): (r: Option<string>)
    ensures r.Some? ==> status.TextCell? && status.text in Terminal
  {
    if status.TextCell? && status.text in Terminal
    then Some("Cannot cancel project in \"" + status.text + "\" state")
    else None
  }

  /** The row after an accepted cancel: status, error and `updated_at` change, nothing else. */
  function CancelledRow(row: Row, now: string): (r: Row)
    ensures r.Keys == row.Keys + {Status, Error, UpdatedAt}
    ensures r[Status] == TextCell("cancelled") && r[Error] == TextCell("Cancelled by user")
    ensures r[UpdatedAt] == TextCell(now)
    ensures forall c :: c in row && c !in {Status, Error, UpdatedAt} ==> r[c] == row[c]
  {
    row[Status := TextCell("cancelled")][Error := TextCell("Cancelled by user")][UpdatedAt := TextCell(now)]
  }

  /** The fields `/cancel` writes, as an `updateProject` call would name them. */
  function CancelFields(): map<Column, Json> {
    map[Status := JStr("cancelled"), Error := JStr("Cancelled by user")]
  }

  lemma CancelIsUpdate(row: Row, now: string)
    ensures AllBindable(CancelFields())
    ensures Apply(row, CancelFields(), now) == CancelledRow(row, now)
  {
    var f := CancelFields();
    var status, error := TextCell("cancelled"), TextCell("Cancelled by user");
    assert f.Keys == {Status, Error};
    assert StoredCells(f) == map[Status := status, Error := error];
    var once := row + map[Status := status, Error := error];
    assert once == row[Status := status][Error := error];
    assert once + map[UpdatedAt := TextCell(now)] == once[UpdatedAt := TextCell(now)];
  }

  /**
   * `/cancel` corrected to `datetime('now')`: 404 for an unknown project,
   * 400 for a finished or failed one, and otherwise the project is marked
   * cancelled; any other status, `cancelled` included, is accepted.
   */
  method Cancel(store: Store, id: string) returns (r: CancelReply)
    requires store.Valid()
    modifies store`projects
    ensures store.Valid()
    ensures id !in old(store.projects) ==> r == NoProject && store.projects == old(store.projects)
    ensures id in old(store.projects) && CancelRefusal(old(store.projects)[id][Status]).Some? ==>
      r == Refused(CancelRefusal(old(store.projects)[id][Status]).value) && store.projects == old(store.projects)
    ensures id in old(store.projects) && CancelRefusal(old(store.projects)[id][Status]).None? ==>
      r == Cancelled && store.projects == old(store.projects)[id := CancelledRow(old(store.projects)[id], store.clock)]
  {
    if id !in store.projects {
      return NoProject;
    }
    var refusal := CancelRefusal(store.projects[id][Status]);
    if refusal.Some? {
      return Refused(refusal.value);
    }
    CancelIsUpdate(store.projects[id], store.clock);
    store.UpdateProject(id, CancelFields());
    r := Cancelled;
  }

  /**
   * The route as written: its UPDATE spells `datetime("now")` with double
   * quotes, which SQLite, built without double-quoted string literals as
   * better-sqlite3 builds it, reads as a column name; preparing the
   * statement throws, the route answers 500, and no row changes (the store
   * is not an argument: nothing is written).
   */
  function CancelAsWritten(project: Option<Row>): (r: CancelReply)
    requires project.Some? ==> Status in project.value
    ensures project.None? <==> r == NoProject
    ensures project.Some? && CancelRefusal(project.value[Status]).Some? ==>
      r == Refused(CancelRefusal(project.value[Status]).value)
    ensures r != Cancelled
  {
    if project.None? then NoProject
    else if CancelRefusal(project.value[Status]).Some? then Refused(CancelRefusal(project.value[Status]).value)
    else ServerError("no such column: now")
  }

  /**
   * As written, a running project cannot be cancelled: the route fails and
   * the row keeps its status, while the corrected route marks it cancelled.
   */
  lemma RunningNeverCancelled(row: Row, now: string)
    requires Status in row && row[Status] == TextCell("running")
    ensures CancelAsWritten(Some(row)) == ServerError("no such column: now")
    ensures CancelledRow(row, now)[Status] == TextCell("cancelled")
  {
    assert "running" !in Terminal;
  }

  /**
   * Cancelling is idempotent: a cancelled project can be cancelled again,
   * to the same row. A running or pending one can be cancelled too.
   */
  lemma CancelAgain(row: Row, now: string)
    requires Status in row
    ensures CancelRefusal(CancelledRow(row, now)[Status]).None?
    ensures CancelledRow(CancelledRow(row, now), now) == CancelledRow(row, now)
    ensures CancelRefusal(TextCell("running")).None? && CancelRefusal(TextCell("pending")).None?
  {
    assert "cancelled" !in Terminal;
    assert "running" !in Terminal && "pending" !in Terminal;
  }

  /**
   * The run never reads the status: its final update, which names the
   * status, replaces a `cancelled` set in the meantime.
   */
  lemma CancelOverwritten(row: Row, now: string, fields: map<Column, Json>, later: string)
    requires AllBindable(fields) && Status in fields && fields[Status].JStr?
    ensures Apply(CancelledRow(row, now), fields, later)[Status] == TextCell(fields[Status].s)
  {
  }

  // ---------------------------------------------------------------------
  // GET /logs/:id

  /** `parseInt(req.query.after || '0', 10)`: an absent or empty cursor is 0; None is NaN. */
  function Cursor(after: Option<string>): (r: Option<int>)
    ensures after.None? || after == Some("") ==> r == Some(0)
  {
    // The fallback '0' parses to 0.
    if after.None? || after.value == "" then Some(0) else ParseInt(after.value)
  }

  /** A client that sends back the last id it saw, in decimal, resumes after exactly that id. */
  lemma CursorRoundTrip(n: nat)
    ensures Cursor(Some(NatToString(n))) == Some(n)
  {
    ParseIntRoundTrip(n);
  }

  /**
   * `/logs`: None (404) for an unknown project; otherwise exactly its rows
   * with an id above the cursor, in ascending id order. A NaN cursor is bound
   * as NULL, and `id > NULL` keeps no row.
   */
  function LogsAfter(store: Store, id: string, after: Option<string>): (r: Option<seq<LogEntry>>)
    reads store
    requires store.Valid()
    ensures r.None? <==> id !in store.projects
    ensures r.Some? ==> Increasing(r.value)
    ensures r.Some? ==> forall e :: e in r.value <==>
      e in store.logs && e.projectId == id && Cursor(after).Some? && e.id > Cursor(after).value
  {
    if id !in store.projects then None
    else match Cursor(after)
      case None => Some([])
      case Some(n) => Some(Select(store.logs, OfProjectAfter(id, n)))
  }

  /** Without a cursor the route returns every log of the project. */
  lemma LogsFromStart(store: Store, id: string)
    requires store.Valid() && id in store.projects
    ensures LogsAfter(store, id, None) == Some(Select(store.logs, OfProject(id)))
  {
    SelectFromZero(store.logs, id);
  }

  lemma {:induction false} SelectFromZero(logs: seq<LogEntry>, id: string)
    requires forall i :: 0 <= i < |logs| ==> logs[i].id > 0
    ensures Select(logs, OfProjectAfter(id, 0)) == Select(logs, OfProject(id))
  {
    if logs != [] {
      SelectFromZero(logs[1..], id);
    }
  }

  // ---------------------------------------------------------------------
  // GET /status/:id

  /** The summary keys, in the order the response lists them. */
  const StageOrder: seq<string> := ["planning", "building", "testing", "retrying", "github", "deploy", "completed"]

  const StageKeys: set<string> := set k | k in StageOrder

  /** One stage of the summary; a message of None is null. */
  datatype StageState = StageState(status: string, message: Option<string>)

  const Pending := StageState("pending", None)

  /** The status and message of the last log of `stage`, or pending with no message. */
  function LastLogOf(logs: seq<LogEntry>, stage: string): (r: StageState)
    ensures r.message.None? <==> forall i :: 0 <= i < |logs| ==> logs[i].stage != stage
    ensures r.message.None? ==> r == Pending
    ensures r.message.Some? ==>
      exists i :: && 0 <= i < |logs| && logs[i].stage == stage
                  && r == StageState(logs[i].status, Some(logs[i].message))
                  && (forall j :: i < j < |logs| ==> logs[j].stage != stage)
  {
    if logs == [] then Pending
    else
      var last := logs[|logs| - 1];
      if last.stage == stage then StageState(last.status, Some(last.message))
      else
        var r := LastLogOf(logs[..|logs| - 1], stage);
        assert forall i :: 0 <= i < |logs| - 1 ==> logs[..|logs| - 1][i] == logs[i];
        r
  }

  /** One entry of `computeStages`: its last log, with pending turned to skipped when the project failed. */
  function StageSummary(currentStatus: Cell, logs: seq<LogEntry>, stage: string): StageState {
    if currentStatus == TextCell("failed") then Skipped(LastLogOf(logs, stage)) else LastLogOf(logs, stage)
  }

  /**
   * `computeStages`: exactly the seven stage keys, each summarising its own
   * logs; logs of other stages are ignored.
   */
  method ComputeStages(currentStatus: Cell, logs: seq<LogEntry>) returns (stages: map<string, StageState>)
    ensures stages.Keys == StageKeys
    ensures forall k :: k in stages ==> stages[k] == StageSummary(currentStatus, logs, k)
  {
    stages := map[];
    for j := 0 to |StageOrder|
      invariant forall k :: k in stages <==> exists i :: 0 <= i < j && StageOrder[i] == k
      invariant forall k :: k in stages ==> stages[k] == Pending
    {
      stages := stages[StageOrder[j] := Pending];
    }
    for i := 0 to |logs|
      invariant stages.Keys == StageKeys
      invariant forall k :: k in stages ==> stages[k] == LastLogOf(logs[..i], k)
    {
      var stage := logs[i].stage;
      if stage in stages {
        stages := stages[stage := StageState(logs[i].status, Some(logs[i].message))];
      }
      assert logs[..i + 1][..i] == logs[..i];
    }
    assert logs[..|logs|] == logs;
    if currentStatus == TextCell("failed") {
      stages := SkipPending(stages);
    }
  }

  /** A pending stage becomes skipped; any other is left as it is. */
  function Skipped(s: StageState): StageState {
    if s.status == "pending" then s.(status := "skipped") else s
  }

  /** The pass over the stage keys that `computeStages` makes for a failed project. */
  method SkipPending(stages: map<string, StageState>) returns (r: map<string, StageState>)
    requires stages.Keys == StageKeys
    ensures r.Keys == StageKeys
    ensures forall k :: k in r ==> r[k] == Skipped(stages[k]) && r[k].status != "pending"
  {
    r := stages;
    ghost var done: set<string> := {};
    for j := 0 to |StageOrder|
      invariant r.Keys == StageKeys
      invariant forall i :: 0 <= i < j ==> StageOrder[i] in done
      invariant forall k :: k in r && k in done ==> r[k] == Skipped(stages[k])
      invariant forall k :: k in r && k !in done ==> r[k] == stages[k]
    {
      var stage := StageOrder[j];
      if r[stage].status == "pending" {
        r := r[stage := r[stage].(status := "skipped")];
      }
      done := done + {stage};
    }
  }

  /**
   * A new log moves only its own stage's summary, to its status and
   * message; a log of another stage (such as `qa` or `pipeline`) moves none.
   */
  lemma {:induction false} StageAfterLog(logs: seq<LogEntry>, e: LogEntry, stage: string)
    ensures LastLogOf(logs + [e], stage)
         == if e.stage == stage then StageState(e.status, Some(e.message)) else LastLogOf(logs, stage)
  {
    assert (logs + [e])[..|logs|] == logs;
  }

  /**
   * For a failed project no stage stays pending: a stage without logs is
   * skipped with no message; for any other status a stage without logs
   * stays pending.
   */
  lemma NothingPendingAfterFailure(currentStatus: Cell, logs: seq<LogEntry>, stage: string)
    ensures currentStatus == TextCell("failed") ==> StageSummary(currentStatus, logs, stage).status != "pending"
    ensures (forall i :: 0 <= i < |logs| ==> logs[i].stage != stage) ==>
      StageSummary(currentStatus, logs, stage)
        == if currentStatus == TextCell("failed") then StageState("skipped", None) else Pending
  {
  }

  /** What `/status` shows of one log: its `data` parsed, or null. */
  datatype LogView = LogView(stage: string, status: string, message: string, data: Json, createdAt: string)

  function ViewOf(e: LogEntry, parse: Parser): LogView {
    LogView(e.stage, e.status, e.message,
            if e.data.Some? then SafeJsonParse(TextCell(e.data.value), parse) else JNull, e.createdAt)
  }

  /** The `/status` reply for a known project. */
  datatype StatusView = StatusView(
    row: Row, spec: Json, testResults: Json, logs: seq<LogView>,
    stages: map<string, StageState>, live: Option<(string, nat)>)

  /**
   * `/status`: None (404) for an unknown project; otherwise its row with the
   * JSON columns parsed, its logs in id order, the stage summary over them,
   * and the step and progress of its registry entry when there is one.
   */
  method StatusRoute(runner: Orchestrator.Runner, id: string, parse: Parser) returns (r: Option<StatusView>)
    requires runner.Valid()
    ensures r.None? <==> id !in runner.store.projects
    ensures r.Some? ==>
      var row := runner.store.projects[id];
      var logs := Select(runner.store.logs, OfProject(id));
      && r.value.row == row
      && r.value.spec == SafeJsonParse(row[Spec], parse)
      && r.value.testResults == SafeJsonParse(row[TestResults], parse)
      && |r.value.logs| == |logs|
      && (forall i :: 0 <= i < |logs| ==> r.value.logs[i] == ViewOf(logs[i], parse))
      && r.value.stages.Keys == StageKeys
      && (forall k :: k in r.value.stages ==> r.value.stages[k] == StageSummary(row[Status], logs, k))
      && (id in runner.activeRuns <==> r.value.live.Some?)
      && (r.value.live.Some? ==> r.value.live.value == (runner.activeRuns[id].step, runner.activeRuns[id].progress))
  {
    var store := runner.store;
    if id !in store.projects {
      return None;
    }
    var row := store.projects[id];
    var logs := Select(store.logs, OfProject(id));
    var views := seq(|logs|, i requires 0 <= i < |logs| => ViewOf(logs[i], parse));
    var stages := ComputeStages(row[Status], logs);
    var activeRun := runner.GetActiveRun(id);
    var live := if activeRun.Some? then Some((activeRun.value.step, activeRun.value.progress)) else None;
    r := Some(StatusView(row, SafeJsonParse(row[Spec], parse), SafeJsonParse(row[TestResults], parse),
                         views, stages, live));
  }
}

/**
 * The lookup tables of the pipeline viewer: which row of the progress table
 * a status points at, which rows are highlighted, when polling stops, and
 * which icon a stage's status gets.
 */
module PipelineViewer {
  import opened Wrappers
  import Database
  import PipelineRoutes

  /** The keys of the stage rows the viewer draws, in order. */
  const StageDefs: seq<string> := ["planning", "building", "testing", "retrying", "github", "deploy"]

  /** The statuses `getCurrentStageIndex` knows, at their index. */
  const IndexedStatuses: seq<string> := ["planning", "building", "testing", "retrying", "deploying", "completed"]

  /**
   * `getCurrentStageIndex`: the status's place in the table; `failed` and any
   * other status give -1 (names the lookup object inherits, such as
   * `toString`, are not modelled).
   */
  function StageIndex(status: string): (r: int)
    ensures -1 <= r < |IndexedStatuses|
  {
    if status == "planning" then 0
    else if status == "building" then 1
    else if status == "testing" then 2
    else if status == "retrying" then 3
    else if status == "deploying" then 4
    else if status == "completed" then 5
    else -1
  }

  /** The index names the status it came from, and only the listed statuses have one. */
  lemma StageIndexInverse(status: string)
    ensures StageIndex(status) >= 0 ==> IndexedStatuses[StageIndex(status)] == status
    ensures StageIndex(status) >= 0 <==> status in IndexedStatuses
    ensures StageIndex("failed") == -1
  {
  }

  /** The pipeline status for which a stage row is highlighted; github and deploy share `deploying`. */
  function ActiveStatus(stageKey: string): Option<string> {
    if stageKey in {"planning", "building", "testing", "retrying"} then Some(stageKey)
    else if stageKey == "github" || stageKey == "deploy" then Some("deploying")
    else None
  }

  /** `getActiveForStage`: an unknown key maps to `undefined`, which equals no status. */
  predicate ActiveFor(stageKey: string, status: string) {
    ActiveStatus(stageKey) == Some(status)
  }

  /** The rows highlighted for a status. */
  function ActiveStages(status: string): set<string> {
    set k | k in StageDefs && ActiveFor(k, status)
  }

  /**
   * For any status the highlighted rows are none, the row of that name, or
   * github and deploy together, which happens exactly for `deploying`.
   */
  lemma ActiveStagesShape(status: string)
    ensures status in {"planning", "building", "testing", "retrying"} ==> ActiveStages(status) == {status}
    ensures status == "deploying" ==> ActiveStages(status) == {"github", "deploy"}
    ensures status !in {"planning", "building", "testing", "retrying", "deploying"} ==> ActiveStages(status) == {}
  {
    if status == "deploying" {
      assert "github" in ActiveStages(status) && "deploy" in ActiveStages(status);
    } else if status in {"planning", "building", "testing", "retrying"} {
      assert status in ActiveStages(status);
    }
  }

  /** The statuses at which the viewer stops polling. */
  predicate StopsPolling(status: string) {
    status in ["completed", "failed", "cancelled"]
  }

  /** `stageData?.status || 'pending'`: a missing stage or an empty status shows as pending. */
  function ShownStageStatus(stages: Option<map<string, PipelineRoutes.StageState>>, key: string): (r: string)
    ensures r != ""
    ensures (stages.None? || key !in stages.value) ==> r == "pending"
  {
    if stages.Some? && key in stages.value && stages.value[key].status != "" then stages.value[key].status
    else "pending"
  }

  /** The statuses `STATUS_ICONS` has an icon for. */
  const IconKeys: seq<string> := [
    "pending", "started", "running", "completed", "passed", "success", "executed",
    "rebuilt", "retested", "failed", "skipped", "error"]

  /** The `STATUS_ICONS` entry used for a stage status: its own, or pending's. */
  function IconKey(status: string): (r: string)
    ensures r in IconKeys
    ensures status in IconKeys ==> r == status
    ensures status !in IconKeys ==> r == "pending"
  {
    if status in IconKeys then status else "pending"
  }

  /**
   * A stage the status route summarised without any log shows the skipped
   * icon when the project failed and the pending icon otherwise.
   */
  lemma UnloggedStageIcon(currentStatus: Database.Cell, logs: seq<Database.LogEntry>,
                          stages: map<string, PipelineRoutes.StageState>, key: string)
    requires key in stages && stages[key] == PipelineRoutes.StageSummary(currentStatus, logs, key)
    requires forall i :: 0 <= i < |logs| ==> logs[i].stage != key
    ensures IconKey(ShownStageStatus(Some(stages), key))
         == if currentStatus == Database.TextCell("failed") then "skipped" else "pending"
  {
    PipelineRoutes.NothingPendingAfterFailure(currentStatus, logs, key);
  }

  // ---------------------------------------------------------------------
  // Statuses the backend writes

  /** Every value the backend stores in a project's `status`. */
  const BackendStatuses: seq<string> := ["pending", "running", "completed", "completed_with_warnings", "failed", "cancelled"]

  /**
   * As written, the highlight compares the rows with the project's
   * `status`, which the backend only ever sets to the values above: no row
   * is ever highlighted.
   */
  lemma NoRowEverHighlighted(status: string)
    requires status in BackendStatuses
    ensures ActiveStages(status) == {}
  {
    ActiveStagesShape(status);
  }

  /** Every value the run writes to a project's `current_step`, from creation to its end. */
  const RunSteps: seq<string> := [
    "queued", "planning", "planning_done", "building", "building_done", "testing",
    "executing_tests", "retrying", "github", "deploying", "done", "fatal_error", "orchestrator"]

  /** The row a `current_step` belongs to: the tests are run within the testing stage, and the deploy step lights the deploy row. */
  function StepStage(step: string): (r: Option<string>)
    ensures r.Some? ==> r.value in StageDefs
    ensures step in {"planning", "building", "testing", "retrying", "github"} ==> r == Some(step)
    ensures step == "executing_tests" ==> r == Some("testing")
    ensures step == "deploying" ==> r == Some("deploy")
    ensures r.None? <==>
      step !in {"planning", "building", "testing", "retrying", "github", "executing_tests", "deploying"}
  {
    if step in {"planning", "building", "testing", "retrying", "github"} then Some(step)
    else if step == "executing_tests" then Some("testing")
    else if step == "deploying" then Some("deploy")
    else None
  }

  /**
   * Corrected: highlight by the project's `current_step` while the project
   * is running; a failed run keeps the step it failed at, which is not lit.
   */
  function ActiveStagesForStep(status: string, currentStep: string): set<string> {
    if status == "running" then set k | k in StageDefs && StepStage(currentStep) == Some(k) else {}
  }

  /** With the correction, a running project lights exactly the row of its step, and nothing otherwise. */
  lemma StepHighlightsItsStage(status: string, step: string)
    ensures status == "running" && StepStage(step).Some? ==> ActiveStagesForStep(status, step) == {StepStage(step).value}
    ensures status != "running" || StepStage(step).None? ==> ActiveStagesForStep(status, step) == {}
  {
    if status == "running" && StepStage(step).Some? {
      assert StepStage(step).value in ActiveStagesForStep(status, step);
    }
  }

  /** With the correction, every row of the table is lit by some step the run goes through. */
  lemma EveryRowLit(key: string)
    requires key in StageDefs
    ensures exists step :: step in RunSteps && ActiveStagesForStep("running", step) == {key}
  {
    var step := if key == "deploy" then "deploying" else key;
    StepHighlightsItsStage("running", step);
    assert step in RunSteps;
  }

  /**
   * As written, polling goes on after a run that ended with warnings,
   * although that status is final: the cancel route refuses it as such.
   */
  lemma PollsAfterWarnings()
    ensures "completed_with_warnings" in PipelineRoutes.Terminal
    ensures !StopsPolling("completed_with_warnings")
  {
  }

  /** Corrected: polling stops at every final status: the three the cancel route refuses, and `cancelled`. */
  predicate StopsPollingFixed(status: string) {
    status in PipelineRoutes.Terminal || status == "cancelled"
  }

  /** With the correction, polling stops exactly at the final statuses, and goes on while pending or running. */
  lemma PollingStopsWhenFinal(status: string)
    requires status in BackendStatuses
    ensures StopsPollingFixed(status) <==> status !in ["pending", "running"]
    ensures StopsPolling(status) ==> StopsPollingFixed(status)
  {
  }
}

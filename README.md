# hackflow pipeline model

hackflow turns a one-line product idea into a deployed FastAPI application.
An Express backend runs a pipeline for each project:

1. The planner agent asks a language model for a specification and validates it.
2. The builder generates the code.
3. The QA agent asks for pytest files and runs them in a temporary workspace.
4. A failing suite may be rebuilt and retested once.
5. The code is pushed to GitHub and deployed to Railway or Render.
6. The project gets a final status.

Everything is recorded in SQLite: the `projects`, `pipeline_logs` and `settings` tables.
HTTP routes start, cancel and observe runs, list and download the generated files, and read and write the settings.
Two React views show a run's progress and the list of projects.

This project models that core in Dafny, one module per source file:

- `Orchestrator` models `orchestrator.js`.
  - Its `Runner` class holds the store, the QA workspaces and the in-memory registry of active runs.
  - `RunPipelineAsync` is proved against `CourseOf`, a function that gives the whole course of a run from the collaborators' outcomes.
  - The course fixes the stored row, the log lines in order, and the registry's trail of steps.
- `Planner` models `planner.js`.
- `Qa` models `qa.js`:
  - test-output parsing;
  - reply parsing;
  - laying the files out in a workspace and running the subprocesses.
- `Deploy` models `deploy.js`.
- `Database` models `database.js`. Its `Store` class holds the three tables.
- `PipelineRoutes`, `ProjectRoutes` and `SettingsRoutes` model the three route files.
- `PipelineViewer` and `ProjectsPage` model the front-end lookup tables and the relative-date formatter.

Support modules:

- `Wrappers`: Option and Result.
- `Strings`: the JavaScript string operations used.
- `Json`: JSON values, truthiness, property order, `Object.keys` and `JSON.stringify`.
- `StoredJson`: the columns stored as JSON text.
- `Config`: environment fallbacks.

Several things are parameters of the model:

- the language model, the builder and GitHub repository creation;
- `fetch`;
- the subprocesses;
- `JSON.parse`;
- the clock.

## Model

| member | source | states |
|---|---|---|
| Config.EnvOr | backend/src/services/deploy.js:4 | `process.env[name] \|\| setting`: the variable when it is non-empty, else the stored setting; the credential counts as set exactly when either of them is |
| Deploy.IndexOf | backend/src/services/deploy.js:59 | the first occurrence of the pattern at or after the start position, and no occurrence before it; None means no occurrence at all |
| Deploy.RepoPath | backend/src/services/deploy.js:59 | `replace` with a string pattern removes only the first `https://github.com/`; a URL without it is returned unchanged |
| Deploy.ServiceQuery | backend/src/services/deploy.js:59-73 | the `serviceCreate` mutation names the project and `<name>-service`, and its repository field holds exactly `RepoPath` of the GitHub URL |
| Deploy.ServiceQueryOfRepoUrl | backend/src/services/deploy.js:59-73 | for a repository URL the service is created from `owner/repo` |
| Deploy.RepoPathOfRepoUrl | backend/src/services/deploy.js:59 | for a GitHub repository URL the repository path is exactly `owner/repo` |
| Deploy.DeployToRailway | backend/src/services/deploy.js:18-85 | a non-string app name throws the TypeError of `toLowerCase`; a non-ok response gives `Railway API error: <status> - <text>`; success only for an ok response whose body has no `errors`, has a created project id, and whose service request did not throw, and then the URL is `https://railway.app/project/<id>` |
| Deploy.DeployToRender | backend/src/services/deploy.js:87-119 | succeeds exactly when the name is a string and the response is ok, with the URL `https://<sanitized name>.onrender.com`; a non-string name throws the TypeError |
| Deploy.TriggerDeploy | backend/src/services/deploy.js:3-16 | Railway when its token (environment first, then settings) is set, else Render when its key is set, else the `manual://` message; an error can only come from one of the platforms |
| Deploy.RailwayFirst | backend/src/services/deploy.js:4-8 | with a Railway token the Render key and the Render reply do not matter |
| Deploy.NoCredentialsNoNetwork | backend/src/services/deploy.js:15 | with no credential anywhere the result is the manual URL, whatever the network would answer |
| Deploy.SanitizedName | backend/src/services/deploy.js:19-22 | the app name lowered, every character outside `[a-z0-9-]` made `-`, cut to 50 units; no ensures of its own, carried by Deploy.SanitizedNameShape |
| Deploy.SanitizedNameShape | backend/src/services/deploy.js:19-22 | the sanitized name has min(length, 50) UTF-16 units, each a lower-case letter, a digit or `-` |
| Strings.Trim | backend/src/routes/pipeline.js:16 | `String.prototype.trim`: the result has no white space at either end, is empty exactly for an all-space input, and a string with no space at either end is unchanged |
| Strings.TrimPadded | backend/src/routes/pipeline.js:24 | white space added around a string does not change its trimmed text |
| Strings.Slugify | backend/src/services/deploy.js:19-22 | lower-case, replace characters outside a class by `-`, cut to a number of units; no ensures of its own, carried by Strings.SlugifyShape and Strings.SlugifyIdempotent |
| Strings.SlugifyShape | backend/src/services/deploy.js:19-22 | lower-case, replace every character outside the class by `-`, cut to `max` units: the length is min(UTF-16 length, max) and every unit is in the class or `-` |
| Strings.SlugifyIdempotent | backend/src/services/deploy.js:19-22 | sanitizing a sanitized name changes nothing |
| Strings.ParseInt | backend/src/services/orchestrator.js:44-45 | `parseInt(s, 10)`: leading white space, an optional sign and the longest digit run, None for NaN; no ensures of its own, carried by Strings.ParseIntRoundTripInt, Strings.ParseIntRoundTrip and Orchestrator.ParseDigits |
| Strings.ParseIntRoundTripInt | backend/src/services/orchestrator.js:44-45 | `parseInt(String(n), 10)` gives back n for every integer |
| Strings.ToLower | backend/src/services/deploy.js:19 | `toLowerCase` on ASCII: same length, each character lowered on its own |
| Strings.NatToString | backend/src/agents/planner.js:107 | the decimal text of a number: non-empty digits whose value is the number, with no leading zero |
| Strings.ParseIntRoundTrip | backend/src/routes/pipeline.js:98 | `parseInt` of the decimal text of a natural number gives it back |
| PipelineRoutes.CheckIdea | backend/src/routes/pipeline.js:16-21 | a rejected idea always gets the `Invalid input` message |
| PipelineRoutes.IdeaAccepted | backend/src/routes/pipeline.js:16-24 | only a string gets through, and what gets through is its trimmed text: non-empty, no space at either end, at least 10 UTF-16 units, and accepted unchanged a second time |
| PipelineRoutes.IdeaPadding | backend/src/routes/pipeline.js:16-24 | white space around an idea changes neither the verdict nor the idea passed to `startPipeline` |
| PipelineRoutes.IdeaOfText | backend/src/routes/pipeline.js:16-24 | for a string, the verdict depends only on the UTF-16 length of its trimmed text (accepted from 10 units on) |
| PipelineRoutes.CancelRefusal | backend/src/routes/pipeline.js:128-130 | only `completed`, `completed_with_warnings` and `failed` are refused |
| PipelineRoutes.CancelledRow | backend/src/routes/pipeline.js:132-133 | an accepted cancel sets status `cancelled`, error `Cancelled by user` and `updated_at`, and leaves every other column alone |
| PipelineRoutes.CancelIsUpdate | backend/src/routes/pipeline.js:132-133 | the cancel statement is the same row change as an `updateProject` call with those fields |
| PipelineRoutes.Cancel | backend/src/routes/pipeline.js:119-136 | 404 and no change for an unknown id, 400 with the status in the message and no change for a refused status, otherwise `cancelled` and exactly that row replaced by the cancelled row (the corrected statement, see Findings) |
| PipelineRoutes.CancelAsWritten | backend/src/routes/pipeline.js:132 | the statement as written never cancels: unknown id is 404, a refused status 400, anything else the 500 of `no such column: now` |
| PipelineRoutes.RunningNeverCancelled | backend/src/routes/pipeline.js:132 | a running project, which the route exists to cancel, gets the 500 as written and is cancelled by the corrected statement |
| PipelineRoutes.CancelAgain | backend/src/routes/pipeline.js:128-133 | a cancelled project is not refused, and cancelling it again gives the same row; `running` and `pending` are accepted |
| PipelineRoutes.CancelOverwritten | backend/src/routes/pipeline.js:132-133 | a later `updateProject` of the still-running pipeline overwrites the cancelled status with its own |
| PipelineRoutes.Cursor | backend/src/routes/pipeline.js:98 | an absent or empty `after` is 0 |
| PipelineRoutes.CursorRoundTrip | backend/src/routes/pipeline.js:98 | a cursor written as the decimal text of an id reads back as that id |
| PipelineRoutes.LogsAfter | backend/src/routes/pipeline.js:89-104 | None exactly for an unknown project; otherwise, in increasing id order, exactly the project's logs whose id is above a numeric cursor (none for a NaN cursor) |
| PipelineRoutes.LogsFromStart | backend/src/routes/pipeline.js:98-101 | without a cursor the route returns every log of the project |
| PipelineRoutes.LastLogOf | backend/src/routes/pipeline.js:146-152 | the status and message of the last log of the stage, or pending with no message exactly when the stage has no log |
| PipelineRoutes.ComputeStages | backend/src/routes/pipeline.js:138-163 | one entry per stage of the fixed order, each the summary of its last log, pending turned to skipped for a failed project |
| PipelineRoutes.SkipPending | backend/src/routes/pipeline.js:154-160 | every pending stage becomes skipped, every other is kept, and none is left pending |
| PipelineRoutes.StageAfterLog | backend/src/routes/pipeline.js:146-152 | a new log moves only its own stage, to its status and message; a `qa` or `pipeline` log moves none |
| PipelineRoutes.NothingPendingAfterFailure | backend/src/routes/pipeline.js:154-160 | for a failed project no stage is pending; a stage without logs is skipped for a failed project and pending otherwise |
| PipelineRoutes.StatusRoute | backend/src/routes/pipeline.js:41-83 | None exactly for an unknown project; otherwise the row, its JSON columns parsed, every log of the project in order with its data parsed, the stage summary, and the live step and progress exactly when a run is registered |
| Strings.UnitsPrefix | backend/src/services/orchestrator.js:26 | `substring(0, n)` on whole characters: a prefix of at most n UTF-16 units that the next character would overflow |
| Strings.UnitsPrefixWhole | backend/src/agents/planner.js:120 | a text of at most n UTF-16 units is kept whole by `substring(0, n)` |
| Orchestrator.KeepNameChars | backend/src/services/orchestrator.js:27 | the kept characters are all ASCII letters, digits, white space or `-`, and a string made only of them is unchanged |
| Orchestrator.DeriveNameShape | backend/src/services/orchestrator.js:25-28 | a derived project name is at most 80 characters, all name characters, with no white space at either end |
| Orchestrator.DeriveNameIdempotent | backend/src/services/orchestrator.js:25-28 | deriving a name from a derived name gives it back unchanged |
| Orchestrator.DeriveName | backend/src/services/orchestrator.js:25-28 | the idea's first 80 UTF-16 units, without characters outside letters, digits, white space and `-`, trimmed; no ensures of its own, its meaning is carried by Orchestrator.DeriveNameShape and Orchestrator.DeriveNameIdempotent |
| Orchestrator.Threshold | backend/src/services/orchestrator.js:44 | `parseInt(test_threshold \|\| '80', 10)`, None standing for NaN; no ensures of its own, carried by Orchestrator.DefaultLimits, Orchestrator.ParseDigits and Orchestrator.UnparsableThreshold |
| Orchestrator.MaxRetries | backend/src/services/orchestrator.js:45 | `parseInt(max_retries \|\| '1', 10)`; no ensures of its own, carried by Orchestrator.DefaultLimits and Orchestrator.ParseDigits |
| Orchestrator.ShouldRetry | backend/src/services/orchestrator.js:134 | below the threshold with retries left, false whenever either limit is NaN; no ensures of its own, carried by Orchestrator.Testing, Orchestrator.RetryWithoutGainWarns, Orchestrator.MetThresholdCompletes and Orchestrator.UnparsableThreshold |
| Orchestrator.SpecMessage | backend/src/services/orchestrator.js:65 | the planning `completed` message: the display name, then the model and endpoint counts; no ensures of its own, it is the message Orchestrator.PlanDone logs |
| Orchestrator.RunOf | backend/src/services/orchestrator.js:11-13 | `getActiveRun`: an entry exactly for a registered project |
| Orchestrator.Stepped | backend/src/services/orchestrator.js:266-273 | `setStep`: step, progress and update time are the new ones; `startedAt` and `error` are kept from the prior entry, absent when there was none |
| Orchestrator.Failed | backend/src/services/orchestrator.js:278-283 | the entry `fail` writes: step `failed`, progress 0, the error, and no `startedAt` |
| Orchestrator.SteppedTwice | backend/src/services/orchestrator.js:266-273 | two `setStep` calls in a row leave what the second alone would |
| Orchestrator.SteppedAfterFailure | backend/src/services/orchestrator.js:266-283 | a `setStep` after `fail` keeps the error and has no start time |
| Orchestrator.AllActiveRuns | backend/src/services/orchestrator.js:15-21 | `getAllActiveRuns`: exactly the registered projects, each with its entry |
| Orchestrator.SettingOr | backend/src/services/orchestrator.js:44-45 | `getSetting(key) \|\| fallback`: the stored value when it is non-empty, else the fallback |
| Orchestrator.ParseDigits | backend/src/services/orchestrator.js:44-45 | `parseInt` of a digit string is its decimal value |
| Orchestrator.DefaultLimits | backend/src/services/orchestrator.js:44-45 | without stored settings the threshold is 80 and the retry limit 1 |
| Orchestrator.FinalStatus | backend/src/services/orchestrator.js:243 | `completed` exactly when the threshold parsed and the rate meets it, else `completed_with_warnings` (a NaN threshold never completes) |
| Orchestrator.RetryWithoutGainWarns | backend/src/services/orchestrator.js:134-243 | a rate that triggers the retry and is not improved ends `completed_with_warnings` |
| Orchestrator.MetThresholdCompletes | backend/src/services/orchestrator.js:134-243 | a run that completes outright never retried |
| Orchestrator.UnparsableThreshold | backend/src/services/orchestrator.js:44-243 | a NaN threshold never retries and always ends with warnings |
| Orchestrator.TestingTrailIncreases | backend/src/services/orchestrator.js:51-118 | the steps up to `tests_done` strictly increase in progress, within 0..70 |
| Orchestrator.RetryStepsIncrease | backend/src/services/orchestrator.js:138-153 | the retry steps strictly increase within 70..78 |
| Orchestrator.PublishStepsIncrease | backend/src/services/orchestrator.js:187-250 | the steps after testing strictly increase within 78..100 and end with `done` at 100 |
| Orchestrator.SuccessTrailIncreases | backend/src/services/orchestrator.js:51-250 | on every way to the end the progress strictly increases, stays in 1..100 and ends with `done` at 100 |
| Orchestrator.SpreadLookup | backend/src/services/orchestrator.js:202 | an object spread holds the earlier keys and the spread properties, the last one of a key winning |
| Orchestrator.TestFileReplaces | backend/src/services/orchestrator.js:202 | every pushed path is a generated file or a property of the test files, and a test file replaces a generated file at the same path |
| Orchestrator.PushRequestFor | backend/src/services/orchestrator.js:201-203 | the repository is `autoship-<app_name>`, described by `description` when it is truthy and by `display_name` otherwise |
| Orchestrator.TestResultJson | backend/src/agents/qa.js:153-162 | the stored result object has its eight properties, `exitCode` left out when the process gave none |
| Orchestrator.RepliesOf | backend/src/services/orchestrator.js:55-154 | what a run meets: the planner's and QA agent's outcomes and log lines, and the executions of the built files against the generated tests in new workspaces |
| Orchestrator.Testing | backend/src/services/orchestrator.js:134-178 | retried exactly when the rate is below the threshold and retries are allowed; rebuilt exactly when retried and the builder succeeded; the files and results are the rebuild's and the retest's then, the first ones otherwise |
| Orchestrator.FailScript | backend/src/services/orchestrator.js:275-277 | `fail` adds no step |
| Orchestrator.Begun | backend/src/services/orchestrator.js:51-53 | every stage opens with its step, its update and its `started` line, in that order |
| Orchestrator.PlanStart | backend/src/services/orchestrator.js:51-55 | planning reports step `planning` at 10 |
| Orchestrator.PlanDone | backend/src/services/orchestrator.js:61-67 | an accepted spec reports `planning_done` at 25 |
| Orchestrator.BuildStart | backend/src/services/orchestrator.js:72-74 | building reports `building` at 30 |
| Orchestrator.BuildDone | backend/src/services/orchestrator.js:82-89 | built files report `building_done` at 50; the log counts and lists `Object.keys` of the files object (Orchestrator.BuiltKeys), not the builder's raw list |
| Orchestrator.BuiltKeys | backend/src/services/orchestrator.js:83 | `Object.keys(generatedFiles)`; no ensures of its own, carried by Orchestrator.BuiltKeysShape and Orchestrator.BuiltKeysOrdered |
| Orchestrator.BuiltKeysShape | backend/src/services/orchestrator.js:83-88 | the logged keys are exactly the builder's paths, each once, in JavaScript's property order |
| Orchestrator.BuiltKeysOrdered | backend/src/services/orchestrator.js:83-88 | paths already distinct and in property order are logged as given, and their count is the number of files |
| Orchestrator.BuildDoneReports | backend/src/services/orchestrator.js:83-88 | for such paths the build log reads `Generated <number of files> files` with the paths as a JSON array |
| Orchestrator.QaStart | backend/src/services/orchestrator.js:94-98 | test generation reports `testing` at 55 |
| Orchestrator.QaDone | backend/src/services/orchestrator.js:104-108 | storing the tests reports no step |
| Orchestrator.FirstRun | backend/src/services/orchestrator.js:113-129 | the first execution reports `executing_tests` at 60 and `tests_done` at 70 and stores the step and the results |
| Orchestrator.Retested | backend/src/services/orchestrator.js:144-165 | a rebuild stores the new files and the retest's results and reports `retesting` at 78 |
| Orchestrator.Rebuilding | backend/src/services/orchestrator.js:141-171 | `retesting` only when the builder succeeded; the fields written are those of the rebuild, none otherwise |
| Orchestrator.RetryScript | backend/src/services/orchestrator.js:134-178 | the retry reports `retrying` (and `retesting` after a rebuild) and stores `retrying` with `retry_count` 1 before the rebuild's fields |
| Orchestrator.TestingScript | backend/src/services/orchestrator.js:113-187 | testing reports its steps up to `tests_complete` at 80 and writes the first results, then the retry's fields only when it retried |
| Orchestrator.Tested | backend/src/services/orchestrator.js:113-178 | the steps up to the retry, the retry's only when it retried |
| Orchestrator.Pushing | backend/src/services/orchestrator.js:203-208 | a pushed URL is stored; a failed push stores nothing and adds no step |
| Orchestrator.PublishScript | backend/src/services/orchestrator.js:192-213 | `github` at 85 and current step `github` only with a token (environment first), then `github_done` at 88; `github_url` stored exactly when the push answered a URL |
| Orchestrator.GithubScript | backend/src/services/orchestrator.js:195-211 | step `github` exactly when a token is set |
| Orchestrator.Delivering | backend/src/services/orchestrator.js:228-233 | a deployed URL is stored; a failed deployment stores nothing |
| Orchestrator.DeployScript | backend/src/services/orchestrator.js:218-238 | `deploying` at 90 only with a credential and a repository URL; `deploy_url` stored exactly when the deployment answered one |
| Orchestrator.FinishScript | backend/src/services/orchestrator.js:243-256 | the end reports `done` at 100 |
| Orchestrator.FinishedCourse | backend/src/services/orchestrator.js:113-256 | a run past test generation finishes, with the testing phase the stored threshold and retry limit decide, and the final status of its last rate |
| Orchestrator.CourseOf | backend/src/services/orchestrator.js:43-264 | a failing planner, builder or QA agent stops the run at `planning`, `building` or `testing` (each if and only if); a throwing builder, or test files SQLite cannot bind, make the run reject during `building` or `testing`; otherwise it finishes with the status of its last rate |
| Orchestrator.CourseFrom | backend/src/services/orchestrator.js:43-264 | the same four ends, each if and only if, from the replies a run meets, with the testing phase and status of a finished run |
| Orchestrator.BuildCourse | backend/src/services/orchestrator.js:72-264 | from the builder on: stopped at `building` iff it fails, crashed with its message iff it throws (or the tests are unstorable), stopped at `testing` iff QA fails, finished otherwise |
| Orchestrator.QaCourse | backend/src/services/orchestrator.js:94-264 | from the QA agent on: stopped at `testing` iff it fails, crashed with SQLite's bind error iff the tests are a boolean, finished otherwise |
| Orchestrator.StatusIgnoresPublishing | backend/src/services/orchestrator.js:192-243 | the push, the deployment's answers, the environment and the other settings change neither whether a run finishes nor its testing nor its final status |
| Orchestrator.FinishedEffects | backend/src/services/orchestrator.js:113-256 | a finished run writes testing, the push, deployment and the end, in that order, from what each of them yields |
| Orchestrator.FinishedSteps | backend/src/services/orchestrator.js:113-250 | the steps of a finished run are the trail of its testing, push and deployment choices |
| Orchestrator.CourseSteps | backend/src/services/orchestrator.js:51-250 | every course reports exactly the trail of its end |
| Orchestrator.BuildCourseSteps | backend/src/services/orchestrator.js:72-250 | from the builder on, the steps are the trail of the end |
| Orchestrator.QaCourseSteps | backend/src/services/orchestrator.js:94-250 | from the QA agent on, the steps are the trail of the end |
| Orchestrator.FinishedTrail | backend/src/services/orchestrator.js:113-250 | a finished run reports the full success trail |
| Orchestrator.StoppedTrailsIncrease | backend/src/services/orchestrator.js:51-98 | the trail of a stopped or crashed run strictly increases within 1..100 |
| Orchestrator.TrailIncreases | backend/src/services/orchestrator.js:51-250 | every trail a course can report strictly increases within 1..100, and a finished one ends at `done`, 100 |
| Orchestrator.CourseTrailIncreases | backend/src/services/orchestrator.js:51-250 | the progress a run reports never goes back and a finished run ends at 100 |
| Orchestrator.MergeTakes | backend/src/services/database.js:104-114 | a column named in an update holds its new value afterwards |
| Orchestrator.TestingFields | backend/src/services/orchestrator.js:113-178 | after testing, spec and test files are unchanged, the generated files and results are the phase's, and `retry_count` is set exactly when it retried |
| Orchestrator.StageFields | backend/src/services/orchestrator.js:113-178 | the merged updates of testing leave the columns the phase describes |
| Orchestrator.PublishKeeps | backend/src/services/orchestrator.js:192-213 | the GitHub step writes only `current_step` and `github_url` |
| Orchestrator.DeployKeeps | backend/src/services/orchestrator.js:218-238 | the deployment step writes only `current_step` and `deploy_url` |
| Orchestrator.FinishWrites | backend/src/services/orchestrator.js:243-249 | the final update writes only status, current step and the two URLs |
| Orchestrator.TailFields | backend/src/services/orchestrator.js:192-249 | push, deployment and the end leave every other column as testing left it |
| Orchestrator.FinishedFields | backend/src/services/orchestrator.js:113-256 | a finished run's row holds the final status, `done`, the spec, last files, tests and results, both URLs (null when absent), `retry_count` exactly when it retried, and no error |
| Orchestrator.PlannedFields | backend/src/services/orchestrator.js:51-67 | after planning the row holds the spec and no error |
| Orchestrator.BuiltFields | backend/src/services/orchestrator.js:72-89 | after building the row holds the spec and the generated files |
| Orchestrator.TestedFields | backend/src/services/orchestrator.js:94-108 | after test generation the row also holds the test files |
| Orchestrator.FailedFields | backend/src/services/orchestrator.js:275-277 | `fail` leaves status `failed`, the stage as current step and the message as error |
| Orchestrator.QaConcluded | backend/src/services/orchestrator.js:94-264 | from the QA agent on, every end leaves the row it promises |
| Orchestrator.FinishedConcluded | backend/src/services/orchestrator.js:113-256 | a finished run leaves the row it promises |
| Orchestrator.BuildConcluded | backend/src/services/orchestrator.js:72-264 | from the builder on, every end leaves the row it promises |
| Orchestrator.FatalFields | backend/src/services/orchestrator.js:33-36 | the `catch` of `startPipeline` leaves status `failed`, step `fatal_error` and the thrown message |
| Orchestrator.ConcludedFields | backend/src/services/orchestrator.js:33-285 | every run leaves its row: failed at its stage with the stage's error, failed at `fatal_error` with the thrown message, or finished as `FinishedFields` says |
| Orchestrator.ProgressedSnoc | backend/src/services/orchestrator.js:266-273 | one more `setStep` steps the entry the earlier calls left |
| Orchestrator.UpdateTwice | backend/src/services/database.js:104-114 | two `updateProject` calls are one with the fields merged, the later value winning |
| Orchestrator.LinesAppended | backend/src/services/database.js:128-133 | an agent's `addLog` calls extend the run's log rows by the rows of its lines |
| Orchestrator.CleanedUp | backend/src/agents/qa.js:176-184 | removing the workspace of an execution restores the workspaces there were before it |
| Orchestrator.Removed | backend/src/agents/qa.js:176-184 | removing a workspace leaves the others as they were |
| Orchestrator.Forgotten | backend/src/services/orchestrator.js:37 | deleting an entry forgets what it was set to |
| Orchestrator.Runner.constructor | backend/src/services/orchestrator.js:9 | the registry starts empty over a valid store, with no step reported |
| Orchestrator.Runner.GetActiveRun | backend/src/services/orchestrator.js:11-13 | an entry exactly for a registered project, and it is that project's entry |
| Orchestrator.Runner.GetAllActiveRuns | backend/src/services/orchestrator.js:15-21 | every registered run, each as `getActiveRun` finds it, and no other |
| Orchestrator.Runner.SetStep | backend/src/services/orchestrator.js:266-273 | only the project's entry changes, to the prior entry stepped; the step is reported |
| Orchestrator.Runner.Expire | backend/src/services/orchestrator.js:258-284 | the 120-second timer removes the entry and nothing else |
| Orchestrator.Runner.Step | backend/src/services/orchestrator.js:266-273 | a step keeps what the run wrote and extends its steps |
| Orchestrator.Runner.Update | backend/src/services/database.js:104-114 | an `updateProject` of bindable fields extends the run's writes by those fields and keeps the store valid |
| Orchestrator.Runner.Log | backend/src/services/database.js:128-133 | an `addLog` extends the run's writes by that line |
| Orchestrator.Runner.Begin | backend/src/services/orchestrator.js:51-53 | a stage opens with its step, its update and its `started` line |
| Orchestrator.Runner.Fail | backend/src/services/orchestrator.js:275-285 | the failed row and error line are written, the entry becomes `failed` with the message, and no workspace changes |
| Orchestrator.Runner.OnFatal | backend/src/services/orchestrator.js:33-38 | the project ends failed at `fatal_error` with the message and its entry is removed |
| Orchestrator.Runner.Plan | backend/src/services/orchestrator.js:51-55 | planning writes its opening and the planner's lines and returns the planner's outcome |
| Orchestrator.Runner.Planned | backend/src/services/orchestrator.js:61-67 | an accepted spec is written as `PlanDone` says |
| Orchestrator.Runner.BuildStep | backend/src/services/orchestrator.js:72-74 | the building stage opens |
| Orchestrator.Runner.BuildDoneStep | backend/src/services/orchestrator.js:82-89 | the built files are written as `BuildDone` says, with the `Object.keys` count and list in the log |
| Orchestrator.Runner.GenerateTests | backend/src/services/orchestrator.js:94-98 | test generation writes its opening and the QA agent's lines and returns the QA outcome |
| Orchestrator.Runner.AskQa | backend/src/agents/qa.js:53-82 | `runQA` appends its log lines and returns its outcome |
| Orchestrator.Runner.TestsGenerated | backend/src/services/orchestrator.js:104-108 | bindable test files are stored and announced with their count |
| Orchestrator.Runner.ExecuteOnce | backend/src/services/orchestrator.js:116-117 | one execution in a new workspace, its results stored; only that workspace is added |
| Orchestrator.Runner.FirstTests | backend/src/services/orchestrator.js:113-129 | the first execution writes `FirstRun` and its results line and returns `Execute`'s result |
| Orchestrator.Runner.Retest | backend/src/services/orchestrator.js:144-165 | the new files are stored, the first workspace removed, and the new files retested in a new workspace |
| Orchestrator.Runner.Rebuild | backend/src/services/orchestrator.js:141-171 | with a rebuild: the new files and the retest's result; otherwise the failure line and the original files and result, no workspace changed |
| Orchestrator.Runner.RetryStart | backend/src/services/orchestrator.js:135-139 | the retry's announcement, step `retrying` at 72 and `retry_count` 1 |
| Orchestrator.Runner.RetryVerdict | backend/src/services/orchestrator.js:173-177 | the below-threshold line is written exactly when the last rate is below the threshold |
| Orchestrator.Runner.Retry | backend/src/services/orchestrator.js:134-178 | the writes `RetryScript` describes, the rebuild's files and result, or the first ones when no rebuild |
| Orchestrator.Runner.TestAndRetry | backend/src/services/orchestrator.js:113-178 | testing writes what `Tested` says and returns the phase's files and results; only the last workspace remains |
| Orchestrator.Runner.CloseTests | backend/src/services/orchestrator.js:180-187 | the last workspace is removed, the final rate line and `tests_complete` written |
| Orchestrator.Runner.RunTests | backend/src/services/orchestrator.js:113-187 | testing writes `TestingScript`, returns the phase's files and results and leaves no workspace behind |
| Orchestrator.Runner.Pushed | backend/src/services/orchestrator.js:203-208 | the push's answer written as `Pushing` says, returning the pushed URL |
| Orchestrator.Runner.Github | backend/src/services/orchestrator.js:192-211 | the GitHub step writes `GithubScript` and returns the URL `Published` gives |
| Orchestrator.Runner.Publish | backend/src/services/orchestrator.js:192-213 | the GitHub step and `github_done`, returning the published URL |
| Orchestrator.Runner.Delivered | backend/src/services/orchestrator.js:228-233 | the deployment's answer written as `Delivering` says, returning the deployed URL |
| Orchestrator.Runner.Deploying | backend/src/services/orchestrator.js:223-233 | an attempted deployment: its opening, then the answer |
| Orchestrator.Runner.DeployStage | backend/src/services/orchestrator.js:218-238 | the deployment step writes `DeployScript` and returns the URL `Deployed` gives |
| Orchestrator.Runner.Finish | backend/src/services/orchestrator.js:243-256 | the end writes `FinishScript` |
| Orchestrator.Runner.RunTail | backend/src/services/orchestrator.js:192-256 | push, deployment and the end, returning the published and deployed URLs |
| Orchestrator.Runner.RunFinish | backend/src/services/orchestrator.js:113-256 | the writes of `FinishedCourse`, leaving no workspace behind |
| Orchestrator.Runner.RunGenerated | backend/src/services/orchestrator.js:104-256 | stored tests, then the writes of `FinishedCourse` |
| Orchestrator.Runner.RunQa | backend/src/services/orchestrator.js:94-264 | the writes and registry of `QaCourse`, and the promise rejects with the bind error exactly when the tests cannot be stored |
| Orchestrator.Runner.RunBuild | backend/src/services/orchestrator.js:72-264 | the writes and registry of `BuildCourse`, rejecting exactly when it crashes |
| Orchestrator.Runner.RunPlanned | backend/src/services/orchestrator.js:57-264 | the writes and registry of `CourseFrom` |
| Orchestrator.Runner.RunPipelineAsync | backend/src/services/orchestrator.js:43-264 | the store holds what `CourseOf` describes, the registry ends as the course does, the promise rejects exactly when the course crashes, and no workspace is left behind |
| Orchestrator.Runner.Catch | backend/src/services/orchestrator.js:33-38 | a rejected run adds the fatal writes and leaves the registry; a resolved one is left as it is |
| Orchestrator.Runner.Register | backend/src/services/orchestrator.js:24-31 | the new project's row with the derived name, and its `queued` entry |
| Orchestrator.Runner.Launch | backend/src/services/orchestrator.js:33-38 | the run and its `catch`: the store holds the concluded writes and the registry ends unregistered when it rejected |
| Orchestrator.Runner.StartPipeline | backend/src/services/orchestrator.js:23-41 | always answers `started` with the new id; the new project's row and everything its run concludes are written, and a rejected run leaves the registry |
| Database.StoredCell | backend/src/services/database.js:108-111 | a non-null object or array is stored as its JSON text, null as NULL, strings and numbers as they are |
| Database.StoredCells | backend/src/services/database.js:107-111 | every named field is stored, each as `StoredCell` says, and no other |
| Database.NewRow | backend/src/services/database.js:24-88 | a new project row has every column of the table |
| Database.Updated | backend/src/services/database.js:107-113 | the named columns take their stored values, `updated_at` the time, and every other column is unchanged |
| Database.Apply | backend/src/services/database.js:104-114 | an update with no fields changes nothing; any other is `Updated` |
| Database.ApplyTwice | backend/src/services/database.js:104-114 | two updates at one time are one update with the fields merged, the later value winning |
| Database.UpdatedTwice | backend/src/services/database.js:107-113 | the same for two non-empty updates |
| Database.StoredCellsMerge | backend/src/services/database.js:108-111 | storing merged fields is merging the stored cells |
| Database.Entry | backend/src/services/database.js:128-133 | the log row holds the id, project, time, stage, status and message; `data` is NULL exactly when the payload is falsy, its JSON text otherwise |
| Database.Entries | backend/src/services/database.js:128-133 | consecutive `addLog` calls give one row per line with consecutive ids |
| Database.EntriesAppend | backend/src/services/database.js:128-133 | the rows of two runs of lines are the rows of their concatenation |
| Database.EntriesSnoc | backend/src/services/database.js:128-133 | one more line adds exactly its row after the others |
| Database.Select | backend/src/routes/pipeline.js:99-101 | a `WHERE` query keeps exactly the rows it matches, in their order, so increasing ids stay increasing |
| Database.Store.constructor | backend/src/services/database.js:20-57 | the tables start empty |
| Database.Store.SeedDefaults | backend/src/services/database.js:59-70 | nothing changes when `openai_model` is present; otherwise every default key is present afterwards; no existing value changes, and every added key carries its default |
| Database.Store.GetSetting | backend/src/services/database.js:75-78 | the stored value, or null exactly for an absent key |
| Database.Store.SetSetting | backend/src/services/database.js:80-82 | insert or replace: only that key changes and reading it gives the value back |
| Database.Store.CreateProject | backend/src/services/database.js:84-90 | only the new row is added, with status `pending`, step `queued`, retry count 0 and null spec, files, tests and results, and it is returned |
| Database.Store.GetProject | backend/src/services/database.js:92-94 | null exactly for an unknown id, else that project's row |
| Database.Store.UpdateProject | backend/src/services/database.js:104-114 | an unknown id changes nothing; otherwise only that row changes, as `Apply` says |
| Database.Store.AddLog | backend/src/services/database.js:43-133 | exactly one row is appended, its id above every earlier id |
| Database.Store.AddLogs | backend/src/services/database.js:128-133 | several `addLog` calls append exactly their rows |
| Database.Store.DeleteProject | backend/src/services/database.js:123-126 | the project and exactly its logs are removed; every other project and log is kept, in order |
| Json.Lookup | backend/src/agents/planner.js:97 | reading a property finds a member with that key, and undefined exactly when no member has it |
| Json.LookupLast | backend/src/agents/planner.js:97 | the value read is that of the last member with the key, as `JSON.parse` keeps the last duplicate |
| Json.LookupLastWins | backend/src/agents/planner.js:97 | of two members with the same key, reading the key gives the second value |
| Json.IndexValue | backend/src/agents/qa.js:100 | a key names an array index only below 2^32 - 1 |
| Json.IndexValueText | backend/src/agents/qa.js:100 | an array-index key is exactly the decimal text of its index |
| Json.IndexValueOf | backend/src/agents/qa.js:100 | every number below 2^32 - 1 written in decimal is an array-index key |
| Json.FirstKeys | backend/src/agents/qa.js:100 | each key once, the same keys, and distinct keys unchanged |
| Json.FirstKeysOrder | backend/src/agents/qa.js:100 | the keys come in the order of their first occurrence: each occurs before any occurrence of every later key |
| Json.KeepKeysOrder | backend/src/agents/qa.js:100 | keeping only the index (or only the other) keys keeps that first-occurrence order |
| Json.KeepKeysMembers | backend/src/agents/qa.js:100 | the kept keys are exactly the keys of the kind asked for |
| Json.SortedOf | backend/src/agents/qa.js:100 | the same numbers, each once, strictly ascending |
| Json.IndexKeys | backend/src/agents/qa.js:100 | the array-index keys, each once, in ascending numeric order |
| Json.IndexKeysOrdered | backend/src/agents/qa.js:100 | in property order the index keys already come first and ascending |
| Json.PropertyKeys | backend/src/agents/qa.js:100 | `Object.keys` of a parsed object: exactly its keys, each once, index keys first and ascending, then the rest in first-insertion order |
| Json.PropertyKeysInsertionOrder | backend/src/agents/qa.js:100 | each non-index key of `Object.keys` occurs among the members before any member with a later key: first-insertion order, a repeated key keeping its first place |
| Json.PropertyKeysOrdered | backend/src/agents/qa.js:100 | distinct keys already in property order are listed as they are |
| Json.Enumerated | backend/src/agents/qa.js:100 | the entries are listed in property order and each holds the value the object holds for its key |
| Json.LookupEnumerated | backend/src/agents/qa.js:100 | the entries are in property order, and reading a key from them reads what the object holds |
| Json.EnumeratedOrdered | backend/src/agents/qa.js:100 | an object already in property order is enumerated as it is |
| Json.ObjectEntries | backend/src/agents/qa.js:100 | `Object.entries`: an object's entries in property order; an array's and a string's positions with their elements; nothing for null, booleans and numbers |
| Json.Keys | backend/src/services/orchestrator.js:83-88 | the keys of the built files, one per file, in order |
| Json.FilesJson | backend/src/services/orchestrator.js:84 | the built files as an object with one string member per file, in order |
| Json.FilesLookup | backend/src/routes/projects.js:85-88 | reading a path finds a content written under it, and nothing for a path never written |
| Json.Stringify | backend/src/services/database.js:108-111 | `JSON.stringify` of an object column written by `updateProject`; no ensures of its own, carried by StoredJson.StoredThenRead |
| Json.StrArray | backend/src/agents/qa.js:74 | an array of the strings, one item each: item i is string i |
| StoredJson.SafeJsonParse | backend/src/routes/pipeline.js:165-172 | null for a falsy cell; a non-zero number as it is; the parsed value of a text, or the text itself when it does not parse |
| StoredJson.StoredThenRead | backend/src/routes/pipeline.js:165-172 | an object stored by `updateProject` is read back by `safeJsonParse` unchanged |
| StoredJson.Property | backend/src/routes/projects.js:85 | `files[path]` of an object: undefined exactly when no member has the key, else a member's value; undefined for null, booleans and numbers |
| StoredJson.PropertyIsEntry | backend/src/routes/projects.js:85 | reading a key agrees with the entries `Object.entries` lists |
| StoredJson.FilesEntries | backend/src/agents/qa.js:93 | the entries of stored files in property order are the files, one per path, in order |
| StoredJson.FilesProperty | backend/src/routes/projects.js:85-88 | reading a path from stored files finds a content written under it, and nothing for a path not written |
| Qa.DigitRunEnd | backend/src/agents/qa.js:200-202 | the end of the run of digits from a position: all digits before it, none at it |
| Qa.SpaceRunEnd | backend/src/agents/qa.js:200-202 | the end of the run of white space from a position |
| Qa.CountAtIsRegex | backend/src/agents/qa.js:200-202 | the scanner's match test is exactly the regular expression `(\d+)\s+word` matching at that position |
| Qa.FirstCount | backend/src/agents/qa.js:200-202 | the first position from which the pattern matches, and no match before it; None exactly when it never matches |
| Qa.CountOf | backend/src/agents/qa.js:204-206 | 0 when the pattern does not match |
| Qa.CountOfIsLeftmostMatch | backend/src/agents/qa.js:200-206 | the count is the decimal value of the digits of the leftmost match of `(\d+)\s+word` |
| Qa.QuotientBounds | backend/src/agents/qa.js:208 | the integer quotient is the floor of the division |
| Qa.Percentage | backend/src/agents/qa.js:208 | 0 when there are no tests |
| Qa.PercentageRounds | backend/src/agents/qa.js:208 | the percentage is 100 * passed / total rounded to the nearest integer, halves up, as `Math.round` does |
| Qa.PercentageBounds | backend/src/agents/qa.js:208 | never above 100, and exactly 100 when every test passed |
| Qa.ParseTestOutput | backend/src/agents/qa.js:199-211 | passed, failed and errors are the counts of their words, total is their sum, and the percentage is the rounded pass rate, at most 100 |
| Qa.LastBreak | backend/src/agents/qa.js:187 | the last line terminator in a range, or None when there is none |
| Qa.CloseFenceEnd | backend/src/agents/qa.js:187 | the end of a closing fence and its trailing space lies past its three backticks |
| Qa.NoFenceUnchanged | backend/src/agents/qa.js:187 | a reply without a fence is left unchanged by both fence strippers |
| Qa.StripOpenFences | backend/src/agents/qa.js:187 | `replace(/^```(?:json)?\s*/gm, '')`; no ensures of its own, carried by Qa.NoFenceUnchanged, Qa.FencedOpenStripped and Qa.FencedReplyCleaned |
| Qa.StripCloseFences | backend/src/agents/qa.js:187 | `replace(/```\s*$/gm, '')`; no ensures of its own, carried by Qa.NoFenceUnchanged and Qa.FencedReplyCleaned |
| Qa.CleanReply | backend/src/agents/qa.js:187 | both replacements, then `trim`; no ensures of its own, carried by Qa.NoFenceUnchanged and Qa.FencedReplyCleaned |
| Qa.FencedOpenStripped | backend/src/agents/qa.js:187 | for a reply that is one block between a ```` ```json ```` or ```` ``` ```` line and a closing ```` ``` ```` line, the opening replacement removes both fences' backticks and the white space after the opening one, leaving the body and its line break |
| Qa.FencedReplyCleaned | backend/src/agents/qa.js:187 | such a fenced reply cleans to exactly the trimmed body |
| Qa.FirstOpenBrace | backend/src/agents/qa.js:191 | the first `{` from a position, none before it; None exactly when there is none |
| Qa.LastCloseBrace | backend/src/agents/qa.js:191 | the last `}` in a range, none after it; None exactly when there is none |
| Qa.BracedSpan | backend/src/agents/qa.js:191 | `/\{[\s\S]*\}/`: the span from the first `{` to the last `}`; None exactly when no `{` comes before a `}` |
| Qa.ParseTestFiles | backend/src/agents/qa.js:186-197 | the cleaned reply's parse when it parses; otherwise the braced span's parse, and the `failed to produce valid JSON` error when there is no span |
| Qa.QaOutcome | backend/src/agents/qa.js:53-82 | a failed call fails with its message; a parse failure fails with its error; null test files fail with `Object.keys`' TypeError; every other parsed value succeeds, as parsed |
| Qa.QaLog | backend/src/agents/qa.js:54-79 | two lines of stage `qa`, the second `success` exactly when the tests were generated and `error` otherwise |
| Qa.RunQA | backend/src/agents/qa.js:53-82 | returns `QaOutcome` and appends exactly the two lines of `QaLog` |
| Qa.HasDirUpdate | backend/src/agents/qa.js:117 | writing a file outside a directory does not change whether the directory exists |
| Qa.FileValue | backend/src/agents/qa.js:93-105 | the content of the last entry for a path, None exactly when there is none |
| Qa.MaterializeLookup | backend/src/agents/qa.js:93-105 | after the writes a path holds its last written content, and the earlier content when it was not written |
| Qa.TestFilesWin | backend/src/agents/qa.js:93-105 | a test file replaces a generated file at the same path; a path only generated keeps the generated content |
| Qa.WriteError | backend/src/agents/qa.js:107-118 | writing a marker fails exactly when its directory does not exist |
| Qa.AddMarkers | backend/src/agents/qa.js:107-119 | existing files are kept; added files are empty markers; both `__init__.py` files exist afterwards and `routers/__init__.py` does when `routers` exists; writing fails exactly when there is no `tests` directory and no `tests/__init__.py` |
| Qa.Workspaces.constructor | backend/src/agents/qa.js:88 | no workspace exists at first |
| Qa.Workspaces.MakeDir | backend/src/agents/qa.js:91 | the workspace is created, or kept when it exists |
| Qa.Workspaces.WriteFile | backend/src/agents/qa.js:97-104 | only that file of that workspace changes |
| Qa.Workspaces.CleanupWorkspace | backend/src/agents/qa.js:176-184 | never fails; removes an existing workspace and does nothing for an empty or unknown path |
| Qa.InstallOutput | backend/src/agents/qa.js:131 | the precedence of `stdout \|\| '' + ...`: a non-empty stdout is the whole output |
| Qa.ExitCodeOf | backend/src/agents/qa.js:143-151 | 0 for a clean run; a failed run never gives 0: its non-zero code, or 1 |
| Qa.SetupFailed | backend/src/agents/qa.js:166-173 | a setup failure gives zero counts, no exit code, the workspace path and one error line |
| Qa.RunSubprocesses | backend/src/agents/qa.js:121-165 | a failed install gives zero counts, no exit code and the `Dependency installation failed:` output; otherwise the exit code, pytest's output and its parsed counts; the path is always carried |
| Qa.InstallFailure | backend/src/agents/qa.js:130-138 | a failed install logs one line |
| Qa.PytestRun | backend/src/agents/qa.js:140-165 | running pytest logs two lines |
| Qa.PytestOutput | backend/src/agents/qa.js:149-153 | stdout, a newline, stderr, whether pytest exited cleanly or not; no ensures of its own, carried by Qa.RunSubprocesses |
| Qa.VerdictStatus | backend/src/agents/qa.js:160 | `success` from 80 percent up, else `warning`, whatever the setting; no ensures of its own, it is the status Qa.PytestRun logs |
| Qa.CompletedMessage | backend/src/agents/qa.js:161 | `Tests completed: <passed>/<total> passed (<percentage>%)`; no ensures of its own, it is the message Qa.PytestRun logs |
| Qa.ContentError | backend/src/agents/qa.js:104 | a non-string test file content raises `writeFile`'s TypeError |
| Qa.TextCount | backend/src/agents/qa.js:100-105 | the test files written before the first one whose content is not a string |
| Qa.Texts | backend/src/agents/qa.js:100-105 | string contents as files, one per entry, in order |
| Qa.LayoutOf | backend/src/agents/qa.js:91-119 | the generated files, then the test files up to the first non-text content, which stops the set-up, else the markers; `Object.entries(null)` throws first; no ensures of its own, carried by Qa.TextTestsLaidOut and the other layout lemmas |
| Qa.TextTestsLaidOut | backend/src/agents/qa.js:93-119 | with only string contents the workspace is the generated files, then the test files, then the markers |
| Qa.NonTextStopsSetup | backend/src/agents/qa.js:100-173 | a non-string content stops the setup with the TypeError, and no file after it is written |
| Qa.FilesLaidOut | backend/src/agents/qa.js:93-119 | test files given as path and text in property order are laid out as the generated files, then those files, then the markers |
| Qa.FilesTexts | backend/src/agents/qa.js:100 | the entries of such files are exactly those files, as texts |
| Qa.Execute | backend/src/agents/qa.js:84-174 | the result carries the workspace path; a workspace exists exactly when `mkdir` succeeded and then holds the layout; there is an exit code exactly when setup and install succeeded |
| Qa.WriteAll | backend/src/agents/qa.js:93-98 | the workspace becomes the files written in order over what it held |
| Qa.WriteMarkers | backend/src/agents/qa.js:107-119 | the workspace and the error are those of `AddMarkers` |
| Qa.WriteInitMarkers | backend/src/agents/qa.js:107-114 | the two `__init__.py` markers are added where absent |
| Qa.WriteRoutersMarker | backend/src/agents/qa.js:115-119 | the routers marker is added as `MarkRouters` says |
| Qa.WriteTests | backend/src/agents/qa.js:100-105 | the test files are written up to the first non-string content, which fails with its TypeError |
| Qa.LayOut | backend/src/agents/qa.js:91-119 | the workspace and the setup error are those of `LayoutOf` |
| Qa.RunTestProcesses | backend/src/agents/qa.js:121-165 | the result and lines of `RunSubprocesses`, appended to the log |
| Qa.ReportInstallFailure | backend/src/agents/qa.js:130-138 | the result and line of `InstallFailure`, appended to the log |
| Qa.RunPytest | backend/src/agents/qa.js:140-165 | the result and lines of `PytestRun`, appended to the log |
| Qa.ExecuteTests | backend/src/agents/qa.js:84-174 | the result and log lines of `Execute`, and the workspace it lays out, added to the others |
| Qa.RunAfterSetup | backend/src/agents/qa.js:121-173 | a setup error is reported as such; otherwise the subprocesses run |
| Qa.ReportSetupFailure | backend/src/agents/qa.js:166-173 | the result and line of `SetupFailed`, appended to the log |
| SettingsRoutes.SettingText | backend/src/routes/settings.js:68-74 | `String(value)` of an accepted value: a string is stored as it is, and a number as text that `parseInt` reads back as that number |
| SettingsRoutes.Refusal | backend/src/routes/settings.js:63-71 | an unknown key is refused as `Unknown setting key` whatever its value; an allowed key is refused exactly when its value is neither a string nor a number |
| SettingsRoutes.Put | backend/src/routes/settings.js:52-82 | a body that is not an object (arrays are objects) gets the 400 and changes nothing; otherwise the reply partitions its entries, the settings hold every accepted value, and the LLM client is reset exactly when `openai_api_key` was applied |
| SettingsRoutes.ApplyEntries | backend/src/routes/settings.js:59-81 | the loop: the applied keys and rejections in input order, every accepted value stored as text, the reset exactly when `openai_api_key` is applied |
| SettingsRoutes.PartitionCounts | backend/src/routes/settings.js:62-79 | every entry lands in exactly one of `applied` and `rejected` |
| SettingsRoutes.PartitionAppend | backend/src/routes/settings.js:62-79 | the partition of concatenated entries is the concatenation of the partitions, so input order is kept |
| SettingsRoutes.EveryEntryLands | backend/src/routes/settings.js:62-79 | an accepted entry's key is among the applied keys; a refused entry is among the rejections with its reason |
| SettingsRoutes.LastAcceptedWins | backend/src/routes/settings.js:73 | the last accepted value of a key is the one stored, as its `String` text |
| SettingsRoutes.UntouchedKeys | backend/src/routes/settings.js:62-79 | a key never accepted keeps its stored value, or stays absent |
| SettingsRoutes.LastFour | backend/src/routes/settings.js:32 | `slice(-4)`: the last four characters, or the whole of a shorter value |
| SettingsRoutes.Shown | backend/src/routes/settings.js:31-35 | other keys are shown as stored; a sensitive key is null exactly when empty, else `***` and its last four characters |
| SettingsRoutes.MaskShowsOnlyTail | backend/src/routes/settings.js:32 | two secrets that end alike are shown alike, so the mask reveals nothing before the last four characters |
| SettingsRoutes.EnvOverrides | backend/src/routes/settings.js:38-42 | exactly the keys whose environment variable is set and non-empty |
| SettingsRoutes.View | backend/src/routes/settings.js:25-45 | every stored key is shown as `Shown` says, and the overrides are `EnvOverrides` |
| SettingsRoutes.IntegrationStatus | backend/src/routes/settings.js:88-101 | `ready` is exactly whether an OpenAI key is set in the environment or the settings |
| SettingsRoutes.DeployFollowsStatus | backend/src/routes/settings.js:91-92 | the provider the status page reports as configured is the one deployment uses: Railway, else Render, else the manual URL |
| ProjectRoutes.Utf8Bytes | backend/src/routes/projects.js:63 | one to four bytes per character, one exactly for ASCII |
| ProjectRoutes.Utf8LengthAppend | backend/src/routes/projects.js:63 | the byte length of a concatenation is the sum of the byte lengths |
| ProjectRoutes.Utf8LengthBounds | backend/src/routes/projects.js:63 | a text has between one and four bytes per character, exactly one for ASCII text |
| ProjectRoutes.OccurrencesAppend | backend/src/routes/projects.js:64 | newlines of a concatenation add up |
| ProjectRoutes.LinesJoin | backend/src/routes/projects.js:64 | joining two texts with a newline adds their line counts |
| ProjectRoutes.FileListing | backend/src/routes/projects.js:59-66 | one entry per file in order, with its path, UTF-8 byte size and newline count plus one; fails exactly when some content is not text, with `Buffer.byteLength`'s TypeError for the first such content, including its `Received` description |
| ProjectRoutes.NotText | backend/src/routes/projects.js:63 | `Buffer.byteLength`'s TypeError text: Node's argument-type message followed by the description of the value received |
| Json.Received | backend/src/routes/projects.js:63 | Node's description of a received non-string value; a number is described as `type number (<n>)` |
| ProjectRoutes.FilesRoute | backend/src/routes/projects.js:45-69 | 404 exactly for an unknown project; an empty listing when no files are stored; otherwise the listing of the stored files' entries, or the 500 carrying the TypeError of the first non-text content |
| ProjectRoutes.StoredFilesListed | backend/src/routes/projects.js:54-66 | files the run stored are listed back, each with its path, size and line count, in order |
| ProjectRoutes.FileRoute | backend/src/routes/projects.js:75-91 | 404 for an unknown project; the content exactly when files are stored and the path's content is truthy; otherwise `File not found: <path>` |
| ProjectRoutes.StoredFileServed | backend/src/routes/projects.js:85-90 | a stored file is served with its content, and a path the run did not write is not found |
| ProjectRoutes.DownloadName | backend/src/routes/projects.js:111-114 | the project name, or `project` when it is empty, lowered, every character outside `[a-z0-9]` made `-`, cut to 50 units; no ensures of its own, carried by ProjectRoutes.DownloadNameShape |
| ProjectRoutes.DownloadNameShape | backend/src/routes/projects.js:111-114 | the download name has 1 to 50 characters, each a lower-case letter, a digit or `-`, and sanitizing it again changes nothing |
| ProjectRoutes.DownloadRoute | backend/src/routes/projects.js:97-127 | 404 exactly for an unknown project; 400 exactly when no files are stored; otherwise `<safe name>.zip` with every entry of the files, a null name read as `project` |
| ProjectRoutes.DeleteRoute | backend/src/routes/projects.js:133-146 | 404 and nothing changed for an unknown id; otherwise the project and exactly its logs are removed |
| ProjectRoutes.OthersKeepTheirLogs | backend/src/routes/projects.js:142-143 | after a delete the project has no logs and every other project's logs are as they were |
| PipelineViewer.StageIndex | src/components/PipelineViewer.jsx:244-247 | the stage index is -1 or a position in the indexed statuses |
| PipelineViewer.StageIndexInverse | src/components/PipelineViewer.jsx:244-247 | a non-negative index holds exactly for the indexed statuses and points back at the status; `failed` gives -1 |
| PipelineViewer.ActiveStages | src/components/PipelineViewer.jsx:249-259 | the rows whose active status equals the project status; no ensures of its own, carried by PipelineViewer.ActiveStagesShape |
| PipelineViewer.ActiveStagesShape | src/components/PipelineViewer.jsx:102-259 | the four stage statuses light their own row, `deploying` lights the GitHub and Deploy rows, every other status lights none |
| PipelineViewer.ShownStageStatus | src/components/PipelineViewer.jsx:100-101 | a row shows a non-empty status, `pending` when the stage is absent |
| PipelineViewer.IconKey | src/components/PipelineViewer.jsx:26-103 | the icon key is a known status: the status itself when known, `pending` otherwise |
| PipelineViewer.UnloggedStageIcon | src/components/PipelineViewer.jsx:100-103 | a stage with no log line shows the `skipped` icon in a failed project and the `pending` icon otherwise |
| PipelineViewer.NoRowEverHighlighted | src/components/PipelineViewer.jsx:102-259 | for every status the backend writes, no row is highlighted |
| PipelineViewer.StepStage | src/components/PipelineViewer.jsx:17-24 | `planning`, `building`, `testing`, `retrying` and `github` light their own row, `executing_tests` the Testing row, `deploying` the Deploy row; every other step lights none, and a lit row is in the stage table |
| PipelineViewer.StepHighlightsItsStage | src/components/PipelineViewer.jsx:102 | with the correction, a running project lights exactly the row of its current step, and no row otherwise |
| PipelineViewer.EveryRowLit | src/components/PipelineViewer.jsx:17-24 | with the correction, every row is lit by some step of the run |
| PipelineViewer.StopsPolling | src/components/PipelineViewer.jsx:56-57 | polling stops on `completed`, `failed` and `cancelled`; no ensures of its own, carried by PipelineViewer.PollsAfterWarnings and PipelineViewer.PollingStopsWhenFinal |
| PipelineViewer.PollsAfterWarnings | src/components/PipelineViewer.jsx:56-57 | `completed_with_warnings` is final on the backend, yet polling does not stop on it |
| PipelineViewer.PollingStopsWhenFinal | src/components/PipelineViewer.jsx:56-57 | with the correction, polling stops exactly on the statuses other than `pending` and `running`, and on every status it stopped on before |
| ProjectsPage.FormatDate | src/pages/ProjectsPage.jsx:165-178 | the relative date is empty exactly when no date string is given |
| ProjectsPage.JustNow | src/pages/ProjectsPage.jsx:170-172 | less than a minute ago reads `just now` |
| ProjectsPage.MinutesAgo | src/pages/ProjectsPage.jsx:170-173 | n whole minutes ago, with n from 1 to 59, reads `<n>m ago` |
| ProjectsPage.HoursAgo | src/pages/ProjectsPage.jsx:174-175 | n whole hours ago, with n from 1 to 23, reads `<n>h ago` |
| ProjectsPage.DaysAgo | src/pages/ProjectsPage.jsx:176-177 | n whole days ago, with n at least 1, reads `<n>d ago` |
| ProjectsPage.UnparsableDate | src/pages/ProjectsPage.jsx:167-177 | a date that does not parse reads `NaNd ago` |
| ProjectsPage.LookupStyle | src/pages/ProjectsPage.jsx:15-93 | a style is found exactly when the status is listed, and it is the listed style |
| ProjectsPage.StyledStatusesListed | src/pages/ProjectsPage.jsx:15-25 | the styled statuses are exactly the nine listed |
| ProjectsPage.StatusConfig | src/pages/ProjectsPage.jsx:93 | `statusConfig[status] \|\| statusConfig.pending`; no ensures of its own, carried by ProjectsPage.StatusConfigEntries |
| ProjectsPage.StatusConfigEntries | src/pages/ProjectsPage.jsx:15-93 | a listed status gets its own style and an unlisted one the `Pending` style; no other listed status looks like `Pending`; the icon spins exactly for the five in-progress statuses |
| ProjectsPage.RunningShownPending | src/pages/ProjectsPage.jsx:93 | the backend's `running` and `completed_with_warnings` statuses are shown with the `Pending` badge |
| ProjectsPage.FixedBadgeForEveryStatus | src/pages/ProjectsPage.jsx:93 | with the correction, no backend status other than `pending` is shown as `Pending`, and the icon spins exactly while running |
| Planner.MissingField | backend/src/agents/planner.js:95-100 | no field is reported exactly when every required field from the given one on is truthy; a reported field is one of them |
| Planner.NoneMissing | backend/src/agents/planner.js:95-100 | nothing is missing exactly when all four required fields are truthy |
| Planner.ModelError | backend/src/agents/planner.js:118-122 | a model is refused exactly when it lacks a truthy name or an array of fields |
| Planner.ModelErrorQuotes | backend/src/agents/planner.js:120 | the refusal reads `Invalid model definition: ` and then a prefix of the model's JSON text of at most 100 UTF-16 units, the whole text when it fits |
| Planner.EndpointError | backend/src/agents/planner.js:124-128 | an endpoint is refused exactly when it lacks a truthy method or path |
| Planner.EndpointErrorQuotes | backend/src/agents/planner.js:126 | the refusal reads `Invalid endpoint definition: ` and then a prefix of the endpoint's JSON text of at most 100 UTF-16 units, the whole text when it fits |
| Planner.FirstBadModel | backend/src/agents/planner.js:118-122 | the position of the first ill-formed model, every model before it well formed |
| Planner.FirstBadEndpoint | backend/src/agents/planner.js:124-128 | the position of the first ill-formed endpoint, every endpoint before it well formed |
| Planner.ShapeError | backend/src/agents/planner.js:102-128 | the spec passes the count and shape checks exactly when it is well shaped; an empty model list and more than six models get their own messages |
| Planner.Validate | backend/src/agents/planner.js:94-129 | accepted exactly when well formed; a null reply fails reading `app_name`; the first missing field, an empty model list and too many models are reported with the source's messages |
| Planner.MissingFieldIsFirst | backend/src/agents/planner.js:95-100 | the first missing required field in the listed order is the one reported |
| Planner.PlannerOutcome | backend/src/agents/planner.js:76-91 | success exactly for a parsed, well-formed reply, which is returned as the spec; a failed call reports its message; a parsed reply that fails carries the validation message |
| Planner.AcceptedIsObject | backend/src/agents/planner.js:94-100 | an accepted spec is a JSON object |
| Planner.PlannerLog | backend/src/agents/planner.js:70-89 | two planner lines, the second `success` exactly when the plan is accepted and `error` otherwise |
| Planner.RunPlanner | backend/src/agents/planner.js:69-92 | returns the planner's outcome and appends exactly its two log lines |

## Left out

- Json.JNum: JSON numbers are integers. The source stores `String(value)`, so `PUT /api/settings` with `{"test_threshold": 85.5}` stores `85.5`, which SettingsRoutes.SettingText cannot produce. Floating-point numbers and their printing are not modelled.
- Strings.ToLower: lowers ASCII letters only. `toLowerCase` maps other characters too, such as the Kelvin sign to `k` and `İ` to `i̇`.
- Deploy.SanitizedName: built on the ASCII-only Strings.ToLower, so it differs from the source for names with non-ASCII capitals.
- ProjectRoutes.DownloadName: built on the ASCII-only Strings.ToLower, so it differs from the source for names with non-ASCII capitals.
- Qa.Workspaces: the workspace is a map keyed by the raw relative paths, without `path.join` normalisation. So `./a.py` and `a.py` are two files here and one file in the source.
- Orchestrator.Runner.RunPipelineAsync: `ws.dirs == old(ws.dirs)` is stronger than the program. A test file named `../x` is written outside the workspace, and `cleanupWorkspace` never removes it.
- Database.Store.AddLog: requires the project to exist. A `DELETE /api/projects/:id` during a run makes the source's `addLog` throw on the foreign key, and the model has no deletes interleaved with a run.
- Planner.RunPlanner: requires the project to exist, for the same reason as Database.Store.AddLog.
- Orchestrator.Runner: its `now` and the store's `clock` are fixed for a whole run. The registry's started and updated times and the row's `updated_at` therefore carry one value per run.
- Orchestrator.Runner.RunPipelineAsync: reads the settings once, at the start of the run. The source reads `github_token` again at backend/src/services/orchestrator.js:193 and the deploy tokens again at :219. A settings change during a run is not modelled.
- Qa.ExitCodeOf: takes the exit code as an optional integer. A string code from `exec`, such as `ENOENT`, which `code || 1` passes through, is not modelled.
- Planner.ModelError: when unit 100 of the model's JSON text falls inside a surrogate pair, `substring` keeps the lone high surrogate. The model's strings hold whole characters, so the message stops before that character.
- Planner.EndpointError: cuts at unit 100 the same way, with the same difference for a surrogate pair split at unit 100.
- Json.Received: describes numbers, booleans, null, arrays and objects only. A string never reaches it. Node prints a number of more than 21 digits in exponent form and shortens a printed value longer than 28 characters; neither is modelled, since JSON numbers are unbounded integers here.
- SettingsRoutes.LastFour: counts characters, where `slice(-4)` counts UTF-16 code units. The two differ for characters outside the Basic Multilingual Plane.
- Json.ObjectEntries: gives one entry per character of a string. `Object.entries` gives one per UTF-16 code unit.
- Json.Stringify: writes an object's members in the order it holds them, and writes a key it holds twice twice. `JSON.stringify` writes each own key once, in property order, with its last value. So for a planner answer with a repeated or index-like key, the logged plan (`Orchestrator.PlanDone`'s log data) and the stored spec text differ from the program's.
- StoredJson.FilesEntries and ProjectRoutes.StoredFilesListed: these lemmas assume the builder's file names are already in property order, which holds for names that are not array indices.
- StoredJson.Property: reads own properties only. `length` and prototype properties such as `constructor` are not modelled.
- PipelineViewer.StageIndex and ProjectsPage.StatusConfig: the lookup tables' prototype keys, such as `toString`, are not modelled.
- `JSON.parse` is a parameter. Lemmas about stored columns require it to read back what `JSON.stringify` wrote.
- The language model, the builder (`runBuilder`, `runBuilderRetry`) and `createGitHubRepo` are parameters given by their outcomes. The builder's source file is an unrelated HTML page, and `github.js` is not part of this model.
- The subprocesses (`pip install` and `pytest`), the file system and `fetch` are parameters given by their outcomes.
- The workspace directories themselves are not modelled. That covers an empty directory left by a file that failed to write, and a path that is both a directory and a file.
- Qa.ContentError: refuses every non-text content. `fs.promises.writeFile` also accepts iterables, so an array of strings is written as their concatenation in the source, and the model reports a setup failure instead. The rest of the `TypeError` wording follows Node's description of the received value.
- The 120-second registry expiry is the explicit operation Orchestrator.Runner.Expire, not a timer.
- Concurrency between runs, and between a run and the routes, is not modelled.
- Cancelling does not stop the run in the source either. A cancelled run that keeps going overwrites the status, and the model does not interleave the two.
- `listProjects`, `getProjectLogs`, `GET /api/projects` and `GET /api/projects/:id` are not modelled. They are plain reads of the tables.
- Database.Store.GetProject: returns the raw row. The routes parse its JSON columns through StoredJson.
- Qa.Percentage: `Math.round` of a floating-point quotient becomes integer half-up rounding. Ties could differ from IEEE arithmetic.
- ProjectsPage.FormatDate: takes the millisecond difference. Date parsing and `toLocaleTimeString` are not modelled.
- The following are not modelled:
  - JSX rendering, polling intervals and other browser effects;
  - the prompt texts;
  - Express's HTTP plumbing;
  - SQLite itself, whose tables are maps and sequences here.

## Findings

| source | as written | input that shows it | evidently intended | confidence | as-written member | corrected member |
|---|---|---|---|---|---|---|
| src/components/PipelineViewer.jsx:249-259 | a row is highlighted when the project status equals the row's stage, but the backend writes `pending`, `running`, `completed`, `completed_with_warnings`, `failed` and `cancelled` as statuses, never a stage name | a running project at step `building`: no row is highlighted | highlight the row of the project's `current_step` while it runs, with `executing_tests` lighting Testing and `github` lighting GitHub | not executed | PipelineViewer.NoRowEverHighlighted | PipelineViewer.StepHighlightsItsStage, PipelineViewer.EveryRowLit |
| src/components/PipelineViewer.jsx:56-57 | polling stops only on `completed`, `failed` and `cancelled` | a run ending `completed_with_warnings` is polled every two seconds for as long as the view is open | stop on every status other than `pending` and `running` | not executed | PipelineViewer.PollsAfterWarnings | PipelineViewer.PollingStopsWhenFinal |
| backend/src/routes/pipeline.js:132 | `datetime("now")` in double quotes; SQLite built without double-quoted string literals, as better-sqlite3 builds it, reads `"now"` as a column | `POST /api/pipeline/cancel/:id` for a running project: `no such column: now`, a 500, and the row keeps `running` | the row becomes `cancelled` with `Cancelled by user` and the current time | not executed; rests on the SQLite build option | PipelineRoutes.CancelAsWritten, PipelineRoutes.RunningNeverCancelled | PipelineRoutes.Cancel |
| src/pages/ProjectsPage.jsx:93 | the badge table is keyed by stage names, but the backend writes `running` and `completed_with_warnings` as statuses | a running project is listed with the `Pending` badge, and so is one completed with warnings | a badge for each status the backend writes | not executed | ProjectsPage.RunningShownPending | ProjectsPage.FixedBadgeForEveryStatus |

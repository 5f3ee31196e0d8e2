/**
 * The orchestrator: the run registry (`activeRuns`), `startPipeline` and the
 * sequential run `runPipelineAsync` over the store, the workspaces and the
 * registry. The agents, the GitHub push and the deployment platforms are
 * outcomes given as parameters; `Date.now()` is the field `now`.
 */
module Orchestrator {
  import opened Wrappers
  import opened Strings
  import opened Json
  import opened Config
  import opened Database
  import Planner
  import Qa
  import Deploy

  // ---------------------------------------------------------------------
  // The project name

  /** The characters the name keeps: `[a-zA-Z0-9\s-]`. */
  predicate NameChar(c: char) {
    IsAsciiLetter(c) || IsDigit(c) || IsSpace(c) || c == '-'
  }

  /** `.replace(/[^a-zA-Z0-9\s-]/g, '')`. */
  function KeepNameChars(s: string): (r: string)
    ensures |r| <= |s|
    ensures forall i :: 0 <= i < |r| ==> NameChar(r[i])
    ensures (forall i :: 0 <= i < |s| ==> NameChar(s[i])) ==> r == s
  {
    if s == [] then []
    else (if NameChar(s[0]) then [s[0]] else []) + KeepNameChars(s[1..])
  }

  lemma {:induction false} LengthWithinUnits(s: string)
    ensures |s| <= Utf16Length(s)
  {
    if s != [] {
      LengthWithinUnits(s[1..]);
    }
  }

  /**
   * The project name derived from the idea: its first 80 code units, with
   * every character outside ASCII letters, digits, whitespace and '-'
   * dropped, then trimmed. A surrogate half cut off at unit 80 is dropped by
   * the filter, so cutting at the last whole character gives the same name.
   */
  function DeriveName(idea: string): string {
    Trim(KeepNameChars(UnitsPrefix(idea, 80)))
  }

  /** A derived name is at most 80 characters, all name characters, with no space at either end. */
  lemma DeriveNameShape(idea: string)
    ensures var name := DeriveName(idea);
      && |name| <= 80
      && (forall i :: 0 <= i < |name| ==> NameChar(name[i]))
      && (name != [] ==> !IsSpace(name[0]) && !IsSpace(name[|name| - 1]))
  {
    var cut := UnitsPrefix(idea, 80);
    LengthWithinUnits(cut);
    var kept := KeepNameChars(cut);
    var lo, hi := TrimIsSlice(kept);
    SliceChars(kept, lo, hi);
  }

  /** Trimming returns a slice of its input. */
  lemma TrimIsSlice(s: string) returns (lo: nat, hi: nat)
    ensures lo <= hi <= |s| && Trim(s) == s[lo..hi]
  {
    var t := TrimStart(s);
    lo := |s| - |t|;
    var r := TrimEnd(t);
    hi := lo + |r|;
    assert t == s[lo..] && r == t[..|r|];
    assert r == s[lo..hi];
  }

  /** Every character of a slice is a character of the whole. */
  lemma SliceChars(s: string, lo: nat, hi: nat)
    requires lo <= hi <= |s| && forall i :: 0 <= i < |s| ==> NameChar(s[i])
    ensures forall i :: 0 <= i < hi - lo ==> NameChar(s[lo..hi][i])
  {
  }

  /** Every name character is a single UTF-16 code unit. */
  lemma {:induction false} NameCharsAreUnits(s: string)
    requires forall i :: 0 <= i < |s| ==> NameChar(s[i])
    ensures Utf16Length(s) == |s|
  {
    if s != [] {
      NameCharsAreUnits(s[1..]);
    }
  }

  /** A derived name derives to itself: deriving is idempotent. */
  lemma DeriveNameIdempotent(idea: string)
    ensures DeriveName(DeriveName(idea)) == DeriveName(idea)
  {
    var name := DeriveName(idea);
    DeriveNameShape(idea);
    NameCharsAreUnits(name);
    UnitsPrefixWhole(name, 80);
    var kept := KeepNameChars(UnitsPrefix(name, 80));
    assert kept == name;
    if name != [] {
      TrimUnchanged(name);
    } else {
      assert Trim(name) == name;
    }
  }

  // ---------------------------------------------------------------------
  // The run registry

  /** One entry of `activeRuns`: absent properties are None. */
  datatype RunProgress = RunProgress(
    step: string, progress: nat, startedAt: Option<int>, updatedAt: Option<int>, error: Option<string>)

  /** `activeRuns.get(id) || null`. */
  function RunOf(runs: map<string, RunProgress>, id: string): (r: Option<RunProgress>)
    ensures r.Some? <==> id in runs
  {
    if id in runs then Some(runs[id]) else None
  }

  /** The entry `startPipeline` registers. */
  function Queued(now: int): RunProgress {
    RunProgress("queued", 0, Some(now), None, None)
  }

  /**
   * The entry `setStep` writes: the prior entry (or `{}`) spread first, then
   * step, progress and the time, so every other property survives.
   */
  function Stepped(prior: Option<RunProgress>, step: string, progress: nat, now: int): (r: RunProgress)
    ensures (r.step, r.progress, r.updatedAt) == (step, progress, Some(now))
    ensures r.startedAt == (if prior.Some? then prior.value.startedAt else None)
    ensures r.error == (if prior.Some? then prior.value.error else None)
  {
    match prior
    case None => RunProgress(step, progress, None, Some(now), None)
    case Some(p) => p.(step := step, progress := progress, updatedAt := Some(now))
  }

  /** The entry `fail` writes: a new object, so `startedAt` is gone. */
  function Failed(error: string, now: int): (r: RunProgress)
    ensures r.step == "failed" && r.progress == 0 && r.startedAt.None?
  {
    RunProgress("failed", 0, None, Some(now), Some(error))
  }

  /** Two steps in a row: the second decides step, progress and time; the rest is the first prior's. */
  lemma SteppedTwice(prior: Option<RunProgress>, s1: string, p1: nat, t1: int, s2: string, p2: nat, t2: int)
    ensures Stepped(Some(Stepped(prior, s1, p1, t1)), s2, p2, t2) == Stepped(prior, s2, p2, t2)
  {
  }

  /** A step after `fail` keeps its error message and finds no start time. */
  lemma SteppedAfterFailure(error: string, t1: int, step: string, progress: nat, t2: int)
    ensures Stepped(Some(Failed(error, t1)), step, progress, t2).error == Some(error)
    ensures Stepped(Some(Failed(error, t1)), step, progress, t2).startedAt.None?
  {
  }

  /** `getAllActiveRuns`: a copy of the registry holding exactly the entries `getActiveRun` finds. */
  function AllActiveRuns(runs: map<string, RunProgress>): (r: map<string, RunProgress>)
    ensures forall id :: (id in r) <==> RunOf(runs, id).Some?
    ensures forall id :: id in r ==> RunOf(runs, id) == Some(r[id])
  {
    map id | id in runs :: runs[id]
  }

  // ---------------------------------------------------------------------
  // The decisions of a run

  /** `getSetting(key) || fallback`: a missing or empty setting takes the fallback. */
  function SettingOr(stored: Option<string>, fallback: string): (r: string)
    ensures Filled(stored) ==> r == stored.value
    ensures !Filled(stored) ==> r == fallback
  {
    if stored.Some? && stored.value != "" then stored.value else fallback
  }

  /** The threshold and retry budget, parsed as `parseInt(…, 10)`; None is NaN. */
  function Threshold(stored: Option<string>): Option<int> {
    ParseInt(SettingOr(stored, "80"))
  }

  function MaxRetries(stored: Option<string>): Option<int> {
    ParseInt(SettingOr(stored, "1"))
  }

  /** A run of digits parses to its value. */
  lemma ParseDigits(s: string)
    requires s != [] && AllDigits(s)
    ensures ParseInt(s) == Some(DigitsValue(s))
  {
    assert !IsSpace(s[0]);
    assert TrimStart(s) == s;
    DigitRunIsWhole(s);
    assert s[..|s|] == s;
  }

  /** Missing or empty settings give the documented defaults: threshold 80, one retry. */
  lemma DefaultLimits(threshold: Option<string>, retries: Option<string>)
    requires !Filled(threshold) && !Filled(retries)
    ensures Threshold(threshold) == Some(80) && MaxRetries(retries) == Some(1)
  {
    assert SettingOr(threshold, "80") == "80" && SettingOr(retries, "1") == "1";
    ParsesEighty();
    ParsesOne();
  }

  /** The fallback texts parse to 80 and 1. */
  lemma ParsesEighty()
    ensures ParseInt("80") == Some(80)
  {
    assert AllDigits("80");
    assert "80"[..1] == "8" && "8"[..0] == "";
    assert DigitsValue("8") == 8;
    assert DigitsValue("80") == 80;
    ParseDigits("80");
  }

  lemma ParsesOne()
    ensures ParseInt("1") == Some(1)
  {
    assert AllDigits("1");
    assert "1"[..0] == "";
    assert DigitsValue("1") == 1;
    ParseDigits("1");
  }

  /** `percentage < threshold && maxRetries > 0`; any comparison with NaN is false. */
  predicate ShouldRetry(percentage: nat, threshold: Option<int>, maxRetries: Option<int>) {
    threshold.Some? && maxRetries.Some? && percentage < threshold.value && maxRetries.value > 0
  }

  /** `percentage >= threshold ? 'completed' : 'completed_with_warnings'`. */
  function FinalStatus(percentage: nat, threshold: Option<int>): (status: string)
    ensures status == "completed" <==> threshold.Some? && percentage >= threshold.value
    ensures status in {"completed", "completed_with_warnings"}
  {
    if threshold.Some? && percentage >= threshold.value then "completed" else "completed_with_warnings"
  }

  /**
   * A run that retried but ended with the first percentage (the retry failed,
   * threw, or the retest scored the same) ends with warnings.
   */
  lemma RetryWithoutGainWarns(percentage: nat, threshold: Option<int>, maxRetries: Option<int>)
    requires ShouldRetry(percentage, threshold, maxRetries)
    ensures FinalStatus(percentage, threshold) == "completed_with_warnings"
  {
  }

  /** A run whose first percentage meets the threshold never retries and completes. */
  lemma MetThresholdCompletes(percentage: nat, threshold: Option<int>, maxRetries: Option<int>)
    requires FinalStatus(percentage, threshold) == "completed"
    ensures !ShouldRetry(percentage, threshold, maxRetries)
  {
  }

  /** With a threshold that does not parse, a run neither retries nor completes cleanly. */
  lemma UnparsableThreshold(percentage: nat, maxRetries: Option<int>)
    ensures !ShouldRetry(percentage, None, maxRetries)
    ensures FinalStatus(percentage, None) == "completed_with_warnings"
  {
  }

  // ---------------------------------------------------------------------
  // The steps a run reports

  /** The `setStep` calls of a run, as (step, progress). */
  type Trail = seq<(string, nat)>

  const PlanningSteps: Trail := [("planning", 10), ("planning_done", 25)]
  const BuildingSteps: Trail := [("building", 30), ("building_done", 50)]
  const TestingSteps: Trail := [("testing", 55), ("executing_tests", 60), ("tests_done", 70)]

  /** The retry's steps: `retrying`, and `retesting` when the rebuild succeeded. */
  function RetrySteps(retried: bool, rebuilt: bool): Trail {
    if !retried then [] else [("retrying", 72)] + (if rebuilt then [("retesting", 78)] else [])
  }

  /** The steps after testing: the push and deployment steps only when they are attempted. */
  function PublishSteps(pushing: bool, deploying: bool): Trail {
    [("tests_complete", 80)] + (if pushing then [("github", 85)] else []) + [("github_done", 88)]
    + (if deploying then [("deploying", 90)] else []) + [("done", 100)]
  }

  /** The steps of a run that reaches the end. */
  function SuccessTrail(retried: bool, rebuilt: bool, pushing: bool, deploying: bool): Trail {
    PlanningSteps + BuildingSteps + TestingSteps + RetrySteps(retried, rebuilt) + PublishSteps(pushing, deploying)
  }

  predicate StrictlyIncreasing(t: Trail) {
    forall i, j :: 0 <= i < j < |t| ==> t[i].1 < t[j].1
  }

  predicate Within(t: Trail, lo: nat, hi: nat) {
    forall i :: 0 <= i < |t| ==> lo < t[i].1 <= hi
  }

  /** Joining two increasing trails, the second above the first, stays increasing. */
  lemma JoinIncreasing(a: Trail, b: Trail, lo: nat, mid: nat, hi: nat)
    requires lo <= mid <= hi
    requires StrictlyIncreasing(a) && Within(a, lo, mid)
    requires StrictlyIncreasing(b) && Within(b, mid, hi)
    ensures StrictlyIncreasing(a + b) && Within(a + b, lo, hi)
  {
    forall i | 0 <= i < |a + b| ensures lo < (a + b)[i].1 <= hi {
      if i >= |a| {
        assert (a + b)[i] == b[i - |a|];
      }
    }
    forall i, j | 0 <= i < j < |a + b| ensures (a + b)[i].1 < (a + b)[j].1 {
      if j < |a| {
      } else if i >= |a| {
        assert (a + b)[i] == b[i - |a|] && (a + b)[j] == b[j - |a|];
      } else {
        assert (a + b)[j] == b[j - |a|];
      }
    }
  }

  /** The steps up to the end of testing rise from 10 to 70. */
  lemma TestingTrailIncreases()
    ensures StrictlyIncreasing(PlanningSteps + BuildingSteps + TestingSteps)
    ensures Within(PlanningSteps + BuildingSteps + TestingSteps, 0, 70)
  {
    JoinIncreasing(PlanningSteps, BuildingSteps, 0, 25, 50);
    JoinIncreasing(PlanningSteps + BuildingSteps, TestingSteps, 0, 50, 70);
  }

  lemma RetryStepsIncrease(retried: bool, rebuilt: bool)
    ensures StrictlyIncreasing(RetrySteps(retried, rebuilt)) && Within(RetrySteps(retried, rebuilt), 70, 78)
  {
  }

  lemma PublishStepsIncrease(pushing: bool, deploying: bool)
    ensures StrictlyIncreasing(PublishSteps(pushing, deploying)) && Within(PublishSteps(pushing, deploying), 78, 100)
    ensures PublishSteps(pushing, deploying)[|PublishSteps(pushing, deploying)| - 1] == ("done", 100)
  {
    var g: Trail := if pushing then [("github", 85)] else [];
    var d: Trail := if deploying then [("deploying", 90)] else [];
    JoinIncreasing([("tests_complete", 80)], g, 78, 80, 85);
    JoinIncreasing([("tests_complete", 80)] + g, [("github_done", 88)], 78, 85, 88);
    JoinIncreasing([("tests_complete", 80)] + g + [("github_done", 88)], d, 78, 88, 90);
    JoinIncreasing([("tests_complete", 80)] + g + [("github_done", 88)] + d, [("done", 100)], 78, 90, 100);
  }

  /**
   * On the way to the end the progress strictly increases, never leaves
   * 1..100, and the last step is `done` at 100, whatever is attempted.
   */
  lemma SuccessTrailIncreases(retried: bool, rebuilt: bool, pushing: bool, deploying: bool)
    ensures var t := SuccessTrail(retried, rebuilt, pushing, deploying);
      StrictlyIncreasing(t) && Within(t, 0, 100) && t[|t| - 1] == ("done", 100)
  {
    var a := PlanningSteps + BuildingSteps + TestingSteps;
    var r := RetrySteps(retried, rebuilt);
    var p := PublishSteps(pushing, deploying);
    TestingTrailIncreases();
    RetryStepsIncrease(retried, rebuilt);
    PublishStepsIncrease(pushing, deploying);
    JoinIncreasing(a, r, 0, 70, 78);
    JoinIncreasing(a + r, p, 0, 78, 100);
    assert SuccessTrail(retried, rebuilt, pushing, deploying) == a + r + p;
  }

  // ---------------------------------------------------------------------
  // What a run meets outside the store

  /** `runBuilder`: files, a failure result, or a thrown error. */
  datatype Build = Built(files: Files) | BuildFailed(error: string) | BuildThrew(message: string)

  /** `runBuilderRetry`: new files, a failure result, or a thrown error. */
  datatype Rebuild = Rebuilt(files: Files) | RebuildFailed | RebuildThrew(message: string)

  /** What `createGitHubRepo` is asked for: the name, the description and every file. */
  datatype PushRequest = PushRequest(repoName: string, description: Json, files: map<string, Json>)

  /** `createGitHubRepo`: the repository URL, or a thrown error. */
  datatype Push = Pushed(url: string) | PushThrew(message: string)

  /**
   * Everything a run gets from outside: the agents' replies, the two test
   * executions, the rebuild, the push (as a function of what it is asked
   * for), the environment and the deployment network.
   */
  datatype Outside = Outside(
    planner: Planner.Reply,
    build: Build,
    qa: Qa.QaReply, parse: string -> Result<Json>,
    firstRun: Qa.ExecEnv, rebuild: Rebuild, retest: Qa.ExecEnv,
    push: PushRequest -> Push,
    env: Env, network: Deploy.Network)

  /** Workspace paths as `join(WORKSPACES_DIR, uuid())` makes them: non-empty, new and distinct. */
  predicate FreshWorkspaces(c: Outside, dirs: map<string, Qa.Dir>) {
    && c.firstRun.workspacePath != "" && c.retest.workspacePath != ""
    && c.firstRun.workspacePath != c.retest.workspacePath
    && c.firstRun.workspacePath !in dirs && c.retest.workspacePath !in dirs
  }

  // ---------------------------------------------------------------------
  // The course of a run

  /** A property of the spec in a template literal; an absent one prints as `undefined`. */
  function TextOf(v: Option<Json>): string {
    if v.Some? then Text(v.value) else "undefined"
  }

  function AppName(spec: Json): Json {
    Get(spec, "app_name").GetOr(JNull)
  }

  /** The message of the planning `completed` log. */
  function SpecMessage(spec: Json): string {
    "Spec: " + TextOf(Get(spec, "display_name")) + " \U{2014} " + NatToString(|Planner.Items(spec, "models")|)
    + " models, " + NatToString(|Planner.Items(spec, "endpoints")|) + " endpoints"
  }

  /** Object spread: each entry, in order, sets its key over `m`. */
  function Spread(m: map<string, Json>, es: seq<Member>): map<string, Json>
    decreases |es|
  {
    if es == [] then m
    else
      var last := es[|es| - 1];
      Spread(m, es[..|es| - 1])[last.0 := last.1]
  }

  /** A spread key holds its last spread value; every other key keeps its value. */
  lemma {:induction false} SpreadLookup(m: map<string, Json>, es: seq<Member>, key: string)
    ensures key in Spread(m, es) <==> key in m || Lookup(es, key).Some?
    ensures Lookup(es, key).Some? ==> Spread(m, es)[key] == Lookup(es, key).value
    ensures Lookup(es, key).None? && key in m ==> Spread(m, es)[key] == m[key]
    decreases |es|
  {
    if es != [] {
      SpreadLookup(m, es[..|es| - 1], key);
    }
  }

  /** `{ ...generatedFiles, ...testFiles }`: the own properties of both, the test files' last. */
  function AllFiles(generated: Files, tests: Json): map<string, Json> {
    Spread(Spread(map[], ObjectEntries(FilesJson(generated))), ObjectEntries(tests))
  }

  /**
   * Every pushed path is a generated file or a property of the test files;
   * a property of the test files replaces a generated file at the same path.
   */
  lemma TestFileReplaces(generated: Files, tests: Json, key: string)
    ensures key in AllFiles(generated, tests) <==>
      Lookup(FilesJson(generated).members, key).Some? || Lookup(ObjectEntries(tests), key).Some?
    ensures Lookup(ObjectEntries(tests), key).Some? ==>
      AllFiles(generated, tests)[key] == Lookup(ObjectEntries(tests), key).value
    ensures Lookup(ObjectEntries(tests), key).None? && Lookup(FilesJson(generated).members, key).Some? ==>
      AllFiles(generated, tests)[key] == Lookup(FilesJson(generated).members, key).value
  {
    LookupEnumerated(FilesJson(generated).members, key);
    SpreadLookup(map[], ObjectEntries(FilesJson(generated)), key);
    SpreadLookup(Spread(map[], ObjectEntries(FilesJson(generated))), ObjectEntries(tests), key);
  }

  /** The push request: `autoship-<app_name>`, the description or else the display name, every file. */
  function PushRequestFor(spec: Json, generated: Files, tests: Json): (r: PushRequest)
    ensures r.repoName == "autoship-" + TextOf(Get(spec, "app_name"))
    ensures Present(Get(spec, "description")) ==> r.description == Get(spec, "description").value
    ensures !Present(Get(spec, "description")) ==> r.description == Get(spec, "display_name").GetOr(JNull)
  {
    var description := if Present(Get(spec, "description")) then Get(spec, "description").value
                       else Get(spec, "display_name").GetOr(JNull);
    PushRequest("autoship-" + TextOf(Get(spec, "app_name")), description, AllFiles(generated, tests))
  }

  /** `test_results` as stored: the counts, the output, the path and the exit code when there is one. */
  function TestResultJson(r: Qa.TestResult): (j: Json)
    ensures j.JObj? && |j.members| == (if r.exitCode.Some? then 8 else 7)
  {
    var c := r.counts;
    JObj([("passed", JNum(c.passed)), ("failed", JNum(c.failed)), ("errors", JNum(c.errors)),
          ("total", JNum(c.total)), ("percentage", JNum(c.percentage)),
          ("output", JStr(r.output)), ("workspacePath", JStr(r.workspacePath))]
         + (if r.exitCode.Some? then [("exitCode", JNum(r.exitCode.value))] else []))
  }

  /** The files and test results testing ends with, and whether it retried and rebuilt. */
  datatype TestPhase = TestPhase(files: Files, results: Qa.TestResult, retried: bool, rebuilt: bool)

  /**
   * What a run makes of its agents and its test executions: the planner's
   * verdict and lines, the QA agent's verdict and lines, the first
   * execution and the retest of rebuilt files. `RepliesOf` computes them
   * from what the run meets; the course is stated for any of them.
   */
  datatype Replies = Replies(plan: Planner.PlannerResult, planLog: seq<LogLine>,
                             qa: Qa.QaResult, qaLog: seq<LogLine>,
                             first: Qa.Execution, retest: Qa.Execution)

  /** Both executions happen in new, empty workspaces, with the same test files. */
  predicate Ran(a: Replies, generated: Files, tests: Json, c: Outside) {
    && a.first == Qa.Execute(map[], generated, tests, c.firstRun)
    && (c.rebuild.Rebuilt? ==> a.retest == Qa.Execute(map[], c.rebuild.files, tests, c.retest))
  }

  /**
   * `a` holds what the planner and the QA agent answer in `c`, and the
   * executions of the built files against the generated tests.
   */
  predicate Meets(a: Replies, c: Outside) {
    && a.plan == Planner.PlannerOutcome(c.planner) && a.planLog == Planner.PlannerLog(c.planner)
    && a.qa == Qa.QaOutcome(c.qa, c.parse) && a.qaLog == Qa.QaLog(c.qa, c.parse)
    && (c.build.Built? && a.qa.Generated? ==> Ran(a, c.build.files, a.qa.testFiles, c))
  }

  /** The replies a run meets: the agents' outcomes and the executions of the files it built. */
  function RepliesOf(c: Outside): (a: Replies)
    ensures Meets(a, c)
  {
    var qa := Qa.QaOutcome(c.qa, c.parse);
    var generated := if c.build.Built? then c.build.files else [];
    var tests := if qa.Generated? then qa.testFiles else JNull;
    var rebuilt := if c.rebuild.Rebuilt? then c.rebuild.files else generated;
    Replies(Planner.PlannerOutcome(c.planner), Planner.PlannerLog(c.planner), qa, Qa.QaLog(c.qa, c.parse),
            Qa.Execute(map[], generated, tests, c.firstRun), Qa.Execute(map[], rebuilt, tests, c.retest))
  }

  /**
   * Testing: one execution, then at most one rebuild, retested with the same
   * test files. A rebuild that fails or throws changes nothing.
   */
  function Testing(generated: Files, a: Replies, c: Outside, threshold: Option<int>, maxRetries: Option<int>)
    : (t: TestPhase)
    ensures && (t.retried <==> ShouldRetry(a.first.result.counts.percentage, threshold, maxRetries))
            && (t.rebuilt <==> t.retried && c.rebuild.Rebuilt?)
            && (!t.rebuilt ==> t.files == generated && t.results == a.first.result)
            && (t.rebuilt ==> t.files == c.rebuild.files && t.results == a.retest.result)
  {
    var first := a.first.result;
    if !ShouldRetry(first.counts.percentage, threshold, maxRetries) then TestPhase(generated, first, false, false)
    else match c.rebuild
      case Rebuilt(files) => TestPhase(files, a.retest.result, true, true)
      case _ => TestPhase(generated, first, true, false)
  }

  /** `deployToken`: some Railway or Render credential is set. */
  predicate DeployConfigured(env: Env, railway: Option<string>, render: Option<string>) {
    Filled(EnvOr(env, "RAILWAY_TOKEN", railway)) || Filled(EnvOr(env, "RENDER_API_KEY", render))
  }

  /** The stored value of a setting, or None. */
  function Setting(settings: map<string, string>, key: string): Option<string> {
    if key in settings then Some(settings[key]) else None
  }

  /** The URL the push yields, when a GitHub token is set and the push does not throw. */
  function Published(spec: Json, files: Files, tests: Json, c: Outside, settings: map<string, string>)
    : Option<string>
  {
    if !Filled(EnvOr(c.env, "GITHUB_TOKEN", Setting(settings, "github_token"))) then None
    else PushedUrl(PushAnswer(spec, files, tests, c))
  }

  /** `createGitHubRepo`'s answer for the files of a run. */
  function PushAnswer(spec: Json, files: Files, tests: Json, c: Outside): Push {
    c.push(PushRequestFor(spec, files, tests))
  }

  /** The URL of a push that did not throw. */
  function PushedUrl(answer: Push): Option<string> {
    if answer.Pushed? then Some(answer.url) else None
  }

  /** The URL of a deployment that did not throw. */
  function DeployedUrl(answer: Result<string>): Option<string> {
    if answer.Ok? then Some(answer.value) else None
  }

  /** Deployment is attempted with a credential and a truthy repository URL. */
  predicate Deploying(c: Outside, settings: map<string, string>, github: Option<string>) {
    DeployConfigured(c.env, Setting(settings, "railway_token"), Setting(settings, "render_api_key"))
    && github.Some? && github.value != ""
  }

  /** What `triggerDeploy` answers for a run that attempts deployment. */
  function Deployment(spec: Json, c: Outside, settings: map<string, string>, github: string): Result<string> {
    Deploy.TriggerDeploy(AppName(spec), github, c.env, Setting(settings, "railway_token"),
                         Setting(settings, "render_api_key"), c.network)
  }

  /** The URL the deployment yields, when it is attempted and does not throw. */
  function Deployed(spec: Json, c: Outside, settings: map<string, string>, github: Option<string>)
    : Option<string>
  {
    if !Deploying(c, settings, github) then None
    else DeployedUrl(Deployment(spec, c, settings, github.value))
  }

  // ---------------------------------------------------------------------
  // What a run writes

  /**
   * The writes of a run so far: the fields of its `updateProject` calls
   * merged in call order (a later value wins), the lines of its `addLog`
   * calls (its own and the agents'), and its `setStep` calls.
   */
  datatype Effects = Effects(fields: map<Column, Json>, lines: seq<LogLine>, steps: Trail)

  const NoEffects := Effects(map[], [], [])

  function WithUpdate(e: Effects, fields: map<Column, Json>): Effects {
    e.(fields := e.fields + fields)
  }

  function WithLog(e: Effects, line: LogLine): Effects {
    e.(lines := e.lines + [line])
  }

  function WithLogs(e: Effects, lines: seq<LogLine>): Effects {
    e.(lines := e.lines + lines)
  }

  function WithStep(e: Effects, step: string, progress: nat): Effects {
    e.(steps := e.steps + [(step, progress)])
  }

  /** A log line without a payload. */
  function Note(stage: string, status: string, message: string): LogLine {
    LogLine(stage, status, message, JNull)
  }

  /** A stored URL: the column set to it, or nothing. */
  function UrlField(col: Column, url: Option<string>): map<Column, Json> {
    if url.Some? then map[col := JStr(url.value)] else map[]
  }

  /** A URL column as the final update writes it: the URL, or null. */
  function UrlJson(url: Option<string>): Json {
    if url.Some? then JStr(url.value) else JNull
  }

  /** `fail`'s update: status failed, the message, the stage as the current step. */
  function FailFields(step: string, error: string): map<Column, Json> {
    map[Status := JStr("failed"), Error := JStr(error), CurrentStep := JStr(step)]
  }

  function FailLine(step: string, error: string): LogLine {
    Note(step, "error", "Pipeline failed: " + error)
  }

  /** `fail(projectId, step, error)`: the failed row and the error line. */
  function FailScript(e: Effects, step: string, error: string): (r: Effects)
    ensures r.steps == e.steps
  {
    WithLog(WithUpdate(e, FailFields(step, error)), FailLine(step, error))
  }

  /** The `catch` of `startPipeline`: the row fails at `fatal_error`. */
  function FatalScript(e: Effects, message: string): Effects {
    WithLog(WithUpdate(e, FailFields("fatal_error", message)),
            Note("orchestrator", "error", "Fatal pipeline error: " + message))
  }

  /** How every stage opens: its step, its update, its `started` line. */
  function Begun(e: Effects, step: string, progress: nat, fields: map<Column, Json>, stage: string, message: string)
    : (r: Effects)
    ensures r.steps == e.steps + [(step, progress)] && r.fields == e.fields + fields
    ensures r.lines == e.lines + [Note(stage, "started", message)]
  {
    WithLog(WithUpdate(WithStep(e, step, progress), fields), Note(stage, "started", message))
  }

  /** Planning up to the planner's verdict: the step, status `running`, the start line, the planner's lines. */
  function PlanStart(e: Effects, lines: seq<LogLine>): (r: Effects)
    ensures r.steps == e.steps + [("planning", 10)]
  {
    WithLogs(Begun(e, "planning", 10, map[Status := JStr("running"), CurrentStep := JStr("planning")],
                   "planning", "Planner Agent analyzing idea..."), lines)
  }

  /** An accepted spec: stored, the step, and its summary with the spec's JSON text. */
  function PlanDone(e: Effects, spec: Json): (r: Effects)
    ensures r.steps == e.steps + [("planning_done", 25)]
  {
    var e1 := WithStep(WithUpdate(e, map[Spec := spec, CurrentStep := JStr("planning_done")]), "planning_done", 25);
    WithLog(e1, LogLine("planning", "completed", SpecMessage(spec), JStr(Stringify(spec))))
  }

  function BuildStart(e: Effects): (r: Effects)
    ensures r.steps == e.steps + [("building", 30)]
  {
    Begun(e, "building", 30, map[CurrentStep := JStr("building")], "building", "Builder Agent generating application code...")
  }

  /** `Object.keys(generatedFiles)` of the builder's files object. */
  function BuiltKeys(files: Files): seq<string> {
    KeysOf(ObjectEntries(FilesJson(files)))
  }

  /** The builder's paths, each once, in JavaScript's property order. */
  lemma BuiltKeysShape(files: Files)
    ensures PropertyOrder(BuiltKeys(files))
    ensures forall k :: k in BuiltKeys(files) <==> k in Keys(files)
  {
    var ms := FilesJson(files).members;
    assert KeysOf(ms) == Keys(files);
    assert BuiltKeys(files) == PropertyKeys(ms);
  }

  /** Paths already distinct and in property order are listed as the builder gave them. */
  lemma BuiltKeysOrdered(files: Files)
    requires PropertyOrder(Keys(files))
    ensures BuiltKeys(files) == Keys(files) && |BuiltKeys(files)| == |files|
  {
    var ms := FilesJson(files).members;
    assert KeysOf(ms) == Keys(files);
    PropertyKeysOrdered(ms);
  }

  /** Built files: stored, the step, and the count and list of their `Object.keys`. */
  function BuildDone(e: Effects, files: Files): (r: Effects)
    ensures r.steps == e.steps + [("building_done", 50)]
  {
    var e1 := WithStep(WithUpdate(e, map[GeneratedFiles := FilesJson(files), CurrentStep := JStr("building_done")]),
                       "building_done", 50);
    WithLog(e1, LogLine("building", "completed", "Generated " + NatToString(|BuiltKeys(files)|) + " files",
                        JStr(Stringify(StrArray(BuiltKeys(files))))))
  }

  /**
   * For paths that are already distinct and in property order (no index-like
   * names), the build log counts the files and lists their paths as given.
   */
  lemma BuildDoneReports(e: Effects, files: Files)
    requires PropertyOrder(Keys(files))
    ensures BuildDone(e, files).lines
            == e.lines + [LogLine("building", "completed", "Generated " + NatToString(|files|) + " files",
                                  JStr(Stringify(StrArray(Keys(files)))))]
  {
    BuiltKeysOrdered(files);
  }

  /** Test generation up to the QA agent's verdict: the step, the start line, the agent's lines. */
  function QaStart(e: Effects, lines: seq<LogLine>): (r: Effects)
    ensures r.steps == e.steps + [("testing", 55)]
  {
    WithLogs(Begun(e, "testing", 55, map[CurrentStep := JStr("testing")], "testing", "QA Agent generating tests..."),
             lines)
  }

  /** The generated tests: stored as they were parsed, and counted by their keys. */
  function QaDone(e: Effects, tests: Json): (r: Effects)
    ensures r.steps == e.steps
  {
    WithLog(WithUpdate(e, map[TestFiles := tests]),
            Note("testing", "running", "Generated " + NatToString(|ObjectEntries(tests)|) + " test file(s), executing..."))
  }

  /** `<prefix><passed>/<total> passed (<percentage>%)`. */
  function ResultsMessage(prefix: string, c: Qa.Counts): string {
    prefix + NatToString(c.passed) + "/" + NatToString(c.total) + " passed (" + NatToString(c.percentage) + "%)"
  }

  /** The payload of the first results line: the four counts and the percentage. */
  function ExecutedData(c: Qa.Counts): Json {
    JObj([("passed", JNum(c.passed)), ("failed", JNum(c.failed)), ("errors", JNum(c.errors)),
          ("total", JNum(c.total)), ("percentage", JNum(c.percentage))])
  }

  /** The payload of the retest line: no error count. */
  function RetestData(c: Qa.Counts): Json {
    JObj([("passed", JNum(c.passed)), ("failed", JNum(c.failed)), ("total", JNum(c.total)),
          ("percentage", JNum(c.percentage))])
  }

  /** One `executeTests` call: its own lines, then the stored results. */
  function Run(e: Effects, x: Qa.Execution): Effects {
    WithUpdate(WithLogs(e, x.lines), map[TestResults := TestResultJson(x.result)])
  }

  /** Two updates of different columns are one update of both. */
  lemma MergePair(a: map<Column, Json>, k1: Column, v1: Json, k2: Column, v2: Json)
    requires k1 != k2
    ensures a + map[k1 := v1] + map[k2 := v2] == a + map[k1 := v1, k2 := v2]
  {
  }

  /** The first execution, from `executing_tests` to the results line. */
  function FirstRun(e: Effects, x: Qa.Execution): (r: Effects)
    ensures r.steps == e.steps + [("executing_tests", 60), ("tests_done", 70)]
    ensures r.fields == e.fields + map[CurrentStep := JStr("executing_tests"), TestResults := TestResultJson(x.result)]
  {
    MergePair(e.fields, CurrentStep, JStr("executing_tests"), TestResults, TestResultJson(x.result));
    var e1 := Run(WithUpdate(WithStep(e, "executing_tests", 60), map[CurrentStep := JStr("executing_tests")]), x);
    WithLog(WithStep(e1, "tests_done", 70),
            LogLine("testing", "executed", ResultsMessage("Results: ", x.result.counts),
                    JStr(Stringify(ExecutedData(x.result.counts)))))
  }

  /** What a rebuild stores: the new files and their test results, or nothing. */
  function RebuildFields(a: Replies, c: Outside): map<Column, Json> {
    if c.rebuild.Rebuilt? then
      map[GeneratedFiles := FilesJson(c.rebuild.files), TestResults := TestResultJson(a.retest.result)]
    else map[]
  }

  /** A successful rebuild: the new files stored, then retested in a new workspace. */
  function Retested(e: Effects, files: Files, x: Qa.Execution): (r: Effects)
    ensures r.steps == e.steps + [("retesting", 78)]
    ensures r.fields == e.fields + map[GeneratedFiles := FilesJson(files), TestResults := TestResultJson(x.result)]
  {
    var e1 := WithLog(WithUpdate(e, map[GeneratedFiles := FilesJson(files)]),
                      Note("retrying", "rebuilt", "Builder regenerated code with fixes"));
    WithLog(Run(WithStep(e1, "retesting", 78), x),
            LogLine("retrying", "retested", ResultsMessage("Retry: ", x.result.counts),
                    JStr(Stringify(RetestData(x.result.counts)))))
  }

  /** The rebuild's outcome: new files retested, or a failure line; the original code stays otherwise. */
  function Rebuilding(e: Effects, a: Replies, c: Outside): (r: Effects)
    ensures r.steps == e.steps + if c.rebuild.Rebuilt? then [("retesting", 78)] else []
    ensures r.fields == e.fields + RebuildFields(a, c)
  {
    match c.rebuild
    case Rebuilt(files) => Retested(e, files, a.retest)
    case RebuildFailed => WithLog(e, Note("retrying", "failed", "Builder retry failed, proceeding with original code"))
    case RebuildThrew(m) => WithLog(e, Note("retrying", "failed", "Retry error: " + m))
  }

  /** The retry's announcement. */
  function RetryMessage(first: nat, threshold: int): string {
    "Tests at " + NatToString(first) + "% (threshold: " + IntToString(threshold) + "%). Retrying build..."
  }

  /** The line of a retry that ends below the threshold. */
  function BelowMessage(last: nat, threshold: int): string {
    "Tests still below threshold after retry: " + NatToString(last) + "% < " + IntToString(threshold) + "%"
  }

  /** The retry up to the rebuild: its announcement, the step, `retry_count` 1. */
  function RetryBegun(e: Effects, first: nat, threshold: int): Effects {
    WithUpdate(WithStep(WithLog(e, Note("retrying", "started", RetryMessage(first, threshold))), "retrying", 72),
               map[CurrentStep := JStr("retrying"), RetryCount := JNum(1)])
  }

  /** The retry: its announcement, `retry_count` 1, the rebuild, and the verdict against the threshold. */
  function RetryScript(e: Effects, first: nat, last: nat, a: Replies, c: Outside, threshold: int): (r: Effects)
    ensures r.steps == e.steps + RetrySteps(true, c.rebuild.Rebuilt?)
    ensures r.fields == e.fields + map[CurrentStep := JStr("retrying"), RetryCount := JNum(1)] + RebuildFields(a, c)
  {
    var e2 := Rebuilding(RetryBegun(e, first, threshold), a, c);
    if last < threshold then
      WithLog(e2, Note("retrying", "failed", BelowMessage(last, threshold)))
    else e2
  }

  /** Testing from the first execution to `tests_complete`. */
  function TestingScript(e: Effects, generated: Files, a: Replies, c: Outside,
                         threshold: Option<int>, maxRetries: Option<int>): (r: Effects)
    ensures var phase := Testing(generated, a, c, threshold, maxRetries);
      && r.steps == e.steps + [("executing_tests", 60), ("tests_done", 70)] + RetrySteps(phase.retried, phase.rebuilt)
                    + [("tests_complete", 80)]
      && r.fields == e.fields + map[CurrentStep := JStr("executing_tests"), TestResults := TestResultJson(a.first.result)]
                    + (if phase.retried then map[CurrentStep := JStr("retrying"), RetryCount := JNum(1)] else map[])
                    + (if phase.retried then RebuildFields(a, c) else map[])
  {
    var pct := Testing(generated, a, c, threshold, maxRetries).results.counts.percentage;
    WithStep(WithLog(Tested(e, generated, a, c, threshold, maxRetries),
                     Note("testing", "completed", "Final test rate: " + NatToString(pct) + "%")),
             "tests_complete", 80)
  }

  /** Testing up to the final rate line: the first execution, then the retry when there is one. */
  function Tested(e: Effects, generated: Files, a: Replies, c: Outside,
                  threshold: Option<int>, maxRetries: Option<int>): (r: Effects)
    ensures var phase := Testing(generated, a, c, threshold, maxRetries);
      r.steps == e.steps + [("executing_tests", 60), ("tests_done", 70)] + RetrySteps(phase.retried, phase.rebuilt)
  {
    var phase := Testing(generated, a, c, threshold, maxRetries);
    var e1 := FirstRun(e, a.first);
    if phase.retried then RetryScript(e1, a.first.result.counts.percentage, phase.results.counts.percentage,
                                      a, c, threshold.value)
    else e1
  }

  /** The push's answer: the URL stored and announced, or the failure logged. */
  function Pushing(e: Effects, answer: Push): (r: Effects)
    ensures r.steps == e.steps && r.fields == e.fields + UrlField(GithubUrl, PushedUrl(answer))
  {
    match answer
    case Pushed(url) => WithLog(WithUpdate(e, map[GithubUrl := JStr(url)]), Note("github", "completed", "Repository created: " + url))
    case PushThrew(m) => WithLog(e, Note("github", "failed", "GitHub push failed (non-blocking): " + m))
  }

  /** The GitHub step: pushed, failed, or skipped without a token. */
  function PublishScript(e: Effects, spec: Json, files: Files, tests: Json, c: Outside,
                         settings: map<string, string>): (r: Effects)
    ensures r.steps == e.steps + (if Filled(EnvOr(c.env, "GITHUB_TOKEN", Setting(settings, "github_token")))
                                  then [("github", 85)] else []) + [("github_done", 88)]
    ensures r.fields == e.fields + (if Filled(EnvOr(c.env, "GITHUB_TOKEN", Setting(settings, "github_token")))
                                    then map[CurrentStep := JStr("github")] else map[])
                                 + UrlField(GithubUrl, Published(spec, files, tests, c, settings))
  {
    WithStep(GithubScript(e, spec, files, tests, c, settings), "github_done", 88)
  }

  /** The push with a token, or the line that skips it. */
  function GithubScript(e: Effects, spec: Json, files: Files, tests: Json, c: Outside,
                        settings: map<string, string>): (r: Effects)
    ensures r.steps == e.steps + (if Filled(EnvOr(c.env, "GITHUB_TOKEN", Setting(settings, "github_token")))
                                  then [("github", 85)] else [])
  {
    if Filled(EnvOr(c.env, "GITHUB_TOKEN", Setting(settings, "github_token"))) then
      Pushing(Begun(e, "github", 85, map[CurrentStep := JStr("github")], "github", "Creating GitHub repository..."),
              PushAnswer(spec, files, tests, c))
    else WithLog(e, Note("github", "skipped", "No GitHub token configured"))
  }

  /** The deployment's answer: the URL stored and announced, or the failure logged. */
  function Delivering(e: Effects, answer: Result<string>): (r: Effects)
    ensures r.steps == e.steps && r.fields == e.fields + UrlField(DeployUrl, DeployedUrl(answer))
  {
    match answer
    case Ok(url) => WithLog(WithUpdate(e, map[DeployUrl := JStr(url)]), Note("deploy", "completed", "Deployed to: " + url))
    case Err(m) => WithLog(e, Note("deploy", "failed", "Deployment failed (non-blocking): " + m))
  }

  /** The line of a skipped deployment: for want of a credential, or of a repository URL. */
  function SkipMessage(c: Outside, settings: map<string, string>): string {
    if !DeployConfigured(c.env, Setting(settings, "railway_token"), Setting(settings, "render_api_key"))
    then "No deployment token configured" else "No GitHub URL for deployment"
  }

  /** The deployment step: deployed, failed, or skipped for want of a credential or a URL. */
  function DeployScript(e: Effects, spec: Json, c: Outside, settings: map<string, string>, github: Option<string>)
    : (r: Effects)
    ensures r.steps == e.steps + if Deploying(c, settings, github) then [("deploying", 90)] else []
    ensures r.fields == e.fields + (if Deploying(c, settings, github) then map[CurrentStep := JStr("deploying")] else map[])
                                 + UrlField(DeployUrl, Deployed(spec, c, settings, github))
  {
    if Deploying(c, settings, github) then
      Delivering(Begun(e, "deploying", 90, map[CurrentStep := JStr("deploying")], "deploy", "Triggering deployment..."),
                 Deployment(spec, c, settings, github.value))
    else WithLog(e, Note("deploy", "skipped", SkipMessage(c, settings)))
  }

  /** The end: the final status, both URLs (null when absent), `done` at 100 and the summary line. */
  function FinishScript(e: Effects, status: string, github: Option<string>, deployUrl: Option<string>, pct: nat)
    : (r: Effects)
    ensures r.steps == e.steps + [("done", 100)]
  {
    var e1 := WithUpdate(e, map[Status := JStr(status), CurrentStep := JStr("done"),
                                GithubUrl := UrlJson(github), DeployUrl := UrlJson(deployUrl)]);
    WithLog(WithStep(e1, "done", 100),
            LogLine("completed", "success", "Pipeline completed",
                    JStr(Stringify(JObj([("test_pass_rate", JNum(pct)), ("github_url", UrlJson(github)),
                                         ("deploy_url", UrlJson(deployUrl))])))))
  }

  // ---------------------------------------------------------------------
  // The course of a run

  /**
   * Where a run ends, failed at a stage, crashed (rejected) during a stage
   * or finished, and what it wrote.
   */
  datatype Course =
    | StoppedAt(step: string, error: string, effects: Effects)
    | Crashed(stage: string, message: string, effects: Effects)
    | Finished(spec: Json, tests: Json, phase: TestPhase, status: string, githubUrl: Option<string>, deployUrl: Option<string>,
               effects: Effects)

  /** The course of a run after the tests were generated. */
  function FinishedCourse(spec: Json, files: Files, tests: Json, a: Replies, c: Outside, settings: map<string, string>,
                          e: Effects): (k: Course)
    ensures k.Finished?
    ensures k.phase == Testing(files, a, c, Threshold(Setting(settings, "test_threshold")),
                               MaxRetries(Setting(settings, "max_retries")))
    ensures k.status == FinalStatus(k.phase.results.counts.percentage, Threshold(Setting(settings, "test_threshold")))
  {
    var threshold := Threshold(Setting(settings, "test_threshold"));
    var maxRetries := MaxRetries(Setting(settings, "max_retries"));
    var phase := Testing(files, a, c, threshold, maxRetries);
    var github := Published(spec, phase.files, tests, c, settings);
    var deployUrl := Deployed(spec, c, settings, github);
    var status := FinalStatus(phase.results.counts.percentage, threshold);
    var e1 := PublishScript(TestingScript(e, files, a, c, threshold, maxRetries), spec, phase.files, tests, c, settings);
    var e2 := DeployScript(e1, spec, c, settings, github);
    Finished(spec, tests, phase, status, github, deployUrl, FinishScript(e2, status, github, deployUrl, phase.results.counts.percentage))
  }

  /**
   * `runPipelineAsync` as a function of what it meets: a failing planner,
   * builder or QA agent stops the run at that stage; a throwing builder
   * crashes it; otherwise it finishes.
   */
  function CourseOf(c: Outside, settings: map<string, string>): (k: Course)
    ensures Planner.PlannerOutcome(c.planner).Failure? <==> k.StoppedAt? && k.step == "planning"
    ensures k.StoppedAt? && k.step == "building" <==>
      Planner.PlannerOutcome(c.planner).Success? && c.build.BuildFailed?
    ensures k.Crashed? <==> Planner.PlannerOutcome(c.planner).Success?
                            && (c.build.BuildThrew? || (c.build.Built? && Unstorable(Qa.QaOutcome(c.qa, c.parse))))
    ensures k.Crashed? ==> k.stage == (if c.build.BuildThrew? then "building" else "testing")
    ensures k.StoppedAt? && k.step == "testing" <==>
      Planner.PlannerOutcome(c.planner).Success? && c.build.Built? && Qa.QaOutcome(c.qa, c.parse).QaFailed?
    ensures k.StoppedAt? ==> k.step in {"planning", "building", "testing"}
    ensures k.Finished? ==> k.status == FinalStatus(k.phase.results.counts.percentage,
                                                    Threshold(Setting(settings, "test_threshold")))
  {
    CourseFrom(RepliesOf(c), c, settings)
  }

  /** The course for the replies `a`: the planner's verdict, then the builder, then the QA agent's. */
  function CourseFrom(a: Replies, c: Outside, settings: map<string, string>): (k: Course)
    ensures a.plan.Failure? <==> k.StoppedAt? && k.step == "planning"
    ensures k.StoppedAt? && k.step == "building" <==> a.plan.Success? && c.build.BuildFailed?
    ensures k.Crashed? <==> a.plan.Success? && (c.build.BuildThrew? || (c.build.Built? && Unstorable(a.qa)))
    ensures k.StoppedAt? && k.step == "testing" <==> a.plan.Success? && c.build.Built? && a.qa.QaFailed?
    ensures k.StoppedAt? ==> k.step in {"planning", "building", "testing"}
    ensures k.Finished? <==> a.plan.Success? && c.build.Built? && a.qa.Generated? && !Unstorable(a.qa)
    ensures k.Finished? ==> k.phase == Testing(c.build.files, a, c, Threshold(Setting(settings, "test_threshold")),
                                               MaxRetries(Setting(settings, "max_retries")))
    ensures k.Finished? ==> k.status == FinalStatus(k.phase.results.counts.percentage,
                                                    Threshold(Setting(settings, "test_threshold")))
  {
    var e1 := PlanStart(NoEffects, a.planLog);
    match a.plan
    case Failure(err) => StoppedAt("planning", err, FailScript(e1, "planning", err))
    case Success(spec) => BuildCourse(spec, PlanDone(e1, spec), a, c, settings)
  }

  /** The course from the builder on, once the spec is stored. */
  function BuildCourse(spec: Json, e: Effects, a: Replies, c: Outside, settings: map<string, string>): (k: Course)
    ensures k.StoppedAt? ==> k.step == "building" || k.step == "testing"
    ensures k.StoppedAt? && k.step == "building" <==> c.build.BuildFailed?
    ensures k.Crashed? <==> c.build.BuildThrew? || (c.build.Built? && Unstorable(a.qa))
    ensures k.Crashed? && c.build.BuildThrew? ==> k == Crashed("building", c.build.message, k.effects)
    ensures k.StoppedAt? && k.step == "testing" <==> c.build.Built? && a.qa.QaFailed?
    ensures k.Finished? <==> c.build.Built? && a.qa.Generated? && !Unstorable(a.qa)
    ensures k.Finished? ==> k.phase == Testing(c.build.files, a, c, Threshold(Setting(settings, "test_threshold")),
                                               MaxRetries(Setting(settings, "max_retries")))
    ensures k.Finished? ==> k.status == FinalStatus(k.phase.results.counts.percentage,
                                                    Threshold(Setting(settings, "test_threshold")))
  {
    var e2 := BuildStart(e);
    match c.build
    case BuildFailed(err) => StoppedAt("building", err, FailScript(e2, "building", err))
    case BuildThrew(m) => Crashed("building", m, FailScript(e2, "orchestrator", m))
    case Built(files) => QaCourse(spec, files, BuildDone(e2, files), a, c, settings)
  }

  /**
   * Test files the database cannot store: storing them throws, which
   * crashes the run (`updateProject` binds a boolean as it stands).
   */
  predicate Unstorable(qa: Qa.QaResult) {
    qa.Generated? && !Bindable(qa.testFiles)
  }

  /** The course from the QA agent on, once the built files are stored. */
  function QaCourse(spec: Json, files: Files, e: Effects, a: Replies, c: Outside, settings: map<string, string>)
    : (k: Course)
    ensures k.StoppedAt? <==> a.qa.QaFailed?
    ensures k.StoppedAt? ==> k.step == "testing"
    ensures k.Crashed? <==> Unstorable(a.qa)
    ensures k.Crashed? ==> k.stage == "testing" && k.message == BindError
    ensures k.Finished? ==> k.phase == Testing(files, a, c, Threshold(Setting(settings, "test_threshold")),
                                               MaxRetries(Setting(settings, "max_retries")))
    ensures k.Finished? ==> k.status == FinalStatus(k.phase.results.counts.percentage,
                                                    Threshold(Setting(settings, "test_threshold")))
  {
    var e3 := QaStart(e, a.qaLog);
    match a.qa
    case QaFailed(err) => StoppedAt("testing", err, FailScript(e3, "testing", err))
    case Generated(tests) =>
      if !Bindable(tests) then Crashed("testing", BindError, FailScript(e3, "orchestrator", BindError))
      else FinishedCourse(spec, files, tests, a, c, settings, QaDone(e3, tests))
  }

  /**
   * The final status is decided by testing alone: neither the push, nor the
   * deployment's answers, nor the environment, nor the stored credentials
   * can change whether a run finishes, how its testing went or its status.
   */
  lemma StatusIgnoresPublishing(c: Outside, settings: map<string, string>, push: PushRequest -> Push, env: Env,
                                network: Deploy.Network, other: map<string, string>)
    requires Setting(other, "test_threshold") == Setting(settings, "test_threshold")
    requires Setting(other, "max_retries") == Setting(settings, "max_retries")
    ensures var k := CourseOf(c, settings);
      var k' := CourseOf(c.(push := push, env := env, network := network), other);
      && (k'.Finished? <==> k.Finished?)
      && (k.Finished? ==> k'.phase == k.phase && k'.status == k.status)
  {
    var c' := c.(push := push, env := env, network := network);
    var a := RepliesOf(c);
    assert RepliesOf(c') == a;
    if c.build.Built? {
      var t, m := Threshold(Setting(settings, "test_threshold")), MaxRetries(Setting(settings, "max_retries"));
      TestingIgnoresPublishing(c.build.files, a, c, c', t, m);
    }
  }

  /** Testing reads only the rebuild's outcome from outside. */
  lemma TestingIgnoresPublishing(generated: Files, a: Replies, c: Outside, c': Outside,
                                 threshold: Option<int>, maxRetries: Option<int>)
    requires c'.rebuild == c.rebuild
    ensures Testing(generated, a, c', threshold, maxRetries) == Testing(generated, a, c, threshold, maxRetries)
  {
  }

  /** A finished course writes its four stages in order, from what testing, the push and deployment yield. */
  lemma FinishedEffects(spec: Json, files: Files, tests: Json, a: Replies, c: Outside, settings: map<string, string>,
                        e: Effects, finalFiles: Files, result: Qa.TestResult, github: Option<string>,
                        deployUrl: Option<string>)
    requires var phase := Testing(files, a, c, Threshold(Setting(settings, "test_threshold")),
                                  MaxRetries(Setting(settings, "max_retries")));
      finalFiles == phase.files && result == phase.results
    requires github == Published(spec, finalFiles, tests, c, settings)
    requires deployUrl == Deployed(spec, c, settings, github)
    ensures var threshold := Threshold(Setting(settings, "test_threshold"));
      var maxRetries := MaxRetries(Setting(settings, "max_retries"));
      var e1 := PublishScript(TestingScript(e, files, a, c, threshold, maxRetries), spec, finalFiles, tests, c, settings);
      FinishedCourse(spec, files, tests, a, c, settings, e).effects
        == FinishScript(DeployScript(e1, spec, c, settings, github), FinalStatus(result.counts.percentage, threshold),
                        github, deployUrl, result.counts.percentage)
  {
  }

  // ---------------------------------------------------------------------
  // What every course reports

  /** The steps of a finished run: the steps it started from, then testing, the push and deployment. */
  lemma FinishedSteps(spec: Json, files: Files, tests: Json, a: Replies, c: Outside, settings: map<string, string>,
                      e: Effects)
    ensures var k := FinishedCourse(spec, files, tests, a, c, settings, e);
      k.effects.steps == e.steps + [("executing_tests", 60), ("tests_done", 70)]
        + RetrySteps(k.phase.retried, k.phase.rebuilt)
        + PublishSteps(Filled(EnvOr(c.env, "GITHUB_TOKEN", Setting(settings, "github_token"))),
                       Deploying(c, settings, k.githubUrl))
  {
    var k := FinishedCourse(spec, files, tests, a, c, settings, e);
    var threshold := Threshold(Setting(settings, "test_threshold"));
    var maxRetries := MaxRetries(Setting(settings, "max_retries"));
    var phase := Testing(files, a, c, threshold, maxRetries);
    var t := TestingScript(e, files, a, c, threshold, maxRetries);
    var p := PublishScript(t, spec, phase.files, tests, c, settings);
    var d := DeployScript(p, spec, c, settings, k.githubUrl);
    assert k.effects == FinishScript(d, k.status, k.githubUrl, k.deployUrl, phase.results.counts.percentage);
    var x := e.steps + [("executing_tests", 60), ("tests_done", 70)] + RetrySteps(phase.retried, phase.rebuilt);
    var g: Trail := if Filled(EnvOr(c.env, "GITHUB_TOKEN", Setting(settings, "github_token"))) then [("github", 85)] else [];
    var dp: Trail := if Deploying(c, settings, k.githubUrl) then [("deploying", 90)] else [];
    assert k.effects.steps == x + [("tests_complete", 80)] + g + [("github_done", 88)] + dp + [("done", 100)];
    assert [("tests_complete", 80)] + g + [("github_done", 88)] + dp + [("done", 100)]
        == PublishSteps(Filled(EnvOr(c.env, "GITHUB_TOKEN", Setting(settings, "github_token"))),
                        Deploying(c, settings, k.githubUrl));
    Chain5(x, [("tests_complete", 80)], g, [("github_done", 88)], dp, [("done", 100)]);
  }

  lemma Chain5(x: Trail, a: Trail, b: Trail, c: Trail, d: Trail, e: Trail)
    ensures x + a + b + c + d + e == x + (a + b + c + d + e)
  {
  }

  /** The steps of the runs that stop before testing, by the stage they stop at. */
  function StoppedTrail(step: string): Trail {
    if step == "planning" then [("planning", 10)]
    else if step == "building" then PlanningSteps + [("building", 30)]
    else PlanningSteps + BuildingSteps + [("testing", 55)]
  }

  /** The trail a finished course reports. */
  function FinishedTrailOf(k: Course, c: Outside, settings: map<string, string>): Trail
    requires k.Finished?
  {
    SuccessTrail(k.phase.retried, k.phase.rebuilt,
                 Filled(EnvOr(c.env, "GITHUB_TOKEN", Setting(settings, "github_token"))), Deploying(c, settings, k.githubUrl))
  }

  /** The trail a course reports, by the way it ends. */
  function TrailOf(k: Course, c: Outside, settings: map<string, string>): Trail {
    match k
    case StoppedAt(step, _, _) => StoppedTrail(step)
    case Crashed(stage, _, _) => StoppedTrail(stage)
    case Finished(_, _, _, _, _, _, _) => FinishedTrailOf(k, c, settings)
  }

  /**
   * The `setStep` calls of each course: a run that stops or crashes reports
   * the steps up to its stage; a finished run those of `SuccessTrail`.
   */
  lemma CourseSteps(a: Replies, c: Outside, settings: map<string, string>)
    ensures var k := CourseFrom(a, c, settings); k.effects.steps == TrailOf(k, c, settings)
  {
    var e0 := PlanStart(NoEffects, a.planLog);
    if a.plan.Success? {
      BuildCourseSteps(a.plan.spec, PlanDone(e0, a.plan.spec), a, c, settings);
    }
  }

  /** `CourseSteps` from the builder on. */
  lemma BuildCourseSteps(spec: Json, e: Effects, a: Replies, c: Outside, settings: map<string, string>)
    requires e.steps == PlanningSteps
    ensures var k := BuildCourse(spec, e, a, c, settings); k.effects.steps == TrailOf(k, c, settings)
  {
    var e2 := BuildStart(e);
    assert e2.steps == StoppedTrail("building");
    if c.build.Built? {
      var e3 := BuildDone(e2, c.build.files);
      var built := PlanningSteps + [("building", 30)] + [("building_done", 50)];
      assert e3.steps == built;
      assert built == PlanningSteps + BuildingSteps;
      QaCourseSteps(spec, c.build.files, e3, a, c, settings);
    }
  }

  /** `CourseSteps` from the QA agent on. */
  lemma QaCourseSteps(spec: Json, files: Files, e: Effects, a: Replies, c: Outside, settings: map<string, string>)
    requires e.steps == PlanningSteps + BuildingSteps
    ensures var k := QaCourse(spec, files, e, a, c, settings); k.effects.steps == TrailOf(k, c, settings)
  {
    var e3 := QaStart(e, a.qaLog);
    assert e3.steps == StoppedTrail("testing");
    if a.qa.Generated? && !Unstorable(a.qa) {
      FinishedTrail(spec, files, a.qa.testFiles, a, c, settings, QaDone(e3, a.qa.testFiles));
    }
  }

  /** A finished run started from the steps up to `testing` reports exactly `SuccessTrail`. */
  lemma FinishedTrail(spec: Json, files: Files, tests: Json, a: Replies, c: Outside, settings: map<string, string>,
                      e: Effects)
    requires e.steps == PlanningSteps + BuildingSteps + [("testing", 55)]
    ensures var k := FinishedCourse(spec, files, tests, a, c, settings, e);
      k.effects.steps == FinishedTrailOf(k, c, settings)
  {
    assert e.steps + [("executing_tests", 60), ("tests_done", 70)] == PlanningSteps + BuildingSteps + TestingSteps;
    FinishedSteps(spec, files, tests, a, c, settings, e);
  }

  /** The trails of the runs that stop early rise too. */
  lemma StoppedTrailsIncrease(step: string)
    ensures StrictlyIncreasing(StoppedTrail(step)) && Within(StoppedTrail(step), 0, 100)
  {
    TestingTrailIncreases();
    JoinIncreasing(PlanningSteps, [("building", 30)], 0, 25, 100);
    JoinIncreasing(PlanningSteps + BuildingSteps, [("testing", 55)], 0, 50, 100);
  }

  /** Every trail a course can report rises within 1..100; a finished one ends at `done`, 100. */
  lemma TrailIncreases(k: Course, c: Outside, settings: map<string, string>)
    ensures var t := TrailOf(k, c, settings);
      StrictlyIncreasing(t) && Within(t, 0, 100) && (k.Finished? ==> t[|t| - 1] == ("done", 100))
  {
    match k
    case StoppedAt(step, _, _) => StoppedTrailsIncrease(step);
    case Crashed(stage, _, _) => StoppedTrailsIncrease(stage);
    case Finished(_, _, _, _, _, _, _) =>
      SuccessTrailIncreases(k.phase.retried, k.phase.rebuilt,
        Filled(EnvOr(c.env, "GITHUB_TOKEN", Setting(settings, "github_token"))), Deploying(c, settings, k.githubUrl));
  }

  /** Every course reports increasing progress; one that finishes ends at `done`, 100. */
  lemma CourseTrailIncreases(a: Replies, c: Outside, settings: map<string, string>)
    ensures var k := CourseFrom(a, c, settings); var t := k.effects.steps;
      StrictlyIncreasing(t) && Within(t, 0, 100) && (k.Finished? ==> t[|t| - 1] == ("done", 100))
  {
    CourseSteps(a, c, settings);
    TrailIncreases(CourseFrom(a, c, settings), c, settings);
  }

  // ---------------------------------------------------------------------
  // The row a course leaves

  /** Column `col` of `m` holds `v`. */
  predicate Holds(m: map<Column, Json>, col: Column, v: Json) {
    col in m && m[col] == v
  }

  /** A merge keeps what the later map does not name. */
  lemma MergeKeeps(a: map<Column, Json>, m: map<Column, Json>, col: Column)
    requires col !in m
    ensures (col in a + m <==> col in a) && (col in a ==> (a + m)[col] == a[col])
  {
  }

  /** A merge takes what the later map names. */
  lemma MergeTakes(a: map<Column, Json>, m: map<Column, Json>, col: Column)
    requires col in m
    ensures Holds(a + m, col, m[col])
  {
  }

  /** The columns the testing stage leaves: the last results and files, and the retry count when it retried. */
  lemma TestingFields(spec: Json, files: Files, tests: Json, a: Replies, c: Outside, threshold: Option<int>,
                      maxRetries: Option<int>, f0: map<Column, Json>)
    requires Holds(f0, Spec, spec) && Holds(f0, GeneratedFiles, FilesJson(files))
    requires Holds(f0, TestFiles, tests) && Error !in f0 && RetryCount !in f0
    ensures var phase := Testing(files, a, c, threshold, maxRetries);
      var f := f0 + map[CurrentStep := JStr("executing_tests"), TestResults := TestResultJson(a.first.result)]
                  + (if phase.retried then map[CurrentStep := JStr("retrying"), RetryCount := JNum(1)] else map[])
                  + (if phase.retried then RebuildFields(a, c) else map[]);
      && Holds(f, TestResults, TestResultJson(phase.results)) && Holds(f, GeneratedFiles, FilesJson(phase.files))
      && (phase.retried ==> Holds(f, RetryCount, JNum(1))) && (!phase.retried ==> RetryCount !in f)
      && Holds(f, Spec, spec) && Holds(f, TestFiles, tests) && Error !in f
  {
    var phase := Testing(files, a, c, threshold, maxRetries);
    var m1 := map[CurrentStep := JStr("executing_tests"), TestResults := TestResultJson(a.first.result)];
    var m2: map<Column, Json> := if phase.retried then map[CurrentStep := JStr("retrying"), RetryCount := JNum(1)] else map[];
    var m3 := if phase.retried then RebuildFields(a, c) else map[];
    StageFields(spec, files, tests, phase, f0, m1, m2, m3);
  }

  /** `TestingFields` over the three maps the testing stage merges in. */
  lemma StageFields(spec: Json, files: Files, tests: Json, phase: TestPhase, f0: map<Column, Json>,
                    m1: map<Column, Json>, m2: map<Column, Json>, m3: map<Column, Json>)
    requires Holds(f0, Spec, spec) && Holds(f0, GeneratedFiles, FilesJson(files))
    requires Holds(f0, TestFiles, tests) && Error !in f0 && RetryCount !in f0
    requires m1.Keys == {CurrentStep, TestResults}
    requires !phase.retried ==> m2 == map[] && m3 == map[] && Holds(m1, TestResults, TestResultJson(phase.results))
    requires !phase.rebuilt ==> files == phase.files
    requires phase.retried ==> m2 == map[CurrentStep := JStr("retrying"), RetryCount := JNum(1)]
    requires phase.rebuilt ==> phase.retried && m3 == map[GeneratedFiles := FilesJson(phase.files), TestResults := TestResultJson(phase.results)]
    requires phase.retried && !phase.rebuilt ==> m3 == map[] && Holds(m1, TestResults, TestResultJson(phase.results))
    ensures var f := f0 + m1 + m2 + m3;
      && Holds(f, TestResults, TestResultJson(phase.results)) && Holds(f, GeneratedFiles, FilesJson(phase.files))
      && (phase.retried ==> Holds(f, RetryCount, JNum(1))) && (!phase.retried ==> RetryCount !in f)
      && Holds(f, Spec, spec) && Holds(f, TestFiles, tests) && Error !in f
  {
  }

  /** The push writes only the current step and the repository URL. */
  lemma PublishKeeps(e: Effects, spec: Json, files: Files, tests: Json, c: Outside, settings: map<string, string>,
                     col: Column)
    requires col != CurrentStep && col != GithubUrl
    ensures var f := PublishScript(e, spec, files, tests, c, settings).fields;
      (col in f <==> col in e.fields) && (col in e.fields ==> f[col] == e.fields[col])
  {
    var pm1: map<Column, Json> :=
      if Filled(EnvOr(c.env, "GITHUB_TOKEN", Setting(settings, "github_token"))) then map[CurrentStep := JStr("github")]
      else map[];
    var pm2 := UrlField(GithubUrl, Published(spec, files, tests, c, settings));
    assert PublishScript(e, spec, files, tests, c, settings).fields == e.fields + pm1 + pm2;
    MergeKeeps(e.fields, pm1, col);
    MergeKeeps(e.fields + pm1, pm2, col);
  }

  /** The deployment writes only the current step and the deployment URL. */
  lemma DeployKeeps(e: Effects, spec: Json, c: Outside, settings: map<string, string>, github: Option<string>,
                    col: Column)
    requires col != CurrentStep && col != DeployUrl
    ensures var f := DeployScript(e, spec, c, settings, github).fields;
      (col in f <==> col in e.fields) && (col in e.fields ==> f[col] == e.fields[col])
  {
    var dm1: map<Column, Json> := if Deploying(c, settings, github) then map[CurrentStep := JStr("deploying")] else map[];
    var dm2 := UrlField(DeployUrl, Deployed(spec, c, settings, github));
    assert DeployScript(e, spec, c, settings, github).fields == e.fields + dm1 + dm2;
    MergeKeeps(e.fields, dm1, col);
    MergeKeeps(e.fields + dm1, dm2, col);
  }

  /** The end writes the status, the step and both URLs, and nothing else. */
  lemma FinishWrites(e: Effects, status: string, github: Option<string>, deployUrl: Option<string>, pct: nat, col: Column)
    requires col != Status && col != CurrentStep && col != GithubUrl && col != DeployUrl
    ensures var f := FinishScript(e, status, github, deployUrl, pct).fields;
      && Holds(f, Status, JStr(status)) && Holds(f, CurrentStep, JStr("done"))
      && Holds(f, GithubUrl, UrlJson(github)) && Holds(f, DeployUrl, UrlJson(deployUrl))
      && (col in f <==> col in e.fields) && (col in e.fields ==> f[col] == e.fields[col])
  {
    var fm := map[Status := JStr(status), CurrentStep := JStr("done"), GithubUrl := UrlJson(github), DeployUrl := UrlJson(deployUrl)];
    assert FinishScript(e, status, github, deployUrl, pct).fields == e.fields + fm;
    MergeKeeps(e.fields, fm, col);
    MergeTakes(e.fields, fm, Status);
    MergeTakes(e.fields, fm, CurrentStep);
    MergeTakes(e.fields, fm, GithubUrl);
    MergeTakes(e.fields, fm, DeployUrl);
  }

  /** The columns the push, the deployment and the end write: none of those testing left. */
  lemma TailFields(spec: Json, files: Files, tests: Json, c: Outside, settings: map<string, string>, e: Effects,
                   status: string, github: Option<string>, deployUrl: Option<string>, pct: nat, col: Column)
    requires col != Status && col != CurrentStep && col != GithubUrl && col != DeployUrl
    ensures var p := PublishScript(e, spec, files, tests, c, settings);
      var d := DeployScript(p, spec, c, settings, github);
      var f := FinishScript(d, status, github, deployUrl, pct).fields;
      && Holds(f, Status, JStr(status)) && Holds(f, CurrentStep, JStr("done"))
      && Holds(f, GithubUrl, UrlJson(github)) && Holds(f, DeployUrl, UrlJson(deployUrl))
      && (col in f <==> col in e.fields) && (col in e.fields ==> f[col] == e.fields[col])
  {
    var p := PublishScript(e, spec, files, tests, c, settings);
    PublishKeeps(e, spec, files, tests, c, settings, col);
    DeployKeeps(p, spec, c, settings, github, col);
    FinishWrites(DeployScript(p, spec, c, settings, github), status, github, deployUrl, pct, col);
  }

  /**
   * The fields a finished run holds at the end, given those it held when the
   * tests were generated: the final status and URLs, the last test results
   * and files, the retry count only when it retried, and still no error.
   */
  lemma FinishedFields(spec: Json, files: Files, tests: Json, a: Replies, c: Outside, settings: map<string, string>,
                       e: Effects)
    requires Holds(e.fields, Spec, spec) && Holds(e.fields, GeneratedFiles, FilesJson(files))
    requires Holds(e.fields, TestFiles, tests) && Error !in e.fields && RetryCount !in e.fields
    ensures var k := FinishedCourse(spec, files, tests, a, c, settings, e); var f := k.effects.fields;
      && Holds(f, Status, JStr(k.status)) && Holds(f, CurrentStep, JStr("done"))
      && Holds(f, GithubUrl, UrlJson(k.githubUrl)) && Holds(f, DeployUrl, UrlJson(k.deployUrl))
      && Holds(f, TestResults, TestResultJson(k.phase.results))
      && Holds(f, GeneratedFiles, FilesJson(k.phase.files))
      && (k.phase.retried ==> Holds(f, RetryCount, JNum(1))) && (!k.phase.retried ==> RetryCount !in f)
      && Holds(f, Spec, spec) && Holds(f, TestFiles, tests) && Error !in f
  {
    var k := FinishedCourse(spec, files, tests, a, c, settings, e);
    var threshold := Threshold(Setting(settings, "test_threshold"));
    var maxRetries := MaxRetries(Setting(settings, "max_retries"));
    var phase := Testing(files, a, c, threshold, maxRetries);
    var t := TestingScript(e, files, a, c, threshold, maxRetries);
    var p := PublishScript(t, spec, phase.files, tests, c, settings);
    assert k.effects == FinishScript(DeployScript(p, spec, c, settings, k.githubUrl), k.status, k.githubUrl, k.deployUrl,
                                     phase.results.counts.percentage);
    TestingFields(spec, files, tests, a, c, threshold, maxRetries, e.fields);
    TailFields(spec, phase.files, tests, c, settings, t, k.status, k.githubUrl, k.deployUrl, phase.results.counts.percentage, Spec);
    TailFields(spec, phase.files, tests, c, settings, t, k.status, k.githubUrl, k.deployUrl, phase.results.counts.percentage, TestFiles);
    TailFields(spec, phase.files, tests, c, settings, t, k.status, k.githubUrl, k.deployUrl, phase.results.counts.percentage, Error);
    TailFields(spec, phase.files, tests, c, settings, t, k.status, k.githubUrl, k.deployUrl, phase.results.counts.percentage, RetryCount);
    TailFields(spec, phase.files, tests, c, settings, t, k.status, k.githubUrl, k.deployUrl, phase.results.counts.percentage, TestResults);
    TailFields(spec, phase.files, tests, c, settings, t, k.status, k.githubUrl, k.deployUrl, phase.results.counts.percentage, GeneratedFiles);
  }

  /** Planning stores the spec and no other column a later stage reads. */
  lemma PlannedFields(planLog: seq<LogLine>, spec: Json)
    ensures var f := PlanDone(PlanStart(NoEffects, planLog), spec).fields;
      Holds(f, Spec, spec) && GeneratedFiles !in f && TestFiles !in f && Error !in f && RetryCount !in f
  {
    var m0 := map[Status := JStr("running"), CurrentStep := JStr("planning")];
    var m1 := map[Spec := spec, CurrentStep := JStr("planning_done")];
    assert PlanDone(PlanStart(NoEffects, planLog), spec).fields == map[] + m0 + m1;
  }

  /** Building stores the files and keeps the spec. */
  lemma BuiltFields(e: Effects, spec: Json, files: Files)
    requires Holds(e.fields, Spec, spec) && TestFiles !in e.fields && Error !in e.fields && RetryCount !in e.fields
    ensures var f := BuildDone(BuildStart(e), files).fields;
      Holds(f, Spec, spec) && Holds(f, GeneratedFiles, FilesJson(files))
      && TestFiles !in f && Error !in f && RetryCount !in f
  {
    var m2 := map[CurrentStep := JStr("building")];
    var m3 := map[GeneratedFiles := FilesJson(files), CurrentStep := JStr("building_done")];
    var f2 := BuildStart(e).fields;
    assert f2 == e.fields + m2;
    assert BuildDone(BuildStart(e), files).fields == f2 + m3;
    MergeKeeps(e.fields, m2, Spec);
    MergeKeeps(e.fields, m2, TestFiles);
    MergeKeeps(e.fields, m2, Error);
    MergeKeeps(e.fields, m2, RetryCount);
    MergeKeeps(f2, m3, Spec);
    MergeKeeps(f2, m3, TestFiles);
    MergeKeeps(f2, m3, Error);
    MergeKeeps(f2, m3, RetryCount);
    MergeTakes(f2, m3, GeneratedFiles);
  }

  /** Test generation stores the tests and keeps the rest. */
  lemma TestedFields(e: Effects, spec: Json, files: Files, qaLog: seq<LogLine>, tests: Json)
    requires Holds(e.fields, Spec, spec) && Holds(e.fields, GeneratedFiles, FilesJson(files))
    requires Error !in e.fields && RetryCount !in e.fields
    ensures var f := QaDone(QaStart(e, qaLog), tests).fields;
      Holds(f, Spec, spec) && Holds(f, GeneratedFiles, FilesJson(files)) && Holds(f, TestFiles, tests)
      && Error !in f && RetryCount !in f
  {
    var m4 := map[CurrentStep := JStr("testing")];
    var m5 := map[TestFiles := tests];
    var f4 := QaStart(e, qaLog).fields;
    assert f4 == e.fields + m4;
    assert QaDone(QaStart(e, qaLog), tests).fields == f4 + m5;
    MergeKeeps(e.fields, m4, Spec);
    MergeKeeps(e.fields, m4, GeneratedFiles);
    MergeKeeps(e.fields, m4, Error);
    MergeKeeps(e.fields, m4, RetryCount);
    MergeKeeps(f4, m5, Spec);
    MergeKeeps(f4, m5, GeneratedFiles);
    MergeKeeps(f4, m5, Error);
    MergeKeeps(f4, m5, RetryCount);
    MergeTakes(f4, m5, TestFiles);
  }

  /** `fail` leaves the row failed, at the step given, with the message, and logs it last. */
  lemma FailedFields(e: Effects, step: string, error: string)
    ensures var r := FailScript(e, step, error);
      && Holds(r.fields, Status, JStr("failed")) && Holds(r.fields, CurrentStep, JStr(step))
      && Holds(r.fields, Error, JStr(error))
      && r.lines == e.lines + [Note(step, "error", "Pipeline failed: " + error)]
  {
    MergeTakes(e.fields, FailFields(step, error), Status);
    MergeTakes(e.fields, FailFields(step, error), CurrentStep);
    MergeTakes(e.fields, FailFields(step, error), Error);
  }

  /**
   * The row a course leaves, with what `startPipeline`'s `catch` adds: a
   * stopped run is failed at its stage with the stage's error; a crashed
   * one failed at `fatal_error` with the thrown message; a finished one
   * holds its final status, `done`, its spec, its last files, tests and
   * results, both URLs, the retry count exactly when it retried, and no error.
   */
  ghost predicate LeavesRow(k: Course) {
    var f := Concluded(k).fields;
    && (k.StoppedAt? ==>
          Holds(f, Status, JStr("failed")) && Holds(f, CurrentStep, JStr(k.step)) && Holds(f, Error, JStr(k.error)))
    && (k.Crashed? ==>
          Holds(f, Status, JStr("failed")) && Holds(f, CurrentStep, JStr("fatal_error")) && Holds(f, Error, JStr(k.message)))
    && (k.Finished? ==>
          Holds(f, Status, JStr(k.status)) && Holds(f, CurrentStep, JStr("done")) && Error !in f
          && Holds(f, Spec, k.spec) && Holds(f, TestFiles, k.tests)
          && Holds(f, GeneratedFiles, FilesJson(k.phase.files)) && Holds(f, TestResults, TestResultJson(k.phase.results))
          && Holds(f, GithubUrl, UrlJson(k.githubUrl)) && Holds(f, DeployUrl, UrlJson(k.deployUrl))
          && (k.phase.retried <==> RetryCount in f))
  }

  /** From the QA agent on, given the spec and files stored. */
  lemma QaConcluded(spec: Json, files: Files, e: Effects, a: Replies, c: Outside, settings: map<string, string>)
    requires Holds(e.fields, Spec, spec) && Holds(e.fields, GeneratedFiles, FilesJson(files))
    requires Error !in e.fields && RetryCount !in e.fields
    ensures LeavesRow(QaCourse(spec, files, e, a, c, settings))
  {
    var e3 := QaStart(e, a.qaLog);
    match a.qa
    case QaFailed(err) =>
      assert QaCourse(spec, files, e, a, c, settings) == StoppedAt("testing", err, FailScript(e3, "testing", err));
      FailedFields(e3, "testing", err);
    case Generated(tests) =>
      if !Bindable(tests) {
        var r := FailScript(e3, "orchestrator", BindError);
        assert QaCourse(spec, files, e, a, c, settings) == Crashed("testing", BindError, r);
        FatalFields(r, BindError);
      } else {
        assert QaCourse(spec, files, e, a, c, settings) == FinishedCourse(spec, files, tests, a, c, settings, QaDone(e3, tests));
        TestedFields(e, spec, files, a.qaLog, tests);
        FinishedConcluded(spec, files, tests, a, c, settings, QaDone(e3, tests));
      }
  }

  /** A finished course, from the columns stored when the tests were generated. */
  lemma FinishedConcluded(spec: Json, files: Files, tests: Json, a: Replies, c: Outside, settings: map<string, string>,
                          e: Effects)
    requires Holds(e.fields, Spec, spec) && Holds(e.fields, GeneratedFiles, FilesJson(files))
    requires Holds(e.fields, TestFiles, tests) && Error !in e.fields && RetryCount !in e.fields
    ensures LeavesRow(FinishedCourse(spec, files, tests, a, c, settings, e))
  {
    FinishedFields(spec, files, tests, a, c, settings, e);
  }

  /** From the builder on, given the spec stored. */
  lemma BuildConcluded(spec: Json, e: Effects, a: Replies, c: Outside, settings: map<string, string>)
    requires Holds(e.fields, Spec, spec) && TestFiles !in e.fields && Error !in e.fields && RetryCount !in e.fields
    ensures LeavesRow(BuildCourse(spec, e, a, c, settings))
  {
    var e2 := BuildStart(e);
    match c.build
    case BuildFailed(err) =>
      assert BuildCourse(spec, e, a, c, settings) == StoppedAt("building", err, FailScript(e2, "building", err));
      FailedFields(e2, "building", err);
    case BuildThrew(m) =>
      var r := FailScript(e2, "orchestrator", m);
      assert BuildCourse(spec, e, a, c, settings) == Crashed("building", m, r);
      FatalFields(r, m);
    case Built(files) =>
      assert BuildCourse(spec, e, a, c, settings) == QaCourse(spec, files, BuildDone(e2, files), a, c, settings);
      BuiltFields(e, spec, files);
      QaConcluded(spec, files, BuildDone(e2, files), a, c, settings);
  }

  /** The `catch` of `startPipeline` leaves the row failed at `fatal_error` with the thrown message. */
  lemma FatalFields(r: Effects, m: string)
    ensures var f := FatalScript(r, m).fields;
      Holds(f, Status, JStr("failed")) && Holds(f, CurrentStep, JStr("fatal_error")) && Holds(f, Error, JStr(m))
  {
    MergeTakes(r.fields, FailFields("fatal_error", m), Status);
    MergeTakes(r.fields, FailFields("fatal_error", m), CurrentStep);
    MergeTakes(r.fields, FailFields("fatal_error", m), Error);
  }

  /** Every course leaves the row its end promises. */
  lemma ConcludedFields(a: Replies, c: Outside, settings: map<string, string>)
    ensures LeavesRow(CourseFrom(a, c, settings))
  {
    var e1 := PlanStart(NoEffects, a.planLog);
    match a.plan
    case Failure(err) =>
      assert CourseFrom(a, c, settings) == StoppedAt("planning", err, FailScript(e1, "planning", err));
      FailedFields(e1, "planning", err);
    case Success(spec) =>
      assert CourseFrom(a, c, settings) == BuildCourse(spec, PlanDone(e1, spec), a, c, settings);
      PlannedFields(a.planLog, spec);
      BuildConcluded(spec, PlanDone(e1, spec), a, c, settings);
  }


  // ---------------------------------------------------------------------
  // The orchestrator's state

  /** What `startPipeline` returns. */
  datatype Started = Started(projectId: string, status: string)

  /** How the promise of `runPipelineAsync` settles. */
  datatype Settled = Resolved | Rejected(message: string)

  /** What a run starts from: the tables it writes, the steps so far and the registry. */
  datatype Snapshot = Snapshot(projects: map<string, Row>, logs: seq<LogEntry>, nextLogId: nat, trail: Trail,
                               runs: map<string, RunProgress>)

  /** The registry after the `setStep` calls of `steps`, all at time `now`. */
  function Progressed(runs: map<string, RunProgress>, id: string, steps: Trail, now: int): map<string, RunProgress> {
    if steps == [] then runs
    else runs[id := Stepped(RunOf(runs, id), steps[|steps| - 1].0, steps[|steps| - 1].1, now)]
  }

  /** Writing a run's entry over the one its steps left gives the same registry as writing it first. */
  lemma ProgressedOverwritten(runs: map<string, RunProgress>, id: string, steps: Trail, now: int, r: RunProgress)
    ensures Progressed(runs, id, steps, now)[id := r] == runs[id := r]
  {
  }

  /** One more `setStep` call steps the entry the earlier calls left. */
  lemma ProgressedSnoc(runs: map<string, RunProgress>, id: string, steps: Trail, step: string, progress: nat, now: int)
    ensures var r := Progressed(runs, id, steps, now);
      Progressed(runs, id, steps + [(step, progress)], now) == r[id := Stepped(RunOf(r, id), step, progress, now)]
  {
    if steps != [] {
      var last := steps[|steps| - 1];
      SteppedTwice(RunOf(runs, id), last.0, last.1, now, step, progress, now);
    }
  }

  /** The registry a run leaves: the entry `fail` writes, or the entry of its last step. */
  function FinalRuns(runs: map<string, RunProgress>, id: string, k: Course, now: int): map<string, RunProgress> {
    match k
    case StoppedAt(_, error, _) => runs[id := Failed(error, now)]
    case Crashed(_, message, _) => runs[id := Failed(message, now)]
    case Finished(_, _, _, _, _, _, effects) => Progressed(runs, id, effects.steps, now)
  }

  /** What a launched run writes in all: a crash adds the writes of the `catch` in `startPipeline`. */
  function Concluded(k: Course): Effects {
    if k.Crashed? then FatalScript(k.effects, k.message) else k.effects
  }

  /** The workspaces after `executeTests` in path `path`: its workspace added when `mkdir` succeeded. */
  function After(dirs: map<string, Qa.Dir>, x: Qa.Execution, path: string): map<string, Qa.Dir> {
    if x.workspace.Some? then dirs[path := x.workspace.value] else dirs
  }

  /** Updating a project twice is updating it once with the fields merged. */
  lemma UpdateTwice(projects: map<string, Row>, id: string, row: Row, f: map<Column, Json>, g: map<Column, Json>, now: string)
    requires AllBindable(f) && AllBindable(g)
    ensures AllBindable(f + g)
    ensures projects[id := Apply(row, f, now)][id := Apply(Apply(row, f, now), g, now)]
         == projects[id := Apply(row, f + g, now)]
  {
    ApplyTwice(row, f, g, now);
  }

  /** An agent's `addLog` calls extend the log of a run by the rows of its lines. */
  lemma LinesAppended(s: Snapshot, id: string, e: Effects, lines: seq<LogLine>,
                      logs: seq<LogEntry>, next: nat, logs': seq<LogEntry>, next': nat, now: string)
    requires logs == s.logs + Entries(s.nextLogId, id, e.lines, now) && next == s.nextLogId + |e.lines|
    requires logs' == logs + Entries(next, id, lines, now) && next' == next + |lines|
    ensures logs' == s.logs + Entries(s.nextLogId, id, WithLogs(e, lines).lines, now)
    ensures next' == s.nextLogId + |WithLogs(e, lines).lines|
  {
    EntriesAfter(s.logs, s.nextLogId, id, e.lines, lines, now);
  }

  /** Removing a workspace that was not there before the execution restores the workspaces. */
  lemma CleanedUp(dirs: map<string, Qa.Dir>, x: Qa.Execution, path: string)
    requires path !in dirs
    ensures After(dirs, x, path) - {path} == dirs
  {
  }

  /** What `cleanupWorkspace` leaves of workspaces that are `dirs` apart from `path`. */
  lemma Removed(d: map<string, Qa.Dir>, path: string, dirs: map<string, Qa.Dir>)
    requires path != "" && d - {path} == dirs
    ensures (if path in d then d - {path} else d) == dirs
  {
    if path !in d {
      assert d - {path} == d;
    }
  }

  /** The snapshot `startPipeline` launches from: the new project's row and its queued entry added. */
  function Registered(s: Snapshot, id: string, idea: string, clock: string, now: int): Snapshot {
    s.(projects := s.projects[id := NewRow(id, DeriveName(idea), idea, clock)], runs := s.runs[id := Queued(now)])
  }

  /** The registry after a launched run: a rejected run leaves it, any other ends as `FinalRuns` says. */
  function Unregistered(runs: map<string, RunProgress>, id: string, k: Course, now: int): map<string, RunProgress> {
    if k.Crashed? then runs - {id} else FinalRuns(runs, id, k, now)
  }

  /** Removing an entry forgets what it was set to. */
  lemma Forgotten(runs: map<string, RunProgress>, id: string, p: RunProgress)
    ensures runs[id := p] - {id} == runs - {id}
  {
  }

  class Runner {
    const store: Store
    const ws: Qa.Workspaces
    /** `activeRuns`. */
    var activeRuns: map<string, RunProgress>
    /** What `Date.now()` reads. */
    var now: int
    /** The `setStep` calls made so far. */
    ghost var trail: Trail

    ghost predicate Valid()
      reads this, store
    {
      store.Valid()
    }

    constructor (store: Store, ws: Qa.Workspaces, now: int)
      requires store.Valid()
      ensures Valid() && this.store == store && this.ws == ws
      ensures activeRuns == map[] && this.now == now && trail == []
    {
      this.store := store;
      this.ws := ws;
      activeRuns := map[];
      this.now := now;
      trail := [];
    }

    ghost function Snap(): Snapshot
      reads this, store
    {
      Snapshot(store.projects, store.logs, store.nextLogId, trail, activeRuns)
    }

    /** The store and the steps hold what `e` describes on top of `s`, for project `id`. */
    ghost predicate Stored(id: string, s: Snapshot, e: Effects)
      reads this, store
    {
      && id in s.projects && AllBindable(e.fields)
      && store.projects == s.projects[id := Apply(s.projects[id], e.fields, store.clock)]
      && store.logs == s.logs + Entries(s.nextLogId, id, e.lines, store.clock)
      && store.nextLogId == s.nextLogId + |e.lines|
      && trail == s.trail + e.steps
    }

    /** `Stored`, and the registry entry stepped by the steps of `e`. */
    ghost predicate Reached(id: string, s: Snapshot, e: Effects)
      reads this, store
    {
      Stored(id, s, e) && activeRuns == Progressed(s.runs, id, e.steps, now)
    }

    /** Before the first write, a project's run has reached nothing. */
    ghost method Untouched(id: string)
      requires Valid() && id in store.projects
      ensures Reached(id, Snap(), NoEffects)
    {
      assert store.projects[id := Apply(store.projects[id], map[], store.clock)] == store.projects;
    }

    /** The same writes described twice are reached together. */
    ghost method Restate(id: string, s: Snapshot, x: Effects, y: Effects)
      requires Reached(id, s, x) && x == y
      ensures Reached(id, s, y)
    {
    }

    /** `getActiveRun`. */
    function GetActiveRun(projectId: string): (r: Option<RunProgress>)
      reads this
      ensures r.Some? <==> projectId in activeRuns
      ensures r.Some? ==> r.value == activeRuns[projectId]
    {
      RunOf(activeRuns, projectId)
    }

    /** `getAllActiveRuns`: every registered run, as `getActiveRun` finds it. */
    function GetAllActiveRuns(): (r: map<string, RunProgress>)
      reads this
      ensures forall id :: (id in r) <==> GetActiveRun(id).Some?
      ensures forall id :: id in r ==> GetActiveRun(id) == Some(r[id])
    {
      AllActiveRuns(activeRuns)
    }

    /** `setStep`: merges step, progress and time into the entry. */
    method SetStep(projectId: string, step: string, progress: nat)
      modifies this`activeRuns, this`trail
      ensures activeRuns == old(activeRuns)[projectId := Stepped(RunOf(old(activeRuns), projectId), step, progress, now)]
      ensures trail == old(trail) + [(step, progress)]
    {
      activeRuns := activeRuns[projectId := Stepped(RunOf(activeRuns, projectId), step, progress, now)];
      trail := trail + [(step, progress)];
    }

    /** The 120-second timer of a finished or failed run, when it fires. */
    method Expire(projectId: string)
      modifies this`activeRuns
      ensures activeRuns == old(activeRuns) - {projectId}
      ensures GetActiveRun(projectId).None?
    {
      activeRuns := activeRuns - {projectId};
    }

    // The three writes of a run, each extending what the run has written.

    method Step(id: string, step: string, progress: nat, ghost s: Snapshot, ghost e: Effects)
      requires Reached(id, s, e)
      modifies this`activeRuns, this`trail
      ensures Reached(id, s, WithStep(e, step, progress))
    {
      SetStep(id, step, progress);
      ProgressedSnoc(s.runs, id, e.steps, step, progress, now);
    }

    method Update(id: string, fields: map<Column, Json>, ghost s: Snapshot, ghost e: Effects)
      requires Valid() && Stored(id, s, e) && AllBindable(fields) && Id !in fields
      modifies store`projects
      ensures Valid() && Stored(id, s, WithUpdate(e, fields))
      ensures old(Reached(id, s, e)) ==> Reached(id, s, WithUpdate(e, fields))
    {
      ghost var row := s.projects[id];
      store.UpdateProject(id, fields);
      UpdateTwice(s.projects, id, row, e.fields, fields, store.clock);
    }

    method Log(id: string, stage: string, status: string, message: string, data: Json, ghost s: Snapshot, ghost e: Effects)
      requires Valid() && Stored(id, s, e)
      modifies store`logs, store`nextLogId
      ensures Valid() && Stored(id, s, WithLog(e, LogLine(stage, status, message, data)))
      ensures old(Reached(id, s, e)) ==> Reached(id, s, WithLog(e, LogLine(stage, status, message, data)))
    {
      store.AddLog(id, stage, status, message, data);
      EntriesSnoc(s.nextLogId, id, e.lines, LogLine(stage, status, message, data), store.clock);
    }

    /** How a stage opens: `setStep`, the update, the `started` line. */
    method Begin(id: string, step: string, progress: nat, fields: map<Column, Json>, stage: string, message: string,
                 ghost s: Snapshot, ghost e: Effects)
      requires Valid() && Reached(id, s, e) && AllBindable(fields) && Id !in fields
      modifies store`projects, store`logs, store`nextLogId, this`activeRuns, this`trail
      ensures Valid() && Reached(id, s, Begun(e, step, progress, fields, stage, message))
    {
      Step(id, step, progress, s, e);
      Update(id, fields, s, WithStep(e, step, progress));
      Log(id, stage, "started", message, JNull, s, WithUpdate(WithStep(e, step, progress), fields));
    }

    /** `fail`: the failed row, the error line, and a new registry entry. */
    method Fail(id: string, step: string, error: string, ghost s: Snapshot, ghost e: Effects)
      requires Valid() && Reached(id, s, e)
      modifies store`projects, store`logs, store`nextLogId, this`activeRuns
      ensures Valid() && Stored(id, s, FailScript(e, step, error))
      ensures activeRuns == old(activeRuns)[id := Failed(error, now)]
      ensures activeRuns == s.runs[id := Failed(error, now)]
      ensures ws.dirs == old(ws.dirs)
    {
      ghost var runs := activeRuns;
      Update(id, FailFields(step, error), s, e);
      Log(id, step, "error", "Pipeline failed: " + error, JNull, s, WithUpdate(e, FailFields(step, error)));
      activeRuns := activeRuns[id := Failed(error, now)];
      ProgressedOverwritten(s.runs, id, e.steps, now, Failed(error, now));
      assert activeRuns == runs[id := Failed(error, now)];
    }

    /** The `catch` of `startPipeline`: the project ends as a fatal error and leaves the registry. */
    method OnFatal(id: string, message: string, ghost s: Snapshot, ghost e: Effects)
      requires Valid() && Stored(id, s, e)
      modifies store`projects, store`logs, store`nextLogId, this`activeRuns
      ensures Valid() && Stored(id, s, FatalScript(e, message))
      ensures activeRuns == old(activeRuns) - {id}
    {
      Update(id, FailFields("fatal_error", message), s, e);
      Log(id, "orchestrator", "error", "Fatal pipeline error: " + message, JNull, s,
          WithUpdate(e, FailFields("fatal_error", message)));
      activeRuns := activeRuns - {id};
    }
  
    // The stages of `runPipelineAsync`, each proved against its script.

    /** Planning up to the planner's result. */
    method Plan(id: string, reply: Planner.Reply, ghost s: Snapshot) returns (result: Planner.PlannerResult)
      requires Valid() && Reached(id, s, NoEffects)
      modifies store`projects, store`logs, store`nextLogId, this`activeRuns, this`trail
      ensures Valid() && Reached(id, s, PlanStart(NoEffects, Planner.PlannerLog(reply)))
      ensures result == Planner.PlannerOutcome(reply)
      ensures ws.dirs == old(ws.dirs)
    {
      ghost var e := Begun(NoEffects, "planning", 10, map[Status := JStr("running"), CurrentStep := JStr("planning")],
                           "planning", "Planner Agent analyzing idea...");
      Begin(id, "planning", 10, map[Status := JStr("running"), CurrentStep := JStr("planning")],
            "planning", "Planner Agent analyzing idea...", s, NoEffects);
      ghost var logs, next := store.logs, store.nextLogId;
      result := Planner.RunPlanner(store, id, reply);
      LinesAppended(s, id, e, Planner.PlannerLog(reply), logs, next, store.logs, store.nextLogId, store.clock);
    }

    /** The accepted spec: stored, the step, the summary line. */
    method Planned(id: string, spec: Json, ghost s: Snapshot, ghost e: Effects)
      requires Valid() && Reached(id, s, e) && spec.JObj?
      modifies store`projects, store`logs, store`nextLogId, this`activeRuns, this`trail
      ensures Valid() && Reached(id, s, PlanDone(e, spec))
      ensures ws.dirs == old(ws.dirs)
    {
      Update(id, map[Spec := spec, CurrentStep := JStr("planning_done")], s, e);
      ghost var e1 := WithUpdate(e, map[Spec := spec, CurrentStep := JStr("planning_done")]);
      Step(id, "planning_done", 25, s, e1);
      Log(id, "planning", "completed", SpecMessage(spec), JStr(Stringify(spec)), s, WithStep(e1, "planning_done", 25));
    }

    /** The building step, before the builder answers. */
    method BuildStep(id: string, ghost s: Snapshot, ghost e: Effects)
      requires Valid() && Reached(id, s, e)
      modifies store`projects, store`logs, store`nextLogId, this`activeRuns, this`trail
      ensures Valid() && Reached(id, s, BuildStart(e))
      ensures ws.dirs == old(ws.dirs)
    {
      Begin(id, "building", 30, map[CurrentStep := JStr("building")], "building",
            "Builder Agent generating application code...", s, e);
    }

    /** The built files: stored, the step, their count. */
    method BuildDoneStep(id: string, files: Files, ghost s: Snapshot, ghost e: Effects)
      requires Valid() && Reached(id, s, e)
      modifies store`projects, store`logs, store`nextLogId, this`activeRuns, this`trail
      ensures Valid() && Reached(id, s, BuildDone(e, files))
      ensures ws.dirs == old(ws.dirs)
    {
      var fields := map[GeneratedFiles := FilesJson(files), CurrentStep := JStr("building_done")];
      Update(id, fields, s, e);
      Step(id, "building_done", 50, s, WithUpdate(e, fields));
      Log(id, "building", "completed", "Generated " + NatToString(|BuiltKeys(files)|) + " files",
          JStr(Stringify(StrArray(BuiltKeys(files)))),
          s, WithStep(WithUpdate(e, fields), "building_done", 50));
    }

    /** Test generation up to the QA agent's result. */
    method GenerateTests(id: string, reply: Qa.QaReply, parse: string -> Result<Json>, ghost s: Snapshot, ghost e: Effects)
      returns (result: Qa.QaResult)
      requires Valid() && Reached(id, s, e)
      modifies store`projects, store`logs, store`nextLogId, this`activeRuns, this`trail
      ensures Valid() && Reached(id, s, QaStart(e, Qa.QaLog(reply, parse)))
      ensures result == Qa.QaOutcome(reply, parse)
      ensures ws.dirs == old(ws.dirs)
    {
      Begin(id, "testing", 55, map[CurrentStep := JStr("testing")], "testing", "QA Agent generating tests...", s, e);
      result := AskQa(id, reply, parse, s,
                      Begun(e, "testing", 55, map[CurrentStep := JStr("testing")], "testing", "QA Agent generating tests..."));
    }

    /** `runQA`: the agent's lines appended to the run's. */
    method AskQa(id: string, reply: Qa.QaReply, parse: string -> Result<Json>, ghost s: Snapshot, ghost e: Effects)
      returns (result: Qa.QaResult)
      requires Valid() && Reached(id, s, e)
      modifies store`logs, store`nextLogId
      ensures Valid() && Reached(id, s, WithLogs(e, Qa.QaLog(reply, parse)))
      ensures result == Qa.QaOutcome(reply, parse)
    {
      ghost var logs, next := store.logs, store.nextLogId;
      result := Qa.RunQA(store, id, reply, parse);
      LinesAppended(s, id, e, Qa.QaLog(reply, parse), logs, next, store.logs, store.nextLogId, store.clock);
    }

    /** The generated tests: stored, and announced. */
    method TestsGenerated(id: string, tests: Json, ghost s: Snapshot, ghost e: Effects)
      requires Valid() && Reached(id, s, e) && Bindable(tests)
      modifies store`projects, store`logs, store`nextLogId
      ensures Valid() && Reached(id, s, QaDone(e, tests))
      ensures ws.dirs == old(ws.dirs)
    {
      Update(id, map[TestFiles := tests], s, e);
      Log(id, "testing", "running", "Generated " + NatToString(|ObjectEntries(tests)|) + " test file(s), executing...", JNull,
          s, WithUpdate(e, map[TestFiles := tests]));
    }
  
    /** One `executeTests` call in a new workspace, then the update of `test_results`. */
    method ExecuteOnce(id: string, generated: Files, tests: Json, env: Qa.ExecEnv, ghost s: Snapshot, ghost e: Effects)
      returns (result: Qa.TestResult)
      requires Valid() && Reached(id, s, e) && env.workspacePath !in ws.dirs
      modifies store`projects, store`logs, store`nextLogId, ws
      ensures var x := Qa.Execute(map[], generated, tests, env);
        Valid() && Reached(id, s, Run(e, x)) && result == x.result
      ensures ws.dirs - {env.workspacePath} == old(ws.dirs)
    {
      ghost var logs, next := store.logs, store.nextLogId;
      ghost var lines;
      CleanedUp(ws.dirs, Qa.Execute(map[], generated, tests, env), env.workspacePath);
      result, lines := Qa.ExecuteTests(store, ws, id, generated, tests, env);
      LinesAppended(s, id, e, lines, logs, next, store.logs, store.nextLogId, store.clock);
      Update(id, map[TestResults := TestResultJson(result)], s, WithLogs(e, lines));
    }

    /** The first execution, from `executing_tests` to its results line. */
    method FirstTests(id: string, generated: Files, tests: Json, env: Qa.ExecEnv, ghost s: Snapshot, ghost e: Effects)
      returns (result: Qa.TestResult)
      requires Valid() && Reached(id, s, e) && env.workspacePath !in ws.dirs
      modifies store`projects, store`logs, store`nextLogId, ws, this`activeRuns, this`trail
      ensures var x := Qa.Execute(map[], generated, tests, env);
        Valid() && Reached(id, s, FirstRun(e, x)) && result == x.result
      ensures ws.dirs - {env.workspacePath} == old(ws.dirs)
    {
      Step(id, "executing_tests", 60, s, e);
      ghost var e1 := WithStep(e, "executing_tests", 60);
      Update(id, map[CurrentStep := JStr("executing_tests")], s, e1);
      ghost var e2 := WithUpdate(e1, map[CurrentStep := JStr("executing_tests")]);
      result := ExecuteOnce(id, generated, tests, env, s, e2);
      ghost var e3 := Run(e2, Qa.Execute(map[], generated, tests, env));
      Step(id, "tests_done", 70, s, e3);
      Log(id, "testing", "executed", ResultsMessage("Results: ", result.counts), JStr(Stringify(ExecutedData(result.counts))),
          s, WithStep(e3, "tests_done", 70));
    }

    /** A successful rebuild: the new files stored, the first workspace removed, the new files retested. */
    method Retest(id: string, files: Files, tests: Json, firstPath: string, env: Qa.ExecEnv,
                  ghost dirs: map<string, Qa.Dir>, ghost s: Snapshot, ghost e: Effects)
      returns (result: Qa.TestResult)
      requires Valid() && Reached(id, s, e)
      requires firstPath != "" && firstPath !in dirs && env.workspacePath !in dirs
      requires ws.dirs - {firstPath} == dirs
      modifies store`projects, store`logs, store`nextLogId, ws, this`activeRuns, this`trail
      ensures var x := Qa.Execute(map[], files, tests, env);
        Valid() && Reached(id, s, Retested(e, files, x)) && result == x.result
      ensures ws.dirs - {env.workspacePath} == dirs
    {
      Update(id, map[GeneratedFiles := FilesJson(files)], s, e);
      ghost var e1 := WithUpdate(e, map[GeneratedFiles := FilesJson(files)]);
      Log(id, "retrying", "rebuilt", "Builder regenerated code with fixes", JNull, s, e1);
      ghost var e2 := WithLog(e1, Note("retrying", "rebuilt", "Builder regenerated code with fixes"));
      Removed(ws.dirs, firstPath, dirs);
      ws.CleanupWorkspace(firstPath);
      Step(id, "retesting", 78, s, e2);
      ghost var e3 := WithStep(e2, "retesting", 78);
      result := ExecuteOnce(id, files, tests, env, s, e3);
      Log(id, "retrying", "retested", ResultsMessage("Retry: ", result.counts), JStr(Stringify(RetestData(result.counts))),
          s, Run(e3, Qa.Execute(map[], files, tests, env)));
    }

    /** The rebuild: retested new files, or a failure line and the original code. */
    method Rebuild(id: string, generated: Files, tests: Json, first: Qa.TestResult, c: Outside, ghost a: Replies,
                   ghost dirs: map<string, Qa.Dir>, ghost s: Snapshot, ghost e: Effects)
      returns (files: Files, result: Qa.TestResult)
      requires Valid() && Reached(id, s, e) && FreshWorkspaces(c, dirs)
      requires c.rebuild.Rebuilt? ==> a.retest == Qa.Execute(map[], c.rebuild.files, tests, c.retest)
      requires first.workspacePath == c.firstRun.workspacePath && ws.dirs - {c.firstRun.workspacePath} == dirs
      modifies store`projects, store`logs, store`nextLogId, ws, this`activeRuns, this`trail
      ensures Valid() && Reached(id, s, Rebuilding(e, a, c))
      ensures c.rebuild.Rebuilt? ==>
        (files == c.rebuild.files && result == a.retest.result && ws.dirs - {c.retest.workspacePath} == dirs)
      ensures !c.rebuild.Rebuilt? ==> files == generated && result == first && ws.dirs == old(ws.dirs)
    {
      match c.rebuild
      case Rebuilt(newFiles) =>
        files := newFiles;
        result := Retest(id, files, tests, first.workspacePath, c.retest, dirs, s, e);
      case RebuildFailed =>
        files, result := generated, first;
        Log(id, "retrying", "failed", "Builder retry failed, proceeding with original code", JNull, s, e);
      case RebuildThrew(message) =>
        files, result := generated, first;
        Log(id, "retrying", "failed", "Retry error: " + message, JNull, s, e);
    }

    /** The retry's announcement, the step and `retry_count` 1. */
    method RetryStart(id: string, first: nat, threshold: int, ghost s: Snapshot, ghost e: Effects)
      requires Valid() && Reached(id, s, e)
      modifies store`projects, store`logs, store`nextLogId, this`activeRuns, this`trail
      ensures Valid() && Reached(id, s, RetryBegun(e, first, threshold))
    {
      Log(id, "retrying", "started", RetryMessage(first, threshold), JNull, s, e);
      ghost var e1 := WithLog(e, Note("retrying", "started", RetryMessage(first, threshold)));
      Step(id, "retrying", 72, s, e1);
      ghost var e2 := WithStep(e1, "retrying", 72);
      var fields := map[CurrentStep := JStr("retrying"), RetryCount := JNum(1)];
      assert AllBindable(fields) && Id !in fields;
      Update(id, fields, s, e2);
      assert RetryBegun(e, first, threshold) == WithUpdate(e2, fields);
    }

    /** The line of a retry that ends below the threshold. */
    method RetryVerdict(id: string, last: nat, threshold: int, ghost s: Snapshot, ghost e: Effects)
      requires Valid() && Reached(id, s, e)
      modifies store`logs, store`nextLogId
      ensures Valid() && Reached(id, s, if last < threshold then WithLog(e, Note("retrying", "failed", BelowMessage(last, threshold))) else e)
    {
      if last < threshold {
        Log(id, "retrying", "failed", BelowMessage(last, threshold), JNull, s, e);
      }
    }

    /** The retry: its announcement, `retry_count` 1, the rebuild, and the line when still below the threshold. */
    method Retry(id: string, generated: Files, tests: Json, first: Qa.TestResult, c: Outside, ghost a: Replies,
                 threshold: int, ghost dirs: map<string, Qa.Dir>, ghost s: Snapshot, ghost e: Effects)
      returns (files: Files, result: Qa.TestResult)
      requires Valid() && Reached(id, s, e) && FreshWorkspaces(c, dirs)
      requires c.rebuild.Rebuilt? ==> a.retest == Qa.Execute(map[], c.rebuild.files, tests, c.retest)
      requires first.workspacePath == c.firstRun.workspacePath && ws.dirs - {c.firstRun.workspacePath} == dirs
      modifies store`projects, store`logs, store`nextLogId, ws, this`activeRuns, this`trail
      ensures Valid()
      ensures Reached(id, s, RetryScript(e, first.counts.percentage, result.counts.percentage, a, c, threshold))
      ensures c.rebuild.Rebuilt? ==>
        (files == c.rebuild.files && result == a.retest.result && ws.dirs - {c.retest.workspacePath} == dirs)
      ensures !c.rebuild.Rebuilt? ==> files == generated && result == first && ws.dirs == old(ws.dirs)
    {
      RetryStart(id, first.counts.percentage, threshold, s, e);
      ghost var e3 := RetryBegun(e, first.counts.percentage, threshold);
      files, result := Rebuild(id, generated, tests, first, c, a, dirs, s, e3);
      ghost var e4 := Rebuilding(e3, a, c);
      RetryVerdict(id, result.counts.percentage, threshold, s, e4);
      assert RetryScript(e, first.counts.percentage, result.counts.percentage, a, c, threshold)
          == if result.counts.percentage < threshold
             then WithLog(e4, Note("retrying", "failed", BelowMessage(result.counts.percentage, threshold))) else e4;
    }

    /** Testing up to the final rate: the first execution and, below the threshold, one retry. */
    method TestAndRetry(id: string, generated: Files, tests: Json, c: Outside, ghost a: Replies, threshold: Option<int>,
                        maxRetries: Option<int>, ghost s: Snapshot, ghost e: Effects)
      returns (files: Files, result: Qa.TestResult)
      requires Valid() && Reached(id, s, e) && FreshWorkspaces(c, ws.dirs) && Ran(a, generated, tests, c)
      modifies store`projects, store`logs, store`nextLogId, ws, this`activeRuns, this`trail
      ensures Valid() && Reached(id, s, Tested(e, generated, a, c, threshold, maxRetries))
      ensures var phase := Testing(generated, a, c, threshold, maxRetries);
        files == phase.files && result == phase.results
      ensures result.workspacePath != "" && ws.dirs - {result.workspacePath} == old(ws.dirs)
    {
      ghost var dirs := ws.dirs;
      result := FirstTests(id, generated, tests, c.firstRun, s, e);
      files := generated;
      if ShouldRetry(result.counts.percentage, threshold, maxRetries) {
        var first := result;
        files, result := Retry(id, generated, tests, first, c, a, threshold.value, dirs, s, FirstRun(e, a.first));
      }
    }

    /** The end of testing: the last workspace removed, the final rate line and `tests_complete`. */
    method CloseTests(id: string, result: Qa.TestResult, ghost dirs: map<string, Qa.Dir>, ghost s: Snapshot,
                      ghost e: Effects)
      requires Valid() && Reached(id, s, e)
      requires result.workspacePath != "" && ws.dirs - {result.workspacePath} == dirs
      modifies store`logs, store`nextLogId, ws, this`activeRuns, this`trail
      ensures Valid() && ws.dirs == dirs
      ensures Reached(id, s, WithStep(WithLog(e, Note("testing", "completed", "Final test rate: "
                                                       + NatToString(result.counts.percentage) + "%")), "tests_complete", 80))
    {
      Removed(ws.dirs, result.workspacePath, dirs);
      ws.CleanupWorkspace(result.workspacePath);
      var message := "Final test rate: " + NatToString(result.counts.percentage) + "%";
      Log(id, "testing", "completed", message, JNull, s, e);
      Step(id, "tests_complete", 80, s, WithLog(e, Note("testing", "completed", message)));
    }

    /**
     * Testing from the first execution to `tests_complete`: at most one
     * retry, and every workspace the executions made is removed again.
     */
    method RunTests(id: string, generated: Files, tests: Json, c: Outside, ghost a: Replies, threshold: Option<int>,
                    maxRetries: Option<int>, ghost s: Snapshot, ghost e: Effects)
      returns (files: Files, result: Qa.TestResult)
      requires Valid() && Reached(id, s, e) && FreshWorkspaces(c, ws.dirs) && Ran(a, generated, tests, c)
      modifies store`projects, store`logs, store`nextLogId, ws, this`activeRuns, this`trail
      ensures Valid() && Reached(id, s, TestingScript(e, generated, a, c, threshold, maxRetries))
      ensures var phase := Testing(generated, a, c, threshold, maxRetries);
        files == phase.files && result == phase.results
      ensures ws.dirs == old(ws.dirs)
    {
      ghost var dirs := ws.dirs;
      files, result := TestAndRetry(id, generated, tests, c, a, threshold, maxRetries, s, e);
      CloseTests(id, result, dirs, s, Tested(e, generated, a, c, threshold, maxRetries));
    }

    /** The push's answer: the URL stored and announced, or the failure logged. */
    method Pushed(id: string, answer: Push, ghost s: Snapshot, ghost e: Effects) returns (github: Option<string>)
      requires Valid() && Reached(id, s, e)
      modifies store`projects, store`logs, store`nextLogId
      ensures Valid() && Reached(id, s, Pushing(e, answer)) && github == PushedUrl(answer)
    {
      match answer
      case Pushed(url) =>
        github := Some(url);
        Update(id, map[GithubUrl := JStr(url)], s, e);
        Log(id, "github", "completed", "Repository created: " + url, JNull, s, WithUpdate(e, map[GithubUrl := JStr(url)]));
      case PushThrew(m) =>
        github := None;
        Log(id, "github", "failed", "GitHub push failed (non-blocking): " + m, JNull, s, e);
    }

    /** The push when a token is set, or the line that skips it. */
    method Github(id: string, spec: Json, files: Files, tests: Json, c: Outside, settings: map<string, string>,
                  ghost s: Snapshot, ghost e: Effects)
      returns (github: Option<string>)
      requires Valid() && Reached(id, s, e)
      modifies store`projects, store`logs, store`nextLogId, this`activeRuns, this`trail
      ensures Valid() && Reached(id, s, GithubScript(e, spec, files, tests, c, settings))
      ensures github == Published(spec, files, tests, c, settings)
    {
      var token := EnvOr(c.env, "GITHUB_TOKEN", Setting(settings, "github_token"));
      if Filled(token) {
        Begin(id, "github", 85, map[CurrentStep := JStr("github")], "github", "Creating GitHub repository...", s, e);
        var answer := PushAnswer(spec, files, tests, c);
        ghost var e1 := Begun(e, "github", 85, map[CurrentStep := JStr("github")], "github", "Creating GitHub repository...");
        github := Pushed(id, answer, s, e1);
        assert GithubScript(e, spec, files, tests, c, settings) == Pushing(e1, answer);
      } else {
        github := None;
        Log(id, "github", "skipped", "No GitHub token configured", JNull, s, e);
        assert GithubScript(e, spec, files, tests, c, settings)
            == WithLog(e, Note("github", "skipped", "No GitHub token configured"));
      }
    }

    /** The GitHub step: the push when a token is set, then `github_done`. */
    method Publish(id: string, spec: Json, files: Files, tests: Json, c: Outside, settings: map<string, string>,
                   ghost s: Snapshot, ghost e: Effects)
      returns (github: Option<string>)
      requires Valid() && Reached(id, s, e)
      modifies store`projects, store`logs, store`nextLogId, this`activeRuns, this`trail
      ensures Valid() && Reached(id, s, PublishScript(e, spec, files, tests, c, settings))
      ensures github == Published(spec, files, tests, c, settings)
      ensures ws.dirs == old(ws.dirs)
    {
      github := Github(id, spec, files, tests, c, settings, s, e);
      Step(id, "github_done", 88, s, GithubScript(e, spec, files, tests, c, settings));
    }

    /** `triggerDeploy`'s answer: the URL stored and announced, or the failure logged. */
    method Delivered(id: string, answer: Result<string>, ghost s: Snapshot, ghost e: Effects)
      returns (deployUrl: Option<string>)
      requires Valid() && Reached(id, s, e)
      modifies store`projects, store`logs, store`nextLogId
      ensures Valid() && Reached(id, s, Delivering(e, answer)) && deployUrl == DeployedUrl(answer)
      ensures ws.dirs == old(ws.dirs)
    {
      match answer
      case Ok(url) =>
        deployUrl := Some(url);
        Update(id, map[DeployUrl := JStr(url)], s, e);
        Log(id, "deploy", "completed", "Deployed to: " + url, JNull, s, WithUpdate(e, map[DeployUrl := JStr(url)]));
      case Err(m) =>
        deployUrl := None;
        Log(id, "deploy", "failed", "Deployment failed (non-blocking): " + m, JNull, s, e);
    }

    /** An attempted deployment: its step and start line, then `triggerDeploy`'s answer. */
    method Deploying(id: string, answer: Result<string>, ghost s: Snapshot, ghost e: Effects)
      returns (deployUrl: Option<string>)
      requires Valid() && Reached(id, s, e)
      modifies store`projects, store`logs, store`nextLogId, this`activeRuns, this`trail
      ensures Valid()
      ensures Reached(id, s, Delivering(Begun(e, "deploying", 90, map[CurrentStep := JStr("deploying")], "deploy",
                                              "Triggering deployment..."), answer))
      ensures deployUrl == DeployedUrl(answer)
      ensures ws.dirs == old(ws.dirs)
    {
      Begin(id, "deploying", 90, map[CurrentStep := JStr("deploying")], "deploy", "Triggering deployment...", s, e);
      ghost var e1 := Begun(e, "deploying", 90, map[CurrentStep := JStr("deploying")], "deploy", "Triggering deployment...");
      deployUrl := Delivered(id, answer, s, e1);
    }

    /** The deployment step: attempted with a credential and a repository URL, skipped otherwise. */
    method DeployStage(id: string, spec: Json, c: Outside, settings: map<string, string>, github: Option<string>,
                       ghost s: Snapshot, ghost e: Effects)
      returns (deployUrl: Option<string>)
      requires Valid() && Reached(id, s, e)
      modifies store`projects, store`logs, store`nextLogId, this`activeRuns, this`trail
      ensures Valid() && Reached(id, s, DeployScript(e, spec, c, settings, github))
      ensures deployUrl == Deployed(spec, c, settings, github)
      ensures ws.dirs == old(ws.dirs)
    {
      var configured := DeployConfigured(c.env, Setting(settings, "railway_token"), Setting(settings, "render_api_key"));
      if configured && github.Some? && github.value != "" {
        var answer := Deployment(spec, c, settings, github.value);
        deployUrl := Deploying(id, answer, s, e);
      } else {
        deployUrl := None;
        Log(id, "deploy", "skipped", if !configured then "No deployment token configured" else "No GitHub URL for deployment",
            JNull, s, e);
        assert DeployScript(e, spec, c, settings, github) == WithLog(e, Note("deploy", "skipped", SkipMessage(c, settings)));
      }
    }

    /** The end: the final status and both URLs, `done` at 100, and the summary line. */
    method Finish(id: string, status: string, github: Option<string>, deployUrl: Option<string>, pct: nat,
                  ghost s: Snapshot, ghost e: Effects)
      requires Valid() && Reached(id, s, e)
      modifies store`projects, store`logs, store`nextLogId, this`activeRuns, this`trail
      ensures Valid() && Reached(id, s, FinishScript(e, status, github, deployUrl, pct))
      ensures ws.dirs == old(ws.dirs)
    {
      var fields := map[Status := JStr(status), CurrentStep := JStr("done"), GithubUrl := UrlJson(github),
                        DeployUrl := UrlJson(deployUrl)];
      Update(id, fields, s, e);
      Step(id, "done", 100, s, WithUpdate(e, fields));
      Log(id, "completed", "success", "Pipeline completed",
          JStr(Stringify(JObj([("test_pass_rate", JNum(pct)), ("github_url", UrlJson(github)),
                               ("deploy_url", UrlJson(deployUrl))]))),
          s, WithStep(WithUpdate(e, fields), "done", 100));
    }

    /** The push, deployment and the end, once the tests have settled. */
    method RunTail(id: string, spec: Json, files: Files, tests: Json, c: Outside, settings: map<string, string>,
                   threshold: Option<int>, pct: nat, ghost s: Snapshot, ghost e: Effects)
      returns (github: Option<string>, deployUrl: Option<string>)
      requires Valid() && Reached(id, s, e)
      modifies store`projects, store`logs, store`nextLogId, this`activeRuns, this`trail
      ensures github == Published(spec, files, tests, c, settings)
      ensures deployUrl == Deployed(spec, c, settings, github)
      ensures Valid() && Reached(id, s, FinishScript(DeployScript(PublishScript(e, spec, files, tests, c, settings),
                                                                  spec, c, settings, github),
                                                     FinalStatus(pct, threshold), github, deployUrl, pct))
      ensures ws.dirs == old(ws.dirs)
    {
      github := Publish(id, spec, files, tests, c, settings, s, e);
      ghost var e2 := PublishScript(e, spec, files, tests, c, settings);
      deployUrl := DeployStage(id, spec, c, settings, github, s, e2);
      Finish(id, FinalStatus(pct, threshold), github, deployUrl, pct, s, DeployScript(e2, spec, c, settings, github));
    }

    /** Testing, the push, deployment and the end, once the generated tests are stored. */
    method RunFinish(id: string, spec: Json, files: Files, tests: Json, c: Outside, ghost a: Replies, settings: map<string, string>,
                     threshold: Option<int>, maxRetries: Option<int>, ghost s: Snapshot, ghost e: Effects)
      requires Valid() && Reached(id, s, e) && FreshWorkspaces(c, ws.dirs) && Ran(a, files, tests, c)
      requires threshold == Threshold(Setting(settings, "test_threshold"))
      requires maxRetries == MaxRetries(Setting(settings, "max_retries"))
      modifies store`projects, store`logs, store`nextLogId, ws, this`activeRuns, this`trail
      ensures Valid() && Reached(id, s, FinishedCourse(spec, files, tests, a, c, settings, e).effects)
      ensures ws.dirs == old(ws.dirs)
    {
      var finalFiles, result := RunTests(id, files, tests, c, a, threshold, maxRetries, s, e);
      ghost var e1 := TestingScript(e, files, a, c, threshold, maxRetries);
      var github, deployUrl := RunTail(id, spec, finalFiles, tests, c, settings, threshold, result.counts.percentage, s, e1);
      FinishedEffects(spec, files, tests, a, c, settings, e, finalFiles, result, github, deployUrl);
      Restate(id, s, FinishScript(DeployScript(PublishScript(e1, spec, finalFiles, tests, c, settings), spec, c, settings, github),
                                  FinalStatus(result.counts.percentage, threshold), github, deployUrl, result.counts.percentage),
              FinishedCourse(spec, files, tests, a, c, settings, e).effects);
    }

    /** The generated tests stored, then run, published, deployed and reported. */
    method RunGenerated(id: string, spec: Json, files: Files, tests: Json, c: Outside, ghost a: Replies,
                        settings: map<string, string>, threshold: Option<int>, maxRetries: Option<int>,
                        ghost s: Snapshot, ghost e: Effects)
      requires Valid() && Reached(id, s, e) && FreshWorkspaces(c, ws.dirs) && Ran(a, files, tests, c) && Bindable(tests)
      requires threshold == Threshold(Setting(settings, "test_threshold"))
      requires maxRetries == MaxRetries(Setting(settings, "max_retries"))
      modifies store`projects, store`logs, store`nextLogId, ws, this`activeRuns, this`trail
      ensures Valid() && Reached(id, s, FinishedCourse(spec, files, tests, a, c, settings, QaDone(e, tests)).effects)
      ensures ws.dirs == old(ws.dirs)
    {
      TestsGenerated(id, tests, s, e);
      RunFinish(id, spec, files, tests, c, a, settings, threshold, maxRetries, s, QaDone(e, tests));
    }

    /**
     * Test generation: a failing QA agent fails the run at `testing`; test
     * files the database cannot store crash it; stored ones go on to be run.
     */
    method RunQa(id: string, spec: Json, files: Files, c: Outside, ghost a: Replies, settings: map<string, string>,
                 threshold: Option<int>, maxRetries: Option<int>, ghost s: Snapshot, ghost e: Effects)
      returns (settled: Settled)
      requires Valid() && Reached(id, s, e) && FreshWorkspaces(c, ws.dirs) && Meets(a, c)
      requires c.build.Built? && files == c.build.files
      requires threshold == Threshold(Setting(settings, "test_threshold"))
      requires maxRetries == MaxRetries(Setting(settings, "max_retries"))
      modifies store`projects, store`logs, store`nextLogId, ws, this`activeRuns, this`trail
      ensures var k := QaCourse(spec, files, e, a, c, settings);
        && Valid() && Stored(id, s, k.effects) && activeRuns == FinalRuns(s.runs, id, k, now)
        && settled == (if k.Crashed? then Rejected(k.message) else Resolved)
      ensures ws.dirs == old(ws.dirs)
    {
      var qa := GenerateTests(id, c.qa, c.parse, s, e);
      ghost var e3 := QaStart(e, a.qaLog);
      match qa
      case QaFailed(err) =>
        Fail(id, "testing", err, s, e3);
        assert QaCourse(spec, files, e, a, c, settings) == StoppedAt("testing", err, FailScript(e3, "testing", err));
        settled := Resolved;
      case Generated(tests) =>
        if !Bindable(tests) {
          assert QaCourse(spec, files, e, a, c, settings) == Crashed("testing", BindError, FailScript(e3, "orchestrator", BindError));
          Fail(id, "orchestrator", BindError, s, e3);
          settled := Rejected(BindError);
        } else {
          assert QaCourse(spec, files, e, a, c, settings) == FinishedCourse(spec, files, tests, a, c, settings, QaDone(e3, tests));
          RunGenerated(id, spec, files, tests, c, a, settings, threshold, maxRetries, s, e3);
          settled := Resolved;
        }
    }

    /** The builder: its failure fails the run at `building`, a throw crashes it, built files go on to QA. */
    method RunBuild(id: string, spec: Json, c: Outside, ghost a: Replies, settings: map<string, string>,
                    threshold: Option<int>, maxRetries: Option<int>, ghost s: Snapshot, ghost e: Effects)
      returns (settled: Settled)
      requires Valid() && Reached(id, s, e) && FreshWorkspaces(c, ws.dirs) && Meets(a, c)
      requires threshold == Threshold(Setting(settings, "test_threshold"))
      requires maxRetries == MaxRetries(Setting(settings, "max_retries"))
      modifies store`projects, store`logs, store`nextLogId, ws, this`activeRuns, this`trail
      ensures var k := BuildCourse(spec, e, a, c, settings);
        && Valid() && Stored(id, s, k.effects) && activeRuns == FinalRuns(s.runs, id, k, now)
        && settled == (if k.Crashed? then Rejected(k.message) else Resolved)
      ensures ws.dirs == old(ws.dirs)
    {
      BuildStep(id, s, e);
      match c.build
      case BuildFailed(err) =>
        assert BuildCourse(spec, e, a, c, settings) == StoppedAt("building", err, FailScript(BuildStart(e), "building", err));
        Fail(id, "building", err, s, BuildStart(e));
        settled := Resolved;
      case BuildThrew(m) =>
        assert BuildCourse(spec, e, a, c, settings) == Crashed("building", m, FailScript(BuildStart(e), "orchestrator", m));
        Fail(id, "orchestrator", m, s, BuildStart(e));
        settled := Rejected(m);
      case Built(files) =>
        assert BuildCourse(spec, e, a, c, settings) == QaCourse(spec, files, BuildDone(BuildStart(e), files), a, c, settings);
        BuildDoneStep(id, files, s, BuildStart(e));
        settled := RunQa(id, spec, files, c, a, settings, threshold, maxRetries, s, BuildDone(BuildStart(e), files));
    }

    /** After the planner: its failure fails the run at `planning`, an accepted spec is stored and built. */
    method RunPlanned(id: string, plan: Planner.PlannerResult, c: Outside, ghost a: Replies, settings: map<string, string>,
                      threshold: Option<int>, maxRetries: Option<int>, ghost s: Snapshot)
      returns (settled: Settled)
      requires Valid() && Reached(id, s, PlanStart(NoEffects, a.planLog)) && FreshWorkspaces(c, ws.dirs) && Meets(a, c)
      requires plan == a.plan
      requires threshold == Threshold(Setting(settings, "test_threshold"))
      requires maxRetries == MaxRetries(Setting(settings, "max_retries"))
      modifies store`projects, store`logs, store`nextLogId, ws, this`activeRuns, this`trail
      ensures var k := CourseFrom(a, c, settings);
        && Valid() && Stored(id, s, k.effects) && activeRuns == FinalRuns(s.runs, id, k, now)
        && settled == (if k.Crashed? then Rejected(k.message) else Resolved)
      ensures ws.dirs == old(ws.dirs)
    {
      ghost var e1 := PlanStart(NoEffects, a.planLog);
      match plan
      case Failure(err) =>
        assert CourseFrom(a, c, settings) == StoppedAt("planning", err, FailScript(e1, "planning", err));
        Fail(id, "planning", err, s, e1);
        settled := Resolved;
      case Success(spec) =>
        assert CourseFrom(a, c, settings) == BuildCourse(spec, PlanDone(e1, spec), a, c, settings);
        Planner.AcceptedIsObject(c.planner);
        Planned(id, spec, s, e1);
        settled := RunBuild(id, spec, c, a, settings, threshold, maxRetries, s, PlanDone(e1, spec));
    }

    /**
     * `runPipelineAsync`: the course `CourseOf` describes, written to the
     * store and the registry; the promise rejects exactly when the builder
     * throws or the test files cannot be stored, and no workspace is left
     * behind.
     */
    method RunPipelineAsync(id: string, c: Outside) returns (settled: Settled)
      requires Valid() && id in store.projects && FreshWorkspaces(c, ws.dirs)
      modifies store`projects, store`logs, store`nextLogId, ws, this`activeRuns, this`trail
      ensures var k := CourseOf(c, old(store.settings));
        && Valid() && Stored(id, old(Snap()), k.effects) && activeRuns == FinalRuns(old(activeRuns), id, k, now)
        && settled == (if k.Crashed? then Rejected(k.message) else Resolved)
      ensures ws.dirs == old(ws.dirs)
    {
      ghost var s := Snap();
      ghost var a := RepliesOf(c);
      var settings := store.settings;
      var threshold := Threshold(Setting(settings, "test_threshold"));
      var maxRetries := MaxRetries(Setting(settings, "max_retries"));
      Untouched(id);
      var plan := Plan(id, c.planner, s);
      settled := RunPlanned(id, plan, c, a, settings, threshold, maxRetries, s);
      assert settings == old(store.settings) && s == old(Snap());
      assert CourseOf(c, settings) == CourseFrom(a, c, settings);
    }

    /** The `catch` of `startPipeline`, given how the run settled: a rejection ends the project as a fatal error. */
    method Catch(id: string, settled: Settled, ghost runs: map<string, RunProgress>, ghost s: Snapshot, ghost k: Course)
      requires Valid() && Stored(id, s, k.effects) && activeRuns == FinalRuns(runs, id, k, now)
      requires settled == (if k.Crashed? then Rejected(k.message) else Resolved)
      modifies store`projects, store`logs, store`nextLogId, this`activeRuns
      ensures Valid() && Stored(id, s, Concluded(k))
      ensures activeRuns == Unregistered(runs, id, k, now)
      ensures ws.dirs == old(ws.dirs)
    {
      if settled.Rejected? {
        OnFatal(id, settled.message, s, k.effects);
        Forgotten(runs, id, Failed(k.message, now));
      }
    }

    /** `startPipeline` up to the launch: the new project and its queued entry. */
    method Register(idea: string, projectId: string)
      requires Valid() && projectId !in store.projects
      modifies store`projects, this`activeRuns
      ensures Valid() && store.projects == old(store.projects)[projectId := NewRow(projectId, DeriveName(idea), idea, store.clock)]
      ensures activeRuns == old(activeRuns)[projectId := Queued(now)]
    {
      var name := DeriveName(idea);
      var _ := store.CreateProject(projectId, name, idea);
      activeRuns := activeRuns[projectId := Queued(now)];
    }

    /** The run `startPipeline` launches from the snapshot `s`, with its `catch`. */
    method Launch(id: string, c: Outside, ghost settings: map<string, string>, ghost s: Snapshot)
      requires Valid() && id in store.projects && FreshWorkspaces(c, ws.dirs)
      requires settings == store.settings && Snap() == s
      modifies store`projects, store`logs, store`nextLogId, ws, this`activeRuns, this`trail
      ensures Valid() && Stored(id, s, Concluded(CourseOf(c, settings)))
      ensures activeRuns == Unregistered(s.runs, id, CourseOf(c, settings), now)
    {
      var settled := RunPipelineAsync(id, c);
      Catch(id, settled, s.runs, s, CourseOf(c, settings));
    }

    /**
     * `startPipeline`: a new project named after the idea, registered as
     * queued, then its run; the project is the only row written, a rejected
     * run ends as a fatal error and leaves the registry, and the answer is
     * always `started`.
     */
    method StartPipeline(idea: string, projectId: string, c: Outside) returns (started: Started)
      requires Valid() && projectId !in store.projects && FreshWorkspaces(c, ws.dirs)
      modifies store`projects, store`logs, store`nextLogId, ws, this`activeRuns, this`trail
      ensures started == Started(projectId, "started")
      ensures var s := Registered(old(Snap()), projectId, idea, old(store.clock), old(now));
        var k := CourseOf(c, old(store.settings));
        Valid() && Stored(projectId, s, Concluded(k)) && activeRuns == Unregistered(s.runs, projectId, k, now)
    {
      ghost var settings := store.settings;
      Register(idea, projectId);
      ghost var s := Registered(old(Snap()), projectId, idea, old(store.clock), old(now));
      assert Snap() == s;
      Launch(projectId, c, settings, s);
      started := Started(projectId, "started");
    }
  }
}

/**
 * The projects list page: the badge a project's status gets, and the
 * relative time shown for its creation date.
 */
module ProjectsPage {
  import opened Wrappers
  import opened Strings
  import PipelineViewer

  // ---------------------------------------------------------------------
  // Relative dates

  const MinuteMs: int := 60000
  const HourMs: int := 3600000
  const DayMs: int := 86400000

  /**
   * `formatDate`. `diffMs` is the current time minus the time the stored
   * date denotes, in milliseconds, or None when the date does not parse
   * (the difference is then NaN, every comparison is false and the day
   * count prints as NaN). Dafny's `/` by a positive divisor rounds toward
   * negative infinity, as `Math.floor` does.
   */
  function FormatDate(dateStr: Option<string>, diffMs: Option<int>): (r: string)
    ensures r == "" <==> dateStr.None? || dateStr.value == ""
  {
    if dateStr.None? || dateStr.value == "" then ""
    else if diffMs.None? then "NaNd ago"
    else
      var diffMin := diffMs.value / MinuteMs;
      if diffMin < 1 then "just now"
      else if diffMin < 60 then NatToString(diffMin) + "m ago"
      else
        var diffHr := diffMin / 60;
        if diffHr < 24 then NatToString(diffHr) + "h ago"
        else NatToString(diffHr / 24) + "d ago"
  }

  /** Less than a whole minute ago, or a date in the future (a skewed clock), reads "just now". */
  lemma JustNow(dateStr: string, diffMs: int)
    requires dateStr != "" && diffMs < MinuteMs
    ensures FormatDate(Some(dateStr), Some(diffMs)) == "just now"
  {
  }

  /** Between n and n + 1 minutes ago, for n from 1 to 59, reads "n m ago". */
  lemma MinutesAgo(dateStr: string, diffMs: int, n: nat)
    requires dateStr != "" && 1 <= n < 60
    requires n * MinuteMs <= diffMs < (n + 1) * MinuteMs
    ensures FormatDate(Some(dateStr), Some(diffMs)) == NatToString(n) + "m ago"
  {
    assert diffMs / MinuteMs == n;
  }

  /** Between n and n + 1 whole hours ago, for n from 1 to 23, reads "n h ago". */
  lemma HoursAgo(dateStr: string, diffMs: int, n: nat)
    requires dateStr != "" && 1 <= n < 24
    requires n * HourMs <= diffMs < (n + 1) * HourMs
    ensures FormatDate(Some(dateStr), Some(diffMs)) == NatToString(n) + "h ago"
  {
    var diffMin := diffMs / MinuteMs;
    assert 60 * n <= diffMin < 60 * n + 60;
    assert diffMin / 60 == n;
  }

  /** Between n and n + 1 whole days ago, for any n from 1, reads "n d ago". */
  lemma DaysAgo(dateStr: string, diffMs: int, n: nat)
    requires dateStr != "" && 1 <= n
    requires n * DayMs <= diffMs < (n + 1) * DayMs
    ensures FormatDate(Some(dateStr), Some(diffMs)) == NatToString(n) + "d ago"
  {
    var diffMin := diffMs / MinuteMs;
    assert 1440 * n <= diffMin < 1440 * n + 1440;
    var diffHr := diffMin / 60;
    assert 24 * n <= diffHr < 24 * n + 24;
    assert diffHr / 24 == n;
  }

  /** An unparsable date reads "NaNd ago". */
  lemma UnparsableDate(dateStr: string)
    requires dateStr != ""
    ensures FormatDate(Some(dateStr), None) == "NaNd ago"
  {
  }

  // ---------------------------------------------------------------------
  // Status badges

  /** The lucide icon of a badge. */
  datatype Icon = ClockIcon | LoaderIcon | CheckCircleIcon | XCircleIcon

  /** A badge: its icon, text colour, background, label (`labelText`, as `label` is a keyword) and spin. */
  datatype StatusStyle = StatusStyle(icon: Icon, color: string, bg: string, labelText: string, spin: bool)

  const PendingStyle: StatusStyle := StatusStyle(ClockIcon, "text-surface-400", "bg-surface-700", "Pending", false)

  /** `STATUS_CONFIG`, in its order; an entry without `spin` does not spin. */
  const StatusTable: seq<(string, StatusStyle)> := [
    ("pending", PendingStyle),
    ("planning", StatusStyle(LoaderIcon, "text-blue-400", "bg-blue-900/30", "Planning", true)),
    ("building", StatusStyle(LoaderIcon, "text-amber-400", "bg-amber-900/30", "Building", true)),
    ("testing", StatusStyle(LoaderIcon, "text-purple-400", "bg-purple-900/30", "Testing", true)),
    ("retrying", StatusStyle(LoaderIcon, "text-orange-400", "bg-orange-900/30", "Retrying", true)),
    ("deploying", StatusStyle(LoaderIcon, "text-cyan-400", "bg-cyan-900/30", "Deploying", true)),
    ("completed", StatusStyle(CheckCircleIcon, "text-emerald-400", "bg-emerald-900/30", "Completed", false)),
    ("failed", StatusStyle(XCircleIcon, "text-red-400", "bg-red-900/30", "Failed", false)),
    ("cancelled", StatusStyle(XCircleIcon, "text-surface-500", "bg-surface-800", "Cancelled", false))]

  /** The style `table` lists for `status`, if any. */
  function LookupStyle(table: seq<(string, StatusStyle)>, status: string): (r: Option<StatusStyle>)
    ensures r.Some? <==> exists i :: 0 <= i < |table| && table[i].0 == status
    ensures r.Some? ==> exists i :: 0 <= i < |table| && table[i] == (status, r.value)
  {
    if table == [] then None
    else if table[0].0 == status then Some(table[0].1)
    else
      var r := LookupStyle(table[1..], status);
      assert forall i :: 0 < i < |table| ==> table[1..][i - 1] == table[i];
      r
  }

  /** `STATUS_CONFIG[project.status] || STATUS_CONFIG.pending`. */
  function StatusConfig(status: string): StatusStyle {
    LookupStyle(StatusTable, status).GetOr(PendingStyle)
  }

  /** The names `STATUS_CONFIG` has an entry for. */
  function StyledStatuses(table: seq<(string, StatusStyle)>): set<string> {
    set i | 0 <= i < |table| :: table[i].0
  }

  /** The names the table lists. */
  lemma StyledStatusesListed()
    ensures StyledStatuses(StatusTable)
      == {"pending", "planning", "building", "testing", "retrying", "deploying", "completed", "failed", "cancelled"}
  {
    var names := {"pending", "planning", "building", "testing", "retrying", "deploying", "completed", "failed", "cancelled"};
    forall name | name in names ensures name in StyledStatuses(StatusTable) {
      var i := if name == "pending" then 0 else if name == "planning" then 1 else if name == "building" then 2
        else if name == "testing" then 3 else if name == "retrying" then 4 else if name == "deploying" then 5
        else if name == "completed" then 6 else if name == "failed" then 7 else 8;
      assert StatusTable[i].0 == name;
    }
  }

  /**
   * A listed status gets its own entry, and any other status the pending
   * badge; the badge spins exactly for the five stage names.
   */
  lemma StatusConfigEntries(status: string)
    ensures status in StyledStatuses(StatusTable) ==>
      exists i :: 0 <= i < |StatusTable| && StatusTable[i] == (status, StatusConfig(status))
    ensures status !in StyledStatuses(StatusTable) ==> StatusConfig(status) == PendingStyle
    ensures status != "pending" && status in StyledStatuses(StatusTable) ==> StatusConfig(status) != PendingStyle
    ensures StatusConfig(status).spin <==> status in {"planning", "building", "testing", "retrying", "deploying"}
  {
    StyledStatusesListed();
    if status in StyledStatuses(StatusTable) {
      var j :| 0 <= j < |StatusTable| && StatusTable[j] == (status, StatusConfig(status));
      assert j == 0 || j == 1 || j == 2 || j == 3 || j == 4 || j == 5 || j == 6 || j == 7 || j == 8;
    }
  }

  /**
   * As written, the table is keyed by stage names the backend never stores
   * as a status: a running project shows the pending clock, and a run that
   * ended with warnings shows as pending too.
   */
  lemma RunningShownPending()
    ensures "running" in PipelineViewer.BackendStatuses && StatusConfig("running") == PendingStyle
    ensures "completed_with_warnings" in PipelineViewer.BackendStatuses
    ensures StatusConfig("completed_with_warnings") == PendingStyle
  {
    StatusConfigEntries("running");
    StatusConfigEntries("completed_with_warnings");
  }

  /**
   * Corrected: a running project is shown with its current step's stage
   * badge (a spinner), falling back to a neutral spinner between stages, and
   * a run that ended with warnings with the completed badge.
   */
  function StatusConfigFixed(status: string, currentStep: string): StatusStyle {
    if status == "running" then
      var stage := PipelineViewer.StepStage(currentStep);
      if stage == Some("github") || stage == Some("deploy") then StatusConfig("deploying")
      else if stage.Some? then StatusConfig(stage.value)
      else StatusStyle(LoaderIcon, "text-blue-400", "bg-blue-900/30", "Running", true)
    else if status == "completed_with_warnings" then StatusConfig("completed")
    else StatusConfig(status)
  }

  /**
   * With the correction, every status the backend stores other than
   * `pending` gets a badge of its own, and the badge spins exactly while the
   * project is running.
   */
  lemma FixedBadgeForEveryStatus(status: string, currentStep: string)
    requires status in PipelineViewer.BackendStatuses
    ensures status != "pending" ==> StatusConfigFixed(status, currentStep) != PendingStyle
    ensures StatusConfigFixed(status, currentStep).spin <==> status == "running"
  {
    var stage := PipelineViewer.StepStage(currentStep);
    StyledStatusesListed();
    if status == "running" && stage.Some? && stage != Some("github") && stage != Some("deploy") {
      StatusConfigEntries(stage.value);
    } else if status == "running" {
      StatusConfigEntries("deploying");
    } else if status == "completed_with_warnings" {
      StatusConfigEntries("completed");
    } else {
      StatusConfigEntries(status);
    }
  }
}

/**
 * The SQLite store of the backend as three in-memory tables: projects keyed
 * by id, the append-only pipeline log with its AUTOINCREMENT counter, and the
 * settings key/value table.
 */
module Database {
  import opened Wrappers
  import opened Json

  /** The columns of the `projects` table. */
  datatype Column =
    | Id | Name | Idea | Status | CurrentStep | Spec | GeneratedFiles | TestFiles
    | TestResults | GithubUrl | DeployUrl | Error | RetryCount | CreatedAt | UpdatedAt

  /** What one column of a stored row holds. */
  datatype Cell = NullCell | TextCell(text: string) | IntCell(n: int)

  type Row = map<Column, Cell>

  /** The TypeError the SQLite driver throws for a value it cannot bind. */
  const BindError := "SQLite3 can only bind numbers, strings, bigints, buffers, and null"

  /** Values the SQLite driver can bind once objects are serialised; it refuses booleans. */
  predicate Bindable(v: Json) {
    !v.JBool?
  }

  predicate AllBindable(fields: map<Column, Json>) {
    forall c :: c in fields ==> Bindable(fields[c])
  }

  /**
   * How `updateProject` stores one value: a non-null object or array as its
   * JSON text, null and scalars unchanged.
   */
  function StoredCell(v: Json): (c: Cell)
    requires Bindable(v)
    ensures (v.JArr? || v.JObj?) ==> c == TextCell(Stringify(v))
    ensures v.JNull? <==> c.NullCell?
    ensures v.JStr? ==> c == TextCell(v.s)
    ensures v.JNum? ==> c == IntCell(v.n)
  {
    match v
    case JNull => NullCell
    case JNum(n) => IntCell(n)
    case JStr(s) => TextCell(s)
    case _ => TextCell(Stringify(v))
  }

  function StoredCells(fields: map<Column, Json>): (cells: map<Column, Cell>)
    requires AllBindable(fields)
    ensures cells.Keys == fields.Keys
    ensures forall c :: c in fields ==> cells[c] == StoredCell(fields[c])
  {
    map c | c in fields :: StoredCell(fields[c])
  }

  const AllColumns: set<Column> :=
    {Id, Name, Idea, Status, CurrentStep, Spec, GeneratedFiles, TestFiles,
     TestResults, GithubUrl, DeployUrl, Error, RetryCount, CreatedAt, UpdatedAt}

  /** A row that has a value for every column. */
  predicate Complete(row: Row) {
    AllColumns <= row.Keys
  }

  /** The row `createProject` inserts; the other columns take their declared defaults. */
  function NewRow(id: string, name: string, idea: string, now: string): (row: Row)
    ensures Complete(row)
  {
    map[Id := TextCell(id), Name := TextCell(name), Idea := TextCell(idea),
        Status := TextCell("pending"), CurrentStep := TextCell("queued"),
        Spec := NullCell, GeneratedFiles := NullCell, TestFiles := NullCell,
        TestResults := NullCell, GithubUrl := NullCell, DeployUrl := NullCell,
        Error := NullCell, RetryCount := IntCell(0),
        CreatedAt := TextCell(now), UpdatedAt := TextCell(now)]
  }

  /** A row after `UPDATE projects SET k = ?, ..., updated_at = datetime('now')`. */
  function Updated(row: Row, fields: map<Column, Json>, now: string): (r: Row)
    requires AllBindable(fields)
    ensures r.Keys == row.Keys + fields.Keys + {UpdatedAt}
    ensures forall c :: c in fields && c != UpdatedAt ==> r[c] == StoredCell(fields[c])
    ensures forall c :: c in row && c !in fields && c != UpdatedAt ==> r[c] == row[c]
    ensures r[UpdatedAt] == TextCell(now)
  {
    row + StoredCells(fields) + map[UpdatedAt := TextCell(now)]
  }

  /** What `updateProject` does to a row: nothing for an empty `fields`, else `Updated`. */
  function Apply(row: Row, fields: map<Column, Json>, now: string): (r: Row)
    requires AllBindable(fields)
    ensures fields == map[] ==> r == row
    ensures fields != map[] ==> r == Updated(row, fields, now)
  {
    if fields == map[] then row else Updated(row, fields, now)
  }

  /**
   * Two updates at the same time are one update with the fields merged, the
   * later value winning: a run's updates add up to one merged map.
   */
  lemma ApplyTwice(row: Row, f: map<Column, Json>, g: map<Column, Json>, now: string)
    requires AllBindable(f) && AllBindable(g)
    ensures AllBindable(f + g)
    ensures Apply(Apply(row, f, now), g, now) == Apply(row, f + g, now)
  {
    if f == map[] {
      assert f + g == g;
    } else if g == map[] {
      assert f + g == f;
    } else {
      var k :| k in f;
      assert k in f + g;
      UpdatedTwice(row, f, g, now);
    }
  }

  lemma UpdatedTwice(row: Row, f: map<Column, Json>, g: map<Column, Json>, now: string)
    requires AllBindable(f) && AllBindable(g)
    ensures AllBindable(f + g)
    ensures Updated(Updated(row, f, now), g, now) == Updated(row, f + g, now)
  {
    var u := map[UpdatedAt := TextCell(now)];
    StoredCellsMerge(f, g);
    MergeShadowed(row, StoredCells(f), StoredCells(g), u);
    assert Updated(Updated(row, f, now), g, now) == row + StoredCells(f) + u + StoredCells(g) + u;
  }

  lemma StoredCellsMerge(f: map<Column, Json>, g: map<Column, Json>)
    requires AllBindable(f) && AllBindable(g)
    ensures AllBindable(f + g) && StoredCells(f + g) == StoredCells(f) + StoredCells(g)
  {
  }

  /** Keys written again at the end make their earlier writes invisible. */
  lemma MergeShadowed(a: Row, b: Row, c: Row, u: Row)
    ensures a + b + u + c + u == a + (b + c) + u
  {
  }

  /** A row of `pipeline_logs`; `data` holds the JSON text of the payload, if any. */
  datatype LogEntry = LogEntry(
    id: nat, projectId: string, stage: string, status: string,
    message: string, data: Option<string>, createdAt: string)

  /** What a caller of `addLog` passes: stage, status, message and an optional payload (null when absent). */
  datatype LogLine = LogLine(stage: string, status: string, message: string, data: Json)

  /** The row `addLog` writes for `line`: a falsy payload is stored as null, any other as its JSON text. */
  function Entry(id: nat, projectId: string, line: LogLine, now: string): (e: LogEntry)
    ensures e.id == id && e.projectId == projectId && e.createdAt == now
    ensures (e.stage, e.status, e.message) == (line.stage, line.status, line.message)
    ensures e.data.None? <==> !Truthy(line.data)
    ensures e.data.Some? ==> e.data.value == Stringify(line.data)
  {
    LogEntry(id, projectId, line.stage, line.status, line.message,
             if Truthy(line.data) then Some(Stringify(line.data)) else None, now)
  }

  /** The rows a run of `addLog` calls for `lines` writes, ids counting up from `firstId`. */
  function Entries(firstId: nat, projectId: string, lines: seq<LogLine>, now: string): (r: seq<LogEntry>)
    ensures |r| == |lines|
    ensures forall i :: 0 <= i < |lines| ==> r[i] == Entry(firstId + i, projectId, lines[i], now)
  {
    seq(|lines|, i requires 0 <= i < |lines| => Entry(firstId + i, projectId, lines[i], now))
  }

  lemma EntriesAppend(firstId: nat, projectId: string, a: seq<LogLine>, b: seq<LogLine>, now: string)
    ensures Entries(firstId, projectId, a + b, now)
         == Entries(firstId, projectId, a, now) + Entries(firstId + |a|, projectId, b, now)
  {
    var l, r := Entries(firstId, projectId, a + b, now),
                Entries(firstId, projectId, a, now) + Entries(firstId + |a|, projectId, b, now);
    assert |l| == |r|;
    forall i | 0 <= i < |l| ensures l[i] == r[i] {
      if i >= |a| {
        assert (a + b)[i] == b[i - |a|];
      }
    }
  }

  /** Two runs of `addLog` calls, one after the other, write the rows of the lines of both. */
  lemma EntriesAfter(logs: seq<LogEntry>, firstId: nat, projectId: string, a: seq<LogLine>, b: seq<LogLine>, now: string)
    ensures logs + Entries(firstId, projectId, a, now) + Entries(firstId + |a|, projectId, b, now)
         == logs + Entries(firstId, projectId, a + b, now)
  {
    EntriesAppend(firstId, projectId, a, b, now);
  }

  /** One more `addLog` call extends the rows by the entry for that line. */
  lemma EntriesSnoc(firstId: nat, projectId: string, lines: seq<LogLine>, line: LogLine, now: string)
    ensures Entries(firstId, projectId, lines + [line], now)
         == Entries(firstId, projectId, lines, now) + [Entry(firstId + |lines|, projectId, line, now)]
  {
    EntriesAppend(firstId, projectId, lines, [line], now);
  }

  predicate Increasing(logs: seq<LogEntry>) {
    forall i, j :: 0 <= i < j < |logs| ==> logs[i].id < logs[j].id
  }

  /** Which log rows a `WHERE` clause keeps. */
  datatype LogQuery =
    | OtherThan(projectId: string)                   // project_id != ?
    | OfProject(projectId: string)                   // project_id = ?
    | OfProjectAfter(projectId: string, after: int)  // project_id = ? AND id > ?

  predicate Keeps(q: LogQuery, e: LogEntry) {
    match q
    case OtherThan(p) => e.projectId != p
    case OfProject(p) => e.projectId == p
    case OfProjectAfter(p, after) => e.projectId == p && e.id > after
  }

  /** The rows of `logs` that `q` keeps, in their order. */
  function Select(logs: seq<LogEntry>, q: LogQuery): (r: seq<LogEntry>)
    ensures forall e :: e in r <==> e in logs && Keeps(q, e)
    ensures Increasing(logs) ==> Increasing(r)
    ensures |r| <= |logs|
  {
    if logs == [] then []
    else
      var rest := Select(logs[1..], q);
      assert forall e :: e in logs[1..] ==> e in logs;
      if Keeps(q, logs[0]) then
        assert Increasing(logs) ==> forall e :: e in rest ==> logs[0].id < e.id by {
          if Increasing(logs) {
            forall e | e in rest ensures logs[0].id < e.id {
              var k :| 0 <= k < |logs[1..]| && logs[1..][k] == e;
              assert logs[k + 1] == e;
            }
          }
        }
        [logs[0]] + rest
      else rest
  }

  /** The defaults `initDatabase` seeds, in insertion order. */
  const DefaultSettings: seq<(string, string)> :=
    [("openai_model", "gpt-4o"), ("test_threshold", "80"), ("max_retries", "1")]

  class Store {
    var projects: map<string, Row>
    var logs: seq<LogEntry>
    /** The AUTOINCREMENT counter: the next log id, never handed out twice. */
    var nextLogId: nat
    var settings: map<string, string>
    /** What `datetime('now')` reads. */
    var clock: string

    ghost predicate Valid()
      reads this
    {
      && 0 < nextLogId
      && (forall id :: id in projects ==> Complete(projects[id]))
      && (forall i :: 0 <= i < |logs| ==> 0 < logs[i].id < nextLogId && logs[i].projectId in projects)
      && Increasing(logs)
    }

    constructor (now: string)
      ensures Valid()
      ensures projects == map[] && logs == [] && settings == map[] && clock == now
    {
      projects := map[];
      logs := [];
      nextLogId := 1;
      settings := map[];
      clock := now;
    }

    /**
     * The seeding in `initDatabase`: only when `openai_model` is absent, and
     * with INSERT OR IGNORE, so a default never replaces a stored value.
     */
    method SeedDefaults()
      requires Valid()
      modifies this`settings
      ensures Valid()
      ensures "openai_model" in old(settings) ==> settings == old(settings)
      ensures forall k :: k in old(settings) ==> k in settings && settings[k] == old(settings)[k]
      ensures "openai_model" !in old(settings) ==>
        forall i :: 0 <= i < |DefaultSettings| ==> DefaultSettings[i].0 in settings
      ensures forall k :: k in settings && k !in old(settings) ==>
        exists i :: 0 <= i < |DefaultSettings| && DefaultSettings[i] == (k, settings[k])
    {
      if "openai_model" !in settings {
        for i := 0 to |DefaultSettings|
          invariant forall k :: k in old(settings) ==> k in settings && settings[k] == old(settings)[k]
          invariant forall j :: 0 <= j < i ==> DefaultSettings[j].0 in settings
          invariant forall k :: k in settings && k !in old(settings) ==>
            exists j :: 0 <= j < i && DefaultSettings[j] == (k, settings[k])
        {
          var (key, value) := DefaultSettings[i];
          if key !in settings {
            settings := settings[key := value];
          }
        }
      }
    }

    /** `getSetting`: the stored value, or None (null) for an absent key. */
    function GetSetting(key: string): (r: Option<string>)
      reads this
      ensures r.Some? <==> key in settings
      ensures r.Some? ==> r.value == settings[key]
    {
      if key in settings then Some(settings[key]) else None
    }

    /** `setSetting`: INSERT OR REPLACE. */
    method SetSetting(key: string, value: string)
      requires Valid()
      modifies this`settings
      ensures Valid()
      ensures settings == old(settings)[key := value]
      ensures GetSetting(key) == Some(value)
    {
      settings := settings[key := value];
    }

    /** `createProject`: inserts a pending, queued row with no artefacts yet. */
    method CreateProject(id: string, name: string, idea: string) returns (row: Row)
      requires Valid() && id !in projects
      modifies this`projects
      ensures Valid()
      ensures projects == old(projects)[id := NewRow(id, name, idea, clock)]
      ensures row == projects[id]
      ensures row[Status] == TextCell("pending") && row[CurrentStep] == TextCell("queued")
      ensures row[RetryCount] == IntCell(0)
      ensures row[Spec] == row[GeneratedFiles] == row[TestFiles] == row[TestResults] == NullCell
    {
      row := NewRow(id, name, idea, clock);
      assert row[Status] == TextCell("pending") && row[CurrentStep] == TextCell("queued") && row[RetryCount] == IntCell(0);
      assert row[Spec] == row[GeneratedFiles] == row[TestFiles] == row[TestResults] == NullCell;
      projects := projects[id := row];
    }

    /** `getProject`: the row, or None (null) for an unknown id. */
    function GetProject(id: string): (r: Option<Row>)
      reads this
      ensures r.None? <==> id !in projects
      ensures r.Some? ==> r.value == projects[id]
    {
      if id in projects then Some(projects[id]) else None
    }

    /**
     * `updateProject`: no fields is a no-op; otherwise exactly the named
     * columns and `updated_at` change. An unknown id matches no row.
     */
    method UpdateProject(id: string, fields: map<Column, Json>)
      requires Valid() && AllBindable(fields) && Id !in fields
      modifies this`projects
      ensures Valid()
      ensures id !in old(projects) ==> projects == old(projects)
      ensures id in old(projects) ==> projects == old(projects)[id := Apply(old(projects)[id], fields, clock)]
    {
      if fields != map[] && id in projects {
        projects := projects[id := Updated(projects[id], fields, clock)];
      }
    }

    /**
     * `addLog`: appends exactly one row, whose id exceeds every id before it
     * and which belongs to an existing project.
     */
    method AddLog(projectId: string, stage: string, status: string, message: string, data: Json)
      requires Valid() && projectId in projects
      modifies this`logs, this`nextLogId
      ensures Valid()
      ensures logs == old(logs) + [Entry(old(nextLogId), projectId, LogLine(stage, status, message, data), clock)]
      ensures forall i :: 0 <= i < |old(logs)| ==> old(logs)[i].id < logs[|logs| - 1].id
      ensures nextLogId == old(nextLogId) + 1
    {
      logs := logs + [Entry(nextLogId, projectId, LogLine(stage, status, message, data), clock)];
      nextLogId := nextLogId + 1;
    }

    /** `addLog` for each of `lines`, in order: the rows are those `Entries` describes. */
    method AddLogs(projectId: string, lines: seq<LogLine>)
      requires Valid() && projectId in projects
      modifies this`logs, this`nextLogId
      ensures Valid()
      ensures logs == old(logs) + Entries(old(nextLogId), projectId, lines, clock)
      ensures nextLogId == old(nextLogId) + |lines|
    {
      for n := 0 to |lines|
        invariant Valid()
        invariant logs == old(logs) + Entries(old(nextLogId), projectId, lines[..n], clock)
        invariant nextLogId == old(nextLogId) + n
      {
        AddLog(projectId, lines[n].stage, lines[n].status, lines[n].message, lines[n].data);
        EntriesSnoc(old(nextLogId), projectId, lines[..n], lines[n], clock);
        assert lines[..n + 1] == lines[..n] + [lines[n]];
      }
      assert lines[..|lines|] == lines;
    }

    /** `deleteProject`: the project's logs, then the project; nothing else changes. */
    method DeleteProject(id: string)
      requires Valid()
      modifies this`projects, this`logs
      ensures Valid()
      ensures projects == old(projects) - {id}
      ensures logs == Select(old(logs), OtherThan(id))
      ensures forall e :: e in logs <==> e in old(logs) && e.projectId != id
    {
      logs := Select(logs, OtherThan(id));
      projects := projects - {id};
      forall i | 0 <= i < |logs| ensures 0 < logs[i].id < nextLogId && logs[i].projectId in projects {
        assert logs[i] in old(logs);
      }
    }
  }
}

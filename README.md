# periodic_database_jobs: a Dafny model of the scheduler core

`periodic_database_jobs` runs periodic SQL jobs against PostgreSQL. On each
invocation it makes one pass over the configured jobs:

- it reads the clock once;
- it loads a shared YAML state file that maps each job name to the time of its
  last successful run;
- it decides for each job, in declared order, whether it is due, from a
  natural-language schedule resolved against the job's last run;
- it runs each due job on the connection and records the new timestamp in the
  state file at once;
- it aborts the whole pass at the first error.

This project models that core, `src/periodic_database_jobs/scheduled.py`, and
proves what it guarantees.

| module (file) | models |
|---|---|
| `Wrappers` (wrappers.dfy) | `Option` and `Result` |
| `Jobs` (jobs.dfy) | the `Job` record and its conversion from a raw configuration entry (`dacite.from_dict`), which can fail |
| `Schedule` (schedule.dfy) | the `Timestamp` type and `_should_run`, the due-ness rule |
| `KeyOrder` (key_order.dfy) | Python's string order, and the sorted key list that `sort_keys=True` dumps |
| `StateStore` (state_store.dfy) | `_load_state` (an imperative loop) and `_save_state`, over a `FileSystem` class whose files hold loaded YAML documents |
| `Database` (database.dfy) | the psycopg connection as the runner drives it: a `Connection` class with an autocommit field and a trace of calls |
| `Orchestrator` (orchestrator.dfy) | `run_jobs` (see below) |

`Orchestrator` specifies one iteration of the loop with the function `Step`,
and the rest of a pass with `RunFrom`. The method `RunJobs`, through
`RunPass`, `EvaluateJob`, `RunDueJob`, `RecordAndSave`, `RunJob` and `Persist`, performs the pass on a
`Connection` and a `FileSystem`, and is proved to do what `RunFrom` says. That
covers the result, every call on the connection, and every write of the state
file.

Foreign pieces are parameters of the model:

- the schedule parser (`dateparser.parse` with a relative base) has type `ScheduleParser`;
- the stored-timestamp parser has type `TimestampParser`;
- `isoformat` has type `TimestampFormatter`;
- the clock reading is the argument `now`;
- whether executing a SQL text raises is given by the connection's set of failing SQL texts;
- whether a write of the state file raises is given by the file system's set of failing writes. Each write is numbered by how many writes succeeded before it, so any single write can fail: the first, a later one, or all of them;
- whether a failing write had already truncated the file is given by the file system's set of truncating writes. `write_text` opens the file for writing, which empties it, before it writes: a write that raises after that point (a full disk, say) leaves the file empty, and one that raises on opening (a read-only file, say) leaves it as it was.

Timestamps are integers; only their order matters to the scheduler.

Two points of the code a reader might not expect:

- The state file is overwritten in place with a plain whole-file write
  (`write_text`). The code writes no temporary file and does no rename.
- `config["state_file"]` is read before the empty-jobs check, so a
  configuration without `state_file` raises even when it has no jobs.
- A save that raises can leave the state file empty, because `write_text`
  truncates the file before writing. The next pass then loads an empty
  state, and every job whose schedule resolves is due again.

## Model

| member | source | states |
|---|---|---|
| Jobs.FromDict | src/periodic_database_jobs/scheduled.py:93 | the conversion of one configuration entry; when it succeeds, every declared field is present in the entry |
| Jobs.ConversionKeepsFields | src/periodic_database_jobs/scheduled.py:93 | a converted job agrees with its entry on every declared field, so writing it back gives those fields |
| Jobs.ToDict | src/periodic_database_jobs/scheduled.py:13-18 | a job is written as a dictionary with exactly the four declared fields |
| Jobs.ConversionRoundTrip | src/periodic_database_jobs/scheduled.py:93 | converting the dictionary written for a job gives that job back |
| Jobs.ConversionRejectsBadField | src/periodic_database_jobs/scheduled.py:93 | a missing field, or one of the wrong type, makes the conversion fail |
| Jobs.ConversionIgnoresExtraKeys | src/periodic_database_jobs/scheduled.py:93 | keys the dataclass does not declare do not affect the conversion |
| Schedule.ShouldRun | src/periodic_database_jobs/scheduled.py:47-69 | the due-ness decision; its only error names the schedule that did not parse, and a job is never due at a clock not after its last run |
| Schedule.ErrorIffUnparseable | src/periodic_database_jobs/scheduled.py:48-62 | the decision fails, naming the schedule, exactly when the schedule does not resolve against last run or now; the parse happens before the never-run check |
| Schedule.NeverRunIsDue | src/periodic_database_jobs/scheduled.py:47-62 | a job with no last run is due when its schedule resolves against now, and the decision fails otherwise |
| Schedule.DueIffOccurrenceInWindow | src/periodic_database_jobs/scheduled.py:48-64 | with a last run, due exactly when the occurrence resolved against the last run lies in (last run, now], and not due exactly when it resolves outside that window |
| Schedule.NotDueUntilAfterLastRun | src/periodic_database_jobs/scheduled.py:64 | a clock not after the last run never makes a job due |
| Schedule.NotDueBeforeNextOccurrence | src/periodic_database_jobs/scheduled.py:48-64 | a job is not due before the occurrence resolved against its last run |
| Schedule.DueStaysDue | src/periodic_database_jobs/scheduled.py:64 | once due, a job stays due at every later clock until its last run changes |
| Schedule.PastOccurrenceNeverDue | src/periodic_database_jobs/scheduled.py:64 | a schedule resolving to an instant no later than the last run never makes the job due again |
| Schedule.DailyScheduleAnchoredToLastRun | src/periodic_database_jobs/scheduled.py:48-64 | with a daily schedule, due-ness is measured from the last run, not from calendar days: noon run not due at 10:00 next day, midnight run due at 00:01 next day |
| KeyOrder.Precedes | src/periodic_database_jobs/scheduled.py:43 | Python's `<` on strings, by code point; a proper prefix sorts before the longer string |
| KeyOrder.Irreflexive | src/periodic_database_jobs/scheduled.py:43 | no key sorts before itself |
| KeyOrder.Asymmetric | src/periodic_database_jobs/scheduled.py:43 | two keys never sort before each other |
| KeyOrder.Transitive | src/periodic_database_jobs/scheduled.py:43 | the key order is transitive |
| KeyOrder.Trichotomous | src/periodic_database_jobs/scheduled.py:43 | any two distinct keys are ordered one way or the other |
| KeyOrder.LeastExists | src/periodic_database_jobs/scheduled.py:43 | every non-empty key set has a least key |
| KeyOrder.LeastUnique | src/periodic_database_jobs/scheduled.py:43 | the least key of a set is unique |
| KeyOrder.Least | src/periodic_database_jobs/scheduled.py:43 | returns the key of the set that precedes every other |
| KeyOrder.SortedKeys | src/periodic_database_jobs/scheduled.py:43 | the dumped key list holds exactly the keys of the set, once each, in strictly ascending order |
| KeyOrder.SortedDistinct | src/periodic_database_jobs/scheduled.py:43 | a strictly sorted key list repeats no key |
| StateStore.ParseEntry | src/periodic_database_jobs/scheduled.py:30-31 | one stored value's timestamp; a null or empty value never yields one, whatever the parser does |
| StateStore.Loaded | src/periodic_database_jobs/scheduled.py:27-34 | definition: the state built from the entries in document order, keeping each entry whose value parses (its properties are the `Loaded…` lemmas below) |
| StateStore.StateOnDisk | src/periodic_database_jobs/scheduled.py:21-34 | definition: the state loaded from a path, empty when no file is there (its properties are `NothingToLoad` and `SaveLoadRoundTrip`) |
| StateStore.LoadState | src/periodic_database_jobs/scheduled.py:21-37 | for a file holding a null document or a mapping (distinct keys), the loop builds the state that the document's entries give in order: a missing file gives the empty state, and an entry is kept only if its value is non-empty and parses |
| StateStore.NothingToLoad | src/periodic_database_jobs/scheduled.py:22-26 | a missing file and an empty document both load as the empty state |
| StateStore.LoadedKeyHasEntry | src/periodic_database_jobs/scheduled.py:29-32 | every loaded job name has an entry in the document whose value parses to the loaded timestamp |
| StateStore.LoadedKeysAreValidEntries | src/periodic_database_jobs/scheduled.py:29-32 | the loaded keys are a subset of the document's keys, each with a valid entry |
| StateStore.LoadedEntry | src/periodic_database_jobs/scheduled.py:29-34 | in a document with distinct keys, an entry's key is loaded exactly when its value is non-empty and parses, and then holds the parsed timestamp |
| StateStore.LoadedExactlyValidEntries | src/periodic_database_jobs/scheduled.py:29-34 | the same, for every entry of the document at once |
| StateStore.InvalidEntryIgnored | src/periodic_database_jobs/scheduled.py:30-34 | removing an invalid entry from the document does not change what loads: partial failures are tolerated |
| StateStore.EntriesFor | src/periodic_database_jobs/scheduled.py:42 | one entry per given key, in that order, each holding that job's formatted timestamp |
| StateStore.Serialise | src/periodic_database_jobs/scheduled.py:42-43 | the written document has one entry per job of the state |
| StateStore.SerialisedDocument | src/periodic_database_jobs/scheduled.py:42-43 | the written document has one entry per job of the state and no other key, each holding its formatted timestamp, in strictly ascending key order |
| StateStore.FileSystem.Write | src/periodic_database_jobs/scheduled.py:43 | a write raises exactly when its number (the writes that succeeded before it) is a failing one; otherwise it replaces the whole file at the path and is logged; a raising write is not logged and leaves the file empty if it is a truncating write, and as it was otherwise |
| StateStore.SaveState | src/periodic_database_jobs/scheduled.py:40-44 | the file at the path is overwritten with the serialised state, and the save fails exactly when this write is a failing one; a failed save leaves the file empty if the write truncated it, and as it was otherwise |
| StateStore.SerialisedKeysDistinct | src/periodic_database_jobs/scheduled.py:42-43 | a saved document names no job twice |
| StateStore.SerialisedEntryLoads | src/periodic_database_jobs/scheduled.py:29-43 | an entry whose timestamp formats and parses back loads again with the same timestamp |
| StateStore.SerialisedAddsNoKey | src/periodic_database_jobs/scheduled.py:29-43 | loading a saved document adds no job that the state did not have |
| StateStore.SaveLoadRoundTrip | src/periodic_database_jobs/scheduled.py:21-44 | with a timestamp format that parses back, loading what was saved gives exactly the saved state |
| Database.Connection.SetAutocommit | src/periodic_database_jobs/scheduled.py:104 | sets the mode and records the call |
| Database.Connection.Rollback | src/periodic_database_jobs/scheduled.py:105-110 | records a rollback |
| Database.Connection.Commit | src/periodic_database_jobs/scheduled.py:108 | records a commit |
| Database.Connection.Execute | src/periodic_database_jobs/scheduled.py:106-107 | records the execution; it succeeds exactly when the SQL text is not one of the connection's failing texts |
| Orchestrator.Step | src/periodic_database_jobs/scheduled.py:92-116 | definition: one iteration of the loop (its cases are the three `Step…` lemmas below; `StepOnlyAppends` says it only appends) |
| Orchestrator.RunFrom | src/periodic_database_jobs/scheduled.py:92-116 | definition: the loop over the remaining entries, stopping at the first error (`PassOnlyAppends`, `PassFailFast` and the pass lemmas below state its properties) |
| Orchestrator.Record | src/periodic_database_jobs/scheduled.py:114 | the state after setting each completed job to now; no job is dropped, and every added job is one of those completed |
| Orchestrator.StepSkipsJobNotDue | src/periodic_database_jobs/scheduled.py:96-100 | a job that is not due makes no connection call, changes no state and saves nothing; only its decision is recorded |
| Orchestrator.StepReportsExecutionFailure | src/periodic_database_jobs/scheduled.py:103-112 | a due job whose SQL raises gets the protocol then a rollback, leaves the state and the saves untouched, and raises naming the job |
| Orchestrator.StepRunsDueJob | src/periodic_database_jobs/scheduled.py:102-116 | a due job whose SQL succeeds gets the protocol then a commit, its entry becomes now, and the whole state is saved before the next job; a failed save raises, and marks the file emptied when the write truncated it; a later successful save clears the mark |
| Orchestrator.RunJob | src/periodic_database_jobs/scheduled.py:103-112 | the connection sees autocommit := not transaction, rollback, execute, then commit on success or rollback on failure; it succeeds exactly when the SQL text is not a failing one |
| Orchestrator.Persist | src/periodic_database_jobs/scheduled.py:115 | the save fails exactly when the pass's next write is a failing one; a successful save puts the new state on disk and in the write history; a failed one adds no write and leaves the file as it was, or empty when the write truncated it |
| Orchestrator.EvaluateJob | src/periodic_database_jobs/scheduled.py:92-116 | one loop iteration does what the step function says, and the connection and the files reflect it |
| Orchestrator.RunDueJob | src/periodic_database_jobs/scheduled.py:102-116 | a job found due is run, then recorded and saved, or rolled back; the iteration does what the step function says |
| Orchestrator.Save | src/periodic_database_jobs/scheduled.py:115 | definition: the save after a completion; it continues with the new state saved if this write succeeds, and otherwise raises, marking the file emptied when the write truncates it |
| Orchestrator.Committed | src/periodic_database_jobs/scheduled.py:103-114 | definition: the progress after a due job committed: protocol and commit appended, the entry set to now, the job completed and its decision logged |
| Orchestrator.SaveOutcome | src/periodic_database_jobs/scheduled.py:114-116 | the save after a commit, given whether this write fails, raises exactly then, with the file marked emptied when the write truncates |
| Orchestrator.StepCommits | src/periodic_database_jobs/scheduled.py:102-116 | a due job whose SQL succeeds makes the iteration the save of the committed progress |
| Orchestrator.RecordAndSave | src/periodic_database_jobs/scheduled.py:114-116 | after a commit, the job's entry becomes now and the whole state is saved, as `Save` of `Committed` says: a failed save raises with the entry set in memory only, and empties the file when the write truncated it |
| Orchestrator.RunPass | src/periodic_database_jobs/scheduled.py:92-116 | the loop visits jobs in declared order until one raises; its outcome, connection calls and file writes are those of the pass function |
| Orchestrator.RunJobs | src/periodic_database_jobs/scheduled.py:72-116 | for a state file holding a null document or a mapping (distinct keys): a missing state_file raises and an empty or absent job list returns, both touching neither the connection nor the files; otherwise the pass runs from the state loaded at the start and does what the pass function says |
| Orchestrator.RunFromOneStep | src/periodic_database_jobs/scheduled.py:92-116 | the rest of a pass from entry i is that entry's iteration, then either the raised error or the rest from entry i + 1 |
| Orchestrator.FilesAfterOneMore | src/periodic_database_jobs/scheduled.py:115 | one more save leaves that state on disk |
| Orchestrator.WritesOfOneMore | src/periodic_database_jobs/scheduled.py:115 | one more save appends one write of that state |
| Orchestrator.RecordAt | src/periodic_database_jobs/scheduled.py:114 | recording completed jobs only adds or overwrites: a recorded job holds now, and every other entry keeps its value |
| Orchestrator.RecordOneMore | src/periodic_database_jobs/scheduled.py:114 | recording one more job sets just that job's entry to now |
| Orchestrator.SavedAsCompletedExtend | src/periodic_database_jobs/scheduled.py:114-115 | a later completion does not change what the earlier saves correspond to |
| Orchestrator.SyncedAfterCompletion | src/periodic_database_jobs/scheduled.py:114-115 | completing one more job keeps the state equal to the base with the completions recorded, and its save holds exactly that state |
| Orchestrator.StepKeepsSynced | src/periodic_database_jobs/scheduled.py:92-116 | one iteration keeps the state equal to the base with the completed jobs recorded, and keeps one save per completed job, unless the save failed; only a failed save can empty the file |
| Orchestrator.PassKeepsSynced | src/periodic_database_jobs/scheduled.py:92-116 | over a pass, the state is the base with the completed jobs recorded at now; save i holds the base with the first i+1 completed jobs; every completed job was saved, except the last one when its save failed; the file is left empty only if the pass stopped on a failed save |
| Orchestrator.SyncedState | src/periodic_database_jobs/scheduled.py:114-115 | from the in-step facts: an entry is now exactly for completed jobs and the base value otherwise; the last save is the state, or lacks only the final completion when its save failed |
| Orchestrator.PassRecordsCompletedJobs | src/periodic_database_jobs/scheduled.py:90-115 | after a pass, each entry is now if its job completed in the pass, and otherwise the loaded value (or absent); the last saved state equals the in-memory state unless the final save failed |
| Orchestrator.EachWriteHoldsCompletedJobs | src/periodic_database_jobs/scheduled.py:114-115 | a crash after any write of a pass leaves a file that loads back as the loaded state with exactly the jobs completed so far recorded |
| Orchestrator.StepOnlyAppends | src/periodic_database_jobs/scheduled.py:92-116 | one iteration only appends to the calls, saves, completions and decisions |
| Orchestrator.PassOnlyAppends | src/periodic_database_jobs/scheduled.py:92-116 | a pass never undoes anything: the calls, saves, completions and decisions made before it stay, in order, at the front of its own |
| Orchestrator.PassUsesOneClock | src/periodic_database_jobs/scheduled.py:77-98 | every decision of a pass, with the schedule and last run it logs, has the verdict `ShouldRun` gives at the one clock reading taken at the start |
| Orchestrator.FinishedPassEvaluatesEveryJob | src/periodic_database_jobs/scheduled.py:92-100 | a pass that returns normally converted every job, and decision i is about job i |
| Orchestrator.PassFailFast | src/periodic_database_jobs/scheduled.py:92-112 | once a prefix of the jobs raises, later jobs change nothing: the calls, state, saves and decisions are those of the prefix |
| Orchestrator.ExecutionFailureEndsInRollback | src/periodic_database_jobs/scheduled.py:103-112 | a pass stopped by a failed execution ends with an execution then a rollback, and its last decision found the failing job due |
| Orchestrator.CompletedJobNotDueUntilNextOccurrence | src/periodic_database_jobs/scheduled.py:21-116 | across passes: for a job whose completion was saved, and unless a failed save emptied the file, the state the next pass loads from the file this pass left makes that job not due while the later clock is before its next occurrence resolved against this pass's clock |
| Orchestrator.EmptiedFileForgetsCompletions | src/periodic_database_jobs/scheduled.py:21-116 | across passes: a pass that left the state file empty stopped on a failed save, the next pass loads the empty state, and every job whose schedule resolves at the later clock is due |
| Orchestrator.SavedCompletionOnDisk | src/periodic_database_jobs/scheduled.py:21-115 | a completion that was saved, in a file no failed save emptied, is what the state file loads back for that job: its last run is this pass's clock |

## Left out

- Logging: every logger call is dropped; none affects the result.
- The YAML text is not modelled. A file holds the document the loader produces: null for an empty file, or a mapping whose keys are distinct and whose values are strings or null. A top-level list or scalar, and non-string values, are not modelled, and neither is a file that cannot be read (a directory at the path, say).
- `dateparser.parse` and `isoformat` are opaque function parameters. The round-trip lemmas assume only that formatted timestamps are non-empty and parse back. Time zones, and the error from comparing naive with aware datetimes, are not modelled.
- `dt.datetime.now()` becomes the argument `now`.
- `path.parent.mkdir(parents=True, exist_ok=True)` is not modelled. A save either writes the whole file or raises.
- A successful write is one atomic step. A write that raises after `write_text` truncated the file is modelled as leaving it empty. A partly written file, which could load as part of the state or fail to parse, is not modelled, and neither is a crash partway through a write. Crash consistency is stated only at write boundaries (`EachWriteHoldsCompletedJobs`).
- Only `execute` can raise on the connection. Failures of setting autocommit, `rollback` or `commit`, and psycopg's real transaction semantics, are not modelled. The connection is a trace of calls.
- dacite's conversion is reduced to "all four fields are present with the declared type". Its type-coercion and nested-type rules are not modelled.
- The configuration's other keys, the CLI (`main.py`) and the package's logger module are not part of this model.
- Failures are fixed sets given in advance. Whether a write raises depends only on how many writes succeeded before it, so a retried write that failed would fail again; the scheduler never retries, so this does not matter here. Only finitely many SQL texts and writes can fail.
- Concurrent passes are not modelled; the program has none.
- A job that commits but whose save then fails has run without being recorded. The next pass will run it again. The model shows this (`StepRunsDueJob`, `PassRecordsCompletedJobs`) but does not treat it as an error. When the failed write had truncated the file, every job is forgotten, not just that one (`EmptiedFileForgetsCompletions`).

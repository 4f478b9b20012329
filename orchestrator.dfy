/**
 * One evaluation pass over the configured jobs (`run_jobs`). A pass is
 * specified by the function `RunFrom`, one job at a time by `Step`; the
 * method `RunJobs` performs the pass on a connection and a file system and
 * is proved to do what `RunFrom` says. The lemmas state what a pass
 * guarantees: entries are only added or overwritten, each with the pass's
 * clock; the state is saved after every completed job; the first error ends
 * the pass.
 */
module Orchestrator {
  import opened Wrappers
  import opened Jobs
  import opened Schedule
  import opened StateStore
  import opened Database

  /** The parts of the configuration a pass reads: `state_file` and `jobs`. */
  datatype Config = Config(stateFile: Option<string>, jobs: Option<seq<RawJob>>)

  /** `not jobs`: the list is absent or empty. */
  predicate NoJobs(jobs: Option<seq<RawJob>>) {
    jobs.None? || jobs.value == []
  }

  /** What a pass can raise. */
  datatype PassError =
    | MissingStateFile             // `config["state_file"]` is absent
    | InvalidJob                   // a job entry does not convert to `Job`
    | ScheduleParseError(spec: string)
    | JobExecutionError(job: string)
    | StatePersistError(path: string)

  /** A pass returns normally or raises. */
  datatype Outcome = Finished | Raised(error: PassError)

  /** One due-ness decision: the job, its schedule, the last run it was judged on, and the verdict. */
  datatype Decision = Decision(job: string, schedule: string, lastRun: Option<Timestamp>, due: bool)

  /**
   * What a pass depends on besides the jobs and the clock: the schedule
   * parser, the SQL texts that raise, the writes of the file system that
   * raise and those of them that truncate the file first (numbered by the
   * writes that succeeded before), how many writes succeeded before the
   * pass, and the state file's path.
   */
  datatype Env = Env(parse: ScheduleParser, failingSql: set<string>, failingWrites: set<nat>,
                     truncatingWrites: set<nat>, firstWrite: nat, path: string)

  /** Whether the pass's next save, after the saves `saved`, succeeds. */
  predicate CanSave(env: Env, saved: seq<RunState>) {
    env.firstWrite + |saved| !in env.failingWrites
  }

  /** Whether the pass's next save, after the saves `saved`, empties the file if it raises. */
  predicate Empties(env: Env, saved: seq<RunState>) {
    env.firstWrite + |saved| in env.truncatingWrites
  }

  /**
   * The pass so far: the in-memory state, the connection's autocommit mode,
   * the calls made on the connection, every state saved, the names of the
   * jobs that completed (in order), every due-ness decision taken, and
   * whether a save that raised after the last successful one left the state
   * file empty.
   */
  datatype Progress = Progress(
    state: RunState,
    autocommit: bool,
    calls: seq<Call>,
    saved: seq<RunState>,
    completed: seq<string>,
    decisions: seq<Decision>,
    emptied: bool)

  /** A pass starts from the loaded state, with nothing done yet. */
  function Start(loaded: RunState, autocommit: bool): Progress {
    Progress(loaded, autocommit, [], [], [], [], false)
  }

  datatype StepResult = Continue(progress: Progress) | Stop(progress: Progress, error: PassError)

  /** The calls the runner makes for a due job, up to and including the execution. */
  function Protocol(job: Job): seq<Call> {
    [Autocommit(!job.transaction), Call.Rollback, Call.Execute(job.sql)]
  }

  /** `q` only adds to what `p` has done: every trace of `p` is a prefix of the one in `q`. */
  predicate Extends(p: Progress, q: Progress) {
    && p.calls <= q.calls
    && p.saved <= q.saved
    && p.completed <= q.completed
    && p.decisions <= q.decisions
  }

  /** One iteration of the pass's loop, for the raw job entry `raw`. */
  function Step(raw: RawJob, p: Progress, now: Timestamp, env: Env): StepResult {
    match FromDict(raw)
    case None => Stop(p, InvalidJob)
    case Some(job) =>
      var lastRun := Get(p.state, job.name);
      match ShouldRun(env.parse, job.schedule, lastRun, now)
      case Err(e) => Stop(p, ScheduleParseError(e.spec))
      case Ok(due) =>
        var decided := p.(decisions := p.decisions + [Decision(job.name, job.schedule, lastRun, due)]);
        if !due then Continue(decided)
        else
          var started := decided.(autocommit := !job.transaction, calls := decided.calls + Protocol(job));
          if job.sql in env.failingSql then
            Stop(started.(calls := started.calls + [Call.Rollback]), JobExecutionError(job.name))
          else
            var done := started.(calls := started.calls + [Call.Commit],
                                 state := started.state[job.name := now],
                                 completed := started.completed + [job.name]);
            Save(done, env)
  }

  /**
   * The save that follows a commit: the whole in-memory state is written;
   * a failed save raises, and leaves the file empty when the write had
   * truncated it.
   */
  function Save(done: Progress, env: Env): StepResult {
    if CanSave(env, done.saved) then Continue(done.(saved := done.saved + [done.state], emptied := false))
    else Stop(done.(emptied := done.emptied || Empties(env, done.saved)), StatePersistError(env.path))
  }

  /** The pass after a due job's commit, before the save: its entry is `now` and it counts as completed. */
  function Committed(p: Progress, job: Job, now: Timestamp): Progress {
    Progress(p.state[job.name := now], !job.transaction, p.calls + Protocol(job) + [Call.Commit], p.saved,
             p.completed + [job.name], p.decisions + [Decision(job.name, job.schedule, Get(p.state, job.name), true)],
             p.emptied)
  }

  datatype PassResult = PassResult(progress: Progress, outcome: Outcome)

  /** The rest of a pass, over the remaining job entries in declared order. */
  function RunFrom(jobs: seq<RawJob>, p: Progress, now: Timestamp, env: Env): PassResult
    decreases |jobs|
  {
    if jobs == [] then PassResult(p, Finished)
    else
      match Step(jobs[0], p, now, env)
      case Stop(q, e) => PassResult(q, Raised(e))
      case Continue(q) => RunFrom(jobs[1..], q, now, env)
  }

  /** `base` after setting each of `names`, in order, to `now`. */
  function Record(base: RunState, names: seq<string>, now: Timestamp): (r: RunState)
    ensures base.Keys <= r.Keys
    ensures forall k :: k in r && k !in base ==> k in names
    decreases |names|
  {
    if names == [] then base
    else Record(base, names[..|names| - 1], now)[names[|names| - 1] := now]
  }

  // ---------------------------------------------------------------------------
  // One job of the pass

  /** A job that is not due makes no call on the connection and changes no state. */
  lemma StepSkipsJobNotDue(raw: RawJob, job: Job, p: Progress, now: Timestamp, env: Env)
    requires FromDict(raw) == Some(job)
    requires ShouldRun(env.parse, job.schedule, Get(p.state, job.name), now) == Ok(false)
    ensures Step(raw, p, now, env)
         == Continue(p.(decisions := p.decisions + [Decision(job.name, job.schedule, Get(p.state, job.name), false)]))
  {
  }

  /**
   * A due job whose execution raises: the connection sees the protocol and
   * a rollback, the state is untouched and nothing is saved, and the error
   * names the job.
   */
  lemma StepReportsExecutionFailure(raw: RawJob, job: Job, p: Progress, now: Timestamp, env: Env)
    requires FromDict(raw) == Some(job)
    requires ShouldRun(env.parse, job.schedule, Get(p.state, job.name), now) == Ok(true)
    requires job.sql in env.failingSql
    ensures Step(raw, p, now, env)
         == Stop(Progress(p.state, !job.transaction, p.calls + Protocol(job) + [Call.Rollback], p.saved, p.completed,
                          p.decisions + [Decision(job.name, job.schedule, Get(p.state, job.name), true)], p.emptied),
                 JobExecutionError(job.name))
  {
  }

  /**
   * A due job whose execution succeeds: the connection sees the protocol and
   * a commit, the job's entry becomes `now`, and the whole state is saved
   * before the next job; a failed save raises with the entry already set in
   * memory but not on disk.
   */
  lemma StepRunsDueJob(raw: RawJob, job: Job, p: Progress, now: Timestamp, env: Env)
    requires FromDict(raw) == Some(job)
    requires ShouldRun(env.parse, job.schedule, Get(p.state, job.name), now) == Ok(true)
    requires job.sql !in env.failingSql
    ensures
      var state := p.state[job.name := now];
      var done := Progress(state, !job.transaction, p.calls + Protocol(job) + [Call.Commit], p.saved,
                           p.completed + [job.name],
                           p.decisions + [Decision(job.name, job.schedule, Get(p.state, job.name), true)], p.emptied);
      Step(raw, p, now, env)
      == if CanSave(env, p.saved) then Continue(done.(saved := p.saved + [state], emptied := false))
         else Stop(done.(emptied := p.emptied || Empties(env, p.saved)), StatePersistError(env.path))
  {
  }

  // ---------------------------------------------------------------------------
  // The pass as a method

  /**
   * The job runner: set the commit mode from the job's `transaction` flag,
   * roll back whatever a previous job left open, execute the SQL, then
   * commit; if the execution raises, roll back instead (the error is then
   * re-raised by the caller).
   */
  method RunJob(conn: Connection, job: Job) returns (ok: bool)
    modifies conn
    ensures ok <==> job.sql !in conn.failing
    ensures conn.autocommit == !job.transaction
    ensures conn.calls == old(conn.calls) + Protocol(job) + [if ok then Call.Commit else Call.Rollback]
  {
    conn.SetAutocommit(!job.transaction);
    conn.Rollback();
    ok := conn.Execute(job.sql);
    if ok {
      conn.Commit();
    } else {
      conn.Rollback();
    }
  }

  /**
   * The files hold what the saves `saved`, written over `files0` after
   * `writes0`, left there, emptied afterwards when `emptied` holds.
   */
  ghost predicate FilesMirror(fs: FileSystem, saved: seq<RunState>, emptied: bool, path: string,
                              formatTs: TimestampFormatter, files0: map<string, StateDoc>,
                              writes0: seq<(string, StateDoc)>)
    reads fs
  {
    && fs.files == FilesLeft(files0, path, saved, emptied, formatTs)
    && fs.writes == writes0 + WritesOf(path, saved, formatTs)
  }

  /**
   * The connection and the files reflect the pass so far: `p`'s calls were
   * made after `calls0`, and its saved states were written over `files0`.
   */
  ghost predicate Mirrors(p: Progress, state: RunState, conn: Connection, fs: FileSystem, path: string,
                          formatTs: TimestampFormatter, calls0: seq<Call>, files0: map<string, StateDoc>,
                          writes0: seq<(string, StateDoc)>)
    reads conn, fs
  {
    && p.state == state
    && conn.autocommit == p.autocommit
    && conn.calls == calls0 + p.calls
    && FilesMirror(fs, p.saved, p.emptied, path, formatTs, files0, writes0)
  }

  /**
   * `_save_state` inside the pass: on success the new state joins the saves
   * on disk; a failed save that truncated the file leaves it empty.
   */
  method Persist(fs: FileSystem, path: string, state: RunState, formatTs: TimestampFormatter, ghost env: Env,
                 ghost saved: seq<RunState>, ghost emptied: bool, ghost files0: map<string, StateDoc>,
                 ghost writes0: seq<(string, StateDoc)>)
    returns (ok: bool, ghost saved': seq<RunState>, ghost emptied': bool)
    requires env.failingWrites == fs.failingWrites && env.truncatingWrites == fs.truncatingWrites
    requires env.firstWrite == |writes0|
    requires FilesMirror(fs, saved, emptied, path, formatTs, files0, writes0)
    modifies fs
    ensures ok == CanSave(env, saved)
    ensures saved' == if ok then saved + [state] else saved
    ensures emptied' == if ok then false else emptied || Empties(env, saved)
    ensures FilesMirror(fs, saved', emptied', path, formatTs, files0, writes0)
  {
    ghost var n := |fs.writes|;
    ghost var before := FilesAfter(files0, path, saved, formatTs);
    assert n == |writes0| + |saved|;
    ghost var can := CanSave(env, saved);
    ghost var empties := Empties(env, saved);
    assert can <==> n !in fs.failingWrites;
    assert empties <==> n in fs.truncatingWrites;
    FilesAfterOneMore(files0, path, saved, state, formatTs);
    WritesOfOneMore(writes0, path, saved, state, formatTs);
    OverwriteTwice(before, path, StateDoc.Null, Mapping(Serialise(state, formatTs)));
    OverwriteTwice(before, path, StateDoc.Null, StateDoc.Null);
    ok := SaveState(fs, path, state, formatTs);
    assert ok == can;
    saved' := if ok then saved + [state] else saved;
    emptied' := if ok then false else emptied || empties;
  }

  /**
   * One iteration of the pass's loop: convert the entry, decide whether the
   * job is due, run it, record and save. `error` is what the iteration
   * raises, if anything; the iteration does what `Step` says.
   */
  method EvaluateJob(raw: RawJob, state: RunState, conn: Connection, fs: FileSystem, now: Timestamp,
                     parse: ScheduleParser, path: string, formatTs: TimestampFormatter,
                     ghost p: Progress, ghost calls0: seq<Call>, ghost files0: map<string, StateDoc>,
                     ghost writes0: seq<(string, StateDoc)>)
    returns (state': RunState, error: Option<PassError>, ghost q: Progress)
    requires Mirrors(p, state, conn, fs, path, formatTs, calls0, files0, writes0)
    modifies conn, fs
    ensures Mirrors(q, state', conn, fs, path, formatTs, calls0, files0, writes0)
    ensures Step(raw, p, now, Env(parse, conn.failing, fs.failingWrites, fs.truncatingWrites, |writes0|, path))
         == if error.Some? then Stop(q, error.value) else Continue(q)
  {
    ghost var env := Env(parse, conn.failing, fs.failingWrites, fs.truncatingWrites, |writes0|, path);
    state', q := state, p;
    var converted := FromDict(raw);
    if converted.None? {
      return state', Some(InvalidJob), q;
    }
    var job := converted.value;
    var lastRun := Get(state, job.name);
    var decision := ShouldRun(parse, job.schedule, lastRun, now);
    if decision.Err? {
      return state', Some(ScheduleParseError(decision.error.spec)), q;
    }
    if !decision.value {
      StepSkipsJobNotDue(raw, job, p, now, env);
      q := p.(decisions := p.decisions + [Decision(job.name, job.schedule, lastRun, false)]);
      return state', None, q;
    }
    state', error, q := RunDueJob(raw, job, state, conn, fs, now, parse, path, formatTs, p, calls0, files0, writes0);
  }

  /**
   * The rest of an iteration once the job is found due: run it, then record
   * and save; the iteration does what `Step` says.
   */
  method RunDueJob(raw: RawJob, job: Job, state: RunState, conn: Connection, fs: FileSystem, now: Timestamp,
                   parse: ScheduleParser, path: string, formatTs: TimestampFormatter,
                   ghost p: Progress, ghost calls0: seq<Call>, ghost files0: map<string, StateDoc>,
                   ghost writes0: seq<(string, StateDoc)>)
    returns (state': RunState, error: Option<PassError>, ghost q: Progress)
    requires FromDict(raw) == Some(job)
    requires ShouldRun(parse, job.schedule, Get(p.state, job.name), now) == Ok(true)
    requires Mirrors(p, state, conn, fs, path, formatTs, calls0, files0, writes0)
    modifies conn, fs
    ensures Mirrors(q, state', conn, fs, path, formatTs, calls0, files0, writes0)
    ensures Step(raw, p, now, Env(parse, conn.failing, fs.failingWrites, fs.truncatingWrites, |writes0|, path))
         == if error.Some? then Stop(q, error.value) else Continue(q)
  {
    ghost var env := Env(parse, conn.failing, fs.failingWrites, fs.truncatingWrites, |writes0|, path);
    ghost var decided := p.decisions + [Decision(job.name, job.schedule, Get(state, job.name), true)];
    state' := state;
    var ok := RunJob(conn, job);
    if !ok {
      StepReportsExecutionFailure(raw, job, p, now, env);
      q := p.(autocommit := !job.transaction, calls := p.calls + Protocol(job) + [Call.Rollback], decisions := decided);
      return state', Some(JobExecutionError(job.name)), q;
    }
    state', error, q := RecordAndSave(job, state, conn, fs, now, path, formatTs, env, p, calls0, files0, writes0);
    StepCommits(raw, job, p, now, env);
  }

  /** A due job committed: set its entry to `now` and save the whole state, as `Save` says. */
  method RecordAndSave(job: Job, state: RunState, conn: Connection, fs: FileSystem, now: Timestamp,
                       path: string, formatTs: TimestampFormatter, ghost env: Env,
                       ghost p: Progress, ghost calls0: seq<Call>, ghost files0: map<string, StateDoc>,
                       ghost writes0: seq<(string, StateDoc)>)
    returns (state': RunState, error: Option<PassError>, ghost q: Progress)
    requires env.failingWrites == fs.failingWrites && env.truncatingWrites == fs.truncatingWrites
    requires env.firstWrite == |writes0| && env.path == path
    requires p.state == state
    requires conn.autocommit == !job.transaction
    requires conn.calls == calls0 + p.calls + Protocol(job) + [Call.Commit]
    requires FilesMirror(fs, p.saved, p.emptied, path, formatTs, files0, writes0)
    modifies fs
    ensures Mirrors(q, state', conn, fs, path, formatTs, calls0, files0, writes0)
    ensures Save(Committed(p, job, now), env) == if error.Some? then Stop(q, error.value) else Continue(q)
  {
    state' := state[job.name := now];
    assert conn.calls == calls0 + (p.calls + Protocol(job) + [Call.Commit]);
    var saved; ghost var saves, emptied;
    saved, saves, emptied := Persist(fs, path, state', formatTs, env, p.saved, p.emptied, files0, writes0);
    error := if saved then None else Some(StatePersistError(path));
    q := Progress(state', !job.transaction, p.calls + Protocol(job) + [Call.Commit], saves, p.completed + [job.name],
                  p.decisions + [Decision(job.name, job.schedule, Get(p.state, job.name), true)], emptied);
    SaveOutcome(p, job, now, env, error, saves, emptied, q);
  }

  /** `Save` after a commit, with the outcome of the write given as the error it raised, if any. */
  lemma SaveOutcome(p: Progress, job: Job, now: Timestamp, env: Env, error: Option<PassError>,
                    saves: seq<RunState>, emptied: bool, q: Progress)
    requires error == if CanSave(env, p.saved) then None else Some(StatePersistError(env.path))
    requires saves == if CanSave(env, p.saved) then p.saved + [p.state[job.name := now]] else p.saved
    requires emptied == if CanSave(env, p.saved) then false else p.emptied || Empties(env, p.saved)
    requires q == Progress(p.state[job.name := now], !job.transaction, p.calls + Protocol(job) + [Call.Commit],
                           saves, p.completed + [job.name],
                           p.decisions + [Decision(job.name, job.schedule, Get(p.state, job.name), true)], emptied)
    ensures Save(Committed(p, job, now), env) == if error.Some? then Stop(q, error.value) else Continue(q)
  {
  }

  /** A due job whose execution succeeds: the iteration is the save after its commit. */
  lemma StepCommits(raw: RawJob, job: Job, p: Progress, now: Timestamp, env: Env)
    requires FromDict(raw) == Some(job)
    requires ShouldRun(env.parse, job.schedule, Get(p.state, job.name), now) == Ok(true)
    requires job.sql !in env.failingSql
    ensures Step(raw, p, now, env) == Save(Committed(p, job, now), env)
  {
  }

  /** `run_jobs(config, conn)` with the clock read once as `now`. */
  method RunJobs(config: Config, conn: Connection, fs: FileSystem, now: Timestamp,
                 parse: ScheduleParser, parseTs: TimestampParser, formatTs: TimestampFormatter)
    returns (outcome: Outcome)
    requires config.stateFile.Some? && config.stateFile.value in fs.files ==> IsDict(fs.files[config.stateFile.value])
    modifies conn, fs
    ensures config.stateFile.None? ==> outcome == Raised(MissingStateFile) && unchanged(conn, fs)
    ensures config.stateFile.Some? && NoJobs(config.jobs) ==> outcome == Finished && unchanged(conn, fs)
    ensures config.stateFile.Some? && !NoJobs(config.jobs) ==>
      var path := config.stateFile.value;
      var r := RunFrom(config.jobs.value, Start(StateOnDisk(old(fs.files), path, parseTs), old(conn.autocommit)),
                       now, Env(parse, conn.failing, fs.failingWrites, fs.truncatingWrites, |old(fs.writes)|, path));
      && outcome == r.outcome
      && Mirrors(r.progress, r.progress.state, conn, fs, path, formatTs, old(conn.calls), old(fs.files), old(fs.writes))
  {
    if config.stateFile.None? {
      return Raised(MissingStateFile);
    }
    var path := config.stateFile.value;
    if NoJobs(config.jobs) {
      return Finished;
    }
    var state := LoadState(fs, path, parseTs);
    ghost var r;
    outcome, r := RunPass(config.jobs.value, state, conn, fs, now, parse, path, formatTs,
                          Start(state, conn.autocommit), conn.calls, fs.files, fs.writes);
  }

  /** The loop of `run_jobs`: the jobs in declared order, until one raises. */
  method RunPass(jobs: seq<RawJob>, state: RunState, conn: Connection, fs: FileSystem, now: Timestamp,
                 parse: ScheduleParser, path: string, formatTs: TimestampFormatter,
                 ghost p0: Progress, ghost calls0: seq<Call>, ghost files0: map<string, StateDoc>,
                 ghost writes0: seq<(string, StateDoc)>)
    returns (outcome: Outcome, ghost r: Progress)
    requires Mirrors(p0, state, conn, fs, path, formatTs, calls0, files0, writes0)
    modifies conn, fs
    ensures RunFrom(jobs, p0, now, Env(parse, conn.failing, fs.failingWrites, fs.truncatingWrites, |writes0|, path)) == PassResult(r, outcome)
    ensures Mirrors(r, r.state, conn, fs, path, formatTs, calls0, files0, writes0)
  {
    ghost var env := Env(parse, conn.failing, fs.failingWrites, fs.truncatingWrites, |writes0|, path);
    ghost var whole := RunFrom(jobs, p0, now, env);
    var current := state;
    r := p0;
    var i := 0;
    while i < |jobs|
      invariant 0 <= i <= |jobs|
      invariant RunFrom(jobs[i..], r, now, env) == whole
      invariant Mirrors(r, current, conn, fs, path, formatTs, calls0, files0, writes0)
    {
      ghost var before := r;
      var error;
      current, error, r := EvaluateJob(jobs[i], current, conn, fs, now, parse, path, formatTs, r, calls0, files0, writes0);
      RunFromOneStep(jobs, i, before, now, env);
      if error.Some? {
        return Raised(error.value), r;
      }
      i := i + 1;
    }
    assert jobs[i..] == [];
    outcome := Finished;
  }

  /** The rest of a pass from entry `i` is that entry's step followed by the rest after it. */
  lemma RunFromOneStep(jobs: seq<RawJob>, i: nat, p: Progress, now: Timestamp, env: Env)
    requires i < |jobs|
    ensures RunFrom(jobs[i..], p, now, env) ==
      match Step(jobs[i], p, now, env)
      case Stop(q, e) => PassResult(q, Raised(e))
      case Continue(q) => RunFrom(jobs[i + 1..], q, now, env)
  {
    assert jobs[i..][0] == jobs[i] && jobs[i..][1..] == jobs[i + 1..];
  }

  /** The files after the saves of a pass: the last saved state, if any, is on disk. */
  function FilesAfter(files: map<string, StateDoc>, path: string, saved: seq<RunState>, formatTs: TimestampFormatter): map<string, StateDoc> {
    if saved == [] then files else files[path := Mapping(Serialise(saved[|saved| - 1], formatTs))]
  }

  /** The files a pass leaves: those after its saves, with the state file emptied when `emptied` holds. */
  function FilesLeft(files: map<string, StateDoc>, path: string, saved: seq<RunState>, emptied: bool,
                     formatTs: TimestampFormatter): map<string, StateDoc> {
    var after := FilesAfter(files, path, saved, formatTs);
    if emptied then after[path := StateDoc.Null] else after
  }

  /** The writes of a pass, one per saved state, in order. */
  function WritesOf(path: string, saved: seq<RunState>, formatTs: TimestampFormatter): (writes: seq<(string, StateDoc)>)
    ensures |writes| == |saved|
    decreases |saved|
  {
    if saved == [] then []
    else WritesOf(path, saved[..|saved| - 1], formatTs) + [(path, Mapping(Serialise(saved[|saved| - 1], formatTs)))]
  }

  lemma FilesAfterOneMore(files: map<string, StateDoc>, path: string, saved: seq<RunState>, state: RunState, formatTs: TimestampFormatter)
    ensures FilesAfter(files, path, saved + [state], formatTs) == FilesAfter(files, path, saved, formatTs)[path := Mapping(Serialise(state, formatTs))]
  {
    var more := saved + [state];
    var doc := Mapping(Serialise(state, formatTs));
    assert more[|more| - 1] == state;
    assert FilesAfter(files, path, more, formatTs) == files[path := doc];
    if saved != [] {
      OverwriteTwice(files, path, Mapping(Serialise(saved[|saved| - 1], formatTs)), doc);
    }
  }

  /** Overwriting a file twice leaves only the second content. */
  lemma OverwriteTwice<D>(files: map<string, D>, path: string, first: D, second: D)
    ensures files[path := first][path := second] == files[path := second]
  {
  }

  lemma WritesOfOneMore(writes0: seq<(string, StateDoc)>, path: string, saved: seq<RunState>, state: RunState,
                        formatTs: TimestampFormatter)
    ensures writes0 + WritesOf(path, saved + [state], formatTs)
         == writes0 + WritesOf(path, saved, formatTs) + [(path, Mapping(Serialise(state, formatTs)))]
  {
    assert (saved + [state])[..|saved|] == saved;
  }

  // ---------------------------------------------------------------------------
  // What a pass guarantees

  /**
   * Recording only adds or overwrites: a key is present afterwards exactly
   * when it was before or was recorded, a recorded key holds `now`, and
   * every other key keeps its value.
   */
  lemma {:induction false} RecordAt(base: RunState, names: seq<string>, now: Timestamp, k: string)
    ensures k in Record(base, names, now) <==> k in base || k in names
    ensures k in Record(base, names, now) ==> Record(base, names, now)[k] == if k in names then now else base[k]
    decreases |names|
  {
    if names != [] {
      var init := names[..|names| - 1];
      RecordAt(base, init, now, k);
      assert names == init + [names[|names| - 1]];
    }
  }

  lemma RecordOneMore(base: RunState, names: seq<string>, name: string, now: Timestamp)
    ensures Record(base, names + [name], now) == Record(base, names, now)[name := now]
  {
    assert (names + [name])[..|names|] == names;
  }

  /** Save number `i` holds the state after the first `i + 1` completed jobs. */
  ghost predicate SavedAsCompleted(saved: seq<RunState>, completed: seq<string>, base: RunState, now: Timestamp) {
    |saved| <= |completed| && forall i :: 0 <= i < |saved| ==> saved[i] == Record(base, completed[..i + 1], now)
  }

  /**
   * The in-memory state is `base` with the completed jobs recorded, every
   * completion was saved, and no failed save emptied the file.
   */
  ghost predicate Synced(p: Progress, base: RunState, now: Timestamp) {
    && p.state == Record(base, p.completed, now)
    && |p.saved| == |p.completed|
    && SavedAsCompleted(p.saved, p.completed, base, now)
    && !p.emptied
  }

  /** A pass that stopped because writing the state file failed. */
  predicate PersistFailed(outcome: Outcome) {
    outcome.Raised? && outcome.error.StatePersistError?
  }

  lemma SavedAsCompletedExtend(saved: seq<RunState>, completed: seq<string>, name: string, base: RunState, now: Timestamp)
    requires SavedAsCompleted(saved, completed, base, now)
    ensures SavedAsCompleted(saved, completed + [name], base, now)
  {
    forall i | 0 <= i < |saved|
      ensures saved[i] == Record(base, (completed + [name])[..i + 1], now)
    {
      assert (completed + [name])[..i + 1] == completed[..i + 1];
    }
  }

  /** Completing one more job keeps the state and the saves in step with the completions. */
  lemma SyncedAfterCompletion(p: Progress, name: string, base: RunState, now: Timestamp)
    requires Synced(p, base, now)
    ensures var state := p.state[name := now];
      && state == Record(base, p.completed + [name], now)
      && SavedAsCompleted(p.saved, p.completed + [name], base, now)
      && SavedAsCompleted(p.saved + [state], p.completed + [name], base, now)
  {
    var completed := p.completed + [name];
    RecordOneMore(base, p.completed, name, now);
    SavedAsCompletedExtend(p.saved, p.completed, name, base, now);
    assert completed[..|p.saved| + 1] == completed;
  }

  /**
   * One job keeps the state recorded from its base, and keeps the saves in
   * step unless the save failed; only a failed save can empty the file.
   */
  lemma StepKeepsSynced(raw: RawJob, p: Progress, now: Timestamp, env: Env, base: RunState)
    requires Synced(p, base, now)
    ensures var s := Step(raw, p, now, env);
      && s.progress.state == Record(base, s.progress.completed, now)
      && SavedAsCompleted(s.progress.saved, s.progress.completed, base, now)
      && |s.progress.saved| + (if s.Stop? && s.error.StatePersistError? then 1 else 0) == |s.progress.completed|
      && (s.progress.emptied ==> s.Stop? && s.error.StatePersistError?)
  {
    if FromDict(raw).Some? {
      var job := FromDict(raw).value;
      var decision := ShouldRun(env.parse, job.schedule, Get(p.state, job.name), now);
      if decision == Ok(true) && job.sql !in env.failingSql {
        StepRunsDueJob(raw, job, p, now, env);
        SyncedAfterCompletion(p, job.name, base, now);
      } else if decision == Ok(true) {
        StepReportsExecutionFailure(raw, job, p, now, env);
      } else if decision == Ok(false) {
        StepSkipsJobNotDue(raw, job, p, now, env);
      }
    }
  }

  /**
   * Over a whole pass: the in-memory state is the base with the completed
   * jobs recorded at `now`; save `i` holds the base with the first `i + 1`
   * completed jobs recorded; every completed job was saved, except the last
   * one when the pass stopped because its save failed; and the file was
   * emptied only if the pass stopped that way.
   */
  lemma {:induction false} PassKeepsSynced(jobs: seq<RawJob>, p: Progress, now: Timestamp, env: Env, base: RunState)
    requires Synced(p, base, now)
    ensures var r := RunFrom(jobs, p, now, env);
      && r.progress.state == Record(base, r.progress.completed, now)
      && SavedAsCompleted(r.progress.saved, r.progress.completed, base, now)
      && |r.progress.saved| + (if PersistFailed(r.outcome) then 1 else 0) == |r.progress.completed|
      && (r.progress.emptied ==> PersistFailed(r.outcome))
    decreases |jobs|
  {
    if jobs != [] {
      StepKeepsSynced(jobs[0], p, now, env, base);
      var s := Step(jobs[0], p, now, env);
      if s.Continue? {
        PassKeepsSynced(jobs[1..], s.progress, now, env, base);
      }
    }
  }

  /** The state the file holds after a pass's saves: the last save, or what was loaded. */
  function LastSaved(loaded: RunState, saved: seq<RunState>): RunState {
    if saved == [] then loaded else saved[|saved| - 1]
  }

  /**
   * What the in-step facts say about one job name and about the file: the
   * entry is `now` if the job completed and the base value otherwise, and
   * the last save is the state, or the state before the last completion
   * when that completion's save failed.
   */
  lemma SyncedState(q: Progress, base: RunState, now: Timestamp, persistFailed: bool, k: string)
    requires q.state == Record(base, q.completed, now)
    requires SavedAsCompleted(q.saved, q.completed, base, now)
    requires |q.saved| + (if persistFailed then 1 else 0) == |q.completed|
    ensures k in q.state <==> k in base || k in q.completed
    ensures k in q.state ==> q.state[k] == if k in q.completed then now else base[k]
    ensures !persistFailed ==> LastSaved(base, q.saved) == q.state
    ensures persistFailed ==>
      q.completed != [] && q.state == LastSaved(base, q.saved)[q.completed[|q.completed| - 1] := now]
  {
    RecordAt(base, q.completed, now, k);
    var completed := q.completed;
    var saved := q.saved;
    if saved != [] {
      assert saved[|saved| - 1] == Record(base, completed[..|saved|], now);
    }
    if persistFailed {
      var init := completed[..|completed| - 1];
      RecordOneMore(base, init, completed[|completed| - 1], now);
      assert init + [completed[|completed| - 1]] == completed;
      assert completed[..|saved|] == init;
    } else {
      assert completed[..|saved|] == completed;
    }
  }

  /**
   * A pass from the loaded state only adds or overwrites entries: a job's
   * entry afterwards is `now` if it completed in this pass, and its loaded
   * entry (or none) otherwise. Unless the pass stopped on a failed save,
   * the last saved state is exactly the in-memory state; if it did, the two
   * differ only in the entry of the job whose save failed.
   */
  lemma PassRecordsCompletedJobs(jobs: seq<RawJob>, loaded: RunState, autocommit: bool, now: Timestamp, env: Env, k: string)
    ensures var r := RunFrom(jobs, Start(loaded, autocommit), now, env);
      && (k in r.progress.state <==> k in loaded || k in r.progress.completed)
      && (k in r.progress.state ==> r.progress.state[k] == if k in r.progress.completed then now else loaded[k])
    ensures var r := RunFrom(jobs, Start(loaded, autocommit), now, env);
      !PersistFailed(r.outcome) ==> LastSaved(loaded, r.progress.saved) == r.progress.state
    ensures var r := RunFrom(jobs, Start(loaded, autocommit), now, env);
      PersistFailed(r.outcome) ==>
        r.progress.completed != [] &&
        r.progress.state == LastSaved(loaded, r.progress.saved)[r.progress.completed[|r.progress.completed| - 1] := now]
  {
    var r := RunFrom(jobs, Start(loaded, autocommit), now, env);
    PassKeepsSynced(jobs, Start(loaded, autocommit), now, env, loaded);
    SyncedState(r.progress, loaded, now, PersistFailed(r.outcome), k);
  }

  /**
   * What a crash leaves on disk: given a timestamp format that parses back,
   * each write of a pass, loaded again, is exactly the loaded state with the
   * jobs completed so far recorded at `now`.
   */
  lemma EachWriteHoldsCompletedJobs(jobs: seq<RawJob>, loaded: RunState, autocommit: bool, now: Timestamp, env: Env,
                                    parseTs: TimestampParser, formatTs: TimestampFormatter, i: nat)
    requires RoundTrips(parseTs, formatTs)
    requires i < |RunFrom(jobs, Start(loaded, autocommit), now, env).progress.saved|
    ensures var r := RunFrom(jobs, Start(loaded, autocommit), now, env);
      && i < |r.progress.completed|
      && Loaded(Serialise(r.progress.saved[i], formatTs), parseTs) == Record(loaded, r.progress.completed[..i + 1], now)
  {
    var r := RunFrom(jobs, Start(loaded, autocommit), now, env);
    PassKeepsSynced(jobs, Start(loaded, autocommit), now, env, loaded);
    SaveLoadRoundTrip(r.progress.saved[i], parseTs, formatTs);
  }

  /** One iteration never undoes anything: it only appends calls, saves, completions and decisions. */
  lemma StepOnlyAppends(raw: RawJob, p: Progress, now: Timestamp, env: Env)
    ensures Extends(p, Step(raw, p, now, env).progress)
  {
  }

  /**
   * A pass never undoes anything: every call made, state saved, job
   * completed and decision taken before it stays, in order, at the front of
   * the pass's own.
   */
  lemma {:induction false} PassOnlyAppends(jobs: seq<RawJob>, p: Progress, now: Timestamp, env: Env)
    ensures Extends(p, RunFrom(jobs, p, now, env).progress)
    decreases |jobs|
  {
    if jobs != [] {
      var s := Step(jobs[0], p, now, env);
      StepOnlyAppends(jobs[0], p, now, env);
      if s.Continue? {
        PassOnlyAppends(jobs[1..], s.progress, now, env);
      }
    }
  }

  /**
   * Every due-ness decision of a pass is taken at the clock read when the
   * pass began: its verdict is what the job's schedule and last run give at
   * that one `now`.
   */
  lemma {:induction false} PassUsesOneClock(jobs: seq<RawJob>, p: Progress, now: Timestamp, env: Env)
    ensures var r := RunFrom(jobs, p, now, env);
      && p.decisions <= r.progress.decisions
      && forall i :: |p.decisions| <= i < |r.progress.decisions| ==>
           ShouldRun(env.parse, r.progress.decisions[i].schedule, r.progress.decisions[i].lastRun, now)
           == Ok(r.progress.decisions[i].due)
    decreases |jobs|
  {
    if jobs != [] {
      var s := Step(jobs[0], p, now, env);
      if s.Continue? {
        PassUsesOneClock(jobs[1..], s.progress, now, env);
      }
    }
  }

  /**
   * A pass that returns normally evaluated every job, in declared order:
   * every entry converted, and decision `i` is about job `i`.
   */
  lemma {:induction false} FinishedPassEvaluatesEveryJob(jobs: seq<RawJob>, p: Progress, now: Timestamp, env: Env)
    requires RunFrom(jobs, p, now, env).outcome == Finished
    ensures var r := RunFrom(jobs, p, now, env);
      && |r.progress.decisions| == |p.decisions| + |jobs|
      && p.decisions <= r.progress.decisions
      && forall i :: 0 <= i < |jobs| ==>
           FromDict(jobs[i]).Some? && r.progress.decisions[|p.decisions| + i].job == FromDict(jobs[i]).value.name
    decreases |jobs|
  {
    if jobs != [] {
      var s := Step(jobs[0], p, now, env);
      var r := RunFrom(jobs, p, now, env);
      FinishedPassEvaluatesEveryJob(jobs[1..], s.progress, now, env);
      forall i | 0 <= i < |jobs|
        ensures FromDict(jobs[i]).Some? && r.progress.decisions[|p.decisions| + i].job == FromDict(jobs[i]).value.name
      {
        if i > 0 {
          assert jobs[i] == jobs[1..][i - 1];
        }
      }
    }
  }

  /**
   * Fail-fast: once a prefix of the job list raises, jobs declared after it
   * change nothing: they are neither evaluated nor run, and the calls, the
   * state and the saves are those of the prefix.
   */
  lemma {:induction false} PassFailFast(jobs: seq<RawJob>, more: seq<RawJob>, p: Progress, now: Timestamp, env: Env)
    requires RunFrom(jobs, p, now, env).outcome.Raised?
    ensures RunFrom(jobs + more, p, now, env) == RunFrom(jobs, p, now, env)
    decreases |jobs|
  {
    if jobs != [] {
      assert (jobs + more)[0] == jobs[0] && (jobs + more)[1..] == jobs[1..] + more;
      var s := Step(jobs[0], p, now, env);
      if s.Continue? {
        PassFailFast(jobs[1..], more, s.progress, now, env);
      }
    }
  }

  /**
   * A pass stopped by a failed execution ends with that job's protocol and a
   * rollback, and its last decision found that job due.
   */
  lemma {:induction false} ExecutionFailureEndsInRollback(jobs: seq<RawJob>, p: Progress, now: Timestamp, env: Env)
    requires RunFrom(jobs, p, now, env).outcome.Raised?
    requires RunFrom(jobs, p, now, env).outcome.error.JobExecutionError?
    ensures var r := RunFrom(jobs, p, now, env);
      && |r.progress.calls| >= 4
      && r.progress.calls[|r.progress.calls| - 1] == Call.Rollback
      && r.progress.calls[|r.progress.calls| - 2].Execute?
      && r.progress.decisions != []
      && r.progress.decisions[|r.progress.decisions| - 1].job == r.outcome.error.job
      && r.progress.decisions[|r.progress.decisions| - 1].due
    decreases |jobs|
  {
    var s := Step(jobs[0], p, now, env);
    if s.Continue? {
      ExecutionFailureEndsInRollback(jobs[1..], s.progress, now, env);
    } else {
      var job := FromDict(jobs[0]).value;
      StepReportsExecutionFailure(jobs[0], job, p, now, env);
    }
  }

  /**
   * Across passes: a job whose completion was saved in one pass is not due
   * in a later pass, which loads the state file this pass left, while the
   * later clock is before the next occurrence resolved against this pass's
   * clock. (A job whose save failed is not covered: the file does not hold
   * its completion; nor is a pass whose failed save emptied the file, for
   * which see `EmptiedFileForgetsCompletions`.)
   */
  lemma CompletedJobNotDueUntilNextOccurrence(jobs: seq<RawJob>, loaded: RunState, autocommit: bool, now: Timestamp,
                                             env: Env, files: map<string, StateDoc>, parseTs: TimestampParser,
                                             formatTs: TimestampFormatter, name: string, spec: string, later: Timestamp)
    requires RoundTrips(parseTs, formatTs)
    requires var r := RunFrom(jobs, Start(loaded, autocommit), now, env);
      && name in r.progress.completed
      && (PersistFailed(r.outcome) ==> name in r.progress.completed[..|r.progress.completed| - 1])
      && !r.progress.emptied
    requires env.parse(spec, now).Some? && later < env.parse(spec, now).value
    ensures var r := RunFrom(jobs, Start(loaded, autocommit), now, env);
      var onDisk := StateOnDisk(FilesLeft(files, env.path, r.progress.saved, r.progress.emptied, formatTs), env.path, parseTs);
      ShouldRun(env.parse, spec, Get(onDisk, name), later) == Ok(false)
  {
    var r := RunFrom(jobs, Start(loaded, autocommit), now, env);
    PassKeepsSynced(jobs, Start(loaded, autocommit), now, env, loaded);
    SavedCompletionOnDisk(r.progress, loaded, now, PersistFailed(r.outcome), files, env.path, parseTs, formatTs, name);
    var onDisk := StateOnDisk(FilesLeft(files, env.path, r.progress.saved, r.progress.emptied, formatTs), env.path, parseTs);
    assert Get(onDisk, name) == Some(now);
    assert Anchor(Some(now), later) == now;
  }

  /** A completion that was saved is what the state file loads back for that job. */
  lemma SavedCompletionOnDisk(q: Progress, base: RunState, now: Timestamp, persistFailed: bool,
                              files: map<string, StateDoc>, path: string, parseTs: TimestampParser,
                              formatTs: TimestampFormatter, name: string)
    requires RoundTrips(parseTs, formatTs)
    requires SavedAsCompleted(q.saved, q.completed, base, now)
    requires |q.saved| + (if persistFailed then 1 else 0) == |q.completed|
    requires name in q.completed && (persistFailed ==> name in q.completed[..|q.completed| - 1])
    requires !q.emptied
    ensures Get(StateOnDisk(FilesLeft(files, path, q.saved, q.emptied, formatTs), path, parseTs), name) == Some(now)
  {
    var saved := q.saved;
    var completed := q.completed;
    assert name in completed[..|saved|] by {
      if !persistFailed {
        assert completed[..|saved|] == completed;
      }
    }
    var last := saved[|saved| - 1];
    assert last == Record(base, completed[..|saved|], now);
    RecordAt(base, completed[..|saved|], now, name);
    SaveLoadRoundTrip(last, parseTs, formatTs);
    assert StateOnDisk(FilesLeft(files, path, saved, q.emptied, formatTs), path, parseTs) == last;
  }

  /**
   * Across passes, when a failed save truncated the state file: the pass
   * stopped on that save, the next pass loads an empty state, and so every
   * job whose schedule resolves against the later clock is due again,
   * whatever it ran before.
   */
  lemma EmptiedFileForgetsCompletions(jobs: seq<RawJob>, loaded: RunState, autocommit: bool, now: Timestamp,
                                      env: Env, files: map<string, StateDoc>, parseTs: TimestampParser,
                                      formatTs: TimestampFormatter, name: string, spec: string, later: Timestamp)
    requires RunFrom(jobs, Start(loaded, autocommit), now, env).progress.emptied
    ensures PersistFailed(RunFrom(jobs, Start(loaded, autocommit), now, env).outcome)
    ensures var r := RunFrom(jobs, Start(loaded, autocommit), now, env);
      StateOnDisk(FilesLeft(files, env.path, r.progress.saved, r.progress.emptied, formatTs), env.path, parseTs) == map[]
    ensures env.parse(spec, later).Some? ==>
      var r := RunFrom(jobs, Start(loaded, autocommit), now, env);
      var onDisk := StateOnDisk(FilesLeft(files, env.path, r.progress.saved, r.progress.emptied, formatTs), env.path, parseTs);
      ShouldRun(env.parse, spec, Get(onDisk, name), later) == Ok(true)
  {
    PassKeepsSynced(jobs, Start(loaded, autocommit), now, env, loaded);
  }
}

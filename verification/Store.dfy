/**
 The run and job tables, as values.  Row ids come from auto-increment counters and rows are never
 deleted, so the ids in use are exactly those below the counter.
 */
module Store {
  import opened Common

  const DAY_MS := 24 * 3600 * 1000
  const GRACE_MS := 60_000
  const TOKEN_EXPIRY_MS := 1000 * 60 * 30

  datatype RunState = Pending | Started | Finished | Error | Invalid

  datatype TokenValidity = TokenExpired | TokenInvalid | TokenValid

  /** A row of `runs`.  The reserved artifacts directory is named by its number. */
  datatype Run = Run(
    jobId: nat,
    state: RunState,
    createTime: nat,
    hostPreference: Option<nat>,
    hostId: Option<nat>,
    buildToken: Option<nat>,
    artifactsPath: Option<nat>,
    startTime: Option<nat>,
    runTimeout: Option<nat>,
    completeTime: Option<nat>,
    buildResult: Option<nat>,
    finalStatus: Option<string>)

  datatype Job = Job(
    remoteId: nat,
    commitId: nat,
    createdTime: nat,
    source: Option<string>,
    runPreferences: Option<string>)

  /** What a runner's final report says of a run. */
  datatype Outcome = Outcome(pass: bool, text: string)

  datatype Db = Db(runs: map<nat, Run>, nextRun: nat, jobs: map<nat, Job>, nextJob: nat) {
    ghost predicate Valid() {
      && 1 <= nextRun && (forall r :: r in runs <==> 1 <= r < nextRun)
      && 1 <= nextJob && (forall j :: j in jobs <==> 1 <= j < nextJob)
      && (forall r :: r in runs ==> runs[r].jobId in jobs)
    }

    function InsertRun(row: Run): Db {
      this.(runs := runs[nextRun := row], nextRun := nextRun + 1)
    }

    function InsertJob(job: Job): Db {
      this.(jobs := jobs[nextJob := job], nextJob := nextJob + 1)
    }

    /** `update runs set ... where id=r` has no effect when there is no such row. */
    function SetRun(r: nat, row: Run): Db
      requires r in runs
    {
      this.(runs := runs[r := row])
    }

    function Activate(r: nat, host: nat, token: nat, start: nat): Db {
      if r in runs then SetRun(r, Activated(runs[r], r, host, token, start)) else this
    }

    function Complete(r: nat, at: nat, outcome: Outcome): Db {
      if r in runs then SetRun(r, Completed(runs[r], at, outcome)) else this
    }

    function Reap(r: nat): Db {
      if r in runs then SetRun(r, Reaped(runs[r])) else this
    }
  }

  const EMPTY := Db(map[], 1, map[], 1)

  /** The row that `new_run` inserts. */
  function PendingRow(jobId: nat, hostPreference: Option<nat>, createdTime: nat): Run {
    Run(jobId, Pending, createdTime, hostPreference, None, None, None, None, None, None, None, None)
  }

  /** The single update of `activate_run`. */
  function Activated(row: Run, r: nat, host: nat, token: nat, start: nat): Run {
    row.(startTime := Some(start), hostId := Some(host), state := Started,
    artifactsPath := Some(r), buildToken := Some(token))
  }

  /** The update made for a task status; 0 is a pass and 1 a fail. */
  function Completed(row: Run, at: nat, outcome: Outcome): Run {
    row.(completeTime := Some(at), state := if outcome.pass then Finished else Error,
    buildResult := Some(if outcome.pass then 0 else 1), finalStatus := Some(outcome.text))
  }

  /** The update of `reap_task`; it looks at nothing in the row. */
  function Reaped(row: Run): Run {
    row.(finalStatus := Some("lost signal"), state := Invalid)
  }

  /** The `where` clause of PENDING_RUNS: a null parameter equals no preference. */
  predicate PendingFor(row: Run, host: Option<nat>) {
    row.state == Pending && ((host.Some? && row.hostPreference == host) || row.hostPreference == None)
  }

  /** Is a client with these accepted sources willing to run the job? */
  predicate WillAccept(accepted: Option<seq<string>>, job: Job) {
    match (job.source, accepted)
    case (_, None) => true
    case (None, Some(_)) => false
    case (Some(source), Some(sources)) => source in sources
  }

  /** The `where` clause of JOBS_NEEDING_HOST_RUN. */
  ghost predicate NeedsHostRun(db: Db, j: nat, cutoff: int, host: nat) {
    && j in db.jobs
    && db.jobs[j].runPreferences == Some("all")
    && db.jobs[j].createdTime > cutoff
    && forall r :: r in db.runs && db.runs[r].jobId == j ==> db.runs[r].hostId != Some(host)
  }

  /** A pending run that a client of this host, with these accepted sources, could be given. */
  ghost predicate AcceptablePending(db: Db, host: nat, accepted: Option<seq<string>>, r: nat) {
    && r in db.runs && PendingFor(db.runs[r], Some(host))
    && db.runs[r].jobId in db.jobs && WillAccept(accepted, db.jobs[db.runs[r].jobId])
  }

  ghost predicate NewestAcceptable(db: Db, host: nat, accepted: Option<seq<string>>, r: nat) {
    && AcceptablePending(db, host, accepted, r)
    && forall q :: AcceptablePending(db, host, accepted, q) ==> db.runs[q].createTime <= db.runs[r].createTime
  }

  ghost predicate NothingPending(db: Db, host: nat, accepted: Option<seq<string>>) {
    forall q :: !AcceptablePending(db, host, accepted, q)
  }

  ghost predicate NoAlternate(db: Db, host: nat, accepted: Option<seq<string>>, cutoff: int) {
    forall j :: j in db.jobs ==> !AcceptableAlternate(db, host, accepted, cutoff, j)
  }

  ghost predicate AcceptableAlternate(db: Db, host: nat, accepted: Option<seq<string>>, cutoff: int, j: nat) {
    NeedsHostRun(db, j, cutoff, host) && WillAccept(accepted, db.jobs[j])
  }

  // ---- Read off the columns ----
  // The queries and the program's own test are stated above as they are written.  What follows says once
  // more, of the tables alone, which work there is for whom; only statements use it.

  /** The client takes everything, or it names whoever is the source of the job. */
  ghost predicate Wanted(accepted: Option<seq<string>>, job: Job) {
    accepted == None || exists i :: 0 <= i < |accepted.value| && job.source == Some(accepted.value[i])
  }

  /** The run waits, for this host or for any, and is of a job that the client wants. */
  ghost predicate Offered(db: Db, host: nat, accepted: Option<seq<string>>, r: nat) {
    && r in db.runs && db.runs[r].state == Pending
    && (db.runs[r].hostPreference == None || db.runs[r].hostPreference == Some(host))
    && db.runs[r].jobId in db.jobs && Wanted(accepted, db.jobs[db.runs[r].jobId])
  }

  /** The job of the last day is to run everywhere, has not been on this host, and the client wants it. */
  ghost predicate Lacking(db: Db, host: nat, accepted: Option<seq<string>>, now: nat, j: nat) {
    && j in db.jobs && db.jobs[j].runPreferences == Some("all") && now < db.jobs[j].createdTime + 86_400_000
    && (forall r :: r in db.runs && db.runs[r].hostId == Some(host) ==> db.runs[r].jobId != j)
    && Wanted(accepted, db.jobs[j])
  }

  lemma WantedIsAccepted(accepted: Option<seq<string>>, job: Job)
    ensures Wanted(accepted, job) <==> WillAccept(accepted, job)
  {
  }

  /** The queries and the program's test select just what the columns say. */
  lemma AsTheColumnsSay(db: Db, host: nat, accepted: Option<seq<string>>, now: nat)
    ensures forall r :: Offered(db, host, accepted, r) <==> AcceptablePending(db, host, accepted, r)
    ensures forall j :: Lacking(db, host, accepted, now, j) <==> AcceptableAlternate(db, host, accepted, now - DAY_MS, j)
  {
    forall job: Job
      ensures Wanted(accepted, job) <==> WillAccept(accepted, job)
    {
      WantedIsAccepted(accepted, job);
    }
  }

  /** What `run_for_token` makes of a row's times. */
  function Validity(row: Run, now: nat): TokenValidity {
    match row.startTime
    case None => TokenInvalid
    case Some(start) =>
      if now > start + row.runTimeout.GetOr(TOKEN_EXPIRY_MS) then TokenExpired else TokenValid
  }

  /** The reaper's filter: a started run whose start time is missing or older than the threshold. */
  predicate Stale(row: Run, threshold: int) {
    row.state == Started && (row.startTime.None? || row.startTime.value < threshold)
  }
}

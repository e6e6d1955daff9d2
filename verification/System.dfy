/**
 The driver as an interleaved machine.  One step is one critical section on the database lock, one
 message exchanged with a client, or one access to the process-wide map of active tasks.  Values
 the program reads from the clock before it takes the lock are parameters of the step, at most `now`.

 `boot`, `tokens`, `log` and `takers` are history: they record the run table this process found, the
 tokens ever issued, the runs in the order they were activated, and who activated each run last.
 */
module System {
  import opened Common
  import opened Store

  /**
   How a candidate came by its run: from the pending query, or by making one for a job that needed it at
   `readAt`.  Either way `seen` are the tables that the query saw.
   */
  datatype Origin = FromPending(seen: Db) | FromAlternate(seen: Db, readAt: nat)

  datatype Phase =
    | Searching
    | NoPending
    | Alternate(job: nat, seen: Db, readAt: nat)
    | Idle
    | Holding(run: nat, origin: Origin)
    | Submitting(run: nat, origin: Origin, start: nat)
    | Acked(run: nat, origin: Origin, start: nat)
    | Working(run: nat)
    | Completing(run: nat, outcome: Outcome, at: nat)
    | Reported(run: nat)
  {
    /** The client is being handed a run that it has not been recorded as running. */
    predicate Holds() { Holding? || Submitting? || Acked? }

    /** `find_client_task` is still in progress. */
    predicate InFlight() { Searching? || NoPending? || Alternate? || Idle? || Holds() }

    /** A `ClientJob` is listening to the client. */
    predicate Listening() { Working? || Completing? || Reported? }

    /** The driver is waiting for this client, so it can notice that the client is gone. */
    predicate Awaits() { Idle? || Submitting? || Working? || Reported? }

    predicate HasRun() { Holds() || Listening() }
  }

  datatype Candidate = Candidate(host: nat, accepted: Option<seq<string>>, token: nat, phase: Phase)

  datatype Reaper =
    | Waiting
    | Snapshot(rows: map<nat, Run>)
    | Screened(rows: map<nat, Run>)
    | Sweeping(todo: set<nat>, reaped: set<nat>, at: nat)

  datatype Taker = Taker(host: nat, accepted: Option<seq<string>>, origin: Origin)

  /** An artifact request whose token was found valid at `at`, and that has yet to be recorded. */
  datatype Upload = Upload(run: nat, token: nat, at: nat)

  /** Its token and the time of the check are history. */
  datatype Artifact = Artifact(run: nat, createdTime: nat, token: nat, checkedAt: nat)

  datatype Sys = Sys(
    now: nat,
    db: Db,
    cands: map<nat, Candidate>,
    active: set<nat>,
    reaper: Reaper,
    uploads: multiset<Upload>,
    artifacts: seq<Artifact>,
    boot: map<nat, Run>,
    tokens: set<nat>,
    log: seq<nat>,
    takers: map<nat, Taker>)
  {
    function At(c: nat, phase: Phase): Sys
      requires c in cands
    {
      this.(cands := cands[c := cands[c].(phase := phase)])
    }
  }

  /** The clock, pushes, arriving and vanishing clients, artifact requests, and the process dying. */
  datatype WorldStep =
    | Tick(t: nat)
    | AddJob(job: Job)
    | AddRun(jobId: nat, created: nat)
    | Connect(c: nat, host: nat, accepted: Option<seq<string>>, token: nat)
    | HangUp(c: nat)
    | LookUpToken(token: nat, run: nat)
    | ReserveArtifact(upload: Upload, created: nat)
    | Restart

  /** `find_client_task`, up to its having a run for the client. */
  datatype SearchStep =
    | FindPending(run: nat)
    | FindNoPending
    | FindAlternate(jobId: nat, readAt: nat)
    | FindNothing(readAt: nat)
    | InsertAlternate(created: nat)
    | Pinged

  /** `activate_run`, and the `ClientJob` it spawns. */
  datatype HandOffStep =
    | ReadStart
    | Ack
    | Activate
    | Status(outcome: Outcome)
    | Complete

  /** `old_task_reaper`. */
  datatype SweepStep =
    | TakeSnapshot
    | Screen
    | Filter
    | Reap(run: nat)

  datatype Step = World(w: WorldStep) | Search(c: nat, q: SearchStep) | HandOff(c: nat, h: HandOffStep) | Sweep(r: SweepStep)

  ghost predicate WorldEnabled(s: Sys, w: WorldStep) {
    match w
    case Tick(t) => s.now <= t
    case AddJob(job) => job.createdTime <= s.now
    case AddRun(jobId, created) => jobId in s.db.jobs && created <= s.now
    case Connect(c, host, accepted, token) => c !in s.cands && token !in s.tokens
    case HangUp(c) => c in s.cands && s.cands[c].phase.Awaits()
    case LookUpToken(token, run) =>
      && run in s.db.runs && s.db.runs[run].buildToken == Some(token)
      && Validity(s.db.runs[run], s.now).TokenValid? && s.db.runs[run].artifactsPath.Some?
    case ReserveArtifact(upload, created) => upload in s.uploads && upload.at <= created <= s.now
    case Restart => true
  }

  ghost function WorldApply(s: Sys, w: WorldStep): Sys
    requires WorldEnabled(s, w)
  {
    match w
    case Tick(t) => s.(now := t)
    case AddJob(job) => s.(db := s.db.InsertJob(job))
    case AddRun(jobId, created) => s.(db := s.db.InsertRun(PendingRow(jobId, None, created)))
    case Connect(c, host, accepted, token) =>
      s.(cands := s.cands[c := Candidate(host, accepted, token, Searching)], tokens := s.tokens + {token})
    case HangUp(c) => s.(cands := s.cands - {c})
    case LookUpToken(token, run) => s.(uploads := s.uploads + multiset{Upload(run, token, s.now)})
    case ReserveArtifact(upload, created) =>
      s.(uploads := s.uploads - multiset{upload},
      artifacts := s.artifacts + [Artifact(upload.run, created, upload.token, upload.at)])
    case Restart => Boot(s)
  }

  ghost predicate SearchEnabled(s: Sys, c: nat, q: SearchStep)
    requires c in s.cands
  {
    var k := s.cands[c];
    match q
    case FindPending(run) => k.phase.Searching? && NewestAcceptable(s.db, k.host, k.accepted, run)
    case FindNoPending => k.phase.Searching? && NothingPending(s.db, k.host, k.accepted)
    case FindAlternate(jobId, readAt) =>
      k.phase.NoPending? && readAt <= s.now && AcceptableAlternate(s.db, k.host, k.accepted, readAt - DAY_MS, jobId)
    case FindNothing(readAt) =>
      k.phase.NoPending? && readAt <= s.now && NoAlternate(s.db, k.host, k.accepted, readAt - DAY_MS)
    case InsertAlternate(created) => k.phase.Alternate? && created <= s.now
    case Pinged => k.phase.Idle?
  }

  ghost function SearchApply(s: Sys, c: nat, q: SearchStep): Sys
    requires c in s.cands && SearchEnabled(s, c, q)
  {
    match q
    case FindPending(run) => s.At(c, Holding(run, FromPending(s.db)))
    case FindNoPending => s.At(c, NoPending)
    case FindAlternate(jobId, readAt) => s.At(c, Alternate(jobId, s.db, readAt))
    case FindNothing(_) => s.At(c, Idle)
    case InsertAlternate(created) =>
      s.(db := s.db.InsertRun(PendingRow(s.cands[c].phase.job, Some(s.cands[c].host), created)))
      .At(c, Holding(s.db.nextRun, FromAlternate(s.cands[c].phase.seen, s.cands[c].phase.readAt)))
    case Pinged => s.At(c, Searching)
  }

  predicate HandOffEnabled(s: Sys, c: nat, h: HandOffStep)
    requires c in s.cands
  {
    var phase := s.cands[c].phase;
    match h
    case ReadStart => phase.Holding?
    case Ack => phase.Submitting?
    case Activate => phase.Acked?
    case Status(_) => phase.Working?
    case Complete => phase.Completing?
  }

  function HandOffApply(s: Sys, c: nat, h: HandOffStep): Sys
    requires c in s.cands && HandOffEnabled(s, c, h)
  {
    var k, p := s.cands[c], s.cands[c].phase;
    match h
    case ReadStart => s.At(c, Submitting(p.run, p.origin, s.now))
    case Ack => s.(active := s.active + {p.run}).At(c, Acked(p.run, p.origin, p.start))
    case Activate =>
      s.(db := s.db.Activate(p.run, k.host, k.token, p.start),
      log := s.log + [p.run], takers := s.takers[p.run := Taker(k.host, k.accepted, p.origin)])
      .At(c, Working(p.run))
    case Status(outcome) => s.At(c, Completing(p.run, outcome, s.now))
    case Complete => s.(db := s.db.Complete(p.run, p.at, p.outcome)).At(c, Reported(p.run))
  }

  predicate SweepEnabled(s: Sys, r: SweepStep) {
    match r
    case TakeSnapshot => s.reaper.Waiting?
    case Screen => s.reaper.Snapshot?
    case Filter => s.reaper.Screened?
    case Reap(run) => s.reaper.Sweeping? && run in s.reaper.todo
  }

  function SweepApply(s: Sys, r: SweepStep): Sys
    requires SweepEnabled(s, r)
  {
    match r
    case TakeSnapshot =>
      s.(reaper := Snapshot(map r | r in s.db.runs && (s.db.runs[r].state == Started || s.db.runs[r].state == Pending) :: s.db.runs[r]))
    case Screen => s.(reaper := Screened(s.reaper.rows - s.active))
    case Filter =>
      s.(reaper := Sweeping(set r | r in s.reaper.rows && Stale(s.reaper.rows[r], s.now - GRACE_MS), {}, s.now))
    case Reap(run) =>
      s.(db := s.db.Reap(run),
      reaper := s.reaper.(todo := s.reaper.todo - {run}, reaped := s.reaper.reaped + {run}))
  }

  ghost predicate Enabled(s: Sys, st: Step) {
    match st
    case World(w) => WorldEnabled(s, w)
    case Search(c, q) => c in s.cands && SearchEnabled(s, c, q)
    case HandOff(c, h) => c in s.cands && HandOffEnabled(s, c, h)
    case Sweep(r) => SweepEnabled(s, r)
  }

  /** Where each step leads; a step is only taken where it is enabled. */
  ghost function Apply(s: Sys, st: Step): Sys
    requires Enabled(s, st)
  {
    match st
    case World(w) => WorldApply(s, w)
    case Search(c, q) => SearchApply(s, c, q)
    case HandOff(c, h) => HandOffApply(s, c, h)
    case Sweep(r) => SweepApply(s, r)
  }

  /** A new driver process on the same database: nothing of the old process's memory survives. */
  function Boot(s: Sys): Sys {
    s.(cands := map[], active := {}, reaper := Waiting, uploads := multiset{}, boot := s.db.runs)
  }

  /** The first process ever, on tables just created. */
  ghost predicate Init(s: Sys) {
    && s.db == EMPTY && s.boot == map[] && s.cands == map[] && s.active == {} && s.reaper == Waiting
    && s.uploads == multiset{} && s.artifacts == [] && s.tokens == {} && s.log == [] && s.takers == map[]
  }

  /** A process that has just begun on tables left by anyone. */
  ghost predicate JustBooted(s: Sys) {
    s.db.Valid() && s == Boot(s)
  }

  ghost predicate Next(s: Sys, s': Sys) {
    exists st :: Enabled(s, st) && s' == Apply(s, st)
  }

  ghost predicate StepAt(tr: seq<Sys>, i: nat)
    requires i + 1 < |tr|
  {
    Next(tr[i], tr[i + 1])
  }

  /** A run of the machine, from any state. */
  ghost predicate Behaviour(tr: seq<Sys>) {
    |tr| > 0 && forall i: nat :: i + 1 < |tr| ==> StepAt(tr, i)
  }

  /** All that one step can do to the run table. */
  datatype Change =
    | Same
    | Inserted(row: Run)
    | Starts(c: nat)
    | Completes(c: nat)
    | Reaps(run: nat)

  function ChangeOf(s: Sys, st: Step): Change {
    match st
    case World(AddRun(jobId, created)) => Inserted(PendingRow(jobId, None, created))
    case Search(c, InsertAlternate(created)) =>
      if c in s.cands && s.cands[c].phase.Alternate? then
        Inserted(PendingRow(s.cands[c].phase.job, Some(s.cands[c].host), created))
      else Same
    case HandOff(c, Activate) => Starts(c)
    case HandOff(c, Complete) => Completes(c)
    case Sweep(Reap(r)) => Reaps(r)
    case _ => Same
  }

  lemma StepChange(s: Sys, st: Step)
    requires Enabled(s, st)
    ensures match ChangeOf(s, st)
            case Same => Apply(s, st).db.runs == s.db.runs && Apply(s, st).db.nextRun == s.db.nextRun
            case Inserted(row) => Apply(s, st).db == s.db.InsertRun(row)
            case Starts(c) =>
              && c in s.cands && s.cands[c].phase.Acked?
              && Apply(s, st).db == s.db.Activate(s.cands[c].phase.run, s.cands[c].host, s.cands[c].token, s.cands[c].phase.start)
            case Completes(c) =>
              && c in s.cands && s.cands[c].phase.Completing?
              && Apply(s, st).db == s.db.Complete(s.cands[c].phase.run, s.cands[c].phase.at, s.cands[c].phase.outcome)
            case Reaps(r) => s.reaper.Sweeping? && r in s.reaper.todo && Apply(s, st).db == s.db.Reap(r)
  {
  }

  lemma Extend(tr: seq<Sys>, st: Step)
    requires Behaviour(tr) && Enabled(tr[|tr| - 1], st)
    ensures Behaviour(tr + [Apply(tr[|tr| - 1], st)])
  {
    var tr' := tr + [Apply(tr[|tr| - 1], st)];
    forall i: nat | i + 1 < |tr'|
      ensures StepAt(tr', i)
    {
      if i + 1 < |tr| {
        assert StepAt(tr, i);
      }
    }
  }
}

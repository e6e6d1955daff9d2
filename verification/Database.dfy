/** The run and job tables as the database object keeps them, and the driver's queries on them. */
module Database {
  import opened Common
  import opened Sorting
  import opened Store

  datatype PendingRun = PendingRun(id: nat, jobId: nat, createTime: nat)

  datatype RunRow = RunRow(id: nat, row: Run)

  datatype JobRow = JobRow(id: nat, job: Job)

  /** Something for a client to do, and whether it was made by the alternate path. */
  datatype Work = Work(run: nat, jobId: nat, alternate: bool)

  function Age(p: PendingRun): int { p.createTime }

  function JobAge(j: JobRow): int { j.job.createdTime }

  function PendingBelow(runs: map<nat, Run>, host: Option<nat>, n: nat): set<PendingRun> {
    set r | r in runs && r < n && PendingFor(runs[r], host) :: PendingRun(r, runs[r].jobId, runs[r].createTime)
  }

  /** The rows PENDING_RUNS selects. */
  function PendingRows(db: Db, host: Option<nat>): set<PendingRun> {
    set r | r in db.runs && PendingFor(db.runs[r], host) :: PendingRun(r, db.runs[r].jobId, db.runs[r].createTime)
  }

  lemma PendingBelowNext(runs: map<nat, Run>, host: Option<nat>, n: nat)
    requires n in runs
    ensures multiset(PendingBelow(runs, host, n + 1)) == multiset(PendingBelow(runs, host, n))
            + (if PendingFor(runs[n], host) then multiset{PendingRun(n, runs[n].jobId, runs[n].createTime)} else multiset{})
  {
    var p := PendingRun(n, runs[n].jobId, runs[n].createTime);
    assert PendingBelow(runs, host, n + 1) == PendingBelow(runs, host, n) + (if PendingFor(runs[n], host) then {p} else {});
    assert p !in PendingBelow(runs, host, n);
  }

  function JobsOfRemoteBelow(jobs: map<nat, Job>, remote: nat, n: nat): set<JobRow> {
    set j | j in jobs && j < n && jobs[j].remoteId == remote :: JobRow(j, jobs[j])
  }

  function JobsOfRemote(db: Db, remote: nat): set<JobRow> {
    set j | j in db.jobs && db.jobs[j].remoteId == remote :: JobRow(j, db.jobs[j])
  }

  lemma JobsOfRemoteBelowNext(jobs: map<nat, Job>, remote: nat, n: nat)
    requires n in jobs
    ensures multiset(JobsOfRemoteBelow(jobs, remote, n + 1)) == multiset(JobsOfRemoteBelow(jobs, remote, n))
            + (if jobs[n].remoteId == remote then multiset{JobRow(n, jobs[n])} else multiset{})
  {
    assert JobsOfRemoteBelow(jobs, remote, n + 1)
        == JobsOfRemoteBelow(jobs, remote, n) + (if jobs[n].remoteId == remote then {JobRow(n, jobs[n])} else {});
    assert JobRow(n, jobs[n]) !in JobsOfRemoteBelow(jobs, remote, n);
  }

  /** The first `limit` rows of all the remote's jobs, newest first. */
  ghost predicate Recent(db: Db, remote: nat, limit: nat, recent: seq<JobRow>) {
    exists all :: SortedDesc(all, JobAge) && multiset(all) == multiset(JobsOfRemote(db, remote))
      && recent == all[..if |all| < limit then |all| else limit]
  }

  /** One pass of the search loop in `find_client_task`, up to its having work or not. */
  ghost predicate Finds(db: Db, host: nat, accepted: Option<seq<string>>, cutoff: int, created: nat, w: Option<Work>, db': Db) {
    match w
    case None => NothingPending(db, host, accepted) && NoAlternate(db, host, accepted, cutoff) && db' == db
    case Some(Work(r, j, alternate)) =>
      if alternate then
        && NothingPending(db, host, accepted)
        && AcceptableAlternate(db, host, accepted, cutoff, j)
        && r == db.nextRun && db' == db.InsertRun(PendingRow(j, Some(host), created))
      else
        NewestAcceptable(db, host, accepted, r) && j == db.runs[r].jobId && db' == db
  }

  class DbCtx {
    var runs: map<nat, Run>
    var nextRun: nat
    var jobs: map<nat, Job>
    var nextJob: nat

    ghost function Contents(): Db
      reads this
    {
      Db(runs, nextRun, jobs, nextJob)
    }

    ghost predicate Valid()
      reads this
    {
      Contents().Valid()
    }

    constructor ()
      ensures Valid() && Contents() == EMPTY
    {
      runs, nextRun, jobs, nextJob := map[], 1, map[], 1;
    }

    method NewJob(job: Job) returns (id: nat)
      requires Valid()
      modifies this
      ensures Valid() && Contents() == old(Contents()).InsertJob(job)
      ensures id == old(nextJob) && id !in old(jobs) && jobs == old(jobs)[id := job] && runs == old(runs)
    {
      id := nextJob;
      jobs, nextJob := jobs[nextJob := job], nextJob + 1;
    }

    /** Nothing checks that the job exists. */
    method NewRun(jobId: nat, hostPreference: Option<nat>, created: nat) returns (run: PendingRun)
      modifies this
      ensures old(Valid()) && jobId in old(jobs) ==> Valid()
      ensures Contents() == old(Contents()).InsertRun(PendingRow(jobId, hostPreference, created))
      ensures run == PendingRun(old(nextRun), jobId, created) && jobs == old(jobs)
      ensures runs == old(runs)[run.id := Run(jobId, Pending, created, hostPreference, None, None, None, None, None, None, None, None)]
    {
      run := PendingRun(nextRun, jobId, created);
      runs, nextRun := runs[nextRun := PendingRow(jobId, hostPreference, created)], nextRun + 1;
    }

    /** The update of `activate_run`. */
    method Start(r: nat, host: nat, token: nat, start: nat)
      requires Valid()
      modifies this
      ensures Valid() && Contents() == old(Contents()).Activate(r, host, token, start)
      ensures jobs == old(jobs) && runs.Keys == old(runs).Keys && forall q :: q in runs && q != r ==> runs[q] == old(runs)[q]
      ensures r in runs ==> runs[r] == old(runs)[r].(state := Started, startTime := Some(start), hostId := Some(host),
                                                     buildToken := Some(token), artifactsPath := Some(r))
    {
      if r in runs {
        runs := runs[r := runs[r].(startTime := Some(start), hostId := Some(host), state := Started,
                     artifactsPath := Some(r), buildToken := Some(token))];
      }
    }

    method ReapTask(r: nat)
      requires Valid()
      modifies this
      ensures Valid() && Contents() == old(Contents()).Reap(r)
      ensures jobs == old(jobs) && runs.Keys == old(runs).Keys && forall q :: q in runs && q != r ==> runs[q] == old(runs)[q]
      ensures r in runs ==> runs[r] == old(runs)[r].(state := Invalid, finalStatus := Some("lost signal"))
    {
      if r in runs {
        runs := runs[r := runs[r].(finalStatus := Some("lost signal"), state := Invalid)];
      }
    }

    /** Newest first; the order among runs created at the same time is not specified. */
    method GetPendingRuns(host: Option<nat>) returns (pending: seq<PendingRun>)
      requires Valid()
      ensures SortedDesc(pending, Age)
      ensures multiset(pending) == multiset(PendingRows(Contents(), host))
      ensures forall i, j :: 0 <= i < j < |pending| ==> pending[i].createTime >= pending[j].createTime
      ensures forall r :: r in runs && runs[r].state == Pending && (runs[r].hostPreference.None? || runs[r].hostPreference == host) ==>
                PendingRun(r, runs[r].jobId, runs[r].createTime) in multiset(pending)
      ensures forall p :: p in multiset(pending) ==>
                && p.id in runs && p == PendingRun(p.id, runs[p.id].jobId, runs[p.id].createTime) && runs[p.id].state == Pending
                && (runs[p.id].hostPreference.None? || runs[p.id].hostPreference == host)
    {
      pending := [];
      for r := 1 to nextRun
        invariant SortedDesc(pending, Age)
        invariant multiset(pending) == multiset(PendingBelow(runs, host, r))
      {
        PendingBelowNext(runs, host, r);
        if PendingFor(runs[r], host) {
          pending := InsertDesc(pending, PendingRun(r, runs[r].jobId, runs[r].createTime), Age);
        }
      }
      assert PendingBelow(runs, host, nextRun) == PendingRows(Contents(), host);
      assert forall i, j :: 0 <= i < j < |pending| ==> Age(pending[i]) >= Age(pending[j]);
    }

    method HasRunOn(j: nat, host: nat) returns (found: bool)
      requires Valid()
      ensures found <==> exists r :: r in runs && runs[r].jobId == j && runs[r].hostId == Some(host)
    {
      for r := 1 to nextRun
        invariant forall q :: q in runs && q < r ==> runs[q].jobId != j || runs[q].hostId != Some(host)
      {
        if runs[r].jobId == j && runs[r].hostId == Some(host) {
          return true;
        }
      }
      return false;
    }

    method JobsNeedingTaskRunsForHost(host: nat, now: nat) returns (needing: seq<nat>)
      requires Valid()
      ensures forall j :: j in needing <==> NeedsHostRun(Contents(), j, now - DAY_MS, host)
      ensures NoDuplicates(needing)
      ensures forall j :: j in needing <==>
                && j in jobs && jobs[j].runPreferences == Some("all") && now < jobs[j].createdTime + 86_400_000
                && forall r :: r in runs && runs[r].jobId == j ==> runs[r].hostId != Some(host)
    {
      needing := [];
      for j := 1 to nextJob
        invariant forall i: nat :: i in needing <==> i < j && NeedsHostRun(Contents(), i, now - DAY_MS, host)
        invariant NoDuplicates(needing)
      {
        if jobs[j].runPreferences == Some("all") && jobs[j].createdTime > now - DAY_MS {
          var found := HasRunOn(j, host);
          if !found {
            assert forall k :: 0 <= k < |needing| ==> needing[k] in needing;
            needing := needing + [j];
          }
        }
      }
    }

    method GetActiveRuns() returns (active: seq<RunRow>)
      requires Valid()
      ensures forall x :: x in active <==> x.id in runs && x.row == runs[x.id] && (x.row.state == Started || x.row.state == Pending)
      ensures forall i, j :: 0 <= i < j < |active| ==> active[i].id != active[j].id
    {
      active := [];
      for r := 1 to nextRun
        invariant forall x :: x in active <==>
                    x.id in runs && x.id < r && x.row == runs[x.id] && (x.row.state == Started || x.row.state == Pending)
        invariant forall i, j :: 0 <= i < j < |active| ==> active[i].id != active[j].id
      {
        if runs[r].state == Started || runs[r].state == Pending {
          assert forall i :: 0 <= i < |active| ==> active[i] in active;
          active := active + [RunRow(r, runs[r])];
        }
      }
    }

    /** At most one run is found when tokens identify runs; the first in the table otherwise. */
    method RunForToken(token: nat, now: nat) returns (res: Option<(nat, Option<nat>, TokenValidity)>)
      requires Valid()
      ensures res.None? ==> forall r :: r in runs ==> runs[r].buildToken != Some(token)
      ensures res.Some? ==>
                var (r, path, validity) := res.value;
                && r in runs && runs[r].buildToken == Some(token)
                && path == runs[r].artifactsPath && validity == Validity(runs[r], now)
                && (validity == TokenInvalid <==> runs[r].startTime.None?)
                && (validity == TokenValid <==>
                      runs[r].startTime.Some? && now <= runs[r].startTime.value + runs[r].runTimeout.GetOr(1_800_000))
    {
      for r := 1 to nextRun
        invariant forall q :: q in runs && q < r ==> runs[q].buildToken != Some(token)
      {
        if runs[r].buildToken == Some(token) {
          var timeout := runs[r].runTimeout.GetOr(TOKEN_EXPIRY_MS);
          var validity;
          match runs[r].startTime {
            case None => validity := TokenInvalid;
            case Some(time) => validity := if now > time + timeout then TokenExpired else TokenValid;
          }
          return Some((r, runs[r].artifactsPath, validity));
        }
      }
      return None;
    }

    /** The newest jobs of a remote, at most `limit` of them, newest first. */
    method RecentJobsFromRemote(remote: nat, limit: nat) returns (recent: seq<JobRow>)
      requires Valid()
      ensures Recent(Contents(), remote, limit, recent)
      ensures |recent| <= limit && forall i, j :: 0 <= i < j < |recent| ==> recent[i].job.createdTime >= recent[j].job.createdTime
      ensures forall x :: x in recent ==> x.id in jobs && x.job == jobs[x.id] && x.job.remoteId == remote
    {
      var found := [];
      for j := 1 to nextJob
        invariant SortedDesc(found, JobAge)
        invariant multiset(found) == multiset(JobsOfRemoteBelow(jobs, remote, j))
      {
        JobsOfRemoteBelowNext(jobs, remote, j);
        if jobs[j].remoteId == remote {
          found := InsertDesc(found, JobRow(j, jobs[j]), JobAge);
        }
      }
      assert JobsOfRemoteBelow(jobs, remote, nextJob) == JobsOfRemote(Contents(), remote);
      recent := found[..if |found| < limit then |found| else limit];
      RecentOfRemote(Contents(), remote, found, recent);
    }

    /** The first pending run the client accepts, else a new run of the first job it accepts that its host lacks. */
    method FindWork(host: nat, accepted: Option<seq<string>>, now: nat, created: nat) returns (w: Option<Work>)
      requires Valid()
      modifies this
      ensures Valid()
      ensures Finds(old(Contents()), host, accepted, now - DAY_MS, created, w, Contents())
      ensures w.None? ==>
                && (forall q :: !Offered(Contents(), host, accepted, q))
                && (forall j :: !Lacking(Contents(), host, accepted, now, j))
                && Contents() == old(Contents())
      ensures w.Some? && !w.value.alternate ==>
                && Offered(Contents(), host, accepted, w.value.run) && w.value.jobId == runs[w.value.run].jobId
                && (forall q :: Offered(Contents(), host, accepted, q) ==> runs[q].createTime <= runs[w.value.run].createTime)
                && Contents() == old(Contents())
      ensures w.Some? && w.value.alternate ==>
                && (forall q :: !Offered(old(Contents()), host, accepted, q))
                && Lacking(old(Contents()), host, accepted, now, w.value.jobId) && w.value.run == old(nextRun) && jobs == old(jobs)
                && runs == old(runs)[w.value.run :=
                     Run(w.value.jobId, Pending, created, Some(host), None, None, None, None, None, None, None, None)]
    {
      AsTheColumnsSay(Contents(), host, accepted, now);
      var pending := GetPendingRuns(Some(host));
      PendingListed(Contents(), Some(host), pending);
      for i := 0 to |pending|
        invariant forall k :: 0 <= k < i ==> !WillAccept(accepted, jobs[pending[k].jobId])
      {
        if WillAccept(accepted, jobs[pending[i].jobId]) {
          FirstAcceptedIsNewest(Contents(), host, accepted, pending, i);
          return Some(Work(pending[i].id, pending[i].jobId, false));
        }
      }
      assert NothingPending(Contents(), host, accepted);

      var needing := JobsNeedingTaskRunsForHost(host, now);
      for i := 0 to |needing|
        invariant forall k :: 0 <= k < i ==> needing[k] in jobs && !WillAccept(accepted, jobs[needing[k]])
      {
        assert needing[i] in needing;
        if WillAccept(accepted, jobs[needing[i]]) {
          var run := NewRun(needing[i], Some(host), created);
          return Some(Work(run.id, needing[i], true));
        }
      }
      forall j | j in jobs
        ensures !AcceptableAlternate(Contents(), host, accepted, now - DAY_MS, j)
      {
        assert NeedsHostRun(Contents(), j, now - DAY_MS, host) ==> j in needing;
      }
      return None;
    }
  }

  lemma RecentOfRemote(db: Db, remote: nat, found: seq<JobRow>, recent: seq<JobRow>)
    requires SortedDesc(found, JobAge) && multiset(found) == multiset(JobsOfRemote(db, remote)) && recent <= found
    ensures forall i, j :: 0 <= i < j < |recent| ==> recent[i].job.createdTime >= recent[j].job.createdTime
    ensures forall x :: x in recent ==> x.id in db.jobs && x.job == db.jobs[x.id] && x.job.remoteId == remote
  {
    assert forall i, j :: 0 <= i < j < |found| ==> JobAge(found[i]) >= JobAge(found[j]);
    forall x | x in recent
      ensures x in JobsOfRemote(db, remote)
    {
      assert x in multiset(found);
    }
  }

  /** A listing has each pending run the query selects, with the row's own values. */
  lemma PendingListed(db: Db, host: Option<nat>, pending: seq<PendingRun>)
    requires db.Valid() && multiset(pending) == multiset(PendingRows(db, host))
    ensures forall i :: 0 <= i < |pending| ==>
              && pending[i].id in db.runs && PendingFor(db.runs[pending[i].id], host)
              && pending[i].jobId == db.runs[pending[i].id].jobId && pending[i].jobId in db.jobs
              && pending[i].createTime == db.runs[pending[i].id].createTime
    ensures forall r :: r in db.runs && PendingFor(db.runs[r], host) ==> exists i :: 0 <= i < |pending| && pending[i].id == r
  {
    forall i | 0 <= i < |pending|
      ensures pending[i] in PendingRows(db, host)
    {
      assert pending[i] in multiset(pending);
    }
    forall r | r in db.runs && PendingFor(db.runs[r], host)
      ensures exists i :: 0 <= i < |pending| && pending[i].id == r
    {
      var p := PendingRun(r, db.runs[r].jobId, db.runs[r].createTime);
      assert p in PendingRows(db, host);
      assert p in multiset(pending);
      assert p in pending;
    }
  }

  /** Going down a list in descending order, the first run accepted is the newest acceptable one. */
  lemma FirstAcceptedIsNewest(db: Db, host: nat, accepted: Option<seq<string>>, pending: seq<PendingRun>, i: nat)
    requires db.Valid() && multiset(pending) == multiset(PendingRows(db, Some(host))) && SortedDesc(pending, Age)
    requires i < |pending| && pending[i].jobId in db.jobs && WillAccept(accepted, db.jobs[pending[i].jobId])
    requires forall k :: 0 <= k < i ==> pending[k].jobId in db.jobs && !WillAccept(accepted, db.jobs[pending[k].jobId])
    ensures NewestAcceptable(db, host, accepted, pending[i].id)
  {
    PendingListed(db, Some(host), pending);
    forall q | AcceptablePending(db, host, accepted, q)
      ensures db.runs[q].createTime <= db.runs[pending[i].id].createTime
    {
      var k :| 0 <= k < |pending| && pending[k].id == q;
      assert k >= i;
      assert Age(pending[i]) >= Age(pending[k]) || k == i;
    }
  }
}
